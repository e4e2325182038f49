/** The boundary to the vendor client `HomgarApi`, whose internals are not
    part of this model. Its records (homes, hubs, sub-devices) are values; its
    calls are an oracle: for every call the vendor either answers with a value
    or raises a `HomgarApiException`. */
module VendorApi {

  /** The exception the vendor client raises; the message is whatever it reports. */
  datatype HomgarApiException = HomgarApiException(message: string)

  /** A call that returns nothing: it either passes or raises. */
  datatype Outcome = Pass | Fail(error: HomgarApiException)

  /** A call that returns a value or raises. */
  datatype Result<T> = Ok(value: T) | Err(error: HomgarApiException)

  datatype Option<T> = None | Some(value: T)

  /** A home (hid, display name). */
  datatype Home = Home(hid: string, name: string)

  /** A sub-device of a hub with its last-known readings. `friendlyDesc` is the
      kind the vendor library reports as FRIENDLY_DESC; `timestamp` is the
      reading time as seconds. */
  datatype SubDevice = SubDevice(
    address: string,
    name: string,
    friendlyDesc: string,
    totalUsage: real,
    timestamp: int,
    rfRssi: int)

  /** A hub (mid, display name) and the sub-devices it reports. */
  datatype Hub = Hub(mid: string, name: string, subdevices: seq<SubDevice>)

  /** What the vendor answers during one poll. `getDeviceStatus(hub)` is the
      hub's sub-device list once the status call has refreshed its readings. */
  datatype Responses = Responses(
    ensureLoggedIn: (string, string) -> Outcome,
    getHomes: Result<seq<Home>>,
    getDevicesForHid: string -> Result<seq<Hub>>,
    getDeviceStatus: Hub -> Result<seq<SubDevice>>)

  /** The vendor client object that holds the session; the wrapper only ever
      creates a fresh one and keeps it. */
  class HomgarApi {
    constructor ()
    {
    }
  }
}
