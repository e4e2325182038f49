# HomGar water-flow integration: poll orchestrator and sensor platform

This project models the two layers of the HomGar / RainPoint Home Assistant
integration that sit on top of the vendor client `HomgarApi`, and proves
properties of them in Dafny.

- **`HomgarApiWrapper`** (`api_wrapper.py`) holds the credentials, one vendor
  client, the topology cache `homes[hid][mid][address] -> sub-device`, the time
  of the last poll and an `available` flag. `authenticate` logs in. `poll`
  refuses to run within 120 time units of the last poll that went through. When
  it does run, it records the time before any vendor call, logs in, and walks
  homes, hubs and sub-devices. It writes into the cache in place as it goes.
  Any `HomgarApiException` sets `available` to false, replaces the client by a
  fresh one and is raised again.
- **The sensor platform** (`sensor.py`). Each sensor (total usage, reading time,
  signal strength) has a unique ID and registry data built from its keys. It
  reads its value and its availability from the shared wrapper through a
  three-level lookup with defaults. Updating a sensor polls the shared wrapper.
  Setup polls once, registers one hub device per hub, and creates three sensors
  for every sub-device whose kind is "Water Flow Meter".

Files and modules:

- `vendor_api.dfy`, module `VendorApi`: the vendor boundary. Homes, hubs and
  sub-devices are values. `HomgarApiException` is the vendor's exception.
  `Responses` gives the vendor's answer to each call of one poll, either a value
  or an exception. `HomgarApi` is an empty class, so "a fresh client" is
  `fresh(api)`.
- `topology.dfy`, module `Topology`: a reference definition of what one refresh
  does to the cache (`HubWalk`, `HubsWalk`, `HomeWalk`, `HomesWalk`,
  `RefreshWalk`), and lemmas about it.
- `api_wrapper.dfy`, module `ApiWrapper`: the class `HomgarApiWrapper`, whose
  methods update its fields in place and are proved against `PollStep`, plus
  lemmas on the rate limit.
- `sensor.dfy`, module `Sensor`: the sensor entity class, the lookup, the
  unique-ID format and the setup enumeration.

The three sensor subclasses are one class, `WaterflowSensor`, with a closed
`Attr` tag (`TotalUsage`, `Timestamp`, `RfRssi`). `ExtractNativeValue` stands
for the three `extractNativeValue` overrides.

### Where the code and the design disagree

The design describes an atomic swap of the topology: a failed poll would leave
the previous snapshot unchanged. The code does not do this. It assigns
`self.homes[home.hid] = hubs` and `hubs[hub.mid] = subdevs` before filling them.
So homes walked before a failure are already replaced, and the failing home may
be left empty or half filled. The model follows the code.
`FailureKeepsEarlierHomes` shows a failed walk that has already changed an
earlier home. `HomesWalkFail` describes exactly what a failed walk leaves.
Homes the vendor no longer lists are never removed from the cache.

Where the design leaves the choice open, the code's answer is used. A missing
home or hub (any vendor exception) fails the whole poll. A tick that comes
within the interval is a no-op.

## Model

| member | source | states |
|---|---|---|
| `ApiWrapper.HomgarApiWrapper.constructor` | api_wrapper.py:10-20 | a new wrapper has an empty cache, `last_poll = 0`, is available and owns a fresh client |
| `ApiWrapper.InitialState` | api_wrapper.py:16-18 | the starting state has no homes, last poll 0 and is available |
| `ApiWrapper.HomgarApiWrapper.Authenticate` | api_wrapper.py:22-34 | returns the login's own outcome; available exactly when it passed; on an exception the client is replaced by a fresh one, on success it is kept |
| `ApiWrapper.HomgarApiWrapper.Poll` | api_wrapper.py:36-68 | the new state and the returned or raised outcome are `PollStep` of the old state; a failure leaves a fresh client, a suppressed or successful poll keeps it |
| `ApiWrapper.HomgarApiWrapper.WalkHome` | api_wrapper.py:50-60 | one iteration of the home loop sets exactly `homes[hid]`, to what `HomeWalk` says, and stops at the first exception |
| `ApiWrapper.HomgarApiWrapper.WalkHub` | api_wrapper.py:55-60 | one iteration of the hub loop sets exactly `homes[hid][mid]`, to the empty map if the status call raises and otherwise to the refreshed sub-devices by address |
| `ApiWrapper.PollStep` | api_wrapper.py:39-68 | within 120 units of the last poll nothing changes and nothing is raised; otherwise `last_poll` becomes `now` whatever happens, the cache is what the in-place refresh leaves, and available holds exactly when the refresh passed; no home key is ever removed |
| `ApiWrapper.SuppressedPollsChangeNothing` | api_wrapper.py:39-41 | any number of polls within 120 units of the last poll that went through leave the whole state unchanged, whatever the vendor would answer |
| `ApiWrapper.BurstRefreshesOnce` | api_wrapper.py:39-44 | in a burst of polls less than 120 units after one that goes through, only that first poll has any effect, also when it fails, because the timer is reset first |
| `ApiWrapper.SuccessfulPollTopology` | api_wrapper.py:49-68 | after a successful poll the wrapper is available and every listed home has one key per hub the vendor listed for it |
| `Topology.AddressMap` | api_wrapper.py:58-60 | a hub's device map has exactly one key per listed address and files each sub-device under its own address |
| `Topology.AddressMapLatest` | api_wrapper.py:58-60 | under each address the map holds the last sub-device listed with it, so a later duplicate overwrites an earlier one |
| `Topology.AddressMapSnoc` | api_wrapper.py:58-60 | filing one more sub-device extends the map built so far |
| `Topology.HubWalk` | api_wrapper.py:55-60 | a hub's entry is empty when its status call raises, and otherwise has the addresses of the refreshed sub-devices |
| `Topology.HubsWalk` | api_wrapper.py:53-60 | a home's hub map only has mids of listed hubs, and all of them when the walk passes |
| `Topology.HubsWalkPass` | api_wrapper.py:53-60 | a walk over hubs that passed fetched every hub's status, and each mid holds the device map of the last hub listed with that mid |
| `Topology.HubsWalkFail` | api_wrapper.py:55-57 | a walk over hubs that failed did so at one hub whose status raised the walk's exception; earlier hubs are filled and that hub's entry is empty |
| `Topology.HubsWalkStops` | api_wrapper.py:53-61 | no hub after the failing one is visited |
| `Topology.HomeWalk` | api_wrapper.py:51-53 | a home whose hub listing raises is left with an empty hub map; one that passes has one key per listed hub |
| `Topology.HomesWalk` | api_wrapper.py:49-60 | only listed homes are written: no key is removed, no unlisted key is added, and unlisted homes keep their prior entries |
| `Topology.HomesWalkPass` | api_wrapper.py:49-60 | a walk that passed fetched and walked every listed home's hubs and stored each home's hub map, one key per listed mid |
| `Topology.HomesWalkFail` | api_wrapper.py:49-66 | a failed walk stopped at one home: earlier homes were fully walked, the failing home holds what was built before the exception, and homes after it keep their prior entries |
| `Topology.HomesWalkStops` | api_wrapper.py:49-61 | no home after the failing one is visited |
| `Topology.RefreshWalk` | api_wrapper.py:46-53 | a failed login or home listing leaves the cache unchanged and raises that exception; a pass means both calls passed |
| `Topology.FailureKeepsEarlierHomes` | api_wrapper.py:49-56 | when a second home fails, the first home's entry has already been replaced: a failed poll can change the cache |
| `Topology.WithDevices` | api_wrapper.py:56 | setting one hub's device map keeps all home keys and adds only that mid |
| `Sensor.Lookup` | sensor.py:46-50 | the chained lookup with empty-map defaults finds a sub-device exactly when hid, mid and address are all present at their levels, and then finds `homes[hid][mid][address]` |
| `Sensor.WaterflowSensor.NativeValue` | sensor.py:43-59 | 0.0 when any key is missing; otherwise `totalUsage`, the reading time or `rf_rssi` of the sub-device, by sensor kind (sensor.py:96-98, 115-117, 134-136) |
| `Sensor.WaterflowSensor.Available` | sensor.py:65-73 | true exactly when the wrapper is available and the sub-device is in its topology |
| `Sensor.WaterflowSensor.Update` | sensor.py:75-79 | the shared wrapper's state and the outcome are those of one `poll` |
| `Sensor.WaterflowSensor.constructor` | sensor.py:23-41 | the unique ID is `"{hid}_{mid}_{address} {attr}"`; the device is `"meter {mid}_{address}"` via `"hub {mid}"`, made by RainPoint, model "Water Flow Meter" |
| `Sensor.AttrName` | sensor.py:90 | the attribute names that end unique IDs contain no space |
| `Sensor.UniqueIdInjective` | sensor.py:34 | unique IDs are equal exactly when hid, mid, address and kind are, provided ids have no `_` and addresses no space |
| `Sensor.UniqueIdCollision` | sensor.py:34 | without that proviso two different sensors can share a unique ID |
| `Sensor.SplitFirstJoin` | sensor.py:34 | splitting at the first separator recovers the two parts the ID was joined from |
| `Sensor.SharedWrapperUpdates` | sensor.py:75-79 | two sensors on one wrapper updated less than 120 units apart: the second update changes nothing and raises nothing |
| `Sensor.MeterSensors` | sensor.py:171-185 | a meter gets exactly three sensors, total usage, timestamp and signal strength, in that order |
| `Sensor.EnumerateHub` | sensor.py:168-191 | the sensors of one hub are three per meter and none for other sub-devices |
| `Sensor.EnumerateHome` | sensor.py:159-191 | one home gives one hub device per hub, with or without meters, and three sensors per meter |
| `Sensor.EnumerateEntities` | sensor.py:156-192 | the sensor keys are exactly the three kinds of every meter in the topology, their number is 3 times the number of meters, and the hub devices are one per hub |
| `Sensor.SetupEntry` | sensor.py:139-193 | setup polls once; if the poll raises there are no entities; otherwise it creates the sensors above, each available exactly when the wrapper is |

## Left out

- The vendor client's internals (login, HTTP, token refresh, device decoding)
  are not part of this model. Each call is an oracle answer in `Responses`.
  The answer depends only on the call's argument within one poll.
  `get_device_status(hub)` refreshes the hub's sub-devices in place; here it is
  modelled as returning the refreshed list.
- The client object's session state is not modelled. Replacing the client is
  `fresh(api)`, and the vendor's answers do not depend on which client is used.
  `poll` calls `authenticate`, so when login fails inside a poll the client is
  replaced twice, once in each handler. The model does the same.
- `time.time()` is a float wall clock. It is the integer argument `now`.
- The order of dictionary iteration in setup is not modelled. The loops take the
  keys in any order. The contracts fix which entities are created and how many,
  but not their order in the list.
- The integration's `DOMAIN` constant lives in `const.py`, which is not part of
  this model. Device identifiers are recorded by their string part only.
- The device registry is recorded only as the set of hub identifiers that setup
  registers. Its other fields (config entry, model and name of the hub) are left
  out.
- The time zone the timestamp sensor attaches to its reading (sensor.py:115-117)
  is left out. The reading time is shown as an integer. Readings are `real`
  (`totalUsage`) and `int` (`rf_rssi`, reading time).
- The base class's `extractNativeValue`, which returns `None`, is left out.
  Every sensor that is created is one of the three subclasses.
- Logging, the executor dispatch of the initial poll and `async_add_entities`
  are platform concerns. Concurrent polls are also left out: the code has no
  lock, and its calls are modelled one after another.
- `config_flow.py` only calls `authenticate`, and `homgarapi/__main__.py` is a
  command-line demo. Neither is part of this model.
- Sensor unit, device class and state class are set in the constructor. They
  are recorded as fields with no properties proved about them.
