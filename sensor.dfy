/** The sensor platform: three sensors (total usage, reading time, signal
    strength) per water-flow meter in the wrapper's topology. A sensor reads its
    value and availability from the shared wrapper through a three-level lookup
    with defaults, and updating a sensor polls the shared wrapper. */
module Sensor {
  import opened VendorApi
  import opened Topology
  import opened ApiWrapper

  /** The kind of sub-device that gets sensors. */
  const WaterFlowMeterDesc: string := "Water Flow Meter"

  /** The three sensor kinds; each is one subclass of the sensor base. */
  datatype Attr = TotalUsage | Timestamp | RfRssi

  /** The attribute name that ends a sensor's unique ID. */
  function AttrName(attr: Attr): (name: string)
    ensures ' ' !in name
  {
    match attr
    case TotalUsage => "totalUsage"
    case Timestamp => "timestamp"
    case RfRssi => "rf_rssi"
  }

  /** A sensor's native value: litres, a reading time, or dBm. */
  datatype Value = FloatValue(f: real) | TimeValue(t: int) | IntValue(i: int)

  datatype DeviceClass = Water | TimestampClass | SignalStrength
  datatype StateClass = Total | Measurement

  /** The device-registry entry of a meter; identifiers are given without the
      integration's domain. */
  datatype DeviceInfo = DeviceInfo(
    identifier: string,
    manufacturer: string,
    model: string,
    name: string,
    viaDevice: string)

  function UniqueId(hid: string, mid: string, address: string, attr: Attr): string
  {
    hid + "_" + mid + "_" + address + " " + AttrName(attr)
  }

  function MeterIdentifier(mid: string, address: string): string
  {
    "meter " + mid + "_" + address
  }

  function HubIdentifier(mid: string): string
  {
    "hub " + mid
  }

  function MeterDeviceInfo(mid: string, address: string): DeviceInfo
  {
    DeviceInfo(
      MeterIdentifier(mid, address),
      "RainPoint",
      "Water Flow Meter",
      "RainPoint Water Flow Meter " + mid + " (" + address + ")",
      HubIdentifier(mid))
  }

  function UnitOf(attr: Attr): Option<string>
  {
    match attr
    case TotalUsage => Some("L")
    case Timestamp => None
    case RfRssi => Some("dBm")
  }

  function DeviceClassOf(attr: Attr): DeviceClass
  {
    match attr
    case TotalUsage => Water
    case Timestamp => TimestampClass
    case RfRssi => SignalStrength
  }

  function StateClassOf(attr: Attr): Option<StateClass>
  {
    match attr
    case TotalUsage => Some(Total)
    case Timestamp => None
    case RfRssi => Some(Measurement)
  }

  /** `m.get(k, default)`. */
  function Get<K, V>(m: map<K, V>, k: K, default: V): V
  {
    if k in m then m[k] else default
  }

  /** `homes.get(hid, {}).get(mid, {}).get(address)`: finds the sub-device
      exactly when all three keys are present, each at its own level. */
  function Lookup(homes: Homes, hid: string, mid: string, address: string): (r: Option<SubDevice>)
    ensures r.Some? <==> hid in homes && mid in homes[hid] && address in homes[hid][mid]
    ensures r.Some? ==> r.value == homes[hid][mid][address]
  {
    var devices := Get(Get(homes, hid, map[]), mid, map[]);
    if address in devices then Some(devices[address]) else None
  }

  /** The reading each sensor kind shows. The time zone the timestamp sensor
      attaches is not part of this model. */
  function ExtractNativeValue(attr: Attr, sd: SubDevice): Value
  {
    match attr
    case TotalUsage => FloatValue(sd.totalUsage)
    case Timestamp => TimeValue(sd.timestamp)
    case RfRssi => IntValue(sd.rfRssi)
  }

  /** The part of `s` before the first `sep`, and the part after it. */
  function SplitFirst(s: string, sep: char): (string, string)
  {
    if s == [] then ([], [])
    else if s[0] == sep then ([], s[1..])
    else
      var rest := SplitFirst(s[1..], sep);
      ([s[0]] + rest.0, rest.1)
  }

  /** Splitting a string at the first occurrence of a separator that the
      first part does not contain recovers both parts. */
  lemma {:induction false} SplitFirstJoin(x: string, y: string, sep: char)
    requires sep !in x
    ensures SplitFirst(x + [sep] + y, sep) == (x, y)
  {
    if x == [] {
      assert x + [sep] + y == [sep] + y;
    } else {
      var s := x + [sep] + y;
      assert s[0] == x[0] && s[0] != sep;
      assert s[1..] == x[1..] + [sep] + y;
      SplitFirstJoin(x[1..], y, sep);
      assert [x[0]] + x[1..] == x;
    }
  }

  /** Unique IDs tell sensors apart as long as home and hub ids contain no
      underscore and addresses no space (for instance numeric ids). */
  lemma UniqueIdInjective(hid: string, mid: string, address: string, attr: Attr,
                          hid': string, mid': string, address': string, attr': Attr)
    requires '_' !in hid && '_' !in mid && ' ' !in address
    requires '_' !in hid' && '_' !in mid' && ' ' !in address'
    ensures UniqueId(hid, mid, address, attr) == UniqueId(hid', mid', address', attr') <==>
      hid == hid' && mid == mid' && address == address' && attr == attr'
  {
    if UniqueId(hid, mid, address, attr) == UniqueId(hid', mid', address', attr') {
      UniqueIdParts(hid, mid, address, attr);
      UniqueIdParts(hid', mid', address', attr');
      var tail, tail' := address + [' '] + AttrName(attr), address' + [' '] + AttrName(attr');
      var rest, rest' := mid + ['_'] + tail, mid' + ['_'] + tail';
      SplitFirstJoin(hid, rest, '_');
      SplitFirstJoin(hid', rest', '_');
      assert hid == hid' && rest == rest';
      SplitFirstJoin(mid, tail, '_');
      SplitFirstJoin(mid', tail', '_');
      assert mid == mid' && tail == tail';
      SplitFirstJoin(address, AttrName(attr), ' ');
      SplitFirstJoin(address', AttrName(attr'), ' ');
      assert address == address' && AttrName(attr) == AttrName(attr');
    }
  }

  lemma UniqueIdParts(hid: string, mid: string, address: string, attr: Attr)
    ensures UniqueId(hid, mid, address, attr) ==
      hid + ['_'] + (mid + ['_'] + (address + [' '] + AttrName(attr)))
  {
  }

  /** Without those conditions two sensors can share a unique ID. */
  lemma UniqueIdCollision()
    ensures UniqueId("1_2", "3", "4", TotalUsage) == UniqueId("1", "2_3", "4", TotalUsage)
  {
  }

  /** One sensor entity. Its wrapper, keys and registry data never change after
      construction; its value and availability follow the shared wrapper. */
  class WaterflowSensor {
    const apiWrapper: HomgarApiWrapper
    const hid: string
    const mid: string
    const address: string
    const attr: Attr
    const uniqueId: string
    const deviceInfo: DeviceInfo
    const unit: Option<string>
    const deviceClass: DeviceClass
    const stateClass: Option<StateClass>

    constructor (apiWrapper: HomgarApiWrapper, hid: string, mid: string, address: string, attr: Attr)
      ensures this.apiWrapper == apiWrapper && this.attr == attr
      ensures this.hid == hid && this.mid == mid && this.address == address
      ensures uniqueId == UniqueId(hid, mid, address, attr)
      ensures deviceInfo == MeterDeviceInfo(mid, address)
      ensures unit == UnitOf(attr) && deviceClass == DeviceClassOf(attr) && stateClass == StateClassOf(attr)
    {
      this.apiWrapper := apiWrapper;
      this.hid := hid;
      this.mid := mid;
      this.address := address;
      this.attr := attr;
      uniqueId := UniqueId(hid, mid, address, attr);
      deviceInfo := MeterDeviceInfo(mid, address);
      unit := UnitOf(attr);
      deviceClass := DeviceClassOf(attr);
      stateClass := StateClassOf(attr);
    }

    /** The reading of this sensor's kind from the sub-device in the wrapper's
        topology, or 0.0 when the home, the hub or the address is missing. */
    function NativeValue(): (v: Value)
      reads apiWrapper
      ensures !(hid in apiWrapper.homes && mid in apiWrapper.homes[hid] && address in apiWrapper.homes[hid][mid]) ==>
        v == FloatValue(0.0)
      ensures hid in apiWrapper.homes && mid in apiWrapper.homes[hid] && address in apiWrapper.homes[hid][mid] ==>
        var sd := apiWrapper.homes[hid][mid][address];
        && (attr == TotalUsage ==> v == FloatValue(sd.totalUsage))
        && (attr == Timestamp ==> v == TimeValue(sd.timestamp))
        && (attr == RfRssi ==> v == IntValue(sd.rfRssi))
    {
      match Lookup(apiWrapper.homes, hid, mid, address)
      case None => FloatValue(0.0)
      case Some(sd) => ExtractNativeValue(attr, sd)
    }

    /** Available exactly when the wrapper is and the sub-device is in its
        topology. */
    predicate Available()
      reads apiWrapper
      ensures Available() <==>
        apiWrapper.available && hid in apiWrapper.homes && mid in apiWrapper.homes[hid] &&
        address in apiWrapper.homes[hid][mid]
    {
      apiWrapper.available && Lookup(apiWrapper.homes, hid, mid, address).Some?
    }

    /** Polls the shared wrapper; the wrapper's rate limit therefore covers
        every sensor that shares it. */
    method Update(now: int, r: Responses) returns (outcome: Outcome)
      modifies apiWrapper
      ensures apiWrapper.State() ==
        PollStep(old(apiWrapper.State()), now, r, apiWrapper.username, apiWrapper.password).state
      ensures outcome == PollStep(old(apiWrapper.State()), now, r, apiWrapper.username, apiWrapper.password).outcome
    {
      outcome := apiWrapper.Poll(now, r);
    }
  }

  /** Two sensors sharing one wrapper, updated less than `MinPollInterval`
      apart after the first update reached the vendor: the second update
      changes nothing. */
  method SharedWrapperUpdates(a: WaterflowSensor, b: WaterflowSensor, t1: int, r1: Responses, t2: int, r2: Responses)
    returns (o1: Outcome, o2: Outcome)
    requires a.apiWrapper == b.apiWrapper
    requires t1 - a.apiWrapper.lastPoll >= MinPollInterval
    requires t2 - t1 < MinPollInterval
    modifies a.apiWrapper
    ensures a.apiWrapper.State() ==
      PollStep(old(a.apiWrapper.State()), t1, r1, a.apiWrapper.username, a.apiWrapper.password).state
    ensures o2 == Pass
  {
    o1 := a.Update(t1, r1);
    o2 := b.Update(t2, r2);
  }

  /** A meter in the topology: the keys of a sub-device that gets sensors. */
  datatype MeterKey = MeterKey(hid: string, mid: string, address: string)

  /** What tells one sensor entity from another. */
  datatype EntityKey = EntityKey(hid: string, mid: string, address: string, attr: Attr)

  predicate IsMeter(sd: SubDevice)
  {
    sd.friendlyDesc == WaterFlowMeterDesc
  }

  /** Every water-flow meter in the topology. */
  ghost function Meters(homes: Homes): set<MeterKey>
  {
    set hid, mid, address | hid in homes && mid in homes[hid] && address in homes[hid][mid] &&
      IsMeter(homes[hid][mid][address]) :: MeterKey(hid, mid, address)
  }

  /** The water-flow meters of one home. */
  ghost function HomeMeters(hid: string, hubs: Hubs): set<MeterKey>
  {
    set mid, address | mid in hubs && address in hubs[mid] && IsMeter(hubs[mid][address]) ::
      MeterKey(hid, mid, address)
  }

  /** The water-flow meters of one hub. */
  ghost function HubMeters(hid: string, mid: string, devices: Devices): set<MeterKey>
  {
    set address | address in devices && IsMeter(devices[address]) :: MeterKey(hid, mid, address)
  }

  /** The hub devices setup registers: one per hub in the topology. */
  ghost function HubIdentifiers(homes: Homes): set<string>
  {
    set hid, mid | hid in homes && mid in homes[hid] :: HubIdentifier(mid)
  }

  ghost function HomeHubIdentifiers(hubs: Hubs): set<string>
  {
    set mid | mid in hubs :: HubIdentifier(mid)
  }

  ghost function KeysOfKind(meters: set<MeterKey>, attr: Attr): set<EntityKey>
  {
    set m | m in meters :: EntityKey(m.hid, m.mid, m.address, attr)
  }

  /** The three sensors of every meter. */
  ghost function EntityKeys(meters: set<MeterKey>): set<EntityKey>
  {
    KeysOfKind(meters, TotalUsage) + KeysOfKind(meters, Timestamp) + KeysOfKind(meters, RfRssi)
  }

  function KeyOf(e: WaterflowSensor): EntityKey
  {
    EntityKey(e.hid, e.mid, e.address, e.attr)
  }

  ghost function KeysOfEntities(es: seq<WaterflowSensor>): set<EntityKey>
  {
    set i | 0 <= i < |es| :: KeyOf(es[i])
  }

  /** A sensor built by setup for wrapper `w`. */
  ghost predicate SensorOf(e: WaterflowSensor, w: HomgarApiWrapper)
  {
    && e.apiWrapper == w
    && e.uniqueId == UniqueId(e.hid, e.mid, e.address, e.attr)
    && e.deviceInfo == MeterDeviceInfo(e.mid, e.address)
  }

  ghost predicate AllSensorsOf(es: seq<WaterflowSensor>, w: HomgarApiWrapper)
  {
    forall i :: 0 <= i < |es| ==> SensorOf(es[i], w)
  }

  lemma EntityKeysUnion(a: set<MeterKey>, b: set<MeterKey>)
    ensures EntityKeys(a + b) == EntityKeys(a) + EntityKeys(b)
  {
    forall attr: Attr ensures KeysOfKind(a + b, attr) == KeysOfKind(a, attr) + KeysOfKind(b, attr) {
    }
  }

  lemma KeysOfEntitiesAppend(es: seq<WaterflowSensor>, more: seq<WaterflowSensor>)
    ensures KeysOfEntities(es + more) == KeysOfEntities(es) + KeysOfEntities(more)
  {
    var all := es + more;
    forall k | k in KeysOfEntities(all) ensures k in KeysOfEntities(es) + KeysOfEntities(more) {
      var i :| 0 <= i < |all| && KeyOf(all[i]) == k;
      if i < |es| { assert all[i] == es[i]; } else { assert all[i] == more[i - |es|]; }
    }
    forall k | k in KeysOfEntities(es) ensures k in KeysOfEntities(all) {
      var i :| 0 <= i < |es| && KeyOf(es[i]) == k;
      assert all[i] == es[i];
    }
    forall k | k in KeysOfEntities(more) ensures k in KeysOfEntities(all) {
      var i :| 0 <= i < |more| && KeyOf(more[i]) == k;
      assert all[|es| + i] == more[i];
    }
  }

  lemma SensorsAppend(es: seq<WaterflowSensor>, more: seq<WaterflowSensor>, w: HomgarApiWrapper)
    requires AllSensorsOf(es, w) && AllSensorsOf(more, w)
    ensures AllSensorsOf(es + more, w)
  {
    forall i | 0 <= i < |es + more| ensures SensorOf((es + more)[i], w) {
      if i < |es| { assert (es + more)[i] == es[i]; } else { assert (es + more)[i] == more[i - |es|]; }
    }
  }

  /** The sensors of one meter, in the order setup creates them. */
  method MeterSensors(wrapper: HomgarApiWrapper, hid: string, mid: string, address: string)
    returns (es: seq<WaterflowSensor>)
    ensures AllSensorsOf(es, wrapper)
    ensures KeysOfEntities(es) == EntityKeys({MeterKey(hid, mid, address)})
    ensures |es| == 3
    ensures es[0].attr == TotalUsage && es[1].attr == Timestamp && es[2].attr == RfRssi
  {
    var usage := new WaterflowSensor(wrapper, hid, mid, address, TotalUsage);
    var time := new WaterflowSensor(wrapper, hid, mid, address, Timestamp);
    var rssi := new WaterflowSensor(wrapper, hid, mid, address, RfRssi);
    es := [usage, time, rssi];
    assert KeysOfEntities(es) == {KeyOf(usage), KeyOf(time), KeyOf(rssi)} by {
      forall k | k in KeysOfEntities(es) ensures k in {KeyOf(usage), KeyOf(time), KeyOf(rssi)} {
        var i :| 0 <= i < 3 && KeyOf(es[i]) == k;
      }
      assert KeyOf(es[0]) in KeysOfEntities(es);
      assert KeyOf(es[1]) in KeysOfEntities(es);
      assert KeyOf(es[2]) in KeysOfEntities(es);
    }
  }

  /** The innermost loop of setup: the sensors of every meter of one hub. */
  method EnumerateHub(wrapper: HomgarApiWrapper, hid: string, mid: string, devices: Devices)
    returns (es: seq<WaterflowSensor>)
    ensures AllSensorsOf(es, wrapper)
    ensures KeysOfEntities(es) == EntityKeys(HubMeters(hid, mid, devices))
    ensures |es| == 3 * |HubMeters(hid, mid, devices)|
  {
    es := [];
    ghost var done: set<MeterKey> := {};
    var addresses := devices.Keys;
    while addresses != {}
      invariant addresses <= devices.Keys
      invariant done <= HubMeters(hid, mid, devices)
      invariant forall m :: m in HubMeters(hid, mid, devices) ==> (m in done <==> m.address !in addresses)
      invariant AllSensorsOf(es, wrapper)
      invariant KeysOfEntities(es) == EntityKeys(done)
      invariant |es| == 3 * |done|
      decreases |addresses|
    {
      var address :| address in addresses;
      if IsMeter(devices[address]) {
        var m := MeterKey(hid, mid, address);
        assert m in HubMeters(hid, mid, devices);
        var more := MeterSensors(wrapper, hid, mid, address);
        KeysOfEntitiesAppend(es, more);
        EntityKeysUnion(done, {m});
        SensorsAppend(es, more, wrapper);
        es := es + more;
        done := done + {m};
      }
      addresses := addresses - {address};
    }
    assert done == HubMeters(hid, mid, devices);
  }

  /** The middle loop of setup: one hub device and the meters' sensors for
      every hub of one home. */
  method EnumerateHome(wrapper: HomgarApiWrapper, hid: string, hubs: Hubs)
    returns (es: seq<WaterflowSensor>, hubIds: set<string>)
    ensures AllSensorsOf(es, wrapper)
    ensures KeysOfEntities(es) == EntityKeys(HomeMeters(hid, hubs))
    ensures |es| == 3 * |HomeMeters(hid, hubs)|
    ensures hubIds == HomeHubIdentifiers(hubs)
  {
    es := [];
    hubIds := {};
    ghost var done: set<MeterKey> := {};
    var mids := hubs.Keys;
    while mids != {}
      invariant mids <= hubs.Keys
      invariant done <= HomeMeters(hid, hubs)
      invariant forall m :: m in HomeMeters(hid, hubs) ==> (m in done <==> m.mid !in mids)
      invariant hubIds == set mid | mid in hubs && mid !in mids :: HubIdentifier(mid)
      invariant AllSensorsOf(es, wrapper)
      invariant KeysOfEntities(es) == EntityKeys(done)
      invariant |es| == 3 * |done|
      decreases |mids|
    {
      var mid :| mid in mids;
      hubIds := hubIds + {HubIdentifier(mid)};
      var more := EnumerateHub(wrapper, hid, mid, hubs[mid]);
      ghost var found := HubMeters(hid, mid, hubs[mid]);
      assert found <= HomeMeters(hid, hubs);
      assert forall m :: m in found ==> m.mid == mid;
      assert done * found == {};
      KeysOfEntitiesAppend(es, more);
      EntityKeysUnion(done, found);
      SensorsAppend(es, more, wrapper);
      es := es + more;
      done := done + found;
      mids := mids - {mid};
    }
    assert done == HomeMeters(hid, hubs);
  }

  /** The hub devices of the homes not in `hids`. */
  ghost function HubIdentifiersExcept(homes: Homes, hids: set<string>): set<string>
  {
    set hid, mid | hid in homes && hid !in hids && mid in homes[hid] :: HubIdentifier(mid)
  }

  lemma HubIdentifiersStep(homes: Homes, hids: set<string>, hid: string)
    requires hid in hids && hid in homes
    ensures HubIdentifiersExcept(homes, hids - {hid}) ==
      HubIdentifiersExcept(homes, hids) + HomeHubIdentifiers(homes[hid])
  {
  }

  /** Taking the meters of one more home keeps the outer loop's account of
      which meters are done, and adds only meters not done before. */
  lemma MetersStep(homes: Homes, done: set<MeterKey>, hids: set<string>, hid: string)
    requires hid in hids && hid in homes
    requires done <= Meters(homes)
    requires forall m :: m in Meters(homes) ==> (m in done <==> m.hid !in hids)
    ensures done + HomeMeters(hid, homes[hid]) <= Meters(homes)
    ensures forall m :: m in Meters(homes) ==> (m in done + HomeMeters(hid, homes[hid]) <==> m.hid !in hids - {hid})
    ensures done * HomeMeters(hid, homes[hid]) == {}
  {
    var found := HomeMeters(hid, homes[hid]);
    forall m | m in found ensures m in Meters(homes) && m.hid == hid {
    }
    forall m | m in Meters(homes) && m.hid == hid ensures m in found {
    }
  }

  /** The entity loop of setup: for every meter in the wrapper's topology the
      three sensors, and nothing for other sub-devices; one hub device for every
      hub, with or without meters. The order of the dictionaries is not part of
      this model, so the loops take the keys in any order. */
  method EnumerateEntities(wrapper: HomgarApiWrapper) returns (entities: seq<WaterflowSensor>, hubIds: set<string>)
    ensures forall e :: e in entities ==> SensorOf(e, wrapper)
    ensures KeysOfEntities(entities) == EntityKeys(Meters(wrapper.homes))
    ensures |entities| == 3 * |Meters(wrapper.homes)|
    ensures hubIds == HubIdentifiers(wrapper.homes)
  {
    var topo := wrapper.homes;
    entities := [];
    hubIds := {};
    ghost var done: set<MeterKey> := {};
    var hids := topo.Keys;
    while hids != {}
      invariant hids <= topo.Keys
      invariant done <= Meters(topo)
      invariant forall m :: m in Meters(topo) ==> (m in done <==> m.hid !in hids)
      invariant hubIds == HubIdentifiersExcept(topo, hids)
      invariant AllSensorsOf(entities, wrapper)
      invariant KeysOfEntities(entities) == EntityKeys(done)
      invariant |entities| == 3 * |done|
      decreases |hids|
    {
      var hid :| hid in hids;
      var more, ids := EnumerateHome(wrapper, hid, topo[hid]);
      MetersStep(topo, done, hids, hid);
      HubIdentifiersStep(topo, hids, hid);
      KeysOfEntitiesAppend(entities, more);
      EntityKeysUnion(done, HomeMeters(hid, topo[hid]));
      SensorsAppend(entities, more, wrapper);
      entities := entities + more;
      done := done + HomeMeters(hid, topo[hid]);
      hubIds := hubIds + ids;
      hids := hids - {hid};
    }
    assert done == Meters(topo);
    assert HubIdentifiersExcept(topo, {}) == HubIdentifiers(topo);
    forall e | e in entities ensures SensorOf(e, wrapper) {
      var i :| 0 <= i < |entities| && entities[i] == e;
    }
  }

  /** Setup of the platform: one poll of the wrapper, then the entity loop.
      An exception from the poll ends setup with no entities. Right after
      setup every sensor's availability is the wrapper's flag, since each one
      stands for a sub-device that is in the topology. */
  method SetupEntry(wrapper: HomgarApiWrapper, now: int, r: Responses)
    returns (outcome: Outcome, entities: seq<WaterflowSensor>, hubIds: set<string>)
    modifies wrapper
    ensures wrapper.State() == PollStep(old(wrapper.State()), now, r, wrapper.username, wrapper.password).state
    ensures outcome == PollStep(old(wrapper.State()), now, r, wrapper.username, wrapper.password).outcome
    ensures outcome.Fail? ==> entities == [] && hubIds == {}
    ensures outcome.Pass? ==>
      && (forall e :: e in entities ==> SensorOf(e, wrapper))
      && KeysOfEntities(entities) == EntityKeys(Meters(wrapper.homes))
      && |entities| == 3 * |Meters(wrapper.homes)|
      && hubIds == HubIdentifiers(wrapper.homes)
      && (forall e :: e in entities ==> (e.Available() <==> wrapper.available))
  {
    outcome := wrapper.Poll(now, r);
    if outcome.Fail? {
      return outcome, [], {};
    }
    entities, hubIds := EnumerateEntities(wrapper);
    forall e | e in entities ensures e.Available() <==> wrapper.available {
      var i :| 0 <= i < |entities| && entities[i] == e;
      assert KeyOf(e) in KeysOfEntities(entities);
      var m :| m in Meters(wrapper.homes) && m.hid == e.hid && m.mid == e.mid && m.address == e.address;
    }
  }
}
