/** The topology cache `homes[hid][mid][address]` and a reference definition of
    what one refresh does to it. The refresh walks homes, then each home's hubs,
    then each hub's sub-devices, and writes into the existing map as it goes:
    `homes[hid]` is reset to an empty hub map before the hub list is fetched,
    and `homes[hid][mid]` to an empty device map before the status is fetched.
    A failing call ends the walk where it is, so the `tree` of a failed walk is
    the map as the failure leaves it. */
module Topology {
  import opened VendorApi

  /** address -> sub-device, for one hub. */
  type Devices = map<string, SubDevice>
  /** mid -> devices, for one home. */
  type Hubs = map<string, Devices>
  /** hid -> hubs: the whole topology. */
  type Homes = map<string, Hubs>

  /** The map a walk leaves behind and whether it ran to the end. */
  datatype Walk<T> = Walk(tree: T, outcome: Outcome)

  function Addresses(sds: seq<SubDevice>): set<string>
  {
    set i | 0 <= i < |sds| :: sds[i].address
  }

  function Mids(hubs: seq<Hub>): set<string>
  {
    set i | 0 <= i < |hubs| :: hubs[i].mid
  }

  function Hids(homes: seq<Home>): set<string>
  {
    set i | 0 <= i < |homes| :: homes[i].hid
  }

  lemma AddressesSnoc(sds: seq<SubDevice>)
    requires sds != []
    ensures Addresses(sds) == Addresses(sds[..|sds| - 1]) + {sds[|sds| - 1].address}
  {
    var front := sds[..|sds| - 1];
    forall a | a in Addresses(sds)
      ensures a in Addresses(front) + {sds[|sds| - 1].address}
    {
      var i :| 0 <= i < |sds| && sds[i].address == a;
      if i < |sds| - 1 { assert front[i] == sds[i]; }
    }
    forall a | a in Addresses(front)
      ensures a in Addresses(sds)
    {
      var i :| 0 <= i < |front| && front[i].address == a;
      assert sds[i] == front[i];
    }
  }

  lemma MidsSnoc(hubs: seq<Hub>)
    requires hubs != []
    ensures Mids(hubs) == Mids(hubs[..|hubs| - 1]) + {hubs[|hubs| - 1].mid}
  {
    var front := hubs[..|hubs| - 1];
    forall m | m in Mids(hubs)
      ensures m in Mids(front) + {hubs[|hubs| - 1].mid}
    {
      var i :| 0 <= i < |hubs| && hubs[i].mid == m;
      if i < |hubs| - 1 { assert front[i] == hubs[i]; }
    }
    forall m | m in Mids(front)
      ensures m in Mids(hubs)
    {
      var i :| 0 <= i < |front| && front[i].mid == m;
      assert hubs[i] == front[i];
    }
  }

  lemma HidsSnoc(homes: seq<Home>)
    requires homes != []
    ensures Hids(homes) == Hids(homes[..|homes| - 1]) + {homes[|homes| - 1].hid}
  {
    var front := homes[..|homes| - 1];
    forall h | h in Hids(homes)
      ensures h in Hids(front) + {homes[|homes| - 1].hid}
    {
      var i :| 0 <= i < |homes| && homes[i].hid == h;
      if i < |homes| - 1 { assert front[i] == homes[i]; }
    }
    forall h | h in Hids(front)
      ensures h in Hids(homes)
    {
      var i :| 0 <= i < |front| && front[i].hid == h;
      assert homes[i] == front[i];
    }
  }

  /** The device map one hub ends up with: its sub-devices inserted in list
      order under their addresses. It has exactly one key per listed address
      and files every sub-device under its own address. */
  function AddressMap(sds: seq<SubDevice>): (m: Devices)
    ensures m.Keys == Addresses(sds)
    ensures forall a :: a in m ==> m[a].address == a
  {
    if sds == [] then map[]
    else
      var sd := sds[|sds| - 1];
      AddressesSnoc(sds);
      AddressMap(sds[..|sds| - 1])[sd.address := sd]
  }

  /** Filing one more sub-device extends the map built so far. */
  lemma AddressMapSnoc(sds: seq<SubDevice>, k: nat)
    requires k < |sds|
    ensures AddressMap(sds[..k + 1]) == AddressMap(sds[..k])[sds[k].address := sds[k]]
  {
    assert sds[..k + 1][..k] == sds[..k];
  }

  /** A later sub-device with the same address overwrites an earlier one: the
      map holds the LAST sub-device listed under each address. */
  lemma {:induction false} AddressMapLatest(sds: seq<SubDevice>, j: nat)
    requires j < |sds|
    requires forall k :: j < k < |sds| ==> sds[k].address != sds[j].address
    ensures sds[j].address in AddressMap(sds)
    ensures AddressMap(sds)[sds[j].address] == sds[j]
  {
    if j < |sds| - 1 {
      var front := sds[..|sds| - 1];
      assert front[j] == sds[j];
      forall k | j < k < |front| ensures front[k].address != front[j].address {
        assert front[k] == sds[k];
      }
      AddressMapLatest(front, j);
    }
  }

  /** The device map of one hub: empty while its status call is made, then
      filled with the refreshed sub-devices; empty if the call raises. */
  function HubWalk(r: Responses, hub: Hub): (w: Walk<Devices>)
    ensures w.outcome.Fail? ==> w.tree == map[] && r.getDeviceStatus(hub).Err?
    ensures w.outcome.Pass? ==> r.getDeviceStatus(hub).Ok? && w.tree.Keys == Addresses(r.getDeviceStatus(hub).value)
  {
    match r.getDeviceStatus(hub)
    case Err(e) => Walk(map[], Fail(e))
    case Ok(sds) => Walk(AddressMap(sds), Pass)
  }

  /** The topology with the device map of hub `mid` of home `hid` set to `d`. */
  function WithDevices(t: Homes, hid: string, mid: string, d: Devices): (t': Homes)
    requires hid in t
    ensures t'.Keys == t.Keys && t'[hid].Keys == t[hid].Keys + {mid}
  {
    t[hid := t[hid][mid := d]]
  }

  /** Filing a sub-device into the device map that `WithDevices` set. */
  lemma WithDevicesFile(t: Homes, hid: string, mid: string, d: Devices, sd: SubDevice)
    requires hid in t
    ensures var t' := WithDevices(t, hid, mid, d);
      t'[hid := t'[hid][mid := t'[hid][mid][sd.address := sd]]] == WithDevices(t, hid, mid, d[sd.address := sd])
  {
    var t' := WithDevices(t, hid, mid, d);
    assert t'[hid][mid := t'[hid][mid][sd.address := sd]] == t[hid][mid := d[sd.address := sd]];
  }

  /** The hub map of one home after walking its hub list: each hub gets an
      empty device map, then the status call, then its sub-devices. */
  function HubsWalk(r: Responses, hubs: seq<Hub>): (w: Walk<Hubs>)
    ensures w.tree.Keys <= Mids(hubs)
    ensures w.outcome.Pass? ==> w.tree.Keys == Mids(hubs)
  {
    if hubs == [] then Walk(map[], Pass)
    else
      var w := HubsWalk(r, hubs[..|hubs| - 1]);
      var hub := hubs[|hubs| - 1];
      MidsSnoc(hubs);
      if w.outcome.Fail? then w
      else
        var hw := HubWalk(r, hub);
        Walk(w.tree[hub.mid := hw.tree], hw.outcome)
  }

  /** Walking one more hub after a prefix that ran to the end. */
  lemma HubsWalkSnoc(r: Responses, hubs: seq<Hub>, j: nat)
    requires j < |hubs|
    requires HubsWalk(r, hubs[..j]).outcome.Pass?
    ensures HubsWalk(r, hubs[..j + 1]) ==
      Walk(HubsWalk(r, hubs[..j]).tree[hubs[j].mid := HubWalk(r, hubs[j]).tree], HubWalk(r, hubs[j]).outcome)
  {
    assert hubs[..j + 1][..j] == hubs[..j];
  }

  /** `WithDevices` on a home whose hub map was just set. */
  lemma WithDevicesOnSet(t: Homes, hid: string, hubs: Hubs, mid: string, d: Devices)
    ensures WithDevices(t[hid := hubs], hid, mid, d) == t[hid := hubs[mid := d]]
  {
  }

  /** A walk over hubs that ran to the end fetched every hub's status, and the
      device map under each mid is the one built from the status of the last
      hub listed with that mid. */
  lemma {:induction false} HubsWalkPass(r: Responses, hubs: seq<Hub>, j: nat)
    requires HubsWalk(r, hubs).outcome.Pass?
    requires j < |hubs|
    ensures r.getDeviceStatus(hubs[j]).Ok?
    ensures (forall k :: j < k < |hubs| ==> hubs[k].mid != hubs[j].mid) ==>
      HubsWalk(r, hubs).tree[hubs[j].mid] == AddressMap(r.getDeviceStatus(hubs[j]).value)
  {
    var front := hubs[..|hubs| - 1];
    if j < |hubs| - 1 {
      assert front[j] == hubs[j];
      if (forall k :: j < k < |hubs| ==> hubs[k].mid != hubs[j].mid) {
        forall k | j < k < |front| ensures front[k].mid != front[j].mid {
          assert front[k] == hubs[k];
        }
      }
      HubsWalkPass(r, front, j);
    }
  }

  /** A walk over hubs that failed did so at one hub k: every hub before k
      passed, hub k's status call raised the walk's exception, and the map is
      the one built so far plus an empty device map for hub k. */
  lemma {:induction false} HubsWalkFail(r: Responses, hubs: seq<Hub>)
    requires HubsWalk(r, hubs).outcome.Fail?
    ensures exists k :: (0 <= k < |hubs| && HubsWalk(r, hubs[..k]).outcome.Pass? &&
      r.getDeviceStatus(hubs[k]) == Err(HubsWalk(r, hubs).outcome.error) &&
      HubsWalk(r, hubs).tree == HubsWalk(r, hubs[..k]).tree[hubs[k].mid := map[]])
  {
    var front := hubs[..|hubs| - 1];
    var k := |hubs| - 1;
    if HubsWalk(r, front).outcome.Fail? {
      HubsWalkFail(r, front);
      var k' :| 0 <= k' < |front| && HubsWalk(r, front[..k']).outcome.Pass? &&
        r.getDeviceStatus(front[k']) == Err(HubsWalk(r, front).outcome.error) &&
        HubsWalk(r, front).tree == HubsWalk(r, front[..k']).tree[front[k'].mid := map[]];
      assert front[..k'] == hubs[..k'] && front[k'] == hubs[k'];
      k := k';
    } else {
      assert hubs[..k] == front;
    }
  }

  /** Once a hub's status call has raised, no later hub is visited: the walk
      over the whole list is the walk up to the failure. */
  lemma {:induction false} HubsWalkStops(r: Responses, hubs: seq<Hub>, n: nat)
    requires n <= |hubs|
    requires HubsWalk(r, hubs[..n]).outcome.Fail?
    ensures HubsWalk(r, hubs) == HubsWalk(r, hubs[..n])
  {
    if n < |hubs| {
      var front := hubs[..|hubs| - 1];
      assert front[..n] == hubs[..n];
      HubsWalkStops(r, front, n);
    } else {
      assert hubs[..n] == hubs;
    }
  }

  /** The hub map of one home: empty while its hub list is fetched, then
      built by walking that list; empty if the listing raises. */
  function HomeWalk(r: Responses, hid: string): (w: Walk<Hubs>)
    ensures r.getDevicesForHid(hid).Err? ==> w == Walk(map[], Fail(r.getDevicesForHid(hid).error))
    ensures w.outcome.Pass? ==> r.getDevicesForHid(hid).Ok? && w.tree.Keys == Mids(r.getDevicesForHid(hid).value)
  {
    match r.getDevicesForHid(hid)
    case Err(e) => Walk(map[], Fail(e))
    case Ok(hubs) => HubsWalk(r, hubs)
  }

  /** The topology after walking the home list, starting from `before`. Each
      home's entry is reset to an empty hub map before its hubs are fetched;
      keys of homes that are not walked are left as they were, and no key is
      ever removed. */
  function HomesWalk(r: Responses, before: Homes, homes: seq<Home>): (w: Walk<Homes>)
    ensures before.Keys <= w.tree.Keys <= before.Keys + Hids(homes)
    ensures forall hid :: hid in before && hid !in Hids(homes) ==> w.tree[hid] == before[hid]
  {
    if homes == [] then Walk(before, Pass)
    else
      var w := HomesWalk(r, before, homes[..|homes| - 1]);
      var home := homes[|homes| - 1];
      HidsSnoc(homes);
      if w.outcome.Fail? then w
      else
        var hw := HomeWalk(r, home.hid);
        Walk(w.tree[home.hid := hw.tree], hw.outcome)
  }

  /** Once a call for some home has raised, no later home is visited. */
  lemma {:induction false} HomesWalkStops(r: Responses, before: Homes, homes: seq<Home>, n: nat)
    requires n <= |homes|
    requires HomesWalk(r, before, homes[..n]).outcome.Fail?
    ensures HomesWalk(r, before, homes) == HomesWalk(r, before, homes[..n])
  {
    if n < |homes| {
      var front := homes[..|homes| - 1];
      assert front[..n] == homes[..n];
      HomesWalkStops(r, before, front, n);
    } else {
      assert homes[..n] == homes;
    }
  }

  /** A walk over homes that ran to the end fetched the hub list of every
      home, walked it to the end, and stored its hub map under the home's hid:
      one key per returned mid. */
  lemma {:induction false} HomesWalkPass(r: Responses, before: Homes, homes: seq<Home>, j: nat)
    requires HomesWalk(r, before, homes).outcome.Pass?
    requires j < |homes|
    ensures r.getDevicesForHid(homes[j].hid).Ok?
    ensures HubsWalk(r, r.getDevicesForHid(homes[j].hid).value).outcome.Pass?
    ensures homes[j].hid in HomesWalk(r, before, homes).tree
    ensures HomesWalk(r, before, homes).tree[homes[j].hid] ==
      HubsWalk(r, r.getDevicesForHid(homes[j].hid).value).tree
    ensures HomesWalk(r, before, homes).tree[homes[j].hid].Keys ==
      Mids(r.getDevicesForHid(homes[j].hid).value)
  {
    var front := homes[..|homes| - 1];
    if j < |homes| - 1 {
      assert front[j] == homes[j];
      HomesWalkPass(r, before, front, j);
    }
  }

  /** A walk over homes that failed did so at one home i: every home before i
      was walked to the end (so `HomesWalkPass` applies to them), home i's entry
      holds what its walk built before the failure, and the map is exactly the
      one walking `homes[..i+1]` gives, so any home not among the first i + 1
      keeps its prior entry. */
  lemma {:induction false} HomesWalkFail(r: Responses, before: Homes, homes: seq<Home>)
    requires HomesWalk(r, before, homes).outcome.Fail?
    ensures exists i :: 0 <= i < |homes| && FailsAtHome(r, before, homes, i)
  {
    var front := homes[..|homes| - 1];
    if HomesWalk(r, before, front).outcome.Fail? {
      HomesWalkFail(r, before, front);
      var i :| 0 <= i < |front| && FailsAtHome(r, before, front, i);
      FailsAtHomeExtend(r, before, homes, i);
    } else {
      FailsAtLastHome(r, before, homes);
    }
  }

  lemma FailsAtHomeExtend(r: Responses, before: Homes, homes: seq<Home>, i: nat)
    requires i < |homes| - 1
    requires FailsAtHome(r, before, homes[..|homes| - 1], i)
    ensures FailsAtHome(r, before, homes, i)
  {
    var front := homes[..|homes| - 1];
    assert HomesWalk(r, before, homes) == HomesWalk(r, before, front);
    assert front[..i] == homes[..i] && front[..i + 1] == homes[..i + 1] && front[i] == homes[i];
  }

  lemma FailsAtLastHome(r: Responses, before: Homes, homes: seq<Home>)
    requires homes != []
    requires HomesWalk(r, before, homes).outcome.Fail?
    requires HomesWalk(r, before, homes[..|homes| - 1]).outcome.Pass?
    ensures FailsAtHome(r, before, homes, |homes| - 1)
  {
    assert homes[..|homes|] == homes;
  }

  /** The walk over `homes` failed at home i, in the sense of `HomesWalkFail`. */
  ghost predicate FailsAtHome(r: Responses, before: Homes, homes: seq<Home>, i: nat)
    requires i < |homes|
  {
    var w := HomesWalk(r, before, homes);
    var pre := HomesWalk(r, before, homes[..i]);
    var hid := homes[i].hid;
    && w.outcome.Fail?
    && pre.outcome.Pass?
    && w == HomesWalk(r, before, homes[..i + 1])
    && (forall h :: h in before && h !in Hids(homes[..i + 1]) ==> w.tree[h] == before[h])
    && match r.getDevicesForHid(hid)
       case Err(e) => e == w.outcome.error && w.tree == pre.tree[hid := map[]]
       case Ok(hubs) =>
         HubsWalk(r, hubs).outcome == w.outcome && w.tree == pre.tree[hid := HubsWalk(r, hubs).tree]
  }

  /** One refresh: log in, list the homes, walk them. A failing login or home
      listing leaves the topology exactly as it was. */
  function RefreshWalk(r: Responses, before: Homes, username: string, password: string): (w: Walk<Homes>)
    ensures before.Keys <= w.tree.Keys
    ensures r.ensureLoggedIn(username, password).Fail? ==> w == Walk(before, r.ensureLoggedIn(username, password))
    ensures r.ensureLoggedIn(username, password).Pass? && r.getHomes.Err? ==> w == Walk(before, Fail(r.getHomes.error))
    ensures w.outcome.Pass? ==> r.ensureLoggedIn(username, password).Pass? && r.getHomes.Ok?
  {
    match r.ensureLoggedIn(username, password)
    case Fail(e) => Walk(before, Fail(e))
    case Pass =>
      match r.getHomes
      case Err(e) => Walk(before, Fail(e))
      case Ok(homes) => HomesWalk(r, before, homes)
  }

  /** The cache is not swapped atomically: when the second of two homes fails,
      the first home's entry has already been replaced, so a failed refresh can
      change what readers see (here home `a` is emptied to its new, hub-less
      listing although the refresh raised). */
  lemma FailureKeepsEarlierHomes(r: Responses, before: Homes, a: Home, b: Home)
    requires a.hid != b.hid
    requires r.getDevicesForHid(a.hid) == Ok([])
    requires r.getDevicesForHid(b.hid).Err?
    ensures HomesWalk(r, before, [a, b]).outcome == Fail(r.getDevicesForHid(b.hid).error)
    ensures HomesWalk(r, before, [a, b]).tree == before[a.hid := map[]][b.hid := map[]]
  {
    assert [a, b][..1] == [a];
    assert [a][..0] == [];
    assert HubsWalk(r, []) == Walk(map[], Pass);
    assert HomesWalk(r, before, []) == Walk(before, Pass);
    assert HomesWalk(r, before, [a]) == Walk(before[a.hid := map[]], Pass);
  }
}
