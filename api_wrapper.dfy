/** The poll orchestrator: a wrapper around one vendor client that holds the
    credentials, the topology cache `homes`, the time of the last poll and an
    availability flag. `poll` refreshes at most once per `MinPollInterval` time
    units, and any vendor exception marks the wrapper unavailable, replaces the
    client by a fresh one and is passed on to the caller. The wall clock is the
    `now` argument; the vendor's answers are the `Responses` argument. */
module ApiWrapper {
  import opened VendorApi
  import opened Topology

  /** The shortest time between two polls that reach the vendor. */
  const MinPollInterval: int := 120

  /** The observable state of a wrapper (everything but the client object). */
  datatype WrapperState = WrapperState(lastPoll: int, available: bool, homes: Homes)

  /** The state a poll leaves and what it returns or raises. */
  datatype PollResult = PollResult(state: WrapperState, outcome: Outcome)

  /** The state a wrapper starts in. */
  function InitialState(): (s: WrapperState)
    ensures s.homes == map[] && s.lastPoll == 0 && s.available
  {
    WrapperState(0, true, map[])
  }

  /** One call of `poll` at time `now`. A call within `MinPollInterval` of the
      last one that went through returns at once and changes nothing. Any other
      call records `now` as the last poll whatever happens next, runs the
      refresh on the cache in place, and is available exactly when the refresh
      ran to the end. */
  function PollStep(s: WrapperState, now: int, r: Responses, username: string, password: string): (p: PollResult)
    ensures now - s.lastPoll < MinPollInterval ==> p == PollResult(s, Pass)
    ensures now - s.lastPoll >= MinPollInterval ==>
      && p.state.lastPoll == now
      && p.state.available == p.outcome.Pass?
      && p.state.homes == RefreshWalk(r, s.homes, username, password).tree
      && p.outcome == RefreshWalk(r, s.homes, username, password).outcome
    ensures s.homes.Keys <= p.state.homes.Keys
  {
    if now - s.lastPoll < MinPollInterval then PollResult(s, Pass)
    else
      var w := RefreshWalk(r, s.homes, username, password);
      PollResult(WrapperState(now, w.outcome.Pass?, w.tree), w.outcome)
  }

  /** After a poll that went through and succeeded, the wrapper is available
      and every home the vendor listed has an entry with exactly one key per hub
      listed for it, each holding the device map that hub's status built. */
  lemma SuccessfulPollTopology(s: WrapperState, now: int, r: Responses, username: string, password: string, j: nat)
    requires now - s.lastPoll >= MinPollInterval
    requires PollStep(s, now, r, username, password).outcome.Pass?
    requires r.getHomes.Ok? && j < |r.getHomes.value|
    ensures PollStep(s, now, r, username, password).state.available
    ensures var hid := r.getHomes.value[j].hid;
      var homes := PollStep(s, now, r, username, password).state.homes;
      && r.getDevicesForHid(hid).Ok?
      && hid in homes
      && homes[hid] == HubsWalk(r, r.getDevicesForHid(hid).value).tree
      && homes[hid].Keys == Mids(r.getDevicesForHid(hid).value)
  {
    HomesWalkPass(r, s.homes, r.getHomes.value, j);
  }

  /** One call of `poll` as seen from outside: the time and the vendor's answers. */
  datatype Tick = Tick(now: int, responses: Responses)

  /** The state after a sequence of polls, in order. */
  function PollAll(s: WrapperState, ticks: seq<Tick>, username: string, password: string): WrapperState
    decreases |ticks|
  {
    if ticks == [] then s
    else PollAll(PollStep(s, ticks[0].now, ticks[0].responses, username, password).state, ticks[1..], username, password)
  }

  /** Polls that all come within `MinPollInterval` of the last poll that went
      through change nothing at all, whatever the vendor would have answered. */
  lemma {:induction false} SuppressedPollsChangeNothing(s: WrapperState, ticks: seq<Tick>, username: string, password: string)
    requires forall i :: 0 <= i < |ticks| ==> ticks[i].now - s.lastPoll < MinPollInterval
    ensures PollAll(s, ticks, username, password) == s
  {
    if ticks != [] {
      assert PollStep(s, ticks[0].now, ticks[0].responses, username, password).state == s;
      SuppressedPollsChangeNothing(s, ticks[1..], username, password);
    }
  }

  /** In a burst of polls less than `MinPollInterval` apart from the first one
      that goes through, only that first one reaches the vendor; this holds
      also when that poll fails, since the timer is reset before any call. */
  lemma BurstRefreshesOnce(s: WrapperState, first: Tick, rest: seq<Tick>, username: string, password: string)
    requires first.now - s.lastPoll >= MinPollInterval
    requires forall i :: 0 <= i < |rest| ==> rest[i].now - first.now < MinPollInterval
    ensures PollAll(s, [first] + rest, username, password) ==
      PollStep(s, first.now, first.responses, username, password).state
  {
    var s' := PollStep(s, first.now, first.responses, username, password).state;
    assert ([first] + rest)[1..] == rest;
    SuppressedPollsChangeNothing(s', rest, username, password);
  }

  class HomgarApiWrapper {
    var api: HomgarApi
    const username: string
    const password: string
    var homes: Homes
    var lastPoll: int
    var available: bool

    function State(): WrapperState
      reads this
    {
      WrapperState(lastPoll, available, homes)
    }

    /** A new wrapper has an empty cache, has never polled, counts as
        available and owns a fresh client. */
    constructor (username: string, password: string)
      ensures this.username == username && this.password == password
      ensures State() == InitialState()
      ensures fresh(api)
    {
      this.username := username;
      this.password := password;
      homes := map[];
      lastPoll := 0;
      available := true;
      api := new HomgarApi();
    }

    /** Logs in with the stored credentials. On success the wrapper is
        available; on an exception it is not, its client is replaced by a fresh
        one and the same exception is returned to the caller. */
    method Authenticate(r: Responses) returns (outcome: Outcome)
      modifies this`available, this`api
      ensures outcome == r.ensureLoggedIn(username, password)
      ensures available == outcome.Pass?
      ensures outcome.Pass? ==> api == old(api)
      ensures outcome.Fail? ==> fresh(api)
    {
      outcome := r.ensureLoggedIn(username, password);
      if outcome.Fail? {
        available := false;
        api := new HomgarApi();
      } else {
        available := true;
      }
    }

    /** The body of the home loop of `poll`: resets the home's entry to an
        empty hub map, fetches its hubs and walks them, writing into the cache
        as it goes; an exception stops it where it is. */
    method WalkHome(home: Home, r: Responses) returns (outcome: Outcome)
      modifies this`homes
      ensures homes == old(homes)[home.hid := HomeWalk(r, home.hid).tree]
      ensures outcome == HomeWalk(r, home.hid).outcome
    {
      homes := homes[home.hid := map[]];
      var listed := r.getDevicesForHid(home.hid);
      if listed.Err? {
        return Fail(listed.error);
      }
      var hubList := listed.value;
      ghost var pre := old(homes);
      var j := 0;
      while j < |hubList|
        invariant 0 <= j <= |hubList|
        invariant HubsWalk(r, hubList[..j]).outcome.Pass?
        invariant homes == pre[home.hid := HubsWalk(r, hubList[..j]).tree]
      {
        HubsWalkSnoc(r, hubList, j);
        WithDevicesOnSet(pre, home.hid, HubsWalk(r, hubList[..j]).tree, hubList[j].mid, HubWalk(r, hubList[j]).tree);
        outcome := WalkHub(home.hid, hubList[j], r);
        if outcome.Fail? {
          HubsWalkStops(r, hubList, j + 1);
          return;
        }
        j := j + 1;
      }
      assert hubList[..j] == hubList;
      outcome := Pass;
    }

    /** The body of the hub loop of `poll`: resets the hub's entry under the
        home to an empty device map, fetches the hub's status and files each
        refreshed sub-device under its address. */
    method WalkHub(hid: string, hub: Hub, r: Responses) returns (outcome: Outcome)
      requires hid in homes
      modifies this`homes
      ensures homes == WithDevices(old(homes), hid, hub.mid, HubWalk(r, hub).tree)
      ensures outcome == HubWalk(r, hub).outcome
    {
      homes := homes[hid := homes[hid][hub.mid := map[]]];
      var status := r.getDeviceStatus(hub);
      if status.Err? {
        return Fail(status.error);
      }
      var subdevices := status.value;
      var k := 0;
      while k < |subdevices|
        invariant 0 <= k <= |subdevices|
        invariant homes == WithDevices(old(homes), hid, hub.mid, AddressMap(subdevices[..k]))
      {
        var subdevice := subdevices[k];
        AddressMapSnoc(subdevices, k);
        WithDevicesFile(old(homes), hid, hub.mid, AddressMap(subdevices[..k]), subdevice);
        homes := homes[hid := homes[hid][hub.mid := homes[hid][hub.mid][subdevice.address := subdevice]]];
        k := k + 1;
      }
      assert subdevices[..k] == subdevices;
      outcome := Pass;
    }

    /** Polls the vendor at time `now`: `PollStep` says what the state becomes
        and what is returned or raised. A suppressed or successful poll keeps
        the client; a failed one leaves a fresh client. */
    method Poll(now: int, r: Responses) returns (outcome: Outcome)
      modifies this
      ensures State() == PollStep(old(State()), now, r, username, password).state
      ensures outcome == PollStep(old(State()), now, r, username, password).outcome
      ensures outcome.Pass? ==> api == old(api)
      ensures outcome.Fail? ==> fresh(api)
    {
      if now - lastPoll < MinPollInterval {
        return Pass;
      }
      lastPoll := now;
      ghost var before := homes;

      outcome := Authenticate(r);
      if outcome.Fail? {
        available := false;
        api := new HomgarApi();
        return;
      }
      var homeList;
      match r.getHomes
      case Err(e) =>
        available := false;
        api := new HomgarApi();
        return Fail(e);
      case Ok(hl) =>
        homeList := hl;

      var i := 0;
      while i < |homeList|
        invariant 0 <= i <= |homeList|
        invariant HomesWalk(r, before, homeList[..i]) == Walk(homes, Pass)
        invariant lastPoll == now && available && api == old(api)
      {
        assert homeList[..i + 1][..i] == homeList[..i];
        var walked := WalkHome(homeList[i], r);
        if walked.Fail? {
          HomesWalkStops(r, before, homeList, i + 1);
          available := false;
          api := new HomgarApi();
          return walked;
        }
        i := i + 1;
      }
      assert homeList[..i] == homeList;
      available := true;
    }
  }
}
