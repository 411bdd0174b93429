// The objects of the client: units, groups and the polling client itself (client.go, group.go).
// Each method is one run without interference; Delivery takes the same operations apart.
module ReverseClient {
  import opened Events

  // A callback, and whether it returned nil.
  type Callback = Event -> bool

  const SECOND: int := 1_000_000_000
  const DEFAULT_EXPIRE: int := 60 * SECOND

  class Unit {
    const id: string
    const group: UnitGroup
    var callback: Option<Callback>

    constructor (id: string, group: UnitGroup)
      ensures this.id == id && this.group == group && callback == None
    {
      this.id, this.group, this.callback := id, group, None;
    }

    method OnVisit(callback: Option<Callback>)
      modifies this
      ensures this.callback == callback
    {
      this.callback := callback;
    }
  }

  class UnitGroup {
    const id: string
    const expireAt: int
    var units: map<string, Unit>
    var callbackCalled: int

    constructor (id: string, expireAt: int)
      ensures this.id == id && this.expireAt == expireAt && units == map[] && callbackCalled == 0
    {
      this.id, this.expireAt, units, callbackCalled := id, expireAt, map[], 0;
    }

    method Join(unit: Unit)
      modifies this`units
      ensures units == old(units)[unit.id := unit]
    {
      units := units[unit.id := unit];
    }

    // A second of sleep, in which the client's goroutine leaves a value in the flag.
    method Sleep(left: int)
      modifies this`callbackCalled
      ensures callbackCalled == left
    {
      callbackCalled := left;
    }

    // Wait looks at the start, and again after each full second of the timeout, 60 times at most.
    // What the i-th second leaves in callbackCalled is up to the client's goroutine; see
    // DeliveryWait for what it can be.
    method Wait(timeout: int, later: nat -> int) returns (ok: bool)
      modifies this`callbackCalled
      ensures ok <==>
              timeout >= 0
              && (old(callbackCalled) == 1
                  || exists i: nat :: 0 < i <= 60 && i * 1_000_000_000 <= timeout && later(i) == 1)
    {
      var limit := if timeout > DEFAULT_EXPIRE then DEFAULT_EXPIRE else timeout;
      var i := 0;
      ghost var looks: nat := 0;
      while i <= limit
        invariant i == looks * 1_000_000_000
        invariant callbackCalled == if looks == 0 then old(callbackCalled) else later(looks)
        invariant looks > 0 ==> timeout >= 0 && old(callbackCalled) != 1
        invariant forall j: nat :: 0 < j < looks ==> later(j) != 1
        decreases limit - i
      {
        if callbackCalled == 1 {
          assert looks > 0 ==> later(looks) == 1;
          return true;
        }
        Sleep(later(i / SECOND + 1));
        i := i + SECOND;
        looks := looks + 1;
      }
      ok := false;
    }
  }

  // What localCallUnitCallback does with an event.
  datatype Verdict = NoGroup | NoUnit | NoCallback | Failed | Called

  ghost function VerdictOf(groups: map<string, UnitGroup>, e: Event): Verdict
    reads groups.Values`units, set g, u | g in groups.Values && u in g.units.Values :: u
  {
    if e.groupId !in groups then NoGroup
    else if e.unitId !in groups[e.groupId].units then NoUnit
    else
      var u := groups[e.groupId].units[e.unitId];
      assert groups[e.groupId] in groups.Values && u in groups[e.groupId].units.Values;
      if u.callback.None? then NoCallback
      else if u.callback.value(e) then Called else Failed
  }

  // The groups of which some event calls a callback that returns nil.
  ghost function CalledGroups(groups: map<string, UnitGroup>, events: seq<Event>): set<string>
    reads groups.Values`units, set g, u | g in groups.Values && u in g.units.Values :: u
  {
    set i | 0 <= i < |events| && VerdictOf(groups, events[i]).Called? :: events[i].groupId
  }

  class Client {
    var groups: map<string, UnitGroup>     // groupUnitCallbackMap
    var groupToDelete: seq<string>

    ghost predicate Valid()
      reads this
    {
      forall key :: key in groups ==> groups[key].id == key
    }

    constructor ()
      ensures Valid() && groups == map[] && groupToDelete == []
    {
      groups, groupToDelete := map[], [];
    }

    method NewUnitGroup(id: string, now: int) returns (g: UnitGroup)
      requires Valid()
      modifies this`groups
      ensures Valid() && fresh(g) && g.id == id && g.expireAt == now + 60_000_000_000
      ensures g.units == map[] && g.callbackCalled == 0
      ensures groups == old(groups)[id := g]
    {
      g := new UnitGroup(id, now + DEFAULT_EXPIRE);
      groups := groups[id := g];
    }

    method NewUnitWithGroup(group: UnitGroup, id: string) returns (u: Unit)
      modifies group`units
      ensures fresh(u) && u.id == id && u.group == group && u.callback == None
      ensures group.units == old(group.units)[id := u]
    {
      u := new Unit(id, group);
      group.Join(u);
    }

    // One pass of the gc: exactly the groups whose time has passed are dropped.
    method GcExpiredGroup(now: int)
      requires Valid()
      modifies this`groups
      ensures Valid()
      ensures groups == map key | key in old(groups) && now <= old(groups)[key].expireAt :: old(groups)[key]
    {
      var todo := groups.Keys;
      while todo != {}
        invariant todo <= groups.Keys && Valid()
        invariant groups == map key | key in old(groups) && (key in todo || now <= old(groups)[key].expireAt)
                            :: old(groups)[key]
        decreases |todo|
      {
        var key :| key in todo;
        if now > groups[key].expireAt {
          groups := groups - {key};
        }
        todo := todo - {key};
      }
    }

    // A successful callback sets the group's flag and takes the group out of the map. Nothing
    // else changes anything.
    method LocalCallUnitCallback(event: Event) returns (verdict: Verdict)
      requires Valid()
      modifies this`groups, groups.Values`callbackCalled
      ensures Valid()
      ensures verdict == old(VerdictOf(groups, event))
      ensures groups == if verdict.Called? then old(groups) - {event.groupId} else old(groups)
      ensures forall g :: g in old(groups).Values ==>
                g.callbackCalled == if verdict.Called? && g.id == event.groupId then 1 else old(g.callbackCalled)
    {
      if event.groupId !in groups { return NoGroup; }
      var group := groups[event.groupId];
      if event.unitId !in group.units { return NoUnit; }
      var unit := group.units[event.unitId];
      if unit.callback.None? { return NoCallback; }
      var ok := unit.callback.value(event);
      if !ok { return Failed; }
      group.callbackCalled := 1;
      groups := groups - {event.groupId};
      verdict := Called;
    }

    // remoteFetchEvent. A failed request changes nothing, so that its acks are sent again.
    // Otherwise every received group is queued for the next ack, whatever became of its event;
    // the groups that leave the map are those of which an event was called, and they are flagged.
    method RemoteFetchEvent(response: Option<seq<Event>>) returns (ok: bool)
      requires Valid()
      modifies this, groups.Values`callbackCalled
      ensures Valid() && (ok <==> response.Some?)
      ensures var events := if ok then response.value else [];
              && groups == old(groups) - old(CalledGroups(groups, events))
              && forall key :: key in old(groups) ==>
                   old(groups)[key].callbackCalled
                   == if key in old(CalledGroups(groups, events)) then 1 else old(groups[key].callbackCalled)
      ensures if ok then groupToDelete == GroupIds(response.value) else groupToDelete == old(groupToDelete)
    {
      ok := response.Some?;
      if ok {
        groupToDelete := [];
        DispatchAll(response.value);
      }
    }

    // Its loop over the received events.
    method DispatchAll(events: seq<Event>)
      requires Valid() && groupToDelete == []
      modifies this, groups.Values`callbackCalled
      ensures Valid() && groupToDelete == GroupIds(events)
      ensures groups == old(groups) - old(CalledGroups(groups, events))
      ensures forall key :: key in old(groups) ==>
                old(groups)[key].callbackCalled
                == if key in old(CalledGroups(groups, events)) then 1 else old(groups[key].callbackCalled)
    {
      ghost var called := CalledPrefixes(groups, events);
      var i := 0;
      while i < |events|
        invariant 0 <= i <= |events| && Valid()
        invariant |groupToDelete| == i && forall j :: 0 <= j < i ==> groupToDelete[j] == events[j].groupId
        invariant groups == old(groups) - called[i]
        invariant forall key :: key in old(groups) ==>
                    old(groups)[key].callbackCalled == if key in called[i] then 1 else old(groups[key].callbackCalled)
      {
        var verdict := LocalCallUnitCallback(events[i]);
        groupToDelete := groupToDelete + [events[i].groupId];
        i := i + 1;
      }
    }
  }

  // The groups called by the first, the first two, and so on, of the events.
  lemma {:induction false} CalledPrefixes(groups: map<string, UnitGroup>, events: seq<Event>)
    returns (called: seq<set<string>>)
    ensures |called| == |events| + 1 && called[0] == {} && called[|events|] == CalledGroups(groups, events)
    ensures forall i :: 0 <= i < |events| ==>
              called[i + 1] == called[i] + if VerdictOf(groups, events[i]).Called? then {events[i].groupId} else {}
    decreases |events|
  {
    if events == [] {
      called := [{}];
    } else {
      var n := |events| - 1;
      var before := CalledPrefixes(groups, events[..n]);
      called := before + [CalledGroups(groups, events)];
      assert CalledGroups(groups, events)
             == CalledGroups(groups, events[..n])
                + if VerdictOf(groups, events[n]).Called? then {events[n].groupId} else {};
    }
  }

  function GroupIds(events: seq<Event>): seq<string> {
    seq(|events|, i requires 0 <= i < |events| => events[i].groupId)
  }
}
