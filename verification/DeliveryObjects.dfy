// The client's objects against the state machine's client: a whole RemoteFetchEvent on the
// objects is the batch that DeliveryFetch derives from the small steps.
module DeliveryObjects {
  import opened Events
  import opened ReverseClient
  import Delivery
  import DeliveryFetch
  import DeliveryOnce
  import DeliveryServing

  // The state machine's clock is in milliseconds, the objects' in nanoseconds.
  const MILLISECOND := 1_000_000

  ghost predicate GroupIs(g: Delivery.UnitGroup, obj: UnitGroup, units: seq<Unit>)
    reads obj
  {
    JoinedIs(g, obj, units) && (g.called <==> obj.callbackCalled == 1)
  }

  ghost predicate JoinedIs(g: Delivery.UnitGroup, obj: UnitGroup, units: seq<Unit>)
    reads obj`units
  {
    && g.id == obj.id && g.expireAt * MILLISECOND == obj.expireAt
    && g.units.Keys == obj.units.Keys
    && forall id :: id in g.units ==> g.units[id] < |units| && obj.units[id] == units[g.units[id]]
  }

  ghost predicate UnitIs(u: Delivery.Unit, obj: Unit)
    reads obj
  {
    u.id == obj.id && (u.callback <==> obj.callback.Some?)
  }

  // The state machine names groups and units by their place in these lists.
  ghost predicate Abstracts(k: Delivery.Client, client: Client, objs: seq<UnitGroup>, units: seq<Unit>)
    reads client, objs, units
  {
    && |k.objs| == |objs| && |k.units| == |units|
    && (forall i, j :: 0 <= i < j < |objs| ==> objs[i] != objs[j])
    && (forall i, j :: 0 <= i < j < |units| ==> units[i] != units[j])
    && (forall o :: 0 <= o < |objs| ==> GroupIs(k.objs[o], objs[o], units))
    && (forall u :: 0 <= u < |units| ==> UnitIs(k.units[u], units[u]))
    && k.groups.Keys == client.groups.Keys
    && (forall key :: key in k.groups ==>
          k.groups[key] < |objs| && client.groups[key] == objs[k.groups[key]])
    && k.toDelete == client.groupToDelete
  }

  // The answers are those of the units' callbacks.
  ghost predicate Answer(answers: DeliveryFetch.Answers, units: seq<Unit>)
    reads units
  {
    forall u: nat, e: Event :: u < |units| && units[u].callback.Some? ==>
      answers(u, e) == units[u].callback.value(e)
  }

  lemma VerdictsAgree(k: Delivery.Client, client: Client, objs: seq<UnitGroup>, units: seq<Unit>,
                      answers: DeliveryFetch.Answers, e: Event)
    requires Abstracts(k, client, objs, units) && DeliveryOnce.Stored(k) && Answer(answers, units)
    ensures VerdictOf(client.groups, e) == DeliveryFetch.VerdictOn(k, answers, e)
  {
    if e.groupId in k.groups {
      var o := k.groups[e.groupId];
      assert GroupIs(k.objs[o], objs[o], units);
      if e.unitId in k.objs[o].units {
        assert UnitIs(k.units[k.objs[o].units[e.unitId]], units[k.objs[o].units[e.unitId]]);
      }
    }
  }

  lemma CalledAgree(k: Delivery.Client, client: Client, objs: seq<UnitGroup>, units: seq<Unit>,
                    answers: DeliveryFetch.Answers, items: seq<Delivery.Item>)
    requires Abstracts(k, client, objs, units) && DeliveryOnce.Stored(k) && Answer(answers, units)
    ensures CalledGroups(client.groups, DeliveryFetch.EventsOf(items)) == DeliveryFetch.CalledBy(k, answers, items)
  {
    var events := DeliveryFetch.EventsOf(items);
    forall i | 0 <= i < |items|
      ensures VerdictOf(client.groups, events[i]) == DeliveryFetch.VerdictOn(k, answers, items[i].event)
    {
      VerdictsAgree(k, client, objs, units, answers, items[i].event);
    }
    forall g ensures g in CalledGroups(client.groups, events) <==> g in DeliveryFetch.CalledBy(k, answers, items) {
      if g in CalledGroups(client.groups, events) {
        var i :| 0 <= i < |events| && VerdictOf(client.groups, events[i]).Called? && events[i].groupId == g;
        assert items[i].Group() == g;
      }
      if g in DeliveryFetch.CalledBy(k, answers, items) {
        var i :| 0 <= i < |items| && items[i].Group() == g
                 && DeliveryFetch.VerdictOn(k, answers, items[i].event).Called?;
        assert events[i].groupId == g;
      }
    }
  }

  // The client after a batch that called these groups.
  function After(k: Delivery.Client, called: set<string>, items: seq<Delivery.Item>): Delivery.Client {
    var holders := DeliveryFetch.Holders(k, called);
    k.(groups := k.groups - called, toDelete := DeliveryFetch.GroupSeq(items),
       objs := seq(|k.objs|, o requires 0 <= o < |k.objs| =>
         if o in holders then k.objs[o].(called := true) else k.objs[o]))
  }

  lemma AfterIsDone(k: Delivery.Client, answers: DeliveryFetch.Answers, items: seq<Delivery.Item>)
    requires DeliveryOnce.Stored(k)
    ensures DeliveryFetch.BatchDone(k.(toDelete := []), answers, items,
                                    After(k, DeliveryFetch.CalledBy(k, answers, items), items))
  {
    var called := DeliveryFetch.CalledBy(k, answers, items);
    var k1 := k.(toDelete := []);
    forall e: Event ensures DeliveryFetch.VerdictOn(k1, answers, e) == DeliveryFetch.VerdictOn(k, answers, e) {}
    assert DeliveryFetch.CalledBy(k1, answers, items) == called;
    assert DeliveryFetch.Holders(k1, called) == DeliveryFetch.Holders(k, called);
  }

  // What the fields of the objects have become, group by group.
  lemma AbstractsAfter(k: Delivery.Client, client: Client, objs: seq<UnitGroup>, units: seq<Unit>,
                       called: set<string>, items: seq<Delivery.Item>)
    requires DeliveryOnce.Stored(k) && |k.objs| == |objs| && |k.units| == |units|
    requires forall i, j :: 0 <= i < j < |objs| ==> objs[i] != objs[j]
    requires forall i, j :: 0 <= i < j < |units| ==> units[i] != units[j]
    requires forall u :: 0 <= u < |units| ==> UnitIs(k.units[u], units[u])
    requires forall o :: 0 <= o < |objs| ==> JoinedIs(k.objs[o], objs[o], units)
    requires forall o :: 0 <= o < |objs| ==>
               (objs[o].callbackCalled == 1 <==>
                k.objs[o].called
                || (k.objs[o].id in called && k.objs[o].id in k.groups && k.groups[k.objs[o].id] == o))
    requires client.groups.Keys == k.groups.Keys - called
    requires forall key :: key in client.groups ==> client.groups[key] == objs[k.groups[key]]
    requires client.groupToDelete == DeliveryFetch.GroupSeq(items)
    ensures Abstracts(After(k, called, items), client, objs, units)
  {
    var k' := After(k, called, items);
    forall o | 0 <= o < |objs| ensures GroupIs(k'.objs[o], objs[o], units) {
      HolderHasId(k, called, o);
      assert JoinedIs(k.objs[o], objs[o], units);
    }
  }

  lemma HolderHasId(k: Delivery.Client, called: set<string>, o: nat)
    requires DeliveryOnce.Stored(k) && o < |k.objs|
    ensures o in DeliveryFetch.Holders(k, called) <==>
            k.objs[o].id in called && k.objs[o].id in k.groups && k.groups[k.objs[o].id] == o
  {
  }

  // A group object is in the client's map under its own id or not at all.
  lemma Held(k: Delivery.Client, groups: map<string, UnitGroup>, objs: seq<UnitGroup>, o: nat)
    requires DeliveryOnce.Stored(k) && |k.objs| == |objs| && o < |objs| && groups.Keys == k.groups.Keys
    requires forall key :: key in k.groups ==> groups[key] == objs[k.groups[key]]
    requires forall i, j :: 0 <= i < j < |objs| ==> objs[i] != objs[j]
    ensures objs[o] in groups.Values <==> k.objs[o].id in k.groups && k.groups[k.objs[o].id] == o
  {
  }

  lemma FlagsOf(k: Delivery.Client, client: Client, objs: seq<UnitGroup>, units: seq<Unit>)
    returns (flags: seq<int>)
    requires Abstracts(k, client, objs, units)
    ensures |flags| == |objs|
    ensures forall o :: 0 <= o < |objs| ==>
              flags[o] == objs[o].callbackCalled && (flags[o] == 1 <==> k.objs[o].called)
              && JoinedIs(k.objs[o], objs[o], units)
  {
    flags := seq(|objs|, o requires 0 <= o < |objs| reads objs => objs[o].callbackCalled);
    forall o | 0 <= o < |objs| ensures flags[o] == 1 <==> k.objs[o].called {
      assert GroupIs(k.objs[o], objs[o], units);
    }
  }

  // remoteFetchEvent on the objects does what the state machine's steps add up to.
  method FetchOnce(client: Client, response: Option<seq<Event>>,
                   ghost k: Delivery.Client, ghost objs: seq<UnitGroup>, ghost units: seq<Unit>,
                   ghost answers: DeliveryFetch.Answers, ghost items: seq<Delivery.Item>)
    returns (ok: bool, ghost k': Delivery.Client)
    requires client.Valid() && Abstracts(k, client, objs, units) && DeliveryOnce.Stored(k) && Answer(answers, units)
    requires response.Some? ==> response.value == DeliveryFetch.EventsOf(items)
    modifies client, client.groups.Values`callbackCalled
    ensures client.Valid() && Abstracts(k', client, objs, units)
    ensures ok <==> response.Some?
    ensures ok ==> DeliveryFetch.BatchDone(k.(toDelete := []), answers, items, k')
    ensures !ok ==> k' == k
  {
    ghost var called := DeliveryFetch.CalledBy(k, answers, items);
    if response.Some? { CalledAgree(k, client, objs, units, answers, items); }
    ghost var flags := FlagsOf(k, client, objs, units);
    ghost var groups := client.groups;
    ok := client.RemoteFetchEvent(response);
    k' := if ok then After(k, called, items) else k;
    forall o | 0 <= o < |objs|
      ensures objs[o].callbackCalled
              == if ok && k.objs[o].id in called && k.objs[o].id in k.groups && k.groups[k.objs[o].id] == o then 1
                 else flags[o]
    {
      Held(k, groups, objs, o);
    }
    assert forall o :: 0 <= o < |objs| ==> JoinedIs(k.objs[o], objs[o], units);
    if ok {
      AbstractsAfter(k, client, objs, units, called, items);
      AfterIsDone(k, answers, items);
    }
  }

  // The client's other operations are the machine's as well ----------------------------------------------

  method NewGroupOnce(client: Client, id: string, nowMs: nat,
                      ghost k: Delivery.Client, ghost objs: seq<UnitGroup>, ghost units: seq<Unit>)
    returns (g: UnitGroup, ghost k': Delivery.Client)
    requires client.Valid() && Abstracts(k, client, objs, units)
    modifies client`groups
    ensures Delivery.UseNext(k, nowMs, Delivery.NewGroup(id)) == Some(k')
    ensures client.Valid() && Abstracts(k', client, objs + [g], units)
  {
    k' := Delivery.UseNext(k, nowMs, Delivery.NewGroup(id)).value;
    g := client.NewUnitGroup(id, nowMs * MILLISECOND);
    assert GroupIs(k'.objs[|objs|], g, units);
    forall o | 0 <= o < |objs| ensures GroupIs(k'.objs[o], (objs + [g])[o], units) {
      assert GroupIs(k.objs[o], objs[o], units);
    }
  }

  method NewUnitOnce(client: Client, group: UnitGroup, id: string, ghost o: nat,
                     ghost k: Delivery.Client, ghost objs: seq<UnitGroup>, ghost units: seq<Unit>, nowMs: nat)
    returns (u: Unit, ghost k1: Delivery.Client, ghost k2: Delivery.Client)
    requires Abstracts(k, client, objs, units) && o < |objs| && group == objs[o]
    modifies group`units
    ensures Delivery.UseNext(k, nowMs, Delivery.NewUnit(id)) == Some(k1)
    ensures Delivery.UseNext(k1, nowMs, Delivery.Join(o, |units|)) == Some(k2)
    ensures Abstracts(k2, client, objs, units + [u])
  {
    k1 := Delivery.UseNext(k, nowMs, Delivery.NewUnit(id)).value;
    k2 := Delivery.UseNext(k1, nowMs, Delivery.Join(o, |units|)).value;
    assert forall i :: 0 <= i < |objs| ==> GroupIs(k.objs[i], objs[i], units);
    assert forall i :: 0 <= i < |units| ==> UnitIs(k.units[i], units[i]);
    u := client.NewUnitWithGroup(group, id);
    forall i | 0 <= i < |objs| ensures GroupIs(k2.objs[i], objs[i], units + [u]) {
      if i != o { assert objs[i] != objs[o]; }
    }
  }

  method OnVisitOnce(client: Client, unit: Unit, callback: Option<Callback>, ghost n: nat,
                     ghost k: Delivery.Client, ghost objs: seq<UnitGroup>, ghost units: seq<Unit>, nowMs: nat)
    returns (ghost k': Delivery.Client)
    requires Abstracts(k, client, objs, units) && n < |units| && unit == units[n]
    modifies unit
    ensures Delivery.UseNext(k, nowMs, Delivery.OnVisit(n, callback.Some?)) == Some(k')
    ensures Abstracts(k', client, objs, units)
  {
    k' := Delivery.UseNext(k, nowMs, Delivery.OnVisit(n, callback.Some?)).value;
    assert forall i :: 0 <= i < |objs| ==> GroupIs(k.objs[i], objs[i], units);
    assert forall i :: 0 <= i < |units| ==> UnitIs(k.units[i], units[i]);
    unit.OnVisit(callback);
  }

  // What is left of the map when the gc has looked at some keys.
  function Kept(s: Delivery.State, looked: set<string>): map<string, nat>
    requires DeliveryOnce.Stored(s.client)
  {
    map key | key in s.client.groups
              && (key !in looked || s.nowMs <= s.client.objs[s.client.groups[key]].expireAt) :: s.client.groups[key]
  }

  // The machine's gc, key by key.
  lemma {:induction false} GcRun(c: Delivery.Config, s: Delivery.State, looked: set<string>)
    returns (run: seq<Delivery.Action>, t: Delivery.State)
    requires DeliveryOnce.Stored(s.client) && s.client.expiring.None? && looked <= s.client.groups.Keys
    ensures Delivery.Run(c, s, run) == Some(t)
    ensures t == s.(client := s.client.(groups := Kept(s, looked)))
    decreases looked
  {
    if looked == {} {
      run, t := [], s;
      assert Kept(s, looked) == s.client.groups;
    } else {
      var key :| key in looked;
      var r1, s1 := GcRun(c, s, looked - {key});
      if s.nowMs <= s.client.objs[s.client.groups[key]].expireAt {
        run, t := r1, s1;
        assert Kept(s, looked) == Kept(s, looked - {key});
      } else {
        var see, delete := Delivery.Use(Delivery.ExpireSee(key)), Delivery.Use(Delivery.ExpireDelete);
        var s2 := Delivery.Next(c, s1, see).value;
        t := Delivery.Next(c, s2, delete).value;
        DeliveryServing.RunTwo(c, s1, see, s2, delete, t);
        DeliveryServing.RunJoin(c, s, r1, s1, [see, delete]);
        run := r1 + [see, delete];
        assert Kept(s, looked) == Kept(s, looked - {key}) - {key};
      }
    }
  }

  method GcOnce(client: Client, ghost c: Delivery.Config, ghost s: Delivery.State,
                ghost objs: seq<UnitGroup>, ghost units: seq<Unit>, nowMs: nat)
    returns (ghost run: seq<Delivery.Action>, ghost t: Delivery.State)
    requires client.Valid() && Abstracts(s.client, client, objs, units) && DeliveryOnce.Stored(s.client)
    requires s.client.expiring.None? && s.nowMs == nowMs
    modifies client`groups
    ensures Delivery.Run(c, s, run) == Some(t) && Abstracts(t.client, client, objs, units)
  {
    run, t := GcRun(c, s, s.client.groups.Keys);
    forall key | key in s.client.groups
      ensures s.client.objs[s.client.groups[key]].expireAt * MILLISECOND == client.groups[key].expireAt
    {
      assert GroupIs(s.client.objs[s.client.groups[key]], objs[s.client.groups[key]], units);
    }
    client.GcExpiredGroup(nowMs * MILLISECOND);
  }
}
