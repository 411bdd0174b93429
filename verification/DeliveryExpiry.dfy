// What the expiry of a group means: nothing until the client's gc has dropped the group, and an end
// of its callbacks from then on.
module DeliveryExpiry {
  import opened Events
  import opened Delivery
  import opened DeliveryOnce
  import opened DeliveryWire
  import opened EndToEnd
  import opened Visits

  predicate Expired(s: State, obj: nat) {
    obj < |s.client.objs| && s.nowMs > s.client.objs[obj].expireAt
  }

  // The group object is no longer in the client's map.
  predicate Dropped(k: Client, obj: nat) {
    obj < |k.objs| && forall key :: key in k.groups ==> k.groups[key] != obj
  }

  // The dispatcher has loaded the group for the event it is working on, and not called anything yet.
  predicate Loaded(k: Client, obj: nat) {
    k.poll.Dispatching? && (k.poll.stage.HasGroup? || k.poll.stage.HasUnit?) && k.poll.stage.obj == obj
  }

  predicate CallsOf(calls: seq<Call>, from: nat, obj: nat, most: nat) {
    (forall i, j :: from <= i < j < |calls| ==> calls[i].obj != obj || calls[j].obj != obj)
    && (most == 0 ==> forall i :: from <= i < |calls| ==> calls[i].obj != obj)
  }

  lemma WorkKeepsDropped(k: Client, l: Working, k': Client, obj: nat)
    requires k.poll.Dispatching? && Dropped(k, obj) && WorkNext(k, l) == Some(k')
    ensures Dropped(k', obj) && (Loaded(k', obj) ==> Loaded(k, obj) && k'.calls == k.calls)
    ensures k'.calls == k.calls
            || (|k'.calls| == |k.calls| + 1 && k'.calls[..|k.calls|] == k.calls
                && (k'.calls[|k.calls|].obj == obj ==> Loaded(k, obj)) && !Loaded(k', obj))
  {
  }

  lemma OtherKeepsDropped(c: Config, s: State, a: Action, t: State, obj: nat)
    requires !a.Work? && Dropped(s.client, obj) && Next(c, s, a) == Some(t)
    ensures Dropped(t.client, obj) && (Loaded(t.client, obj) ==> Loaded(s.client, obj))
    ensures t.client.calls == s.client.calls
  {
  }

  // A group that is out of the map stays out, and is called once more at most, if it is loaded.
  predicate Ended(k: Client, obj: nat, from: nat, loaded: bool) {
    && Dropped(k, obj) && from <= |k.calls|
    && if loaded && Loaded(k, obj) then CallsOf(k.calls, from, obj, 0)
       else !Loaded(k, obj) && CallsOf(k.calls, from, obj, if loaded then 1 else 0)
  }

  lemma EndedKept(c: Config, s: State, a: Action, t: State, obj: nat, from: nat, loaded: bool)
    requires Ended(s.client, obj, from, loaded) && Next(c, s, a) == Some(t)
    ensures Ended(t.client, obj, from, loaded)
  {
    match a
    case Work(l) => WorkKeepsDropped(s.client, l, t.client, obj);
    case _ => OtherKeepsDropped(c, s, a, t, obj);
  }

  lemma {:induction false} RunKeepsEnded(c: Config, s: State, run: seq<Action>, t: State,
                                         obj: nat, from: nat, loaded: bool)
    requires Ended(s.client, obj, from, loaded) && Run(c, s, run) == Some(t)
    ensures Ended(t.client, obj, from, loaded)
    decreases |run|
  {
    if run == [] {
    } else {
      var u := Next(c, s, run[0]).value;
      EndedKept(c, s, run[0], u, obj, from, loaded);
      RunKeepsEnded(c, u, run[1..], t, obj, from, loaded);
    }
  }

  // Main results -----------------------------------------------------------------------------------

  // Once a group is out of the map, whether it was called or expired, no continuation calls it again,
  // except for one call that the dispatcher may have loaded it for.
  lemma DroppedIsNotCalled(c: Config, s: State, obj: nat, run: seq<Action>, t: State)
    requires Dropped(s.client, obj) && Run(c, s, run) == Some(t)
    ensures forall i, j :: |s.client.calls| <= i < j < |t.client.calls| ==>
              t.client.calls[i].obj != obj || t.client.calls[j].obj != obj
    ensures !Loaded(s.client, obj) ==>
              forall i :: |s.client.calls| <= i < |t.client.calls| ==> t.client.calls[i].obj != obj
  {
    RunKeepsEnded(c, s, run, t, obj, |s.client.calls|, Loaded(s.client, obj));
  }

  // The gc drops a group that has expired, and whatever is then stored under its id.
  lemma GcDrops(c: Config, past: seq<Action>, s: State, t: State)
    requires Run(c, Init(c), past) == Some(s) && Next(c, s, Use(ExpireDelete)) == Some(t)
    ensures forall key :: s.client.expiring == Some(key) && key in s.client.groups ==>
              Dropped(t.client, s.client.groups[key])
  {
    RunFromStart(c, past, s);
  }

  // The gc sees exactly the expired groups, and a group expires a minute after it was made.
  lemma GcSeesExpired(c: Config, s: State, key: string)
    requires Stored(s.client)
    ensures Next(c, s, Use(ExpireSee(key))).Some? <==>
            s.client.expiring == None && key in s.client.groups
            && s.nowMs > s.client.objs[s.client.groups[key]].expireAt
  {
  }

  lemma GroupsLiveAMinute(c: Config, s: State, id: string, t: State)
    requires Next(c, s, Use(NewGroup(id))) == Some(t)
    ensures t.client.groups == s.client.groups[id := |s.client.objs|]
    ensures t.client.objs == s.client.objs + [UnitGroup(id, map[], false, s.nowMs + 60_000)]
  {
  }

  // Until then the expiry changes nothing: a reachable state in which a group has long expired, and
  // the next step calls its unit's callback.
  lemma ExpiredCanBeCalled(c: Config, request: Request, v: Visit, late: nat)
    returns (past: seq<Action>, s: State, t: State)
    requires c.admit(request) == Some(v) && v.kind.HttpInternal?
    ensures Run(c, Init(c), past) == Some(s) && Next(c, s, Work(RunCallback(true))) == Some(t)
    ensures Expired(s, 0) && s.nowMs >= s.client.objs[0].expireAt + late
    ensures s.client.objs[0].id == v.named.group && s.client.calls == []
    ensures |t.client.calls| == 1 && t.client.calls[0].obj == 0 && t.client.calls[0].ok
  {
    var g, u := v.named.group, v.named.unit;
    var r1, s1 := SetUp(c, g, u);
    var a1, a2 := Use(OnVisit(0, true)), Tick(EXPIRE_MS + late + 1);
    var s2 := Next(c, s1, a1).value;
    RunStep(c, Init(c), r1, s1, a1);
    var s3 := Next(c, s2, a2).value;
    RunStep(c, Init(c), r1 + [a1], s2, a2);
    var p3 := r1 + [a1] + [a2];
    var r4, s4 := VisitBecomesPending(c, p3, s3, request, v, "", 1, true);
    var r5, s5 := OneExchange(c, p3 + r4, s4, g);
    TimePasses(c, p3, s3, p3 + r4 + r5, r4 + r5, s5);
    var p5 := p3 + r4 + r5;
    var s6 := Next(c, s5, Work(LoadGroup)).value;
    RunStep(c, Init(c), p5, s5, Work(LoadGroup));
    s := Next(c, s6, Work(LoadUnit)).value;
    RunStep(c, Init(c), p5 + [Work(LoadGroup)], s6, Work(LoadUnit));
    past := p5 + [Work(LoadGroup)] + [Work(LoadUnit)];
    t := Next(c, s, Work(RunCallback(true))).value;
  }

  lemma TimePasses(c: Config, past: seq<Action>, s: State, all: seq<Action>, run: seq<Action>, t: State)
    requires Run(c, Init(c), past) == Some(s) && Run(c, Init(c), all) == Some(t) && all == past + run
    ensures s.nowMs <= t.nowMs
  {
    DeliveryServing.RunJoin(c, Init(c), past, s, run);
    ClockAlong(c, s, run, t);
  }

  lemma {:induction false} ClockAlong(c: Config, s: State, run: seq<Action>, t: State)
    requires Run(c, s, run) == Some(t)
    ensures s.nowMs <= t.nowMs
    decreases |run|
  {
    if run == [] {
    } else {
      ClockAlong(c, Next(c, s, run[0]).value, run[1..], t);
    }
  }
}
