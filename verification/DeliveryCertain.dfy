// Whether delivery is certain: what can be reached from anywhere, and the exact condition.
module DeliveryCertain {
  import opened Events
  import opened Delivery
  import opened DeliveryFetch
  import opened DeliveryLoss
  import opened DeliveryOnce
  import opened DeliveryProgress
  import opened DeliveryServing
  import opened DeliverySafety
  import opened DeliveryWire

  lemma {:induction false} CountsGrowAlong(c: Config, s: State, run: seq<Action>, t: State)
    requires Run(c, s, run) == Some(t)
    ensures |s.sent| <= |t.sent| && s.client.calls <= t.client.calls
    decreases |run|
  {
    if run == [] {
    } else {
      var u := Next(c, s, run[0]).value;
      CountsGrow(c, s, run[0], u);
      CountsGrowAlong(c, u, run[1..], t);
    }
  }

  // The rest of the client is as it was, but for the flags and maybe a group.
  predicate Untouched(k: Client, k': Client, keys: set<string>) {
    && k'.units == k.units && k.calls <= k'.calls && |k'.objs| == |k.objs|
    && (forall o :: 0 <= o < |k.objs| ==> k'.objs[o].units == k.objs[o].units)
    && forall key :: key in k.groups && key !in keys ==> key in k'.groups && k'.groups[key] == k.groups[key]
  }

  predicate ItemOver(k: Client, k': Client)
    requires k.poll.Dispatching? && k.poll.items != []
  {
    var g := k.poll.items[0].Group();
    && k'.poll == Dispatching(k.poll.items[1..], Loading) && k'.toDelete == k.toDelete + [g]
    && Untouched(k, k', {g})
  }

  lemma FromFlagged(c: Config, s: State, obj: nat, n: nat) returns (run: seq<Action>, t: State)
    requires AtStage(s.client, Flagged(obj)) && s.client.poll.items != []
    ensures Runs(c, s, run, t, n, 0) && t == s.(client := t.client)
    ensures ItemOver(s.client, t.client)
  {
    var s1 := Next(c, s, Work(DropGroup)).value;
    run, t := FromAcking(c, s1, n);
    RunCons(c, s, Work(DropGroup), s1, run, t, n, 0);
    run := [Work(DropGroup)] + run;
  }

  // The dispatcher can finish the event it is working on, whatever stage it has reached.
  lemma FinishItem(c: Config, s: State, answers: Answers, n: nat) returns (run: seq<Action>, t: State)
    requires s.client.poll.Dispatching? && s.client.poll.items != [] && OnceInv(s.client)
    ensures Runs(c, s, run, t, n, 0) && t == s.(client := t.client)
    ensures ItemOver(s.client, t.client)
  {
    if s.client.poll.stage.Flagged? {
      run, t := FromFlagged(c, s, s.client.poll.stage.obj, n);
    } else {
      var winner;
      run, t, winner := FinishUnflagged(c, s, answers, n);
      DoneIsItemOver(s.client, winner, t.client);
    }
  }

  lemma DoneIsItemOver(k: Client, winner: Option<nat>, k': Client)
    requires k.poll.Dispatching? && k.poll.items != [] && ItemDone(k, winner, k')
    ensures ItemOver(k, k')
  {
  }

  lemma FinishUnflagged(c: Config, s: State, answers: Answers, n: nat)
    returns (run: seq<Action>, t: State, winner: Option<nat>)
    requires s.client.poll.Dispatching? && s.client.poll.items != [] && Stored(s.client) && StageInv(s.client)
    requires !s.client.poll.stage.Flagged?
    ensures Runs(c, s, run, t, n, 0) && t == s.(client := t.client) && ItemDone(s.client, winner, t.client)
  {
    match s.client.poll.stage
    case Loading =>
      run, t := DispatchItem(c, s, answers, n);
      winner := Winner(s.client, answers, s.client.poll.items[0].event);
    case HasGroup(obj) =>
      run, t := FromGroup(c, s, answers, obj, n);
      winner := if Wins(s.client, answers, obj, s.client.poll.items[0].event) then Some(obj) else None;
    case HasUnit(obj, unit) =>
      run, t := FromUnit(c, s, answers, obj, unit, n);
      var won := s.client.units[unit].callback && answers(unit, s.client.poll.items[0].event);
      winner := if won then Some(obj) else None;
    case Succeeded(obj) =>
      run, t := FromSucceeded(c, s, obj, n);
      winner := Some(obj);
    case Acking =>
      run, t := FromAcking(c, s, n);
      winner := None;
  }

  // The client after the rest of a batch, whatever stage it was in.
  predicate BatchOver(k: Client, k': Client)
    requires k.poll.Dispatching?
  {
    Names(k'.toDelete) == Names(k.toDelete) + Groups(k.poll.items) && Untouched(k, k', Groups(k.poll.items))
  }

  lemma OverAfterItem(k: Client, k1: Client, k2: Client)
    requires k.poll.Dispatching? && k.poll.items != [] && ItemOver(k, k1) && BatchOver(k1, k2)
    ensures BatchOver(k, k2)
  {
    NamesOf(k.toDelete, k.poll.items[0].Group());
    GroupsOf(k.poll.items, k.poll.items[0]);
  }

  lemma DoneIsOver(k: Client, answers: Answers, k': Client)
    requires k.poll.Dispatching? && Stored(k) && BatchDone(k, answers, k.poll.items, k') && k.calls <= k'.calls
    ensures BatchOver(k, k')
  {
    var items := k.poll.items;
    forall g | g in CalledBy(k, answers, items) ensures g in Groups(items) {
      var i :| 0 <= i < |items| && VerdictOn(k, answers, items[i].event).Called? && items[i].Group() == g;
    }
    NamesJoin(k.toDelete, GroupSeq(items));
    GroupsAreNames(items, GroupSeq(items));
  }

  lemma NamesJoin(a: seq<string>, b: seq<string>)
    ensures Names(a + b) == Names(a) + Names(b)
  {
    forall g ensures g in Names(a + b) <==> g in Names(a) + Names(b) {
      if g in Names(a) {
        var i :| 0 <= i < |a| && a[i] == g;
        assert (a + b)[i] == g;
      }
      if g in Names(b) {
        var i :| 0 <= i < |b| && b[i] == g;
        assert (a + b)[|a| + i] == g;
      }
    }
  }

  // A fetch in progress can be ended without the server: given up, or dispatched to its end.
  lemma Settle(c: Config, s: State, answers: Answers, n: nat) returns (run: seq<Action>, t: State)
    requires OnceInv(s.client)
    ensures Runs(c, s, run, t, n, if s.client.poll.Dispatching? then 1 else 0)
    ensures t == s.(client := t.client) && t.client.poll.Idle?
    ensures !s.client.poll.Dispatching? ==> t.client == s.client.(poll := Idle)
    ensures s.client.poll.Dispatching? ==> BatchOver(s.client, t.client)
  {
    match s.client.poll
    case Idle =>
      run, t := [], s;
    case Waiting(_) =>
      t := Next(c, s, Fetch(Fail)).value;
      RunOne(c, s, Fetch(Fail), t, n);
      run := [Fetch(Fail)];
    case Dispatching(items, _) =>
      var r1, s1 := [], s;
      if items != [] {
        r1, s1 := FinishItem(c, s, answers, n);
        RunKeepsOnce(c, s, r1, s1);
      }
      run, t := DispatchBatch(c, s1, answers, n);
      CountsGrowAlong(c, s1, run, t);
      DoneIsOver(s1.client, answers, t.client);
      if items != [] { OverAfterItem(s.client, s1.client, t.client); }
      RunsJoin(c, s, r1, s1, run, t, n, 0, 1);
      run := r1 + run;
  }

  // From every reachable state the client can end the fetch in progress, if any, and complete
  // another one.
  lemma SettleAndFetch(c: Config, past: seq<Action>, s: State, answers: Answers)
    returns (run: seq<Action>, t: State)
    requires Run(c, Init(c), past) == Some(s)
    ensures Runs(c, s, run, t, |s.sent|, if s.client.poll.Dispatching? then 2 else 1) && t.client.poll.Idle?
  {
    RunFromStart(c, past, s);
    var r1, s1 := Settle(c, s, answers, |s.sent|);
    RunJoin(c, Init(c), past, s, r1);
    var items;
    run, t, items := FetchCompletes(c, past + r1, s1, answers);
    RunsJoin(c, s, r1, s1, run, t, |s.sent|, if s.client.poll.Dispatching? then 1 else 0, 1);
    run := r1 + run;
  }

  lemma {:induction false} OwnRunSpares(c: Config, s: State, run: seq<Action>, aim: Aim)
    requires AreOwn(aim.sent, run)
    ensures RunSpares(c, s, run, aim)
    decreases |run|
  {
    if run == [] {
    } else {
      assert IsOwn(aim.sent, run[0]);
      var t := Next(c, s, run[0]);
      if t.Some? { OwnRunSpares(c, t.value, run[1..], aim); }
    }
  }

  // From between two fetches: the client receives the aim, and then holds it.
  lemma FetchAim(c: Config, past: seq<Action>, s: State, aim: Aim, answers: Answers)
    returns (run: seq<Action>, t: State)
    requires Run(c, Init(c), past) == Some(s) && Aims(s, aim) && Clear(s, aim) && s.client.poll.Idle?
    ensures Runs(c, s, run, t, |s.sent|, 1) && t.client.poll.Idle? && Delivered(t.client, aim)
  {
    RunFromStart(c, past, s);
    var r1, s1 := ReceiveAim(c, s, aim);
    UnderwayAlong(c, past, s, r1, s1, aim);
    run, t := DispatchBatch(c, s1, answers, |s.sent|);
    OwnRunSpares(c, s1, run, aim);
    RunDeliversInHand(c, s1, run, t, aim);
    RunsJoin(c, s, r1, s1, run, t, |s.sent|, 0, 1);
    run := r1 + run;
  }

  lemma ReceiveAim(c: Config, s: State, aim: Aim) returns (run: seq<Action>, t: State)
    requires Aims(s, aim) && Clear(s, aim) && s.client.poll.Idle? && Keyed(s.server)
    ensures Runs(c, s, run, t, |s.sent|, 0) && AtStage(t.client, Loading) && InHand(t.client, aim)
  {
    var r1, s1, h := SendAndServe(c, s);
    t := Next(c, s1, Fetch(Receive(h))).value;
    RunOne(c, s1, Fetch(Receive(h)), t, |s.sent|);
    RunsJoin(c, s, r1, s1, [Fetch(Receive(h))], t, |s.sent|, 0, 0);
    run := r1 + [Fetch(Receive(h))];
    AimReceived(s, t, aim);
  }

  lemma AimReceived(s: State, t: State, aim: Aim)
    requires Aims(s, aim) && aim.G() !in s.client.toDelete && Live(t.client, aim)
    requires AtStage(t.client, Loading)
    requires t.server.pending == s.server.pending - Names(s.client.toDelete)
    requires Covers(t.client.poll.items, t.server.pending, t.server.pending.Keys)
    ensures InHand(t.client, aim)
  {
    var items := t.client.poll.items;
    assert aim.G() in Groups(items);
    var i :| 0 <= i < |items| && items[i].Group() == aim.G();
    assert items[i] == aim.item;
  }

  lemma UnderwayAlong(c: Config, past: seq<Action>, s: State, run: seq<Action>, t: State, aim: Aim)
    requires Run(c, Init(c), past) == Some(s) && Run(c, s, run) == Some(t)
    requires aim.sent <= |s.sent| && aim.calls <= |s.client.calls|
    ensures Underway(c, t, aim)
  {
    RunJoin(c, Init(c), past, s, run);
    RunFromStart(c, past + run, t);
    CountsGrowAlong(c, s, run, t);
  }

  // Where a fetch is in progress that does not carry it, the aim is still clear after it.
  lemma ClearAfterSettling(s: State, t: State, aim: Aim) returns (aim': Aim)
    requires RouteInv(s) && Aims(s, aim) && Clear(s, aim) && !InBatch(s.client, aim)
    requires t == s.(client := t.client) && t.client.poll.Idle?
    requires !s.client.poll.Dispatching? ==> t.client == s.client.(poll := Idle)
    requires s.client.poll.Dispatching? ==> BatchOver(s.client, t.client)
    ensures aim' == aim.(calls := |t.client.calls|) && aim.calls <= aim'.calls
    ensures Aims(t, aim') && Clear(t, aim')
  {
    aim' := aim.(calls := |t.client.calls|);
    if s.client.poll.Dispatching? {
      var items := s.client.poll.items;
      assert aim.G() !in Groups(items);
      assert aim.G() !in Names(t.client.toDelete);
    }
  }

  // Delivery can come about: from every reachable state, a clear aim is handed to its unit's
  // callback by a run of the steps of a fetch alone, whatever the callbacks answer, and whatever
  // acks other handlers still hold.
  lemma FetchCanDeliver(c: Config, past: seq<Action>, s: State, aim: Aim, answers: Answers)
    returns (run: seq<Action>, t: State)
    requires Run(c, Init(c), past) == Some(s) && Aims(s, aim) && Clear(s, aim)
    ensures Runs(c, s, run, t, |s.sent|, if s.client.poll.Dispatching? then 2 else 1)
    ensures t.client.poll.Idle? && Delivered(t.client, aim)
  {
    if InBatch(s.client, aim) {
      run, t := SettleAndFetch(c, past, s, answers);
      OwnRunSpares(c, s, run, aim);
      DeliveredIfClear(c, past, s, aim, run, t);
    } else {
      var r1, s1, aim' := SettleClear(c, past, s, aim, answers);
      run, t := FetchAim(c, past + r1, s1, aim', answers);
      LaterDelivery(t.client, aim, aim');
      RunsJoin(c, s, r1, s1, run, t, |s.sent|, if s.client.poll.Dispatching? then 1 else 0, 1);
      run := r1 + run;
    }
  }

  lemma SettleClear(c: Config, past: seq<Action>, s: State, aim: Aim, answers: Answers)
    returns (run: seq<Action>, t: State, aim': Aim)
    requires Run(c, Init(c), past) == Some(s) && Aims(s, aim) && Clear(s, aim) && !InBatch(s.client, aim)
    ensures Runs(c, s, run, t, |s.sent|, if s.client.poll.Dispatching? then 1 else 0)
    ensures Run(c, Init(c), past + run) == Some(t) && t.client.poll.Idle? && t.sent == s.sent
    ensures aim' == aim.(calls := |t.client.calls|) && aim.calls <= aim'.calls
    ensures Aims(t, aim') && Clear(t, aim')
  {
    RunFromStart(c, past, s);
    run, t := Settle(c, s, answers, |s.sent|);
    RunJoin(c, Init(c), past, s, run);
    aim' := ClearAfterSettling(s, t, aim);
  }

  lemma LaterDelivery(k: Client, aim: Aim, aim': Aim)
    requires aim' == aim.(calls := aim'.calls) && aim.calls <= aim'.calls && Delivered(k, aim')
    ensures Delivered(k, aim)
  {
  }

  lemma TwoFetches(c: Config, past: seq<Action>, s: State, answers: Answers)
    returns (run: seq<Action>, t: State)
    requires Run(c, Init(c), past) == Some(s)
    ensures Run(c, s, run) == Some(t) && AreOwn(|s.sent|, run) && Completed(run) >= 2
  {
    var r1, s1 := SettleAndFetch(c, past, s, answers);
    RunJoin(c, Init(c), past, s, r1);
    CountsGrowAlong(c, s, r1, s1);
    run, t := SettleAndFetch(c, past + r1, s1, answers);
    RunJoin(c, s, r1, s1, run);
    run := r1 + run;
  }

  // What is added is what is pending.
  predicate Extends(out: seq<Item>, out': seq<Item>, pending: map<string, Item>) {
    && out <= out'
    && forall i :: |out| <= i < |out'| ==> out'[i].Group() in pending && pending[out'[i].Group()] == out'[i]
  }

  // The handler of a request can be driven to its response, which holds what it has found so far.
  lemma {:induction false} RangeOut(c: Config, s: State, h: nat, n: nat) returns (run: seq<Action>, t: State)
    requires h in s.server.handlers && s.server.handlers[h].Ranging? && HandlerOnce(s.server.handlers[h])
    requires Keyed(s.server)
    ensures Runs(c, s, run, t, n, 0) && t == s.(server := t.server) && t.server.pending == s.server.pending
    ensures h in t.server.handlers && t.server.handlers == s.server.handlers[h := t.server.handlers[h]]
    ensures t.server.handlers[h].Responded? && t.server.handlers[h].call == s.server.handlers[h].call
    ensures Extends(s.server.handlers[h].out, t.server.handlers[h].out, s.server.pending)
    decreases s.server.handlers[h].todo
  {
    var r := s.server.handlers[h];
    var a;
    if r.todo == {} {
      a := Serve(Respond(h));
      t := Next(c, s, a).value;
      RunOne(c, s, a, t, n);
      run := [a];
    } else {
      var key :| key in r.todo;
      a := Serve(if key in s.server.pending then RangeVisit(h, key) else RangeSkip(h, key));
      var u := RangeStep(c, s, h, key);
      run, t := RangeOut(c, u, h, n);
      RunCons(c, s, a, u, run, t, n, 0);
      run := [a] + run;
    }
  }

  lemma RangeStep(c: Config, s: State, h: nat, key: string) returns (u: State)
    requires h in s.server.handlers && s.server.handlers[h].Ranging? && HandlerOnce(s.server.handlers[h])
    requires Keyed(s.server) && key in s.server.handlers[h].todo
    ensures Next(c, s, Serve(if key in s.server.pending then RangeVisit(h, key) else RangeSkip(h, key))) == Some(u)
    ensures u == s.(server := u.server) && u.server.pending == s.server.pending && h in u.server.handlers
    ensures u.server.handlers == s.server.handlers[h := u.server.handlers[h]]
    ensures u.server.handlers[h].Ranging? && HandlerOnce(u.server.handlers[h])
    ensures u.server.handlers[h].call == s.server.handlers[h].call
    ensures u.server.handlers[h].todo == s.server.handlers[h].todo - {key}
    ensures Extends(s.server.handlers[h].out, u.server.handlers[h].out, s.server.pending)
  {
    u := Next(c, s, Serve(if key in s.server.pending then RangeVisit(h, key) else RangeSkip(h, key))).value;
  }

  // A response that names the aim's group with another event can be received, and then the aim is
  // no longer clear.
  lemma WrongAnswer(c: Config, s: State, aim: Aim, h: nat, n: nat) returns (run: seq<Action>, t: State)
    requires Aims(s, aim) && OnceOnly(s) && Keyed(s.server) && s.client.poll.Waiting?
    requires h in s.server.handlers && s.server.handlers[h].call == s.client.poll.call
    requires !s.server.handlers[h].Deleting? && !Only(s.server.handlers[h].out, aim)
    ensures Runs(c, s, run, t, n, 0) && Aims(t, aim) && !Clear(t, aim) && t.client.poll.Dispatching?
  {
    var r1, s1 := [], s;
    if s.server.handlers[h].Ranging? { r1, s1 := RangeOut(c, s, h, n); }
    var i :| 0 <= i < |s.server.handlers[h].out| && s.server.handlers[h].out[i].Group() == aim.G()
             && s.server.handlers[h].out[i] != aim.item;
    assert s1.server.handlers[h].out[i] == s.server.handlers[h].out[i];
    t := Next(c, s1, Fetch(Receive(h))).value;
    RunOne(c, s1, Fetch(Receive(h)), t, n);
    RunsJoin(c, s, r1, s1, [Fetch(Receive(h))], t, n, 0, 0);
    run := r1 + [Fetch(Receive(h))];
  }

  // Waiting can end with an aim that was not clear still not clear.
  lemma StaysUnclear(c: Config, s: State, aim: Aim, answers: Answers) returns (run: seq<Action>, t: State)
    requires Aims(s, aim) && !Clear(s, aim) && s.client.poll.Waiting?
    requires OnceInv(s.client) && OnceOnly(s) && Keyed(s.server)
    ensures Runs(c, s, run, t, |s.sent|, 0) && Aims(t, aim) && !Clear(t, aim) && !t.client.poll.Waiting?
  {
    if aim.G() in s.client.toDelete {
      run, t := Settle(c, s, answers, |s.sent|);
    } else {
      var h :| h in s.server.handlers && s.server.handlers[h].call == s.client.poll.call
               && !s.server.handlers[h].Deleting? && !Only(s.server.handlers[h].out, aim);
      run, t := WrongAnswer(c, s, aim, h, |s.sent|);
    }
  }

  // An aim that is not clear can be missed, and outside of waiting it always is.
  lemma UnclearCanMiss(c: Config, past: seq<Action>, s: State, aim: Aim, answers: Answers)
    returns (run: seq<Action>, t: State)
    requires Run(c, Init(c), past) == Some(s) && Aims(s, aim) && !Clear(s, aim)
    ensures Run(c, s, run) == Some(t) && AreOwn(|s.sent|, run) && Completed(run) >= 2
    ensures !Delivered(t.client, aim)
  {
    if s.client.poll.Waiting? {
      RunFromStart(c, past, s);
      var r1, s1 := StaysUnclear(c, s, aim, answers);
      RunJoin(c, Init(c), past, s, r1);
      run, t := TwoFetches(c, past + r1, s1, answers);
      ClosedIsLost(c, past + r1, s1, aim, run, t);
      RunJoin(c, s, r1, s1, run);
      run := r1 + run;
    } else {
      run, t := TwoFetches(c, past, s, answers);
      ClosedIsLost(c, past, s, aim, run, t);
    }
  }

  // A handler that holds an ack for the aim's group can carry it out, and then the aim is gone, if
  // the client does not hold it.
  lemma AckCanTake(c: Config, past: seq<Action>, s: State, aim: Aim, h: nat, answers: Answers)
    returns (run: seq<Action>, t: State)
    requires Run(c, Init(c), past) == Some(s) && Aims(s, aim) && !InBatch(s.client, aim)
    requires h in s.server.handlers && s.server.handlers[h].Deleting? && aim.G() in s.server.handlers[h].acks
    ensures Run(c, s, run) == Some(t) && AreOwn(|s.sent|, run) && Completed(run) >= 2
    ensures !Delivered(t.client, aim)
  {
    var r1, s1 := AckTakes(c, past, s, aim, h, answers);
    RunJoin(c, Init(c), past, s, r1);
    CountsGrowAlong(c, s, r1, s1);
    run, t := TwoFetches(c, past + r1, s1, answers);
    RunJoin(c, s, r1, s1, run);
    AimGone(c, past + r1, s1, aim, run, t);
    run := r1 + run;
  }

  lemma AckTakes(c: Config, past: seq<Action>, s: State, aim: Aim, h: nat, answers: Answers)
    returns (run: seq<Action>, t: State)
    requires Run(c, Init(c), past) == Some(s) && Aims(s, aim) && !InBatch(s.client, aim)
    requires h in s.server.handlers && s.server.handlers[h].Deleting? && aim.G() in s.server.handlers[h].acks
    ensures Runs(c, s, run, t, |s.sent|, 0) && !t.client.poll.Waiting? && t.client.calls == s.client.calls
    ensures Put(aim.item) in t.server.ops && aim.G() !in t.server.pending && !InBatch(t.client, aim)
  {
    RunFromStart(c, past, s);
    var r1, s1 := GiveUp(c, s, answers);
    run, t := DeleteAll(c, s1, h, s1.server.handlers[h].call, s1.server.handlers[h].acks, |s.sent|);
    RunsJoin(c, s, r1, s1, run, t, |s.sent|, 0, 0);
    run := r1 + run;
    OpsGrowAlong(c, s, run, t);
    assert aim.G() in Names(s1.server.handlers[h].acks);
  }

  // The client stops waiting, if it does.
  lemma GiveUp(c: Config, s: State, answers: Answers) returns (run: seq<Action>, t: State)
    requires OnceInv(s.client)
    ensures Runs(c, s, run, t, |s.sent|, 0) && t == s.(client := t.client) && !t.client.poll.Waiting?
    ensures t.client == if s.client.poll.Waiting? then s.client.(poll := Idle) else s.client
  {
    run, t := [], s;
    if s.client.poll.Waiting? { run, t := Settle(c, s, answers, |s.sent|); }
  }

  lemma {:induction false} OpsGrowAlong(c: Config, s: State, run: seq<Action>, t: State)
    requires Run(c, s, run) == Some(t)
    ensures s.server.ops <= t.server.ops
    decreases |run|
  {
    if run == [] {
    } else {
      var u := Next(c, s, run[0]).value;
      var op := ServerOps(c, s, run[0], u);
      OpsGrowAlong(c, u, run[1..], t);
    }
  }

  lemma AimGone(c: Config, past: seq<Action>, s: State, aim: Aim, run: seq<Action>, t: State)
    requires Run(c, Init(c), past) == Some(s) && Run(c, s, run) == Some(t)
    requires !s.client.poll.Waiting? && Put(aim.item) in s.server.ops && aim.G() !in s.server.pending
    requires !InBatch(s.client, aim) && aim.calls == |s.client.calls|
    ensures !Delivered(t.client, aim)
  {
    RunFromStart(c, past, s);
    if s.client.poll.Dispatching? {
      forall i | 0 <= i < |s.client.poll.items| ensures s.client.poll.items[i].visit != aim.item.visit {
        assert Put(s.client.poll.items[i]) in s.server.ops;
        if s.client.poll.items[i].visit == aim.item.visit { SameVisitSameItem(s, s.client.poll.items[i], aim.item); }
      }
    }
    if Delivered(t.client, aim) {
      var i :| aim.calls <= i < |t.client.calls| && t.client.calls[i].obj == aim.obj
               && t.client.calls[i].unit == aim.unit && t.client.calls[i].item == aim.item;
      GoneIsLost(c, past, s, aim.item, Just(aim.obj, aim.unit), run, t, i);
    }
  }

  // All runs that leave the aim alone and complete two fetches deliver it.
  ghost predicate Inevitable(c: Config, s: State, aim: Aim) {
    forall run, t :: Run(c, s, run) == Some(t) && RunSpares(c, s, run, aim) && Completed(run) >= 2 ==>
      Delivered(t.client, aim)
  }

  // When delivery is inevitable. In every reachable state, between fetches, waiting or dispatching:
  // if and only if the aim is clear, and no handler still has an ack for its group to carry out or
  // the client holds it already.
  lemma CertainIff(c: Config, past: seq<Action>, s: State, aim: Aim)
    requires Run(c, Init(c), past) == Some(s) && Aims(s, aim)
    ensures Certain(s, aim) <==> Inevitable(c, s, aim)
  {
    if Certain(s, aim) {
      forall run, t | Run(c, s, run) == Some(t) && RunSpares(c, s, run, aim) && Completed(run) >= 2
        ensures Delivered(t.client, aim)
      {
        DeliveredIfClear(c, past, s, aim, run, t);
      }
    } else {
      var run, t := UncertainCanMiss(c, past, s, aim, (unit, e) => true);
      OwnRunSpares(c, s, run, aim);
    }
  }

  lemma UncertainCanMiss(c: Config, past: seq<Action>, s: State, aim: Aim, answers: Answers)
    returns (run: seq<Action>, t: State)
    requires Run(c, Init(c), past) == Some(s) && Aims(s, aim) && !Certain(s, aim)
    ensures Run(c, s, run) == Some(t) && AreOwn(|s.sent|, run) && Completed(run) >= 2
    ensures !Delivered(t.client, aim)
  {
    if Clear(s, aim) {
      var h :| h in s.server.handlers && s.server.handlers[h].Deleting? && aim.G() in s.server.handlers[h].acks;
      run, t := AckCanTake(c, past, s, aim, h, answers);
    } else {
      run, t := UnclearCanMiss(c, past, s, aim, answers);
    }
  }

  // A saving answer ------------------------------------------------------------------------------

  // The handler that saves the aim can be driven to its response.
  lemma SavingResponse(c: Config, s: State, aim: Aim, h: nat, n: nat) returns (run: seq<Action>, t: State)
    requires Aims(s, aim) && OnceOnly(s) && Keyed(s.server) && s.client.poll.Waiting?
    requires h in s.server.handlers && Saves(s.server.handlers[h], s.client.poll.call, aim)
    ensures Runs(c, s, run, t, n, 0) && t == s.(server := t.server) && Aims(t, aim)
    ensures h in t.server.handlers && t.server.handlers[h].Responded?
    ensures t.server.handlers[h].call == s.client.poll.call && Only(t.server.handlers[h].out, aim)
  {
    match s.server.handlers[h]
    case Responded(_, out) =>
      run, t := [], s;
    case Ranging(_, _, _, out, _) =>
      run, t := RangeOut(c, s, h, n);
    case Deleting(call, acks) =>
      var r1, s1 := DeleteAll(c, s, h, call, acks, n);
      StillKeyed(s, s1);
      run, t := DriveOn(c, s1, h, n);
      RunsJoin(c, s, r1, s1, run, t, n, 0, 0);
      run := r1 + run;
  }

  lemma StillKeyed(s: State, t: State)
    requires Keyed(s.server) && t.server.pending.Keys <= s.server.pending.Keys
    requires forall k :: k in t.server.pending ==> t.server.pending[k] == s.server.pending[k]
    ensures Keyed(t.server)
  {
  }

  // From the end of its acks on.
  lemma DriveOn(c: Config, s: State, h: nat, n: nat) returns (run: seq<Action>, t: State)
    requires h in s.server.handlers && s.server.handlers[h].Deleting? && s.server.handlers[h].acks == []
    requires Keyed(s.server)
    ensures Runs(c, s, run, t, n, 0) && t == s.(server := t.server) && t.server.pending == s.server.pending
    ensures h in t.server.handlers && t.server.handlers[h].Responded?
    ensures t.server.handlers[h].call == s.server.handlers[h].call
    ensures Extends([], t.server.handlers[h].out, s.server.pending)
  {
    var u := Next(c, s, Serve(BeginRange(h))).value;
    run, t := RangeOut(c, u, h, n);
    RunCons(c, s, Serve(BeginRange(h)), u, run, t, n, 0);
    run := [Serve(BeginRange(h))] + run;
  }

  // Received, it leaves the aim clear.
  lemma SavingAnswer(c: Config, s: State, aim: Aim, h: nat, n: nat) returns (run: seq<Action>, t: State)
    requires Aims(s, aim) && OnceOnly(s) && Keyed(s.server) && s.client.poll.Waiting?
    requires h in s.server.handlers && Saves(s.server.handlers[h], s.client.poll.call, aim)
    ensures Runs(c, s, run, t, n, 0) && Aims(t, aim) && Clear(t, aim)
  {
    var r1, s1 := SavingResponse(c, s, aim, h, n);
    t := Next(c, s1, Fetch(Receive(h))).value;
    RunOne(c, s1, Fetch(Receive(h)), t, n);
    RunsJoin(c, s, r1, s1, [Fetch(Receive(h))], t, n, 0, 0);
    run := r1 + [Fetch(Receive(h))];
  }

  // From every open state a run of the steps of a fetch makes the aim clear.
  lemma Opens(c: Config, s: State, aim: Aim, answers: Answers) returns (run: seq<Action>, t: State)
    requires Aims(s, aim) && Open(s, aim) && OnceInv(s.client) && OnceOnly(s) && Keyed(s.server)
    ensures Runs(c, s, run, t, |s.sent|, 0) && Aims(t, aim) && Clear(t, aim)
  {
    if !s.client.poll.Waiting? {
      run, t := [], s;
    } else if aim.G() !in s.client.toDelete {
      run, t := Settle(c, s, answers, |s.sent|);
    } else {
      var h :| h in s.server.handlers && Saves(s.server.handlers[h], s.client.poll.call, aim);
      run, t := SavingAnswer(c, s, aim, h, |s.sent|);
    }
  }

  // Some run that leaves the aim alone delivers it.
  ghost predicate Possible(c: Config, s: State, aim: Aim) {
    exists run, t :: DeliversBy(c, s, run, t, aim)
  }

  predicate DeliversBy(c: Config, s: State, run: seq<Action>, t: State, aim: Aim) {
    Run(c, s, run) == Some(t) && RunSpares(c, s, run, aim) && Delivered(t.client, aim)
  }

  // When delivery is possible: in every reachable state, some run that leaves the aim alone delivers
  // it if and only if it is open.
  lemma PossibleIff(c: Config, past: seq<Action>, s: State, aim: Aim)
    requires Run(c, Init(c), past) == Some(s) && Aims(s, aim)
    ensures Open(s, aim) <==> Possible(c, s, aim)
  {
    if Open(s, aim) {
      RunFromStart(c, past, s);
      var r1, s1 := Opens(c, s, aim, (unit, e) => true);
      RunJoin(c, Init(c), past, s, r1);
      CountsGrowAlong(c, s, r1, s1);
      var r2, t := FetchCanDeliver(c, past + r1, s1, aim, (unit, e) => true);
      RunJoin(c, s, r1, s1, r2);
      OwnRunSpares(c, s, r1 + r2, aim);
      assert DeliversBy(c, s, r1 + r2, t, aim);
    }
    if Possible(c, s, aim) {
      var run, t :| DeliversBy(c, s, run, t, aim);
      if !Open(s, aim) { ClosedIsLost(c, past, s, aim, run, t); }
    }
  }
}
