// Which visits are delivered: what a completed fetch does for an event that is pending for a live
// unit, wherever the client stands.
module DeliveryProgress {
  import opened Events
  import opened Delivery
  import opened DeliveryLoss
  import opened DeliveryOnce
  import opened DeliverySafety
  import opened DeliveryWire

  // What is to be delivered to whom, and where the run starts: the number of fetches sent and
  // of callbacks run before it.
  datatype Aim = Aim(item: Item, obj: nat, unit: nat, sent: nat, calls: nat) {
    function G(): string { item.Group() }
  }

  predicate Delivered(k: Client, aim: Aim) {
    exists i :: aim.calls <= i < |k.calls| && k.calls[i].obj == aim.obj && k.calls[i].unit == aim.unit
                && k.calls[i].item == aim.item
  }

  // The aim's group is live and its unit has a callback.
  predicate Live(k: Client, aim: Aim) {
    && aim.G() in k.groups && k.groups[aim.G()] == aim.obj && aim.obj < |k.objs|
    && aim.item.event.unitId in k.objs[aim.obj].units
    && k.objs[aim.obj].units[aim.item.event.unitId] == aim.unit
    && aim.unit < |k.units| && k.units[aim.unit].callback
  }

  // The aim is pending for a live unit.
  predicate Aims(s: State, aim: Aim) {
    && aim.G() in s.server.pending && s.server.pending[aim.G()] == aim.item && Live(s.client, aim)
    && aim.sent == |s.sent| && aim.calls == |s.client.calls|
  }

  // No handler still has an ack for the group to carry out.
  predicate NoAckUnderway(v: Server, g: string) {
    forall h :: h in v.handlers && v.handlers[h].Deleting? ==> g !in v.handlers[h].acks
  }

  // Among the items, those of the aim's group are the aim itself.
  predicate Only(items: seq<Item>, aim: Aim) {
    forall i :: 0 <= i < |items| && items[i].Group() == aim.G() ==> items[i] == aim.item
  }

  // The dispatcher may still hand its first item to the aim's unit.
  predicate StageCarries(stage: Stage, aim: Aim) {
    stage == Loading || stage == HasGroup(aim.obj) || stage == HasUnit(aim.obj, aim.unit)
  }

  predicate BatchCarries(items: seq<Item>, stage: Stage, aim: Aim) {
    Only(items, aim) && (items != [] && items[0] == aim.item ==> StageCarries(stage, aim))
  }

  // The responses the client may get to its request do not name the aim's group but for the aim.
  predicate AnswersCarry(v: Server, call: nat, aim: Aim) {
    forall h :: h in v.handlers && v.handlers[h].call == call && !v.handlers[h].Deleting? ==>
      Only(v.handlers[h].out, aim)
  }

  // No older event of the aim's group has been received whose ack is still to be sent, or may yet be
  // received.
  predicate Clear(s: State, aim: Aim) {
    && aim.G() !in s.client.toDelete
    && match s.client.poll
       case Idle => true
       case Waiting(call) => AnswersCarry(s.server, call, aim)
       case Dispatching(items, stage) => BatchCarries(items, stage, aim)
  }

  // An answer to the request that saves the aim: it resets the queue, and does not name the group
  // with another event.
  predicate Saves(h: Handler, call: nat, aim: Aim) {
    h.call == call && if h.Deleting? then aim.G() !in h.acks else Only(h.out, aim)
  }

  // The condition under which the aim can get delivered: it is clear, or it is so once the fetch
  // being waited for is given up or answered.
  predicate Open(s: State, aim: Aim) {
    if s.client.poll.Waiting? then
      aim.G() !in s.client.toDelete
      || exists h :: h in s.server.handlers && Saves(s.server.handlers[h], s.client.poll.call, aim)
    else Clear(s, aim)
  }

  predicate InBatch(k: Client, aim: Aim) {
    k.poll.Dispatching? && aim.item in k.poll.items
  }

  // The condition under which it certainly does: a late ack cannot take it away either, as there is
  // none or the client has received the aim already.
  predicate Certain(s: State, aim: Aim) {
    Clear(s, aim) && (NoAckUnderway(s.server, aim.G()) || InBatch(s.client, aim))
  }

  // The number of fetches to complete: one more when one is in progress that does not carry the aim.
  function Needed(k: Client, aim: Aim): nat {
    match k.poll
    case Idle => 1
    case Waiting(_) => 2
    case Dispatching(items, _) => if aim.item in items then 1 else 2
  }

  // On its way -------------------------------------------------------------------------------------

  predicate HandlerCarries(v: Server, aim: Aim, h: Handler) {
    match h
    case Deleting(call, acks) => call >= aim.sent ==> aim.G() !in acks
    case Ranging(call, todo, seen, out, since) =>
      call >= aim.sent ==>
        Only(out, aim)
        && (aim.item in out || (aim.G() in todo && !StoredSince(v.ops, since, aim.G()) && since <= |v.ops|))
    case Responded(call, out) => call >= aim.sent ==> Only(out, aim) && aim.item in out
  }

  predicate PollCarries(k: Client, aim: Aim, late: bool) {
    match k.poll
    case Idle => true
    case Waiting(call) => late || call >= aim.sent
    case Dispatching(items, stage) => (late || aim.item in items) && BatchCarries(items, stage, aim)
  }

  // The aim is on its way: pending, unacknowledged, and in every newer fetch. When it is late, it
  // may have missed the fetch in progress.
  predicate OnItsWay(s: State, aim: Aim, late: bool) {
    && aim.G() in s.server.pending && s.server.pending[aim.G()] == aim.item
    && aim.G() !in s.client.toDelete
    && (forall i :: aim.sent <= i < |s.sent| ==> aim.G() !in s.sent[i])
    && (forall h :: h in s.server.handlers ==> HandlerCarries(s.server, aim, s.server.handlers[h]))
    && PollCarries(s.client, aim, late)
    && (late && s.client.poll.Waiting? ==> AnswersCarry(s.server, s.client.poll.call, aim))
    && Live(s.client, aim)
  }

  // Steps that leave the aim alone: no other event for its group, no late copy of an old
  // request that acknowledges it, and neither gc, a new group under the same id, a unit joined
  // under the same id nor an unset callback takes its place.
  predicate Spares(s: State, a: Action, aim: Aim) {
    match a
    case Listen(Publish(visit)) => visit in s.producers ==> s.producers[visit].item.Group() != aim.G()
    case Serve(Begin(call)) => call < aim.sent && call < |s.sent| ==> aim.G() !in s.sent[call]
    case Serve(EvictDelete) => s.server.evicting != Some(aim.G())
    case Use(NewGroup(id)) => id != aim.G()
    case Use(Join(obj, unit)) =>
      obj == aim.obj && unit < |s.client.units| ==> s.client.units[unit].id != aim.item.event.unitId
    case Use(OnVisit(unit, callback)) => unit == aim.unit ==> callback
    case Use(ExpireDelete) => s.client.expiring != Some(aim.G())
    case _ => true
  }

  // A handler carries out an ack for the group.
  predicate Deletes(s: State, a: Action, g: string) {
    match a
    case Serve(DeleteAck(h)) =>
      h in s.server.handlers && s.server.handlers[h].Deleting? && s.server.handlers[h].acks != []
      && s.server.handlers[h].acks[0] == g
    case _ => false
  }

  predicate Carried(s: State, aim: Aim, late: bool) {
    Delivered(s.client, aim) || OnItsWay(s, aim, late)
  }

  lemma DeliveredStays(c: Config, s: State, a: Action, t: State, aim: Aim)
    requires Delivered(s.client, aim) && Next(c, s, a) == Some(t)
    ensures Delivered(t.client, aim)
  {
    var i :| aim.calls <= i < |s.client.calls| && s.client.calls[i].obj == aim.obj
             && s.client.calls[i].unit == aim.unit && s.client.calls[i].item == aim.item;
    assert s.client.calls <= t.client.calls;
    assert t.client.calls[i] == s.client.calls[i];
  }

  lemma ListenCarries(c: Config, s: State, l: Listening, t: State, aim: Aim, late: bool)
    requires OnItsWay(s, aim, late) && Spares(s, Listen(l), aim) && Next(c, s, Listen(l)) == Some(t)
    ensures OnItsWay(t, aim, late)
  {
  }

  lemma RangeCarries(c: Config, s: State, l: Serving, t: State, aim: Aim, late: bool)
    requires OnItsWay(s, aim, late) && Spares(s, Serve(l), aim) && Next(c, s, Serve(l)) == Some(t)
    requires Keyed(s.server) && (l.BeginRange? || l.RangeVisit? || l.RangeSkip? || l.Respond?)
    ensures OnItsWay(t, aim, late)
  {
  }

  lemma OtherServeCarries(c: Config, s: State, l: Serving, t: State, aim: Aim, late: bool)
    requires OnItsWay(s, aim, late) && Spares(s, Serve(l), aim) && Next(c, s, Serve(l)) == Some(t)
    requires !Deletes(s, Serve(l), aim.G()) && (l.Begin? || l.DeleteAck? || l.EvictSee? || l.EvictDelete?)
    ensures OnItsWay(t, aim, late)
  {
  }

  lemma ServeCarries(c: Config, s: State, l: Serving, t: State, aim: Aim, late: bool)
    requires OnItsWay(s, aim, late) && Spares(s, Serve(l), aim) && Next(c, s, Serve(l)) == Some(t)
    requires Keyed(s.server) && !Deletes(s, Serve(l), aim.G())
    ensures OnItsWay(t, aim, late)
  {
    if l.Begin? || l.DeleteAck? || l.EvictSee? || l.EvictDelete? {
      OtherServeCarries(c, s, l, t, aim, late);
    } else {
      RangeCarries(c, s, l, t, aim, late);
    }
  }

  lemma FetchCarries(c: Config, s: State, l: Fetching, t: State, aim: Aim, late: bool)
    requires OnItsWay(s, aim, late) && Next(c, s, Fetch(l)) == Some(t) && aim.sent <= |s.sent|
    requires WireInv(s)
    ensures OnItsWay(t, aim, late)
  {
  }

  lemma WorkCarries(c: Config, s: State, l: Working, t: State, aim: Aim, late: bool)
    requires OnItsWay(s, aim, late) && StageInv(s.client) && Next(c, s, Work(l)) == Some(t)
    requires aim.calls <= |s.client.calls|
    ensures Carried(t, aim, late) && (l.EndFetch? ==> late)
  {
    var items, stage := s.client.poll.items, s.client.poll.stage;
    if items != [] && items[0] == aim.item && stage.HasUnit? {
      assert t.client.calls[|s.client.calls|].item == aim.item;
      assert Delivered(t.client, aim);
    }
  }

  lemma UseCarries(c: Config, s: State, l: Using, t: State, aim: Aim, late: bool)
    requires OnItsWay(s, aim, late) && Spares(s, Use(l), aim) && Next(c, s, Use(l)) == Some(t)
    ensures OnItsWay(t, aim, late)
  {
  }

  predicate RunSpares(c: Config, s: State, run: seq<Action>, aim: Aim)
    decreases |run|
  {
    run == [] ||
    (Spares(s, run[0], aim) &&
     var t := Next(c, s, run[0]);
     t.Some? ==> RunSpares(c, t.value, run[1..], aim))
  }

  lemma CarriedKept(c: Config, s: State, a: Action, t: State, aim: Aim, late: bool)
    requires WireInv(s) && Keyed(s.server) && OnceInv(s.client)
    requires aim.sent <= |s.sent| && aim.calls <= |s.client.calls|
    requires Carried(s, aim, late) && Spares(s, a, aim) && Next(c, s, a) == Some(t)
    requires OnItsWay(s, aim, late) ==> !Deletes(s, a, aim.G())
    ensures Carried(t, aim, late)
    ensures a == Work(EndFetch) && !late ==> Delivered(t.client, aim)
  {
    if Delivered(s.client, aim) {
      DeliveredStays(c, s, a, t, aim);
    } else {
      match a
      case Tick(_) =>
      case Listen(l) => ListenCarries(c, s, l, t, aim, late);
      case Serve(l) => ServeCarries(c, s, l, t, aim, late);
      case Fetch(l) => FetchCarries(c, s, l, t, aim, late);
      case Work(l) => WorkCarries(c, s, l, t, aim, late);
      case Use(l) => UseCarries(c, s, l, t, aim, late);
    }
  }

  lemma CountsGrow(c: Config, s: State, a: Action, t: State)
    requires Next(c, s, a) == Some(t)
    ensures |s.sent| <= |t.sent| && s.client.calls <= t.client.calls
  {
  }

  // All that is known of a state on the way to the aim.
  ghost predicate Underway(c: Config, s: State, aim: Aim) {
    && Inv(c, s) && RouteInv(s) && OnceInv(s.client) && Keyed(s.server)
    && aim.sent <= |s.sent| && aim.calls <= |s.client.calls|
  }

  lemma UnderwayKept(c: Config, s: State, a: Action, t: State, aim: Aim)
    requires Underway(c, s, aim) && Next(c, s, a) == Some(t)
    ensures Underway(c, t, aim)
  {
    InvKept(c, s, a, t);
    OnceKept(c, s, a, t);
    RouteKept(c, s, a, t);
    PendingIsKeyed(c, t);
    CountsGrow(c, s, a, t);
  }

  // No ack for the group is carried out along the run.
  predicate NoDeletes(c: Config, s: State, run: seq<Action>, g: string)
    decreases |run|
  {
    run == [] ||
    (!Deletes(s, run[0], g) &&
     var t := Next(c, s, run[0]);
     t.Some? ==> NoDeletes(c, t.value, run[1..], g))
  }

  // There is no ack for the group to carry out, or the run leaves it undone.
  predicate Undeleted(c: Config, s: State, run: seq<Action>, g: string) {
    NoAckUnderway(s.server, g) || NoDeletes(c, s, run, g)
  }

  lemma NoAckKept(c: Config, s: State, a: Action, t: State, aim: Aim, late: bool)
    requires OnItsWay(s, aim, late) && Spares(s, a, aim) && Next(c, s, a) == Some(t)
    requires NoAckUnderway(s.server, aim.G())
    ensures !Deletes(s, a, aim.G()) && NoAckUnderway(t.server, aim.G())
  {
    match a
    case Serve(Begin(call)) => assert aim.G() !in s.sent[call];
    case _ =>
  }

  lemma UndeletedKept(c: Config, s: State, run: seq<Action>, t: State, aim: Aim, late: bool)
    requires run != [] && OnItsWay(s, aim, late) && RunSpares(c, s, run, aim) && Next(c, s, run[0]) == Some(t)
    requires Undeleted(c, s, run, aim.G())
    ensures !Deletes(s, run[0], aim.G()) && Undeleted(c, t, run[1..], aim.G())
  {
    if NoAckUnderway(s.server, aim.G()) { NoAckKept(c, s, run[0], t, aim, late); }
  }

  // Once delivered nothing matters any more.
  predicate Reaches(c: Config, s: State, run: seq<Action>, aim: Aim, late: bool) {
    Delivered(s.client, aim) || (OnItsWay(s, aim, late) && Undeleted(c, s, run, aim.G()))
  }

  lemma ReachesKept(c: Config, s: State, run: seq<Action>, t: State, aim: Aim, late: bool)
    requires run != [] && Next(c, s, run[0]) == Some(t)
    requires WireInv(s) && Keyed(s.server) && OnceInv(s.client)
    requires aim.sent <= |s.sent| && aim.calls <= |s.client.calls|
    requires Reaches(c, s, run, aim, late) && RunSpares(c, s, run, aim)
    ensures Reaches(c, t, run[1..], aim, late)
    ensures run[0] == Work(EndFetch) && !late ==> Delivered(t.client, aim)
  {
    if Delivered(s.client, aim) {
      DeliveredStays(c, s, run[0], t, aim);
    } else {
      UndeletedKept(c, s, run, t, aim, late);
      CarriedKept(c, s, run[0], t, aim, late);
    }
  }

  lemma {:induction false} RunCarries(c: Config, s: State, run: seq<Action>, t: State, aim: Aim)
    requires Underway(c, s, aim) && Reaches(c, s, run, aim, false) && RunSpares(c, s, run, aim)
    requires Run(c, s, run) == Some(t)
    ensures Completed(run) > 0 || Delivered(s.client, aim) ==> Delivered(t.client, aim)
    decreases |run|
  {
    if run == [] {
    } else {
      var u := Next(c, s, run[0]).value;
      UnderwayKept(c, s, run[0], u, aim);
      ReachesKept(c, s, run, u, aim, false);
      if Delivered(s.client, aim) { DeliveredStays(c, s, run[0], u, aim); }
      RunCarries(c, u, run[1..], t, aim);
    }
  }

  // Between two fetches nothing is late any more.
  lemma OnTimeWhenIdle(c: Config, s: State, run: seq<Action>, aim: Aim)
    requires Reaches(c, s, run, aim, true) && s.client.poll.Idle?
    ensures Reaches(c, s, run, aim, false)
  {
  }

  lemma EndFetchIsIdle(c: Config, s: State, t: State)
    requires Next(c, s, Work(EndFetch)) == Some(t)
    ensures t.client.poll.Idle?
  {
  }

  lemma {:induction false} RunCarriesLate(c: Config, s: State, run: seq<Action>, t: State, aim: Aim)
    requires Underway(c, s, aim) && Reaches(c, s, run, aim, true) && RunSpares(c, s, run, aim)
    requires Run(c, s, run) == Some(t)
    ensures Completed(run) >= 2 || Delivered(s.client, aim) ==> Delivered(t.client, aim)
    decreases |run|
  {
    if run == [] {
    } else if Delivered(s.client, aim) {
      RunCarries(c, s, run, t, aim);
    } else if s.client.poll.Idle? {
      OnTimeWhenIdle(c, s, run, aim);
      RunCarries(c, s, run, t, aim);
    } else {
      var u := Next(c, s, run[0]).value;
      UnderwayKept(c, s, run[0], u, aim);
      ReachesKept(c, s, run, u, aim, true);
      if run[0] == Work(EndFetch) {
        EndFetchIsIdle(c, s, u);
        OnTimeWhenIdle(c, u, run[1..], aim);
        RunCarries(c, u, run[1..], t, aim);
      } else {
        RunCarriesLate(c, u, run[1..], t, aim);
      }
    }
  }

  // In the batch -----------------------------------------------------------------------------------

  // The client holds the aim itself: whatever becomes of it on the server, this batch delivers it.
  predicate InHand(k: Client, aim: Aim) {
    InBatch(k, aim) && BatchCarries(k.poll.items, k.poll.stage, aim) && Live(k, aim)
  }

  lemma WorkKeepsInHand(k: Client, l: Working, k': Client, aim: Aim)
    requires InHand(k, aim) && StageInv(k) && WorkNext(k, l) == Some(k') && aim.calls <= |k.calls|
    ensures (Delivered(k', aim) || InHand(k', aim)) && !l.EndFetch?
  {
    var items, stage := k.poll.items, k.poll.stage;
    if items[0] == aim.item && stage.HasUnit? {
      assert k'.calls[|k.calls|].item == aim.item;
      assert Delivered(k', aim);
    }
  }

  lemma UseKeepsInHand(c: Config, s: State, l: Using, t: State, aim: Aim)
    requires InHand(s.client, aim) && Spares(s, Use(l), aim) && Next(c, s, Use(l)) == Some(t)
    ensures InHand(t.client, aim)
  {
  }

  lemma InHandKept(c: Config, s: State, a: Action, t: State, aim: Aim)
    requires StageInv(s.client) && aim.calls <= |s.client.calls|
    requires InHand(s.client, aim) && Spares(s, a, aim) && Next(c, s, a) == Some(t)
    ensures Delivered(t.client, aim) || InHand(t.client, aim)
    ensures a == Work(EndFetch) ==> Delivered(t.client, aim)
  {
    match a
    case Work(l) => WorkKeepsInHand(s.client, l, t.client, aim);
    case Use(l) => UseKeepsInHand(c, s, l, t, aim);
    case _ =>
  }

  lemma {:induction false} RunDeliversInHand(c: Config, s: State, run: seq<Action>, t: State, aim: Aim)
    requires Underway(c, s, aim) && (Delivered(s.client, aim) || InHand(s.client, aim))
    requires RunSpares(c, s, run, aim) && Run(c, s, run) == Some(t)
    ensures Completed(run) > 0 || Delivered(s.client, aim) ==> Delivered(t.client, aim)
    decreases |run|
  {
    if run == [] {
    } else {
      var u := Next(c, s, run[0]).value;
      UnderwayKept(c, s, run[0], u, aim);
      if Delivered(s.client, aim) {
        DeliveredStays(c, s, run[0], u, aim);
      } else {
        InHandKept(c, s, run[0], u, aim);
      }
      RunDeliversInHand(c, u, run[1..], t, aim);
    }
  }

  // Main results -----------------------------------------------------------------------------------

  lemma StartsOnItsWay(s: State, aim: Aim)
    requires WireInv(s) && Aims(s, aim) && Clear(s, aim)
    ensures OnItsWay(s, aim, Needed(s.client, aim) == 2)
  {
  }

  // What is not open is doomed.
  lemma ClosedMisses(s: State, aim: Aim)
    requires RouteInv(s) && Keyed(s.server) && Aims(s, aim) && !Open(s, aim)
    ensures Doomed(s, aim.G(), aim.item.visit) && BatchMisses(s.client, aim.item.visit, Just(aim.obj, aim.unit))
  {
    match s.client.poll
    case Idle =>
    case Waiting(call) =>
      forall h | h in s.server.handlers && s.server.handlers[h].call == call
        ensures AnswerDooms(s, aim.G(), aim.item.visit, s.server.handlers[h])
      {
        assert !Saves(s.server.handlers[h], call, aim);
        if !s.server.handlers[h].Deleting? { OtherEvent(s, s.server.handlers[h].out, aim); }
      }
    case Dispatching(items, stage) => BatchMissesAim(s, aim);
  }

  // A response that names the aim's group with another event does not carry the aim.
  lemma OtherEvent(s: State, items: seq<Item>, aim: Aim)
    requires StoredOnce(s) && Sourced(s.server, items) && Distinct(items) && Put(aim.item) in s.server.ops
    requires !Only(items, aim)
    ensures aim.G() in Groups(items) && Without(items, aim.item.visit)
  {
    forall i | 0 <= i < |items| ensures items[i].visit != aim.item.visit {
      assert Put(items[i]) in s.server.ops;
      if items[i].visit == aim.item.visit { SameVisitSameItem(s, items[i], aim.item); }
    }
  }

  lemma BatchMissesAim(s: State, aim: Aim)
    requires RouteInv(s) && Keyed(s.server) && Aims(s, aim) && !Clear(s, aim) && s.client.poll.Dispatching?
    ensures Received(s.client, aim.G()) && BatchMisses(s.client, aim.item.visit, Just(aim.obj, aim.unit))
  {
    var items := s.client.poll.items;
    forall i | 0 <= i < |items| && items[i].visit == aim.item.visit
      ensures i == 0 && StageMisses(s.client.poll.stage, Just(aim.obj, aim.unit))
      ensures aim.G() in Groups(items)
    {
      assert Put(items[i]) in s.server.ops;
      SameVisitSameItem(s, items[i], aim.item);
      assert items[i].Group() in Groups(items) && items[i].Group() !in s.client.toDelete;
      assert Only(items, aim);
    }
  }

  // An event is pending for a live group whose unit has a callback. Over every run that completes
  // the fetches needed and leaves the group alone, the unit's callback is called with exactly this
  // event if the aim is certain, or if it is clear and the run carries out no ack for the group;
  // and over every run only if it is open.
  lemma DeliveredIfClear(c: Config, past: seq<Action>, s: State, aim: Aim, run: seq<Action>, t: State)
    requires Run(c, Init(c), past) == Some(s) && Run(c, s, run) == Some(t)
    requires Aims(s, aim) && RunSpares(c, s, run, aim) && Completed(run) >= Needed(s.client, aim)
    ensures Certain(s, aim) ==> Delivered(t.client, aim)
    ensures Clear(s, aim) && NoDeletes(c, s, run, aim.G()) ==> Delivered(t.client, aim)
    ensures Delivered(t.client, aim) ==> Open(s, aim)
  {
    RunFromStart(c, past, s);
    if Clear(s, aim) && Undeleted(c, s, run, aim.G()) {
      StartsOnItsWay(s, aim);
      if Needed(s.client, aim) == 2 {
        RunCarriesLate(c, s, run, t, aim);
      } else {
        RunCarries(c, s, run, t, aim);
      }
    } else if Certain(s, aim) {
      RunDeliversInHand(c, s, run, t, aim);
    }
    if !Open(s, aim) { ClosedIsLost(c, past, s, aim, run, t); }
  }

  lemma ClosedIsLost(c: Config, past: seq<Action>, s: State, aim: Aim, run: seq<Action>, t: State)
    requires Run(c, Init(c), past) == Some(s) && Run(c, s, run) == Some(t)
    requires Aims(s, aim) && !Open(s, aim)
    ensures !Delivered(t.client, aim)
  {
    RunFromStart(c, past, s);
    ClosedMisses(s, aim);
    if Delivered(t.client, aim) {
      var i :| aim.calls <= i < |t.client.calls| && t.client.calls[i].obj == aim.obj
               && t.client.calls[i].unit == aim.unit && t.client.calls[i].item == aim.item;
      DoomedIsLost(c, past, s, aim.G(), Just(aim.obj, aim.unit), run, t, i);
    }
  }
}
