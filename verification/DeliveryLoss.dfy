// Visits that can no longer be delivered: an older event of their group has been received, and
// its ack will delete whatever is pending for the group.
module DeliveryLoss {
  import opened Events
  import opened Delivery
  import opened DeliverySafety
  import opened DeliveryWire

  // The client has received an event of the group and not yet sent its ack.
  predicate Received(k: Client, g: string) {
    g in k.toDelete || (k.poll.Dispatching? && g in Groups(k.poll.items))
  }

  // Whom a visit is not handed to: any callback, or that of one unit in one group.
  datatype Target = Anyone | Just(obj: nat, unit: nat)

  predicate Hands(x: Call, visit: nat, to: Target) {
    x.item.visit == visit && (to.Just? ==> x.obj == to.obj && x.unit == to.unit)
  }

  // The dispatcher has passed the target by with the event it is working on.
  predicate StageMisses(stage: Stage, to: Target) {
    match stage
    case Loading => false
    case HasGroup(obj) => to.Just? && obj != to.obj
    case HasUnit(obj, unit) => to.Just? && (obj, unit) != (to.obj, to.unit)
    case _ => true
  }

  predicate BatchMisses(k: Client, visit: nat, to: Target) {
    k.poll.Dispatching? ==>
      forall i :: 0 <= i < |k.poll.items| && k.poll.items[i].visit == visit ==>
        i == 0 && StageMisses(k.poll.stage, to)
  }

  predicate Without(items: seq<Item>, visit: nat) {
    forall i :: 0 <= i < |items| ==> items[i].visit != visit
  }

  predicate Pends(s: State, g: string, visit: nat) {
    g in s.server.pending && s.server.pending[g].visit == visit
  }

  // The visit, if it is still pending, is due to be deleted: fetches from number `from` on do not
  // carry it, as their handlers delete the group before they range over the map.
  predicate Dropping(s: State, g: string, visit: nat, to: Target, from: nat, calls: nat) {
    && visit < |s.visits| && visit !in s.producers && from <= |s.sent|
    && (forall k :: k in s.server.pending && s.server.pending[k].visit == visit ==> k == g)
    && (forall i :: calls <= i < |s.client.calls| ==> !Hands(s.client.calls[i], visit, to))
    && BatchMisses(s.client, visit, to)
    && (s.client.poll.Waiting? && s.client.poll.call < from ==> AnswersDoom(s, g, visit, s.client.poll.call))
    && (Pends(s, g, visit) ==>
          Received(s.client, g) && forall i :: from <= i < |s.sent| ==> g in s.sent[i])
    && (forall h :: h in s.server.handlers && s.server.handlers[h].call >= from ==>
          HandlerDrops(s, g, visit, s.server.handlers[h]))
  }

  // While an older fetch is waited for: the queue names the group, and every answer to it deletes
  // the visit or names the group with another event.
  predicate AnswersDoom(s: State, g: string, visit: nat, call: nat) {
    && g in s.client.toDelete
    && forall h :: h in s.server.handlers && s.server.handlers[h].call == call ==>
         AnswerDooms(s, g, visit, s.server.handlers[h])
  }

  predicate AnswerDooms(s: State, g: string, visit: nat, h: Handler) {
    match h
    case Deleting(_, acks) => Pends(s, g, visit) ==> g in acks
    case Ranging(_, _, _, out, _) => Without(out, visit) && (Pends(s, g, visit) ==> g in Groups(out))
    case Responded(_, out) => Without(out, visit) && (Pends(s, g, visit) ==> g in Groups(out))
  }

  predicate HandlerDrops(s: State, g: string, visit: nat, h: Handler) {
    match h
    case Deleting(_, acks) => Pends(s, g, visit) ==> g in acks
    case Ranging(_, _, _, out, _) => !Pends(s, g, visit) && Without(out, visit)
    case Responded(_, out) => !Pends(s, g, visit) && Without(out, visit)
  }

  lemma ListenKeepsDropping(c: Config, s: State, l: Listening, t: State,
                            g: string, visit: nat, to: Target, from: nat, calls: nat)
    requires WireInv(s) && Dropping(s, g, visit, to, from, calls) && Next(c, s, Listen(l)) == Some(t)
    ensures Dropping(t, g, visit, to, from, calls)
  {
    match l
    case Arrive(_, _) =>
    case Record(_, _, _) =>
    case Publish(_) =>
  }

  lemma ServeKeepsDoom(c: Config, s: State, l: Serving, t: State, g: string, visit: nat, call: nat)
    requires AnswersDoom(s, g, visit, call) && Next(c, s, Serve(l)) == Some(t)
    requires OnceOnly(s) && Keyed(s.server) && call < |s.sent| && s.sent[call] == s.client.toDelete
    requires forall k :: k in s.server.pending && s.server.pending[k].visit == visit ==> k == g
    ensures AnswersDoom(t, g, visit, call)
  {
    if l.RangeVisit? {
      var out := s.server.handlers[l.h].out;
      GroupsOf(out, s.server.pending[l.key]);
      assert g in Groups(out) ==> exists i :: 0 <= i < |out| && out[i].Group() == g;
    }
  }

  lemma RemovalKeepsDropping(c: Config, s: State, l: Serving, t: State,
                             g: string, visit: nat, to: Target, from: nat, calls: nat)
    requires WireInv(s) && Dropping(s, g, visit, to, from, calls) && Next(c, s, Serve(l)) == Some(t)
    requires l.DeleteAck? || l.EvictDelete?
    requires s.client.poll.Waiting? && s.client.poll.call < from ==> AnswersDoom(t, g, visit, s.client.poll.call)
    ensures Dropping(t, g, visit, to, from, calls)
  {
  }

  lemma RangeKeepsDropping(c: Config, s: State, l: Serving, t: State,
                           g: string, visit: nat, to: Target, from: nat, calls: nat)
    requires WireInv(s) && Dropping(s, g, visit, to, from, calls) && Next(c, s, Serve(l)) == Some(t)
    requires l.BeginRange? || l.RangeVisit? || l.RangeSkip? || l.Respond?
    requires s.client.poll.Waiting? && s.client.poll.call < from ==> AnswersDoom(t, g, visit, s.client.poll.call)
    ensures Dropping(t, g, visit, to, from, calls)
  {
  }

  lemma BeginKeepsDropping(c: Config, s: State, l: Serving, t: State,
                           g: string, visit: nat, to: Target, from: nat, calls: nat)
    requires WireInv(s) && Dropping(s, g, visit, to, from, calls) && Next(c, s, Serve(l)) == Some(t)
    requires l.Begin? || l.EvictSee?
    requires s.client.poll.Waiting? && s.client.poll.call < from ==> AnswersDoom(t, g, visit, s.client.poll.call)
    ensures Dropping(t, g, visit, to, from, calls)
  {
  }

  lemma ServeKeepsDropping(c: Config, s: State, l: Serving, t: State,
                           g: string, visit: nat, to: Target, from: nat, calls: nat)
    requires WireInv(s) && Dropping(s, g, visit, to, from, calls) && Next(c, s, Serve(l)) == Some(t)
    requires OnceOnly(s) && Keyed(s.server)
    ensures Dropping(t, g, visit, to, from, calls)
  {
    if s.client.poll.Waiting? && s.client.poll.call < from {
      ServeKeepsDoom(c, s, l, t, g, visit, s.client.poll.call);
    }
    if l.DeleteAck? || l.EvictDelete? {
      RemovalKeepsDropping(c, s, l, t, g, visit, to, from, calls);
    } else if l.Begin? || l.EvictSee? {
      BeginKeepsDropping(c, s, l, t, g, visit, to, from, calls);
    } else {
      RangeKeepsDropping(c, s, l, t, g, visit, to, from, calls);
    }
  }

  lemma FetchKeepsDropping(c: Config, s: State, l: Fetching, t: State,
                           g: string, visit: nat, to: Target, from: nat, calls: nat)
    requires WireInv(s) && Dropping(s, g, visit, to, from, calls) && Next(c, s, Fetch(l)) == Some(t)
    ensures Dropping(t, g, visit, to, from, calls)
  {
  }

  lemma WorkKeepsMisses(k: Client, l: Working, k': Client, visit: nat, to: Target)
    requires k.poll.Dispatching? && WorkNext(k, l) == Some(k') && BatchMisses(k, visit, to)
    ensures BatchMisses(k', visit, to)
    ensures k'.calls == k.calls || (|k'.calls| == |k.calls| + 1 && k'.calls[..|k.calls|] == k.calls
                                    && !Hands(k'.calls[|k.calls|], visit, to))
  {
  }

  lemma WorkKeepsReceived(k: Client, l: Working, k': Client, g: string)
    requires k.poll.Dispatching? && WorkNext(k, l) == Some(k') && Received(k, g)
    ensures Received(k', g) && !k'.poll.Waiting?
  {
    if l.QueueAck? { GroupsOf(k.poll.items, k.poll.items[0]); }
  }

  lemma WorkKeepsDropping(c: Config, s: State, l: Working, t: State,
                          g: string, visit: nat, to: Target, from: nat, calls: nat)
    requires WireInv(s) && Dropping(s, g, visit, to, from, calls) && Next(c, s, Work(l)) == Some(t)
    ensures Dropping(t, g, visit, to, from, calls)
  {
    WorkKeepsMisses(s.client, l, t.client, visit, to);
    if Received(s.client, g) { WorkKeepsReceived(s.client, l, t.client, g); }
  }

  lemma DroppingKept(c: Config, s: State, a: Action, t: State,
                     g: string, visit: nat, to: Target, from: nat, calls: nat)
    requires WireInv(s) && Dropping(s, g, visit, to, from, calls) && Next(c, s, a) == Some(t)
    requires OnceOnly(s) && Keyed(s.server)
    ensures Dropping(t, g, visit, to, from, calls)
  {
    match a
    case Listen(l) => ListenKeepsDropping(c, s, l, t, g, visit, to, from, calls);
    case Serve(l) => ServeKeepsDropping(c, s, l, t, g, visit, to, from, calls);
    case Fetch(l) => FetchKeepsDropping(c, s, l, t, g, visit, to, from, calls);
    case Work(l) => WorkKeepsDropping(c, s, l, t, g, visit, to, from, calls);
    case Use(_) =>
    case Tick(_) =>
  }

  lemma {:induction false} RunKeepsDropping(c: Config, s: State, run: seq<Action>, t: State,
                                            g: string, visit: nat, to: Target, from: nat, calls: nat)
    requires Inv(c, s) && RouteInv(s) && Dropping(s, g, visit, to, from, calls) && Run(c, s, run) == Some(t)
    ensures Dropping(t, g, visit, to, from, calls)
    decreases |run|
  {
    if run == [] {
    } else {
      var u := Next(c, s, run[0]).value;
      InvKept(c, s, run[0], u);
      RouteKept(c, s, run[0], u);
      PendingIsKeyed(c, s);
      DroppingKept(c, s, run[0], u, g, visit, to, from, calls);
      RunKeepsDropping(c, u, run[1..], t, g, visit, to, from, calls);
    }
  }

  // Every way on deletes the event that is pending for the group: the group was received and its ack
  // is not sent yet, and, while an answer is waited for, whatever that is.
  predicate Doomed(s: State, g: string, visit: nat) {
    Received(s.client, g) && (s.client.poll.Waiting? ==> AnswersDoom(s, g, visit, s.client.poll.call))
  }

  // A visit stored after its group was received, and before the ack is sent, is lost: if an event is
  // pending for a doomed group, and the batch does not carry that event or is past the target with
  // it, then in no continuation whatever is the visit handed to the target again.
  lemma DoomedIsLost(c: Config, past: seq<Action>, s: State, g: string, to: Target,
                     run: seq<Action>, t: State, i: nat)
    requires Run(c, Init(c), past) == Some(s) && Run(c, s, run) == Some(t)
    requires g in s.server.pending && Doomed(s, g, s.server.pending[g].visit)
    requires BatchMisses(s.client, s.server.pending[g].visit, to)
    requires |s.client.calls| <= i < |t.client.calls|
    ensures !Hands(t.client.calls[i], s.server.pending[g].visit, to)
  {
    RunFromStart(c, past, s);
    var visit := s.server.pending[g].visit;
    forall k | k in s.server.pending && s.server.pending[k].visit == visit ensures k == g {
      SameVisitSameItem(s, s.server.pending[k], s.server.pending[g]);
    }
    RunKeepsDropping(c, s, run, t, g, visit, to, |s.sent|, |s.client.calls|);
  }

  // So is a visit that was stored and is neither pending any more nor in the batch, or in a batch
  // that is past the target with it.
  lemma GoneIsLost(c: Config, past: seq<Action>, s: State, item: Item, to: Target,
                   run: seq<Action>, t: State, i: nat)
    requires Run(c, Init(c), past) == Some(s) && Run(c, s, run) == Some(t)
    requires !s.client.poll.Waiting? && Put(item) in s.server.ops
    requires item.Group() in s.server.pending ==> s.server.pending[item.Group()] != item
    requires BatchMisses(s.client, item.visit, to)
    requires |s.client.calls| <= i < |t.client.calls|
    ensures !Hands(t.client.calls[i], item.visit, to)
  {
    RunFromStart(c, past, s);
    forall k | k in s.server.pending ensures s.server.pending[k].visit != item.visit {
      if s.server.pending[k].visit == item.visit { SameVisitSameItem(s, s.server.pending[k], item); }
    }
    RunKeepsDropping(c, s, run, t, item.Group(), item.visit, to, |s.sent|, |s.client.calls|);
  }
}
