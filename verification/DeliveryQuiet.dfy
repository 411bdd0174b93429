// What is left when visits stop: nothing, after two more fetches.
module DeliveryQuiet {
  import opened Events
  import opened Delivery
  import opened DeliverySafety
  import opened DeliveryWire

  // How far a run without new visits has come: still in a fetch begun before, no fetch of its
  // own completed yet, one, or more; each with the number of fetches sent before it.
  datatype Phase = Finishing(sent: nat) | Filling(sent: nat) | Draining(sent: nat) | Drained(sent: nat)

  predicate HandlerQuiet(v: Server, phase: Phase, h: Handler) {
    match phase
    case Finishing(_) => true
    case Filling(_) =>
      (match h
       case Deleting(_, _) => true
       case Ranging(_, todo, _, out, since) =>
         v.pending.Keys <= todo + Groups(out) && forall i :: since <= i < |v.ops| ==> !v.ops[i].Put?
       case Responded(_, out) => v.pending.Keys <= Groups(out))
    case Draining(_) =>
      (match h
       case Deleting(_, acks) => v.pending.Keys <= Names(acks)
       case Ranging(_, _, _, out, _) => v.pending.Keys == {} && out == []
       case Responded(_, out) => v.pending.Keys == {} && out == [])
    case Drained(_) => h.Deleting? || h.out == []
  }

  // Once draining, everything pending is named by the acks that are queued or were sent.
  predicate PollQuiet(s: State, phase: Phase) {
    var acked := Names(s.client.toDelete);
    match s.client.poll
    case Idle =>
      (phase.Draining? ==> s.server.pending.Keys <= acked) && (phase.Drained? ==> s.client.toDelete == [])
    case Waiting(call) =>
      (phase.Finishing? || call >= phase.sent)
      && (phase.Draining? ==> s.server.pending.Keys <= acked) && (phase.Drained? ==> s.client.toDelete == [])
    case Dispatching(items, _) =>
      if phase.Finishing? then true
      else if phase.Filling? then s.server.pending.Keys <= Groups(items) + acked
      else items == [] && s.server.pending.Keys == {} && s.client.toDelete == []
  }

  // No event is on its way into the pending map, and newer fetches see all that is in it.
  predicate Quiet(s: State, phase: Phase) {
    && s.producers == map[]
    && phase.sent <= |s.sent|
    && (phase.Draining? ==> forall i :: phase.sent <= i < |s.sent| ==> s.server.pending.Keys <= Names(s.sent[i]))
    && (phase.Drained? ==> s.server.pending.Keys == {})
    && (forall h :: h in s.server.handlers && s.server.handlers[h].call >= phase.sent ==>
          HandlerQuiet(s.server, phase, s.server.handlers[h]))
    && PollQuiet(s, phase)
  }

  function PhaseAfter(s: State, a: Action, phase: Phase): Phase {
    if a != Work(EndFetch) then phase
    else
      match phase
      case Finishing(_) => Filling(|s.sent|)
      case Filling(_) => Draining(|s.sent|)
      case Draining(n) => Drained(n)
      case Drained(n) => Drained(n)
  }

  lemma RangeKeepsFilling(c: Config, s: State, l: Serving, t: State, phase: Phase)
    requires phase.Filling? || phase.Finishing?
    requires WireInv(s) && Quiet(s, phase) && Next(c, s, Serve(l)) == Some(t)
    requires Keyed(s.server) && (l.RangeVisit? || l.RangeSkip?)
    ensures Quiet(t, phase)
  {
    if l.RangeVisit? { GroupsOf(s.server.handlers[l.h].out, s.server.pending[l.key]); }
  }

  lemma RespondKeepsFilling(c: Config, s: State, l: Serving, t: State, phase: Phase)
    requires phase.Filling? || phase.Finishing?
    requires WireInv(s) && Quiet(s, phase) && Next(c, s, Serve(l)) == Some(t)
    requires l.BeginRange? || l.Respond?
    ensures Quiet(t, phase)
  {
  }

  lemma OtherKeepsFilling(c: Config, s: State, l: Serving, t: State, phase: Phase)
    requires phase.Filling? || phase.Finishing?
    requires WireInv(s) && Quiet(s, phase) && Next(c, s, Serve(l)) == Some(t)
    requires l.Begin? || l.DeleteAck? || l.EvictSee? || l.EvictDelete?
    ensures Quiet(t, phase)
  {
  }

  lemma ServeKeepsFilling(c: Config, s: State, l: Serving, t: State, phase: Phase)
    requires phase.Filling? || phase.Finishing?
    requires WireInv(s) && Quiet(s, phase) && Next(c, s, Serve(l)) == Some(t)
    requires Keyed(s.server)
    ensures Quiet(t, phase)
  {
    if l.RangeVisit? || l.RangeSkip? {
      RangeKeepsFilling(c, s, l, t, phase);
    } else if l.BeginRange? || l.Respond? {
      RespondKeepsFilling(c, s, l, t, phase);
    } else {
      OtherKeepsFilling(c, s, l, t, phase);
    }
  }

  lemma ServeKeepsDraining(c: Config, s: State, l: Serving, t: State, phase: Phase)
    requires phase.Draining? || phase.Drained?
    requires WireInv(s) && Quiet(s, phase) && Next(c, s, Serve(l)) == Some(t)
    requires Keyed(s.server)
    ensures Quiet(t, phase)
  {
    if l.DeleteAck? { NamesOf(s.server.handlers[l.h].acks, ""); }
  }

  lemma FetchKeepsQuiet(c: Config, s: State, l: Fetching, t: State, phase: Phase)
    requires WireInv(s) && Quiet(s, phase) && Next(c, s, Fetch(l)) == Some(t)
    ensures Quiet(t, phase)
  {
  }

  lemma WorkKeepsQuiet(c: Config, s: State, l: Working, t: State, phase: Phase)
    requires WireInv(s) && Quiet(s, phase) && Next(c, s, Work(l)) == Some(t)
    ensures Quiet(t, PhaseAfter(s, Work(l), phase))
  {
    if l.QueueAck? {
      var items := s.client.poll.items;
      NamesOf(s.client.toDelete, items[0].Group());
      GroupsOf(items, items[0]);
    }
  }

  lemma UseKeepsQuiet(c: Config, s: State, l: Using, t: State, phase: Phase)
    requires Quiet(s, phase) && Next(c, s, Use(l)) == Some(t)
    ensures Quiet(t, phase)
  {
  }

  lemma ListenIsOver(c: Config, s: State, l: Listening)
    requires s.producers == map[] && !l.Arrive?
    ensures Next(c, s, Listen(l)).None?
  {
  }

  lemma QuietKept(c: Config, s: State, a: Action, t: State, phase: Phase)
    requires Inv(c, s) && WireInv(s) && Quiet(s, phase) && Next(c, s, a) == Some(t)
    requires !(a.Listen? && a.listening.Arrive?)
    ensures Quiet(t, PhaseAfter(s, a, phase))
  {
    match a
    case Tick(_) =>
    case Listen(l) => ListenIsOver(c, s, l);
    case Serve(l) =>
      PendingIsKeyed(c, s);
      if phase.Draining? || phase.Drained? {
        ServeKeepsDraining(c, s, l, t, phase);
      } else {
        ServeKeepsFilling(c, s, l, t, phase);
      }
    case Fetch(l) => FetchKeepsQuiet(c, s, l, t, phase);
    case Work(l) => WorkKeepsQuiet(c, s, l, t, phase);
    case Use(l) => UseKeepsQuiet(c, s, l, t, phase);
  }

  predicate NoArrivals(run: seq<Action>) {
    forall i :: 0 <= i < |run| ==> !(run[i].Listen? && run[i].listening.Arrive?)
  }

  function Count(phase: Phase): nat {
    match phase case Finishing(_) => 0 case Filling(_) => 1 case Draining(_) => 2 case Drained(_) => 3
  }

  lemma {:induction false} RunKeepsQuiet(c: Config, s: State, run: seq<Action>, t: State, phase: Phase)
    returns (last: Phase)
    requires Inv(c, s) && WireInv(s) && Quiet(s, phase) && Run(c, s, run) == Some(t) && NoArrivals(run)
    ensures Quiet(t, last) && (Count(phase) + Completed(run) >= 3 ==> last.Drained?)
    decreases |run|
  {
    if run == [] {
      last := phase;
    } else {
      var u := Next(c, s, run[0]).value;
      InvKept(c, s, run[0], u);
      WireKept(c, s, run[0], u);
      QuietKept(c, s, run[0], u, phase);
      last := RunKeepsQuiet(c, u, run[1..], t, PhaseAfter(s, run[0], phase));
    }
  }

  // If visits stop, two completed fetches, not counting one already begun, empty the server's
  // pending map and the client's ack queue for good, whatever failed fetches, late requests, gc
  // passes and users do in between.
  lemma Quiesces(c: Config, past: seq<Action>, s: State, run: seq<Action>, t: State)
    requires Run(c, Init(c), past) == Some(s) && Run(c, s, run) == Some(t)
    requires s.producers == map[] && NoArrivals(run)
    requires Completed(run) >= if s.client.poll.Idle? then 2 else 3
    ensures t.server.pending.Keys == {} && t.client.toDelete == []
    ensures t.client.poll.Dispatching? ==> t.client.poll.items == []
  {
    RunFromStart(c, past, s);
    var phase := if s.client.poll.Idle? then Filling(|s.sent|) else Finishing(|s.sent|);
    var last := RunKeepsQuiet(c, s, run, t, phase);
  }
}
