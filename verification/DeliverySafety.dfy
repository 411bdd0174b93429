// What every run of the delivery protocol keeps.
module DeliverySafety {
  import opened Events
  import opened Visits
  import opened Delivery

  // Provenance ---------------------------------------------------------------------------

  // The item comes from an admitted visit that named exactly its ids.
  predicate Genuine(c: Config, visits: seq<Admission>, item: Item) {
    && item.visit < |visits|
    && visits[item.visit].visit.named.group == item.event.groupId
    && visits[item.visit].visit.named.unit == item.event.unitId
    && item.event.source == SourceOf(visits[item.visit].visit.kind)
    && item.event.timeStampMs >= c.bootMs
  }

  predicate IsInternal(c: Config, visits: seq<Admission>, item: Item) {
    Genuine(c, visits, item) && item.event.source.Internal?
  }

  predicate AllInternal(c: Config, visits: seq<Admission>, items: seq<Item>) {
    forall i :: 0 <= i < |items| ==> IsInternal(c, visits, items[i])
  }

  predicate HandlerItems(c: Config, visits: seq<Admission>, h: Handler) {
    h.Deleting? || AllInternal(c, visits, h.out)
  }

  predicate VisitsFit(c: Config, s: State) {
    forall v :: 0 <= v < |s.visits| ==> c.admit(s.visits[v].request) == Some(s.visits[v].visit)
  }

  predicate ListenersInv(c: Config, s: State) {
    && c.bootMs <= s.nowMs
    && forall v :: v in s.producers ==>
         v < |s.visits| && s.producers[v].kind == s.visits[v].visit.kind
         && s.producers[v].item.visit == v && Genuine(c, s.visits, s.producers[v].item)
  }

  predicate PendingInv(c: Config, s: State) {
    && (forall g :: g in s.server.pending ==>
          s.server.pending[g].Group() == g && IsInternal(c, s.visits, s.server.pending[g]))
    && (forall h :: h in s.server.handlers ==> HandlerItems(c, s.visits, s.server.handlers[h]))
  }

  predicate BatchInv(c: Config, s: State) {
    && (s.client.poll.Dispatching? ==> AllInternal(c, s.visits, s.client.poll.items))
    && (forall i :: 0 <= i < |s.client.calls| ==> IsInternal(c, s.visits, s.client.calls[i].item))
  }

  lemma VisitsKept(c: Config, s: State, a: Action, t: State)
    requires VisitsFit(c, s) && Next(c, s, a) == Some(t)
    ensures VisitsFit(c, t) && s.visits <= t.visits
  {
  }

  lemma ListenKeepsListeners(c: Config, s: State, l: Listening, t: State)
    requires ListenersInv(c, s) && ListenNext(c, s, l) == Some(t)
    ensures ListenersInv(c, t)
  {
  }

  lemma ListenersKept(c: Config, s: State, a: Action, t: State)
    requires ListenersInv(c, s) && Next(c, s, a) == Some(t)
    ensures ListenersInv(c, t)
  {
    match a
    case Listen(l) => ListenKeepsListeners(c, s, l, t);
    case _ =>
  }

  lemma ServeKeepsPending(c: Config, s: State, l: Serving, t: State)
    requires PendingInv(c, s) && Next(c, s, Serve(l)) == Some(t)
    ensures PendingInv(c, t)
  {
  }

  lemma ListenKeepsPending(c: Config, s: State, l: Listening, t: State)
    requires ListenersInv(c, s) && PendingInv(c, s) && ListenNext(c, s, l) == Some(t)
    ensures PendingInv(c, t)
  {
  }

  lemma PendingKept(c: Config, s: State, a: Action, t: State)
    requires ListenersInv(c, s) && PendingInv(c, s) && Next(c, s, a) == Some(t)
    ensures PendingInv(c, t)
  {
    match a
    case Listen(l) => ListenKeepsPending(c, s, l, t);
    case Serve(l) => ServeKeepsPending(c, s, l, t);
    case _ =>
  }

  lemma WorkKeepsBatch(c: Config, s: State, l: Working, t: State)
    requires BatchInv(c, s) && Next(c, s, Work(l)) == Some(t)
    ensures BatchInv(c, t)
  {
  }

  lemma FetchKeepsBatch(c: Config, s: State, l: Fetching, t: State)
    requires PendingInv(c, s) && BatchInv(c, s) && FetchNext(s, l) == Some(t)
    ensures BatchInv(c, t)
  {
  }

  lemma BatchKept(c: Config, s: State, a: Action, t: State)
    requires PendingInv(c, s) && BatchInv(c, s) && Next(c, s, a) == Some(t)
    ensures BatchInv(c, t)
  {
    match a
    case Fetch(l) => FetchKeepsBatch(c, s, l, t);
    case Work(l) => WorkKeepsBatch(c, s, l, t);
    case _ =>
  }

  // The pending map and its history -------------------------------------------------------

  // What the history says is pending for a group: the latest store since the last removal.
  function Latest(ops: seq<MapOp>, group: string): Option<Item> {
    if ops == [] then None
    else
      match ops[|ops| - 1]
      case Put(item) => if item.Group() == group then Some(item) else Latest(ops[..|ops| - 1], group)
      case Ack(g) => if g == group then None else Latest(ops[..|ops| - 1], group)
      case Evict(g) => if g == group then None else Latest(ops[..|ops| - 1], group)
  }

  ghost predicate ReplayInv(v: Server) {
    forall g: string ::
      Latest(v.ops, g) == if g in v.pending then Some(v.pending[g]) else None
  }

  lemma LatestOf(ops: seq<MapOp>, op: MapOp, group: string)
    ensures Latest(ops + [op], group) ==
            match op
            case Put(item) => if item.Group() == group then Some(item) else Latest(ops, group)
            case Ack(g) => if g == group then None else Latest(ops, group)
            case Evict(g) => if g == group then None else Latest(ops, group)
  {
    assert (ops + [op])[..|ops|] == ops;
  }

  function ApplyOp(pending: map<string, Item>, op: MapOp): map<string, Item> {
    match op
    case Put(item) => pending[item.Group() := item]
    case Ack(g) => pending - {g}
    case Evict(g) => pending - {g}
  }

  lemma OpKeepsReplay(v: Server, op: MapOp, w: Server)
    requires ReplayInv(v) && w.ops == v.ops + [op] && w.pending == ApplyOp(v.pending, op)
    ensures ReplayInv(w)
  {
    forall g: string
      ensures Latest(w.ops, g) == if g in w.pending then Some(w.pending[g]) else None
    {
      LatestOf(v.ops, op, g);
      assert Latest(v.ops, g) == if g in v.pending then Some(v.pending[g]) else None;
    }
  }

  // The pending map changes by at most one operation a step, and the history records it.
  lemma ServerOps(c: Config, s: State, a: Action, t: State) returns (op: Option<MapOp>)
    requires Next(c, s, a) == Some(t)
    ensures op.None? ==> t.server.ops == s.server.ops && t.server.pending == s.server.pending
    ensures op.Some? ==> t.server.ops == s.server.ops + [op.value]
                         && t.server.pending == ApplyOp(s.server.pending, op.value)
    ensures op.Some? && op.value.Ack? ==> a.Serve? && a.serving.DeleteAck?
    ensures op.Some? && op.value.Evict? ==> a.Serve? && a.serving.EvictDelete?
  {
    if t.server.ops == s.server.ops {
      op := None;
    } else {
      op := Some(t.server.ops[|s.server.ops|]);
    }
  }

  lemma ReplayKept(c: Config, s: State, a: Action, t: State)
    requires ReplayInv(s.server) && Next(c, s, a) == Some(t)
    ensures ReplayInv(t.server)
  {
    var op := ServerOps(c, s, a, t);
    if op.Some? { OpKeepsReplay(s.server, op.value, t.server); }
  }

  // Acknowledgements -----------------------------------------------------------------------

  predicate AllIn(keys: seq<string>, given: set<string>) {
    forall i :: 0 <= i < |keys| ==> keys[i] in given
  }

  // Every ack, queued, on the wire or being carried out, names a group whose event the
  // client has received and handed to localCallUnitCallback.
  predicate AckInv(s: State) {
    && AllIn(s.client.toDelete, s.client.given)
    && (forall i :: 0 <= i < |s.sent| ==> AllIn(s.sent[i], s.client.given))
    && (forall h :: h in s.server.handlers && s.server.handlers[h].Deleting? ==>
          AllIn(s.server.handlers[h].acks, s.client.given))
    && (s.client.poll.Dispatching? && s.client.poll.items != [] && !s.client.poll.stage.Loading? ==>
          s.client.poll.items[0].Group() in s.client.given)
    && (forall i :: 0 <= i < |s.server.ops| && s.server.ops[i].Ack? ==>
          s.server.ops[i].group in s.client.given)
  }

  lemma ServeKeepsAcks(c: Config, s: State, l: Serving, t: State)
    requires AckInv(s) && Next(c, s, Serve(l)) == Some(t)
    ensures AckInv(t)
  {
  }

  lemma WorkKeepsAcks(c: Config, s: State, l: Working, t: State)
    requires AckInv(s) && Next(c, s, Work(l)) == Some(t)
    ensures AckInv(t) && s.client.given <= t.client.given
  {
  }

  lemma AcksKept(c: Config, s: State, a: Action, t: State)
    requires AckInv(s) && Next(c, s, a) == Some(t)
    ensures AckInv(t) && s.client.given <= t.client.given
  {
    match a
    case Serve(l) => ServeKeepsAcks(c, s, l, t);
    case Work(l) => WorkKeepsAcks(c, s, l, t);
    case _ =>
  }

  // No loss --------------------------------------------------------------------------------

  // A group whose event was ever stored still has one pending, unless an event of that group
  // was handed to the dispatcher or the server's gc took it.
  predicate NothingLost(v: Server, given: set<string>) {
    forall i :: 0 <= i < |v.ops| && v.ops[i].Put? ==>
      var g := v.ops[i].item.Group();
      g in v.pending || g in given || Evict(g) in v.ops
  }

  lemma OpLosesNothing(v: Server, op: MapOp, w: Server, given: set<string>, given': set<string>)
    requires NothingLost(v, given) && given <= given'
    requires w.ops == v.ops + [op] && w.pending == ApplyOp(v.pending, op)
    requires op.Ack? ==> op.group in given'
    ensures NothingLost(w, given')
  {
    assert op in w.ops;
    assert forall x :: x in v.ops ==> x in w.ops;
  }

  lemma NothingLostKept(c: Config, s: State, a: Action, t: State)
    requires AckInv(s) && NothingLost(s.server, s.client.given) && Next(c, s, a) == Some(t)
    ensures NothingLost(t.server, t.client.given)
  {
    AcksKept(c, s, a, t);
    var op := ServerOps(c, s, a, t);
    if op.Some? {
      assert t.server.ops[|s.server.ops|] == op.value;
      OpLosesNothing(s.server, op.value, t.server, s.client.given, t.client.given);
    }
  }

  // The server's gc -------------------------------------------------------------------------

  // The first clock value, in milliseconds, at which the gc's comparison of milliseconds with
  // seconds can succeed for an event stamped after the server's start.
  function FirstEviction(c: Config): nat {
    1000 * (c.bootMs + 601)
  }

  lemma EvictionClock(c: Config, nowMs: nat)
    ensures Expired(c.bootMs, nowMs / 1000) <==> nowMs >= 1000 * (c.bootMs + 601)
    ensures forall stampMs ::
              stampMs >= c.bootMs && Expired(stampMs, nowMs / 1000) ==> nowMs >= 1000 * (c.bootMs + 601)
  {
  }

  // When the gc decides to delete what is pending under a key.
  lemma GcSeesOld(c: Config, s: State, key: string)
    ensures Next(c, s, Serve(EvictSee(key))).Some? <==>
            s.server.evicting == None && key in s.server.pending
            && s.server.pending[key].event.timeStampMs < s.nowMs / 1000 - 600
  {
  }

  predicate NoEvictions(ops: seq<MapOp>) {
    forall i :: 0 <= i < |ops| ==> !ops[i].Evict?
  }

  predicate EvictionsLate(c: Config, s: State) {
    s.nowMs < FirstEviction(c) ==> s.server.evicting.None? && NoEvictions(s.server.ops)
  }

  lemma EvictionsLateKept(c: Config, s: State, a: Action, t: State)
    requires PendingInv(c, s) && EvictionsLate(c, s) && Next(c, s, a) == Some(t)
    ensures EvictionsLate(c, t)
  {
    var op := ServerOps(c, s, a, t);
    EvictionClock(c, s.nowMs);
    if s.server.evicting.None? && t.server.evicting.Some? {
      assert IsInternal(c, s.visits, s.server.pending[t.server.evicting.value]);
    }
  }

  // Runs ------------------------------------------------------------------------------------

  ghost predicate Inv(c: Config, s: State) {
    && VisitsFit(c, s) && ListenersInv(c, s) && PendingInv(c, s) && BatchInv(c, s)
    && ReplayInv(s.server) && AckInv(s) && NothingLost(s.server, s.client.given)
    && EvictionsLate(c, s)
  }

  lemma InvInit(c: Config)
    ensures Inv(c, Init(c))
  {
  }

  lemma InvKept(c: Config, s: State, a: Action, t: State)
    requires Inv(c, s) && Next(c, s, a) == Some(t)
    ensures Inv(c, t)
  {
    VisitsKept(c, s, a, t);
    ListenersKept(c, s, a, t);
    PendingKept(c, s, a, t);
    BatchKept(c, s, a, t);
    ReplayKept(c, s, a, t);
    AcksKept(c, s, a, t);
    NothingLostKept(c, s, a, t);
    EvictionsLateKept(c, s, a, t);
  }

  lemma {:induction false} RunKeepsInv(c: Config, s: State, run: seq<Action>, t: State)
    requires Inv(c, s) && Run(c, s, run) == Some(t)
    ensures Inv(c, t)
    decreases |run|
  {
    if run == [] {
    } else {
      var u := Next(c, s, run[0]).value;
      InvKept(c, s, run[0], u);
      RunKeepsInv(c, u, run[1..], t);
    }
  }

  // Main results: statements about every run from the start ----------------------------------

  // No loss. Once an internal visit has been stored for a group, the group has an event
  // pending on the server until one has been handed to localCallUnitCallback, whatever
  // requests and responses are delayed, repeated or lost. The gc cannot interfere before
  // 1000 * (start + 601) milliseconds.
  lemma NoLoss(c: Config, run: seq<Action>, t: State, i: nat)
    requires Run(c, Init(c), run) == Some(t)
    requires i < |t.server.ops| && t.server.ops[i].Put?
    requires t.nowMs < 1000 * (c.bootMs + 601)
    ensures var g := t.server.ops[i].item.Group();
            g in t.client.given
            || (g in t.server.pending && t.server.pending[g].Group() == g
                && IsInternal(c, t.visits, t.server.pending[g]))
  {
    InvInit(c);
    RunKeepsInv(c, Init(c), run, t);
  }

  // The pending map is, at every point, what the history of its operations says: the latest
  // stored event of each group since its last removal. It holds internal visits only, under
  // their own group, and each comes from a request the listeners admitted.
  lemma PendingRefinesHistory(c: Config, run: seq<Action>, t: State, g: string)
    requires Run(c, Init(c), run) == Some(t)
    ensures Latest(t.server.ops, g) == if g in t.server.pending then Some(t.server.pending[g]) else None
    ensures g in t.server.pending ==>
              var item := t.server.pending[g];
              item.Group() == g && item.visit < |t.visits|
              && !t.visits[item.visit].visit.kind.HttpPublic?
              && t.visits[item.visit].visit.named.group == g
              && t.visits[item.visit].visit.named.unit == item.event.unitId
              && c.admit(t.visits[item.visit].request) == Some(t.visits[item.visit].visit)
  {
    InvInit(c);
    RunKeepsInv(c, Init(c), run, t);
    if g in t.server.pending {
      assert IsInternal(c, t.visits, t.server.pending[g]);
    }
  }

  // Every deletion HandleFetchEvent ever made, and every ack still to come, names a group
  // whose event the client had received before.
  lemma AcksAreSafe(c: Config, run: seq<Action>, t: State, g: string)
    requires Run(c, Init(c), run) == Some(t)
    requires Ack(g) in t.server.ops || g in t.client.toDelete || exists i :: 0 <= i < |t.sent| && g in t.sent[i]
    ensures g in t.client.given
  {
    InvInit(c);
    RunKeepsInv(c, Init(c), run, t);
  }
}
