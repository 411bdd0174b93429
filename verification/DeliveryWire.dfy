// How the requests, responses and batches of the delivery protocol hang together.
module DeliveryWire {
  import opened Events
  import opened Delivery
  import opened DeliverySafety
  import opened DeliveryOnce

  // Groups and acks ------------------------------------------------------------------------------

  function Groups(items: seq<Item>): set<string> {
    set i | 0 <= i < |items| :: items[i].Group()
  }

  function Names(acks: seq<string>): set<string> {
    set i | 0 <= i < |acks| :: acks[i]
  }

  lemma NamesOf(acks: seq<string>, x: string)
    ensures Names(acks + [x]) == Names(acks) + {x}
    ensures acks != [] ==> Names(acks) == {acks[0]} + Names(acks[1..])
  {
    forall g ensures g in Names(acks + [x]) <==> g in Names(acks) + {x} {
      if g in Names(acks) {
        var i :| 0 <= i < |acks| && acks[i] == g;
        assert (acks + [x])[i] == g;
      }
      assert (acks + [x])[|acks|] == x;
    }
    if acks != [] {
      forall g ensures g in Names(acks) <==> g in {acks[0]} + Names(acks[1..]) {
        if g in Names(acks[1..]) {
          var i :| 0 <= i < |acks| - 1 && acks[1..][i] == g;
          assert acks[i + 1] == g;
        }
        if g in Names(acks) {
          var i :| 0 <= i < |acks| && acks[i] == g;
          assert i > 0 ==> acks[1..][i - 1] == g;
        }
      }
    }
  }

  lemma GroupsOf(items: seq<Item>, x: Item)
    ensures Groups(items + [x]) == Groups(items) + {x.Group()}
    ensures items != [] ==> Groups(items) == {items[0].Group()} + Groups(items[1..])
  {
    var names := seq(|items|, i requires 0 <= i < |items| => items[i].Group());
    GroupsAreNames(items, names);
    NamesOf(names, x.Group());
    GroupsAreNames(items + [x], names + [x.Group()]);
    if items != [] { GroupsAreNames(items[1..], names[1..]); }
  }

  lemma GroupsAreNames(items: seq<Item>, names: seq<string>)
    requires |names| == |items| && forall i :: 0 <= i < |items| ==> names[i] == items[i].Group()
    ensures Groups(items) == Names(names)
  {
    forall g ensures g in Groups(items) <==> g in Names(names) {
      if g in Groups(items) {
        var i :| 0 <= i < |items| && items[i].Group() == g;
        assert names[i] == g;
      }
    }
  }

  // The number of fetches a run completes.
  function Completed(run: seq<Action>): nat {
    if run == [] then 0 else (if run[0] == Work(EndFetch) then 1 else 0) + Completed(run[1..])
  }

  // Requests ---------------------------------------------------------------------------------------

  // Fetches are numbered by the requests sent; while one is waited for, the queue is what it sent.
  predicate WireInv(s: State) {
    && (forall h :: h in s.server.handlers ==> s.server.handlers[h].call < |s.sent|)
    && (s.client.poll.Waiting? ==> s.client.poll.call < |s.sent| && s.sent[s.client.poll.call] == s.client.toDelete)
    && (forall g :: g in s.server.pending ==>
          s.server.pending[g].visit !in s.producers && s.server.pending[g].visit < |s.visits|)
    && (forall v :: v in s.producers ==> s.producers[v].item.visit == v && v < |s.visits|)
  }

  lemma WireKept(c: Config, s: State, a: Action, t: State)
    requires WireInv(s) && Next(c, s, a) == Some(t)
    ensures WireInv(t)
  {
    match a
    case Listen(l) => ListenKeepsWire(c, s, l, t);
    case Serve(l) => ServeKeepsWire(c, s, l, t);
    case _ =>
  }

  lemma ListenKeepsWire(c: Config, s: State, l: Listening, t: State)
    requires WireInv(s) && ListenNext(c, s, l) == Some(t)
    ensures WireInv(t)
  {
  }

  lemma ServeKeepsWire(c: Config, s: State, l: Serving, t: State)
    requires WireInv(s) && Next(c, s, Serve(l)) == Some(t)
    ensures WireInv(t)
  {
  }

  // Batches ----------------------------------------------------------------------------------------

  predicate Distinct(items: seq<Item>) {
    forall i, j :: 0 <= i < j < |items| ==> items[i].Group() != items[j].Group()
  }

  predicate Within(items: seq<Item>, keys: set<string>) {
    forall i :: 0 <= i < |items| ==> items[i].Group() in keys
  }

  predicate Apart(items: seq<Item>, acks: seq<string>) {
    forall i :: 0 <= i < |items| ==> items[i].Group() !in acks
  }

  predicate HandlerOnce(h: Handler) {
    match h
    case Deleting(_, _) => true
    case Ranging(_, todo, seen, out, _) => Distinct(out) && Within(out, seen) && todo !! seen
    case Responded(_, out) => Distinct(out)
  }

  // A response names no group twice, and none that is queued for an ack while it is dispatched.
  predicate OnceOnly(s: State) {
    && (forall h :: h in s.server.handlers ==> HandlerOnce(s.server.handlers[h]))
    && (s.client.poll.Dispatching? ==>
          Distinct(s.client.poll.items) && Apart(s.client.poll.items, s.client.toDelete))
  }

  predicate Keyed(v: Server) {
    forall k :: k in v.pending ==> v.pending[k].Group() == k
  }

  lemma PendingIsKeyed(c: Config, s: State)
    requires PendingInv(c, s)
    ensures Keyed(s.server)
  {
    forall k | k in s.server.pending ensures s.server.pending[k].Group() == k {
      assert IsInternal(c, s.visits, s.server.pending[k]);
    }
  }

  lemma ServeKeepsOnceOnly(c: Config, s: State, l: Serving, t: State)
    requires OnceOnly(s) && Keyed(s.server) && Next(c, s, Serve(l)) == Some(t)
    ensures OnceOnly(t)
  {
  }

  lemma WorkKeepsOnceOnly(c: Config, s: State, l: Working, t: State)
    requires OnceOnly(s) && Next(c, s, Work(l)) == Some(t)
    ensures OnceOnly(t)
  {
  }

  lemma OnceOnlyKept(c: Config, s: State, a: Action, t: State)
    requires OnceOnly(s) && Keyed(s.server) && Next(c, s, a) == Some(t)
    ensures OnceOnly(t)
  {
    match a
    case Serve(l) => ServeKeepsOnceOnly(c, s, l, t);
    case Work(l) => WorkKeepsOnceOnly(c, s, l, t);
    case _ =>
  }

  // Sources ----------------------------------------------------------------------------------------

  // Every item there is was stored in the pending map once.
  predicate Sourced(v: Server, items: seq<Item>) {
    forall i :: 0 <= i < |items| ==> Put(items[i]) in v.ops
  }

  // A visit is stored at most once, and not again after its listener is done.
  predicate StoredOnce(s: State) {
    && (forall i :: 0 <= i < |s.server.ops| && s.server.ops[i].Put? ==>
          s.server.ops[i].item.visit < |s.visits| && s.server.ops[i].item.visit !in s.producers)
    && (forall i, j :: 0 <= i < j < |s.server.ops| && s.server.ops[i].Put? && s.server.ops[j].Put? ==>
          s.server.ops[i].item.visit != s.server.ops[j].item.visit)
  }

  predicate SourceInv(s: State) {
    && (forall g :: g in s.server.pending ==> Put(s.server.pending[g]) in s.server.ops)
    && (forall h :: h in s.server.handlers && !s.server.handlers[h].Deleting? ==>
          Sourced(s.server, s.server.handlers[h].out))
    && (s.client.poll.Dispatching? ==> Sourced(s.server, s.client.poll.items))
  }

  lemma ListenKeepsStoredOnce(c: Config, s: State, l: Listening, t: State)
    requires WireInv(s) && StoredOnce(s) && ListenNext(c, s, l) == Some(t)
    ensures StoredOnce(t)
  {
  }

  lemma StoredOnceKept(c: Config, s: State, a: Action, t: State)
    requires WireInv(s) && StoredOnce(s) && Next(c, s, a) == Some(t)
    ensures StoredOnce(t)
  {
    match a
    case Listen(l) => ListenKeepsStoredOnce(c, s, l, t);
    case _ =>
  }

  lemma ListenKeepsSource(c: Config, s: State, l: Listening, t: State)
    requires SourceInv(s) && ListenNext(c, s, l) == Some(t)
    ensures SourceInv(t)
  {
    assert forall op :: op in s.server.ops ==> op in t.server.ops;
  }

  lemma ServeKeepsSource(c: Config, s: State, l: Serving, t: State)
    requires SourceInv(s) && Next(c, s, Serve(l)) == Some(t)
    ensures SourceInv(t)
  {
    assert forall op :: op in s.server.ops ==> op in t.server.ops;
  }

  lemma WorkKeepsSource(c: Config, s: State, l: Working, t: State)
    requires SourceInv(s) && Next(c, s, Work(l)) == Some(t)
    ensures SourceInv(t)
  {
  }

  lemma SourceKept(c: Config, s: State, a: Action, t: State)
    requires SourceInv(s) && Next(c, s, a) == Some(t)
    ensures SourceInv(t)
  {
    match a
    case Listen(l) => ListenKeepsSource(c, s, l, t);
    case Serve(l) => ServeKeepsSource(c, s, l, t);
    case Work(l) => WorkKeepsSource(c, s, l, t);
    case _ =>
  }

  lemma SameVisitSameItem(s: State, x: Item, y: Item)
    requires StoredOnce(s) && Put(x) in s.server.ops && Put(y) in s.server.ops && x.visit == y.visit
    ensures x == y
  {
    var i :| 0 <= i < |s.server.ops| && s.server.ops[i] == Put(x);
    var j :| 0 <= j < |s.server.ops| && s.server.ops[j] == Put(y);
    assert i == j;
  }

  // Runs -------------------------------------------------------------------------------------------

  predicate RouteInv(s: State) {
    WireInv(s) && OnceOnly(s) && StoredOnce(s) && SourceInv(s)
  }

  lemma RouteKept(c: Config, s: State, a: Action, t: State)
    requires PendingInv(c, s) && RouteInv(s) && Next(c, s, a) == Some(t)
    ensures RouteInv(t)
  {
    WireKept(c, s, a, t);
    PendingIsKeyed(c, s);
    OnceOnlyKept(c, s, a, t);
    StoredOnceKept(c, s, a, t);
    SourceKept(c, s, a, t);
  }

  lemma {:induction false} RunKeepsRoute(c: Config, s: State, run: seq<Action>, t: State)
    requires Inv(c, s) && RouteInv(s) && Run(c, s, run) == Some(t)
    ensures RouteInv(t)
    decreases |run|
  {
    if run == [] {
    } else {
      var u := Next(c, s, run[0]).value;
      InvKept(c, s, run[0], u);
      RouteKept(c, s, run[0], u);
      RunKeepsRoute(c, u, run[1..], t);
    }
  }

  // Everything kept, from the start.
  lemma RunFromStart(c: Config, past: seq<Action>, s: State)
    requires Run(c, Init(c), past) == Some(s)
    ensures Inv(c, s) && RouteInv(s) && OnceInv(s.client) && Keyed(s.server)
  {
    InvInit(c);
    RunKeepsInv(c, Init(c), past, s);
    RunKeepsOnce(c, Init(c), past, s);
    RunKeepsRoute(c, Init(c), past, s);
    PendingIsKeyed(c, s);
  }
}
