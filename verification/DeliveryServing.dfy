// Undisturbed runs, and what the steps of one handler add up to: the effect that
// ReverseServer.Server.HandleFetchEvent states.
module DeliveryServing {
  import opened Events
  import opened Delivery
  import opened DeliveryWire

  // Runs -----------------------------------------------------------------------------------------

  // The steps of a fetch made after n others: no repeated older request, no gc.
  predicate IsOwn(n: nat, a: Action) {
    match a
    case Fetch(_) => true
    case Work(_) => true
    case Serve(Begin(call)) => call >= n
    case Serve(l) => !l.EvictSee? && !l.EvictDelete?
    case _ => false
  }

  predicate AreOwn(n: nat, run: seq<Action>) {
    forall i :: 0 <= i < |run| ==> IsOwn(n, run[i])
  }

  // An undisturbed run from s to t, of the steps of one fetch, that completes `ends` fetches.
  predicate Runs(c: Config, s: State, run: seq<Action>, t: State, n: nat, ends: nat) {
    Run(c, s, run) == Some(t) && AreOwn(n, run) && Completed(run) == ends
  }

  lemma RunCons(c: Config, s: State, a: Action, u: State, rest: seq<Action>, t: State, n: nat, ends: nat)
    requires Next(c, s, a) == Some(u) && IsOwn(n, a) && Runs(c, u, rest, t, n, ends)
    ensures Runs(c, s, [a] + rest, t, n, ends + if a == Work(EndFetch) then 1 else 0)
  {
    assert ([a] + rest)[1..] == rest;
  }

  lemma RunOne(c: Config, s: State, a: Action, t: State, n: nat)
    requires Next(c, s, a) == Some(t) && IsOwn(n, a)
    ensures Runs(c, s, [a], t, n, if a == Work(EndFetch) then 1 else 0)
  {
    assert Runs(c, t, [], t, n, 0);
    RunCons(c, s, a, t, [], t, n, 0);
    assert [a] + [] == [a];
  }

  lemma RunTwo(c: Config, s: State, a1: Action, s1: State, a2: Action, s2: State)
    requires Next(c, s, a1) == Some(s1) && Next(c, s1, a2) == Some(s2)
    ensures Run(c, s, [a1, a2]) == Some(s2)
  {
    assert [a1, a2][1..] == [a2] && [a2][1..] == [];
    assert Run(c, s2, []) == Some(s2);
  }

  lemma {:induction false} RunJoin(c: Config, s: State, run: seq<Action>, t: State, more: seq<Action>)
    requires Run(c, s, run) == Some(t)
    ensures Run(c, s, run + more) == Run(c, t, more)
    ensures Completed(run + more) == Completed(run) + Completed(more)
    decreases |run|
  {
    if run == [] {
      assert run + more == more;
    } else {
      assert (run + more)[1..] == run[1..] + more;
      RunJoin(c, Next(c, s, run[0]).value, run[1..], t, more);
    }
  }

  lemma RunsJoin(c: Config, s: State, run: seq<Action>, t: State, more: seq<Action>, u: State,
                 n: nat, ends: nat, ends': nat)
    requires Runs(c, s, run, t, n, ends) && Runs(c, t, more, u, n, ends')
    ensures Runs(c, s, run + more, u, n, ends + ends')
  {
    RunJoin(c, s, run, t, more);
  }

  // The server's part ------------------------------------------------------------------------------

  lemma {:induction false} DeleteAll(c: Config, s: State, h: nat, call: nat, acks: seq<string>, n: nat)
    returns (run: seq<Action>, t: State)
    requires h in s.server.handlers && s.server.handlers[h] == Deleting(call, acks)
    ensures Runs(c, s, run, t, n, 0) && t == s.(server := t.server)
    ensures t.server.pending == s.server.pending - Names(acks)
    ensures h in t.server.handlers && t.server.handlers[h] == Deleting(call, [])
    decreases |acks|
  {
    if acks == [] {
      run, t := [], s;
    } else {
      var u := Next(c, s, Serve(DeleteAck(h))).value;
      run, t := DeleteAll(c, u, h, call, acks[1..], n);
      RunCons(c, s, Serve(DeleteAck(h)), u, run, t, n, 0);
      run := [Serve(DeleteAck(h))] + run;
      NamesOf(acks, "");
    }
  }

  // The items of some keys of the map, each once.
  predicate Covers(out: seq<Item>, pending: map<string, Item>, keys: set<string>) {
    |out| == |keys| && Groups(out) == keys && Distinct(out) && Found(out, pending)
  }

  predicate Found(out: seq<Item>, pending: map<string, Item>) {
    forall i :: 0 <= i < |out| ==> out[i].Group() in pending && pending[out[i].Group()] == out[i]
  }

  lemma CoversMore(out: seq<Item>, pending: map<string, Item>, keys: set<string>, key: string)
    requires Covers(out, pending, keys) && key !in keys && key in pending && pending[key].Group() == key
    ensures Covers(out + [pending[key]], pending, keys + {key})
  {
    GroupsOf(out, pending[key]);
    DistinctMore(out, pending[key]);
    FoundMore(out, pending, pending[key]);
  }

  lemma FoundMore(out: seq<Item>, pending: map<string, Item>, x: Item)
    requires Found(out, pending) && x.Group() in pending && pending[x.Group()] == x
    ensures Found(out + [x], pending)
  {
  }

  lemma DistinctMore(out: seq<Item>, x: Item)
    requires Distinct(out) && x.Group() !in Groups(out)
    ensures Distinct(out + [x])
  {
    forall i | 0 <= i < |out| ensures out[i].Group() != x.Group() {
      assert out[i].Group() in Groups(out);
    }
  }

  // A range in which no key is stored meanwhile: what it has found and what it has still to find.
  predicate HalfRanged(v: Server, r: Handler) {
    r.Ranging? && r.todo !! r.seen && r.todo + r.seen == v.pending.Keys && Covers(r.out, v.pending, r.seen)
  }

  lemma RangeOne(c: Config, s: State, h: nat, key: string) returns (u: State)
    requires h in s.server.handlers && HalfRanged(s.server, s.server.handlers[h]) && Keyed(s.server)
    requires key in s.server.handlers[h].todo
    ensures Next(c, s, Serve(RangeVisit(h, key))) == Some(u) && u == s.(server := u.server)
    ensures u.server.pending == s.server.pending && h in u.server.handlers
    ensures HalfRanged(u.server, u.server.handlers[h])
    ensures u.server.handlers[h].call == s.server.handlers[h].call
    ensures u.server.handlers[h].todo == s.server.handlers[h].todo - {key}
  {
    var r := s.server.handlers[h];
    assert key in r.todo + r.seen;
    u := Next(c, s, Serve(RangeVisit(h, key))).value;
    CoversMore(r.out, s.server.pending, r.seen, key);
    MoveKey(r.todo, r.seen, key);
  }

  lemma MoveKey(todo: set<string>, seen: set<string>, key: string)
    requires key in todo && todo !! seen
    ensures (todo - {key}) + (seen + {key}) == todo + seen && (todo - {key}) !! (seen + {key})
  {
  }

  lemma {:induction false} RangeAll(c: Config, s: State, h: nat, n: nat)
    returns (run: seq<Action>, t: State)
    requires h in s.server.handlers && HalfRanged(s.server, s.server.handlers[h]) && Keyed(s.server)
    ensures Runs(c, s, run, t, n, 0) && t == s.(server := t.server)
    ensures t.server.pending == s.server.pending
    ensures h in t.server.handlers && HalfRanged(t.server, t.server.handlers[h])
    ensures t.server.handlers[h].call == s.server.handlers[h].call && t.server.handlers[h].todo == {}
    decreases s.server.handlers[h].todo
  {
    if s.server.handlers[h].todo == {} {
      run, t := [], s;
    } else {
      var key :| key in s.server.handlers[h].todo;
      var u := RangeOne(c, s, h, key);
      run, t := RangeAll(c, u, h, n);
      RunCons(c, s, Serve(RangeVisit(h, key)), u, run, t, n, 0);
      run := [Serve(RangeVisit(h, key))] + run;
    }
  }

  lemma RangeAndRespond(c: Config, s: State, h: nat, call: nat)
    returns (run: seq<Action>, t: State)
    requires h in s.server.handlers && s.server.handlers[h] == Deleting(call, [])
    requires Keyed(s.server)
    ensures Runs(c, s, run, t, call, 0) && t == s.(server := t.server)
    ensures t.server.pending == s.server.pending
    ensures h in t.server.handlers && t.server.handlers[h].Responded? && t.server.handlers[h].call == call
    ensures Covers(t.server.handlers[h].out, t.server.pending, t.server.pending.Keys)
  {
    var s1 := Next(c, s, Serve(BeginRange(h))).value;
    assert Covers([], s1.server.pending, {});
    var r2, s2 := RangeAll(c, s1, h, call);
    assert s2.server.handlers[h].seen == s2.server.pending.Keys;
    t := Next(c, s2, Serve(Respond(h))).value;
    RunOne(c, s2, Serve(Respond(h)), t, call);
    RunsJoin(c, s1, r2, s2, [Serve(Respond(h))], t, call, 0, 0);
    run := r2 + [Serve(Respond(h))];
    RunCons(c, s, Serve(BeginRange(h)), s1, run, t, call, 0);
    run := [Serve(BeginRange(h))] + run;
  }

  lemma ServeFetch(c: Config, s: State, call: nat)
    returns (run: seq<Action>, t: State, h: nat)
    requires call < |s.sent|
    requires Keyed(s.server)
    ensures Runs(c, s, run, t, call, 0) && t == s.(server := t.server)
    ensures t.server.pending == s.server.pending - Names(s.sent[call])
    ensures h in t.server.handlers && t.server.handlers[h].Responded? && t.server.handlers[h].call == call
    ensures Covers(t.server.handlers[h].out, t.server.pending, t.server.pending.Keys)
  {
    h := s.server.started;
    var s1 := Next(c, s, Serve(Begin(call))).value;
    var r2, s2 := DeleteAll(c, s1, h, call, s.sent[call], call);
    run, t := RangeAndRespond(c, s2, h, call);
    RunsJoin(c, s1, r2, s2, run, t, call, 0, 0);
    run := r2 + run;
    RunCons(c, s, Serve(Begin(call)), s1, run, t, call, 0);
    run := [Serve(Begin(call))] + run;
  }
}
