// When a closing connection can hang.
module ConnectionHang {
  import opened Events
  import opened Connection
  import opened ConnectionClose
  import opened ConnectionSafety

  // The signals a mailbox may still get ---------------------------------------------------------------

  predicate Listed(s: State, q: nat) {
    q < |s.procs| && s.procs[q].request.id in s.table && s.table[s.procs[q].request.id] == q
  }

  // The request can be found by its id, now or once it has registered.
  predicate Findable(s: State, q: nat) {
    q < |s.procs| && (Listed(s, q) || s.procs[q].pc.Registering?)
  }

  // Those who may find it. A goroutine that registers under the same id takes its place, unless it
  // does so first.
  function Seekers(s: State, q: nat): Tally
    requires q < |s.procs|
  {
    Seeking(s.procs[q].request.id, s.procs[q].pc.Registering?)
  }

  // The AbandonRequests that are sending to its Done buffer or may come to do so.
  function Callers(s: State, q: nat): nat
    requires q < |s.procs|
  {
    Count(Headed(q), s.procs) + if Findable(s, q) then Count(Seekers(s, q), s.procs) else 0
  }

  // All values that are in the buffer or may yet be sent to it.
  function Demand(s: State, q: nat): nat
    requires q < |s.procs| && q < |s.boxes|
  {
    s.boxes[q].done + s.boxes[q].abandoners + Callers(s, q)
    + if Findable(s, q) && s.reader.Closing? then 1 else 0
  }

  // More than the buffer holds, one of them from an AbandonRequest.
  predicate Overfull(s: State, q: nat) {
    q < |s.procs| && q < |s.boxes| && Callers(s, q) > 0 && Demand(s, q) > DONE_CAPACITY
  }

  lemma {:induction false} CountLess(t1: Tally, procs: seq<Proc>, t2: Tally, more: seq<Proc>)
    requires |procs| == |more|
    requires forall i :: 0 <= i < |procs| && Tallies(t1, procs[i]) ==> Tallies(t2, more[i])
    ensures Count(t1, procs) <= Count(t2, more)
  {
    if procs == [] {
    } else {
      CountLess(t1, procs[..|procs| - 1], t2, more[..|more| - 1]);
    }
  }

  lemma {:induction false} FindOne(t: Tally, procs: seq<Proc>) returns (p: nat)
    requires Count(t, procs) > 0
    ensures p < |procs| && Tallies(t, procs[p])
  {
    var n := |procs| - 1;
    if Tallies(t, procs[n]) {
      p := n;
    } else {
      p := FindOne(t, procs[..n]);
    }
  }

  // Programs look for a request first, if at all -----------------------------------------------------------

  predicate LooksFirst(p: Proc) {
    && (p.todo != [] ==> OnlyReplies(p.todo[1..]))
    && (p.pc.Sending? || p.pc.Signalling? ==> OnlyReplies(p.todo))
  }

  predicate AllLookFirst(s: State) {
    forall p :: 0 <= p < |s.procs| ==> LooksFirst(s.procs[p])
  }

  lemma SpawnLooksFirst(c: Config, s: State, l: ReaderAct, t: State)
    requires s.reader.Admitting? && ReadNext(c, s, l) == Some(t)
    ensures t.procs == s.procs + [t.procs[|s.procs|]] && LooksFirst(t.procs[|s.procs|])
  {
    assert l.program != [] ==> OnlyReplies(l.program[1..]);
  }

  lemma WorkLooksFirst(s: State, p: nat, l: ProcAct, t: State)
    requires AllLookFirst(s) && WorkNext(s, p, l) == Some(t) && !t.crashed
    ensures AllLookFirst(t)
  {
    WorkEffect(s, p, l, t);
    assert LooksFirst(s.procs[p]);
    if l.Perform? {
      PerformEffect(s, p, t);
    } else {
      OthersLeaveTodo(s, p, l, t);
    }
  }

  lemma OthersLeaveTodo(s: State, p: nat, l: ProcAct, t: State)
    requires !l.Perform? && WorkNext(s, p, l) == Some(t) && !t.crashed
    ensures p < |s.procs| && p < |t.procs| && t.procs[p].todo == s.procs[p].todo
    ensures !t.procs[p].pc.Sending? && !t.procs[p].pc.Signalling?
  {
  }

  lemma LookFirstKept(c: Config, s: State, a: Action, t: State)
    requires AllLookFirst(s) && !t.crashed && Next(c, s, a) == Some(t)
    ensures AllLookFirst(t)
  {
    match a
    case Read(l) => if s.reader.Admitting? { SpawnLooksFirst(c, s, l, t); } else { ReadEffect(c, s, l, t); }
    case Work(p, l) => WorkLooksFirst(s, p, l, t);
    case _ =>
  }

  ghost predicate HangInv(s: State) {
    Inv(s) && AllLookFirst(s)
  }

  lemma HangInvKept(c: Config, s: State, a: Action, t: State)
    requires HangInv(s) && Next(c, s, a) == Some(t)
    ensures HangInv(t)
  {
    InvKept(c, s, a, t);
    LookFirstKept(c, s, a, t);
  }

  lemma {:induction false} RunKeepsHangInv(c: Config, s: State, run: seq<Action>, t: State)
    requires HangInv(s) && Run(c, s, run) == Some(t)
    ensures HangInv(t)
    decreases |run|
  {
    if run == [] {
    } else {
      var u := Next(c, s, run[0]).value;
      HangInvKept(c, s, run[0], u);
      RunKeepsHangInv(c, u, run[1..], t);
    }
  }

  // It never gets more -----------------------------------------------------------------------------------

  // A goroutine's step, seen from one mailbox.
  lemma WorkFinds(s: State, p: nat, l: ProcAct, t: State, q: nat)
    requires WorkNext(s, p, l) == Some(t) && !t.crashed && q < |s.procs|
    ensures p < |s.procs| && |t.procs| == |s.procs| && t.procs == s.procs[p := t.procs[p]]
    ensures Findable(t, q) ==> Findable(s, q)
    ensures t.procs[q].request == s.procs[q].request
    ensures !(l.Register? && p == q) ==> Seekers(t, q) == Seekers(s, q)
  {
    WorkEffect(s, p, l, t);
  }

  // What one goroutine adds to the callers of q.
  function Adds(s: State, q: nat, seekers: Tally, x: Proc): nat {
    One(Headed(q), x) + if Findable(s, q) then One(seekers, x) else 0
  }

  predicate AddsNoMore(s: State, p: nat, t: State, q: nat)
    requires p < |s.procs| && p < |t.procs| && q < |s.procs| && q < |s.boxes| && q < |t.boxes|
  {
    var before, after := Adds(s, q, Seekers(s, q), s.procs[p]), Adds(t, q, Seekers(s, q), t.procs[p]);
    && after <= before
    && t.boxes[q].done + t.boxes[q].abandoners + after <= s.boxes[q].done + s.boxes[q].abandoners + before
  }

  lemma PerformOfOne(s: State, p: nat, t: State, q: nat)
    requires p < |s.procs| && PerformNext(s, p) == Some(t) && q < |s.procs| && q < |s.boxes|
    requires TableInv(s) && LooksFirst(s.procs[p])
    ensures p < |t.procs| && q < |t.boxes| && AddsNoMore(s, p, t, q)
  {
    var me := s.procs[p];
    assert me.todo[1..] == [] || me.todo[1..][0].Reply?;
    match me.todo[0]
    case Reply(_) =>
    case Signal(target) =>
  }

  lemma RegisterOfOne(s: State, p: nat, t: State, q: nat)
    requires WorkNext(s, p, Register) == Some(t) && p != q && q < |s.procs| && q < |s.boxes|
    ensures p < |s.procs| && p < |t.procs| && q < |t.boxes| && AddsNoMore(s, p, t, q)
  {
  }

  lemma AbortOfOne(s: State, p: nat, t: State, q: nat)
    requires WorkNext(s, p, Abort) == Some(t) && q < |s.procs| && q < |s.boxes| && p < |s.procs|
    requires LooksFirst(s.procs[p])
    ensures p < |t.procs| && q < |t.boxes| && AddsNoMore(s, p, t, q)
  {
  }

  lemma DeliverOfOne(s: State, p: nat, t: State, q: nat)
    requires WorkNext(s, p, Deliver) == Some(t) && q < |s.procs| && q < |s.boxes| && p < |s.procs|
    requires LooksFirst(s.procs[p])
    ensures p < |t.procs| && q < |t.boxes| && AddsNoMore(s, p, t, q)
  {
  }

  lemma LeavingOfOne(s: State, p: nat, l: ProcAct, t: State, q: nat)
    requires WorkNext(s, p, l) == Some(t) && !t.crashed && q < |s.procs| && q < |s.boxes|
    requires l.Return? || l.Unregister? || l.Leave?
    ensures p < |s.procs| && p < |t.procs| && q < |t.boxes| && AddsNoMore(s, p, t, q)
  {
  }

  lemma WorkOfOne(s: State, p: nat, l: ProcAct, t: State, q: nat)
    requires WorkNext(s, p, l) == Some(t) && !t.crashed && q < |s.procs| && q < |s.boxes|
    requires !(l.Register? && p == q) && TableInv(s) && AllLookFirst(s)
    ensures p < |s.procs| && p < |t.procs| && q < |t.boxes| && AddsNoMore(s, p, t, q)
  {
    assert LooksFirst(s.procs[p]);
    match l
    case Register => RegisterOfOne(s, p, t, q);
    case Perform => PerformOfOne(s, p, t, q);
    case Deliver => DeliverOfOne(s, p, t, q);
    case Abort => AbortOfOne(s, p, t, q);
    case _ => LeavingOfOne(s, p, l, t, q);
  }

  lemma WorkAsksNoMore(s: State, p: nat, l: ProcAct, t: State, q: nat)
    requires WorkNext(s, p, l) == Some(t) && !t.crashed && q < |s.procs| && q < |s.boxes|
    requires TableInv(s) && AllLookFirst(s)
    ensures q < |t.procs| && q < |t.boxes|
    ensures Callers(t, q) <= Callers(s, q) && Demand(t, q) <= Demand(s, q)
  {
    WorkFinds(s, p, l, t, q);
    WorkEffect(s, p, l, t);
    if l.Register? && p == q {
      CountLess(Seekers(t, q), t.procs, Seekers(s, q), s.procs);
      CountLess(Headed(q), t.procs, Headed(q), s.procs);
    } else {
      WorkOfOne(s, p, l, t, q);
      OneDecides(s, p, t, q);
    }
  }

  lemma OneDecides(s: State, p: nat, t: State, q: nat)
    requires p < |s.procs| && |t.procs| == |s.procs| && t.procs == s.procs[p := t.procs[p]] && t.reader == s.reader
    requires q < |s.procs| && q < |s.boxes| && q < |t.boxes|
    requires Seekers(t, q) == Seekers(s, q) && (Findable(t, q) ==> Findable(s, q)) && AddsNoMore(s, p, t, q)
    ensures Callers(t, q) <= Callers(s, q) && Demand(t, q) <= Demand(s, q)
  {
    CountUpdate(Headed(q), s.procs, p, t.procs[p]);
    CountUpdate(Seekers(s, q), s.procs, p, t.procs[p]);
    if Tallies(Seekers(s, q), s.procs[p]) { CountMember(Seekers(s, q), s.procs, p); }
  }

  lemma ReadAsksNoMore(c: Config, s: State, l: ReaderAct, t: State, q: nat)
    requires IsClosing(s.reader) && !t.crashed && ReadNext(c, s, l) == Some(t) && q < |s.procs| && q < |s.boxes|
    ensures q < |t.procs| && q < |t.boxes|
    ensures Callers(t, q) <= Callers(s, q) && Demand(t, q) <= Demand(s, q)
  {
    ReadEffect(c, s, l, t);
    match s.reader
    case Closing =>
    case _ =>
  }

  lemma AsksNoMore(c: Config, s: State, a: Action, t: State, q: nat)
    requires HangInv(s) && IsClosing(s.reader) && Next(c, s, a) == Some(t) && Overfull(t, q)
    ensures Overfull(s, q)
  {
    NoPanic(c, s, a, t);
    ClosingKeepsProcs(c, s, a, t);
    match a
    case Read(l) => ReadAsksNoMore(c, s, l, t, q);
    case Work(p, l) => WorkAsksNoMore(s, p, l, t, q);
    case _ =>
  }

  lemma ClosingKeepsProcs(c: Config, s: State, a: Action, t: State)
    requires IsClosing(s.reader) && !t.crashed && Next(c, s, a) == Some(t)
    ensures |t.procs| == |s.procs| && |t.boxes| == |s.boxes|
  {
    match a
    case Read(l) => ReadEffect(c, s, l, t);
    case Work(p, l) => WorkEffect(s, p, l, t);
    case _ =>
  }

  lemma {:induction false} RunAsksNoMore(c: Config, s: State, run: seq<Action>, t: State, q: nat)
    requires HangInv(s) && IsClosing(s.reader) && Run(c, s, run) == Some(t) && Overfull(t, q)
    ensures Overfull(s, q)
    decreases |run|
  {
    if run == [] {
    } else {
      var u := Next(c, s, run[0]).value;
      HangInvKept(c, s, run[0], u);
      StepUsesUp(c, s, run[0], u);
      RunAsksNoMore(c, u, run[1..], t, q);
      AsksNoMore(c, s, run[0], u, q);
    }
  }

  lemma BlockedIsOverfull(s: State, p: nat, q: nat)
    requires Blocked(s, p, q) && |s.boxes| == |s.procs|
    ensures Overfull(s, q)
  {
    CountMember(Headed(q), s.procs, p);
  }

  // It can get all of it -----------------------------------------------------------------------------------

  // Someone who will look for q, and has not registered yet.
  predicate Comes(s: State, q: nat, p: nat) {
    q < |s.procs| && p < |s.procs| && p != q && s.procs[p].pc.Registering? && Tallies(Seekers(s, q), s.procs[p])
  }

  lemma RegisterOther(c: Config, s: State, q: nat, p: nat) returns (t: State)
    requires !s.crashed && Overfull(s, q) && Findable(s, q) && Comes(s, q, p)
    ensures Next(c, s, Work(p, Register)) == Some(t) && Overfull(t, q)
  {
    t := Next(c, s, Work(p, Register)).value;
    assert Seekers(t, q) == Seekers(s, q) && Findable(t, q);
    CountUpdate(Headed(q), s.procs, p, t.procs[p]);
    CountUpdate(Seekers(s, q), s.procs, p, t.procs[p]);
  }

  lemma RegisterSelf(c: Config, s: State, q: nat) returns (t: State)
    requires !s.crashed && Overfull(s, q) && s.procs[q].pc.Registering?
    requires forall p: nat :: !Comes(s, q, p)
    ensures Next(c, s, Work(q, Register)) == Some(t) && Overfull(t, q)
  {
    t := Next(c, s, Work(q, Register)).value;
    forall p | 0 <= p < |s.procs| && Tallies(Seekers(s, q), s.procs[p])
      ensures Tallies(Seekers(t, q), t.procs[p])
    {
      assert !Comes(s, q, p);
    }
    CountLess(Seekers(s, q), s.procs, Seekers(t, q), t.procs);
    CountLess(Headed(q), s.procs, Headed(q), t.procs);
  }

  lemma LookUp(c: Config, s: State, q: nat, p: nat) returns (t: State)
    requires !s.crashed && Overfull(s, q) && Listed(s, q) && !s.procs[q].pc.Registering?
    requires p < |s.procs| && s.procs[p].pc.Running? && Tallies(Seekers(s, q), s.procs[p]) && LooksFirst(s.procs[p])
    ensures Next(c, s, Work(p, Perform)) == Some(t) && Overfull(t, q)
  {
    t := Next(c, s, Work(p, Perform)).value;
    assert Seekers(t, q) == Seekers(s, q) && Findable(t, q);
    CountUpdate(Headed(q), s.procs, p, t.procs[p]);
    CountUpdate(Seekers(s, q), s.procs, p, t.procs[p]);
  }

  lemma SignalOne(c: Config, s: State, q: nat) returns (t: State)
    requires !s.crashed && Overfull(s, q) && Listed(s, q) && s.reader.Closing?
    ensures Next(c, s, Read(SignalAll)) == Some(t) && Overfull(t, q)
  {
    t := Next(c, s, Read(SignalAll)).value;
  }

  lemma SendOne(c: Config, s: State, q: nat) returns (t: State)
    requires !s.crashed && Overfull(s, q) && s.boxes[q].abandoners > 0 && s.boxes[q].done < DONE_CAPACITY
    ensures Next(c, s, AbandonerSend(q)) == Some(t) && Overfull(t, q)
  {
    t := Next(c, s, AbandonerSend(q)).value;
  }

  lemma AbortOne(c: Config, s: State, q: nat, p: nat) returns (t: State)
    requires !s.crashed && Overfull(s, q) && s.boxes[q].done < DONE_CAPACITY
    requires p < |s.procs| && s.procs[p].pc == Signalling(q) && LooksFirst(s.procs[p])
    requires Count(Headed(q), s.procs) >= 2
    requires Demand(s, q) == s.boxes[q].done + Count(Headed(q), s.procs)
    ensures Next(c, s, Work(p, Abort)) == Some(t) && Overfull(t, q)
  {
    t := Next(c, s, Work(p, Abort)).value;
    CountUpdate(Headed(q), s.procs, p, t.procs[p]);
  }

  // Nobody can come to look for q any more.
  predicate Settled(s: State, q: nat)
    requires q < |s.procs|
  {
    Callers(s, q) == Count(Headed(q), s.procs) && !(Findable(s, q) && s.reader.Closing?)
  }

  // While q is overfull and some may still come, one of them comes nearer.
  lemma Gather(c: Config, s: State, q: nat) returns (a: Action, t: State)
    requires HangInv(s) && Overfull(s, q) && !Settled(s, q)
    ensures Next(c, s, a) == Some(t) && Overfull(t, q)
  {
    if p: nat :| Comes(s, q, p) {
      t := RegisterOther(c, s, q, p);
      a := Work(p, Register);
    } else if s.procs[q].pc.Registering? {
      t := RegisterSelf(c, s, q);
      a := Work(q, Register);
    } else if Count(Seekers(s, q), s.procs) > 0 {
      var p := FindOne(Seekers(s, q), s.procs);
      assert !Comes(s, q, p);
      t := LookUp(c, s, q, p);
      a := Work(p, Perform);
    } else {
      t := SignalOne(c, s, q);
      a := Read(SignalAll);
    }
  }

  // Then they send, until the buffer is full.
  lemma Fill(c: Config, s: State, q: nat) returns (a: Action, t: State)
    requires HangInv(s) && Overfull(s, q) && Settled(s, q) && forall p: nat :: !Blocked(s, p, q)
    ensures Next(c, s, a) == Some(t) && Overfull(t, q)
  {
    var p := FindOne(Headed(q), s.procs);
    assert !Blocked(s, p, q) && Bounded(s.procs, q, s.boxes[q], Waits(s.reader));
    if s.boxes[q].abandoners > 0 {
      t := SendOne(c, s, q);
      a := AbandonerSend(q);
    } else {
      t := AbortOne(c, s, q, p);
      a := Work(p, Abort);
    }
  }

  lemma {:induction false} OverfullBlocks(c: Config, s: State, q: nat)
    returns (run: seq<Action>, t: State, p: nat)
    requires HangInv(s) && IsClosing(s.reader) && Overfull(s, q)
    ensures Run(c, s, run) == Some(t) && Blocked(t, p, q)
    decreases Measure(s)
  {
    if p': nat :| Blocked(s, p', q) {
      run, t, p := [], s, p';
    } else {
      var a, u;
      if Settled(s, q) { a, u := Fill(c, s, q); } else { a, u := Gather(c, s, q); }
      HangInvKept(c, s, a, u);
      StepUsesUp(c, s, a, u);
      run, t, p := OverfullBlocks(c, u, q);
      ConsRun(c, s, a, u, run);
      run := [a] + run;
    }
  }

  lemma ConsRun(c: Config, s: State, a: Action, u: State, rest: seq<Action>)
    requires Next(c, s, a) == Some(u)
    ensures Run(c, s, [a] + rest) == Run(c, u, rest)
  {
    assert ([a] + rest)[1..] == rest;
  }

  // Main results --------------------------------------------------------------------------------------

  lemma {:induction false} RunToEnd(c: Config, s: State) returns (run: seq<Action>, t: State)
    requires Inv(s) && IsClosing(s.reader)
    ensures Run(c, s, run) == Some(t) && Dead(c, t)
    decreases Measure(s)
  {
    if a: Action :| Next(c, s, a).Some? {
      var u := Next(c, s, a).value;
      InvKept(c, s, a, u);
      StepUsesUp(c, s, a, u);
      run, t := RunToEnd(c, u);
      ConsRun(c, s, a, u, run);
      run := [a] + run;
    } else {
      run, t := [], s;
    }
  }

  // However the goroutines are scheduled, the connection closes.
  ghost predicate AlwaysCloses(c: Config, s: State) {
    forall run, t :: Run(c, s, run) == Some(t) && Dead(c, t) ==> t.reader.Closed? && t.connClosed && t.srvWg == 0
  }

  // When close can hang: a closing connection always closes if and only if there is no request for
  // which more values are sent or may yet be sent than its Done buffer holds, counting those in it,
  // those of close, and of every AbandonRequest that is sending or can still find the request; one
  // at least of an AbandonRequest.
  lemma AlwaysClosesIff(c: Config, past: seq<Action>, s: State)
    requires Run(c, Init(), past) == Some(s) && IsClosing(s.reader)
    ensures AlwaysCloses(c, s) <==> forall q: nat :: !Overfull(s, q)
  {
    InvInit();
    RunKeepsHangInv(c, Init(), past, s);
    if forall q: nat :: !Overfull(s, q) {
      AllClose(c, past, s);
    } else {
      var q: nat :| Overfull(s, q);
      var r1, u, p := OverfullBlocks(c, s, q);
      HangsFrom(c, s, r1, u, p, q);
    }
  }

  lemma AllClose(c: Config, past: seq<Action>, s: State)
    requires Run(c, Init(), past) == Some(s) && IsClosing(s.reader) && HangInv(s)
    requires forall q: nat :: !Overfull(s, q)
    ensures AlwaysCloses(c, s)
  {
    forall run, t | Run(c, s, run) == Some(t) && Dead(c, t)
      ensures t.reader.Closed? && t.connClosed && t.srvWg == 0
    {
      ClosesIfNotOverfull(c, past, s, run, t);
    }
  }

  lemma ClosesIfNotOverfull(c: Config, past: seq<Action>, s: State, run: seq<Action>, t: State)
    requires Run(c, Init(), past) == Some(s) && IsClosing(s.reader) && HangInv(s)
    requires forall q: nat :: !Overfull(s, q)
    requires Run(c, s, run) == Some(t) && Dead(c, t)
    ensures t.reader.Closed? && t.connClosed && t.srvWg == 0
  {
    CloseEndsUnlessBlocked(c, past, s, run, t);
    RunKeepsHangInv(c, s, run, t);
    forall p: nat, q: nat ensures !Blocked(t, p, q) {
      if Blocked(t, p, q) {
        BlockedIsOverfull(t, p, q);
        RunAsksNoMore(c, s, run, t, q);
      }
    }
  }

  lemma HangsFrom(c: Config, s: State, run: seq<Action>, u: State, p: nat, q: nat)
    requires HangInv(s) && IsClosing(s.reader) && Run(c, s, run) == Some(u) && Blocked(u, p, q)
    ensures !AlwaysCloses(c, s)
  {
    RunKeepsHangInv(c, s, run, u);
    ClosingRun(c, s, run, u);
    var more, t := RunToEnd(c, u);
    BlockedForever(c, u, more, t, p, q);
    ConnectionRuns(c, s, run, u, more);
    assert Run(c, s, run + more) == Some(t) && Dead(c, t) && !t.connClosed;
  }
}
