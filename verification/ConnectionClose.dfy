// Whether close runs to its end.
module ConnectionClose {
  import opened Events
  import opened Routes
  import opened Connection
  import opened ConnectionSafety

  predicate IsClosing(r: Reader) {
    r.Closing? || Waits(r)
  }

  // How many steps are left ---------------------------------------------------------------------

  function ProcWork(p: Proc): nat {
    3 * |p.todo| +
    match p.pc
    case Registering => 4
    case Running => 3
    case Sending(_) => 5
    case Signalling(_) => 4
    case Unregistering => 2
    case Leaving => 1
    case Exited => 0
  }

  function ProcsWork(procs: seq<Proc>): nat {
    if procs == [] then 0
    else ProcsWork(procs[..|procs| - 1]) + ProcWork(procs[|procs| - 1])
  }

  function Abandoners(boxes: seq<Mailbox>): nat {
    if boxes == [] then 0
    else Abandoners(boxes[..|boxes| - 1]) + boxes[|boxes| - 1].abandoners
  }

  function WriterWork(w: Writer): nat {
    match w case Finished => 0 case Receiving => 1 case Writing(_) => 2
  }

  // Closing still has to start a signalling goroutine for each request in the list.
  function ReaderWork(s: State): nat {
    match s.reader
    case Closing => 7 + |s.boxes|
    case Waiting => 6
    case Waited => 5
    case Draining => 4
    case Drained => 3
    case Disconnected => 2
    case _ => 0
  }

  function Measure(s: State): nat {
    ReaderWork(s) + WriterWork(s.writer) + ProcsWork(s.procs) + Abandoners(s.boxes)
  }

  lemma {:induction false} ProcsWorkUpdate(procs: seq<Proc>, i: nat, p: Proc)
    requires i < |procs|
    ensures ProcsWork(procs[i := p]) + ProcWork(procs[i]) == ProcsWork(procs) + ProcWork(p)
  {
    var n := |procs| - 1;
    if i == n {
      assert procs[i := p][..n] == procs[..n];
    } else {
      assert procs[i := p][..n] == procs[..n][i := p];
      ProcsWorkUpdate(procs[..n], i, p);
    }
  }

  lemma {:induction false} AbandonersUpdate(boxes: seq<Mailbox>, i: nat, b: Mailbox)
    requires i < |boxes|
    ensures Abandoners(boxes[i := b]) + boxes[i].abandoners == Abandoners(boxes) + b.abandoners
  {
    var n := |boxes| - 1;
    if i == n {
      assert boxes[i := b][..n] == boxes[..n];
    } else {
      assert boxes[i := b][..n] == boxes[..n][i := b];
      AbandonersUpdate(boxes[..n], i, b);
    }
  }

  lemma {:induction false} AbandonersGrow(boxes: seq<Mailbox>, more: seq<Mailbox>)
    requires |boxes| == |more|
    requires forall i :: 0 <= i < |boxes| ==> more[i].abandoners <= boxes[i].abandoners + 1
    ensures Abandoners(more) <= Abandoners(boxes) + |boxes|
  {
    if boxes == [] {
    } else {
      AbandonersGrow(boxes[..|boxes| - 1], more[..|more| - 1]);
    }
  }

  // A goroutine's step uses up its own work; a delivery hands one step of it to the writer.
  lemma WorkUsesUp(s: State, p: nat, l: ProcAct, t: State)
    requires WorkNext(s, p, l) == Some(t) && !t.crashed
    ensures p < |s.procs| && p < |t.procs|
    ensures ProcWork(t.procs[p]) + WriterWork(t.writer) < ProcWork(s.procs[p]) + WriterWork(s.writer)
    ensures |t.boxes| == |s.boxes|
  {
    match l
    case Perform =>
    case _ =>
  }

  lemma WorkKeepsAbandoners(s: State, p: nat, l: ProcAct, t: State)
    requires WorkNext(s, p, l) == Some(t) && !t.crashed
    ensures Abandoners(t.boxes) == Abandoners(s.boxes)
  {
    WorkEffectOnBoxes(s, p, l, t);
    var x, y := s.procs[p].pc, t.procs[p].pc;
    if y.Signalling? { AbandonersUpdate(s.boxes, y.to, t.boxes[y.to]); }
    else if x.Signalling? { AbandonersUpdate(s.boxes, x.to, t.boxes[x.to]); }
  }

  lemma ReadUsesUp(c: Config, s: State, l: ReaderAct, t: State)
    requires IsClosing(s.reader) && !t.crashed && ReadNext(c, s, l) == Some(t)
    ensures Measure(t) < Measure(s) && IsClosing(t.reader)
  {
    if s.reader.Closing? {
      SignalUsesUp(c, s, l, t);
    } else {
      assert t.procs == s.procs && t.boxes == s.boxes && t.writer == s.writer;
    }
  }

  lemma SignalUsesUp(c: Config, s: State, l: ReaderAct, t: State)
    requires s.reader.Closing? && ReadNext(c, s, l) == Some(t)
    ensures Measure(t) < Measure(s)
  {
    AbandonersGrow(s.boxes, t.boxes);
  }

  lemma ProcUsesUp(s: State, p: nat, l: ProcAct, t: State)
    requires WorkNext(s, p, l) == Some(t) && !t.crashed
    ensures Measure(t) < Measure(s) && t.reader == s.reader
  {
    WorkEffect(s, p, l, t);
    WorkUsesUp(s, p, l, t);
    WorkKeepsAbandoners(s, p, l, t);
    ProcsWorkUpdate(s.procs, p, t.procs[p]);
  }

  // Once closing, every step of every goroutine brings the end nearer.
  lemma StepUsesUp(c: Config, s: State, a: Action, t: State)
    requires Inv(s) && IsClosing(s.reader) && Next(c, s, a) == Some(t)
    ensures Measure(t) < Measure(s) && IsClosing(t.reader)
  {
    NoPanic(c, s, a, t);
    match a
    case Read(l) => ReadUsesUp(c, s, l, t);
    case Work(p, l) => ProcUsesUp(s, p, l, t);
    case AbandonerSend(q) => AbandonersUpdate(s.boxes, q, t.boxes[q]);
    case _ =>
  }

  // What stands in the way ------------------------------------------------------------------------

  // A request goroutine wants to send to a full Done buffer.
  predicate Blocked(s: State, p: nat, q: nat) {
    p < |s.procs| && q < |s.boxes| && s.procs[p].pc == Signalling(q) && s.boxes[q].done == DONE_CAPACITY
  }

  lemma {:induction false} LiveOne(procs: seq<Proc>) returns (p: nat)
    requires Count(Live, procs) > 0
    ensures p < |procs| && !procs[p].pc.Exited?
  {
    var n := |procs| - 1;
    if procs[n].pc.Exited? {
      p := LiveOne(procs[..n]);
    } else {
      p := n;
    }
  }

  // A live request goroutine can go on by itself or with the writer, unless it is blocked.
  lemma LiveCanStep(c: Config, s: State, p: nat) returns (a: Action)
    requires StageInv(s) && BufferInv(s) && s.reader.Waiting? && s.wg > 0
    requires p < |s.procs| && !s.procs[p].pc.Exited? && !exists q: nat :: Blocked(s, p, q)
    ensures Next(c, s, a).Some?
  {
    match s.procs[p].pc
    case Registering => a := Work(p, Register);
    case Running => a := Work(p, if s.procs[p].todo == [] then Return else Perform);
    case Sending(_) => a := if s.writer.Receiving? then Work(p, Deliver) else WriteMessage;
    case Signalling(q) =>
      assert !Blocked(s, p, q);
      assert Bounded(s.procs, q, s.boxes[q], Waits(s.reader));
      a := Work(p, Abort);
    case Unregistering => a := Work(p, Unregister);
    case Leaving => a := Work(p, Leave);
    case Exited =>
  }

  lemma CanStep(c: Config, s: State) returns (a: Action)
    requires Inv(s) && IsClosing(s.reader) && !s.reader.Closed?
    requires forall p: nat, q: nat :: !Blocked(s, p, q)
    ensures Next(c, s, a).Some?
  {
    match s.reader
    case Closing => a := Read(SignalAll);
    case Waiting =>
      if s.wg == 0 {
        a := Read(WaitReturn);
      } else {
        var p := LiveOne(s.procs);
        a := LiveCanStep(c, s, p);
      }
    case Waited => a := Read(CloseChan);
    case Draining =>
      a := if s.writer.Finished? then Read(DrainReturn)
           else if s.writer.Receiving? then WriterExit else WriteMessage;
    case Drained => a := Read(CloseConn);
    case Disconnected => a := Read(ServerDone);
  }

  // Main results --------------------------------------------------------------------------------------

  lemma {:induction false} ClosingRun(c: Config, s: State, run: seq<Action>, t: State)
    requires Inv(s) && IsClosing(s.reader) && Run(c, s, run) == Some(t)
    ensures IsClosing(t.reader) && |run| + Measure(t) <= Measure(s)
    decreases |run|
  {
    if run == [] {
    } else {
      var u := Next(c, s, run[0]).value;
      InvKept(c, s, run[0], u);
      StepUsesUp(c, s, run[0], u);
      ClosingRun(c, u, run[1..], t);
    }
  }

  // Nothing can happen any more.
  ghost predicate Dead(c: Config, s: State) {
    forall a :: Next(c, s, a).None?
  }

  // However a closing connection is scheduled, it takes a bounded number of steps, and where it
  // cannot go on it has either finished, signalling srv.Wg exactly once, or left a request
  // goroutine sending to a full Done buffer. Nothing else can stop it.
  lemma CloseEndsUnlessBlocked(c: Config, past: seq<Action>, s: State, run: seq<Action>, t: State)
    requires Run(c, Init(), past) == Some(s) && IsClosing(s.reader) && Run(c, s, run) == Some(t)
    ensures |run| <= Measure(s)
    ensures Dead(c, t) ==>
              (t.reader.Closed? && t.srvWg == 0 && t.connClosed <==> !exists p: nat, q: nat :: Blocked(t, p, q))
  {
    InvInit();
    RunKeepsInv(c, Init(), past, s);
    ClosingRun(c, s, run, t);
    RunKeepsInv(c, s, run, t);
    if Dead(c, t) {
      if !t.reader.Closed? && forall p: nat, q: nat :: !Blocked(t, p, q) {
        var a := CanStep(c, t);
      }
      if t.reader.Closed? {
        forall p: nat, q: nat ensures !Blocked(t, p, q) {
          if Blocked(t, p, q) { CountMember(Live, t.procs, p); }
        }
      }
    }
  }

  // The number of AbandonRequests that found a message.
  predicate AbandonedAtMost(s: State, n: nat) {
    forall q :: 0 <= q < |s.boxes| ==> s.boxes[q].aborts <= n
  }

  // The two places of the Done buffer are one for an AbandonRequest (section 4.11 of RFC 4511)
  // and one for close: with at most one AbandonRequest to a message, no send ever blocks.
  lemma OneAbandonNeverBlocks(c: Config, run: seq<Action>, t: State, p: nat, q: nat)
    requires Run(c, Init(), run) == Some(t) && AbandonedAtMost(t, 1)
    ensures !Blocked(t, p, q)
  {
    InvInit();
    RunKeepsInv(c, Init(), run, t);
    if Blocked(t, p, q) {
      assert Bounded(t.procs, q, t.boxes[q], Waits(t.reader));
      CountMember(Headed(q), t.procs, p);
    }
  }

  // So such a connection always closes.
  lemma CloseCompletes(c: Config, past: seq<Action>, s: State, run: seq<Action>, t: State)
    requires Run(c, Init(), past) == Some(s) && IsClosing(s.reader) && Run(c, s, run) == Some(t)
    requires AbandonedAtMost(t, 1) && Dead(c, t)
    ensures t.reader.Closed? && t.srvWg == 0 && t.connClosed
  {
    ConnectionRuns(c, Init(), past, s, run);
    CloseEndsUnlessBlocked(c, past, s, run, t);
    forall p: nat, q: nat ensures !Blocked(t, p, q) {
      OneAbandonNeverBlocks(c, past + run, t, p, q);
    }
  }

  lemma {:induction false} ConnectionRuns(c: Config, s: State, run: seq<Action>, t: State, more: seq<Action>)
    requires Run(c, s, run) == Some(t)
    ensures Run(c, s, run + more) == Run(c, t, more)
    decreases |run|
  {
    if run == [] {
      assert run + more == more;
    } else {
      assert (run + more)[1..] == run[1..] + more;
      ConnectionRuns(c, Next(c, s, run[0]).value, run[1..], t, more);
    }
  }

  // A blocked goroutine stays blocked, and close never gets past wg.Wait.
  lemma BlockedStaysOnce(c: Config, s: State, a: Action, t: State, p: nat, q: nat)
    requires Inv(s) && Blocked(s, p, q) && Next(c, s, a) == Some(t)
    ensures Blocked(t, p, q)
  {
    NoPanic(c, s, a, t);
    match a
    case Read(l) => ReadKeepsBlocked(c, s, l, t, p, q);
    case Work(r, l) =>
      WorkEffect(s, r, l, t);
      WorkEffectOnBoxes(s, r, l, t);
      if r == p { BlockedCannotWork(s, p, q, l); }
    case _ =>
  }

  lemma BlockedCannotWork(s: State, p: nat, q: nat, l: ProcAct)
    requires Blocked(s, p, q)
    ensures WorkNext(s, p, l).None?
  {
  }

  lemma ReadKeepsBlocked(c: Config, s: State, l: ReaderAct, t: State, p: nat, q: nat)
    requires Blocked(s, p, q) && ReadNext(c, s, l) == Some(t)
    ensures Blocked(t, p, q)
  {
  }

  lemma {:induction false} BlockedForever(c: Config, s: State, run: seq<Action>, t: State, p: nat, q: nat)
    requires Inv(s) && Blocked(s, p, q) && Run(c, s, run) == Some(t)
    ensures Blocked(t, p, q) && !PastWait(t.reader) && t.srvWg == 1 && !t.connClosed
    decreases |run|
  {
    if run == [] {
      CountMember(Live, s.procs, p);
    } else {
      var u := Next(c, s, run[0]).value;
      InvKept(c, s, run[0], u);
      BlockedStaysOnce(c, s, run[0], u, p, q);
      BlockedForever(c, u, run[1..], t, p, q);
    }
  }

  // The bound of one is exact ---------------------------------------------------------------------------

  lemma RunStep(c: Config, s: State, run: seq<Action>, t: State, a: Action)
    requires Run(c, s, run) == Some(t)
    ensures Run(c, s, run + [a]) == Next(c, t, a)
  {
    ConnectionRuns(c, s, run, t, [a]);
    var u := Next(c, t, a);
    assert [a][1..] == [];
    if u.Some? { assert Run(c, u.value, []) == u; }
  }

  // A request is read and its goroutine registers it.
  lemma Admitted(c: Config, past: seq<Action>, s: State, r: Request, program: seq<Act>)
    returns (run: seq<Action>, t: State)
    requires Run(c, Init(), past) == Some(s) && s.reader.Reading? && !s.crashed
    requires Serves(c, r, program) && !r.op.IsStartTls() && r.op != UNBIND
    ensures Run(c, Init(), past + run) == Some(t)
    ensures t == s.(procs := s.procs + [Proc(r, program, program, Running)],
                    boxes := s.boxes + [Mailbox(0, 0, 0)],
                    table := s.table[r.id := |s.procs|], wg := s.wg + 1)
  {
    var n := |s.procs|;
    var a1, a2, a3 := Read(ReadRequest(r)), Read(Spawn(program)), Work(n, Register);
    var s1 := Next(c, s, a1).value;
    RunStep(c, Init(), past, s, a1);
    var s2 := Next(c, s1, a2).value;
    RunStep(c, Init(), past + [a1], s1, a2);
    t := Next(c, s2, a3).value;
    RunStep(c, Init(), past + [a1] + [a2], s2, a3);
    assert t.procs == s.procs + [Proc(r, program, program, Running)];
    run := [a1, a2, a3];
    assert past + run == past + [a1] + [a2] + [a3];
  }

  // A slow search and one AbandonRequest for it that has been carried out.
  lemma OneAbandonDone(c: Config, search: Request, abandon: Request) returns (past: seq<Action>, s: State)
    requires Serves(c, search, []) && search.op.SearchRequest?
    requires abandon.op == AbandonRequest(search.id) && c.serve(abandon.op).Refused? && abandon.id != search.id
    ensures Run(c, Init(), past) == Some(s) && s.reader.Reading? && !s.crashed
    ensures |s.procs| == 2 && s.procs[0] == Proc(search, [], [], Running)
    ensures s.boxes == [Mailbox(1, 0, 1), Mailbox(0, 0, 0)]
    ensures search.id in s.table && s.table[search.id] == 0
  {
    var program := [Signal(search.id), Reply(Unwilling)];
    var r1, s1 := Admitted(c, [], Init(), search, []);
    assert Serves(c, abandon, program);
    var r2, s2 := Admitted(c, [] + r1, s1, abandon, program);
    var p := [] + r1 + r2;
    var s3 := Next(c, s2, Work(1, Perform)).value;
    RunStep(c, Init(), p, s2, Work(1, Perform));
    s := Next(c, s3, Work(1, Abort)).value;
    RunStep(c, Init(), p + [Work(1, Perform)], s3, Work(1, Abort));
    past := p + [Work(1, Perform)] + [Work(1, Abort)];
  }

  // A second AbandonRequest has found the search as well.
  lemma SecondAbandonHeaded(c: Config, search: Request, abandon: Request) returns (past: seq<Action>, s: State)
    requires Serves(c, search, []) && search.op.SearchRequest?
    requires abandon.op == AbandonRequest(search.id) && c.serve(abandon.op).Refused? && abandon.id != search.id
    ensures Run(c, Init(), past) == Some(s) && s.reader.Reading? && !s.crashed
    ensures |s.procs| == 3 && s.procs[0].request == search && s.procs[2].pc == Signalling(0)
    ensures s.boxes == [Mailbox(1, 0, 2), Mailbox(0, 0, 0), Mailbox(0, 0, 0)]
    ensures search.id in s.table && s.table[search.id] == 0
  {
    var p1, s1 := OneAbandonDone(c, search, abandon);
    var program := [Signal(search.id), Reply(Unwilling)];
    var r2, s2 := Admitted(c, p1, s1, abandon, program);
    s := Next(c, s2, Work(2, Perform)).value;
    RunStep(c, Init(), p1 + r2, s2, Work(2, Perform));
    past := p1 + r2 + [Work(2, Perform)];
  }

  lemma HangsForever(c: Config, past: seq<Action>, s: State, p: nat, q: nat)
    requires Run(c, Init(), past) == Some(s) && Blocked(s, p, q)
    ensures forall run, t :: Run(c, s, run) == Some(t) ==> !t.connClosed && t.srvWg == 1
  {
    forall run, t | Run(c, s, run) == Some(t) ensures !t.connClosed && t.srvWg == 1 {
      HangsAlong(c, past, s, p, q, run, t);
    }
  }

  lemma HangsAlong(c: Config, past: seq<Action>, s: State, p: nat, q: nat, run: seq<Action>, t: State)
    requires Run(c, Init(), past) == Some(s) && Blocked(s, p, q) && Run(c, s, run) == Some(t)
    ensures !t.connClosed && t.srvWg == 1
  {
    InvInit();
    RunKeepsInv(c, Init(), past, s);
    BlockedForever(c, s, run, t, p, q);
  }

  // With two AbandonRequests for one message close can hang: the first fills one place of the
  // Done buffer, close's own signal the other, and the second AbandonRequest waits for ever.
  // In no continuation is the connection closed or srv.Wg released.
  lemma TwoAbandonsCanHang(c: Config, search: Request, abandon: Request) returns (past: seq<Action>, s: State)
    requires c.serve(search.op).Routed? && search.op.SearchRequest?
    requires abandon.op == AbandonRequest(search.id) && c.serve(abandon.op).Refused? && abandon.id != search.id
    ensures Run(c, Init(), past) == Some(s) && IsClosing(s.reader) && AbandonedAtMost(s, 2)
    ensures forall run, t :: Run(c, s, run) == Some(t) ==> !t.connClosed && t.srvWg == 1
  {
    var p3, s3 := SecondAbandonHeaded(c, search, abandon);
    past, s := CloseAndSignal(c, p3, s3, 2, 0);
    HangsForever(c, past, s, 2, 0);
  }

  // Reading ends, close starts its signals, and the one for q arrives first.
  lemma CloseAndSignal(c: Config, p3: seq<Action>, s3: State, p: nat, q: nat)
    returns (past: seq<Action>, s: State)
    requires Run(c, Init(), p3) == Some(s3) && s3.reader.Reading? && !s3.crashed && AbandonedAtMost(s3, 2)
    requires p < |s3.procs| && s3.procs[p].pc == Signalling(q) && q < |s3.boxes| && q < |s3.procs|
    requires s3.boxes[q].done == 1 && s3.boxes[q].abandoners == 0
    requires s3.procs[q].request.id in s3.table && s3.table[s3.procs[q].request.id] == q
    ensures Run(c, Init(), past) == Some(s) && IsClosing(s.reader) && AbandonedAtMost(s, 2) && Blocked(s, p, q)
  {
    var s4 := Next(c, s3, Read(ReadEnd)).value;
    RunStep(c, Init(), p3, s3, Read(ReadEnd));
    var p4 := p3 + [Read(ReadEnd)];
    var s5 := Next(c, s4, Read(SignalAll)).value;
    RunStep(c, Init(), p4, s4, Read(SignalAll));
    var p5 := p4 + [Read(SignalAll)];
    s := Next(c, s5, AbandonerSend(q)).value;
    RunStep(c, Init(), p5, s5, AbandonerSend(q));
    past := p5 + [AbandonerSend(q)];
  }

  // The routes of the reverse server leave it open to this.
  lemma ReverseServerCanHang() returns (past: seq<Action>, s: State)
    ensures var c := Config(op => ServiceOf(REVERSE_ROUTES, false, op));
            && Run(c, Init(), past) == Some(s) && IsClosing(s.reader)
            && forall run, t :: Run(c, s, run) == Some(t) ==> !t.connClosed && t.srvWg == 1
  {
    var c := Config(op => ServiceOf(REVERSE_ROUTES, false, op));
    var search := Request(1, SearchRequest("", "", 0));
    var abandon := Request(2, AbandonRequest(1));
    ReverseService(search.op);
    ReverseService(abandon.op);
    past, s := TwoAbandonsCanHang(c, search, abandon);
  }
}
