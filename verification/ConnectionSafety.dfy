// What every run of a connection keeps: no goroutine panics, and what was accepted for the
// peer is written, in order, before the connection is closed.
module ConnectionSafety {
  import opened Events
  import opened Connection

  // Counting goroutines ------------------------------------------------------------------------

  // The live goroutines, those heading for a mailbox, and those that have yet to look for a request:
  // once registered, or also before, or only under another id than the one they look for.
  datatype Tally = Live | Headed(to: nat) | Seeking(id: int, early: bool)

  predicate Tallies(t: Tally, p: Proc) {
    match t
    case Live => !p.pc.Exited?
    case Headed(to) => p.pc == Signalling(to)
    case Seeking(id, early) =>
      p.todo != [] && p.todo[0] == Signal(id)
      && (p.pc.Running? || (p.pc.Registering? && (early || p.request.id != id)))
  }

  function One(t: Tally, p: Proc): nat {
    if Tallies(t, p) then 1 else 0
  }

  function Count(t: Tally, procs: seq<Proc>): nat {
    if procs == [] then 0
    else Count(t, procs[..|procs| - 1]) + One(t, procs[|procs| - 1])
  }

  lemma CountAppend(t: Tally, procs: seq<Proc>, p: Proc)
    ensures Count(t, procs + [p]) == Count(t, procs) + One(t, p)
  {
    assert (procs + [p])[..|procs|] == procs;
  }

  lemma {:induction false} CountUpdate(t: Tally, procs: seq<Proc>, i: nat, p: Proc)
    requires i < |procs|
    ensures Count(t, procs[i := p]) + One(t, procs[i]) == Count(t, procs) + One(t, p)
  {
    var n := |procs| - 1;
    if i == n {
      assert procs[i := p][..n] == procs[..n];
    } else {
      assert procs[i := p][..n] == procs[..n][i := p];
      CountUpdate(t, procs[..n], i, p);
    }
  }

  lemma {:induction false} CountMember(t: Tally, procs: seq<Proc>, i: nat)
    requires i < |procs| && Tallies(t, procs[i])
    ensures Count(t, procs) > 0
  {
    var n := |procs| - 1;
    if i == n {
    } else {
      CountMember(t, procs[..n], i);
    }
  }

  // Where the reading goroutine stands -----------------------------------------------------------

  predicate Waits(r: Reader) {
    r.Waiting? || PastWait(r)
  }

  predicate PastWait(r: Reader) {
    r.Waited? || PastClose(r)
  }

  predicate PastClose(r: Reader) {
    r.Draining? || PastDrain(r)
  }

  predicate PastDrain(r: Reader) {
    r.Drained? || r.Disconnected? || r.Closed?
  }

  predicate StageInv(s: State) {
    && !s.crashed
    && (s.chanClosed <==> PastClose(s.reader))
    && (s.writer.Finished? ==> s.chanClosed)
    && (PastDrain(s.reader) ==> s.writer.Finished?)
    && (s.connClosed <==> s.reader.Disconnected? || s.reader.Closed?)
    && s.srvWg == (if s.reader.Closed? then 0 else 1)
  }

  // The wait group counts the live request goroutines, and the one about to be started.
  predicate GroupInv(s: State) {
    && s.wg == Count(Live, s.procs) + (if s.reader.Admitting? then 1 else 0)
    && (PastWait(s.reader) ==> Count(Live, s.procs) == 0)
  }

  predicate Registered(pc: Pc) {
    pc.Running? || pc.Sending? || pc.Signalling? || pc.Unregistering?
  }

  // An entry of the request list is a registered goroutine of that id.
  predicate TableInv(s: State) {
    forall id :: id in s.table ==>
      && s.table[id] < |s.procs|
      && s.procs[s.table[id]].request.id == id
      && Registered(s.procs[s.table[id]].pc)
  }

  // Messages -------------------------------------------------------------------------------------

  // The bodies a goroutine's messages carry, in order.
  function Mine(sent: seq<Sent>, p: nat): seq<Body> {
    if sent == [] then []
    else
      var x := sent[|sent| - 1];
      Mine(sent[..|sent| - 1], p) + if x.proc == p then [x.message.body] else []
  }

  function Bodies(program: seq<Act>): seq<Body> {
    if program == [] then []
    else (if program[0].Reply? then [program[0].body] else []) + Bodies(program[1..])
  }

  function InHand(pc: Pc): seq<Body> {
    if pc.Sending? then [pc.body] else []
  }

  predicate WrittenInv(s: State) {
    s.accepted == s.written + if s.writer.Writing? then [s.writer.sent] else []
  }

  predicate OwnIds(s: State) {
    forall i :: 0 <= i < |s.accepted| ==>
      s.accepted[i].proc < |s.procs|
      && s.accepted[i].message.id == s.procs[s.accepted[i].proc].request.id
  }

  // The messages of one goroutine: those accepted, the one in hand and those yet to come are
  // what its program writes.
  predicate Accounted(accepted: seq<Sent>, p: nat, proc: Proc) {
    && Mine(accepted, p) + InHand(proc.pc) + Bodies(proc.todo) == Bodies(proc.program)
    && (proc.pc.Unregistering? || proc.pc.Leaving? || proc.pc.Exited? ==> proc.todo == [])
  }

  predicate ProgramInv(s: State) {
    forall p :: 0 <= p < |s.procs| ==> Accounted(s.accepted, p, s.procs[p])
  }

  // Done buffers ---------------------------------------------------------------------------------

  // Every value sent or to be sent to a message's Done buffer is due to an AbandonRequest that
  // found it, or to close.
  predicate Bounded(procs: seq<Proc>, q: nat, box: Mailbox, closing: bool) {
    && box.done <= DONE_CAPACITY
    && box.done + box.abandoners + Count(Headed(q), procs) <= box.aborts + if closing then 1 else 0
  }

  predicate BufferInv(s: State) {
    && |s.boxes| == |s.procs|
    && (forall q :: 0 <= q < |s.boxes| ==> Bounded(s.procs, q, s.boxes[q], Waits(s.reader)))
    && (forall p :: 0 <= p < |s.procs| && s.procs[p].pc.Signalling? ==> s.procs[p].pc.to < |s.boxes|)
  }

  // Steps ----------------------------------------------------------------------------------------

  // A request goroutine's step changes its own entry only.
  lemma WorkEffect(s: State, p: nat, l: ProcAct, t: State)
    requires WorkNext(s, p, l) == Some(t) && !t.crashed
    ensures p < |s.procs| && |t.procs| == |s.procs| && t.procs == s.procs[p := t.procs[p]]
    ensures !s.procs[p].pc.Exited?
    ensures t.procs[p].request == s.procs[p].request && t.procs[p].program == s.procs[p].program
    ensures t.reader == s.reader && t.chanClosed == s.chanClosed
    ensures t.connClosed == s.connClosed && t.srvWg == s.srvWg && t.written == s.written
  {
  }

  lemma WorkEffectOnGroup(s: State, p: nat, l: ProcAct, t: State)
    requires WorkNext(s, p, l) == Some(t) && !t.crashed
    ensures p < |s.procs| && p < |t.procs|
    ensures t.wg == s.wg - One(Live, s.procs[p]) + One(Live, t.procs[p])
    ensures t.writer.Finished? <==> s.writer.Finished?
  {
  }

  lemma WorkEffectOnTable(s: State, p: nat, l: ProcAct, t: State)
    requires WorkNext(s, p, l) == Some(t) && !t.crashed && !l.Register? && !l.Unregister?
    ensures p < |s.procs| && p < |t.procs|
    ensures t.table == s.table && (Registered(s.procs[p].pc) <==> Registered(t.procs[p].pc))
  {
  }

  // No step panics.
  lemma NoPanic(c: Config, s: State, a: Action, t: State)
    requires StageInv(s) && GroupInv(s) && Next(c, s, a) == Some(t)
    ensures !t.crashed
  {
    if a.Work? && a.proc < |s.procs| && !s.procs[a.proc].pc.Exited? {
      CountMember(Live, s.procs, a.proc);
    }
  }

  lemma ReadKeepsStage(c: Config, s: State, l: ReaderAct, t: State)
    requires StageInv(s) && !t.crashed && ReadNext(c, s, l) == Some(t)
    ensures StageInv(t)
  {
  }

  lemma StageKept(c: Config, s: State, a: Action, t: State)
    requires StageInv(s) && !t.crashed && Next(c, s, a) == Some(t)
    ensures StageInv(t)
  {
    match a
    case Read(l) => ReadKeepsStage(c, s, l, t);
    case Work(p, l) =>
      WorkEffect(s, p, l, t);
      WorkEffectOnGroup(s, p, l, t);
    case _ =>
  }

  lemma ReadKeepsGroup(c: Config, s: State, l: ReaderAct, t: State)
    requires GroupInv(s) && !t.crashed && ReadNext(c, s, l) == Some(t)
    ensures GroupInv(t)
  {
    if s.reader.Admitting? { SpawnKeepsGroup(c, s, l, t); } else { ReadEffect(c, s, l, t); }
  }

  lemma ReadEffect(c: Config, s: State, l: ReaderAct, t: State)
    requires !s.reader.Admitting? && !t.crashed && ReadNext(c, s, l) == Some(t)
    ensures t.procs == s.procs && t.table == s.table && !s.reader.Closed?
    ensures t.wg == s.wg + if t.reader.Admitting? then 1 else 0
    ensures PastWait(t.reader) ==> PastWait(s.reader) || s.wg == 0
  {
    match s.reader
    case Reading =>
    case Closing =>
    case _ =>
  }

  lemma SpawnEffect(c: Config, s: State, l: ReaderAct, t: State)
    requires s.reader.Admitting? && ReadNext(c, s, l) == Some(t)
    ensures |t.procs| == |s.procs| + 1 && t.procs == s.procs + [t.procs[|s.procs|]]
    ensures t.procs[|s.procs|].pc.Registering? && t.procs[|s.procs|].todo == t.procs[|s.procs|].program
    ensures t.accepted == s.accepted
    ensures t.wg == s.wg && t.table == s.table && (t.reader.Reading? || t.reader.Inline?)
  {
  }

  lemma SpawnKeepsGroup(c: Config, s: State, l: ReaderAct, t: State)
    requires GroupInv(s) && s.reader.Admitting? && ReadNext(c, s, l) == Some(t)
    ensures GroupInv(t)
  {
    SpawnEffect(c, s, l, t);
    CountAppend(Live, s.procs, t.procs[|s.procs|]);
  }

  lemma CountAfter(s: State, p: nat, t: State)
    requires GroupInv(s) && p < |s.procs| && |t.procs| == |s.procs| && t.procs == s.procs[p := t.procs[p]]
    requires t.reader == s.reader && t.wg == s.wg - One(Live, s.procs[p]) + One(Live, t.procs[p])
    requires !s.procs[p].pc.Exited?
    ensures GroupInv(t)
  {
    CountUpdate(Live, s.procs, p, t.procs[p]);
    CountMember(Live, s.procs, p);
  }

  lemma GroupKept(c: Config, s: State, a: Action, t: State)
    requires GroupInv(s) && !t.crashed && Next(c, s, a) == Some(t)
    ensures GroupInv(t)
  {
    match a
    case Read(l) => ReadKeepsGroup(c, s, l, t);
    case Work(p, l) =>
      WorkEffect(s, p, l, t);
      WorkEffectOnGroup(s, p, l, t);
      CountAfter(s, p, t);
    case _ =>
  }

  // The request list --------------------------------------------------------------------------

  lemma TableAfter(s: State, p: nat, t: State)
    requires TableInv(s) && p < |s.procs| && |t.procs| == |s.procs| && t.procs == s.procs[p := t.procs[p]]
    requires t.procs[p].request == s.procs[p].request
    requires t.table == s.table && (Registered(s.procs[p].pc) ==> Registered(t.procs[p].pc))
    ensures TableInv(t)
  {
  }

  lemma RegisterKeepsTable(s: State, p: nat, l: ProcAct, t: State)
    requires TableInv(s) && (l.Register? || l.Unregister?) && WorkNext(s, p, l) == Some(t)
    ensures TableInv(t)
  {
  }

  lemma WorkKeepsTable(s: State, p: nat, l: ProcAct, t: State)
    requires TableInv(s) && !t.crashed && WorkNext(s, p, l) == Some(t)
    ensures TableInv(t)
  {
    if l.Register? || l.Unregister? {
      RegisterKeepsTable(s, p, l, t);
    } else {
      WorkEffect(s, p, l, t);
      WorkEffectOnTable(s, p, l, t);
      TableAfter(s, p, t);
    }
  }

  lemma ReadKeepsTable(c: Config, s: State, l: ReaderAct, t: State)
    requires TableInv(s) && !t.crashed && ReadNext(c, s, l) == Some(t)
    ensures TableInv(t)
  {
    if s.reader.Admitting? { SpawnEffect(c, s, l, t); } else { ReadEffect(c, s, l, t); }
  }

  lemma TableKept(c: Config, s: State, a: Action, t: State)
    requires TableInv(s) && !t.crashed && Next(c, s, a) == Some(t)
    ensures TableInv(t)
  {
    match a
    case Read(l) => ReadKeepsTable(c, s, l, t);
    case Work(p, l) => WorkKeepsTable(s, p, l, t);
    case _ =>
  }

  // A live goroutine holds the place of its id unless another one has the same id.
  predicate DistinctIds(s: State) {
    forall p, q :: 0 <= p < q < |s.procs| && Registered(s.procs[p].pc) && Registered(s.procs[q].pc) ==>
      s.procs[p].request.id != s.procs[q].request.id
  }

  predicate TableFull(s: State) {
    forall p :: 0 <= p < |s.procs| && Registered(s.procs[p].pc) ==>
      s.procs[p].request.id in s.table && s.table[s.procs[p].request.id] == p
  }

  lemma FullKept(c: Config, s: State, a: Action, t: State)
    requires TableFull(s) && DistinctIds(s) && DistinctIds(t) && !t.crashed && Next(c, s, a) == Some(t)
    ensures TableFull(t)
  {
    match a
    case Read(l) => ReadKeepsFull(c, s, l, t);
    case Work(p, l) =>
      if l.Register? || l.Unregister? {
        RegisterKeepsFull(s, p, l, t);
      } else {
        OtherWorkKeepsFull(s, p, l, t);
      }
    case _ =>
  }

  lemma ReadKeepsFull(c: Config, s: State, l: ReaderAct, t: State)
    requires TableFull(s) && !t.crashed && ReadNext(c, s, l) == Some(t)
    ensures TableFull(t)
  {
    if s.reader.Admitting? { SpawnEffect(c, s, l, t); } else { ReadEffect(c, s, l, t); }
  }

  lemma OtherWorkKeepsFull(s: State, p: nat, l: ProcAct, t: State)
    requires TableFull(s) && !l.Register? && !l.Unregister? && !t.crashed && WorkNext(s, p, l) == Some(t)
    ensures TableFull(t)
  {
    WorkEffect(s, p, l, t);
    WorkEffectOnTable(s, p, l, t);
  }

  lemma RegisterKeepsFull(s: State, p: nat, l: ProcAct, t: State)
    requires TableFull(s) && DistinctIds(s) && DistinctIds(t)
    requires (l.Register? || l.Unregister?) && WorkNext(s, p, l) == Some(t)
    ensures TableFull(t)
  {
    var u := if l.Register? then t else s;
    forall q | 0 <= q < |u.procs| && q != p && Registered(u.procs[q].pc)
      ensures u.procs[q].request.id != u.procs[p].request.id
    {
      if p < q { assert Registered(u.procs[p].pc); }
    }
  }

  // Messages -------------------------------------------------------------------------------------

  lemma WorkEffectOnMessages(s: State, p: nat, l: ProcAct, t: State)
    requires WorkNext(s, p, l) == Some(t) && !t.crashed
    ensures p < |s.procs|
    ensures !l.Deliver? ==> t.accepted == s.accepted && t.writer == s.writer
    ensures l.Deliver? ==>
              s.procs[p].pc.Sending? && s.writer.Receiving?
              && t.writer == Writing(Sent(p, Message(s.procs[p].request.id, s.procs[p].pc.body)))
              && t.accepted == s.accepted + [t.writer.sent]
  {
  }

  lemma WrittenKept(c: Config, s: State, a: Action, t: State)
    requires WrittenInv(s) && !t.crashed && Next(c, s, a) == Some(t)
    ensures WrittenInv(t) && (!a.Work? ==> t.accepted == s.accepted)
  {
    match a
    case Work(p, l) =>
      WorkEffect(s, p, l, t);
      WorkEffectOnMessages(s, p, l, t);
    case _ =>
  }

  lemma OwnIdsKept(c: Config, s: State, a: Action, t: State)
    requires WrittenInv(s) && OwnIds(s) && !t.crashed && Next(c, s, a) == Some(t)
    ensures OwnIds(t)
  {
    WrittenKept(c, s, a, t);
    match a
    case Read(l) =>
      if s.reader.Admitting? { assert s.procs <= t.procs; } else { ReadEffect(c, s, l, t); }
    case Work(p, l) =>
      WorkEffect(s, p, l, t);
      WorkEffectOnMessages(s, p, l, t);
    case _ =>
  }

  lemma MineAppend(sent: seq<Sent>, x: Sent, p: nat)
    ensures Mine(sent + [x], p) == Mine(sent, p) + if x.proc == p then [x.message.body] else []
  {
    assert (sent + [x])[..|sent|] == sent;
  }

  lemma {:induction false} MineFresh(sent: seq<Sent>, p: nat)
    requires forall i :: 0 <= i < |sent| ==> sent[i].proc < p
    ensures Mine(sent, p) == []
  {
    if sent == [] {
    } else {
      MineFresh(sent[..|sent| - 1], p);
    }
  }

  lemma PerformEffect(s: State, p: nat, t: State)
    requires p < |s.procs| && PerformNext(s, p) == Some(t)
    ensures p < |t.procs| && s.procs[p].pc.Running? && s.procs[p].todo != []
    ensures t.procs[p].todo == s.procs[p].todo[1..] && t.procs[p].program == s.procs[p].program
    ensures InHand(t.procs[p].pc) == if s.procs[p].todo[0].Reply? then [s.procs[p].todo[0].body] else []
    ensures t.procs[p].pc.Running? || t.procs[p].pc.Sending? || t.procs[p].pc.Signalling?
  {
  }

  lemma PerformAccounted(accepted: seq<Sent>, p: nat, x: Proc, y: Proc)
    requires Accounted(accepted, p, x) && x.pc.Running? && x.todo != []
    requires y.todo == x.todo[1..] && y.program == x.program
    requires InHand(y.pc) == if x.todo[0].Reply? then [x.todo[0].body] else []
    requires y.pc.Running? || y.pc.Sending? || y.pc.Signalling?
    ensures Accounted(accepted, p, y)
  {
    var m := Mine(accepted, p);
    assert m + [] + Bodies(x.todo) == m + Bodies(x.todo);
    assert m + (InHand(y.pc) + Bodies(y.todo)) == m + InHand(y.pc) + Bodies(y.todo);
  }

  lemma WorkEffectOnProgram(s: State, p: nat, l: ProcAct, t: State)
    requires !l.Perform? && !l.Deliver? && !t.crashed && WorkNext(s, p, l) == Some(t)
    ensures p < |s.procs| && p < |t.procs|
    ensures t.procs[p].todo == s.procs[p].todo && InHand(t.procs[p].pc) == InHand(s.procs[p].pc)
    ensures t.procs[p].pc.Unregistering? ==> t.procs[p].todo == []
    ensures t.procs[p].pc.Leaving? ==> s.procs[p].pc.Unregistering?
    ensures t.procs[p].pc.Exited? ==> s.procs[p].pc.Leaving?
  {
  }

  lemma DeliverAccounted(accepted: seq<Sent>, p: nat, x: Proc, y: Proc, sent: Sent)
    requires Accounted(accepted, p, x) && x.pc.Sending? && y == x.(pc := Running)
    requires sent.proc == p && sent.message.body == x.pc.body
    ensures Accounted(accepted + [sent], p, y)
    ensures forall q: nat :: q != p ==> Mine(accepted + [sent], q) == Mine(accepted, q)
  {
    forall q: nat
      ensures Mine(accepted + [sent], q) == Mine(accepted, q) + if p == q then [x.pc.body] else []
    {
      MineAppend(accepted, sent, q);
    }
  }

  lemma WorkKeepsProgram(s: State, p: nat, l: ProcAct, t: State)
    requires ProgramInv(s) && !t.crashed && WorkNext(s, p, l) == Some(t)
    ensures ProgramInv(t)
  {
    WorkEffect(s, p, l, t);
    WorkEffectOnMessages(s, p, l, t);
    assert Accounted(s.accepted, p, s.procs[p]);
    if l.Perform? {
      PerformEffect(s, p, t);
      PerformAccounted(s.accepted, p, s.procs[p], t.procs[p]);
    } else if l.Deliver? {
      DeliverEffect(s, p, t);
      DeliverAccounted(s.accepted, p, s.procs[p], t.procs[p], t.writer.sent);
    } else {
      WorkEffectOnProgram(s, p, l, t);
    }
    OneAccounted(s, p, t);
  }

  lemma DeliverEffect(s: State, p: nat, t: State)
    requires WorkNext(s, p, Deliver) == Some(t)
    ensures p < |s.procs| && p < |t.procs| && t.procs[p] == s.procs[p].(pc := Running)
  {
  }

  lemma OneAccounted(s: State, p: nat, t: State)
    requires ProgramInv(s) && p < |s.procs| && |t.procs| == |s.procs| && t.procs == s.procs[p := t.procs[p]]
    requires Accounted(t.accepted, p, t.procs[p])
    requires forall q: nat :: q != p ==> Mine(t.accepted, q) == Mine(s.accepted, q)
    ensures ProgramInv(t)
  {
    forall q | 0 <= q < |t.procs| && q != p ensures Accounted(t.accepted, q, t.procs[q]) {
      assert Accounted(s.accepted, q, s.procs[q]);
    }
  }

  lemma ProgramKept(c: Config, s: State, a: Action, t: State)
    requires OwnIds(s) && WrittenInv(s) && ProgramInv(s) && !t.crashed && Next(c, s, a) == Some(t)
    ensures ProgramInv(t)
  {
    match a
    case Read(l) => ReadKeepsProgram(c, s, l, t);
    case Work(p, l) => WorkKeepsProgram(s, p, l, t);
    case _ =>
  }

  lemma ReadKeepsProgram(c: Config, s: State, l: ReaderAct, t: State)
    requires OwnIds(s) && ProgramInv(s) && !t.crashed && ReadNext(c, s, l) == Some(t)
    ensures ProgramInv(t)
  {
    if s.reader.Admitting? {
      SpawnKeepsProgram(c, s, l, t);
    } else {
      ReadEffect(c, s, l, t);
      assert t.accepted == s.accepted;
      SameKeepsProgram(s, t);
    }
  }

  lemma SameKeepsProgram(s: State, t: State)
    requires ProgramInv(s) && t.procs == s.procs && t.accepted == s.accepted
    ensures ProgramInv(t)
  {
  }

  lemma SpawnKeepsProgram(c: Config, s: State, l: ReaderAct, t: State)
    requires OwnIds(s) && ProgramInv(s) && s.reader.Admitting? && ReadNext(c, s, l) == Some(t)
    ensures ProgramInv(t)
  {
    var n := |s.procs|;
    SpawnEffect(c, s, l, t);
    MineFresh(s.accepted, n);
    SpawnedAccounted(s.accepted, n, t.procs[n]);
    OldAccounted(s, t);
  }

  lemma OldAccounted(s: State, t: State)
    requires ProgramInv(s) && |t.procs| == |s.procs| + 1 && t.procs == s.procs + [t.procs[|s.procs|]]
    requires t.accepted == s.accepted && Accounted(t.accepted, |s.procs|, t.procs[|s.procs|])
    ensures ProgramInv(t)
  {
    forall p | 0 <= p < |s.procs| ensures Accounted(t.accepted, p, t.procs[p]) {
      assert Accounted(s.accepted, p, s.procs[p]);
    }
  }

  lemma SpawnedAccounted(accepted: seq<Sent>, p: nat, proc: Proc)
    requires Mine(accepted, p) == [] && proc.todo == proc.program && proc.pc.Registering?
    ensures Accounted(accepted, p, proc)
  {
  }

  // Done buffers -----------------------------------------------------------------------------------

  lemma {:induction false} CountNone(t: Tally, procs: seq<Proc>)
    requires forall i :: 0 <= i < |procs| ==> !Tallies(t, procs[i])
    ensures Count(t, procs) == 0
  {
    if procs == [] {
    } else {
      CountNone(t, procs[..|procs| - 1]);
    }
  }

  // The effect of a goroutine's step on the mailboxes: it heads for one, or sends to the one it
  // was headed for, or neither.
  lemma WorkEffectOnBoxes(s: State, p: nat, l: ProcAct, t: State)
    requires WorkNext(s, p, l) == Some(t) && !t.crashed
    ensures p < |s.procs| && p < |t.procs|
    ensures var x, y := s.procs[p].pc, t.procs[p].pc;
            if y.Signalling? then
              !x.Signalling? && y.to < |s.boxes|
              && t.boxes == s.boxes[y.to := s.boxes[y.to].(aborts := s.boxes[y.to].aborts + 1)]
            else if x.Signalling? then
              x.to < |s.boxes| && s.boxes[x.to].done < DONE_CAPACITY
              && t.boxes == s.boxes[x.to := s.boxes[x.to].(done := s.boxes[x.to].done + 1)]
            else t.boxes == s.boxes
  {
  }

  lemma WorkKeepsBuffers(s: State, p: nat, l: ProcAct, t: State)
    requires BufferInv(s) && !t.crashed && WorkNext(s, p, l) == Some(t)
    ensures BufferInv(t)
  {
    WorkEffect(s, p, l, t);
    WorkEffectOnBoxes(s, p, l, t);
    BoxesAfter(s, p, t);
  }

  lemma BoxesAfter(s: State, p: nat, t: State)
    requires BufferInv(s) && t.reader == s.reader
    requires p < |s.procs| && |t.procs| == |s.procs| && t.procs == s.procs[p := t.procs[p]]
    requires var x, y := s.procs[p].pc, t.procs[p].pc;
            if y.Signalling? then
              !x.Signalling? && y.to < |s.boxes|
              && t.boxes == s.boxes[y.to := s.boxes[y.to].(aborts := s.boxes[y.to].aborts + 1)]
            else if x.Signalling? then
              x.to < |s.boxes| && s.boxes[x.to].done < DONE_CAPACITY
              && t.boxes == s.boxes[x.to := s.boxes[x.to].(done := s.boxes[x.to].done + 1)]
            else t.boxes == s.boxes
    ensures BufferInv(t)
  {
    forall q | 0 <= q < |t.boxes| ensures Bounded(t.procs, q, t.boxes[q], Waits(t.reader)) {
      assert Bounded(s.procs, q, s.boxes[q], Waits(s.reader));
      CountUpdate(Headed(q), s.procs, p, t.procs[p]);
    }
  }

  lemma SpawnKeepsBuffers(c: Config, s: State, l: ReaderAct, t: State)
    requires BufferInv(s) && s.reader.Admitting? && ReadNext(c, s, l) == Some(t)
    ensures BufferInv(t)
  {
    forall q | 0 <= q < |t.boxes| ensures Bounded(t.procs, q, t.boxes[q], Waits(t.reader)) {
      CountAppend(Headed(q), s.procs, t.procs[|s.procs|]);
      if q < |s.boxes| {
        assert Bounded(s.procs, q, s.boxes[q], Waits(s.reader));
      } else {
        CountNone(Headed(q), s.procs);
      }
    }
  }

  lemma ReadKeepsBuffers(c: Config, s: State, l: ReaderAct, t: State)
    requires BufferInv(s) && !s.reader.Admitting? && !t.crashed && ReadNext(c, s, l) == Some(t)
    ensures BufferInv(t)
  {
    ReadEffect(c, s, l, t);
    ReadEffectOnBoxes(c, s, l, t);
    forall q | 0 <= q < |t.boxes| ensures Bounded(t.procs, q, t.boxes[q], Waits(t.reader)) {
      assert Bounded(s.procs, q, s.boxes[q], Waits(s.reader));
    }
  }

  lemma ReadEffectOnBoxes(c: Config, s: State, l: ReaderAct, t: State)
    requires !s.reader.Admitting? && !t.crashed && ReadNext(c, s, l) == Some(t)
    ensures |t.boxes| == |s.boxes| && (Waits(t.reader) <==> Waits(s.reader) || s.reader.Closing?)
    ensures forall q :: 0 <= q < |s.boxes| ==>
              t.boxes[q].done == s.boxes[q].done && t.boxes[q].aborts == s.boxes[q].aborts
              && t.boxes[q].abandoners <= s.boxes[q].abandoners + if s.reader.Closing? then 1 else 0
  {
    match s.reader
    case Reading =>
    case Closing =>
    case _ =>
  }

  lemma BuffersKept(c: Config, s: State, a: Action, t: State)
    requires BufferInv(s) && !t.crashed && Next(c, s, a) == Some(t)
    ensures BufferInv(t)
  {
    match a
    case Read(l) =>
      if s.reader.Admitting? { SpawnKeepsBuffers(c, s, l, t); } else { ReadKeepsBuffers(c, s, l, t); }
    case Work(p, l) => WorkKeepsBuffers(s, p, l, t);
    case AbandonerSend(q) =>
      forall r | 0 <= r < |t.boxes| ensures Bounded(t.procs, r, t.boxes[r], Waits(t.reader)) {
        assert Bounded(s.procs, r, s.boxes[r], Waits(s.reader));
      }
    case _ =>
  }

  // Runs ---------------------------------------------------------------------------------------------

  ghost predicate Inv(s: State) {
    && StageInv(s) && GroupInv(s) && TableInv(s)
    && WrittenInv(s) && OwnIds(s) && ProgramInv(s) && BufferInv(s)
  }

  lemma InvInit()
    ensures Inv(Init())
  {
  }

  lemma InvKept(c: Config, s: State, a: Action, t: State)
    requires Inv(s) && Next(c, s, a) == Some(t)
    ensures Inv(t)
  {
    NoPanic(c, s, a, t);
    StageKept(c, s, a, t);
    GroupKept(c, s, a, t);
    TableKept(c, s, a, t);
    WrittenKept(c, s, a, t);
    OwnIdsKept(c, s, a, t);
    ProgramKept(c, s, a, t);
    BuffersKept(c, s, a, t);
  }

  lemma {:induction false} RunKeepsInv(c: Config, s: State, run: seq<Action>, t: State)
    requires Inv(s) && Run(c, s, run) == Some(t)
    ensures Inv(t)
    decreases |run|
  {
    if run == [] {
    } else {
      var u := Next(c, s, run[0]).value;
      InvKept(c, s, run[0], u);
      RunKeepsInv(c, u, run[1..], t);
    }
  }

  // Main results: statements about every run of a connection -----------------------------------------

  // Nothing panics: no goroutine sends on chanOut after it is closed, chanOut is closed once,
  // and neither wait group goes below zero. The count of the group is the number of live
  // request goroutines, plus the one being started.
  lemma NothingPanics(c: Config, run: seq<Action>, t: State)
    requires Run(c, Init(), run) == Some(t)
    ensures !t.crashed
    ensures t.chanClosed ==> forall p :: 0 <= p < |t.procs| ==> t.procs[p].pc.Exited?
    ensures t.wg == Count(Live, t.procs) + if t.reader.Admitting? then 1 else 0
  {
    InvInit();
    RunKeepsInv(c, Init(), run, t);
    forall p | t.chanClosed && 0 <= p < |t.procs| ensures t.procs[p].pc.Exited? {
      if !t.procs[p].pc.Exited? { CountMember(Live, t.procs, p); }
    }
  }

  // Messages are written in the order in which they were accepted, each under the id of its own
  // request, and a goroutine's in the order of its program.
  lemma WritesAreOrdered(c: Config, run: seq<Action>, t: State, p: nat)
    requires Run(c, Init(), run) == Some(t) && p < |t.procs|
    ensures t.written <= t.accepted && |t.accepted| <= |t.written| + 1
    ensures forall i :: 0 <= i < |t.accepted| && t.accepted[i].proc == p ==>
              t.accepted[i].message.id == t.procs[p].request.id
    ensures Mine(t.accepted, p) <= Bodies(t.procs[p].program)
  {
    InvInit();
    RunKeepsInv(c, Init(), run, t);
    assert Accounted(t.accepted, p, t.procs[p]);
  }

  // The request list. Its entries are registered goroutines under their own ids; it is empty
  // from the moment wg.Wait returns.
  lemma RequestListIsSound(c: Config, run: seq<Action>, t: State)
    requires Run(c, Init(), run) == Some(t)
    ensures TableInv(t)
    ensures PastWait(t.reader) ==> t.table == map[]
  {
    InvInit();
    RunKeepsInv(c, Init(), run, t);
    if PastWait(t.reader) { NoLiveNoEntries(t); }
  }

  lemma NoLiveNoEntries(s: State)
    requires TableInv(s) && Count(Live, s.procs) == 0
    ensures s.table == map[]
  {
    forall id: int ensures id !in s.table {
      if id in s.table { CountMember(Live, s.procs, s.table[id]); }
    }
  }

  lemma ExitedIsComplete(sent: seq<Sent>, p: nat, proc: Proc)
    requires Accounted(sent, p, proc) && proc.pc.Exited?
    ensures Mine(sent, p) == Bodies(proc.program)
  {
    assert Mine(sent, p) + [] + [] == Mine(sent, p);
  }

  // When the connection is closed, every response of every request has been written, exactly
  // once, in order, before the close; no request is left in the list, and the server's wait
  // group has lost this connection at most once.
  lemma ClosedIsDrained(c: Config, run: seq<Action>, t: State)
    requires Run(c, Init(), run) == Some(t) && t.connClosed
    ensures t.written == t.accepted
    ensures forall p :: 0 <= p < |t.procs| ==> Mine(t.written, p) == Bodies(t.procs[p].program)
    ensures t.table == map[]
    ensures t.srvWg == if t.reader.Closed? then 0 else 1
  {
    InvInit();
    RunKeepsInv(c, Init(), run, t);
    NothingPanics(c, run, t);
    assert t.writer.Finished? && t.chanClosed;
    assert t.written == t.accepted;
    forall p | 0 <= p < |t.procs| ensures Mine(t.written, p) == Bodies(t.procs[p].program) {
      assert Accounted(t.accepted, p, t.procs[p]) && t.procs[p].pc.Exited?;
      ExitedIsComplete(t.written, p, t.procs[p]);
    }
    RequestListIsSound(c, run, t);
  }

  // Along the run, no two registered goroutines have the same id.
  predicate AlwaysDistinct(c: Config, s: State, run: seq<Action>)
    decreases |run|
  {
    DistinctIds(s) &&
    (run != [] ==>
       var t := Next(c, s, run[0]);
       t.Some? ==> AlwaysDistinct(c, t.value, run[1..]))
  }

  lemma {:induction false} RunKeepsFull(c: Config, s: State, run: seq<Action>, t: State)
    requires Inv(s) && TableFull(s) && AlwaysDistinct(c, s, run) && Run(c, s, run) == Some(t)
    ensures TableFull(t) && DistinctIds(t)
    decreases |run|
  {
    if run == [] {
    } else {
      var u := Next(c, s, run[0]).value;
      InvKept(c, s, run[0], u);
      assert AlwaysDistinct(c, u, run[1..]);
      FullKept(c, s, run[0], u);
      RunKeepsFull(c, u, run[1..], t);
    }
  }

  // If the ids of outstanding requests stay distinct (section 4.1.1.1 of RFC 4511), the list
  // holds exactly the registered goroutines.
  lemma RequestListIsExact(c: Config, run: seq<Action>, t: State, id: int, p: nat)
    requires Run(c, Init(), run) == Some(t) && AlwaysDistinct(c, Init(), run)
    ensures (id in t.table && t.table[id] == p) <==>
            (p < |t.procs| && Registered(t.procs[p].pc) && t.procs[p].request.id == id)
  {
    InvInit();
    RunKeepsInv(c, Init(), run, t);
    RunKeepsFull(c, Init(), run, t);
  }
}
