// What a connection answers, and when it reads.
module ConnectionService {
  import opened Connection
  import opened ConnectionSafety
  import opened Events
  import opened Routes

  predicate AllServed(c: Config, s: State) {
    forall p :: 0 <= p < |s.procs| ==> Serves(c, s.procs[p].request, s.procs[p].program)
  }

  lemma ReadKeepsServed(c: Config, s: State, l: ReaderAct, t: State)
    requires AllServed(c, s) && !t.crashed && ReadNext(c, s, l) == Some(t)
    ensures AllServed(c, t)
  {
    if s.reader.Admitting? {
      assert t.procs == s.procs + [t.procs[|s.procs|]];
    } else {
      ReadEffect(c, s, l, t);
    }
  }

  lemma WorkKeepsServed(c: Config, s: State, p: nat, l: ProcAct, t: State)
    requires AllServed(c, s) && !t.crashed && WorkNext(s, p, l) == Some(t)
    ensures AllServed(c, t)
  {
    WorkEffect(s, p, l, t);
  }

  lemma NextKeepsServed(c: Config, s: State, a: Action, t: State)
    requires AllServed(c, s) && !t.crashed && Next(c, s, a) == Some(t)
    ensures AllServed(c, t)
  {
    match a {
      case Read(l) => ReadKeepsServed(c, s, l, t);
      case Work(p, l) => WorkKeepsServed(c, s, p, l, t);
      case _ => assert t.procs == s.procs;
    }
  }

  lemma {:induction false} RunKeepsServed(c: Config, s: State, run: seq<Action>, t: State)
    requires Inv(s) && AllServed(c, s) && Run(c, s, run) == Some(t)
    ensures AllServed(c, t)
    decreases |run|
  {
    if run == [] {
    } else {
      var u := Next(c, s, run[0]).value;
      InvKept(c, s, run[0], u);
      NextKeepsServed(c, s, run[0], u);
      RunKeepsServed(c, u, run[1..], t);
    }
  }

  lemma {:induction false} MineSingle(sent: seq<Sent>, p: nat, b: Body) returns (i: nat)
    requires Mine(sent, p) == [b]
    ensures i < |sent| && sent[i].proc == p && sent[i].message.body == b
    ensures forall j :: 0 <= j < |sent| && j != i ==> sent[j].proc != p
  {
    var n := |sent| - 1;
    if sent[n].proc == p {
      i := n;
      var before := Mine(sent[..n], p);
      assert before + [sent[n].message.body] == [b];
      assert |before| == 0 && (before + [sent[n].message.body])[0] == sent[n].message.body;
      MineNone(sent[..n], p);
    } else {
      i := MineSingle(sent[..n], p, b);
    }
  }

  lemma {:induction false} MineNone(sent: seq<Sent>, p: nat)
    requires Mine(sent, p) == []
    ensures forall j :: 0 <= j < |sent| ==> sent[j].proc != p
  {
    if sent == [] {
    } else {
      MineNone(sent[..|sent| - 1], p);
    }
  }

  // Main results --------------------------------------------------------------------------------------

  // A request that no route takes, with no handler for that either, is answered by exactly one message:
  // UnwillingToPerform, under its id.
  lemma RefusedIsAnsweredOnce(c: Config, run: seq<Action>, t: State, p: nat) returns (i: nat)
    requires Run(c, Init(), run) == Some(t) && t.connClosed && p < |t.procs|
    requires c.serve(t.procs[p].request.op) == Refused
    ensures i < |t.written| && t.written[i].proc == p
    ensures t.written[i].message == Message(t.procs[p].request.id, Unwilling)
    ensures forall j :: 0 <= j < |t.written| && j != i ==> t.written[j].proc != p
  {
    InvInit();
    RunKeepsServed(c, Init(), run, t);
    ClosedIsDrained(c, run, t);
    OneReply(c, t.procs[p].request, t.procs[p].program);
    i := MineSingle(t.written, p, Unwilling);
    WritesAreOrdered(c, run, t, p);
  }

  lemma OneReply(c: Config, r: Request, program: seq<Act>)
    requires c.serve(r.op) == Refused && Serves(c, r, program)
    ensures Bodies(program) == [Unwilling]
  {
    var reply: seq<Act> := [Reply(Unwilling)];
    assert reply[1..] == [] && Bodies(reply) == [Unwilling];
    if r.op.AbandonRequest? {
      assert program[1..] == reply;
    } else {
      assert program == reply;
    }
  }

  // Who signals whom: an AbandonRequest that no route takes signals its target, before it is answered,
  // and nothing else signals anything.
  lemma OnlyUnroutedAbandonsSignal(c: Config, run: seq<Action>, t: State, p: nat, i: nat)
    requires Run(c, Init(), run) == Some(t) && p < |t.procs| && i < |t.procs[p].program|
    ensures var op := t.procs[p].request.op;
            t.procs[p].program[i].Signal? <==> i == 0 && op.AbandonRequest? && !c.serve(op).Routed?
    ensures t.procs[p].program[i].Signal? ==> t.procs[p].program[i] == Signal(t.procs[p].request.op.target)
  {
    InvInit();
    RunKeepsServed(c, Init(), run, t);
    var program := t.procs[p].program;
    assert Serves(c, t.procs[p].request, program);
    if i > 0 { assert program[i] == program[1..][i - 1]; }
  }

  // Every request but an UnbindRequest is taken by the reading loop, which passes over a message that it
  // cannot decode; and a StartTLS request keeps it from reading on until it has been served.
  lemma ReadingTakes(c: Config, s: State, r: Request)
    requires s.reader.Reading? && !s.crashed
    ensures Next(c, s, Read(ReadRequest(r))).Some? <==> r.op != OtherRequest("UnbindRequest")
    ensures Next(c, s, Read(ReadUndecodable)) == Some(s)
    ensures Next(c, s, Read(ReadEnd)) == Some(s.(reader := Closing))
  {
  }

  lemma StartTlsHoldsReading(c: Config, s: State, l: ReaderAct, t: State)
    requires Next(c, s, Read(l)) == Some(t)
    ensures s.reader.Admitting? ==>
              t.reader == if s.reader.request.op == ExtendedRequest("1.3.6.1.4.1.1466.20037")
                          then Inline(|s.procs|) else Reading
    ensures s.reader.Inline? ==>
              s.reader.proc < |s.procs| && s.procs[s.reader.proc].pc == Exited && t == s.(reader := Reading)
  {
  }
}
