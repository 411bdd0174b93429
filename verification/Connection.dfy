// One LDAP connection (ldap/client.go): the reading goroutine with its deferred close, the
// writing goroutine, one goroutine per request, and the abandon signals, as a state machine
// whose actions are the atomic operations of these goroutines. OnNewConnection is nil and
// chDone is never closed, as in handleLdapConn (ldap_server.go).
module Connection {
  import opened Events
  import opened Routes

  datatype Request = Request(id: int, op: Operation)

  // An UnbindRequest ends the reading loop, like a read error.
  const UNBIND := OtherRequest("UnbindRequest")

  // A response protocol operation, and the message that carries it.
  datatype Body = Unwilling | Answer(text: string)

  datatype Message = Message(id: int, body: Body)

  // What a request's goroutine does through ServeLDAP (ldap/route.go): write a response, or
  // send an abandon signal to the request registered under an id.
  datatype Act = Reply(body: Body) | Signal(target: int)

  // What ServeLDAP finds for an operation (Routes.ServiceOf for the server's routes).
  datatype Config = Config(serve: Operation -> Service)

  predicate OnlyReplies(program: seq<Act>) {
    forall i :: 0 <= i < |program| ==> program[i].Reply?
  }

  // The programs a request may run: a handler writes any finite number of responses; an
  // unrouted AbandonRequest signals its target first, and then is answered like any other
  // unrouted request.
  predicate Serves(c: Config, r: Request, program: seq<Act>) {
    match c.serve(r.op)
    case Routed(_) => OnlyReplies(program)
    case NotFound =>
      if r.op.AbandonRequest? then
        program != [] && program[0] == Signal(r.op.target) && OnlyReplies(program[1..])
      else OnlyReplies(program)
    case Refused =>
      program == (if r.op.AbandonRequest? then [Signal(r.op.target)] else []) + [Reply(Unwilling)]
  }

  datatype Pc =
    | Registering
    | Running
    | Sending(body: Body)
    | Signalling(to: nat)
    | Unregistering
    | Leaving
    | Exited

  // A request's goroutine.
  datatype Proc = Proc(request: Request, program: seq<Act>, todo: seq<Act>, pc: Pc)

  // The Done buffer of its Message: the values in it, the goroutines started by close that
  // still have to send to it, and the number of AbandonRequests that ever found it.
  datatype Mailbox = Mailbox(done: nat, abandoners: nat, aborts: nat)

  const DONE_CAPACITY := 2

  datatype Reader =
    | Reading
    | Admitting(request: Request)
    | Inline(proc: nat)
    | Closing
    | Waiting
    | Waited
    | Draining
    | Drained
    | Disconnected
    | Closed

  datatype Writer = Receiving | Writing(sent: Sent) | Finished

  datatype Sent = Sent(proc: nat, message: Message)

  datatype State = State(
    reader: Reader,
    writer: Writer,
    procs: seq<Proc>,
    boxes: seq<Mailbox>,       // one for each goroutine
    table: map<int, nat>,      // requestList
    wg: int,
    chanClosed: bool,          // chanOut
    accepted: seq<Sent>,       // history: messages received from chanOut
    written: seq<Sent>,        // history: messages passed to writeMessage
    connClosed: bool,
    srvWg: int,                // this connection's share of srv.Wg
    crashed: bool)             // a goroutine panicked

  // UseConnServer has added the connection to srv.Wg and started Serve.
  function Init(): State {
    State(Reading, Receiving, [], [], map[], 0, false, [], [], false, 1, false)
  }

  // The reading goroutine: Serve and then close.
  datatype ReaderAct =
    | ReadRequest(request: Request)
    | ReadUndecodable
    | ReadEnd
    | Spawn(program: seq<Act>)
    | InlineReturn
    | SignalAll
    | WaitReturn
    | CloseChan
    | DrainReturn
    | CloseConn
    | ServerDone

  // A request's goroutine: ProcessRequestMessage.
  datatype ProcAct =
    | Register
    | Perform
    | Deliver
    | SendOnClosed
    | Abort
    | Return
    | Unregister
    | Leave

  datatype Action =
    | Read(reading: ReaderAct)
    | Work(proc: nat, working: ProcAct)
    | WriteMessage
    | WriterExit
    | AbandonerSend(proc: nat)

  // The first thing close does to the requests: one signalling goroutine for each in the list.
  function Signalled(s: State): seq<Mailbox> {
    seq(|s.boxes|, i requires 0 <= i < |s.boxes| =>
      if i < |s.procs| && s.procs[i].request.id in s.table && s.table[s.procs[i].request.id] == i
      then s.boxes[i].(abandoners := s.boxes[i].abandoners + 1) else s.boxes[i])
  }

  function ReadNext(c: Config, s: State, a: ReaderAct): Option<State> {
    match s.reader
    case Reading =>
      (match a
       case ReadRequest(r) =>
         if r.op == UNBIND then None else Some(s.(reader := Admitting(r), wg := s.wg + 1))
       case ReadUndecodable => Some(s)
       case ReadEnd => Some(s.(reader := Closing))
       case _ => None)
    case Admitting(r) =>
      if !a.Spawn? || !Serves(c, r, a.program) then None
      else
        var p := Proc(r, a.program, a.program, Registering);
        Some(s.(procs := s.procs + [p], boxes := s.boxes + [Mailbox(0, 0, 0)],
                reader := if r.op.IsStartTls() then Inline(|s.procs|) else Reading))
    case Inline(p) =>
      if !a.InlineReturn? || p >= |s.procs| || !s.procs[p].pc.Exited? then None
      else Some(s.(reader := Reading))
    case Closing =>
      if !a.SignalAll? then None
      else Some(s.(reader := Waiting, boxes := Signalled(s)))
    case Waiting =>
      if !a.WaitReturn? || s.wg != 0 then None else Some(s.(reader := Waited))
    case Waited =>
      if !a.CloseChan? then None
      else if s.chanClosed then Some(s.(crashed := true))
      else Some(s.(reader := Draining, chanClosed := true))
    case Draining =>
      if !a.DrainReturn? || !s.writer.Finished? then None else Some(s.(reader := Drained))
    case Drained =>
      if !a.CloseConn? then None else Some(s.(reader := Disconnected, connClosed := true))
    case Disconnected =>
      if !a.ServerDone? then None
      else if s.srvWg <= 0 then Some(s.(crashed := true))
      else Some(s.(reader := Closed, srvWg := s.srvWg - 1))
    case Closed => None
  }

  function Step(s: State, p: nat, q: Proc): State
    requires p < |s.procs|
  {
    s.(procs := s.procs[p := q])
  }

  // A lookup that finds its target goes on to send to that message's Done buffer.
  function PerformNext(s: State, p: nat): Option<State>
    requires p < |s.procs|
  {
    var me := s.procs[p];
    if !me.pc.Running? || me.todo == [] then None
    else
      match me.todo[0]
      case Reply(body) => Some(Step(s, p, me.(pc := Sending(body), todo := me.todo[1..])))
      case Signal(target) =>
        if target !in s.table || s.table[target] >= |s.boxes| then
          Some(Step(s, p, me.(todo := me.todo[1..])))
        else
          var to := s.table[target];
          var box := s.boxes[to].(aborts := s.boxes[to].aborts + 1);
          Some(Step(s, p, me.(pc := Signalling(to), todo := me.todo[1..])).(boxes := s.boxes[to := box]))
  }

  function WorkNext(s: State, p: nat, a: ProcAct): Option<State> {
    if p >= |s.procs| then None
    else
      var me := s.procs[p];
      match a
      case Register =>
        if !me.pc.Registering? then None
        else Some(Step(s, p, me.(pc := Running)).(table := s.table[me.request.id := p]))
      case Perform => PerformNext(s, p)
      case Deliver =>
        if !me.pc.Sending? || s.chanClosed || !s.writer.Receiving? then None
        else
          var sent := Sent(p, Message(me.request.id, me.pc.body));
          Some(Step(s, p, me.(pc := Running)).(writer := Writing(sent), accepted := s.accepted + [sent]))
      case SendOnClosed =>
        if !me.pc.Sending? || !s.chanClosed then None else Some(s.(crashed := true))
      case Abort =>
        if !me.pc.Signalling? || me.pc.to >= |s.boxes| || s.boxes[me.pc.to].done >= DONE_CAPACITY then None
        else
          var box := s.boxes[me.pc.to].(done := s.boxes[me.pc.to].done + 1);
          Some(Step(s, p, me.(pc := Running)).(boxes := s.boxes[me.pc.to := box]))
      case Return =>
        if !me.pc.Running? || me.todo != [] then None else Some(Step(s, p, me.(pc := Unregistering)))
      case Unregister =>
        if !me.pc.Unregistering? then None
        else Some(Step(s, p, me.(pc := Leaving)).(table := s.table - {me.request.id}))
      case Leave =>
        if !me.pc.Leaving? then None
        else if s.wg <= 0 then Some(s.(crashed := true))
        else Some(Step(s, p, me.(pc := Exited)).(wg := s.wg - 1))
  }

  function Next(c: Config, s: State, a: Action): Option<State> {
    if s.crashed then None
    else
      match a
      case Read(l) => ReadNext(c, s, l)
      case Work(p, l) => WorkNext(s, p, l)
      case WriteMessage =>
        if !s.writer.Writing? then None
        else Some(s.(writer := Receiving, written := s.written + [s.writer.sent]))
      case WriterExit =>
        if !s.writer.Receiving? || !s.chanClosed then None else Some(s.(writer := Finished))
      case AbandonerSend(p) =>
        if p >= |s.boxes| || s.boxes[p].abandoners == 0 || s.boxes[p].done >= DONE_CAPACITY then None
        else
          var box := s.boxes[p];
          Some(s.(boxes := s.boxes[p := box.(abandoners := box.abandoners - 1, done := box.done + 1)]))
  }

  function Run(c: Config, s: State, run: seq<Action>): Option<State>
    decreases |run|
  {
    if run == [] then Some(s)
    else
      var t := Next(c, s, run[0]);
      if t.None? then None else Run(c, t.value, run[1..])
  }
}
