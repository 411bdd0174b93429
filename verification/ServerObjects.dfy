// The server's object against the state machine's server: a handler that runs whole is a run of the
// machine's small steps.
module ServerObjects {
  import opened Delivery
  import opened Events
  import opened EventLog
  import opened ReverseServer
  import opened Visits
  import DeliveryFetch
  import DeliveryServing
  import DeliveryWire

  ghost predicate Abstracts(c: Config, s: State, server: ReverseServer.Server)
    reads server
  {
    c.admit == server.admit && server.pending == DeliveryFetch.EventMap(s.server.pending)
  }

  // The steps of one request's listener; an LDAP visit that is not logged ends with the second.
  function VisitSteps(request: Request, addr: string, visit: nat, number: int, v: Visit, ok: bool): seq<Action> {
    [Listen(Arrive(request, addr)), Listen(Record(visit, number, ok))]
    + if v.kind == Ldap && !ok then [] else [Listen(Publish(visit))]
  }

  // HandleVisit is the machine's Arrive, Record and Publish, with the number that the log gave.
  method VisitOnce(server: ReverseServer.Server, request: Request, nowMs: nat, addr: string, fault: Fault,
                   ghost c: Config, ghost s: State)
    returns (admitted: bool, ghost t: State)
    requires server.Valid() && forall t: EventType :: |server.db.Contents(t)| < Decimal.MAX_INT
    requires Abstracts(c, s, server) && s.nowMs == nowMs
    modifies server`pending, server.db
    ensures server.Valid() && Abstracts(c, t, server)
    ensures admitted <==> c.admit(request).Some?
    ensures !admitted ==> Run(c, s, [Listen(Arrive(request, addr))]) == Some(t)
    ensures admitted ==>
              var v := c.admit(request).value;
              var number := if fault.BeginFails? then 0 else |old(server.db.Contents(TypeOf(v.kind)))| + 1;
              Run(c, s, VisitSteps(request, addr, |s.visits|, number, v, fault.NoFault?)) == Some(t)
  {
    ghost var v := c.admit(request);
    ghost var number := 0;
    if v.Some? && !fault.BeginFails? { number := |server.db.Contents(TypeOf(v.value.kind))| + 1; }
    admitted := server.HandleVisit(request, nowMs, addr, fault);
    if admitted {
      t := VisitRun(c, s, request, v.value, addr, number, fault.NoFault?);
      AfterVisit(s, request, v.value, addr, number, fault.NoFault?, t);
    } else {
      t := s;
      assert Next(c, s, Listen(Arrive(request, addr))) == Some(s);
      assert [Listen(Arrive(request, addr))][1..] == [];
      assert Run(c, s, []) == Some(s);
    }
  }

  // The item that the three steps store.
  function VisitItem(s: State, request: Request, v: Visit, addr: string, number: int): Item {
    Item(NewEvent(request, v, s.nowMs, addr).(id := number), |s.visits|)
  }

  lemma VisitRun(c: Config, s: State, request: Request, v: Visit, addr: string, number: int, ok: bool)
    returns (t: State)
    requires c.admit(request) == Some(v)
    ensures Run(c, s, VisitSteps(request, addr, |s.visits|, number, v, ok)) == Some(t)
    ensures t.server.pending
            == if v.kind == HttpPublic || (v.kind == Ldap && !ok) then s.server.pending
               else s.server.pending[v.named.group := VisitItem(s, request, v, addr, number)]
  {
    var n := |s.visits|;
    var a1, a2, a3 := Listen(Arrive(request, addr)), Listen(Record(n, number, ok)), Listen(Publish(n));
    var s1 := Next(c, s, a1).value;
    var s2 := Next(c, s1, a2).value;
    if v.kind == Ldap && !ok {
      t := s2;
      DeliveryServing.RunTwo(c, s, a1, s1, a2, t);
      assert VisitSteps(request, addr, n, number, v, ok) == [a1, a2];
    } else {
      t := Next(c, s2, a3).value;
      DeliveryServing.RunTwo(c, s, a1, s1, a2, s2);
      DeliveryServing.RunJoin(c, s, [a1, a2], s2, [a3]);
      assert [a3][1..] == [] && Run(c, t, []) == Some(t);
      assert [a1, a2] + [a3] == VisitSteps(request, addr, n, number, v, ok);
    }
  }

  lemma AfterVisit(s: State, request: Request, v: Visit, addr: string, number: int, ok: bool, t: State)
    requires t.server.pending
             == if v.kind == HttpPublic || (v.kind == Ldap && !ok) then s.server.pending
                else s.server.pending[v.named.group := VisitItem(s, request, v, addr, number)]
    ensures DeliveryFetch.EventMap(t.server.pending)
            == if v.kind == HttpPublic || (v.kind == Ldap && !ok) then DeliveryFetch.EventMap(s.server.pending)
               else DeliveryFetch.EventMap(s.server.pending)[v.named.group :=
                      NewEvent(request, v, s.nowMs, addr).(id := number)]
  {
  }

  // HandleFetchEvent is a run of the steps of one handler, and both return the pending events.
  method AnswerOnce(server: ReverseServer.Server, call: nat, ghost c: Config, ghost s: State, acks: seq<string>)
    returns (response: Response, ghost run: seq<Action>, ghost t: State, ghost h: nat)
    requires server.Valid() && Abstracts(c, s, server) && DeliveryWire.Keyed(s.server)
    requires call < |s.sent| && s.sent[call] == acks
    modifies server`pending
    ensures server.Valid() && Abstracts(c, t, server) && Run(c, s, run) == Some(t)
    ensures h in t.server.handlers && t.server.handlers[h].Responded? && t.server.handlers[h].call == call
    ensures response.Success? && Lists(response.events, server.pending)
    ensures Lists(DeliveryFetch.EventsOf(t.server.handlers[h].out), server.pending)
  {
    run, t, h := DeliveryServing.ServeFetch(c, s, call);
    DeliveryFetch.CoversLists(t.server.handlers[h].out, t.server.pending);
    ghost var pending := DeliveryFetch.EventMap(s.server.pending) - DeliveryWire.Names(acks);
    AfterAcks(s, acks, t);
    response := server.HandleFetchEvent(server.token, Some(acks));
    assert server.pending == pending;
  }

  lemma AfterAcks(s: State, acks: seq<string>, t: State)
    requires t.server.pending == s.server.pending - DeliveryWire.Names(acks)
    ensures DeliveryFetch.EventMap(t.server.pending)
            == DeliveryFetch.EventMap(s.server.pending) - DeliveryWire.Names(acks)
  {
  }
}
