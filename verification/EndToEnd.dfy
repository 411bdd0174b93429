// From a unit's URL to its callback.
module EndToEnd {
  import opened Events
  import opened Paths
  import opened Targets
  import opened Visits
  import opened Delivery
  import opened DeliveryCertain
  import opened DeliveryFetch
  import opened DeliveryLoss
  import opened DeliveryProgress
  import opened DeliveryServing
  import opened DeliveryWire

  lemma RunStep(c: Config, s: State, run: seq<Action>, t: State, a: Action)
    requires Run(c, s, run) == Some(t)
    ensures Run(c, s, run + [a]) == Next(c, t, a)
  {
    RunJoin(c, s, run, t, [a]);
    var u := Next(c, t, a);
    assert [a][1..] == [];
    if u.Some? { assert Run(c, u.value, []) == u; }
  }

  // The listener's three steps for one request. Only the LDAP handler needs storeEvent to
  // succeed.
  lemma VisitBecomesPending(c: Config, past: seq<Action>, s: State, request: Request, v: Visit, addr: string,
                            number: int, ok: bool)
    returns (run: seq<Action>, t: State)
    requires Run(c, Init(c), past) == Some(s) && c.admit(request) == Some(v)
    requires !v.kind.HttpPublic? && (ok || !v.kind.Ldap?)
    ensures Run(c, Init(c), past + run) == Some(t)
    ensures t.client == s.client && t.sent == s.sent && t.server.handlers == s.server.handlers
    ensures var g := v.named.group;
            g in t.server.pending && t.server.pending[g].Group() == g
            && t.server.pending[g].event.unitId == v.named.unit
            && t.server.pending[g].visit == |s.visits|
            && t.server.pending.Keys == s.server.pending.Keys + {g}
  {
    var n := |s.visits|;
    var a1, a2, a3 := Listen(Arrive(request, addr)), Listen(Record(n, number, ok)), Listen(Publish(n));
    var s1 := Next(c, s, a1).value;
    RunStep(c, Init(c), past, s, a1);
    var s2 := Next(c, s1, a2).value;
    RunStep(c, Init(c), past + [a1], s1, a2);
    t := Next(c, s2, a3).value;
    RunStep(c, Init(c), past + [a1] + [a2], s2, a3);
    run := [a1, a2, a3];
    assert past + run == past + [a1] + [a2] + [a3];
  }

  // No older event of the group has been received whose ack is still to be sent, or is among what
  // may yet be received in answer to the request being waited for.
  predicate ClearFor(s: State, g: string) {
    && !Received(s.client, g)
    && (s.client.poll.Waiting? ==>
          forall h :: h in s.server.handlers ==>
            var r := s.server.handlers[h];
            r.call != s.client.poll.call || r.Deleting? || g !in Groups(r.out))
  }

  // And no handler still has an ack for the group to carry out.
  predicate CertainFor(s: State, g: string) {
    ClearFor(s, g) && NoAckUnderway(s.server, g)
  }

  // An answer that resets the queue and does not name the group.
  predicate SavesFor(h: Handler, call: nat, g: string) {
    h.call == call && if h.Deleting? then g !in h.acks else g !in Groups(h.out)
  }

  // The group is clear, or can be so once the fetch being waited for is given up or answered.
  predicate OpenFor(s: State, g: string) {
    if s.client.poll.Waiting? then
      g !in s.client.toDelete
      || exists h :: h in s.server.handlers && SavesFor(s.server.handlers[h], s.client.poll.call, g)
    else !Received(s.client, g)
  }

  // The unit is in a live group and has a callback.
  predicate LiveUnit(k: Client, named: Captures, obj: nat, unit: nat) {
    && named.group in k.groups && k.groups[named.group] == obj && obj < |k.objs|
    && named.unit in k.objs[obj].units && k.objs[obj].units[named.unit] == unit
    && unit < |k.units| && k.units[unit].callback
  }

  // A visit made in state s and pending in u is on the way to this unit, and is named by it.
  predicate VisitAims(s: State, u: State, named: Captures, obj: nat, unit: nat, aim: Aim) {
    && Aims(u, aim) && u.client == s.client && u.sent == s.sent && u.server.handlers == s.server.handlers
    && aim.obj == obj && aim.unit == unit && aim.calls == |s.client.calls| && aim.item.visit == |s.visits|
    && aim.item.event.groupId == named.group && aim.item.event.unitId == named.unit
  }

  // A new visit is in no batch and no response, so the aim is what its group is.
  lemma NewVisit(c: Config, past: seq<Action>, s: State, u: State, named: Captures, obj: nat, unit: nat, aim: Aim)
    requires Run(c, Init(c), past) == Some(s) && VisitAims(s, u, named, obj, unit, aim)
    ensures Clear(u, aim) <==> ClearFor(s, named.group)
    ensures Certain(u, aim) <==> CertainFor(s, named.group)
    ensures Open(u, aim) <==> OpenFor(s, named.group)
  {
    RunFromStart(c, past, s);
    match s.client.poll
    case Idle =>
    case Waiting(call) =>
      forall h | h in s.server.handlers
        ensures Saves(s.server.handlers[h], call, aim) <==> SavesFor(s.server.handlers[h], call, named.group)
        ensures !s.server.handlers[h].Deleting? ==>
                  (Only(s.server.handlers[h].out, aim) <==> aim.G() !in Groups(s.server.handlers[h].out))
      {
        if !s.server.handlers[h].Deleting? { OnlyWhenNew(s, s.server.handlers[h].out, aim); }
      }
    case Dispatching(items, _) => OnlyWhenNew(s, items, aim);
  }

  lemma OnlyWhenNew(s: State, items: seq<Item>, aim: Aim)
    requires StoredOnce(s) && Sourced(s.server, items) && aim.item.visit == |s.visits|
    ensures Only(items, aim) <==> aim.G() !in Groups(items)
    ensures aim.item !in items
  {
    forall i | 0 <= i < |items| ensures items[i] != aim.item {
      assert Put(items[i]) in s.server.ops;
    }
  }

  lemma VisitIsAimed(c: Config, past: seq<Action>, s: State, request: Request, v: Visit, addr: string,
                     number: int, ok: bool, obj: nat, unit: nat)
    returns (visit: seq<Action>, u: State, aim: Aim)
    requires Run(c, Init(c), past) == Some(s) && c.admit(request) == Some(v)
    requires !v.kind.HttpPublic? && (ok || !v.kind.Ldap?) && LiveUnit(s.client, v.named, obj, unit)
    ensures Run(c, Init(c), past + visit) == Some(u) && VisitAims(s, u, v.named, obj, unit, aim)
  {
    visit, u := VisitBecomesPending(c, past, s, request, v, addr, number, ok);
    aim := Aim(u.server.pending[v.named.group], obj, unit, |u.sent|, |u.client.calls|);
  }

  // End to end. A request is admitted for a unit of a live group that has a callback, wherever
  // the client and the server's handlers stand with their fetches. Delivery of the visit to that
  // unit's callback, under exactly its group and unit, is inevitable if and only if the group is
  // clear and no ack for it is underway, and possible if and only if the group is open.
  lemma AdmittedVisitReachesItsUnit(c: Config, past: seq<Action>, s: State, request: Request, v: Visit,
                                    addr: string, number: int, ok: bool, obj: nat, unit: nat)
    returns (visit: seq<Action>, u: State, aim: Aim)
    requires Run(c, Init(c), past) == Some(s) && c.admit(request) == Some(v)
    requires !v.kind.HttpPublic? && (ok || !v.kind.Ldap?) && LiveUnit(s.client, v.named, obj, unit)
    ensures Run(c, Init(c), past + visit) == Some(u) && VisitAims(s, u, v.named, obj, unit, aim)
    ensures CertainFor(s, v.named.group) <==> Inevitable(c, u, aim)
    ensures OpenFor(s, v.named.group) <==> Possible(c, u, aim)
    ensures forall run, t ::
              Run(c, u, run) == Some(t) && RunSpares(c, u, run, aim)
              && Completed(run) >= (if s.client.poll.Idle? then 1 else 2) ==>
                (CertainFor(s, v.named.group) ==> Delivered(t.client, aim))
                && (Delivered(t.client, aim) ==> OpenFor(s, v.named.group))
  {
    visit, u, aim := VisitIsAimed(c, past, s, request, v, addr, number, ok, obj, unit);
    NewVisit(c, past, s, u, v.named, obj, unit, aim);
    CertainIff(c, past + visit, u, aim);
    PossibleIff(c, past + visit, u, aim);
    forall run, t | Run(c, u, run) == Some(t) && RunSpares(c, u, run, aim)
                    && Completed(run) >= (if s.client.poll.Idle? then 1 else 2)
      ensures Certain(u, aim) ==> Delivered(t.client, aim)
      ensures Delivered(t.client, aim) ==> Open(u, aim)
    {
      DeliveredIfClear(c, past + visit, u, aim, run, t);
    }
  }

  // Undisturbed, the client ends the fetch in progress, if any, and the next one calls the unit's
  // callback with the visit, whatever the callbacks answer.
  lemma NextFetchCallsUnit(c: Config, past: seq<Action>, s: State, request: Request, v: Visit, addr: string,
                           number: int, ok: bool, obj: nat, unit: nat, answers: Answers)
    returns (visit: seq<Action>, u: State, fetch: seq<Action>, t: State, aim: Aim)
    requires Run(c, Init(c), past) == Some(s) && c.admit(request) == Some(v)
    requires !v.kind.HttpPublic? && (ok || !v.kind.Ldap?) && LiveUnit(s.client, v.named, obj, unit)
    requires ClearFor(s, v.named.group)
    ensures Run(c, Init(c), past + visit) == Some(u) && VisitAims(s, u, v.named, obj, unit, aim)
    ensures Runs(c, u, fetch, t, |u.sent|, if s.client.poll.Dispatching? then 2 else 1)
    ensures t.client.poll.Idle? && Delivered(t.client, aim)
  {
    visit, u, aim := VisitIsAimed(c, past, s, request, v, addr, number, ok, obj, unit);
    NewVisit(c, past, s, u, v.named, obj, unit, aim);
    fetch, t := FetchCanDeliver(c, past + visit, u, aim, answers);
  }

  // A unit's URL, with what is not printed by the unit: where the server is, what a target appends
  // to an HTTP URL, and the handshake before an RMI path.
  datatype Link =
    | HttpLink(base: string, suffix: string)
    | RmiLink(addr: string, before: string)
    | LdapLink(addr: string)

  // The request is what following the printed URL sends.
  ghost predicate Follows(link: Link, c: Captures, request: Request) {
    match link
    case HttpLink(base, suffix) =>
      request.HttpTarget? && VisitUrl(base, c) + suffix == base + request.target
    case RmiLink(addr, before) =>
      exists path: string :: request == RmiPath(before + path) && RmiUrl(addr, c) == "rmi://" + addr + path + "/"
    case LdapLink(addr) =>
      request.LdapBase? && LdapUrl(addr, c) == "ldap://" + addr + "/" + request.base
  }

  function KindOf(link: Link): Kind {
    match link case HttpLink(_, _) => HttpInternal case RmiLink(_, _) => Rmi case LdapLink(_) => Ldap
  }

  // What is appended to an HTTP URL does not make the request a bad one by itself.
  predicate Usable(link: Link) {
    link.HttpLink? ==> RequestPath(link.suffix).Some?
  }

  // With equal tokens on both sides, the listeners admit all three URLs of a unit, and no unusable
  // ones.
  lemma UnitUrlsAdmitted(digest: Digest, secret: string, bootMs: nat, link: Link, group: string, unit: string)
    returns (request: Request)
    requires IsPart(group) && IsPart(unit) && PlainPart(group) && PlainPart(unit)
    ensures Follows(link, UnitCaptures(digest, secret, group, unit), request)
    ensures ServerConfig(digest, secret, bootMs).admit(request)
            == if Usable(link) then Some(Visit(KindOf(link), UnitCaptures(digest, secret, group, unit))) else None
  {
    match link
    case HttpLink(base, suffix) =>
      var target := VisitUrlAdmitted(digest, secret, base, group, unit, suffix);
      request := HttpTarget(target);
    case RmiLink(addr, before) =>
      var path := RmiUrlAdmitted(digest, secret, addr, group, unit, before);
      request := RmiPath(before + path);
    case LdapLink(addr) =>
      var dn := LdapUrlAdmitted(digest, secret, addr, group, unit);
      request := LdapBase(dn);
  }

  // From a printed URL to the callback: with equal tokens on both sides, whoever follows a live
  // unit's HTTP, RMI or LDAP URL is certain to have the unit's callback called with its ids if and
  // only if its group is clear and no ack for it is underway, and may have it called if and only if
  // its group is open.
  lemma UrlReachesItsUnit(digest: Digest, secret: string, bootMs: nat, link: Link,
                          past: seq<Action>, s: State, addr: string, number: int, ok: bool, obj: nat, unit: nat)
    returns (request: Request, visit: seq<Action>, u: State, aim: Aim)
    requires var c := ServerConfig(digest, secret, bootMs); Run(c, Init(c), past) == Some(s)
    requires obj < |s.client.objs| && unit < |s.client.units|
    requires var ids := UnitCaptures(digest, secret, s.client.objs[obj].id, s.client.units[unit].id);
             && LiveUnit(s.client, ids, obj, unit)
             && IsPart(ids.group) && IsPart(ids.unit) && PlainPart(ids.group) && PlainPart(ids.unit)
    requires Usable(link) && (link.LdapLink? ==> ok)
    ensures var c := ServerConfig(digest, secret, bootMs);
            var ids := UnitCaptures(digest, secret, s.client.objs[obj].id, s.client.units[unit].id);
            && Follows(link, ids, request)
            && Run(c, Init(c), past + visit) == Some(u) && VisitAims(s, u, ids, obj, unit, aim)
            && (CertainFor(s, ids.group) <==> Inevitable(c, u, aim))
            && (OpenFor(s, ids.group) <==> Possible(c, u, aim))
  {
    var c := ServerConfig(digest, secret, bootMs);
    var ids := UnitCaptures(digest, secret, s.client.objs[obj].id, s.client.units[unit].id);
    request := UnitUrlsAdmitted(digest, secret, bootMs, link, ids.group, ids.unit);
    var v := Visit(KindOf(link), ids);
    visit, u, aim := AdmittedVisitReachesItsUnit(c, past, s, request, v, addr, number, ok, obj, unit);
  }

  // A lost visit -------------------------------------------------------------------------------

  // A client with one group of one unit, whose callback is set or not.
  function OneUnit(c: Config, g: string, u: string, callback: bool, toDelete: seq<string>,
                   given: set<string>): Client {
    var group := UnitGroup(g, map[u := 0], false, c.bootMs + EXPIRE_MS);
    Client([group], [Unit(u, callback)], map[g := 0], toDelete, Idle, None, [], given)
  }

  lemma SetUp(c: Config, g: string, u: string) returns (run: seq<Action>, t: State)
    ensures Run(c, Init(c), run) == Some(t)
    ensures t == Init(c).(client := OneUnit(c, g, u, false, [], {}))
  {
    var s := Init(c);
    var a1, a2, a3 := Use(NewGroup(g)), Use(NewUnit(u)), Use(Join(0, 0));
    var s1 := Next(c, s, a1).value;
    RunStep(c, s, [], s, a1);
    var s2 := Next(c, s1, a2).value;
    RunStep(c, s, [] + [a1], s1, a2);
    t := Next(c, s2, a3).value;
    RunStep(c, s, [] + [a1] + [a2], s2, a3);
    run := [] + [a1] + [a2] + [a3];
  }

  // One undisturbed exchange with the server while a single event is pending.
  lemma OneExchange(c: Config, past: seq<Action>, s: State, g: string)
    returns (run: seq<Action>, t: State)
    requires Run(c, Init(c), past) == Some(s) && s.client.poll.Idle? && s.client.toDelete == []
    requires s.server.pending.Keys == {g} && s.server.handlers == map[]
    ensures Run(c, Init(c), past + run) == Some(t)
    ensures t.client == s.client.(poll := Dispatching([s.server.pending[g]], Loading))
    ensures t.server.pending == s.server.pending && t.server.handlers == map[]
  {
    var r1, s1, h := OneRequest(c, past, s, g);
    var r2, s2 := OneAnswer(c, past + r1, s1, g, h);
    run, t := r1 + r2, s2;
    assert past + run == past + r1 + r2;
  }

  lemma OneRequest(c: Config, past: seq<Action>, s: State, g: string)
    returns (run: seq<Action>, t: State, h: nat)
    requires Run(c, Init(c), past) == Some(s) && s.client.poll.Idle? && s.client.toDelete == []
    requires s.server.pending.Keys == {g} && s.server.handlers == map[]
    ensures Run(c, Init(c), past + run) == Some(t)
    ensures t.client == s.client.(poll := Waiting(|s.sent|)) && t.server.pending == s.server.pending
    ensures t.server.handlers == map[h := Ranging(|s.sent|, {g}, {}, [], |s.server.ops|)]
  {
    h := s.server.started;
    var a1, a2, a3 := Fetch(Send), Serve(Begin(|s.sent|)), Serve(BeginRange(h));
    var s1 := Next(c, s, a1).value;
    RunStep(c, Init(c), past, s, a1);
    var s2 := Next(c, s1, a2).value;
    RunStep(c, Init(c), past + [a1], s1, a2);
    t := Next(c, s2, a3).value;
    RunStep(c, Init(c), past + [a1] + [a2], s2, a3);
    run := [a1, a2, a3];
    assert past + run == past + [a1] + [a2] + [a3];
  }

  lemma OneAnswer(c: Config, past: seq<Action>, s: State, g: string, h: nat)
    returns (run: seq<Action>, t: State)
    requires Run(c, Init(c), past) == Some(s) && s.client.poll.Waiting? && s.client.toDelete == []
    requires s.server.pending.Keys == {g}
    requires exists since: nat :: s.server.handlers == map[h := Ranging(s.client.poll.call, {g}, {}, [], since)]
    ensures Run(c, Init(c), past + run) == Some(t)
    ensures t.client == s.client.(poll := Dispatching([s.server.pending[g]], Loading))
    ensures t.server.pending == s.server.pending && t.server.handlers == map[]
  {
    var a1, a2, a3 := Serve(RangeVisit(h, g)), Serve(Respond(h)), Fetch(Receive(h));
    var s1 := Next(c, s, a1).value;
    RunStep(c, Init(c), past, s, a1);
    var s2 := Next(c, s1, a2).value;
    assert s2.server.handlers[h].out == [s.server.pending[g]];
    RunStep(c, Init(c), past + [a1], s1, a2);
    t := Next(c, s2, a3).value;
    RunStep(c, Init(c), past + [a1] + [a2], s2, a3);
    run := [a1, a2, a3];
    assert past + run == past + [a1] + [a2] + [a3];
  }

  // Dispatching an event to a unit whose callback is not set: the event is acknowledged
  // although nothing was called.
  lemma OneDispatch(c: Config, past: seq<Action>, s: State, g: string, u: string, item: Item)
    returns (run: seq<Action>, t: State)
    requires Run(c, Init(c), past) == Some(s)
    requires s.client == OneUnit(c, g, u, false, [], {}).(poll := Dispatching([item], Loading))
    requires item.event.groupId == g && item.event.unitId == u
    ensures Run(c, Init(c), past + run) == Some(t)
    ensures t == s.(client := OneUnit(c, g, u, true, [g], {g}))
  {
    var r1, s1 := NothingCalled(c, past, s, g, u, item);
    var r2, s2 := AckAndSet(c, past + r1, s1, g, u, item);
    run, t := r1 + r2, s2;
    assert past + run == past + r1 + r2;
  }

  lemma NothingCalled(c: Config, past: seq<Action>, s: State, g: string, u: string, item: Item)
    returns (run: seq<Action>, t: State)
    requires Run(c, Init(c), past) == Some(s)
    requires s.client == OneUnit(c, g, u, false, [], {}).(poll := Dispatching([item], Loading))
    requires item.event.groupId == g && item.event.unitId == u
    ensures Run(c, Init(c), past + run) == Some(t)
    ensures t == s.(client := OneUnit(c, g, u, false, [], {g}).(poll := Dispatching([item], Acking)))
  {
    var a1, a2, a3 := Work(LoadGroup), Work(LoadUnit), Work(RunCallback(true));
    var s1 := Next(c, s, a1).value;
    RunStep(c, Init(c), past, s, a1);
    var s2 := Next(c, s1, a2).value;
    RunStep(c, Init(c), past + [a1], s1, a2);
    t := Next(c, s2, a3).value;
    RunStep(c, Init(c), past + [a1] + [a2], s2, a3);
    run := [a1, a2, a3];
    assert past + run == past + [a1] + [a2] + [a3];
  }

  lemma AckAndSet(c: Config, past: seq<Action>, s: State, g: string, u: string, item: Item)
    returns (run: seq<Action>, t: State)
    requires Run(c, Init(c), past) == Some(s) && item.event.groupId == g
    requires s.client == OneUnit(c, g, u, false, [], {g}).(poll := Dispatching([item], Acking))
    ensures Run(c, Init(c), past + run) == Some(t)
    ensures t == s.(client := OneUnit(c, g, u, true, [g], {g}))
  {
    var a1, a2, a3 := Work(QueueAck), Work(EndFetch), Use(OnVisit(0, true));
    var s1 := Next(c, s, a1).value;
    RunStep(c, Init(c), past, s, a1);
    var s2 := Next(c, s1, a2).value;
    RunStep(c, Init(c), past + [a1], s1, a2);
    t := Next(c, s2, a3).value;
    RunStep(c, Init(c), past + [a1] + [a2], s2, a3);
    run := [a1, a2, a3];
    assert past + run == past + [a1] + [a2] + [a3];
  }

  // Delivery is not certain even for a live group with a callback: a unit is visited before
  // its callback is set, the event is fetched and its ack queued, the callback is set, and the
  // unit is visited again. The state reached is between fetches, the second visit is pending
  // for the live unit, and no continuation ever hands that visit to a callback.
  lemma VisitCanBeLost(c: Config, request: Request, v: Visit)
    returns (past: seq<Action>, s: State)
    requires c.admit(request) == Some(v) && v.kind.HttpInternal?
    ensures Run(c, Init(c), past) == Some(s) && s.client.poll.Idle?
    ensures var g, u := v.named.group, v.named.unit;
            && s.client == OneUnit(c, g, u, true, [g], {g})
            && g in s.server.pending && s.server.pending[g].event.unitId == u
            && forall run, t, i :: Run(c, s, run) == Some(t) && |s.client.calls| <= i < |t.client.calls| ==>
                 t.client.calls[i].item.visit != s.server.pending[g].visit
  {
    var g, u := v.named.group, v.named.unit;
    var r1, s1 := SetUp(c, g, u);
    var r2, s2 := VisitBecomesPending(c, r1, s1, request, v, "", 1, true);
    var p2 := r1 + r2;
    var r3, s3 := OneExchange(c, p2, s2, g);
    var r4, s4 := OneDispatch(c, p2 + r3, s3, g, u, s2.server.pending[g]);
    var r5, s5 := VisitBecomesPending(c, p2 + r3 + r4, s4, request, v, "", 2, true);
    past, s := p2 + r3 + r4 + r5, s5;
    assert g in [g];
    forall run, t, i | Run(c, s, run) == Some(t) && |s.client.calls| <= i < |t.client.calls|
      ensures t.client.calls[i].item.visit != s.server.pending[g].visit
    {
      DoomedIsLost(c, past, s, g, Anyone, run, t, i);
    }
  }

  // Nor need the ack be queued yet: a visit that arrives while an older event of its group is
  // about to be dispatched is lost as well, although the callback is set and the queue is empty.
  lemma VisitCanBeLostInDispatch(c: Config, request: Request, v: Visit)
    returns (past: seq<Action>, s: State)
    requires c.admit(request) == Some(v) && v.kind.HttpInternal?
    ensures Run(c, Init(c), past) == Some(s) && s.client.poll.Dispatching? && s.client.toDelete == []
    ensures s.server.handlers == map[] && LiveUnit(s.client, v.named, 0, 0)
    ensures var g := v.named.group;
            && g in s.server.pending && s.server.pending[g].event.unitId == v.named.unit
            && forall run, t, i :: Run(c, s, run) == Some(t) && |s.client.calls| <= i < |t.client.calls| ==>
                 t.client.calls[i].item.visit != s.server.pending[g].visit
  {
    var g, u := v.named.group, v.named.unit;
    var r1, s1 := SetUp(c, g, u);
    var s0 := Next(c, s1, Use(OnVisit(0, true))).value;
    RunStep(c, Init(c), r1, s1, Use(OnVisit(0, true)));
    var p1 := r1 + [Use(OnVisit(0, true))];
    var r2, s2 := VisitBecomesPending(c, p1, s0, request, v, "", 1, true);
    var r3, s3 := OneExchange(c, p1 + r2, s2, g);
    var r4, s4 := VisitBecomesPending(c, p1 + r2 + r3, s3, request, v, "", 2, true);
    past, s := p1 + r2 + r3 + r4, s4;
    RunFromStart(c, p1 + r2 + r3, s3);
    assert Put(s3.client.poll.items[0]) in s3.server.ops;
    assert s.client.poll.items[0].Group() == g && s.client.poll.items[0].visit != s.server.pending[g].visit;
    forall run, t, i | Run(c, s, run) == Some(t) && |s.client.calls| <= i < |t.client.calls|
      ensures t.client.calls[i].item.visit != s.server.pending[g].visit
    {
      DoomedIsLost(c, past, s, g, Anyone, run, t, i);
    }
  }

  // Nor is a clear group enough, if an ack for it is underway: a visit to a unit whose callback is
  // set, between two fetches and with an empty queue, can be lost to a handler of an older request
  // that was given up and sent again.
  lemma VisitCanBeLostToLateAck(c: Config, request: Request, v: Visit)
    returns (past: seq<Action>, s: State, aim: Aim)
    requires c.admit(request) == Some(v) && v.kind.HttpInternal?
    ensures Run(c, Init(c), past) == Some(s) && s.client.poll.Idle? && s.client.toDelete == []
    ensures LiveUnit(s.client, v.named, 0, 0) && Aims(s, aim) && Clear(s, aim)
    ensures aim.G() == v.named.group && aim.item.event.unitId == v.named.unit
    ensures Possible(c, s, aim) && !Inevitable(c, s, aim)
  {
    var g, u := v.named.group, v.named.unit;
    var r1, s1 := SetUp(c, g, u);
    var r2, s2 := VisitBecomesPending(c, r1, s1, request, v, "", 1, true);
    var r3, s3 := OneExchange(c, r1 + r2, s2, g);
    var r4, s4 := OneDispatch(c, r1 + r2 + r3, s3, g, u, s2.server.pending[g]);
    var p4 := r1 + r2 + r3 + r4;
    var r5, s5 := StallOne(c, p4, s4, g);
    var r6, s6 := AckOther(c, p4 + r5, s5, g);
    var r7, s7 := VisitBecomesPending(c, p4 + r5 + r6, s6, request, v, "", 2, true);
    past, s := p4 + r5 + r6 + r7, s7;
    aim := Aim(s.server.pending[g], 0, 0, |s.sent|, |s.client.calls|);
    assert !NoAckUnderway(s.server, g);
    CertainIff(c, past, s, aim);
    PossibleIff(c, past, s, aim);
  }

  // The client sends its acks and gives up, while the handler of its request stalls.
  lemma StallOne(c: Config, past: seq<Action>, s: State, g: string) returns (run: seq<Action>, t: State)
    requires Run(c, Init(c), past) == Some(s) && s.client.poll.Idle? && s.client.toDelete == [g]
    requires s.server.handlers == map[]
    ensures Run(c, Init(c), past + run) == Some(t) && t.client == s.client && t.server.pending == s.server.pending
    ensures exists h, call :: t.server.handlers == map[h := Deleting(call, [g])] && h < t.server.started
  {
    var n, h := |s.sent|, s.server.started;
    var a1, a2, a3 := Fetch(Send), Serve(Begin(n)), Fetch(Fail);
    var s1 := Next(c, s, a1).value;
    RunStep(c, Init(c), past, s, a1);
    var s2 := Next(c, s1, a2).value;
    RunStep(c, Init(c), past + [a1], s1, a2);
    t := Next(c, s2, a3).value;
    RunStep(c, Init(c), past + [a1] + [a2], s2, a3);
    run := [a1, a2, a3];
    assert past + run == past + [a1] + [a2] + [a3];
    assert t.server.handlers == map[h := Deleting(n, [g])];
  }

  // It sends them again, and is answered that nothing is pending.
  lemma AckOther(c: Config, past: seq<Action>, s: State, g: string) returns (run: seq<Action>, t: State)
    requires Run(c, Init(c), past) == Some(s) && s.client.poll.Idle? && s.client.toDelete == [g]
    requires s.server.pending.Keys == {g}
    requires exists h, call :: s.server.handlers == map[h := Deleting(call, [g])] && h < s.server.started
    ensures Run(c, Init(c), past + run) == Some(t)
    ensures t.client == s.client.(toDelete := [])
    ensures exists h :: h in t.server.handlers && IsAck(t.server.handlers[h], g)
  {
    var late, call :| s.server.handlers == map[late := Deleting(call, [g])] && late < s.server.started;
    assert IsAck(s.server.handlers[late], g);
    var n, h := |s.sent|, s.server.started;
    var a1, a2, a3, a4 := Fetch(Send), Serve(Begin(n)), Serve(DeleteAck(h)), Serve(BeginRange(h));
    var s1 := Next(c, s, a1).value;
    RunStep(c, Init(c), past, s, a1);
    var s2 := Next(c, s1, a2).value;
    RunStep(c, Init(c), past + [a1], s1, a2);
    var s3 := Next(c, s2, a3).value;
    RunStep(c, Init(c), past + [a1] + [a2], s2, a3);
    var s4 := Next(c, s3, a4).value;
    RunStep(c, Init(c), past + [a1] + [a2] + [a3], s3, a4);
    var p4 := past + [a1] + [a2] + [a3] + [a4];
    var r, t1 := EmptyAnswer(c, p4, s4, h);
    t := t1;
    run := [a1, a2, a3, a4] + r;
    assert past + run == p4 + r;
    assert IsAck(t.server.handlers[late], g);
  }

  predicate IsAck(h: Handler, g: string) {
    h.Deleting? && h.acks == [g]
  }

  lemma EmptyAnswer(c: Config, past: seq<Action>, s: State, h: nat) returns (run: seq<Action>, t: State)
    requires Run(c, Init(c), past) == Some(s) && s.client.poll.Waiting?
    requires h in s.server.handlers && s.server.handlers[h].Ranging? && s.server.handlers[h].todo == {}
    requires s.server.handlers[h].out == [] && s.server.handlers[h].call == s.client.poll.call
    ensures Run(c, Init(c), past + run) == Some(t)
    ensures t.client == s.client.(toDelete := [], poll := Idle)
    ensures t.server.handlers == s.server.handlers - {h}
  {
    var a1, a2, a3 := Serve(Respond(h)), Fetch(Receive(h)), Work(EndFetch);
    var s1 := Next(c, s, a1).value;
    RunStep(c, Init(c), past, s, a1);
    var s2 := Next(c, s1, a2).value;
    RunStep(c, Init(c), past + [a1], s1, a2);
    t := Next(c, s2, a3).value;
    RunStep(c, Init(c), past + [a1] + [a2], s2, a3);
    run := [a1, a2, a3];
    assert past + run == past + [a1] + [a2] + [a3];
  }
}
