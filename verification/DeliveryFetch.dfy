// What the steps of one fetch add up to when nothing comes in between. From every reachable
// state between two fetches the client can complete another one, and then server and client have
// changed as ReverseServer.Server.HandleFetchEvent and ReverseClient.Client.RemoteFetchEvent say.
module DeliveryFetch {
  import opened Events
  import opened Delivery
  import opened DeliveryOnce
  import opened DeliveryServing
  import opened DeliveryWire
  import ReverseClient
  import ReverseServer

  // The client's part -------------------------------------------------------------------------------

  // What each unit's callback would return on an event.
  type Answers = (nat, Event) -> bool

  // ReverseClient.VerdictOf, on the state machine's client.
  function VerdictOn(k: Client, answers: Answers, e: Event): ReverseClient.Verdict
    requires Stored(k)
  {
    if e.groupId !in k.groups then ReverseClient.NoGroup
    else
      var g := k.objs[k.groups[e.groupId]];
      if e.unitId !in g.units then ReverseClient.NoUnit
      else if !k.units[g.units[e.unitId]].callback then ReverseClient.NoCallback
      else if answers(g.units[e.unitId], e) then ReverseClient.Called else ReverseClient.Failed
  }

  // The first item of the batch is dealt with: its group queued and, if it won, flagged and gone.
  predicate ItemDone(k: Client, winner: Option<nat>, k': Client)
    requires k.poll.Dispatching? && k.poll.items != []
  {
    var g := k.poll.items[0].Group();
    && k'.poll == Dispatching(k.poll.items[1..], Loading) && k'.toDelete == k.toDelete + [g]
    && k'.units == k.units && k.calls <= k'.calls
    && match winner
       case None => k'.groups == k.groups && k'.objs == k.objs
       case Some(o) => k'.groups == k.groups - {g} && o < |k.objs| && k'.objs == k.objs[o := k.objs[o].(called := true)]
  }

  lemma FromAcking(c: Config, s: State, n: nat) returns (run: seq<Action>, t: State)
    requires AtStage(s.client, Acking) && s.client.poll.items != []
    ensures Runs(c, s, run, t, n, 0) && t == s.(client := t.client) && ItemDone(s.client, None, t.client)
  {
    t := Next(c, s, Work(QueueAck)).value;
    RunOne(c, s, Work(QueueAck), t, n);
    run := [Work(QueueAck)];
  }

  lemma FromSucceeded(c: Config, s: State, obj: nat, n: nat) returns (run: seq<Action>, t: State)
    requires AtStage(s.client, Succeeded(obj)) && s.client.poll.items != [] && obj < |s.client.objs|
    ensures Runs(c, s, run, t, n, 0) && t == s.(client := t.client) && ItemDone(s.client, Some(obj), t.client)
  {
    var s1 := Next(c, s, Work(SetCalled)).value;
    var s2 := Next(c, s1, Work(DropGroup)).value;
    run, t := FromAcking(c, s2, n);
    RunCons(c, s1, Work(DropGroup), s2, run, t, n, 0);
    run := [Work(DropGroup)] + run;
    RunCons(c, s, Work(SetCalled), s1, run, t, n, 0);
    run := [Work(SetCalled)] + run;
  }

  lemma FromUnit(c: Config, s: State, answers: Answers, obj: nat, unit: nat, n: nat)
    returns (run: seq<Action>, t: State)
    requires AtStage(s.client, HasUnit(obj, unit)) && s.client.poll.items != []
    requires obj < |s.client.objs| && unit < |s.client.units|
    ensures Runs(c, s, run, t, n, 0) && t == s.(client := t.client)
    ensures var won := s.client.units[unit].callback && answers(unit, s.client.poll.items[0].event);
            ItemDone(s.client, if won then Some(obj) else None, t.client)
  {
    var a := Work(RunCallback(answers(unit, s.client.poll.items[0].event)));
    var s1 := Next(c, s, a).value;
    if s.client.units[unit].callback && answers(unit, s.client.poll.items[0].event) {
      run, t := FromSucceeded(c, s1, obj, n);
    } else {
      run, t := FromAcking(c, s1, n);
    }
    RunCons(c, s, a, s1, run, t, n, 0);
    run := [a] + run;
  }

  // The group the dispatcher has loaded holds a unit whose callback returns nil.
  predicate Wins(k: Client, answers: Answers, obj: nat, e: Event)
    requires Stored(k) && obj < |k.objs|
  {
    var units := k.objs[obj].units;
    e.unitId in units && k.units[units[e.unitId]].callback && answers(units[e.unitId], e)
  }

  lemma FromGroup(c: Config, s: State, answers: Answers, obj: nat, n: nat) returns (run: seq<Action>, t: State)
    requires AtStage(s.client, HasGroup(obj)) && s.client.poll.items != []
    requires Stored(s.client) && obj < |s.client.objs|
    ensures Runs(c, s, run, t, n, 0) && t == s.(client := t.client)
    ensures var won := Wins(s.client, answers, obj, s.client.poll.items[0].event);
            ItemDone(s.client, if won then Some(obj) else None, t.client)
  {
    var s1 := Next(c, s, Work(LoadUnit)).value;
    if s1.client.poll.stage.HasUnit? {
      run, t := FromUnit(c, s1, answers, obj, s1.client.poll.stage.unit, n);
    } else {
      run, t := FromAcking(c, s1, n);
    }
    RunCons(c, s, Work(LoadUnit), s1, run, t, n, 0);
    run := [Work(LoadUnit)] + run;
  }

  function Winner(k: Client, answers: Answers, e: Event): Option<nat>
    requires Stored(k)
  {
    if VerdictOn(k, answers, e).Called? then Some(k.groups[e.groupId]) else None
  }

  lemma DispatchItem(c: Config, s: State, answers: Answers, n: nat) returns (run: seq<Action>, t: State)
    requires AtStage(s.client, Loading) && s.client.poll.items != [] && Stored(s.client)
    ensures Runs(c, s, run, t, n, 0) && t == s.(client := t.client)
    ensures ItemDone(s.client, Winner(s.client, answers, s.client.poll.items[0].event), t.client)
  {
    var s1 := Next(c, s, Work(LoadGroup)).value;
    if s1.client.poll.stage.HasGroup? {
      run, t := FromGroup(c, s1, answers, s1.client.poll.stage.obj, n);
    } else {
      run, t := FromAcking(c, s1, n);
    }
    RunCons(c, s, Work(LoadGroup), s1, run, t, n, 0);
    run := [Work(LoadGroup)] + run;
  }

  // The groups of which some item calls a callback that returns nil.
  function CalledBy(k: Client, answers: Answers, items: seq<Item>): set<string>
    requires Stored(k)
  {
    set i | 0 <= i < |items| && VerdictOn(k, answers, items[i].event).Called? :: items[i].Group()
  }

  function GroupSeq(items: seq<Item>): seq<string> {
    seq(|items|, i requires 0 <= i < |items| => items[i].Group())
  }

  // The client after a batch: it does not matter in what order the items came.
  predicate BatchDone(k: Client, answers: Answers, items: seq<Item>, k': Client)
    requires Stored(k)
  {
    var called := CalledBy(k, answers, items);
    && k'.groups == k.groups - called && k'.units == k.units && |k'.objs| == |k.objs|
    && (forall o :: 0 <= o < |k.objs| ==>
          k'.objs[o] == if o in Holders(k, called) then k.objs[o].(called := true) else k.objs[o])
    && k'.toDelete == k.toDelete + GroupSeq(items)
  }

  function Holders(k: Client, keys: set<string>): set<nat> {
    set g | g in keys && g in k.groups :: k.groups[g]
  }

  lemma ItemKeepsStored(k: Client, answers: Answers, k': Client)
    requires k.poll.Dispatching? && k.poll.items != [] && Stored(k)
    requires ItemDone(k, Winner(k, answers, k.poll.items[0].event), k')
    ensures Stored(k')
    ensures forall e: Event :: VerdictOn(k', answers, e).Called? <==>
              VerdictOn(k, answers, e).Called?
              && !(VerdictOn(k, answers, k.poll.items[0].event).Called? && e.groupId == k.poll.items[0].Group())
  {
  }

  lemma CalledFirst(k: Client, answers: Answers, k': Client)
    requires k.poll.Dispatching? && k.poll.items != [] && Stored(k) && Stored(k')
    requires ItemDone(k, Winner(k, answers, k.poll.items[0].event), k')
    ensures var items := k.poll.items;
            var first := if VerdictOn(k, answers, items[0].event).Called? then {items[0].Group()} else {};
            CalledBy(k, answers, items) == first + CalledBy(k', answers, items[1..])
  {
    ItemKeepsStored(k, answers, k');
    var items := k.poll.items;
    forall g | g in CalledBy(k, answers, items)
      ensures g in CalledBy(k', answers, items[1..])
              || (VerdictOn(k, answers, items[0].event).Called? && g == items[0].Group())
    {
      var i :| 0 <= i < |items| && VerdictOn(k, answers, items[i].event).Called? && items[i].Group() == g;
      assert i > 0 ==> items[1..][i - 1] == items[i];
    }
    forall g | g in CalledBy(k', answers, items[1..]) ensures g in CalledBy(k, answers, items) {
      CalledLater(k, answers, k', items, g);
    }
  }

  lemma CalledLater(k: Client, answers: Answers, k': Client, items: seq<Item>, g: string)
    requires Stored(k) && Stored(k') && items != [] && g in CalledBy(k', answers, items[1..])
    requires forall e: Event :: VerdictOn(k', answers, e).Called? ==> VerdictOn(k, answers, e).Called?
    ensures g in CalledBy(k, answers, items)
  {
    var rest := items[1..];
    var i :| 0 <= i < |rest| && VerdictOn(k', answers, rest[i].event).Called? && rest[i].Group() == g;
    assert items[i + 1] == rest[i];
  }

  lemma BatchFirst(k: Client, answers: Answers, k1: Client, k2: Client)
    requires k.poll.Dispatching? && k.poll.items != [] && Stored(k) && Stored(k1)
    requires ItemDone(k, Winner(k, answers, k.poll.items[0].event), k1)
    requires BatchDone(k1, answers, k.poll.items[1..], k2)
    ensures BatchDone(k, answers, k.poll.items, k2)
  {
    CalledFirst(k, answers, k1);
    QueuedFirst(k.poll.items);
    HoldersAfter(k, answers, k1);
    FlaggedFirst(k, answers, k1, k2);
  }

  lemma QueuedFirst(items: seq<Item>)
    requires items != []
    ensures GroupSeq(items) == [items[0].Group()] + GroupSeq(items[1..])
  {
  }

  // The objects of the batch: those flagged by the first item and those flagged by the others.
  lemma FlaggedFirst(k: Client, answers: Answers, k1: Client, k2: Client)
    requires k.poll.Dispatching? && k.poll.items != [] && Stored(k) && Stored(k1)
    requires ItemDone(k, Winner(k, answers, k.poll.items[0].event), k1)
    requires BatchDone(k1, answers, k.poll.items[1..], k2)
    ensures var holders := Holders(k, CalledBy(k, answers, k.poll.items));
            && |k2.objs| == |k.objs|
            && forall o :: 0 <= o < |k.objs| ==>
                 k2.objs[o] == if o in holders then k.objs[o].(called := true) else k.objs[o]
  {
    HoldersAfter(k, answers, k1);
  }

  lemma HoldersAfter(k: Client, answers: Answers, k1: Client)
    requires k.poll.Dispatching? && k.poll.items != [] && Stored(k) && Stored(k1)
    requires ItemDone(k, Winner(k, answers, k.poll.items[0].event), k1)
    ensures var items := k.poll.items;
            var w := Winner(k, answers, items[0].event);
            Holders(k, CalledBy(k, answers, items))
            == (if w.Some? then {w.value} else {}) + Holders(k1, CalledBy(k1, answers, items[1..]))
  {
    CalledFirst(k, answers, k1);
  }

  lemma {:induction false} DispatchBatch(c: Config, s: State, answers: Answers, n: nat)
    returns (run: seq<Action>, t: State)
    requires AtStage(s.client, Loading) && Stored(s.client)
    ensures Runs(c, s, run, t, n, 1) && t == s.(client := t.client) && t.client.poll.Idle?
    ensures BatchDone(s.client, answers, s.client.poll.items, t.client)
    decreases |s.client.poll.items|
  {
    var items := s.client.poll.items;
    if items == [] {
      t := Next(c, s, Work(EndFetch)).value;
      RunOne(c, s, Work(EndFetch), t, n);
      run := [Work(EndFetch)];
    } else {
      var r1, s1 := DispatchItem(c, s, answers, n);
      ItemKeepsStored(s.client, answers, s1.client);
      run, t := DispatchBatch(c, s1, answers, n);
      RunsJoin(c, s, r1, s1, run, t, n, 0, 1);
      run := r1 + run;
      BatchFirst(s.client, answers, s1.client, t.client);
    }
  }

  // Main results --------------------------------------------------------------------------------------

  function EventsOf(items: seq<Item>): seq<Event> {
    seq(|items|, i requires 0 <= i < |items| => items[i].event)
  }

  function EventMap(pending: map<string, Item>): map<string, Event> {
    map g | g in pending :: pending[g].event
  }

  lemma CoversLists(out: seq<Item>, pending: map<string, Item>)
    requires Covers(out, pending, pending.Keys)
    ensures ReverseServer.Lists(EventsOf(out), EventMap(pending))
  {
    assert EventMap(pending).Keys == pending.Keys;
    assert |EventMap(pending).Keys| == |EventMap(pending)|;
  }

  lemma SameBatch(k: Client, answers: Answers, items: seq<Item>, k': Client, k1: Client)
    requires Stored(k) && BatchDone(k, answers, items, k')
    requires k1.groups == k.groups && k1.objs == k.objs && k1.units == k.units && k1.toDelete == k.toDelete
    ensures Stored(k1) && BatchDone(k1, answers, items, k')
  {
    forall e: Event ensures VerdictOn(k1, answers, e) == VerdictOn(k, answers, e) {}
    assert CalledBy(k1, answers, items) == CalledBy(k, answers, items);
    assert Holders(k1, CalledBy(k, answers, items)) == Holders(k, CalledBy(k, answers, items));
  }

  lemma ReceiveAndDispatch(c: Config, s: State, answers: Answers, h: nat, n: nat)
    returns (run: seq<Action>, t: State)
    requires s.client.poll.Waiting? && h in s.server.handlers && Stored(s.client)
    requires s.server.handlers[h].Responded? && s.server.handlers[h].call == s.client.poll.call
    ensures Runs(c, s, run, t, n, 1) && t.client.poll.Idle?
    ensures BatchDone(s.client.(toDelete := []), answers, s.server.handlers[h].out, t.client)
    ensures t.server.pending == s.server.pending && t.producers == s.producers
  {
    var s1 := Next(c, s, Fetch(Receive(h))).value;
    run, t := DispatchBatch(c, s1, answers, n);
    RunCons(c, s, Fetch(Receive(h)), s1, run, t, n, 1);
    run := [Fetch(Receive(h))] + run;
    SameBatch(s1.client, answers, s1.client.poll.items, t.client, s.client.(toDelete := []));
  }

  lemma SendAndServe(c: Config, s: State)
    returns (run: seq<Action>, t: State, h: nat)
    requires s.client.poll.Idle?
    requires Keyed(s.server)
    ensures Runs(c, s, run, t, |s.sent|, 0) && t.client == s.client.(poll := Waiting(|s.sent|))
    ensures t.server.pending == s.server.pending - Names(s.client.toDelete) && t.producers == s.producers
    ensures h in t.server.handlers && t.server.handlers[h].Responded? && t.server.handlers[h].call == |s.sent|
    ensures Covers(t.server.handlers[h].out, t.server.pending, t.server.pending.Keys)
  {
    var n := |s.sent|;
    var s1 := Next(c, s, Fetch(Send)).value;
    run, t, h := ServeFetch(c, s1, n);
    RunCons(c, s, Fetch(Send), s1, run, t, n, 0);
    run := [Fetch(Send)] + run;
  }

  lemma FetchFrom(c: Config, s: State, answers: Answers)
    returns (run: seq<Action>, t: State, items: seq<Item>)
    requires s.client.poll.Idle? && Stored(s.client)
    requires Keyed(s.server)
    ensures Runs(c, s, run, t, |s.sent|, 1) && t.client.poll.Idle?
    ensures t.server.pending == s.server.pending - Names(s.client.toDelete)
    ensures Covers(items, t.server.pending, t.server.pending.Keys) && t.producers == s.producers
    ensures BatchDone(s.client.(toDelete := []), answers, items, t.client)
  {
    var r1, s1, h := SendAndServe(c, s);
    items := s1.server.handlers[h].out;
    run, t := ReceiveAndDispatch(c, s1, answers, h, |s.sent|);
    RunsJoin(c, s, r1, s1, run, t, |s.sent|, 0, 1);
    run := r1 + run;
    SameBatch(s1.client.(toDelete := []), answers, items, t.client, s.client.(toDelete := []));
  }

  // From every reachable state between two fetches the client can complete a fetch, whatever its
  // callbacks answer. The server has then deleted what was acknowledged and returned all the
  // rest, each event once; the client has called the callbacks, dropped and flagged the groups
  // called, and queued every group it received.
  lemma FetchCompletes(c: Config, past: seq<Action>, s: State, answers: Answers)
    returns (run: seq<Action>, t: State, items: seq<Item>)
    requires Run(c, Init(c), past) == Some(s) && s.client.poll.Idle?
    ensures Runs(c, s, run, t, |s.sent|, 1) && t.client.poll.Idle?
    ensures t.server.pending == s.server.pending - Names(s.client.toDelete)
    ensures ReverseServer.Lists(EventsOf(items), EventMap(t.server.pending)) && Groups(items) == t.server.pending.Keys
    ensures Stored(s.client) && BatchDone(s.client.(toDelete := []), answers, items, t.client)
    ensures t.producers == s.producers
  {
    RunFromStart(c, past, s);
    run, t, items := FetchFrom(c, s, answers);
    CoversLists(items, t.server.pending);
  }
}
