// At most one successful callback per group, and what a nil result of Wait means.
module DeliveryOnce {
  import opened Events
  import opened Delivery
  import opened DeliverySafety

  // Some callback run for this group object returned nil.
  predicate Won(calls: seq<Call>, obj: nat) {
    exists i :: 0 <= i < |calls| && calls[i].ok && calls[i].obj == obj
  }

  // Objects are stored under their own ids.
  predicate Stored(k: Client) {
    && (forall key :: key in k.groups ==>
          k.groups[key] < |k.objs| && k.objs[k.groups[key]].id == key)
    && (forall o, id :: 0 <= o < |k.objs| && id in k.objs[o].units ==>
          k.objs[o].units[id] < |k.units| && k.units[k.objs[o].units[id]].id == id)
  }

  predicate IsGroupOf(k: Client, obj: nat, item: Item) {
    obj < |k.objs| && k.objs[obj].id == item.event.groupId
  }

  predicate IsUnitOf(k: Client, unit: nat, item: Item) {
    unit < |k.units| && k.units[unit].id == item.event.unitId
  }

  // The dispatcher works on the group and the unit its event names.
  predicate StageInv(k: Client) {
    k.poll.Dispatching? && !k.poll.stage.Loading? ==>
      k.poll.items != [] &&
      match k.poll.stage
      case Loading => true
      case HasGroup(obj) => IsGroupOf(k, obj, k.poll.items[0]) && !Won(k.calls, obj)
      case HasUnit(obj, unit) =>
        IsGroupOf(k, obj, k.poll.items[0]) && IsUnitOf(k, unit, k.poll.items[0]) && !Won(k.calls, obj)
      case Succeeded(obj) => IsGroupOf(k, obj, k.poll.items[0]) && Won(k.calls, obj)
      case Flagged(obj) => IsGroupOf(k, obj, k.poll.items[0]) && Won(k.calls, obj)
      case Acking => true
  }

  predicate AtStage(k: Client, stage: Stage) {
    k.poll.Dispatching? && k.poll.stage == stage
  }

  predicate CallsInv(k: Client) {
    && (forall i :: 0 <= i < |k.calls| ==>
          IsGroupOf(k, k.calls[i].obj, k.calls[i].item) && IsUnitOf(k, k.calls[i].unit, k.calls[i].item))
    && (forall i, j :: 0 <= i < j < |k.calls| && k.calls[i].ok && k.calls[j].ok ==>
          k.calls[i].obj != k.calls[j].obj)
  }

  // A group that has won is out of the client's map, or the dispatcher is about to take it out.
  predicate WonInv(k: Client) {
    && (forall key :: key in k.groups && Won(k.calls, k.groups[key]) ==>
          AtStage(k, Succeeded(k.groups[key])) || AtStage(k, Flagged(k.groups[key])))
    && (forall o :: 0 <= o < |k.objs| ==>
          (k.objs[o].called || AtStage(k, Succeeded(o)) <==> Won(k.calls, o)))
  }

  predicate OnceInv(k: Client) {
    Stored(k) && StageInv(k) && CallsInv(k) && WonInv(k)
  }

  lemma WonAfter(calls: seq<Call>, x: Call, obj: nat)
    ensures Won(calls + [x], obj) <==> Won(calls, obj) || (x.ok && x.obj == obj)
  {
    if Won(calls, obj) {
      var i :| 0 <= i < |calls| && calls[i].ok && calls[i].obj == obj;
      assert (calls + [x])[i] == calls[i];
    }
    if x.ok && x.obj == obj {
      assert (calls + [x])[|calls|] == x;
    }
  }

  lemma WonGrows(k: Client, l: Working, k': Client)
    requires k.poll.Dispatching? && StageInv(k) && WorkNext(k, l) == Some(k')
    ensures forall o: nat :: Won(k'.calls, o) <==>
              Won(k.calls, o) || (AtStage(k', Succeeded(o)) && !AtStage(k, Succeeded(o)))
  {
    if k'.calls != k.calls {
      var x := k'.calls[|k.calls|];
      forall o: nat ensures Won(k'.calls, o) <==> Won(k.calls, o) || (x.ok && x.obj == o) {
        WonAfter(k.calls, x, o);
      }
    }
  }

  lemma WorkKeepsStage(k: Client, l: Working, k': Client)
    requires k.poll.Dispatching? && OnceInv(k) && WorkNext(k, l) == Some(k')
    ensures Stored(k') && StageInv(k')
  {
    WonGrows(k, l, k');
  }

  lemma WorkKeepsCalls(k: Client, l: Working, k': Client)
    requires k.poll.Dispatching? && StageInv(k) && CallsInv(k) && WorkNext(k, l) == Some(k')
    ensures CallsInv(k')
  {
  }

  lemma WorkKeepsWon(k: Client, l: Working, k': Client)
    requires k.poll.Dispatching? && Stored(k) && StageInv(k) && WonInv(k) && WorkNext(k, l) == Some(k')
    ensures WonInv(k')
  {
    WonGrows(k, l, k');
  }

  lemma UseKeepsStored(k: Client, nowMs: nat, l: Using, k': Client)
    requires Stored(k) && StageInv(k) && CallsInv(k) && UseNext(k, nowMs, l) == Some(k')
    ensures Stored(k') && StageInv(k') && CallsInv(k')
  {
  }

  lemma UseKeepsWon(k: Client, nowMs: nat, l: Using, k': Client)
    requires StageInv(k) && CallsInv(k) && WonInv(k) && UseNext(k, nowMs, l) == Some(k')
    ensures WonInv(k')
  {
  }

  lemma OnceKept(c: Config, s: State, a: Action, t: State)
    requires OnceInv(s.client) && Next(c, s, a) == Some(t)
    ensures OnceInv(t.client)
  {
    match a
    case Work(l) =>
      WorkKeepsStage(s.client, l, t.client);
      WorkKeepsCalls(s.client, l, t.client);
      WorkKeepsWon(s.client, l, t.client);
    case Use(l) =>
      UseKeepsStored(s.client, s.nowMs, l, t.client);
      UseKeepsWon(s.client, s.nowMs, l, t.client);
    case Fetch(l) => FetchKeepsOnce(s, l, t);
    case _ =>
  }

  lemma FetchKeepsOnce(s: State, l: Fetching, t: State)
    requires OnceInv(s.client) && FetchNext(s, l) == Some(t)
    ensures OnceInv(t.client)
  {
  }

  lemma {:induction false} RunKeepsOnce(c: Config, s: State, run: seq<Action>, t: State)
    requires OnceInv(s.client) && Run(c, s, run) == Some(t)
    ensures OnceInv(t.client)
    decreases |run|
  {
    if run == [] {
    } else {
      var u := Next(c, s, run[0]).value;
      OnceKept(c, s, run[0], u);
      RunKeepsOnce(c, u, run[1..], t);
    }
  }

  // Main results ------------------------------------------------------------------------------

  // In every run each group object has at most one callback run that returned nil, whatever
  // visits, failed callbacks, reused ids, joins and gc passes happen around it.
  lemma AtMostOneSuccess(c: Config, run: seq<Action>, t: State, i: nat, j: nat)
    requires Run(c, Init(c), run) == Some(t)
    requires i < |t.client.calls| && j < |t.client.calls|
    requires t.client.calls[i].ok && t.client.calls[j].ok && t.client.calls[i].obj == t.client.calls[j].obj
    ensures i == j
  {
    RunKeepsOnce(c, Init(c), run, t);
  }

  // What makes Wait return nil (see DeliveryWait): whenever a group's flag is set, a callback of
  // one of the group's units returned nil on an event that names this group and this unit, and the
  // event came from a request that the listeners admitted for exactly these ids.
  lemma WaitHasCause(c: Config, run: seq<Action>, t: State, obj: nat) returns (i: nat, v: nat)
    requires Run(c, Init(c), run) == Some(t)
    requires obj < |t.client.objs| && t.client.objs[obj].called
    ensures i < |t.client.calls| && t.client.calls[i].ok && t.client.calls[i].obj == obj
    ensures v == t.client.calls[i].item.visit && v < |t.visits|
    ensures c.admit(t.visits[v].request) == Some(t.visits[v].visit)
    ensures t.visits[v].visit.named.group == t.client.objs[obj].id
    ensures t.client.calls[i].unit < |t.client.units|
            && t.visits[v].visit.named.unit == t.client.units[t.client.calls[i].unit].id
    ensures !t.visits[v].visit.kind.HttpPublic?
  {
    RunKeepsOnce(c, Init(c), run, t);
    InvInit(c);
    RunKeepsInv(c, Init(c), run, t);
    assert Won(t.client.calls, obj);
    i :| 0 <= i < |t.client.calls| && t.client.calls[i].ok && t.client.calls[i].obj == obj;
    v := t.client.calls[i].item.visit;
    assert IsInternal(c, t.visits, t.client.calls[i].item);
  }

  // callbackCalled is set after every successful callback before the dispatcher goes on, and
  // is never reset.
  lemma CalledIsSetAndStays(c: Config, run: seq<Action>, s: State, more: seq<Action>, t: State, obj: nat)
    requires Run(c, Init(c), run) == Some(s) && Run(c, s, more) == Some(t)
    requires Won(s.client.calls, obj) && !AtStage(s.client, Succeeded(obj))
    ensures obj < |t.client.objs| && t.client.objs[obj].called
    decreases |more|
  {
    RunKeepsOnce(c, Init(c), run, s);
    var i :| 0 <= i < |s.client.calls| && s.client.calls[i].ok && s.client.calls[i].obj == obj;
    assert IsGroupOf(s.client, s.client.calls[i].obj, s.client.calls[i].item);
    CalledStays(c, s, more, t, obj);
  }

  lemma CalledStaysOnce(c: Config, s: State, a: Action, t: State, obj: nat)
    requires obj < |s.client.objs| && s.client.objs[obj].called && Next(c, s, a) == Some(t)
    ensures obj < |t.client.objs| && t.client.objs[obj].called
  {
  }

  lemma {:induction false} CalledStays(c: Config, s: State, run: seq<Action>, t: State, obj: nat)
    requires obj < |s.client.objs| && s.client.objs[obj].called && Run(c, s, run) == Some(t)
    ensures obj < |t.client.objs| && t.client.objs[obj].called
    decreases |run|
  {
    if run == [] {
    } else {
      var u := Next(c, s, run[0]).value;
      CalledStaysOnce(c, s, run[0], u, obj);
      CalledStays(c, u, run[1..], t, obj);
    }
  }
}
