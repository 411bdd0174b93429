// The event delivery protocol between the server (http_server.go, rmi_server.go,
// ldap_server.go) and one polling client (client.go, group.go), as a state machine whose
// actions are the atomic operations of the two programs.
module Delivery {
  import opened Events
  import opened Visits

  // What the listeners admit (Visits.Admit for the server's hash and secret), and the clock
  // at which the server started.
  datatype Config = Config(admit: Request -> Option<Visit>, bootMs: nat)

  function ServerConfig(digest: Digest, secret: string, bootMs: nat): Config {
    Config(r => Admit(digest, secret, r), bootMs)
  }

  // An admitted visit with the request that made it.
  datatype Admission = Admission(request: Request, visit: Visit)

  // An event together with the index of the visit that caused it.
  datatype Item = Item(event: Event, visit: nat) {
    function Group(): string { event.groupId }
  }

  // A listener goroutine between admitting a visit and storing its event.
  datatype Producer = Producer(kind: Kind, item: Item, recorded: bool)

  // Server -------------------------------------------------------------------------------

  // A goroutine running HandleFetchEvent for the client's fetch number `call`.
  datatype Handler =
    | Deleting(call: nat, acks: seq<string>)
    | Ranging(call: nat, todo: set<string>, seen: set<string>, out: seq<Item>, since: nat)
    | Responded(call: nat, out: seq<Item>)

  // One operation on internalGroupEventMap.
  datatype MapOp = Put(item: Item) | Ack(group: string) | Evict(group: string)

  datatype Server = Server(
    pending: map<string, Item>,        // internalGroupEventMap
    ops: seq<MapOp>,                   // history: every operation on it, in order
    handlers: map<nat, Handler>,
    started: nat,                      // how many handlers were ever started
    evicting: Option<string>)          // the key gcExpiredEventMap has decided to delete

  // Client -------------------------------------------------------------------------------

  datatype UnitGroup = UnitGroup(id: string, units: map<string, nat>, called: bool, expireAt: int)

  datatype Unit = Unit(id: string, callback: bool)

  // Where localCallUnitCallback stands with the first undispatched event.
  datatype Stage =
    | Loading
    | HasGroup(obj: nat)
    | HasUnit(obj: nat, unit: nat)
    | Succeeded(obj: nat)
    | Flagged(obj: nat)
    | Acking

  // Where the fetchEvent loop stands.
  datatype Poll =
    | Idle
    | Waiting(call: nat)
    | Dispatching(items: seq<Item>, stage: Stage)

  // A run of a unit's callback, and whether it returned nil.
  datatype Call = Call(obj: nat, unit: nat, item: Item, ok: bool)

  // Groups and units are objects, named by the order of their creation.
  datatype Client = Client(
    objs: seq<UnitGroup>,
    units: seq<Unit>,
    groups: map<string, nat>,          // groupUnitCallbackMap
    toDelete: seq<string>,             // groupToDelete
    poll: Poll,
    expiring: Option<string>,          // the key gcExpiredGroup has decided to delete
    calls: seq<Call>,                  // history: every callback run, in order
    given: set<string>)                // history: groups whose event was dispatched

  datatype State = State(
    nowMs: nat,
    visits: seq<Admission>,            // history: the admitted visits
    producers: map<nat, Producer>,     // by visit
    server: Server,
    sent: seq<seq<string>>,            // the acks sent with each fetch
    client: Client)

  function Init(c: Config): State {
    State(c.bootMs, [], map[],
          Server(map[], [], map[], 0, None), [],
          Client([], [], map[], [], Idle, None, [], {}))
  }

  // A listener goroutine: a request arrives, its event is stored in the database under a
  // number, and it is put in the pending map.
  datatype Listening =
    | Arrive(request: Request, addr: string)
    | Record(visit: nat, number: int, ok: bool)
    | Publish(visit: nat)

  // A goroutine running HandleFetchEvent, or the server's gc goroutine.
  datatype Serving =
    | Begin(call: nat)
    | DeleteAck(h: nat)
    | BeginRange(h: nat)
    | RangeVisit(h: nat, key: string)
    | RangeSkip(h: nat, key: string)
    | Respond(h: nat)
    | EvictSee(key: string)
    | EvictDelete

  // remoteFetchEvent's exchange with the server.
  datatype Fetching = Send | Fail | Receive(h: nat)

  // remoteFetchEvent's loop over the received events.
  datatype Working =
    | LoadGroup
    | LoadUnit
    | RunCallback(ok: bool)
    | SetCalled
    | DropGroup
    | QueueAck
    | EndFetch

  // The client's users, and its gc goroutine.
  datatype Using =
    | NewGroup(id: string)
    | NewUnit(id: string)
    | Join(obj: nat, unit: nat)
    | OnVisit(unit: nat, callback: bool)
    | ExpireSee(key: string)
    | ExpireDelete

  datatype Action =
    | Tick(ms: nat)
    | Listen(listening: Listening)
    | Serve(serving: Serving)
    | Fetch(fetching: Fetching)
    | Work(working: Working)
    | Use(using: Using)

  // Visits -------------------------------------------------------------------------------

  function NewItem(s: State, request: Request, v: Visit, addr: string): Item {
    Item(NewEvent(request, v, s.nowMs, addr), |s.visits|)
  }

  function Admitted(s: State, request: Request, v: Visit, addr: string): State {
    var p := Producer(v.kind, NewItem(s, request, v, addr), false);
    s.(visits := s.visits + [Admission(request, v)], producers := s.producers[|s.visits| := p])
  }

  // storeEvent sets the event's ID. The LDAP handler gives up when it fails; the other two
  // log the error and go on. Public visits are answered without touching the pending map.
  function ListenNext(c: Config, s: State, a: Listening): Option<State> {
    match a
    case Arrive(request, addr) =>
      var v := c.admit(request);
      if v.None? then Some(s) else Some(Admitted(s, request, v.value, addr))
    case Record(visit, number, ok) =>
      if visit !in s.producers || s.producers[visit].recorded then None
      else
        var p := s.producers[visit];
        var item := p.item.(event := p.item.event.(id := number));
        if !ok && p.kind.Ldap? then Some(s.(producers := s.producers - {visit}))
        else Some(s.(producers := s.producers[visit := Producer(p.kind, item, true)]))
    case Publish(visit) =>
      if visit !in s.producers || !s.producers[visit].recorded then None
      else
        var p := s.producers[visit];
        var rest := s.(producers := s.producers - {visit});
        if p.kind.HttpPublic? then Some(rest)
        else Some(rest.(server := PutPending(s.server, p.item)))
  }

  function PutPending(v: Server, item: Item): Server {
    v.(pending := v.pending[item.Group() := item], ops := v.ops + [Put(item)])
  }

  // Server -------------------------------------------------------------------------------

  // gcExpiredEventMap compares the event's millisecond stamp with a clock in seconds.
  predicate Expired(stampMs: int, nowSecond: int) {
    stampMs < nowSecond - 600
  }

  predicate StoredSince(ops: seq<MapOp>, since: nat, key: string) {
    exists i :: since <= i < |ops| && ops[i].Put? && ops[i].item.Group() == key
  }

  // HandleFetchEvent deletes the acknowledged groups one by one and then ranges over the
  // map. A range visits no key twice, and visits every key that stays in the map throughout;
  // `todo` holds the keys it found at its start, and a key may be passed over only if it is
  // gone or has been stored anew meanwhile.
  function ServeNext(v: Server, sent: seq<seq<string>>, nowMs: nat, a: Serving): Option<Server> {
    match a
    case Begin(call) =>
      if call >= |sent| then None
      else Some(v.(handlers := v.handlers[v.started := Deleting(call, sent[call])], started := v.started + 1))
    case DeleteAck(h) =>
      if h !in v.handlers || !v.handlers[h].Deleting? || v.handlers[h].acks == [] then None
      else
        var acks := v.handlers[h].acks;
        Some(v.(pending := v.pending - {acks[0]}, ops := v.ops + [Ack(acks[0])],
                handlers := v.handlers[h := Deleting(v.handlers[h].call, acks[1..])]))
    case BeginRange(h) =>
      if h !in v.handlers || v.handlers[h] != Deleting(v.handlers[h].call, []) then None
      else Some(v.(handlers := v.handlers[h := Ranging(v.handlers[h].call, v.pending.Keys, {}, [], |v.ops|)]))
    case RangeVisit(h, key) =>
      if h !in v.handlers || !v.handlers[h].Ranging? || key in v.handlers[h].seen || key !in v.pending then None
      else
        var r := v.handlers[h];
        Some(v.(handlers := v.handlers[h :=
          Ranging(r.call, r.todo - {key}, r.seen + {key}, r.out + [v.pending[key]], r.since)]))
    case RangeSkip(h, key) =>
      if h !in v.handlers || !v.handlers[h].Ranging? || key !in v.handlers[h].todo
         || (key in v.pending && !StoredSince(v.ops, v.handlers[h].since, key)) then None
      else
        var r := v.handlers[h];
        Some(v.(handlers := v.handlers[h := Ranging(r.call, r.todo - {key}, r.seen, r.out, r.since)]))
    case Respond(h) =>
      if h !in v.handlers || !v.handlers[h].Ranging? || v.handlers[h].todo != {} then None
      else Some(v.(handlers := v.handlers[h := Responded(v.handlers[h].call, v.handlers[h].out)]))
    case EvictSee(key) =>
      if v.evicting.Some? || key !in v.pending || !Expired(v.pending[key].event.timeStampMs, nowMs / 1000) then None
      else Some(v.(evicting := Some(key)))
    case EvictDelete =>
      if v.evicting.None? then None
      else
        var key := v.evicting.value;
        Some(v.(pending := v.pending - {key}, ops := v.ops + [Evict(key)], evicting := None))
  }

  // Client -------------------------------------------------------------------------------

  // localCallUnitCallback on the first event of the batch, and the ack that follows it
  // whatever its outcome.
  function WorkNext(k: Client, a: Working): Option<Client>
    requires k.poll.Dispatching?
  {
    var items, stage := k.poll.items, k.poll.stage;
    if items == [] then
      (if a.EndFetch? then Some(k.(poll := Idle)) else None)
    else
      var e := items[0].event;
      match stage
      case Loading =>
        if !a.LoadGroup? then None
        else
          var next := if e.groupId in k.groups then HasGroup(k.groups[e.groupId]) else Acking;
          Some(k.(poll := Dispatching(items, next), given := k.given + {e.groupId}))
      case HasGroup(obj) =>
        if !a.LoadUnit? || obj >= |k.objs| then None
        else
          var units := k.objs[obj].units;
          var next := if e.unitId in units then HasUnit(obj, units[e.unitId]) else Acking;
          Some(k.(poll := Dispatching(items, next)))
      case HasUnit(obj, unit) =>
        if !a.RunCallback? || unit >= |k.units| then None
        else if !k.units[unit].callback then Some(k.(poll := Dispatching(items, Acking)))
        else
          var next := if a.ok then Succeeded(obj) else Acking;
          Some(k.(poll := Dispatching(items, next), calls := k.calls + [Call(obj, unit, items[0], a.ok)]))
      case Succeeded(obj) =>
        if !a.SetCalled? || obj >= |k.objs| then None
        else
          var g := k.objs[obj].(called := true);
          Some(k.(poll := Dispatching(items, Flagged(obj)), objs := k.objs[obj := g]))
      case Flagged(obj) =>
        if !a.DropGroup? then None
        else Some(k.(poll := Dispatching(items, Acking), groups := k.groups - {e.groupId}))
      case Acking =>
        if !a.QueueAck? then None
        else Some(k.(poll := Dispatching(items[1..], Loading), toDelete := k.toDelete + [e.groupId]))
  }

  // A group lives for 60 seconds.
  const EXPIRE_MS := 60_000

  // The gc reads the clock once for a whole pass; it sees no group expired that is not so now.
  function UseNext(k: Client, nowMs: nat, a: Using): Option<Client> {
    match a
    case NewGroup(id) =>
      var g := UnitGroup(id, map[], false, nowMs + EXPIRE_MS);
      Some(k.(objs := k.objs + [g], groups := k.groups[id := |k.objs|]))
    case NewUnit(id) =>
      Some(k.(units := k.units + [Unit(id, false)]))
    case Join(obj, unit) =>
      if obj >= |k.objs| || unit >= |k.units| then None
      else
        var g := k.objs[obj];
        Some(k.(objs := k.objs[obj := g.(units := g.units[k.units[unit].id := unit])]))
    case OnVisit(unit, callback) =>
      if unit >= |k.units| then None
      else Some(k.(units := k.units[unit := k.units[unit].(callback := callback)]))
    case ExpireSee(key) =>
      if k.expiring.Some? || key !in k.groups || k.groups[key] >= |k.objs|
         || nowMs <= k.objs[k.groups[key]].expireAt then None
      else Some(k.(expiring := Some(key)))
    case ExpireDelete =>
      if k.expiring.None? then None
      else Some(k.(groups := k.groups - {k.expiring.value}, expiring := None))
  }

  // Both ---------------------------------------------------------------------------------

  // remoteFetchEvent: the request carries the queued acks, and the queue is only reset once
  // a response has arrived. A request may reach the server late, twice or never, and its
  // response may be lost.
  function FetchNext(s: State, a: Fetching): Option<State> {
    match a
    case Send =>
      if !s.client.poll.Idle? then None
      else Some(s.(sent := s.sent + [s.client.toDelete], client := s.client.(poll := Waiting(|s.sent|))))
    case Fail =>
      if !s.client.poll.Waiting? then None
      else Some(s.(client := s.client.(poll := Idle)))
    case Receive(h) =>
      if !s.client.poll.Waiting? || h !in s.server.handlers || !s.server.handlers[h].Responded?
         || s.server.handlers[h].call != s.client.poll.call then None
      else
        Some(s.(client := s.client.(poll := Dispatching(s.server.handlers[h].out, Loading), toDelete := []),
                server := s.server.(handlers := s.server.handlers - {h})))
  }

  // One atomic step; None when the action is not enabled.
  function Next(c: Config, s: State, a: Action): Option<State> {
    match a
    case Tick(ms) => Some(s.(nowMs := s.nowMs + ms))
    case Listen(l) => ListenNext(c, s, l)
    case Serve(l) =>
      var v := ServeNext(s.server, s.sent, s.nowMs, l);
      if v.None? then None else Some(s.(server := v.value))
    case Fetch(l) => FetchNext(s, l)
    case Work(l) =>
      if !s.client.poll.Dispatching? then None
      else
        var k := WorkNext(s.client, l);
        if k.None? then None else Some(s.(client := k.value))
    case Use(l) =>
      var k := UseNext(s.client, s.nowMs, l);
      if k.None? then None else Some(s.(client := k.value))
  }

  // A run: the actions taken in order from a state.
  function Run(c: Config, s: State, run: seq<Action>): Option<State>
    decreases |run|
  {
    if run == [] then Some(s)
    else
      var t := Next(c, s, run[0]);
      if t.None? then None else Run(c, t.value, run[1..])
  }
}
