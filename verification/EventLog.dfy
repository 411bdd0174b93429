// The event log (db.go): one bucket of events for each type, ordered by the bytes of their keys,
// a decimal counter for each, and paging by cursor.
module EventLog {
  import opened Events
  import opened Bytes
  import opened Decimal

  // Keys -----------------------------------------------------------------------------------------

  const KEYS: nat := 0x1_0000_0000_0000_0000

  function Itob(v: nat): (r: seq<byte>)
    ensures |r| == 8
  {
    BigEndian(v, 8)
  }

  lemma EightBytes()
    ensures Bound(8) == KEYS
  {
    assert Bound(2) == 256 * 256;
    assert Bound(4) == 256 * 256 * Bound(2);
    assert Bound(6) == 256 * 256 * Bound(4);
    assert Bound(8) == 256 * 256 * Bound(6);
  }

  // The keys' byte order is the order of the ids, and different ids have different keys.
  lemma KeyOrder(v: nat, w: nat)
    requires v < KEYS && w < KEYS
    ensures Less(Itob(v), Itob(w)) <==> v < w
    ensures Itob(v) == Itob(w) <==> v == w
  {
    EightBytes();
    ValueOfBigEndian(v, 8);
    ValueOfBigEndian(w, 8);
    LessIsNumeric(Itob(v), Itob(w));
  }

  // Buckets --------------------------------------------------------------------------------------

  datatype Entry = Entry(key: seq<byte>, value: Event)

  // A bucket keeps its entries in the byte order of their keys.
  datatype Bucket = Bucket(entries: seq<Entry>, sequence: nat)

  // The position of the first entry at or after a key.
  function LowerBound(entries: seq<Entry>, key: seq<byte>): (i: nat)
    ensures i <= |entries|
    ensures forall j :: 0 <= j < i ==> Less(entries[j].key, key)
    ensures i < |entries| ==> !Less(entries[i].key, key)
  {
    if entries == [] || !Less(entries[0].key, key) then 0
    else 1 + LowerBound(entries[1..], key)
  }

  function PutEntry(entries: seq<Entry>, key: seq<byte>, value: Event): seq<Entry> {
    var i := LowerBound(entries, key);
    if i < |entries| && entries[i].key == key then entries[i := Entry(key, value)]
    else entries[..i] + [Entry(key, value)] + entries[i..]
  }

  // A bucket that holds the events 1..n under their own keys.
  predicate Numbered(b: Bucket) {
    && |b.entries| == b.sequence <= MAX_INT
    && forall i :: 0 <= i < |b.entries| ==>
         b.entries[i].key == Itob(i + 1) && b.entries[i].value.id == i + 1
  }

  lemma NumberedLowerBound(b: Bucket, id: nat)
    requires Numbered(b) && 1 <= id < KEYS
    ensures LowerBound(b.entries, Itob(id)) == if id <= |b.entries| then id - 1 else |b.entries|
  {
    var i := LowerBound(b.entries, Itob(id));
    if i < |b.entries| { KeyOrder(i + 1, id); }
    if i > 0 { KeyOrder(i, id); assert Less(b.entries[i - 1].key, Itob(id)); }
  }

  function EventsOf(entries: seq<Entry>): (r: seq<Event>)
    ensures |r| == |entries| && forall i :: 0 <= i < |r| ==> r[i] == entries[i].value
  {
    seq(|entries|, i requires 0 <= i < |entries| => entries[i].value)
  }

  // The log as a plain sequence of events: pages ------------------------------------------------------

  predicate WellNumbered(log: seq<Event>) {
    forall i :: 0 <= i < |log| ==> log[i].id == i + 1
  }

  // Where a page begins, and how many events there are from there on. Paging by "Next" starts
  // below lastID, or at the newest event, and moves to older ones; any other action starts
  // above lastID, or at the oldest event.
  function First(log: seq<Event>, lastID: nat, next: bool): int {
    if next then (if lastID == 0 then |log| else Least(lastID - 1, |log|)) - 1
    else Least(lastID, |log|)
  }

  function Ahead(log: seq<Event>, lastID: nat, next: bool): nat {
    if next then First(log, lastID, next) + 1 else |log| - First(log, lastID, next)
  }

  function At(first: int, next: bool, i: int): int {
    if next then first - i else first + i
  }

  // The first `count` events from there, in the order of the walk.
  predicate IsPage(log: seq<Event>, lastID: nat, count: nat, next: bool, page: seq<Event>) {
    && |page| == Least(count, Ahead(log, lastID, next))
    && Holds(log, First(log, lastID, next), next, page)
  }

  predicate Holds(log: seq<Event>, first: int, next: bool, page: seq<Event>) {
    forall i :: 0 <= i < |page| ==> 0 <= At(first, next, i) < |log| && page[i] == log[At(first, next, i)]
  }

  // The database ----------------------------------------------------------------------------------------

  function BucketName(t: EventType): string {
    match t case HttpVisit => "http" case RmiVisit => "rmi"
  }

  function CounterKey(t: EventType): string {
    "count_" + BucketName(t)
  }

  datatype Fault = NoFault | BeginFails | MarshalFails | PutFails | CommitFails

  // Any other action pages towards newer events.
  const ACTION_NEXT := "Next"
  const ACTION_PREV := "Prev"

  class DB {
    var logs: map<string, Bucket>
    var meta: map<string, string>

    // Every bucket is numbered without gaps and its counter reads back as its size.
    ghost predicate Valid()
      reads this
    {
      && logs.Keys == {"http", "rmi"}
      && forall t: EventType ::
           Numbered(logs[BucketName(t)]) && Counter(t) == Some(|logs[BucketName(t)].entries|)
    }

    // getInt: a missing counter is zero.
    function Counter(t: EventType): Option<int>
      reads this
    {
      if CounterKey(t) in meta then Atoi(meta[CounterKey(t)]) else Some(0)
    }

    ghost function Contents(t: EventType): seq<Event>
      requires Valid()
      reads this
    {
      EventsOf(logs[BucketName(t)].entries)
    }

    lemma ContentsAreNumbered(t: EventType)
      requires Valid()
      ensures WellNumbered(Contents(t))
    {
      assert Numbered(logs[BucketName(t)]);
    }

    constructor ()
      ensures Valid() && forall t: EventType :: Contents(t) == []
    {
      logs := map["http" := Bucket([], 0), "rmi" := Bucket([], 0)];
      meta := map[];
    }

    // storeEvent numbers the event even when the transaction is rolled back, and leaves the
    // database as it was then. The fault is what goes wrong inside bbolt or the encoder.
    method StoreEvent(event: Event, fault: Fault) returns (stored: Event, ok: bool)
      requires Valid() && |Contents(event.eventType)| < MAX_INT
      modifies this
      ensures Valid()
      ensures ok <==> fault.NoFault?
      ensures stored == if fault.BeginFails? then event else event.(id := |old(Contents(event.eventType))| + 1)
      ensures Contents(event.eventType) ==
              old(Contents(event.eventType)) + if ok then [stored] else []
      ensures forall t: EventType :: t != event.eventType ==> Contents(t) == old(Contents(t))
    {
      if fault.BeginFails? { return event, false; }
      var name := BucketName(event.eventType);
      var bucket := logs[name];
      var sequence := bucket.sequence + 1;
      var key := Itob(sequence);
      stored := event.(id := sequence);
      if fault.MarshalFails? || fault.PutFails? { return stored, false; }
      var entries := PutEntry(bucket.entries, key, stored);
      var n := Counter(event.eventType);
      if n.None? || fault.CommitFails? { return stored, false; }
      PutAppends(bucket, stored);
      AtoiInvertsItoa(n.value + 1);
      logs := logs[name := Bucket(entries, sequence)];
      meta := meta[CounterKey(event.eventType) := Itoa(n.value + 1)];
      ok := true;
    }

    // listEvent moves a cursor over the bucket: from the newest or oldest entry, or from the
    // neighbour of lastID.
    method ListEvent(lastID: nat, count: nat, t: EventType, action: string)
      returns (page: seq<Event>, total: Option<int>)
      requires Valid() && lastID < KEYS
      ensures IsPage(Contents(t), lastID, count, action == "Next", page)
      ensures total == Some(|Contents(t)|)
    {
      var entries := logs[BucketName(t)].entries;
      var seek: Option<nat> := None;
      if lastID != 0 {
        NumberedLowerBound(logs[BucketName(t)], lastID);
        seek := Some(LowerBound(entries, Itob(lastID)));
      }
      page := Scan(entries, seek, lastID, count, action == ACTION_NEXT);
      total := Counter(t);
    }
  }

  // The cursor loop, after the cursor was placed: on no entry (headNode), or where Seek put it.
  method Scan(entries: seq<Entry>, seek: Option<nat>, ghost lastID: nat, count: nat, next: bool)
    returns (page: seq<Event>)
    requires seek == if lastID == 0 then None else Some(Least(lastID - 1, |entries|))
    ensures IsPage(EventsOf(entries), lastID, count, next, page)
  {
    ghost var log := EventsOf(entries);
    ghost var first := First(log, lastID, next);
    var pos: int, headNode := 0, true;
    if seek.Some? { pos, headNode := seek.value, false; }
    page := [];
    var left: nat := count;
    while left != 0
      invariant left + |page| == count
      invariant headNode ==> seek.None? && page == []
      invariant Holds(log, first, next, page)
      invariant !headNode ==>
                  pos == At(first, next, |page| - 1) || (!next && first == |log| && pos >= |log|)
    {
      pos := if headNode then (if next then |entries| - 1 else 0) else (if next then pos - 1 else pos + 1);
      headNode := false;
      if pos < 0 || pos >= |entries| { break; }
      HoldsAppend(log, first, next, page, pos);
      page := page + [entries[pos].value];
      left := left - 1;
    }
  }

  lemma HoldsAppend(log: seq<Event>, first: int, next: bool, page: seq<Event>, pos: nat)
    requires Holds(log, first, next, page) && pos == At(first, next, |page|) && pos < |log|
    ensures Holds(log, first, next, page + [log[pos]])
  {
  }

  // The next number's key comes after every key there is.
  lemma PutAppends(b: Bucket, e: Event)
    requires Numbered(b) && b.sequence < MAX_INT && e.id == b.sequence + 1
    ensures PutEntry(b.entries, Itob(b.sequence + 1), e) == b.entries + [Entry(Itob(b.sequence + 1), e)]
    ensures Numbered(Bucket(b.entries + [Entry(Itob(b.sequence + 1), e)], b.sequence + 1))
    ensures EventsOf(b.entries + [Entry(Itob(b.sequence + 1), e)]) == EventsOf(b.entries) + [e]
  {
    NumberedLowerBound(b, b.sequence + 1);
  }

  // What a page is, in ids. "Next" goes from the newest event, or from the one below lastID, down; any
  // other action from the oldest, or from the one above lastID, up. No page leaves out what it could hold.
  lemma PageDown(log: seq<Event>, lastID: nat, count: nat, page: seq<Event>)
    requires WellNumbered(log)
    ensures IsPage(log, lastID, count, true, page) <==>
            var top := if lastID == 0 || lastID > |log| then |log| else lastID - 1;
            |page| == (if count <= top then count else top)
            && forall i :: 0 <= i < |page| ==> page[i].id == top - i && page[i] == log[top - i - 1]
  {
  }

  lemma PageUp(log: seq<Event>, lastID: nat, count: nat, page: seq<Event>)
    requires WellNumbered(log)
    ensures IsPage(log, lastID, count, false, page) <==>
            var left := if lastID >= |log| then 0 else |log| - lastID;
            |page| == (if count <= left then count else left)
            && forall i :: 0 <= i < |page| ==> page[i].id == lastID + i + 1 && page[i] == log[lastID + i]
  {
  }

  // Where the two kinds of events and their counters are kept.
  lemma KeptUnder(db: DB)
    requires db.Valid()
    ensures db.logs.Keys == {"http", "rmi"}
    ensures db.Contents(HttpVisit) == EventsOf(db.logs["http"].entries)
    ensures db.Contents(RmiVisit) == EventsOf(db.logs["rmi"].entries)
    ensures db.Counter(HttpVisit) == if "count_http" in db.meta then Atoi(db.meta["count_http"]) else Some(0)
    ensures db.Counter(RmiVisit) == if "count_rmi" in db.meta then Atoi(db.meta["count_rmi"]) else Some(0)
  {
    assert CounterKey(HttpVisit) == "count_http" && CounterKey(RmiVisit) == "count_rmi";
  }

  // Walks ---------------------------------------------------------------------------------------------

  // The states of a log from one page to the next: it only grows, and stays numbered.
  ghost predicate Growing(log: nat -> seq<Event>) {
    && (forall i: nat :: WellNumbered(log(i)))
    && (forall i: nat, j: nat :: i <= j ==> log(i) <= log(j))
  }

  // Pages of positive sizes, each asked for with the last ID of the one before.
  ghost predicate IsWalk(log: nat -> seq<Event>, count: nat -> nat, next: bool, page: nat -> seq<Event>) {
    && (forall i: nat :: count(i) > 0)
    && IsPage(log(0), 0, count(0), next, page(0))
    && forall i: nat :: i > 0 ==> IsPage(log(i), LastID(page(i - 1)), count(i), next, page(i))
  }

  function LastID(page: seq<Event>): nat {
    if page == [] || page[|page| - 1].id < 0 then 0 else page[|page| - 1].id
  }

  function Concat(page: nat -> seq<Event>, n: nat): seq<Event> {
    if n == 0 then [] else Concat(page, n - 1) + page(n - 1)
  }

  // The collected events are the newest of a log, newest first, and lastID is that of the last.
  predicate Newest(log: seq<Event>, got: seq<Event>, lastID: nat) {
    && |got| <= |log| && Holds(log, |log| - 1, true, got)
    && lastID == if got == [] then 0 else |log| - |got| + 1
  }

  // A further page of the grown log continues them, and is empty exactly when there are no more.
  lemma CollectOlder(log: seq<Event>, grown: seq<Event>, got: seq<Event>, lastID: nat, count: nat, page: seq<Event>)
    requires WellNumbered(log) && log <= grown && (got == [] ==> log == grown) && count > 0
    requires Newest(log, got, lastID) && IsPage(grown, lastID, count, true, page)
    ensures page == [] <==> |got| == |log|
    ensures page != [] ==> Newest(log, got + page, LastID(page))
  {
    assert First(grown, lastID, true) == |log| - 1 - |got|;
    assert forall i :: 0 <= i < |page| ==> page[i] == grown[|log| - 1 - |got| - i];
  }

  lemma CollectNewer(log: seq<Event>, grown: seq<Event>, got: seq<Event>, count: nat, page: seq<Event>)
    requires WellNumbered(grown) && log <= grown && count > 0
    requires Holds(log, 0, false, got) && |got| <= |log|
    requires IsPage(grown, |got|, count, false, page)
    ensures |got + page| <= |grown| && Holds(grown, 0, false, got + page)
    ensures page == [] <==> |got| == |grown|
    ensures page != [] ==> LastID(page) == |got + page|
  {
    assert First(grown, |got|, false) == |got|;
    assert forall i :: 0 <= i < |page| ==> page[i] == grown[|got| + i];
    assert forall i :: 0 <= i < |got| ==> got[i] == grown[i];
  }

  function LastBefore(page: nat -> seq<Event>, n: nat): nat {
    if n == 0 then 0 else LastID(page(n - 1))
  }

  lemma {:induction false} OlderCollected(log: nat -> seq<Event>, count: nat -> nat, page: nat -> seq<Event>, n: nat)
    requires Growing(log) && IsWalk(log, count, true, page)
    requires forall i: nat :: i < n ==> page(i) != []
    ensures |Concat(page, n)| >= n && Newest(log(0), Concat(page, n), LastBefore(page, n))
  {
    if n == 0 {
    } else {
      OlderCollected(log, count, page, n - 1);
      OlderPage(log, count, page, n - 1);
      assert page(n - 1) != [];
      assert Concat(page, n) == Concat(page, n - 1) + page(n - 1);
    }
  }

  lemma OlderPage(log: nat -> seq<Event>, count: nat -> nat, page: nat -> seq<Event>, n: nat)
    requires Growing(log) && IsWalk(log, count, true, page)
    requires |Concat(page, n)| >= n && Newest(log(0), Concat(page, n), LastBefore(page, n))
    ensures page(n) == [] <==> |Concat(page, n)| == |log(0)|
    ensures page(n) != [] ==> Newest(log(0), Concat(page, n) + page(n), LastID(page(n)))
  {
    assert log(0) <= log(n);
    CollectOlder(log(0), log(n), Concat(page, n), LastBefore(page, n), count(n), page(n));
  }

  // Walking to older events from the start while the log grows. After n nonempty pages the
  // collected events are the newest of those that were there at the first page, newest first
  // and each once; and the next page is empty exactly when they are all of them.
  lemma WalkToOlder(log: nat -> seq<Event>, count: nat -> nat, page: nat -> seq<Event>, n: nat)
    requires Growing(log) && IsWalk(log, count, true, page)
    requires forall i: nat :: i < n ==> page(i) != []
    ensures |Concat(page, n)| >= n && Newest(log(0), Concat(page, n), LastBefore(page, n))
    ensures page(n) == [] <==> |Concat(page, n)| == |log(0)|
  {
    OlderCollected(log, count, page, n);
    OlderPage(log, count, page, n);
  }

  // The collected events are the beginning of a log, and the last ID is their number.
  predicate Oldest(log: seq<Event>, got: seq<Event>, lastID: nat) {
    got <= log && lastID == |got|
  }

  lemma NewerPage(log: nat -> seq<Event>, count: nat -> nat, page: nat -> seq<Event>, n: nat)
    requires Growing(log) && IsWalk(log, count, false, page)
    requires Oldest(log(n), Concat(page, n), LastBefore(page, n))
    ensures page(n) == [] <==> Concat(page, n) == log(n)
    ensures page(n) != [] ==> Oldest(log(n), Concat(page, n) + page(n), LastID(page(n)))
  {
    var got := Concat(page, n);
    HoldsIsPrefix(log(n), got);
    CollectNewer(log(n), log(n), got, count(n), page(n));
    HoldsIsPrefix(log(n), got + page(n));
  }

  lemma HoldsIsPrefix(log: seq<Event>, got: seq<Event>)
    ensures |got| <= |log| && Holds(log, 0, false, got) <==> got <= log
  {
  }

  lemma OldestGrows(log: nat -> seq<Event>, n: nat, got: seq<Event>, lastID: nat)
    requires Growing(log) && Oldest(log(n), got, lastID)
    ensures Oldest(log(n + 1), got, lastID)
  {
    assert log(n) <= log(n + 1);
  }

  lemma {:induction false} NewerCollected(log: nat -> seq<Event>, count: nat -> nat, page: nat -> seq<Event>, n: nat)
    requires Growing(log) && IsWalk(log, count, false, page)
    requires forall i: nat :: i < n ==> page(i) != []
    ensures |Concat(page, n)| >= n && Oldest(log(n), Concat(page, n), LastBefore(page, n))
  {
    if n == 0 {
    } else {
      NewerCollected(log, count, page, n - 1);
      NewerPage(log, count, page, n - 1);
      assert page(n - 1) != [];
      OldestGrows(log, n - 1, Concat(page, n), LastBefore(page, n));
    }
  }

  // Walking to newer events. After n nonempty pages the collected events are the beginning of
  // the log, in order, and the next page is empty exactly when they are all of the log as it
  // then is; so a log that does not change is returned whole.
  lemma WalkToNewer(log: nat -> seq<Event>, count: nat -> nat, page: nat -> seq<Event>, n: nat)
    requires Growing(log) && IsWalk(log, count, false, page)
    requires forall i: nat :: i < n ==> page(i) != []
    ensures var got := Concat(page, n);
            n <= |got| && got <= log(n)
            && (n > 0 ==> LastID(page(n - 1)) == |got|)
            && (page(n) == [] <==> got == log(n))
  {
    NewerCollected(log, count, page, n);
    NewerPage(log, count, page, n);
  }

  // Walks over a database ---------------------------------------------------------------------------

  function Total(between: seq<seq<(Event, Fault)>>): nat {
    if between == [] then 0 else |between[0]| + Total(between[1..])
  }

  // There is room for so many more events of each type.
  ghost predicate HasRoom(db: DB, n: nat)
    requires db.Valid()
    reads db
  {
    forall t: EventType :: |db.Contents(t)| + n < MAX_INT
  }

  // Every log goes on from what it was.
  twostate predicate Extended(db: DB, n: nat)
    requires db.Valid() && old(db.Valid())
    reads db
  {
    forall t: EventType :: old(db.Contents(t)) <= db.Contents(t) && |db.Contents(t)| <= |old(db.Contents(t))| + n
  }

  // Some events are stored, or fail to be.
  method StoreAll(db: DB, events: seq<(Event, Fault)>)
    requires db.Valid() && HasRoom(db, |events|)
    modifies db
    ensures db.Valid() && Extended(db, |events|)
  {
    var i := 0;
    while i < |events|
      invariant 0 <= i <= |events| && db.Valid() && Extended(db, i)
    {
      assert forall t: EventType :: |db.Contents(t)| < MAX_INT;
      var stored, ok := db.StoreEvent(events[i].0, events[i].1);
      i := i + 1;
    }
  }

  // What is stored between two pages.
  method StoreNext(db: DB, t: EventType, between: seq<seq<(Event, Fault)>>, i: nat, ghost log: seq<Event>)
    requires db.Valid() && i < |between| && HasRoom(db, Total(between[i..])) && log <= db.Contents(t)
    modifies db
    ensures db.Valid() && HasRoom(db, Total(between[i + 1..]))
    ensures log <= db.Contents(t) && old(db.Contents(t)) <= db.Contents(t)
  {
    assert between[i..][1..] == between[i + 1..];
    StoreAll(db, between[i]);
  }

  // One more page of the walk; the database is only read.
  method NextOlder(db: DB, t: EventType, lastID: nat, count: nat, ghost log: seq<Event>, ghost got: seq<Event>)
    returns (page: seq<Event>)
    requires db.Valid() && log <= db.Contents(t) && (got == [] ==> log == db.Contents(t)) && count > 0
    requires Newest(log, got, lastID)
    ensures page == [] <==> |got| == |log|
    ensures page != [] ==> Newest(log, got + page, LastID(page)) && |got + page| > |got|
  {
    db.ContentsAreNumbered(t);
    assert |db.Contents(t)| <= MAX_INT;
    var total;
    page, total := db.ListEvent(lastID, count, t, ACTION_NEXT);
    CollectOlder(log, db.Contents(t), got, lastID, count, page);
  }

  // Pages of any positive sizes towards older events, with other events stored in between. What has
  // been collected are the newest of the events there were at the start, newest first and each
  // once; the walk is over exactly when they are all of them, and each page before that adds some.
  method WalkOlder(db: DB, t: EventType, counts: seq<nat>, between: seq<seq<(Event, Fault)>>)
    returns (got: seq<Event>, over: bool)
    requires db.Valid() && |between| == |counts| && HasRoom(db, Total(between))
    requires forall i :: 0 <= i < |counts| ==> counts[i] > 0
    modifies db
    ensures db.Valid()
    ensures |got| <= |old(db.Contents(t))| && Holds(old(db.Contents(t)), |old(db.Contents(t))| - 1, true, got)
    ensures over ==> |got| == |old(db.Contents(t))|
    ensures !over ==> |got| >= |counts|
  {
    ghost var log := db.Contents(t);
    got, over := [], false;
    var lastID: nat, i := 0, 0;
    while i < |counts|
      invariant 0 <= i <= |counts| && db.Valid() && HasRoom(db, Total(between[i..]))
      invariant Newest(log, got, lastID) && log <= db.Contents(t) && |got| >= i
      invariant got == [] ==> log == db.Contents(t)
    {
      var page := NextOlder(db, t, lastID, counts[i], log, got);
      if page == [] { return got, true; }
      got := got + page;
      lastID := LastID(page);
      StoreNext(db, t, between, i, log);
      i := i + 1;
    }
  }

  method NextNewer(db: DB, t: EventType, lastID: nat, count: nat, ghost got: seq<Event>) returns (page: seq<Event>)
    requires db.Valid() && count > 0 && Oldest(db.Contents(t), got, lastID)
    ensures page == [] <==> got == db.Contents(t)
    ensures page != [] ==> Oldest(db.Contents(t), got + page, LastID(page))
  {
    ghost var log := db.Contents(t);
    db.ContentsAreNumbered(t);
    assert |log| <= MAX_INT;
    var total;
    page, total := db.ListEvent(lastID, count, t, ACTION_PREV);
    HoldsIsPrefix(log, got);
    CollectNewer(log, log, got, count, page);
    HoldsIsPrefix(log, got + page);
  }

  // The same towards newer events. What has been collected is the beginning of the log; the walk is
  // over exactly when it is all of the log there then is.
  method WalkNewer(db: DB, t: EventType, counts: seq<nat>, between: seq<seq<(Event, Fault)>>)
    returns (got: seq<Event>, over: bool)
    requires db.Valid() && |between| == |counts| && HasRoom(db, Total(between))
    requires forall i :: 0 <= i < |counts| ==> counts[i] > 0
    modifies db
    ensures db.Valid() && old(db.Contents(t)) <= db.Contents(t)
    ensures got <= db.Contents(t)
    ensures over ==> got == db.Contents(t)
    ensures !over ==> |got| >= |counts|
  {
    got, over := [], false;
    var lastID: nat, i := 0, 0;
    while i < |counts|
      invariant 0 <= i <= |counts| && db.Valid() && HasRoom(db, Total(between[i..]))
      invariant Oldest(db.Contents(t), got, lastID) && |got| >= i
      invariant old(db.Contents(t)) <= db.Contents(t)
    {
      var page := NextNewer(db, t, lastID, counts[i], got);
      if page == [] { return got, true; }
      got, lastID := got + page, LastID(page);
      StoreNext(db, t, between, i, db.Contents(t));
      i := i + 1;
    }
  }
}
