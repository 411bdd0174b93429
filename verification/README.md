# Verified model of the reverse-connection kit

The kit proves that a target made an outgoing request. A *client* creates units and groups of
units and hands out URLs for them; a *server* listens for HTTP, RMI and LDAP requests that follow
such a URL, records each visit, and keeps one pending event per group; the client polls the server,
calls the visited unit's callback, and acknowledges with its next poll. This project models that
protocol, the LDAP connection underneath it, the event log, the framing and sniffing of
connections, and the URLs, and proves what the parts promise together: a valid visit reaches the
right unit, and no group is reported twice.

`dafny verify dfyconfig.toml` checks everything.

## How it is organised

| module | models |
|---|---|
| `Events`, `Paths`, `Targets`, `Visits` | the event record and token; the URL printers, path patterns and routes; HTTP request targets; which requests the three listeners admit |
| `Delivery` | server and client of the delivery protocol as one state machine |
| `DeliverySafety`, `DeliveryOnce`, `DeliveryWire` | what every run of it keeps |
| `DeliveryWait`, `DeliveryExpiry` | what a nil result of `Wait`, and the expiry of a group, mean in a run |
| `DeliveryLoss`, `DeliveryProgress`, `DeliveryQuiet` | which visits are lost, which completed fetches deliver, and what is left when visits stop |
| `DeliveryServing`, `DeliveryFetch`, `DeliveryCertain` | that a fetch can be completed and what it then does; when delivery is certain |
| `EndToEnd` | from a printed URL to a callback, and how a visit gets lost |
| `ReverseServer`, `ReverseClient` | the same operations as the methods of the server's, client's, group's and unit's objects |
| `DeliveryObjects`, `ServerObjects` | the client's and the server's objects against the state machine |
| `Bytes`, `Decimal`, `EventLog` | the log: byte-ordered keys, decimal counters, cursor paging |
| `Streams`, `Packet`, `Sniff` | network connection, put-back bytes and buffered reader; LDAP framing on them; protocol detection |
| `Routes` | dispatch of LDAP requests |
| `Connection`, `ConnectionSafety`, `ConnectionService`, `ConnectionClose`, `ConnectionHang` | one LDAP connection's goroutines, wait group, channels and abandon signals as a state machine |

**The two state machines.** `Delivery.Next` and `Connection.Next` take one atomic operation at a
time; a run is any sequence of enabled actions, so a statement about all runs is one about all
interleavings. Of the delivery protocol, `ListenNext` is http_server.go:31-89 with its two siblings
(rmi_server.go:61-83, ldap_server.go:21-47); `ServeNext` is http_server.go:103-129 and 177-195;
`FetchNext` and `WorkNext` are client.go:177-260; `UseNext` is client.go:77-124 and
group.go:44-46, 62-66. A listener's storing in the log and in the map are separate actions, a
fetch handler deletes its acks one by one and ranges key by key (each key at most once, showing its
mapping at that moment, and passing over only what is gone or was stored anew meanwhile, as the
`sync.Map` of Go 1.22 does), requests may arrive late, twice or never, responses may be lost, and a
callback may succeed or fail. Of the connection, `ReadNext` is ldap/client.go:59-192, `WorkNext` is
ldap/client.go:213-249 with ldap/route.go:140-177 and ldap/message.go:21-23. Histories (admitted
visits, map operations, callback runs, messages accepted and written) are fields that no guard
reads, except that a range remembers where in the history it began.

**The objects.** The classes run each operation whole. `ServerObjects` and `DeliveryObjects` run them on
objects that a state of the machine abstracts, and show that the objects afterwards are abstracted by
the state that the machine's steps lead to: `HandleVisit` is Arrive, Record and Publish (`VisitOnce`),
`HandleFetchEvent` the steps of one handler (`AnswerOnce`), `RemoteFetchEvent` one batch (`FetchOnce`),
and making groups and units, setting callbacks and the client's gc pass are the machine's steps of those
names.

**Clear and open groups.** Delivery of a pending event hangs on properties of one state, defined in
`DeliveryProgress` for any pending event and in `EndToEnd` for a new visit. The group is *clear*
(`Clear`, `ClearFor`) if the client has received no older event of it whose ack is still to be sent,
be it queued or in the batch being dispatched, and, while a response is being waited for, none that
may be that response holds one. Delivery is inevitable exactly when the group is clear and no handler
still has an ack for it to carry out, or the client holds the event already (`Certain`,
`CertainFor`). It is possible exactly when the group is *open* (`Open`, `OpenFor`): clear, or, while
a response is being waited for, clear once that fetch is given up or suitably answered.

## Where the code and its description differ

The model follows the code.

- The server's gc means to drop events after 600 seconds, but compares a millisecond stamp with a
  clock in seconds (http_server.go:60, 185-188). `DeliverySafety.EvictionClock` gives the exact
  moment from which it can drop anything: when the clock in seconds has passed the server's start in
  milliseconds by 600, tens of thousands of years from now. Before it, no event is lost to the gc
  (`NoLoss`).
- A received group is queued in `groupToDelete` even if its callback failed, was not set, or the
  group is unknown (client.go:249-258), and the next fetch deletes whatever is then pending for it.
  So a visit that arrives after an older event of its group was received, and before the ack is
  sent, is lost, unless a response still being waited for saves it (`DoomedIsLost`); and one that
  arrives before the ack is carried out may be. In every reachable state `CertainIff` says when
  delivery is inevitable, and `PossibleIff` when it is possible. `VisitCanBeLost` and
  `VisitCanBeLostInDispatch` are runs into states in which a visit is lost, the ack being queued or
  about to be; from that of `VisitCanBeLostToLateAck` it can be, by a stalled handler.
- Anything may be appended to a visit URL (group.go:68) unless it makes the request a bad one: a
  blank, a control character or, before a question mark, a malformed percent escape. `TargetIsGood`,
  `RouteInvertsVisitPath` and `VisitUrlAdmitted` say which; any query without blanks will do
  (`VisitUrlWithQuery`).
- A group's expiry is described as the time from which it cannot be called back (group.go:36). It is
  looked at by the gc pass only: `ExpiredCanBeCalled` is a run in which a group is called however long
  after its expiry. What does end its callbacks is the gc: once a group is out of the map, only an
  event that the dispatcher has loaded it for can still call it (`GcDrops`, `DroppedIsNotCalled`).
- The 14 bytes that mark an LDAP connection end in a zero, and the sniffing buffer starts out
  zeroed, so 13 bytes are enough (`LdapNeedsThirteenBytes`). Then the header's last byte is left
  over, and the next read panics on it (`ThirteenBytesGoAstray`).
- `close` of an LDAP connection completes when no message is sent more than one AbandonRequest,
  and that bound is exact: with two it can hang for ever (`ReverseServerCanHang`). `AlwaysClosesIff`
  says of every closing state whether it can still hang.
- An error while reading a message's content is dropped, and what is missing is filled up with
  zeros (ldap/packet.go:58, 137-147). The content is read by one read of the buffered reader. That
  delivers at most what is left in the buffer; where the buffer is empty, what one filling brings;
  and for 4096 bytes or more then, what one read of the connection does. `ReadPackets` says exactly
  what is read for every way the network cuts the stream. Frames are read back if and only if each
  content is delivered whole (`ReadBackIffFull`); it is enough that every filling ends where a
  message ends (`WholeFillsReadExactly`). Even when the network delivers all at once, a message of
  more than 4096 bytes is corrupted (`MessageFitsBuffer`, `LargeMessageIsCorrupted`).
- A token is a hash of the ids run together (event.go:43), so it also admits other ids with the same
  letters in a row (`TokenAdmits`).

## Model

| member | source | states |
|---|---|---|
| Visits.TokenAdmits | event.go:42-44 | a token made with one secret is admitted under another, and for other ids, if and only if the hashes of secret, group and unit run together agree in their first six digits; so with one secret for every pair of ids with the same letters in a row, and unless hashes collide for no other; with group ids of one length, for the unit's own pair alone |
| Visits.AdmitsInternal | http_server.go:31-39 | a target is admitted as an HTTP visit of a unit if and only if its path is "/i/", token, group and unit with slashes, and then anything, and the token is the first six digits of the hash of the server's secret, group and unit |
| Visits.AdmitsPublic | http_server.go:31-39 | the same of public visits: "/p/", token and group, and no unit |
| Visits.AdmitsRmi | rmi_server.go:61-72 | RMI bytes are admitted if and only if they end in the printed path between its two marks, with parts of at most 32 characters, and the token is that hash |
| Visits.AdmitsLdap | ldap_server.go:21-35 | the same of the base object of a search |
| Visits.AdmitsByListener | http_server.go:91-97 | the kind of a visit is that of the listener the request came to |
| Visits.EventRecord | http_server.go:60-63 | the bucket, source, ids, stamp, text and address of an event: LDAP visits are recorded as RMI visits |
| Paths.UrlsPrinted | group.go:68-87 | the three printed URLs, character by character |
| Paths.MatchHereExact | rmi_server.go:18 | the matcher captures c exactly on the printed path of c, with each part slash-free and at most 32 characters |
| Paths.MatchUnique | rmi_server.go:18 | no text has two matches of a path pattern, at different places or with different captures |
| Paths.FindInvertsRender | rmi_server.go:61-69 | the leftmost search returns c if and only if the text is some prefix followed by the printed path of c; holds for the RMI and the LDAP pattern |
| Paths.RmiFound | rmi_server.go:18 | a search for the RMI pattern gives c if and only if the text ends in "i/GykcaQgj/", the three parts and "fYqzYxJz", each part slash-free and at most 32 characters |
| Paths.LdapFound | ldap_server.go:11 | the same of the LDAP pattern: the text ends in "i/" and the three parts |
| Paths.InternalRouted | http_server.go:202 | the route of unit visits takes exactly the paths "/i/token/group/unit/…", and captures those |
| Paths.PublicRouted | http_server.go:209 | the public route takes exactly the paths "/p/token/group/…", and captures those and no unit |
| Targets.TargetIsGood | http_server.go:202 | a target has a path if and only if it holds no blank and no control character, and every percent sign before the query is followed by two hexadecimal digits |
| Targets.EscapeStandsFor | http_server.go:202 | an escape in a path stands for the character whose code its two digits are |
| Targets.QueryIsLeftOff | http_server.go:202 | a blank-free query does not change the path, whatever it holds |
| Targets.PlainPathIsItself | http_server.go:202 | text without blanks, control characters, question marks and percent signs is its own path |
| Targets.RouteInvertsVisitPath | http_server.go:202 | the HTTP route captures exactly the printed token, group and unit whatever is appended, unless the appended text makes the target unparsable, and then there is no path at all |
| Visits.RmiUrlAdmitted | group.go:79-82 | the RMI URL of a unit, behind any handshake bytes, is admitted as that unit with its token |
| Visits.LdapUrlAdmitted | group.go:84-87 | the path of a unit's LDAP URL, as a search's base object, is admitted as that unit |
| Visits.VisitUrlAdmitted | group.go:68-72 | the HTTP URL with any suffix is admitted as that unit if and only if the suffix is well formed |
| Visits.VisitUrlWithQuery | group.go:68 | the HTTP URL followed by a question mark and any blank-free text is admitted as that unit |
| DeliverySafety.NoLoss | http_server.go:86 | in every run, once an internal visit was stored for a group, the group has an event pending until one has been given to the dispatcher; lost, late and repeated messages included, up to the first moment the gc can act |
| DeliverySafety.PendingRefinesHistory | http_server.go:69-88 | the pending event of a group is the latest stored since its last removal, is keyed by its own group, is never public, and comes from a request the listeners admitted for exactly its ids |
| DeliverySafety.AcksAreSafe | client.go:248-258 | every ack, queued, sent or carried out, names a group whose event the client had received before |
| DeliverySafety.EvictionClock | http_server.go:185-189 | the gc can drop an event stamped at or after the start if and only if the clock has reached 1000 * (start + 601) milliseconds |
| DeliverySafety.GcSeesOld | http_server.go:185-188 | the gc decides to delete exactly the pending events whose millisecond stamp is below the clock in seconds less 600 |
| DeliverySafety.ServerOps | http_server.go:120-127 | each step changes the pending map by at most one store, ack or eviction, which the history records; only a fetch handler acknowledges and only the gc evicts |
| DeliverySafety.RunKeepsInv | client.go:223-260 | the whole invariant is kept along every run |
| DeliveryOnce.AtMostOneSuccess | client.go:177-211 | in every run a group object has at most one callback that returned nil, with failed callbacks, reused ids, joins and gc passes anywhere |
| DeliveryWait.WaitIsCaused | group.go:48-60 | whenever Wait returns nil in a run, before the look that found the flag set a callback of one of the group's units returned nil on an event for exactly this group and unit, and before that an internal request was admitted whose token is the hash of exactly these ids |
| DeliveryWait.WaitMissesNothing | group.go:53-57 | Wait returns nil if and only if its last look, after the last full second of the timeout or of 60, finds the flag set: no success before that look is missed |
| DeliveryOnce.CalledIsSetAndStays | client.go:196-197 | after a successful callback the group's flag is set before the dispatcher goes on, and stays set for ever |
| DeliveryLoss.DoomedIsLost | client.go:249-257 | if an event is pending for a group of which the client has received an event and not yet sent its ack (and, while it waits for a response, every possible one deletes the event or names the group with another), and the batch does not carry that pending event or is past the target with it, then no continuation whatever hands the visit to the target (any callback, or one unit's) |
| DeliveryLoss.GoneIsLost | http_server.go:120-122 | outside of waiting, a stored visit that is neither pending any more nor in the batch is never handed to a callback again |
| DeliveryProgress.DeliveredIfClear | client.go:177-260 | for an event pending for a live unit with a callback, in every reachable state: every run that leaves the group alone and completes the next fetch (and the one in progress, unless that carries the event) calls that unit with that event if its delivery is certain, or the group is clear and the run carries out no ack for it; and only if the group is open |
| DeliveryQuiet.Quiesces | http_server.go:120-128 | when visits stop, two completed fetches (three if one is in progress) leave the pending map and the ack queue empty, whatever else happens in between |
| DeliveryWire.RunKeepsRoute | client.go:223-260 | every run keeps: while a response is waited for the queue is what was sent; no response names a group twice; none of a batch is queued before it is dispatched; every item in flight was stored once, under a visit of its own |
| DeliveryFetch.FetchCompletes | client.go:223-260 | from every reachable state between fetches a fetch can be completed; its effect on the pending map, the groups, their flags and the ack queue is given whole, and depends on the order of the response only in the order of the queue |
| DeliveryObjects.FetchOnce | client.go:223-260 | remoteFetchEvent on objects abstracted by a state of the machine leaves them abstracted by that state after the batch; a failed request leaves them as they were |
| DeliveryObjects.NewGroupOnce | client.go:90-94 | making a group is the machine's step, with the clock of that state |
| DeliveryObjects.NewUnitOnce | client.go:77-81 | making a unit in a group is the machine's two steps |
| DeliveryObjects.OnVisitOnce | group.go:62-66 | so is setting or unsetting a callback |
| DeliveryObjects.GcOnce | client.go:105-124 | a gc pass of the client is a run of the machine's steps that sees and deletes every expired group |
| ServerObjects.VisitOnce | http_server.go:31-89 | a handled request is the machine's Arrive, Record with the number the log gives, and Publish; an LDAP visit that is not logged ends with Record |
| ServerObjects.AnswerOnce | http_server.go:103-129 | a handled fetch is a run of one handler's steps, and both answers list every pending event once |
| DeliveryCertain.SettleAndFetch | client.go:223-260 | from every reachable state, waiting and in the middle of a callback included, the client can end the fetch in progress and complete another |
| DeliveryCertain.FetchCanDeliver | client.go:177-202 | from every reachable state in which the group is clear, whatever acks handlers still hold, a run of the fetches' own steps calls the unit with the pending event |
| DeliveryCertain.CertainIff | client.go:223-260 | in every reachable state: all runs that leave the group alone and complete two fetches deliver the pending event if and only if the group is clear, and no handler still has an ack for it to carry out or the client holds the event already |
| DeliveryCertain.PossibleIff | client.go:223-260 | in every reachable state: some run that leaves the group alone delivers the pending event if and only if the group is open |
| DeliveryServing.ServeFetch | http_server.go:103-129 | the steps of one handler delete exactly the acknowledged groups and return each remaining event once |
| DeliveryFetch.DispatchBatch | client.go:248-259 | the steps of one batch flag and drop exactly the groups some event of which called a callback successfully, and queue every group in order |
| EndToEnd.VisitBecomesPending | http_server.go:31-89 | an admitted internal request makes its event the pending one of its group, numbered or not; only LDAP needs the log to succeed |
| EndToEnd.AdmittedVisitReachesItsUnit | ldap_server.go:21-47 | a request admitted for a live unit with a callback, in any reachable state: the visit's delivery to that unit is inevitable if and only if the group is clear and no ack for it is under way, and possible if and only if the group is open |
| EndToEnd.NextFetchCallsUnit | client.go:177-202 | after such a request, if the group is clear, the client can end the fetch in progress and complete another that calls the unit's callback with its group and unit |
| EndToEnd.UnitUrlsAdmitted | group.go:68-87 | one server configuration admits the requests that follow a unit's HTTP, RMI and LDAP URLs as that unit; an HTTP URL if and only if what was appended is usable |
| EndToEnd.UrlReachesItsUnit | group.go:68-87 | with equal tokens, following a live unit's printed HTTP, RMI or LDAP URL at any time is certain to get its callback called with its ids, by all runs that leave the group alone and complete two fetches, if and only if its group is clear and no handler has an ack for it to carry out; and may get it called if and only if the group is open |
| EndToEnd.VisitCanBeLost | client.go:249-258 | a reachable run: visit before the callback is set, fetch, callback set, second visit; the second visit is pending for a live unit and no continuation delivers it |
| EndToEnd.VisitCanBeLostInDispatch | client.go:249-258 | the same for a visit made while an older event is dispatched, with the callback set and the queue empty |
| EndToEnd.VisitCanBeLostToLateAck | http_server.go:120-122 | the same between fetches with the callback set, the queue empty and the group clear: a handler of an older request still has the ack, so delivery is possible but not inevitable |
| DeliveryExpiry.ExpiredCanBeCalled | client.go:114-118 | a reachable state in which a group expired any given time ago and the next step calls its unit's callback |
| DeliveryExpiry.DroppedIsNotCalled | client.go:105-124 | once a group is out of the client's map no continuation calls it, except for one call the dispatcher had loaded it for |
| DeliveryExpiry.GcDrops | client.go:114-118 | the gc's deletion takes the group then stored under the id out of the map for good |
| DeliveryExpiry.GcSeesExpired | client.go:117 | the gc decides to delete exactly the groups in the map whose expiry lies before now |
| DeliveryExpiry.GroupsLiveAMinute | client.go:90-94 | a new group replaces any other under its id and expires 60 seconds after now |
| ReverseClient.UnitGroup.Wait | group.go:48-60 | Wait succeeds if and only if the timeout is not negative and callbackCalled is 1 at its start or at the end of one of the first 60 full seconds of the timeout |
| ReverseClient.UnitGroup.Join | group.go:44-46 | the unit is stored under its id and nothing else changes |
| ReverseClient.Unit.OnVisit | group.go:62-66 | the callback is replaced |
| ReverseClient.Client.NewUnitGroup | client.go:90-94 | a fresh empty group, expiring in 60 seconds, is stored under its id in place of any other |
| ReverseClient.Client.NewUnitWithGroup | client.go:77-81 | a fresh unit without callback is joined to the group |
| ReverseClient.Client.GcExpiredGroup | client.go:105-124 | one pass drops exactly the groups whose expiry lies before now |
| ReverseClient.Client.LocalCallUnitCallback | client.go:177-211 | the outcome is decided by group, unit and callback; only a successful callback changes anything, setting its group's flag and dropping its group |
| ReverseClient.Client.DispatchAll | client.go:248-259 | after the loop exactly the groups called are dropped and flagged, and the queue holds every received group in order |
| ReverseClient.Client.RemoteFetchEvent | client.go:223-260 | a failed request keeps the queued acks; otherwise the effect of the loop |
| ReverseClient.CalledPrefixes | client.go:249-250 | the groups called grow event by event, each event adding its group exactly when it calls |
| ReverseServer.Server.HandleVisit | http_server.go:31-89 | a request not admitted changes nothing; an admitted one appends its numbered event to the log unless the database fails; it becomes its group's pending event unless it is public, or came by LDAP and was not logged, and then no pending event changes |
| ReverseServer.Server.StoreVisit | rmi_server.go:75-83 | the numbered event is logged, and stored in the pending map except for public visits and failed LDAP ones |
| ReverseServer.Server.HandleFetchEvent | http_server.go:103-129 | a wrong token or unreadable body changes nothing; otherwise exactly the acknowledged groups go and every other pending event is returned once |
| ReverseServer.Server.DeleteAcks | http_server.go:120-122 | the loop removes exactly the acknowledged groups |
| ReverseServer.Server.AllPending | http_server.go:123-127 | the range collects every pending event once |
| ReverseServer.Server.GcExpiredEventMap | http_server.go:177-195 | one pass drops exactly the events whose millisecond stamp is below the clock in seconds less 600 |
| Bytes.ValueOfBigEndian | db.go:98-102 | writing a number in n big-endian bytes and reading it back gives the number |
| Bytes.LessIsNumeric | db.go:98-102 | for byte strings of one length, lexicographic order is numeric order and equality is equality |
| EventLog.KeyOrder | db.go:98-102 | on all of uint64, key order is id order and different ids have different keys |
| Decimal.AtoiInvertsItoa | db.go:104-123 | every int64 counter survives being written in decimal and read back |
| Decimal.DecimalDigits | db.go:104-123 | the text is decimal: one more digit on the right is ten times the number and the digit, and a minus sign negates |
| EventLog.NumberedLowerBound | db.go:133-136 | seeking an id in a log numbered without gaps lands on that id's entry, or past the end |
| EventLog.PutAppends | db.go:178-191 | storing under the next number appends at the end of the bucket and keeps it numbered 1..n |
| EventLog.DB.constructor | db.go:54-76 | a fresh database is valid and empty |
| EventLog.DB.ContentsAreNumbered | db.go:177-180 | in every valid database the i-th event of a type carries id i |
| EventLog.DB.StoreEvent | db.go:171-200 | a commit appends the event, numbered with the new size, to its own bucket only; a rollback changes nothing but the event's number; the invariant (no gaps, keys are ids, counter reads back as size) is kept |
| EventLog.DB.ListEvent | db.go:125-169 | the page is the next `count` events before or after lastID in the direction asked for, with ends and absent ids as the code has them, and the total is the number of events |
| EventLog.PageDown | db.go:133-164 | a page by "Next" is the events from lastID - 1, or from the newest, downwards, as many as asked for or there are |
| EventLog.PageUp | db.go:133-164 | any other page is the events from lastID + 1 upwards |
| EventLog.KeptUnder | db.go:54-76 | HTTP and RMI events are kept in the buckets "http" and "rmi", their numbers under "count_http" and "count_rmi" |
| EventLog.Scan | db.go:138-164 | the cursor loop computes that page |
| EventLog.WalkToOlder | db.go:125-169 | paging towards older events with any positive page sizes while the log grows returns exactly the events present at the first page, newest first, each once, and then an empty page |
| EventLog.WalkToNewer | db.go:125-169 | paging towards newer events returns the log in order, and an empty page exactly when all of it as it then stands has been returned |
| EventLog.WalkOlder | db.go:125-200 | running listEvent and storeEvent of one database alternately: the pages collect the newest of the events there were at the start, newest first and each once, and the walk is over exactly when they are all of them |
| EventLog.WalkNewer | db.go:125-200 | the same towards newer events: the pages collect the beginning of the log, and the walk is over exactly when they are all of it as it then is |
| Streams.BufferedReader.Read | ldap/client.go:35-38 | a read is served from the buffer alone; an empty buffer is first filled by one read, and by-passed for a read as large as itself |
| Streams.FillsOrPasses | ldap/client.go:35-38 | with nothing buffered and all delivered at once, a read of fewer than 4096 bytes leaves the rest of a filling of 4096 in the buffer, a larger one nothing |
| Packet.ReadBytes | ldap/packet.go:137-148 | exactly `length` bytes are appended, zeros beyond those one read of the buffered reader delivers; the error is reported only at the end of the stream |
| Packet.ReadTagAndLength | ldap/packet.go:66-132 | computes the decoding of the stream's first bytes, consuming the header exactly, however the network cuts it |
| Packet.ReadLongLength | ldap/packet.go:100-128 | a long length is its bytes' big-endian value, too large from 2^31, short when bytes are missing before that; every intermediate value is below 2^31 |
| Packet.ReadMessagePacket | ldap/packet.go:15-60 | one message: header and content, the content filled with zeros beyond what one read of the buffered reader delivers |
| Packet.ReadPackets | ldap/client.go:102-120 | reading until no message comes yields exactly `Received`, for every way the network cuts the stream |
| Packet.FullReadsSplit | ldap/packet.go:137-148 | when every content's read is full, the bytes alone decide the messages |
| Packet.WholeFillsAreFull | ldap/packet.go:137-148 | when every filling of the buffer ends where a message ends, all reads are full |
| Packet.ReadBackIffFull | ldap/packet.go:51-60 | frames laid end to end are read back exactly, in order, nothing left over, if and only if every read of a content delivers it whole |
| Packet.MessageFitsBuffer | ldap/packet.go:137-148 | a message alone on a connection that the network delivers at once is read back if and only if it has at most 4096 bytes |
| Packet.LargeMessageIsCorrupted | ldap/packet.go:137-148 | the encoding of any content of 5000 bytes is not read back although the network delivers it at once |
| Packet.WholeFillsReadExactly | ldap/packet.go:51-60 | a sufficient condition on the network: frames of which every filling of the buffer holds whole ones are read back exactly |
| Packet.SplitInvertsJoin | ldap/packet.go:51-60 | under full reads, any frames laid end to end are read back exactly, in order, nothing left over |
| Packet.EncodedIsFrame | ldap/packet.go:96-128 | every definite-length encoding, short or long, leading zeros included, of a content below 2^31 bytes is a frame |
| Packet.FrameIsEncoded | ldap/packet.go:96-128 | conversely every frame is such an encoding |
| Packet.LongLengthIsExact | ldap/packet.go:107-128 | with all length bytes there, a length is accepted with its big-endian value if and only if that is below 2^31, and too large otherwise |
| Packet.OtherHeaders | ldap/packet.go:66-128 | every other beginning: short lengths, the indefinite form, other tags, and length bytes missing |
| Packet.FramesAre | ldap/packet.go:51-60 | which byte strings are frames, byte by byte |
| Streams.PeekedConn.Read | conn.go:22 | a read delivers a prefix of what remains, sniffed bytes first and never mixed with later ones; the end is reported only when nothing remains |
| Streams.PeekedConn.ReadSizes | conn.go:22 | for any sequence of read sizes, what was read followed by what remains is the original stream |
| Sniff.Accept | conn.go:30-56 | of the first read's at most 14 bytes: fewer than four are unreadable, "JRMI" in front goes to RMI, 13 or more of the bind request's bytes to LDAP, all else to HTTP; the connection handed on holds the whole stream |
| Sniff.GoesTo | conn.go:48-55 | the same of any first read, with the bytes written out |
| Sniff.LdapNeedsThirteenBytes | conn.go:36-51 | a connection is taken for LDAP if and only if its first read delivered at least 13 bytes, all as in the header |
| Sniff.FirstFrameIsTheHeader | conn.go:47-51 | the first message read off a replayed LDAP connection is exactly the header, for every way the network cuts the later bytes, and the rest is read as a connection of its own |
| Sniff.ThirteenBytesGoAstray | conn.go:36-51 | when only 13 bytes were sniffed and the header's last byte follows, the second read finds that byte in place of a tag and panics |
| Sniff.AcceptAndRead | conn.go:31-55 | accepting a connection and reading its messages through the put-back bytes and the buffered reader: the protocol is decided as said, and for LDAP the header comes first, then the messages of the bytes after the sniffed ones |
| Routes.Route.Match | ldap/route.go:50-91 | the branches decide whether the route's conditions all hold |
| Routes.Route.BaseDn | ldap/route.go:98-102 | the route then accepts, of what it accepted without a base condition, the searches of that base object, whatever the case of its letters, and all else as before |
| Routes.Route.AuthenticationChoice | ldap/route.go:104-108 | of what it accepted without such a condition, the route then accepts the binds of that authentication choice in any case, and all else as before |
| Routes.Route.Filter | ldap/route.go:110-114 | of what it accepted without a filter condition, the route then accepts the searches with that filter in any case, and all else as before |
| Routes.Route.Scope | ldap/route.go:116-120 | of what it accepted without a scope condition, the route then accepts the searches of that scope, and all else as before |
| Routes.Route.RequestName | ldap/route.go:122-125 | an extended route then accepts the request of that name alone; other routes are not affected |
| Routes.RouteMux.AddRoute | ldap/route.go:180-184 | the route comes after all others |
| Routes.RouteMux.Bind | ldap/route.go:193-199 | adds a route that, of the protocol's operations, takes the binds and nothing else |
| Routes.RouteMux.Search | ldap/route.go:201-207 | adds a route that, of the protocol's operations, takes the searches and nothing else |
| Routes.RouteMux.ServeLdap | ldap/route.go:140-177 | the scan chooses the first fitting route, else the not-found handler, else the refusal; an AbandonRequest signals its target only when no route fits, and is then answered too |
| Routes.FirstFitIsLeast | ldap/route.go:142-159 | the chosen route fits and no earlier one does, and there is no other such route |
| Routes.FirstFitNone | ldap/route.go:142-159 | none is chosen exactly when none fits |
| Routes.LaterRoutesComeLast | ldap/route.go:179-184 | adding routes never takes a request from an earlier one |
| Routes.ReverseMux | ldap_server.go:15-48 | the reverse server's routes are a bind and a search, and no not-found handler |
| Routes.ReverseService | ldap_server.go:15-48 | binds go to the first route, searches to the second, and everything else is refused, an AbandonRequest after its target was signalled |
| Routes.LowerCase | ldap/route.go:98-102 | texts are compared with the letters A to Z in lower case and all else as it is |
| Routes.StartTlsIs | ldap/client.go:136-145 | a StartTLS request is the extended request of that one name |
| ConnectionSafety.NothingPanics | ldap/client.go:183-191 | in every interleaving nothing is sent on chanOut after its close, it is closed once, no wait group goes negative, and the group counts the live processors |
| ConnectionSafety.WritesAreOrdered | ldap/client.go:71-76 | messages are written in the order accepted, each under its own request's id, each request's in the order of its handler |
| ConnectionSafety.ClosedIsDrained | ldap/client.go:183-191 | when the connection is closed, every response of every request has been written, once and in order, the request list is empty, and srv.Wg is released at most once |
| ConnectionSafety.RequestListIsSound | ldap/client.go:239-249 | every entry of the request list is a registered processor under its own id, and the list is empty once wg.Wait returns |
| ConnectionSafety.RequestListIsExact | ldap/client.go:219-249 | if outstanding ids stay distinct, the list holds exactly the registered processors |
| ConnectionSafety.RunKeepsInv | ldap/client.go:59-249 | the whole invariant is kept along every run |
| ConnectionService.RefusedIsAnsweredOnce | ldap/route.go:170-176 | when the connection is closed, a request that no route and no not-found handler took has been answered by exactly one message, UnwillingToPerform under its id |
| ConnectionService.OnlyUnroutedAbandonsSignal | ldap/route.go:161-168 | in every run an AbandonRequest that no route takes signals its target, first of all it does, and nothing else signals anything |
| ConnectionService.ReadingTakes | ldap/client.go:113-134 | the reading goroutine takes every request but an UnbindRequest, and passes over what it cannot decode |
| ConnectionService.StartTlsHoldsReading | ldap/client.go:136-145 | it reads on at once after every request but StartTLS, and after that one when it has been served |
| ConnectionClose.StepUsesUp | ldap/client.go:166-192 | once closing, every step of any goroutine lowers a measure of the work left |
| ConnectionClose.CloseEndsUnlessBlocked | ldap/client.go:166-192 | a closing connection stops after a bounded number of steps; stopped, it has closed and released srv.Wg if and only if no processor is sending to a full Done buffer |
| ConnectionClose.OneAbandonNeverBlocks | ldap/message.go:21-23 | with at most one AbandonRequest found by each message, no send to a Done buffer ever finds it full |
| ConnectionClose.CloseCompletes | ldap/client.go:166-192 | so such a connection always closes and releases srv.Wg |
| ConnectionHang.AlwaysClosesIff | ldap/client.go:166-192 | a closing connection closes in every run if and only if there is no request for which more values are sent or may yet be sent than its Done buffer holds, counting those in it, those of close, and every AbandonRequest that is sending or can still find it; one at least of an AbandonRequest |
| ConnectionHang.OverfullBlocks | ldap/message.go:21-23 | from every such state some run ends with a processor sending to the full buffer |
| ConnectionHang.RunAsksNoMore | ldap/route.go:161-168 | along every run of a closing connection such a demand never arises anew |
| ConnectionClose.BlockedForever | ldap/route.go:161-168 | a processor sending to a full Done buffer never returns, and close never passes wg.Wait |
| ConnectionClose.TwoAbandonsCanHang | ldap/client.go:225 | a reachable closing state, with two AbandonRequests for one search, from which no continuation closes the connection |
| ConnectionClose.ReverseServerCanHang | ldap_server.go:13-50 | the reverse server's own routes leave it open to this |

## Left out

Of the delivery protocol:

- More than one client: every client acknowledges everything it fetched, so the results are for one.
- DeliverySafety.NoLoss: is about stores into the pending map up to the first moment the gc can act; after it an event may be evicted, and `NothingLostKept` is what then remains true.
- DeliveryCertain.CertainIff: is, like the results built on it, about the runs that leave the group alone: in which no other event is stored for it, no copy of an older request that acknowledges it reaches the server only then, neither gc takes it, no group or unit takes its place under the same id, and the callback is not unset. Each of these can take the visit away in the code.
- Delivery.ServeNext: a range shows a key's mapping at the moment it comes to the key. The documentation of `sync.Map.Range` promises less: any mapping the key had during the call.
- Public visits' configured responses (`setHTTPResponse`, `getHTTPResponse`): a public visit is logged and never pending.
- `hubur.TimeoutConn` between the put-back bytes and their readers is taken to pass reads on.
- HTTP methods, headers, the `IPHeader` lookup, absolute-form request targets, JSON and the dump of a request: a request is its target, and its text in the record is that target.
- The RMI handshake and `ReadUntil`: the model starts from the bytes read up to the end mark. The escaping of invalid UTF-8 in recorded texts.
- The hash: any function with hexadecimal output; whether two texts collide is left open.
- How random ids are drawn: ids are chosen freely, and reused ones are allowed.
- Panics of user callbacks, and `Unit`'s mutex: a callback run is one atomic step.
- The tickers and contexts that end the polling loops.

Of the log:

- bbolt: a bucket is a sequence in key order with a sequence number, a transaction commits or changes nothing. JSON of an event is taken to read back as the event.
- EventLog.DB.StoreEvent: requires fewer than 2^63 - 1 events of the type.

Of the LDAP connection:

- `Stop`, `chDone`, `OnNewConnection`, `ListenAndServe`, `Serve` of the server: not used by the reverse server; with `Stop` the `wg.Add` at ldap/client.go:83 may come after `wg.Wait`.
- A first byte other than 0x30: it panics (`Packet.NotSequence`); in `Connection` the deferred close runs as after a read error, and the end of the whole program that follows is not modelled.
- Handlers that do not return or that panic, and handlers that listen on `Done`: a handler writes any finite sequence of responses.
- The decoding of message contents and `writeMessage`'s encoding and socket errors: a message is its id and operation.
- Socket deadlines, and StartTLS beyond being served on the reading goroutine.
- Packet.ReadMessagePacket: a content cut short is filled with zeros, as in the code; what the decoder then makes of it is not modelled.
- Go's memory model: map and channel operations are atomic, also the unlocked read in `GetMessageByID`.
- Lower-casing of letters outside ASCII, and route labels.

Easy members only: configuration defaults, `fillRMIAddr`, the health check, response constructors, the
remaining route constructors and message getters, the percent-encoded form of a visit URL, and the
example programs.
