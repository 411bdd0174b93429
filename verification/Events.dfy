// The event record and its token (event.go).
module Events {
  datatype Option<+T> = None | Some(value: T)

  datatype EventType = HttpVisit | RmiVisit

  datatype EventSource = Internal | Public

  // Time stamps are milliseconds (hubur.TimeStampMs); clocks in seconds are named as such.
  datatype Event = Event(
    id: int,
    groupId: string,
    unitId: string,
    timeStampMs: int,
    source: EventSource,
    eventType: EventType,
    request: string,
    remoteAddr: string)

  predicate IsHex(c: char) {
    '0' <= c <= '9' || 'a' <= c <= 'f'
  }

  // What the model assumes of the hash: some function from strings to lower-case
  // hexadecimal text of at least six digits.
  type Digest = h: string -> string |
    forall s: string :: |h(s)| >= 6 && (forall i :: 0 <= i < 6 ==> IsHex(h(s)[i]))
    witness (s: string) => "000000"

  function HashedToken(digest: Digest, token: string, groupId: string, unitId: string): (r: string)
    ensures |r| == 6 && forall i :: 0 <= i < |r| ==> IsHex(r[i])
  {
    digest(token + groupId + unitId)[..6]
  }
}
