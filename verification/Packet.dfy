// Framing of LDAP messages (ldap/packet.go): the tag and length of a BER sequence, and the
// bytes of one message read off a buffered connection.
module Packet {
  import opened Bytes
  import opened Events
  import opened Streams

  const SEQUENCE_TAG: byte := 0x30
  const LENGTH_LIMIT: nat := 0x8000_0000

  // What a tag and length decode to.
  datatype Header =
    | Length(value: nat, size: nat)    // the content's length, and the header's own
    | Short                            // the stream ends inside the header
    | NotSequence                      // the first byte is not 0x30: readTagAndLength panics
    | Indefinite
    | TooLarge

  // What n bytes of a long length decode to.
  function LongLength(d: seq<byte>, n: nat, size: nat): Header {
    var there := Least(n, |d|);
    var v := Value(d[..there]);
    if v >= LENGTH_LIMIT then TooLarge else if there < n then Short else Length(v, size + n)
  }

  // The meaning of the first bytes of a stream (section 8.1.3 of ITU-T X.690, definite forms): a
  // short length, or the number of length bytes and then the length in big-endian order.
  function DecodeHeader(d: seq<byte>): Header {
    if d == [] then Short
    else if d[0] != SEQUENCE_TAG then NotSequence
    else if |d| == 1 then Short
    else if d[1] < 0x80 then Length(d[1], 2)
    else
      var n := d[1] - 0x80;
      if n == 0 then Indefinite else LongLength(d[2..], n, 2)
  }

  function Zeros(n: nat): seq<byte> {
    seq(n, _ => 0)
  }

  // Appends exactly `length` bytes; those beyond what the read delivers are zero, and only an error
  // of the read itself is reported.
  method ReadBytes(conn: BufferedReader, bytes: seq<byte>, length: nat)
    returns (all: seq<byte>, b: byte, eof: bool)
    requires bytes != [] || length > 0
    requires conn.Valid()
    modifies conn, conn.conn, conn.conn.conn
    ensures conn.Valid()
    ensures var d, k := old(conn.coming), old(conn.how).Takes(length);
            all == bytes + d[..k] + Zeros(length - k) && conn.coming == d[k..]
    ensures conn.how == old(conn.how).After(length)
    ensures eof <==> length > 0 && old(conn.coming) == []
    ensures all != [] && b == all[|all| - 1]
  {
    var got;
    got, eof := conn.Read(length);
    all := bytes + got + Zeros(length - |got|);
    b := all[|all| - 1];
  }

  // One byte is never cut short.
  method ReadByte(conn: BufferedReader, bytes: seq<byte>) returns (all: seq<byte>, b: byte, eof: bool)
    requires conn.Valid()
    modifies conn, conn.conn, conn.conn.conn
    ensures conn.Valid()
    ensures eof <==> old(conn.coming) == []
    ensures !eof ==> b == old(conn.coming)[0] && all == bytes + [b] && conn.how == old(conn.how).After(1)
    ensures !eof ==> conn.coming == old(conn.coming)[1..]
  {
    all, b, eof := ReadBytes(conn, bytes, 1);
    if !eof {
      assert all == bytes + old(conn.coming)[..1] + Zeros(0);
    }
  }

  lemma {:induction false} ValueGrows(s: seq<byte>, i: nat, j: nat)
    requires i <= j <= |s|
    ensures Value(s[..i]) <= Value(s[..j])
    decreases j
  {
    if i == j {
    } else {
      ValueGrows(s, i, j - 1);
      ValueNext(s, j - 1);
    }
  }

  lemma ValueNext(s: seq<byte>, i: nat)
    requires i < |s|
    ensures Value(s[..i + 1]) == Value(s[..i]) * 256 + s[i]
  {
    assert s[..i + 1][..i] == s[..i];
  }

  lemma OneMore(header: seq<byte>, d: seq<byte>, i: nat)
    requires i < |d|
    ensures d[i..][0] == d[i] && d[i..][1..] == d[i + 1..]
    ensures header + d[..i + 1] == header + d[..i] + [d[i]]
    ensures Value(d[..i + 1]) == Value(d[..i]) * 256 + d[i]
  {
    ValueNext(d, i);
  }

  // Reads a tag and a length.
  method ReadTagAndLength(conn: BufferedReader) returns (bytes: seq<byte>, h: Header)
    requires conn.Valid()
    modifies conn, conn.conn, conn.conn.conn
    ensures conn.Valid()
    ensures h == DecodeHeader(old(conn.coming))
    ensures h.Length? ==>
              && bytes == old(conn.coming)[..h.size] && conn.coming == old(conn.coming)[h.size..]
              && conn.how == old(conn.how).Skip(h.size)
  {
    var b, stop;
    bytes, b, stop := ReadStart(conn);
    if stop.Some? { return bytes, stop.value; }
    if b < 0x80 {
      return bytes, Length(b, 2);
    }
    var n := b - 0x80;
    if n == 0 { return bytes, Indefinite; }
    ghost var lengths;
    bytes, h, lengths := ReadLongLength(conn, bytes, n);
    LongHeader(old(conn.coming), n);
    if h.Length? { SkipTwice(old(conn.how), 2, n); }
  }

  // The tag and the first byte of the length.
  method ReadStart(conn: BufferedReader) returns (bytes: seq<byte>, b: byte, stop: Option<Header>)
    requires conn.Valid()
    modifies conn, conn.conn, conn.conn.conn
    ensures conn.Valid()
    ensures stop == if old(conn.coming) == [] then Some(Short)
                    else if old(conn.coming)[0] != SEQUENCE_TAG then Some(NotSequence)
                    else if |old(conn.coming)| == 1 then Some(Short)
                    else None
    ensures stop.None? ==>
              && b == old(conn.coming)[1] && bytes == old(conn.coming)[..2]
              && conn.coming == old(conn.coming)[2..] && conn.how == old(conn.how).Skip(2)
  {
    var eof;
    bytes, b, eof := ReadByte(conn, []);
    if eof { return bytes, b, Some(Short); }
    if b != SEQUENCE_TAG { return bytes, b, Some(NotSequence); }
    bytes, b, eof := ReadByte(conn, bytes);
    stop := if eof then Some(Short) else None;
  }

  lemma LongHeader(d: seq<byte>, n: nat)
    requires |d| >= 2 && d[0] == SEQUENCE_TAG && d[1] == 0x80 + n && n > 0
    ensures DecodeHeader(d) == LongLength(d[2..], n, 2)
    ensures n <= |d| - 2 ==> d[..2 + n] == d[..2] + d[2..][..n] && d[2 + n..] == d[2..][n..]
  {
  }

  lemma {:induction false} SkipTwice(v: Reader, m: nat, n: nat)
    requires m + n <= v.left
    ensures v.Skip(m).Skip(n) == v.Skip(m + n)
    decreases n
  {
    if n == 0 {
    } else {
      SkipTwice(v, m, n - 1);
    }
  }

  // The values a length takes as its bytes are shifted in: none leaves 31 bits.
  predicate Trace(lengths: seq<nat>, d: seq<byte>) {
    |lengths| <= |d| + 1
    && forall i :: 0 <= i < |lengths| ==> lengths[i] == Value(d[..i]) && lengths[i] < LENGTH_LIMIT
  }

  lemma TraceMore(lengths: seq<nat>, d: seq<byte>, x: nat)
    requires Trace(lengths, d) && |lengths| <= |d| && x == Value(d[..|lengths|]) && x < LENGTH_LIMIT
    ensures Trace(lengths + [x], d)
  {
  }

  lemma ByteTooMany(d: seq<byte>, n: nat, i: nat, size: nat)
    requires i < |d| && i < n && Value(d[..i + 1]) >= LENGTH_LIMIT
    ensures LongLength(d, n, size) == TooLarge
  {
    ValueGrows(d, i + 1, Least(n, |d|));
  }

  // The n bytes of a long length, shifted in one by one. `lengths` are the values the length takes
  // on the way; each fits a 32-bit integer.
  method ReadLongLength(conn: BufferedReader, header: seq<byte>, n: nat)
    returns (bytes: seq<byte>, h: Header, ghost lengths: seq<nat>)
    requires conn.Valid()
    modifies conn, conn.conn, conn.conn.conn
    ensures conn.Valid()
    ensures h == LongLength(old(conn.coming), n, |header|)
    ensures h.Length? ==> n <= |old(conn.coming)| && bytes == header + old(conn.coming)[..n]
                          && conn.coming == old(conn.coming)[n..]
                          && conn.how == old(conn.how).Skip(n)
    ensures Trace(lengths, old(conn.coming)) && (h.Length? ==> |lengths| == n + 1)
    ensures forall i :: 0 <= i < |lengths| ==>
              lengths[i] == Value(old(conn.coming)[..i]) && lengths[i] < 2_147_483_648
  {
    ghost var v, d := conn.how, conn.coming;
    bytes := header;
    var length: nat := 0;
    lengths := [0];
    var i := 0;
    while i < n
      invariant conn.Valid() && i <= n && i <= |d|
      invariant length == Value(d[..i]) < LENGTH_LIMIT
      invariant bytes == header + d[..i] && conn.coming == d[i..]
      invariant conn.how == v.Skip(i)
      invariant Trace(lengths, d) && |lengths| == i + 1
    {
      var b, eof;
      bytes, b, eof := ReadByte(conn, bytes);
      if eof { return bytes, Short, lengths; }
      OneMore(header, d, i);
      if length >= 0x80_0000 {
        ByteTooMany(d, n, i, |header|);
        return bytes, TooLarge, lengths;
      }
      length := length * 256 + b;
      TraceMore(lengths, d, length);
      lengths := lengths + [length];
      i := i + 1;
    }
    h := Length(length, |header| + n);
  }

  // How many bytes of a message's content its one read delivers.
  function Content(d: seq<byte>, v: Reader): (k: nat)
    requires v.left == |d| && DecodeHeader(d).Length?
    ensures k <= Least(DecodeHeader(d).value, |d| - DecodeHeader(d).size)
  {
    v.Skip(DecodeHeader(d).size).Takes(DecodeHeader(d).value)
  }

  // A message: header and content, where the content is filled up with zeros.
  function Message(d: seq<byte>, v: Reader): (m: seq<byte>)
    requires v.left == |d| && DecodeHeader(d).Length?
    ensures |m| == DecodeHeader(d).size + DecodeHeader(d).value
  {
    var h := DecodeHeader(d);
    d[..h.size + Content(d, v)] + Zeros(h.value - Content(d, v))
  }

  function After(d: seq<byte>, v: Reader): (w: Reader)
    requires v.left == |d| && DecodeHeader(d).Length?
    ensures w.left == |d| - DecodeHeader(d).size - Content(d, v)
  {
    v.Skip(DecodeHeader(d).size).After(DecodeHeader(d).value)
  }

  // The error of the content's read is dropped, so a stream that ends early, or delivers less at
  // once, yields a message filled up with zeros.
  method ReadMessagePacket(conn: BufferedReader) returns (packet: seq<byte>, h: Header)
    requires conn.Valid()
    modifies conn, conn.conn, conn.conn.conn
    ensures conn.Valid()
    ensures h == DecodeHeader(old(conn.coming))
    ensures h.Length? ==>
              var d, v := old(conn.coming), old(conn.how);
              && packet == Message(d, v) && conn.coming == d[h.size + Content(d, v)..]
              && conn.how == After(d, v)
    ensures !h.Length? ==> packet == []
  {
    ghost var v, d := conn.how, conn.coming;
    packet, h := ReadTagAndLength(conn);
    if !h.Length? { return [], h; }
    MessageParts(d, v);
    var b, eof;
    packet, b, eof := ReadBytes(conn, packet, h.value);
  }

  lemma MessageParts(d: seq<byte>, v: Reader)
    requires v.left == |d| && DecodeHeader(d).Length?
    ensures var h, k := DecodeHeader(d), Content(d, v);
            Message(d, v) == d[..h.size] + d[h.size..][..k] + Zeros(h.value - k)
            && d[h.size + k..] == d[h.size..][k..]
  {
    var h, k := DecodeHeader(d), Content(d, v);
    assert d[..h.size + k] == d[..h.size] + d[h.size..][..k];
  }

  // All messages until one that cannot be read, and why that is.
  function Received(d: seq<byte>, v: Reader): (seq<seq<byte>>, Header)
    requires v.left == |d|
    decreases |d|
  {
    var h := DecodeHeader(d);
    if !h.Length? then ([], h)
    else
      var rest := Received(d[h.size + Content(d, v)..], After(d, v));
      ([Message(d, v)] + rest.0, rest.1)
  }

  // The serving loop's reads, up to the first that does not yield a message.
  method ReadPackets(conn: BufferedReader) returns (packets: seq<seq<byte>>, end: Header)
    requires conn.Valid()
    modifies conn, conn.conn, conn.conn.conn
    ensures conn.Valid()
    ensures (packets, end) == Received(old(conn.coming), old(conn.how))
  {
    ghost var d, v := conn.coming, conn.how;
    ghost var all := Received(d, v);
    packets := [];
    while true
      invariant conn.Valid() && d == conn.coming && v == conn.how
      invariant all.0 == packets + Received(d, v).0 && all.1 == Received(d, v).1
      decreases |d|
    {
      var packet, h := ReadMessagePacket(conn);
      ReceivedOne(d, v);
      if !h.Length? {
        assert packets + [] == packets;
        return packets, h;
      }
      d, v := conn.coming, conn.how;
      Associative(packets, [packet], Received(d, v).0);
      packets := packets + [packet];
    }
  }

  lemma ReceivedOne(d: seq<byte>, v: Reader)
    requires v.left == |d|
    ensures var h := DecodeHeader(d);
            if h.Length? then
              var rest := Received(d[h.size + Content(d, v)..], After(d, v));
              Received(d, v) == ([Message(d, v)] + rest.0, rest.1)
            else Received(d, v) == ([], h)
  {
  }

  // Frames ---------------------------------------------------------------------------------------

  // A complete message: a header and exactly the content it announces.
  predicate IsFrame(f: seq<byte>) {
    var h := DecodeHeader(f);
    h.Length? && |f| == h.size + h.value
  }

  // A header is decided by its own bytes, whatever follows.
  lemma HeaderIgnoresRest(f: seq<byte>, rest: seq<byte>)
    requires DecodeHeader(f).Length?
    ensures DecodeHeader(f + rest) == DecodeHeader(f)
  {
    if f[1] >= 0x80 {
      var n := f[1] - 0x80;
      assert (f + rest)[2..][..n] == f[2..][..n];
    }
  }

  function Join(frames: seq<seq<byte>>): seq<byte> {
    if frames == [] then [] else frames[0] + Join(frames[1..])
  }

  // The messages of a stream when every read is full, and what ends them. A last message that
  // the stream cuts off is filled up with zeros.
  function Split(d: seq<byte>): (r: (seq<seq<byte>>, Header)) {
    match DecodeHeader(d)
    case Length(v, size) =>
      assert 2 <= size <= |d|;
      var k := Least(v, |d| - size);
      var rest := Split(d[size + k..]);
      ([d[..size + k] + Zeros(v - k)] + rest.0, rest.1)
    case h => ([], h)
  }

  // The reads of contents deliver all that is asked for, or all there is.
  predicate FullReads(d: seq<byte>, v: Reader)
    requires v.left == |d|
    decreases |d|
  {
    var h := DecodeHeader(d);
    h.Length? ==>
      Content(d, v) == Least(h.value, |d| - h.size) && FullReads(d[h.size + Content(d, v)..], After(d, v))
  }

  // With full reads the bytes alone decide.
  lemma {:induction false} FullReadsSplit(d: seq<byte>, v: Reader)
    requires v.left == |d| && FullReads(d, v)
    ensures Received(d, v) == Split(d)
    decreases |d|
  {
    var h := DecodeHeader(d);
    if !h.Length? {
    } else {
      FullReadsSplit(d[h.size + Content(d, v)..], After(d, v));
    }
  }

  predicate AreFrames(frames: seq<seq<byte>>) {
    forall i :: 0 <= i < |frames| ==> IsFrame(frames[i])
  }

  // Splitting inverts joining: the messages read off any frames laid end to end are those
  // frames, in order, and nothing is left over (section 5.1 of RFC 4511).
  lemma {:induction false} SplitInvertsJoin(frames: seq<seq<byte>>)
    requires AreFrames(frames)
    ensures Split(Join(frames)) == (frames, Short)
  {
    if frames == [] {
    } else {
      var f, rest := frames[0], Join(frames[1..]);
      assert IsFrame(f);
      HeaderIgnoresRest(f, rest);
      assert (f + rest)[..|f|] == f && (f + rest)[|f|..] == rest;
      assert f + Zeros(0) == f;
      SplitInvertsJoin(frames[1..]);
      assert frames == [f] + frames[1..];
    }
  }

  // Whole messages in every filling of the buffer ---------------------------------------------------

  predicate Framed(d: seq<byte>) {
    d == [] ||
    (var h := DecodeHeader(d);
     h.Length? && h.size + h.value <= |d| && Framed(d[h.size + h.value..]))
  }

  // The reader with its buffer filled, when it is empty.
  function Filled(v: Reader): (w: Reader)
    ensures w.left == v.left && (v.left > 0 ==> w.ready > 0)
  {
    if v.ready > 0 then v else v.Supplied(BUFFER_SIZE)
  }

  // Every filling of the buffer ends where a message ends.
  predicate WholeFills(d: seq<byte>, v: Reader)
    requires v.left == |d|
    decreases |d|
  {
    d != [] ==>
      var w := Filled(v);
      Framed(d[..w.ready]) && WholeFills(d[w.ready..], w.Dropped(w.ready))
  }

  lemma {:induction false} SkipInBuffer(v: Reader, n: nat)
    requires n <= v.ready
    ensures v.Skip(n) == v.Dropped(n)
    decreases n
  {
    if n == 0 {
    } else {
      SkipInBuffer(v, n - 1);
    }
  }

  // A message that is in the buffer as a whole is taken from there.
  lemma MessageInBuffer(d: seq<byte>, v: Reader)
    requires v.left == |d| && v.ready > 0 && Framed(d[..v.ready])
    ensures var h := DecodeHeader(d[..v.ready]);
            && h.Length? && DecodeHeader(d) == h && h.size + h.value <= v.ready
            && Content(d, v) == h.value && After(d, v) == v.Dropped(h.size + h.value)
  {
    var h := DecodeHeader(d[..v.ready]);
    assert d[..v.ready] + d[v.ready..] == d;
    HeaderIgnoresRest(d[..v.ready], d[v.ready..]);
    SkipInBuffer(v, h.size);
  }

  // Where every filling of the buffer holds whole messages, all reads are full, however many
  // fillings there are and however many messages each holds.
  lemma {:induction false} WholeFillsAreFull(d: seq<byte>, v: Reader)
    requires v.left == |d| && WholeFills(d, v)
    ensures FullReads(d, v)
    decreases |d|
  {
    if d == [] {
    } else {
      var w := Filled(v);
      MessageInBuffer(d, w);
      FillingKeepsMessage(d, v);
      var h := DecodeHeader(d);
      DroppedIsWhole(d, w, h.size + h.value);
      WholeFillsAreFull(d[h.size + h.value..], After(d, v));
      FullReadFirst(d, v);
    }
  }

  lemma FullReadFirst(d: seq<byte>, v: Reader)
    requires v.left == |d|
    requires var h := DecodeHeader(d);
             h.Length? && Content(d, v) == h.value && FullReads(d[h.size + h.value..], After(d, v))
    ensures FullReads(d, v)
  {
  }

  lemma DroppedIsWhole(d: seq<byte>, v: Reader, n: nat)
    requires v.left == |d| && 0 < n <= v.ready && Framed(d[..v.ready][n..])
    requires WholeFills(d[v.ready..], v.Dropped(v.ready))
    ensures WholeFills(d[n..], v.Dropped(n))
  {
    if n < v.ready {
      DroppedParts(d, v, n);
      WholeFromParts(d[n..], v.Dropped(n));
    }
  }

  // What is framed in the buffer, and what comes after it, are the same where a part is dropped.
  lemma DroppedParts(d: seq<byte>, v: Reader, n: nat)
    requires v.left == |d| && n < v.ready
    ensures var w: Reader := v.Dropped(n);
            && w.ready == v.ready - n && w.Dropped(w.ready) == v.Dropped(v.ready)
            && d[n..][..w.ready] == d[..v.ready][n..] && d[n..][w.ready..] == d[v.ready..]
  {
    SliceSlice(d, n, v.ready);
  }

  lemma WholeFromParts(d: seq<byte>, v: Reader)
    requires v.left == |d| && v.ready > 0
    requires Framed(d[..v.ready]) && WholeFills(d[v.ready..], v.Dropped(v.ready))
    ensures WholeFills(d, v)
  {
  }

  lemma SliceSlice(d: seq<byte>, i: nat, j: nat)
    requires i <= j <= |d|
    ensures d[i..][..j - i] == d[..j][i..] && d[i..][j - i..] == d[j..]
  {
  }

  // It makes no difference whether the buffer is filled by the next read or before it.
  lemma FillingKeepsMessage(d: seq<byte>, v: Reader)
    requires v.left == |d| > 0 && DecodeHeader(d).Length?
    ensures Content(d, v) == Content(d, Filled(v)) && After(d, v) == After(d, Filled(v))
  {
    if v.ready == 0 { SkipFills(v, DecodeHeader(d).size); }
  }

  lemma {:induction false} SkipFills(v: Reader, n: nat)
    requires v.ready == 0 && 0 < n <= v.left
    ensures v.Skip(n) == Filled(v).Skip(n)
    decreases n
  {
    if n == 1 {
      assert v.Skip(0) == v && Filled(v).Skip(0) == Filled(v);
    } else {
      SkipFills(v, n - 1);
    }
  }

  // Frames laid end to end are read back exactly, however the network cuts them, as long as every
  // filling of the buffer ends where a frame ends.
  lemma WholeFillsReadExactly(frames: seq<seq<byte>>, v: Reader)
    requires AreFrames(frames) && v.left == |Join(frames)| && WholeFills(Join(frames), v)
    ensures Received(Join(frames), v) == (frames, Short)
  {
    WholeFillsAreFull(Join(frames), v);
    FullReadsSplit(Join(frames), v);
    SplitInvertsJoin(frames);
  }

  // What is read back ----------------------------------------------------------------------------

  // A frame cut short is followed by one of its own bytes, where a tag is expected: if it could pass
  // for the frame, that byte is zero.
  lemma CutShort(f: seq<byte>, rest: seq<byte>, v: Reader)
    requires IsFrame(f) && v.left == |f + rest| && DecodeHeader(f + rest) == DecodeHeader(f)
    requires Message(f + rest, v) == f && Content(f + rest, v) < DecodeHeader(f).value
    ensures var n := DecodeHeader(f).size + Content(f + rest, v);
            Received((f + rest)[n..], After(f + rest, v)) == ([], NotSequence)
  {
    var h, k := DecodeHeader(f), Content(f + rest, v);
    assert f[h.size + k] == 0 == (f + rest)[h.size + k..][0];
    ReceivedOne((f + rest)[h.size + k..], After(f + rest, v));
  }

  // Frames laid end to end are read back exactly if and only if every read of a content is full.
  lemma {:induction false} ReadBackIffFull(frames: seq<seq<byte>>, v: Reader)
    requires AreFrames(frames) && v.left == |Join(frames)|
    ensures Received(Join(frames), v) == (frames, Short) <==> FullReads(Join(frames), v)
    decreases |frames|
  {
    var d := Join(frames);
    if FullReads(d, v) {
      FullReadsSplit(d, v);
      SplitInvertsJoin(frames);
    } else if frames == [] {
    } else if Received(d, v) == (frames, Short) {
      FirstIsFull(frames, v);
      RestIsReadBack(frames, v);
      ReadBackIffFull(frames[1..], After(d, v));
      FullReadFirst(d, v);
    }
  }

  lemma FirstIsFull(frames: seq<seq<byte>>, v: Reader)
    requires AreFrames(frames) && frames != [] && v.left == |Join(frames)|
    requires Received(Join(frames), v) == (frames, Short)
    ensures DecodeHeader(Join(frames)) == DecodeHeader(frames[0])
    ensures Content(Join(frames), v) == DecodeHeader(frames[0]).value
  {
    var f, rest := frames[0], Join(frames[1..]);
    assert IsFrame(f);
    HeaderIgnoresRest(f, rest);
    ReceivedOne(f + rest, v);
    if Content(f + rest, v) < DecodeHeader(f).value { CutShort(f, rest, v); }
  }

  lemma RestIsReadBack(frames: seq<seq<byte>>, v: Reader)
    requires AreFrames(frames) && frames != [] && v.left == |Join(frames)|
    requires Received(Join(frames), v) == (frames, Short)
    requires DecodeHeader(Join(frames)) == DecodeHeader(frames[0])
    requires Content(Join(frames), v) == DecodeHeader(frames[0]).value
    ensures Join(frames)[|frames[0]|..] == Join(frames[1..])
    ensures After(Join(frames), v).left == |Join(frames[1..])|
    ensures Received(Join(frames[1..]), After(Join(frames), v)) == (frames[1..], Short)
  {
    assert IsFrame(frames[0]);
    assert Join(frames) == frames[0] + Join(frames[1..]);
    ReceivedOne(Join(frames), v);
  }

  // A message alone on a connection, which the network delivers at once, is read back if and only if
  // it fits the buffer: from 4097 bytes on it is corrupted.
  lemma MessageFitsBuffer(f: seq<byte>)
    requires IsFrame(f)
    ensures Received(f, Buffered(|f|, 0, 0, [])) == ([f], Short) <==> |f| <= 4096
  {
    var v: Reader := Buffered(|f|, 0, 0, []);
    var h := DecodeHeader(f);
    assert Join([f]) == f by { assert f + [] == f; }
    ReadBackIffFull([f], v);
    SkipFills(v, h.size);
    HeaderIsShort(f);
    SkipInBuffer(Filled(v), h.size);
    assert Content(f, v) == Least(h.value, Least(|f|, BUFFER_SIZE) - h.size);
    if |f| <= BUFFER_SIZE {
      assert f[h.size + h.value..] == [];
      assert FullReads([], After(f, v));
      FullReadFirst(f, v);
    }
  }

  lemma HeaderIsShort(f: seq<byte>)
    requires DecodeHeader(f).Length?
    ensures 2 <= DecodeHeader(f).size < 130 && DecodeHeader(f).size <= |f|
  {
  }

  // Such a message there is, with any content of 5000 bytes.
  lemma LargeMessageIsCorrupted(content: seq<byte>)
    requires |content| == 5000
    ensures var f := Encode(LongForm(2), content);
            IsFrame(f) && Received(f, Buffered(|f|, 0, 0, [])) != ([f], Short)
  {
    assert Bound(2) == 256 * 256;
    EncodedIsFrame(LongForm(2), content);
    MessageFitsBuffer(Encode(LongForm(2), content));
  }

  // Encodings ------------------------------------------------------------------------------------

  // The definite forms of a length: one byte, or n bytes with any number of leading zeros.
  datatype Form = ShortForm | LongForm(n: nat)

  predicate Encodes(form: Form, length: nat) {
    match form
    case ShortForm => length < 0x80
    case LongForm(n) => 1 <= n < 0x80 && length < Bound(n) && length < LENGTH_LIMIT
  }

  function Encode(form: Form, content: seq<byte>): seq<byte>
    requires Encodes(form, |content|)
  {
    match form
    case ShortForm => [SEQUENCE_TAG, |content|] + content
    case LongForm(n) => [SEQUENCE_TAG, 0x80 + n] + BigEndian(|content|, n) + content
  }

  lemma EncodedIsFrame(form: Form, content: seq<byte>)
    requires Encodes(form, |content|)
    ensures IsFrame(Encode(form, content))
  {
    var f := Encode(form, content);
    if form.LongForm? {
      assert f[2..][..form.n] == BigEndian(|content|, form.n);
      ValueOfBigEndian(|content|, form.n);
    }
  }

  // The frames are exactly the encodings of contents of fewer than 2^31 bytes, in short or long
  // form, leading zeros included.
  lemma FrameIsEncoded(f: seq<byte>) returns (form: Form, content: seq<byte>)
    requires IsFrame(f)
    ensures Encodes(form, |content|) && f == Encode(form, content)
  {
    var h := DecodeHeader(f);
    content := f[h.size..];
    if f[1] < 0x80 {
      form := ShortForm;
    } else {
      var n := f[1] - 0x80;
      form := LongForm(n);
      var digits := f[2..][..n];
      ValueBound(digits);
      BigEndianOfValue(digits);
      assert f == f[..2] + digits + content;
    }
  }

  // The length bytes decide: with all of them there, a long length is accepted exactly when its
  // big-endian value is below 2^31, and rejected as too large otherwise.
  lemma LongLengthIsExact(digits: seq<byte>, rest: seq<byte>)
    requires 1 <= |digits| < 128
    ensures var h := DecodeHeader([0x30, 128 + |digits|] + digits + rest);
            h == if Value(digits) < 2_147_483_648 then Length(Value(digits), 2 + |digits|) else TooLarge
  {
    var d := [0x30, 128 + |digits|] + digits + rest;
    assert d == [0x30, 128 + |digits|] + (digits + rest);
    LongHeader(d, |digits|);
    LongLengthOfDigits(digits, rest);
  }

  lemma LongLengthOfDigits(digits: seq<byte>, rest: seq<byte>)
    ensures LongLength(digits + rest, |digits|, 2)
            == if Value(digits) < 2_147_483_648 then Length(Value(digits), 2 + |digits|) else TooLarge
  {
    assert (digits + rest)[..|digits|] == digits;
  }

  // All other first bytes: a short length is the second byte, the indefinite form and other tags are
  // refused, and where length bytes are missing it is the end of the stream that is reported, unless
  // those that are there are too many already.
  lemma OtherHeaders(d: seq<byte>)
    ensures d == [] || d == [0x30] ==> DecodeHeader(d) == Short
    ensures d != [] && d[0] != 0x30 ==> DecodeHeader(d) == NotSequence
    ensures |d| >= 2 && d[0] == 0x30 && d[1] < 128 ==> DecodeHeader(d) == Length(d[1], 2)
    ensures |d| >= 2 && d[0] == 0x30 && d[1] == 128 ==> DecodeHeader(d) == Indefinite
    ensures |d| >= 2 && d[0] == 0x30 && d[1] > 128 && d[1] - 128 > |d| - 2 ==>
              DecodeHeader(d) == if Value(d[2..]) >= 2_147_483_648 then TooLarge else Short
  {
    if |d| >= 2 { assert d[2..][..|d| - 2] == d[2..]; }
  }

  // What the frames are, byte by byte.
  lemma FramesAre(f: seq<byte>)
    ensures IsFrame(f) <==>
            |f| >= 2 && f[0] == 0x30
            && if f[1] <= 128 then f[1] < 128 && |f| == 2 + f[1]
               else 2 + (f[1] - 128) <= |f|
                    && Value(f[2..][..f[1] - 128]) < 2_147_483_648
                    && |f| == 2 + (f[1] - 128) + Value(f[2..][..f[1] - 128])
  {
    OtherHeaders(f);
  }
}
