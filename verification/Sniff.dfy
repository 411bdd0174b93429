// Sniffing the protocol of a connection and handing it on unread (conn.go).
module Sniff {
  import opened Bytes
  import opened Packet
  import opened Streams

  const SNIFF_LENGTH := 14

  // The bind request of the LDAP clients it expects.
  const LDAP_HEADER: seq<byte> := [48, 12, 2, 1, 1, 96, 7, 2, 1, 3, 4, 0, 128, 0]

  // "JRMI"
  const RMI_MAGIC: seq<byte> := [0x4A, 0x52, 0x4D, 0x49]

  datatype Protocol = Rmi | Ldap | Http | Unreadable

  function Padded(got: seq<byte>): seq<byte>
    requires |got| <= SNIFF_LENGTH
  {
    got + Zeros(SNIFF_LENGTH - |got|)
  }

  // Where Accept sends a connection whose first read delivered `got`. The comparison with the
  // LDAP header is over the whole buffer, also where the read did not reach.
  function Classify(got: seq<byte>): Protocol
    requires |got| <= SNIFF_LENGTH
  {
    if |got| < 4 then Unreadable
    else if got[..4] == RMI_MAGIC then Rmi
    else if Padded(got) == LDAP_HEADER then Ldap
    else Http
  }

  // Where a connection goes, by the bytes of its first read: "JRMI" in front for RMI, the header or all
  // but its last byte for LDAP, and everything else of four bytes or more is left to HTTP.
  lemma GoesTo(got: seq<byte>)
    requires |got| <= 14
    ensures Classify(got) == Unreadable <==> |got| < 4
    ensures Classify(got) == Rmi <==> |got| >= 4 && got[..4] == [0x4A, 0x52, 0x4D, 0x49]
    ensures Classify(got) == Ldap <==>
              |got| >= 13 && got == [48, 12, 2, 1, 1, 96, 7, 2, 1, 3, 4, 0, 128, 0][..|got|]
    ensures Classify(got) == Http <==>
              |got| >= 4 && got[..4] != [0x4A, 0x52, 0x4D, 0x49]
              && (|got| < 13 || got != [48, 12, 2, 1, 1, 96, 7, 2, 1, 3, 4, 0, 128, 0][..|got|])
  {
    LdapNeedsThirteenBytes(got);
    if |got| >= 13 && got == LDAP_HEADER[..|got|] { assert got[..4][0] == 48; }
  }

  // The header ends in a zero byte, so its first 13 bytes are enough, and no fewer are.
  lemma LdapNeedsThirteenBytes(got: seq<byte>)
    requires |got| <= SNIFF_LENGTH
    ensures Classify(got) == Ldap <==> |got| >= 13 && got == LDAP_HEADER[..|got|]
  {
    var p := Padded(got);
    assert p[..|got|] == got;
    assert LDAP_HEADER[12] == 128;
    assert |got| < 13 ==> p[12] == 0;
    if |got| >= 13 && got == LDAP_HEADER[..|got|] {
      assert got[0] == 48;
      assert got[..4][0] == 48;
      assert p == LDAP_HEADER;
    }
  }

  // The first read of an accepted connection decides, and is put back.
  method Accept(conn: Stream) returns (protocol: Protocol, peeked: PeekedConn)
    modifies conn
    ensures fresh(peeked) && peeked.conn == conn
    ensures peeked.Remaining() == old(conn.rest)
    ensures var n := Cut(14, |old(conn.rest)|, old(conn.cuts));
            && peeked.head == old(conn.rest)[..n] && conn.rest == old(conn.rest)[n..]
            && (protocol == Unreadable <==> n < 4)
            && (protocol == Rmi <==> n >= 4 && old(conn.rest)[..4] == [0x4A, 0x52, 0x4D, 0x49])
            && (protocol == Ldap <==>
                  n >= 13 && old(conn.rest)[..n] == [48, 12, 2, 1, 1, 96, 7, 2, 1, 3, 4, 0, 128, 0][..n])
    ensures protocol == Classify(peeked.head) && conn.cuts == Tail(old(conn.cuts))
  {
    var got, eof := conn.Read(SNIFF_LENGTH);
    peeked := new PeekedConn(got, conn);
    GoesTo(got);
    assert |got| >= 4 ==> got[..4] == old(conn.rest)[..4];
    if eof || |got| < 4 {
      protocol := Unreadable;
    } else if got[..4] == RMI_MAGIC {
      protocol := Rmi;
    } else if got + Zeros(SNIFF_LENGTH - |got|) == LDAP_HEADER {
      protocol := Ldap;
    } else {
      protocol := Http;
    }
  }

  lemma HeaderIsFrame(got: seq<byte>, rest: seq<byte>)
    requires 13 <= |got| <= SNIFF_LENGTH && Classify(got) == Ldap
    ensures IsFrame(LDAP_HEADER) && DecodeHeader(got + rest) == Length(12, 2)
    ensures got + Zeros(14 - |got|) == LDAP_HEADER
  {
    LdapNeedsThirteenBytes(got);
    assert (got + rest)[0] == LDAP_HEADER[0] && (got + rest)[1] == LDAP_HEADER[1];
  }

  // The buffer takes the sniffed bytes whole, and the first message takes all of the buffer.
  lemma HeaderIsTaken(n: nat, left: nat, cuts: seq<nat>)
    requires 13 <= n <= 14
    ensures var v: Reader := Buffered(n + left, 0, n, cuts);
            v.Skip(2).Takes(12) == n - 2 && v.Skip(2).After(12) == Buffered(left, 0, 0, cuts)
  {
    var v: Reader := Buffered(n + left, 0, n, cuts);
    assert v.Skip(0) == v;
    assert v.Skip(1) == v.After(1) == Buffered(n + left - 1, n - 1, 0, cuts);
    assert v.Skip(2) == v.Skip(1).After(1) == Buffered(n + left - 2, n - 2, 0, cuts);
  }

  lemma HeaderMessage(got: seq<byte>, rest: seq<byte>, cuts: seq<nat>)
    requires 13 <= |got| <= SNIFF_LENGTH && Classify(got) == Ldap
    ensures var v: Reader := Buffered(|got| + |rest|, 0, |got|, cuts);
            && DecodeHeader(got + rest) == Length(12, 2) && Content(got + rest, v) == |got| - 2
            && (got + rest)[|got|..] == rest == [] + rest
            && Message(got + rest, v) == LDAP_HEADER && After(got + rest, v) == Buffered(|rest|, 0, 0, cuts)
  {
    HeaderIsFrame(got, rest);
    HeaderIsTaken(|got|, |rest|, cuts);
    assert (got + rest)[..|got|] == got;
  }

  // What is read off a connection that was sniffed and taken for LDAP.
  function ReadOff(got: seq<byte>, rest: seq<byte>, cuts: seq<nat>): (seq<seq<byte>>, Header) {
    Received(got + rest, Buffered(|got| + |rest|, 0, |got|, cuts))
  }

  // The first message is exactly the header, however the network cuts the later bytes; and those
  // are read as if they were a connection of their own.
  lemma FirstFrameIsTheHeader(got: seq<byte>, rest: seq<byte>, cuts: seq<nat>)
    requires |got| <= SNIFF_LENGTH && Classify(got) == Ldap
    ensures IsFrame(LDAP_HEADER)
    ensures var later := ReadOff([], rest, cuts);
            ReadOff(got, rest, cuts) == ([LDAP_HEADER] + later.0, later.1)
  {
    LdapNeedsThirteenBytes(got);
    HeaderIsFrame(got, rest);
    HeaderMessage(got, rest, cuts);
    ReceivedOne(got + rest, Buffered(|got| + |rest|, 0, |got|, cuts));
  }

  // So when only 13 of the header's bytes were sniffed, its last byte is left over, and the next
  // read panics on it.
  lemma ThirteenBytesGoAstray(got: seq<byte>, rest: seq<byte>, cuts: seq<nat>)
    requires |got| == 13 && Classify(got) == Ldap && rest != [] && rest[0] == LDAP_HEADER[13]
    ensures ReadOff(got, rest, cuts) == ([LDAP_HEADER], NotSequence)
  {
    FirstFrameIsTheHeader(got, rest, cuts);
    assert LDAP_HEADER[13] == 0 && [] + rest == rest;
    ReceivedOne(rest, Buffered(|rest|, 0, 0, cuts));
    assert [LDAP_HEADER] + [] == [LDAP_HEADER];
  }

  // Accepting a connection and, when it is LDAP's, reading its messages: the header first.
  method AcceptAndRead(conn: Stream) returns (protocol: Protocol, packets: seq<seq<byte>>, end: Header)
    modifies conn
    ensures var n := Cut(14, |old(conn.rest)|, old(conn.cuts));
            && (protocol == Unreadable <==> n < 4)
            && (protocol == Rmi <==> n >= 4 && old(conn.rest)[..4] == [0x4A, 0x52, 0x4D, 0x49])
            && (protocol == Ldap <==>
                  n >= 13 && old(conn.rest)[..n] == [48, 12, 2, 1, 1, 96, 7, 2, 1, 3, 4, 0, 128, 0][..n])
            && (protocol == Ldap ==>
                  var later := ReadOff([], old(conn.rest)[n..], Tail(old(conn.cuts)));
                  packets == [[48, 12, 2, 1, 1, 96, 7, 2, 1, 3, 4, 0, 128, 0]] + later.0 && end == later.1)
  {
    var peeked;
    packets, end := [], Short;
    protocol, peeked := Accept(conn);
    if protocol == Ldap {
      FirstFrameIsTheHeader(peeked.head, conn.rest, conn.cuts);
      packets, end := ReadSniffed(peeked);
    }
  }

  method ReadSniffed(peeked: PeekedConn) returns (packets: seq<seq<byte>>, end: Header)
    modifies peeked, peeked.conn
    ensures (packets, end) == ReadOff(old(peeked.head), old(peeked.conn.rest), old(peeked.conn.cuts))
  {
    ghost var got, rest, cuts := peeked.head, peeked.conn.rest, peeked.conn.cuts;
    var reader := new BufferedReader(peeked);
    ghost var d, v := reader.coming, reader.how;
    SameReading(got, rest, cuts, d, v);
    packets, end := ReadPackets(reader);
  }

  lemma SameReading(got: seq<byte>, rest: seq<byte>, cuts: seq<nat>, d: seq<byte>, v: Reader)
    requires d == got + rest && v == Buffered(|got| + |rest|, 0, |got|, cuts)
    ensures ReadOff(got, rest, cuts) == Received(d, v)
  {
  }
}
