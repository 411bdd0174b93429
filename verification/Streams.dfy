// What the readers of a connection get: a network connection, the sniffed bytes put back before it
// (conn.go), and the buffered reader of the LDAP client over both (bufio.Reader).
module Streams {
  import opened Bytes

  // How many of `left` bytes still to come a read of at most n delivers.
  function Cut(n: nat, left: nat, cuts: seq<nat>): (k: nat)
    ensures k <= n && k <= left && (n > 0 && left > 0 ==> k > 0)
  {
    var k := Least(n, left);
    if cuts != [] && 0 < cuts[0] < k then cuts[0] else k
  }

  // The same where the first bytes were sniffed.
  function Delivers(n: nat, left: nat, sniffed: nat, cuts: seq<nat>): (k: nat)
    requires sniffed <= left
    ensures k <= n && k <= left && (n > 0 && left > 0 ==> k > 0)
  {
    if sniffed > 0 then Least(n, sniffed) else Cut(n, left, cuts)
  }

  function Tail(cuts: seq<nat>): seq<nat> {
    if cuts == [] then [] else cuts[1..]
  }

  // A network connection: the bytes still to come before its end, and how many of them the coming
  // reads deliver at most; further reads deliver all they are asked for.
  class Stream {
    var rest: seq<byte>
    var cuts: seq<nat>

    constructor (rest: seq<byte>, cuts: seq<nat>)
      ensures this.rest == rest && this.cuts == cuts
    {
      this.rest, this.cuts := rest, cuts;
    }

    method Read(n: nat) returns (got: seq<byte>, eof: bool)
      modifies this
      ensures var k := Cut(n, |old(rest)|, old(cuts));
              got == old(rest)[..k] && rest == old(rest)[k..] && cuts == Tail(old(cuts))
      ensures eof <==> n > 0 && old(rest) == []
    {
      eof := n > 0 && rest == [];
      var k := Cut(n, |rest|, cuts);
      cuts := Tail(cuts);
      got, rest := rest[..k], rest[k..];
    }
  }

  // How a connection delivers after sniffing: the number of bytes still to come, of which the
  // sniffed ones come first, and never together with later ones.
  datatype Feeding = Feed(left: nat, sniffed: nat, cuts: seq<nat>) {
    predicate Valid() {
      sniffed <= left
    }

    function Takes(n: nat): (k: nat)
      requires Valid()
      ensures k <= n && k <= left && (n > 0 && left > 0 ==> k > 0)
    {
      Delivers(n, left, sniffed, cuts)
    }

    function After(n: nat): (f: Feeding)
      requires Valid()
      ensures f.Valid() && f.left == left - Takes(n)
    {
      if sniffed > 0 then Feed(left - Takes(n), sniffed - Takes(n), cuts)
      else Feed(left - Takes(n), 0, Tail(cuts))
    }
  }

  lemma Associative<T>(a: seq<T>, b: seq<T>, c: seq<T>)
    ensures (a + b) + c == a + (b + c)
  {
  }

  // The sniffed bytes before the rest of the connection: an io.MultiReader over both.
  class PeekedConn {
    var head: seq<byte>
    const conn: Stream

    function View(): (f: Feeding)
      reads this, conn
      ensures f.Valid()
    {
      Feed(|head| + |conn.rest|, |head|, conn.cuts)
    }

    function Remaining(): seq<byte>
      reads this, conn
    {
      head + conn.rest
    }

    constructor (head: seq<byte>, conn: Stream)
      ensures this.head == head && this.conn == conn
    {
      this.head, this.conn := head, conn;
    }

    // Reading nothing from exhausted sniffed bytes moves on to the connection.
    method Read(n: nat) returns (got: seq<byte>, eof: bool)
      modifies this, conn
      ensures got + Remaining() == old(Remaining()) && |got| == old(View()).Takes(n)
      ensures View() == old(View()).After(n)
      ensures old(head) != [] ==> |got| == Least(n, |old(head)|) && conn.rest == old(conn.rest)
      ensures eof <==> n > 0 && old(Remaining()) == []
      ensures n > 0 && old(Remaining()) != [] ==> got != []
    {
      if head != [] {
        var k := Least(n, |head|);
        got, eof := head[..k], false;
        head := head[k..];
        assert got + (head + conn.rest) == old(head) + conn.rest;
      } else {
        got, eof := conn.Read(n);
        assert head + conn.rest == conn.rest && old(head) + old(conn.rest) == old(conn.rest);
      }
    }

    // Whatever sizes it is read in, the connection delivers the sniffed bytes and then the rest of
    // the stream: what has been read and what remains are always the original bytes.
    method ReadSizes(sizes: seq<nat>) returns (all: seq<byte>)
      modifies this, conn
      ensures all + Remaining() == old(Remaining())
      ensures (forall i :: 0 <= i < |sizes| ==> sizes[i] > 0) ==> |all| >= |sizes| || Remaining() == []
    {
      all := [];
      var i := 0;
      while i < |sizes|
        invariant i <= |sizes|
        invariant all + Remaining() == old(Remaining())
        invariant (forall j :: 0 <= j < |sizes| ==> sizes[j] > 0) ==> |all| >= i || Remaining() == []
      {
        ghost var before, read := Remaining(), all;
        var got, eof := Read(sizes[i]);
        all := all + got;
        assert all + Remaining() == read + before by { Associative(read, got, Remaining()); }
        i := i + 1;
      }
    }
  }

  // bufio.NewReader's default size.
  const BUFFER_SIZE := 4096

  // How a buffered reader delivers: the number of bytes still to come, of which some are in the
  // buffer and the next ones were sniffed. A read is served from the buffer; an empty buffer is
  // first filled by one read, and by-passed when as much is asked for as it holds.
  datatype Buffering = Buffered(left: nat, ready: nat, sniffed: nat, cuts: seq<nat>) {
    predicate Valid() {
      ready + sniffed <= left
    }

    // What one read of n from the connection underneath would deliver after the buffer's bytes.
    function Supply(n: nat): (k: nat)
      requires Valid()
      ensures k <= n && k <= left - ready && (n > 0 && left > ready ==> k > 0)
    {
      Delivers(n, left - ready, sniffed, cuts)
    }

    function Takes(n: nat): (k: nat)
      requires Valid()
      ensures k <= n && k <= left && (n > 0 && left > 0 ==> k > 0)
    {
      if n == 0 then 0
      else if ready > 0 then Least(n, ready)
      else if n >= BUFFER_SIZE then Supply(n)
      else Least(n, Supply(BUFFER_SIZE))
    }

    // The connection underneath has been read, to fill the buffer or for n bytes past it.
    function Supplied(n: nat): (b: Buffering)
      requires Valid() && ready == 0
      ensures b.Valid() && b.left == left && b.ready == Supply(n)
    {
      if sniffed > 0 then Buffered(left, Supply(n), sniffed - Supply(n), cuts)
      else Buffered(left, Supply(n), 0, Tail(cuts))
    }

    function Dropped(k: nat): (b: Buffering)
      requires Valid() && k <= ready
      ensures b.Valid() && b.left == left - k
    {
      Buffered(left - k, ready - k, sniffed, cuts)
    }

    function After(n: nat): (b: Buffering)
      requires Valid()
      ensures b.Valid() && b.left == left - Takes(n)
    {
      if n == 0 then this
      else if ready > 0 then Dropped(Takes(n))
      else Supplied(if n >= BUFFER_SIZE then n else BUFFER_SIZE).Dropped(Takes(n))
    }

    // After n reads of one byte.
    function Skip(n: nat): (b: Buffering)
      requires Valid() && n <= left
      ensures b.Valid() && b.left == left - n
      decreases n
    {
      if n == 0 then this else Skip(n - 1).After(1)
    }
  }

  type Reader = v: Buffering | v.Valid() witness Buffered(0, 0, 0, [])

  class BufferedReader {
    var buf: seq<byte>
    const conn: PeekedConn
    ghost var coming: seq<byte>      // the bytes still to come, and how they will
    ghost var how: Reader

    ghost predicate Valid()
      reads this, conn, conn.conn
    {
      && coming == buf + conn.Remaining()
      && how == Buffered(|buf| + |conn.head| + |conn.conn.rest|, |buf|, |conn.head|, conn.conn.cuts)
    }

    constructor (conn: PeekedConn)
      ensures Valid() && this.conn == conn && buf == [] && coming == conn.Remaining()
      ensures how == Buffered(|conn.head| + |conn.conn.rest|, 0, |conn.head|, conn.conn.cuts)
    {
      this.buf, this.conn := [], conn;
      coming := conn.Remaining();
      how := Buffered(|conn.head| + |conn.conn.rest|, 0, |conn.head|, conn.conn.cuts);
    }

    method Read(n: nat) returns (got: seq<byte>, eof: bool)
      requires Valid()
      modifies this, conn, conn.conn
      ensures Valid() && how == old(how).After(n)
      ensures |got| == old(how).Takes(n) && got == old(coming)[..|got|] && coming == old(coming)[|got|..]
      ensures eof <==> n > 0 && old(coming) == []
    {
      if n == 0 { return [], false; }
      if buf == [] {
        if n >= BUFFER_SIZE {
          got, eof := Pass(n);
          return;
        }
        eof := Fill();
        if buf == [] { return [], eof; }
      }
      got := Take(Least(n, |buf|));
      eof := false;
    }

    // One read past the empty buffer.
    method Pass(n: nat) returns (got: seq<byte>, eof: bool)
      requires Valid() && buf == [] && n > 0
      modifies this, conn, conn.conn
      ensures Valid() && buf == []
      ensures |got| == old(how).Supply(n) && how == old(how).Supplied(n).Dropped(old(how).Supply(n))
      ensures got == old(coming)[..|got|] && coming == old(coming)[|got|..]
      ensures eof <==> old(coming) == []
    {
      got, eof := conn.Read(n);
      coming := coming[|got|..];
      how := how.Supplied(n).Dropped(|got|);
    }

    method Fill() returns (eof: bool)
      requires Valid() && buf == []
      modifies this, conn, conn.conn
      ensures Valid() && coming == old(coming) && how == old(how).Supplied(BUFFER_SIZE)
      ensures eof <==> old(coming) == []
    {
      ghost var all := coming;
      var got;
      got, eof := Pass(BUFFER_SIZE);
      buf, coming := got, all;
      how := how.(left := how.left + |got|, ready := |got|);
    }

    method Take(k: nat) returns (got: seq<byte>)
      requires Valid() && k <= |buf|
      modifies this
      ensures Valid() && how == old(how).Dropped(k)
      ensures |got| == k && got == old(coming)[..k] && coming == old(coming)[k..]
    {
      got := buf[..k];
      buf := buf[k..];
      coming, how := coming[k..], how.Dropped(k);
    }
  }

  // A network may deliver any number of the bytes asked for, but for none at all.
  lemma AnyCut(n: nat, left: nat, k: nat)
    requires 0 < k <= n && k <= left
    ensures Cut(n, left, [k]) == k && Cut(n, left, []) == if n <= left then n else left
  {
  }

  // With nothing buffered or sniffed, and the network delivering all it is asked for, a read of fewer
  // than 4096 bytes leaves the rest of a filling of 4096 in the buffer, and a larger one nothing.
  lemma FillsOrPasses(left: nat, n: nat)
    requires 0 < n <= left
    ensures var v: Reader := Buffered(left, 0, 0, []);
            && v.Takes(n) == n
            && v.After(n).ready == if n >= 4096 then 0 else (if left <= 4096 then left else 4096) - n
  {
  }
}
