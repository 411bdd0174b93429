// URL printers (group.go) against the path patterns of the RMI and LDAP listeners
// (rmi_server.go, ldap_server.go) and the HTTP route (http_server.go).
// A text is the sequence of characters the regular-expression engine decodes.
module Paths {
  import opened Events

  const INTERNAL_MARK := "i"
  const PUBLIC_MARK := "p"
  const RMI_START := "GykcaQgj"
  const RMI_END := "fYqzYxJz"

  datatype Captures = Captures(token: string, group: string, unit: string)

  // A pattern is `head token/group/unit/ tail` anchored at the end of the text, where the
  // head ends in a slash and the tail has none.
  datatype Pattern = Pattern(stem: string, tail: string)

  const RMI_PATTERN := Pattern(INTERNAL_MARK + "/" + RMI_START, RMI_END)
  const LDAP_PATTERN := Pattern(INTERNAL_MARK, "")

  predicate SlashFree(s: string) {
    '/' !in s
  }

  // `[^/]{0,32}`
  predicate IsPart(s: string) {
    SlashFree(s) && |s| <= 32
  }

  predicate AreParts(c: Captures) {
    IsPart(c.token) && IsPart(c.group) && IsPart(c.unit)
  }

  // `part/rest`
  function Cut(part: string, rest: string): string {
    part + ("/" + rest)
  }

  function RenderParts(c: Captures, tail: string): string {
    Cut(c.token, Cut(c.group, Cut(c.unit, tail)))
  }

  function Render(p: Pattern, c: Captures): string {
    Cut(p.stem, RenderParts(c, p.tail))
  }

  // The meaning of the regular expression: a match at position `at` with captures c.
  predicate Matches(p: Pattern, s: string, at: nat, c: Captures) {
    at <= |s| && AreParts(c) && s[at..] == Render(p, c)
  }

  // Reads up to the first slash: the text before it and the text after it.
  function Segment(s: string): (r: Option<(string, string)>)
    ensures r.Some? ==> SlashFree(r.value.0) && s == Cut(r.value.0, r.value.1)
  {
    if s == "" then None
    else if s[0] == '/' then Some(("", s[1..]))
    else
      var r := Segment(s[1..]);
      if r.None? then None else Some(([s[0]] + r.value.0, r.value.1))
  }

  // Three `([^/]*)/` groups in a row, and what follows them.
  function Segments(s: string): (r: Option<(Captures, string)>)
    ensures r.Some? ==> s == RenderParts(r.value.0, r.value.1)
  {
    var token := Segment(s);
    if token.None? then None else
    var group := Segment(token.value.1);
    if group.None? then None else
    var unit := Segment(group.value.1);
    if unit.None? then None
    else Some((Captures(token.value.0, group.value.0, unit.value.0), unit.value.1))
  }

  // The matcher at the start of a text.
  function MatchHere(p: Pattern, s: string): (r: Option<Captures>)
    ensures r.Some? ==> AreParts(r.value) && s == Render(p, r.value)
  {
    var head := p.stem + "/";
    if !(head <= s) then None
    else
      var r := Segments(s[|head|..]);
      if r.Some? && AreParts(r.value.0) && r.value.1 == p.tail then
        assert s == p.stem + ("/" + s[|head|..]);
        Some(r.value.0)
      else None
  }

  // FindStringSubmatch: the leftmost match at or after `at`.
  function Find(p: Pattern, s: string, at: nat := 0): (r: Option<Captures>)
    requires at <= |s|
    decreases |s| - at
  {
    var here := MatchHere(p, s[at..]);
    if here.Some? then here
    else if at == |s| then None
    else Find(p, s, at + 1)
  }

  lemma {:induction false} SegmentOfCut(part: string, rest: string)
    requires SlashFree(part)
    ensures Segment(Cut(part, rest)) == Some((part, rest))
  {
    if part == "" {
      assert Cut(part, rest)[1..] == rest;
    } else {
      assert part[0] in part && part == [part[0]] + part[1..];
      assert Cut(part, rest)[0] == part[0];
      assert Cut(part, rest)[1..] == Cut(part[1..], rest);
      SegmentOfCut(part[1..], rest);
    }
  }

  lemma SegmentsOfParts(c: Captures, tail: string)
    requires SlashFree(c.token) && SlashFree(c.group) && SlashFree(c.unit)
    ensures Segments(RenderParts(c, tail)) == Some((c, tail))
  {
    SegmentOfCut(c.token, Cut(c.group, Cut(c.unit, tail)));
    SegmentOfCut(c.group, Cut(c.unit, tail));
    SegmentOfCut(c.unit, tail);
  }

  // The matcher computes the meaning of the pattern: it captures c exactly on the printed
  // path of c.
  lemma MatchHereExact(p: Pattern, s: string, c: Captures)
    ensures MatchHere(p, s) == Some(c) <==> AreParts(c) && s == Render(p, c)
  {
    if AreParts(c) && s == Render(p, c) {
      SegmentsOfParts(c, p.tail);
      assert s[|p.stem + "/"|..] == RenderParts(c, p.tail);
      assert p.stem + "/" <= s;
    }
  }

  // A text splits at its last slash in one way only.
  lemma LastSlashUnique(x: string, a: string, y: string, b: string)
    requires Cut(x, a) == Cut(y, b) && SlashFree(a) && SlashFree(b)
    ensures x == y && a == b
  {
    var s := Cut(x, a);
    assert s[|x|] == '/' && s[|y|] == '/';
    assert forall i :: |x| < i < |s| ==> s[i] == a[i - |x| - 1];
    assert forall i :: |y| < i < |s| ==> s[i] == b[i - |y| - 1];
    assert |x| == |y|;
    assert x == s[..|x|] == y && a == s[|x| + 1..] == b;
  }

  lemma CutAssoc(x: string, part: string, rest: string)
    ensures x + Cut(part, rest) == Cut(x + part, rest)
  {
  }

  // Read from the right, a match is a stack of last-slash splits.
  lemma Restack(p: Pattern, prefix: string, c: Captures)
    ensures prefix + Render(p, c)
            == Cut(Cut(Cut(Cut(prefix + p.stem, c.token), c.group), c.unit), p.tail)
  {
    var x := prefix + p.stem;
    CutAssoc(prefix, p.stem, RenderParts(c, p.tail));
    RestackCut(x, c.token, Cut(c.group, Cut(c.unit, p.tail)));
    RestackCut(Cut(x, c.token), c.group, Cut(c.unit, p.tail));
    RestackCut(Cut(Cut(x, c.token), c.group), c.unit, p.tail);
  }

  lemma RestackCut(x: string, part: string, rest: string)
    ensures Cut(x, Cut(part, rest)) == Cut(Cut(x, part), rest)
  {
  }

  // Every text has at most one match of a pattern, wherever it starts.
  lemma MatchUnique(p: Pattern, s: string, at1: nat, c1: Captures, at2: nat, c2: Captures)
    requires SlashFree(p.tail)
    requires Matches(p, s, at1, c1) && Matches(p, s, at2, c2)
    ensures at1 == at2 && c1 == c2
  {
    var x1, x2 := s[..at1] + p.stem, s[..at2] + p.stem;
    var y1, y2 := Cut(x1, c1.token), Cut(x2, c2.token);
    var z1, z2 := Cut(y1, c1.group), Cut(y2, c2.group);
    var w1, w2 := Cut(z1, c1.unit), Cut(z2, c2.unit);
    Restack(p, s[..at1], c1);
    Restack(p, s[..at2], c2);
    assert s == s[..at1] + s[at1..] == s[..at2] + s[at2..];
    LastSlashUnique(w1, p.tail, w2, p.tail);
    LastSlashUnique(z1, c1.unit, z2, c2.unit);
    LastSlashUnique(y1, c1.group, y2, c2.group);
    LastSlashUnique(x1, c1.token, x2, c2.token);
    assert |x1| == |x2|;
  }

  lemma {:induction false} FindReaches(p: Pattern, s: string, from: nat, at: nat, c: Captures)
    requires SlashFree(p.tail) && from <= at && Matches(p, s, at, c)
    ensures Find(p, s, from) == Some(c)
    decreases at - from
  {
    var here := MatchHere(p, s[from..]);
    if here.Some? {
      MatchUnique(p, s, from, here.value, at, c);
    } else {
      MatchHereExact(p, s[at..], c);
      FindReaches(p, s, from + 1, at, c);
    }
  }

  lemma {:induction false} FindSound(p: Pattern, s: string, from: nat) returns (at: nat)
    requires from <= |s| && Find(p, s, from).Some?
    ensures Matches(p, s, at, Find(p, s, from).value)
    decreases |s| - from
  {
    at := from;
    if MatchHere(p, s[from..]).None? {
      at := FindSound(p, s, from + 1);
    }
  }

  // The search returns c exactly when the text is some prefix followed by the printed path
  // of c: no other prefix, cut or capture is possible.
  lemma FindInvertsRender(p: Pattern, s: string, c: Captures)
    requires SlashFree(p.tail)
    ensures Find(p, s) == Some(c) <==>
            AreParts(c) && exists prefix: string :: s == prefix + Render(p, c)
  {
    if Find(p, s) == Some(c) {
      var at := FindSound(p, s, 0);
      assert s == s[..at] + Render(p, c);
    }
    if AreParts(c) && exists prefix: string :: s == prefix + Render(p, c) {
      var prefix: string :| s == prefix + Render(p, c);
      assert s[|prefix|..] == Render(p, c);
      FindReaches(p, s, 0, |prefix|, c);
    }
  }

  // The paths of group.go's URLs, after scheme and authority.

  function VisitPath(c: Captures): string {
    "/" + INTERNAL_MARK + "/" + c.token + "/" + c.group + "/" + c.unit + "/"
  }

  function VisitUrl(base: string, c: Captures): string {
    base + "/" + INTERNAL_MARK + "/" + c.token + "/" + c.group + "/" + c.unit + "/"
  }

  function RmiUrl(addr: string, c: Captures): string {
    "rmi://" + addr + "/" + INTERNAL_MARK + "/" + RMI_START + "/"
    + c.token + "/" + c.group + "/" + c.unit + "/" + RMI_END + "/"
  }

  function LdapUrl(addr: string, c: Captures): string {
    "ldap://" + addr + "/" + INTERNAL_MARK + "/" + c.token + "/" + c.group + "/" + c.unit + "/"
  }

  // httprouter's `/i/:token/:group/:unit/*others`: three slash-terminated segments.
  function RouteInternal(path: string): (r: Option<Captures>) {
    var head := "/" + INTERNAL_MARK + "/";
    if !(head <= path) then None else
    var r := Segments(path[|head|..]);
    if r.None? then None else Some(r.value.0)
  }

  // httprouter's `/p/:token/:group/*others`; a public visit has no unit.
  function RoutePublic(path: string): (r: Option<Captures>) {
    var head := "/" + PUBLIC_MARK + "/";
    if !(head <= path) then None else
    var token := Segment(path[|head|..]);
    if token.None? then None else
    var group := Segment(token.value.1);
    if group.None? then None
    else Some(Captures(token.value.0, group.value.0, ""))
  }

  // What the paths are, character by character ---------------------------------------------------------

  lemma UrlsPrinted(base: string, addr: string, c: Captures)
    ensures VisitUrl(base, c) == base + "/i/" + c.token + "/" + c.group + "/" + c.unit + "/"
    ensures RmiUrl(addr, c)
            == "rmi://" + addr + "/i/GykcaQgj/" + c.token + "/" + c.group + "/" + c.unit + "/fYqzYxJz/"
    ensures LdapUrl(addr, c) == "ldap://" + addr + "/i/" + c.token + "/" + c.group + "/" + c.unit + "/"
  {
    assert VisitUrl(base, c) == base + ("/i/" + c.token + "/" + c.group + "/" + c.unit + "/");
  }

  // The listeners' searches, on any text.
  lemma RmiFound(s: string, c: Captures)
    ensures Find(RMI_PATTERN, s) == Some(c) <==>
            |c.token| <= 32 && |c.group| <= 32 && |c.unit| <= 32
            && '/' !in c.token && '/' !in c.group && '/' !in c.unit
            && exists prefix: string ::
                 s == prefix + ("i/GykcaQgj/" + c.token + "/" + c.group + "/" + c.unit + "/fYqzYxJz")
  {
    FindInvertsRender(RMI_PATTERN, s, c);
    RmiRendered(c);
  }

  lemma RmiRendered(c: Captures)
    ensures Render(RMI_PATTERN, c) == "i/GykcaQgj/" + c.token + "/" + c.group + "/" + c.unit + "/fYqzYxJz"
  {
    Rendered("i/GykcaQgj/", c, "fYqzYxJz");
    assert "i/GykcaQgj" + "/" == "i/GykcaQgj/" && "/" + "fYqzYxJz" == "/fYqzYxJz";
    Stacked("i/GykcaQgj", RenderParts(c, "fYqzYxJz"));
    var parts := "i/GykcaQgj/" + c.token + "/" + c.group + "/" + c.unit;
    Stacked(parts, "fYqzYxJz");
  }

  lemma LdapRendered(c: Captures)
    ensures Render(LDAP_PATTERN, c) == "i/" + c.token + "/" + c.group + "/" + c.unit + "/"
  {
    Rendered("i/", c, "");
    assert "i" + "/" == "i/";
    Stacked("i", RenderParts(c, ""));
  }

  lemma Stacked(a: string, b: string)
    ensures Cut(a, b) == a + "/" + b
  {
  }

  lemma Rendered(head: string, c: Captures, tail: string)
    ensures head + RenderParts(c, tail) == head + c.token + "/" + c.group + "/" + c.unit + "/" + tail
  {
    CutAssoc(head, c.token, Cut(c.group, Cut(c.unit, tail)));
    Stacked(head + c.token, Cut(c.group, Cut(c.unit, tail)));
    CutAssoc(head + c.token + "/", c.group, Cut(c.unit, tail));
    Stacked(head + c.token + "/" + c.group, Cut(c.unit, tail));
    CutAssoc(head + c.token + "/" + c.group + "/", c.unit, tail);
    Stacked(head + c.token + "/" + c.group + "/" + c.unit, tail);
  }

  lemma LdapFound(s: string, c: Captures)
    ensures Find(LDAP_PATTERN, s) == Some(c) <==>
            |c.token| <= 32 && |c.group| <= 32 && |c.unit| <= 32
            && '/' !in c.token && '/' !in c.group && '/' !in c.unit
            && exists prefix: string :: s == prefix + ("i/" + c.token + "/" + c.group + "/" + c.unit + "/")
  {
    FindInvertsRender(LDAP_PATTERN, s, c);
    LdapRendered(c);
  }

  lemma SegmentsAreSlashFree(s: string)
    requires Segments(s).Some?
    ensures var c := Segments(s).value.0; SlashFree(c.token) && SlashFree(c.group) && SlashFree(c.unit)
  {
  }

  lemma TakenApart(head: string, path: string)
    requires head <= path
    ensures path == head + path[|head|..]
  {
  }

  // The HTTP routes: which paths they take, and with what.
  lemma InternalRouted(path: string, c: Captures)
    ensures RouteInternal(path) == Some(c) <==>
            '/' !in c.token && '/' !in c.group && '/' !in c.unit
            && exists rest: string :: path == "/i/" + (c.token + "/" + c.group + "/" + c.unit + "/" + rest)
  {
    if RouteInternal(path) == Some(c) {
      TakenApart("/i/", path);
      SegmentsAreSlashFree(path[3..]);
      var rest := Segments(path[3..]).value.1;
      PartsInARow(c, rest);
    }
    if rest: string :| path == "/i/" + (c.token + "/" + c.group + "/" + c.unit + "/" + rest)
                       && '/' !in c.token && '/' !in c.group && '/' !in c.unit {
      PartsInARow(c, rest);
      assert path[3..] == RenderParts(c, rest);
      SegmentsOfParts(c, rest);
    }
  }

  lemma PartsInARow(c: Captures, rest: string)
    ensures RenderParts(c, rest) == c.token + "/" + c.group + "/" + c.unit + "/" + rest
  {
  }

  lemma PublicRouted(path: string, c: Captures)
    ensures RoutePublic(path) == Some(c) <==>
            '/' !in c.token && '/' !in c.group && c.unit == ""
            && exists rest: string :: path == "/p/" + (c.token + "/" + c.group + "/" + rest)
  {
    if RoutePublic(path) == Some(c) {
      TakenApart("/p/", path);
      var token := Segment(path[3..]).value;
      var rest := Segment(token.1).value.1;
      TwoInARow(c.token, c.group, rest);
    }
    if rest: string :| path == "/p/" + (c.token + "/" + c.group + "/" + rest)
                       && '/' !in c.token && '/' !in c.group && c.unit == "" {
      TwoInARow(c.token, c.group, rest);
      assert path[3..] == Cut(c.token, Cut(c.group, rest));
      SegmentOfCut(c.token, Cut(c.group, rest));
      SegmentOfCut(c.group, rest);
    }
  }

  lemma TwoInARow(token: string, group: string, rest: string)
    ensures Cut(token, Cut(group, rest)) == token + "/" + group + "/" + rest
  {
  }
}
