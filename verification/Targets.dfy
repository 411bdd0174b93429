// HTTP request targets, from the request line to the path that the router sees (net/http and
// net/url of Go, which http_server.go serves with).
module Targets {
  import opened Events
  import opened Paths

  predicate Printable(s: string) {
    forall c :: c in s ==> ' ' < c && c != '\U{7F}'
  }

  function BeforeQuery(target: string): (r: string)
    ensures r <= target
  {
    if target == "" || target[0] == '?' then "" else [target[0]] + BeforeQuery(target[1..])
  }

  function HexValue(c: char): Option<nat> {
    if '0' <= c <= '9' then Some((c - '0') as int)
    else if 'a' <= c <= 'f' then Some((c - 'a') as int + 10)
    else if 'A' <= c <= 'F' then Some((c - 'A') as int + 10)
    else None
  }

  // Percent-decoding; None where an escape is malformed.
  function Unescape(s: string): Option<string> {
    if s == "" then Some("")
    else if s[0] != '%' then
      var rest := Unescape(s[1..]);
      if rest.None? then None else Some([s[0]] + rest.value)
    else if |s| < 3 || HexValue(s[1]).None? || HexValue(s[2]).None? then None
    else
      var rest := Unescape(s[3..]);
      if rest.None? then None
      else Some([(16 * HexValue(s[1]).value + HexValue(s[2]).value) as char] + rest.value)
  }

  // A target with blanks, control characters or a malformed escape is a bad request.
  function RequestPath(target: string): Option<string> {
    if Printable(target) then Unescape(BeforeQuery(target)) else None
  }

  // Text that stands for itself in a URL's path segment.
  predicate PlainPart(s: string) {
    SlashFree(s) && Printable(s) && '?' !in s && '#' !in s && '%' !in s
  }

  lemma {:induction false} RequestPathKeeps(a: string, suffix: string)
    requires '?' !in a && '%' !in a
    ensures BeforeQuery(a + suffix) == a + BeforeQuery(suffix)
    ensures var tail := Unescape(suffix);
            Unescape(a + suffix) == if tail.None? then None else Some(a + tail.value)
  {
    if a == "" {
      assert a + suffix == suffix;
      assert Unescape(suffix).Some? ==> a + Unescape(suffix).value == Unescape(suffix).value;
    } else {
      assert a[0] in a;
      assert (a + suffix)[1..] == a[1..] + suffix;
      RequestPathKeeps(a[1..], suffix);
      assert a == [a[0]] + a[1..];
      var tail := Unescape(suffix);
      if tail.Some? { assert [a[0]] + (a[1..] + tail.value) == a + tail.value; }
    }
  }

  // The route captures the printed parts whatever is appended to a visit URL, except for what
  // makes the request a bad one by itself.
  lemma RouteInvertsVisitPath(c: Captures, suffix: string)
    requires PlainPart(c.token) && PlainPart(c.group) && PlainPart(c.unit)
    ensures var path := RequestPath(VisitPath(c) + suffix);
            if RequestPath(suffix).Some? then path.Some? && RouteInternal(path.value) == Some(c) else path.None?
  {
    PlainVisitPath(c);
    RequestPathKeeps(VisitPath(c), suffix);
    RequestPathKeeps(VisitPath(c), BeforeQuery(suffix));
    PrintableParts(VisitPath(c), suffix);
    if RequestPath(suffix).Some? { RouteOfVisitPath(c, RequestPath(suffix).value); }
  }

  lemma PrintableParts(a: string, b: string)
    ensures Printable(a + b) <==> Printable(a) && Printable(b)
  {
    assert forall c :: c in a + b <==> c in a || c in b;
  }

  lemma RouteOfVisitPath(c: Captures, rest: string)
    requires SlashFree(c.token) && SlashFree(c.group) && SlashFree(c.unit)
    ensures RouteInternal(VisitPath(c) + rest) == Some(c)
  {
    var head := "/" + INTERNAL_MARK + "/";
    var path := VisitPath(c) + rest;
    VisitPathIsCut(c, rest);
    assert path[|head|..] == RenderParts(c, rest);
    SegmentsOfParts(c, rest);
  }

  lemma PlainVisitPath(c: Captures)
    requires PlainPart(c.token) && PlainPart(c.group) && PlainPart(c.unit)
    ensures Printable(VisitPath(c)) && '?' !in VisitPath(c) && '%' !in VisitPath(c)
  {
  }

  lemma VisitPathIsCut(c: Captures, rest: string)
    ensures VisitPath(c) + rest == "/" + INTERNAL_MARK + "/" + RenderParts(c, rest)
  {
    RestackCut(c.group, c.unit, rest);
    RestackCut(c.token, Cut(c.group, c.unit), rest);
    assert VisitPath(c) == "/" + INTERNAL_MARK + "/" + Cut(c.token, Cut(c.group, c.unit)) + "/";
  }

  // Which targets are good requests: no blanks or control characters, and before the query every
  // percent sign is followed by two hexadecimal digits.
  lemma TargetIsGood(s: string)
    ensures RequestPath(s).Some? <==>
            (forall i :: 0 <= i < |s| ==> ' ' < s[i] && s[i] != '\U{7F}')
            && forall i :: 0 <= i < |s| && s[i] == '%' && '?' !in s[..i] ==>
                 i + 2 < |s|
                 && ('0' <= s[i + 1] <= '9' || 'a' <= s[i + 1] <= 'f' || 'A' <= s[i + 1] <= 'F')
                 && ('0' <= s[i + 2] <= '9' || 'a' <= s[i + 2] <= 'f' || 'A' <= s[i + 2] <= 'F')
  {
    PrintableChars(s);
    TargetEscapes(s);
    forall i | 0 <= i < |s|
      ensures IsEscape(s, i) <==>
              i + 2 < |s|
              && ('0' <= s[i + 1] <= '9' || 'a' <= s[i + 1] <= 'f' || 'A' <= s[i + 1] <= 'F')
              && ('0' <= s[i + 2] <= '9' || 'a' <= s[i + 2] <= 'f' || 'A' <= s[i + 2] <= 'F')
    {
    }
  }

  lemma TargetEscapes(s: string)
    ensures Unescape(BeforeQuery(s)).Some? <==>
            forall i :: 0 <= i < |s| && s[i] == '%' && '?' !in s[..i] ==> IsEscape(s, i)
  {
    EscapesAreGood(BeforeQuery(s));
    EscapesBeforeQuery(s);
  }

  lemma PrintableChars(s: string)
    ensures Printable(s) <==> forall i :: 0 <= i < |s| ==> ' ' < s[i] && s[i] != '\U{7F}'
  {
    if forall i :: 0 <= i < |s| ==> ' ' < s[i] && s[i] != '\U{7F}' {
      forall c | c in s ensures ' ' < c && c != '\U{7F}' {
        var i :| 0 <= i < |s| && s[i] == c;
      }
    }
    assert forall i :: 0 <= i < |s| ==> s[i] in s;
  }

  predicate IsEscape(s: string, i: nat) {
    i + 2 < |s| && HexValue(s[i + 1]).Some? && HexValue(s[i + 2]).Some?
  }

  // The escapes of the part before the query are those of the target that no '?' comes before.
  lemma EscapesBeforeQuery(s: string)
    ensures var b := BeforeQuery(s);
            (forall i :: 0 <= i < |b| && b[i] == '%' ==> IsEscape(b, i))
            <==> forall i :: 0 <= i < |s| && s[i] == '%' && '?' !in s[..i] ==> IsEscape(s, i)
  {
    var b := BeforeQuery(s);
    BeforeFirstQuery(s);
    forall i | 0 <= i < |s|
      ensures s[i] == '%' && '?' !in s[..i] <==> i < |b| && b[i] == '%'
      ensures i < |b| ==> (IsEscape(b, i) <==> IsEscape(s, i))
    {
      if i > |b| { assert s[..i][|b|] == '?'; }
      if i <= |b| { assert s[..i] == b[..i]; }
    }
  }

  lemma {:induction false} BeforeFirstQuery(s: string)
    ensures var b := BeforeQuery(s); b <= s && '?' !in b && (|b| < |s| ==> s[|b|] == '?')
  {
    if s == "" || s[0] == '?' {
    } else {
      BeforeFirstQuery(s[1..]);
    }
  }

  lemma {:induction false} EscapesAreGood(s: string)
    ensures Unescape(s).Some? <==>
            forall i :: 0 <= i < |s| && s[i] == '%' ==>
              IsEscape(s, i)
    decreases |s|
  {
    if s == "" {
    } else if s[0] != '%' {
      EscapesAreGood(s[1..]);
      assert forall i :: 0 < i < |s| ==> s[i] == s[1..][i - 1];
    } else if |s| >= 3 && HexValue(s[1]).Some? && HexValue(s[2]).Some? {
      EscapesAreGood(s[3..]);
      assert forall i :: 3 <= i < |s| ==> s[i] == s[3..][i - 3];
    }
  }

  // What a good target's path is. Plain text stands for itself; a query is left off, whatever it
  // holds; and an escape stands for the character with its hexadecimal code.
  lemma PlainPathIsItself(s: string)
    requires forall i :: 0 <= i < |s| ==> ' ' < s[i] && s[i] != '\U{7F}' && s[i] != '?' && s[i] != '%'
    ensures RequestPath(s) == Some(s)
  {
    RequestPathKeeps(s, "");
    assert s + "" == s && BeforeQuery("") == "";
  }

  lemma QueryIsLeftOff(s: string, query: string)
    requires RequestPath(s).Some? && '?' !in s
    requires forall i :: 0 <= i < |query| ==> ' ' < query[i] && query[i] != '\U{7F}'
    ensures RequestPath(s + "?" + query) == RequestPath(s)
  {
    BeforeMark(s, query);
    PrintableChars(query);
    PrintableParts(s + "?", query);
    PrintableParts(s, "?");
    RequestPathKeepsAll(s);
  }

  lemma RequestPathKeepsAll(s: string)
    requires '?' !in s
    ensures BeforeQuery(s) == s
  {
    BeforeQueryIs(s, s);
  }

  lemma {:induction false} BeforeQueryIs(s: string, b: string)
    requires b <= s && '?' !in b && (|b| < |s| ==> s[|b|] == '?')
    ensures BeforeQuery(s) == b
  {
    if b == "" {
    } else {
      assert b[0] in b;
      BeforeQueryIs(s[1..], b[1..]);
    }
  }

  lemma BeforeMark(s: string, query: string)
    requires '?' !in s
    ensures BeforeQuery(s + "?" + query) == s
  {
    BeforeQueryIs(s + "?" + query, s);
  }

  lemma EscapeStandsFor(s: string, x: char, y: char, rest: string)
    requires RequestPath(s).Some? && '?' !in s
    requires '0' <= x <= '9' || 'a' <= x <= 'f' || 'A' <= x <= 'F'
    requires '0' <= y <= '9' || 'a' <= y <= 'f' || 'A' <= y <= 'F'
    ensures var code := 16 * (x as int - if x <= '9' then 48 else if x <= 'F' then 55 else 87)
                        + (y as int - if y <= '9' then 48 else if y <= 'F' then 55 else 87);
            0 <= code < 256
            && RequestPath(s + ['%', x, y] + rest)
               == if RequestPath(rest).None? then None
                  else Some(RequestPath(s).value + [code as char] + RequestPath(rest).value)
  {
    HexIs(x);
    HexIs(y);
    EscapedPath(s, x, y, rest);
  }

  lemma HexIs(x: char)
    requires '0' <= x <= '9' || 'a' <= x <= 'f' || 'A' <= x <= 'F'
    ensures HexValue(x) == Some(x as int - if x <= '9' then 48 else if x <= 'F' then 55 else 87)
    ensures HexValue(x).value < 16 && ' ' < x && x != '\U{7F}' && x != '?'
  {
  }

  lemma EscapedPath(s: string, x: char, y: char, rest: string)
    requires RequestPath(s).Some? && '?' !in s && HexValue(x).Some? && HexValue(y).Some?
    ensures var code := 16 * HexValue(x).value + HexValue(y).value;
            code < 256
            && RequestPath(s + ['%', x, y] + rest)
               == if RequestPath(rest).None? then None
                  else Some(RequestPath(s).value + [code as char] + RequestPath(rest).value)
  {
    RequestPathKeepsAll(s);
    EscapeDecodes(s, x, y, BeforeQuery(rest));
    BeforeEscaped(s + ['%', x, y], rest);
    PrintableParts(s + ['%', x, y], rest);
    PrintableParts(s, ['%', x, y]);
  }

  lemma EscapeDecodes(s: string, x: char, y: char, rest: string)
    requires Unescape(s).Some? && HexValue(x).Some? && HexValue(y).Some?
    ensures var code := 16 * HexValue(x).value + HexValue(y).value;
            code < 256
            && Unescape(s + ['%', x, y] + rest)
               == if Unescape(rest).None? then None else Some(Unescape(s).value + [code as char] + Unescape(rest).value)
  {
    var e := ['%', x, y];
    var code := 16 * HexValue(x).value + HexValue(y).value;
    EscapeFirst(x, y, rest);
    EscapeInside(s, e + rest);
    Associative(s, e, rest);
    if Unescape(rest).Some? { Associative(Unescape(s).value, [code as char], Unescape(rest).value); }
  }

  lemma Associative(a: string, b: string, c: string)
    ensures a + (b + c) == a + b + c
  {
  }

  lemma EscapeFirst(x: char, y: char, rest: string)
    requires HexValue(x).Some? && HexValue(y).Some?
    ensures var code := 16 * HexValue(x).value + HexValue(y).value;
            code < 256
            && Unescape(['%', x, y] + rest)
               == if Unescape(rest).None? then None else Some([code as char] + Unescape(rest).value)
  {
    assert (['%', x, y] + rest)[3..] == rest;
  }

  lemma BeforeEscaped(a: string, b: string)
    requires '?' !in a
    ensures BeforeQuery(a + b) == a + BeforeQuery(b)
  {
    if a == "" {
      assert a + b == b;
    } else {
      assert a[0] in a && (a + b)[1..] == a[1..] + b;
      BeforeEscaped(a[1..], b);
    }
  }

  lemma {:induction false} EscapeInside(a: string, b: string)
    requires Unescape(a).Some?
    ensures Unescape(a + b) == if Unescape(b).None? then None else Some(Unescape(a).value + Unescape(b).value)
    decreases |a|
  {
    if a == "" {
      assert a + b == b;
      assert Unescape(b).Some? ==> "" + Unescape(b).value == Unescape(b).value;
    } else {
      var n := if a[0] == '%' then 3 else 1;
      EscapeInside(a[n..], b);
      OneDecoded(a, n, a[n..]);
      OneDecoded(a, n, a[n..] + b);
      assert a == a[..n] + a[n..];
      Associative(a[..n], a[n..], b);
      if Unescape(b).Some? {
        Associative([FirstCode(a)], Unescape(a[n..]).value, Unescape(b).value);
      }
    }
  }

  function FirstCode(a: string): char
    requires a != "" && Unescape(a).Some?
  {
    Unescape(a).value[0]
  }

  // One plain character, or one escape, at the beginning.
  lemma OneDecoded(a: string, n: nat, rest: string)
    requires a != "" && Unescape(a).Some? && n == if a[0] == '%' then 3 else 1
    ensures n <= |a|
    ensures Unescape(a[..n] + rest)
            == if Unescape(rest).None? then None else Some([FirstCode(a)] + Unescape(rest).value)
  {
    if a[0] == '%' {
      assert a[..n] == ['%', a[1], a[2]];
      EscapeFirst(a[1], a[2], rest);
    } else {
      assert (a[..n] + rest)[1..] == rest;
    }
  }
}
