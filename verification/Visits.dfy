// How a request on one of the three listeners becomes an admitted visit: the guards of
// HandleUnitVisit (http_server.go), handleRMIConn (rmi_server.go) and the Search handler
// (ldap_server.go).
module Visits {
  import opened Events
  import opened Paths
  import opened Targets

  datatype Kind = HttpInternal | HttpPublic | Rmi | Ldap

  // A request as the listeners see it: the HTTP request target in origin form, the bytes read up to the
  // RMI end mark, or the base object of an LDAP search.
  datatype Request =
    | HttpTarget(target: string)
    | RmiPath(path: string)
    | LdapBase(base: string)

  // An admitted visit: the token it presented and the ids it named.
  datatype Visit = Visit(kind: Kind, named: Captures)

  function RouteHttp(path: string): Option<Visit> {
    var inner := RouteInternal(path);
    if inner.Some? then Some(Visit(HttpInternal, inner.value))
    else
      var outer := RoutePublic(path);
      if outer.Some? then Some(Visit(HttpPublic, outer.value)) else None
  }

  // The listener a request reaches and the ids it names, before any token check.
  function Route(request: Request): Option<Visit> {
    match request
    case HttpTarget(target) =>
      var path := RequestPath(target);
      if path.None? then None else RouteHttp(path.value)
    case RmiPath(path) =>
      var c := Find(RMI_PATTERN, path);
      if c.None? then None else Some(Visit(Rmi, c.value))
    case LdapBase(base) =>
      var c := Find(LDAP_PATTERN, base);
      if c.None? then None else Some(Visit(Ldap, c.value))
  }

  predicate TokenFits(digest: Digest, secret: string, c: Captures) {
    c.token == HashedToken(digest, secret, c.group, c.unit)
  }

  function Admit(digest: Digest, secret: string, request: Request): Option<Visit> {
    var v := Route(request);
    if v.Some? && TokenFits(digest, secret, v.value.named) then v else None
  }

  function SourceOf(kind: Kind): EventSource {
    if kind.HttpPublic? then Public else Internal
  }

  // The LDAP handler stores its events under the RMI type.
  function TypeOf(kind: Kind): EventType {
    if kind.HttpInternal? || kind.HttpPublic? then HttpVisit else RmiVisit
  }

  // What a request gets recorded as its text.
  function TextOf(request: Request): string {
    match request
    case HttpTarget(target) => target
    case RmiPath(path) => path
    case LdapBase(base) => base
  }

  // An event's record before storeEvent numbers it.
  function NewEvent(request: Request, v: Visit, nowMs: int, addr: string): Event {
    Event(0, v.named.group, v.named.unit, nowMs, SourceOf(v.kind), TypeOf(v.kind), TextOf(request), addr)
  }

  // What an event records. LDAP visits are recorded as RMI visits.
  lemma EventRecord(request: Request, v: Visit, nowMs: int, addr: string)
    ensures var e := NewEvent(request, v, nowMs, addr);
            && e.id == 0 && e.groupId == v.named.group && e.unitId == v.named.unit
            && e.timeStampMs == nowMs && e.remoteAddr == addr
            && (e.source == Public <==> v.kind == HttpPublic)
            && (e.eventType == HttpVisit <==> v.kind == HttpInternal || v.kind == HttpPublic)
            && match request
               case HttpTarget(target) => e.request == target
               case RmiPath(path) => e.request == path
               case LdapBase(base) => e.request == base
  {
  }

  // The captures a unit's URLs print (group.go).
  function UnitCaptures(digest: Digest, token: string, group: string, unit: string): Captures {
    Captures(HashedToken(digest, token, group, unit), group, unit)
  }

  lemma HashedTokenIsPart(digest: Digest, token: string, group: string, unit: string)
    ensures IsPart(HashedToken(digest, token, group, unit))
    ensures PlainPart(HashedToken(digest, token, group, unit))
  {
    var h := HashedToken(digest, token, group, unit);
    forall c | c in h ensures IsHex(c) {
      var i :| 0 <= i < |h| && h[i] == c;
    }
    assert !IsHex('/') && !IsHex('?') && !IsHex('#') && !IsHex('%');
  }

  // A routed request is admitted exactly when its token fits the ids it names.
  lemma AdmitRouted(digest: Digest, secret: string, request: Request, v: Visit)
    requires Route(request) == Some(v)
    ensures Admit(digest, secret, request) == Some(v) <==> TokenFits(digest, secret, v.named)
  {
  }

  lemma AdmittedTokenFits(digest: Digest, secret: string, request: Request, v: Visit)
    requires Admit(digest, secret, request) == Some(v)
    ensures v.named.token == HashedToken(digest, secret, v.named.group, v.named.unit)
  {
  }

  lemma SecretCancels(secret: string, group1: string, unit1: string, group2: string, unit2: string)
    ensures secret + group1 + unit1 == secret + group2 + unit2 <==> group1 + unit1 == group2 + unit2
  {
    var a, b := secret + group1 + unit1, secret + group2 + unit2;
    assert a[|secret|..] == group1 + unit1 && b[|secret|..] == group2 + unit2;
    assert a == secret + (group1 + unit1) && b == secret + (group2 + unit2);
  }

  // What a token admits, where it was made with one secret and is checked with another: the hashes
  // of the secret, the group and the unit run together have to agree in their first six digits.
  // So with one secret it admits every pair with the same letters in a row; and no other, unless the
  // hashes collide. Where the group ids have one length, as random ids do, it is the unit's own
  // pair alone.
  lemma TokenAdmits(digest: Digest, secret1: string, secret2: string,
                    group1: string, unit1: string, group2: string, unit2: string)
    ensures var named := Captures(HashedToken(digest, secret1, group1, unit1), group2, unit2);
            var text1, text2 := secret1 + group1 + unit1, secret2 + group2 + unit2;
            && (TokenFits(digest, secret2, named) <==> digest(text1)[..6] == digest(text2)[..6])
            && (secret1 == secret2 && group1 + unit1 == group2 + unit2 ==> TokenFits(digest, secret2, named))
            && (secret1 == secret2 && (digest(text1)[..6] == digest(text2)[..6] ==> text1 == text2) ==>
                  && (TokenFits(digest, secret2, named) <==> group1 + unit1 == group2 + unit2)
                  && (|group1| == |group2| ==>
                        (TokenFits(digest, secret2, named) <==> group1 == group2 && unit1 == unit2)))
  {
    if secret1 == secret2 { SecretCancels(secret1, group1, unit1, group2, unit2); }
    if group1 + unit1 == group2 + unit2 && |group1| == |group2| {
      assert (group1 + unit1)[..|group1|] == group1 && (group1 + unit1)[|group1|..] == unit1;
      assert (group2 + unit2)[..|group2|] == group2 && (group2 + unit2)[|group2|..] == unit2;
    }
  }

  // Admission in full, listener by listener: the token has to be the hash of the server's secret and
  // the ids, and the path to name them.
  lemma AdmitsInternal(digest: Digest, secret: string, target: string, c: Captures)
    ensures Admit(digest, secret, HttpTarget(target)) == Some(Visit(HttpInternal, c)) <==>
            c.token == digest(secret + c.group + c.unit)[..6]
            && RequestPath(target).Some? && '/' !in c.token && '/' !in c.group && '/' !in c.unit
            && exists rest: string ::
                 RequestPath(target).value == "/i/" + (c.token + "/" + c.group + "/" + c.unit + "/" + rest)
  {
    if RequestPath(target).Some? { InternalRouted(RequestPath(target).value, c); }
  }

  // A public visit names no unit.
  lemma AdmitsPublic(digest: Digest, secret: string, target: string, c: Captures)
    ensures Admit(digest, secret, HttpTarget(target)) == Some(Visit(HttpPublic, c)) <==>
            c.token == digest(secret + c.group + "")[..6] && c.unit == ""
            && RequestPath(target).Some? && '/' !in c.token && '/' !in c.group
            && exists rest: string :: RequestPath(target).value == "/p/" + (c.token + "/" + c.group + "/" + rest)
  {
    if RequestPath(target).Some? {
      RoutedAsPublic(RequestPath(target).value, c);
      PublicRouted(RequestPath(target).value, c);
    }
  }

  // No path takes both routes.
  lemma RoutedAsPublic(path: string, c: Captures)
    ensures RouteHttp(path) == Some(Visit(HttpPublic, c)) <==> RoutePublic(path) == Some(c)
  {
    if RoutePublic(path).Some? {
      assert "/p/" <= path;
      assert path[1] == 'p';
    }
  }

  lemma AdmitsRmi(digest: Digest, secret: string, path: string, c: Captures)
    ensures Admit(digest, secret, RmiPath(path)) == Some(Visit(Rmi, c)) <==>
            c.token == digest(secret + c.group + c.unit)[..6]
            && |c.token| <= 32 && |c.group| <= 32 && |c.unit| <= 32
            && '/' !in c.token && '/' !in c.group && '/' !in c.unit
            && exists prefix: string ::
                 path == prefix + ("i/GykcaQgj/" + c.token + "/" + c.group + "/" + c.unit + "/fYqzYxJz")
  {
    RmiFound(path, c);
  }

  lemma AdmitsLdap(digest: Digest, secret: string, base: string, c: Captures)
    ensures Admit(digest, secret, LdapBase(base)) == Some(Visit(Ldap, c)) <==>
            c.token == digest(secret + c.group + c.unit)[..6]
            && |c.token| <= 32 && |c.group| <= 32 && |c.unit| <= 32
            && '/' !in c.token && '/' !in c.group && '/' !in c.unit
            && exists prefix: string :: base == prefix + ("i/" + c.token + "/" + c.group + "/" + c.unit + "/")
  {
    LdapFound(base, c);
  }

  // And as nothing else.
  lemma AdmitsByListener(digest: Digest, secret: string, request: Request, v: Visit)
    requires Admit(digest, secret, request) == Some(v)
    ensures request.HttpTarget? <==> v.kind.HttpInternal? || v.kind.HttpPublic?
    ensures request.RmiPath? <==> v.kind.Rmi?
    ensures request.LdapBase? <==> v.kind.Ldap?
  {
  }

  lemma VisitTargetRouted(target: string, c: Captures)
    requires RequestPath(target).Some? && RouteInternal(RequestPath(target).value) == Some(c)
    ensures Route(HttpTarget(target)) == Some(Visit(HttpInternal, c))
  {
  }

  lemma RmiPathRouted(path: string, c: Captures)
    requires Find(RMI_PATTERN, path) == Some(c)
    ensures Route(RmiPath(path)) == Some(Visit(Rmi, c))
  {
  }

  lemma LdapBaseRouted(base: string, c: Captures)
    requires Find(LDAP_PATTERN, base) == Some(c)
    ensures Route(LdapBase(base)) == Some(Visit(Ldap, c))
  {
  }

  // The RMI URL of a unit, once its scheme and authority are taken off and the listener has
  // read up to the end mark behind any bytes of the handshake, is admitted as that unit.
  lemma RmiUrlAdmitted(digest: Digest, secret: string, addr: string, group: string, unit: string, before: string)
    returns (path: string)
    requires IsPart(group) && IsPart(unit)
    ensures var c := UnitCaptures(digest, secret, group, unit);
            RmiUrl(addr, c) == "rmi://" + addr + path + "/"
            && Admit(digest, secret, RmiPath(before + path)) == Some(Visit(Rmi, c))
  {
    var c := UnitCaptures(digest, secret, group, unit);
    HashedTokenIsPart(digest, secret, group, unit);
    path := "/" + Render(RMI_PATTERN, c);
    RmiUrlIsRender(addr, c);
    assert before + path == (before + "/") + Render(RMI_PATTERN, c);
    assert SlashFree(RMI_PATTERN.tail);
    FindInvertsRender(RMI_PATTERN, before + path, c);
    RmiPathRouted(before + path, c);
    AdmitRouted(digest, secret, RmiPath(before + path), Visit(Rmi, c));
  }

  lemma RmiUrlIsRender(addr: string, c: Captures)
    ensures RmiUrl(addr, c) == "rmi://" + addr + ("/" + Render(RMI_PATTERN, c)) + "/"
  {
    var rest := c.token + "/" + c.group + "/" + c.unit + "/" + RMI_END + "/";
    assert RenderParts(c, RMI_END) + "/" == rest;
    assert Render(RMI_PATTERN, c) == INTERNAL_MARK + "/" + RMI_START + "/" + RenderParts(c, RMI_END);
  }

  // The LDAP URL of a unit: its path is the base object of the search.
  lemma LdapUrlAdmitted(digest: Digest, secret: string, addr: string, group: string, unit: string)
    returns (base: string)
    requires IsPart(group) && IsPart(unit)
    ensures var c := UnitCaptures(digest, secret, group, unit);
            LdapUrl(addr, c) == "ldap://" + addr + "/" + base
            && Admit(digest, secret, LdapBase(base)) == Some(Visit(Ldap, c))
  {
    var c := UnitCaptures(digest, secret, group, unit);
    HashedTokenIsPart(digest, secret, group, unit);
    base := Render(LDAP_PATTERN, c);
    assert base == "" + base;
    FindInvertsRender(LDAP_PATTERN, base, c);
    LdapBaseRouted(base, c);
    AdmitRouted(digest, secret, LdapBase(base), Visit(Ldap, c));
    LdapUrlIsRender(addr, c);
  }

  lemma LdapUrlIsRender(addr: string, c: Captures)
    ensures LdapUrl(addr, c) == "ldap://" + addr + "/" + Render(LDAP_PATTERN, c)
  {
    assert RenderParts(c, "") == c.token + "/" + c.group + "/" + c.unit + "/";
    assert Render(LDAP_PATTERN, c) == INTERNAL_MARK + "/" + RenderParts(c, "");
  }

  // The HTTP URL of a unit with anything appended to it that is not a bad request by itself.
  lemma VisitUrlAdmitted(digest: Digest, secret: string, base: string, group: string, unit: string, suffix: string)
    returns (target: string)
    requires PlainPart(group) && PlainPart(unit)
    ensures var c := UnitCaptures(digest, secret, group, unit);
            VisitUrl(base, c) + suffix == base + target
            && Admit(digest, secret, HttpTarget(target))
               == if RequestPath(suffix).Some? then Some(Visit(HttpInternal, c)) else None
  {
    var c := UnitCaptures(digest, secret, group, unit);
    HashedTokenIsPart(digest, secret, group, unit);
    target := VisitPath(c) + suffix;
    VisitUrlIsPath(base, c, suffix);
    RouteInvertsVisitPath(c, suffix);
    if RequestPath(suffix).Some? {
      VisitTargetRouted(target, c);
      AdmitRouted(digest, secret, HttpTarget(target), Visit(HttpInternal, c));
    }
  }

  // In particular any query, percent signs included.
  lemma VisitUrlWithQuery(digest: Digest, secret: string, base: string, group: string, unit: string, query: string)
    returns (target: string)
    requires PlainPart(group) && PlainPart(unit)
    requires forall i :: 0 <= i < |query| ==> ' ' < query[i] && query[i] != '\U{7F}'
    ensures var c := UnitCaptures(digest, secret, group, unit);
            VisitUrl(base, c) + ("?" + query) == base + target
            && Admit(digest, secret, HttpTarget(target)) == Some(Visit(HttpInternal, c))
  {
    QueryIsLeftOff("", query);
    assert "" + "?" + query == "?" + query;
    target := VisitUrlAdmitted(digest, secret, base, group, unit, "?" + query);
  }

  lemma VisitUrlIsPath(base: string, c: Captures, suffix: string)
    ensures VisitUrl(base, c) + suffix == base + (VisitPath(c) + suffix)
  {
  }
}
