// Dispatch of LDAP requests (ldap/route.go): the routes, their builder methods, and the choice
// ServeLDAP makes.
module Routes {
  import opened Events

  const START_TLS := "1.3.6.1.4.1.1466.20037"

  // A request's protocol operation, as far as routes look at it.
  datatype Operation =
    | BindRequest(auth: string)
    | SearchRequest(base: string, filter: string, scope: int)
    | ExtendedRequest(name: string)
    | AbandonRequest(target: int)
    | OtherRequest(opName: string)
  {
    function Name(): string {
      match this
      case BindRequest(_) => "BindRequest"
      case SearchRequest(_, _, _) => "SearchRequest"
      case ExtendedRequest(_) => "ExtendedRequest"
      case AbandonRequest(_) => "AbandonRequest"
      case OtherRequest(n) => n
    }

    predicate IsStartTls() {
      ExtendedRequest? && name == START_TLS
    }
  }

  function Lower(s: string): string {
    seq(|s|, i requires 0 <= i < |s| => if 'A' <= s[i] <= 'Z' then s[i] - 'A' + 'a' else s[i])
  }

  // The conditions of a route; None where the builder method was not called.
  datatype Spec = Spec(
    operation: string,
    exoName: string,
    auth: Option<string>,
    base: Option<string>,
    filter: Option<string>,
    scope: Option<int>)

  predicate Meets(condition: Option<string>, text: string) {
    condition.None? || Lower(text) == condition.value
  }

  // The operation is the route's, and every condition that concerns it holds.
  predicate Fits(spec: Spec, op: Operation) {
    && op.Name() == spec.operation
    && (op.ExtendedRequest? ==> op.name == spec.exoName)
    && (op.BindRequest? ==> Meets(spec.auth, op.auth))
    && (op.SearchRequest? ==>
          Meets(spec.base, op.base) && Meets(spec.filter, op.filter)
          && (spec.scope.Some? ==> op.scope == spec.scope.value))
  }

  // The first route that fits.
  function FirstFit(specs: seq<Spec>, op: Operation): (r: Option<nat>)
  {
    if specs == [] then None
    else if Fits(specs[0], op) then Some(0)
    else
      var rest := FirstFit(specs[1..], op);
      if rest.None? then None else Some(rest.value + 1)
  }

  lemma {:induction false} FirstFitIsLeast(specs: seq<Spec>, op: Operation, i: nat)
    ensures FirstFit(specs, op) == Some(i) <==>
            i < |specs| && Fits(specs[i], op) && forall j :: 0 <= j < i ==> !Fits(specs[j], op)
  {
    if specs == [] {
    } else {
      if i > 0 { FirstFitIsLeast(specs[1..], op, i - 1); }
      assert forall j :: 0 < j < |specs| ==> specs[j] == specs[1..][j - 1];
    }
  }

  lemma {:induction false} FirstFitNone(specs: seq<Spec>, op: Operation)
    ensures FirstFit(specs, op).None? <==> forall j :: 0 <= j < |specs| ==> !Fits(specs[j], op)
  {
    if specs == [] {
    } else {
      FirstFitNone(specs[1..], op);
      assert forall j :: 0 < j < |specs| ==> specs[j] == specs[1..][j - 1];
    }
  }

  // A later route never takes a request from an earlier one.
  lemma {:induction false} LaterRoutesComeLast(specs: seq<Spec>, more: seq<Spec>, op: Operation)
    requires FirstFit(specs, op).Some?
    ensures FirstFit(specs + more, op) == FirstFit(specs, op)
  {
    var i := FirstFit(specs, op).value;
    FirstFitIsLeast(specs, op, i);
    FirstFitIsLeast(specs + more, op, i);
  }

  // What ServeLDAP does with a request: the handler of a route, the not-found handler, or the
  // UnwillingToPerform reply; and the message id an unrouted AbandonRequest looks up first.
  datatype Service = Routed(route: nat) | NotFound | Refused

  function ServiceOf(specs: seq<Spec>, notFound: bool, op: Operation): Service {
    var i := FirstFit(specs, op);
    if i.Some? then Routed(i.value) else if notFound then NotFound else Refused
  }

  function AbandonOf(specs: seq<Spec>, op: Operation): Option<int> {
    if FirstFit(specs, op).None? && op.AbandonRequest? then Some(op.target) else None
  }

  class Route {
    const operation: string
    var exoName: string
    var auth: Option<string>
    var base: Option<string>
    var filter: Option<string>
    var scope: Option<int>

    function View(): Spec
      reads this
    {
      Spec(operation, exoName, auth, base, filter, scope)
    }

    constructor (operation: string)
      ensures View() == Spec(operation, "", None, None, None, None)
    {
      this.operation := operation;
      exoName, auth, base, filter, scope := "", None, None, None, None;
    }

    method BaseDn(dn: string)
      modifies this
      ensures View() == old(View()).(base := Some(Lower(dn)))
      // Of what the route accepted without such a condition, it accepts what meets this one.
      ensures forall op :: Fits(View(), op) <==>
                Fits(old(View()).(base := None), op) && (op.SearchRequest? ==> Lower(op.base) == Lower(dn))
    {
      base := Some(Lower(dn));
    }

    method AuthenticationChoice(choice: string)
      modifies this
      ensures View() == old(View()).(auth := Some(Lower(choice)))
      // Of what the route accepted without such a condition, it accepts what meets this one.
      ensures forall op :: Fits(View(), op) <==>
                Fits(old(View()).(auth := None), op) && (op.BindRequest? ==> Lower(op.auth) == Lower(choice))
    {
      auth := Some(Lower(choice));
    }

    method Filter(pattern: string)
      modifies this
      ensures View() == old(View()).(filter := Some(Lower(pattern)))
      // Of what the route accepted without such a condition, it accepts what meets this one.
      ensures forall op :: Fits(View(), op) <==>
                Fits(old(View()).(filter := None), op) && (op.SearchRequest? ==> Lower(op.filter) == Lower(pattern))
    {
      filter := Some(Lower(pattern));
    }

    method Scope(scope: int)
      modifies this
      ensures View() == old(View()).(scope := Some(scope))
      // Of what the route accepted without such a condition, it accepts what meets this one.
      ensures forall op :: Fits(View(), op) <==>
                Fits(old(View()).(scope := None), op) && (op.SearchRequest? ==> op.scope == scope)
    {
      this.scope := Some(scope);
    }

    method RequestName(name: string)
      modifies this
      ensures View() == old(View()).(exoName := name)
      // An extended route accepts this request alone, and the others are not affected.
      ensures forall op :: Fits(View(), op) <==>
                if op.ExtendedRequest? then operation == op.Name() && op.name == name else Fits(old(View()), op)
    {
      exoName := name;
    }

    method Match(op: Operation) returns (fits: bool)
      ensures fits <==> Fits(View(), op)
    {
      if op.Name() != operation {
        return false;
      }
      match op
      case BindRequest(choice) =>
        if auth.Some? {
          if Lower(choice) != auth.value { return false; }
        }
        return true;
      case ExtendedRequest(name) =>
        if name != exoName { return false; }
        return true;
      case SearchRequest(b, f, n) =>
        if base.Some? {
          if Lower(b) != base.value { return false; }
        }
        if filter.Some? {
          if Lower(f) != filter.value { return false; }
        }
        if scope.Some? {
          if n != scope.value { return false; }
        }
        return true;
      case _ =>
        return true;
    }
  }

  class RouteMux {
    var routes: seq<Route>
    var notFound: bool

    ghost function Views(): seq<Spec>
      reads this, routes
    {
      seq(|routes|, i requires 0 <= i < |routes| reads this, routes => routes[i].View())
    }

    constructor ()
      ensures Views() == [] && !notFound
    {
      routes, notFound := [], false;
    }

    method AddRoute(r: Route)
      modifies this`routes
      ensures routes == old(routes) + [r]
      ensures Views() == old(Views()) + [r.View()]
    {
      routes := routes + [r];
    }

    method Bind() returns (r: Route)
      modifies this`routes
      ensures fresh(r) && routes == old(routes) + [r]
      ensures Views() == old(Views()) + [Spec("BindRequest", "", None, None, None, None)]
      ensures forall op: Operation :: !op.OtherRequest? ==> (Fits(r.View(), op) <==> op.BindRequest?)
    {
      r := new Route("BindRequest");
      AddRoute(r);
    }

    method Search() returns (r: Route)
      modifies this`routes
      ensures fresh(r) && routes == old(routes) + [r]
      ensures Views() == old(Views()) + [Spec("SearchRequest", "", None, None, None, None)]
      ensures forall op: Operation :: !op.OtherRequest? ==> (Fits(r.View(), op) <==> op.SearchRequest?)
    {
      r := new Route("SearchRequest");
      AddRoute(r);
    }

    // The choice is made by scanning the routes in the order they were added; an abandon signal
    // goes out only when none of them matches.
    method ServeLdap(op: Operation) returns (service: Service, abandon: Option<int>)
      ensures service == ServiceOf(Views(), notFound, op)
      ensures abandon == AbandonOf(Views(), op)
      ensures forall i :: 0 <= i < |Views()| && Fits(Views()[i], op)
                          && (forall j :: 0 <= j < i ==> !Fits(Views()[j], op))
                ==> service == Routed(i) && abandon == None
      ensures (forall j :: 0 <= j < |Views()| ==> !Fits(Views()[j], op)) ==>
                service == (if notFound then NotFound else Refused)
                && abandon == if op.AbandonRequest? then Some(op.target) else None
    {
      var i := 0;
      while i < |routes|
        invariant 0 <= i <= |routes|
        invariant forall j :: 0 <= j < i ==> !Fits(Views()[j], op)
      {
        var fits := routes[i].Match(op);
        if fits {
          FirstFitIsLeast(Views(), op, i);
          return Routed(i), None;
        }
        i := i + 1;
      }
      FirstFitNone(Views(), op);
      abandon := if op.AbandonRequest? then Some(op.target) else None;
      service := if notFound then NotFound else Refused;
    }
  }

  // The routes handleLdapConn registers (ldap_server.go).
  const REVERSE_ROUTES :=
    [Spec("BindRequest", "", None, None, None, None), Spec("SearchRequest", "", None, None, None, None)]

  method ReverseMux() returns (mux: RouteMux)
    ensures fresh(mux) && mux.Views() == REVERSE_ROUTES && !mux.notFound
  {
    mux := new RouteMux();
    var bind := mux.Bind();
    var search := mux.Search();
    assert mux.Views() == [] + [Spec("BindRequest", "", None, None, None, None)]
                          + [Spec("SearchRequest", "", None, None, None, None)];
  }

  // Binds go to the first of them, searches to the second, and all else is refused: an AbandonRequest
  // after its target has been signalled. An operation that merely claims one of the two names is not
  // among the protocol's.
  lemma ReverseService(op: Operation)
    requires op.OtherRequest? ==> op.opName != "BindRequest" && op.opName != "SearchRequest"
    ensures op.BindRequest? ==> ServiceOf(REVERSE_ROUTES, false, op) == Routed(0)
    ensures op.SearchRequest? ==> ServiceOf(REVERSE_ROUTES, false, op) == Routed(1)
    ensures !op.BindRequest? && !op.SearchRequest? ==> ServiceOf(REVERSE_ROUTES, false, op) == Refused
    ensures AbandonOf(REVERSE_ROUTES, op) == if op.AbandonRequest? then Some(op.target) else None
  {
    FirstFitNone(REVERSE_ROUTES, op);
    FirstFitIsLeast(REVERSE_ROUTES, op, 0);
    FirstFitIsLeast(REVERSE_ROUTES, op, 1);
  }

  lemma StartTlsIs(op: Operation)
    ensures op.IsStartTls() <==> op == ExtendedRequest("1.3.6.1.4.1.1466.20037")
  {
  }

  // Letters are compared in lower case, everything else as it is.
  lemma LowerCase(s: string)
    ensures |Lower(s)| == |s|
    ensures forall i :: 0 <= i < |s| ==>
              Lower(s)[i] as int == if 65 <= s[i] as int <= 90 then s[i] as int + 32 else s[i] as int
  {
  }
}
