// The server's handlers (http_server.go, rmi_server.go, ldap_server.go) and its gc, each run
// without interference; Delivery takes the same operations apart.
module ReverseServer {
  import opened Events
  import opened Visits
  import opened EventLog
  import Delivery

  // What a fetch is answered with; the codes are those of api_base.go.
  datatype Response = Success(events: seq<Event>) | GenericFailed | LoginRequired

  // Every pending event, once, in some order.
  predicate Lists(events: seq<Event>, pending: map<string, Event>) {
    && |events| == |pending|
    && (forall i :: 0 <= i < |events| ==>
          events[i].groupId in pending && pending[events[i].groupId] == events[i])
    && (forall i, j :: 0 <= i < j < |events| ==> events[i].groupId != events[j].groupId)
  }

  // Such a list holds exactly the pending events.
  lemma ListsAll(events: seq<Event>, pending: map<string, Event>)
    requires Lists(events, pending)
    ensures forall e: Event :: e in events <==> e.groupId in pending && pending[e.groupId] == e
  {
    var names := set i | 0 <= i < |events| :: events[i].groupId;
    NamesCount(events);
    assert names <= pending.Keys;
    SubsetOfSize(names, pending.Keys);
    forall e: Event | e.groupId in pending && pending[e.groupId] == e ensures e in events {
      assert e.groupId in names;
    }
  }

  lemma {:induction false} NamesCount(events: seq<Event>)
    requires forall i, j :: 0 <= i < j < |events| ==> events[i].groupId != events[j].groupId
    ensures |set i | 0 <= i < |events| :: events[i].groupId| == |events|
  {
    var names := set i | 0 <= i < |events| :: events[i].groupId;
    if events == [] {
    } else {
      var n := |events| - 1;
      NamesCount(events[..n]);
      assert names == (set i | 0 <= i < n :: events[..n][i].groupId) + {events[n].groupId};
    }
  }

  lemma {:induction false} SubsetOfSize(a: set<string>, b: set<string>)
    requires a <= b && |a| == |b|
    ensures a == b
    decreases b
  {
    if a == {} {
    } else {
      var x :| x in a;
      SubsetOfSize(a - {x}, b - {x});
      assert a == (a - {x}) + {x} && b == (b - {x}) + {x};
    }
  }

  class Server {
    const admit: Request -> Option<Visit>     // Visits.Admit for the server's hash and token
    const token: string
    const db: DB
    var pending: map<string, Event>     // internalGroupEventMap

    ghost predicate Valid()
      reads this, db
    {
      db.Valid() && forall g :: g in pending ==> pending[g].groupId == g && pending[g].source.Internal?
    }

    constructor (admit: Request -> Option<Visit>, token: string, db: DB)
      requires db.Valid()
      ensures Valid() && this.admit == admit && this.token == token && this.db == db && pending == map[]
    {
      this.admit, this.token, this.db, pending := admit, token, db, map[];
    }

    // HandleUnitVisit, handleRMIConn after its handshake, and the LDAP Search handler. A request
    // that is not admitted changes nothing; an admitted one is appended to the log unless the
    // database fails, and its event, numbered, becomes the pending event of its group: never for a
    // public visit, and for one by LDAP only if it was logged.
    method HandleVisit(request: Request, nowMs: int, addr: string, fault: Fault) returns (admitted: bool)
      requires Valid() && forall t: EventType :: |db.Contents(t)| < Decimal.MAX_INT
      modifies this`pending, db
      ensures Valid()
      ensures admitted <==> admit(request).Some?
      ensures !admitted ==> pending == old(pending) && forall t: EventType :: db.Contents(t) == old(db.Contents(t))
      ensures admitted ==>
                var v := admit(request).value;
                var t := if v.kind == HttpInternal || v.kind == HttpPublic then HttpVisit else RmiVisit;
                var e := NewEvent(request, v, nowMs, addr);
                var stored := if fault.BeginFails? then e else e.(id := |old(db.Contents(t))| + 1);
                && db.Contents(t) == old(db.Contents(t)) + (if fault.NoFault? then [stored] else [])
                && (forall other: EventType :: other != t ==> db.Contents(other) == old(db.Contents(other)))
                && (v.kind != HttpPublic && (v.kind != Ldap || fault == NoFault) ==>
                      pending == old(pending)[v.named.group := stored])
                && (v.kind == HttpPublic || (v.kind == Ldap && fault != NoFault) ==> pending == old(pending))
    {
      admitted := admit(request).Some?;
      if admitted {
        StoreVisit(NewEvent(request, admit(request).value, nowMs, addr), admit(request).value.kind, fault);
      }
    }

    method StoreVisit(e: Event, kind: Kind, fault: Fault)
      requires Valid() && |db.Contents(e.eventType)| < Decimal.MAX_INT && e.source == SourceOf(kind)
      modifies this`pending, db
      ensures Valid()
      ensures var stored := if fault.BeginFails? then e else e.(id := |old(db.Contents(e.eventType))| + 1);
              && db.Contents(e.eventType) == old(db.Contents(e.eventType)) + (if fault.NoFault? then [stored] else [])
              && (forall t: EventType :: t != e.eventType ==> db.Contents(t) == old(db.Contents(t)))
              && (kind != HttpPublic && (kind != Ldap || fault == NoFault) ==>
                    pending == old(pending)[e.groupId := stored])
              && (kind == HttpPublic || (kind == Ldap && fault != NoFault) ==> pending == old(pending))
    {
      var event, ok := db.StoreEvent(e, fault);
      if kind.Ldap? && !ok { return; }
      if !kind.HttpPublic? {
        pending := pending[event.groupId := event];
      }
    }

    // HandleFetchEvent: the acknowledged groups are deleted, and all that is then pending is
    // returned. The acks are None when the request's body cannot be read or decoded.
    method HandleFetchEvent(presented: string, acks: Option<seq<string>>) returns (response: Response)
      requires Valid()
      modifies this`pending
      ensures Valid()
      ensures response.LoginRequired? <==> presented != token
      ensures response.GenericFailed? <==> presented == token && acks.None?
      ensures !response.Success? ==> pending == old(pending)
      ensures response.Success? ==>
                && pending == old(pending) - (set i | 0 <= i < |acks.value| :: acks.value[i])
                && Lists(response.events, pending) && |response.events| == |pending|
                && forall e: Event :: e in response.events <==> e.groupId in pending && pending[e.groupId] == e
    {
      if presented != token { return LoginRequired; }
      if acks.None? { return GenericFailed; }
      DeleteAcks(acks.value);
      var events := AllPending();
      ListsAll(events, pending);
      response := Success(events);
    }

    method DeleteAcks(acks: seq<string>)
      requires Valid()
      modifies this`pending
      ensures Valid() && pending == old(pending) - (set i | 0 <= i < |acks| :: acks[i])
    {
      var i := 0;
      while i < |acks|
        invariant 0 <= i <= |acks| && Valid()
        invariant pending == old(pending) - (set j | 0 <= j < i :: acks[j])
      {
        pending := pending - {acks[i]};
        i := i + 1;
      }
    }

    // The Range over the map, in no particular order.
    method AllPending() returns (events: seq<Event>)
      requires Valid()
      ensures Lists(events, pending)
    {
      events := [];
      var todo := pending.Keys;
      while todo != {}
        invariant todo <= pending.Keys && |events| + |todo| == |pending|
        invariant forall i :: 0 <= i < |events| ==>
                    && events[i].groupId in pending && events[i].groupId !in todo
                    && pending[events[i].groupId] == events[i]
        invariant forall i, j :: 0 <= i < j < |events| ==> events[i].groupId != events[j].groupId
        decreases |todo|
      {
        var key :| key in todo;
        events := events + [pending[key]];
        todo := todo - {key};
      }
    }

    // One pass of the gc: exactly the events whose millisecond stamp is below the clock in
    // seconds less 600 are dropped.
    method GcExpiredEventMap(nowSecond: int)
      requires Valid()
      modifies this`pending
      ensures Valid()
      ensures pending == map g | g in old(pending) && old(pending)[g].timeStampMs >= nowSecond - 600 :: old(pending)[g]
    {
      var todo := pending.Keys;
      while todo != {}
        invariant todo <= pending.Keys && Valid()
        invariant pending == map g | g in old(pending)
                                     && (g in todo || !Delivery.Expired(old(pending)[g].timeStampMs, nowSecond))
                             :: old(pending)[g]
        decreases |todo|
      {
        var key :| key in todo;
        if Delivery.Expired(pending[key].timeStampMs, nowSecond) {
          pending := pending - {key};
        }
        todo := todo - {key};
      }
    }
  }
}
