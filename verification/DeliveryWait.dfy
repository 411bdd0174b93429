// What a nil result of Wait means: the looks that Wait takes at a group's flag, in a run of the
// delivery protocol.
module DeliveryWait {
  import opened Events
  import opened Delivery
  import opened DeliveryOnce
  import opened Visits

  // Wait looks for the i-th time after i seconds, up to the timeout and 60 seconds.
  predicate IsLook(timeout: int, i: nat) {
    i <= 60 && i * 1_000_000_000 <= timeout
  }

  // The looks happen at these places of the run, in order.
  ghost predicate Looks(run: seq<Action>, at: nat -> nat, timeout: int) {
    forall i: nat, j: nat :: i <= j && IsLook(timeout, j) ==> at(i) <= at(j) <= |run|
  }

  predicate CalledAt(c: Config, run: seq<Action>, n: nat, obj: nat)
    requires n <= |run|
  {
    var s := Run(c, Init(c), run[..n]);
    s.Some? && obj < |s.value.client.objs| && s.value.client.objs[obj].called
  }

  // The value of callbackCalled that the group's object shows there.
  function Flag(c: Config, run: seq<Action>, n: nat, obj: nat): int {
    if n <= |run| && CalledAt(c, run, n, obj) then 1 else 0
  }

  // Wait returns nil in this run: the postcondition of ReverseClient.UnitGroup.Wait, where the flag
  // has the values that its looks find in the run.
  ghost predicate ReturnsNil(c: Config, run: seq<Action>, at: nat -> nat, obj: nat, timeout: int) {
    timeout >= 0
    && (Flag(c, run, at(0), obj) == 1
        || exists i: nat :: 0 < i <= 60 && i * 1_000_000_000 <= timeout && Flag(c, run, at(i), obj) == 1)
  }

  lemma {:induction false} RunPrefix(c: Config, s: State, run: seq<Action>, t: State, n: nat) returns (u: State)
    requires Run(c, s, run) == Some(t) && n <= |run|
    ensures Run(c, s, run[..n]) == Some(u) && Run(c, u, run[n..]) == Some(t)
    decreases |run|
  {
    if n == 0 {
      u := s;
      assert run[0..] == run;
    } else {
      u := RunPrefix(c, Next(c, s, run[0]).value, run[1..], t, n - 1);
      assert run[..n][1..] == run[1..][..n - 1] && run[1..][n - 1..] == run[n..];
    }
  }

  lemma {:induction false} HistoriesGrow(c: Config, s: State, run: seq<Action>, t: State)
    requires Run(c, s, run) == Some(t)
    ensures s.client.calls <= t.client.calls && s.visits <= t.visits
    decreases |run|
  {
    if run == [] {
    } else {
      var u := Next(c, s, run[0]).value;
      HistoriesGrowOnce(c, s, run[0], u);
      HistoriesGrow(c, u, run[1..], t);
    }
  }

  lemma HistoriesGrowOnce(c: Config, s: State, a: Action, t: State)
    requires Next(c, s, a) == Some(t)
    ensures s.client.calls <= t.client.calls && s.visits <= t.visits
  {
  }

  // Whenever Wait returns nil for a group, then before the look that found the flag set a callback
  // of one of the group's units returned nil, on an event that names this group and this unit, and
  // before that a request was admitted whose token is the hash of exactly these ids.
  lemma WaitIsCaused(digest: Digest, secret: string, bootMs: nat, run: seq<Action>, t: State,
                     obj: nat, timeout: int, at: nat -> nat)
    returns (n: nat, s: State, i: nat, v: nat)
    requires Run(ServerConfig(digest, secret, bootMs), Init(ServerConfig(digest, secret, bootMs)), run) == Some(t)
    requires Looks(run, at, timeout)
    requires ReturnsNil(ServerConfig(digest, secret, bootMs), run, at, obj, timeout)
    ensures var c := ServerConfig(digest, secret, bootMs);
            n * 1_000_000_000 <= timeout && n <= 60 && Run(c, Init(c), run[..at(n)]) == Some(s)
            && obj < |s.client.objs| && s.client.objs[obj].called
    ensures s.client.calls <= t.client.calls && s.visits <= t.visits
    ensures i < |s.client.calls| && s.client.calls[i].ok && s.client.calls[i].obj == obj
    ensures s.client.calls[i].unit < |s.client.units|
    ensures v == s.client.calls[i].item.visit && v < |s.visits| && !s.visits[v].visit.kind.HttpPublic?
    ensures var named := s.visits[v].visit.named;
            && Admit(digest, secret, s.visits[v].request) == Some(s.visits[v].visit)
            && named.group == s.client.objs[obj].id && named.unit == s.client.units[s.client.calls[i].unit].id
            && named.token == digest(secret + named.group + named.unit)[..6]
  {
    var c := ServerConfig(digest, secret, bootMs);
    n := SeenAt(c, run, at, obj, timeout);
    s := RunPrefix(c, Init(c), run, t, at(n));
    HistoriesGrow(c, s, run[at(n)..], t);
    i, v := WaitHasCause(c, run[..at(n)], s, obj);
    AdmittedTokenFits(digest, secret, s.visits[v].request, s.visits[v].visit);
  }

  // Since the flag is never reset, Wait returns nil exactly when its last look finds it set, that
  // after the timeout's last full second or after 60 seconds: no success before it is missed.
  lemma WaitMissesNothing(c: Config, run: seq<Action>, t: State, obj: nat, timeout: int, at: nat -> nat)
    requires Run(c, Init(c), run) == Some(t) && Looks(run, at, timeout)
    ensures timeout < 0 ==> !ReturnsNil(c, run, at, obj, timeout)
    ensures timeout >= 0 ==>
              var last := if timeout < 60_000_000_000 then timeout / 1_000_000_000 else 60;
              at(last) <= |run| && (ReturnsNil(c, run, at, obj, timeout) <==> CalledAt(c, run, at(last), obj))
  {
    if timeout >= 0 {
      var last := if timeout < 60_000_000_000 then timeout / 1_000_000_000 else 60;
      assert IsLook(timeout, last);
      if ReturnsNil(c, run, at, obj, timeout) {
        var i := SeenAt(c, run, at, obj, timeout);
        FlagStays(c, run, t, obj, at(i), at(last));
      }
      if CalledAt(c, run, at(last), obj) { assert Flag(c, run, at(last), obj) == 1; }
    }
  }

  lemma SeenAt(c: Config, run: seq<Action>, at: nat -> nat, obj: nat, timeout: int) returns (i: nat)
    requires ReturnsNil(c, run, at, obj, timeout)
    ensures IsLook(timeout, i) && at(i) <= |run| && CalledAt(c, run, at(i), obj)
  {
    if Flag(c, run, at(0), obj) == 1 {
      i := 0;
    } else {
      i :| 0 < i <= 60 && i * 1_000_000_000 <= timeout && Flag(c, run, at(i), obj) == 1;
    }
  }

  lemma FlagStays(c: Config, run: seq<Action>, t: State, obj: nat, m: nat, n: nat)
    requires Run(c, Init(c), run) == Some(t) && m <= n <= |run| && CalledAt(c, run, m, obj)
    ensures CalledAt(c, run, n, obj)
  {
    var u := RunPrefix(c, Init(c), run, t, n);
    var s := RunPrefix(c, Init(c), run[..n], u, m);
    assert run[..n][..m] == run[..m];
    CalledStays(c, s, run[..n][m..], u, obj);
  }
}
