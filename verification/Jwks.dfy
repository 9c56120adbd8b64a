/** The signing keys of the identity provider: on-demand, forced and periodic refreshes
    (internal/auth/auth.go:309-323, 352-415, 486-495 and 583-606).  Times are in seconds; what the
    identity provider answers is a parameter. */
module Jwks {
  import opened Api

  const REFRESH_COOLDOWN := 30
  const NORMAL_REFRESH_INTERVAL := 3600
  const INITIAL_RETRY_INTERVAL := 300
  const MAX_RETRY_INTERVAL := 1800

  type Keys = map<string, string>

  /** `OnDemand` and `Forced` hold the refresh mutex from `start` to `end`; the periodic loop does not. */
  datatype Call =
    | OnDemand(start: int, end: int, fetched: Option<Keys>)
    | Forced(start: int, end: int, fetched: Option<Keys>)
    | Periodic(start: int, end: int, fetched: Option<Keys>)

  /** `timer` is the wait until the next periodic refresh; `attempts` logs when on-demand refreshes began. */
  datatype State =
    State(keys: Keys, lastFetchedAt: int, lastRefreshAt: Option<int>, retryInterval: int, timer: int, attempts: seq<int>)

  /** The state that a successful start leaves. */
  function Initial(keys: Keys, now: int): State {
    State(keys, now, None, INITIAL_RETRY_INTERVAL, NORMAL_REFRESH_INTERVAL, [])
  }

  predicate Usable(fetched: Option<Keys>) {
    fetched.Some? && fetched.value != map[]
  }

  /** A fetch that fails or holds no usable key leaves the keys alone. */
  function Refresh(s: State, fetched: Option<Keys>, now: int): State {
    if Usable(fetched) then s.(keys := fetched.value, lastFetchedAt := now) else s
  }

  predicate CooledDown(s: State, now: int) {
    s.lastRefreshAt.None? || now - s.lastRefreshAt.value >= REFRESH_COOLDOWN
  }

  function Take(s: State, c: Call): State {
    match c
    case OnDemand(start, end, fetched) =>
      if CooledDown(s, start)
      then Refresh(s, fetched, end).(lastRefreshAt := Some(end), attempts := s.attempts + [start])
      else s
    case Forced(_, end, fetched) => Refresh(s, fetched, end).(lastRefreshAt := Some(end))
    case Periodic(_, end, fetched) =>
      if Usable(fetched)
      then Refresh(s, fetched, end).(retryInterval := INITIAL_RETRY_INTERVAL, timer := NORMAL_REFRESH_INTERVAL)
      else s.(timer := s.retryInterval, retryInterval := Min(s.retryInterval * 2, MAX_RETRY_INTERVAL))
  }

  function Min(a: int, b: int): int {
    if a < b then a else b
  }

  function Run(keys: Keys, now: int, calls: seq<Call>): State {
    if calls == [] then Initial(keys, now) else Take(Run(keys, now, calls[..|calls| - 1]), calls[|calls| - 1])
  }

  class Middleware {
    const staleTtl: int
    var keys: Keys
    var lastFetchedAt: int
    var lastRefreshAt: Option<int>
    var retryInterval: int
    var timer: int
    ghost var attempts: seq<int>

    constructor (staleTtl: int, keys: Keys, now: int)
      ensures Value() == Initial(keys, now) && this.staleTtl == staleTtl
    {
      this.staleTtl, this.keys, lastFetchedAt, lastRefreshAt := staleTtl, keys, now, None;
      retryInterval, timer, attempts := INITIAL_RETRY_INTERVAL, NORMAL_REFRESH_INTERVAL, [];
    }

    ghost function Value(): State
      reads this
    {
      State(keys, lastFetchedAt, lastRefreshAt, retryInterval, timer, attempts)
    }

    method RefreshJwks(fetched: Option<Keys>, now: int) returns (ok: bool)
      modifies this`keys, this`lastFetchedAt
      ensures ok == Usable(fetched) && Value() == Refresh(old(Value()), fetched, now)
    {
      if fetched.None? || |fetched.value| == 0 {
        return false;
      }
      keys, lastFetchedAt := fetched.value, now;
      return true;
    }

    method RefreshIfCooledDown(start: int, end: int, fetched: Option<Keys>) returns (ok: bool)
      modifies this
      ensures Value() == Take(old(Value()), OnDemand(start, end, fetched))
      ensures ok <==> !CooledDown(old(Value()), start) || Usable(fetched)
    {
      if lastRefreshAt.Some? && start - lastRefreshAt.value < REFRESH_COOLDOWN {
        return true;
      }
      ok := RefreshJwks(fetched, end);
      lastRefreshAt := Some(end);
      attempts := attempts + [start];
    }

    method ForceRefresh(start: int, end: int, fetched: Option<Keys>) returns (ok: bool)
      modifies this
      ensures Value() == Take(old(Value()), Forced(start, end, fetched)) && ok == Usable(fetched)
    {
      ok := RefreshJwks(fetched, end);
      lastRefreshAt := Some(end);
    }

    method PeriodicRefresh(start: int, end: int, fetched: Option<Keys>)
      modifies this
      ensures Value() == Take(old(Value()), Periodic(start, end, fetched))
    {
      var ok := RefreshJwks(fetched, end);
      if ok {
        retryInterval, timer := INITIAL_RETRY_INTERVAL, NORMAL_REFRESH_INTERVAL;
      } else {
        timer := retryInterval;
        retryInterval := Min(retryInterval * 2, MAX_RETRY_INTERVAL);
      }
    }

    /** The stale check of `validateToken`: it lets a token through only on keys no older than the limit. */
    method CheckStale(now: int, end: int, fetched: Option<Keys>) returns (ok: bool)
      requires now <= end
      modifies this
      ensures ok && staleTtl > 0 ==> now - lastFetchedAt <= staleTtl
      ensures ok <==> staleTtl <= 0 || now - old(lastFetchedAt) <= staleTtl || Usable(fetched)
      ensures Value() == if staleTtl > 0 && now - old(lastFetchedAt) > staleTtl
                         then Take(old(Value()), Forced(now, end, fetched)) else old(Value())
    {
      ok := true;
      if staleTtl > 0 && now - lastFetchedAt > staleTtl {
        ok := ForceRefresh(now, end, fetched);
      }
    }
  }

  predicate Guarded(c: Call) {
    !c.Periodic?
  }

  /** The mutex: guarded calls do not overlap. */
  ghost predicate Serial(calls: seq<Call>) {
    && (forall i :: 0 <= i < |calls| ==> calls[i].start <= calls[i].end)
    && (forall i, j :: 0 <= i < j < |calls| && Guarded(calls[i]) && Guarded(calls[j]) ==> calls[i].end <= calls[j].start)
  }

  ghost predicate Spaced(s: State) {
    && (forall i :: 0 < i < |s.attempts| ==> s.attempts[i] - s.attempts[i - 1] >= REFRESH_COOLDOWN)
    && (s.attempts != [] ==> s.lastRefreshAt.Some? && s.attempts[|s.attempts| - 1] <= s.lastRefreshAt.value)
  }

  lemma {:induction false} AttemptsAreSpaced(keys: Keys, now: int, calls: seq<Call>)
    requires Serial(calls)
    ensures Spaced(Run(keys, now, calls))
    ensures Run(keys, now, calls).lastRefreshAt.Some? ==>
              exists i :: 0 <= i < |calls| && Guarded(calls[i]) && calls[i].end == Run(keys, now, calls).lastRefreshAt.value
  {
    if calls != [] {
      var n := |calls| - 1;
      var c, s, t := calls[n], Run(keys, now, calls[..n]), Run(keys, now, calls);
      AttemptsAreSpaced(keys, now, calls[..n]);
      if t.lastRefreshAt == s.lastRefreshAt {
        assert t.lastRefreshAt.Some? ==> exists i :: 0 <= i < n && Guarded(calls[..n][i]) && calls[..n][i].end == t.lastRefreshAt.value;
      } else {
        assert Guarded(calls[n]) && calls[n].end == t.lastRefreshAt.value;
      }
    }
  }

  lemma {:induction false} SpacedFrom(s: State, i: nat, j: nat)
    requires Spaced(s) && i <= j < |s.attempts|
    ensures s.attempts[j] - s.attempts[i] >= 30 * (j - i)
  {
    if i < j {
      SpacedFrom(s, i, j - 1);
    }
  }

  /** On-demand refreshes are rate limited: n of them that begin in a window of length w satisfy
      (n - 1) * 30 <= w, whatever forced and periodic refreshes run beside them. */
  lemma RefreshesAreLimited(keys: Keys, now: int, calls: seq<Call>, i: nat, j: nat, begin: int, w: int)
    requires Serial(calls)
    requires i <= j < |Run(keys, now, calls).attempts|
    requires begin <= Run(keys, now, calls).attempts[i] && Run(keys, now, calls).attempts[j] <= begin + w
    ensures (j - i) * 30 <= w
  {
    AttemptsAreSpaced(keys, now, calls);
    SpacedFrom(Run(keys, now, calls), i, j);
  }

  /** The key set never becomes empty, and every single failure, whatever came before, keeps the keys and
      the time of their fetch. */
  lemma {:induction false} KeysStay(keys: Keys, now: int, calls: seq<Call>)
    requires keys != map[]
    ensures Run(keys, now, calls).keys != map[]
    ensures forall i :: 0 <= i < |calls| && !Usable(calls[i].fetched) ==>
              && Run(keys, now, calls[..i + 1]).keys == Run(keys, now, calls[..i]).keys
              && Run(keys, now, calls[..i + 1]).lastFetchedAt == Run(keys, now, calls[..i]).lastFetchedAt
    ensures (forall i :: 0 <= i < |calls| ==> !Usable(calls[i].fetched)) ==> Run(keys, now, calls).keys == keys
  {
    if calls != [] {
      var n := |calls| - 1;
      KeysStay(keys, now, calls[..n]);
      forall i | 0 <= i < |calls| && !Usable(calls[i].fetched)
        ensures Run(keys, now, calls[..i + 1]).keys == Run(keys, now, calls[..i]).keys
        ensures Run(keys, now, calls[..i + 1]).lastFetchedAt == Run(keys, now, calls[..i]).lastFetchedAt
      {
        assert calls[..i + 1][..i] == calls[..i];
      }
    }
  }

  /** An on-demand refresh goes ahead when every guarded call before it ended 30 seconds ago or more, and then
      a usable answer is taken: a token of a new key is not kept waiting longer. */
  lemma CooledDownRefreshHappens(keys: Keys, now: int, calls: seq<Call>, start: int, end: int, fetched: Option<Keys>)
    requires Serial(calls) && forall i :: 0 <= i < |calls| && Guarded(calls[i]) ==> calls[i].end + 30 <= start
    ensures var s, t := Run(keys, now, calls), Run(keys, now, calls + [OnDemand(start, end, fetched)]);
            && t.attempts == s.attempts + [start] && t.lastRefreshAt == Some(end)
            && (fetched.Some? && fetched.value != map[] ==> t.keys == fetched.value && t.lastFetchedAt == end)
            && (fetched.None? || fetched.value == map[] ==> t.keys == s.keys && t.lastFetchedAt == s.lastFetchedAt)
  {
    AttemptsAreSpaced(keys, now, calls);
    var all := calls + [OnDemand(start, end, fetched)];
    assert all[..|calls|] == calls;
    hide Spaced, Serial;
  }

  /** And one within 30 seconds of the last guarded refresh does nothing at all. */
  lemma HotRefreshIsSkipped(keys: Keys, now: int, calls: seq<Call>, last: Call, start: int, end: int, fetched: Option<Keys>)
    requires last.Forced? && start < last.end + 30
    ensures Run(keys, now, calls + [last] + [OnDemand(start, end, fetched)]) == Run(keys, now, calls + [last])
  {
    var some := calls + [last];
    assert some[..|calls|] == calls && (some + [OnDemand(start, end, fetched)])[..|some|] == some;
  }

  /** Forced and periodic refreshes always go ahead: a usable answer replaces the keys, whatever came before. */
  lemma UsableAnswersAreTaken(keys: Keys, now: int, calls: seq<Call>, c: Call)
    requires !c.OnDemand? && c.fetched.Some? && c.fetched.value != map[]
    ensures var t := Run(keys, now, calls + [c]); t.keys == c.fetched.value && t.lastFetchedAt == c.end
    ensures c.Forced? ==> Run(keys, now, calls + [c]).lastRefreshAt == Some(c.end)
    ensures c.Periodic? ==> Run(keys, now, calls + [c]).timer == 3600
  {
    assert (calls + [c])[..|calls|] == calls;
  }

  /** Calls take effect when they end, in this order; `start` is when the first keys were fetched. */
  ghost predicate EndsInOrder(start: int, calls: seq<Call>) {
    && (forall i :: 0 <= i < |calls| ==> start <= calls[i].end && calls[i].start <= calls[i].end)
    && (forall i, j :: 0 <= i < j < |calls| ==> calls[i].end <= calls[j].end)
  }

  /** The last fetch is never younger than the calls so far, and only moves forward. */
  lemma {:induction false} FetchesMoveForward(keys: Keys, start: int, calls: seq<Call>, m: nat)
    requires EndsInOrder(start, calls) && m <= |calls|
    ensures Run(keys, start, calls).lastFetchedAt == start || exists i :: 0 <= i < |calls| && Run(keys, start, calls).lastFetchedAt == calls[i].end
    ensures Run(keys, start, calls[..m]).lastFetchedAt <= Run(keys, start, calls).lastFetchedAt
  {
    if m == |calls| {
      assert calls[..m] == calls;
    }
    if calls != [] {
      var n := |calls| - 1;
      var init, c := calls[..n], calls[n];
      FetchesMoveForward(keys, start, init, if m < n then m else n);
      assert init[..n] == init && (m < n ==> init[..m] == calls[..m]);
      LastFetchStep(Run(keys, start, init), c);
      if Run(keys, start, calls).lastFetchedAt == c.end {
        assert calls[n].end == c.end;
      } else {
        assert Run(keys, start, init).lastFetchedAt == start || exists i :: 0 <= i < n && Run(keys, start, init).lastFetchedAt == init[i].end;
        assert forall i :: 0 <= i < n ==> init[i].end == calls[i].end;
      }
      hide Take;
    }
  }

  lemma LastFetchStep(s: State, c: Call)
    ensures Take(s, c).lastFetchedAt == s.lastFetchedAt || Take(s, c).lastFetchedAt == c.end
  {
  }

  /** The stale check beside other requests: a request reads the age at `now`, after the first `i` calls, and
      goes on after the first `p`.  When the keys are fresh enough that is at once; otherwise the last
      of the `p` calls is its own forced refresh, begun after `now`, and it succeeded. */
  ghost predicate LetOn(keys: Keys, start: int, calls: seq<Call>, ttl: int, now: int, i: nat, p: nat) {
    && i <= p <= |calls|
    && if now - Run(keys, start, calls[..i]).lastFetchedAt <= ttl then p == i
       else i < p && calls[p - 1].Forced? && now <= calls[p - 1].start && Usable(calls[p - 1].fetched)
  }

  /** A request that is let on works, then and at every later moment, on keys that were fetched at most `ttl`
      before it asked, whatever other requests and the periodic loop do before, between and after. */
  lemma LetOnOverFreshKeys(keys: Keys, start: int, calls: seq<Call>, ttl: int, now: int, i: nat, p: nat, m: nat)
    requires EndsInOrder(start, calls) && ttl >= 0 && LetOn(keys, start, calls, ttl, now, i, p)
    requires p <= m <= |calls|
    ensures now - Run(keys, start, calls[..m]).lastFetchedAt <= ttl
  {
    assert EndsInOrder(start, calls[..m]);
    assert calls[..m][..p] == calls[..p];
    FetchesMoveForward(keys, start, calls[..m], p);
    if i < p {
      assert calls[..p][..p - 1] == calls[..p - 1];
    }
    hide EndsInOrder;
  }

  /** Periodic failures since the last periodic success. */
  function Failures(calls: seq<Call>): nat {
    if calls == [] then 0
    else
      var before, c := Failures(calls[..|calls| - 1]), calls[|calls| - 1];
      if !c.Periodic? then before else if Usable(c.fetched) then 0 else before + 1
  }

  function Doubled(n: nat): (r: nat)
    ensures r >= 1
  {
    if n == 0 then 1 else 2 * Doubled(n - 1)
  }

  /** After k consecutive periodic failures the wait is min(5 * 2^(k-1), 30) minutes, after a success an
      hour, whatever other refreshes run in between. */
  lemma {:induction false} BackoffDoubles(keys: Keys, now: int, calls: seq<Call>)
    ensures var s, k := Run(keys, now, calls), Failures(calls);
            && s.retryInterval == Min(300 * Doubled(k), 1800)
            && s.timer == if k == 0 then 3600
                          else Min(300 * Doubled(k - 1), 1800)
  {
    if calls != [] {
      BackoffDoubles(keys, now, calls[..|calls| - 1]);
    }
  }
}
