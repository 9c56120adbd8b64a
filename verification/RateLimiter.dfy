/** Concurrency slots and the daily token quota of one tenant, as any number of requests interleave over
    shared Redis keys: every Redis command is one atomic step, computing a quota key is another, and
    time passes in between (internal/ratelimit/backend.go:74-149, ratelimit.go:97-174). */
module RateLimiter {
  import opened Api

  const SLOT_TTL := 300_000
  const HOUR := 3_600_000
  const DAY := 86_400_000

  /** The day of a time in milliseconds. */
  function DayOf(now: int): int {
    now / DAY
  }

  /** A key without an expiry time never expires. */
  datatype Counter = Counter(value: int, expiresAt: Option<int>)

  datatype Quota = Quota(used: int, expiresAt: int)

  datatype Redis = Redis(counter: Option<Counter>, quotas: map<int, Quota>)

  // ----- what each command does

  function CounterValue(r: Redis): int {
    if r.counter.Some? then r.counter.value.value else 0
  }

  function Used(r: Redis, day: int): int {
    if day in r.quotas then r.quotas[day].used else 0
  }

  function Acquired(r: Redis, max: int, now: int): Redis {
    if CounterValue(r) >= max then r
    else r.(counter := Some(Counter(CounterValue(r) + 1, Some(now + SLOT_TTL))))
  }

  function Released(r: Redis): Redis {
    r.(counter := Some(Counter(CounterValue(r) - 1, if r.counter.Some? then r.counter.value.expiresAt else None)))
  }

  function Recorded(r: Redis, day: int, tokens: int, now: int): Redis {
    r.(quotas := r.quotas[day := Quota(Used(r, day) + tokens, (DayOf(now) + 1) * DAY + HOUR)])
  }

  predicate CounterExpires(r: Redis, now: int) {
    r.counter.Some? && r.counter.value.expiresAt.Some? && now >= r.counter.value.expiresAt.value
  }

  function Expired(r: Redis, now: int): Redis {
    Redis(if CounterExpires(r, now) then None else r.counter,
          map day | day in r.quotas && now < r.quotas[day].expiresAt :: r.quotas[day])
  }

  /** The backend's methods, over the keys of one tenant. */
  class RedisBackend {
    var keys: Redis

    constructor ()
      ensures keys == Redis(None, map[])
    {
      keys := Redis(None, map[]);
    }

    /** The script: read, compare, increment, refresh the safety TTL. */
    method AcquireConcurrent(max: int, now: int) returns (ok: bool)
      modifies this
      ensures ok <==> CounterValue(old(keys)) < max
      ensures keys == Acquired(old(keys), max, now)
    {
      var current := 0;
      if keys.counter.Some? {
        current := keys.counter.value.value;
      }
      if current >= max {
        return false;
      }
      keys := keys.(counter := Some(Counter(current + 1, None)));
      keys := keys.(counter := Some(keys.counter.value.(expiresAt := Some(now + SLOT_TTL))));
      return true;
    }

    /** A plain decrement: nothing keeps the counter from going below zero, and on a missing key it leaves
        -1 without expiry. */
    method ReleaseConcurrent()
      modifies this
      ensures keys == Released(old(keys)) && keys.quotas == old(keys.quotas)
      ensures CounterValue(keys) == CounterValue(old(keys)) - 1
      ensures CounterValue(keys) < 0 <==> CounterValue(old(keys)) <= 0
    {
      var c := if keys.counter.Some? then keys.counter.value else Counter(0, None);
      keys := keys.(counter := Some(c.(value := c.value - 1)));
    }

    method CheckQuota(day: int, limit: int) returns (remaining: int, allowed: bool)
      ensures allowed <==> limit - Used(keys, day) > 0 || day !in keys.quotas
      ensures allowed ==> remaining == limit - Used(keys, day)
      ensures !allowed ==> remaining == 0
    {
      if day !in keys.quotas {
        return limit, true;
      }
      remaining := limit - keys.quotas[day].used;
      if remaining <= 0 {
        return 0, false;
      }
      return remaining, true;
    }

    method RecordUsage(day: int, tokens: int, now: int)
      modifies this
      ensures keys == Recorded(old(keys), day, tokens, now)
    {
      var entry := if day in keys.quotas then keys.quotas[day] else Quota(0, 0);
      entry := entry.(used := entry.used + tokens);
      var endOfDay := (DayOf(now) + 1) * DAY + HOUR;
      keys := keys.(quotas := keys.quotas[day := entry.(expiresAt := endOfDay)]);
    }
  }

  // ----- interleaved requests

  /** Where a request that holds a slot stands in the handler. */
  datatype Phase =
    | Holding
    | Keyed(day: int)
    | Admitted
    | Recording(day: int, tokens: int)
    | Done
    | Denied

  datatype Request = Request(phase: Phase, acquiredAt: int)

  datatype Config = Config(max: int, limit: int)

  /** `lost` is the counter value that expiries have thrown away so far, `peak` the most it has ever been,
      `totals` what has ever been recorded under each day's key. */
  datatype State =
    State(now: int, redis: Redis, inFlight: map<nat, Request>, ghost lost: int, ghost peak: int, ghost totals: map<int, int>)

  datatype Step =
    | Wait(until: int)
    | Acquire(id: nat)
    | ComputeKey(id: nat)
    | Check(id: nat)
    | ComputeRecordKey(id: nat, tokens: int)
    | Record(id: nat)
    | Release(id: nat)

  ghost function Total(s: State, day: int): int {
    if day in s.totals then s.totals[day] else 0
  }

  ghost function Max(a: int, b: int): int {
    if a >= b then a else b
  }

  predicate At(s: State, id: nat) {
    id in s.inFlight
  }

  function Moved(s: State, id: nat, phase: Phase): State
    requires At(s, id)
  {
    s.(inFlight := s.inFlight[id := s.inFlight[id].(phase := phase)])
  }

  /** May this step happen here?  A request runs its steps in the handler's order. */
  predicate Enabled(s: State, step: Step) {
    match step
    case Wait(until) => until >= s.now
    case Acquire(id) => !At(s, id)
    case ComputeKey(id) => At(s, id) && s.inFlight[id].phase.Holding?
    case Check(id) => At(s, id) && s.inFlight[id].phase.Keyed?
    case ComputeRecordKey(id, _) => At(s, id) && s.inFlight[id].phase.Admitted?
    case Record(id) => At(s, id) && s.inFlight[id].phase.Recording?
    case Release(id) =>
      At(s, id) && (s.inFlight[id].phase.Admitted? || s.inFlight[id].phase.Done? || s.inFlight[id].phase.Denied?)
  }

  ghost function Next(c: Config, s: State, step: Step): State
    requires Enabled(s, step)
  {
    match step
    case Wait(until) =>
      var lost := s.lost + if CounterExpires(s.redis, until) then CounterValue(s.redis) else 0;
      s.(now := until, redis := Expired(s.redis, until), lost := lost, peak := Max(s.peak, lost))
    case Acquire(id) =>
      if CounterValue(s.redis) >= c.max then s
      else s.(redis := Acquired(s.redis, c.max, s.now), inFlight := s.inFlight[id := Request(Holding, s.now)])
    case ComputeKey(id) => Moved(s, id, Keyed(DayOf(s.now)))
    case Check(id) =>
      var day := s.inFlight[id].phase.day;
      Moved(s, id, if day !in s.redis.quotas || c.limit - Used(s.redis, day) > 0 then Admitted else Denied)
    case ComputeRecordKey(id, tokens) => Moved(s, id, Recording(DayOf(s.now), tokens))
    case Record(id) =>
      var p := s.inFlight[id].phase;
      Moved(s, id, Done).(redis := Recorded(s.redis, p.day, p.tokens, s.now),
                          totals := s.totals[p.day := Total(s, p.day) + p.tokens])
    case Release(id) => s.(redis := Released(s.redis), inFlight := s.inFlight - {id})
  }

  ghost function Start(now: int): State {
    State(now, Redis(None, map[]), map[], 0, 0, map[])
  }

  /** Steps that are not enabled where they stand are skipped. */
  ghost function Run(c: Config, start: int, steps: seq<Step>): State {
    if steps == [] then Start(start)
    else
      var s := Run(c, start, steps[..|steps| - 1]);
      if Enabled(s, steps[|steps| - 1]) then Next(c, s, steps[|steps| - 1]) else s
  }

  // ----- the concurrency limit

  /** Counter plus what expiries threw away is what is in flight, and the counter respects the limit. */
  ghost predicate Accounted(c: Config, s: State) {
    && |s.inFlight| == CounterValue(s.redis) + s.lost
    && CounterValue(s.redis) <= c.max
    && s.lost <= s.peak && 0 <= s.peak
  }

  lemma WaitAccounted(c: Config, s: State, until: int)
    requires c.max > 0 && Accounted(c, s) && until >= s.now
    ensures Accounted(c, Next(c, s, Wait(until)))
  {
  }

  lemma AcquireAccounted(c: Config, s: State, id: nat)
    requires c.max > 0 && Accounted(c, s) && !At(s, id)
    ensures Accounted(c, Next(c, s, Acquire(id)))
  {
    assert s.inFlight[id := Request(Holding, s.now)].Keys == s.inFlight.Keys + {id};
  }

  lemma ReleaseAccounted(c: Config, s: State, id: nat)
    requires Accounted(c, s) && Enabled(s, Release(id))
    ensures Accounted(c, Next(c, s, Release(id)))
  {
    assert s.inFlight.Keys == (s.inFlight - {id}).Keys + {id};
  }

  lemma MoveAccounted(c: Config, s: State, t: State, id: nat, r: Request)
    requires Accounted(c, s) && id in s.inFlight && t.inFlight == s.inFlight[id := r]
    requires t.redis.counter == s.redis.counter && t.lost == s.lost && t.peak == s.peak
    ensures Accounted(c, t)
  {
    assert t.inFlight.Keys == s.inFlight.Keys;
  }

  lemma StepAccounted(c: Config, s: State, step: Step)
    requires c.max > 0 && Accounted(c, s) && Enabled(s, step)
    ensures Accounted(c, Next(c, s, step))
  {
    hide Accounted;
    match step {
      case Wait(until) => WaitAccounted(c, s, until);
      case Acquire(id) => AcquireAccounted(c, s, id);
      case Release(id) => ReleaseAccounted(c, s, id);
      case ComputeKey(id) => MoveAccounted(c, s, Next(c, s, step), id, Next(c, s, step).inFlight[id]);
      case Check(id) => MoveAccounted(c, s, Next(c, s, step), id, Next(c, s, step).inFlight[id]);
      case ComputeRecordKey(id, _) => MoveAccounted(c, s, Next(c, s, step), id, Next(c, s, step).inFlight[id]);
      case Record(id) => MoveAccounted(c, s, Next(c, s, step), id, Next(c, s, step).inFlight[id]);
    }
  }

  /** With no assumption on how long handlers run: what is in flight never exceeds the limit by more than
      the counter value that expiries have thrown away. */
  lemma {:induction false} InFlightWithinLimitPlusLost(c: Config, start: int, steps: seq<Step>)
    requires c.max > 0
    ensures Accounted(c, Run(c, start, steps))
    ensures |Run(c, start, steps).inFlight| <= c.max + Run(c, start, steps).lost
  {
    if steps != [] {
      var n := |steps| - 1;
      InFlightWithinLimitPlusLost(c, start, steps[..n]);
      var s := Run(c, start, steps[..n]);
      if Enabled(s, steps[n]) {
        StepAccounted(c, s, steps[n]);
      }
    }
  }

  /** No time passes beyond 300 seconds after the acquisition of a request that is still in flight. */
  ghost predicate Timely(s: State, step: Step) {
    step.Wait? ==> forall id :: id in s.inFlight ==> step.until < s.inFlight[id].acquiredAt + SLOT_TTL
  }

  ghost predicate TimelyRun(c: Config, start: int, steps: seq<Step>) {
    forall k :: 0 <= k < |steps| ==> Timely(Run(c, start, steps[..k]), steps[k])
  }

  ghost predicate Covered(s: State) {
    && s.lost == 0 && s.peak == 0
    && (s.redis.counter.None? ==> s.inFlight == map[])
    && (s.redis.counter.Some? ==>
          && s.redis.counter.value.expiresAt.Some?
          && forall id :: id in s.inFlight ==>
               s.inFlight[id].acquiredAt <= s.now && s.inFlight[id].acquiredAt + SLOT_TTL <= s.redis.counter.value.expiresAt.value)
  }

  lemma StepCovered(c: Config, s: State, step: Step)
    requires c.max > 0 && Accounted(c, s) && Covered(s) && Enabled(s, step) && Timely(s, step)
    requires s.redis.counter.Some? ==> s.redis.counter.value.expiresAt.value <= s.now + SLOT_TTL
    ensures Covered(Next(c, s, step))
    ensures var r, t := Next(c, s, step).redis, Next(c, s, step);
            r.counter.Some? ==> r.counter.value.expiresAt.value <= t.now + SLOT_TTL
  {
    if step.Wait? && CounterExpires(s.redis, step.until) {
      NoKeyMeansEmpty(s.inFlight);
    }
  }

  lemma NoKeyMeansEmpty(m: map<nat, Request>)
    ensures m == map[] || exists id :: id in m
  {
    if forall id :: id !in m {
      assert m == map[];
    }
  }

  /** If every handler returns within 300 seconds of its acquisition, the counter is exactly the number in
      flight, in every reachable state, and never above the limit: no expiry ever loses a slot. */
  lemma {:induction false} CounterIsExact(c: Config, start: int, steps: seq<Step>)
    requires c.max > 0 && TimelyRun(c, start, steps)
    ensures var s := Run(c, start, steps);
            CounterValue(s.redis) == |s.inFlight| <= c.max && Covered(s)
            && (s.redis.counter.Some? ==> s.redis.counter.value.expiresAt.value <= s.now + SLOT_TTL)
  {
    InFlightWithinLimitPlusLost(c, start, steps);
    if steps != [] {
      var n := |steps| - 1;
      assert TimelyRun(c, start, steps[..n]) by {
        forall k | 0 <= k < n ensures Timely(Run(c, start, steps[..n][..k]), steps[..n][k]) {
          assert steps[..n][..k] == steps[..k];
        }
      }
      CounterIsExact(c, start, steps[..n]);
      InFlightWithinLimitPlusLost(c, start, steps[..n]);
      var s := Run(c, start, steps[..n]);
      if Enabled(s, steps[n]) {
        assert Timely(s, steps[n]);
        StepCovered(c, s, steps[n]);
      }
    }
  }

  /** The counter is below zero exactly when expiries have thrown away more slots than are still in flight. */
  lemma BelowZeroMeansLost(c: Config, start: int, steps: seq<Step>)
    requires c.max > 0
    ensures var s := Run(c, start, steps);
            && (CounterValue(s.redis) < 0 <==> |s.inFlight| < s.lost)
            && (TimelyRun(c, start, steps) ==> CounterValue(s.redis) >= 0)
  {
    InFlightWithinLimitPlusLost(c, start, steps);
    if TimelyRun(c, start, steps) {
      CounterIsExact(c, start, steps);
    }
    hide Run, TimelyRun;
  }

  /** One request that outlives its key: its release leaves the counter at -1, whatever the limit. */
  lemma SlowReleaseGoesBelowZero(c: Config, start: int)
    requires c.max > 0
    ensures var steps := [Acquire(0), Wait(start + SLOT_TTL), ComputeKey(0), Check(0), Release(0)];
            CounterValue(Run(c, start, steps).redis) == -1 && Run(c, start, steps).inFlight == map[]
  {
    var id: nat := 0;
    var a: seq<Step> := [];
    OneMore(c, start, a, Acquire(id));
    a := a + [Acquire(id)];
    OneMore(c, start, a, Wait(start + SLOT_TTL));
    a := a + [Wait(start + SLOT_TTL)];
    OneMore(c, start, a, ComputeKey(id));
    a := a + [ComputeKey(id)];
    OneMore(c, start, a, Check(id));
    a := a + [Check(id)];
    OneMore(c, start, a, Release(id));
    assert a + [Release(id)] == [Acquire(0), Wait(start + SLOT_TTL), ComputeKey(0), Check(0), Release(0)];
  }

  lemma OneMore(c: Config, start: int, steps: seq<Step>, step: Step)
    ensures Run(c, start, steps + [step]) ==
            if Enabled(Run(c, start, steps), step) then Next(c, Run(c, start, steps), step) else Run(c, start, steps)
  {
    assert (steps + [step])[..|steps|] == steps;
  }

  // ----- the daily quota

  /** Requests that may still add to the given day's total while that day lasts: checked, or holding a key
      of an earlier day that is yet to be checked, or about to record under this day. */
  predicate Pending(r: Request, day: int) {
    match r.phase
    case Keyed(d) => d < day
    case Admitted => true
    case Recording(d, _) => d == day
    case _ => false
  }

  function PendingIds(s: State, day: int): set<nat> {
    set id | id in s.inFlight && Pending(s.inFlight[id], day)
  }

  /** Requests that are still to record under a day that is over. */
  function LateIds(s: State, day: int): set<nat> {
    set id | id in s.inFlight && s.inFlight[id].phase.Recording? && s.inFlight[id].phase.day == day
  }

  /** The most that `n` requests can record. */
  function Cost(perRequest: int, n: int): int {
    perRequest * n
  }

  lemma CostStep(perRequest: int, n: int)
    ensures Cost(perRequest, n + 1) == Cost(perRequest, n) + perRequest
  {
  }

  lemma CostMonotone(perRequest: int, m: int, n: int)
    requires 0 <= perRequest && m <= n
    ensures Cost(perRequest, m) <= Cost(perRequest, n)
  {
  }

  lemma SubsetIsSmaller(a: set<nat>, b: set<nat>)
    requires a <= b
    ensures |a| <= |b|
  {
    assert b == a + (b - a);
  }

  ghost function Bound(c: Config, perRequest: int, peak: int): int {
    c.limit - 1 + Cost(perRequest, c.max + peak)
  }

  ghost predicate PhasesDated(s: State) {
    forall id :: id in s.inFlight ==>
      match s.inFlight[id].phase
      case Keyed(d) => d <= DayOf(s.now)
      case Recording(d, _) => d <= DayOf(s.now)
      case _ => true
  }

  ghost predicate QuotaKeysHonest(s: State) {
    && (forall d :: d in s.redis.quotas ==> s.redis.quotas[d].expiresAt >= (d + 1) * DAY + HOUR)
    && Used(s.redis, DayOf(s.now)) == Total(s, DayOf(s.now))
    && (forall d :: d > DayOf(s.now) ==> d !in s.redis.quotas && d !in s.totals)
  }

  ghost predicate RecordsCapped(s: State, perRequest: int) {
    forall id :: id in s.inFlight && s.inFlight[id].phase.Recording? ==> s.inFlight[id].phase.tokens <= perRequest
  }

  /** Today's total, with everything that may still join it, is within the bound; so is each past day's,
      with the records that are late. */
  ghost predicate WithinBound(c: Config, s: State, perRequest: int) {
    var today, bound := DayOf(s.now), Bound(c, perRequest, s.peak);
    && Total(s, today) + Cost(perRequest, |PendingIds(s, today)|) <= bound
    && forall d :: d < today ==> Total(s, d) + Cost(perRequest, |LateIds(s, d)|) <= bound
  }

  ghost predicate QuotaInvariant(c: Config, s: State, perRequest: int) {
    Accounted(c, s) && PhasesDated(s) && QuotaKeysHonest(s) && RecordsCapped(s, perRequest) && WithinBound(c, s, perRequest)
  }

  ghost predicate Capped(step: Step, perRequest: int) {
    step.ComputeRecordKey? ==> step.tokens <= perRequest
  }

  lemma PendingAtMost(c: Config, s: State, perRequest: int, ids: set<nat>)
    requires Accounted(c, s) && 0 <= perRequest && ids <= s.inFlight.Keys
    ensures Cost(perRequest, |ids|) <= Cost(perRequest, c.max + s.peak)
  {
    SubsetIsSmaller(ids, s.inFlight.Keys);
    CostMonotone(perRequest, |ids|, c.max + s.peak);
  }

  lemma LateArePending(c: Config, s: State, perRequest: int, d: int)
    requires 0 <= perRequest
    ensures Cost(perRequest, |LateIds(s, d)|) <= Cost(perRequest, |PendingIds(s, d)|)
  {
    SubsetIsSmaller(LateIds(s, d), PendingIds(s, d));
    CostMonotone(perRequest, |LateIds(s, d)|, |PendingIds(s, d)|);
  }

  lemma WaitKeepsBound(c: Config, s: State, perRequest: int, step: Step)
    requires c.max > 0 && c.limit > 0 && 0 <= perRequest && step.Wait? && Enabled(s, step)
    requires QuotaInvariant(c, s, perRequest) && Accounted(c, Next(c, s, step))
    ensures WithinBound(c, Next(c, s, step), perRequest)
  {
    var t := Next(c, s, step);
    var today, later := DayOf(s.now), DayOf(t.now);
    CostMonotone(perRequest, c.max + s.peak, c.max + t.peak);
    assert forall d :: LateIds(t, d) == LateIds(s, d);
    assert forall d :: PendingIds(t, d) == PendingIds(s, d);
    forall d | d < later ensures Total(t, d) + Cost(perRequest, |LateIds(t, d)|) <= Bound(c, perRequest, t.peak) {
      if d == today {
        LateArePending(c, s, perRequest, d);
      } else if d > today {
        PendingAtMost(c, s, perRequest, LateIds(s, d));
      }
    }
    if later > today {
      PendingAtMost(c, t, perRequest, PendingIds(t, later));
    }
  }

  lemma MoveOne(s: State, t: State, id: nat, r: Request, d: int)
    requires t.inFlight == s.inFlight[id := r]
    ensures PendingIds(t, d) == PendingIds(s, d) - {id} + if Pending(r, d) then {id} else {}
    ensures LateIds(t, d) == LateIds(s, d) - {id} + if r.phase.Recording? && r.phase.day == d then {id} else {}
  {
  }

  lemma RemoveOne(ids: set<nat>, id: nat, perRequest: int)
    requires id in ids
    ensures Cost(perRequest, |ids|) == Cost(perRequest, |ids - {id}|) + perRequest
  {
    assert ids == (ids - {id}) + {id};
    CostStep(perRequest, |ids - {id}|);
  }

  lemma FewerCostLess(a: set<nat>, b: set<nat>, perRequest: int)
    requires a <= b && 0 <= perRequest
    ensures Cost(perRequest, |a|) <= Cost(perRequest, |b|)
  {
    SubsetIsSmaller(a, b);
    CostMonotone(perRequest, |a|, |b|);
  }

  /** The past days' part of the bound, when nothing is recorded. */
  lemma PastDaysKeepBound(c: Config, s: State, t: State, perRequest: int, id: nat, r: Request)
    requires 0 <= perRequest && WithinBound(c, s, perRequest)
    requires t.inFlight == s.inFlight[id := r] && t.totals == s.totals && t.peak == s.peak
    requires r.phase.Recording? ==> r.phase.day == DayOf(s.now)
    ensures forall d :: d < DayOf(s.now) ==> Total(t, d) + Cost(perRequest, |LateIds(t, d)|) <= Bound(c, perRequest, t.peak)
  {
    hide Cost;
    forall d | d < DayOf(s.now) ensures Total(t, d) + Cost(perRequest, |LateIds(t, d)|) <= Bound(c, perRequest, t.peak) {
      MoveOne(s, t, id, r, d);
      FewerCostLess(LateIds(t, d), LateIds(s, d), perRequest);
    }
  }

  lemma QuietMoveKeepsBound(c: Config, s: State, t: State, perRequest: int, id: nat, r: Request)
    requires 0 <= perRequest && WithinBound(c, s, perRequest)
    requires t.inFlight == s.inFlight[id := r] && t.now == s.now && t.totals == s.totals && t.peak == s.peak
    requires Pending(r, DayOf(s.now)) ==> id in s.inFlight && Pending(s.inFlight[id], DayOf(s.now))
    requires r.phase.Recording? ==> r.phase.day == DayOf(s.now)
    ensures WithinBound(c, t, perRequest)
  {
    hide Cost;
    var today := DayOf(s.now);
    MoveOne(s, t, id, r, today);
    assert PendingIds(t, today) <= PendingIds(s, today);
    hide PendingIds, LateIds, Pending, DayOf;
    FewerCostLess(PendingIds(t, today), PendingIds(s, today), perRequest);
    PastDaysKeepBound(c, s, t, perRequest, id, r);
  }

  lemma CheckKeepsBound(c: Config, s: State, perRequest: int, id: nat)
    requires c.max > 0 && c.limit > 0 && 0 <= perRequest && Enabled(s, Check(id)) && QuotaInvariant(c, s, perRequest)
    requires Accounted(c, Next(c, s, Check(id)))
    ensures WithinBound(c, Next(c, s, Check(id)), perRequest)
  {
    hide Cost;
    var t := Next(c, s, Check(id));
    var today := DayOf(s.now);
    if s.inFlight[id].phase.day < today || t.inFlight[id].phase.Denied? {
      QuietMoveKeepsBound(c, s, t, perRequest, id, t.inFlight[id]);
    } else {
      assert Total(s, today) <= c.limit - 1;
      hide LateIds;
      PendingAtMost(c, t, perRequest, PendingIds(t, today));
      PastDaysKeepBound(c, s, t, perRequest, id, t.inFlight[id]);
    }
  }

  lemma RecordPending(s: State, c: Config, id: nat, d: int)
    requires Enabled(s, Record(id))
    ensures var t, p := Next(c, s, Record(id)), s.inFlight[id].phase;
            && PendingIds(t, d) == PendingIds(s, d) - {id}
            && LateIds(t, d) == LateIds(s, d) - {id}
            && (p.day == d ==> id in PendingIds(s, d) && id in LateIds(s, d))
            && Total(t, d) == Total(s, d) + if p.day == d then p.tokens else 0
  {
    MoveOne(s, Next(c, s, Record(id)), id, Next(c, s, Record(id)).inFlight[id], d);
  }

  lemma RecordKeepsToday(c: Config, s: State, perRequest: int, id: nat)
    requires 0 <= perRequest && Enabled(s, Record(id)) && QuotaInvariant(c, s, perRequest)
    ensures var t, today := Next(c, s, Record(id)), DayOf(s.now);
            Total(t, today) + Cost(perRequest, |PendingIds(t, today)|) <= Bound(c, perRequest, s.peak)
  {
    var today, p := DayOf(s.now), s.inFlight[id].phase;
    assert p.tokens <= perRequest;
    RecordPending(s, c, id, today);
    hide Cost, PendingIds, LateIds, Next, PhasesDated, QuotaKeysHonest, RecordsCapped, DayOf, Bound;
    if p.day == today {
      RemoveOne(PendingIds(s, today), id, perRequest);
    } else {
      FewerCostLess(PendingIds(s, today) - {id}, PendingIds(s, today), perRequest);
    }
  }

  lemma RecordKeepsPast(c: Config, s: State, perRequest: int, id: nat, d: int)
    requires 0 <= perRequest && Enabled(s, Record(id)) && QuotaInvariant(c, s, perRequest) && d < DayOf(s.now)
    ensures var t := Next(c, s, Record(id));
            Total(t, d) + Cost(perRequest, |LateIds(t, d)|) <= Bound(c, perRequest, s.peak)
  {
    var p := s.inFlight[id].phase;
    assert p.tokens <= perRequest;
    RecordPending(s, c, id, d);
    hide Cost, PendingIds, LateIds, Next, PhasesDated, QuotaKeysHonest, RecordsCapped, DayOf, Bound;
    if d == p.day {
      RemoveOne(LateIds(s, d), id, perRequest);
    } else {
      FewerCostLess(LateIds(s, d) - {id}, LateIds(s, d), perRequest);
    }
  }

  lemma RecordKeepsBound(c: Config, s: State, perRequest: int, id: nat)
    requires 0 <= perRequest && Enabled(s, Record(id)) && QuotaInvariant(c, s, perRequest)
    ensures WithinBound(c, Next(c, s, Record(id)), perRequest)
  {
    hide Cost, PendingIds, LateIds;
    var t := Next(c, s, Record(id));
    RecordKeepsToday(c, s, perRequest, id);
    forall d | d < DayOf(s.now) ensures Total(t, d) + Cost(perRequest, |LateIds(t, d)|) <= Bound(c, perRequest, t.peak) {
      RecordKeepsPast(c, s, perRequest, id, d);
    }
  }

  lemma ReleaseKeepsBound(c: Config, s: State, perRequest: int, id: nat)
    requires 0 <= perRequest && Enabled(s, Release(id)) && WithinBound(c, s, perRequest)
    ensures WithinBound(c, Next(c, s, Release(id)), perRequest)
  {
    var t := Next(c, s, Release(id));
    var today := DayOf(s.now);
    assert PendingIds(t, today) <= PendingIds(s, today);
    FewerCostLess(PendingIds(t, today), PendingIds(s, today), perRequest);
    forall d | d < today ensures Total(t, d) + Cost(perRequest, |LateIds(t, d)|) <= Bound(c, perRequest, t.peak) {
      assert LateIds(t, d) <= LateIds(s, d);
      FewerCostLess(LateIds(t, d), LateIds(s, d), perRequest);
    }
  }

  lemma StepKeepsHonest(c: Config, s: State, perRequest: int, step: Step)
    requires PhasesDated(s) && QuotaKeysHonest(s) && RecordsCapped(s, perRequest) && Enabled(s, step) && Capped(step, perRequest)
    ensures var t := Next(c, s, step); PhasesDated(t) && QuotaKeysHonest(t) && RecordsCapped(t, perRequest)
  {
  }

  lemma StepKeepsQuota(c: Config, s: State, perRequest: int, step: Step)
    requires c.max > 0 && c.limit > 0 && 0 <= perRequest && Enabled(s, step) && Capped(step, perRequest)
    requires QuotaInvariant(c, s, perRequest)
    ensures QuotaInvariant(c, Next(c, s, step), perRequest)
  {
    StepAccounted(c, s, step);
    StepKeepsHonest(c, s, perRequest, step);
    var t := Next(c, s, step);
    match step {
      case Wait(_) => WaitKeepsBound(c, s, perRequest, step);
      case Acquire(id) =>
        if id in t.inFlight {
          QuietMoveKeepsBound(c, s, t, perRequest, id, t.inFlight[id]);
        }
      case ComputeKey(id) => QuietMoveKeepsBound(c, s, t, perRequest, id, t.inFlight[id]);
      case Check(id) => CheckKeepsBound(c, s, perRequest, id);
      case ComputeRecordKey(id, _) => QuietMoveKeepsBound(c, s, t, perRequest, id, t.inFlight[id]);
      case Record(id) => RecordKeepsBound(c, s, perRequest, id);
      case Release(id) => ReleaseKeepsBound(c, s, perRequest, id);
    }
  }

  lemma {:induction false} EveryRunKeepsQuota(c: Config, start: int, steps: seq<Step>, perRequest: int)
    requires c.max > 0 && c.limit > 0 && 0 <= perRequest
    requires forall k :: 0 <= k < |steps| ==> Capped(steps[k], perRequest)
    ensures QuotaInvariant(c, Run(c, start, steps), perRequest)
  {
    if steps == [] {
      assert PendingIds(Start(start), DayOf(start)) == {};
      assert forall d :: LateIds(Start(start), d) == {};
      assert Cost(perRequest, 0) == 0;
      CostMonotone(perRequest, 0, c.max);
    } else {
      var n := |steps| - 1;
      EveryRunKeepsQuota(c, start, steps[..n], perRequest);
      var s := Run(c, start, steps[..n]);
      if Enabled(s, steps[n]) {
        StepKeepsQuota(c, s, perRequest, steps[n]);
      }
    }
  }

  /** The overshoot of the daily quota: over any interleaving, also across midnight, what is recorded under
      one day's key stays within limit - 1 + (max + peak) * U, where each request records at most U tokens
      and `peak` is the most that slot expiries have ever lost. */
  lemma QuotaOvershootIsBounded(c: Config, start: int, steps: seq<Step>, perRequest: int, day: int)
    requires c.max > 0 && c.limit > 0 && 0 <= perRequest
    requires forall k :: 0 <= k < |steps| ==> Capped(steps[k], perRequest)
    ensures var s := Run(c, start, steps); Total(s, day) <= c.limit - 1 + perRequest * (c.max + s.peak)
  {
    EveryRunKeepsQuota(c, start, steps, perRequest);
    var s := Run(c, start, steps);
    var ids := if day == DayOf(s.now) then PendingIds(s, day) else LateIds(s, day);
    CostMonotone(perRequest, 0, |ids|);
    CostMonotone(perRequest, 0, c.max + s.peak);
    assert Cost(perRequest, 0) == 0;
  }

  /** In particular limit - 1 + max * U, when handlers return within 300 seconds. */
  lemma TimelyQuotaBound(c: Config, start: int, steps: seq<Step>, perRequest: int, day: int)
    requires c.max > 0 && c.limit > 0 && 0 <= perRequest && TimelyRun(c, start, steps)
    requires forall k :: 0 <= k < |steps| ==> Capped(steps[k], perRequest)
    ensures Total(Run(c, start, steps), day) <= c.limit - 1 + perRequest * c.max
  {
    QuotaOvershootIsBounded(c, start, steps, perRequest, day);
    CounterIsExact(c, start, steps);
  }

  // ----- who is granted what

  /** A day is 86400 seconds from midnight to midnight. */
  lemma DaysRunFromMidnight(now: int, day: int)
    ensures DayOf(now) == day <==> day * 86_400_000 <= now < (day + 1) * 86_400_000
  {
  }

  /** A slot is granted exactly when fewer than `max` are in flight, lost ones apart. */
  lemma SlotGrantedExactlyWhen(c: Config, start: int, steps: seq<Step>, id: nat)
    requires c.max > 0 && id !in Run(c, start, steps).inFlight
    ensures var s := Run(c, start, steps);
            && (id in Run(c, start, steps + [Acquire(id)]).inFlight <==> |s.inFlight| - s.lost < c.max)
            && (TimelyRun(c, start, steps) ==> s.lost == 0)
  {
    InFlightWithinLimitPlusLost(c, start, steps);
    OneMore(c, start, steps, Acquire(id));
    if TimelyRun(c, start, steps) {
      CounterIsExact(c, start, steps);
    }
    hide Run, TimelyRun;
  }

  /** Each granted slot keeps the counter for another 300 seconds. */
  lemma SlotKeepsTheCounter(c: Config, start: int, steps: seq<Step>, id: nat)
    requires id !in Run(c, start, steps).inFlight && id in Run(c, start, steps + [Acquire(id)]).inFlight
    ensures var s, t := Run(c, start, steps), Run(c, start, steps + [Acquire(id)]);
            t.redis.counter.Some? && t.redis.counter.value.expiresAt == Some(s.now + 300_000)
  {
    OneMore(c, start, steps, Acquire(id));
    hide Run;
  }

  /** A request that checks the key of the current day is admitted exactly when less than the limit has been
      recorded on that day, by anyone, in any order. */
  lemma QuotaGrantedExactlyWhen(c: Config, start: int, steps: seq<Step>, perRequest: int, id: nat)
    requires c.max > 0 && c.limit > 0 && 0 <= perRequest
    requires forall k :: 0 <= k < |steps| ==> Capped(steps[k], perRequest)
    requires var s := Run(c, start, steps); id in s.inFlight && s.inFlight[id].phase == Keyed(DayOf(s.now))
    ensures var s, t := Run(c, start, steps), Run(c, start, steps + [Check(id)]);
            && id in t.inFlight
            && t.inFlight[id].phase == if Total(s, DayOf(s.now)) < c.limit then Admitted else Denied
  {
    EveryRunKeepsQuota(c, start, steps, perRequest);
    OneMore(c, start, steps, Check(id));
    hide Run, WithinBound, Accounted, DayOf;
  }
}
