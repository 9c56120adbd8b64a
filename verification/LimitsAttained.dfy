/** The bounds of RateLimiter are exact: for every configuration there are runs that attain them. */
module LimitsAttained {
  import opened Api
  import opened RateLimiter

  /** Requests with ids below `n`, and no others, are in flight. */
  ghost predicate FirstIn(s: State, n: nat) {
    forall id: nat :: id in s.inFlight <==> id < n
  }

  /** Requests `low` up to `high` arrive one after the other. */
  function Arrivals(low: nat, high: nat): seq<Step>
    requires low <= high
  {
    if low == high then [] else Arrivals(low, high - 1) + [Acquire(high - 1)]
  }

  ghost predicate Fresh(s: State) {
    s.redis.counter.Some? && s.redis.counter.value.expiresAt == Some(s.now + SLOT_TTL)
  }

  /** Nothing but slots has been taken. */
  ghost predicate SameButSlots(s: State, t: State) {
    t.now == s.now && t.lost == s.lost && t.totals == s.totals && t.redis.quotas == s.redis.quotas
  }

  lemma OneArrival(c: Config, s: State, id: nat)
    requires CounterValue(s.redis) < c.max && FirstIn(s, id)
    ensures Enabled(s, Acquire(id))
    ensures var t := Next(c, s, Acquire(id));
            && CounterValue(t.redis) == CounterValue(s.redis) + 1 && FirstIn(t, id + 1) && Fresh(t) && SameButSlots(s, t)
            && t.inFlight == s.inFlight[id := Request(Holding, s.now)]
  {
  }

  /** Where the counter has room for them, all of them get a slot. */
  lemma {:induction false} ArrivalsGetSlots(c: Config, start: int, before: seq<Step>, low: nat, high: nat)
    requires low <= high && FirstIn(Run(c, start, before), low)
    requires CounterValue(Run(c, start, before).redis) + (high - low) <= c.max
    ensures var s, t := Run(c, start, before), Run(c, start, before + Arrivals(low, high));
            && CounterValue(t.redis) == CounterValue(s.redis) + (high - low) && FirstIn(t, high) && SameButSlots(s, t)
            && (high > low ==> Fresh(t))
            && (forall id: nat :: low <= id < high ==> t.inFlight[id].phase == Holding)
  {
    hide Run;
    if low == high {
      assert before + Arrivals(low, high) == before;
    } else {
      ArrivalsGetSlots(c, start, before, low, high - 1);
      var a := before + Arrivals(low, high - 1);
      OneMore(c, start, a, Acquire(high - 1));
      OneArrival(c, Run(c, start, a), high - 1);
      assert a + [Acquire(high - 1)] == before + Arrivals(low, high);
      hide Next, Enabled;
    }
  }

  function Rounds(c: Config, n: nat): nat
    requires c.max > 0
  {
    n * c.max
  }

  /** `n` full houses, each of which outlives its key. */
  function Crowd(c: Config, start: int, n: nat): seq<Step>
    requires c.max > 0
  {
    if n == 0 then []
    else
      assert Rounds(c, n - 1) <= Rounds(c, n);
      Crowd(c, start, n - 1) + [Wait(start + (n - 1) * SLOT_TTL)] + Arrivals(Rounds(c, n - 1), Rounds(c, n))
  }

  ghost predicate Crowded(c: Config, start: int, n: nat, s: State)
    requires c.max > 0 && n > 0
  {
    && s.now == start + (n - 1) * SLOT_TTL && CounterValue(s.redis) == c.max && Fresh(s)
    && s.lost == Rounds(c, n - 1) && FirstIn(s, Rounds(c, n))
  }

  lemma CrowdWaits(c: Config, start: int, n: nat, s: State)
    requires c.max > 0 && n > 0 && Crowded(c, start, n, s)
    ensures var wait := Wait(start + n * SLOT_TTL);
            && Enabled(s, wait)
            && var t := Next(c, s, wait);
               t.now == start + n * SLOT_TTL && t.redis.counter.None? && t.lost == Rounds(c, n) && FirstIn(t, Rounds(c, n))
  {
  }

  lemma FirstRound(c: Config, start: int)
    requires c.max > 0
    ensures var t := Run(c, start, [Wait(start)]);
            t.now == start && t.redis.counter.None? && t.lost == 0 && FirstIn(t, 0)
  {
    OneMore(c, start, [], Wait(start));
    assert [] + [Wait(start)] == [Wait(start)];
  }

  lemma RoundFills(c: Config, start: int, n: nat, before: seq<Step>)
    requires c.max > 0 && n > 0
    requires var t := Run(c, start, before);
             t.now == start + (n - 1) * SLOT_TTL && t.redis.counter.None? && t.lost == Rounds(c, n - 1) && FirstIn(t, Rounds(c, n - 1))
    ensures Rounds(c, n) == Rounds(c, n - 1) + c.max
    ensures Crowded(c, start, n, Run(c, start, before + Arrivals(Rounds(c, n - 1), Rounds(c, n))))
  {
    assert Rounds(c, n) == Rounds(c, n - 1) + c.max;
    hide Run, Rounds;
    ArrivalsGetSlots(c, start, before, Rounds(c, n - 1), Rounds(c, n));
  }

  lemma {:induction false} CrowdIsCrowded(c: Config, start: int, n: nat)
    requires c.max > 0 && n > 0
    ensures Crowded(c, start, n, Run(c, start, Crowd(c, start, n)))
  {
    hide Run, Next, Enabled, Arrivals;
    var before, wait := Crowd(c, start, n - 1), Wait(start + (n - 1) * SLOT_TTL);
    if n > 1 {
      CrowdIsCrowded(c, start, n - 1);
      CrowdWaits(c, start, n - 1, Run(c, start, before));
      OneMore(c, start, before, wait);
    } else {
      FirstRound(c, start);
      assert before + [wait] == [Wait(start)];
    }
    hide Rounds, Crowded;
    RoundFills(c, start, n, before + [wait]);
  }

  lemma FirstInCounts(s: State, n: nat)
    requires FirstIn(s, n)
    ensures |s.inFlight| == n
    decreases n
  {
    if n == 0 {
      assert s.inFlight == map[];
    } else {
      var t := s.(inFlight := s.inFlight - {n - 1});
      FirstInCounts(t, n - 1);
      assert s.inFlight.Keys == t.inFlight.Keys + {n - 1};
    }
  }

  /** Lost slots do come back as excess: for every limit, and with any multiple of it lost, `max + lost`
      requests can be in flight. */
  lemma SlotBoundIsAttained(c: Config, start: int, n: nat)
    requires c.max > 0 && n > 0
    ensures var s := Run(c, start, Crowd(c, start, n));
            |s.inFlight| == c.max + s.lost && s.lost == (n - 1) * c.max
  {
    CrowdIsCrowded(c, start, n);
    hide Run;
    var s := Run(c, start, Crowd(c, start, n));
    FirstInCounts(s, Rounds(c, n));
    assert Rounds(c, n) == Rounds(c, n - 1) + c.max;
  }

  // ----- the quota

  ghost predicate Spent(s: State, start: int, n: nat) {
    && s.now == start && s.inFlight == map[] && CounterValue(s.redis) == 0
    && Total(s, DayOf(start)) == n && Used(s.redis, DayOf(start)) == n
  }

  /** The state after each of these steps, for a request that is alone. */
  ghost function Alone(c: Config, s: State, stage: nat): State
    requires c.max > 0 && CounterValue(s.redis) == 0 && stage <= 6
  {
    var day := DayOf(s.now);
    var a := s.(redis := Acquired(s.redis, c.max, s.now), inFlight := s.inFlight[0 := Request(Holding, s.now)]);
    if stage == 0 then s
    else if stage == 1 then a
    else if stage == 2 then Moved(a, 0, Keyed(day))
    else if stage == 3 then Moved(a, 0, Admitted)
    else if stage == 4 then Moved(a, 0, Recording(day, 1))
    else
      var r := Moved(a, 0, Done).(redis := Recorded(a.redis, day, 1, s.now), totals := s.totals[day := Total(s, day) + 1]);
      if stage == 5 then r else r.(redis := Released(r.redis), inFlight := r.inFlight - {0})
  }

  function Move(stage: nat): Step
    requires stage < 6
  {
    match stage
    case 0 => Acquire(0)
    case 1 => ComputeKey(0)
    case 2 => Check(0)
    case 3 => ComputeRecordKey(0, 1)
    case 4 => Record(0)
    case _ => Release(0)
  }

  lemma AloneMoves(c: Config, s: State, stage: nat, start: int, n: nat)
    requires c.max > 0 && Spent(s, start, n) && n < c.limit && stage < 6
    ensures Enabled(Alone(c, s, stage), Move(stage))
    ensures Next(c, Alone(c, s, stage), Move(stage)) == Alone(c, s, stage + 1)
  {
  }

  lemma AloneSpends(c: Config, s: State, start: int, n: nat)
    requires c.max > 0 && Spent(s, start, n)
    ensures Spent(Alone(c, s, 6), start, n + 1)
  {
  }

  function Moves(stage: nat): seq<Step>
    requires stage <= 6
  {
    if stage == 0 then [] else Moves(stage - 1) + [Move(stage - 1)]
  }

  lemma {:induction false} AloneRuns(c: Config, start: int, before: seq<Step>, n: nat, stage: nat)
    requires c.max > 0 && Spent(Run(c, start, before), start, n) && n < c.limit && stage <= 6
    ensures Run(c, start, before + Moves(stage)) == Alone(c, Run(c, start, before), stage)
  {
    hide Run, Next, Enabled;
    if stage == 0 {
      assert before + Moves(0) == before;
    } else {
      AloneRuns(c, start, before, n, stage - 1);
      OneMore(c, start, before + Moves(stage - 1), Move(stage - 1));
      AloneMoves(c, Run(c, start, before), stage - 1, start, n);
      assert before + Moves(stage - 1) + [Move(stage - 1)] == before + Moves(stage);
      hide Alone, Move, Moves, Spent;
    }
  }

  /** One request after the other takes a slot, records one token and leaves. */
  function Spend(n: nat): seq<Step> {
    if n == 0 then [] else Spend(n - 1) + Moves(6)
  }

  lemma {:induction false} SpendSpends(c: Config, start: int, n: nat)
    requires c.max > 0 && n <= c.limit
    ensures Spent(Run(c, start, Spend(n)), start, n)
  {
    if n == 0 {
      assert Run(c, start, Spend(0)) == Start(start);
    } else {
      hide Run, Moves, Alone;
      SpendSpends(c, start, n - 1);
      AloneRuns(c, start, Spend(n - 1), n - 1, 6);
      AloneSpends(c, Run(c, start, Spend(n - 1)), start, n - 1);
    }
  }

  // ----- then a full house checks before anyone records

  /** Of the first `max` requests, those below `i` are in phase `p`, the others in phase `q`. */
  ghost predicate Phased(c: Config, s: State, i: nat, p: Phase, q: Phase) {
    c.max > 0 && FirstIn(s, c.max) && forall id: nat :: id < c.max ==> s.inFlight[id].phase == if id < i then p else q
  }

  ghost predicate Totals(s: State, start: int, total: int) {
    s.now == start && Total(s, DayOf(start)) == total && Used(s.redis, DayOf(start)) == total
  }

  /** Request `i` runs two of its steps. */
  lemma TwoMore(c: Config, start: int, steps: seq<Step>, first: Step, second: Step)
    requires Enabled(Run(c, start, steps), first)
    requires Enabled(Next(c, Run(c, start, steps), first), second)
    ensures Run(c, start, steps + [first, second]) == Next(c, Next(c, Run(c, start, steps), first), second)
  {
    OneMore(c, start, steps, first);
    OneMore(c, start, steps + [first], second);
    assert steps + [first] + [second] == steps + [first, second];
  }

  function Checks(n: nat): seq<Step> {
    if n == 0 then [] else Checks(n - 1) + [ComputeKey(n - 1), Check(n - 1)]
  }

  lemma OneChecks(c: Config, s: State, start: int, i: nat)
    requires i < c.max && Phased(c, s, i, Admitted, Holding) && Totals(s, start, c.limit - 1)
    ensures Enabled(s, ComputeKey(i)) && Enabled(Next(c, s, ComputeKey(i)), Check(i))
    ensures var t := Next(c, Next(c, s, ComputeKey(i)), Check(i));
            Phased(c, t, i + 1, Admitted, Holding) && Totals(t, start, c.limit - 1)
  {
  }

  lemma {:induction false} AllCheck(c: Config, start: int, before: seq<Step>, n: nat)
    requires n <= c.max && Phased(c, Run(c, start, before), 0, Admitted, Holding)
    requires Totals(Run(c, start, before), start, c.limit - 1)
    ensures var t := Run(c, start, before + Checks(n)); Phased(c, t, n, Admitted, Holding) && Totals(t, start, c.limit - 1)
  {
    hide Run, Next, Enabled, Phased, At;
    if n == 0 {
      assert before + Checks(0) == before;
    } else {
      AllCheck(c, start, before, n - 1);
      var a := before + Checks(n - 1);
      OneChecks(c, Run(c, start, a), start, n - 1);
      TwoMore(c, start, a, ComputeKey(n - 1), Check(n - 1));
      assert a + [ComputeKey(n - 1), Check(n - 1)] == before + Checks(n);
    }
  }

  function Records(n: nat, tokens: int): seq<Step> {
    if n == 0 then [] else Records(n - 1, tokens) + [ComputeRecordKey(n - 1, tokens), Record(n - 1)]
  }

  lemma OneRecords(c: Config, s: State, start: int, i: nat, tokens: int, total: int)
    requires i < c.max && Phased(c, s, i, Done, Admitted) && Totals(s, start, total)
    ensures Enabled(s, ComputeRecordKey(i, tokens)) && Enabled(Next(c, s, ComputeRecordKey(i, tokens)), Record(i))
    ensures var t := Next(c, Next(c, s, ComputeRecordKey(i, tokens)), Record(i));
            Phased(c, t, i + 1, Done, Admitted) && Totals(t, start, total + tokens)
  {
  }

  lemma {:induction false} AllRecord(c: Config, start: int, before: seq<Step>, n: nat, tokens: int)
    requires n <= c.max && Phased(c, Run(c, start, before), 0, Done, Admitted)
    requires Totals(Run(c, start, before), start, c.limit - 1)
    ensures var t := Run(c, start, before + Records(n, tokens));
            Phased(c, t, n, Done, Admitted) && Totals(t, start, c.limit - 1 + Cost(tokens, n))
  {
    hide Run, Next, Enabled, Phased, At;
    if n == 0 {
      assert before + Records(0, tokens) == before && Cost(tokens, 0) == 0;
    } else {
      AllRecord(c, start, before, n - 1, tokens);
      var a := before + Records(n - 1, tokens);
      OneRecords(c, Run(c, start, a), start, n - 1, tokens, c.limit - 1 + Cost(tokens, n - 1));
      TwoMore(c, start, a, ComputeRecordKey(n - 1, tokens), Record(n - 1));
      CostStep(tokens, n - 1);
      assert a + [ComputeRecordKey(n - 1, tokens), Record(n - 1)] == before + Records(n, tokens);
      hide Cost;
    }
  }

  /** All but one token is spent, everyone checks, everyone records. */
  function Rush(c: Config, tokens: int): seq<Step>
    requires c.max > 0 && c.limit > 0
  {
    Spend(c.limit - 1) + Arrivals(0, c.max) + Checks(c.max) + Records(c.max, tokens)
  }

  /** Steps that take no time and record at most `tokens` each. */
  ghost predicate Quick(steps: seq<Step>, tokens: int) {
    forall k :: 0 <= k < |steps| ==> !steps[k].Wait? && Capped(steps[k], tokens)
  }

  lemma QuickAppend(a: seq<Step>, b: seq<Step>, tokens: int)
    requires Quick(a, tokens) && Quick(b, tokens)
    ensures Quick(a + b, tokens)
  {
  }

  lemma {:induction false} PartsAreQuick(n: nat, stage: nat, tokens: int)
    requires stage <= 6 && tokens >= 1
    ensures Quick(Moves(stage), tokens) && Quick(Arrivals(0, n), tokens)
    ensures Quick(Checks(n), tokens) && Quick(Records(n, tokens), tokens)
    decreases n + stage
  {
    if n > 0 {
      PartsAreQuick(n - 1, stage, tokens);
      assert Quick([Acquire(n - 1)], tokens) && Quick([ComputeKey(n - 1), Check(n - 1)], tokens);
      assert Quick([ComputeRecordKey(n - 1, tokens), Record(n - 1)], tokens);
    } else if stage > 0 {
      PartsAreQuick(n, stage - 1, tokens);
      assert Quick([Move(stage - 1)], tokens);
    }
  }

  lemma {:induction false} SpendIsQuick(n: nat, tokens: int)
    requires tokens >= 1
    ensures Quick(Spend(n), tokens)
  {
    if n > 0 {
      SpendIsQuick(n - 1, tokens);
      PartsAreQuick(0, 6, tokens);
      QuickAppend(Spend(n - 1), Moves(6), tokens);
      hide Moves, Quick;
    }
  }

  /** The quota bound is exact: for every limit, every concurrency and every U of at least one token, a
      run in which no time passes at all records limit - 1 + max * U tokens on one day. */
  lemma QuotaBoundIsAttained(c: Config, start: int, tokens: int)
    requires c.max > 0 && c.limit > 0 && tokens >= 1
    ensures Total(Run(c, start, Rush(c, tokens)), DayOf(start)) == c.limit - 1 + tokens * c.max
    ensures Quick(Rush(c, tokens), tokens) && TimelyRun(c, start, Rush(c, tokens))
  {
    hide Run, Spend, Arrivals, Checks, Records;
    var a, b := Spend(c.limit - 1), Spend(c.limit - 1) + Arrivals(0, c.max);
    SpendSpends(c, start, c.limit - 1);
    ArrivalsGetSlots(c, start, a, 0, c.max);
    AllCheck(c, start, b, c.max);
    AllRecord(c, start, b + Checks(c.max), c.max, tokens);
    SpendIsQuick(c.limit - 1, tokens);
    PartsAreQuick(c.max, 0, tokens);
    QuickAppend(a, Arrivals(0, c.max), tokens);
    QuickAppend(b, Checks(c.max), tokens);
    QuickAppend(b + Checks(c.max), Records(c.max, tokens), tokens);
    hide Capped;
  }
}
