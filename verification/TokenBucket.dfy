/** The request-rate limiter: one Redis hash per identity, refilled and charged by an atomic script, and
    forgotten when its key expires (internal/ratelimit/backend.go:32-70). */
module TokenBucket {
  import opened Api

  /** Client timestamps are in microseconds, the server's clock in milliseconds. */
  datatype Bucket = Bucket(tokens: real, lastRefill: int)

  datatype Limit = Limit(rate: real, capacity: int)

  datatype Answer = Answer(bucket: Bucket, allowed: bool)

  function Seconds(micros: int): real {
    micros as real / 1000000.0
  }

  function Min(a: real, b: real): real {
    if a <= b then a else b
  }

  /** The least integer that is not below `x`. */
  function Ceiling(x: real): (c: int)
    ensures c as real - 1.0 < x <= c as real
  {
    -((-x).Floor)
  }

  /** How long a key outlives its last call, in milliseconds. */
  function TimeToLive(l: Limit): int
    requires l.rate > 0.0
  {
    Ceiling(l.capacity as real / l.rate * 1000.0) + 5000
  }

  /** The tokens that a call finds: none stored means a full bucket. */
  function Refilled(l: Limit, data: Option<Bucket>, now: int): real {
    match data
    case None => l.capacity as real
    case Some(b) => Min(l.capacity as real, b.tokens + Seconds(now - b.lastRefill) * l.rate)
  }

  function Take(l: Limit, data: Option<Bucket>, now: int): Answer {
    var tokens := Refilled(l, data, now);
    if tokens >= 1.0 then Answer(Bucket(tokens - 1.0, now), true) else Answer(Bucket(tokens, now), false)
  }

  /** The key as the server holds it. */
  class BucketKey {
    const limit: Limit
    var data: Option<Bucket>
    var expiresAt: int

    constructor (limit: Limit)
      ensures this.limit == limit && data == None
    {
      this.limit := limit;
      data, expiresAt := None, 0;
    }

    ghost function Stored(): Option<Entry>
      reads this
    {
      if data.Some? then Some(Entry(data.value, expiresAt)) else None
    }

    /** The script, run atomically at server time `clock` with the client's timestamp `now`. */
    method AllowRequest(now: int, clock: int) returns (allowed: bool)
      requires limit.rate > 0.0
      modifies this
      ensures allowed == Take(limit, Live(old(Stored()), clock), now).allowed
      ensures Stored() == Some(AfterCall(limit, old(Stored()), Call(now, clock)))
    {
      if data.Some? && clock >= expiresAt {
        data := None;
      }
      var tokens, lastRefill := limit.capacity as real, now;
      if data.Some? {
        tokens, lastRefill := data.value.tokens, data.value.lastRefill;
      }
      var elapsed := (now - lastRefill) as real / 1000000.0;
      var newTokens := Min(limit.capacity as real, tokens + elapsed * limit.rate);
      allowed := newTokens >= 1.0;
      if allowed {
        newTokens := newTokens - 1.0;
      }
      data := Some(Bucket(newTokens, now));
      expiresAt := clock + TimeToLive(limit);
    }
  }

  datatype Call = Call(now: int, clock: int)

  datatype Entry = Entry(bucket: Bucket, expiresAt: int)

  /** What is left of a key at server time `clock`. */
  function Live(s: Option<Entry>, clock: int): Option<Bucket> {
    if s.Some? && clock < s.value.expiresAt then Some(s.value.bucket) else None
  }

  function AfterCall(l: Limit, s: Option<Entry>, c: Call): Entry
    requires l.rate > 0.0
  {
    Entry(Take(l, Live(s, c.clock), c.now).bucket, c.clock + TimeToLive(l))
  }

  /** The key after a sequence of calls, with expiry. */
  function Key(l: Limit, calls: seq<Call>): Option<Entry>
    requires l.rate > 0.0
  {
    if calls == [] then None
    else Some(AfterCall(l, Key(l, calls[..|calls| - 1]), calls[|calls| - 1]))
  }

  function Allowed(l: Limit, calls: seq<Call>, k: nat): bool
    requires l.rate > 0.0 && k < |calls|
  {
    Take(l, Live(Key(l, calls[..k]), calls[k].clock), calls[k].now).allowed
  }

  /** The bucket that never expires, after the same calls. */
  function Eternal(l: Limit, calls: seq<Call>): Option<Bucket> {
    if calls == [] then None
    else Some(Take(l, Eternal(l, calls[..|calls| - 1]), calls[|calls| - 1].now).bucket)
  }

  function EternallyAllowed(l: Limit, calls: seq<Call>, k: nat): bool
    requires k < |calls|
  {
    Take(l, Eternal(l, calls[..k]), calls[k].now).allowed
  }

  /** Admissions from call `j` to call `k`, inclusive. */
  function Admissions(l: Limit, calls: seq<Call>, j: nat, k: nat): nat
    requires j <= k < |calls|
  {
    (if j == k then 0 else Admissions(l, calls, j, k - 1)) + if EternallyAllowed(l, calls, k) then 1 else 0
  }

  /** The tokens that accrue up to a point in time. */
  function Worth(l: Limit, micros: int): real {
    l.rate * Seconds(micros)
  }

  lemma WorthDifference(l: Limit, a: int, b: int)
    ensures Seconds(b - a) * l.rate == Worth(l, b) - Worth(l, a)
  {
    assert Seconds(b - a) == Seconds(b) - Seconds(a);
  }

  lemma RefilledByWorth(l: Limit, b: Bucket, now: int)
    ensures Refilled(l, Some(b), now) == Min(l.capacity as real, b.tokens + Worth(l, now) - Worth(l, b.lastRefill))
  {
    WorthDifference(l, b.lastRefill, now);
    hide Worth;
  }

  lemma WorthMonotone(l: Limit, a: int, b: int)
    requires l.rate > 0.0 && a <= b
    ensures Worth(l, a) <= Worth(l, b)
  {
    assert Seconds(a) <= Seconds(b);
  }

  /** The quantity that no refill raises and each admission lowers by one. */
  function Potential(l: Limit, b: Bucket): real {
    b.tokens - Worth(l, b.lastRefill)
  }

  lemma TakeLowersPotential(l: Limit, data: Option<Bucket>, now: int)
    ensures var a := Take(l, data, now);
            var paid := if a.allowed then 1.0 else 0.0;
            && Potential(l, a.bucket) + paid <= l.capacity as real - Worth(l, now)
            && (data.Some? ==> Potential(l, a.bucket) + paid <= Potential(l, data.value))
            && (a.allowed ==> Potential(l, a.bucket) >= -Worth(l, now))
            && (Potential(l, a.bucket) + paid == l.capacity as real - Worth(l, now)
                || (data.Some? && Potential(l, a.bucket) + paid == Potential(l, data.value)))
  {
    if data.Some? {
      RefilledByWorth(l, data.value, now);
      hide Worth, Refilled;
    } else {
      hide Worth;
    }
  }

  lemma {:induction false} PotentialPaysForAdmissions(l: Limit, calls: seq<Call>, j: nat, k: nat)
    requires j <= k < |calls|
    ensures Potential(l, Eternal(l, calls[..k + 1]).value) + Admissions(l, calls, j, k) as real
            <= l.capacity as real - Worth(l, calls[j].now)
  {
    assert calls[..k + 1][..k] == calls[..k];
    TakeLowersPotential(l, Eternal(l, calls[..k]), calls[k].now);
    hide Worth, Potential, Take;
    if j < k {
      PotentialPaysForAdmissions(l, calls, j, k - 1);
    }
  }

  /** For every call sequence, with timestamps in any order: the admissions from call `j` up to an admitted
      call `k` number at most burst + rate * (t_k - t_j). */
  lemma WindowBound(l: Limit, calls: seq<Call>, j: nat, k: nat)
    requires j <= k < |calls| && EternallyAllowed(l, calls, k)
    ensures Admissions(l, calls, j, k) as real <= l.capacity as real + (Worth(l, calls[k].now) - Worth(l, calls[j].now))
  {
    PotentialPaysForAdmissions(l, calls, j, k);
    assert calls[..k + 1][..k] == calls[..k];
    TakeLowersPotential(l, Eternal(l, calls[..k]), calls[k].now);
    hide Worth, Take, Admissions;
  }

  /** Admissions from call `j` up to just before call `k`. */
  function Spent(l: Limit, calls: seq<Call>, j: nat, k: nat): nat
    requires j <= k < |calls|
  {
    if j == k then 0 else Admissions(l, calls, j, k - 1)
  }

  /** What the window from call `j` to call `k` has left: the burst and the refill since, less what was admitted. */
  function Room(l: Limit, calls: seq<Call>, j: nat, k: nat): real
    requires j <= k < |calls|
  {
    l.capacity as real + (Worth(l, calls[k].now) - Worth(l, calls[j].now)) - Spent(l, calls, j, k) as real
  }

  lemma RoomShrinks(l: Limit, calls: seq<Call>, j: nat, k: nat)
    requires j < k < |calls|
    ensures Room(l, calls, j, k) == Room(l, calls, j, k - 1) + (Worth(l, calls[k].now) - Worth(l, calls[k - 1].now))
                                    - if EternallyAllowed(l, calls, k - 1) then 1.0 else 0.0
  {
    hide Worth, EternallyAllowed;
  }

  /** The tokens that call `k` finds are exactly what the tightest window ending there has left. */
  lemma {:induction false} TokensAreTheTightestRoom(l: Limit, calls: seq<Call>, k: nat) returns (tightest: nat)
    requires k < |calls|
    ensures var tokens := Refilled(l, Eternal(l, calls[..k]), calls[k].now);
            && tightest <= k && tokens == Room(l, calls, tightest, k)
            && forall j :: 0 <= j <= k ==> tokens <= Room(l, calls, j, k)
  {
    if k == 0 {
      tightest := 0;
      assert calls[..0] == [];
    } else {
      var before := TokensAreTheTightestRoom(l, calls, k - 1);
      assert calls[..k][..k - 1] == calls[..k - 1];
      var b := Eternal(l, calls[..k]).value;
      RefilledByWorth(l, b, calls[k].now);
      assert b.tokens == Refilled(l, Eternal(l, calls[..k - 1]), calls[k - 1].now) - if EternallyAllowed(l, calls, k - 1) then 1.0 else 0.0;
      assert b.lastRefill == calls[k - 1].now;
      var tokens := Refilled(l, Eternal(l, calls[..k]), calls[k].now);
      forall j | 0 <= j < k
        ensures Room(l, calls, j, k) == Room(l, calls, j, k - 1) + (Worth(l, calls[k].now) - Worth(l, calls[k - 1].now))
                                        - if EternallyAllowed(l, calls, k - 1) then 1.0 else 0.0
      {
        RoomShrinks(l, calls, j, k);
      }
      assert Room(l, calls, k, k) == l.capacity as real;
      tightest := if tokens == l.capacity as real then k else before;
      hide Worth, Room, Eternal, EternallyAllowed, Refilled;
    }
  }

  lemma AdmittedByWorth(l: Limit, calls: seq<Call>, k: nat)
    requires k < |calls|
    ensures EternallyAllowed(l, calls, k) <==>
            forall j :: 0 <= j <= k ==>
              Spent(l, calls, j, k) as real + 1.0 <= l.capacity as real + (Worth(l, calls[k].now) - Worth(l, calls[j].now))
  {
    var tightest := TokensAreTheTightestRoom(l, calls, k);
    assert EternallyAllowed(l, calls, k) <==> Refilled(l, Eternal(l, calls[..k]), calls[k].now) >= 1.0;
    hide Worth, Refilled, Eternal, Spent;
    assert forall j :: 0 <= j <= k ==>
        Room(l, calls, j, k) == l.capacity as real + (Worth(l, calls[k].now) - Worth(l, calls[j].now)) - Spent(l, calls, j, k) as real;
  }

  /** The refill over a span of microseconds. */
  function Accrued(l: Limit, micros: int): real {
    micros as real / 1000000.0 * l.rate
  }

  /** Exactly which calls are admitted, for any sequence and any timestamps: a call is denied if and only if
      some window that ends with it would then hold more than the burst and the refill since. */
  lemma AdmittedExactlyWhen(l: Limit, calls: seq<Call>, k: nat)
    requires k < |calls|
    ensures EternallyAllowed(l, calls, k) <==>
            forall j :: 0 <= j <= k ==>
              Spent(l, calls, j, k) as real + 1.0 <= l.capacity as real + Accrued(l, calls[k].now - calls[j].now)
  {
    hide Worth, Spent, EternallyAllowed, Accrued;
    AdmittedByWorth(l, calls, k);
    forall j | 0 <= j <= k
      ensures Accrued(l, calls[k].now - calls[j].now) == Worth(l, calls[k].now) - Worth(l, calls[j].now)
    {
      AccruedIsWorth(l, calls[j].now, calls[k].now);
    }
  }

  lemma AccruedIsWorth(l: Limit, a: int, b: int)
    ensures Accrued(l, b - a) == Worth(l, b) - Worth(l, a)
  {
    WorthDifference(l, a, b);
    hide Worth;
  }

  lemma {:induction false} BurstIsSpent(l: Limit, calls: seq<Call>, j: nat, k: nat)
    requires j <= k < |calls| && forall i :: 0 <= i < k ==> EternallyAllowed(l, calls, i)
    ensures Spent(l, calls, j, k) == k - j
  {
    if j < k {
      BurstIsSpent(l, calls, j, k - 1);
      hide EternallyAllowed;
    }
  }

  /** So a new key admits a burst in full: of calls at one moment, exactly the first `capacity` pass. */
  lemma {:induction false} BurstIsAdmitted(l: Limit, calls: seq<Call>, k: nat)
    requires k < |calls| && forall i :: 0 <= i <= k ==> calls[i].now == calls[0].now
    requires k <= l.capacity
    ensures EternallyAllowed(l, calls, k) <==> k < l.capacity
    ensures forall i :: 0 <= i < k ==> EternallyAllowed(l, calls, i)
  {
    if k > 0 {
      BurstIsAdmitted(l, calls, k - 1);
    }
    AdmittedByWorth(l, calls, k);
    forall j | 0 <= j <= k ensures Spent(l, calls, j, k) == k - j {
      BurstIsSpent(l, calls, j, k);
    }
    hide Worth, Spent, EternallyAllowed;
  }

  // ----- expiry

  /** The server's clock does not run backwards, and client timestamps are within `skew` milliseconds of it. */
  ghost predicate Clocked(calls: seq<Call>, skew: int) {
    && (forall i, j :: 0 <= i < j < |calls| ==> calls[i].clock <= calls[j].clock)
    && (forall i :: 0 <= i < |calls| ==> -skew * 1000 <= calls[i].now - calls[i].clock * 1000 <= skew * 1000)
  }

  /** A bucket is never in debt by more than what the latest possible timestamp so far explains. */
  lemma {:induction false} DebtIsBounded(l: Limit, calls: seq<Call>, skew: int)
    requires l.rate > 0.0 && l.capacity >= 0 && calls != [] && Clocked(calls, skew)
    ensures Potential(l, Eternal(l, calls).value) >= -Worth(l, (calls[|calls| - 1].clock + skew) * 1000)
  {
    var n := |calls| - 1;
    WorthMonotone(l, calls[n].now, (calls[n].clock + skew) * 1000);
    TakeLowersPotential(l, Eternal(l, calls[..n]), calls[n].now);
    if n > 0 {
      DebtIsBounded(l, calls[..n], skew);
      WorthMonotone(l, (calls[n - 1].clock + skew) * 1000, (calls[n].clock + skew) * 1000);
    }
    hide Worth;
  }

  lemma FullAfterTimeToLive(l: Limit, last: int, clock: int)
    requires l.rate > 0.0 && clock >= last + TimeToLive(l)
    ensures Worth(l, (clock - 2500) * 1000) - Worth(l, (last + 2500) * 1000) >= l.capacity as real
  {
    var from, to := (last + 2500) * 1000, (clock - 2500) * 1000;
    var x := l.capacity as real / l.rate;
    assert (to - from) as real / 1000.0 >= x * 1000.0 by {
      assert to - from == (clock - last - 5000) * 1000;
      assert (clock - last - 5000) as real >= x * 1000.0;
    }
    assert Seconds(to - from) >= x;
    WorthDifference(l, from, to);
    Scale(l.rate, x, Seconds(to - from));
  }

  lemma Scale(rate: real, x: real, y: real)
    requires rate > 0.0 && x <= y
    ensures rate * x <= y * rate
  {
  }

  lemma ExpiredIsFull(l: Limit, calls: seq<Call>, c: Call)
    requires l.rate > 0.0 && l.capacity >= 0 && calls != [] && Clocked(calls + [c], 2500)
    requires c.clock >= calls[|calls| - 1].clock + TimeToLive(l)
    ensures Refilled(l, Eternal(l, calls), c.now) == l.capacity as real
  {
    var last := calls[|calls| - 1].clock;
    assert Clocked(calls, 2500) by {
      assert forall i :: 0 <= i < |calls| ==> (calls + [c])[i] == calls[i];
    }
    assert (calls + [c])[|calls|] == c;
    var b := Eternal(l, calls).value;
    DebtIsBounded(l, calls, 2500);
    FullAfterTimeToLive(l, last, c.clock);
    WorthMonotone(l, (c.clock - 2500) * 1000, c.now);
    RefilledByWorth(l, b, c.now);
    hide Worth, Refilled, Eternal, Clocked, TimeToLive;
  }

  /** Within 2.5 seconds of clock skew the expiry of the key is invisible: every call gets the answer, and
      leaves the bucket, of a key that never expires. */
  lemma {:induction false} ExpiryIsInvisible(l: Limit, calls: seq<Call>, k: nat)
    requires l.rate > 0.0 && l.capacity >= 0 && k < |calls| && Clocked(calls, 2500)
    ensures Allowed(l, calls, k) == EternallyAllowed(l, calls, k)
    ensures Key(l, calls[..k + 1]) == Some(Entry(Eternal(l, calls[..k + 1]).value, calls[k].clock + TimeToLive(l)))
  {
    assert calls[..k + 1][..k] == calls[..k];
    if k == 0 {
      assert calls[..0] == [];
    } else {
      ExpiryIsInvisible(l, calls, k - 1);
      assert calls[..k - 1 + 1] == calls[..k];
      if calls[k].clock >= calls[k - 1].clock + TimeToLive(l) {
        assert Clocked(calls[..k] + [calls[k]], 2500) by {
          assert forall i :: 0 <= i <= k ==> (calls[..k] + [calls[k]])[i] == calls[i];
        }
        ExpiredIsFull(l, calls[..k], calls[k]);
      }
    }
  }

  /** Admissions by the expiring key, from call `j` to call `k` inclusive. */
  function LiveAdmissions(l: Limit, calls: seq<Call>, j: nat, k: nat): nat
    requires l.rate > 0.0 && j <= k < |calls|
  {
    (if j == k then 0 else LiveAdmissions(l, calls, j, k - 1)) + if Allowed(l, calls, k) then 1 else 0
  }

  lemma {:induction false} ExpiryKeepsAdmissions(l: Limit, calls: seq<Call>, j: nat, k: nat)
    requires l.rate > 0.0 && l.capacity >= 0 && j <= k < |calls| && Clocked(calls, 2500)
    ensures LiveAdmissions(l, calls, j, k) == Admissions(l, calls, j, k)
  {
    ExpiryIsInvisible(l, calls, k);
    hide Allowed, EternallyAllowed, Clocked, Key, Eternal, TimeToLive;
    if j < k {
      ExpiryKeepsAdmissions(l, calls, j, k - 1);
    }
  }

  /** The window bound for the key as Redis keeps it. */
  lemma LiveWindowBound(l: Limit, calls: seq<Call>, j: nat, k: nat)
    requires l.rate > 0.0 && l.capacity >= 0 && j <= k < |calls| && Clocked(calls, 2500) && Allowed(l, calls, k)
    ensures LiveAdmissions(l, calls, j, k) as real <= l.capacity as real + (Worth(l, calls[k].now) - Worth(l, calls[j].now))
  {
    ExpiryIsInvisible(l, calls, k);
    ExpiryKeepsAdmissions(l, calls, j, k);
    WindowBound(l, calls, j, k);
    hide Worth, LiveAdmissions, Admissions, Allowed, EternallyAllowed, Clocked;
  }

  /** The exact admission rule for the key as Redis keeps it. */
  lemma LiveAdmittedExactlyWhen(l: Limit, calls: seq<Call>, k: nat)
    requires l.rate > 0.0 && l.capacity >= 0 && k < |calls| && Clocked(calls, 2500)
    ensures Allowed(l, calls, k) <==>
            forall j :: 0 <= j <= k ==>
              (if j == k then 0 else LiveAdmissions(l, calls, j, k - 1)) as real + 1.0
              <= l.capacity as real + Accrued(l, calls[k].now - calls[j].now)
  {
    ExpiryIsInvisible(l, calls, k);
    AdmittedExactlyWhen(l, calls, k);
    forall j | 0 <= j < k ensures LiveAdmissions(l, calls, j, k - 1) == Spent(l, calls, j, k) {
      ExpiryKeepsAdmissions(l, calls, j, k - 1);
    }
    hide Worth, Accrued, LiveAdmissions, Admissions, Allowed, EternallyAllowed, Clocked;
  }

  /** The margin is exact: with any larger skew there are two calls that the forgotten key both admits,
      while a key that remembers denies the second. */
  lemma LargerSkewIsVisible(skew: int)
    requires skew > 2500
    ensures var l := Limit(1.0, 1);
            var calls := [Call(skew * 1000, 0), Call((6000 - skew) * 1000, 6000)];
            Clocked(calls, skew) && Allowed(l, calls, 1) && !EternallyAllowed(l, calls, 1)
  {
    var l := Limit(1.0, 1);
    var first, second := Call(skew * 1000, 0), Call((6000 - skew) * 1000, 6000);
    var calls := [first, second];
    assert calls[..1] == [first] && [first][..0] == [];
    assert TimeToLive(l) == 6000 by {
      assert l.capacity as real / l.rate * 1000.0 == 1000.0;
    }
    assert Take(l, None, first.now).bucket == Bucket(0.0, first.now);
    assert Eternal(l, [first]) == Some(Bucket(0.0, first.now));
    assert Key(l, [first]) == Some(Entry(Bucket(0.0, first.now), 6000));
    assert Seconds(second.now - first.now) * l.rate < 1.0;
  }

  /** The same two calls break the window bound: with any larger skew the key admits more than capacity and
      refill allow. */
  lemma LargerSkewBreaksTheWindow(skew: int)
    requires skew > 2500
    ensures var l := Limit(1.0, 1);
            var calls := [Call(skew * 1000, 0), Call((6000 - skew) * 1000, 6000)];
            && Clocked(calls, skew) && Allowed(l, calls, 1) && LiveAdmissions(l, calls, 0, 1) == 2
            && LiveAdmissions(l, calls, 0, 1) as real > l.capacity as real + (Worth(l, calls[1].now) - Worth(l, calls[0].now))
  {
    var l := Limit(1.0, 1);
    var calls := [Call(skew * 1000, 0), Call((6000 - skew) * 1000, 6000)];
    LargerSkewIsVisible(skew);
    assert calls[..0] == [];
    assert Allowed(l, calls, 0);
    assert LiveAdmissions(l, calls, 0, 0) == 1;
  }

  /** A caller whose calls are spaced by at least 1/rate seconds is never denied when the burst is at least
      one, whatever the server's clock and the expiry do. */
  lemma {:induction false} SteadyCallerIsNeverDenied(l: Limit, calls: seq<Call>, k: nat)
    requires l.rate > 0.0 && l.capacity >= 1 && k < |calls|
    requires forall i :: 0 < i < |calls| ==> Worth(l, calls[i].now) - Worth(l, calls[i - 1].now) >= 1.0
    ensures Allowed(l, calls, k)
    ensures var b := Key(l, calls[..k + 1]).value.bucket; b.tokens >= 0.0 && b.lastRefill == calls[k].now
  {
    assert calls[..k + 1][..k] == calls[..k];
    if k > 0 {
      SteadyCallerIsNeverDenied(l, calls, k - 1);
      assert calls[..k - 1 + 1] == calls[..k];
      RefilledByWorth(l, Key(l, calls[..k]).value.bucket, calls[k].now);
      hide Worth, Refilled, TimeToLive;
    }
  }
}
