/** The token-bucket script of the gateway, as a state machine over calls for one key. */
module TokenBucket {
  import opened Common

  datatype Bucket = Bucket(tokens: int, lastRefill: int)

  /** Capacity, tokens per period, period in whole seconds. */
  datatype Limits = Limits(capacity: int, refillRate: int, period: int)

  ghost predicate ValidLimits(l: Limits) { l.capacity >= 0 && l.refillRate >= 0 && l.period >= 1 }

  function Min(a: int, b: int): int { if a <= b then a else b }

  /** Tokens for the whole periods between two times. */
  function Refill(l: Limits, from: int, to: int): int
    requires l.period >= 1
  {
    (to - from) / l.period * l.refillRate
  }

  /** Tokens available at a call, after the refill. A missing hash reads as a full bucket. */
  function Available(l: Limits, b: Option<Bucket>, now: int): int
    requires l.period >= 1
  {
    var tokens := if b.Some? then b.value.tokens else l.capacity;
    var lastRefill := if b.Some? then b.value.lastRefill else now;
    Min(l.capacity, tokens + Refill(l, lastRefill, now))
  }

  function Allowed(l: Limits, b: Option<Bucket>, now: int): bool
    requires l.period >= 1
  {
    Available(l, b, now) >= 1
  }

  function Next(l: Limits, b: Option<Bucket>, now: int): Bucket
    requires l.period >= 1
  {
    var t := Available(l, b, now);
    Bucket(if t >= 1 then t - 1 else t, now)
  }

  class TokenBucketRateLimiter {
    const limits: Limits
    var buckets: map<string, Bucket>

    constructor (limits: Limits)
      ensures this.limits == limits && buckets == map[]
    {
      this.limits := limits;
      buckets := map[];
    }

    function Stored(key: string): Option<Bucket>
      reads this
    {
      if key in buckets then Some(buckets[key]) else None
    }

    /** The script, which Redis runs atomically. */
    method Allow(key: string, now: int) returns (allowed: bool, remaining: int)
      requires limits.period >= 1
      modifies this
      ensures allowed == Allowed(limits, old(Stored(key)), now)
      ensures buckets == old(buckets)[key := Next(limits, old(Stored(key)), now)]
      ensures remaining == buckets[key].tokens
      ensures var b := if key in old(buckets) then old(buckets)[key] else Bucket(limits.capacity, now);
              var full := b.tokens + (now - b.lastRefill) / limits.period * limits.refillRate;
              var t := if full > limits.capacity then limits.capacity else full;
              && (allowed <==> t >= 1) && remaining == (if t >= 1 then t - 1 else t)
              && buckets == old(buckets)[key := Bucket(remaining, now)]
    {
      var tokens := if key in buckets then buckets[key].tokens else limits.capacity;
      var lastRefill := if key in buckets then buckets[key].lastRefill else now;
      var timePassed := now - lastRefill;
      var tokensToAdd := timePassed / limits.period * limits.refillRate;
      tokens := Min(limits.capacity, tokens + tokensToAdd);
      lastRefill := now;
      if tokens >= 1 {
        tokens := tokens - 1;
        buckets := buckets[key := Bucket(tokens, lastRefill)];
        return true, tokens;
      } else {
        buckets := buckets[key := Bucket(tokens, lastRefill)];
        return false, tokens;
      }
    }
  }

  /** A new key starts with a full bucket: its first call is admitted unless the capacity is zero. */
  lemma NewKeyIsFull(l: Limits, now: int)
    requires ValidLimits(l)
    ensures Allowed(l, None, now) <==> l.capacity >= 1
    ensures Next(l, None, now) == Bucket(if l.capacity >= 1 then l.capacity - 1 else 0, now)
  {
    RefillNonNegative(l, now, now);
  }

  // ---------------------------------------------------------------- runs

  /** Call times in the order Redis runs them. */
  ghost predicate Monotone(times: seq<int>) {
    forall i, j :: 0 <= i < j < |times| ==> times[i] <= times[j]
  }

  function Admitted(l: Limits, b: Option<Bucket>, times: seq<int>): nat
    requires l.period >= 1
    decreases |times|
  {
    if times == [] then 0
    else (if Allowed(l, b, times[0]) then 1 else 0) + Admitted(l, Some(Next(l, b, times[0])), times[1..])
  }

  function After(l: Limits, b: Option<Bucket>, times: seq<int>): Option<Bucket>
    requires l.period >= 1
    decreases |times|
  {
    if times == [] then b else After(l, Some(Next(l, b, times[0])), times[1..])
  }

  ghost predicate Filled(l: Limits, b: Option<Bucket>) { b.Some? ==> 0 <= b.value.tokens <= l.capacity }

  ghost predicate NotAfter(b: Option<Bucket>, now: int) { b.Some? ==> b.value.lastRefill <= now }

  lemma RefillNonNegative(l: Limits, from: int, to: int)
    requires ValidLimits(l) && from <= to
    ensures Refill(l, from, to) >= 0
    ensures to - from < l.period ==> Refill(l, from, to) == 0
  {
    assert (to - from) / l.period >= 0;
    if to - from < l.period { assert (to - from) / l.period == 0; }
  }

  lemma StepFilled(l: Limits, b: Option<Bucket>, now: int)
    requires ValidLimits(l) && Filled(l, b) && NotAfter(b, now)
    ensures Filled(l, Some(Next(l, b, now)))
  {
    RefillNonNegative(l, if b.Some? then b.value.lastRefill else now, now);
  }

  /** The token count never leaves [0, capacity]. */
  lemma {:induction false} TokensStayInRange(l: Limits, b: Option<Bucket>, times: seq<int>)
    requires ValidLimits(l) && Filled(l, b) && Monotone(times)
    requires times != [] ==> NotAfter(b, times[0])
    ensures Filled(l, After(l, b, times))
    decreases |times|
  {
    if times != [] {
      StepFilled(l, b, times[0]);
      TokensStayInRange(l, Some(Next(l, b, times[0])), times[1..]);
    }
  }

  /** Whole periods of two stretches fit into the whole periods of both together. */
  lemma FloorsAdd(a: int, b: int, p: int)
    requires p >= 1
    ensures a / p + b / p <= (a + b) / p
  {
    var q := a / p + b / p;
    assert a == p * (a / p) + a % p && b == p * (b / p) + b % p;
    assert p * q == p * (a / p) + p * (b / p);
    assert a + b >= p * q;
    FloorAtLeast(a + b, p, q);
  }

  lemma FloorAtLeast(a: int, p: int, q: int)
    requires p >= 1 && a >= p * q
    ensures a / p >= q
  {
    if a / p < q { MulGrows(p, a / p + 1, q); }
  }

  lemma MulGrows(p: int, a: int, b: int)
    requires p >= 0 && a <= b
    ensures p * a <= p * b
  {
    assert p * b == p * a + p * (b - a);
  }

  lemma RefillSplits(l: Limits, from: int, mid: int, to: int)
    requires ValidLimits(l)
    ensures Refill(l, from, mid) + Refill(l, mid, to) <= Refill(l, from, to)
  {
    FloorsAdd(mid - from, to - mid, l.period);
    var x, y, z := (mid - from) / l.period, (to - mid) / l.period, (to - from) / l.period;
    assert (mid - from) + (to - mid) == to - from;
    assert x * l.refillRate + y * l.refillRate == (x + y) * l.refillRate;
    MulGrows(l.refillRate, x + y, z);
  }

  function Last(from: int, times: seq<int>): int { if times == [] then from else times[|times| - 1] }

  /** After a call, later calls are paid for by the tokens left and by whole periods. */
  lemma {:induction false} SpendingIsBounded(l: Limits, b: Bucket, times: seq<int>)
    requires ValidLimits(l) && b.tokens >= 0 && Monotone(times)
    requires times != [] ==> b.lastRefill <= times[0]
    ensures Admitted(l, Some(b), times) <= b.tokens + Refill(l, b.lastRefill, Last(b.lastRefill, times))
    decreases |times|
  {
    if times != [] {
      var t := times[0];
      RefillNonNegative(l, b.lastRefill, t);
      SpendingIsBounded(l, Next(l, Some(b), t), times[1..]);
      RefillSplits(l, b.lastRefill, t, Last(t, times[1..]));
    } else {
      RefillNonNegative(l, b.lastRefill, b.lastRefill);
    }
  }

  /**
   Whatever happened before, the calls from time s to time t admit at most the capacity plus
   the refill of the whole periods between s and t.
   */
  lemma AdmissionIsBounded(l: Limits, b: Option<Bucket>, times: seq<int>)
    requires ValidLimits(l) && Filled(l, b) && Monotone(times) && times != [] && NotAfter(b, times[0])
    ensures Admitted(l, b, times) <=
            l.capacity + (times[|times| - 1] - times[0]) / l.period * l.refillRate
  {
    var t := times[0];
    var next := Next(l, b, t);
    StepFilled(l, b, t);
    SpendingIsBounded(l, next, times[1..]);
    assert Last(t, times[1..]) == times[|times| - 1];
  }

  // ---------------------------------------------------------------- what is refilled, exactly

  /** A call that tops the bucket up: a whole period has passed, there is a rate, and there is room. */
  ghost predicate Refills(l: Limits, b: Bucket, now: int) {
    now - b.lastRefill >= l.period && l.refillRate > 0 && b.tokens < l.capacity
  }

  lemma RefillPositive(l: Limits, from: int, to: int)
    requires ValidLimits(l) && to - from >= l.period && l.refillRate > 0
    ensures Refill(l, from, to) > 0
  {
    FloorAtLeast(to - from, l.period, 1);
    MulGrows(l.refillRate, 1, (to - from) / l.period);
  }

  /** A call adds tokens exactly when it tops the bucket up. */
  lemma CreditIff(l: Limits, b: Bucket, now: int)
    requires ValidLimits(l) && 0 <= b.tokens <= l.capacity && b.lastRefill <= now
    ensures Available(l, Some(b), now) >= b.tokens
    ensures Available(l, Some(b), now) > b.tokens <==> Refills(l, b, now)
  {
    RefillNonNegative(l, b.lastRefill, now);
    if now - b.lastRefill >= l.period && l.refillRate > 0 { RefillPositive(l, b.lastRefill, now); }
  }

  /** A call is refused exactly when there is nothing stored and nothing to refill. */
  lemma RefusedIff(l: Limits, b: Bucket, now: int)
    requires ValidLimits(l) && 0 <= b.tokens <= l.capacity && b.lastRefill <= now
    ensures !Allowed(l, Some(b), now) <==>
              l.capacity == 0 || (b.tokens == 0 && (l.refillRate == 0 || now - b.lastRefill < l.period))
  {
    CreditIff(l, b, now);
  }

  /** All tokens that a run's calls add, as far as there is room. */
  function Credited(l: Limits, b: Bucket, times: seq<int>): int
    requires l.period >= 1
    decreases |times|
  {
    if times == [] then 0
    else Available(l, Some(b), times[0]) - b.tokens + Credited(l, Next(l, Some(b), times[0]), times[1..])
  }

  /** Tokens are conserved: what was stored and what was added is admitted or still there. */
  lemma {:induction false} TokensAreConserved(l: Limits, b: Bucket, times: seq<int>)
    requires l.period >= 1
    ensures After(l, Some(b), times).Some?
    ensures b.tokens + Credited(l, b, times) == Admitted(l, Some(b), times) + After(l, Some(b), times).value.tokens
    decreases |times|
  {
    if times != [] { TokensAreConserved(l, Next(l, Some(b), times[0]), times[1..]); }
  }

  /** Some call of the run tops the bucket up. */
  ghost predicate SomeRefill(l: Limits, b: Bucket, times: seq<int>)
    requires l.period >= 1
    decreases |times|
  {
    times != [] && (Refills(l, b, times[0]) || SomeRefill(l, Next(l, Some(b), times[0]), times[1..]))
  }

  lemma {:induction false} CreditedIff(l: Limits, b: Bucket, times: seq<int>)
    requires ValidLimits(l) && 0 <= b.tokens <= l.capacity && Monotone(times)
    requires times != [] ==> b.lastRefill <= times[0]
    ensures Credited(l, b, times) >= 0
    ensures Credited(l, b, times) > 0 <==> SomeRefill(l, b, times)
    decreases |times|
  {
    if times != [] {
      CreditIff(l, b, times[0]);
      StepFilled(l, Some(b), times[0]);
      CreditedIff(l, Next(l, Some(b), times[0]), times[1..]);
    }
  }

  ghost predicate GapBefore(l: Limits, times: seq<int>, i: int) {
    0 < i < |times| && times[i] - times[i - 1] >= l.period
  }

  /** The call times show it: a whole period before some call, for the first one only if there is room. */
  ghost predicate LongGap(l: Limits, b: Bucket, times: seq<int>) {
    && l.refillRate > 0 && l.capacity > 0 && times != []
    && ((b.tokens < l.capacity && times[0] - b.lastRefill >= l.period) || exists i :: GapBefore(l, times, i))
  }

  /** Every call leaves room, so later on only the gaps matter. */
  lemma {:induction false} SomeRefillIffLongGap(l: Limits, b: Bucket, times: seq<int>)
    requires ValidLimits(l) && 0 <= b.tokens <= l.capacity && Monotone(times)
    requires times != [] ==> b.lastRefill <= times[0]
    ensures SomeRefill(l, b, times) <==> LongGap(l, b, times)
    decreases |times|
  {
    if times != [] {
      var next, rest := Next(l, Some(b), times[0]), times[1..];
      StepFilled(l, Some(b), times[0]);
      SomeRefillIffLongGap(l, next, rest);
      assert l.capacity > 0 ==> next.tokens < l.capacity && next.lastRefill == times[0];
      GapsShift(l, times);
    }
  }

  lemma GapsShift(l: Limits, times: seq<int>)
    requires times != []
    ensures (exists i :: GapBefore(l, times, i)) <==>
              (|times| > 1 && times[1] - times[0] >= l.period) || exists i :: GapBefore(l, times[1..], i)
  {
    forall i | GapBefore(l, times, i) && i > 1 ensures GapBefore(l, times[1..], i - 1) {}
    forall i | GapBefore(l, times[1..], i) ensures GapBefore(l, times, i + 1) {}
    if |times| > 1 && times[1] - times[0] >= l.period { assert GapBefore(l, times, 1); }
  }

  /** What is stored can be spent, and one refill anywhere in the run is good for one call more. */
  lemma {:induction false} StoredIsAdmitted(l: Limits, b: Bucket, times: seq<int>)
    requires ValidLimits(l) && 0 <= b.tokens <= l.capacity && Monotone(times)
    requires times != [] ==> b.lastRefill <= times[0]
    ensures Min(b.tokens, |times|) <= Admitted(l, Some(b), times) <= |times|
    ensures SomeRefill(l, b, times) ==> Admitted(l, Some(b), times) >= Min(b.tokens + 1, |times|)
    decreases |times|
  {
    if times != [] {
      var next := Next(l, Some(b), times[0]);
      CreditIff(l, b, times[0]);
      StepFilled(l, Some(b), times[0]);
      StoredIsAdmitted(l, next, times[1..]);
      assert Admitted(l, Some(b), times) ==
             (if Allowed(l, Some(b), times[0]) then 1 else 0) + Admitted(l, Some(next), times[1..]);
      if SomeRefill(l, b, times) && !Refills(l, b, times[0]) { assert SomeRefill(l, next, times[1..]); }
    }
  }

  /**
   A run gets more than the tokens stored at its start exactly when it makes more calls than that and
   one of its gaps reaches a period.
   */
  lemma MoreThanStoredIff(l: Limits, b: Bucket, times: seq<int>)
    requires ValidLimits(l) && 0 <= b.tokens <= l.capacity && Monotone(times)
    requires times != [] ==> b.lastRefill <= times[0]
    ensures Admitted(l, Some(b), times) > b.tokens <==> |times| > b.tokens && LongGap(l, b, times)
  {
    SomeRefillIffLongGap(l, b, times);
    StoredIsAdmitted(l, b, times);
    TokensStayInRange(l, Some(b), times);
    TokensAreConserved(l, b, times);
    CreditedIff(l, b, times);
  }

  // ---------------------------------------------------------------- the refill that never comes

  /** Every call comes less than a period after the one before. */
  ghost predicate Frequent(l: Limits, last: int, times: seq<int>)
    decreases |times|
  {
    times == [] || (0 <= times[0] - last < l.period && Frequent(l, times[0], times[1..]))
  }

  /**
   Each call moves lastRefill to now and drops the started period, so a client that calls more
   often than once per period gets its current tokens and then nothing, however long it goes on.
   */
  lemma {:induction false} FrequentCallsNeverRefill(l: Limits, b: Bucket, times: seq<int>)
    requires ValidLimits(l) && 0 <= b.tokens <= l.capacity && Frequent(l, b.lastRefill, times)
    ensures Admitted(l, Some(b), times) == Min(b.tokens, |times|)
    decreases |times|
  {
    if times != [] {
      RefillNonNegative(l, b.lastRefill, times[0]);
      FrequentCallsNeverRefill(l, Next(l, Some(b), times[0]), times[1..]);
    }
  }
}
