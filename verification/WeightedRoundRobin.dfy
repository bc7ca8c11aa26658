/** The weighted round-robin balancer is exact over every full turn of its cursor. */
module WeightedRoundRobin {
  import opened Common
  import opened LoadBalancer

  /** The weights of the first k instances together. */
  function Prefix(xs: seq<Instance>, k: nat): int
    requires k <= |xs|
  {
    if k == 0 then 0 else Prefix(xs, k - 1) + xs[k - 1].weight
  }

  function Total(xs: seq<Instance>): int { Prefix(xs, |xs|) }

  /** The first index from k on whose prefix sum exceeds t, or |xs|. */
  function Scan(xs: seq<Instance>, t: int, k: nat): (i: nat)
    requires k <= |xs|
    ensures k <= i <= |xs|
    decreases |xs| - k
  {
    if k == |xs| || t < Prefix(xs, k + 1) then k else Scan(xs, t, k + 1)
  }

  /** The index selected at a cursor, and the next cursor. The fallback does not advance it. */
  function Turn(xs: seq<Instance>, cursor: nat): (nat, nat)
    requires xs != []
  {
    var w := Total(xs);
    if w == 0 then (cursor % |xs|, cursor + 1)
    else
      var i := Scan(xs, cursor % w, 0);
      if i < |xs| then (i, cursor + 1) else (0, cursor)
  }

  class WeightedRoundRobinLoadBalancer {
    var current: nat

    constructor ()
      ensures current == 0
    {
      current := 0;
    }

    method Select(instances: seq<Instance>) returns (r: Result<Instance, SelectError>)
      modifies this
      ensures r == Fail(NoInstances) <==> instances == []
      ensures r == Fail(NoHealthyInstances) <==>
                instances != [] && forall x :: x in instances ==> x.health != "healthy"
      ensures r.Fail? ==> current == old(current)
      ensures r.Success? ==> Picked(Healthy(instances), old(current), r.value, current)
    {
      if instances == [] { return Fail(NoInstances); }
      var healthy := FilterHealthy(instances);
      NoneHealthyIff(instances);
      if healthy == [] { return Fail(NoHealthyInstances); }
      var x := Pick(healthy);
      return Success(x);
    }

    /** The choice among the healthy instances. */
    method Pick(healthy: seq<Instance>) returns (x: Instance)
      requires healthy != []
      modifies this
      ensures Picked(healthy, old(current), x, current)
    {
      var totalWeight := 0;
      for i := 0 to |healthy|
        invariant totalWeight == Prefix(healthy, i)
      {
        totalWeight := totalWeight + healthy[i].weight;
      }
      if totalWeight == 0 {
        x := healthy[current % |healthy|];
        current := current + 1;
        return;
      }
      var currentWeight := current % totalWeight;
      var weightSum := 0;
      for i := 0 to |healthy|
        invariant weightSum == Prefix(healthy, i) && current == old(current)
        invariant Scan(healthy, currentWeight, 0) == Scan(healthy, currentWeight, i)
      {
        weightSum := weightSum + healthy[i].weight;
        if currentWeight < weightSum {
          current := current + 1;
          return healthy[i];
        }
      }
      return healthy[0];
    }
  }

  ghost predicate Picked(xs: seq<Instance>, cursor: nat, x: Instance, next: nat) {
    xs != [] && Turn(xs, cursor).0 < |xs| && x == xs[Turn(xs, cursor).0] && next == Turn(xs, cursor).1
  }

  // ---------------------------------------------------------------- exactness

  ghost predicate NonNegative(xs: seq<Instance>) {
    forall i :: 0 <= i < |xs| ==> xs[i].weight >= 0
  }

  /** When all weights are zero every instance has one turn. */
  function Share(xs: seq<Instance>, i: nat): int
    requires i < |xs|
  {
    if Total(xs) == 0 then 1 else xs[i].weight
  }

  function Turns(xs: seq<Instance>): int { if Total(xs) == 0 then |xs| else Total(xs) }

  /** Where the turns of instance i begin within a full round. */
  function Begin(xs: seq<Instance>, i: nat): int
    requires i <= |xs|
  {
    if Total(xs) == 0 then i else Prefix(xs, i)
  }

  /** The indices of n selections in a row. */
  function Selections(xs: seq<Instance>, cursor: nat, n: nat): seq<nat>
    requires xs != []
    decreases n
  {
    if n == 0 then []
    else
      var (i, next) := Turn(xs, cursor);
      [i] + Selections(xs, next, n - 1)
  }

  lemma {:induction false} PrefixGrows(xs: seq<Instance>, i: nat, j: nat)
    requires NonNegative(xs) && i <= j <= |xs|
    ensures Prefix(xs, i) <= Prefix(xs, j)
  {
    if i < j { PrefixGrows(xs, i, j - 1); }
  }

  lemma {:induction false} ScanStops(xs: seq<Instance>, t: int, k: nat)
    requires k <= |xs|
    ensures forall j :: k < j <= Scan(xs, t, k) ==> Prefix(xs, j) <= t
    ensures Scan(xs, t, k) < |xs| ==> t < Prefix(xs, Scan(xs, t, k) + 1)
    decreases |xs| - k
  {
    if k < |xs| && t >= Prefix(xs, k + 1) { ScanStops(xs, t, k + 1); }
  }

  /** Index i is the first whose running sum of weights exceeds t. */
  ghost predicate FirstAbove(xs: seq<Instance>, t: int, i: int) {
    0 <= i < |xs| && t < Prefix(xs, i + 1) && forall j :: 0 < j <= i ==> Prefix(xs, j) <= t
  }

  /**
   Whatever the weights: with a total of zero plain round robin; else the first instance whose running sum
   exceeds the cursor's remainder, and the cursor moves on; and if there is none the first instance of
   all, and the cursor stays.
   */
  lemma TurnMeans(xs: seq<Instance>, cursor: nat)
    requires xs != []
    ensures Total(xs) == 0 ==> Turn(xs, cursor) == (cursor % |xs|, cursor + 1)
    ensures Total(xs) != 0 ==>
              && (forall i: nat :: FirstAbove(xs, cursor % Total(xs), i) ==> Turn(xs, cursor) == (i, cursor + 1))
              && ((forall i: nat :: !FirstAbove(xs, cursor % Total(xs), i)) ==> Turn(xs, cursor) == (0, cursor))
  {
    if Total(xs) != 0 {
      var t := cursor % Total(xs);
      ScanStops(xs, t, 0);
      if Scan(xs, t, 0) < |xs| { assert FirstAbove(xs, t, Scan(xs, t, 0)); }
      forall i: nat | FirstAbove(xs, t, i) ensures i == Scan(xs, t, 0) {}
    }
  }

  /** The fallback return is reached only when the weights sum to a negative number. */
  lemma FallbackNeedsNegativeTotal(xs: seq<Instance>, cursor: nat)
    requires xs != [] && Total(xs) >= 0
    ensures Turn(xs, cursor).1 == cursor + 1 && Turn(xs, cursor).0 < |xs|
  {
    if Total(xs) > 0 {
      ScanStops(xs, cursor % Total(xs), 0);
    }
  }

  /** The fallback is reached exactly when no prefix of a negative total exceeds the remainder. */
  lemma FallbackIff(xs: seq<Instance>, cursor: nat)
    requires xs != []
    ensures Turn(xs, cursor).1 == cursor <==>
              Total(xs) < 0 && forall k :: 0 < k <= |xs| ==> Prefix(xs, k) <= cursor % Total(xs)
    ensures Turn(xs, cursor).1 == cursor ==> Turn(xs, cursor).0 == 0
  {
    if Total(xs) != 0 { ScanStops(xs, cursor % Total(xs), 0); }
  }

  /** Once there it stays there: the first instance gets every selection from then on. */
  lemma {:induction false} FallbackSticks(xs: seq<Instance>, cursor: nat, n: nat)
    requires xs != [] && Turn(xs, cursor).1 == cursor
    ensures Selections(xs, cursor, n) == seq(n, i => 0)
    decreases n
  {
    FallbackIff(xs, cursor);
    if n > 0 { FallbackSticks(xs, cursor, n - 1); }
  }

  /** The cursor after n selections from the same list, by a new balancer. */
  function CursorAfter(xs: seq<Instance>, n: nat): nat
    requires xs != []
  {
    if n == 0 then 0 else Turn(xs, CursorAfter(xs, n - 1)).1
  }

  ghost predicate StuckAt(xs: seq<Instance>, n: nat)
    requires xs != []
  {
    Turn(xs, CursorAfter(xs, n)).1 == CursorAfter(xs, n)
  }

  lemma {:induction false} CursorCounts(xs: seq<Instance>, n: nat)
    requires xs != [] && forall i :: 0 <= i < n ==> !StuckAt(xs, i)
    ensures CursorAfter(xs, n) == n
  {
    if n > 0 {
      CursorCounts(xs, n - 1);
      assert !StuckAt(xs, n - 1);
    }
  }

  /** Every prefix sum is below the size of the negative total. */
  ghost predicate Sunk(xs: seq<Instance>) {
    Total(xs) < 0 && forall k :: 0 < k <= |xs| ==> Prefix(xs, k) < -Total(xs)
  }

  lemma SunkGetsStuck(xs: seq<Instance>) returns (n: nat)
    requires xs != [] && Sunk(xs)
    ensures StuckAt(xs, n)
  {
    n := -Total(xs) - 1;
    if i: nat :| i < n && StuckAt(xs, i) {
      n := i;
    } else {
      CursorCounts(xs, n);
      SunkAtLast(xs, n);
    }
  }

  lemma SunkAtLast(xs: seq<Instance>, cursor: nat)
    requires xs != [] && Sunk(xs) && cursor == -Total(xs) - 1
    ensures Turn(xs, cursor).1 == cursor
  {
    ModOfNegative(cursor, Total(xs));
    FallbackIff(xs, cursor);
  }

  lemma ModOfNegative(c: nat, t: int)
    requires t < 0 && c < -t
    ensures c % t == c
  {}

  /** A new balancer ever gets stuck exactly when the weights are sunk. */
  lemma EverStuckIff(xs: seq<Instance>)
    requires xs != []
    ensures (exists n :: StuckAt(xs, n)) <==> Sunk(xs)
  {
    forall n | StuckAt(xs, n) ensures Sunk(xs) { FallbackIff(xs, CursorAfter(xs, n)); }
    if Sunk(xs) { var n := SunkGetsStuck(xs); }
  }

  lemma ModBelow(t: nat, m: nat)
    requires t < m
    ensures t % m == t
  {}

  /** Within the first round, instance i is selected exactly during its own stretch. */
  lemma TurnInStretch(xs: seq<Instance>, t: nat, i: nat)
    requires xs != [] && NonNegative(xs) && t < Turns(xs) && i < |xs|
    ensures Turn(xs, t).0 == i <==> Begin(xs, i) <= t < Begin(xs, i + 1)
  {
    PrefixGrows(xs, 0, |xs|);
    ModBelow(t, Turns(xs));
    if Total(xs) > 0 {
      FallbackNeedsNegativeTotal(xs, t);
      var s := Scan(xs, t, 0);
      ScanStops(xs, t, 0);
      if s < i { PrefixGrows(xs, s + 1, i); }
    }
  }

  /** At any cursor: instance i has the turns of its own stretch of the round. */
  lemma StretchAnywhere(xs: seq<Instance>, cursor: nat, i: nat)
    requires xs != [] && NonNegative(xs) && i < |xs|
    ensures Turns(xs) > 0
    ensures Turn(xs, cursor).0 == i <==> Begin(xs, i) <= cursor % Turns(xs) < Begin(xs, i + 1)
  {
    Periodic(xs, 0);
    SameTurn(xs, cursor);
    TurnInStretch(xs, cursor % Turns(xs), i);
  }

  lemma SameTurn(xs: seq<Instance>, cursor: nat)
    requires xs != [] && NonNegative(xs) && Turns(xs) > 0
    ensures Turn(xs, cursor % Turns(xs)).0 == Turn(xs, cursor).0
  {
    ModBelow(cursor % Turns(xs), Turns(xs));
  }

  lemma Periodic(xs: seq<Instance>, t: nat)
    requires xs != [] && NonNegative(xs)
    ensures Turns(xs) > 0 && Turn(xs, t + Turns(xs)).0 == Turn(xs, t).0
  {
    PrefixGrows(xs, 0, |xs|);
    ModShift(t, Turns(xs));
  }

  lemma ModShift(t: nat, m: nat)
    requires m > 0
    ensures (t + m) % m == t % m
  {
    var q := t / m;
    MulNext(m, q);
    DivAtLeast(t + m, m, q + 1);
    DivAtMost(t + m, m, q + 1);
    DivMod(t, m, q);
    DivMod(t + m, m, q + 1);
  }

  lemma MulNext(m: nat, q: nat)
    ensures m * (q + 1) == m * q + m
  {}

  lemma DivMod(a: nat, m: nat, q: nat)
    requires m > 0 && a / m == q
    ensures a % m == a - m * q
  {}

  lemma DivAtLeast(a: nat, m: nat, q: nat)
    requires m > 0 && a - m * q >= 0
    ensures a / m >= q
  {
    if a / m < q { MulGrows(m, a / m + 1, q); }
  }

  lemma DivAtMost(a: nat, m: nat, q: nat)
    requires m > 0 && a - m * q < m
    ensures a / m <= q
  {
    if a / m > q { MulGrows(m, q + 1, a / m); }
  }

  lemma MulGrows(m: nat, p: nat, q: nat)
    requires p <= q
    ensures m * p <= m * q
  {
    assert m * q == m * p + m * (q - p);
  }

  /** How often i comes up at the cursors from c to c + n. */
  function Hits(xs: seq<Instance>, i: nat, c: nat, n: nat): nat
    requires xs != []
  {
    if n == 0 then 0 else Hits(xs, i, c, n - 1) + (if Turn(xs, c + n - 1).0 == i then 1 else 0)
  }

  lemma {:induction false} HitsFromFront(xs: seq<Instance>, i: nat, c: nat, n: nat)
    requires xs != [] && n > 0
    ensures Hits(xs, i, c, n) == (if Turn(xs, c).0 == i then 1 else 0) + Hits(xs, i, c + 1, n - 1)
  {
    if n > 1 { HitsFromFront(xs, i, c, n - 1); }
  }

  lemma {:induction false} HitsAnywhere(xs: seq<Instance>, i: nat, c: nat)
    requires xs != [] && NonNegative(xs) && Turns(xs) > 0
    ensures Hits(xs, i, c, Turns(xs)) == Hits(xs, i, 0, Turns(xs))
    decreases c
  {
    if c > 0 {
      HitsAnywhere(xs, i, c - 1);
      HitsFromFront(xs, i, c - 1, Turns(xs));
      Periodic(xs, c - 1);
    }
  }

  function Clamp(x: int, hi: int): int { if x < 0 then 0 else if x > hi then hi else x }

  lemma {:induction false} HitsInFirstRound(xs: seq<Instance>, i: nat, n: nat)
    requires xs != [] && NonNegative(xs) && i < |xs| && n <= Turns(xs)
    ensures Hits(xs, i, 0, n) == Clamp(n - Begin(xs, i), Share(xs, i))
  {
    PrefixGrows(xs, 0, i);
    if n > 0 {
      HitsInFirstRound(xs, i, n - 1);
      TurnInStretch(xs, n - 1, i);
    }
  }

  lemma {:induction false} SelectionsCount(xs: seq<Instance>, i: nat, c: nat, n: nat)
    requires xs != [] && NonNegative(xs)
    ensures multiset(Selections(xs, c, n))[i] == Hits(xs, i, c, n)
    decreases n
  {
    if n > 0 {
      PrefixGrows(xs, 0, |xs|);
      FallbackNeedsNegativeTotal(xs, c);
      SelectionsCount(xs, i, c + 1, n - 1);
      HitsFromFront(xs, i, c, n);
    }
  }

  /** Over any full round, from any cursor, every instance is selected exactly its share of times. */
  lemma RoundIsExact(xs: seq<Instance>, c: nat, i: nat)
    requires xs != [] && NonNegative(xs) && i < |xs|
    ensures Turns(xs) > 0
    ensures multiset(Selections(xs, c, Turns(xs)))[i] == Share(xs, i)
  {
    Periodic(xs, 0);
    SelectionsCount(xs, i, c, Turns(xs));
    HitsAnywhere(xs, i, c);
    HitsInFirstRound(xs, i, Turns(xs));
    PrefixGrows(xs, i + 1, |xs|);
  }
}
