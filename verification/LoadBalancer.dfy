/** Service instances and the health filter that every balancer starts with. */
module LoadBalancer {
  datatype Instance = Instance(id: string, health: string, weight: int)

  datatype SelectError = NoInstances | NoHealthyInstances

  function Healthy(xs: seq<Instance>): (r: seq<Instance>) {
    if xs == [] then []
    else if xs[|xs| - 1].health == "healthy" then Healthy(xs[..|xs| - 1]) + [xs[|xs| - 1]]
    else Healthy(xs[..|xs| - 1])
  }

  lemma {:induction false} HealthyAppend(xs: seq<Instance>, ys: seq<Instance>)
    ensures Healthy(xs + ys) == Healthy(xs) + Healthy(ys)
    decreases |ys|
  {
    if ys == [] {
      assert xs + ys == xs;
    } else {
      var n := |ys| - 1;
      assert (xs + ys)[..|xs| + n] == xs + ys[..n];
      HealthyAppend(xs, ys[..n]);
      assert Healthy(xs) + (Healthy(ys[..n]) + [ys[n]]) == Healthy(xs) + Healthy(ys[..n]) + [ys[n]];
    }
  }

  /** How many of the instances report "healthy", whatever else they say. */
  function HealthyCount(xs: seq<Instance>): nat {
    if xs == [] then 0 else (if xs[0].health == "healthy" then 1 else 0) + HealthyCount(xs[1..])
  }

  lemma {:induction false} HealthyCountAppend(xs: seq<Instance>, x: Instance)
    ensures HealthyCount(xs + [x]) == HealthyCount(xs) + (if x.health == "healthy" then 1 else 0)
  {
    if xs == [] {
      assert xs + [x] == [x];
    } else {
      assert (xs + [x])[1..] == xs[1..] + [x];
      HealthyCountAppend(xs[1..], x);
    }
  }

  /** r has every healthy instance of xs, in its place among the healthy ones, and nothing else. */
  ghost predicate Filters(xs: seq<Instance>, r: seq<Instance>) {
    && |r| == HealthyCount(xs)
    && (forall i :: 0 <= i < |xs| && xs[i].health == "healthy" ==>
          HealthyCount(xs[..i]) < |r| && r[HealthyCount(xs[..i])] == xs[i])
    && (forall x :: multiset(r)[x] == if x.health == "healthy" then multiset(xs)[x] else 0)
  }

  /** The filter by health alone, in order and with repetitions. */
  lemma {:induction false} HealthyMeans(xs: seq<Instance>)
    ensures Filters(xs, Healthy(xs))
  {
    if xs != [] {
      var n := |xs| - 1;
      var front, last := xs[..n], xs[n];
      assert xs == front + [last];
      HealthyMeans(front);
      HealthyCountAppend(front, last);
      forall i | 0 <= i < |xs| && xs[i].health == "healthy"
        ensures HealthyCount(xs[..i]) < |Healthy(xs)| && Healthy(xs)[HealthyCount(xs[..i])] == xs[i]
      {
        if i < n { assert front[..i] == xs[..i] && front[i] == xs[i]; }
      }
      forall x ensures multiset(Healthy(xs))[x] == if x.health == "healthy" then multiset(xs)[x] else 0 {
        assert multiset(xs)[x] == multiset(front)[x] + multiset{last}[x];
      }
    }
  }

  lemma NoneHealthyIff(xs: seq<Instance>)
    ensures Healthy(xs) == [] <==> forall x :: x in xs ==> x.health != "healthy"
  {
    HealthyMeans(xs);
    if Healthy(xs) != [] { assert Healthy(xs)[0] in multiset(Healthy(xs)) && Healthy(xs)[0] in multiset(xs); }
  }

  method FilterHealthy(xs: seq<Instance>) returns (r: seq<Instance>)
    ensures r == Healthy(xs) && Filters(xs, r)
  {
    r := [];
    for i := 0 to |xs|
      invariant r == Healthy(xs[..i])
    {
      assert xs[..i + 1][..i] == xs[..i];
      if xs[i].health == "healthy" {
        r := r + [xs[i]];
      }
    }
    assert xs[..|xs|] == xs;
    HealthyMeans(xs);
  }
}
