/**
 The consistent-hash balancer: ring construction with colliding virtual nodes, the exchange
 sort of the ring keys, the lookup, and the promise that makes consistent hashing worth its
 name: a new instance takes keys over only for itself.
 */
module ConsistentHash {
  import opened Common
  import opened LoadBalancer

  const WORD := 0x1_0000_0000
  const VIRTUAL_NODES := 150

  /** The 32-bit polynomial hash. */
  function Hash(key: string): (h: nat)
    ensures h < WORD
  {
    if key == "" then 0 else (Hash(key[..|key| - 1]) * 31 + key[|key| - 1] as int) % WORD
  }

  function Power31(n: nat): nat { if n == 0 then 1 else 31 * Power31(n - 1) }

  /** The characters times descending powers of 31. */
  function Polynomial(key: string): nat {
    if key == "" then 0 else key[0] as int * Power31(|key| - 1) + Polynomial(key[1..])
  }

  lemma {:induction false} PolynomialSnoc(key: string, c: char)
    ensures Polynomial(key + [c]) == Polynomial(key) * 31 + c as int
  {
    if key == "" {
      assert key + [c] == [c] && [c][1..] == "";
    } else {
      assert (key + [c])[1..] == key[1..] + [c];
      PolynomialSnoc(key[1..], c);
      var x, p := key[0] as int, Power31(|key| - 1);
      assert Power31(|key|) == 31 * p;
      assert x * (31 * p) == (x * p) * 31;
    }
  }

  /** The hash is that polynomial in 32 bits. */
  lemma {:induction false} HashIsPolynomial(key: string)
    ensures Hash(key) == Polynomial(key) % 0x1_0000_0000
  {
    if key != "" {
      var n := |key| - 1;
      assert key == key[..n] + [key[n]];
      HashIsPolynomial(key[..n]);
      PolynomialSnoc(key[..n], key[n]);
      Reduced(Polynomial(key[..n]), key[n] as int);
    }
  }

  lemma Reduced(a: nat, c: nat)
    ensures (a % 0x1_0000_0000 * 31 + c) % 0x1_0000_0000 == (a * 31 + c) % 0x1_0000_0000
  {}

  method ComputeHash(key: string) returns (h: nat)
    ensures h == Hash(key) == Polynomial(key) % 0x1_0000_0000
  {
    h := 0;
    for i := 0 to |key|
      invariant h == Hash(key[..i])
    {
      assert key[..i + 1][..i] == key[..i];
      h := (h * 31 + key[i] as int) % WORD;
    }
    assert key[..|key|] == key;
    HashIsPolynomial(key);
  }

  function VirtualKey(x: Instance, i: nat): string
    requires i < VIRTUAL_NODES
  {
    x.id + ":" + [i as char]
  }

  /** The ring positions of one instance, in the order they are added. */
  function Points(x: Instance): (ps: seq<nat>) {
    seq(VIRTUAL_NODES, i requires 0 <= i < VIRTUAL_NODES => Hash(VirtualKey(x, i)))
  }

  /** 150 positions per instance, those of its id with a colon and the character numbered 0 to 149. */
  lemma PointsMeans(x: Instance)
    ensures |Points(x)| == 150
    ensures forall i :: 0 <= i < 150 ==> Points(x)[i] == Polynomial(x.id + ":" + [i as char]) % 0x1_0000_0000
  {
    forall i | 0 <= i < 150 ensures Points(x)[i] == Polynomial(x.id + ":" + [i as char]) % 0x1_0000_0000 {
      HashIsPolynomial(x.id + ":" + [i as char]);
    }
  }

  lemma {:induction false} AllPointsLength(xs: seq<Instance>)
    ensures |AllPoints(xs)| == 150 * |xs|
  {
    if xs != [] { AllPointsLength(xs[..|xs| - 1]); }
  }

  ghost predicate Claims(xs: seq<Instance>, k: int, p: nat) { 0 <= k < |xs| && p in Points(xs[k]) }

  /** The ring positions of a list are those of its instances, and the last to claim one owns it. */
  lemma {:induction false} AllPointsMeans(xs: seq<Instance>, p: nat)
    ensures p in AllPoints(xs) <==> exists k :: Claims(xs, k, p)
    ensures forall k :: Claims(xs, k, p) && (forall j :: k < j < |xs| ==> !Claims(xs, j, p)) ==>
              OwnerOf(xs, p) == Some(xs[k])
  {
    if xs != [] {
      var n := |xs| - 1;
      var front := xs[..n];
      AllPointsMeans(front, p);
      assert forall k :: k != n ==> Claims(xs, k, p) == Claims(front, k, p);
      assert p in AllPoints(xs) <==> p in AllPoints(front) || Claims(xs, n, p);
    }
  }

  function AllPoints(xs: seq<Instance>): seq<nat> {
    if xs == [] then [] else AllPoints(xs[..|xs| - 1]) + Points(xs[|xs| - 1])
  }

  /** The last instance that was given this position; it overwrote the others. */
  function OwnerOf(xs: seq<Instance>, p: nat): Option<Instance> {
    if xs == [] then None
    else if p in Points(xs[|xs| - 1]) then Some(xs[|xs| - 1])
    else OwnerOf(xs[..|xs| - 1], p)
  }

  /** The first position at or after h, or the smallest one when there is none. */
  ghost predicate IsSuccessor(ps: seq<nat>, h: nat, p: nat) {
    && p in ps
    && (p >= h ==> forall q :: q in ps && q >= h ==> p <= q)
    && (p < h ==> forall q :: q in ps ==> p <= q && q < h)
  }

  /** The specification of Select: the owner of the successor of the key's hash. */
  ghost predicate Chosen(xs: seq<Instance>, key: string, x: Instance) {
    exists p :: IsSuccessor(AllPoints(xs), Hash(key), p) && OwnerOf(xs, p) == Some(x)
  }

  // ---------------------------------------------------------------- rings of concatenated lists

  lemma {:induction false} PointsAppend(xs: seq<Instance>, ys: seq<Instance>, p: nat)
    ensures p in AllPoints(xs + ys) <==> p in AllPoints(xs) || p in AllPoints(ys)
    decreases |ys|
  {
    if ys == [] {
      assert xs + ys == xs;
    } else {
      var n := |ys| - 1;
      assert (xs + ys)[..|xs| + n] == xs + ys[..n];
      PointsAppend(xs, ys[..n], p);
    }
  }

  lemma {:induction false} OwnerAppend(xs: seq<Instance>, ys: seq<Instance>, p: nat)
    ensures OwnerOf(xs + ys, p) == if OwnerOf(ys, p).Some? then OwnerOf(ys, p) else OwnerOf(xs, p)
    decreases |ys|
  {
    if ys == [] {
      assert xs + ys == xs;
    } else {
      var n := |ys| - 1;
      assert (xs + ys)[..|xs| + n] == xs + ys[..n];
      OwnerAppend(xs, ys[..n], p);
    }
  }

  lemma SingletonRing(x: Instance, p: nat)
    ensures p in AllPoints([x]) <==> p in Points(x)
    ensures OwnerOf([x], p) == if p in Points(x) then Some(x) else None
  {
    assert [x][..0] == [];
  }

  lemma {:induction false} OwnedIffPoint(xs: seq<Instance>, p: nat)
    ensures OwnerOf(xs, p).Some? <==> p in AllPoints(xs)
    ensures OwnerOf(xs, p).Some? ==> OwnerOf(xs, p).value in xs && p in Points(OwnerOf(xs, p).value)
    decreases |xs|
  {
    if xs != [] { OwnedIffPoint(xs[..|xs| - 1], p); }
  }

  // ---------------------------------------------------------------- the theorem

  lemma SuccessorIsUnique(ps: seq<nat>, h: nat, p: nat, q: nat)
    requires IsSuccessor(ps, h, p) && IsSuccessor(ps, h, q)
    ensures p == q
  {}

  /** Select is a function of the list and the key. */
  lemma ChoiceIsUnique(xs: seq<Instance>, key: string, x: Instance, y: Instance)
    requires Chosen(xs, key, x) && Chosen(xs, key, y)
    ensures x == y
  {
    var p :| IsSuccessor(AllPoints(xs), Hash(key), p) && OwnerOf(xs, p) == Some(x);
    var q :| IsSuccessor(AllPoints(xs), Hash(key), q) && OwnerOf(xs, q) == Some(y);
    SuccessorIsUnique(AllPoints(xs), Hash(key), p, q);
  }

  /** What inserting x between as and bs does to one position. */
  lemma InsertedPoint(front: seq<Instance>, x: Instance, back: seq<Instance>, p: nat)
    ensures p in AllPoints(front + [x] + back) <==> p in AllPoints(front + back) || p in Points(x)
    ensures OwnerOf(front + [x] + back, p) == OwnerOf(front + back, p)
            || (p in Points(x) && OwnerOf(front + [x] + back, p) == Some(x))
  {
    PointsAppend(front + [x], back, p);
    PointsAppend(front, [x], p);
    PointsAppend(front, back, p);
    OwnerAppend(front + [x], back, p);
    OwnerAppend(front, [x], p);
    OwnerAppend(front, back, p);
    SingletonRing(x, p);
  }

  /** The key's successor is a position of x. */
  ghost predicate Lands(xs: seq<Instance>, x: Instance, key: string, p: nat) {
    p in Points(x) && IsSuccessor(AllPoints(xs), Hash(key), p)
  }

  lemma ClaimedByNew(front: seq<Instance>, x: Instance, back: seq<Instance>, p: nat)
    requires p in Points(x) && p !in AllPoints(back)
    ensures OwnerOf(front + [x] + back, p) == Some(x)
  {
    OwnerAppend(front + [x], back, p);
    OwnedIffPoint(back, p);
    OwnerAppend(front, [x], p);
    SingletonRing(x, p);
  }

  /**
   Adding one instance anywhere in the list moves a key only to that instance, and only when one of its
   own positions became the key's successor; and it gets the key whenever one did that no instance
   behind it in the list has too. Collisions included.
   */
  lemma InsertionMovesOnlyToNew(front: seq<Instance>, x: Instance, back: seq<Instance>, key: string,
                                before: Instance, after: Instance)
    requires Chosen(front + back, key, before) && Chosen(front + [x] + back, key, after)
    ensures after == before || after == x
    ensures after != before ==> exists p :: Lands(front + [x] + back, x, key, p)
    ensures forall p :: Lands(front + [x] + back, x, key, p) && p !in AllPoints(back) ==> after == x
  {
    forall p | Lands(front + [x] + back, x, key, p) && p !in AllPoints(back) ensures after == x {
      ClaimedByNew(front, x, back, p);
      ChoiceIsUnique(front + [x] + back, key, x, after);
    }
    var small, large := AllPoints(front + back), AllPoints(front + [x] + back);
    var p :| IsSuccessor(small, Hash(key), p) && OwnerOf(front + back, p) == Some(before);
    var q :| IsSuccessor(large, Hash(key), q) && OwnerOf(front + [x] + back, q) == Some(after);
    forall r ensures r in small ==> r in large { InsertedPoint(front, x, back, r); }
    InsertedPoint(front, x, back, q);
    if OwnerOf(front + [x] + back, q) == OwnerOf(front + back, q) {
      OwnedIffPoint(front + back, q);
      assert IsSuccessor(small, Hash(key), q);
      SuccessorIsUnique(small, Hash(key), p, q);
    } else {
      assert Lands(front + [x] + back, x, key, q);
    }
  }

  /** The same for the lists callers pass, where unhealthy instances are skipped. */
  lemma JoinMovesOnlyToNew(front: seq<Instance>, x: Instance, back: seq<Instance>, key: string,
                           before: Instance, after: Instance)
    requires Chosen(Healthy(front + back), key, before) && Chosen(Healthy(front + [x] + back), key, after)
    ensures after == before || (after == x && x.health == "healthy")
  {
    HealthyAppend(front, back);
    HealthyAppend(front + [x], back);
    HealthyAppend(front, [x]);
    assert [x][..0] == [];
    if x.health == "healthy" {
      InsertionMovesOnlyToNew(Healthy(front), x, Healthy(back), key, before, after);
    } else {
      assert Healthy(front + [x] + back) == Healthy(front + back);
      ChoiceIsUnique(Healthy(front + back), key, before, after);
    }
  }

  /** Read backwards: when an instance leaves, only the keys it held are moved. */
  lemma LeaveMovesOnlyOwnKeys(front: seq<Instance>, x: Instance, back: seq<Instance>, key: string,
                              before: Instance, after: Instance)
    requires Chosen(Healthy(front + [x] + back), key, before) && Chosen(Healthy(front + back), key, after)
    requires before != x
    ensures after == before
  {
    JoinMovesOnlyToNew(front, x, back, key, after, before);
  }

  // ---------------------------------------------------------------- the balancer

  ghost predicate Sorted(s: seq<nat>) { forall i, j :: 0 <= i < j < |s| ==> s[i] <= s[j] }

  /** The first i keys are sorted and not above the rest. */
  ghost predicate Front(s: seq<nat>, i: nat) { forall a, b :: 0 <= a < b < |s| && a < i ==> s[a] <= s[b] }

  lemma SwapKeepsFront(s: seq<nat>, i: nat, j: nat)
    requires i < j < |s| && Front(s, i)
    ensures Front(s[i := s[j]][j := s[i]], i)
  {}

  lemma SwapKeepsMultiset(s: seq<nat>, i: nat, j: nat)
    requires i < j < |s|
    ensures multiset(s[i := s[j]][j := s[i]]) == multiset(s)
  {}

  lemma SameMembers(s: seq<nat>, t: seq<nat>)
    requires multiset(s) == multiset(t)
    ensures forall p :: p in s <==> p in t
  {
    forall p ensures p in s <==> p in t {
      assert p in s <==> p in multiset(s);
      assert p in t <==> p in multiset(t);
    }
  }

  class ConsistentHashLoadBalancer {
    var ring: map<nat, Instance>
    var keys: seq<nat>

    constructor ()
      ensures ring == map[] && keys == []
    {
      ring, keys := map[], [];
    }

    /** The ring holds exactly the positions of xs, each with its owner, and keys lists them in order. */
    ghost predicate RingOf(xs: seq<Instance>)
      reads this
    {
      && multiset(keys) == multiset(AllPoints(xs))
      && Sorted(keys)
      && forall p :: p in AllPoints(xs) ==> p in ring && Some(ring[p]) == OwnerOf(xs, p)
    }

    method BuildRing(xs: seq<Instance>)
      modifies this
      ensures RingOf(xs)
    {
      ring, keys := map[], [];
      for a := 0 to |xs|
        invariant keys == AllPoints(xs[..a])
        invariant forall p :: p in keys ==> p in ring && Some(ring[p]) == OwnerOf(xs[..a], p)
      {
        AddInstance(xs[..a], xs[a]);
        assert xs[..a + 1] == xs[..a] + [xs[a]];
      }
      assert xs[..|xs|] == xs;
      Sort();
      SameMembers(keys, AllPoints(xs));
    }

    method AddInstance(xs: seq<Instance>, x: Instance)
      requires keys == AllPoints(xs)
      requires forall p :: p in keys ==> p in ring && Some(ring[p]) == OwnerOf(xs, p)
      modifies this
      ensures keys == AllPoints(xs + [x])
      ensures forall p :: p in keys ==> p in ring && Some(ring[p]) == OwnerOf(xs + [x], p)
    {
      var ps := Points(x);
      for i := 0 to VIRTUAL_NODES
        invariant keys == AllPoints(xs) + ps[..i]
        invariant forall p :: p in ps[..i] ==> p in ring && ring[p] == x
        invariant forall p :: p in AllPoints(xs) && p !in ps[..i] ==> p in ring && Some(ring[p]) == OwnerOf(xs, p)
      {
        var virtualKey := x.id + ":" + [i as char];
        var hash := ComputeHash(virtualKey);
        assert hash == ps[i] && ps[..i + 1] == ps[..i] + [ps[i]];
        ring := ring[hash := x];
        keys := keys + [hash];
      }
      assert ps[..VIRTUAL_NODES] == ps;
      assert (xs + [x])[..|xs|] == xs;
    }

    /** The exchange sort over the ring keys. */
    method Sort()
      modifies this`keys
      ensures Sorted(keys) && multiset(keys) == multiset(old(keys))
    {
      var n := |keys|;
      var i := 0;
      while i < n - 1
        invariant |keys| == n && multiset(keys) == multiset(old(keys))
        invariant 0 <= i <= n
        invariant Front(keys, i)
      {
        var j := i + 1;
        while j < n
          invariant |keys| == n && multiset(keys) == multiset(old(keys))
          invariant i < j <= n
          invariant Front(keys, i)
          invariant forall b :: i < b < j ==> keys[i] <= keys[b]
        {
          if keys[i] > keys[j] {
            SwapKeepsMultiset(keys, i, j);
            SwapKeepsFront(keys, i, j);
            keys := keys[i := keys[j]][j := keys[i]];
          }
          j := j + 1;
        }
        i := i + 1;
      }
    }

    method Select(instances: seq<Instance>, key: string) returns (r: Result<Instance, SelectError>)
      modifies this
      ensures r == Fail(NoInstances) <==> instances == []
      ensures r == Fail(NoHealthyInstances) <==>
                instances != [] && forall x :: x in instances ==> x.health != "healthy"
      ensures r.Success? ==> Chosen(Healthy(instances), key, r.value) && r.value in Healthy(instances)
    {
      if instances == [] { return Fail(NoInstances); }
      var healthy := FilterHealthy(instances);
      NoneHealthyIff(instances);
      if healthy == [] { return Fail(NoHealthyInstances); }
      BuildRing(healthy);
      var x := Lookup(healthy, key);
      return Success(x);
    }

    /** The scan for the first key at or after the hash, wrapping to the first key of all. */
    method Lookup(xs: seq<Instance>, key: string) returns (x: Instance)
      requires RingOf(xs) && xs != []
      ensures Chosen(xs, key, x) && x in xs
    {
      SameMembers(keys, AllPoints(xs));
      SameLength(keys, AllPoints(xs));
      var hash := ComputeHash(key);
      var found := 0;
      for i := 0 to |keys|
        invariant forall j :: 0 <= j < i ==> keys[j] < hash
        invariant found == 0
      {
        if keys[i] >= hash {
          found := i;
          break;
        }
      }
      SortedSuccessor(keys, AllPoints(xs), hash, found);
      OwnedIffPoint(xs, keys[found]);
      x := ring[keys[found]];
    }
  }

  lemma SameLength(s: seq<nat>, t: seq<nat>)
    requires multiset(s) == multiset(t)
    ensures |s| == |t|
  {
    assert |multiset(s)| == |s| && |multiset(t)| == |t|;
  }

  /** In a sorted list, what the scan stops at is the successor. */
  lemma SortedSuccessor(keys: seq<nat>, ps: seq<nat>, h: nat, k: nat)
    requires Sorted(keys) && (forall p :: p in keys <==> p in ps) && k < |keys|
    requires if keys[k] >= h then forall j :: 0 <= j < k ==> keys[j] < h
             else k == 0 && forall j :: 0 <= j < |keys| ==> keys[j] < h
    ensures IsSuccessor(ps, h, keys[k])
  {
    assert keys[k] in keys;
    forall q | q in ps && (keys[k] < h || q >= h) ensures keys[k] <= q && (keys[k] < h ==> q < h) {
      var j :| 0 <= j < |keys| && keys[j] == q;
    }
  }
}
