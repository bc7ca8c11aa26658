/**
 The bubble-sorted priority queue of the worker pool refines a stable one: a list of pending
 jobs in push order from which Pop takes the earliest job of highest priority.
 */
module PriorityQueue {
  import opened Common

  datatype Job = Job(id: int, priority: int)

  ghost predicate Descending(s: seq<Job>) {
    forall i, j :: 0 <= i < j < |s| ==> s[i].priority >= s[j].priority
  }

  /** The jobs of one priority, in order. */
  function Of(s: seq<Job>, p: int): seq<Job> {
    if s == [] then [] else (if s[0].priority == p then [s[0]] else []) + Of(s[1..], p)
  }

  /** The same jobs, and the same order among jobs of equal priority. */
  ghost predicate SameJobs(s: seq<Job>, t: seq<Job>) { forall p :: Of(s, p) == Of(t, p) }

  // ---------------------------------------------------------------- jobs of one priority

  lemma {:induction false} OfAppend(s: seq<Job>, t: seq<Job>, p: int)
    ensures Of(s + t, p) == Of(s, p) + Of(t, p)
    decreases |s|
  {
    if s == [] {
      assert s + t == t;
    } else {
      var head := if s[0].priority == p then [s[0]] else [];
      OfAppend(s[1..], t, p);
      assert Of(s + t, p) == head + Of(s[1..] + t, p) by { assert (s + t)[1..] == s[1..] + t; }
      assert head + (Of(s[1..], p) + Of(t, p)) == (head + Of(s[1..], p)) + Of(t, p);
    }
  }

  lemma OfOne(x: Job, p: int)
    ensures Of([x], p) == if x.priority == p then [x] else []
  {
    assert [x][1..] == [];
  }

  lemma OfSplit(s: seq<Job>, k: nat, p: int)
    requires k < |s|
    ensures Of(s, p) == Of(s[..k], p) + (if s[k].priority == p then [s[k]] else []) + Of(s[k + 1..], p)
  {
    assert s == s[..k] + ([s[k]] + s[k + 1..]);
    OfAppend(s[..k], [s[k]] + s[k + 1..], p);
    OfAppend([s[k]], s[k + 1..], p);
    OfOne(s[k], p);
  }

  lemma {:induction false} OfNone(s: seq<Job>, p: int)
    requires forall i :: 0 <= i < |s| ==> s[i].priority != p
    ensures Of(s, p) == []
  {
    if s != [] { OfNone(s[1..], p); }
  }

  lemma {:induction false} OfMembers(s: seq<Job>, p: int)
    ensures forall x :: x in Of(s, p) ==> x in s && x.priority == p
  {
    if s != [] { OfMembers(s[1..], p); }
  }

  lemma {:induction false} OfCounts(s: seq<Job>, x: Job)
    ensures multiset(Of(s, x.priority))[x] == multiset(s)[x]
  {
    if s != [] {
      OfCounts(s[1..], x);
      assert s == [s[0]] + s[1..];
    }
  }

  /** Nothing is lost and nothing is duplicated. */
  lemma SameJobsSameMultiset(s: seq<Job>, t: seq<Job>)
    requires SameJobs(s, t)
    ensures multiset(s) == multiset(t)
  {
    forall x ensures multiset(s)[x] == multiset(t)[x] {
      OfCounts(s, x);
      OfCounts(t, x);
    }
  }

  lemma SameJobsSameLength(s: seq<Job>, t: seq<Job>)
    requires SameJobs(s, t)
    ensures |s| == |t|
  {
    SameJobsSameMultiset(s, t);
    assert |multiset(s)| == |s| && |multiset(t)| == |t|;
  }

  /** Exchanging neighbours of different priority keeps the order among equals. */
  lemma SwapKeepsJobs(s: seq<Job>, j: nat)
    requires j + 1 < |s| && s[j].priority != s[j + 1].priority
    ensures SameJobs(s[j := s[j + 1]][j + 1 := s[j]], s)
  {
    var t := s[j := s[j + 1]][j + 1 := s[j]];
    forall p ensures Of(t, p) == Of(s, p) {
      OfSplit(s, j, p);
      OfSplit(s[j + 1..], 0, p);
      OfSplit(t, j, p);
      OfSplit(t[j + 1..], 0, p);
      assert t[..j] == s[..j] && t[j + 1..][1..] == s[j + 1..][1..];
    }
  }

  // ---------------------------------------------------------------- the reference queue

  /** Index k holds the earliest job of highest priority. */
  ghost predicate IsTop(pending: seq<Job>, k: nat) {
    && k < |pending|
    && (forall i :: 0 <= i < |pending| ==> pending[i].priority <= pending[k].priority)
    && (forall i :: 0 <= i < k ==> pending[i].priority < pending[k].priority)
  }

  function Top(pending: seq<Job>): (k: nat)
    requires pending != []
    ensures IsTop(pending, k)
  {
    if |pending| == 1 then 0
    else
      var n := |pending| - 1;
      var k := Top(pending[..n]);
      if pending[n].priority > pending[k].priority then n else k
  }

  function Without(s: seq<Job>, k: nat): seq<Job>
    requires k < |s|
  {
    s[..k] + s[k + 1..]
  }

  lemma {:induction false} OfNonempty(s: seq<Job>, p: int, k: nat)
    requires k < |s| && s[k].priority == p
    ensures Of(s, p) != []
  {
    if k > 0 { OfNonempty(s[1..], p, k - 1); }
  }

  lemma SameTopPriority(jobs: seq<Job>, pending: seq<Job>, k: nat)
    requires Descending(jobs) && jobs != [] && SameJobs(jobs, pending) && IsTop(pending, k)
    ensures jobs[0].priority == pending[k].priority
  {
    var p, q := jobs[0].priority, pending[k].priority;
    OfNonempty(jobs, p, 0);
    OfMembers(pending, p);
    assert Of(pending, p)[0] in Of(pending, p);
    OfNonempty(pending, q, k);
    OfMembers(jobs, q);
    assert Of(jobs, q)[0] in Of(jobs, q);
  }

  lemma OfHead(s: seq<Job>, p: int)
    requires s != []
    ensures Of(s, p) == (if s[0].priority == p then [s[0]] else []) + Of(s[1..], p)
  {}

  /** Taking the first job of a priority out of a list. */
  lemma OfWithout(pending: seq<Job>, k: nat, r: int)
    requires IsTop(pending, k)
    ensures Of(pending, r) == (if pending[k].priority == r then [pending[k]] else []) + Of(Without(pending, k), r)
  {
    OfSplit(pending, k, r);
    OfAppend(pending[..k], pending[k + 1..], r);
    if pending[k].priority == r { OfNone(pending[..k], r); }
  }

  lemma CancelHead(x: Job, y: Job, s: seq<Job>, t: seq<Job>)
    requires [x] + s == [y] + t
    ensures x == y && s == t
  {
    assert ([x] + s)[0] == x && ([y] + t)[0] == y;
    assert ([x] + s)[1..] == s && ([y] + t)[1..] == t;
  }

  /** The head of a sorted list is what the reference queue would pop, and the rests correspond. */
  lemma HeadIsTop(jobs: seq<Job>, pending: seq<Job>, k: nat)
    requires Descending(jobs) && jobs != [] && SameJobs(jobs, pending) && IsTop(pending, k)
    ensures jobs[0] == pending[k]
    ensures SameJobs(jobs[1..], Without(pending, k))
  {
    SameTopPriority(jobs, pending, k);
    var q := pending[k].priority;
    OfHead(jobs, q);
    OfWithout(pending, k, q);
    CancelHead(jobs[0], pending[k], Of(jobs[1..], q), Of(Without(pending, k), q));
    forall r ensures Of(jobs[1..], r) == Of(Without(pending, k), r) {
      OfHead(jobs, r);
      OfWithout(pending, k, r);
      if r != q { assert Of(jobs, r) == Of(jobs[1..], r) && Of(pending, r) == Of(Without(pending, k), r); }
    }
  }

  /** A list sorted stably is determined by its jobs. */
  lemma {:induction false} StableSortIsUnique(s: seq<Job>, t: seq<Job>)
    requires Descending(s) && Descending(t) && SameJobs(s, t)
    ensures s == t
    decreases |s|
  {
    SameJobsSameLength(s, t);
    if s != [] {
      HeadIsTop(s, t, 0);
      assert Without(t, 0) == t[1..];
      StableSortIsUnique(s[1..], t[1..]);
    }
  }

  // ---------------------------------------------------------------- insertion

  /** Where a pushed job ends up: behind every job of its priority or higher. */
  function Insert(s: seq<Job>, x: Job): seq<Job> {
    if s == [] || s[0].priority < x.priority then [x] + s else [s[0]] + Insert(s[1..], x)
  }

  lemma {:induction false} InsertIsStable(s: seq<Job>, x: Job)
    requires Descending(s)
    ensures Descending(Insert(s, x)) && SameJobs(Insert(s, x), s + [x])
    ensures forall y :: y in Insert(s, x) ==> y in s || y == x
  {
    if s == [] || s[0].priority < x.priority {
      forall p ensures Of(Insert(s, x), p) == Of(s + [x], p) {
        OfAppend([x], s, p);
        OfAppend(s, [x], p);
        OfOne(x, p);
        if x.priority == p { OfNone(s, p); }
      }
    } else {
      InsertIsStable(s[1..], x);
      forall p ensures Of(Insert(s, x), p) == Of(s + [x], p) {
        assert (s + [x])[1..] == s[1..] + [x];
        assert Of(Insert(s[1..], x), p) == Of(s[1..] + [x], p);
        assert Insert(s, x)[1..] == Insert(s[1..], x);
      }
      forall y | y in Insert(s[1..], x) ensures y.priority <= s[0].priority {
        assert y in s[1..] || y == x;
      }
    }
  }

  // ---------------------------------------------------------------- the queue

  class JobQueue {
    var jobs: seq<Job>

    ghost predicate Valid()
      reads this
    {
      Descending(jobs)
    }

    constructor ()
      ensures Valid() && jobs == []
    {
      jobs := [];
    }

    method Push(job: Job)
      requires Valid()
      modifies this
      ensures Valid() && jobs == Insert(old(jobs), job)
    {
      jobs := jobs + [job];
      Sort();
      InsertIsStable(old(jobs), job);
      StableSortIsUnique(jobs, Insert(old(jobs), job));
    }

    method Pop() returns (r: Option<Job>)
      requires Valid()
      modifies this
      ensures Valid()
      ensures old(jobs) == [] ==> r == None && jobs == []
      ensures old(jobs) != [] ==> r == Some(old(jobs)[0]) && jobs == old(jobs)[1..]
    {
      if |jobs| == 0 { return None; }
      r := Some(jobs[0]);
      jobs := jobs[1..];
    }

    /** The bubble sort, for any list. */
    method Sort()
      modifies this
      ensures Descending(jobs) && SameJobs(jobs, old(jobs))
    {
      var n := |jobs|;
      var i := 0;
      while i < n - 1
        invariant 0 <= i && (i <= n - 1 || n == 0) && |jobs| == n && SameJobs(jobs, old(jobs))
        invariant Placed(jobs, n - i)
      {
        var j := 0;
        while j < n - 1 - i
          invariant 0 <= j <= n - 1 - i && |jobs| == n && SameJobs(jobs, old(jobs))
          invariant Placed(jobs, n - i)
          invariant forall a :: 0 <= a < j ==> jobs[a].priority >= jobs[j].priority
        {
          if jobs[j].priority < jobs[j + 1].priority {
            SwapKeepsJobs(jobs, j);
            jobs := jobs[j := jobs[j + 1]][j + 1 := jobs[j]];
          }
          j := j + 1;
        }
        i := i + 1;
      }
    }
  }

  /** Everything from index m on is in its final place. */
  ghost predicate Placed(s: seq<Job>, m: int) {
    forall a, b :: 0 <= a < b < |s| && b >= m ==> s[a].priority >= s[b].priority
  }

  // ---------------------------------------------------------------- every sequence of operations

  datatype Op = PushOp(job: Job) | PopOp

  /** What the queue's methods do, by their contracts. */
  function QueueStep(jobs: seq<Job>, op: Op): (seq<Job>, Option<Job>) {
    match op
    case PushOp(job) => (Insert(jobs, job), None)
    case PopOp => if jobs == [] then ([], None) else (jobs[1..], Some(jobs[0]))
  }

  function ReferenceStep(pending: seq<Job>, op: Op): (seq<Job>, Option<Job>) {
    match op
    case PushOp(job) => (pending + [job], None)
    case PopOp => if pending == [] then ([], None) else (Without(pending, Top(pending)), Some(pending[Top(pending)]))
  }

  function QueueRun(jobs: seq<Job>, ops: seq<Op>): (seq<Job>, seq<Option<Job>>)
    decreases |ops|
  {
    if ops == [] then (jobs, [])
    else
      var (next, out) := QueueStep(jobs, ops[0]);
      var (end, outs) := QueueRun(next, ops[1..]);
      (end, [out] + outs)
  }

  function ReferenceRun(pending: seq<Job>, ops: seq<Op>): (seq<Job>, seq<Option<Job>>)
    decreases |ops|
  {
    if ops == [] then (pending, [])
    else
      var (next, out) := ReferenceStep(pending, ops[0]);
      var (end, outs) := ReferenceRun(next, ops[1..]);
      (end, [out] + outs)
  }

  ghost predicate Corresponds(jobs: seq<Job>, pending: seq<Job>) { Descending(jobs) && SameJobs(jobs, pending) }

  lemma StepsCorrespond(jobs: seq<Job>, pending: seq<Job>, op: Op)
    requires Corresponds(jobs, pending)
    ensures QueueStep(jobs, op).1 == ReferenceStep(pending, op).1
    ensures Corresponds(QueueStep(jobs, op).0, ReferenceStep(pending, op).0)
  {
    SameJobsSameLength(jobs, pending);
    match op
    case PushOp(job) =>
      InsertIsStable(jobs, job);
      forall p ensures Of(Insert(jobs, job), p) == Of(pending + [job], p) {
        assert Of(Insert(jobs, job), p) == Of(jobs + [job], p);
        OfAppend(jobs, [job], p);
        OfAppend(pending, [job], p);
      }
    case PopOp => if jobs != [] { HeadIsTop(jobs, pending, Top(pending)); }
  }

  lemma {:induction false} RunsCorrespond(jobs: seq<Job>, pending: seq<Job>, ops: seq<Op>)
    requires Corresponds(jobs, pending)
    ensures QueueRun(jobs, ops).1 == ReferenceRun(pending, ops).1
    ensures Corresponds(QueueRun(jobs, ops).0, ReferenceRun(pending, ops).0)
    decreases |ops|
  {
    if ops != [] {
      StepsCorrespond(jobs, pending, ops[0]);
      RunsCorrespond(QueueStep(jobs, ops[0]).0, ReferenceStep(pending, ops[0]).0, ops[1..]);
    }
  }

  function Pushed(ops: seq<Op>): seq<Job> {
    if ops == [] then [] else (if ops[0].PushOp? then [ops[0].job] else []) + Pushed(ops[1..])
  }

  function Popped(outs: seq<Option<Job>>): seq<Job> {
    if outs == [] then [] else (if outs[0].Some? then [outs[0].value] else []) + Popped(outs[1..])
  }

  /** Every job that was there or was pushed has been popped once or is still there. */
  lemma {:induction false} JobsAreConserved(jobs: seq<Job>, ops: seq<Op>)
    ensures multiset(jobs) + multiset(Pushed(ops)) ==
            multiset(Popped(QueueRun(jobs, ops).1)) + multiset(QueueRun(jobs, ops).0)
    decreases |ops|
  {
    if ops != [] {
      var (next, out) := QueueStep(jobs, ops[0]);
      JobsAreConserved(next, ops[1..]);
      StepConserves(jobs, ops[0]);
      var outs := QueueRun(next, ops[1..]).1;
      assert ([out] + outs)[1..] == outs;
      Rearranged(multiset(jobs), multiset(if ops[0].PushOp? then [ops[0].job] else []), multiset(next),
                 multiset(if out.Some? then [out.value] else []), multiset(Pushed(ops[1..])),
                 multiset(Popped(outs)), multiset(QueueRun(next, ops[1..]).0));
    }
  }

  lemma StepConserves(jobs: seq<Job>, op: Op)
    ensures var (next, out) := QueueStep(jobs, op);
            multiset(jobs) + multiset(if op.PushOp? then [op.job] else []) ==
            multiset(next) + multiset(if out.Some? then [out.value] else [])
  {
    if op.PushOp? {
      InsertCount(jobs, op.job);
    } else if jobs != [] {
      assert jobs == [jobs[0]] + jobs[1..];
    }
  }

  lemma {:induction false} InsertCount(jobs: seq<Job>, job: Job)
    ensures multiset(Insert(jobs, job)) == multiset(jobs) + multiset{job}
  {
    if jobs != [] && jobs[0].priority >= job.priority {
      InsertCount(jobs[1..], job);
      assert jobs == [jobs[0]] + jobs[1..];
    }
  }

  lemma Rearranged(a: multiset<Job>, p: multiset<Job>, b: multiset<Job>, q: multiset<Job>,
                   pushed: multiset<Job>, popped: multiset<Job>, end: multiset<Job>)
    requires a + p == b + q && b + pushed == popped + end
    ensures a + (p + pushed) == (q + popped) + end
  {
    assert a + (p + pushed) == (a + p) + pushed;
    assert (b + q) + pushed == q + (b + pushed);
    assert q + (popped + end) == (q + popped) + end;
  }

  /**
   From the empty queue, any sequence of Push and Pop gives the reference queue's answers; the slice
   holds the reference queue's jobs in descending priority with push order among equals; and the jobs
   pushed are those popped and those left.
   */
  lemma QueueIsStable(ops: seq<Op>)
    ensures QueueRun([], ops).1 == ReferenceRun([], ops).1
    ensures Corresponds(QueueRun([], ops).0, ReferenceRun([], ops).0)
    ensures multiset(QueueRun([], ops).0) == multiset(ReferenceRun([], ops).0)
    ensures multiset(Pushed(ops)) == multiset(Popped(QueueRun([], ops).1)) + multiset(QueueRun([], ops).0)
  {
    RunsCorrespond([], [], ops);
    SameJobsSameMultiset(QueueRun([], ops).0, ReferenceRun([], ops).0);
    JobsAreConserved([], ops);
  }
}
