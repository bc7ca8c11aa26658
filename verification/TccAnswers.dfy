/** What the answer true of twoPhaseCommit leaves open: lost updates, and a Cancel still to come. */
module TccAnswers {
  import opened Common
  import opened TccModel
  import opened TccSoundness
  import opened TccClaims
  import opened TccTheorems
  import opened TccStatus
  import opened TccScenarios
  import opened TccLimits

  ghost predicate Stale(rec: Record) { !AllSuccessful(rec.components) }

  // ---------------------------------------------------------------- the lost update

  /** Two goroutines have read the same copy and edited it, each for itself. */
  lemma BothRead(c: Config, s0: State) returns (s: State)
    requires Reachable(c, s0) && 2 <= |c.ids| == |s0.threads| == |s0.sh.outcome| && s0.sh.cache == Some(s0.sh.row)
    requires s0.threads[0] == s0.threads[1] == Reading(true)
    ensures Reachable(c, s)
    ensures s == s0.(threads := s0.threads[0 := Writing(true, Edited(c, s0.sh.row, 0, true))]
                                          [1 := Writing(true, Edited(c, s0.sh.row, 1, true))])
  {
    s := Then(c, s0, Goroutine(0, ReadCache(false)));
    s := Then(c, s, Goroutine(1, ReadCache(false)));
  }

  /** A goroutine that has its edited record writes the row and Redis. */
  lemma WroteBack(c: Config, s0: State, i: nat, rec: Record) returns (s: State)
    requires Reachable(c, s0) && i < |c.ids| == |s0.threads| == |s0.sh.outcome|
    requires s0.threads[i] == Writing(true, rec) && rec.status == s0.sh.row.status
    ensures Reachable(c, s) && s.threads == s0.threads[i := Ended(false)]
    ensures s == s0.(sh := s0.sh.(row := rec, cache := Some(rec), written := s.sh.written), threads := s.threads)
  {
    s := Then(c, s0, Goroutine(i, WriteRow(NoFault)));
    s := Then(c, s, Goroutine(i, WriteCache(false)));
  }

  /** The second row write overwrites the first. */
  lemma Overwrites(c: Config, s0: State) returns (s: State)
    requires Reachable(c, s0) && 2 <= |c.ids| == |s0.threads| == |s0.sh.outcome| && s0.sh.cache == Some(s0.sh.row)
    requires s0.threads[0] == s0.threads[1] == Reading(true)
    ensures Reachable(c, s)
    ensures s ==
            s0.(sh := s0.sh.(row := Edited(c, s0.sh.row, 1, true), cache := Some(s.sh.row), written := s.sh.written),
                threads := s0.threads[0 := Ended(false)][1 := Ended(false)])
  {
    s := BothRead(c, s0);
    s := WroteBack(c, s, 0, Edited(c, s0.sh.row, 0, true));
    s := WroteBack(c, s, 1, Edited(c, s0.sh.row, 1, true));
    assert s.threads == s0.threads[0 := Ended(false)][1 := Ended(false)];
  }

  lemma FirstEntryLost(c: Config, s0: State) returns (s: State)
    requires ValidConfig(c) && |c.ids| >= 2 && Reachable(c, s0) && Serial(c, s0, 0, false)
    ensures Reachable(c, s) && Serial(c, s, 2, true)
  {
    s := Tried(c, s0, 0);
    s := Tried(c, s, 1);
    s := Overwrites(c, s);
    SetStatusAt(s0.sh.row.components, c.ids[1], Successful, 1);
  }

  ghost predicate TrueOverStaleRow(c: Config, s: State) {
    Reachable(c, s) && Told(s, true) && Stale(s.sh.row)
  }

  /** With two components or more, true can be answered although the row lost an acknowledged Try. */
  lemma LostUpdate(c: Config) returns (s: State)
    requires ValidConfig(c) && |c.ids| >= 2
    ensures TrueOverStaleRow(c, s) && s.sh.row.status == Hanging && s.sh.cache == Some(s.sh.row)
  {
    ReachInit(c);
    InitSerial(c);
    s := FirstEntryLost(c, Init(c, true));
    s := SerialTries(c, s, 2, |c.ids|, true);
    assert s.sh.row.components[0].status == Hanging;
    s := Then(c, s, Decide(true));
  }

  /** With one component the row shows what its only writer wrote. */
  ghost predicate OwnEntry(c: Config, g: Shared) {
    |c.ids| == 1 == |g.row.components| == |g.outcome| &&
    (0 in g.written && g.outcome[0] == Acked ==> g.row.components[0].status == Successful)
  }

  lemma OwnWrite(c: Config, g: Shared, t: Thread, e: Event)
    requires OwnEntry(c, g) && ThreadOK(c, g, 0, t) && ThreadEnabled(t, e)
    ensures OwnEntry(c, ThreadStep(c, g, 0, t, e).0)
  {}

  lemma PassFrame(c: Config, g: Shared, now: int, p: nat, pass: Pass, e: Event)
    requires PassEnabled(pass, e)
    ensures var h := PassStep(c, g, now, p, pass, e).0;
            h.row.components == g.row.components && h.outcome == g.outcome && h.written == g.written
  {}

  lemma OwnEntryStep(c: Config, s: State, st: Step)
    requires Sound(c, s) && OwnEntry(c, s.sh) && Enabled(c, s, st)
    ensures OwnEntry(c, Apply(c, s, st).sh)
  {
    if st.Goroutine? {
      assert ThreadOK(c, s.sh, 0, s.threads[0]);
      OwnWrite(c, s.sh, s.threads[0], st.te);
    } else if st.MovePass? {
      PassFrame(c, s.sh, s.now, st.p, s.passes[st.p], st.pe);
    }
  }

  lemma {:induction false} OwnEntryRun(c: Config, s: State, steps: seq<Step>)
    requires ValidConfig(c) && Sound(c, s) && OwnEntry(c, s.sh) && CanRun(c, s, steps)
    ensures OwnEntry(c, Run(c, s, steps).sh)
    decreases |steps|
  {
    if steps != [] {
      OwnEntryStep(c, s, steps[0]);
      StepSound(c, s, steps[0]);
      OwnEntryRun(c, Apply(c, s, steps[0]), steps[1..]);
    }
  }

  lemma SingleIsNeverLost(c: Config, s: State)
    requires |c.ids| == 1 && Reachable(c, s) && Told(s, true)
    ensures !Stale(s.sh.row)
  {
    var cached: bool, steps: seq<Step> :| IsExecution(c, cached, steps) && FinalState(c, cached, steps) == s;
    InitSound(c, cached);
    OwnEntryRun(c, Init(c, cached), steps);
    ReachableIsSound(c, s);
    TrueMeansCommitted(c, s);
    assert Recorded(s.sh, 0);
  }

  /** An acknowledged Try can be missing from the row after true exactly when there are two components. */
  lemma LostUpdateIff(c: Config)
    requires ValidConfig(c)
    ensures (exists s :: TrueOverStaleRow(c, s)) <==> |c.ids| >= 2
  {
    forall s | TrueOverStaleRow(c, s) ensures |c.ids| >= 2 {
      if |c.ids| == 1 { SingleIsNeverLost(c, s); }
    }
    if |c.ids| >= 2 { var s := LostUpdate(c); }
  }

  // ---------------------------------------------------------------- a Cancel still to come

  ghost predicate HeldStale(p: Pass) { (p.Filling? || p.Judging?) && Stale(p.rec) }

  ghost predicate SomeFetching(s: State) { exists p :: 0 <= p < |s.passes| && s.passes[p].Fetching? }

  /** A pass may still read the row: a new one, or one that is on its way to it. */
  ghost predicate RowReadLater(s: State) {
    s.sh.row.status == Hanging || exists p :: 0 <= p < |s.passes| && (s.passes[p].Fetching? || s.passes[p].FetchingRow?)
  }

  /** Redis has a stale copy, or a submitting pass is about to put one there. */
  ghost predicate CacheStale(s: State) {
    || (s.sh.cache.Some? && Stale(s.sh.cache.value))
    || exists p :: 0 <= p < |s.passes| && s.passes[p].Republishing? && Stale(s.passes[p].rec)
  }

  /** Some copy that a pass may still judge has an entry that is not successful. */
  ghost predicate StaleAhead(s: State) {
    || (exists p :: 0 <= p < |s.passes| && HeldStale(s.passes[p]))
    || (Stale(s.sh.row) && RowReadLater(s))
    || (CacheStale(s) && SomeFetching(s))
  }

  ghost predicate CancelCalled(s: State) { exists k: nat :: Count(s.sh.log.calls, Slot(CancelPhase, k)) > 0 }

  /** Answered true, no verdict by timeout so far, and no stale copy left to judge. */
  ghost predicate Safe(c: Config, s: State) {
    Sound(c, s) && Told(s, true) && !s.sh.lateVerdict && !StaleAhead(s)
  }

  /** After true the goroutines are done and the only caller's pass has been started. */
  lemma NoGoroutineLeft(c: Config, s: State, st: Step)
    requires Sound(c, s) && Told(s, true) && Enabled(c, s, st)
    ensures !st.Goroutine? && !st.Decide? && Told(Apply(c, s, st), true)
  {}

  /** Where the copies that a pass's step produces come from. */
  lemma CopiesComeFrom(c: Config, g: Shared, now: int, p: nat, pass: Pass, e: Event)
    requires PassEnabled(pass, e)
    ensures var (h, q) := PassStep(c, g, now, p, pass, e);
            && h.row.components == g.row.components && (h.row.status == Hanging ==> g.row.status == Hanging)
            && (h.cache == g.cache || ((pass.Filling? || pass.Republishing?) && h.cache == Some(pass.rec)))
            && !q.Fetching? && (q.FetchingRow? ==> pass.Fetching?)
            && (q.Filling? ==> pass.FetchingRow? && q.rec == g.row)
            && (q.Judging? ==> || (pass.Filling? && q.rec == pass.rec)
                               || (pass.Fetching? && Some(q.rec) == g.cache)
                               || (pass.Requerying? && q.rec == g.row && g.row.status == Hanging))
            && (q.Republishing? ==> g.cache.Some? && q.rec.components == g.cache.value.components)
  {}

  lemma MoveKeepsSafe(c: Config, s: State, p: nat, e: Event)
    requires ValidConfig(c) && Safe(c, s) && Enabled(c, s, MovePass(p, e))
    ensures !StaleAhead(Apply(c, s, MovePass(p, e)))
  {
    var t := Apply(c, s, MovePass(p, e));
    CopiesComeFrom(c, s.sh, s.now, p, s.passes[p], e);
    assert !HeldStale(s.passes[p]);
    forall q | 0 <= q < |t.passes| ensures !HeldStale(t.passes[q]) {
      if q != p { assert !HeldStale(s.passes[q]); }
    }
    assert RowReadLater(t) ==> RowReadLater(s);
    assert SomeFetching(t) ==> SomeFetching(s);
    assert SomeFetching(s) && CacheStale(t) ==> CacheStale(s);
  }

  /** A pass without a stale record gives no verdict by timeout. */
  lemma MoveIsNotLate(c: Config, s: State, p: nat, e: Event)
    requires Safe(c, s) && Enabled(c, s, MovePass(p, e))
    ensures !Apply(c, s, MovePass(p, e)).sh.lateVerdict
  {
    assert !HeldStale(s.passes[p]);
    if s.passes[p].Judging? { assert !HasFailure(s.passes[p].rec.components); }
  }

  lemma StepKeepsSafe(c: Config, s: State, st: Step)
    requires ValidConfig(c) && Safe(c, s) && Enabled(c, s, st)
    ensures Safe(c, Apply(c, s, st))
  {
    var t := Apply(c, s, st);
    StepSound(c, s, st);
    NoGoroutineLeft(c, s, st);
    if st.MovePass? {
      MoveKeepsSafe(c, s, st.p, st.pe);
      MoveIsNotLate(c, s, st.p, st.pe);
    } else {
      forall q | 0 <= q < |t.passes| ensures !HeldStale(t.passes[q]) {
        if q < |s.passes| { assert !HeldStale(s.passes[q]); }
      }
      assert RowReadLater(t) ==> RowReadLater(s);
      assert SomeFetching(t) ==> SomeFetching(s);
      assert CacheStale(t) ==> CacheStale(s);
    }
  }

  lemma {:induction false} SafeNeverCancels(c: Config, s: State, steps: seq<Step>)
    requires ValidConfig(c) && Safe(c, s) && CanRun(c, s, steps)
    ensures !CancelCalled(Run(c, s, steps))
    decreases |steps|
  {
    if steps == [] {
      TrueMeansCommitted(c, s);
    } else {
      StepKeepsSafe(c, s, steps[0]);
      SafeNeverCancels(c, Apply(c, s, steps[0]), steps[1..]);
    }
  }

  // ---------------------------------------------------------------- from a stale copy to a Cancel

  ghost predicate Leads(c: Config, s: State, t: State) {
    exists steps :: CanRun(c, s, steps) && Run(c, s, steps) == t
  }

  /** A state that s leads to, with nothing cancelled so far. */
  ghost predicate Ahead(c: Config, s: State, t: State) {
    Reachable(c, t) && Leads(c, s, t) && Told(t, true) && !t.sh.lateVerdict
  }

  lemma Onward(c: Config, s: State, t: State, st: Step) returns (u: State)
    requires Reachable(c, t) && Leads(c, s, t) && Enabled(c, t, st)
    ensures Reachable(c, u) && Leads(c, s, u) && u == Apply(c, t, st)
  {
    var steps :| CanRun(c, s, steps) && Run(c, s, steps) == t;
    RunSnoc(c, s, steps, st);
    u := Then(c, t, st);
    assert Run(c, s, steps + [st]) == u;
  }

  /** No Cancel mark is set yet, and a stale record has a hanging entry and no failure. */
  lemma UntouchedByCancel(c: Config, s: State, rec: Record)
    requires Reachable(c, s) && Told(s, true) && !s.sh.lateVerdict
    ensures Slot(CancelPhase, 0) !in s.sh.marks && c.ids != []
    ensures Shaped(c, s.sh) && (RecordOK(c, s.sh, rec) ==> !HasFailure(rec.components))
  {
    ReachableIsSound(c, s);
    TrueMeansCommitted(c, s);
    if RecordOK(c, s.sh, rec) { VerdictJustified(c, s.sh, rec); }
  }

  /** A stale record in the hands of a judging pass: wait for the deadline, and it cancels. */
  lemma JudgedLate(c: Config, s: State, t: State, p: nat) returns (u: State)
    requires Ahead(c, s, t) && p < |t.passes| && t.passes[p].Judging? && Stale(t.passes[p].rec)
    ensures Leads(c, s, u) && u.passes == t.passes[p := Marking(false, 0)] && u.sh == t.sh.(lateVerdict := true)
    ensures Reachable(c, u) && c.ids != [] && Slot(CancelPhase, 0) !in u.sh.marks
  {
    ReachableIsSound(c, t);
    assert PassOK(c, t.sh, t.passes[p]);
    UntouchedByCancel(c, t, t.passes[p].rec);
    var wait := c.createdAt + c.timeout + 1 - t.now;
    u := Onward(c, s, t, Tick(if wait > 0 then wait else 0));
    u := Onward(c, s, u, MovePass(p, Judge));
  }

  lemma JudgedCancels(c: Config, s: State, t: State, p: nat) returns (u: State)
    requires Ahead(c, s, t) && p < |t.passes| && t.passes[p].Judging? && Stale(t.passes[p].rec)
    ensures Leads(c, s, u) && CancelCalled(u)
  {
    u := JudgedLate(c, s, t, p);
    u := Onward(c, s, u, MovePass(p, Mark(NoFault)));
    u := Onward(c, s, u, MovePass(p, Call(Answered(true))));
    assert Count(u.sh.log.calls, Slot(CancelPhase, 0)) > 0;
  }

  lemma FilledCancels(c: Config, s: State, t: State, p: nat) returns (u: State)
    requires Ahead(c, s, t) && p < |t.passes| && HeldStale(t.passes[p])
    ensures Leads(c, s, u) && CancelCalled(u)
  {
    u := t;
    if t.passes[p].Filling? { u := Onward(c, s, t, MovePass(p, WriteCache(false))); }
    u := JudgedCancels(c, s, u, p);
  }

  lemma RowCancels(c: Config, s: State, t: State, p: nat) returns (u: State)
    requires Ahead(c, s, t) && p < |t.passes| && (t.passes[p].Fetching? || t.passes[p].FetchingRow?) && Stale(t.sh.row)
    ensures Leads(c, s, u) && CancelCalled(u)
  {
    u := t;
    if t.passes[p].Fetching? { u := Onward(c, s, t, MovePass(p, ReadCache(true))); }
    u := Onward(c, s, u, MovePass(p, ReadRow(false)));
    u := FilledCancels(c, s, u, p);
  }

  lemma NewPassCancels(c: Config, s: State, t: State) returns (u: State)
    requires Ahead(c, s, t) && t.sh.row.status == Hanging && Stale(t.sh.row)
    ensures Leads(c, s, u) && CancelCalled(u)
  {
    var p := |t.passes|;
    u := Onward(c, s, t, StartPass);
    if u.passes[p].Submitting? { u := Onward(c, s, u, MovePass(p, WriteRow(ErrorNotApplied))); }
    u := Onward(c, s, u, MovePass(p, Query(false)));
    u := JudgedCancels(c, s, u, p);
  }

  lemma CacheCancels(c: Config, s: State, t: State, p: nat) returns (u: State)
    requires Ahead(c, s, t) && p < |t.passes| && t.passes[p].Fetching? && CacheStale(t)
    ensures Leads(c, s, u) && CancelCalled(u)
  {
    u := t;
    if !(t.sh.cache.Some? && Stale(t.sh.cache.value)) {
      var q :| 0 <= q < |t.passes| && t.passes[q].Republishing? && Stale(t.passes[q].rec);
      u := Onward(c, s, t, MovePass(q, WriteCache(false)));
    }
    u := Onward(c, s, u, MovePass(p, ReadCache(false)));
    u := JudgedCancels(c, s, u, p);
  }

  lemma StaleAheadCancels(c: Config, s: State) returns (u: State)
    requires Reachable(c, s) && Told(s, true) && !s.sh.lateVerdict && StaleAhead(s)
    ensures Leads(c, s, u) && CancelCalled(u)
  {
    assert Run(c, s, []) == s;
    if p :| 0 <= p < |s.passes| && HeldStale(s.passes[p]) {
      u := FilledCancels(c, s, s, p);
    } else if CacheStale(s) && SomeFetching(s) {
      var p :| 0 <= p < |s.passes| && s.passes[p].Fetching?;
      u := CacheCancels(c, s, s, p);
    } else if s.sh.row.status == Hanging {
      u := NewPassCancels(c, s, s);
    } else {
      var p :| 0 <= p < |s.passes| && (s.passes[p].Fetching? || s.passes[p].FetchingRow?);
      u := RowCancels(c, s, s, p);
    }
  }

  /**
   After twoPhaseCommit answered true, and before any verdict by timeout, a Cancel can still come
   exactly when some copy that a pass may still judge has an entry that is not successful.
   */
  lemma CancelAfterTrueIff(c: Config, s: State)
    requires Reachable(c, s) && Told(s, true) && !s.sh.lateVerdict
    ensures (exists u :: Leads(c, s, u) && CancelCalled(u)) <==> StaleAhead(s)
  {
    ReachableIsSound(c, s);
    if StaleAhead(s) {
      var u := StaleAheadCancels(c, s);
    } else {
      forall u | Leads(c, s, u) ensures !CancelCalled(u) {
        var steps :| CanRun(c, s, steps) && Run(c, s, steps) == u;
        SafeNeverCancels(c, s, steps);
      }
    }
  }
}
