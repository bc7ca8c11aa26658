/** What a final status in the row stands for, and when it can still change. */
module TccStatus {
  import opened TccModel
  import opened TccSoundness
  import opened TccTheorems

  /** Older than thirty minutes, so that GetHangingTXs gives the transaction up. */
  ghost predicate Aged(c: Config, now: int) { c.createdAt < now - 1800 }

  /** Old enough for getStatus to fail a snapshot with a hanging entry. */
  ghost predicate Overdue(c: Config, now: int) { c.createdAt < now - c.timeout }

  ghost predicate CancelMarked(g: Shared, n: nat) {
    forall i :: 0 <= i < n ==> Slot(CancelPhase, i) in g.marks
  }

  /** A pass has been through the whole cancel loop, and had a reason to. */
  ghost predicate CancelledAll(c: Config, g: Shared) { CancelMarked(g, |c.ids|) && Cancellable(g) }

  // ---------------------------------------------------------------- invariant

  ghost predicate PassAccounted(c: Config, g: Shared, now: int, p: Pass) {
    match p
    case Marking(success, k) => !success ==> CancelMarked(g, k)
    case Calling(success, k, _) => !success ==> CancelMarked(g, k + 1)
    case Noting(k) => CancelMarked(g, k + 1)
    case Submitting(success, expiry) => !success ==> if expiry then Aged(c, now) else CancelledAll(c, g)
    case _ => true
  }

  ghost predicate StoreAccounted(c: Config, g: Shared, now: int) {
    && (g.row.status == Failure ==> Aged(c, now) || CancelledAll(c, g))
    && (g.lateVerdict ==> Overdue(c, now))
    && (forall k: nat :: Slot(CancelPhase, k) in g.marks ==> Cancellable(g))
  }

  ghost predicate Accounted(c: Config, s: State) {
    && c.createdAt <= s.now
    && StoreAccounted(c, s.sh, s.now)
    && forall p :: 0 <= p < |s.passes| ==> PassAccounted(c, s.sh, s.now, s.passes[p])
  }

  // ---------------------------------------------------------------- every step keeps it

  lemma PassStaysAccounted(c: Config, g: Shared, h: Shared, now: int, now': int, p: Pass)
    requires Grows(g, h) && now <= now' && PassAccounted(c, g, now, p)
    ensures PassAccounted(c, h, now', p)
  {
    if p == Submitting(false, false) { CancellableStays(g, h); }
  }

  /** A step that writes no status, gives no late verdict and adds no cancel mark. */
  lemma StoreStaysAccounted(c: Config, g: Shared, h: Shared, now: int, now': int)
    requires Grows(g, h) && now <= now' && StoreAccounted(c, g, now)
    requires h.row.status == g.row.status && h.lateVerdict == g.lateVerdict
    requires forall k: nat :: Slot(CancelPhase, k) in h.marks ==> Slot(CancelPhase, k) in g.marks
    ensures StoreAccounted(c, h, now')
  {
    if Cancellable(g) { CancellableStays(g, h); }
  }

  lemma ThreadAccounted(c: Config, g: Shared, now: int, i: nat, t: Thread, e: Event)
    requires i < |c.ids| == |g.outcome| && ThreadEnabled(t, e) && StoreAccounted(c, g, now)
    requires Grows(g, ThreadStep(c, g, i, t, e).0)
    ensures StoreAccounted(c, ThreadStep(c, g, i, t, e).0, now)
  {
    StoreStaysAccounted(c, g, ThreadStep(c, g, i, t, e).0, now, now);
  }

  lemma PassMarkAccounted(c: Config, g: Shared, now: int, p: nat, success: bool, k: nat, fault: Fault)
    requires Shaped(c, g) && StoreAccounted(c, g, now)
    requires PassOK(c, g, Marking(success, k)) && PassAccounted(c, g, now, Marking(success, k))
    ensures var r := PassMark(c, g, p, success, k, fault);
            StoreAccounted(c, r.0, now) && PassAccounted(c, r.0, now, r.1)
  {
    var h := PassMark(c, g, p, success, k, fault).0;
    MarkedOK(c, g, h, success, k);
    if Cancellable(g) { CancellableStays(g, h); }
  }

  lemma PassNoteAccounted(c: Config, g: Shared, now: int, k: nat, failed: bool)
    requires StoreAccounted(c, g, now) && Cancellable(g) && PassAccounted(c, g, now, Noting(k))
    ensures var h := if failed then g else g.(marks := g.marks + {Slot(CancelPhase, k)});
            StoreAccounted(c, h, now) && PassAccounted(c, h, now, AtComponent(c, false, k + 1))
  {
    var h := if failed then g else g.(marks := g.marks + {Slot(CancelPhase, k)});
    CancellableStays(g, h);
  }

  lemma PassJudgeAccounted(c: Config, g: Shared, now: int, rec: Record)
    requires ValidConfig(c) && StoreAccounted(c, g, now)
    requires Grows(g, PassJudge(c, g, now, rec).0)
    ensures var r := PassJudge(c, g, now, rec); StoreAccounted(c, r.0, now) && PassAccounted(c, r.0, now, r.1)
  {
    if Cancellable(g) { CancellableStays(g, PassJudge(c, g, now, rec).0); }
  }

  lemma PassCallAccounted(c: Config, g: Shared, now: int, success: bool, k: nat, attempts: nat, reply: Reply)
    requires Shaped(c, g) && StoreAccounted(c, g, now)
    requires PassOK(c, g, Calling(success, k, attempts)) && PassAccounted(c, g, now, Calling(success, k, attempts))
    ensures var r := PassCall(c, g, success, k, attempts, reply);
            StoreAccounted(c, r.0, now) && PassAccounted(c, r.0, now, r.1)
  {
    var h := PassCall(c, g, success, k, attempts, reply).0;
    if Cancellable(g) { CancellableStays(g, h); }
    StoreStaysAccounted(c, g, h, now, now);
  }

  lemma PassAccountedStep(c: Config, g: Shared, now: int, p: nat, pass: Pass, e: Event)
    requires ValidConfig(c) && Shaped(c, g) && StoreAccounted(c, g, now)
    requires PassOK(c, g, pass) && PassAccounted(c, g, now, pass) && PassEnabled(pass, e)
    requires Grows(g, PassStep(c, g, now, p, pass, e).0)
    ensures var r := PassStep(c, g, now, p, pass, e);
            StoreAccounted(c, r.0, now) && PassAccounted(c, r.0, now, r.1)
  {
    match pass
    case Judging(rec) => PassJudgeAccounted(c, g, now, rec);
    case Marking(success, k) => PassMarkAccounted(c, g, now, p, success, k, e.fault);
    case Calling(success, k, attempts) => PassCallAccounted(c, g, now, success, k, attempts, e.reply);
    case Noting(k) => PassNoteAccounted(c, g, now, k, e.failed);
    case Submitting(success, expiry) =>
      if Cancellable(g) { CancellableStays(g, PassSubmit(g, success, expiry, e.fault).0); }
    case Finished =>
    case _ => StoreStaysAccounted(c, g, PassStep(c, g, now, p, pass, e).0, now, now);
  }

  lemma StepAccounted(c: Config, s: State, st: Step)
    requires ValidConfig(c) && Sound(c, s) && Accounted(c, s) && Enabled(c, s, st)
    ensures Accounted(c, Apply(c, s, st))
  {
    var t := Apply(c, s, st);
    StepSound(c, s, st);
    match st {
      case Goroutine(i, e) => ThreadAccounted(c, s.sh, s.now, i, s.threads[i], e);
      case MovePass(p, e) =>
        assert PassOK(c, s.sh, s.passes[p]);
        PassAccountedStep(c, s.sh, s.now, p, s.passes[p], e);
      case _ => StoreStaysAccounted(c, s.sh, t.sh, s.now, t.now);
    }
    forall q | 0 <= q < |t.passes| ensures PassAccounted(c, t.sh, t.now, t.passes[q]) {
      if q < |s.passes| && t.passes[q] == s.passes[q] {
        PassStaysAccounted(c, s.sh, t.sh, s.now, t.now, s.passes[q]);
      }
    }
  }

  lemma {:induction false} RunAccounted(c: Config, s: State, steps: seq<Step>)
    requires ValidConfig(c) && Sound(c, s) && Accounted(c, s) && CanRun(c, s, steps)
    ensures Accounted(c, Run(c, s, steps))
    decreases |steps|
  {
    if steps != [] {
      StepAccounted(c, s, steps[0]);
      StepSound(c, s, steps[0]);
      RunAccounted(c, Apply(c, s, steps[0]), steps[1..]);
    }
  }

  lemma ExecutionAccounted(c: Config, cached: bool, steps: seq<Step>)
    requires IsExecution(c, cached, steps)
    ensures Accounted(c, FinalState(c, cached, steps)) && Sound(c, FinalState(c, cached, steps))
  {
    InitSound(c, cached);
    RunSound(c, Init(c, cached), steps);
    RunAccounted(c, Init(c, cached), steps);
  }

  // ---------------------------------------------------------------- a failed row

  /** Within the half hour, a failed row has every cancel mark, and there was a reason to cancel. */
  lemma FailedStatus(c: Config, cached: bool, steps: seq<Step>, j: nat)
    requires IsExecution(c, cached, steps) && j < |c.ids|
    requires FinalState(c, cached, steps).sh.row.status == Failure
    requires FinalState(c, cached, steps).now - 1800 <= c.createdAt
    ensures Slot(CancelPhase, j) in FinalState(c, cached, steps).sh.marks
    ensures Cancellable(FinalState(c, cached, steps).sh)
  {
    ExecutionAccounted(c, cached, steps);
  }

  // ---------------------------------------------------------------- finality

  /** Once final, the status stays through a step, or the transaction is past one of its deadlines. */
  lemma StatusKeptByStep(c: Config, s: State, st: Step)
    requires ValidConfig(c) && Sound(c, s) && Accounted(c, s) && Enabled(c, s, st)
    requires s.sh.row.status != Hanging
    ensures Apply(c, s, st).sh.row.status != Hanging
    ensures || Apply(c, s, st).sh.row.status == s.sh.row.status
            || (s.sh.lateVerdict && Overdue(c, s.now)) || Aged(c, s.now)
  {
    if st.MovePass? && s.passes[st.p].Submitting? {
      assert PassOK(c, s.sh, s.passes[st.p]) && PassAccounted(c, s.sh, s.now, s.passes[st.p]);
      if Committed(c, s.sh) { CommittedMeansNoRefusal(c, s.sh); }
    }
  }

  lemma {:induction false} StatusKeptByRun(c: Config, s: State, steps: seq<Step>)
    requires ValidConfig(c) && Sound(c, s) && Accounted(c, s) && CanRun(c, s, steps)
    requires s.sh.row.status != Hanging
    ensures var t := Run(c, s, steps);
            t.sh.row.status != Hanging && (t.sh.row.status == s.sh.row.status || t.sh.lateVerdict || Aged(c, t.now))
    decreases |steps|
  {
    if steps != [] {
      var t := Apply(c, s, steps[0]);
      StatusKeptByStep(c, s, steps[0]);
      StepSound(c, s, steps[0]);
      StepAccounted(c, s, steps[0]);
      StatusKeptByRun(c, t, steps[1..]);
      LateStays(c, t, steps[1..]);
    }
  }

  lemma {:induction false} LateStays(c: Config, s: State, steps: seq<Step>)
    requires ValidConfig(c) && Sound(c, s) && CanRun(c, s, steps)
    ensures Run(c, s, steps).now >= s.now
    ensures s.sh.lateVerdict ==> Run(c, s, steps).sh.lateVerdict
    decreases |steps|
  {
    if steps != [] {
      StepSound(c, s, steps[0]);
      LateStays(c, Apply(c, s, steps[0]), steps[1..]);
    }
  }

  /**
   A final status never returns to hanging, and it never changes into the other one unless a hanging
   snapshot was judged late or the transaction is past the half hour.
   */
  lemma StatusIsFinal(c: Config, cached: bool, pre: seq<Step>, post: seq<Step>)
    requires IsExecution(c, cached, pre) && IsExecution(c, cached, pre + post)
    requires FinalState(c, cached, pre).sh.row.status != Hanging
    ensures var s, t := FinalState(c, cached, pre), FinalState(c, cached, pre + post);
            t.sh.row.status != Hanging && (t.sh.row.status == s.sh.row.status || t.sh.lateVerdict || Aged(c, t.now))
  {
    RunAppend(c, Init(c, cached), pre, post);
    ExecutionAccounted(c, cached, pre);
    StatusKeptByRun(c, FinalState(c, cached, pre), post);
  }
}
