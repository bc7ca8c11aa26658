/**
 How many passes it takes to end with a status that no participant stands behind. The marks that keep
 a phase from running twice are set before the call, so a second pass takes a mark for a success; and
 one pass alone takes a Cancel that keeps failing for done.
 */
module TccPasses {
  import opened Common
  import opened TccModel
  import opened TccSoundness
  import opened TccClaims
  import opened TccStatus
  import opened TccScenarios
  import opened TccLimits

  // ---------------------------------------------------------------- one pass alone

  ghost predicate ConfirmedTo(g: Shared, n: nat) {
    forall i :: 0 <= i < n ==> Slot(ConfirmPhase, i) in g.log.acked
  }

  ghost predicate UnmarkedFrom(g: Shared, k: nat) {
    forall i: nat :: k <= i ==> Slot(ConfirmPhase, i) !in g.marks
  }

  /** What the only pass knows: the components behind it are confirmed, those ahead are unmarked. */
  ghost predicate SolePassOK(c: Config, g: Shared, p: Pass) {
    match p
    case Marking(success, k) => if success then ConfirmedTo(g, k) && UnmarkedFrom(g, k) else UnmarkedFrom(g, 0)
    case Calling(success, k, _) =>
      if success then ConfirmedTo(g, k) && UnmarkedFrom(g, k + 1) else UnmarkedFrom(g, 0)
    case Submitting(success, expiry) => SubmitOK(c, g, success, expiry)
    case Refreshing(success, expiry) => SubmitOK(c, g, success, expiry)
    case Republishing(success, expiry, _) => SubmitOK(c, g, success, expiry)
    case Finished => true
    case _ => UnmarkedFrom(g, 0)
  }

  ghost predicate SubmitOK(c: Config, g: Shared, success: bool, expiry: bool) {
    if success then !expiry && ConfirmedTo(g, |c.ids|) else UnmarkedFrom(g, 0)
  }

  ghost predicate Sole(c: Config, s: State) {
    && |s.passes| <= 1
    && (s.sh.row.status == Successful ==> ConfirmedTo(s.sh, |c.ids|))
    && (s.passes == [] ==> UnmarkedFrom(s.sh, 0) && s.sh.row.status == Hanging)
    && (s.passes != [] ==> SolePassOK(c, s.sh, s.passes[0]))
  }

  lemma SolePassStep(c: Config, g: Shared, now: int, pass: Pass, e: Event)
    requires c.ids != [] && SolePassOK(c, g, pass) && PassEnabled(pass, e)
    requires g.row.status == Successful ==> ConfirmedTo(g, |c.ids|)
    ensures var (h, q) := PassStep(c, g, now, 0, pass, e);
            SolePassOK(c, h, q) && (h.row.status == Successful ==> ConfirmedTo(h, |c.ids|))
  {
    match pass
    case Marking(success, k) => SoleMark(c, g, success, k, e.fault);
    case Calling(success, k, attempts) => SoleCall(c, g, success, k, attempts, e.reply);
    case _ =>
  }

  lemma SoleMark(c: Config, g: Shared, success: bool, k: nat, fault: Fault)
    requires SolePassOK(c, g, Marking(success, k))
    ensures var (h, q) := PassMark(c, g, 0, success, k, fault);
            SolePassOK(c, h, q) && h.row == g.row && h.log.acked == g.log.acked
  {}

  lemma SoleCall(c: Config, g: Shared, success: bool, k: nat, attempts: nat, reply: Reply)
    requires SolePassOK(c, g, Calling(success, k, attempts))
    ensures var (h, q) := PassCall(c, g, success, k, attempts, reply);
            SolePassOK(c, h, q) && h.row == g.row && h.log.acked >= g.log.acked
  {}

  lemma SoleThreadStep(c: Config, g: Shared, i: nat, t: Thread, e: Event)
    requires i < |c.ids| == |g.outcome| && ThreadEnabled(t, e)
    ensures var h := ThreadStep(c, g, i, t, e).0;
            && h.row.status == g.row.status && h.log.acked >= g.log.acked
            && forall j: nat :: Slot(ConfirmPhase, j) in h.marks ==> Slot(ConfirmPhase, j) in g.marks
  {}

  lemma SoleStep(c: Config, s: State, st: Step)
    requires ValidConfig(c) && Sole(c, s) && Enabled(c, s, st)
    ensures |Apply(c, s, st).passes| >= |s.passes|
    ensures |Apply(c, s, st).passes| <= 1 ==> Sole(c, Apply(c, s, st))
  {
    match st
    case Goroutine(i, e) => SoleThreadStep(c, s.sh, i, s.threads[i], e);
    case MovePass(p, e) => SolePassStep(c, s.sh, s.now, s.passes[0], e);
    case _ =>
  }

  lemma {:induction false} PassesStay(c: Config, s: State, steps: seq<Step>)
    requires CanRun(c, s, steps)
    ensures |Run(c, s, steps).passes| >= |s.passes|
    decreases |steps|
  {
    if steps != [] { PassesStay(c, Apply(c, s, steps[0]), steps[1..]); }
  }

  lemma {:induction false} SoleRun(c: Config, s: State, steps: seq<Step>)
    requires ValidConfig(c) && Sole(c, s) && CanRun(c, s, steps) && |Run(c, s, steps).passes| <= 1
    ensures Sole(c, Run(c, s, steps))
    decreases |steps|
  {
    if steps != [] {
      PassesStay(c, Apply(c, s, steps[0]), steps[1..]);
      SoleStep(c, s, steps[0]);
      SoleRun(c, Apply(c, s, steps[0]), steps[1..]);
    }
  }

  lemma ReachableIsSole(c: Config, s: State)
    requires Reachable(c, s) && |s.passes| <= 1
    ensures Sole(c, s)
  {
    var cached: bool, steps: seq<Step> :| IsExecution(c, cached, steps) && FinalState(c, cached, steps) == s;
    SoleRun(c, Init(c, cached), steps);
  }

  /** As long as a single pass has run, a successful row has every Confirm acknowledged. */
  lemma SuccessfulStatusConfirmed(c: Config, cached: bool, steps: seq<Step>, j: nat)
    requires IsExecution(c, cached, steps) && j < |c.ids|
    requires FinalState(c, cached, steps).sh.row.status == Successful && |FinalState(c, cached, steps).passes| <= 1
    ensures Slot(ConfirmPhase, j) in FinalState(c, cached, steps).sh.log.acked
  {
    SoleRun(c, Init(c, cached), steps);
  }

  // ---------------------------------------------------------------- what a failed row took, with one pass

  /** Acknowledged, or called three times without a single reply. */
  ghost predicate CancelDone(g: Shared, j: nat) {
    var o := Slot(CancelPhase, j);
    o in g.log.acked || (Count(g.log.calls, o) == 3 && Count(g.log.replies, o) == 0)
  }

  ghost predicate CancelsDone(g: Shared, n: nat) { forall j :: 0 <= j < n ==> CancelDone(g, j) }

  ghost predicate CancelUntouched(g: Shared, j: nat) {
    var o := Slot(CancelPhase, j);
    o !in g.marks && Count(g.log.calls, o) == 0 && Count(g.log.replies, o) == 0
  }

  ghost predicate CancelsAhead(g: Shared, k: nat) { forall j: nat :: k <= j ==> CancelUntouched(g, j) }

  /** The components behind the only pass are done with, the one at hand has had its errors, the rest is to come. */
  ghost predicate SoleCancelOK(c: Config, g: Shared, now: int, p: Pass) {
    match p
    case Marking(success, k) => if success then CancelsAhead(g, 0) else CancelsDone(g, k) && CancelsAhead(g, k)
    case Calling(success, k, attempts) =>
      if success then CancelsAhead(g, 0)
      else
        && CancelsDone(g, k) && CancelsAhead(g, k + 1)
        && Count(g.log.calls, Slot(CancelPhase, k)) == attempts < 3 && Count(g.log.replies, Slot(CancelPhase, k)) == 0
    case Noting(k) => CancelsDone(g, k + 1) && CancelsAhead(g, k + 1)
    case Submitting(success, expiry) => FailOK(c, g, now, success, expiry)
    case Refreshing(success, expiry) => FailOK(c, g, now, success, expiry)
    case Republishing(success, expiry, _) => FailOK(c, g, now, success, expiry)
    case Finished => true
    case _ => CancelsAhead(g, 0)
  }

  ghost predicate FailOK(c: Config, g: Shared, now: int, success: bool, expiry: bool) {
    if success || expiry then CancelsAhead(g, 0) && (!success ==> Aged(c, now)) else CancelsDone(g, |c.ids|)
  }

  ghost predicate RowCancelled(c: Config, g: Shared, now: int) {
    g.row.status == Failure ==> Aged(c, now) || CancelsDone(g, |c.ids|)
  }

  ghost predicate SoleCancel(c: Config, s: State) {
    && |s.passes| <= 1 && RowCancelled(c, s.sh, s.now)
    && (s.passes == [] ==> CancelsAhead(s.sh, 0))
    && (s.passes != [] ==> SoleCancelOK(c, s.sh, s.now, s.passes[0]))
  }

  lemma SoleCancelMark(c: Config, g: Shared, now: int, success: bool, k: nat, fault: Fault)
    requires SoleCancelOK(c, g, now, Marking(success, k))
    ensures var (h, q) := PassMark(c, g, 0, success, k, fault);
            SoleCancelOK(c, h, now, q) && h.row == g.row && (CancelsDone(g, |c.ids|) ==> CancelsDone(h, |c.ids|))
  {
    if !success { assert CancelUntouched(g, k); }
    var h := PassMark(c, g, 0, success, k, fault).0;
    assert h.log.calls == g.log.calls && h.log.replies == g.log.replies && h.log.acked == g.log.acked;
    assert forall j: nat :: CancelDone(g, j) ==> CancelDone(h, j);
    assert forall j: nat :: CancelUntouched(g, j) && (success || j != k) ==> CancelUntouched(h, j);
  }

  /** A step that leaves every cancel slot's mark and history alone. */
  ghost predicate SameCancels(g: Shared, h: Shared) {
    forall j: nat :: SameSlot(g, h, Slot(CancelPhase, j))
  }

  lemma SameCancelsKeep(c: Config, g: Shared, h: Shared, now: int, now': int, p: Pass)
    requires SameCancels(g, h) && now <= now'
    ensures forall n: nat :: CancelsDone(g, n) ==> CancelsDone(h, n)
    ensures forall k: nat :: CancelsAhead(g, k) ==> CancelsAhead(h, k)
    ensures SoleCancelOK(c, g, now, p) ==> SoleCancelOK(c, h, now', p)
  {
    forall j: nat ensures CancelDone(g, j) ==> CancelDone(h, j) { assert SameSlot(g, h, Slot(CancelPhase, j)); }
    forall j: nat ensures CancelUntouched(g, j) ==> CancelUntouched(h, j) {
      assert SameSlot(g, h, Slot(CancelPhase, j));
    }
    if p.Calling? { assert SameSlot(g, h, Slot(CancelPhase, p.k)); }
  }

  /** A Cancel call touches the history of its own slot only. */
  lemma CancelCall(c: Config, g: Shared, now: int, k: nat, attempts: nat, reply: Reply)
    requires SoleCancelOK(c, g, now, Calling(false, k, attempts))
    ensures var (h, q) := PassCall(c, g, false, k, attempts, reply); SoleCancelOK(c, h, now, q)
    ensures var h := PassCall(c, g, false, k, attempts, reply).0; forall j: nat :: CancelDone(g, j) ==> CancelDone(h, j)
  {
    var (h, q) := PassCall(c, g, false, k, attempts, reply);
    forall j: nat | j != k ensures SameSlot(g, h, Slot(CancelPhase, j)) {}
    forall j: nat ensures CancelDone(g, j) ==> CancelDone(h, j) {
      if j != k { assert SameSlot(g, h, Slot(CancelPhase, j)); }
    }
    forall j: nat | j != k ensures CancelUntouched(g, j) ==> CancelUntouched(h, j) {
      assert SameSlot(g, h, Slot(CancelPhase, j));
    }
    if q == Noting(k) || reply == Answered(true) { assert CancelDone(h, k); }
  }

  lemma SoleCancelCall(c: Config, g: Shared, now: int, success: bool, k: nat, attempts: nat, reply: Reply)
    requires SoleCancelOK(c, g, now, Calling(success, k, attempts))
    ensures var (h, q) := PassCall(c, g, success, k, attempts, reply);
            SoleCancelOK(c, h, now, q) && h.row == g.row && (CancelsDone(g, |c.ids|) ==> CancelsDone(h, |c.ids|))
  {
    var (h, q) := PassCall(c, g, success, k, attempts, reply);
    if success {
      assert SameCancels(g, h);
      SameCancelsKeep(c, g, h, now, now, q);
    } else {
      CancelCall(c, g, now, k, attempts, reply);
    }
  }

  lemma PassLeavesCancels(c: Config, g: Shared, now: int, pass: Pass, e: Event)
    requires PassEnabled(pass, e) && !pass.Marking? && !pass.Calling? && !pass.Noting?
    ensures var h := PassStep(c, g, now, 0, pass, e).0; h.marks == g.marks && h.log == g.log
  {}

  lemma SoleCancelNote(c: Config, g: Shared, now: int, k: nat, failed: bool)
    requires SoleCancelOK(c, g, now, Noting(k))
    ensures var h := if failed then g else g.(marks := g.marks + {Slot(CancelPhase, k)});
            && SoleCancelOK(c, h, now, AtComponent(c, false, k + 1))
            && forall n: nat :: CancelsDone(g, n) ==> CancelsDone(h, n)
  {
    var h := if failed then g else g.(marks := g.marks + {Slot(CancelPhase, k)});
    assert forall j: nat :: CancelDone(g, j) ==> CancelDone(h, j);
    assert forall j: nat :: CancelUntouched(g, j) && j != k ==> CancelUntouched(h, j);
  }

  lemma SoleCancelPass(c: Config, g: Shared, now: int, pass: Pass, e: Event)
    requires c.ids != [] && SoleCancelOK(c, g, now, pass) && PassEnabled(pass, e) && RowCancelled(c, g, now)
    ensures var (h, q) := PassStep(c, g, now, 0, pass, e); SoleCancelOK(c, h, now, q) && RowCancelled(c, h, now)
  {
    var (h, q) := PassStep(c, g, now, 0, pass, e);
    match pass
    case Marking(success, k) => SoleCancelMark(c, g, now, success, k, e.fault);
    case Calling(success, k, attempts) => SoleCancelCall(c, g, now, success, k, attempts, e.reply);
    case Noting(k) => SoleCancelNote(c, g, now, k, e.failed);
    case Finished =>
    case _ =>
      PassLeavesCancels(c, g, now, pass, e);
      assert SameCancels(g, h);
      SameCancelsKeep(c, g, h, now, now, q);
  }

  lemma ThreadLeavesCancels(c: Config, g: Shared, i: nat, t: Thread, e: Event)
    requires i < |c.ids| == |g.outcome| && ThreadEnabled(t, e)
    ensures var h := ThreadStep(c, g, i, t, e).0; h.row.status == g.row.status && SameCancels(g, h)
  {
    ThreadDid(c, g, i, t, e);
    var r := ThreadStep(c, g, i, t, e);
    forall j: nat ensures SameSlot(g, r.0, Slot(CancelPhase, j)) {
      DidFrames(g, r.0, ByGoroutine(i), ThreadJob(i, t), ThreadJob(i, r.1), ThreadEffect(g, i, t, e),
                Slot(CancelPhase, j));
    }
  }

  /** A pass that stops has its call given up; nothing else of a cancel slot changes. */
  lemma StopKeepsDone(g: Shared, pass: Pass, n: nat)
    requires CancelsDone(g, n)
    ensures CancelsDone(PassStopped(g, pass), n)
  {
    forall j | 0 <= j < n ensures CancelDone(PassStopped(g, pass), j) { assert CancelDone(g, j); }
  }

  lemma SoleCancelStep(c: Config, s: State, st: Step)
    requires ValidConfig(c) && SoleCancel(c, s) && Enabled(c, s, st)
    ensures |Apply(c, s, st).passes| <= 1 ==> SoleCancel(c, Apply(c, s, st))
  {
    var h, now := Apply(c, s, st).sh, Apply(c, s, st).now;
    match st
    case MovePass(p, e) => SoleCancelPass(c, s.sh, s.now, s.passes[0], e);
    case StopPass(p) => if CancelsDone(s.sh, |c.ids|) { StopKeepsDone(s.sh, s.passes[p], |c.ids|); }
    case Goroutine(i, e) =>
      ThreadLeavesCancels(c, s.sh, i, s.threads[i], e);
      SameCancelsKeep(c, s.sh, h, s.now, now, if s.passes == [] then Finished else s.passes[0]);
    case _ =>
      assert SameCancels(s.sh, h);
      SameCancelsKeep(c, s.sh, h, s.now, now, if s.passes == [] then Finished else s.passes[0]);
  }

  lemma {:induction false} SoleCancelRun(c: Config, s: State, steps: seq<Step>)
    requires ValidConfig(c) && SoleCancel(c, s) && CanRun(c, s, steps) && |Run(c, s, steps).passes| <= 1
    ensures SoleCancel(c, Run(c, s, steps))
    decreases |steps|
  {
    if steps != [] {
      PassesStay(c, Apply(c, s, steps[0]), steps[1..]);
      SoleCancelStep(c, s, steps[0]);
      SoleCancelRun(c, Apply(c, s, steps[0]), steps[1..]);
    }
  }

  /**
   As long as a single pass has run, a failed row that is not too old has, for every component, a Cancel
   that was acknowledged, or three that erred without a reply. A Cancel that was refused is never passed over.
   */
  lemma FailedStatusCancelled(c: Config, cached: bool, steps: seq<Step>, j: nat)
    requires IsExecution(c, cached, steps) && j < |c.ids|
    requires FinalState(c, cached, steps).sh.row.status == Failure && |FinalState(c, cached, steps).passes| <= 1
    requires FinalState(c, cached, steps).now - 1800 <= c.createdAt
    ensures var log := FinalState(c, cached, steps).sh.log;
            || Slot(CancelPhase, j) in log.acked
            || (Count(log.calls, Slot(CancelPhase, j)) == 3 && Count(log.replies, Slot(CancelPhase, j)) == 0)
  {
    SoleCancelRun(c, Init(c, cached), steps);
    assert CancelDone(FinalState(c, cached, steps).sh, j);
  }

  // ---------------------------------------------------------------- two passes

  ghost predicate UnconfirmedSuccess(c: Config, s: State, n: nat) {
    && Reachable(c, s) && |s.passes| <= n && s.sh.row.status == Successful
    && exists j :: 0 <= j < |c.ids| && Slot(ConfirmPhase, j) !in s.sh.log.acked
  }

  /** The first pass gives the first component up; the second goes past its mark and submits. */
  lemma SecondPassSubmits(c: Config) returns (s: State)
    requires ValidConfig(c)
    ensures Reachable(c, s) && |s.passes| == 2 && s.sh.row.status == Successful
    ensures Slot(ConfirmPhase, 0) !in s.sh.log.acked
    ensures forall j :: 1 <= j < |c.ids| ==> Slot(ConfirmPhase, j) in s.sh.log.acked
  {
    s := NothingConfirmed(c);
    s := MonitorSkips(c, s, 0);
    s := GivenUp(c, s, 0, 0);
    s := MonitorSkips(c, s, 1);
    ReachableIsSound(c, s);
    assert SlotOK(s.sh, Slot(ConfirmPhase, 0));
    s := PhasesAll(c, s, 1, true, 1, 1);
    s := Then(c, s, MovePass(1, WriteRow(NoFault)));
  }

  /** A successful row can lack a Confirm exactly when two passes have been started. */
  lemma UnconfirmedSuccessIff(c: Config, n: nat)
    requires ValidConfig(c)
    ensures (exists s :: UnconfirmedSuccess(c, s, n)) <==> n >= 2
  {
    forall s | UnconfirmedSuccess(c, s, n) ensures n >= 2 {
      if n <= 1 { ReachableIsSole(c, s); }
    }
    if n >= 2 {
      var s := SecondPassSubmits(c);
      assert UnconfirmedSuccess(c, s, n);
    }
  }

  // ---------------------------------------------------------------- a Cancel that keeps failing

  /** The first Try is refused and its goroutine has the edited record in hand. */
  lemma FirstRefused(c: Config) returns (s: State)
    requires ValidConfig(c)
    ensures Reachable(c, s) && s.now == c.createdAt && s.passes == [] && s.caller == Waiting
    ensures |s.threads| == |s.sh.outcome| == |c.ids| && s.sh.row == Init(c, true).sh.row && s.sh.cache == Some(s.sh.row)
    ensures s.threads[0] == Writing(false, Edited(c, s.sh.row, 0, false))
    ensures forall o :: o in s.sh.marks ==> o.phase == TryPhase
  {
    ReachInit(c);
    s := Then(c, Init(c, true), Goroutine(0, Mark(NoFault)));
    s := Then(c, s, Goroutine(0, Call(Answered(false))));
    s := Then(c, s, Goroutine(0, ReadCache(false)));
  }

  /** The refusal is on record; the caller's pass has found it and is about to cancel. */
  lemma RefusalJudged(c: Config) returns (s: State)
    requires ValidConfig(c)
    ensures Reachable(c, s) && s.now == c.createdAt
    ensures s.passes == [Marking(false, 0)] && s.caller == Advancing(false, 0)
    ensures s.sh.cache.Some? && forall o :: o in s.sh.marks ==> o.phase == TryPhase
  {
    var s0 := FirstRefused(c);
    var rec := Edited(c, s0.sh.row, 0, false);
    SetStatusAt(s0.sh.row.components, c.ids[0], Failure, 0);
    assert rec.components[0].status == Failure;
    s := RefusalWritten(c, s0, rec);
    s := CallerReads(c, s, false);
    s := Judged(c, s, 0);
  }

  lemma RefusalWritten(c: Config, s0: State, rec: Record) returns (s: State)
    requires Reachable(c, s0) && 0 < |c.ids| == |s0.threads| == |s0.sh.outcome| && s0.threads[0] == Writing(false, rec)
    ensures Reachable(c, s) && s.now == s0.now && s.passes == s0.passes && s.caller == s0.caller
    ensures |s.threads| == |s0.threads| && s.threads[0] == Ended(true)
    ensures s.sh.cache == Some(rec) && s.sh.marks == s0.sh.marks
  {
    s := Then(c, s0, Goroutine(0, WriteRow(NoFault)));
    s := Then(c, s, Goroutine(0, WriteCache(false)));
  }

  /** Three failing Cancel calls count as done: the pass notes the mark and goes on. */
  lemma Swallowed(c: Config, s0: State, p: nat, k: nat) returns (s: State)
    requires Reachable(c, s0) && p < |s0.passes| && s0.passes[p] == Marking(false, k)
    requires Slot(CancelPhase, k) !in s0.sh.marks
    ensures Reachable(c, s) && s.passes == s0.passes[p := AtComponent(c, false, k + 1)]
    ensures s == s0.(sh := s0.sh.(marks := s0.sh.marks + {Slot(CancelPhase, k)}, log := s.sh.log), passes := s.passes)
    ensures s.sh.log.acked == s0.sh.log.acked
  {
    s := Then(c, s0, MovePass(p, Mark(NoFault)));
    s := ThriceErrored(c, s, p, k);
    s := Then(c, s, MovePass(p, Note(false)));
  }

  lemma ThriceErrored(c: Config, s0: State, p: nat, k: nat) returns (s: State)
    requires Reachable(c, s0) && p < |s0.passes| && s0.passes[p] == Calling(false, k, 0)
    ensures Reachable(c, s) && s.passes == s0.passes[p := Noting(k)]
    ensures s == s0.(sh := s0.sh.(log := s.sh.log), passes := s.passes) && s.sh.log.acked == s0.sh.log.acked
  {
    s := Then(c, s0, MovePass(p, Call(Errored)));
    s := Then(c, s, MovePass(p, Call(Errored)));
    s := Then(c, s, MovePass(p, Call(Errored)));
  }

  lemma {:induction false} SwallowsAll(c: Config, s0: State, k: nat) returns (s: State)
    requires Reachable(c, s0) && k <= |c.ids| && s0.passes == [AtComponent(c, false, k)]
    requires forall o: Slot :: o.phase == CancelPhase && o.component >= k ==> o !in s0.sh.marks
    ensures Reachable(c, s) && s.passes == [Submitting(false, false)]
    ensures s == s0.(sh := s0.sh.(marks := s.sh.marks, log := s.sh.log), passes := s.passes)
    ensures s.sh.log.acked == s0.sh.log.acked
    decreases |c.ids| - k
  {
    s := s0;
    if k < |c.ids| {
      s := Swallowed(c, s0, 0, k);
      s := SwallowsAll(c, s, k + 1);
    }
  }

  /** One pass, within every deadline: the row is failed, and no Cancel was ever acknowledged. */
  lemma FailedWithoutCancel(c: Config) returns (s: State)
    requires ValidConfig(c)
    ensures Reachable(c, s) && |s.passes| == 1 && s.now == c.createdAt
    ensures s.caller == Returned(false) && s.sh.row.status == Failure && CancelMarked(s.sh, |c.ids|)
    ensures forall j: nat :: Slot(CancelPhase, j) !in s.sh.log.acked
  {
    s := RefusalJudged(c);
    ReachableIsSound(c, s);
    forall j: nat ensures Slot(CancelPhase, j) !in s.sh.log.acked { assert SlotOK(s.sh, Slot(CancelPhase, j)); }
    s := SwallowsAll(c, s, 0);
    s := SubmittedBy(c, s, 0, false);
    s := Then(c, s, Return);
    ReachableIsSound(c, s);
  }

  ghost predicate UncancelledFailure(c: Config, s: State, n: nat) {
    && Reachable(c, s) && |s.passes| <= n && s.sh.row.status == Failure && !Aged(c, s.now)
    && exists j :: 0 <= j < |c.ids| && Slot(CancelPhase, j) !in s.sh.log.acked
  }

  /** A failed row can lack a Cancel, however young it is, exactly when any pass has been started. */
  lemma UncancelledFailureIff(c: Config, n: nat)
    requires ValidConfig(c)
    ensures (exists s :: UncancelledFailure(c, s, n)) <==> n >= 1
  {
    forall s | UncancelledFailure(c, s, n) ensures n >= 1 {
      if n == 0 { ReachableIsSole(c, s); }
    }
    if n >= 1 {
      var s := FailedWithoutCancel(c);
      assert Slot(CancelPhase, 0) !in s.sh.log.acked;
      assert UncancelledFailure(c, s, n);
    }
  }
}
