/**
 Where the guarantees stop. Each witness builds, for every configuration, an execution in which a
 stronger property that one might expect of the protocol fails; each "iff" says exactly when.
 */
module TccLimits {
  import opened Common
  import opened TccModel
  import opened TccSoundness
  import opened TccClaims
  import opened TccTheorems
  import opened TccStatus
  import opened TccScenarios

  /** Every invariant holds of every reachable state. */
  lemma ReachableIsSound(c: Config, s: State)
    requires Reachable(c, s)
    ensures ValidConfig(c) && Sound(c, s) && Claimed(s) && Accounted(c, s)
  {
    var cached: bool, steps: seq<Step> :| IsExecution(c, cached, steps) && FinalState(c, cached, steps) == s;
    ExecutionAccounted(c, cached, steps);
    ExecutionClaimed(c, cached, steps);
  }

  lemma AckedWasCalled(s: State, o: Slot)
    requires Claimed(s) && o in s.sh.log.acked
    ensures Count(s.sh.log.calls, o) > 0
  {
    assert SlotOK(s.sh, o);
  }

  // ---------------------------------------------------------------- deadlines

  /** A monitor read the record before any Try was recorded, and judges it only at a later time. */
  lemma StaleMonitor(c: Config, at: int) returns (s: State)
    requires ValidConfig(c) && c.createdAt <= at
    ensures Reachable(c, s) && Serial(c, s, 0, false) && s.now == at && !s.sh.lateVerdict
    ensures s.passes == [Judging(s.sh.row)]
  {
    ReachInit(c);
    InitSerial(c);
    s := MonitorReads(c, Init(c, true));
    s := Then(c, s, Tick(at - c.createdAt));
  }

  lemma VerdictOnUntried(c: Config, s: State)
    requires ValidConfig(c) && Serial(c, s, 0, false)
    ensures Verdict(s.sh.row.components, c.createdAt, s.now - c.timeout) ==
            if Overdue(c, s.now) then Failure else Hanging
  {
    assert s.sh.row.components[0].status == Hanging;
    assert !HasFailure(s.sh.row.components);
  }

  /** A row that is successful and confirmed everywhere, with a pass about to cancel it. */
  lemma CommittedThenJudged(c: Config, at: int) returns (s: State)
    requires ValidConfig(c) && c.createdAt <= at && Overdue(c, at)
    ensures Reachable(c, s) && CommittedState(c, s) && s.now == at && s.passes == [Marking(false, 0), Finished]
  {
    var s0 := StaleMonitor(c, at);
    VerdictOnUntried(c, s0);
    s := Commits(c, s0);
    s := Judged(c, s, 0);
  }

  /** As late as the timeout allows a verdict: confirmed everywhere, then cancelled everywhere. */
  lemma CommittedThenCancelled(c: Config, at: int) returns (s: State)
    requires ValidConfig(c) && c.createdAt <= at && Overdue(c, at)
    ensures Reachable(c, s) && s.now == at && s.caller == Returned(true) && s.sh.row.status == Successful
    ensures forall j :: 0 <= j < |c.ids| ==>
              Slot(ConfirmPhase, j) in s.sh.log.acked && Slot(CancelPhase, j) in s.sh.log.acked
    ensures s.passes == [Submitting(false, false), Finished]
  {
    var s0 := CommittedThenJudged(c, at);
    s := PhasesAll(c, s0, 0, false, 0, 0);
    assert s.passes == [Submitting(false, false), Finished];
  }

  /** A row that is successful and confirmed everywhere, with an expiry about to be written. */
  lemma CommittedThenExpired(c: Config, at: int) returns (s: State)
    requires ValidConfig(c) && Aged(c, at)
    ensures Reachable(c, s) && CommittedState(c, s) && s.now == at && !s.sh.lateVerdict
    ensures s.passes == [Submitting(false, true), Finished]
  {
    ReachInit(c);
    InitSerial(c);
    s := Then(c, Init(c, true), Tick(at - c.createdAt));
    s := Then(c, s, StartPass);
    s := Commits(c, s);
  }

  ghost predicate BothPhases(s: State, i: nat, j: nat) {
    Count(s.sh.log.calls, Slot(ConfirmPhase, i)) > 0 && Count(s.sh.log.calls, Slot(CancelPhase, j)) > 0
  }

  ghost predicate BothBy(c: Config, s: State, at: int) {
    Reachable(c, s) && s.now == at && exists i, j :: BothPhases(s, i, j)
  }

  /** Confirm and Cancel can both have been called exactly from the moment the timeout has passed. */
  lemma BothPhasesIff(c: Config, at: int)
    requires ValidConfig(c) && c.createdAt <= at
    ensures (exists s :: BothBy(c, s, at)) <==> Overdue(c, at)
  {
    forall s | BothBy(c, s, at) ensures Overdue(c, at) {
      ReachableIsSound(c, s);
      var i, j :| BothPhases(s, i, j);
      CommittedMeansNoRefusal(c, s.sh);
    }
    if Overdue(c, at) {
      var s := CommittedThenCancelled(c, at);
      ReachableIsSound(c, s);
      AckedWasCalled(s, Slot(ConfirmPhase, 0));
      AckedWasCalled(s, Slot(CancelPhase, 0));
      assert BothPhases(s, 0, 0);
      assert BothBy(c, s, at);
    }
  }

  ghost predicate CancelledAfterTrue(c: Config, s: State, at: int) {
    Reachable(c, s) && s.now == at && s.caller == Returned(true) &&
    exists j: nat :: Count(s.sh.log.calls, Slot(CancelPhase, j)) > 0
  }

  /** A transaction whose caller was told true can have been cancelled exactly from that moment on. */
  lemma CancelledAfterTrueIff(c: Config, at: int)
    requires ValidConfig(c) && c.createdAt <= at
    ensures (exists s :: CancelledAfterTrue(c, s, at)) <==> Overdue(c, at)
  {
    forall s | CancelledAfterTrue(c, s, at) ensures Overdue(c, at) {
      ReachableIsSound(c, s);
      TrueMeansCommitted(c, s);
    }
    if Overdue(c, at) {
      var s := CommittedThenCancelled(c, at);
      ReachableIsSound(c, s);
      AckedWasCalled(s, Slot(CancelPhase, 0));
      assert CancelledAfterTrue(c, s, at);
    }
  }

  ghost predicate FailedUncancelled(c: Config, s: State, at: int) {
    Reachable(c, s) && s.now == at && s.sh.row.status == Failure && !CancelMarked(s.sh, |c.ids|)
  }

  /** Answered true and confirmed everywhere, and after half an hour failed without any Cancel. */
  lemma ExpiredWithoutCancel(c: Config, at: int) returns (s: State)
    requires ValidConfig(c) && Aged(c, at)
    ensures Reachable(c, s) && s.now == at && s.caller == Returned(true) && s.sh.row.status == Failure
    ensures forall j :: 0 <= j < |c.ids| ==>
            Slot(ConfirmPhase, j) in s.sh.log.acked && Slot(CancelPhase, j) !in s.sh.marks
  {
    s := CommittedThenExpired(c, at);
    s := Then(c, s, MovePass(0, WriteRow(NoFault)));
  }

  /** A failed row can lack a cancel mark exactly when the transaction is older than the half hour. */
  lemma FailedUncancelledIff(c: Config, at: int)
    requires ValidConfig(c)
    ensures (exists s :: FailedUncancelled(c, s, at)) <==> Aged(c, at)
  {
    forall s | FailedUncancelled(c, s, at) ensures Aged(c, at) { ReachableIsSound(c, s); }
    if Aged(c, at) {
      var s := ExpiredWithoutCancel(c, at);
      assert Slot(CancelPhase, 0) !in s.sh.marks;
      assert FailedUncancelled(c, s, at);
    }
  }

  ghost predicate Flips(c: Config, s: State, st: Step, at: int) {
    && Reachable(c, s) && Enabled(c, s, st) && s.now == at
    && s.sh.row.status != Hanging && Apply(c, s, st).sh.row.status != s.sh.row.status
  }

  /** Even a committed row flips: a pass that judged late, or gave the transaction up, writes last. */
  lemma CommittedRowFlips(c: Config, at: int) returns (s: State)
    requires ValidConfig(c) && c.createdAt <= at && (Overdue(c, at) || Aged(c, at))
    ensures Flips(c, s, MovePass(0, WriteRow(NoFault)), at)
    ensures s.caller == Returned(true) && s.sh.row.status == Successful
    ensures forall j :: 0 <= j < |c.ids| ==> Slot(ConfirmPhase, j) in s.sh.log.acked
  {
    if Aged(c, at) { s := CommittedThenExpired(c, at); } else { s := CommittedThenCancelled(c, at); }
  }

  /** A final status can change exactly when the timeout or the half hour has passed. */
  lemma StatusFlipsIff(c: Config, at: int)
    requires ValidConfig(c) && c.createdAt <= at
    ensures (exists s, st :: Flips(c, s, st, at)) <==> Overdue(c, at) || Aged(c, at)
  {
    forall s, st | Flips(c, s, st, at) ensures Overdue(c, at) || Aged(c, at) {
      ReachableIsSound(c, s);
      StatusKeptByStep(c, s, st);
    }
    if Overdue(c, at) || Aged(c, at) {
      var s := CommittedRowFlips(c, at);
      assert Flips(c, s, MovePass(0, WriteRow(NoFault)), at);
    }
  }

  // ---------------------------------------------------------------- successful without a Confirm

  /** A pass goes past components that are marked already. */
  lemma {:induction false} SkipsTo(c: Config, s0: State, p: nat, k: nat, n: nat) returns (s: State)
    requires Reachable(c, s0) && k <= n <= |c.ids| && p < |s0.passes| && s0.passes[p] == AtComponent(c, true, k)
    requires forall j :: k <= j < n ==> Slot(ConfirmPhase, j) in s0.sh.marks
    ensures Reachable(c, s) && s == s0.(passes := s0.passes[p := AtComponent(c, true, n)])
    decreases n - k
  {
    s := s0;
    if k < n {
      s := Then(c, s0, MovePass(p, Mark(NoFault)));
      s := SkipsTo(c, s, p, k + 1, n);
    }
    assert s.passes == s0.passes[p := AtComponent(c, true, n)];
  }

  /** Three failing Confirm calls: the mark stays, the pass ends. */
  lemma GivenUp(c: Config, s0: State, p: nat, k: nat) returns (s: State)
    requires Reachable(c, s0) && p < |s0.passes| && s0.passes[p] == Marking(true, k)
    requires Slot(ConfirmPhase, k) !in s0.sh.marks
    ensures Reachable(c, s) && s.passes == s0.passes[p := Finished]
    ensures s == s0.(sh := s0.sh.(marks := s0.sh.marks + {Slot(ConfirmPhase, k)}, log := s.sh.log), passes := s.passes)
    ensures s.sh.log.replies == s0.sh.log.replies
  {
    s := Then(c, s0, MovePass(p, Mark(NoFault)));
    s := Then(c, s, MovePass(p, Call(Errored)));
    s := Then(c, s, MovePass(p, Call(Errored)));
    s := Then(c, s, MovePass(p, Call(Errored)));
  }

  /** Every Try recorded; the first k Confirms have a mark, none was ever answered. */
  ghost predicate Abandoned(c: Config, s: State, k: nat) {
    && k <= |c.ids| && s.now == c.createdAt
    && s.sh.row.status == Hanging && AllSuccessful(s.sh.row.components)
    && (forall j :: 0 <= j < |c.ids| ==> (Slot(ConfirmPhase, j) in s.sh.marks <==> j < k))
    && (forall j: nat :: Count(s.sh.log.replies, Slot(ConfirmPhase, j)) == 0)
  }

  /** One more monitor pass, up to the first component without a mark. */
  lemma MonitorSkips(c: Config, s0: State, k: nat) returns (s: State)
    requires Reachable(c, s0) && Abandoned(c, s0, k)
    ensures Reachable(c, s) && s == s0.(passes := s0.passes + [AtComponent(c, true, k)])
  {
    ReachableIsSound(c, s0);
    s := MonitorReads(c, s0);
    assert !HasFailure(s0.sh.row.components);
    s := Judged(c, s, |s0.passes|);
    s := SkipsTo(c, s, |s0.passes|, 0, k);
    assert s.passes == s0.passes + [AtComponent(c, true, k)];
  }

  lemma {:induction false} AbandonsAll(c: Config, s0: State, k: nat) returns (s: State)
    requires Reachable(c, s0) && Abandoned(c, s0, k)
    ensures Reachable(c, s) && Abandoned(c, s, |c.ids|)
    decreases |c.ids| - k
  {
    s := s0;
    if k < |c.ids| {
      s := MonitorSkips(c, s0, k);
      s := GivenUp(c, s, |s0.passes|, k);
      s := AbandonsAll(c, s, k + 1);
    }
  }

  lemma NothingConfirmed(c: Config) returns (s: State)
    requires ValidConfig(c)
    ensures Reachable(c, s) && Abandoned(c, s, 0) && s.passes == [] && s.sh.cache.Some?
  {
    ReachInit(c);
    InitSerial(c);
    s := SerialTries(c, Init(c, true), 0, |c.ids|, false);
    ReachableIsSound(c, s);
    forall j: nat ensures Count(s.sh.log.replies, Slot(ConfirmPhase, j)) == 0 {
      assert SlotOK(s.sh, Slot(ConfirmPhase, j));
    }
  }

  /** The row says successful, yet no Confirm call of any component ever returned without error. */
  lemma SuccessfulWithoutConfirm(c: Config) returns (s: State)
    requires ValidConfig(c)
    ensures Reachable(c, s) && s.sh.row.status == Successful
    ensures forall j: nat :: Count(s.sh.log.replies, Slot(ConfirmPhase, j)) == 0
  {
    s := NothingConfirmed(c);
    s := AbandonsAll(c, s, 0);
    var p := |s.passes|;
    s := MonitorSkips(c, s, |c.ids|);
    s := Then(c, s, MovePass(p, WriteRow(NoFault)));
  }

  // ---------------------------------------------------------------- confirmed after false

  /** The last goroutine's row write is applied but reported as an error; Redis drops its copy. */
  lemma LastReplyLost(c: Config) returns (s: State)
    requires ValidConfig(c)
    ensures Reachable(c, s) && s.passes == [] && s.caller == Waiting && s.sh.cache == None
    ensures AllSuccessful(s.sh.row.components) && (forall o :: o in s.sh.marks ==> o.phase == TryPhase)
    ensures |s.threads| == |c.ids| && s.threads[|c.ids| - 1] == Ended(true)
  {
    ReachInit(c);
    InitSerial(c);
    var last := |c.ids| - 1;
    var s0 := SerialTries(c, Init(c, true), 0, last, false);
    s := Tried(c, s0, last);
    s := WriteLost(c, s, last);
    SetStatusAt(s0.sh.row.components, c.ids[last], Successful, last);
  }

  lemma WriteLost(c: Config, s0: State, i: nat) returns (s: State)
    requires Reachable(c, s0) && i < |c.ids| == |s0.threads| == |s0.sh.outcome|
    requires s0.threads[i] == Reading(true) && s0.sh.cache == Some(s0.sh.row)
    ensures Reachable(c, s) && s.threads == s0.threads[i := Ended(true)]
    ensures s.passes == s0.passes && s.caller == s0.caller
    ensures s.sh.row == Edited(c, s0.sh.row, i, true) && s.sh.cache == None && s.sh.marks == s0.sh.marks
  {
    s := Then(c, s0, Goroutine(i, ReadCache(false)));
    s := Then(c, s, Goroutine(i, WriteRow(ErrorApplied)));
    s := Then(c, s, Evict);
  }

  /** The caller's pass finds no copy in Redis and reads the row. */
  lemma CallerReadsRow(c: Config, s0: State) returns (s: State)
    requires Reachable(c, s0) && s0.passes == [] && s0.sh.cache == None && Enabled(c, s0, Decide(false))
    ensures Reachable(c, s)
    ensures s ==
            s0.(sh := s0.sh.(cache := Some(s0.sh.row)), passes := [Judging(s0.sh.row)], caller := Advancing(false, 0))
  {
    s := Then(c, s0, Decide(false));
    s := Then(c, s, MovePass(0, ReadCache(false)));
    s := Then(c, s, MovePass(0, ReadRow(false)));
    s := Then(c, s, MovePass(0, WriteCache(false)));
  }

  /** twoPhaseCommit answered false, but the row write it gave up on had been applied. */
  lemma LostReplyConfirmsAfterFalse(c: Config) returns (s: State)
    requires ValidConfig(c)
    ensures Reachable(c, s) && s.caller == Returned(false) && s.sh.row.status == Successful
    ensures forall j :: 0 <= j < |c.ids| ==> Slot(ConfirmPhase, j) in s.sh.log.acked
  {
    s := LastReplyLost(c);
    s := CallerReadsRow(c, s);
    s := ConfirmedBy(c, s, 0);
    s := Then(c, s, Return);
  }
}
