/** What every execution of the protocol guarantees. */
module TccTheorems {
  import opened Common
  import opened TccModel
  import opened TccSoundness
  import opened TccClaims

  // ---------------------------------------------------------------- every copy is sound

  /** A copy of the record that exists somewhere: stored, or held by an actor. */
  ghost predicate Copy(s: State, rec: Record) {
    || rec == s.sh.row
    || Some(rec) == s.sh.cache
    || (exists i :: 0 <= i < |s.threads| && (s.threads[i].Writing? || s.threads[i].Caching?) && s.threads[i].rec == rec)
    || (exists p :: 0 <= p < |s.passes| && HoldsRecord(s.passes[p], rec))
  }

  ghost predicate HoldsRecord(p: Pass, rec: Record) {
    (p.Filling? || p.Judging? || p.Republishing?) && p.rec == rec
  }

  lemma RecordIsSound(c: Config, g: Shared, rec: Record, i: nat)
    requires Shaped(c, g) && RecordOK(c, g, rec) && i < |c.ids|
    ensures rec.components[i].id == c.ids[i]
    ensures rec.components[i].status == Successful ==> g.outcome[i] == Acked
    ensures rec.components[i].status == Failure ==> g.outcome[i] == Refused
  {
    assert EntryOK(c, g, i, rec.components[i]);
  }

  lemma CopyCases(c: Config, s: State, rec: Record)
    requires Sound(c, s) && Copy(s, rec)
    ensures || RecordOK(c, s.sh, rec)
            || exists k :: 0 <= k < |s.threads| && s.threads[k].Writing? && s.threads[k].rec == rec
  {
    forall k | 0 <= k < |s.threads| && s.threads[k].Caching? ensures RecordOK(c, s.sh, s.threads[k].rec) {
      assert ThreadOK(c, s.sh, k, s.threads[k]);
    }
    forall p | 0 <= p < |s.passes| && HoldsRecord(s.passes[p], rec) ensures RecordOK(c, s.sh, rec) {
      assert PassOK(c, s.sh, s.passes[p]);
    }
  }

  /** No copy, however stale, misreports a Try. */
  lemma EveryCopyIsSound(c: Config, cached: bool, steps: seq<Step>, rec: Record, i: nat)
    requires IsExecution(c, cached, steps) && i < |c.ids|
    requires Copy(FinalState(c, cached, steps), rec)
    ensures |FinalState(c, cached, steps).sh.outcome| == |rec.components| == |c.ids|
    ensures rec.components[i].id == c.ids[i]
    ensures rec.components[i].status == Successful ==> FinalState(c, cached, steps).sh.outcome[i] == Acked
    ensures rec.components[i].status == Failure ==> FinalState(c, cached, steps).sh.outcome[i] == Refused
  {
    var s := FinalState(c, cached, steps);
    ExecutionSound(c, cached, steps);
    CopyCases(c, s, rec);
    if RecordOK(c, s.sh, rec) {
      RecordIsSound(c, s.sh, rec, i);
    } else {
      var k :| 0 <= k < |s.threads| && s.threads[k].Writing? && s.threads[k].rec == rec;
      assert ThreadOK(c, s.sh, k, s.threads[k]);
      if i != k { assert EntryOK(c, s.sh, i, rec.components[i]); }
    }
  }

  /** Confirm is never called unless every Try was acknowledged. */
  lemma ConfirmNeedsEveryTry(c: Config, cached: bool, steps: seq<Step>, i: nat, j: nat)
    requires IsExecution(c, cached, steps) && j < |c.ids|
    requires Count(FinalState(c, cached, steps).sh.log.calls, Slot(ConfirmPhase, i)) > 0
    ensures |FinalState(c, cached, steps).sh.outcome| == |c.ids|
    ensures FinalState(c, cached, steps).sh.outcome[j] == Acked
  {
    ExecutionSound(c, cached, steps);
    assert Recorded(FinalState(c, cached, steps).sh, j);
  }

  // ---------------------------------------------------------------- the row stays successful

  lemma RowKeptByStep(c: Config, s: State, st: Step)
    requires ValidConfig(c) && Sound(c, s) && Enabled(c, s, st)
    requires AllSuccessful(s.sh.row.components)
    ensures Apply(c, s, st).sh.row.components == s.sh.row.components
  {
    if st.Goroutine? {
      VerdictJustified(c, s.sh, s.sh.row);
      assert Recorded(s.sh, st.i);
      assert ThreadOK(c, s.sh, st.i, s.threads[st.i]);
    }
  }

  lemma {:induction false} RowKeptByRun(c: Config, s: State, steps: seq<Step>)
    requires ValidConfig(c) && Sound(c, s) && CanRun(c, s, steps)
    requires AllSuccessful(s.sh.row.components)
    ensures Run(c, s, steps).sh.row.components == s.sh.row.components
    decreases |steps|
  {
    if steps != [] {
      RowKeptByStep(c, s, steps[0]);
      StepSound(c, s, steps[0]);
      RowKeptByRun(c, Apply(c, s, steps[0]), steps[1..]);
    }
  }

  /** Once the components column is all successful, no lost update and no stale rewrite changes it. */
  lemma SuccessfulRowIsFinal(c: Config, cached: bool, pre: seq<Step>, post: seq<Step>)
    requires IsExecution(c, cached, pre) && IsExecution(c, cached, pre + post)
    requires AllSuccessful(FinalState(c, cached, pre).sh.row.components)
    ensures FinalState(c, cached, pre + post).sh.row.components == FinalState(c, cached, pre).sh.row.components
  {
    RunAppend(c, Init(c, cached), pre, post);
    ExecutionSound(c, cached, pre);
    RowKeptByRun(c, FinalState(c, cached, pre), post);
  }

  // ---------------------------------------------------------------- confirm against cancel

  lemma CommittedMeansNoRefusal(c: Config, g: Shared)
    requires Shaped(c, g) && Committed(c, g)
    ensures Cancellable(g) ==> g.lateVerdict
  {
    forall k | 0 <= k < |g.outcome| ensures g.outcome[k] != Refused { assert Recorded(g, k); }
  }

  /** Without a verdict by timeout, Confirm and Cancel are never both called. */
  lemma ConfirmExcludesCancel(c: Config, cached: bool, steps: seq<Step>, i: nat, j: nat)
    requires IsExecution(c, cached, steps)
    requires Count(FinalState(c, cached, steps).sh.log.calls, Slot(ConfirmPhase, i)) > 0
    requires Count(FinalState(c, cached, steps).sh.log.calls, Slot(CancelPhase, j)) > 0
    ensures FinalState(c, cached, steps).sh.lateVerdict
  {
    ExecutionSound(c, cached, steps);
    CommittedMeansNoRefusal(c, FinalState(c, cached, steps).sh);
  }

  ghost predicate Told(s: State, ok: bool) {
    s.caller == Returned(ok) || (s.caller.Advancing? && s.caller.ok == ok)
  }

  lemma AnswerKept(c: Config, s: State, steps: seq<Step>, ok: bool)
    requires CanRun(c, s, steps) && Told(s, ok)
    ensures Told(Run(c, s, steps), ok)
    decreases |steps|
  {
    if steps != [] { AnswerKept(c, Apply(c, s, steps[0]), steps[1..], ok); }
  }

  /**
   After twoPhaseCommit answered false, no pass of any monitor ever calls Confirm, unless an
   accepting row write was applied although the database reported an error.
   */
  lemma FalseNeverConfirms(c: Config, cached: bool, pre: seq<Step>, post: seq<Step>, i: nat)
    requires IsExecution(c, cached, pre) && IsExecution(c, cached, pre + post)
    requires Told(FinalState(c, cached, pre), false)
    requires !FinalState(c, cached, pre + post).sh.lostReply
    ensures Count(FinalState(c, cached, pre + post).sh.log.calls, Slot(ConfirmPhase, i)) == 0
  {
    RunAppend(c, Init(c, cached), pre, post);
    AnswerKept(c, FinalState(c, cached, pre), post, false);
    ExecutionSound(c, cached, pre + post);
    var s := FinalState(c, cached, pre + post);
    var k :| 0 <= k < |s.threads| && s.threads[k] == Ended(true);
    assert ThreadOK(c, s.sh, k, s.threads[k]);
    assert !Recorded(s.sh, k);
  }

  lemma TrueMeansCommitted(c: Config, s: State)
    requires Sound(c, s) && Told(s, true)
    ensures Committed(c, s.sh) && (Cancellable(s.sh) ==> s.sh.lateVerdict)
  {
    forall k | 0 <= k < |c.ids| ensures Recorded(s.sh, k) { assert ThreadOK(c, s.sh, k, s.threads[k]); }
    CommittedMeansNoRefusal(c, s.sh);
  }

  /** After it answered true every Try was acknowledged and recorded, so only a timeout can cancel. */
  lemma TrueMeansEveryTryRecorded(c: Config, cached: bool, steps: seq<Step>, i: nat)
    requires IsExecution(c, cached, steps) && Told(FinalState(c, cached, steps), true)
    ensures var g := FinalState(c, cached, steps).sh;
            && |g.outcome| == |c.ids|
            && (forall k :: 0 <= k < |c.ids| ==> g.outcome[k] == Acked && k in g.written)
            && (Count(g.log.calls, Slot(CancelPhase, i)) > 0 ==> g.lateVerdict)
  {
    ExecutionSound(c, cached, steps);
    var s := FinalState(c, cached, steps);
    TrueMeansCommitted(c, s);
    forall k | 0 <= k < |c.ids| ensures s.sh.outcome[k] == Acked && k in s.sh.written { assert Recorded(s.sh, k); }
  }

  // ---------------------------------------------------------------- the status column

  /** Only a pass that went through its whole loop can have written "successful". */
  lemma SuccessfulStatus(c: Config, cached: bool, steps: seq<Step>, j: nat)
    requires IsExecution(c, cached, steps) && j < |c.ids|
    requires FinalState(c, cached, steps).sh.row.status == Successful
    ensures |FinalState(c, cached, steps).sh.outcome| == |c.ids|
    ensures FinalState(c, cached, steps).sh.outcome[j] == Acked
    ensures Slot(ConfirmPhase, j) in FinalState(c, cached, steps).sh.marks
  {
    ExecutionSound(c, cached, steps);
    assert Recorded(FinalState(c, cached, steps).sh, j);
  }

  // ---------------------------------------------------------------- at most once

  /** A phase is called at most three times and returns without error at most once, over all passes. */
  lemma PhaseRunsAtMostOnce(c: Config, cached: bool, steps: seq<Step>, o: Slot)
    requires IsExecution(c, cached, steps)
    ensures Count(FinalState(c, cached, steps).sh.log.calls, o) <= 3
    ensures Count(FinalState(c, cached, steps).sh.log.replies, o) <= 1
    ensures Count(FinalState(c, cached, steps).sh.log.calls, o) > 0 ==> o in FinalState(c, cached, steps).sh.log.claims
  {
    ExecutionClaimed(c, cached, steps);
    assert SlotOK(FinalState(c, cached, steps).sh, o);
  }

  /** Whoever got past CheckAndMark for a slot is the only one ever to do so. */
  lemma OneClaimant(c: Config, cached: bool, pre: seq<Step>, post: seq<Step>, o: Slot)
    requires IsExecution(c, cached, pre) && IsExecution(c, cached, pre + post)
    requires o in FinalState(c, cached, pre).sh.log.claims
    ensures o in FinalState(c, cached, pre + post).sh.log.claims
    ensures FinalState(c, cached, pre + post).sh.log.claims[o] == FinalState(c, cached, pre).sh.log.claims[o]
  {
    RunAppend(c, Init(c, cached), pre, post);
    ExecutionClaimed(c, cached, pre);
    RunClaimed(c, FinalState(c, cached, pre), post);
  }
}
