/** Building executions one step at a time, and the commit that a fault-free transaction reaches. */
module TccScenarios {
  import opened Common
  import opened TccModel

  ghost predicate Reachable(c: Config, s: State) {
    exists cached: bool, steps: seq<Step> :: IsExecution(c, cached, steps) && FinalState(c, cached, steps) == s
  }

  lemma {:induction false} RunSnoc(c: Config, s: State, steps: seq<Step>, st: Step)
    requires CanRun(c, s, steps) && Enabled(c, Run(c, s, steps), st)
    ensures CanRun(c, s, steps + [st])
    ensures Run(c, s, steps + [st]) == Apply(c, Run(c, s, steps), st)
    decreases |steps|
  {
    if steps == [] {
      assert steps + [st] == [st] && [st][1..] == [];
      assert CanRun(c, Apply(c, s, st), []);
    } else {
      assert (steps + [st])[1..] == steps[1..] + [st];
      RunSnoc(c, Apply(c, s, steps[0]), steps[1..], st);
    }
  }

  lemma ReachInit(c: Config)
    requires ValidConfig(c)
    ensures Reachable(c, Init(c, true))
  {
    assert CanRun(c, Init(c, true), []);
    assert IsExecution(c, true, []) && FinalState(c, true, []) == Init(c, true);
  }

  lemma ReachStep(c: Config, s: State, st: Step)
    requires Reachable(c, s) && Enabled(c, s, st)
    ensures Reachable(c, Apply(c, s, st))
  {
    var cached: bool, steps: seq<Step> :| IsExecution(c, cached, steps) && FinalState(c, cached, steps) == s;
    RunSnoc(c, Init(c, cached), steps, st);
    assert IsExecution(c, cached, steps + [st]);
    assert FinalState(c, cached, steps + [st]) == Apply(c, s, st);
  }

  /** One more step of an execution, with the state it leads to. */
  lemma Then(c: Config, s: State, st: Step) returns (t: State)
    requires Reachable(c, s) && Enabled(c, s, st)
    ensures Reachable(c, t) && t == Apply(c, s, st)
  {
    ReachStep(c, s, st);
    t := Apply(c, s, st);
  }

  /** A goroutine takes its mark and its Try is acknowledged at once. */
  lemma Tried(c: Config, s0: State, i: nat) returns (s: State)
    requires Reachable(c, s0) && i < |c.ids| == |s0.threads| == |s0.sh.outcome|
    requires s0.threads[i] == Start && Slot(TryPhase, i) !in s0.sh.marks
    ensures Reachable(c, s)
    ensures s == s0.(sh := s.sh, threads := s0.threads[i := Reading(true)])
    ensures s.sh ==
            s0.sh.(marks := s0.sh.marks + {Slot(TryPhase, i)}, outcome := s0.sh.outcome[i := Acked], log := s.sh.log)
    ensures s.sh.log.calls.Keys == s0.sh.log.calls.Keys + {Slot(TryPhase, i)}
    ensures s.sh.log.replies.Keys == s0.sh.log.replies.Keys + {Slot(TryPhase, i)}
  {
    s := Then(c, s0, Goroutine(i, Mark(NoFault)));
    s := Then(c, s, Goroutine(i, Call(Answered(true))));
  }

  /** The caller's own pass, up to the verdict on the snapshot it found in Redis. */
  lemma CallerReads(c: Config, s0: State, ok: bool) returns (s: State)
    requires Reachable(c, s0) && Enabled(c, s0, Decide(ok)) && s0.sh.cache.Some?
    ensures Reachable(c, s)
    ensures s == s0.(caller := Advancing(ok, |s0.passes|), passes := s0.passes + [Judging(s0.sh.cache.value)])
  {
    s := Then(c, s0, Decide(ok));
    s := Then(c, s, MovePass(|s0.passes|, ReadCache(false)));
  }

  /** A monitor's pass, up to the verdict on the snapshot it read from the row. */
  lemma MonitorReads(c: Config, s0: State) returns (s: State)
    requires Reachable(c, s0) && s0.sh.row.status == Hanging && c.createdAt >= s0.now - EXPIRY
    ensures Reachable(c, s) && s == s0.(passes := s0.passes + [Judging(s0.sh.row)])
  {
    s := Then(c, s0, StartPass);
    s := Then(c, s, MovePass(|s0.passes|, Query(false)));
  }

  lemma Judged(c: Config, s0: State, p: nat) returns (s: State)
    requires Reachable(c, s0) && p < |s0.passes| && s0.passes[p].Judging? && c.ids != []
    ensures Reachable(c, s) && s.now == s0.now && s.threads == s0.threads && s.caller == s0.caller
    ensures s.sh == s0.sh.(lateVerdict := s.sh.lateVerdict)
    ensures Verdict(s0.passes[p].rec.components, c.createdAt, s0.now - c.timeout) != Failure ==> s.sh == s0.sh
    ensures var v := Verdict(s0.passes[p].rec.components, c.createdAt, s0.now - c.timeout);
            s.passes == s0.passes[p := if v == Hanging then Finished else Marking(v == Successful, 0)]
  {
    s := Then(c, s0, MovePass(p, Judge));
  }

  /** A pass claims component k and its participant acknowledges at once. */
  lemma Phased(c: Config, s0: State, p: nat, success: bool, k: nat) returns (s: State)
    requires Reachable(c, s0) && p < |s0.passes| && s0.passes[p] == Marking(success, k)
    requires Slot(PhaseOf(success), k) !in s0.sh.marks
    ensures Reachable(c, s) && s.now == s0.now && s.threads == s0.threads && s.caller == s0.caller
    ensures s.passes == s0.passes[p := AtComponent(c, success, k + 1)]
    ensures s.sh == s0.sh.(marks := s0.sh.marks + {Slot(PhaseOf(success), k)}, log := s.sh.log)
    ensures s.sh.log.acked == s0.sh.log.acked + {Slot(PhaseOf(success), k)}
    ensures Count(s.sh.log.calls, Slot(PhaseOf(success), k)) > 0
    ensures forall o :: o != Slot(PhaseOf(success), k) ==> Count(s.sh.log.calls, o) == Count(s0.sh.log.calls, o)
  {
    s := Then(c, s0, MovePass(p, Mark(NoFault)));
    s := Then(c, s, MovePass(p, Call(Answered(true))));
  }

  // ---------------------------------------------------------------- a transaction can commit

  /** A goroutine whose Try was acknowledged reads the Redis copy, edits it and writes it back. */
  lemma Published(c: Config, s0: State, i: nat) returns (s: State)
    requires Reachable(c, s0) && i < |c.ids| == |s0.threads| == |s0.sh.outcome|
    requires s0.threads[i] == Reading(true) && s0.sh.cache == Some(s0.sh.row)
    ensures Reachable(c, s)
    ensures s == s0.(sh := s0.sh.(row := Edited(c, s0.sh.row, i, true), cache := Some(s.sh.row),
                                  written := s0.sh.written + {i}),
                     threads := s0.threads[i := Ended(false)])
  {
    s := Then(c, s0, Goroutine(i, ReadCache(false)));
    s := Then(c, s, Goroutine(i, WriteRow(NoFault)));
    s := Then(c, s, Goroutine(i, WriteCache(false)));
  }

  /**
   The first k goroutines have run one after the other, without faults; lost: the first one's
   entry was overwritten all the same.
   */
  ghost predicate Serial(c: Config, s: State, k: nat, lost: bool) {
    && k <= |c.ids| == |s.threads| == |s.sh.outcome| == |s.sh.row.components|
    && s.caller == Waiting && s.sh.row.status == Hanging && s.sh.cache == Some(s.sh.row)
    && (forall j :: 0 <= j < |c.ids| ==>
          s.sh.row.components[j] == Entry(c.ids[j], if j < k && !(lost && j == 0) then Successful else Hanging))
    && (forall j :: 0 <= j < |c.ids| ==> s.threads[j] == if j < k then Ended(false) else Start)
    && (forall o :: o in s.sh.marks ==> o.phase == TryPhase && o.component < k)
  }

  lemma {:induction false} SerialTries(c: Config, s0: State, k: nat, n: nat, lost: bool) returns (s: State)
    requires ValidConfig(c) && k <= n <= |c.ids| && Reachable(c, s0) && Serial(c, s0, k, lost) && (lost ==> k > 0)
    ensures Reachable(c, s) && Serial(c, s, n, lost)
    ensures s.now == s0.now && s.passes == s0.passes && s.sh.lateVerdict == s0.sh.lateVerdict
    decreases n - k
  {
    s := s0;
    if k < n {
      s := Tried(c, s0, k);
      s := Published(c, s, k);
      SetStatusAt(s0.sh.row.components, c.ids[k], Successful, k);
      s := SerialTries(c, s, k + 1, n, lost);
    }
  }

  /** A pass on the way through its loop: acknowledged from component lo up to k, unmarked from k on. */
  ghost predicate Phasing(c: Config, s: State, p: nat, success: bool, lo: nat, k: nat) {
    && k <= |c.ids| && p < |s.passes| && s.passes[p] == AtComponent(c, success, k)
    && (forall j :: lo <= j < k ==> Slot(PhaseOf(success), j) in s.sh.log.acked)
    && (forall j :: k <= j < |c.ids| ==> Slot(PhaseOf(success), j) !in s.sh.marks)
  }

  /** The same actors and records as before, apart from pass p, the marks of one phase and the history. */
  ghost predicate OnlyPhase(s0: State, s: State, p: nat, phase: Phase) {
    && p < |s0.passes| == |s.passes|
    && s == s0.(sh := s0.sh.(marks := s.sh.marks, log := s.sh.log), passes := s0.passes[p := s.passes[p]])
    && s0.sh.log.acked <= s.sh.log.acked
    && forall o: Slot :: o.phase != phase ==> (o in s.sh.marks <==> o in s0.sh.marks)
  }

  lemma {:induction false} PhasesAll(c: Config, s0: State, p: nat, success: bool, lo: nat, k: nat) returns (s: State)
    requires Reachable(c, s0) && Phasing(c, s0, p, success, lo, k)
    ensures Reachable(c, s) && Phasing(c, s, p, success, lo, |c.ids|) && OnlyPhase(s0, s, p, PhaseOf(success))
    ensures forall o: Slot :: o.component < k ==> (o in s.sh.log.acked <==> o in s0.sh.log.acked)
    decreases |c.ids| - k
  {
    s := s0;
    if k < |c.ids| {
      var s1 := Phased(c, s0, p, success, k);
      s := PhasesAll(c, s1, p, success, lo, k + 1);
      assert s.passes == s0.passes[p := s.passes[p]];
    }
  }

  /** Writing the final status to the row and to the Redis copy. */
  lemma SubmittedBy(c: Config, s0: State, p: nat, success: bool) returns (s: State)
    requires Reachable(c, s0) && p < |s0.passes| && s0.passes[p] == Submitting(success, false) && s0.sh.cache.Some?
    ensures Reachable(c, s) && s.passes == s0.passes[p := Finished]
    ensures s == s0.(sh := s0.sh.(row := s0.sh.row.(status := StatusOf(success)),
                                  cache := Some(s0.sh.cache.value.(status := StatusOf(success)))),
                     passes := s.passes)
  {
    s := Then(c, s0, MovePass(p, WriteRow(NoFault)));
    s := Then(c, s, MovePass(p, ReadCache(false)));
    s := Then(c, s, MovePass(p, WriteCache(false)));
  }

  /** Answered true, the row and its copy successful, every Confirm acknowledged, nothing cancelled. */
  ghost predicate CommittedState(c: Config, s: State) {
    && s.caller == Returned(true) && s.sh.row.status == Successful && s.sh.cache == Some(s.sh.row)
    && (forall j :: 0 <= j < |c.ids| ==> Slot(ConfirmPhase, j) in s.sh.log.acked)
    && (forall o :: o in s.sh.marks ==> o.phase != CancelPhase)
  }

  /** From the start, whatever other passes are waiting, the transaction can commit without faults. */
  lemma Commits(c: Config, s0: State) returns (s: State)
    requires ValidConfig(c) && Reachable(c, s0) && Serial(c, s0, 0, false)
    ensures Reachable(c, s) && CommittedState(c, s)
    ensures s.now == s0.now && s.passes == s0.passes + [Finished] && s.sh.lateVerdict == s0.sh.lateVerdict
  {
    var p := |s0.passes|;
    s := SerialTries(c, s0, 0, |c.ids|, false);
    s := CallerReads(c, s, true);
    s := ConfirmedBy(c, s, p);
    s := Then(c, s, Return);
  }

  /** A pass that found every entry successful confirms everywhere and submits. */
  lemma ConfirmedBy(c: Config, s0: State, p: nat) returns (s: State)
    requires ValidConfig(c) && Reachable(c, s0) && p < |s0.passes| && s0.passes[p].Judging? && s0.sh.cache.Some?
    requires AllSuccessful(s0.passes[p].rec.components)
    requires forall o :: o in s0.sh.marks ==> o.phase == TryPhase
    ensures Reachable(c, s) && s.passes == s0.passes[p := Finished]
    ensures s.now == s0.now && s.threads == s0.threads && s.caller == s0.caller
    ensures s.sh.row == s0.sh.row.(status := Successful) && s.sh.cache == Some(s0.sh.cache.value.(status := Successful))
    ensures s.sh.lateVerdict == s0.sh.lateVerdict && s.sh.outcome == s0.sh.outcome
    ensures forall j :: 0 <= j < |c.ids| ==> Slot(ConfirmPhase, j) in s.sh.log.acked
    ensures forall o :: o in s.sh.marks ==> o.phase != CancelPhase
  {
    s := Judged(c, s0, p);
    assert !HasFailure(s0.passes[p].rec.components);
    s := PhasesAll(c, s, p, true, 0, 0);
    s := SubmittedBy(c, s, p, true);
  }

  lemma InitSerial(c: Config)
    ensures Serial(c, Init(c, true), 0, false)
  {}

  /** Whatever the components, there is an execution that commits: confirmed everywhere, answered true. */
  lemma EveryTransactionCanCommit(c: Config) returns (s: State)
    requires ValidConfig(c)
    ensures Reachable(c, s) && s.caller == Returned(true) && s.sh.row.status == Successful
    ensures s.sh.cache == Some(s.sh.row)
    ensures forall j :: 0 <= j < |c.ids| ==> Slot(ConfirmPhase, j) in s.sh.log.acked
  {
    ReachInit(c);
    InitSerial(c);
    s := Commits(c, Init(c, true));
  }
}
