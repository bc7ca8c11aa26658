/**
 The saga orchestrator over an abstract world: forward execution with retries, compensation of
 the executed prefix in reverse order, and the state that is persisted along the way.

 Actions and compensations are arbitrary functions of the world and of a tick that counts the
 calls made so far, so the same action may fail at one call and succeed at the next.
 */
module Saga {
  import opened Common

  datatype SagaState = Pending | Running | Completed | Compensating | Compensated | Failed

  datatype Outcome<!W> = Done(world: W) | Broke(world: W)

  datatype SagaStep<!W> = SagaStep(id: string, action: (W, nat) -> Outcome<W>, retryCount: int,
                                   compensation: Option<(W, nat) -> Outcome<W>>)

  datatype CompensationStep<!W> = CompensationStep(stepID: string, compensation: (W, nat) -> Outcome<W>)

  // ---------------------------------------------------------------- one step

  /** ok: executeStep returned nil; applied: the action itself did. */
  datatype Attempted<!W> = Attempted(ok: bool, applied: bool, world: W, tick: nat)

  function Attempts<W>(step: SagaStep<W>, w: W, t: nat, attempt: nat): Attempted<W>
    decreases step.retryCount - attempt
  {
    if attempt > step.retryCount then Attempted(true, false, w, t)
    else
      match step.action(w, t)
      case Done(w') => Attempted(true, true, w', t + 1)
      case Broke(w') =>
        if attempt < step.retryCount then Attempts(step, w', t + 1, attempt + 1)
        else Attempted(false, false, w', t + 1)
  }

  // ---------------------------------------------------------------- forwards

  datatype Stop = AllDone | Cancelled | StepFailed

  /** Where the loop over the steps stopped; applied lists the steps whose action took effect. */
  datatype Progress<!W> = Progress(stop: Stop, executed: nat, applied: seq<nat>, world: W, tick: nat)

  function Advanced<W>(i: nat, p: Progress<W>, a: Attempted<W>): Progress<W> {
    Progress(AllDone, i + 1, if a.applied then p.applied + [i] else p.applied, a.world, a.tick)
  }

  function Forward<W>(steps: seq<SagaStep<W>>, i: nat, p: Progress<W>, cancelled: nat -> bool): Progress<W>
    requires i <= |steps|
    decreases |steps| - i
  {
    if i == |steps| then p.(stop := AllDone)
    else if cancelled(p.tick) then p.(stop := Cancelled)
    else
      var a := Attempts(steps[i], p.world, p.tick, 0);
      if !a.ok then p.(stop := StepFailed, world := a.world, tick := a.tick)
      else Forward(steps, i + 1, Advanced(i, p, a), cancelled)
  }

  // ---------------------------------------------------------------- backwards

  /** The first registered compensation for the step, else the step's own. */
  function Chosen<W>(comps: seq<CompensationStep<W>>, step: SagaStep<W>): Option<(W, nat) -> Outcome<W>> {
    if comps == [] then step.compensation
    else if comps[0].stepID == step.id then Some(comps[0].compensation)
    else Chosen(comps[1..], step)
  }

  /** Index k holds the first compensation registered for the step. */
  ghost predicate FirstFor<W>(comps: seq<CompensationStep<W>>, step: SagaStep<W>, k: int) {
    0 <= k < |comps| && comps[k].stepID == step.id && forall j :: 0 <= j < k ==> comps[j].stepID != step.id
  }

  /** A registered compensation goes before the step's own, and among those the first. */
  lemma {:induction false} ChosenMeans<W>(comps: seq<CompensationStep<W>>, step: SagaStep<W>)
    ensures forall k :: FirstFor(comps, step, k) ==> Chosen(comps, step) == Some(comps[k].compensation)
    ensures (forall k :: 0 <= k < |comps| ==> comps[k].stepID != step.id) ==> Chosen(comps, step) == step.compensation
  {
    if comps != [] && comps[0].stepID != step.id {
      ChosenMeans(comps[1..], step);
      forall k | FirstFor(comps, step, k) ensures Chosen(comps, step) == Some(comps[k].compensation) {
        assert FirstFor(comps[1..], step, k - 1);
      }
    }
  }

  /** The world, the tick and the steps whose compensation succeeded, in order. */
  datatype Undone<!W> = Undone(world: W, tick: nat, undone: seq<nat>)

  /** compensate: errors are swallowed, missing compensations are skipped. */
  function Backward<W>(comps: seq<CompensationStep<W>>, steps: seq<SagaStep<W>>, k: nat, u: Undone<W>): Undone<W>
    requires k <= |steps|
  {
    if k == 0 then u else Backward(comps, steps, k - 1, Back(comps, steps[k - 1], k - 1, u))
  }

  function Back<W>(comps: seq<CompensationStep<W>>, step: SagaStep<W>, i: nat, u: Undone<W>): Undone<W> {
    match Chosen(comps, step)
    case None => u
    case Some(f) =>
      match f(u.world, u.tick)
      case Done(w) => Undone(w, u.tick + 1, u.undone + [i])
      case Broke(w) => Undone(w, u.tick + 1, u.undone)
  }

  // ---------------------------------------------------------------- the whole saga

  datatype Report<!W> = Report(state: SagaState, world: W, applied: seq<nat>, undone: seq<nat>, ok: bool)

  function Saga<W>(steps: seq<SagaStep<W>>, comps: seq<CompensationStep<W>>, w: W, cancelled: nat -> bool): Report<W> {
    var p := Forward(steps, 0, Progress(AllDone, 0, [], w, 0), cancelled);
    ForwardBounds(steps, 0, Progress(AllDone, 0, [], w, 0), cancelled);
    match p.stop
    case AllDone => Report(Completed, p.world, p.applied, [], true)
    case Cancelled => Report(Failed, p.world, p.applied, [], false)
    case StepFailed =>
      var u := Backward(comps, steps, p.executed, Undone(p.world, p.tick, []));
      Report(Compensated, u.world, p.applied, u.undone, false)
  }

  lemma {:induction false} ForwardBounds<W>(steps: seq<SagaStep<W>>, i: nat, p: Progress<W>, cancelled: nat -> bool)
    requires i <= |steps| && p.executed == i
    ensures i <= Forward(steps, i, p, cancelled).executed <= |steps|
    decreases |steps| - i
  {
    if i < |steps| && !cancelled(p.tick) {
      var a := Attempts(steps[i], p.world, p.tick, 0);
      if a.ok {
        ForwardBounds(steps, i + 1, Advanced(i, p, a), cancelled);
      }
    }
  }

  class SagaOrchestrator<W> {
    var steps: seq<SagaStep<W>>
    var compensations: seq<CompensationStep<W>>
    var persisted: seq<SagaState>     // the states handed to the state manager, in order
    var world: W                      // what actions and compensations act on

    constructor (w: W)
      ensures steps == [] && compensations == [] && persisted == [] && world == w
    {
      steps, compensations, persisted, world := [], [], [], w;
    }

    method AddStep(step: SagaStep<W>)
      modifies this`steps
      ensures steps == old(steps) + [step]
    {
      steps := steps + [step];
    }

    method AddCompensation(compensation: CompensationStep<W>)
      modifies this`compensations
      ensures compensations == old(compensations) + [compensation]
    {
      compensations := compensations + [compensation];
    }

    /** Returns nil or not; the two flags are the errors of the first two state-manager calls. */
    method Execute(cancelled: nat -> bool, saveFails: bool, updateFails: bool) returns (ok: bool)
      modifies this`persisted, this`world
      ensures saveFails ==> !ok && persisted == old(persisted) + [Pending] && world == old(world)
      ensures !saveFails && updateFails ==>
              !ok && persisted == old(persisted) + [Pending, Running] && world == old(world)
      ensures !saveFails && !updateFails ==>
                var r := Saga(steps, compensations, old(world), cancelled);
                && ok == r.ok && world == r.world
                && persisted == old(persisted) + [Pending, Running]
                                + (if r.state == Compensated then [Failed, Compensated] else [r.state])
    {
      persisted := persisted + [Pending];
      if saveFails { return false; }
      persisted := persisted + [Running];
      if updateFails { return false; }
      ForwardBounds(steps, 0, Progress(AllDone, 0, [], world, 0), cancelled);
      var p := RunSteps(cancelled);
      if p.stop == Cancelled {
        persisted := persisted + [Failed];
        return false;
      }
      if p.stop == StepFailed {
        persisted := persisted + [Failed];
        Compensate(p.executed, p.tick);
        persisted := persisted + [Compensated];
        return false;
      }
      persisted := persisted + [Completed];
      return true;
    }

    /** The loop over the steps, up to cancellation, to a failed step or to the end. */
    method RunSteps(cancelled: nat -> bool) returns (p: Progress<W>)
      modifies this`world
      ensures p == Forward(steps, 0, Progress(AllDone, 0, [], old(world), 0), cancelled) && world == p.world
    {
      var start := Progress(AllDone, 0, [], world, 0);
      p := start;
      for i := 0 to |steps|
        invariant p.executed == i && p.world == world
        invariant Forward(steps, 0, start, cancelled) == Forward(steps, i, p, cancelled)
      {
        if cancelled(p.tick) { return p.(stop := Cancelled); }
        var a := ExecuteStep(steps[i], world, p.tick);
        world := a.world;
        if !a.ok { return p.(stop := StepFailed, world := a.world, tick := a.tick); }
        p := Advanced(i, p, a);
      }
      return p.(stop := AllDone);
    }

    method Compensate(executed: nat, tick: nat)
      requires executed <= |steps|
      modifies this`world
      ensures world == Backward(compensations, steps, executed, Undone(old(world), tick, [])).world
    {
      var i, t := executed, tick;
      var undone: seq<nat> := [];
      while i > 0
        invariant 0 <= i <= executed
        invariant Backward(compensations, steps, executed, Undone(old(world), tick, [])) ==
                  Backward(compensations, steps, i, Undone(world, t, undone))
      {
        i := i - 1;
        var compensation := FindCompensation(steps[i]);
        if compensation.Some? {
          var outcome := compensation.value(world, t);
          world, t := outcome.world, t + 1;
          if outcome.Done? { undone := undone + [i]; }
        }
      }
    }

    method FindCompensation(step: SagaStep<W>) returns (c: Option<(W, nat) -> Outcome<W>>)
      ensures c == Chosen(compensations, step)
      ensures forall k :: FirstFor(compensations, step, k) ==> c == Some(compensations[k].compensation)
      ensures (forall k :: 0 <= k < |compensations| ==> compensations[k].stepID != step.id) ==> c == step.compensation
    {
      for i := 0 to |compensations|
        invariant Chosen(compensations, step) == Chosen(compensations[i..], step)
      {
        assert compensations[i..][1..] == compensations[i + 1..];
        if compensations[i].stepID == step.id {
          ChosenMeans(compensations, step);
          return Some(compensations[i].compensation);
        }
      }
      ChosenMeans(compensations, step);
      return step.compensation;
    }
  }

  method ExecuteStep<W>(step: SagaStep<W>, w: W, t: nat) returns (a: Attempted<W>)
    ensures a == Attempts(step, w, t, 0)
  {
    var world, tick, attempt := w, t, 0;
    while attempt <= step.retryCount
      invariant 0 <= attempt
      invariant Attempts(step, w, t, 0) == Attempts(step, world, tick, attempt)
      decreases step.retryCount - attempt
    {
      var outcome := step.action(world, tick);
      if outcome.Done? { return Attempted(true, true, outcome.world, tick + 1); }
      if attempt >= step.retryCount { return Attempted(false, false, outcome.world, tick + 1); }
      world, tick, attempt := outcome.world, tick + 1, attempt + 1;
    }
    return Attempted(true, false, world, tick);
  }

  // ---------------------------------------------------------------- assumptions about participants

  /** A failed action leaves the world as it was. */
  ghost predicate FailsClean<W(!new)>(step: SagaStep<W>) {
    forall w, t :: step.action(w, t).Broke? ==> step.action(w, t).world == w
  }

  /** Clean failures, and at least one attempt per step. */
  ghost predicate Clean<W(!new)>(steps: seq<SagaStep<W>>) {
    forall i :: 0 <= i < |steps| ==> FailsClean(steps[i]) && steps[i].retryCount >= 0
  }

  /** The world after the chosen compensation, if there is one; an error is swallowed. */
  function Undo<W>(c: Option<(W, nat) -> Outcome<W>>, w: W, t: nat): W {
    if c.Some? then c.value(w, t).world else w
  }

  /** Whatever the action did, the chosen compensation brings the world back. */
  ghost predicate Restores<W(!new)>(comps: seq<CompensationStep<W>>, step: SagaStep<W>) {
    forall w, t, t' {:trigger step.action(w, t), Undo(Chosen(comps, step), step.action(w, t).world, t')} ::
      step.action(w, t).Done? ==> Undo(Chosen(comps, step), step.action(w, t).world, t') == w
  }

  /** It exists, too, and reports success on every world. */
  ghost predicate Reliable<W(!new)>(comps: seq<CompensationStep<W>>, step: SagaStep<W>) {
    Chosen(comps, step).Some? && forall w, t :: Chosen(comps, step).value(w, t).Done?
  }

  // ---------------------------------------------------------------- what a run is, call by call

  /** The world after k failing calls of the action, the first of them at tick t. */
  function Broken<W>(step: SagaStep<W>, w: W, t: nat, k: nat): W {
    if k == 0 then w else step.action(Broken(step, w, t, k - 1), t + k - 1).world
  }

  /** The call number k, after k failing ones. */
  function Try<W>(step: SagaStep<W>, w: W, t: nat, k: nat): Outcome<W> { step.action(Broken(step, w, t, k), t + k) }

  /** The first k calls fail and call number k succeeds. */
  ghost predicate SucceedsAt<W>(step: SagaStep<W>, w: W, t: nat, k: nat) {
    Try(step, w, t, k).Done? && forall j :: 0 <= j < k ==> Try(step, w, t, j).Broke?
  }

  /** All calls fail: the first one and as many more as the retry count says. */
  ghost predicate Exhausted<W>(step: SagaStep<W>, w: W, t: nat) {
    step.retryCount >= 0 && forall j :: 0 <= j <= step.retryCount ==> Try(step, w, t, j).Broke?
  }

  lemma {:induction false} AttemptsFrom<W>(step: SagaStep<W>, w: W, t: nat, a: nat)
    requires a <= step.retryCount && forall j :: 0 <= j < a ==> Try(step, w, t, j).Broke?
    ensures var r := Attempts(step, Broken(step, w, t, a), t + a, a);
            && (forall k :: 0 <= k <= step.retryCount && SucceedsAt(step, w, t, k) ==>
                  r == Attempted(true, true, Try(step, w, t, k).world, t + k + 1))
            && (Exhausted(step, w, t) ==>
                  r == Attempted(false, false, Broken(step, w, t, step.retryCount + 1), t + step.retryCount + 1))
            && (Exhausted(step, w, t) || exists k :: 0 <= k <= step.retryCount && SucceedsAt(step, w, t, k))
    decreases step.retryCount - a
  {
    if Try(step, w, t, a).Done? {
      assert SucceedsAt(step, w, t, a);
    } else if a < step.retryCount {
      AttemptsFrom(step, w, t, a + 1);
    }
  }

  /**
   executeStep, call by call: it ends with the first call that succeeds among 1 + RetryCount, or with
   the last one failing; with a negative count no call is made at all.
   */
  lemma AttemptsMeans<W>(step: SagaStep<W>, w: W, t: nat)
    ensures var r := Attempts(step, w, t, 0);
            && (step.retryCount < 0 ==> r == Attempted(true, false, w, t))
            && (forall k :: 0 <= k <= step.retryCount && SucceedsAt(step, w, t, k) ==>
                  r == Attempted(true, true, Try(step, w, t, k).world, t + k + 1))
            && (Exhausted(step, w, t) ==>
                  r == Attempted(false, false, Broken(step, w, t, step.retryCount + 1), t + step.retryCount + 1))
            && (step.retryCount < 0 || Exhausted(step, w, t)
                || exists k :: 0 <= k <= step.retryCount && SucceedsAt(step, w, t, k))
  {
    if step.retryCount >= 0 { AttemptsFrom(step, w, t, 0); }
  }

  lemma {:induction false} CleanBroken<W(!new)>(step: SagaStep<W>, w: W, t: nat, k: nat)
    requires FailsClean(step) && forall j :: 0 <= j < k ==> Try(step, w, t, j).Broke?
    ensures Broken(step, w, t, k) == w
  {
    if k > 0 {
      CleanBroken(step, w, t, k - 1);
      assert Try(step, w, t, k - 1).Broke?;
    }
  }

  ghost predicate DoneAt<W>(step: SagaStep<W>, w: W, t: nat, k: nat) { step.action(w, t + k).Done? }

  /** With clean failures a step succeeds exactly when one of its 1 + RetryCount calls would. */
  lemma RetriedIff<W(!new)>(step: SagaStep<W>, w: W, t: nat)
    requires FailsClean(step) && step.retryCount >= 0
    ensures Attempts(step, w, t, 0).ok <==> exists k :: 0 <= k <= step.retryCount && DoneAt(step, w, t, k)
  {
    AttemptsMeans(step, w, t);
    if Exhausted(step, w, t) {
      forall k | 0 <= k <= step.retryCount ensures !DoneAt(step, w, t, k) {
        CleanBroken(step, w, t, k);
        assert Try(step, w, t, k).Broke?;
      }
    } else {
      var k :| 0 <= k <= step.retryCount && SucceedsAt(step, w, t, k);
      CleanBroken(step, w, t, k);
      assert DoneAt(step, w, t, k);
    }
  }

  /** Before step i the world is worlds[i] and ticks[i] calls have been made; the step leads on to the next. */
  ghost predicate StepRuns<W>(step: SagaStep<W>, w: W, t: nat, w': W, t': nat) {
    if step.retryCount < 0 then w' == w && t' == t
    else exists k :: && 0 <= k <= step.retryCount && SucceedsAt(step, w, t, k)
                     && w' == Try(step, w, t, k).world && t' == t + k + 1
  }

  /** The first n steps run one after the other, none of them cancelled. */
  ghost predicate Ran<W>(steps: seq<SagaStep<W>>, cancelled: nat -> bool, n: nat, worlds: seq<W>, ticks: seq<nat>) {
    && n <= |steps| && |worlds| == |ticks| == n + 1
    && forall i :: 0 <= i < n ==>
         !cancelled(ticks[i]) && StepRuns(steps[i], worlds[i], ticks[i], worlds[i + 1], ticks[i + 1])
  }

  /** Why the loop stopped after n steps, at a world and a tick. */
  ghost predicate StopsFor<W>(steps: seq<SagaStep<W>>, cancelled: nat -> bool, n: nat, w: W, t: nat, stop: Stop) {
    match stop
    case AllDone => n == |steps|
    case Cancelled => n < |steps| && cancelled(t)
    case StepFailed => n < |steps| && !cancelled(t) && Exhausted(steps[n], w, t)
  }

  lemma {:induction false} ForwardRuns<W>(steps: seq<SagaStep<W>>, cancelled: nat -> bool, i: nat, p: Progress<W>,
                                          worlds: seq<W>, ticks: seq<nat>)
    returns (allWorlds: seq<W>, allTicks: seq<nat>)
    requires i <= |steps| && p.executed == i && Ran(steps, cancelled, i, worlds, ticks)
    requires worlds[i] == p.world && ticks[i] == p.tick
    ensures var q := Forward(steps, i, p, cancelled);
            && Ran(steps, cancelled, q.executed, allWorlds, allTicks)
            && allWorlds[0] == worlds[0] && allTicks[0] == ticks[0]
            && StopsFor(steps, cancelled, q.executed, allWorlds[q.executed], allTicks[q.executed], q.stop)
            && (q.stop != StepFailed ==> q.world == allWorlds[q.executed])
            && (q.stop == StepFailed ==>
                  q.world == Broken(steps[q.executed], allWorlds[q.executed], allTicks[q.executed],
                                    steps[q.executed].retryCount + 1))
    decreases |steps| - i
  {
    allWorlds, allTicks := worlds, ticks;
    if i < |steps| && !cancelled(p.tick) {
      var a := Attempts(steps[i], p.world, p.tick, 0);
      AttemptsMeans(steps[i], p.world, p.tick);
      if a.ok {
        assert StepRuns(steps[i], p.world, p.tick, a.world, a.tick);
        assert Ran(steps, cancelled, i + 1, worlds + [a.world], ticks + [a.tick]);
        allWorlds, allTicks :=
          ForwardRuns(steps, cancelled, i + 1, Advanced(i, p, a), worlds + [a.world], ticks + [a.tick]);
      }
    }
  }

  /**
   How a saga ends, call by call: Completed after all steps ran, Failed when cancelled before one of
   them, Compensated when one of them failed at every one of its calls.
   */
  lemma EndsExactly<W>(steps: seq<SagaStep<W>>, comps: seq<CompensationStep<W>>, w: W, cancelled: nat -> bool)
    returns (n: nat, worlds: seq<W>, ticks: seq<nat>)
    ensures Ran(steps, cancelled, n, worlds, ticks) && worlds[0] == w && ticks[0] == 0
    ensures var r := Saga(steps, comps, w, cancelled);
            && (r.state == Completed <==> n == |steps|)
            && (r.state == Failed <==> n < |steps| && cancelled(ticks[n]))
            && (r.state == Compensated <==>
                  n < |steps| && !cancelled(ticks[n]) && Exhausted(steps[n], worlds[n], ticks[n]))
            && (r.state != Compensated ==> r.world == worlds[n])
  {
    var start := Progress(AllDone, 0, [], w, 0);
    worlds, ticks := ForwardRuns(steps, cancelled, 0, start, [w], [0]);
    n := Forward(steps, 0, start, cancelled).executed;
  }

  // ---------------------------------------------------------------- atomicity

  function Iota(n: nat): seq<nat> { seq(n, i => i) }

  function Reversed(n: nat): seq<nat> { seq(n, i => n - 1 - i) }

  ghost predicate Effect<W>(step: SagaStep<W>, w: W, t: nat, w': W) { step.action(w, t) == Done(w') }

  /** Some call of the action takes w to w'. */
  ghost predicate Takes<W>(step: SagaStep<W>, w: W, w': W) { exists t :: Effect(step, w, t, w') }

  /** With clean failures and at least one attempt, a step either took effect once or did nothing. */
  lemma {:induction false} StepIsAtomic<W(!new)>(step: SagaStep<W>, w: W, t: nat, attempt: nat)
    requires FailsClean(step) && attempt <= step.retryCount
    ensures var a := Attempts(step, w, t, attempt);
            && a.applied == a.ok
            && (!a.ok ==> a.world == w)
            && (a.ok ==> Takes(step, w, a.world))
    decreases step.retryCount - attempt
  {
    if step.action(w, t).Broke? && attempt < step.retryCount {
      StepIsAtomic(step, w, t + 1, attempt + 1);
    } else if step.action(w, t).Done? {
      assert Effect(step, w, t, step.action(w, t).world);
    }
  }

  /** worlds[i] is the world before step i, and step i took it to worlds[i + 1]. */
  ghost predicate Chain<W>(steps: seq<SagaStep<W>>, worlds: seq<W>) {
    && 0 < |worlds| <= |steps| + 1
    && forall i :: 0 <= i < |worlds| - 1 ==> Takes(steps[i], worlds[i], worlds[i + 1])
  }

  /** A chain of n steps from one world to another. */
  ghost predicate Leads<W>(steps: seq<SagaStep<W>>, n: nat, worlds: seq<W>, from: W, to: W) {
    Chain(steps, worlds) && |worlds| == n + 1 && worlds[0] == from && worlds[n] == to
  }

  /** Running forwards builds a chain of worlds, one per executed step, each applied once in order. */
  lemma {:induction false} ForwardChains<W(!new)>(steps: seq<SagaStep<W>>, i: nat, p: Progress<W>,
                                                  cancelled: nat -> bool, worlds: seq<W>)
    returns (all: seq<W>)
    requires Clean(steps) && i <= |steps| && p.executed == i && p.applied == Iota(i)
    requires Chain(steps, worlds) && |worlds| == i + 1 && worlds[i] == p.world
    ensures var q := Forward(steps, i, p, cancelled);
            && Leads(steps, q.executed, all, worlds[0], q.world)
            && q.applied == Iota(q.executed)
            && (q.stop == AllDone ==> q.executed == |steps|) && (q.stop == StepFailed ==> q.executed < |steps|)
    decreases |steps| - i
  {
    if i == |steps| || cancelled(p.tick) { return worlds; }
    StepIsAtomic(steps[i], p.world, p.tick, 0);
    var a := Attempts(steps[i], p.world, p.tick, 0);
    if !a.ok { return worlds; }
    assert Chain(steps, worlds + [a.world]);
    assert Iota(i) + [i] == Iota(i + 1);
    all := ForwardChains(steps, i + 1, Advanced(i, p, a), cancelled, worlds + [a.world]);
  }

  /** Running backwards along the chain returns to its first world. */
  lemma {:induction false} BackwardUnwinds<W(!new)>(comps: seq<CompensationStep<W>>, steps: seq<SagaStep<W>>, k: nat,
                                                    u: Undone<W>, worlds: seq<W>)
    requires Chain(steps, worlds) && k < |worlds| && worlds[k] == u.world
    requires forall i :: 0 <= i < k ==> Restores(comps, steps[i])
    ensures Backward(comps, steps, k, u).world == worlds[0]
    decreases k
  {
    if k > 0 {
      assert Takes(steps[k - 1], worlds[k - 1], worlds[(k - 1) + 1]);
      var t :| Effect(steps[k - 1], worlds[k - 1], t, worlds[k]);
      assert Restores(comps, steps[k - 1]);
      assert Undo(Chosen(comps, steps[k - 1]), steps[k - 1].action(worlds[k - 1], t).world, u.tick) == worlds[k - 1];
      BackwardUnwinds(comps, steps, k - 1, Back(comps, steps[k - 1], k - 1, u), worlds);
    }
  }

  /** Reliable compensations are all undone, in reverse order and once each. */
  lemma {:induction false} BackwardUndoesEach<W(!new)>(comps: seq<CompensationStep<W>>, steps: seq<SagaStep<W>>,
                                                       k: nat, u: Undone<W>)
    requires k <= |steps| && forall i :: 0 <= i < k ==> Reliable(comps, steps[i])
    ensures Backward(comps, steps, k, u).undone == u.undone + Reversed(k)
    decreases k
  {
    if k > 0 {
      assert Reliable(comps, steps[k - 1]);
      BackwardUndoesEach(comps, steps, k - 1, Back(comps, steps[k - 1], k - 1, u));
      assert Reversed(k) == [k - 1] + Reversed(k - 1);
      assert u.undone + [k - 1] + Reversed(k - 1) == u.undone + Reversed(k);
    } else {
      assert u.undone + Reversed(0) == u.undone;
    }
  }

  /**
   Atomicity. Whatever the outcome, the steps applied are a prefix, each once and in order. A saga that
   ends Completed is a chain of all actions from the first world to the last, one that ends Failed a
   chain of those executed, and nothing is undone. One that ends Compensated, and whose executed steps
   have compensations that restore, is back where it started; if they are reliable too, each was undone
   exactly once in reverse order.
   */
  lemma SagaIsAtomic<W(!new)>(steps: seq<SagaStep<W>>, comps: seq<CompensationStep<W>>, w: W, cancelled: nat -> bool)
    requires Clean(steps)
    ensures var r := Saga(steps, comps, w, cancelled);
            var n := |r.applied|;
            && r.applied == Iota(n) && n <= |steps|
            && (r.state == Completed ==> n == |steps|)
            && (r.state != Compensated ==> r.undone == [] && exists worlds :: Leads(steps, n, worlds, w, r.world))
            && (r.state == Compensated ==> n < |steps|)
            && (r.state == Compensated && (forall i :: 0 <= i < n ==> Restores(comps, steps[i])) ==> r.world == w)
            && (r.state == Compensated && (forall i :: 0 <= i < n ==> Reliable(comps, steps[i])) ==>
                r.undone == Reversed(n))
  {
    var start := Progress(AllDone, 0, [], w, 0);
    var worlds := ForwardChains(steps, 0, start, cancelled, [w]);
    var p := Forward(steps, 0, start, cancelled);
    assert Leads(steps, p.executed, worlds, w, p.world);
    if p.stop == StepFailed {
      var u := Undone(p.world, p.tick, []);
      if forall i :: 0 <= i < p.executed ==> Restores(comps, steps[i]) {
        BackwardUnwinds(comps, steps, p.executed, u, worlds);
      }
      if forall i :: 0 <= i < p.executed ==> Reliable(comps, steps[i]) {
        BackwardUndoesEach(comps, steps, p.executed, u);
        assert [] + Reversed(p.executed) == Reversed(p.executed);
      }
    }
  }

  // ---------------------------------------------------------------- without the assumptions

  /** The same actions and retries; ids and compensations may differ. */
  ghost predicate SameActions<W>(steps: seq<SagaStep<W>>, steps': seq<SagaStep<W>>) {
    && |steps| == |steps'|
    && forall i :: 0 <= i < |steps| ==>
        steps[i].action == steps'[i].action && steps[i].retryCount == steps'[i].retryCount
  }

  lemma {:induction false} SameAttempts<W>(step: SagaStep<W>, step': SagaStep<W>, w: W, t: nat, attempt: nat)
    requires step.action == step'.action && step.retryCount == step'.retryCount
    ensures Attempts(step, w, t, attempt) == Attempts(step', w, t, attempt)
    decreases step.retryCount - attempt
  {
    if attempt < step.retryCount { SameAttempts(step, step', step.action(w, t).world, t + 1, attempt + 1); }
  }

  lemma {:induction false} SameForward<W>(steps: seq<SagaStep<W>>, steps': seq<SagaStep<W>>, i: nat, p: Progress<W>,
                                          cancelled: nat -> bool)
    requires SameActions(steps, steps') && i <= |steps|
    ensures Forward(steps, i, p, cancelled) == Forward(steps', i, p, cancelled)
    decreases |steps| - i
  {
    if i < |steps| {
      SameAttempts(steps[i], steps'[i], p.world, p.tick, 0);
      var a := Attempts(steps[i], p.world, p.tick, 0);
      SameForward(steps, steps', i + 1, Advanced(i, p, a), cancelled);
    }
  }

  /** How a saga ends is decided by its actions alone; a missing or failing compensation never shows. */
  lemma EndStateIgnoresCompensation<W>(steps: seq<SagaStep<W>>, comps: seq<CompensationStep<W>>,
                                       steps': seq<SagaStep<W>>, comps': seq<CompensationStep<W>>,
                                       w: W, cancelled: nat -> bool)
    requires SameActions(steps, steps')
    ensures var r, r' := Saga(steps, comps, w, cancelled), Saga(steps', comps', w, cancelled);
            && r.state == r'.state && r.ok == r'.ok && r.applied == r'.applied
            && r.state in {Completed, Failed, Compensated} && (r.ok <==> r.state == Completed)
  {
    SameForward(steps, steps', 0, Progress(AllDone, 0, [], w, 0), cancelled);
  }

  lemma {:induction false} SkippedIffNegative<W>(steps: seq<SagaStep<W>>, i: nat, p: Progress<W>,
                                                 cancelled: nat -> bool)
    requires i <= |steps| && p.executed == i && |p.applied| <= i
    requires Forward(steps, i, p, cancelled).stop == AllDone
    ensures |Forward(steps, i, p, cancelled).applied| <= |steps|
    ensures |Forward(steps, i, p, cancelled).applied| == |steps| <==>
              |p.applied| == i && forall j :: i <= j < |steps| ==> steps[j].retryCount >= 0
    decreases |steps| - i
  {
    if i < |steps| {
      var a := Attempts(steps[i], p.world, p.tick, 0);
      AppliedIffNonNegative(steps[i], p.world, p.tick, 0);
      SkippedIffNegative(steps, i + 1, Advanced(i, p, a), cancelled);
    }
  }

  lemma {:induction false} AppliedIffNonNegative<W>(step: SagaStep<W>, w: W, t: nat, attempt: nat)
    requires Attempts(step, w, t, attempt).ok && (attempt == 0 || attempt <= step.retryCount)
    ensures Attempts(step, w, t, attempt).applied <==> step.retryCount >= 0
    decreases step.retryCount - attempt
  {
    if attempt <= step.retryCount && step.action(w, t).Broke? && attempt < step.retryCount {
      AppliedIffNonNegative(step, step.action(w, t).world, t + 1, attempt + 1);
    }
  }

  /** A completed saga applied every action exactly when no step has a negative retry count. */
  lemma CompletedAppliesAllIff<W>(steps: seq<SagaStep<W>>, comps: seq<CompensationStep<W>>, w: W,
                                  cancelled: nat -> bool)
    requires Saga(steps, comps, w, cancelled).state == Completed
    ensures |Saga(steps, comps, w, cancelled).applied| == |steps| <==>
              forall j :: 0 <= j < |steps| ==> steps[j].retryCount >= 0
  {
    SkippedIffNegative(steps, 0, Progress(AllDone, 0, [], w, 0), cancelled);
  }

  // ---------------------------------------------------------------- what a swallowed error leaves behind

  /** What the steps do to the world when their actions succeed. */
  type Effects<!W> = seq<W -> W>

  /** The registered steps in an environment that decides which calls fail; a failure is clean. */
  function Scripted<W>(steps: seq<SagaStep<W>>, fx: Effects<W>, ok: (nat, nat) -> bool): seq<SagaStep<W>>
    requires |fx| == |steps|
  {
    seq(|steps|, (i: nat) requires i < |steps| => steps[i].(action := Acting(fx[i], ok, i)))
  }

  function Acting<W>(f: W -> W, ok: (nat, nat) -> bool, i: nat): (W, nat) -> Outcome<W> {
    (w: W, t: nat) => if ok(i, t) then Done(f(w)) else Broke(w)
  }

  ghost predicate RunRestores<W(!new)>(steps: seq<SagaStep<W>>, comps: seq<CompensationStep<W>>, fx: Effects<W>,
                                       ok: (nat, nat) -> bool, w: W, cancelled: nat -> bool)
    requires |fx| == |steps|
  {
    var r := Saga(Scripted(steps, fx, ok), comps, w, cancelled);
    r.state == Compensated ==> r.world == w
  }

  /** A compensation call that the environment fails leaves the world alone. */
  function Faulty<W>(f: (W, nat) -> Outcome<W>, down: nat -> bool): (W, nat) -> Outcome<W> {
    (w: W, t: nat) => if down(t) then Broke(w) else f(w, t)
  }

  function FaultyOption<W>(c: Option<(W, nat) -> Outcome<W>>, fallible: bool, down: nat -> bool):
    Option<(W, nat) -> Outcome<W>>
  {
    if fallible && c.Some? then Some(Faulty(c.value, down)) else c
  }

  /** The compensations for the fallible step ids, in an environment that decides which calls fail. */
  function FaultyComps<W>(comps: seq<CompensationStep<W>>, fallible: set<string>, down: nat -> bool):
    seq<CompensationStep<W>>
  {
    if comps == [] then []
    else
      var f := FaultyOption(Some(comps[0].compensation), comps[0].stepID in fallible, down);
      [comps[0].(compensation := f.value)] + FaultyComps(comps[1..], fallible, down)
  }

  function FaultySteps<W>(steps: seq<SagaStep<W>>, fallible: set<string>, down: nat -> bool): seq<SagaStep<W>> {
    seq(|steps|, (i: nat) requires i < |steps| =>
      steps[i].(compensation := FaultyOption(steps[i].compensation, steps[i].id in fallible, down)))
  }

  lemma {:induction false} ChosenIsFaulty<W>(comps: seq<CompensationStep<W>>, step: SagaStep<W>,
                                             fallible: set<string>, down: nat -> bool)
    ensures Chosen(FaultyComps(comps, fallible, down),
                   step.(compensation := FaultyOption(step.compensation, step.id in fallible, down))) ==
            FaultyOption(Chosen(comps, step), step.id in fallible, down)
  {
    if comps != [] { ChosenIsFaulty(comps[1..], step, fallible, down); }
  }

  /** What the environment decides: which actions fail, which fallible compensations fail, and when to cancel. */
  datatype Environment = Environment(ok: (nat, nat) -> bool, down: nat -> bool, cancelled: nat -> bool)

  ghost predicate RestoresIn<W(!new)>(steps: seq<SagaStep<W>>, comps: seq<CompensationStep<W>>, fx: Effects<W>,
                                      fallible: set<string>, w: W, env: Environment)
    requires |fx| == |steps|
  {
    RunRestores(FaultySteps(steps, fallible, env.down), FaultyComps(comps, fallible, env.down), fx,
                env.ok, w, env.cancelled)
  }

  /** From every world and in every environment, Compensated means restored. */
  ghost predicate AlwaysRestores<W(!new)>(steps: seq<SagaStep<W>>, comps: seq<CompensationStep<W>>, fx: Effects<W>,
                                          fallible: set<string>)
    requires |fx| == |steps|
  {
    forall w, env :: RestoresIn(steps, comps, fx, fallible, w, env)
  }

  /** The compensation chosen for the step takes its effect back; without one there must be no effect. */
  ghost predicate TakesBack<W(!new)>(comps: seq<CompensationStep<W>>, step: SagaStep<W>, f: W -> W) {
    forall w, t :: Undo(Chosen(comps, step), f(w), t) == w
  }

  ghost predicate Idle<W(!new)>(f: W -> W) { forall w :: f(w) == w }

  ghost predicate Maps<W>(f: W -> W, w: W, v: W) { f(w) == v }

  ghost predicate Reaches<W(!new)>(f: W -> W, v: W) { exists w :: Maps(f, w, v) }

  ghost predicate Onto<W(!new)>(f: W -> W) { forall v :: Reaches(f, v) }

  /** When the environment lets it, what a compensation does depends on the world that it finds. */
  ghost predicate Timeless<W(!new)>(c: Option<(W, nat) -> Outcome<W>>) {
    c.Some? ==> forall w, t :: c.value(w, t) == c.value(w, 0)
  }

  /** Steps that are tried at least once; effects of all but the last that can lead to any world. */
  ghost predicate Registered<W(!new)>(steps: seq<SagaStep<W>>, fx: Effects<W>) {
    && |fx| == |steps|
    && (forall i :: 0 <= i < |steps| ==> steps[i].retryCount >= 0)
    && (forall i :: 0 <= i < |steps| - 1 ==> Onto(fx[i]))
  }

  lemma {:induction false} ChosenByIdentity<W>(comps: seq<CompensationStep<W>>, step: SagaStep<W>, step': SagaStep<W>)
    requires step.id == step'.id && step.compensation == step'.compensation
    ensures Chosen(comps, step) == Chosen(comps, step')
  {
    if comps != [] { ChosenByIdentity(comps[1..], step, step'); }
  }

  /** If every step but the last is taken back, every compensated run restores the world. */
  lemma TakingBackRestores<W(!new)>(steps: seq<SagaStep<W>>, comps: seq<CompensationStep<W>>, fx: Effects<W>,
                                    ok: (nat, nat) -> bool, w: W, cancelled: nat -> bool)
    requires Registered(steps, fx)
    requires forall i :: 0 <= i < |steps| - 1 ==> TakesBack(comps, steps[i], fx[i])
    ensures RunRestores(steps, comps, fx, ok, w, cancelled)
  {
    var scripted := Scripted(steps, fx, ok);
    forall i | 0 <= i < |steps| - 1 ensures Restores(comps, scripted[i]) {
      ChosenByIdentity(comps, steps[i], scripted[i]);
      assert TakesBack(comps, steps[i], fx[i]);
    }
    assert Clean(scripted);
    SagaIsAtomic(scripted, comps, w, cancelled);
  }

  /** The effects of the first k steps, one after the other. */
  function Fold<W>(fx: Effects<W>, k: nat, w: W): W
    requires k <= |fx|
  {
    if k == 0 then w else fx[k - 1](Fold(fx, k - 1, w))
  }

  lemma {:induction false} FoldIsOnto<W(!new)>(fx: Effects<W>, k: nat, v: W) returns (w: W)
    requires k <= |fx| && forall i :: 0 <= i < k ==> Onto(fx[i])
    ensures Fold(fx, k, w) == v
    decreases k
  {
    if k == 0 { return v; }
    assert Onto(fx[k - 1]) && Reaches(fx[k - 1], v);
    var x :| Maps(fx[k - 1], x, v);
    w := FoldIsOnto(fx, k - 1, x);
  }

  lemma {:induction false} BackwardUnfolds<W(!new)>(steps: seq<SagaStep<W>>, comps: seq<CompensationStep<W>>,
                                                    fx: Effects<W>, k: nat, u: Undone<W>, w: W)
    requires k <= |steps| == |fx| && u.world == Fold(fx, k, w)
    requires forall i :: 0 <= i < k ==> TakesBack(comps, steps[i], fx[i])
    ensures Backward(comps, steps, k, u).world == w
    decreases k
  {
    if k > 0 {
      assert TakesBack(comps, steps[k - 1], fx[k - 1]);
      assert Undo(Chosen(comps, steps[k - 1]), fx[k - 1](Fold(fx, k - 1, w)), u.tick) == Fold(fx, k - 1, w);
      BackwardUnfolds(steps, comps, fx, k - 1, Back(comps, steps[k - 1], k - 1, u), w);
    }
  }

  lemma {:induction false} AllAttemptsBreak<W(!new)>(step: SagaStep<W>, w: W, t: nat, attempt: nat)
    requires attempt <= step.retryCount && forall x, t :: step.action(x, t) == Broke(x)
    ensures !Attempts(step, w, t, attempt).ok && Attempts(step, w, t, attempt).world == w
    decreases step.retryCount - attempt
  {
    if attempt < step.retryCount { AllAttemptsBreak(step, w, t + 1, attempt + 1); }
  }

  function FailsAt(m: nat): (nat, nat) -> bool { (i, t) => i != m }

  /** An environment in which step m fails and no other: the forward loop stops there. */
  lemma {:induction false} StopsAt<W(!new)>(steps: seq<SagaStep<W>>, fx: Effects<W>, m: nat, w: W, i: nat,
                                            p: Progress<W>, never: nat -> bool)
    requires i <= m < |steps| == |fx| && p.executed == i && p.world == Fold(fx, i, w)
    requires (forall j :: 0 <= j < |steps| ==> steps[j].retryCount >= 0) && forall t :: !never(t)
    ensures var q := Forward(Scripted(steps, fx, FailsAt(m)), i, p, never);
            q.stop == StepFailed && q.executed == m && q.world == Fold(fx, m, w)
    decreases m - i
  {
    var scripted := Scripted(steps, fx, FailsAt(m));
    if i == m {
      AllAttemptsBreak(scripted[i], p.world, p.tick, 0);
    } else {
      var a := Attempts(scripted[i], p.world, p.tick, 0);
      assert a == Attempted(true, true, fx[i](p.world), p.tick + 1);
      StopsAt(steps, fx, m, w, i + 1, Progress(AllDone, i + 1, p.applied + [i], a.world, a.tick), never);
    }
  }

  function Never(t: nat): bool { false }

  /** A run that stops at step m goes back through the first m steps, at some tick, to where it began. */
  lemma StoppedRunRestores<W(!new)>(steps: seq<SagaStep<W>>, comps: seq<CompensationStep<W>>, fx: Effects<W>, m: nat,
                                    w: W) returns (t: nat)
    requires Registered(steps, fx) && m < |steps| && RunRestores(steps, comps, fx, FailsAt(m), w, Never)
    ensures Backward(comps, steps, m, Undone(Fold(fx, m, w), t, [])).world == w
  {
    var scripted := Scripted(steps, fx, FailsAt(m));
    var start := Progress(AllDone, 0, [], w, 0);
    StopsAt(steps, fx, m, w, 0, start, Never);
    t := Forward(scripted, 0, start, Never).tick;
    SameBackward(comps, scripted, steps, m, Undone(Fold(fx, m, w), t, []));
  }

  /** Compensations that take back lead to w from one world only. */
  lemma UnfoldsFrom<W(!new)>(steps: seq<SagaStep<W>>, comps: seq<CompensationStep<W>>, fx: Effects<W>, k: nat,
                             u: Undone<W>)
    requires Registered(steps, fx) && k < |steps|
    requires forall i :: 0 <= i < k ==> TakesBack(comps, steps[i], fx[i])
    ensures u.world == Fold(fx, k, Backward(comps, steps, k, u).world)
  {
    var x := FoldIsOnto(fx, k, u.world);
    BackwardUnfolds(steps, comps, fx, k, u, x);
  }

  /** From a run that stops at step k + 1: what the compensation of step k must have done. */
  lemma RestoringTakesBack<W(!new)>(steps: seq<SagaStep<W>>, comps: seq<CompensationStep<W>>, fx: Effects<W>, k: nat,
                                    w: W) returns (t: nat)
    requires Registered(steps, fx) && k + 1 < |steps| && RunRestores(steps, comps, fx, FailsAt(k + 1), w, Never)
    requires forall i :: 0 <= i < k ==> TakesBack(comps, steps[i], fx[i])
    ensures Undo(Chosen(comps, steps[k]), fx[k](Fold(fx, k, w)), t) == Fold(fx, k, w)
  {
    t := StoppedRunRestores(steps, comps, fx, k + 1, w);
    var u := Undone(Fold(fx, k + 1, w), t, []);
    UnfoldsFrom(steps, comps, fx, k, Back(comps, steps[k], k, u));
  }

  lemma {:induction false} SameBackward<W>(comps: seq<CompensationStep<W>>, steps: seq<SagaStep<W>>,
                                           steps': seq<SagaStep<W>>, k: nat, u: Undone<W>)
    requires k <= |steps| == |steps'|
    requires forall i :: 0 <= i < k ==> steps[i].id == steps'[i].id && steps[i].compensation == steps'[i].compensation
    ensures Backward(comps, steps, k, u) == Backward(comps, steps', k, u)
    decreases k
  {
    if k > 0 {
      ChosenByIdentity(comps, steps[k - 1], steps'[k - 1]);
      SameBackward(comps, steps, steps', k - 1, Back(comps, steps[k - 1], k - 1, u));
    }
  }

  /** What step i needs: its effect is taken back, and it has none if its compensation may fail. */
  ghost predicate Covered<W(!new)>(comps: seq<CompensationStep<W>>, step: SagaStep<W>, f: W -> W,
                                   fallible: set<string>)
  {
    TakesBack(comps, step, f) && (step.id in fallible ==> Idle(f))
  }

  /** A covered step is taken back in every environment. */
  lemma CoveredTakesBack<W(!new)>(steps: seq<SagaStep<W>>, comps: seq<CompensationStep<W>>, fx: Effects<W>,
                                  fallible: set<string>, down: nat -> bool, i: nat)
    requires i < |steps| == |fx| && Covered(comps, steps[i], fx[i], fallible)
    ensures TakesBack(FaultyComps(comps, fallible, down), FaultySteps(steps, fallible, down)[i], fx[i])
  {
    var c := Chosen(comps, steps[i]);
    var c' := Chosen(FaultyComps(comps, fallible, down), FaultySteps(steps, fallible, down)[i]);
    ChosenIsFaulty(comps, steps[i], fallible, down);
    forall w, t ensures Undo(c', fx[i](w), t) == w {
      assert Undo(c, fx[i](w), t) == w;
    }
  }

  /** In an environment that always restores, each covered prefix shows what the next compensation did. */
  lemma NextUndone<W(!new)>(steps: seq<SagaStep<W>>, comps: seq<CompensationStep<W>>, fx: Effects<W>,
                            fallible: set<string>, down: nat -> bool, k: nat, v: W) returns (t: nat)
    requires Registered(steps, fx) && AlwaysRestores(steps, comps, fx, fallible) && k + 1 < |steps|
    requires forall i :: 0 <= i < k ==> Covered(comps, steps[i], fx[i], fallible)
    ensures Undo(FaultyOption(Chosen(comps, steps[k]), steps[k].id in fallible, down), fx[k](v), t) == v
  {
    var steps', comps' := FaultySteps(steps, fallible, down), FaultyComps(comps, fallible, down);
    forall i | 0 <= i < k ensures TakesBack(comps', steps'[i], fx[i]) {
      CoveredTakesBack(steps, comps, fx, fallible, down, i);
    }
    var w := FoldIsOnto(fx, k, v);
    assert RestoresIn(steps, comps, fx, fallible, w, Environment(FailsAt(k + 1), down, Never));
    t := RestoringTakesBack(steps', comps', fx, k, w);
    ChosenIsFaulty(comps, steps[k], fallible, down);
  }

  function AlwaysDown(t: nat): bool { true }

  lemma NextCovered<W(!new)>(steps: seq<SagaStep<W>>, comps: seq<CompensationStep<W>>, fx: Effects<W>,
                             fallible: set<string>, k: nat)
    requires Registered(steps, fx) && AlwaysRestores(steps, comps, fx, fallible) && k + 1 < |steps|
    requires Timeless(Chosen(comps, steps[k]))
    requires forall i :: 0 <= i < k ==> Covered(comps, steps[i], fx[i], fallible)
    ensures Covered(comps, steps[k], fx[k], fallible)
  {
    var c, f := Chosen(comps, steps[k]), fx[k];
    forall v: W, t: nat ensures Undo(c, f(v), t) == v {
      var t' := NextUndone(steps, comps, fx, fallible, Never, k, v);
      assert c.Some? ==> c.value(f(v), t') == c.value(f(v), 0) == c.value(f(v), t);
    }
    if steps[k].id in fallible {
      forall v: W ensures f(v) == v { var t := NextUndone(steps, comps, fx, fallible, AlwaysDown, k, v); }
    }
  }

  lemma {:induction false} AllCovered<W(!new)>(steps: seq<SagaStep<W>>, comps: seq<CompensationStep<W>>, fx: Effects<W>,
                                               fallible: set<string>, k: nat)
    requires Registered(steps, fx) && AlwaysRestores(steps, comps, fx, fallible) && k < |steps|
    requires forall i :: 0 <= i < |steps| - 1 ==> Timeless(Chosen(comps, steps[i]))
    ensures forall i :: 0 <= i < k ==> Covered(comps, steps[i], fx[i], fallible)
    decreases k
  {
    if k > 0 {
      AllCovered(steps, comps, fx, fallible, k - 1);
      assert Timeless(Chosen(comps, steps[k - 1]));
      NextCovered(steps, comps, fx, fallible, k - 1);
    }
  }

  lemma CoveredRestores<W(!new)>(steps: seq<SagaStep<W>>, comps: seq<CompensationStep<W>>, fx: Effects<W>,
                                 fallible: set<string>, w: W, env: Environment)
    requires Registered(steps, fx)
    requires forall i :: 0 <= i < |steps| - 1 ==> Covered(comps, steps[i], fx[i], fallible)
    ensures RestoresIn(steps, comps, fx, fallible, w, env)
  {
    var steps', comps' := FaultySteps(steps, fallible, env.down), FaultyComps(comps, fallible, env.down);
    forall i | 0 <= i < |steps| - 1 ensures TakesBack(comps', steps'[i], fx[i]) {
      CoveredTakesBack(steps, comps, fx, fallible, env.down, i);
    }
    TakingBackRestores(steps', comps', fx, env.ok, w, env.cancelled);
  }

  /**
   Exactly when Compensated means restored, from every world and in every environment: every step but
   the last has its effect taken back, and has no effect if its compensation is one that may fail.
   */
  lemma RestoresIffCovered<W(!new)>(steps: seq<SagaStep<W>>, comps: seq<CompensationStep<W>>, fx: Effects<W>,
                                    fallible: set<string>)
    requires Registered(steps, fx)
    requires forall i :: 0 <= i < |steps| - 1 ==> Timeless(Chosen(comps, steps[i]))
    ensures AlwaysRestores(steps, comps, fx, fallible) <==>
              forall i :: 0 <= i < |steps| - 1 ==> Covered(comps, steps[i], fx[i], fallible)
  {
    if AlwaysRestores(steps, comps, fx, fallible) {
      if |steps| > 0 { AllCovered(steps, comps, fx, fallible, |steps| - 1); }
    } else {
      var w, env :| !RestoresIn(steps, comps, fx, fallible, w, env);
      if forall i :: 0 <= i < |steps| - 1 ==> Covered(comps, steps[i], fx[i], fallible) {
        CoveredRestores(steps, comps, fx, fallible, w, env);
      }
    }
  }

  /** The compensation, if there is one and the environment lets it, takes back what the action did. */
  ghost predicate Honest<W(!new)>(comps: seq<CompensationStep<W>>, step: SagaStep<W>, f: W -> W) {
    var c := Chosen(comps, step);
    c.Some? ==> forall w, t :: c.value(f(w), t) == Done(w)
  }

  /** No effect, or a compensation that is there and never fails. */
  ghost predicate Backed<W(!new)>(comps: seq<CompensationStep<W>>, step: SagaStep<W>, f: W -> W,
                                  fallible: set<string>)
  {
    Idle(f) || (Chosen(comps, step).Some? && step.id !in fallible)
  }

  lemma CoveredIffBacked<W(!new)>(comps: seq<CompensationStep<W>>, step: SagaStep<W>, f: W -> W, fallible: set<string>)
    requires Honest(comps, step, f)
    ensures Covered(comps, step, f, fallible) <==> Backed(comps, step, f, fallible)
  {
    var c := Chosen(comps, step);
    if c.None? && Covered(comps, step, f, fallible) {
      forall w ensures f(w) == w { assert Undo(c, f(w), 0) == w; }
    }
  }

  lemma HonestIsTimeless<W(!new)>(comps: seq<CompensationStep<W>>, step: SagaStep<W>, f: W -> W)
    requires Honest(comps, step, f) && Onto(f)
    ensures Timeless(Chosen(comps, step))
  {
    var c := Chosen(comps, step);
    if c.Some? {
      forall v, t ensures c.value(v, t) == c.value(v, 0) {
        assert Reaches(f, v);
        var w :| Maps(f, w, v);
        assert c.value(f(w), t) == Done(w) == c.value(f(w), 0);
      }
    }
  }

  /**
   For honest participants the condition is on the registration alone: every step but the last has no
   effect, or it has a compensation and that compensation never fails.
   */
  lemma RestoresIffBacked<W(!new)>(steps: seq<SagaStep<W>>, comps: seq<CompensationStep<W>>, fx: Effects<W>,
                                   fallible: set<string>)
    requires Registered(steps, fx)
    requires forall i :: 0 <= i < |steps| - 1 ==> Honest(comps, steps[i], fx[i])
    ensures AlwaysRestores(steps, comps, fx, fallible) <==>
              forall i :: 0 <= i < |steps| - 1 ==> Backed(comps, steps[i], fx[i], fallible)
  {
    forall i | 0 <= i < |steps| - 1
      ensures Timeless(Chosen(comps, steps[i]))
      ensures Covered(comps, steps[i], fx[i], fallible) <==> Backed(comps, steps[i], fx[i], fallible)
    {
      assert Honest(comps, steps[i], fx[i]) && Onto(fx[i]);
      HonestIsTimeless(comps, steps[i], fx[i]);
      CoveredIffBacked(comps, steps[i], fx[i], fallible);
    }
    RestoresIffCovered(steps, comps, fx, fallible);
  }

  function Increment(w: int, t: nat): Outcome<int> { Done(w + 1) }

  function Refuse(w: int, t: nat): Outcome<int> { Broke(w) }

  /** A step without compensation is left standing, and the saga still ends Compensated. */
  lemma CompensatedYetNotRestored()
    ensures var steps := [SagaStep("debit", Increment, 0, None), SagaStep("ship", Refuse, 0, None)];
            var r := Saga(steps, [], 0, t => false);
            r.state == Compensated && r.world == 1 && r.undone == []
  {
    var steps := [SagaStep("debit", Increment, 0, None), SagaStep("ship", Refuse, 0, None)];
    var start := Progress(AllDone, 0, [], 0, 0);
    var never: nat -> bool := t => false;
    assert Attempts(steps[0], 0, 0, 0) == Attempted(true, true, 1, 1);
    assert Attempts(steps[1], 1, 1, 0) == Attempted(false, false, 1, 2);
    assert Forward(steps, 0, start, never) == Forward(steps, 1, Progress(AllDone, 1, [0], 1, 1), never);
    assert Forward(steps, 1, Progress(AllDone, 1, [0], 1, 1), never) == Progress(StepFailed, 1, [0], 1, 2);
    assert Backward([], steps, 1, Undone(1, 2, [])) == Backward([], steps, 0, Undone(1, 2, []));
  }
}
