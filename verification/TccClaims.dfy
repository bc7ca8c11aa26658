/**
 At-most-once execution of a phase.

 Every step of every actor has one of five effects on the marks and on the call history.
 The invariant is proved once per effect, for an arbitrary actor, so it does not matter how
 many passes run or on how many nodes.
 */
module TccClaims {
  import opened Common
  import opened TccModel

  /** A call in progress: the slot it was claimed under and the attempts already made. */
  datatype Job = Job(slot: Slot, attempts: nat)

  function ThreadJob(i: nat, t: Thread): Option<Job> {
    if t.Trying? then Some(Job(Slot(TryPhase, i), t.attempts)) else None
  }

  function PassJob(p: Pass): Option<Job> {
    if p.Calling? then Some(Job(Slot(PhaseOf(p.success), p.k), p.attempts)) else None
  }

  function JobOf(s: State, who: Actor): Option<Job> {
    match who
    case ByGoroutine(i) => if i < |s.threads| then ThreadJob(i, s.threads[i]) else None
    case ByPass(p) => if p < |s.passes| then PassJob(s.passes[p]) else None
  }

  // ---------------------------------------------------------------- invariant

  /** The history of one slot. */
  ghost predicate SlotOK(g: Shared, o: Slot) {
    && Count(g.log.calls, o) <= MAX_ATTEMPTS
    && Count(g.log.replies, o) <= 1 && Count(g.log.replies, o) <= Count(g.log.calls, o)
    && (o in g.log.claims ==> o in g.marks)
    && (o !in g.log.claims ==> Count(g.log.calls, o) == 0 && Count(g.log.replies, o) == 0 && o !in g.log.acked)
    && (o in g.log.acked ==> o !in g.log.gaveUp && Count(g.log.replies, o) == 1)
    && (o in g.log.gaveUp ==> o in g.marks)
  }

  ghost predicate JobOK(g: Shared, who: Actor, job: Job) {
    && job.slot in g.log.claims && g.log.claims[job.slot] == who
    && Count(g.log.calls, job.slot) == job.attempts < MAX_ATTEMPTS
    && Count(g.log.replies, job.slot) == 0
    && job.slot !in g.log.acked && job.slot !in g.log.gaveUp
  }

  ghost predicate InProgress(s: State, o: Slot) {
    && o in s.sh.log.claims
    && JobOf(s, s.sh.log.claims[o]).Some?
    && JobOf(s, s.sh.log.claims[o]).value.slot == o
  }

  /** A marked slot was acknowledged, was given up, or is being called by its claimant. */
  ghost predicate Settled(s: State, o: Slot) {
    o in s.sh.marks ==> o in s.sh.log.acked || o in s.sh.log.gaveUp || InProgress(s, o)
  }

  ghost predicate NoteOK(g: Shared, p: Pass) { p.Noting? ==> Slot(CancelPhase, p.k) in g.log.gaveUp }

  ghost predicate Claimed(s: State) {
    && (forall o :: SlotOK(s.sh, o))
    && (forall o :: Settled(s, o))
    && (forall who :: JobOf(s, who).Some? ==> JobOK(s.sh, who, JobOf(s, who).value))
    && (forall p :: 0 <= p < |s.passes| ==> NoteOK(s.sh, s.passes[p]))
  }

  // ---------------------------------------------------------------- effects

  datatype Effect =
    | Quiet                                 // marks and history unchanged
    | Claim(slot: Slot)                     // CheckAndMark set a new mark
    | Lose(slot: Slot)                      // the mark was set but the reply was lost
    | Attempt(job: Job, reply: Reply)       // one participant call
    | Abandon(job: Job)                     // stopped between two attempts

  /** The effect fits the actor's job before and after, and what it did to the shared state. */
  ghost predicate Did(g: Shared, h: Shared, who: Actor, before: Option<Job>, after: Option<Job>, e: Effect) {
    match e
    case Quiet => before == None && after == None && h.marks == g.marks && h.log == g.log
    case Claim(o) =>
      && before == None && after == Some(Job(o, 0)) && o !in g.marks
      && h.marks == g.marks + {o} && h.log == LogClaim(g.log, o, who)
    case Lose(o) =>
      && before == None && after == None
      && h.marks == g.marks + {o} && h.log == LogGaveUp(g.log, {o} - g.marks)
    case Attempt(job, reply) =>
      var last := job.attempts + 1 >= MAX_ATTEMPTS;
      && before == Some(job) && h.marks == g.marks
      && after == (if reply.Errored? && !last then Some(Job(job.slot, job.attempts + 1)) else None)
      && h.log == LogCall(g.log, job.slot, reply, last)
    case Abandon(job) =>
      && before == Some(job) && after == None
      && h.marks == g.marks && h.log == LogGaveUp(g.log, {job.slot})
  }

  function ThreadEffect(g: Shared, i: nat, t: Thread, e: Event): Effect
    requires ThreadEnabled(t, e)
  {
    var o := Slot(TryPhase, i);
    if t.Trying? then Attempt(Job(o, t.attempts), e.reply)
    else if t.Start? && e.fault.NoFault? && o !in g.marks then Claim(o)
    else if t.Start? && e.fault.ErrorApplied? then Lose(o)
    else Quiet
  }

  lemma ThreadDid(c: Config, g: Shared, i: nat, t: Thread, e: Event)
    requires i < |c.ids| == |g.outcome| && ThreadEnabled(t, e)
    ensures var r := ThreadStep(c, g, i, t, e);
            Did(g, r.0, ByGoroutine(i), ThreadJob(i, t), ThreadJob(i, r.1), ThreadEffect(g, i, t, e))
  {}

  function PassEffect(g: Shared, pass: Pass, e: Event): Effect
    requires PassEnabled(pass, e)
  {
    if pass.Calling? then Attempt(PassJob(pass).value, e.reply)
    else if pass.Marking? then
      var o := Slot(PhaseOf(pass.success), pass.k);
      if e.fault.NoFault? && o !in g.marks then Claim(o)
      else if e.fault.ErrorApplied? then Lose(o)
      else Quiet
    else Quiet
  }

  lemma PassDid(c: Config, g: Shared, now: int, p: nat, pass: Pass, e: Event)
    requires PassEnabled(pass, e)
    requires (forall o :: SlotOK(g, o)) && NoteOK(g, pass)
    ensures var r := PassStep(c, g, now, p, pass, e);
            Did(g, r.0, ByPass(p), PassJob(pass), PassJob(r.1), PassEffect(g, pass, e)) && NoteOK(r.0, r.1)
  {
    if pass.Noting? {
      assert SlotOK(g, Slot(CancelPhase, pass.k));
    }
  }

  // ---------------------------------------------------------------- one effect, any actor

  /** Every slot but the effect's own keeps its history. */
  ghost predicate SameSlot(g: Shared, h: Shared, o: Slot) {
    && (o in h.marks <==> o in g.marks)
    && (o in h.log.claims <==> o in g.log.claims)
    && (o in g.log.claims ==> h.log.claims[o] == g.log.claims[o])
    && Count(h.log.calls, o) == Count(g.log.calls, o)
    && Count(h.log.replies, o) == Count(g.log.replies, o)
    && (o in h.log.acked <==> o in g.log.acked)
    && (o in h.log.gaveUp <==> o in g.log.gaveUp)
  }

  ghost predicate Touches(e: Effect, o: Slot) {
    match e
    case Quiet => false
    case Claim(slot) => o == slot
    case Lose(slot) => o == slot
    case Attempt(job, _) => o == job.slot
    case Abandon(job) => o == job.slot
  }

  lemma DidFrames(g: Shared, h: Shared, who: Actor, before: Option<Job>, after: Option<Job>, e: Effect, o: Slot)
    requires Did(g, h, who, before, after, e) && !Touches(e, o)
    ensures SameSlot(g, h, o)
  {}

  /** The slot an effect touches stays within its bounds and is settled by the actor's new job. */
  lemma DidOwn(g: Shared, h: Shared, who: Actor, before: Option<Job>, after: Option<Job>, e: Effect, o: Slot)
    requires Did(g, h, who, before, after, e) && Touches(e, o) && SlotOK(g, o)
    requires before.Some? ==> JobOK(g, who, before.value)
    ensures SlotOK(h, o)
    ensures o in g.log.claims ==> o in h.log.claims && h.log.claims[o] == g.log.claims[o]
    ensures !(after.Some? && after.value.slot == o) ==>
              o in h.log.acked || o in h.log.gaveUp || (e.Lose? && SameSlot(g, h, o))
    ensures after.Some? ==> JobOK(h, who, after.value)
    ensures o in g.log.claims && g.log.claims[o] != who ==> SameSlot(g, h, o)
    ensures o in g.log.gaveUp ==> o in h.log.gaveUp
  {}

  /** The state in which an actor's job went from before to after and nobody else's changed. */
  ghost predicate OnlyMoved(s: State, t: State, who: Actor, before: Option<Job>, after: Option<Job>) {
    && JobOf(s, who) == before && JobOf(t, who) == after
    && forall a :: a != who ==> JobOf(t, a) == JobOf(s, a)
  }

  lemma SlotStays(s: State, t: State, who: Actor, e: Effect, o: Slot)
    requires Claimed(s)
    requires OnlyMoved(s, t, who, JobOf(s, who), JobOf(t, who))
    requires Did(s.sh, t.sh, who, JobOf(s, who), JobOf(t, who), e)
    ensures SlotOK(t.sh, o) && Settled(t, o)
    ensures o in s.sh.log.claims ==> o in t.sh.log.claims && t.sh.log.claims[o] == s.sh.log.claims[o]
    ensures o in s.sh.log.gaveUp ==> o in t.sh.log.gaveUp
  {
    assert SlotOK(s.sh, o) && Settled(s, o);
    if Touches(e, o) {
      DidOwn(s.sh, t.sh, who, JobOf(s, who), JobOf(t, who), e, o);
      if e.Lose? && InProgress(s, o) { assert s.sh.log.claims[o] != who; }
    } else {
      DidFrames(s.sh, t.sh, who, JobOf(s, who), JobOf(t, who), e, o);
      if InProgress(s, o) && s.sh.log.claims[o] == who { assert false; }
    }
  }

  lemma JobsStay(s: State, t: State, who: Actor, e: Effect, a: Actor)
    requires Claimed(s)
    requires OnlyMoved(s, t, who, JobOf(s, who), JobOf(t, who))
    requires Did(s.sh, t.sh, who, JobOf(s, who), JobOf(t, who), e)
    requires JobOf(t, a).Some?
    ensures JobOK(t.sh, a, JobOf(t, a).value)
  {
    var o := JobOf(t, a).value.slot;
    if a == who {
      assert SlotOK(s.sh, o);
      DidOwn(s.sh, t.sh, who, JobOf(s, who), JobOf(t, who), e, o);
    } else {
      assert JobOK(s.sh, a, JobOf(s, a).value) && SlotOK(s.sh, o);
      if Touches(e, o) {
        DidOwn(s.sh, t.sh, who, JobOf(s, who), JobOf(t, who), e, o);
      } else {
        DidFrames(s.sh, t.sh, who, JobOf(s, who), JobOf(t, who), e, o);
      }
    }
  }

  /** Marks, once claimed, belong to their claimant forever. */
  ghost predicate ClaimsKept(g: Shared, h: Shared) {
    && (forall o :: o in g.log.claims ==> o in h.log.claims && h.log.claims[o] == g.log.claims[o])
    && g.log.gaveUp <= h.log.gaveUp
  }

  lemma EffectKeeps(s: State, t: State, who: Actor, e: Effect)
    requires Claimed(s)
    requires OnlyMoved(s, t, who, JobOf(s, who), JobOf(t, who))
    requires Did(s.sh, t.sh, who, JobOf(s, who), JobOf(t, who), e)
    requires forall p :: 0 <= p < |t.passes| ==>
            (p < |s.passes| && t.passes[p] == s.passes[p]) || NoteOK(t.sh, t.passes[p])
    ensures Claimed(t) && ClaimsKept(s.sh, t.sh)
  {
    forall o ensures SlotOK(t.sh, o) && Settled(t, o) { SlotStays(s, t, who, e, o); }
    forall a | JobOf(t, a).Some? ensures JobOK(t.sh, a, JobOf(t, a).value) { JobsStay(s, t, who, e, a); }
    forall o | o in s.sh.log.claims ensures o in t.sh.log.claims && t.sh.log.claims[o] == s.sh.log.claims[o] {
      SlotStays(s, t, who, e, o);
    }
    forall o | o in s.sh.log.gaveUp ensures o in t.sh.log.gaveUp { SlotStays(s, t, who, e, o); }
    forall p | 0 <= p < |t.passes| ensures NoteOK(t.sh, t.passes[p]) {
      if p < |s.passes| { assert NoteOK(s.sh, s.passes[p]); }
    }
  }

  // ---------------------------------------------------------------- every step, every run

  lemma StepClaimed(c: Config, s: State, st: Step)
    requires Claimed(s) && Enabled(c, s, st)
    ensures Claimed(Apply(c, s, st)) && ClaimsKept(s.sh, Apply(c, s, st).sh)
  {
    var t := Apply(c, s, st);
    match st
    case Goroutine(i, e) =>
      ThreadDid(c, s.sh, i, s.threads[i], e);
      EffectKeeps(s, t, ByGoroutine(i), ThreadEffect(s.sh, i, s.threads[i], e));
    case MovePass(p, e) =>
      PassDid(c, s.sh, s.now, p, s.passes[p], e);
      EffectKeeps(s, t, ByPass(p), PassEffect(s.sh, s.passes[p], e));
    case StopPass(p) =>
      EffectKeeps(s, t, ByPass(p), if s.passes[p].Calling? then Abandon(PassJob(s.passes[p]).value) else Quiet);
    case Decide(_) => EffectKeeps(s, t, ByPass(|s.passes|), Quiet);
    case StartPass => EffectKeeps(s, t, ByPass(|s.passes|), Quiet);
    case Return => EffectKeeps(s, t, ByPass(|s.passes|), Quiet);
    case Tick(_) => EffectKeeps(s, t, ByPass(|s.passes|), Quiet);
    case Evict => EffectKeeps(s, t, ByPass(|s.passes|), Quiet);
  }

  lemma {:induction false} RunClaimed(c: Config, s: State, steps: seq<Step>)
    requires Claimed(s) && CanRun(c, s, steps)
    ensures Claimed(Run(c, s, steps)) && ClaimsKept(s.sh, Run(c, s, steps).sh)
    decreases |steps|
  {
    if steps != [] {
      StepClaimed(c, s, steps[0]);
      RunClaimed(c, Apply(c, s, steps[0]), steps[1..]);
    }
  }

  lemma ExecutionClaimed(c: Config, cached: bool, steps: seq<Step>)
    requires IsExecution(c, cached, steps)
    ensures Claimed(FinalState(c, cached, steps))
  {
    RunClaimed(c, Init(c, cached), steps);
  }
}
