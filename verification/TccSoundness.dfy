/**
 Soundness of every copy of the transaction record.

 The invariant below holds of the row, of the Redis copy and of every snapshot a goroutine
 or a pass is holding, however stale: an entry says Successful only if that component's Try
 was acknowledged and its goroutine has already done its one row write, and says Failure
 only if the Try was refused.
 */
module TccSoundness {
  import opened Common
  import opened TccModel

  // ---------------------------------------------------------------- invariant

  ghost predicate Shaped(c: Config, g: Shared) { |c.ids| == |g.outcome| }

  /** Component i was acknowledged and its row write is done. */
  ghost predicate Recorded(g: Shared, i: nat)
    requires i < |g.outcome|
  {
    g.outcome[i] == Acked && i in g.written
  }

  ghost predicate Committed(c: Config, g: Shared)
    requires Shaped(c, g)
  {
    forall i :: 0 <= i < |c.ids| ==> Recorded(g, i)
  }

  /** The only reasons to cancel: a refused Try, or a verdict by timeout. */
  ghost predicate Cancellable(g: Shared) {
    g.lateVerdict || exists i :: 0 <= i < |g.outcome| && g.outcome[i] == Refused
  }

  ghost predicate ConfirmMarked(g: Shared, n: nat) {
    forall i :: 0 <= i < n ==> Slot(ConfirmPhase, i) in g.marks
  }

  ghost predicate EntryOK(c: Config, g: Shared, i: nat, e: Entry)
    requires Shaped(c, g) && i < |c.ids|
  {
    && e.id == c.ids[i]
    && (e.status == Successful ==> Recorded(g, i))
    && (e.status == Failure ==> g.outcome[i] == Refused)
  }

  ghost predicate StatusOK(c: Config, g: Shared, st: Status)
    requires Shaped(c, g)
  {
    st == Successful ==> Committed(c, g) && ConfirmMarked(g, |c.ids|)
  }

  ghost predicate RecordOK(c: Config, g: Shared, rec: Record)
    requires Shaped(c, g)
  {
    && |rec.components| == |c.ids|
    && (forall i :: 0 <= i < |c.ids| ==> EntryOK(c, g, i, rec.components[i]))
    && StatusOK(c, g, rec.status)
  }

  ghost predicate StoreOK(c: Config, g: Shared)
    requires Shaped(c, g)
  {
    RecordOK(c, g, g.row) && (g.cache.Some? ==> RecordOK(c, g, g.cache.value))
  }

  /** A goroutine's own edit runs ahead of its row write. */
  ghost predicate EditedOK(c: Config, g: Shared, i: nat, accept: bool, rec: Record)
    requires Shaped(c, g) && i < |c.ids|
  {
    && |rec.components| == |c.ids|
    && rec.components[i] == Entry(c.ids[i], StatusOf(accept))
    && (forall j :: 0 <= j < |c.ids| && j != i ==> EntryOK(c, g, j, rec.components[j]))
    && StatusOK(c, g, rec.status)
  }

  ghost predicate ThreadOK(c: Config, g: Shared, i: nat, t: Thread)
    requires Shaped(c, g) && i < |c.ids|
  {
    match t
    case Start => g.outcome[i] == NotYet && i !in g.written && Slot(TryPhase, i) !in g.marks
    case Trying(_) => g.outcome[i] == NotYet && i !in g.written
    case Reading(accept) => g.outcome[i] == OutcomeOf(accept) && i !in g.written
    case ReadingRow(accept) => g.outcome[i] == OutcomeOf(accept) && i !in g.written
    case Writing(accept, rec) =>
      g.outcome[i] == OutcomeOf(accept) && i !in g.written && EditedOK(c, g, i, accept, rec)
    case Caching(accept, rec) =>
      g.outcome[i] == OutcomeOf(accept) && i in g.written && RecordOK(c, g, rec)
    case Ended(erred) => if erred then Recorded(g, i) ==> g.lostReply else Recorded(g, i)
  }

  ghost predicate PassOK(c: Config, g: Shared, p: Pass)
    requires Shaped(c, g)
  {
    match p
    case Filling(rec) => RecordOK(c, g, rec)
    case Judging(rec) => RecordOK(c, g, rec)
    case Marking(success, k) =>
      if success then Committed(c, g) && ConfirmMarked(g, k) else Cancellable(g)
    case Calling(success, k, _) =>
      if success then Committed(c, g) && ConfirmMarked(g, k + 1) else Cancellable(g)
    case Noting(_) => Cancellable(g)
    case Submitting(success, _) => StatusOK(c, g, StatusOf(success))
    case Refreshing(success, _) => StatusOK(c, g, StatusOf(success))
    case Republishing(success, _, rec) => RecordOK(c, g, rec)
    case _ => true
  }

  ghost predicate CallsOK(c: Config, g: Shared)
    requires Shaped(c, g)
  {
    && (forall i: nat :: Count(g.log.calls, Slot(ConfirmPhase, i)) > 0 ==> Committed(c, g))
    && (forall i: nat :: Count(g.log.calls, Slot(CancelPhase, i)) > 0 ==> Cancellable(g))
  }

  ghost predicate CallerOK(s: State) {
    match s.caller
    case Waiting => true
    case Advancing(ok, _) => Tally(s.threads, ok)
    case Returned(ok) => Tally(s.threads, ok)
  }

  ghost predicate Sound(c: Config, s: State) {
    && Shaped(c, s.sh)
    && |s.threads| == |c.ids|
    && StoreOK(c, s.sh)
    && CallsOK(c, s.sh)
    && (forall i :: 0 <= i < |c.ids| ==> ThreadOK(c, s.sh, i, s.threads[i]))
    && (forall p :: 0 <= p < |s.passes| ==> PassOK(c, s.sh, s.passes[p]))
    && CallerOK(s)
  }

  // ---------------------------------------------------------------- what never shrinks

  /** Try outcomes are final, row writes are not undone, marks stay. */
  ghost predicate Grows(g: Shared, h: Shared) {
    && |g.outcome| == |h.outcome|
    && (forall i :: 0 <= i < |g.outcome| && g.outcome[i] != NotYet ==> h.outcome[i] == g.outcome[i])
    && g.written <= h.written
    && g.marks <= h.marks
    && (g.lateVerdict ==> h.lateVerdict)
    && (g.lostReply ==> h.lostReply)
  }

  lemma CommittedStays(c: Config, g: Shared, h: Shared)
    requires Grows(g, h) && Shaped(c, g) && Committed(c, g)
    ensures Committed(c, h)
  {
    forall i | 0 <= i < |c.ids| ensures Recorded(h, i) { assert Recorded(g, i); }
  }

  lemma CancellableStays(g: Shared, h: Shared)
    requires Grows(g, h) && Cancellable(g)
    ensures Cancellable(h)
  {
    if !g.lateVerdict {
      var i :| 0 <= i < |g.outcome| && g.outcome[i] == Refused;
      assert h.outcome[i] == Refused;
    }
  }

  lemma StatusStaysOK(c: Config, g: Shared, h: Shared, st: Status)
    requires Grows(g, h) && Shaped(c, g) && StatusOK(c, g, st)
    ensures StatusOK(c, h, st)
  {
    if st == Successful { CommittedStays(c, g, h); }
  }

  lemma RecordStaysOK(c: Config, g: Shared, h: Shared, rec: Record)
    requires Grows(g, h) && Shaped(c, g) && RecordOK(c, g, rec)
    ensures RecordOK(c, h, rec)
  {
    forall i | 0 <= i < |c.ids| ensures EntryOK(c, h, i, rec.components[i]) {
      assert EntryOK(c, g, i, rec.components[i]);
    }
    StatusStaysOK(c, g, h, rec.status);
  }

  lemma PassStaysOK(c: Config, g: Shared, h: Shared, p: Pass)
    requires Grows(g, h) && Shaped(c, g) && PassOK(c, g, p)
    ensures PassOK(c, h, p)
  {
    match p
    case Filling(rec) => RecordStaysOK(c, g, h, rec);
    case Judging(rec) => RecordStaysOK(c, g, h, rec);
    case Republishing(_, _, rec) => RecordStaysOK(c, g, h, rec);
    case Marking(success, _) => if success { CommittedStays(c, g, h); } else { CancellableStays(g, h); }
    case Calling(success, _, _) => if success { CommittedStays(c, g, h); } else { CancellableStays(g, h); }
    case Noting(_) => CancellableStays(g, h);
    case Submitting(success, _) => StatusStaysOK(c, g, h, StatusOf(success));
    case Refreshing(success, _) => StatusStaysOK(c, g, h, StatusOf(success));
    case _ =>
  }

  /** What a step of another actor leaves of goroutine i: its outcome, its write, its mark. */
  ghost predicate Untouched(g: Shared, h: Shared, i: nat) {
    && i < |g.outcome| == |h.outcome|
    && h.outcome[i] == g.outcome[i]
    && (i in h.written <==> i in g.written)
    && (Slot(TryPhase, i) in h.marks <==> Slot(TryPhase, i) in g.marks)
  }

  lemma ThreadStaysOK(c: Config, g: Shared, h: Shared, i: nat, t: Thread)
    requires Grows(g, h) && Shaped(c, g) && i < |c.ids| && ThreadOK(c, g, i, t) && Untouched(g, h, i)
    ensures ThreadOK(c, h, i, t)
  {
    match t
    case Writing(accept, rec) =>
      forall j | 0 <= j < |c.ids| && j != i ensures EntryOK(c, h, j, rec.components[j]) {
        assert EntryOK(c, g, j, rec.components[j]);
      }
      StatusStaysOK(c, g, h, rec.status);
    case Caching(accept, rec) => RecordStaysOK(c, g, h, rec);
    case _ =>
  }

  lemma StoreStaysOK(c: Config, g: Shared, h: Shared)
    requires Grows(g, h) && Shaped(c, g) && StoreOK(c, g)
    requires h.row == g.row && (h.cache == g.cache || h.cache == None)
    ensures StoreOK(c, h)
  {
    RecordStaysOK(c, g, h, g.row);
    if g.cache.Some? { RecordStaysOK(c, g, h, g.cache.value); }
  }

  lemma CallsStayOK(c: Config, g: Shared, h: Shared)
    requires Grows(g, h) && Shaped(c, g) && CallsOK(c, g)
    requires forall o: Slot :: o.phase != TryPhase ==> Count(h.log.calls, o) == Count(g.log.calls, o)
    ensures CallsOK(c, h)
  {
    if Committed(c, g) { CommittedStays(c, g, h); }
    if Cancellable(g) { CancellableStays(g, h); }
  }

  // ---------------------------------------------------------------- goroutine steps

  lemma EditIsSound(c: Config, g: Shared, rec: Record, i: nat, accept: bool)
    requires ValidConfig(c) && Shaped(c, g) && i < |c.ids| && RecordOK(c, g, rec)
    ensures EditedOK(c, g, i, accept, Edited(c, rec, i, accept))
  {
    assert forall j :: 0 <= j < |c.ids| ==> EntryOK(c, g, j, rec.components[j]);
    SetStatusAt(rec.components, c.ids[i], StatusOf(accept), i);
  }

  /** What one step of goroutine i owes to the invariant. */
  ghost predicate ThreadDuty(c: Config, g: Shared, i: nat, h: Shared, t: Thread)
    requires Shaped(c, g) && i < |c.ids|
  {
    && Grows(g, h) && StoreOK(c, h) && CallsOK(c, h) && ThreadOK(c, h, i, t)
    && (forall j :: 0 <= j < |c.ids| && j != i ==> Untouched(g, h, j))
  }

  lemma ThreadMarkDuty(c: Config, g: Shared, i: nat, fault: Fault)
    requires Shaped(c, g) && StoreOK(c, g) && CallsOK(c, g) && i < |c.ids| && ThreadOK(c, g, i, Start)
    ensures var r := ThreadMark(g, i, fault); ThreadDuty(c, g, i, r.0, r.1)
  {
    var h := ThreadMark(g, i, fault).0;
    StoreStaysOK(c, g, h);
    CallsStayOK(c, g, h);
  }

  lemma ThreadCallDuty(c: Config, g: Shared, i: nat, attempts: nat, reply: Reply)
    requires Shaped(c, g) && StoreOK(c, g) && CallsOK(c, g)
    requires i < |c.ids| && ThreadOK(c, g, i, Trying(attempts))
    ensures var r := ThreadCall(g, i, attempts, reply); ThreadDuty(c, g, i, r.0, r.1)
  {
    var h := ThreadCall(g, i, attempts, reply).0;
    StoreStaysOK(c, g, h);
    CallsStayOK(c, g, h);
  }

  lemma ThreadWriteDuty(c: Config, g: Shared, i: nat, accept: bool, rec: Record, fault: Fault)
    requires Shaped(c, g) && StoreOK(c, g) && CallsOK(c, g)
    requires i < |c.ids| && ThreadOK(c, g, i, Writing(accept, rec))
    ensures var r := ThreadWrite(g, i, accept, rec, fault); ThreadDuty(c, g, i, r.0, r.1)
  {
    var h := ThreadWrite(g, i, accept, rec, fault).0;
    CallsStayOK(c, g, h);
    if fault.ErrorNotApplied? {
      StoreStaysOK(c, g, h);
    } else {
      forall j | 0 <= j < |c.ids| ensures EntryOK(c, h, j, rec.components[j]) {
        if j != i { assert EntryOK(c, g, j, rec.components[j]); }
      }
      StatusStaysOK(c, g, h, rec.status);
      StatusStaysOK(c, g, h, g.row.status);
      if g.cache.Some? { RecordStaysOK(c, g, h, g.cache.value); }
    }
  }

  lemma ThreadStepDuty(c: Config, g: Shared, i: nat, t: Thread, e: Event)
    requires ValidConfig(c) && Shaped(c, g) && StoreOK(c, g) && CallsOK(c, g)
    requires i < |c.ids| && ThreadOK(c, g, i, t) && ThreadEnabled(t, e)
    ensures var r := ThreadStep(c, g, i, t, e); ThreadDuty(c, g, i, r.0, r.1)
  {
    match t
    case Start => ThreadMarkDuty(c, g, i, e.fault);
    case Trying(attempts) => ThreadCallDuty(c, g, i, attempts, e.reply);
    case Reading(accept) => if g.cache.Some? { EditIsSound(c, g, g.cache.value, i, accept); }
    case ReadingRow(accept) => EditIsSound(c, g, g.row, i, accept);
    case Writing(accept, rec) => ThreadWriteDuty(c, g, i, accept, rec, e.fault);
    case Caching(accept, rec) =>
      var h := Stored(g, rec, e.failed);
      RecordStaysOK(c, g, h, rec);
      RecordStaysOK(c, g, h, g.row);
      CallsStayOK(c, g, h);
  }

  // ---------------------------------------------------------------- pass steps

  /** What one step of a pass owes to the invariant. */
  ghost predicate PassDuty(c: Config, g: Shared, h: Shared, p: Pass)
    requires Shaped(c, g)
  {
    && Grows(g, h) && StoreOK(c, h) && CallsOK(c, h) && PassOK(c, h, p)
    && (forall j :: 0 <= j < |c.ids| ==> Untouched(g, h, j))
  }

  /** A snapshot judged Successful proves the commit; a Failure entry justifies the cancel. */
  lemma VerdictJustified(c: Config, g: Shared, rec: Record)
    requires Shaped(c, g) && RecordOK(c, g, rec)
    ensures AllSuccessful(rec.components) ==> Committed(c, g)
    ensures HasFailure(rec.components) ==> Cancellable(g)
  {
    forall i | 0 <= i < |c.ids| && rec.components[i].status == Successful ensures Recorded(g, i) {
      assert EntryOK(c, g, i, rec.components[i]);
    }
    forall i | 0 <= i < |c.ids| && rec.components[i].status == Failure ensures g.outcome[i] == Refused {
      assert EntryOK(c, g, i, rec.components[i]);
    }
  }

  lemma PassJudgeDuty(c: Config, g: Shared, now: int, rec: Record)
    requires ValidConfig(c) && Shaped(c, g) && StoreOK(c, g) && CallsOK(c, g) && RecordOK(c, g, rec)
    ensures var r := PassJudge(c, g, now, rec); PassDuty(c, g, r.0, r.1)
  {
    var h := PassJudge(c, g, now, rec).0;
    VerdictJustified(c, g, rec);
    if Committed(c, g) { CommittedStays(c, g, h); }
    if Cancellable(g) { CancellableStays(g, h); }
    StoreStaysOK(c, g, h);
    CallsStayOK(c, g, h);
  }

  lemma PassMarkDuty(c: Config, g: Shared, p: nat, success: bool, k: nat, fault: Fault)
    requires Shaped(c, g) && StoreOK(c, g) && CallsOK(c, g) && PassOK(c, g, Marking(success, k))
    ensures var r := PassMark(c, g, p, success, k, fault); PassDuty(c, g, r.0, r.1)
  {
    var r := PassMark(c, g, p, success, k, fault);
    MarkedOK(c, g, r.0, success, k);
    StoreStaysOK(c, g, r.0);
    CallsStayOK(c, g, r.0);
  }

  /** Adding the mark of component k takes the loop past it. */
  lemma MarkedOK(c: Config, g: Shared, h: Shared, success: bool, k: nat)
    requires Shaped(c, g) && PassOK(c, g, Marking(success, k))
    requires h.marks == g.marks || h.marks == g.marks + {Slot(PhaseOf(success), k)}
    requires h.outcome == g.outcome && h.written == g.written
    requires h.lateVerdict == g.lateVerdict && h.lostReply == g.lostReply
    ensures Grows(g, h) && forall j :: 0 <= j < |c.ids| ==> Untouched(g, h, j)
    ensures Slot(PhaseOf(success), k) in h.marks ==>
              PassOK(c, h, Calling(success, k, 0)) && PassOK(c, h, AtComponent(c, success, k + 1))
  {
    if success { CommittedStays(c, g, h); } else { CancellableStays(g, h); }
  }

  lemma PassCallDuty(c: Config, g: Shared, success: bool, k: nat, attempts: nat, reply: Reply)
    requires Shaped(c, g) && StoreOK(c, g) && CallsOK(c, g) && PassOK(c, g, Calling(success, k, attempts))
    ensures var r := PassCall(c, g, success, k, attempts, reply); PassDuty(c, g, r.0, r.1)
  {
    var h := PassCall(c, g, success, k, attempts, reply).0;
    StoreStaysOK(c, g, h);
    var slot := Slot(PhaseOf(success), k);
    assert forall o :: o != slot ==> Count(h.log.calls, o) == Count(g.log.calls, o);
    if Committed(c, g) { CommittedStays(c, g, h); }
    if Cancellable(g) { CancellableStays(g, h); }
  }

  lemma PassSubmitDuty(c: Config, g: Shared, success: bool, expiry: bool, fault: Fault)
    requires Shaped(c, g) && StoreOK(c, g) && CallsOK(c, g) && PassOK(c, g, Submitting(success, expiry))
    ensures var r := PassSubmit(g, success, expiry, fault); PassDuty(c, g, r.0, r.1)
  {
    var h := PassSubmit(g, success, expiry, fault).0;
    StatusStaysOK(c, g, h, StatusOf(success));
    RecordStaysOK(c, g, h, g.row);
    assert forall i :: 0 <= i < |c.ids| ==> EntryOK(c, h, i, g.row.components[i]);
    if g.cache.Some? { RecordStaysOK(c, g, h, g.cache.value); }
    CallsStayOK(c, g, h);
  }

  /** Writing a sound snapshot to Redis, however stale it is. */
  lemma StoredDuty(c: Config, g: Shared, rec: Record, failed: bool, p: Pass)
    requires Shaped(c, g) && StoreOK(c, g) && CallsOK(c, g) && RecordOK(c, g, rec) && PassOK(c, g, p)
    ensures PassDuty(c, g, Stored(g, rec, failed), p)
  {
    var h := Stored(g, rec, failed);
    RecordStaysOK(c, g, h, rec);
    RecordStaysOK(c, g, h, g.row);
    CallsStayOK(c, g, h);
    PassStaysOK(c, g, h, p);
  }

  lemma PassNoteDuty(c: Config, g: Shared, k: nat, failed: bool)
    requires Shaped(c, g) && StoreOK(c, g) && CallsOK(c, g) && Cancellable(g)
    ensures var h := if failed then g else g.(marks := g.marks + {Slot(CancelPhase, k)});
            PassDuty(c, g, h, AtComponent(c, false, k + 1))
  {
    var h := if failed then g else g.(marks := g.marks + {Slot(CancelPhase, k)});
    CancellableStays(g, h);
    StoreStaysOK(c, g, h);
    CallsStayOK(c, g, h);
  }

  lemma PassStepDuty(c: Config, g: Shared, now: int, p: nat, pass: Pass, e: Event)
    requires ValidConfig(c) && Shaped(c, g) && StoreOK(c, g) && CallsOK(c, g)
    requires PassOK(c, g, pass) && PassEnabled(pass, e)
    ensures var r := PassStep(c, g, now, p, pass, e); PassDuty(c, g, r.0, r.1)
  {
    match pass
    case Fetching =>
    case FetchingRow =>
    case Filling(rec) => StoredDuty(c, g, rec, e.failed, Judging(rec));
    case Requerying =>
    case Judging(rec) => PassJudgeDuty(c, g, now, rec);
    case Marking(success, k) => PassMarkDuty(c, g, p, success, k, e.fault);
    case Calling(success, k, attempts) => PassCallDuty(c, g, success, k, attempts, e.reply);
    case Noting(k) => PassNoteDuty(c, g, k, e.failed);
    case Submitting(success, expiry) => PassSubmitDuty(c, g, success, expiry, e.fault);
    case Refreshing(success, expiry) =>
      if g.cache.Some? {
        assert forall i :: 0 <= i < |c.ids| ==> EntryOK(c, g, i, g.cache.value.components[i]);
      }
    case Republishing(_, expiry, rec) => StoredDuty(c, g, rec, e.failed, AfterSubmit(expiry));
  }

  // ---------------------------------------------------------------- every step, every run

  lemma GoroutineSound(c: Config, s: State, i: nat, h: Shared, t: Thread)
    requires Sound(c, s) && i < |c.ids| && !s.threads[i].Ended? && ThreadDuty(c, s.sh, i, h, t)
    ensures Sound(c, s.(sh := h, threads := s.threads[i := t]))
  {
    forall j | 0 <= j < |c.ids| && j != i ensures ThreadOK(c, h, j, s.threads[j]) {
      ThreadStaysOK(c, s.sh, h, j, s.threads[j]);
    }
    forall p | 0 <= p < |s.passes| ensures PassOK(c, h, s.passes[p]) { PassStaysOK(c, s.sh, h, s.passes[p]); }
    TallyStays(s.threads, i, t);
  }

  lemma TallyStays(threads: seq<Thread>, i: nat, t: Thread)
    requires i < |threads| && !threads[i].Ended?
    ensures Tally(threads, false) ==> Tally(threads[i := t], false)
    ensures !Tally(threads, true)
  {
    if Tally(threads, false) {
      var k :| 0 <= k < |threads| && threads[k] == Ended(true);
      assert threads[i := t][k] == Ended(true);
    }
  }

  lemma MoveSound(c: Config, s: State, p: nat, h: Shared, q: Pass)
    requires Sound(c, s) && p < |s.passes| && PassDuty(c, s.sh, h, q)
    ensures Sound(c, s.(sh := h, passes := s.passes[p := q]))
  {
    forall j | 0 <= j < |c.ids| ensures ThreadOK(c, h, j, s.threads[j]) {
      ThreadStaysOK(c, s.sh, h, j, s.threads[j]);
    }
    forall r | 0 <= r < |s.passes| && r != p ensures PassOK(c, h, s.passes[r]) {
      PassStaysOK(c, s.sh, h, s.passes[r]);
    }
  }

  lemma StopDuty(c: Config, g: Shared, pass: Pass)
    requires Shaped(c, g) && StoreOK(c, g) && CallsOK(c, g)
    ensures PassDuty(c, g, PassStopped(g, pass), Finished)
  {
    StoreStaysOK(c, g, PassStopped(g, pass));
    CallsStayOK(c, g, PassStopped(g, pass));
  }

  lemma EvictSound(c: Config, s: State)
    requires Sound(c, s)
    ensures Sound(c, s.(sh := s.sh.(cache := None)))
  {
    var h := s.sh.(cache := None);
    StoreStaysOK(c, s.sh, h);
    CallsStayOK(c, s.sh, h);
    forall j | 0 <= j < |c.ids| ensures ThreadOK(c, h, j, s.threads[j]) {
      ThreadStaysOK(c, s.sh, h, j, s.threads[j]);
    }
    forall r | 0 <= r < |s.passes| ensures PassOK(c, h, s.passes[r]) { PassStaysOK(c, s.sh, h, s.passes[r]); }
  }

  lemma StepSound(c: Config, s: State, st: Step)
    requires ValidConfig(c) && Sound(c, s) && Enabled(c, s, st)
    ensures Sound(c, Apply(c, s, st))
    ensures Grows(s.sh, Apply(c, s, st).sh)
  {
    match st
    case Goroutine(i, e) =>
      ThreadStepDuty(c, s.sh, i, s.threads[i], e);
      var (h, t) := ThreadStep(c, s.sh, i, s.threads[i], e);
      GoroutineSound(c, s, i, h, t);
    case MovePass(p, e) =>
      PassStepDuty(c, s.sh, s.now, p, s.passes[p], e);
      var (h, q) := PassStep(c, s.sh, s.now, p, s.passes[p], e);
      MoveSound(c, s, p, h, q);
    case StopPass(p) =>
      StopDuty(c, s.sh, s.passes[p]);
      MoveSound(c, s, p, PassStopped(s.sh, s.passes[p]), Finished);
    case Evict => EvictSound(c, s);
    case _ =>
  }

  lemma InitSound(c: Config, cached: bool)
    ensures Sound(c, Init(c, cached))
  {}

  lemma {:induction false} RunSound(c: Config, s: State, steps: seq<Step>)
    requires ValidConfig(c) && Sound(c, s) && CanRun(c, s, steps)
    ensures Sound(c, Run(c, s, steps))
    ensures Grows(s.sh, Run(c, s, steps).sh)
    decreases |steps|
  {
    if steps != [] {
      StepSound(c, s, steps[0]);
      RunSound(c, Apply(c, s, steps[0]), steps[1..]);
    }
  }

  lemma ExecutionSound(c: Config, cached: bool, steps: seq<Step>)
    requires IsExecution(c, cached, steps)
    ensures Sound(c, FinalState(c, cached, steps))
  {
    InitSound(c, cached);
    RunSound(c, Init(c, cached), steps);
  }
}
