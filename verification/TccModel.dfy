/**
 The try/confirm/cancel protocol of one transaction, as a transition system.

 The database row, the Redis copy of the record, the Redis idempotency marks, one
 goroutine per component (its Try and its TXUpdate), the caller of twoPhaseCommit and
 any number of passes (the caller's advanceProgressByTXID and every monitor round, on
 any node) move one database or Redis call at a time, in any order. Every call may
 fail, and a call that reports an error may still have been applied.

 Transactions do not share marks (see TccStore.KeyIsInjective), so one transaction at a
 time is enough.
 */
module TccModel {
  import opened Common

  // ---------------------------------------------------------------- records

  datatype Status = Hanging | Successful | Failure

  datatype Entry = Entry(id: string, status: Status)

  /** What the row and the Redis copy hold, apart from the constant creation time. */
  datatype Record = Record(components: seq<Entry>, status: Status)

  ghost predicate HasFailure(es: seq<Entry>) {
    exists i :: 0 <= i < |es| && es[i].status == Failure
  }

  ghost predicate AllSuccessful(es: seq<Entry>) {
    forall i :: 0 <= i < |es| ==> es[i].status == Successful
  }

  /** The decision on a snapshot, said without the loop that computes it. */
  ghost function Verdict(es: seq<Entry>, createdAt: int, createdBefore: int): Status {
    if HasFailure(es) then Failure
    else if AllSuccessful(es) then Successful
    else if createdAt < createdBefore then Failure
    else Hanging
  }

  /** The edit TXUpdate makes to the record it read: the first entry with that id. */
  function SetStatus(es: seq<Entry>, id: string, st: Status): (r: seq<Entry>)
    ensures |r| == |es|
    ensures forall i :: 0 <= i < |es| ==> r[i].id == es[i].id
  {
    if es == [] then []
    else if es[0].id == id then [Entry(id, st)] + es[1..]
    else [es[0]] + SetStatus(es[1..], id, st)
  }

  lemma {:induction false} SetStatusAt(es: seq<Entry>, id: string, st: Status, i: nat)
    requires i < |es| && es[i].id == id
    requires forall j :: 0 <= j < i ==> es[j].id != id
    ensures SetStatus(es, id, st) == es[i := Entry(id, st)]
  {
    if i > 0 { SetStatusAt(es[1..], id, st, i - 1); }
  }

  lemma {:induction false} SetStatusMissing(es: seq<Entry>, id: string, st: Status)
    requires forall j :: 0 <= j < |es| ==> es[j].id != id
    ensures SetStatus(es, id, st) == es
  {
    if es != [] { SetStatusMissing(es[1..], id, st); }
  }

  function StatusOf(accept: bool): Status { if accept then Successful else Failure }

  // ---------------------------------------------------------------- marks and calls

  datatype Phase = TryPhase | ConfirmPhase | CancelPhase

  /** An idempotency key: a phase of a component of this transaction. */
  datatype Slot = Slot(phase: Phase, component: nat)

  datatype Actor = ByGoroutine(index: nat) | ByPass(index: nat)

  function PhaseOf(success: bool): Phase { if success then ConfirmPhase else CancelPhase }

  const MAX_ATTEMPTS := 3

  /** How a participant call ends: an error, or a reply with its ACK flag. */
  datatype Reply = Errored | Answered(ack: bool)

  /** How a store call ends; an error reply does not say whether the call was applied. */
  datatype Fault = NoFault | ErrorApplied | ErrorNotApplied

  /** History of participant calls. It is read by theorems only, never by the protocol. */
  datatype Log = Log(
    claims: map<Slot, Actor>,   // who got past CheckAndMark
    calls: map<Slot, nat>,      // how often the phase was called
    replies: map<Slot, nat>,    // how often a call returned without error
    acked: set<Slot>,           // the claimant's call was acknowledged
    gaveUp: set<Slot>)          // the claimant stopped without an acknowledgement

  function Count(m: map<Slot, nat>, slot: Slot): nat { if slot in m then m[slot] else 0 }

  function LogClaim(log: Log, slot: Slot, who: Actor): Log {
    log.(claims := log.claims[slot := who])
  }

  function LogCall(log: Log, slot: Slot, reply: Reply, last: bool): Log {
    var counted := log.(calls := log.calls[slot := Count(log.calls, slot) + 1]);
    match reply
    case Errored => if last then counted.(gaveUp := log.gaveUp + {slot}) else counted
    case Answered(ack) =>
      var returned := counted.(replies := log.replies[slot := Count(log.replies, slot) + 1]);
      if ack then returned.(acked := log.acked + {slot}) else returned.(gaveUp := log.gaveUp + {slot})
  }

  function LogGaveUp(log: Log, slots: set<Slot>): Log { log.(gaveUp := log.gaveUp + slots) }

  // ---------------------------------------------------------------- actors

  datatype Outcome = NotYet | Acked | Refused

  function OutcomeOf(accept: bool): Outcome { if accept then Acked else Refused }

  /** A Try goroutine of twoPhaseCommit. */
  datatype Thread =
    | Start
    | Trying(attempts: nat)                 // past CheckAndMark, inside executeWithRetry
    | Reading(accept: bool)                 // TXUpdate: about to read Redis
    | ReadingRow(accept: bool)              // Redis did not answer: about to read the row
    | Writing(accept: bool, rec: Record)    // record edited in memory: about to write the row
    | Caching(accept: bool, rec: Record)    // row written: about to write Redis
    | Ended(erred: bool)                    // erred: an error went to errCh

  /** An advanceProgress run with the query that feeds it. */
  datatype Pass =
    | Fetching                              // GetTX: about to read Redis
    | FetchingRow                           // GetTX: about to read the row
    | Filling(rec: Record)                  // GetTX: about to copy the row into Redis
    | Requerying                            // GetHangingTXs: about to run its second query
    | Judging(rec: Record)                  // about to run getStatus
    | Marking(success: bool, k: nat)        // about to CheckAndMark component k
    | Calling(success: bool, k: nat, attempts: nat)
    | Noting(k: nat)                        // Cancel failed for good: about to MarkExplicit
    | Submitting(success: bool, expiry: bool)   // TXSubmit: about to write the status column
    | Refreshing(success: bool, expiry: bool)   // TXSubmit: about to read Redis
    | Republishing(success: bool, expiry: bool, rec: Record)
    | Finished

  datatype Caller = Waiting | Advancing(ok: bool, pass: nat) | Returned(ok: bool)

  datatype Config = Config(ids: seq<string>, createdAt: int, timeout: int)

  /** What getComponents guarantees: at least one component, no id twice. */
  ghost predicate ValidConfig(c: Config) {
    && c.ids != []
    && forall i, j :: 0 <= i < j < |c.ids| ==> c.ids[i] != c.ids[j]
  }

  /** Everything the actors share, with the history that theorems speak about. */
  datatype Shared = Shared(
    row: Record,
    cache: Option<Record>,
    marks: set<Slot>,
    // history
    outcome: seq<Outcome>,      // how each Try ended
    written: set<nat>,          // goroutines whose row write was applied
    log: Log,
    lateVerdict: bool,          // a snapshot with a hanging entry and no failure was judged late
    lostReply: bool)            // an accepting row write was applied but reported as an error

  datatype State = State(now: int, sh: Shared, threads: seq<Thread>, passes: seq<Pass>, caller: Caller)

  // ---------------------------------------------------------------- goroutine steps

  datatype Event =
    | Mark(fault: Fault)
    | Call(reply: Reply)
    | ReadCache(failed: bool)
    | ReadRow(failed: bool)
    | WriteRow(fault: Fault)
    | WriteCache(failed: bool)
    | Query(failed: bool)
    | Judge
    | Note(failed: bool)

  predicate ThreadEnabled(t: Thread, e: Event) {
    match t
    case Start => e.Mark?
    case Trying(_) => e.Call?
    case Reading(_) => e.ReadCache?
    case ReadingRow(_) => e.ReadRow?
    case Writing(_, _) => e.WriteRow?
    case Caching(_, _) => e.WriteCache?
    case Ended(_) => false
  }

  function Edited(c: Config, rec: Record, i: nat, accept: bool): Record
    requires i < |c.ids|
  {
    rec.(components := SetStatus(rec.components, c.ids[i], StatusOf(accept)))
  }

  function Stored(g: Shared, rec: Record, failed: bool): Shared {
    if failed then g else g.(cache := Some(rec))
  }

  function ThreadMark(g: Shared, i: nat, fault: Fault): (Shared, Thread) {
    var slot := Slot(TryPhase, i);
    match fault
    case NoFault =>
      if slot in g.marks then (g, Reading(true))
      else (g.(marks := g.marks + {slot}, log := LogClaim(g.log, slot, ByGoroutine(i))), Trying(0))
    case ErrorApplied =>
      (g.(marks := g.marks + {slot}, log := LogGaveUp(g.log, {slot} - g.marks)), Ended(true))
    case ErrorNotApplied => (g, Ended(true))
  }

  function ThreadCall(g: Shared, i: nat, attempts: nat, reply: Reply): (Shared, Thread)
    requires i < |g.outcome|
  {
    var last := attempts + 1 >= MAX_ATTEMPTS;
    var log := LogCall(g.log, Slot(TryPhase, i), reply, last);
    if reply.Errored? && !last then (g.(log := log), Trying(attempts + 1))
    else
      var accept := reply.Answered? && reply.ack;
      (g.(log := log, outcome := g.outcome[i := OutcomeOf(accept)]), Reading(accept))
  }

  function ThreadWrite(g: Shared, i: nat, accept: bool, rec: Record, fault: Fault): (Shared, Thread) {
    var applied := g.(row := g.row.(components := rec.components), written := g.written + {i});
    match fault
    case NoFault => (applied, Caching(accept, rec))
    case ErrorApplied => (applied.(lostReply := g.lostReply || accept), Ended(true))
    case ErrorNotApplied => (g, Ended(true))
  }

  function ThreadStep(c: Config, g: Shared, i: nat, t: Thread, e: Event): (Shared, Thread)
    requires i < |c.ids| == |g.outcome|
    requires ThreadEnabled(t, e)
  {
    match t
    case Start => ThreadMark(g, i, e.fault)
    case Trying(attempts) => ThreadCall(g, i, attempts, e.reply)
    case Reading(accept) =>
      (g, if !e.failed && g.cache.Some? then Writing(accept, Edited(c, g.cache.value, i, accept))
          else ReadingRow(accept))
    case ReadingRow(accept) =>
      (g, if e.failed then Ended(true) else Writing(accept, Edited(c, g.row, i, accept)))
    case Writing(accept, rec) => ThreadWrite(g, i, accept, rec, e.fault)
    case Caching(accept, rec) => (Stored(g, rec, e.failed), Ended(!accept))
  }

  // ---------------------------------------------------------------- pass steps

  predicate PassEnabled(p: Pass, e: Event) {
    match p
    case Fetching => e.ReadCache?
    case FetchingRow => e.ReadRow?
    case Filling(_) => e.WriteCache?
    case Requerying => e.Query?
    case Judging(_) => e.Judge?
    case Marking(_, _) => e.Mark?
    case Calling(_, _, _) => e.Call?
    case Noting(_) => e.Note?
    case Submitting(_, _) => e.WriteRow?
    case Refreshing(_, _) => e.ReadCache?
    case Republishing(_, _, _) => e.WriteCache?
    case Finished => false
  }

  /** The loop of advanceProgress: component k is next, or the loop is over. */
  function AtComponent(c: Config, success: bool, k: nat): Pass {
    if k < |c.ids| then Marking(success, k) else Submitting(success, false)
  }

  /** GetHangingTXs ignores how TXSubmit ended and queries again. */
  function AfterSubmit(expiry: bool): Pass { if expiry then Requerying else Finished }

  ghost function PassJudge(c: Config, g: Shared, now: int, rec: Record): (Shared, Pass) {
    match Verdict(rec.components, c.createdAt, now - c.timeout)
    case Hanging => (g, Finished)
    case Successful => (g, AtComponent(c, true, 0))
    case Failure =>
      (g.(lateVerdict := g.lateVerdict || !HasFailure(rec.components)), AtComponent(c, false, 0))
  }

  function PassMark(c: Config, g: Shared, p: nat, success: bool, k: nat, fault: Fault): (Shared, Pass) {
    var slot := Slot(PhaseOf(success), k);
    match fault
    case NoFault =>
      if slot in g.marks then (g, AtComponent(c, success, k + 1))
      else (g.(marks := g.marks + {slot}, log := LogClaim(g.log, slot, ByPass(p))), Calling(success, k, 0))
    case ErrorApplied =>
      (g.(marks := g.marks + {slot}, log := LogGaveUp(g.log, {slot} - g.marks)), Finished)
    case ErrorNotApplied => (g, Finished)
  }

  function PassCall(c: Config, g: Shared, success: bool, k: nat, attempts: nat, reply: Reply): (Shared, Pass) {
    var last := attempts + 1 >= MAX_ATTEMPTS;
    var next :=
      match reply
      case Errored =>
        if !last then Calling(success, k, attempts + 1) else if success then Finished else Noting(k)
      case Answered(ack) => if ack then AtComponent(c, success, k + 1) else Finished;
    (g.(log := LogCall(g.log, Slot(PhaseOf(success), k), reply, last)), next)
  }

  function PassSubmit(g: Shared, success: bool, expiry: bool, fault: Fault): (Shared, Pass) {
    var applied := g.(row := g.row.(status := StatusOf(success)));
    match fault
    case NoFault => (applied, Refreshing(success, expiry))
    case ErrorApplied => (applied, AfterSubmit(expiry))
    case ErrorNotApplied => (g, AfterSubmit(expiry))
  }

  ghost function PassStep(c: Config, g: Shared, now: int, p: nat, pass: Pass, e: Event): (Shared, Pass)
    requires PassEnabled(pass, e)
  {
    match pass
    case Fetching => (g, if !e.failed && g.cache.Some? then Judging(g.cache.value) else FetchingRow)
    case FetchingRow => (g, if e.failed then Finished else Filling(g.row))
    case Filling(rec) => (Stored(g, rec, e.failed), Judging(rec))
    case Requerying => (g, if !e.failed && g.row.status == Hanging then Judging(g.row) else Finished)
    case Judging(rec) => PassJudge(c, g, now, rec)
    case Marking(success, k) => PassMark(c, g, p, success, k, e.fault)
    case Calling(success, k, attempts) => PassCall(c, g, success, k, attempts, e.reply)
    case Noting(k) =>
      (if e.failed then g else g.(marks := g.marks + {Slot(CancelPhase, k)}), AtComponent(c, false, k + 1))
    case Submitting(success, expiry) => PassSubmit(g, success, expiry, e.fault)
    case Refreshing(success, expiry) =>
      (g, if !e.failed && g.cache.Some?
          then Republishing(success, expiry, g.cache.value.(status := StatusOf(success)))
          else AfterSubmit(expiry))
    case Republishing(success, expiry, rec) => (Stored(g, rec, e.failed), AfterSubmit(expiry))
  }

  // ---------------------------------------------------------------- the whole system

  /** GetHangingTXs gives up on transactions older than this many seconds. */
  const EXPIRY := 1800

  datatype Step =
    | Tick(seconds: nat)
    | Evict                             // Redis drops its copy of the record
    | Goroutine(i: nat, te: Event)
    | Decide(accept: bool)              // the caller's receive from errCh
    | Return
    | StartPass                         // a monitor's first query saw the row hanging
    | MovePass(p: nat, pe: Event)
    | StopPass(stopped: nat)            // an error return outside the store, or a crash

  ghost predicate Enabled(c: Config, s: State, st: Step) {
    match st
    case Tick(_) => true
    case Evict => true
    case Goroutine(i, e) => i < |c.ids| == |s.threads| == |s.sh.outcome| && ThreadEnabled(s.threads[i], e)
    case Decide(accept) => s.caller.Waiting? && Tally(s.threads, accept)
    case Return => s.caller.Advancing? && s.caller.pass < |s.passes| && s.passes[s.caller.pass].Finished?
    case StartPass => s.sh.row.status == Hanging
    case MovePass(p, e) => p < |s.passes| && PassEnabled(s.passes[p], e)
    case StopPass(p) => p < |s.passes| && !s.passes[p].Finished?
  }

  /** What the first receive from errCh can be: an error someone sent, or the close after none. */
  ghost predicate Tally(threads: seq<Thread>, accept: bool) {
    if accept then forall i :: 0 <= i < |threads| ==> threads[i] == Ended(false)
    else exists i :: 0 <= i < |threads| && threads[i] == Ended(true)
  }

  function PassStopped(g: Shared, pass: Pass): Shared {
    if pass.Calling? then g.(log := LogGaveUp(g.log, {Slot(PhaseOf(pass.success), pass.k)})) else g
  }

  function FirstPass(c: Config, now: int): Pass {
    if c.createdAt < now - EXPIRY then Submitting(false, true) else Requerying
  }

  ghost function Apply(c: Config, s: State, st: Step): State
    requires Enabled(c, s, st)
  {
    match st
    case Tick(d) => s.(now := s.now + d)
    case Evict => s.(sh := s.sh.(cache := None))
    case Goroutine(i, e) =>
      var (g, t) := ThreadStep(c, s.sh, i, s.threads[i], e);
      s.(sh := g, threads := s.threads[i := t])
    case Decide(accept) => s.(caller := Advancing(accept, |s.passes|), passes := s.passes + [Fetching])
    case Return => s.(caller := Returned(s.caller.ok))
    case StartPass => s.(passes := s.passes + [FirstPass(c, s.now)])
    case MovePass(p, e) =>
      var (g, q) := PassStep(c, s.sh, s.now, p, s.passes[p], e);
      s.(sh := g, passes := s.passes[p := q])
    case StopPass(p) => s.(sh := PassStopped(s.sh, s.passes[p]), passes := s.passes[p := Finished])
  }

  /** CreateTX: every entry hanging; the copy into Redis may fail silently. */
  function Init(c: Config, cached: bool): State {
    var rec := Record(seq(|c.ids|, i requires 0 <= i < |c.ids| => Entry(c.ids[i], Hanging)), Hanging);
    var g := Shared(rec, if cached then Some(rec) else None, {}, seq(|c.ids|, i => NotYet), {},
                    Log(map[], map[], map[], {}, {}), false, false);
    State(c.createdAt, g, seq(|c.ids|, i => Start), [], Waiting)
  }

  ghost predicate CanRun(c: Config, s: State, steps: seq<Step>)
    decreases |steps|
  {
    steps == [] || (Enabled(c, s, steps[0]) && CanRun(c, Apply(c, s, steps[0]), steps[1..]))
  }

  ghost function Run(c: Config, s: State, steps: seq<Step>): State
    requires CanRun(c, s, steps)
    decreases |steps|
  {
    if steps == [] then s else Run(c, Apply(c, s, steps[0]), steps[1..])
  }

  ghost predicate IsExecution(c: Config, cached: bool, steps: seq<Step>) {
    ValidConfig(c) && CanRun(c, Init(c, cached), steps)
  }

  ghost function FinalState(c: Config, cached: bool, steps: seq<Step>): State
    requires IsExecution(c, cached, steps)
  {
    Run(c, Init(c, cached), steps)
  }

  /** Running pre and then post is running pre + post. */
  lemma {:induction false} RunAppend(c: Config, s: State, pre: seq<Step>, post: seq<Step>)
    requires CanRun(c, s, pre + post)
    ensures CanRun(c, s, pre)
    ensures CanRun(c, Run(c, s, pre), post)
    ensures Run(c, s, pre + post) == Run(c, Run(c, s, pre), post)
    decreases |pre|
  {
    if pre == [] {
      assert pre + post == post;
    } else {
      assert (pre + post)[1..] == pre[1..] + post;
      RunAppend(c, Apply(c, s, pre[0]), pre[1..], post);
    }
  }
}
