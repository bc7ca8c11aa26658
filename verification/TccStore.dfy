/**
 The store and the loops of the transaction manager in their own, sequential form.

 Each store method is proved against a function of the old row and Redis copy, and each such
 function is shown to be what the steps of TccModel produce when nobody interferes.
 */
module TccStore {
  import opened Common
  import opened TccModel

  // ---------------------------------------------------------------- idempotency keys

  function PhaseName(p: Phase): string {
    match p
    case TryPhase => "try"
    case ConfirmPhase => "confirm"
    case CancelPhase => "cancel"
  }

  function Key(tx: string, component: string, phase: Phase): string {
    "tcc:idem:" + (tx + ":" + (component + ":" + PhaseName(phase)))
  }

  predicate NoColon(s: string) { forall i :: 0 <= i < |s| ==> s[i] != ':' }

  lemma HeadIsUnique(a: string, b: string, x: string, y: string)
    requires NoColon(a) && NoColon(b) && a + ":" + x == b + ":" + y
    ensures a == b && x == y
  {
    var l, r := a + ":" + x, b + ":" + y;
    assert l[|a|] == ':' && r[|b|] == ':';
    assert forall i :: 0 <= i < |a| ==> l[i] == a[i];
    assert forall i :: 0 <= i < |b| ==> r[i] == b[i];
    assert |a| == |b|;
    assert l[|a| + 1..] == x && r[|b| + 1..] == y;
  }

  lemma TailIsUnique(a: string, b: string, x: string, y: string)
    requires NoColon(x) && NoColon(y) && a + ":" + x == b + ":" + y
    ensures a == b && x == y
  {
    var l, r := a + ":" + x, b + ":" + y;
    assert l[|a|] == ':' && r[|b|] == ':';
    assert forall i :: |a| < i < |l| ==> l[i] == x[i - |a| - 1];
    assert forall i :: |b| < i < |r| ==> r[i] == y[i - |b| - 1];
    assert |a| == |b|;
    assert l[..|a|] == a && r[..|b|] == b;
    assert l[|a| + 1..] == x && r[|b| + 1..] == y;
  }

  /**
   Marks of different transactions, components or phases never coincide, even though a
   component id may contain the separator: transaction ids and phase names do not.
   */
  lemma KeyIsInjective(tx: string, component: string, phase: Phase, tx': string, component': string, phase': Phase)
    requires NoColon(tx) && NoColon(tx')
    requires Key(tx, component, phase) == Key(tx', component', phase')
    ensures tx == tx' && component == component' && phase == phase'
  {
    var rest, rest' := component + ":" + PhaseName(phase), component' + ":" + PhaseName(phase');
    DropPrefix("tcc:idem:", tx + ":" + rest, tx' + ":" + rest');
    HeadIsUnique(tx, tx', rest, rest');
    NamesHaveNoColon(phase);
    NamesHaveNoColon(phase');
    TailIsUnique(component, component', PhaseName(phase), PhaseName(phase'));
    assert |PhaseName(phase)| == |PhaseName(phase')|;
  }

  lemma NamesHaveNoColon(phase: Phase)
    ensures NoColon(PhaseName(phase))
    ensures |PhaseName(phase)| == match phase case TryPhase => 3 case ConfirmPhase => 7 case CancelPhase => 6
  {}

  lemma DropPrefix(p: string, a: string, b: string)
    requires p + a == p + b
    ensures a == b
  {
    assert (p + a)[|p|..] == a && (p + b)[|p|..] == b;
  }

  class IdempotencyStore {
    var marks: set<string>

    constructor ()
      ensures marks == {}
    {
      marks := {};
    }

    /** SetNX: reports whether the mark was there, and leaves it there unless the call was lost. */
    method CheckAndMark(tx: string, component: string, phase: Phase, fault: Fault) returns (r: Result<bool, ()>)
      modifies this
      ensures fault.NoFault? ==> r == Success(Key(tx, component, phase) in old(marks))
      ensures !fault.NoFault? ==> r == Fail(())
      ensures marks == if fault.ErrorNotApplied? then old(marks) else old(marks) + {Key(tx, component, phase)}
    {
      var key := Key(tx, component, phase);
      var present := key in marks;
      if !fault.ErrorNotApplied? {
        marks := marks + {key};
      }
      r := if fault.NoFault? then Success(present) else Fail(());
    }
  }

  // ---------------------------------------------------------------- the store

  /** Which calls of one store operation fail. */
  datatype Faults = Faults(cacheRead: bool, rowRead: bool, rowWrite: Fault, cacheWrite: bool)

  /** Row and Redis copy after an operation, and whether it returned nil. */
  datatype StoreResult = StoreResult(row: Record, cache: Option<Record>, ok: bool)

  function ReadEither(row: Record, cache: Option<Record>, f: Faults): Option<Record> {
    if !f.cacheRead && cache.Some? then cache else if f.rowRead then None else Some(row)
  }

  function Put(cache: Option<Record>, rec: Record, failed: bool): Option<Record> {
    if failed then cache else Some(rec)
  }

  function Updated(row: Record, cache: Option<Record>, id: string, accept: bool, f: Faults): StoreResult {
    match ReadEither(row, cache, f)
    case None => StoreResult(row, cache, false)
    case Some(rec) =>
      var edited := rec.(components := SetStatus(rec.components, id, StatusOf(accept)));
      var row' := if f.rowWrite.ErrorNotApplied? then row else row.(components := edited.components);
      if f.rowWrite.NoFault? then StoreResult(row', Put(cache, edited, f.cacheWrite), true)
      else StoreResult(row', cache, false)
  }

  function Submitted(row: Record, cache: Option<Record>, success: bool, f: Faults): StoreResult {
    var row' := if f.rowWrite.ErrorNotApplied? then row else row.(status := StatusOf(success));
    if !f.rowWrite.NoFault? then StoreResult(row', cache, false)
    else if f.cacheRead || cache.None? then StoreResult(row', cache, true)
    else StoreResult(row', Put(cache, cache.value.(status := StatusOf(success)), f.cacheWrite), true)
  }

  /** The record TXUpdate edits: the copy, or the row when Redis has none or does not answer. */
  ghost predicate Reads(row: Record, cache: Option<Record>, f: Faults, tx: Record) {
    if f.cacheRead || cache == None then !f.rowRead && tx == row else cache == Some(tx)
  }

  /** GetTX finds a record exactly where TXUpdate would. */
  lemma ReadEitherMeans(row: Record, cache: Option<Record>, f: Faults, tx: Record)
    ensures ReadEither(row, cache, f) == Some(tx) <==> Reads(row, cache, f, tx)
  {}

  /** Entry by entry: the first one with the id is set, whatever it said before, and no other. */
  ghost predicate SetAt(es: seq<Entry>, id: string, st: Status, es': seq<Entry>) {
    && |es'| == |es|
    && forall j :: 0 <= j < |es| ==>
         es'[j] == if es[j].id == id && id !in IdsOf(es[..j]) then Entry(id, st) else es[j]
  }

  function IdsOf(es: seq<Entry>): set<string> { set e | e in es :: e.id }

  lemma {:induction false} SetStatusMeans(es: seq<Entry>, id: string, st: Status)
    ensures SetAt(es, id, st, SetStatus(es, id, st))
  {
    if k :| 0 <= k < |es| && es[k].id == id && id !in IdsOf(es[..k]) {
      forall j | 0 <= j < k ensures es[j].id != id { assert es[j] in es[..k]; }
      SetStatusAt(es, id, st, k);
      forall j | k < j < |es| ensures id in IdsOf(es[..j]) { assert es[k] in es[..j]; }
    } else {
      forall j | 0 <= j < |es| ensures es[j].id != id {
        if es[j].id == id { FirstWithId(es, id, j); }
      }
      SetStatusMissing(es, id, st);
    }
  }

  lemma {:induction false} FirstWithId(es: seq<Entry>, id: string, j: nat)
    requires j < |es| && es[j].id == id
    ensures exists k :: 0 <= k < |es| && es[k].id == id && id !in IdsOf(es[..k])
    decreases j
  {
    if id in IdsOf(es[..j]) {
      var e :| e in es[..j] && e.id == id;
      var i :| 0 <= i < j && es[i] == e;
      FirstWithId(es, id, i);
    }
  }

  /** TXUpdate call by call: what is read, what is written where, and what is returned. */
  lemma UpdatedMeans(row: Record, cache: Option<Record>, id: string, accept: bool, f: Faults, tx: Record)
    ensures var r := Updated(row, cache, id, accept, f);
            && ((f.cacheRead || cache == None) && f.rowRead ==> r == StoreResult(row, cache, false))
            && (Reads(row, cache, f, tx) ==>
                  && (r.ok <==> f.rowWrite == NoFault)
                  && r.row.status == row.status
                  && (f.rowWrite == ErrorNotApplied ==> r.row == row)
                  && (f.rowWrite != ErrorNotApplied ==>
                        SetAt(tx.components, id, if accept then Successful else Failure, r.row.components))
                  && (r.ok && !f.cacheWrite ==> r.cache == Some(Record(r.row.components, tx.status)))
                  && (!r.ok || f.cacheWrite ==> r.cache == cache))
  {
    SetStatusMeans(tx.components, id, if accept then Successful else Failure);
  }

  /** TXSubmit likewise: the status column, and the copy's status if there is a copy to refresh. */
  lemma SubmittedMeans(row: Record, cache: Option<Record>, success: bool, f: Faults)
    ensures var r := Submitted(row, cache, success, f);
            var status := if success then Successful else Failure;
            && (r.ok <==> f.rowWrite == NoFault)
            && r.row.components == row.components
            && r.row.status == (if f.rowWrite == ErrorNotApplied then row.status else status)
            && r.cache == (if r.ok && !f.cacheRead && !f.cacheWrite && cache.Some?
                           then Some(Record(cache.value.components, status)) else cache)
  {}

  /** TXUpdate's loop: edit the first entry with that id and stop. */
  method SetComponent(es: seq<Entry>, id: string, st: Status) returns (r: seq<Entry>)
    ensures r == SetStatus(es, id, st)
  {
    for i := 0 to |es|
      invariant forall j :: 0 <= j < i ==> es[j].id != id
    {
      if es[i].id == id {
        SetStatusAt(es, id, st, i);
        return es[i := Entry(id, st)];
      }
    }
    SetStatusMissing(es, id, st);
    return es;
  }

  class TxStore {
    var row: Record
    var cache: Option<Record>

    /** CreateTX: a hanging entry per component. */
    constructor (ids: seq<string>, cacheFails: bool)
      ensures |row.components| == |ids| && row.status == Hanging
      ensures forall j :: 0 <= j < |ids| ==> row.components[j] == Entry(ids[j], Hanging)
      ensures cache == if cacheFails then None else Some(row)
      ensures forall createdAt, timeout :: Init(Config(ids, createdAt, timeout), !cacheFails).sh.row == row
    {
      var entries: seq<Entry> := [];
      for i := 0 to |ids|
        invariant |entries| == i
        invariant forall j :: 0 <= j < i ==> entries[j] == Entry(ids[j], Hanging)
      {
        entries := entries + [Entry(ids[i], Hanging)];
      }
      row := Record(entries, Hanging);
      cache := if cacheFails then None else Some(Record(entries, Hanging));
      assert forall createdAt, timeout ::
          Init(Config(ids, createdAt, timeout), !cacheFails).sh.row.components == entries;
    }

    method TXUpdate(id: string, accept: bool, f: Faults) returns (ok: bool)
      modifies this
      ensures StoreResult(row, cache, ok) == Updated(old(row), old(cache), id, accept, f)
    {
      var tx: Record;
      if !f.cacheRead && cache.Some? {
        tx := cache.value;
      } else {
        if f.rowRead { return false; }
        tx := row;
      }
      var entries := SetComponent(tx.components, id, StatusOf(accept));
      tx := tx.(components := entries);
      if !f.rowWrite.ErrorNotApplied? {
        row := row.(components := tx.components);
      }
      if !f.rowWrite.NoFault? { return false; }
      if !f.cacheWrite {
        cache := Some(tx);
      }
      return true;
    }

    method TXSubmit(success: bool, f: Faults) returns (ok: bool)
      modifies this
      ensures StoreResult(row, cache, ok) == Submitted(old(row), old(cache), success, f)
    {
      var status := Failure;
      if success { status := Successful; }
      if !f.rowWrite.ErrorNotApplied? {
        row := row.(status := status);
      }
      if !f.rowWrite.NoFault? { return false; }
      if !f.cacheRead && cache.Some? && !f.cacheWrite {
        cache := Some(cache.value.(status := status));
      }
      return true;
    }

    method GetTX(f: Faults) returns (tx: Option<Record>)
      modifies this`cache
      ensures tx == ReadEither(row, old(cache), f)
      ensures cache == if (f.cacheRead || old(cache).None?) && !f.rowRead then Put(old(cache), row, f.cacheWrite)
                       else old(cache)
    {
      if !f.cacheRead && cache.Some? { return cache; }
      if f.rowRead { return None; }
      tx := Some(row);
      if !f.cacheWrite {
        cache := tx;
      }
    }
  }

  // ---------------------------------------------------------------- the store refines to steps

  /** The calls TXUpdate makes, in order, given what the cache holds. */
  function UpdateEvents(cache: Option<Record>, f: Faults): seq<Event> {
    var hit := !f.cacheRead && cache.Some?;
    [ReadCache(f.cacheRead)]
    + (if hit then [] else [ReadRow(f.rowRead)])
    + (if !hit && f.rowRead then [] else [WriteRow(f.rowWrite)])
    + (if (!hit && f.rowRead) || !f.rowWrite.NoFault? then [] else [WriteCache(f.cacheWrite)])
  }

  ghost predicate Plays(c: Config, g: Shared, i: nat, t: Thread, events: seq<Event>, h: Shared, u: Thread)
    requires i < |c.ids|
    decreases |events|
  {
    if events == [] then g == h && t == u
    else
      && |g.outcome| == |c.ids| && ThreadEnabled(t, events[0])
      && var r := ThreadStep(c, g, i, t, events[0]);
         Plays(c, r.0, i, r.1, events[1..], h, u)
  }

  /** Undisturbed, a goroutine's TXUpdate does to row and copy what the method does. */
  lemma UpdateIsSteps(c: Config, g: Shared, i: nat, accept: bool, f: Faults) returns (h: Shared, u: Thread)
    requires i < |c.ids| == |g.outcome|
    ensures Plays(c, g, i, Reading(accept), UpdateEvents(g.cache, f), h, u)
    ensures var r := Updated(g.row, g.cache, c.ids[i], accept, f);
            h.row == r.row && h.cache == r.cache && u == Ended(!(r.ok && accept))
  {
    var events := UpdateEvents(g.cache, f);
    var r1 := ThreadStep(c, g, i, Reading(accept), events[0]);
    h, u := r1.0, r1.1;
    if u.ReadingRow? {
      var r2 := ThreadStep(c, h, i, u, ReadRow(f.rowRead));
      h, u := r2.0, r2.1;
    }
    if u.Writing? {
      assert |events| >= 2;
      h, u := UpdateWrites(c, g, i, accept, u.rec, f);
      PlaysTail(c, g, i, accept, f, h, u);
    } else {
      assert events == [ReadCache(f.cacheRead), ReadRow(f.rowRead)];
      assert events[1..] == [ReadRow(f.rowRead)] && events[1..][1..] == [];
    }
  }

  function WriteEvents(f: Faults): seq<Event> {
    [WriteRow(f.rowWrite)] + (if f.rowWrite.NoFault? then [WriteCache(f.cacheWrite)] else [])
  }

  lemma UpdateWrites(c: Config, g: Shared, i: nat, accept: bool, rec: Record, f: Faults) returns (h: Shared, u: Thread)
    requires i < |c.ids| == |g.outcome|
    ensures Plays(c, g, i, Writing(accept, rec), WriteEvents(f), h, u)
    ensures h.row == if f.rowWrite.ErrorNotApplied? then g.row else g.row.(components := rec.components)
    ensures h.cache == if f.rowWrite.NoFault? then Put(g.cache, rec, f.cacheWrite) else g.cache
    ensures u == Ended(!(f.rowWrite.NoFault? && accept))
  {
    var r := ThreadStep(c, g, i, Writing(accept, rec), WriteRow(f.rowWrite));
    h, u := r.0, r.1;
    if f.rowWrite.NoFault? {
      assert WriteEvents(f)[1..] == [WriteCache(f.cacheWrite)] && WriteEvents(f)[1..][1..] == [];
      r := ThreadStep(c, h, i, u, WriteCache(f.cacheWrite));
      h, u := r.0, r.1;
    } else {
      assert WriteEvents(f)[1..] == [];
    }
  }

  lemma PlaysTail(c: Config, g: Shared, i: nat, accept: bool, f: Faults, h: Shared, u: Thread)
    requires i < |c.ids| == |g.outcome|
    requires ReadEither(g.row, g.cache, f).Some?
    requires Plays(c, g, i, Writing(accept, Edited(c, ReadEither(g.row, g.cache, f).value, i, accept)),
                   WriteEvents(f), h, u)
    ensures Plays(c, g, i, Reading(accept), UpdateEvents(g.cache, f), h, u)
  {
    var events := UpdateEvents(g.cache, f);
    if !f.cacheRead && g.cache.Some? {
      assert events[1..] == WriteEvents(f);
    } else {
      assert events[1..][1..] == WriteEvents(f) && events[1] == ReadRow(f.rowRead);
    }
  }

  ghost predicate PassPlays(c: Config, g: Shared, pass: Pass, events: seq<Event>, h: Shared, q: Pass)
    decreases |events|
  {
    if events == [] then g == h && pass == q
    else
      && PassEnabled(pass, events[0])
      && var r := PassStep(c, g, c.createdAt, 0, pass, events[0]);
         PassPlays(c, r.0, r.1, events[1..], h, q)
  }

  lemma PassPlaysCons(c: Config, g: Shared, pass: Pass, e: Event, events: seq<Event>, h: Shared, q: Pass)
    requires PassEnabled(pass, e)
    requires var r := PassStep(c, g, c.createdAt, 0, pass, e); PassPlays(c, r.0, r.1, events, h, q)
    ensures PassPlays(c, g, pass, [e] + events, h, q)
  {
    assert ([e] + events)[1..] == events;
  }

  function SubmitEvents(cache: Option<Record>, f: Faults): seq<Event> {
    [WriteRow(f.rowWrite)]
    + (if !f.rowWrite.NoFault? then []
       else [ReadCache(f.cacheRead)] + (if f.cacheRead || cache.None? then [] else [WriteCache(f.cacheWrite)]))
  }

  /** Undisturbed, a pass's TXSubmit does to row and copy what the method does. */
  lemma SubmitIsSteps(c: Config, g: Shared, success: bool, expiry: bool, f: Faults) returns (h: Shared)
    ensures PassPlays(c, g, Submitting(success, expiry), SubmitEvents(g.cache, f), h, AfterSubmit(expiry))
    ensures var r := Submitted(g.row, g.cache, success, f); h.row == r.row && h.cache == r.cache
  {
    var g1 := PassSubmit(g, success, expiry, f.rowWrite).0;
    h := g1;
    var q := AfterSubmit(expiry);
    if f.rowWrite.NoFault? {
      if !f.cacheRead && g.cache.Some? {
        var rec := g.cache.value.(status := StatusOf(success));
        h := Stored(g1, rec, f.cacheWrite);
        PassPlaysCons(c, g1, Republishing(success, expiry, rec), WriteCache(f.cacheWrite), [], h, q);
        PassPlaysCons(c, g1, Refreshing(success, expiry), ReadCache(f.cacheRead), [WriteCache(f.cacheWrite)], h, q);
      } else {
        PassPlaysCons(c, g1, Refreshing(success, expiry), ReadCache(f.cacheRead), [], h, q);
      }
    }
    PassPlaysCons(c, g, Submitting(success, expiry), WriteRow(f.rowWrite), SubmitEvents(g.cache, f)[1..], h, q);
    assert SubmitEvents(g.cache, f) == [WriteRow(f.rowWrite)] + SubmitEvents(g.cache, f)[1..];
  }

  function FetchEvents(cache: Option<Record>, f: Faults): seq<Event> {
    [ReadCache(f.cacheRead)]
    + (if !f.cacheRead && cache.Some? then []
       else [ReadRow(f.rowRead)] + (if f.rowRead then [] else [WriteCache(f.cacheWrite)]))
  }

  /** Undisturbed, the caller's GetTX hands advanceProgress the record the method returns. */
  lemma FetchIsSteps(c: Config, g: Shared, f: Faults) returns (h: Shared)
    ensures var tx := ReadEither(g.row, g.cache, f);
            PassPlays(c, g, Fetching, FetchEvents(g.cache, f), h, if tx.Some? then Judging(tx.value) else Finished)
    ensures h == g.(cache := h.cache)
    ensures h.cache ==
            if (f.cacheRead || g.cache.None?) && !f.rowRead then Put(g.cache, g.row, f.cacheWrite) else g.cache
  {
    h := g;
    var tx := ReadEither(g.row, g.cache, f);
    var q := if tx.Some? then Judging(tx.value) else Finished;
    if f.cacheRead || g.cache.None? {
      if !f.rowRead {
        h := Stored(g, g.row, f.cacheWrite);
        PassPlaysCons(c, g, Filling(g.row), WriteCache(f.cacheWrite), [], h, q);
        PassPlaysCons(c, g, FetchingRow, ReadRow(f.rowRead), [WriteCache(f.cacheWrite)], h, q);
      } else {
        PassPlaysCons(c, g, FetchingRow, ReadRow(f.rowRead), [], h, q);
      }
    }
    PassPlaysCons(c, g, Fetching, ReadCache(f.cacheRead), FetchEvents(g.cache, f)[1..], h, q);
    assert FetchEvents(g.cache, f) == [ReadCache(f.cacheRead)] + FetchEvents(g.cache, f)[1..];
  }

  // ---------------------------------------------------------------- the manager's loops

  /** getStatus: the loop computes the verdict. */
  method GetStatus(es: seq<Entry>, createdAt: int, createdBefore: int) returns (st: Status)
    ensures st == Verdict(es, createdAt, createdBefore)
  {
    var hangingExist := false;
    for i := 0 to |es|
      invariant forall j :: 0 <= j < i ==> es[j].status != Failure
      invariant hangingExist <==> exists j :: 0 <= j < i && es[j].status != Successful
    {
      if es[i].status == Failure { return Failure; }
      hangingExist := hangingExist || es[i].status != Successful;
    }
    if hangingExist && createdAt < createdBefore { return Failure; }
    if hangingExist { return Hanging; }
    return Successful;
  }

  /** executeWithRetry: stops at the first reply, and after three errors at the latest. */
  method ExecuteWithRetry(replies: seq<Reply>) returns (r: Reply, attempts: nat)
    requires |replies| == 3
    ensures 1 <= attempts <= 3 && r == replies[attempts - 1]
    ensures forall j :: 0 <= j < attempts - 1 ==> replies[j] == Errored
    ensures r.Answered? || attempts == 3
  {
    r, attempts := Errored, 0;
    while attempts < MAX_ATTEMPTS
      invariant 0 <= attempts <= MAX_ATTEMPTS
      invariant attempts > 0 ==> r == replies[attempts - 1]
      invariant forall j :: 0 <= j < attempts ==> replies[j] == Errored
    {
      r := replies[attempts];
      attempts := attempts + 1;
      if r.Answered? { return; }
    }
  }

  /** How a goroutine starts: an earlier mark counts as an accepted Try, and a failing check ends it. */
  lemma TryMarkMeans(g: Shared, i: nat, fault: Fault)
    ensures var (h, t) := ThreadMark(g, i, fault);
            var slot := Slot(TryPhase, i);
            && (t == Ended(true) <==> fault != NoFault)
            && (t == Reading(true) <==> fault == NoFault && slot in g.marks)
            && (t == Trying(0) <==> fault == NoFault && slot !in g.marks)
            && h.marks == (if fault == ErrorNotApplied then g.marks else g.marks + {slot})
            && h.row == g.row && h.cache == g.cache && h.outcome == g.outcome
  {}

  /** A goroutine ends up with the ACK of the reply executeWithRetry returns, as its outcome and as its flag. */
  lemma {:induction false} RetryIsSteps(g: Shared, i: nat, replies: seq<Reply>, attempts: nat, k: nat)
    requires |replies| == 3 && 1 <= attempts <= 3 && k < attempts && i < |g.outcome|
    requires forall j :: 0 <= j < attempts - 1 ==> replies[j] == Errored
    requires replies[attempts - 1].Answered? || attempts == 3
    ensures var (h, t) := Attempted(g, i, k, replies[k..attempts]);
            var accept := replies[attempts - 1] == Answered(true);
            t == Reading(accept) && h.outcome == g.outcome[i := if accept then Acked else Refused]
    decreases attempts - k
  {
    var rest := replies[k..attempts];
    assert rest[1..] == replies[k + 1..attempts];
    if k + 1 < attempts {
      RetryIsSteps(ThreadCall(g, i, k, replies[k]).0, i, replies, attempts, k + 1);
    }
  }

  /** Two errors and then an acknowledgement are enough. */
  lemma ThirdAttemptCounts(g: Shared, i: nat)
    requires i < |g.outcome|
    ensures Attempted(g, i, 0, [Errored, Errored, Answered(true)]).0.outcome[i] == Acked
    ensures Attempted(g, i, 0, [Errored, Errored, Errored]).0.outcome[i] == Refused
  {
    var yes, no := [Errored, Errored, Answered(true)], [Errored, Errored, Errored];
    assert yes[0..3] == yes && no[0..3] == no;
    RetryIsSteps(g, i, yes, 3, 0);
    RetryIsSteps(g, i, no, 3, 0);
  }

  /** Where a goroutine stands after a list of Try replies. */
  function Attempted(g: Shared, i: nat, k: nat, replies: seq<Reply>): (Shared, Thread)
    requires i < |g.outcome|
    decreases |replies|
  {
    if replies == [] then (g, Trying(k))
    else
      var (h, t) := ThreadCall(g, i, k, replies[0]);
      if t.Trying? then Attempted(h, i, t.attempts, replies[1..]) else (h, t)
  }

  datatype RequestError = EmptyTask | RepeatedComponent(id: string) | UnknownComponent

  /** getComponents: accepts exactly the requests on which the protocol's configuration is valid. */
  method GetComponents(reqs: seq<string>, registered: set<string>) returns (r: Result<seq<string>, RequestError>)
    ensures r.Success? <==> ValidConfig(Config(reqs, 0, 0)) && forall id :: id in reqs ==> id in registered
    ensures r.Success? ==> r.value == reqs
    ensures r == Fail(EmptyTask) <==> reqs == []
  {
    if reqs == [] { return Fail(EmptyTask); }
    var seen: set<string> := {};
    for i := 0 to |reqs|
      invariant seen == set id | id in reqs[..i]
      invariant forall j, k :: 0 <= j < k < i ==> reqs[j] != reqs[k]
    {
      if reqs[i] in seen {
        var j :| 0 <= j < i && reqs[j] == reqs[i];
        return Fail(RepeatedComponent(reqs[i]));
      }
      seen := seen + {reqs[i]};
      assert reqs[..i + 1] == reqs[..i] + [reqs[i]];
    }
    for i := 0 to |reqs|
      invariant forall j :: 0 <= j < i ==> reqs[j] in registered
    {
      if reqs[i] !in registered { return Fail(UnknownComponent); }
    }
    return Success(reqs);
  }
}
