/**
 advanceProgress and the monitor's query in their own, sequential form, and the steps of TccModel that
 they are when nobody interferes.
 */
module TccManager {
  import opened Common
  import opened TccModel
  import opened TccStore

  // ---------------------------------------------------------------- one component

  /** What a pass meets at one component: the mark, how CheckAndMark ends, the replies, how MarkExplicit ends. */
  datatype Meeting = Meeting(marked: bool, fault: Fault, replies: seq<Reply>, noteFails: bool)

  /** The first of three replies that is not an error acknowledges. */
  ghost predicate Acks(replies: seq<Reply>) {
    || (|replies| > 0 && replies[0] == Answered(true))
    || (|replies| > 1 && replies[0] == Errored && replies[1] == Answered(true))
    || (|replies| > 2 && replies[0] == Errored && replies[1] == Errored && replies[2] == Answered(true))
  }

  ghost predicate AllErred(replies: seq<Reply>) { forall j :: 0 <= j < |replies| ==> replies[j] == Errored }

  /** The loop goes on: somebody was here before, or an acknowledgement, or a Cancel that only ever erred. */
  ghost predicate GoesOn(success: bool, m: Meeting) {
    m.fault.NoFault? && (m.marked || Acks(m.replies) || (!success && AllErred(m.replies)))
  }

  /** The two closures of advanceProgress: the ACK of the response, or an error. */
  method ConfirmOrCancel(success: bool, m: Meeting) returns (r: Result<bool, ()>)
    requires |m.replies| == 3
    ensures r == Success(true) <==> GoesOn(success, m)
    ensures r == Fail(()) <==> !m.fault.NoFault? || (!m.marked && success && AllErred(m.replies))
  {
    if !m.fault.NoFault? { return Fail(()); }
    if m.marked { return Success(true); }
    var reply, attempts := ExecuteWithRetry(m.replies);
    if reply.Errored? { return if success then Fail(()) else Success(true); }
    return Success(reply.ack);
  }

  // ---------------------------------------------------------------- the loop

  /** Whether the pass submits a status, and which. */
  method AdvanceProgress(es: seq<Entry>, createdAt: int, createdBefore: int, meetings: seq<Meeting>)
    returns (submitted: Option<bool>)
    requires |meetings| == |es| && forall k :: 0 <= k < |es| ==> |meetings[k].replies| == 3
    ensures var failed := HasFailure(es) || (!AllSuccessful(es) && createdAt < createdBefore);
            submitted == Some(false) <==> failed && forall k :: 0 <= k < |es| ==> GoesOn(false, meetings[k])
    ensures submitted == Some(true) <==> AllSuccessful(es) && forall k :: 0 <= k < |es| ==> GoesOn(true, meetings[k])
  {
    var status := GetStatus(es, createdAt, createdBefore);
    if status == Hanging { return None; }
    var success := status == Successful;
    for k := 0 to |es|
      invariant forall j :: 0 <= j < k ==> GoesOn(success, meetings[j])
    {
      var resp := ConfirmOrCancel(success, meetings[k]);
      if resp.Fail? { return None; }
      if !resp.value { return None; }
    }
    return Some(success);
  }

  // ---------------------------------------------------------------- the steps of a pass

  lemma {:induction false} PlaysAppend(c: Config, g: Shared, pass: Pass, es: seq<Event>, g': Shared, pass': Pass,
                                       fs: seq<Event>, h: Shared, q: Pass)
    requires PassPlays(c, g, pass, es, g', pass') && PassPlays(c, g', pass', fs, h, q)
    ensures PassPlays(c, g, pass, es + fs, h, q)
    decreases |es|
  {
    if es == [] {
      assert es + fs == fs;
    } else {
      var r := PassStep(c, g, c.createdAt, 0, pass, es[0]);
      PlaysAppend(c, r.0, r.1, es[1..], g', pass', fs, h, q);
      PassPlaysCons(c, g, pass, es[0], es[1..] + fs, h, q);
      assert [es[0]] + (es[1..] + fs) == es + fs;
    }
  }

  /** The calls that are made: up to the first reply that is not an error. */
  function Calls(replies: seq<Reply>): seq<Event> {
    if replies == [] then []
    else [Call(replies[0])] + (if replies[0].Errored? then Calls(replies[1..]) else [])
  }

  function FirstReply(replies: seq<Reply>): Reply {
    if replies == [] then Errored else if replies[0].Errored? then FirstReply(replies[1..]) else replies[0]
  }

  /** Where a pass is after its calls. */
  function AfterCalls(c: Config, success: bool, k: nat, reply: Reply): Pass {
    match reply
    case Errored => if success then Finished else Noting(k)
    case Answered(ack) => if ack then AtComponent(c, success, k + 1) else Finished
  }

  lemma {:induction false} CallsAreSteps(c: Config, g: Shared, success: bool, k: nat, attempts: nat,
                                         replies: seq<Reply>)
    returns (h: Shared)
    requires attempts < 3 && |replies| == 3 - attempts
    ensures PassPlays(c, g, Calling(success, k, attempts), Calls(replies), h,
                      AfterCalls(c, success, k, FirstReply(replies)))
    ensures h.marks == g.marks
    decreases |replies|
  {
    var r := PassStep(c, g, c.createdAt, 0, Calling(success, k, attempts), Call(replies[0]));
    var rest, q := replies[1..], AfterCalls(c, success, k, FirstReply(replies));
    h := r.0;
    if replies[0].Errored? {
      assert FirstReply(replies) == FirstReply(rest);
      if attempts < 2 {
        h := CallsAreSteps(c, r.0, success, k, attempts + 1, rest);
      } else {
        assert rest == [] && FirstReply(rest) == Errored && r.1 == q;
      }
      PassPlaysCons(c, g, Calling(success, k, attempts), Call(replies[0]), Calls(rest), h, q);
    } else {
      PassPlaysCons(c, g, Calling(success, k, attempts), Call(replies[0]), [], h, q);
    }
  }

  lemma FirstReplyMeans(replies: seq<Reply>)
    requires |replies| == 3
    ensures FirstReply(replies) == Answered(true) <==> Acks(replies)
    ensures FirstReply(replies) == Errored <==> AllErred(replies)
  {
    var a, b := replies[1..], replies[1..][1..];
    assert a[0] == replies[1] && b[0] == replies[2] && b[1..] == [];
    assert FirstReply(b) == replies[2] && FirstReply(a) == if replies[1].Errored? then replies[2] else replies[1];
  }

  ghost function MeetingEvents(success: bool, m: Meeting): seq<Event> {
    [Mark(m.fault)]
    + (if !m.fault.NoFault? || m.marked then []
       else Calls(m.replies) + (if !success && AllErred(m.replies) then [Note(m.noteFails)] else []))
  }

  /** An undisturbed pass goes on at a component exactly as ConfirmOrCancel says. */
  lemma MeetingIsSteps(c: Config, g: Shared, success: bool, k: nat, m: Meeting) returns (h: Shared)
    requires |m.replies| == 3 && (m.marked <==> Slot(PhaseOf(success), k) in g.marks)
    ensures PassPlays(c, g, Marking(success, k), MeetingEvents(success, m), h,
                      if GoesOn(success, m) then AtComponent(c, success, k + 1) else Finished)
    ensures forall o :: o != Slot(PhaseOf(success), k) ==> (o in h.marks <==> o in g.marks)
  {
    var r := PassStep(c, g, c.createdAt, 0, Marking(success, k), Mark(m.fault));
    h := r.0;
    var q := if GoesOn(success, m) then AtComponent(c, success, k + 1) else Finished;
    FirstReplyMeans(m.replies);
    var rest := MeetingEvents(success, m)[1..];
    if m.fault.NoFault? && !m.marked {
      h := CallsAreSteps(c, r.0, success, k, 0, m.replies);
      var note := if !success && AllErred(m.replies) then [Note(m.noteFails)] else [];
      var h' := h;
      if note != [] {
        h := PassStep(c, h', c.createdAt, 0, Noting(k), Note(m.noteFails)).0;
        PassPlaysCons(c, h', Noting(k), Note(m.noteFails), [], h, q);
      }
      PlaysAppend(c, r.0, r.1, Calls(m.replies), h', AfterCalls(c, success, k, FirstReply(m.replies)), note, h, q);
      assert rest == Calls(m.replies) + note;
    } else {
      assert rest == [];
    }
    PassPlaysCons(c, g, Marking(success, k), Mark(m.fault), rest, h, q);
  }

  ghost function LoopEvents(success: bool, meetings: seq<Meeting>, k: nat): seq<Event>
    requires k <= |meetings|
    decreases |meetings| - k
  {
    if k == |meetings| then []
    else MeetingEvents(success, meetings[k])
         + (if GoesOn(success, meetings[k]) then LoopEvents(success, meetings, k + 1) else [])
  }

  /** The pass submits if nothing stops the loop. */
  ghost function LoopEnd(success: bool, meetings: seq<Meeting>, k: nat): Pass {
    if forall j :: k <= j < |meetings| ==> GoesOn(success, meetings[j]) then Submitting(success, false) else Finished
  }

  lemma LoopStep(success: bool, meetings: seq<Meeting>, k: nat)
    requires k < |meetings|
    ensures LoopEvents(success, meetings, k) == MeetingEvents(success, meetings[k]) +
            (if GoesOn(success, meetings[k]) then LoopEvents(success, meetings, k + 1) else [])
    ensures LoopEnd(success, meetings, k) ==
            if GoesOn(success, meetings[k]) then LoopEnd(success, meetings, k + 1) else Finished
  {}

  /** An undisturbed pass submits exactly when the loop of AdvanceProgress runs to its end. */
  lemma {:induction false} AdvanceIsSteps(c: Config, g: Shared, success: bool, meetings: seq<Meeting>, k: nat)
    returns (h: Shared)
    requires k <= |c.ids| == |meetings| && forall j :: k <= j < |c.ids| ==> |meetings[j].replies| == 3
    requires forall j :: k <= j < |c.ids| ==> (meetings[j].marked <==> Slot(PhaseOf(success), j) in g.marks)
    ensures PassPlays(c, g, AtComponent(c, success, k), LoopEvents(success, meetings, k), h,
                      LoopEnd(success, meetings, k))
    decreases |c.ids| - k
  {
    h := g;
    if k < |c.ids| {
      LoopStep(success, meetings, k);
      var m := meetings[k];
      var g' := MeetingIsSteps(c, g, success, k, m);
      h := g';
      assert forall j :: k < j < |c.ids| ==> (meetings[j].marked <==> Slot(PhaseOf(success), j) in g'.marks);
      var q := LoopEnd(success, meetings, k);
      if GoesOn(success, m) {
        h := AdvanceIsSteps(c, g', success, meetings, k + 1);
        PlaysAppend(c, g, Marking(success, k), MeetingEvents(success, m), g', AtComponent(c, success, k + 1),
                    LoopEvents(success, meetings, k + 1), h, q);
      } else {
        PlaysAppend(c, g, Marking(success, k), MeetingEvents(success, m), g', Finished, [], h, q);
      }
    }
  }

  /** The verdict decides which loop is entered, if any. */
  lemma JudgeIsSteps(c: Config, g: Shared, now: int, rec: Record)
    requires c.ids != []
    ensures var late := !AllSuccessful(rec.components) && c.createdAt < now - c.timeout;
            var (h, q) := PassStep(c, g, now, 0, Judging(rec), Judge);
            && h == g.(lateVerdict := h.lateVerdict)
            && q == (if HasFailure(rec.components) || late then Marking(false, 0)
                     else if AllSuccessful(rec.components) then Marking(true, 0) else Finished)
  {
    assert HasFailure(rec.components) ==> !AllSuccessful(rec.components);
  }

  // ---------------------------------------------------------------- the monitor's query

  /** GetHangingTXs for one transaction: expired ones are failed, and what still hangs is returned. */
  method GetHangingTX(store: TxStore, createdAt: int, now: int, firstFails: bool, f: Faults, secondFails: bool)
    returns (tx: Option<Record>)
    modifies store
    ensures firstFails || old(store.row).status != Hanging || createdAt >= now - 1800 ==>
              store.row == old(store.row) && store.cache == old(store.cache)
    ensures !firstFails && old(store.row).status == Hanging && createdAt < now - 1800 ==>
              exists ok ::
                StoreResult(store.row, store.cache, ok) == Submitted(old(store.row), old(store.cache), false, f)
    ensures tx == if firstFails || secondFails || store.row.status != Hanging then None else Some(store.row)
  {
    if firstFails { return None; }
    if store.row.status == Hanging && createdAt < now - 1800 {
      var ok := store.TXSubmit(false, f);
    }
    if secondFails || store.row.status != Hanging { return None; }
    return Some(store.row);
  }

  /** An undisturbed monitor pass judges exactly the record that GetHangingTX returns. */
  lemma MonitorIsSteps(c: Config, g: Shared, now: int, f: Faults, secondFails: bool)
    returns (events: seq<Event>, h: Shared)
    ensures PassPlays(c, g, FirstPass(c, now), events, h,
                      if secondFails || h.row.status != Hanging then Finished else Judging(h.row))
    ensures c.createdAt >= now - 1800 ==> h == g
    ensures c.createdAt < now - 1800 ==>
              h.row == Submitted(g.row, g.cache, false, f).row && h.cache == Submitted(g.row, g.cache, false, f).cache
  {
    h := g;
    if c.createdAt < now - 1800 { h := SubmitIsSteps(c, g, false, true, f); }
    var q := if secondFails || h.row.status != Hanging then Finished else Judging(h.row);
    PassPlaysCons(c, h, Requerying, Query(secondFails), [], h, q);
    events := [Query(secondFails)];
    assert events == [Query(secondFails)] + [];
    if c.createdAt < now - 1800 {
      events := SubmitEvents(g.cache, f) + [Query(secondFails)];
      PlaysAppend(c, g, Submitting(false, true), SubmitEvents(g.cache, f), h, Requerying, [Query(secondFails)], h, q);
    }
  }
}
