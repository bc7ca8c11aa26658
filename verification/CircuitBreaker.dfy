/**
 The generation-based circuit breaker of the discovery package.

 Requests start and finish in any order. A request carries the generation in which it was
 admitted, and a result that comes back under an older generation must not count.
 */
module CircuitBreaker {
  import opened Common

  datatype CircuitState = Closed | Open | HalfOpen

  datatype Counts = Counts(requests: nat, successes: nat, failures: nat,
                           consecutiveSuccesses: nat, consecutiveFailures: nat)

  const ZERO := Counts(0, 0, 0, 0, 0)

  datatype Settings = Settings(maxRequests: nat, interval: int, timeout: int, readyToTrip: Counts -> bool)

  /** The fields that change; None is the zero time. */
  datatype Core = Core(state: CircuitState, generation: nat, counts: Counts, expiry: Option<int>)

  datatype Refusal = OpenState | TooManyRequests

  function DefaultReadyToTrip(c: Counts): bool { c.consecutiveFailures > 5 }

  /** NewCircuitBreaker turns a zero MaxRequests into one and a zero Timeout into twenty seconds. */
  function Normalized(maxRequests: nat, interval: int, timeout: int, readyToTrip: Counts -> bool): Settings {
    Settings(if maxRequests == 0 then 1 else maxRequests, interval, if timeout == 0 then 20 else timeout, readyToTrip)
  }

  /** A breaker built with zero settings admits one probe and waits twenty seconds; others are kept. */
  lemma NormalizedMeans(maxRequests: nat, interval: int, timeout: int, readyToTrip: Counts -> bool)
    ensures var cfg := Normalized(maxRequests, interval, timeout, readyToTrip);
            && cfg.interval == interval && cfg.readyToTrip == readyToTrip
            && (maxRequests == 0 ==> cfg.maxRequests == 1) && (maxRequests > 0 ==> cfg.maxRequests == maxRequests)
            && (timeout == 0 ==> cfg.timeout == 20) && (timeout != 0 ==> cfg.timeout == timeout)
  {}

  // ---------------------------------------------------------------- what the methods compute

  function NewGeneration(cfg: Settings, b: Core, now: int): Core {
    Core(b.state, b.generation + 1, ZERO,
         match b.state
         case Closed => if cfg.interval == 0 then None else Some(now + cfg.interval)
         case Open => Some(now + cfg.timeout)
         case HalfOpen => None)
  }

  function SetState(cfg: Settings, b: Core, st: CircuitState, now: int): Core {
    if b.state == st then b else NewGeneration(cfg, b.(state := st), now)
  }

  function Current(cfg: Settings, b: Core, now: int): Core {
    match b.state
    case Closed => if b.expiry.Some? && b.expiry.value < now then NewGeneration(cfg, b, now) else b
    case Open => if b.expiry.None? || b.expiry.value < now then SetState(cfg, b, HalfOpen, now) else b
    case HalfOpen => b
  }

  /** beforeRequest, once the state is brought up to date. */
  function Admit(cfg: Settings, c: Core): (Core, Result<nat, Refusal>) {
    if c.state == Open then (c, Fail(OpenState))
    else if c.state == HalfOpen && c.counts.requests >= cfg.maxRequests then (c, Fail(TooManyRequests))
    else (c.(counts := c.counts.(requests := c.counts.requests + 1)), Success(c.generation))
  }

  function Before(cfg: Settings, b: Core, now: int): (Core, Result<nat, Refusal>) {
    Admit(cfg, Current(cfg, b, now))
  }

  function OnSuccess(c: Counts): Counts {
    c.(successes := c.successes + 1, consecutiveSuccesses := c.consecutiveSuccesses + 1, consecutiveFailures := 0)
  }

  function OnFailure(c: Counts): Counts {
    c.(failures := c.failures + 1, consecutiveFailures := c.consecutiveFailures + 1, consecutiveSuccesses := 0)
  }

  /** onSuccess and onFailure: count the result, then change state where it calls for it. */
  function Record(cfg: Settings, c: Core, success: bool, now: int): Core {
    if success then
      var d := c.(counts := OnSuccess(c.counts));
      if d.state == HalfOpen then SetState(cfg, d, Closed, now) else d
    else
      var d := c.(counts := OnFailure(c.counts));
      if cfg.readyToTrip(d.counts) then SetState(cfg, d, Open, now) else d
  }

  function After(cfg: Settings, b: Core, before: nat, success: bool, now: int): Core {
    var c := Current(cfg, b, now);
    if c.generation != before then c else Record(cfg, c, success, now)
  }

  class Breaker {
    const cfg: Settings
    var state: CircuitState
    var generation: nat
    var counts: Counts
    var expiry: Option<int>

    function View(): Core
      reads this
    {
      Core(state, generation, counts, expiry)
    }

    constructor (maxRequests: nat, interval: int, timeout: int, readyToTrip: Counts -> bool, now: int)
      ensures cfg == Normalized(maxRequests, interval, timeout, readyToTrip)
      ensures state == Closed && generation == 1 && counts == ZERO
      ensures View() == NewGeneration(cfg, Core(Closed, 0, ZERO, None), now)
    {
      cfg := Normalized(maxRequests, interval, timeout, readyToTrip);
      state, generation, counts, expiry := Closed, 0, ZERO, None;
      new;
      ToNewGeneration(now);
    }

    method ToNewGeneration(now: int)
      modifies this
      ensures View() == NewGeneration(cfg, old(View()), now)
      ensures state == old(state) && generation == old(generation) + 1 && counts == Counts(0, 0, 0, 0, 0)
    {
      generation := generation + 1;
      counts := ZERO;
      match state {
        case Closed =>
          if cfg.interval == 0 { expiry := None; } else { expiry := Some(now + cfg.interval); }
        case Open => expiry := Some(now + cfg.timeout);
        case HalfOpen => expiry := None;
      }
    }

    method ChangeState(st: CircuitState, now: int)
      modifies this
      ensures View() == SetState(cfg, old(View()), st, now)
    {
      if state == st { return; }
      state := st;
      ToNewGeneration(now);
    }

    method CurrentState(now: int) returns (st: CircuitState, gen: nat)
      modifies this
      ensures View() == Current(cfg, old(View()), now) && st == state && gen == generation
    {
      match state {
        case Closed => if expiry.Some? && expiry.value < now { ToNewGeneration(now); }
        case Open => if expiry.None? || expiry.value < now { ChangeState(HalfOpen, now); }
        case HalfOpen =>
      }
      return state, generation;
    }

    method BeforeRequest(now: int) returns (r: Result<nat, Refusal>)
      modifies this
      ensures (View(), r) == Before(cfg, old(View()), now)
      ensures r == Fail(OpenState) <==> state == Open
      ensures r == Fail(TooManyRequests) ==> state == HalfOpen && counts.requests >= cfg.maxRequests
      ensures r.Success? ==> r.value == generation && (state == HalfOpen ==> 0 < counts.requests <= cfg.maxRequests)
    {
      var st, gen := CurrentState(now);
      if st == Open { return Fail(OpenState); }
      if st == HalfOpen && counts.requests >= cfg.maxRequests { return Fail(TooManyRequests); }
      counts := counts.(requests := counts.requests + 1);
      return Success(gen);
    }

    method AfterRequest(before: nat, success: bool, now: int)
      modifies this
      ensures View() == After(cfg, old(View()), before, success, now)
    {
      var st, gen := CurrentState(now);
      if gen != before { return; }
      if success {
        counts := OnSuccess(counts);
        if state == HalfOpen { ChangeState(Closed, now); }
      } else {
        counts := OnFailure(counts);
        if cfg.readyToTrip(counts) { ChangeState(Open, now); }
      }
    }
  }

  // ---------------------------------------------------------------- runs with requests in flight

  datatype Event =
    | Begin(at: int)                        // beforeRequest
    | Finish(tag: nat, ok: bool, at: int)   // afterRequest with the generation it was given
    | Peek(at: int)                         // State or Counts

  /** The breaker, the requests in flight by generation, and the results of this generation. */
  datatype System = System(core: Core, inFlight: multiset<nat>, results: seq<bool>, now: int)

  ghost predicate Enabled(s: System, e: Event) {
    e.at >= s.now && (e.Finish? ==> e.tag in s.inFlight)
  }

  /** Results of an ended generation are forgotten. */
  function Kept(results: seq<bool>, from: Core, to: Core): seq<bool> {
    if from.generation == to.generation then results else []
  }

  /** Every call begins by bringing the state up to date. */
  function Peeked(cfg: Settings, s: System, at: int): System {
    var c := Current(cfg, s.core, at);
    System(c, s.inFlight, Kept(s.results, s.core, c), at)
  }

  function Begun(cfg: Settings, p: System): System {
    var (b, r) := Admit(cfg, p.core);
    p.(core := b, inFlight := if r.Success? then p.inFlight + multiset{r.value} else p.inFlight)
  }

  function Finished(cfg: Settings, p: System, tag: nat, ok: bool): System {
    var q := p.(inFlight := p.inFlight - multiset{tag});
    if tag != p.core.generation then q
    else
      var b := Record(cfg, p.core, ok, p.now);
      q.(core := b, results := Kept(p.results + [ok], p.core, b))
  }

  function Apply(cfg: Settings, s: System, e: Event): System {
    var p := Peeked(cfg, s, e.at);
    match e
    case Begin(_) => Begun(cfg, p)
    case Finish(tag, ok, _) => Finished(cfg, p, tag, ok)
    case Peek(_) => p
  }

  /** The transitions are the methods: the core moves by Before, After and Current. */
  lemma ApplyIsMethods(cfg: Settings, s: System, e: Event)
    ensures Apply(cfg, s, e).core ==
            match e
            case Begin(at) => Before(cfg, s.core, at).0
            case Finish(tag, ok, at) => After(cfg, s.core, tag, ok, at)
            case Peek(at) => Current(cfg, s.core, at)
  {}

  function Fresh(cfg: Settings, now: int): System {
    System(NewGeneration(cfg, Core(Closed, 0, ZERO, None), now), multiset{}, [], now)
  }

  ghost predicate CanRun(cfg: Settings, s: System, es: seq<Event>)
    decreases |es|
  {
    es == [] || (Enabled(s, es[0]) && CanRun(cfg, Apply(cfg, s, es[0]), es[1..]))
  }

  function Run(cfg: Settings, s: System, es: seq<Event>): System
    decreases |es|
  {
    if es == [] then s else Run(cfg, Apply(cfg, s, es[0]), es[1..])
  }

  // ---------------------------------------------------------------- the counters mean the results

  function CountOf(results: seq<bool>, ok: bool): nat { multiset(results)[ok] }

  /** The length of the run of equal results at the end. */
  function Trailing(results: seq<bool>, ok: bool): nat {
    if results == [] || results[|results| - 1] != ok then 0 else 1 + Trailing(results[..|results| - 1], ok)
  }

  ghost predicate CountsMean(c: Counts, results: seq<bool>) {
    && c.successes == CountOf(results, true) && c.failures == CountOf(results, false)
    && c.consecutiveSuccesses == Trailing(results, true)
    && c.consecutiveFailures == Trailing(results, false)
  }

  ghost predicate Consistent(cfg: Settings, s: System) {
    var b := s.core;
    && (forall tag :: tag in s.inFlight ==> tag <= b.generation)
    && CountsMean(b.counts, s.results)
    // conservation: what was admitted in this generation is in flight or has a result
    && s.inFlight[b.generation] + b.counts.successes + b.counts.failures == b.counts.requests
    && (b.state == Open ==> b.expiry.Some? && b.counts.requests == 0)
    && (b.state == HalfOpen ==> b.counts.requests <= cfg.maxRequests && b.counts.successes == 0)
  }

  lemma Recorded(c: Counts, results: seq<bool>, ok: bool)
    requires CountsMean(c, results)
    ensures CountsMean(if ok then OnSuccess(c) else OnFailure(c), results + [ok])
  {
    assert (results + [ok])[..|results|] == results;
  }

  lemma PeekConsistent(cfg: Settings, s: System, at: int)
    requires Consistent(cfg, s)
    ensures Consistent(cfg, Peeked(cfg, s, at))
    ensures Peeked(cfg, s, at).core.generation != s.core.generation ==>
              Peeked(cfg, s, at).core.counts == ZERO && Peeked(cfg, s, at).core.generation !in s.inFlight
  {}

  lemma BeginConsistent(cfg: Settings, p: System)
    requires Consistent(cfg, p)
    ensures Consistent(cfg, Begun(cfg, p))
  {}

  lemma FinishConsistent(cfg: Settings, p: System, tag: nat, ok: bool)
    requires Consistent(cfg, p) && tag in p.inFlight
    ensures Consistent(cfg, Finished(cfg, p, tag, ok))
  {
    if tag == p.core.generation {
      Recorded(p.core.counts, p.results, ok);
    }
  }

  lemma StepConsistent(cfg: Settings, s: System, e: Event)
    requires Consistent(cfg, s) && Enabled(s, e)
    ensures Consistent(cfg, Apply(cfg, s, e))
  {
    PeekConsistent(cfg, s, e.at);
    match e
    case Begin(at) => BeginConsistent(cfg, Peeked(cfg, s, at));
    case Finish(tag, ok, at) => FinishConsistent(cfg, Peeked(cfg, s, at), tag, ok);
    case Peek(_) =>
  }

  lemma {:induction false} RunConsistent(cfg: Settings, s: System, es: seq<Event>)
    requires Consistent(cfg, s) && CanRun(cfg, s, es)
    ensures Consistent(cfg, Run(cfg, s, es))
    decreases |es|
  {
    if es != [] {
      StepConsistent(cfg, s, es[0]);
      RunConsistent(cfg, Apply(cfg, s, es[0]), es[1..]);
    }
  }

  /** Conservation and meaning of the counters after any interleaving of starts and finishes. */
  lemma CountersAreExact(cfg: Settings, start: int, es: seq<Event>)
    requires CanRun(cfg, Fresh(cfg, start), es)
    ensures var s := Run(cfg, Fresh(cfg, start), es);
            && s.inFlight[s.core.generation] ==
               s.core.counts.requests - s.core.counts.successes - s.core.counts.failures
            && CountsMean(s.core.counts, s.results)
            && (s.core.state == Open ==> s.core.counts == ZERO)
            && (s.core.state == HalfOpen ==> s.core.counts.requests <= cfg.maxRequests)
  {
    RunConsistent(cfg, Fresh(cfg, start), es);
    var s := Run(cfg, Fresh(cfg, start), es);
    if s.core.state == Open { NoResults(s.results); }
  }

  lemma NoResults(results: seq<bool>)
    ensures CountOf(results, true) == 0 && CountOf(results, false) == 0 ==> results == []
  {
    if results != [] {
      assert results[0] in multiset(results);
      assert results[0] == true || results[0] == false;
    }
  }

  /** After any run, a result from an older generation does no more than bring the state up to date. */
  lemma StaleResultIgnored(cfg: Settings, start: int, es: seq<Event>, tag: nat, ok: bool, at: int)
    requires CanRun(cfg, Fresh(cfg, start), es) && Enabled(Run(cfg, Fresh(cfg, start), es), Finish(tag, ok, at))
    requires tag != Run(cfg, Fresh(cfg, start), es).core.generation
    ensures var s := Run(cfg, Fresh(cfg, start), es);
            var t := Apply(cfg, s, Finish(tag, ok, at));
            t.core == Current(cfg, s.core, at) && t.results == Kept(s.results, s.core, t.core)
  {
    RunConsistent(cfg, Fresh(cfg, start), es);
    PeekConsistent(cfg, Run(cfg, Fresh(cfg, start), es), at);
  }

  /** After any run, whatever result comes back to an open breaker is not recorded. */
  lemma NothingRecordedWhileOpen(cfg: Settings, start: int, es: seq<Event>, tag: nat, ok: bool, at: int)
    requires CanRun(cfg, Fresh(cfg, start), es) && Enabled(Run(cfg, Fresh(cfg, start), es), Finish(tag, ok, at))
    requires Run(cfg, Fresh(cfg, start), es).core.state == Open
    ensures var s := Run(cfg, Fresh(cfg, start), es);
            var t := Apply(cfg, s, Finish(tag, ok, at));
            t.core == Current(cfg, s.core, at) && t.results == []
  {
    RunConsistent(cfg, Fresh(cfg, start), es);
    var s := Run(cfg, Fresh(cfg, start), es);
    PeekConsistent(cfg, s, at);
    NoResults(s.results);
  }

  // ---------------------------------------------------------------- generations

  lemma StepGrowsGeneration(cfg: Settings, s: System, e: Event)
    ensures Apply(cfg, s, e).core.generation >= s.core.generation
    ensures Apply(cfg, s, e).core.state != s.core.state ==> Apply(cfg, s, e).core.generation > s.core.generation
  {
    var p := Peeked(cfg, s, e.at);
    assert p.core.generation >= s.core.generation;
    assert p.core.state != s.core.state ==> p.core.generation > s.core.generation;
    if e.Finish? { RecordGrowsGeneration(cfg, p.core, e.ok, p.now); }
  }

  lemma RecordGrowsGeneration(cfg: Settings, c: Core, ok: bool, now: int)
    ensures Record(cfg, c, ok, now).generation >= c.generation
    ensures Record(cfg, c, ok, now).state != c.state ==> Record(cfg, c, ok, now).generation > c.generation
  {}

  /** Every state change strictly increases the generation, over any run. */
  lemma {:induction false} GenerationsGrow(cfg: Settings, s: System, es: seq<Event>)
    ensures Run(cfg, s, es).core.generation >= s.core.generation
    ensures Run(cfg, s, es).core.state != s.core.state ==> Run(cfg, s, es).core.generation > s.core.generation
    decreases |es|
  {
    if es != [] {
      StepGrowsGeneration(cfg, s, es[0]);
      GenerationsGrow(cfg, Apply(cfg, s, es[0]), es[1..]);
    }
  }

  // ---------------------------------------------------------------- the open window

  /** Open, with the window armed up to the given time. */
  ghost predicate OpenUntil(s: System, until: int) {
    s.core.state == Open && s.core.expiry.Some? && s.core.expiry.value == until
  }

  /** Opening at time t arms the window until t + timeout. */
  lemma OpeningArmsWindow(cfg: Settings, s: System, e: Event)
    requires s.core.state != Open && Apply(cfg, s, e).core.state == Open
    ensures e.Finish? && !e.ok && OpenUntil(Apply(cfg, s, e), e.at + cfg.timeout)
  {
    var c := Peeked(cfg, s, e.at).core;
    assert c.state != Open;
    assert e.Finish? && e.tag == c.generation && Apply(cfg, s, e).core == Record(cfg, c, e.ok, e.at);
  }

  /** Up to and including the expiry nothing changes and every request is refused. */
  lemma {:induction false} WindowHolds(cfg: Settings, s: System, es: seq<Event>, until: int)
    requires Consistent(cfg, s) && CanRun(cfg, s, es) && OpenUntil(s, until)
    requires forall i :: 0 <= i < |es| ==> es[i].at <= until
    ensures Run(cfg, s, es).core == s.core && Run(cfg, s, es).inFlight <= s.inFlight
    ensures forall at :: at <= until ==> Before(cfg, Run(cfg, s, es).core, at) == (s.core, Fail(OpenState))
    decreases |es|
  {
    if es != [] {
      assert es[0].at <= until;
      StepConsistent(cfg, s, es[0]);
      PeekConsistent(cfg, s, es[0].at);
      WindowHolds(cfg, Apply(cfg, s, es[0]), es[1..], until);
    }
  }

  /** Open since until, or half open with no request admitted yet. */
  ghost predicate Pending(s: System, until: int) {
    || OpenUntil(s, until)
    || (s.core.state == HalfOpen && s.core.counts.requests == 0)
  }

  lemma {:induction false} PendingHolds(cfg: Settings, s: System, es: seq<Event>, until: int)
    requires Consistent(cfg, s) && CanRun(cfg, s, es) && Pending(s, until)
    requires forall i :: 0 <= i < |es| ==> !es[i].Begin?
    ensures Pending(Run(cfg, s, es), until)
    decreases |es|
  {
    if es != [] {
      assert !es[0].Begin?;
      StepConsistent(cfg, s, es[0]);
      PeekConsistent(cfg, s, es[0].at);
      PendingHolds(cfg, Apply(cfg, s, es[0]), es[1..], until);
    }
  }

  /** The first request after the window is admitted as a half-open probe. */
  lemma FirstProbeAdmitted(cfg: Settings, s: System, es: seq<Event>, until: int, at: int)
    requires Consistent(cfg, s) && CanRun(cfg, s, es) && cfg.maxRequests >= 1
    requires OpenUntil(s, until) && at > until
    requires forall i :: 0 <= i < |es| ==> !es[i].Begin?
    ensures Before(cfg, Run(cfg, s, es).core, at).1.Success?
    ensures Before(cfg, Run(cfg, s, es).core, at).0.state == HalfOpen
  {
    PendingHolds(cfg, s, es, until);
  }

  ghost predicate Reachable(cfg: Settings, s: System) {
    exists start, es :: CanRun(cfg, Fresh(cfg, start), es) && s == Run(cfg, Fresh(cfg, start), es)
  }

  lemma ReachableConsistent(cfg: Settings, s: System)
    requires Reachable(cfg, s)
    ensures Consistent(cfg, s)
  {
    var start, es :| CanRun(cfg, Fresh(cfg, start), es) && s == Run(cfg, Fresh(cfg, start), es);
    RunConsistent(cfg, Fresh(cfg, start), es);
  }

  /** The step e of some run leads from s to t and opens the breaker. */
  ghost predicate Opens(cfg: Settings, s: System, e: Event, t: System) {
    Reachable(cfg, s) && Enabled(s, e) && t == Apply(cfg, s, e) && s.core.state != Open == t.core.state
  }

  lemma OpensArmed(cfg: Settings, s: System, e: Event, t: System)
    requires Opens(cfg, s, e, t)
    ensures Consistent(cfg, t) && OpenUntil(t, e.at + cfg.timeout)
  {
    ReachableConsistent(cfg, s);
    StepConsistent(cfg, s, e);
    OpeningArmsWindow(cfg, s, e);
  }

  /** Some run has just opened the breaker, timeout before the given time. */
  ghost predicate JustOpened(cfg: Settings, t: System, until: int) {
    exists s, e :: Opens(cfg, s, e, t) && until == e.at + cfg.timeout
  }

  lemma JustOpenedArmed(cfg: Settings, t: System, until: int)
    requires JustOpened(cfg, t, until)
    ensures Consistent(cfg, t) && OpenUntil(t, until)
  {
    var s, e :| Opens(cfg, s, e, t) && until == e.at + cfg.timeout;
    OpensArmed(cfg, s, e, t);
  }

  /**
   The open window, in every run: once a step has opened the breaker, whatever happens until timeout
   after that step, that moment included, leaves it as it is and every request is refused; and the first
   request later than that, whatever results come back in between, is admitted as a half-open probe.
   */
  lemma OpenWindow(cfg: Settings, t: System, until: int, during: seq<Event>, quiet: seq<Event>, now: int)
    requires cfg.maxRequests >= 1 && JustOpened(cfg, t, until) && CanRun(cfg, t, during + quiet)
    requires forall i :: 0 <= i < |during| ==> during[i].at <= until
    requires forall i :: 0 <= i < |quiet| ==> !quiet[i].Begin?
    ensures now <= until ==> Before(cfg, Run(cfg, t, during).core, now) == (t.core, Fail(OpenState))
    ensures now > until ==>
              && Before(cfg, Run(cfg, t, during + quiet).core, now).1.Success?
              && Before(cfg, Run(cfg, t, during + quiet).core, now).0.state == HalfOpen
  {
    JustOpenedArmed(cfg, t, until);
    RunAppend(cfg, t, during, quiet);
    RunConsistent(cfg, t, during);
    WindowHolds(cfg, t, during, until);
    if now > until { FirstProbeAdmitted(cfg, Run(cfg, t, during), quiet, until, now); }
  }

  // ---------------------------------------------------------------- the closed window

  /** In some run a closed generation begins at the given time: with the breaker, or by a step. */
  ghost predicate StartsClosed(cfg: Settings, t: System, at: int) {
    || t == Fresh(cfg, at)
    || exists s, e :: ClosesInto(cfg, s, e, t) && at == e.at
  }

  ghost predicate ClosesInto(cfg: Settings, s: System, e: Event, t: System) {
    && Reachable(cfg, s) && Enabled(s, e) && t == Apply(cfg, s, e)
    && t.core.state == Closed && t.core.generation != s.core.generation
  }

  /** Closed, with the window of a generation that began at the given time. */
  ghost predicate ClosedSince(cfg: Settings, c: Core, at: int) {
    && c.state == Closed
    && (cfg.interval == 0 ==> c.expiry.None?)
    && (cfg.interval != 0 ==> c.expiry.Some? && c.expiry.value == at + cfg.interval)
  }

  lemma RecordCloses(cfg: Settings, c: Core, ok: bool, now: int)
    requires Record(cfg, c, ok, now).state == Closed
    ensures Record(cfg, c, ok, now).generation == c.generation ==>
              c.state == Closed && Record(cfg, c, ok, now).expiry == c.expiry
    ensures Record(cfg, c, ok, now).generation != c.generation ==> ClosedSince(cfg, Record(cfg, c, ok, now), now)
  {}

  lemma ClosingArms(cfg: Settings, s: System, e: Event)
    requires Apply(cfg, s, e).core.state == Closed && Apply(cfg, s, e).core.generation != s.core.generation
    ensures ClosedSince(cfg, Apply(cfg, s, e).core, e.at)
  {
    var c := Peeked(cfg, s, e.at).core;
    assert c.generation != s.core.generation && c.state == Closed ==> ClosedSince(cfg, c, e.at);
    if e.Finish? && e.tag == c.generation { RecordCloses(cfg, c, e.ok, e.at); }
  }

  lemma StartsClosedArmed(cfg: Settings, t: System, at: int)
    requires StartsClosed(cfg, t, at)
    ensures ClosedSince(cfg, t.core, at)
  {
    if t != Fresh(cfg, at) {
      var s, e :| ClosesInto(cfg, s, e, t) && at == e.at;
      ClosingArms(cfg, s, e);
    }
  }

  lemma RecordKeepsWindow(cfg: Settings, c: Core, ok: bool, now: int)
    requires Record(cfg, c, ok, now).generation == c.generation
    ensures Record(cfg, c, ok, now).state == c.state && Record(cfg, c, ok, now).expiry == c.expiry
  {}

  lemma StepKeepsWindow(cfg: Settings, s: System, e: Event)
    requires Apply(cfg, s, e).core.generation == s.core.generation
    ensures Apply(cfg, s, e).core.state == s.core.state && Apply(cfg, s, e).core.expiry == s.core.expiry
  {
    var c := Peeked(cfg, s, e.at).core;
    assert c.generation >= s.core.generation && (c.generation == s.core.generation ==> c == s.core);
    if e.Finish? && e.tag == c.generation {
      RecordGrowsGeneration(cfg, c, e.ok, e.at);
      if Record(cfg, c, e.ok, e.at).generation == c.generation { RecordKeepsWindow(cfg, c, e.ok, e.at); }
    }
  }

  /** As long as a generation lasts, its state and its window stay. */
  lemma {:induction false} GenerationKeepsWindow(cfg: Settings, s: System, es: seq<Event>)
    requires Run(cfg, s, es).core.generation == s.core.generation
    ensures Run(cfg, s, es).core.state == s.core.state && Run(cfg, s, es).core.expiry == s.core.expiry
    decreases |es|
  {
    if es != [] {
      var t := Apply(cfg, s, es[0]);
      StepGrowsGeneration(cfg, s, es[0]);
      GenerationsGrow(cfg, t, es[1..]);
      StepKeepsWindow(cfg, s, es[0]);
      GenerationKeepsWindow(cfg, t, es[1..]);
    }
  }

  /** The window of a closed generation: within it a call finds the breaker as it is, after it a new generation. */
  lemma ClosedCurrent(cfg: Settings, c: Core, at: int, now: int)
    requires ClosedSince(cfg, c, at)
    ensures cfg.interval == 0 || now <= at + cfg.interval ==> Current(cfg, c, now) == c
    ensures cfg.interval != 0 && now > at + cfg.interval ==>
              && Current(cfg, c, now).generation == c.generation + 1
              && Current(cfg, c, now).counts == Counts(0, 0, 0, 0, 0)
              && ClosedSince(cfg, Current(cfg, c, now), now)
  {}

  /**
   The closed window, in every run: once a closed generation has begun at time at, and as long as it
   lasts, every call up to and including at + interval finds it unchanged and a result tagged with it
   counts; the first later call begins a new one with zero counts, and the result is not recorded. With
   interval zero time never ends it.
   */
  lemma ClosedWindow(cfg: Settings, t: System, at: int, es: seq<Event>, ok: bool, now: int)
    requires StartsClosed(cfg, t, at) && CanRun(cfg, t, es)
    requires Run(cfg, t, es).core.generation == t.core.generation
    ensures var c := Run(cfg, t, es).core;
            if cfg.interval == 0 || now <= at + cfg.interval
            then Current(cfg, c, now) == c && After(cfg, c, t.core.generation, ok, now) == Record(cfg, c, ok, now)
            else
              && Current(cfg, c, now).state == Closed && Current(cfg, c, now).generation == t.core.generation + 1
              && Current(cfg, c, now).counts == Counts(0, 0, 0, 0, 0)
              && After(cfg, c, t.core.generation, ok, now) == Current(cfg, c, now)
  {
    StartsClosedArmed(cfg, t, at);
    GenerationKeepsWindow(cfg, t, es);
    ClosedCurrent(cfg, Run(cfg, t, es).core, at, now);
  }

  // ---------------------------------------------------------------- any trip rule

  /** After any run, a failure recorded in the current generation opens the breaker exactly when the rule says so. */
  lemma TripsIffRule(cfg: Settings, start: int, es: seq<Event>, at: int, counts: Counts)
    requires CanRun(cfg, Fresh(cfg, start), es)
    requires var s := Peeked(cfg, Run(cfg, Fresh(cfg, start), es), at);
             && s.core.state != Open && counts.requests == s.core.counts.requests
             && CountsMean(counts, s.results + [false])
    ensures var b := Run(cfg, Fresh(cfg, start), es).core;
            After(cfg, b, Current(cfg, b, at).generation, false, at).state == Open <==> cfg.readyToTrip(counts)
  {
    var r := Run(cfg, Fresh(cfg, start), es);
    RunConsistent(cfg, Fresh(cfg, start), es);
    PeekConsistent(cfg, r, at);
    var s := Peeked(cfg, r, at);
    Recorded(s.core.counts, s.results, false);
    assert counts == OnFailure(s.core.counts);
  }

  // ---------------------------------------------------------------- the default trip rule

  ghost predicate DefaultRule(cfg: Settings) { forall c :: cfg.readyToTrip(c) <==> DefaultReadyToTrip(c) }

  ghost predicate Untripped(s: System) { Trailing(s.results, false) <= 5 }

  lemma {:induction false} RunUntripped(cfg: Settings, s: System, es: seq<Event>)
    requires DefaultRule(cfg) && Consistent(cfg, s) && Untripped(s) && CanRun(cfg, s, es)
    ensures Untripped(Run(cfg, s, es))
    decreases |es|
  {
    if es != [] {
      StepConsistent(cfg, s, es[0]);
      StepUntripped(cfg, s, es[0]);
      RunUntripped(cfg, Apply(cfg, s, es[0]), es[1..]);
    }
  }

  lemma TrailingSnoc(results: seq<bool>, ok: bool)
    ensures Trailing(results + [ok], false) == if ok then 0 else Trailing(results, false) + 1
  {
    assert (results + [ok])[..|results|] == results;
  }

  lemma RecordTrips(cfg: Settings, c: Core, ok: bool, now: int)
    requires DefaultRule(cfg) && c.state != Open && c.counts.consecutiveFailures <= 5
    ensures Record(cfg, c, ok, now).state == Open <==> !ok && c.counts.consecutiveFailures == 5
    ensures Record(cfg, c, ok, now).generation == c.generation ==> ok || c.counts.consecutiveFailures < 5
  {
    assert cfg.readyToTrip(OnFailure(c.counts)) <==> c.counts.consecutiveFailures == 5;
  }

  lemma FinishTrips(cfg: Settings, p: System, ok: bool)
    requires DefaultRule(cfg) && Consistent(cfg, p) && Untripped(p) && p.core.state != Open
    ensures Untripped(Finished(cfg, p, p.core.generation, ok))
    ensures Finished(cfg, p, p.core.generation, ok).core.state == Open <==>
              !ok && Trailing(p.results + [false], false) == 6
  {
    RecordTrips(cfg, p.core, ok, p.now);
    TrailingSnoc(p.results, ok);
    TrailingSnoc(p.results, false);
  }

  lemma StepUntripped(cfg: Settings, s: System, e: Event)
    requires DefaultRule(cfg) && Consistent(cfg, s) && Untripped(s) && Enabled(s, e)
    ensures Untripped(Apply(cfg, s, e))
  {
    PeekConsistent(cfg, s, e.at);
    var p := Peeked(cfg, s, e.at);
    if e.Finish? && e.tag == p.core.generation { FinishTrips(cfg, p, e.ok); }
  }

  /** It opens exactly on the sixth failure in a row recorded in one generation. */
  lemma OpensOnSixthFailure(cfg: Settings, start: int, es: seq<Event>, e: Event)
    requires DefaultRule(cfg) && CanRun(cfg, Fresh(cfg, start), es)
    requires var s := Run(cfg, Fresh(cfg, start), es); Enabled(s, e) && s.core.state != Open
    ensures var s := Run(cfg, Fresh(cfg, start), es);
            Apply(cfg, s, e).core.state == Open <==>
              && e.Finish? && !e.ok && e.tag == Current(cfg, s.core, e.at).generation
              && Trailing(s.results + [false], false) == 6
  {
    RunConsistent(cfg, Fresh(cfg, start), es);
    RunUntripped(cfg, Fresh(cfg, start), es);
    StepTrips(cfg, Run(cfg, Fresh(cfg, start), es), e);
  }

  lemma StepTrips(cfg: Settings, s: System, e: Event)
    requires DefaultRule(cfg) && Consistent(cfg, s) && Untripped(s) && Enabled(s, e) && s.core.state != Open
    ensures Apply(cfg, s, e).core.state == Open <==>
              && e.Finish? && !e.ok && e.tag == Current(cfg, s.core, e.at).generation
              && Trailing(s.results + [false], false) == 6
  {
    PeekConsistent(cfg, s, e.at);
    var p := Peeked(cfg, s, e.at);
    if e.Finish? && e.tag == p.core.generation {
      assert p.results == s.results;
      FinishTrips(cfg, p, e.ok);
    }
  }

  // ---------------------------------------------------------------- half open can be for ever

  /** Half open, all probes used up and answered. */
  ghost predicate Wedged(cfg: Settings, s: System) {
    s.core.state == HalfOpen && s.core.counts.requests >= cfg.maxRequests && s.inFlight[s.core.generation] == 0
  }

  /** A wedged breaker refuses every request from then on, at any time and whatever else happens. */
  lemma {:induction false} WedgedForever(cfg: Settings, s: System, es: seq<Event>)
    requires Consistent(cfg, s) && Wedged(cfg, s) && CanRun(cfg, s, es)
    ensures Run(cfg, s, es).core == s.core && Wedged(cfg, Run(cfg, s, es))
    ensures forall at :: Before(cfg, Run(cfg, s, es).core, at).1 == Fail(TooManyRequests)
    decreases |es|
  {
    if es != [] {
      StepConsistent(cfg, s, es[0]);
      WedgedForever(cfg, Apply(cfg, s, es[0]), es[1..]);
    }
  }

  lemma {:induction false} AllFailures(results: seq<bool>)
    requires CountOf(results, true) == 0
    ensures Trailing(results, false) == |results| == CountOf(results, false)
  {
    if results != [] {
      var n := |results| - 1;
      assert results == results[..n] + [results[n]];
      AllFailures(results[..n]);
    }
  }

  /** Under the default rule only a breaker that probes with five requests or fewer can get there. */
  lemma WedgeNeedsFewProbes(cfg: Settings, start: int, es: seq<Event>)
    requires DefaultRule(cfg) && CanRun(cfg, Fresh(cfg, start), es)
    requires Wedged(cfg, Run(cfg, Fresh(cfg, start), es))
    ensures cfg.maxRequests <= 5
  {
    RunConsistent(cfg, Fresh(cfg, start), es);
    RunUntripped(cfg, Fresh(cfg, start), es);
    AllFailures(Run(cfg, Fresh(cfg, start), es).results);
  }

  /** n requests begin at once, then each of them fails. */
  function Begins(n: nat, at: int): seq<Event> { seq(n, i => Begin(at)) }

  function Failures(n: nat, tag: nat, at: int): seq<Event> { seq(n, i => Finish(tag, false, at)) }

  lemma {:induction false} RunAppend(cfg: Settings, s: System, es: seq<Event>, fs: seq<Event>)
    ensures Run(cfg, s, es + fs) == Run(cfg, Run(cfg, s, es), fs)
    ensures CanRun(cfg, s, es + fs) <==> CanRun(cfg, s, es) && CanRun(cfg, Run(cfg, s, es), fs)
    decreases |es|
  {
    if es == [] {
      assert es + fs == fs;
    } else {
      assert (es + fs)[1..] == es[1..] + fs;
      RunAppend(cfg, Apply(cfg, s, es[0]), es[1..], fs);
    }
  }

  /** The clock does not interfere. */
  ghost predicate Steady(cfg: Settings, s: System) {
    s.core.state != Open && Current(cfg, s.core, s.now) == s.core
  }

  /** Admitting n requests at one time. */
  lemma {:induction false} BeginsRun(cfg: Settings, s: System, n: nat)
    requires Steady(cfg, s) && (s.core.state == HalfOpen ==> s.core.counts.requests + n <= cfg.maxRequests)
    ensures CanRun(cfg, s, Begins(n, s.now))
    ensures Run(cfg, s, Begins(n, s.now)) ==
            s.(core := s.core.(counts := s.core.counts.(requests := s.core.counts.requests + n)),
               inFlight := s.inFlight[s.core.generation := s.inFlight[s.core.generation] + n])
    decreases n
  {
    if n > 0 {
      assert Begins(n, s.now)[1..] == Begins(n - 1, s.now);
      var t := Apply(cfg, s, Begin(s.now));
      assert t.inFlight == s.inFlight[s.core.generation := s.inFlight[s.core.generation] + 1];
      BeginsRun(cfg, t, n - 1);
    } else {
      assert s.inFlight[s.core.generation := s.inFlight[s.core.generation]] == s.inFlight;
    }
  }

  /** Up to five failures in a row at one time. */
  lemma {:induction false} FailuresRun(cfg: Settings, s: System, n: nat)
    requires DefaultRule(cfg) && Steady(cfg, s) && s.core.counts.consecutiveFailures + n <= 5
    requires s.inFlight[s.core.generation] >= n
    ensures CanRun(cfg, s, Failures(n, s.core.generation, s.now))
    ensures var t := Run(cfg, s, Failures(n, s.core.generation, s.now));
            && t.core.state == s.core.state && t.core.generation == s.core.generation && t.core.expiry == s.core.expiry
            && t.core.counts.requests == s.core.counts.requests && t.now == s.now
            && t.core.counts.consecutiveFailures == s.core.counts.consecutiveFailures + n
            && t.inFlight[s.core.generation] == s.inFlight[s.core.generation] - n
    decreases n
  {
    if n > 0 {
      assert Failures(n, s.core.generation, s.now)[1..] == Failures(n - 1, s.core.generation, s.now);
      FailuresRun(cfg, Apply(cfg, s, Finish(s.core.generation, false, s.now)), n - 1);
    }
  }

  /** The sixth failure in a row, and a look at the breaker once the window is over. */
  lemma SixthFailureThenPeek(cfg: Settings, s: System) returns (es: seq<Event>)
    requires DefaultRule(cfg) && Steady(cfg, s) && s.core.counts.consecutiveFailures == 5
    requires s.core.generation in s.inFlight
    ensures CanRun(cfg, s, es) && Run(cfg, s, es).core.state == HalfOpen && Run(cfg, s, es).core.counts == ZERO
  {
    var last := Finish(s.core.generation, false, s.now);
    var tripped := Apply(cfg, s, last);
    RecordTrips(cfg, s.core, false, s.now);
    OpeningArmsWindow(cfg, s, last);
    var peek := Peek(if cfg.timeout >= 0 then s.now + cfg.timeout + 1 else s.now);
    es := [last] + [peek];
    RunOne(cfg, s, last);
    RunOne(cfg, tripped, peek);
    RunAppend(cfg, s, [last], [peek]);
  }

  lemma RunOne(cfg: Settings, s: System, e: Event)
    ensures Run(cfg, s, [e]) == Apply(cfg, s, e) && (CanRun(cfg, s, [e]) <==> Enabled(s, e))
  {
    assert [e][1..] == [];
    assert Run(cfg, s, [e]) == Run(cfg, Apply(cfg, s, e), []);
  }

  /** Six failing requests open a fresh breaker, and once the window is over it is half open. */
  lemma ReachesHalfOpen(cfg: Settings, start: int) returns (es: seq<Event>)
    requires DefaultRule(cfg) && cfg.interval >= 0
    ensures CanRun(cfg, Fresh(cfg, start), es)
    ensures var s := Run(cfg, Fresh(cfg, start), es); s.core.state == HalfOpen && s.core.counts == ZERO
  {
    var s := Fresh(cfg, start);
    var begins := Begins(6, start);
    BeginsRun(cfg, s, 6);
    var rest := FailsIntoHalfOpen(cfg, Run(cfg, s, begins));
    RunAppend(cfg, s, begins, rest);
    es := begins + rest;
  }

  lemma FailsIntoHalfOpen(cfg: Settings, s: System) returns (es: seq<Event>)
    requires DefaultRule(cfg) && Steady(cfg, s) && s.core.counts.consecutiveFailures == 0
    requires s.inFlight[s.core.generation] >= 6
    ensures CanRun(cfg, s, es) && Run(cfg, s, es).core.state == HalfOpen && Run(cfg, s, es).core.counts == ZERO
  {
    var fails := Failures(5, s.core.generation, s.now);
    FailuresRun(cfg, s, 5);
    var rest := SixthFailureThenPeek(cfg, Run(cfg, s, fails));
    RunAppend(cfg, s, fails, rest);
    es := fails + rest;
  }

  /** From a fresh half-open generation with few probes: they all fail, and that is the end. */
  lemma FewProbesWedge(cfg: Settings, s: System) returns (es: seq<Event>)
    requires DefaultRule(cfg) && Consistent(cfg, s) && cfg.maxRequests <= 5
    requires s.core.state == HalfOpen && s.core.counts == ZERO
    ensures CanRun(cfg, s, es) && Wedged(cfg, Run(cfg, s, es))
  {
    var n := cfg.maxRequests;
    BeginsRun(cfg, s, n);
    var t := Run(cfg, s, Begins(n, s.now));
    FailuresRun(cfg, t, n);
    es := Begins(n, s.now) + Failures(n, s.core.generation, s.now);
    RunAppend(cfg, s, Begins(n, s.now), Failures(n, s.core.generation, s.now));
  }

  /** A negative interval ends the closed generation at every call, so no result ever counts. */
  ghost predicate AlwaysExpired(s: System) {
    s.core.state == Closed && s.core.expiry.Some? && s.core.expiry.value < s.now
  }

  lemma {:induction false} NegativeIntervalStaysClosed(cfg: Settings, s: System, es: seq<Event>)
    requires cfg.interval < 0 && Consistent(cfg, s) && AlwaysExpired(s) && CanRun(cfg, s, es)
    ensures AlwaysExpired(Run(cfg, s, es))
    decreases |es|
  {
    if es != [] {
      StepConsistent(cfg, s, es[0]);
      PeekConsistent(cfg, s, es[0].at);
      NegativeIntervalStaysClosed(cfg, Apply(cfg, s, es[0]), es[1..]);
    }
  }

  /** What a wedge takes: a generation that lasts, and five probes or fewer. */
  lemma WedgeNeeds(cfg: Settings, start: int, es: seq<Event>)
    requires DefaultRule(cfg) && CanRun(cfg, Fresh(cfg, start), es)
    requires Wedged(cfg, Run(cfg, Fresh(cfg, start), es))
    ensures cfg.maxRequests <= 5 && cfg.interval >= 0
  {
    WedgeNeedsFewProbes(cfg, start, es);
    if cfg.interval < 0 { NegativeIntervalStaysClosed(cfg, Fresh(cfg, start), es); }
  }

  /**
   A breaker with the default rule can end up refusing for ever exactly when it probes with five or
   fewer requests and its interval is not negative.
   */
  lemma WedgeReachableIff(cfg: Settings, start: int)
    requires DefaultRule(cfg)
    ensures (exists es :: CanRun(cfg, Fresh(cfg, start), es) && Wedged(cfg, Run(cfg, Fresh(cfg, start), es)))
            <==> cfg.maxRequests <= 5 && cfg.interval >= 0
  {
    forall es | CanRun(cfg, Fresh(cfg, start), es) && Wedged(cfg, Run(cfg, Fresh(cfg, start), es))
      ensures cfg.maxRequests <= 5 && cfg.interval >= 0
    {
      WedgeNeeds(cfg, start, es);
    }
    if cfg.maxRequests <= 5 && cfg.interval >= 0 {
      var es := ReachesHalfOpen(cfg, start);
      RunConsistent(cfg, Fresh(cfg, start), es);
      var fs := FewProbesWedge(cfg, Run(cfg, Fresh(cfg, start), es));
      RunAppend(cfg, Fresh(cfg, start), es, fs);
      assert CanRun(cfg, Fresh(cfg, start), es + fs);
    }
  }

  // ---------------------------------------------------------------- refusing for ever is being wedged

  /** Whatever happens from here on, no request is ever admitted again. */
  ghost predicate RefusesForever(cfg: Settings, s: System) {
    forall es, at :: CanRun(cfg, s, es) && at >= Run(cfg, s, es).now ==> Before(cfg, Run(cfg, s, es).core, at).1.Fail?
  }

  /** An answered probe closes a half-open breaker, and a closed breaker admits. */
  lemma ProbeCloses(cfg: Settings, s: System)
    requires s.core.state == HalfOpen && s.core.generation in s.inFlight
    ensures CanRun(cfg, s, [Finish(s.core.generation, true, s.now)])
    ensures Run(cfg, s, [Finish(s.core.generation, true, s.now)]).core.state == Closed
  {
    RunOne(cfg, s, Finish(s.core.generation, true, s.now));
  }

  /** Unless it is wedged, some continuation admits a request. */
  lemma AdmitsAgain(cfg: Settings, s: System) returns (es: seq<Event>, at: int)
    requires cfg.maxRequests >= 1 && Consistent(cfg, s) && !Wedged(cfg, s)
    ensures CanRun(cfg, s, es) && at >= Run(cfg, s, es).now
    ensures Before(cfg, Run(cfg, s, es).core, at).1.Success?
  {
    es, at := [], s.now;
    if s.core.state == Open {
      at := if s.core.expiry.value >= s.now then s.core.expiry.value + 1 else s.now;
    } else if s.core.state == HalfOpen && s.core.counts.requests >= cfg.maxRequests {
      es := [Finish(s.core.generation, true, s.now)];
      ProbeCloses(cfg, s);
      RunOne(cfg, s, es[0]);
    }
  }

  /** A reachable breaker refuses every request for ever exactly when it is wedged, whatever its trip rule. */
  lemma RefusesForeverIffWedged(cfg: Settings, start: int, es: seq<Event>)
    requires cfg.maxRequests >= 1 && CanRun(cfg, Fresh(cfg, start), es)
    ensures RefusesForever(cfg, Run(cfg, Fresh(cfg, start), es)) <==> Wedged(cfg, Run(cfg, Fresh(cfg, start), es))
  {
    RunConsistent(cfg, Fresh(cfg, start), es);
    WedgedIff(cfg, Run(cfg, Fresh(cfg, start), es));
  }

  lemma WedgedIff(cfg: Settings, s: System)
    requires cfg.maxRequests >= 1 && Consistent(cfg, s)
    ensures RefusesForever(cfg, s) <==> Wedged(cfg, s)
  {
    if Wedged(cfg, s) {
      forall es, at | CanRun(cfg, s, es) ensures Before(cfg, Run(cfg, s, es).core, at).1.Fail? {
        WedgedForever(cfg, s, es);
      }
    } else {
      var es, at := AdmitsAgain(cfg, s);
    }
  }

  /**
   A breaker with the default rule can end up refusing every request for ever exactly when it probes
   with five or fewer requests and its interval is not negative.
   */
  lemma RefusalReachableIff(cfg: Settings, start: int)
    requires DefaultRule(cfg) && cfg.maxRequests >= 1
    ensures (exists es :: CanRun(cfg, Fresh(cfg, start), es) && RefusesForever(cfg, Run(cfg, Fresh(cfg, start), es)))
            <==> cfg.maxRequests <= 5 && cfg.interval >= 0
  {
    WedgeReachableIff(cfg, start);
    forall es | CanRun(cfg, Fresh(cfg, start), es)
      ensures RefusesForever(cfg, Run(cfg, Fresh(cfg, start), es)) <==> Wedged(cfg, Run(cfg, Fresh(cfg, start), es))
    {
      RefusesForeverIffWedged(cfg, start, es);
    }
  }
}
