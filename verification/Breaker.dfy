/** The circuit breaker of internal/outbound/protected.go.

    `BeforeRequest` and `AfterResult` are atomic (the source holds one mutex), but calls
    overlap, so a run is any sequence of asks and reports.  The log specification below
    knows nothing of the breaker's fields: it reads only which calls were admitted and
    what they reported. */
module Breaker {
  import opened Base

  const DEFAULT_THRESHOLD := 5
  const DEFAULT_OPEN_FOR := 15 * SECOND

  datatype Settings = Settings(threshold: int, openFor: int)

  predicate Positive(c: Settings) { 0 < c.threshold && 0 < c.openFor }

  /** Settings after `init` has replaced every non-positive value by its default. */
  type Tuned = c: Settings | Positive(c) witness Settings(DEFAULT_THRESHOLD, DEFAULT_OPEN_FOR)

  function Tune(c: Settings): (t: Tuned)
    ensures t.threshold == if c.threshold > 0 then c.threshold else 5
    ensures t.openFor == if c.openFor > 0 then c.openFor else 15_000_000_000
  {
    Settings(if c.threshold <= 0 then DEFAULT_THRESHOLD else c.threshold,
             if c.openFor <= 0 then DEFAULT_OPEN_FOR else c.openFor)
  }

  datatype Circuit = Circuit(failures: nat, openedAt: int, halfOpen: bool)

  const CLOSED := Circuit(0, 0, false)

  datatype Verdict = Admitted | CircuitOpen | ProbeOut

  function Before(cfg: Tuned, c: Circuit, now: Moment): (Circuit, Verdict) {
    if c.openedAt == 0 then (c, Admitted)
    else if now - c.openedAt < cfg.openFor then (c, CircuitOpen)
    else if c.halfOpen then (c, ProbeOut)
    else (c.(halfOpen := true), Admitted)
  }

  function After(cfg: Tuned, c: Circuit, failed: bool, now: Moment): Circuit {
    if !failed then CLOSED
    else if c.halfOpen then Circuit(cfg.threshold, now, false)
    else if c.failures + 1 >= cfg.threshold then Circuit(c.failures + 1, now, c.halfOpen)
    else c.(failures := c.failures + 1)
  }

  /** The mutable breaker; each method is one critical section of the source's mutex. */
  class CircuitBreaker {
    const cfg: Tuned
    var failures: nat
    var openedAt: int
    var halfOpen: bool

    function Value(): Circuit
      reads this
    {
      Circuit(failures, openedAt, halfOpen)
    }

    constructor (raw: Settings)
      ensures cfg == Tune(raw) && Value() == CLOSED
    {
      cfg := Tune(raw);
      failures, openedAt, halfOpen := 0, 0, false;
    }

    method BeforeRequest(now: Moment) returns (verdict: Verdict)
      modifies this
      ensures (Value(), verdict) == Before(cfg, old(Value()), now)
    {
      if openedAt == 0 {
        return Admitted;
      }
      if now - openedAt < cfg.openFor {
        return CircuitOpen;
      }
      if halfOpen {
        return ProbeOut;
      }
      halfOpen := true;
      return Admitted;
    }

    method AfterResult(failed: bool, now: Moment)
      modifies this
      ensures Value() == After(cfg, old(Value()), failed, now)
    {
      if !failed {
        failures, openedAt, halfOpen := 0, 0, false;
        return;
      }
      if halfOpen {
        openedAt, halfOpen, failures := now, false, cfg.threshold;
        return;
      }
      failures := failures + 1;
      if failures >= cfg.threshold {
        openedAt := now;
      }
    }
  }

  /** What happened at the breaker, in the order in which its mutex was taken. */
  datatype Event =
    | Admit(id: nat, at: Moment)
    | Refuse(id: nat, at: Moment)
    | Outcome(id: nat, failed: bool, at: Moment)

  datatype Op =
    | Ask(id: nat, now: Moment)
    | Report(id: nat, failed: bool, now: Moment)

  datatype State = State(circuit: Circuit, log: seq<Event>)

  function Step(cfg: Tuned, s: State, op: Op): State {
    match op
    case Ask(id, now) =>
      var (c, v) := Before(cfg, s.circuit, now);
      State(c, s.log + [if v == Admitted then Admit(id, now) else Refuse(id, now)])
    case Report(id, failed, now) =>
      State(After(cfg, s.circuit, failed, now), s.log + [Outcome(id, failed, now)])
  }

  function Run(cfg: Tuned, ops: seq<Op>): State {
    if ops == [] then State(CLOSED, []) else Step(cfg, Run(cfg, ops[..|ops| - 1]), ops[|ops| - 1])
  }

  // ---- The specification: a reading of the log alone ----

  function Outcomes(log: seq<Event>): (r: seq<Event>)
    ensures forall i | 0 <= i < |r| :: r[i].Outcome?
  {
    if log == [] then []
    else
      var past, e := Outcomes(log[..|log| - 1]), log[|log| - 1];
      if e.Outcome? then past + [e] else past
  }

  /** The last `threshold` outcomes exist and are all failures. */
  predicate Tripped(cfg: Tuned, log: seq<Event>) {
    var r := Outcomes(log);
    cfg.threshold <= |r| && forall i | |r| - cfg.threshold <= i < |r| :: r[i].failed
  }

  function LastOutcomeAt(log: seq<Event>): Moment
    requires Outcomes(log) != []
  {
    var r := Outcomes(log);
    r[|r| - 1].at
  }

  predicate AdmittedSinceOutcome(log: seq<Event>) {
    if log == [] then false
    else
      match log[|log| - 1]
      case Admit(_, _) => true
      case Outcome(_, _, _) => false
      case Refuse(_, _) => AdmittedSinceOutcome(log[..|log| - 1])
  }

  /** That is: some admission has no outcome after it. */
  lemma {:induction false} AdmittedSinceMeans(log: seq<Event>)
    ensures AdmittedSinceOutcome(log)
            <==> exists i :: 0 <= i < |log| && log[i].Admit? && forall j | i < j < |log| :: !log[j].Outcome?
  {
    if log == [] {
    } else if log[|log| - 1].Refuse? {
      var past := log[..|log| - 1];
      AdmittedSinceMeans(past);
      assert forall i | 0 <= i < |past| :: past[i] == log[i];
      if i :| 0 <= i < |log| && log[i].Admit? && forall j | i < j < |log| :: !log[j].Outcome? {
        assert past[i].Admit? && forall j | i < j < |past| :: !past[j].Outcome?;
      }
    }
  }

  predicate Admissible(cfg: Tuned, log: seq<Event>, now: Moment) {
    Tripped(cfg, log) ==> now - LastOutcomeAt(log) >= cfg.openFor && !AdmittedSinceOutcome(log)
  }

  predicate Conforms(cfg: Tuned, log: seq<Event>) {
    && (forall i | 0 <= i < |log| :: log[i].Admit? ==> Admissible(cfg, log[..i], log[i].at))
    && (forall i | 0 <= i < |log| :: log[i].Refuse? ==> !Admissible(cfg, log[..i], log[i].at))
  }

  // ---- The refinement ----

  /** Length of the run of failures at the end of a list of outcomes. */
  function TrailingFailures(r: seq<Event>): (n: nat)
    requires forall i | 0 <= i < |r| :: r[i].Outcome?
    ensures n <= |r|
    ensures forall i | |r| - n <= i < |r| :: r[i].failed
    ensures n < |r| ==> !r[|r| - n - 1].failed
  {
    if r == [] || !r[|r| - 1].failed then 0 else 1 + TrailingFailures(r[..|r| - 1])
  }

  /** The failure count: failures in a row, counted afresh from the threshold when a probe fails. */
  function Failures(cfg: Tuned, log: seq<Event>): nat {
    if log == [] then 0
    else
      var past, e := log[..|log| - 1], log[|log| - 1];
      if !e.Outcome? then Failures(cfg, past)
      else if !e.failed then 0
      else if Tripped(cfg, past) && AdmittedSinceOutcome(past) then cfg.threshold
      else Failures(cfg, past) + 1
  }

  /** What the breaker has to remember of a log. */
  datatype View = View(trail: nat, lastAt: int, probing: bool)

  function LastAt(r: seq<Event>): int
    requires forall i | 0 <= i < |r| :: r[i].Outcome?
  {
    if r == [] then 0 else r[|r| - 1].at
  }

  function Look(log: seq<Event>): View {
    var r := Outcomes(log);
    View(TrailingFailures(r), LastAt(r), AdmittedSinceOutcome(log))
  }

  function Advance(v: View, e: Event): View {
    match e
    case Admit(_, _) => v.(probing := true)
    case Refuse(_, _) => v
    case Outcome(_, failed, at) => View(if failed then v.trail + 1 else 0, at, false)
  }

  predicate Matches(cfg: Tuned, c: Circuit, v: View) {
    if v.trail < cfg.threshold then c == Circuit(v.trail, 0, false)
    else c.failures >= cfg.threshold && c.openedAt == v.lastAt && c.openedAt != 0 && c.halfOpen == v.probing
  }

  predicate Refines(cfg: Tuned, c: Circuit, log: seq<Event>) { Matches(cfg, c, Look(log)) }

  lemma TrippedByTrail(cfg: Tuned, log: seq<Event>)
    ensures Tripped(cfg, log) <==> cfg.threshold <= TrailingFailures(Outcomes(log))
  {
    var r := Outcomes(log);
    var n := TrailingFailures(r);
    if n < |r| && n < cfg.threshold <= |r| {
      assert !r[|r| - n - 1].failed;
    }
  }

  lemma OutcomesAfter(log: seq<Event>, e: Event)
    ensures Outcomes(log + [e]) == if e.Outcome? then Outcomes(log) + [e] else Outcomes(log)
  {
    assert (log + [e])[..|log|] == log;
  }

  lemma TrailAfter(r: seq<Event>, e: Event)
    requires forall i | 0 <= i < |r| :: r[i].Outcome?
    requires e.Outcome?
    ensures TrailingFailures(r + [e]) == if e.failed then TrailingFailures(r) + 1 else 0
  {
    assert (r + [e])[..|r|] == r;
  }

  lemma AdmittedAfter(log: seq<Event>, e: Event)
    ensures AdmittedSinceOutcome(log + [e]) <==> e.Admit? || (e.Refuse? && AdmittedSinceOutcome(log))
  {
    assert (log + [e])[..|log|] == log;
  }

  lemma LookAfter(log: seq<Event>, e: Event)
    ensures Look(log + [e]) == Advance(Look(log), e)
  {
    var r, r' := Outcomes(log), Outcomes(log + [e]);
    OutcomesAfter(log, e);
    AdmittedAfter(log, e);
    if e.Outcome? {
      TrailAfter(r, e);
      assert r'[|r|] == e;
    }
  }

  lemma StepMatches(cfg: Tuned, c: Circuit, v: View, op: Op)
    requires Matches(cfg, c, v)
    ensures match op
            case Ask(id, now) =>
              var (c', verdict) := Before(cfg, c, now);
              Matches(cfg, c', Advance(v, if verdict == Admitted then Admit(id, now) else Refuse(id, now)))
            case Report(id, failed, now) =>
              Matches(cfg, After(cfg, c, failed, now), Advance(v, Outcome(id, failed, now)))
  {
  }

  lemma AdmitsWhatTheLogAllows(cfg: Tuned, c: Circuit, log: seq<Event>, now: Moment)
    requires Refines(cfg, c, log)
    ensures Before(cfg, c, now).1 == Admitted <==> Admissible(cfg, log, now)
  {
    TrippedByTrail(cfg, log);
  }

  /** In every run the breaker's three fields are a function of the log, and a call is let
      through exactly when the log allows it. */
  lemma {:induction false} BreakerRefinesLog(cfg: Tuned, ops: seq<Op>)
    ensures var s := Run(cfg, ops);
            s.circuit == Circuit(Failures(cfg, s.log),
                                 if Tripped(cfg, s.log) then LastOutcomeAt(s.log) else 0,
                                 Tripped(cfg, s.log) && AdmittedSinceOutcome(s.log))
    ensures var s := Run(cfg, ops); !Tripped(cfg, s.log) ==> s.circuit.failures == TrailingFailures(Outcomes(s.log))
    ensures forall now: Moment ::
              Before(cfg, Run(cfg, ops).circuit, now).1 == Admitted
              <==> Admissible(cfg, Run(cfg, ops).log, now)
    ensures Conforms(cfg, Run(cfg, ops).log)
  {
    RunRefines(cfg, ops);
    var s := Run(cfg, ops);
    TrippedByTrail(cfg, s.log);
    forall now: Moment
      ensures Before(cfg, s.circuit, now).1 == Admitted <==> Admissible(cfg, s.log, now)
    {
      AdmitsWhatTheLogAllows(cfg, s.circuit, s.log, now);
    }
  }

  lemma FailuresAfter(cfg: Tuned, c: Circuit, log: seq<Event>, id: nat, failed: bool, now: Moment)
    requires Refines(cfg, c, log) && c.failures == Failures(cfg, log)
    ensures After(cfg, c, failed, now).failures == Failures(cfg, log + [Outcome(id, failed, now)])
  {
    TrippedByTrail(cfg, log);
    assert (log + [Outcome(id, failed, now)])[..|log|] == log;
  }

  lemma StepFailures(cfg: Tuned, s: State, op: Op)
    requires Refines(cfg, s.circuit, s.log) && s.circuit.failures == Failures(cfg, s.log)
    ensures var s' := Step(cfg, s, op); s'.circuit.failures == Failures(cfg, s'.log)
  {
    if op.Report? {
      FailuresAfter(cfg, s.circuit, s.log, op.id, op.failed, op.now);
    } else {
      assert Step(cfg, s, op).log[..|s.log|] == s.log;
    }
  }

  lemma StepRefines(cfg: Tuned, s: State, op: Op)
    requires Refines(cfg, s.circuit, s.log) && Conforms(cfg, s.log)
    ensures var s' := Step(cfg, s, op); Refines(cfg, s'.circuit, s'.log) && Conforms(cfg, s'.log)
  {
    var e := Step(cfg, s, op).log[|s.log|];
    StepMatches(cfg, s.circuit, Look(s.log), op);
    LookAfter(s.log, e);
    if op.Ask? {
      AdmitsWhatTheLogAllows(cfg, s.circuit, s.log, op.now);
    }
    ConformsAfter(cfg, s.log, e);
  }

  lemma {:induction false} RunRefines(cfg: Tuned, ops: seq<Op>)
    ensures var s := Run(cfg, ops);
            Refines(cfg, s.circuit, s.log) && s.circuit.failures == Failures(cfg, s.log) && Conforms(cfg, s.log)
  {
    if ops == [] {
    } else {
      var past, op := ops[..|ops| - 1], ops[|ops| - 1];
      RunRefines(cfg, past);
      StepFailures(cfg, Run(cfg, past), op);
      StepRefines(cfg, Run(cfg, past), op);
    }
  }

  lemma ConformsAfter(cfg: Tuned, log: seq<Event>, e: Event)
    requires Conforms(cfg, log)
    requires e.Admit? ==> Admissible(cfg, log, e.at)
    requires e.Refuse? ==> !Admissible(cfg, log, e.at)
    ensures Conforms(cfg, log + [e])
  {
    var log' := log + [e];
    assert log'[..|log|] == log;
    forall i | 0 <= i < |log'|
      ensures log'[i].Admit? ==> Admissible(cfg, log'[..i], log'[i].at)
      ensures log'[i].Refuse? ==> !Admissible(cfg, log'[..i], log'[i].at)
    {
      if i < |log| {
        assert log'[..i] == log[..i] && log'[i] == log[i];
      }
    }
  }

  /** Two admissions while the circuit is tripped are separated by an outcome: at most one
      probe goes out per outcome. */
  lemma OneProbePerOutcome(cfg: Tuned, ops: seq<Op>, i: nat, j: nat)
    requires var log := Run(cfg, ops).log;
             i < j < |log| && log[i].Admit? && log[j].Admit? && Tripped(cfg, log[..j])
    ensures exists k :: i < k < j && Run(cfg, ops).log[k].Outcome?
  {
    RunRefines(cfg, ops);
    var log := Run(cfg, ops).log;
    var past := log[..j];
    assert Admissible(cfg, past, log[j].at);
    AdmittedSinceMeans(past);
    assert past[i].Admit?;
    var k :| i < k < |past| && past[k].Outcome?;
    assert log[k].Outcome?;
  }

  lemma RunThen(cfg: Tuned, ops: seq<Op>, op: Op)
    ensures Run(cfg, ops + [op]) == Step(cfg, Run(cfg, ops), op)
  {
    assert (ops + [op])[..|ops|] == ops;
  }

  /** "At most one probe at a time" is false: a straggler that was admitted while the circuit
      was closed may fail while a probe is out, and once OpenFor has passed again a second
      probe joins the first. */
  lemma TwoProbesAtOnce()
    ensures var cfg := Settings(1, 10);
            var ops := [Ask(1, 1), Ask(2, 1), Report(1, true, 2), Ask(3, 12), Report(2, true, 13), Ask(4, 23)];
            Run(cfg, ops) == State(Circuit(1, 13, true),
              [Admit(1, 1), Admit(2, 1), Outcome(1, true, 2), Admit(3, 12), Outcome(2, true, 13), Admit(4, 23)])
  {
    var cfg: Tuned := Settings(1, 10);
    var a, b, c := Ask(1, 1), Ask(2, 1), Report(1, true, 2);
    var d, e, f := Ask(3, 12), Report(2, true, 13), Ask(4, 23);
    RunThen(cfg, [], a);
    assert [] + [a] == [a];
    RunThen(cfg, [a], b);
    assert [a] + [b] == [a, b];
    RunThen(cfg, [a, b], c);
    assert [a, b] + [c] == [a, b, c];
    RunThen(cfg, [a, b, c], d);
    assert [a, b, c] + [d] == [a, b, c, d];
    RunThen(cfg, [a, b, c, d], e);
    assert [a, b, c, d] + [e] == [a, b, c, d, e];
    RunThen(cfg, [a, b, c, d, e], f);
    assert [a, b, c, d, e] + [f] == [a, b, c, d, e, f];
  }
}
