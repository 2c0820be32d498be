/** The outbound client stack of core/core.go: `ProtectedClient` around `ObservedClient`
    around `Client` (internal/outbound and the counters of internal/observability).

    The first half is the retry loop of `Client.DoJSON`.  The second half interleaves any
    number of calls at the bulkhead's channel, the breaker's mutex and the metrics' mutex. */
module Outbound {
  import opened Base
  import opened Breaker
  import opened Metrics

  // ---- Errors and classification ----

  datatype Kind =
    | BadRequest | Unauthorized | Forbidden | NotFound | Conflict | RateLimited | Unavailable | Upstream

  /** An error as the stack distinguishes them: the context's cancellation, a typed outbound
      error, or anything else (including a passed deadline). */
  datatype Error = Canceled | Typed(kind: Kind) | Other

  function NormalizeStatus(status: int): Kind {
    match status
    case 400 => BadRequest
    case 401 => Unauthorized
    case 403 => Forbidden
    case 404 => NotFound
    case 409 => Conflict
    case 429 => RateLimited
    case 502 | 503 | 504 => Unavailable
    case _ => Upstream
  }

  predicate IsCircuitFailure(err: Option<Error>) {
    match err
    case None => false
    case Some(Canceled) => false
    case Some(Typed(k)) => k == Unavailable
    case Some(Other) => true
  }

  predicate IsIdempotent(verb: string) { verb == "GET" || verb == "HEAD" || verb == "OPTIONS" }

  predicate RetryableResponse(status: int) { status == 502 || status == 503 || status == 504 }

  // ---- Client.DoJSON ----

  /** How the body of a response turned out: unreadable, over the limit, or read and (when
      there is something to decode) decoded. */
  datatype Body = Unreadable(cause: Error) | TooLarge | Read(decodes: bool)

  datatype Reply = Transport(cause: Error) | Response(status: int, body: Body)

  /** What the environment does in one iteration of the loop: whether the request can be
      built, what `HTTP.Do` yields, the context's error after a failed send, and the
      error of the backoff wait. */
  datatype Attempt = Attempt(unbuilt: Option<Error>, reply: Reply, ctx: Option<Error>, backoff: Option<Error>)

  function HandleResponse(status: int, body: Body): Option<Error> {
    match body
    case Unreadable(cause) => Some(cause)
    case TooLarge => Some(Other)
    case Read(decodes) =>
      if status < 200 || status >= 300 then Some(Typed(NormalizeStatus(status)))
      else if decodes then None
      else Some(Other)
  }

  function Attempts(verb: string, maxRetries: int): (n: nat)
    ensures 1 <= n
    ensures n > 1 ==> IsIdempotent(verb) && n == 1 + maxRetries
  {
    if IsIdempotent(verb) && maxRetries > 0 then 1 + maxRetries else 1
  }

  /** A send after which another may follow. */
  predicate Retryable(r: Reply) {
    r.Transport? || RetryableResponse(r.status)
  }

  /** The error a send leaves behind when it is the last one. */
  function Settles(r: Reply): Option<Error> {
    match r
    case Transport(cause) => Some(cause)
    case Response(status, body) => HandleResponse(status, body)
  }

  /** What may be said of a finished call without knowing the loop: how often it sent, that
      every send but the last was retryable and failed, and that it succeeds exactly when
      its last send brought a readable, decodable 2xx response. */
  predicate WellBehaved(verb: string, maxRetries: int, sent: seq<Reply>, err: Option<Error>) {
    && |sent| <= Attempts(verb, maxRetries)
    && (forall i | 0 <= i < |sent| - 1 :: Retryable(sent[i]) && Settles(sent[i]).Some?)
    && (err.None? ==> sent != [] && Settles(sent[|sent| - 1]).None?)
    && (sent != [] && Settles(sent[|sent| - 1]).None? ==> err.None?)
    && (sent != [] && err.Some? && !Retryable(sent[|sent| - 1]) ==> err == Settles(sent[|sent| - 1]))
  }

  /** Attempt i sends, fails in a way worth retrying, and nothing stops the loop after it. */
  predicate GoesOn(now: Attempt) {
    && now.unbuilt.None? && Retryable(now.reply) && Settles(now.reply).Some?
    && (now.reply.Transport? ==> now.ctx.None?) && now.backoff.None?
  }

  /** The error a call ends with whose last send was attempt n - 1. */
  function EndsWith(attempts: nat, script: nat -> Attempt, n: nat): Option<Error>
    requires n > 0
  {
    var last := script(n - 1);
    if Settles(last.reply).None? then None
    else if last.reply.Transport? && last.ctx.Some? then last.ctx
    else if n == attempts || !Retryable(last.reply) then Settles(last.reply)
    else if last.backoff.Some? then last.backoff
    else script(n).unbuilt
  }

  /** Exactly how a call follows its script: what was sent, why it went on after each send but
      the last, and what it ended with. */
  predicate Follows(verb: string, maxRetries: int, unmarshalable: bool, script: nat -> Attempt,
                    sent: seq<Reply>, err: Option<Error>) {
    if unmarshalable then sent == [] && err == Some(Other)
    else if sent == [] then script(0).unbuilt.Some? && err == script(0).unbuilt
    else
      && |sent| <= Attempts(verb, maxRetries)
      && (forall i | 0 <= i < |sent| :: sent[i] == script(i).reply && script(i).unbuilt.None?)
      && (forall i | 0 <= i < |sent| - 1 :: GoesOn(script(i)))
      && err == EndsWith(Attempts(verb, maxRetries), script, |sent|)
      && (|sent| < Attempts(verb, maxRetries) && GoesOn(script(|sent| - 1)) ==> script(|sent|).unbuilt.Some?)
  }

  /** The retry loop. */
  method SendWithRetries(verb: string, maxRetries: int, unmarshalable: bool, script: nat -> Attempt)
    returns (err: Option<Error>, sent: seq<Reply>)
    ensures Follows(verb, maxRetries, unmarshalable, script, sent, err)
    ensures WellBehaved(verb, maxRetries, sent, err)
  {
    sent := [];
    if unmarshalable {
      return Some(Other), sent;
    }
    var attempts := Attempts(verb, maxRetries);
    var lastErr: Option<Error> := None;
    var attempt := 0;
    while attempt < attempts
      invariant 0 <= attempt <= attempts && |sent| == attempt
      invariant forall i | 0 <= i < attempt :: sent[i] == script(i).reply && GoesOn(script(i))
      invariant attempt < attempts
    {
      var now := script(attempt);
      if now.unbuilt.Some? {
        return now.unbuilt, sent;
      }
      sent := sent + [now.reply];
      match now.reply {
        case Transport(cause) =>
          lastErr := Some(cause);
          if now.ctx.Some? {
            return now.ctx, sent;
          }
          if attempt + 1 >= attempts {
            return Some(cause), sent;
          }
        case Response(status, body) =>
          var handled := HandleResponse(status, body);
          if handled.None? {
            return None, sent;
          }
          lastErr := handled;
          if attempt + 1 >= attempts || !RetryableResponse(status) {
            return handled, sent;
          }
      }
      if now.backoff.Some? {
        return now.backoff, sent;
      }
      attempt := attempt + 1;
    }
    err := lastErr;
  }

  function MetricOutcome(err: Option<Error>): Tag {
    match err
    case None => OnSuccess
    case Some(Typed(RateLimited)) => OnRateLimited
    case Some(Typed(Unavailable)) => OnUnavailable
    case Some(Typed(Unauthorized)) => OnUnauthorized
    case Some(Typed(Forbidden)) => OnForbidden
    case _ => OnError
  }

  // ---- Overlapping calls ----

  /** How a call ended. */
  datatype Ending = ByBulkhead | ByCircuit | Served(verb: string, sent: seq<Reply>, err: Option<Error>)

  /** Where a call stands, between two atomic steps of `ProtectedClient.DoJSON`. */
  datatype Phase =
    | Entering(verb: string)
    | Full
    | Acquired(verb: string)
    | Refused
    | Forwarded(verb: string)
    | Returned(ending: Ending)
    | Leaving(ending: Ending)
    | Finished(ending: Ending)

  datatype Wiring = Wiring(breaker: Tuned, maxConcurrent: int, maxRetries: int)

  /** `ops` is what the breaker was asked and told, in mutex order; `probe` is the call
      whose admission last set the half-open flag. */
  datatype System = System(
    circuit: Circuit,
    slots: nat,
    calls: map<nat, Phase>,
    requests: map<Tag, nat>,
    rejected: map<Reason, nat>,
    ops: seq<Op>,
    probe: nat)

  const IDLE := System(CLOSED, 0, map[], map[], map[], [], 0)

  datatype Action =
    | Enter(id: nat, verb: string)
    | TakeSlot(id: nat)
    | CountFull(id: nat)
    | AskBreaker(id: nat, now: Moment)
    | CountRefused(id: nat)
    | Answer(id: nat, sent: seq<Reply>, err: Option<Error>)
    | ReportResult(id: nat, now: Moment)
    | LeaveSlot(id: nat)

  predicate Capped(w: Wiring) { w.maxConcurrent > 0 }

  predicate Enabled(w: Wiring, s: System, a: Action) {
    if a.Enter? then a.id !in s.calls
    else
      && a.id in s.calls
      && var p := s.calls[a.id];
         match a
         case TakeSlot(_) => p.Entering?
         case CountFull(_) => p.Full?
         case AskBreaker(_, _) => p.Acquired?
         case CountRefused(_) => p.Refused?
         case Answer(_, sent, err) => p.Forwarded? && WellBehaved(p.verb, w.maxRetries, sent, err)
         case ReportResult(_, _) => p.Returned? && p.ending.Served?
         case LeaveSlot(_) => p.Leaving?
  }

  function Move(s: System, id: nat, p: Phase): System {
    s.(calls := s.calls[id := p])
  }

  /** One atomic step; an action that is not enabled changes nothing. */
  function Next(w: Wiring, s: System, a: Action): System {
    if !Enabled(w, s, a) then s
    else
      match a
      case Enter(id, verb) => Move(s, id, Entering(verb))
      case TakeSlot(id) =>
        if !Capped(w) then Move(s, id, Acquired(s.calls[id].verb))
        else if s.slots < w.maxConcurrent then
          Move(s, id, Acquired(s.calls[id].verb)).(slots := s.slots + 1)
        else Move(s, id, Full)
      case CountFull(id) => Move(s, id, Finished(ByBulkhead)).(rejected := Bump(s.rejected, Bulkhead))
      case AskBreaker(id, now) =>
        var (c, v) := Before(w.breaker, s.circuit, now);
        var s' := s.(circuit := c, ops := s.ops + [Ask(id, now)],
                     probe := if c.halfOpen && !s.circuit.halfOpen then id else s.probe);
        Move(s', id, if v == Admitted then Forwarded(s.calls[id].verb) else Refused)
      case CountRefused(id) => Move(s, id, Leaving(ByCircuit)).(rejected := Bump(s.rejected, CircuitBreak))
      case Answer(id, sent, err) =>
        Move(s, id, Returned(Served(s.calls[id].verb, sent, err)))
          .(requests := Bump(s.requests, MetricOutcome(err)))
      case ReportResult(id, now) =>
        var failed := IsCircuitFailure(s.calls[id].ending.err);
        Move(s, id, Leaving(s.calls[id].ending))
          .(circuit := After(w.breaker, s.circuit, failed, now), ops := s.ops + [Report(id, failed, now)])
      case LeaveSlot(id) =>
        Move(s, id, Finished(s.calls[id].ending)).(slots := if Capped(w) && s.slots > 0 then s.slots - 1 else s.slots)
  }

  function Exec(w: Wiring, s: System, acts: seq<Action>): System
    decreases |acts|
  {
    if acts == [] then s else Exec(w, Next(w, s, acts[0]), acts[1..])
  }

  predicate Holds(p: Phase) { p.Acquired? || p.Refused? || p.Forwarded? || p.Returned? || p.Leaving? }

  predicate InFlight(p: Phase) { p.Forwarded? || p.Returned? }

  /** The ending a call has reached or is bound for once its counter has been written. */
  predicate Counted(p: Phase) { p.Returned? || p.Leaving? || p.Finished? }

  predicate CountedServed(p: Phase, outcome: Tag) {
    Counted(p) && p.ending.Served? && MetricOutcome(p.ending.err) == outcome
  }

  function ServedAs(outcome: Tag): Phase -> bool { p => CountedServed(p, outcome) }

  predicate CountedFull(p: Phase) { Counted(p) && p.ending == ByBulkhead }

  predicate CountedRefused(p: Phase) { Counted(p) && p.ending == ByCircuit }

  predicate Reported(p: Phase) { (p.Leaving? || p.Finished?) && p.ending.Served? }

  predicate CountedAny(p: Phase) { Counted(p) && p.ending.Served? }

  /** A call that got past the bulkhead. */
  predicate PastBulkhead(p: Phase) { !p.Entering? && !p.Full? && !CountedFull(p) }

  function Total(m: map<Tag, nat>): nat {
    Count(m, OnSuccess) + Count(m, OnRateLimited) + Count(m, OnUnavailable)
    + Count(m, OnUnauthorized) + Count(m, OnForbidden) + Count(m, OnError)
  }

  ghost predicate SlotsMatch(w: Wiring, s: System) {
    if Capped(w) then s.slots == |Where(s.calls, Holds)| && s.slots <= w.maxConcurrent else s.slots == 0
  }

  ghost predicate RequestsMatch(s: System) {
    forall o: Tag :: Count(s.requests, o) == |Where(s.calls, ServedAs(o))|
  }

  ghost predicate TotalMatches(s: System) { Total(s.requests) == |Where(s.calls, CountedAny)| }

  ghost predicate RejectionsMatch(s: System) {
    && Count(s.rejected, Bulkhead) == |Where(s.calls, CountedFull)|
    && Count(s.rejected, CircuitBreak) == |Where(s.calls, CountedRefused)|
  }

  ghost predicate LogMatches(cfg: Tuned, circuit: Circuit, ops: seq<Op>, calls: map<nat, Phase>) {
    && circuit == Run(cfg, ops).circuit
    && |Outcomes(Run(cfg, ops).log)| == |Where(calls, Reported)|
  }

  predicate ProbeIsOut(circuit: Circuit, probe: nat, calls: map<nat, Phase>) {
    circuit.halfOpen ==> circuit.openedAt != 0 && probe in calls && InFlight(calls[probe])
  }

  ghost predicate BreakerMatches(w: Wiring, s: System) {
    LogMatches(w.breaker, s.circuit, s.ops, s.calls) && ProbeIsOut(s.circuit, s.probe, s.calls)
  }

  /** How many results a call gave the breaker. */
  function ReportsOf(ops: seq<Op>, id: nat): nat {
    if ops == [] then 0
    else
      var past, op := ops[..|ops| - 1], ops[|ops| - 1];
      ReportsOf(past, id) + if op.Report? && op.id == id then 1 else 0
  }

  ghost predicate ReportsMatch(ops: seq<Op>, calls: map<nat, Phase>) {
    forall id :: ReportsOf(ops, id) == if id in calls && Reported(calls[id]) then 1 else 0
  }

  ghost predicate OnlyPastBulkhead(s: System) {
    forall i | 0 <= i < |s.ops| :: s.ops[i].id in s.calls && PastBulkhead(s.calls[s.ops[i].id])
  }

  ghost predicate CallsBehave(w: Wiring, s: System) {
    && (forall id | id in s.calls && Counted(s.calls[id]) && s.calls[id].ending.Served? ::
          var e := s.calls[id].ending; WellBehaved(e.verb, w.maxRetries, e.sent, e.err))
    && (forall id | id in s.calls && s.calls[id].Returned? :: s.calls[id].ending.Served?)
    && (forall id | id in s.calls && s.calls[id].Leaving? :: !s.calls[id].ending.ByBulkhead?)
  }

  ghost predicate Inv(w: Wiring, s: System) {
    SlotsMatch(w, s) && RequestsMatch(s) && TotalMatches(s) && RejectionsMatch(s) && BreakerMatches(w, s)
    && OnlyPastBulkhead(s) && CallsBehave(w, s) && ReportsMatch(s.ops, s.calls)
  }

  lemma SlotsStep(w: Wiring, s: System, a: Action)
    requires SlotsMatch(w, s)
    ensures SlotsMatch(w, Next(w, s, a))
  {
    if Enabled(w, s, a) {
      WhereAfterMove(s.calls, a.id, Next(w, s, a).calls[a.id], Holds);
      if a.LeaveSlot? {
        assert a.id in Where(s.calls, Holds);
      }
    }
  }

  /** What a step does to the count of one outcome. */
  lemma RequestsStepAt(w: Wiring, s: System, a: Action, o: Tag)
    requires CallsBehave(w, s) && Enabled(w, s, a) && Count(s.requests, o) == |Where(s.calls, ServedAs(o))|
    ensures var s' := Next(w, s, a); Count(s'.requests, o) == |Where(s'.calls, ServedAs(o))|
  {
    WhereAfterMove(s.calls, a.id, Next(w, s, a).calls[a.id], ServedAs(o));
  }

  lemma RequestsStep(w: Wiring, s: System, a: Action)
    requires RequestsMatch(s) && CallsBehave(w, s)
    ensures RequestsMatch(Next(w, s, a))
  {
    if Enabled(w, s, a) {
      var s' := Next(w, s, a);
      forall o: Tag ensures Count(s'.requests, o) == |Where(s'.calls, ServedAs(o))| {
        RequestsStepAt(w, s, a, o);
      }
    }
  }

  lemma TotalStep(w: Wiring, s: System, a: Action)
    requires TotalMatches(s) && CallsBehave(w, s)
    ensures TotalMatches(Next(w, s, a))
  {
    if Enabled(w, s, a) {
      WhereAfterMove(s.calls, a.id, Next(w, s, a).calls[a.id], CountedAny);
      if a.Answer? {
        TotalAfterBump(s.requests, MetricOutcome(a.err));
      }
    }
  }

  lemma TotalAfterBump(m: map<Tag, nat>, o: Tag)
    ensures Total(Bump(m, o)) == Total(m) + 1
  {
  }

  lemma RejectionsStep(w: Wiring, s: System, a: Action)
    requires RejectionsMatch(s) && CallsBehave(w, s)
    ensures RejectionsMatch(Next(w, s, a))
  {
    if Enabled(w, s, a) {
      WhereAfterMove(s.calls, a.id, Next(w, s, a).calls[a.id], CountedFull);
      WhereAfterMove(s.calls, a.id, Next(w, s, a).calls[a.id], CountedRefused);
    }
  }

  lemma OutcomesOfRun(cfg: Tuned, ops: seq<Op>, op: Op)
    ensures Run(cfg, ops + [op]).circuit == Step(cfg, Run(cfg, ops), op).circuit
    ensures |Outcomes(Run(cfg, ops + [op]).log)|
            == |Outcomes(Run(cfg, ops).log)| + if op.Report? then 1 else 0
  {
    RunThen(cfg, ops, op);
    var log := Run(cfg, ops).log;
    OutcomesAfter(log, Step(cfg, Run(cfg, ops), op).log[|log|]);
  }

  lemma LogAfter(cfg: Tuned, circuit: Circuit, ops: seq<Op>, calls: map<nat, Phase>, op: Op, id: nat, p: Phase)
    requires LogMatches(cfg, circuit, ops, calls)
    requires id in calls && !Reported(calls[id]) && (Reported(p) <==> op.Report?)
    ensures LogMatches(cfg, Step(cfg, Run(cfg, ops), op).circuit, ops + [op], calls[id := p])
  {
    WhereAfterMove(calls, id, p, Reported);
    OutcomesOfRun(cfg, ops, op);
  }

  lemma LogUntouched(cfg: Tuned, circuit: Circuit, ops: seq<Op>, calls: map<nat, Phase>, id: nat, p: Phase)
    requires LogMatches(cfg, circuit, ops, calls) && Reported(p) == (id in calls && Reported(calls[id]))
    ensures LogMatches(cfg, circuit, ops, calls[id := p])
  {
    WhereAfterMove(calls, id, p, Reported);
  }

  lemma AskStep(w: Wiring, s: System, a: Action, s': System)
    requires BreakerMatches(w, s) && Enabled(w, s, a) && a.AskBreaker? && s' == Next(w, s, a)
    ensures BreakerMatches(w, s')
  {
    LogAfter(w.breaker, s.circuit, s.ops, s.calls, Ask(a.id, a.now), a.id, s'.calls[a.id]);
  }

  lemma ReportStep(w: Wiring, s: System, a: Action, s': System)
    requires BreakerMatches(w, s) && Enabled(w, s, a) && a.ReportResult? && s' == Next(w, s, a)
    ensures BreakerMatches(w, s')
  {
    LogAfter(w.breaker, s.circuit, s.ops, s.calls, s'.ops[|s.ops|], a.id, s'.calls[a.id]);
  }

  /** The other steps leave the breaker alone, and a call in flight stays in flight. */
  lemma OtherMoves(w: Wiring, s: System, a: Action, s': System)
    requires Enabled(w, s, a) && s' == Next(w, s, a) && !a.AskBreaker? && !a.ReportResult?
    ensures s'.circuit == s.circuit && s'.ops == s.ops && s'.probe == s.probe
    ensures a.id in s'.calls && s'.calls == s.calls[a.id := s'.calls[a.id]]
    ensures Reported(s'.calls[a.id]) == (a.id in s.calls && Reported(s.calls[a.id]))
    ensures a.id in s.calls && InFlight(s.calls[a.id]) ==> InFlight(s'.calls[a.id])
  {
  }

  lemma OtherStep(w: Wiring, s: System, a: Action, s': System)
    requires BreakerMatches(w, s) && Enabled(w, s, a) && s' == Next(w, s, a) && !a.AskBreaker? && !a.ReportResult?
    ensures BreakerMatches(w, s')
  {
    OtherMoves(w, s, a, s');
    LogUntouched(w.breaker, s.circuit, s.ops, s.calls, a.id, s'.calls[a.id]);
  }

  lemma BreakerStep(w: Wiring, s: System, a: Action)
    requires BreakerMatches(w, s)
    ensures BreakerMatches(w, Next(w, s, a))
  {
    if Enabled(w, s, a) {
      var s' := Next(w, s, a);
      if a.AskBreaker? {
        AskStep(w, s, a, s');
      } else if a.ReportResult? {
        ReportStep(w, s, a, s');
      } else {
        OtherStep(w, s, a, s');
      }
    }
  }

  lemma ReportsAfter(ops: seq<Op>, op: Op, calls: map<nat, Phase>, p: Phase)
    requires ReportsMatch(ops, calls) && op.id in calls && !Reported(calls[op.id]) && (Reported(p) <==> op.Report?)
    ensures ReportsMatch(ops + [op], calls[op.id := p])
  {
    assert (ops + [op])[..|ops|] == ops;
  }

  lemma ReportsUntouched(ops: seq<Op>, calls: map<nat, Phase>, id: nat, p: Phase)
    requires ReportsMatch(ops, calls) && Reported(p) == (id in calls && Reported(calls[id]))
    ensures ReportsMatch(ops, calls[id := p])
  {
  }

  lemma ReportsStep(w: Wiring, s: System, a: Action)
    requires ReportsMatch(s.ops, s.calls)
    ensures var s' := Next(w, s, a); ReportsMatch(s'.ops, s'.calls)
  {
    if Enabled(w, s, a) {
      var s' := Next(w, s, a);
      if a.AskBreaker? || a.ReportResult? {
        ReportsAfter(s.ops, s'.ops[|s.ops|], s.calls, s'.calls[a.id]);
      } else {
        OtherMoves(w, s, a, s');
        ReportsUntouched(s.ops, s.calls, a.id, s'.calls[a.id]);
      }
    }
  }

  lemma PastStep(w: Wiring, s: System, a: Action)
    requires OnlyPastBulkhead(s) && CallsBehave(w, s)
    ensures OnlyPastBulkhead(Next(w, s, a))
  {
    if Enabled(w, s, a) {
      var s' := Next(w, s, a);
      forall i | 0 <= i < |s'.ops|
        ensures s'.ops[i].id in s'.calls && PastBulkhead(s'.calls[s'.ops[i].id])
      {
        if i < |s.ops| {
          assert s'.ops[i] == s.ops[i];
        }
      }
    }
  }

  lemma CallsStep(w: Wiring, s: System, a: Action)
    requires CallsBehave(w, s)
    ensures CallsBehave(w, Next(w, s, a))
  {
  }

  lemma {:induction false} ExecInv(w: Wiring, s: System, acts: seq<Action>)
    requires Inv(w, s)
    ensures Inv(w, Exec(w, s, acts))
    decreases |acts|
  {
    if acts == [] {
    } else {
      var a := acts[0];
      SlotsStep(w, s, a);
      RequestsStep(w, s, a);
      TotalStep(w, s, a);
      RejectionsStep(w, s, a);
      BreakerStep(w, s, a);
      PastStep(w, s, a);
      CallsStep(w, s, a);
      ReportsStep(w, s, a);
      ExecInv(w, Next(w, s, a), acts[1..]);
    }
  }

  lemma InitInv(w: Wiring)
    ensures Inv(w, IDLE)
  {
    assert Where(IDLE.calls, Holds) == {};
    assert Where(IDLE.calls, Reported) == {};
    assert forall o: Tag :: Where(IDLE.calls, ServedAs(o)) == {};
    assert Where(IDLE.calls, CountedAny) == {};
    assert Where(IDLE.calls, CountedFull) == {};
    assert Where(IDLE.calls, CountedRefused) == {};
  }

  // ---- What every run keeps ----

  /** In every interleaving the bulkhead's slots are the calls between acquire and release
      and never exceed the limit, and what the bulkhead rejects never reaches the breaker. */
  lemma BulkheadHolds(w: Wiring, acts: seq<Action>)
    ensures var s := Exec(w, IDLE, acts);
            && (0 < w.maxConcurrent ==> s.slots == |Where(s.calls, Holds)| <= w.maxConcurrent)
            && OnlyPastBulkhead(s)
  {
    InitInv(w);
    ExecInv(w, IDLE, acts);
  }

  /** A call is turned away exactly when a limit is set and that many calls are between acquire and
      release. */
  lemma FullIff(w: Wiring, acts: seq<Action>, id: nat)
    requires var s := Exec(w, IDLE, acts); id in s.calls && s.calls[id].Entering?
    ensures var s := Exec(w, IDLE, acts);
            var s' := Next(w, s, TakeSlot(id));
            && (s'.calls[id].Full? <==> 0 < w.maxConcurrent <= |Where(s.calls, Holds)|)
            && (s'.calls[id].Full? || s'.calls[id] == Acquired(s.calls[id].verb))
  {
    BulkheadHolds(w, acts);
  }

  /** Each counter is the number of calls that ended that way, a finished call is among them,
      and a served call gave the breaker one result, however often it sent; any other call gave
      none. */
  lemma CallAccounting(w: Wiring, acts: seq<Action>)
    ensures var s := Exec(w, IDLE, acts);
            && (forall o: Tag :: Count(s.requests, o) == |Where(s.calls, ServedAs(o))|)
            && Count(s.rejected, Bulkhead) == |Where(s.calls, CountedFull)|
            && Count(s.rejected, CircuitBreak) == |Where(s.calls, CountedRefused)|
            && Total(s.requests) + Count(s.rejected, Bulkhead) + Count(s.rejected, CircuitBreak)
               == |Where(s.calls, Counted)|
            && (forall id | id in s.calls && s.calls[id].Finished? :: id in Where(s.calls, Counted))
            && (forall id :: ReportsOf(s.ops, id) == if id in s.calls && Reported(s.calls[id]) then 1 else 0)
            && |Outcomes(Run(w.breaker, s.ops).log)| == |Where(s.calls, Reported)|
            && CallsBehave(w, s)
  {
    InitInv(w);
    ExecInv(w, IDLE, acts);
    var s := Exec(w, IDLE, acts);
    CountedSplits(s.calls);
  }

  predicate CountedRejected(p: Phase) { CountedFull(p) || CountedRefused(p) }

  lemma CountedSplits(calls: map<nat, Phase>)
    ensures |Where(calls, Counted)|
            == |Where(calls, CountedAny)| + |Where(calls, CountedFull)| + |Where(calls, CountedRefused)|
  {
    WhereSplits(calls, CountedFull, CountedRefused, CountedRejected);
    WhereSplits(calls, CountedAny, CountedRejected, Counted);
  }

  /** The half-open flag is never left behind: while it is set the probe that set it is in
      flight, and whatever answer the probe gets, its report clears the flag, as does any other
      report before it. */
  lemma BreakerNeverWedges(w: Wiring, acts: seq<Action>)
    requires Exec(w, IDLE, acts).circuit.halfOpen
    ensures var s := Exec(w, IDLE, acts);
            && s.probe in s.calls && InFlight(s.calls[s.probe])
            && (forall id, now | Enabled(w, s, ReportResult(id, now)) ::
                  !Next(w, s, ReportResult(id, now)).circuit.halfOpen)
            && (s.calls[s.probe].Returned? ==> forall now :: Enabled(w, s, ReportResult(s.probe, now)))
            && (s.calls[s.probe].Forwarded? ==>
                  forall sent, err, now | Enabled(w, s, Answer(s.probe, sent, err)) ::
                    var s1 := Next(w, s, Answer(s.probe, sent, err));
                    && Enabled(w, s1, ReportResult(s.probe, now))
                    && !Next(w, s1, ReportResult(s.probe, now)).circuit.halfOpen)
            && (s.calls[s.probe].Forwarded? ==> Enabled(w, s, Answer(s.probe, [], Some(Other))))
  {
    InitInv(w);
    ExecInv(w, IDLE, acts);
    var s := Exec(w, IDLE, acts);
    forall id, now | Enabled(w, s, ReportResult(id, now))
      ensures !Next(w, s, ReportResult(id, now)).circuit.halfOpen
    {
      ReportClears(w, s, id, now);
    }
    if s.calls[s.probe].Forwarded? {
      forall sent, err, now | Enabled(w, s, Answer(s.probe, sent, err))
        ensures var s1 := Next(w, s, Answer(s.probe, sent, err));
                Enabled(w, s1, ReportResult(s.probe, now)) && !Next(w, s1, ReportResult(s.probe, now)).circuit.halfOpen
      {
        ReportClears(w, Next(w, s, Answer(s.probe, sent, err)), s.probe, now);
      }
    }
  }

  lemma ReportClears(w: Wiring, s: System, id: nat, now: Moment)
    requires Enabled(w, s, ReportResult(id, now))
    ensures !Next(w, s, ReportResult(id, now)).circuit.halfOpen
  {
  }

  lemma ExecOne(w: Wiring, s: System, a: Action)
    ensures Exec(w, s, [a]) == Next(w, s, a)
  {
    assert [a][1..] == [];
  }

  lemma ExecTwo(w: Wiring, s: System, a: Action, b: Action)
    ensures Exec(w, s, [a, b]) == Next(w, Next(w, s, a), b)
  {
    assert [a, b][1..] == [b];
    ExecOne(w, Next(w, s, a), b);
  }

  // ---- When a probe is alone ----

  predicate Silent(acts: seq<Action>, id: nat) {
    forall i | 0 <= i < |acts| :: !(acts[i].ReportResult? && acts[i].id == id)
  }

  /** Steps that read the clock, under the breaker's mutex. */
  predicate Reads(a: Action) { a.AskBreaker? || a.ReportResult? }

  /** The clock shows at least `t` and does not go back. */
  predicate Forward(acts: seq<Action>, t: Moment) {
    && (forall i | 0 <= i < |acts| && Reads(acts[i]) :: t <= acts[i].now)
    && (forall i, j | 0 <= i < j < |acts| && Reads(acts[i]) && Reads(acts[j]) :: acts[i].now <= acts[j].now)
  }

  /** Calls in flight besides the probe. */
  function Stragglers(s: System): set<nat> {
    Where(s.calls, InFlight) - {s.probe}
  }

  lemma {:induction false} AloneStaysAlone(w: Wiring, s: System, acts: seq<Action>)
    requires s.circuit.halfOpen && s.circuit.openedAt != 0 && Stragglers(s) == {}
    requires Silent(acts, s.probe)
    ensures Where(Exec(w, s, acts).calls, InFlight) <= {s.probe}
    decreases |acts|
  {
    if acts == [] {
      assert Where(s.calls, InFlight) <= {s.probe};
    } else {
      var s' := Next(w, s, acts[0]);
      assert acts[0].ReportResult? ==> acts[0].id != s.probe && acts[0].id !in Stragglers(s);
      assert s'.circuit == s.circuit && s'.probe == s.probe;
      assert Where(s'.calls, InFlight) <= Where(s.calls, InFlight);
      AloneStaysAlone(w, s', acts[1..]);
    }
  }

  /** A straggler fails and reports, whatever it was doing. */
  lemma StragglerReports(w: Wiring, s: System, x: nat, t: Moment, s2: System)
    requires CallsBehave(w, s) && s.circuit.halfOpen && x in s.calls && InFlight(s.calls[x])
    requires s2 == Next(w, Next(w, s, Answer(x, [], Some(Other))), ReportResult(x, t))
    ensures s2.calls.Keys == s.calls.Keys && s2.calls[x].Leaving?
    ensures s2.circuit == CLOSED || s2.circuit == Circuit(w.breaker.threshold, t, false)
  {
  }

  lemma SlotsKeep(w: Wiring, s: System, a: Action, b: Action)
    requires SlotsMatch(w, s)
    ensures SlotsMatch(w, Next(w, Next(w, s, a), b))
  {
    SlotsStep(w, s, a);
    SlotsStep(w, Next(w, s, a), b);
  }

  lemma LeavingFrees(w: Wiring, s: System, x: nat)
    requires SlotsMatch(w, s) && x in s.calls && s.calls[x].Leaving?
    ensures var s' := Next(w, s, LeaveSlot(x));
            s'.calls.Keys == s.calls.Keys && s'.circuit == s.circuit && (Capped(w) ==> s'.slots < w.maxConcurrent)
  {
    assert x in Where(s.calls, Holds);
  }

  /** Every reading of the clock among these steps is t. */
  predicate ReadsOnly(acts: seq<Action>, t: Moment) { forall i | 0 <= i < |acts| && Reads(acts[i]) :: acts[i].now == t }

  lemma StragglerLeaves(w: Wiring, s: System, x: nat, t: Moment) returns (acts: seq<Action>)
    requires SlotsMatch(w, s) && CallsBehave(w, s) && s.circuit.halfOpen && x in Stragglers(s)
    ensures Silent(acts, s.probe) && ReadsOnly(acts, t)
    ensures var s' := Exec(w, s, acts);
            && s'.calls.Keys == s.calls.Keys
            && (Capped(w) ==> s'.slots < w.maxConcurrent)
            && (s'.circuit == CLOSED || s'.circuit == Circuit(w.breaker.threshold, t, false))
  {
    var answer, report, leave := Answer(x, [], Some(Other)), ReportResult(x, t), LeaveSlot(x);
    acts := [answer, report] + [leave];
    ExecTwo(w, s, answer, report);
    var s2 := Exec(w, s, [answer, report]);
    StragglerReports(w, s, x, t, s2);
    SlotsKeep(w, s, answer, report);
    LeavingFrees(w, s2, x);
    ExecAppend(w, s, [answer, report], [leave]);
    ExecOne(w, s2, leave);
  }

  lemma TakesSlot(w: Wiring, s: System, y: nat)
    requires y !in s.calls && (Capped(w) ==> s.slots < w.maxConcurrent)
    ensures var s2 := Next(w, Next(w, s, Enter(y, "")), TakeSlot(y));
            y in s2.calls && s2.calls[y].Acquired? && s2.circuit == s.circuit
  {
  }

  /** A new call walks through a closed breaker, or through an open one as its probe. */
  lemma NewcomerEnters(w: Wiring, s: System, y: nat, t: Moment) returns (acts: seq<Action>)
    requires y !in s.calls && (Capped(w) ==> s.slots < w.maxConcurrent)
    requires s.circuit == CLOSED || s.circuit == Circuit(w.breaker.threshold, t, false)
    ensures ReadsOnly(acts, t + w.breaker.openFor) && forall i | 0 <= i < |acts| :: !acts[i].ReportResult?
    ensures y in Where(Exec(w, s, acts).calls, InFlight)
  {
    var enter, take, ask := Enter(y, ""), TakeSlot(y), AskBreaker(y, t + w.breaker.openFor);
    acts := [enter, take] + [ask];
    ExecTwo(w, s, enter, take);
    ExecAppend(w, s, [enter, take], [ask]);
    TakesSlot(w, s, y);
    ExecOne(w, Next(w, Next(w, s, enter), take), ask);
  }

  lemma OneThenOther(first: seq<Action>, second: seq<Action>, t: Moment, t': Moment)
    requires ReadsOnly(first, t) && ReadsOnly(second, t') && t <= t'
    ensures Forward(first + second, t)
  {
  }

  lemma StragglerLetsOneIn(w: Wiring, s: System, x: nat, t: Moment) returns (acts: seq<Action>, y: nat)
    requires SlotsMatch(w, s) && CallsBehave(w, s) && s.circuit.halfOpen && x in Stragglers(s)
    ensures Silent(acts, s.probe) && Forward(acts, t)
    ensures y !in s.calls && y in Where(Exec(w, s, acts).calls, InFlight)
  {
    y := Above(s.calls.Keys);
    var first := StragglerLeaves(w, s, x, t);
    var second := NewcomerEnters(w, Exec(w, s, first), y, t);
    acts := first + second;
    ExecAppend(w, s, first, second);
    OneThenOther(first, second, t, t + w.breaker.openFor);
  }

  lemma {:induction false} ExecAppend(w: Wiring, s: System, a: seq<Action>, b: seq<Action>)
    ensures Exec(w, s, a + b) == Exec(w, Exec(w, s, a), b)
    decreases |a|
  {
    if a == [] {
      assert a + b == b;
    } else {
      assert (a + b)[1..] == a[1..] + b;
      ExecAppend(w, Next(w, s, a[0]), a[1..], b);
    }
  }

  /** Every continuation from time t on, up to the probe's report, leaves the probe the only call
      in flight. */
  ghost predicate ProbeStaysAlone(w: Wiring, s: System, t: Moment) {
    forall acts | Silent(acts, s.probe) && Forward(acts, t) :: Where(Exec(w, s, acts).calls, InFlight) <= {s.probe}
  }

  lemma AloneIff(w: Wiring, s: System, t: Moment)
    requires Inv(w, s) && s.circuit.halfOpen
    ensures ProbeStaysAlone(w, s, t) <==> Stragglers(s) == {}
  {
    if Stragglers(s) == {} {
      forall acts | Silent(acts, s.probe) && Forward(acts, t)
        ensures Where(Exec(w, s, acts).calls, InFlight) <= {s.probe}
      {
        AloneStaysAlone(w, s, acts);
      }
    } else {
      var x :| x in Stragglers(s);
      var acts, y := StragglerLetsOneIn(w, s, x, t);
      assert y != s.probe && !(Where(Exec(w, s, acts).calls, InFlight) <= {s.probe});
    }
  }

  /** The breaker does not promise that a probe is alone.  From a state of any run in which a
      probe is out, and any time t: every continuation before the probe's report whose clock
      starts at t and does not go back keeps it the only call in flight if and only if no
      straggler is in flight now. */
  lemma ProbeAloneIffNoStraggler(w: Wiring, run: seq<Action>, t: Moment)
    requires Exec(w, IDLE, run).circuit.halfOpen
    ensures var s := Exec(w, IDLE, run); ProbeStaysAlone(w, s, t) <==> Stragglers(s) == {}
  {
    InitInv(w);
    ExecInv(w, IDLE, run);
    AloneIff(w, Exec(w, IDLE, run), t);
  }

  // ---- One call on the mutable client ----

  /** `ProtectedClient` with the metrics and the client it wraps. */
  class ProtectedClient {
    const w: Wiring
    const breaker: CircuitBreaker
    const metrics: Registry
    var slots: nat

    ghost predicate Valid()
      reads this
    {
      breaker.cfg == w.breaker && (Capped(w) ==> slots <= w.maxConcurrent)
    }

    /** The client as a state of the step relation, with no call under way. */
    ghost function Snapshot(): System
      reads this, breaker, metrics
    {
      System(breaker.Value(), slots, map[], metrics.outRequests, metrics.outRejected, [], 0)
    }

    constructor (raw: Settings, maxConcurrent: int, maxRetries: int)
      ensures Valid() && Snapshot() == IDLE && fresh(breaker) && fresh(metrics)
      ensures w == Wiring(Tune(raw), maxConcurrent, maxRetries)
    {
      var b := new CircuitBreaker(raw);
      w := Wiring(b.cfg, maxConcurrent, maxRetries);
      breaker := b;
      metrics := new Registry();
      slots := 0;
    }

    /** `isCircuitFailure`. */
    method IsFailure(err: Option<Error>) returns (failed: bool)
      ensures failed <==> IsCircuitFailure(err)
    {
      if err.None? || err.value == Canceled {
        return false;
      }
      if err.value == Typed(Unavailable) {
        return true;
      }
      return !err.value.Typed?;
    }

    /** `outboundMetricOutcome`. */
    method Label(err: Option<Error>) returns (tag: Tag)
      ensures tag == MetricOutcome(err)
    {
      if err.None? {
        return OnSuccess;
      }
      if err.value == Typed(RateLimited) {
        return OnRateLimited;
      }
      if err.value == Typed(Unavailable) {
        return OnUnavailable;
      }
      if err.value == Typed(Unauthorized) {
        return OnUnauthorized;
      }
      if err.value == Typed(Forbidden) {
        return OnForbidden;
      }
      return OnError;
    }

    /** The part of a call between the breaker's admission and its result. */
    method Forwarded(verb: string, unmarshalable: bool, script: nat -> Attempt, told: Moment)
      returns (err: Option<Error>, sent: seq<Reply>)
      modifies breaker, metrics`outRequests
      ensures Follows(verb, w.maxRetries, unmarshalable, script, sent, err)
      ensures WellBehaved(verb, w.maxRetries, sent, err)
      ensures breaker.Value() == After(breaker.cfg, old(breaker.Value()), IsCircuitFailure(err), told)
      ensures metrics.outRequests == Bump(old(metrics.outRequests), MetricOutcome(err))
    {
      err, sent := SendWithRetries(verb, w.maxRetries, unmarshalable, script);
      var tag := Label(err);
      metrics.RecordOutbound(tag);
      var failed := IsFailure(err);
      breaker.AfterResult(failed, told);
    }

    /** A call that nothing overlaps ends where the step relation takes it by steps of this
        call alone. */
    method DoJSON(id: nat, verb: string, unmarshalable: bool, script: nat -> Attempt, asked: Moment, told: Moment)
      returns (err: Option<Error>, ghost sent: seq<Reply>, ghost e: Option<Error>, ghost end: System)
      requires Valid()
      modifies this, breaker, metrics
      ensures Valid()
      ensures WellBehaved(verb, w.maxRetries, sent, e)
      ensures end == Alone(w, old(Snapshot()), id, verb, asked, sent, e, told)
      ensures Snapshot() == end.(calls := map[], ops := [], probe := 0)
      ensures id in end.calls && end.calls[id].Finished? && err == ErrorOf(end.calls[id].ending)
      ensures var ending := end.calls[id].ending;
              ending.Served? ==> Follows(verb, w.maxRetries, unmarshalable, script, ending.sent, ending.err)
    {
      ghost var s := Snapshot();
      if w.maxConcurrent > 0 {
        if slots >= w.maxConcurrent {
          metrics.RecordOutboundRejected(Bulkhead);
          AloneFull(w, s, id, verb, asked, [], Some(Other), told);
          return Some(Typed(Unavailable)), [], Some(Other), Alone(w, s, id, verb, asked, [], Some(Other), told);
        }
        slots := slots + 1;
      }
      var verdict := breaker.BeforeRequest(asked);
      if verdict != Admitted {
        metrics.RecordOutboundRejected(CircuitBreak);
        err := Some(Typed(Unavailable));
        sent, e := [], Some(Other);
        AloneRefused(w, s, id, verb, asked, sent, e, told);
      } else {
        var replies;
        err, replies := Forwarded(verb, unmarshalable, script, told);
        sent, e := replies, err;
        AloneServed(w, s, id, verb, asked, sent, e, told);
      }
      end := Alone(w, s, id, verb, asked, sent, e, told);
      if w.maxConcurrent > 0 {
        slots := slots - 1;
      }
    }
  }

  ghost predicate Quiet(w: Wiring, s: System) {
    s.calls == map[] && s.ops == [] && (Capped(w) ==> s.slots <= w.maxConcurrent)
  }

  predicate Fits(w: Wiring, s: System) { Capped(w) ==> s.slots < w.maxConcurrent }

  lemma AloneFull(w: Wiring, s: System, id: nat, verb: string, asked: Moment,
                  sent: seq<Reply>, err: Option<Error>, told: Moment)
    requires Quiet(w, s) && !Fits(w, s)
    ensures Alone(w, s, id, verb, asked, sent, err, told)
            == s.(calls := map[id := Finished(ByBulkhead)], rejected := Bump(s.rejected, Bulkhead))
  {
  }

  /** The first two steps of a lone call that finds room. */
  lemma AloneInside(w: Wiring, s: System, id: nat, verb: string)
    requires Quiet(w, s) && Fits(w, s)
    ensures Next(w, Next(w, s, Enter(id, verb)), TakeSlot(id))
            == s.(calls := map[id := Acquired(verb)], slots := if Capped(w) then s.slots + 1 else s.slots)
  {
  }

  /** The last step of a lone call. */
  lemma AloneLeaves(w: Wiring, s: System, id: nat, ending: Ending)
    requires s.calls == map[id := Leaving(ending)] && (Capped(w) ==> s.slots > 0)
    ensures Next(w, s, LeaveSlot(id))
            == s.(calls := map[id := Finished(ending)], slots := if Capped(w) then s.slots - 1 else s.slots)
  {
  }

  /** A refusal by the breaker is counted. */
  lemma AloneTurnedAway(w: Wiring, s: System, id: nat, verb: string, asked: Moment)
    requires s.calls == map[id := Acquired(verb)] && s.ops == [] && Before(w.breaker, s.circuit, asked).1 != Admitted
    ensures Next(w, s, AskBreaker(id, asked)) == s.(calls := map[id := Refused], ops := [Ask(id, asked)])
  {
    assert s.calls[id := Refused] == map[id := Refused];
  }

  lemma AloneCounted(w: Wiring, s: System, id: nat)
    requires s.calls == map[id := Refused]
    ensures Next(w, s, CountRefused(id))
            == s.(calls := map[id := Leaving(ByCircuit)], rejected := Bump(s.rejected, CircuitBreak))
  {
    assert s.calls[id := Leaving(ByCircuit)] == map[id := Leaving(ByCircuit)];
  }

  lemma AloneRefused(w: Wiring, s: System, id: nat, verb: string, asked: Moment,
                     sent: seq<Reply>, err: Option<Error>, told: Moment)
    requires Quiet(w, s) && Fits(w, s) && Before(w.breaker, s.circuit, asked).1 != Admitted
    ensures Alone(w, s, id, verb, asked, sent, err, told)
            == s.(calls := map[id := Finished(ByCircuit)], rejected := Bump(s.rejected, CircuitBreak),
                  ops := [Ask(id, asked)])
  {
    AloneInside(w, s, id, verb);
    var s2 := s.(calls := map[id := Acquired(verb)], slots := if Capped(w) then s.slots + 1 else s.slots);
    AloneTurnedAway(w, s2, id, verb, asked);
    var s3 := s2.(calls := map[id := Refused], ops := [Ask(id, asked)]);
    AloneCounted(w, s3, id);
    var s4 := s3.(calls := map[id := Leaving(ByCircuit)], rejected := Bump(s.rejected, CircuitBreak));
    AloneLeaves(w, s4, id, ByCircuit);
  }

  lemma AloneServed(w: Wiring, s: System, id: nat, verb: string, asked: Moment,
                    sent: seq<Reply>, err: Option<Error>, told: Moment)
    requires Quiet(w, s) && Fits(w, s) && Before(w.breaker, s.circuit, asked).1 == Admitted
    requires WellBehaved(verb, w.maxRetries, sent, err)
    ensures var end := Alone(w, s, id, verb, asked, sent, err, told);
            var c := Before(w.breaker, s.circuit, asked).0;
            && end.calls == map[id := Finished(Served(verb, sent, err))]
            && end.circuit == After(w.breaker, c, IsCircuitFailure(err), told)
            && end.requests == Bump(s.requests, MetricOutcome(err))
            && end.slots == s.slots && end.rejected == s.rejected
  {
    AloneInside(w, s, id, verb);
    var s2 := s.(calls := map[id := Acquired(verb)], slots := if Capped(w) then s.slots + 1 else s.slots);
    AloneAdmitted(w, s2, id, verb, asked);
    AloneTail(w, Next(w, s2, AskBreaker(id, asked)), id, verb, sent, err, told);
  }

  lemma AloneAdmitted(w: Wiring, s: System, id: nat, verb: string, asked: Moment)
    requires s.calls == map[id := Acquired(verb)] && Before(w.breaker, s.circuit, asked).1 == Admitted
    ensures var s' := Next(w, s, AskBreaker(id, asked));
            && s'.calls == map[id := Forwarded(verb)] && s'.circuit == Before(w.breaker, s.circuit, asked).0
            && s'.slots == s.slots && s'.requests == s.requests && s'.rejected == s.rejected
  {
  }

  lemma AloneTail(w: Wiring, s: System, id: nat, verb: string, sent: seq<Reply>, err: Option<Error>, told: Moment)
    requires s.calls == map[id := Forwarded(verb)] && WellBehaved(verb, w.maxRetries, sent, err)
    requires Capped(w) ==> s.slots > 0
    ensures var end := Next(w, Next(w, Next(w, s, Answer(id, sent, err)), ReportResult(id, told)), LeaveSlot(id));
            && end.calls == map[id := Finished(Served(verb, sent, err))]
            && end.circuit == After(w.breaker, s.circuit, IsCircuitFailure(err), told)
            && end.requests == Bump(s.requests, MetricOutcome(err))
            && end.slots == (if Capped(w) then s.slots - 1 else s.slots) && end.rejected == s.rejected
  {
    AloneReturns(w, s, id, verb, sent, err, told);
    AloneLeaves(w, Next(w, Next(w, s, Answer(id, sent, err)), ReportResult(id, told)), id, Served(verb, sent, err));
  }

  /** The reply of the wrapped client is counted and then reported to the breaker. */
  lemma AloneReturns(w: Wiring, s: System, id: nat, verb: string, sent: seq<Reply>, err: Option<Error>, told: Moment)
    requires s.calls == map[id := Forwarded(verb)] && WellBehaved(verb, w.maxRetries, sent, err)
    ensures var failed := IsCircuitFailure(err);
            Next(w, Next(w, s, Answer(id, sent, err)), ReportResult(id, told))
            == s.(calls := map[id := Leaving(Served(verb, sent, err))],
                  requests := Bump(s.requests, MetricOutcome(err)),
                  circuit := After(w.breaker, s.circuit, failed, told),
                  ops := s.ops + [Report(id, failed, told)])
  {
    var s4 := s.(calls := map[id := Returned(Served(verb, sent, err))],
                 requests := Bump(s.requests, MetricOutcome(err)));
    assert s4 == Next(w, s, Answer(id, sent, err));
  }

  function ErrorOf(e: Ending): Option<Error> {
    if e.Served? then e.err else Some(Typed(Unavailable))
  }

  /** The steps of one call, in order and without interruption. */
  function Alone(w: Wiring, s: System, id: nat, verb: string, asked: Moment,
                 sent: seq<Reply>, err: Option<Error>, told: Moment): System {
    var s2 := Next(w, Next(w, s, Enter(id, verb)), TakeSlot(id));
    if id in s2.calls && s2.calls[id].Full? then Next(w, s2, CountFull(id))
    else
      var s3 := Next(w, s2, AskBreaker(id, asked));
      if id in s3.calls && s3.calls[id].Refused? then Next(w, Next(w, s3, CountRefused(id)), LeaveSlot(id))
      else Next(w, Next(w, Next(w, s3, Answer(id, sent, err)), ReportResult(id, told)), LeaveSlot(id))
  }

  /** The rest of a lone call that found room. */
  lemma AloneGoesOn(w: Wiring, s2: System, id: nat, asked: Moment, sent: seq<Reply>, err: Option<Error>, told: Moment)
    returns (tail: seq<Action>)
    ensures forall i | 0 <= i < |tail| :: tail[i].id == id
    ensures var s3 := Next(w, s2, AskBreaker(id, asked));
            Exec(w, s2, tail)
            == if id in s3.calls && s3.calls[id].Refused? then Next(w, Next(w, s3, CountRefused(id)), LeaveSlot(id))
               else Next(w, Next(w, Next(w, s3, Answer(id, sent, err)), ReportResult(id, told)), LeaveSlot(id))
  {
    var ask := AskBreaker(id, asked);
    var s3 := Next(w, s2, ask);
    if id in s3.calls && s3.calls[id].Refused? {
      tail := [ask, CountRefused(id)] + [LeaveSlot(id)];
      ExecTwo(w, s2, ask, CountRefused(id));
      ExecOne(w, Next(w, s3, CountRefused(id)), LeaveSlot(id));
      ExecAppend(w, s2, [ask, CountRefused(id)], [LeaveSlot(id)]);
    } else {
      var answer, report := Answer(id, sent, err), ReportResult(id, told);
      tail := [ask, answer] + [report, LeaveSlot(id)];
      ExecTwo(w, s2, ask, answer);
      ExecTwo(w, Next(w, s3, answer), report, LeaveSlot(id));
      ExecAppend(w, s2, [ask, answer], [report, LeaveSlot(id)]);
    }
  }

  lemma AloneRun(w: Wiring, s: System, id: nat, verb: string, asked: Moment,
                 sent: seq<Reply>, err: Option<Error>, told: Moment) returns (acts: seq<Action>)
    ensures Exec(w, s, acts) == Alone(w, s, id, verb, asked, sent, err, told)
    ensures forall i | 0 <= i < |acts| :: acts[i].id == id
  {
    var enter, take := Enter(id, verb), TakeSlot(id);
    ExecTwo(w, s, enter, take);
    var s2 := Next(w, Next(w, s, enter), take);
    var tail;
    if id in s2.calls && s2.calls[id].Full? {
      tail := [CountFull(id)];
      ExecOne(w, s2, CountFull(id));
    } else {
      tail := AloneGoesOn(w, s2, id, asked, sent, err, told);
    }
    acts := [enter, take] + tail;
    ExecAppend(w, s, [enter, take], tail);
  }

  /** An uninterrupted call is a run of the interleaving model, by that call alone. */
  lemma AloneIsARun(w: Wiring, s: System, id: nat, verb: string, asked: Moment,
                    sent: seq<Reply>, err: Option<Error>, told: Moment)
    ensures exists acts: seq<Action> :: Exec(w, s, acts) == Alone(w, s, id, verb, asked, sent, err, told)
                           && forall i | 0 <= i < |acts| :: acts[i].id == id
  {
    var acts := AloneRun(w, s, id, verb, asked, sent, err, told);
  }
}
