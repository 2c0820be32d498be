/** What the replies of a service come to at the outbound client: which of them count as failures
    at the breaker, under which label they are counted, and which are sent again.  Everything is
    said in terms of what was sent and answered. */
module Statuses {
  import opened Base
  import opened Breaker
  import opened Metrics
  import opened Outbound

  /** A call that followed its script to the end of its last send: no context or backoff error
      came after that send, nor a request that could not be built. */
  predicate EndsOnReply(w: Wiring, verb: string, script: nat -> Attempt, sent: seq<Reply>, err: Option<Error>) {
    && Follows(verb, w.maxRetries, false, script, sent, err) && sent != []
    && script(|sent| - 1).ctx.None? && script(|sent| - 1).backoff.None? && script(|sent|).unbuilt.None?
  }

  predicate GatewayStatus(status: int) { status == 502 || status == 503 || status == 504 }

  predicate SuccessStatus(status: int) { 200 <= status < 300 }

  /** An error other than a cancellation, or that of a service which was already unavailable. */
  predicate Blamed(cause: Error) { cause == Other || cause == Typed(Unavailable) }

  /** The replies that count against a service. */
  predicate CountsAgainst(r: Reply) {
    match r
    case Transport(cause) => Blamed(cause)
    case Response(_, Unreadable(cause)) => Blamed(cause)
    case Response(_, TooLarge) => true
    case Response(status, Read(decodes)) => GatewayStatus(status) || (SuccessStatus(status) && !decodes)
  }

  lemma EndsWithLast(w: Wiring, verb: string, script: nat -> Attempt, sent: seq<Reply>, err: Option<Error>)
    requires EndsOnReply(w, verb, script, sent, err)
    ensures err == Settles(sent[|sent| - 1])
  {
    var n := |sent|;
    assert sent[n - 1] == script(n - 1).reply;
  }

  /** A call is reported as a failure exactly when its last reply counts against the service; and
      any other report closes the breaker. */
  lemma ReportedAsFailureIff(w: Wiring, s: System, id: nat, now: Moment, script: nat -> Attempt)
    requires id in s.calls && s.calls[id].Returned? && s.calls[id].ending.Served?
    requires var e := s.calls[id].ending; EndsOnReply(w, e.verb, script, e.sent, e.err)
    ensures var e, s' := s.calls[id].ending, Next(w, s, ReportResult(id, now));
            && s'.ops == s.ops + [Report(id, CountsAgainst(e.sent[|e.sent| - 1]), now)]
            && (!CountsAgainst(e.sent[|e.sent| - 1]) ==> s'.circuit == Circuit(0, 0, false))
  {
    var e := s.calls[id].ending;
    EndsWithLast(w, e.verb, script, e.sent, e.err);
  }

  /** A context that ended during a send is reported as a failure unless it was cancelled, whatever
      the send brought. */
  lemma CancelledIsNoFailure(w: Wiring, s: System, id: nat, now: Moment, script: nat -> Attempt)
    requires id in s.calls && s.calls[id].Returned? && s.calls[id].ending.Served?
    requires var e := s.calls[id].ending;
             && Follows(e.verb, w.maxRetries, false, script, e.sent, e.err) && e.sent != []
             && e.sent[|e.sent| - 1].Transport? && script(|e.sent| - 1).ctx.Some?
    ensures var e := s.calls[id].ending;
            Next(w, s, ReportResult(id, now)).ops
            == s.ops + [Report(id, Blamed(script(|e.sent| - 1).ctx.value), now)]
  {
    var e := s.calls[id].ending;
    assert e.sent[|e.sent| - 1] == script(|e.sent| - 1).reply;
  }

  /** The label of a readable reply. */
  function LabelOf(status: int, decodes: bool): Tag {
    if 200 <= status < 300 then (if decodes then OnSuccess else OnError)
    else if status == 401 then OnUnauthorized
    else if status == 403 then OnForbidden
    else if status == 429 then OnRateLimited
    else if 502 <= status <= 504 then OnUnavailable
    else OnError
  }

  /** A served call is counted under the label of the status it ended with. */
  lemma CountedByStatus(w: Wiring, s: System, id: nat, script: nat -> Attempt, sent: seq<Reply>, err: Option<Error>)
    requires id in s.calls && s.calls[id].Forwarded? && WellBehaved(s.calls[id].verb, w.maxRetries, sent, err)
    requires EndsOnReply(w, s.calls[id].verb, script, sent, err)
    requires sent[|sent| - 1].Response? && sent[|sent| - 1].body.Read?
    ensures var last := sent[|sent| - 1];
            Next(w, s, Answer(id, sent, err)).requests == Bump(s.requests, LabelOf(last.status, last.body.decodes))
  {
    EndsWithLast(w, s.calls[id].verb, script, sent, err);
  }

  /** Failed sends are counted as errors. */
  lemma FailedSendIsAnError(w: Wiring, s: System, id: nat, script: nat -> Attempt, sent: seq<Reply>, err: Option<Error>)
    requires id in s.calls && s.calls[id].Forwarded? && WellBehaved(s.calls[id].verb, w.maxRetries, sent, err)
    requires EndsOnReply(w, s.calls[id].verb, script, sent, err)
    requires sent[|sent| - 1] == Transport(Other) || sent[|sent| - 1] == Transport(Canceled)
    ensures Next(w, s, Answer(id, sent, err)).requests == Bump(s.requests, OnError)
  {
    EndsWithLast(w, s.calls[id].verb, script, sent, err);
  }

  /** Nothing is sent exactly when the payload cannot be encoded or the first request cannot be
      built, and that is then the error. */
  lemma NothingSentIff(verb: string, maxRetries: int, unmarshalable: bool, script: nat -> Attempt, sent: seq<Reply>,
                       err: Option<Error>)
    requires Follows(verb, maxRetries, unmarshalable, script, sent, err)
    ensures sent == [] <==> unmarshalable || script(0).unbuilt.Some?
    ensures unmarshalable ==> err == Some(Other)
    ensures !unmarshalable && sent == [] ==> err == script(0).unbuilt
  {
    if sent != [] {
      assert sent[0] == script(0).reply;
    }
  }

  /** The kind of error a status stands for. */
  predicate StandsFor(status: int, kind: Kind) {
    match kind
    case BadRequest => status == 400
    case Unauthorized => status == 401
    case Forbidden => status == 403
    case NotFound => status == 404
    case Conflict => status == 409
    case RateLimited => status == 429
    case Unavailable => 502 <= status <= 504
    case Upstream => status !in {400, 401, 403, 404, 409, 429, 502, 503, 504}
  }

  /** A readable reply ends the call without error if it is a 2xx that decodes, and with the error
      its status stands for if it is no 2xx. */
  lemma ErrorNamesTheStatus(w: Wiring, verb: string, script: nat -> Attempt, sent: seq<Reply>, err: Option<Error>)
    requires EndsOnReply(w, verb, script, sent, err)
    requires sent[|sent| - 1].Response? && sent[|sent| - 1].body.Read?
    ensures var last := sent[|sent| - 1];
            if SuccessStatus(last.status) then err == (if last.body.decodes then None else Some(Other))
            else err.Some? && err.value.Typed? && StandsFor(last.status, err.value.kind)
  {
    EndsWithLast(w, verb, script, sent, err);
  }

  /** A request is sent again only if it is a GET, HEAD or OPTIONS, at most MaxRetries times, and
      only after a failed send or a 502, 503 or 504; and after one of these it is, until the
      retries are used up. */
  lemma SentAgainIff(verb: string, maxRetries: int, script: nat -> Attempt, sent: seq<Reply>, err: Option<Error>)
    requires Follows(verb, maxRetries, false, script, sent, err) && sent != []
    ensures |sent| > 1 ==> (verb == "GET" || verb == "HEAD" || verb == "OPTIONS") && |sent| <= 1 + maxRetries
    ensures forall i | 0 <= i < |sent| - 1 :: sent[i].Transport? || GatewayStatus(sent[i].status)
    ensures var last := script(|sent| - 1);
            && (verb == "GET" || verb == "HEAD" || verb == "OPTIONS")
            && (last.reply.Transport? || GatewayStatus(last.reply.status))
            && last.ctx.None? && last.backoff.None? && script(|sent|).unbuilt.None? && 0 <= maxRetries
            ==> |sent| == 1 + maxRetries
  {
    assert forall i | 0 <= i < |sent| - 1 :: GoesOn(script(i));
  }

  // ---- Calls in a row ----

  /** A finished call that nothing overlapped, with the script it followed. */
  datatype Call = Call(
    id: nat, verb: string, asked: Moment, script: nat -> Attempt, sent: seq<Reply>, err: Option<Error>, told: Moment)

  predicate Bad(w: Wiring, c: Call) {
    && WellBehaved(c.verb, w.maxRetries, c.sent, c.err) && EndsOnReply(w, c.verb, c.script, c.sent, c.err)
    && CountsAgainst(c.sent[|c.sent| - 1])
  }

  /** What remains of the system when the call is over, as `ProtectedClient.Snapshot` sees it. */
  function Rested(s: System): System { s.(calls := map[], ops := [], probe := 0) }

  function Finish(w: Wiring, s: System, c: Call): System {
    Alone(w, s, c.id, c.verb, c.asked, c.sent, c.err, c.told)
  }

  function InARow(w: Wiring, cs: seq<Call>): System {
    if cs == [] then IDLE else Rested(Finish(w, InARow(w, cs[..|cs| - 1]), cs[|cs| - 1]))
  }

  lemma BadIsAFailure(w: Wiring, c: Call)
    requires Bad(w, c)
    ensures IsCircuitFailure(c.err) && WellBehaved(c.verb, w.maxRetries, c.sent, c.err)
  {
    EndsWithLast(w, c.verb, c.script, c.sent, c.err);
  }

  /** One more bad call at a closed breaker. */
  lemma OneMoreBad(w: Wiring, s: System, c: Call)
    requires Quiet(w, s) && s.slots == 0 && s.circuit.openedAt == 0 && !s.circuit.halfOpen && Bad(w, c)
    ensures var s' := Finish(w, s, c);
            var n := s.circuit.failures + 1;
            && s'.calls == map[c.id := Finished(Served(c.verb, c.sent, c.err))] && s'.slots == 0
            && s'.circuit == Circuit(n, if n >= w.breaker.threshold then c.told else 0, false)
  {
    BadIsAFailure(w, c);
    AloneServed(w, s, c.id, c.verb, c.asked, c.sent, c.err, c.told);
  }

  /** Bad calls up to the threshold are all served, and add up. */
  lemma {:induction false} BadCallsAddUp(w: Wiring, cs: seq<Call>)
    requires |cs| <= w.breaker.threshold && forall i | 0 <= i < |cs| :: Bad(w, cs[i])
    ensures var s := InARow(w, cs);
            && Quiet(w, s) && s.slots == 0
            && s.circuit == Circuit(|cs|, if |cs| == w.breaker.threshold then cs[|cs| - 1].told else 0, false)
  {
    if cs == [] {
    } else {
      var past := cs[..|cs| - 1];
      BadCallsAddUp(w, past);
      OneMoreBad(w, InARow(w, past), cs[|cs| - 1]);
    }
  }

  /** Fewer bad calls in a row than the threshold leave the circuit closed: the next call is
      served.  As many as the threshold open it: a call within the open time is refused, and one
      after it is served again. */
  lemma BadCallsOpenTheCircuit(w: Wiring, cs: seq<Call>, next: Call)
    requires |cs| <= w.breaker.threshold && forall i | 0 <= i < |cs| :: Bad(w, cs[i])
    requires WellBehaved(next.verb, w.maxRetries, next.sent, next.err)
    ensures var end := Finish(w, InARow(w, cs), next);
            && next.id in end.calls
            && end.calls[next.id]
               == Finished(if |cs| == w.breaker.threshold && next.asked - cs[|cs| - 1].told < w.breaker.openFor
                           then ByCircuit else Served(next.verb, next.sent, next.err))
  {
    BadCallsAddUp(w, cs);
    var s := InARow(w, cs);
    if |cs| == w.breaker.threshold && next.asked - cs[|cs| - 1].told < w.breaker.openFor {
      AloneRefused(w, s, next.id, next.verb, next.asked, next.sent, next.err, next.told);
    } else {
      AloneServed(w, s, next.id, next.verb, next.asked, next.sent, next.err, next.told);
    }
  }

  /** Such calls exist: a POST answered by a readable 503. */
  lemma UnavailableIsBad(w: Wiring, id: nat, asked: Moment, told: Moment) returns (c: Call)
    ensures Bad(w, c) && c.id == id && c.asked == asked && c.told == told && c.verb == "POST"
    ensures c.sent == [Response(503, Read(true))]
  {
    var reply := Response(503, Read(true));
    var script: nat -> Attempt := i => Attempt(None, reply, None, None);
    c := Call(id, "POST", asked, script, [reply], Some(Typed(Unavailable)), told);
  }
}
