/** Login: internal/auth/flow_store.go and the interleaved steps of `StartLogin` and
    `CompleteCallback` in internal/auth/service.go.

    Hashing, the return-to check and the flow's lifetime are parameters.  A random state or
    session identifier is one that was never drawn before; nonces and verifiers may be
    anything.  Callbacks may present any state and code. */
module Login {
  import opened Base

  const DEFAULT_FLOW_TTL := 300 * SECOND

  datatype Flow = Flow(state: string, nonce: string, verifier: string, returnTo: string, expiresAt: int)

  type Flows = map<string, Flow>

  /** `Take`: whatever is there is removed; an expired flow is as good as none. */
  function Take(flows: Flows, state: string, now: int): (Flows, Option<Flow>) {
    (flows - {state}, if state in flows && flows[state].expiresAt > now then Some(flows[state]) else None)
  }

  class MemoryFlowStore {
    var data: Flows

    constructor ()
      ensures data == map[]
    {
      data := map[];
    }

    method Put(flow: Flow)
      modifies this
      ensures data == old(data)[flow.state := flow]
    {
      data := data[flow.state := flow];
    }

    method TakeOnce(state: string, now: int) returns (r: Option<Flow>)
      modifies this
      ensures (data, r) == Take(old(data), state, now)
    {
      if state !in data {
        assert data - {state} == data;
        return None;
      }
      var flow := data[state];
      data := data - {state};
      if flow.expiresAt <= now {
        return None;
      }
      return Some(flow);
    }
  }

  // ---- Interleaved logins ----

  datatype Env = Env(challenge: string -> string, safe: string -> bool, flowTtl: int)

  function FlowTtl(env: Env): int { if env.flowTtl <= 0 then DEFAULT_FLOW_TTL else env.flowTtl }

  /** Where a StartLogin stands once its flow has been made up. */
  datatype Starting = Prepared(flow: Flow) | Stored(flow: Flow) | Over

  /** Where a CompleteCallback stands.  From `Exchanging` on it owns a flow. */
  datatype Phase =
    | Taking(state: string, code: string)
    | Exchanging(flow: Flow, code: string)
    | Identified(flow: Flow)
    | Opened(flow: Flow, sid: string)
    | Undoing(flow: Flow, sid: string)
    | Completed(flow: Flow, sid: string)
    | Failed(flow: Flow)
    | Stranded(flow: Flow, sid: string)  // the rollback itself failed
    | NoFlow

  datatype Url = Url(state: string, nonce: string, challenge: string)

  datatype Exchange = Exchange(caller: nat, state: string, code: string, verifier: string, nonce: string)

  datatype Done = Done(caller: nat, state: string, returnTo: string, sid: string)

  /** `made` keeps every flow StartLogin ever made up, by state, `drawn` which callback drew
      each session identifier, `tokenFails` and `undoFails` the callbacks whose token write and
      whose deletion of the session failed; `urls`, `exchanges` and `done` are what left the
      service. */
  datatype System = System(
    clock: int,
    flows: Flows,
    starts: map<nat, Starting>,
    callbacks: map<nat, Phase>,
    sessions: set<string>,
    tokens: set<string>,
    drawn: map<string, nat>,
    made: map<string, Flow>,
    taken: set<string>,
    urls: seq<Url>,
    exchanges: seq<Exchange>,
    done: seq<Done>,
    tokenFails: set<nat>,
    undoFails: set<nat>)

  const START := System(0, map[], map[], map[], {}, {}, map[], map[], {}, [], [], [], {}, {})

  datatype Action =
    | Tick(elapsed: nat)
    | StartLogin(c: nat, returnTo: string, state: string, nonce: string, verifier: string)
    | PutFlow(c: nat, ok: bool)
    | Publish(c: nat, ok: bool)
    | Callback(c: nat, state: string, code: string)
    | TakeFlow(c: nat)
    | CallExchange(c: nat, accepted: bool)
    | PutSession(c: nat, sid: string, ok: bool)
    | PutTokens(c: nat, ok: bool)
    | Rollback(c: nat, ok: bool)

  function ReturnTo(raw: string): string { if raw == "" then "/" else raw }

  function Move(s: System, c: nat, p: Phase): System { s.(callbacks := s.callbacks[c := p]) }

  function PrepareStep(s: System, c: nat, f: Flow): System {
    s.(starts := s.starts[c := Prepared(f)], made := s.made[f.state := f])
  }

  function StoreStep(s: System, c: nat, f: Flow): System {
    s.(starts := s.starts[c := Stored(f)], flows := s.flows[f.state := f])
  }

  function StopStep(s: System, c: nat): System { s.(starts := s.starts[c := Over]) }

  function PublishStep(s: System, c: nat, url: Url): System { StopStep(s, c).(urls := s.urls + [url]) }

  function UrlOf(env: Env, f: Flow): Url { Url(f.state, f.nonce, env.challenge(f.verifier)) }

  function NewFlow(env: Env, s: System, a: Action): Flow
    requires a.StartLogin?
  {
    Flow(a.state, a.nonce, a.verifier, ReturnTo(a.returnTo), s.clock + FlowTtl(env))
  }

  function NextStart(env: Env, s: System, a: Action): System {
    match a
    case StartLogin(c, raw, state, _, _) =>
      if c in s.starts || state in s.made || !env.safe(ReturnTo(raw)) then s
      else PrepareStep(s, c, NewFlow(env, s, a))
    case PutFlow(c, ok) =>
      if !(c in s.starts && s.starts[c].Prepared?) then s
      else if ok then StoreStep(s, c, s.starts[c].flow) else StopStep(s, c)
    case Publish(c, ok) =>
      if !(c in s.starts && s.starts[c].Stored?) then s
      else if ok then PublishStep(s, c, UrlOf(env, s.starts[c].flow)) else StopStep(s, c)
    case _ => s
  }

  /** The phase a callback is in; `NoFlow` for one that has not begun. */
  function At(s: System, c: nat): Phase { if c in s.callbacks then s.callbacks[c] else NoFlow }

  function TakeStep(s: System, c: nat): System
    requires At(s, c).Taking?
  {
    var p := s.callbacks[c];
    var (flows, r) := Take(s.flows, p.state, s.clock);
    Move(s, c, if r.None? then NoFlow else Exchanging(r.value, p.code))
      .(flows := flows, taken := if p.state in s.flows then s.taken + {p.state} else s.taken)
  }

  function ExchangeStep(s: System, c: nat, accepted: bool): System
    requires At(s, c).Exchanging?
  {
    var p := s.callbacks[c];
    Move(s, c, if accepted then Identified(p.flow) else Failed(p.flow))
      .(exchanges := s.exchanges + [Exchange(c, p.flow.state, p.code, p.flow.verifier, p.flow.nonce)])
  }

  function OpenStep(s: System, c: nat, sid: string, ok: bool): System
    requires At(s, c).Identified?
  {
    var p := s.callbacks[c];
    Move(s, c, if ok then Opened(p.flow, sid) else Failed(p.flow))
      .(drawn := s.drawn[sid := c], sessions := if ok then s.sessions + {sid} else s.sessions)
  }

  function TokensStep(s: System, c: nat, ok: bool): System
    requires At(s, c).Opened?
  {
    var p := s.callbacks[c];
    if ok then
      Move(s, c, Completed(p.flow, p.sid))
        .(tokens := s.tokens + {p.sid}, done := s.done + [Done(c, p.flow.state, p.flow.returnTo, p.sid)])
    else Move(s, c, Undoing(p.flow, p.sid)).(tokenFails := s.tokenFails + {c})
  }

  function RollbackStep(s: System, c: nat, ok: bool): System
    requires At(s, c).Undoing?
  {
    var p := s.callbacks[c];
    if ok then Move(s, c, Failed(p.flow)).(sessions := s.sessions - {p.sid})
    else Move(s, c, Stranded(p.flow, p.sid)).(undoFails := s.undoFails + {c})
  }

  function NextCallback(s: System, a: Action): System {
    match a
    case Callback(c, state, code) =>
      if c in s.callbacks then s else Move(s, c, if state == "" || code == "" then NoFlow else Taking(state, code))
    case TakeFlow(c) => if At(s, c).Taking? then TakeStep(s, c) else s
    case CallExchange(c, accepted) => if At(s, c).Exchanging? then ExchangeStep(s, c, accepted) else s
    case PutSession(c, sid, ok) => if At(s, c).Identified? && sid !in s.drawn then OpenStep(s, c, sid, ok) else s
    case PutTokens(c, ok) => if At(s, c).Opened? then TokensStep(s, c, ok) else s
    case Rollback(c, ok) => if At(s, c).Undoing? then RollbackStep(s, c, ok) else s
    case _ => s
  }

  function Next(env: Env, s: System, a: Action): System {
    match a
    case Tick(elapsed) => s.(clock := s.clock + elapsed)
    case StartLogin(_, _, _, _, _) => NextStart(env, s, a)
    case PutFlow(_, _) => NextStart(env, s, a)
    case Publish(_, _) => NextStart(env, s, a)
    case _ => NextCallback(s, a)
  }

  function Exec(env: Env, s: System, acts: seq<Action>): System
    decreases |acts|
  {
    if acts == [] then s else Exec(env, Next(env, s, acts[0]), acts[1..])
  }

  // ---- What every interleaving keeps ----

  type Starters = map<nat, Starting>
  type Callbacks = map<nat, Phase>

  predicate Owns(cbs: Callbacks, c: nat) { c in cbs && !cbs[c].Taking? && !cbs[c].NoFlow? }

  predicate IsMade(made: Flows, f: Flow) { f.state in made && made[f.state] == f }

  /** A state is to be stored, stored, or taken: only one of these. */
  ghost predicate OnePlace(starts: Starters, flows: Flows, made: Flows, taken: set<string>) {
    && (forall c | c in starts && !starts[c].Over? :: IsMade(made, starts[c].flow))
    && (forall c | c in starts && starts[c].Prepared? ::
          starts[c].flow.state !in flows && starts[c].flow.state !in taken)
    && (forall c, d | c in starts && d in starts && c != d && starts[c].Prepared? && starts[d].Prepared? ::
          starts[c].flow.state != starts[d].flow.state)
    && (forall k | k in flows :: flows[k].state == k && IsMade(made, flows[k]) && k !in taken)
    && (forall k | k in taken :: k in made)
  }

  /** A callback that owns a flow took it, and no other callback did. */
  ghost predicate OneOwner(cbs: Callbacks, made: Flows, taken: set<string>) {
    && (forall c | Owns(cbs, c) :: IsMade(made, cbs[c].flow) && cbs[c].flow.state in taken)
    && (forall c, d | Owns(cbs, c) && Owns(cbs, d) && c != d :: cbs[c].flow.state != cbs[d].flow.state)
  }

  ghost predicate Published(env: Env, made: Flows, urls: seq<Url>) {
    && (forall k | k in made :: env.safe(made[k].returnTo))
    && (forall i | 0 <= i < |urls| ::
          && urls[i].state in made
          && urls[i].nonce == made[urls[i].state].nonce
          && urls[i].challenge == env.challenge(made[urls[i].state].verifier))
  }

  predicate Presented(cbs: Callbacks, e: Exchange) {
    && Owns(cbs, e.caller) && !cbs[e.caller].Exchanging?
    && e.state == cbs[e.caller].flow.state
    && e.verifier == cbs[e.caller].flow.verifier && e.nonce == cbs[e.caller].flow.nonce
  }

  ghost predicate Exchanged(cbs: Callbacks, exchanges: seq<Exchange>) {
    && (forall i | 0 <= i < |exchanges| :: Presented(cbs, exchanges[i]))
    && (forall i, j | 0 <= i < j < |exchanges| :: exchanges[i].caller != exchanges[j].caller)
  }

  predicate Achieved(cbs: Callbacks, d: Done) {
    && d.caller in cbs && cbs[d.caller].Completed? && cbs[d.caller].sid == d.sid
    && d.state == cbs[d.caller].flow.state && d.returnTo == cbs[d.caller].flow.returnTo
  }

  ghost predicate Finished(cbs: Callbacks, done: seq<Done>) {
    && (forall i | 0 <= i < |done| :: Achieved(cbs, done[i]))
    && (forall i, j | 0 <= i < j < |done| :: done[i].caller != done[j].caller)
  }

  predicate HasSid(p: Phase, sid: string) {
    (p.Opened? || p.Undoing? || p.Completed? || p.Stranded?) && p.sid == sid
  }

  /** Phases whose session is in the store. */
  predicate Keeps(p: Phase) { p.Opened? || p.Undoing? || p.Completed? || p.Stranded? }

  /** Which writes have failed, by where the callback stands. */
  ghost predicate FailuresNoted(cbs: Callbacks, tokenFails: set<nat>, undoFails: set<nat>) {
    && (forall c | c in undoFails :: c in cbs && cbs[c].Stranded?)
    && (forall c | c in cbs && cbs[c].Stranded? :: c in undoFails)
    && (forall c | c in cbs && (cbs[c].Undoing? || cbs[c].Stranded?) :: c in tokenFails)
  }

  ghost predicate SessionsOwned(cbs: Callbacks, drawn: map<string, nat>, sessions: set<string>, tokens: set<string>) {
    && (forall c | c in cbs && Keeps(cbs[c]) :: cbs[c].sid in sessions && cbs[c].sid in drawn && drawn[cbs[c].sid] == c)
    && (forall sid | sid in sessions :: sid in drawn && drawn[sid] in cbs && HasSid(cbs[drawn[sid]], sid))
    && (forall sid | sid in tokens ::
          sid in drawn && drawn[sid] in cbs && cbs[drawn[sid]].Completed? && cbs[drawn[sid]].sid == sid)
    && (forall c | c in cbs && cbs[c].Completed? :: cbs[c].sid in tokens)
  }

  ghost predicate Inv(env: Env, s: System) {
    && OnePlace(s.starts, s.flows, s.made, s.taken)
    && OneOwner(s.callbacks, s.made, s.taken)
    && Published(env, s.made, s.urls)
    && Exchanged(s.callbacks, s.exchanges)
    && Finished(s.callbacks, s.done)
    && SessionsOwned(s.callbacks, s.drawn, s.sessions, s.tokens)
    && FailuresNoted(s.callbacks, s.tokenFails, s.undoFails)
  }

  // Making up a flow, storing it and publishing its URL.

  lemma MadeGrows(env: Env, cbs: Callbacks, made: Flows, taken: set<string>, urls: seq<Url>, f: Flow)
    requires f.state !in made && env.safe(f.returnTo)
    requires OneOwner(cbs, made, taken) && Published(env, made, urls)
    ensures OneOwner(cbs, made[f.state := f], taken) && Published(env, made[f.state := f], urls)
  {
  }

  lemma PreparePlace(starts: Starters, flows: Flows, made: Flows, taken: set<string>, c: nat, f: Flow)
    requires OnePlace(starts, flows, made, taken) && f.state !in made
    ensures OnePlace(starts[c := Prepared(f)], flows, made[f.state := f], taken)
  {
  }

  lemma StorePlace(starts: Starters, flows: Flows, made: Flows, taken: set<string>, c: nat)
    requires OnePlace(starts, flows, made, taken) && c in starts && starts[c].Prepared?
    ensures var f := starts[c].flow; OnePlace(starts[c := Stored(f)], flows[f.state := f], made, taken)
  {
  }

  lemma StopPlace(starts: Starters, flows: Flows, made: Flows, taken: set<string>, c: nat)
    requires OnePlace(starts, flows, made, taken)
    ensures OnePlace(starts[c := Over], flows, made, taken)
  {
  }

  lemma PrepareInv(env: Env, s: System, c: nat, f: Flow)
    requires Inv(env, s) && f.state !in s.made && env.safe(f.returnTo)
    ensures Inv(env, PrepareStep(s, c, f))
  {
    PreparePlace(s.starts, s.flows, s.made, s.taken, c, f);
    MadeGrows(env, s.callbacks, s.made, s.taken, s.urls, f);
  }

  lemma StoreInv(env: Env, s: System, c: nat, f: Flow)
    requires Inv(env, s) && c in s.starts && s.starts[c] == Prepared(f)
    ensures Inv(env, StoreStep(s, c, f))
  {
    StorePlace(s.starts, s.flows, s.made, s.taken, c);
  }

  lemma StopInv(env: Env, s: System, c: nat)
    requires Inv(env, s)
    ensures Inv(env, StopStep(s, c))
  {
    StopPlace(s.starts, s.flows, s.made, s.taken, c);
  }

  lemma PublishInv(env: Env, s: System, c: nat, f: Flow)
    requires Inv(env, s) && c in s.starts && s.starts[c] == Stored(f)
    ensures Inv(env, PublishStep(s, c, UrlOf(env, f)))
  {
    assert IsMade(s.made, f);
    StopPlace(s.starts, s.flows, s.made, s.taken, c);
    assert Published(env, s.made, s.urls + [UrlOf(env, f)]);
  }

  lemma PutFlowInv(env: Env, s: System, c: nat, ok: bool)
    requires Inv(env, s)
    ensures Inv(env, NextStart(env, s, PutFlow(c, ok)))
  {
    StopInv(env, s, c);
    if c in s.starts && s.starts[c].Prepared? {
      StoreInv(env, s, c, s.starts[c].flow);
    }
  }

  lemma PublishUrlInv(env: Env, s: System, c: nat, ok: bool)
    requires Inv(env, s)
    ensures Inv(env, NextStart(env, s, Publish(c, ok)))
  {
    StopInv(env, s, c);
    if c in s.starts && s.starts[c].Stored? {
      PublishInv(env, s, c, s.starts[c].flow);
    }
  }

  lemma StartLoginInv(env: Env, s: System, a: Action)
    requires Inv(env, s) && a.StartLogin?
    ensures Inv(env, NextStart(env, s, a))
  {
    if a.c !in s.starts && a.state !in s.made && env.safe(ReturnTo(a.returnTo)) {
      PrepareInv(env, s, a.c, NewFlow(env, s, a));
    }
  }

  lemma StartInv(env: Env, s: System, a: Action)
    requires Inv(env, s)
    ensures Inv(env, NextStart(env, s, a))
  {
    match a
    case StartLogin(_, _, _, _, _) => StartLoginInv(env, s, a);
    case PutFlow(c, ok) => PutFlowInv(env, s, c, ok);
    case Publish(c, ok) => PublishUrlInv(env, s, c, ok);
    case _ =>
  }

  // Taking a flow and carrying it through.

  /** A move that keeps the caller's flow, or gives it none. */
  predicate KeepsFlow(cbs: Callbacks, c: nat, p: Phase) {
    p.Taking? || p.NoFlow? || (Owns(cbs, c) && cbs[c].flow == p.flow)
  }

  lemma MoveOwner(cbs: Callbacks, made: Flows, taken: set<string>, c: nat, p: Phase)
    requires OneOwner(cbs, made, taken) && KeepsFlow(cbs, c, p)
    ensures OneOwner(cbs[c := p], made, taken)
  {
  }

  lemma TakeOwner(cbs: Callbacks, made: Flows, taken: set<string>, c: nat, p: Phase)
    requires OneOwner(cbs, made, taken) && p.Exchanging? && IsMade(made, p.flow) && p.flow.state !in taken
    ensures OneOwner(cbs[c := p], made, taken + {p.flow.state})
  {
  }

  lemma TakenGrows(cbs: Callbacks, made: Flows, taken: set<string>, state: string)
    requires OneOwner(cbs, made, taken)
    ensures OneOwner(cbs, made, taken + {state})
  {
  }

  lemma TakePlace(starts: Starters, flows: Flows, made: Flows, taken: set<string>, state: string)
    requires OnePlace(starts, flows, made, taken) && state in flows
    ensures OnePlace(starts, flows - {state}, made, taken + {state})
  {
  }

  lemma MoveExchanged(cbs: Callbacks, exchanges: seq<Exchange>, c: nat, p: Phase)
    requires Exchanged(cbs, exchanges)
    requires Owns(cbs, c) ==> !p.Taking? && !p.NoFlow? && !p.Exchanging? && cbs[c].flow == p.flow
    ensures Exchanged(cbs[c := p], exchanges)
  {
    forall i | 0 <= i < |exchanges|
      ensures Presented(cbs[c := p], exchanges[i])
    {
      assert Presented(cbs, exchanges[i]);
    }
  }

  lemma AppendExchanged(cbs: Callbacks, exchanges: seq<Exchange>, c: nat, p: Phase)
    requires Exchanged(cbs, exchanges) && c in cbs && cbs[c].Exchanging?
    requires (p.Identified? || p.Failed?) && p.flow == cbs[c].flow
    ensures var f := p.flow;
            Exchanged(cbs[c := p], exchanges + [Exchange(c, f.state, cbs[c].code, f.verifier, f.nonce)])
  {
    assert forall i | 0 <= i < |exchanges| :: Presented(cbs, exchanges[i]);
    MoveExchanged(cbs, exchanges, c, p);
  }

  lemma MoveFinished(cbs: Callbacks, done: seq<Done>, c: nat, p: Phase)
    requires Finished(cbs, done) && (c in cbs ==> !cbs[c].Completed?)
    ensures Finished(cbs[c := p], done)
  {
    assert forall i | 0 <= i < |done| :: Achieved(cbs, done[i]);
  }

  lemma AppendFinished(cbs: Callbacks, done: seq<Done>, c: nat, p: Phase)
    requires Finished(cbs, done) && p.Completed? && (c in cbs ==> !cbs[c].Completed?)
    ensures Finished(cbs[c := p], done + [Done(c, p.flow.state, p.flow.returnTo, p.sid)])
  {
    MoveFinished(cbs, done, c, p);
    assert forall i | 0 <= i < |done| :: Achieved(cbs, done[i]);
  }

  /** A callback that keeps its session, or had none and gets none. */
  lemma MoveSessions(cbs: Callbacks, drawn: map<string, nat>, sessions: set<string>, tokens: set<string>,
                     c: nat, p: Phase)
    requires SessionsOwned(cbs, drawn, sessions, tokens)
    requires !p.Completed? && (c in cbs ==> !cbs[c].Completed?)
    requires if c in cbs && Keeps(cbs[c]) then HasSid(p, cbs[c].sid) else !Keeps(p)
    ensures SessionsOwned(cbs[c := p], drawn, sessions, tokens)
  {
  }

  lemma DrawSessions(cbs: Callbacks, drawn: map<string, nat>, sessions: set<string>, tokens: set<string>,
                     sid: string, c: nat)
    requires SessionsOwned(cbs, drawn, sessions, tokens) && sid !in drawn
    ensures SessionsOwned(cbs, drawn[sid := c], sessions, tokens)
  {
  }

  lemma MoveNoted(cbs: Callbacks, tokenFails: set<nat>, undoFails: set<nat>, c: nat, p: Phase)
    requires FailuresNoted(cbs, tokenFails, undoFails) && !p.Undoing? && !p.Stranded?
    requires c in cbs ==> !cbs[c].Stranded?
    ensures FailuresNoted(cbs[c := p], tokenFails, undoFails)
  {
  }

  lemma UndoingNoted(cbs: Callbacks, tokenFails: set<nat>, undoFails: set<nat>, c: nat, p: Phase)
    requires FailuresNoted(cbs, tokenFails, undoFails) && p.Undoing? && c in cbs && cbs[c].Opened?
    ensures FailuresNoted(cbs[c := p], tokenFails + {c}, undoFails)
  {
  }

  lemma StrandedNoted(cbs: Callbacks, tokenFails: set<nat>, undoFails: set<nat>, c: nat, p: Phase)
    requires FailuresNoted(cbs, tokenFails, undoFails) && p.Stranded? && c in cbs && cbs[c].Undoing?
    ensures FailuresNoted(cbs[c := p], tokenFails, undoFails + {c})
  {
  }

  lemma OpenSessions(cbs: Callbacks, drawn: map<string, nat>, sessions: set<string>, tokens: set<string>,
                     c: nat, flow: Flow, sid: string)
    requires SessionsOwned(cbs, drawn, sessions, tokens) && c in cbs && cbs[c].Identified? && sid !in drawn
    ensures SessionsOwned(cbs[c := Opened(flow, sid)], drawn[sid := c], sessions + {sid}, tokens)
  {
  }

  lemma CompleteSessions(cbs: Callbacks, drawn: map<string, nat>, sessions: set<string>, tokens: set<string>, c: nat)
    requires SessionsOwned(cbs, drawn, sessions, tokens) && c in cbs && cbs[c].Opened?
    ensures SessionsOwned(cbs[c := Completed(cbs[c].flow, cbs[c].sid)], drawn, sessions, tokens + {cbs[c].sid})
  {
  }

  lemma UndoSessions(cbs: Callbacks, drawn: map<string, nat>, sessions: set<string>, tokens: set<string>, c: nat)
    requires SessionsOwned(cbs, drawn, sessions, tokens) && c in cbs && cbs[c].Undoing?
    ensures SessionsOwned(cbs[c := Failed(cbs[c].flow)], drawn, sessions - {cbs[c].sid}, tokens)
  {
    assert forall sid | sid in sessions - {cbs[c].sid} :: drawn[sid] != c;
  }

  /** A move that only concerns the caller's own position. */
  lemma MoveInv(env: Env, s: System, c: nat, p: Phase)
    requires Inv(env, s) && (p.Taking? || p.NoFlow?) && c !in s.callbacks
    ensures Inv(env, Move(s, c, p))
  {
    MoveOwner(s.callbacks, s.made, s.taken, c, p);
    MoveExchanged(s.callbacks, s.exchanges, c, p);
    MoveFinished(s.callbacks, s.done, c, p);
    MoveSessions(s.callbacks, s.drawn, s.sessions, s.tokens, c, p);
    MoveNoted(s.callbacks, s.tokenFails, s.undoFails, c, p);
  }

  lemma TakeInv(env: Env, s: System, c: nat)
    requires Inv(env, s) && At(s, c).Taking?
    ensures Inv(env, TakeStep(s, c))
  {
    var state, s' := s.callbacks[c].state, TakeStep(s, c);
    var p := s'.callbacks[c];
    if state in s.flows {
      TakePlace(s.starts, s.flows, s.made, s.taken, state);
      if p.Exchanging? {
        TakeOwner(s.callbacks, s.made, s.taken, c, p);
      } else {
        MoveOwner(s.callbacks, s.made, s.taken, c, p);
        TakenGrows(s'.callbacks, s.made, s.taken, state);
      }
    } else {
      MoveOwner(s.callbacks, s.made, s.taken, c, p);
    }
    MoveExchanged(s.callbacks, s.exchanges, c, p);
    MoveFinished(s.callbacks, s.done, c, p);
    MoveNoted(s.callbacks, s.tokenFails, s.undoFails, c, p);
    MoveSessions(s.callbacks, s.drawn, s.sessions, s.tokens, c, p);
  }

  lemma ExchangeInv(env: Env, s: System, c: nat, accepted: bool)
    requires Inv(env, s) && At(s, c).Exchanging?
    ensures Inv(env, ExchangeStep(s, c, accepted))
  {
    var p := ExchangeStep(s, c, accepted).callbacks[c];
    MoveOwner(s.callbacks, s.made, s.taken, c, p);
    AppendExchanged(s.callbacks, s.exchanges, c, p);
    MoveFinished(s.callbacks, s.done, c, p);
    MoveNoted(s.callbacks, s.tokenFails, s.undoFails, c, p);
    MoveSessions(s.callbacks, s.drawn, s.sessions, s.tokens, c, p);
  }

  lemma OpenInv(env: Env, s: System, c: nat, sid: string, ok: bool)
    requires Inv(env, s) && At(s, c).Identified? && sid !in s.drawn
    ensures Inv(env, OpenStep(s, c, sid, ok))
  {
    var p := OpenStep(s, c, sid, ok).callbacks[c];
    MoveOwner(s.callbacks, s.made, s.taken, c, p);
    MoveExchanged(s.callbacks, s.exchanges, c, p);
    MoveFinished(s.callbacks, s.done, c, p);
    MoveNoted(s.callbacks, s.tokenFails, s.undoFails, c, p);
    if ok {
      OpenSessions(s.callbacks, s.drawn, s.sessions, s.tokens, c, p.flow, sid);
    } else {
      MoveSessions(s.callbacks, s.drawn, s.sessions, s.tokens, c, p);
      DrawSessions(s.callbacks[c := p], s.drawn, s.sessions, s.tokens, sid, c);
    }
  }

  lemma TokensInv(env: Env, s: System, c: nat, ok: bool)
    requires Inv(env, s) && At(s, c).Opened?
    ensures Inv(env, TokensStep(s, c, ok))
  {
    var p := TokensStep(s, c, ok).callbacks[c];
    MoveOwner(s.callbacks, s.made, s.taken, c, p);
    MoveExchanged(s.callbacks, s.exchanges, c, p);
    if ok {
      AppendFinished(s.callbacks, s.done, c, p);
      CompleteSessions(s.callbacks, s.drawn, s.sessions, s.tokens, c);
      MoveNoted(s.callbacks, s.tokenFails, s.undoFails, c, p);
    } else {
      MoveFinished(s.callbacks, s.done, c, p);
      MoveSessions(s.callbacks, s.drawn, s.sessions, s.tokens, c, p);
      UndoingNoted(s.callbacks, s.tokenFails, s.undoFails, c, p);
    }
  }

  lemma RollbackInv(env: Env, s: System, c: nat, ok: bool)
    requires Inv(env, s) && At(s, c).Undoing?
    ensures Inv(env, RollbackStep(s, c, ok))
  {
    var p := RollbackStep(s, c, ok).callbacks[c];
    MoveOwner(s.callbacks, s.made, s.taken, c, p);
    MoveExchanged(s.callbacks, s.exchanges, c, p);
    MoveFinished(s.callbacks, s.done, c, p);
    if ok {
      UndoSessions(s.callbacks, s.drawn, s.sessions, s.tokens, c);
      MoveNoted(s.callbacks, s.tokenFails, s.undoFails, c, p);
    } else {
      MoveSessions(s.callbacks, s.drawn, s.sessions, s.tokens, c, p);
      StrandedNoted(s.callbacks, s.tokenFails, s.undoFails, c, p);
    }
  }

  lemma CallbackInv(env: Env, s: System, a: Action)
    requires Inv(env, s)
    ensures Inv(env, NextCallback(s, a))
  {
    match a
    case Callback(c, state, code) =>
      if c !in s.callbacks {
        MoveInv(env, s, c, if state == "" || code == "" then NoFlow else Taking(state, code));
      }
    case TakeFlow(c) => if At(s, c).Taking? { TakeInv(env, s, c); }
    case CallExchange(c, accepted) => if At(s, c).Exchanging? { ExchangeInv(env, s, c, accepted); }
    case PutSession(c, sid, ok) => if At(s, c).Identified? && sid !in s.drawn { OpenInv(env, s, c, sid, ok); }
    case PutTokens(c, ok) => if At(s, c).Opened? { TokensInv(env, s, c, ok); }
    case Rollback(c, ok) => if At(s, c).Undoing? { RollbackInv(env, s, c, ok); }
    case _ =>
  }

  lemma NextInv(env: Env, s: System, a: Action)
    requires Inv(env, s)
    ensures Inv(env, Next(env, s, a))
  {
    if a.StartLogin? || a.PutFlow? || a.Publish? {
      StartInv(env, s, a);
    } else if !a.Tick? {
      CallbackInv(env, s, a);
    }
  }

  lemma {:induction false} ExecInv(env: Env, s: System, acts: seq<Action>)
    requires Inv(env, s)
    ensures Inv(env, Exec(env, s, acts))
    decreases |acts|
  {
    if acts == [] {
    } else {
      NextInv(env, s, acts[0]);
      ExecInv(env, Next(env, s, acts[0]), acts[1..]);
    }
  }

  /** In every interleaving a state is exchanged at most once and completes at most one
      callback. */
  lemma StateIsUsedOnce(env: Env, acts: seq<Action>)
    ensures var s := Exec(env, START, acts);
            && (forall i, j | 0 <= i < j < |s.exchanges| :: s.exchanges[i].state != s.exchanges[j].state)
            && (forall i, j | 0 <= i < j < |s.done| :: s.done[i].state != s.done[j].state)
  {
    ExecInv(env, START, acts);
  }

  /** Every exchange presents the verifier and nonce of the one StartLogin that drew its
      state, and any authorization URL for that state carries the challenge of that verifier
      and the same nonce (sections 4.2 and 4.5 of RFC 7636).  A completed callback returns
      to the address that StartLogin checked. */
  lemma ExchangeMatchesChallenge(env: Env, acts: seq<Action>)
    ensures var s := Exec(env, START, acts);
            && (forall i | 0 <= i < |s.exchanges| ::
                  && s.exchanges[i].state in s.made
                  && s.exchanges[i].verifier == s.made[s.exchanges[i].state].verifier
                  && s.exchanges[i].nonce == s.made[s.exchanges[i].state].nonce)
            && (forall i, u | 0 <= i < |s.exchanges| && 0 <= u < |s.urls| && s.urls[u].state == s.exchanges[i].state ::
                  && s.urls[u].challenge == env.challenge(s.exchanges[i].verifier)
                  && s.urls[u].nonce == s.exchanges[i].nonce)
            && (forall i | 0 <= i < |s.done| ::
                  && s.done[i].state in s.made && s.done[i].returnTo == s.made[s.done[i].state].returnTo
                  && env.safe(s.done[i].returnTo))
  {
    ExecInv(env, START, acts);
  }

  /** The callback has returned an error. */
  predicate GaveUp(s: System, c: nat) {
    c in s.callbacks && (s.callbacks[c].Failed? || s.callbacks[c].Stranded? || s.callbacks[c].NoFlow?)
  }

  /** The callback's session is in the store. */
  ghost predicate LeftSession(s: System, c: nat) {
    exists sid :: sid in s.sessions && sid in s.drawn && s.drawn[sid] == c
  }

  /** A callback that has returned an error has left no tokens, and has left a session exactly
      when both its token write and its deletion of the session failed.  Every stored session
      and token set belongs to the callback that drew its id, and tokens only to one that
      completed. */
  lemma FailureLeavesASessionIff(env: Env, acts: seq<Action>)
    ensures var s := Exec(env, START, acts);
            && (forall c | GaveUp(s, c) :: LeftSession(s, c) <==> c in s.tokenFails && c in s.undoFails)
            && (forall sid | sid in s.tokens :: sid in s.drawn && At(s, s.drawn[sid]).Completed?)
            && (forall sid | sid in s.sessions :: sid in s.drawn && HasSid(At(s, s.drawn[sid]), sid))
  {
    ExecInv(env, START, acts);
    var s := Exec(env, START, acts);
    forall c | GaveUp(s, c)
      ensures LeftSession(s, c) <==> c in s.tokenFails && c in s.undoFails
    {
      if s.callbacks[c].Stranded? {
        assert Keeps(s.callbacks[c]);
        assert s.callbacks[c].sid in s.sessions;
      }
    }
  }

  /** A completed callback has stored its session and its tokens, under an identifier that it drew
      and nobody else did. */
  lemma CompletionStoresBoth(env: Env, acts: seq<Action>, d: Done)
    requires d in Exec(env, START, acts).done
    ensures var s := Exec(env, START, acts);
            && d.sid in s.sessions && d.sid in s.tokens && d.sid in s.drawn && s.drawn[d.sid] == d.caller
            && At(s, d.caller).Completed?
  {
    ExecInv(env, START, acts);
    var s := Exec(env, START, acts);
    var k :| 0 <= k < |s.done| && s.done[k] == d;
    assert Achieved(s.callbacks, d);
  }

  // ---- A run that leaves a session behind ----

  lemma {:induction false} ExecThen(env: Env, s: System, acts: seq<Action>, a: Action)
    ensures Exec(env, s, acts + [a]) == Next(env, Exec(env, s, acts), a)
    decreases |acts|
  {
    if acts == [] {
      assert acts + [a] == [a] && [a][1..] == [];
    } else {
      assert (acts + [a])[1..] == acts[1..] + [a];
      ExecThen(env, Next(env, s, acts[0]), acts[1..], a);
    }
  }

  /** A flow is made up and stored, and its callback arrives. */
  lemma ReachTaking(env: Env) returns (acts: seq<Action>)
    requires env.safe("/")
    ensures var s := Exec(env, START, acts);
            At(s, 0) == Taking("state", "code") && Take(s.flows, "state", s.clock).1.Some? && s.drawn == map[]
  {
    var start, put := StartLogin(0, "", "state", "nonce", "verifier"), PutFlow(0, true);
    var callback := Callback(0, "state", "code");
    acts := [];
    ExecThen(env, START, acts, start);
    acts := acts + [start];
    ExecThen(env, START, acts, put);
    acts := acts + [put];
    ExecThen(env, START, acts, callback);
    acts := acts + [callback];
  }

  /** The callback takes the flow, and the provider accepts the exchange. */
  lemma ReachIdentified(env: Env) returns (acts: seq<Action>)
    requires env.safe("/")
    ensures At(Exec(env, START, acts), 0).Identified? && Exec(env, START, acts).drawn == map[]
  {
    acts := ReachTaking(env);
    ExecThen(env, START, acts, TakeFlow(0));
    acts := acts + [TakeFlow(0)];
    ExecThen(env, START, acts, CallExchange(0, true));
    acts := acts + [CallExchange(0, true)];
  }

  /** Such a callback whose token write and rollback fail leaves its session. */
  lemma SessionIsLeft(env: Env) returns (acts: seq<Action>)
    requires env.safe("/")
    ensures GaveUp(Exec(env, START, acts), 0) && LeftSession(Exec(env, START, acts), 0)
  {
    var open, write, undo := PutSession(0, "sid", true), PutTokens(0, false), Rollback(0, false);
    acts := ReachIdentified(env);
    ExecThen(env, START, acts, open);
    acts := acts + [open];
    ExecThen(env, START, acts, write);
    acts := acts + [write];
    ExecThen(env, START, acts, undo);
    acts := acts + [undo];
    assert "sid" in Exec(env, START, acts).sessions;
  }
}
