/** Logins traced back to the requests they come from: the code, verifier, nonce and return
    address that leave the service are those of one callback and one start of a login, and the
    time between the two is bounded.  Everything is said of the list of actions of a run. */
module LoginTrace {
  import opened Base
  import opened Login

  /** The time a run has taken. */
  function Elapsed(acts: seq<Action>): int {
    if acts == [] then 0
    else
      var past, a := acts[..|acts| - 1], acts[|acts| - 1];
      Elapsed(past) + if a.Tick? then a.elapsed else 0
  }

  /** How long a flow lasts: as configured, or five minutes. */
  function Lifetime(env: Env): int { if env.flowTtl > 0 then env.flowTtl else 300_000_000_000 }

  /** Action i started the login that this flow belongs to. */
  predicate Starts(env: Env, acts: seq<Action>, i: int, f: Flow) {
    && 0 <= i < |acts| && acts[i].StartLogin?
    && acts[i].state == f.state && acts[i].nonce == f.nonce && acts[i].verifier == f.verifier
    && f.returnTo == (if acts[i].returnTo == "" then "/" else acts[i].returnTo)
    && f.expiresAt == Elapsed(acts[..i]) + Lifetime(env)
  }

  ghost predicate Started(env: Env, acts: seq<Action>, f: Flow) { exists i :: Starts(env, acts, i, f) }

  /** A callback with this state and code came in, neither of them empty. */
  ghost predicate Arrived(acts: seq<Action>, c: nat, state: string, code: string) {
    state != "" && code != "" && Callback(c, state, code) in acts
  }

  /** Action j took the flow of a login started before, in time. */
  ghost predicate Takes(env: Env, acts: seq<Action>, j: int, c: nat, f: Flow) {
    0 <= j < |acts| && acts[j] == TakeFlow(c) && Elapsed(acts[..j]) < f.expiresAt && Started(env, acts[..j], f)
  }

  ghost predicate Took(env: Env, acts: seq<Action>, c: nat, f: Flow) { exists j :: Takes(env, acts, j, c, f) }

  ghost predicate Traced(env: Env, acts: seq<Action>, c: nat, p: Phase) {
    match p
    case Taking(state, code) => Arrived(acts, c, state, code)
    case Exchanging(f, code) => Arrived(acts, c, f.state, code) && Took(env, acts, c, f)
    case NoFlow => true
    case _ => Took(env, acts, c, p.flow)
  }

  ghost predicate History(env: Env, acts: seq<Action>, s: System) {
    && s.clock == Elapsed(acts)
    && (forall k | k in s.made :: Started(env, acts, s.made[k]))
    && (forall c | c in s.callbacks :: Traced(env, acts, c, s.callbacks[c]))
    && (forall i | 0 <= i < |s.exchanges| ::
          Arrived(acts, s.exchanges[i].caller, s.exchanges[i].state, s.exchanges[i].code))
  }

  // ---- One more action ----

  lemma StartedGrows(env: Env, acts: seq<Action>, a: Action, f: Flow)
    requires Started(env, acts, f)
    ensures Started(env, acts + [a], f)
  {
    var i :| Starts(env, acts, i, f);
    assert (acts + [a])[..i] == acts[..i];
    assert Starts(env, acts + [a], i, f);
  }

  lemma TookGrows(env: Env, acts: seq<Action>, a: Action, c: nat, f: Flow)
    requires Took(env, acts, c, f)
    ensures Took(env, acts + [a], c, f)
  {
    var j :| Takes(env, acts, j, c, f);
    assert (acts + [a])[..j] == acts[..j];
    assert Takes(env, acts + [a], j, c, f);
  }

  lemma TracedGrows(env: Env, acts: seq<Action>, a: Action, c: nat, p: Phase)
    requires Traced(env, acts, c, p)
    ensures Traced(env, acts + [a], c, p)
  {
    if !p.Taking? && !p.NoFlow? {
      TookGrows(env, acts, a, c, p.flow);
    }
  }

  /** What was traced stays so, at the later time. */
  lemma HistoryGrows(env: Env, acts: seq<Action>, a: Action, s: System)
    requires History(env, acts, s)
    ensures History(env, acts + [a], s.(clock := Elapsed(acts + [a])))
    ensures Elapsed(acts + [a]) == Elapsed(acts) + if a.Tick? then a.elapsed else 0
  {
    assert (acts + [a])[..|acts|] == acts;
    forall k | k in s.made ensures Started(env, acts + [a], s.made[k]) {
      StartedGrows(env, acts, a, s.made[k]);
    }
    forall c | c in s.callbacks ensures Traced(env, acts + [a], c, s.callbacks[c]) {
      TracedGrows(env, acts, a, c, s.callbacks[c]);
    }
  }

  lemma StartIsTraced(env: Env, acts: seq<Action>, a: Action, s: System)
    requires History(env, acts, s) && a.StartLogin?
    ensures History(env, acts + [a], NextStart(env, s, a))
  {
    HistoryGrows(env, acts, a, s);
    var all := acts + [a];
    assert all[..|acts|] == acts && all[|acts|] == a;
    assert Starts(env, all, |acts|, NewFlow(env, s, a));
  }

  /** Stored flows are flows that were made up. */
  ghost predicate Genuine(flows: Flows, made: Flows) {
    forall k | k in flows :: flows[k].state == k && IsMade(made, flows[k])
  }

  lemma StoredAreGenuine(env: Env, s: System)
    requires Inv(env, s)
    ensures Genuine(s.flows, s.made)
  {
  }

  /** The taker of a live flow of the given state. */
  lemma TakeIs(s: System, c: nat)
    requires At(s, c).Taking?
    ensures var s', p := TakeStep(s, c), s.callbacks[c];
            && s'.clock == s.clock && s'.made == s.made && s'.exchanges == s.exchanges
            && s'.callbacks == s.callbacks[c := s'.callbacks[c]]
            && (|| s'.callbacks[c] == NoFlow
                || (&& p.state in s.flows && s'.callbacks[c] == Exchanging(s.flows[p.state], p.code)
                    && s.clock < s.flows[p.state].expiresAt))
  {
  }

  lemma TakesNow(env: Env, acts: seq<Action>, c: nat, f: Flow)
    requires Started(env, acts, f) && Elapsed(acts) < f.expiresAt
    ensures Took(env, acts + [TakeFlow(c)], c, f)
  {
    var all := acts + [TakeFlow(c)];
    assert all[..|acts|] == acts;
    assert Takes(env, all, |acts|, c, f);
  }

  lemma TakeIsTraced(env: Env, acts: seq<Action>, c: nat, s: System)
    requires Genuine(s.flows, s.made) && History(env, acts, s) && At(s, c).Taking?
    ensures History(env, acts + [TakeFlow(c)], TakeStep(s, c))
  {
    HistoryGrows(env, acts, TakeFlow(c), s);
    TakeIs(s, c);
    var p := TakeStep(s, c).callbacks[c];
    if p.Exchanging? {
      TakesNow(env, acts, c, p.flow);
    }
    assert Traced(env, acts + [TakeFlow(c)], c, p);
  }

  /** The exchanges grow by none, or by that of callback c with its own code and state. */
  ghost predicate Adds(c: nat, p: Phase, old_: seq<Exchange>, new_: seq<Exchange>) {
    || new_ == old_
    || (&& p.Exchanging? && |new_| == |old_| + 1 && new_[..|old_|] == old_
        && new_[|old_|].caller == c && new_[|old_|].code == p.code && new_[|old_|].state == p.flow.state)
  }

  /** Callback c moves on with the flow it has. */
  ghost predicate MovesOn(s: System, s': System, c: nat) {
    && Owns(s.callbacks, c) && Owns(s'.callbacks, c) && s'.callbacks == s.callbacks[c := s'.callbacks[c]]
    && !s'.callbacks[c].Exchanging? && s'.callbacks[c].flow == s.callbacks[c].flow
    && s'.clock == s.clock && s'.made == s.made && Adds(c, s.callbacks[c], s.exchanges, s'.exchanges)
  }

  lemma AddsAreTraced(acts: seq<Action>, c: nat, p: Phase, old_: seq<Exchange>, new_: seq<Exchange>)
    requires Adds(c, p, old_, new_) && (p.Exchanging? ==> Arrived(acts, c, p.flow.state, p.code))
    requires forall i | 0 <= i < |old_| :: Arrived(acts, old_[i].caller, old_[i].state, old_[i].code)
    ensures forall i | 0 <= i < |new_| :: Arrived(acts, new_[i].caller, new_[i].state, new_[i].code)
  {
    assert forall i | 0 <= i < |old_| :: new_[i] == old_[i];
  }

  lemma MoveIsTraced(env: Env, acts: seq<Action>, a: Action, s: System, s': System, c: nat)
    requires History(env, acts, s) && !a.Tick? && MovesOn(s, s', c)
    ensures History(env, acts + [a], s')
  {
    HistoryGrows(env, acts, a, s);
    assert Traced(env, acts + [a], c, s.callbacks[c]);
    AddsAreTraced(acts + [a], c, s.callbacks[c], s.exchanges, s'.exchanges);
  }

  lemma ExchangeMovesOn(s: System, c: nat, accepted: bool)
    requires At(s, c).Exchanging?
    ensures MovesOn(s, ExchangeStep(s, c, accepted), c)
  {
  }

  lemma OpenMovesOn(s: System, c: nat, sid: string, ok: bool)
    requires At(s, c).Identified?
    ensures MovesOn(s, OpenStep(s, c, sid, ok), c)
  {
  }

  lemma TokensMoveOn(s: System, c: nat, ok: bool)
    requires At(s, c).Opened?
    ensures MovesOn(s, TokensStep(s, c, ok), c)
  {
  }

  lemma RollbackMovesOn(s: System, c: nat, ok: bool)
    requires At(s, c).Undoing?
    ensures MovesOn(s, RollbackStep(s, c, ok), c)
  {
  }

  lemma CallbackMovesOn(s: System, a: Action)
    requires a.CallExchange? || a.PutSession? || a.PutTokens? || a.Rollback?
    ensures NextCallback(s, a) == s || MovesOn(s, NextCallback(s, a), a.c)
  {
    match a
    case CallExchange(c, accepted) => if At(s, c).Exchanging? { ExchangeMovesOn(s, c, accepted); }
    case PutSession(c, sid, ok) => if At(s, c).Identified? && sid !in s.drawn { OpenMovesOn(s, c, sid, ok); }
    case PutTokens(c, ok) => if At(s, c).Opened? { TokensMoveOn(s, c, ok); }
    case Rollback(c, ok) => if At(s, c).Undoing? { RollbackMovesOn(s, c, ok); }
  }

  lemma CallbackIsTraced(env: Env, acts: seq<Action>, a: Action, s: System)
    requires History(env, acts, s)
    requires a.CallExchange? || a.PutSession? || a.PutTokens? || a.Rollback?
    ensures History(env, acts + [a], NextCallback(s, a))
  {
    var s' := NextCallback(s, a);
    CallbackMovesOn(s, a);
    if s' == s {
      HistoryGrows(env, acts, a, s);
    } else {
      MoveIsTraced(env, acts, a, s, s', a.c);
    }
  }

  /** A callback begins. */
  lemma ArrivalIs(s: System, a: Action)
    requires a.Callback?
    ensures var s' := NextCallback(s, a);
            && s'.clock == s.clock && s'.made == s.made && s'.exchanges == s.exchanges
            && (|| s'.callbacks == s.callbacks || s'.callbacks == s.callbacks[a.c := NoFlow]
                || (s'.callbacks == s.callbacks[a.c := Taking(a.state, a.code)] && a.state != "" && a.code != ""))
  {
  }

  lemma ArrivalIsTraced(env: Env, acts: seq<Action>, a: Action, s: System)
    requires History(env, acts, s) && a.Callback?
    ensures History(env, acts + [a], NextCallback(s, a))
  {
    HistoryGrows(env, acts, a, s);
    ArrivalIs(s, a);
    assert a == Callback(a.c, a.state, a.code) && a in acts + [a];
  }

  /** Steps that concern nothing that is traced. */
  lemma OtherIs(env: Env, s: System, a: Action)
    requires a.Tick? || a.PutFlow? || a.Publish? || (a.TakeFlow? && !At(s, a.c).Taking?)
    ensures var s' := Next(env, s, a);
            && s'.callbacks == s.callbacks && s'.made == s.made && s'.exchanges == s.exchanges
            && s'.clock == s.clock + if a.Tick? then a.elapsed else 0
  {
  }

  lemma OtherIsTraced(env: Env, acts: seq<Action>, a: Action, s: System)
    requires History(env, acts, s)
    requires a.Tick? || a.PutFlow? || a.Publish? || (a.TakeFlow? && !At(s, a.c).Taking?)
    ensures History(env, acts + [a], Next(env, s, a))
  {
    HistoryGrows(env, acts, a, s);
    OtherIs(env, s, a);
  }

  lemma StepIsTraced(env: Env, acts: seq<Action>, a: Action, s: System)
    requires Genuine(s.flows, s.made) && History(env, acts, s)
    ensures History(env, acts + [a], Next(env, s, a))
  {
    if a.StartLogin? {
      StartIsTraced(env, acts, a, s);
    } else if a.Callback? {
      ArrivalIsTraced(env, acts, a, s);
    } else if a.TakeFlow? && At(s, a.c).Taking? {
      TakeIsTraced(env, acts, a.c, s);
    } else if a.CallExchange? || a.PutSession? || a.PutTokens? || a.Rollback? {
      CallbackIsTraced(env, acts, a, s);
    } else {
      OtherIsTraced(env, acts, a, s);
    }
  }

  lemma {:induction false} RunIsTraced(env: Env, acts: seq<Action>)
    ensures Inv(env, Exec(env, START, acts)) && History(env, acts, Exec(env, START, acts))
  {
    ExecInv(env, START, acts);
    if acts == [] {
    } else {
      var past, a := acts[..|acts| - 1], acts[|acts| - 1];
      assert acts == past + [a];
      RunIsTraced(env, past);
      StoredAreGenuine(env, Exec(env, START, past));
      ExecThen(env, START, past, a);
      StepIsTraced(env, past, a, Exec(env, START, past));
    }
  }

  // ---- What that says ----

  /** An action that drew this state, with this verifier and nonce. */
  predicate Drew(a: Action, state: string, verifier: string, nonce: string) {
    a.StartLogin? && a.state == state && a.verifier == verifier && a.nonce == nonce
  }

  /** Every exchange presents the code and state that came with its own callback, and the verifier
      and nonce that a start of a login drew with that state. */
  lemma ExchangesAreTheCallbacks(env: Env, acts: seq<Action>, e: Exchange)
    requires e in Exec(env, START, acts).exchanges
    ensures Callback(e.caller, e.state, e.code) in acts && e.state != "" && e.code != ""
    ensures exists i :: 0 <= i < |acts| && Drew(acts[i], e.state, e.verifier, e.nonce)
  {
    RunIsTraced(env, acts);
    var s := Exec(env, START, acts);
    var k :| 0 <= k < |s.exchanges| && s.exchanges[k] == e;
    assert Presented(s.callbacks, e);
    var f := s.made[e.state];
    var i :| Starts(env, acts, i, f);
    assert Drew(acts[i], e.state, e.verifier, e.nonce);
  }

  /** Action i started the login and action j took its flow, in time. */
  predicate InTime(env: Env, acts: seq<Action>, i: int, j: int, caller: nat, state: string, returnTo: string) {
    && 0 <= i < j < |acts|
    && acts[i].StartLogin? && acts[i].state == state
    && returnTo == (if acts[i].returnTo == "" then "/" else acts[i].returnTo)
    && acts[j] == TakeFlow(caller)
    && Elapsed(acts[..j]) < Elapsed(acts[..i]) + (if env.flowTtl > 0 then env.flowTtl else 300_000_000_000)
  }

  lemma CompletedTook(env: Env, acts: seq<Action>, d: Done) returns (f: Flow)
    requires d in Exec(env, START, acts).done
    ensures Took(env, acts, d.caller, f) && f.state == d.state && f.returnTo == d.returnTo
  {
    RunIsTraced(env, acts);
    var s := Exec(env, START, acts);
    var k :| 0 <= k < |s.done| && s.done[k] == d;
    assert Achieved(s.callbacks, d);
    f := s.callbacks[d.caller].flow;
    assert Traced(env, acts, d.caller, s.callbacks[d.caller]);
  }

  /** A completed callback returns to the address its login was started with, or to "/" when that
      was empty; and it took the flow within its lifetime, five minutes unless configured. */
  lemma CompletedInTime(env: Env, acts: seq<Action>, d: Done)
    requires d in Exec(env, START, acts).done
    ensures exists i, j :: InTime(env, acts, i, j, d.caller, d.state, d.returnTo)
  {
    var f := CompletedTook(env, acts, d);
    var j :| Takes(env, acts, j, d.caller, f);
    var i :| Starts(env, acts[..j], i, f);
    assert acts[..j][..i] == acts[..i];
    assert InTime(env, acts, i, j, d.caller, d.state, d.returnTo);
  }

  /** A callback whose flow is stored gets it, and goes on to the exchange, exactly when the flow's
      lifetime is not over; either way the flow is gone. */
  lemma FlowIsTakenIff(env: Env, acts: seq<Action>, c: nat) returns (i: nat)
    requires var s := Exec(env, START, acts); At(s, c).Taking? && s.callbacks[c].state in s.flows
    ensures i < |acts| && acts[i].StartLogin? && acts[i].state == Exec(env, START, acts).callbacks[c].state
    ensures var s := Exec(env, START, acts);
            var s' := Next(env, s, TakeFlow(c));
            && s.callbacks[c].state !in s'.flows && (At(s', c).Exchanging? || At(s', c).NoFlow?)
            && (At(s', c).Exchanging?
                <==> Elapsed(acts) < Elapsed(acts[..i]) + (if env.flowTtl > 0 then env.flowTtl else 300_000_000_000))
  {
    var s := Exec(env, START, acts);
    i := StoredWasStarted(env, acts, s.callbacks[c].state);
  }

  lemma StoredWasStarted(env: Env, acts: seq<Action>, state: string) returns (i: nat)
    requires state in Exec(env, START, acts).flows
    ensures Exec(env, START, acts).clock == Elapsed(acts)
    ensures Starts(env, acts, i, Exec(env, START, acts).flows[state]) && acts[i].state == state
  {
    RunIsTraced(env, acts);
    var s := Exec(env, START, acts);
    StoredAreGenuine(env, s);
    i :| Starts(env, acts, i, s.made[state]);
  }

  // ---- What is published ----

  /** Start c made up this flow and stored it. */
  ghost predicate StoredBy(env: Env, acts: seq<Action>, c: nat, f: Flow) {
    PutFlow(c, true) in acts && Started(env, acts, f)
  }

  /** The URL is that of a flow which a start stored, and the provider made it. */
  ghost predicate UrlFrom(env: Env, acts: seq<Action>, u: Url, c: nat, f: Flow) {
    && StoredBy(env, acts, c, f) && Publish(c, true) in acts
    && u.state == f.state && u.nonce == f.nonce && u.challenge == env.challenge(f.verifier)
  }

  ghost predicate HasSource(env: Env, acts: seq<Action>, u: Url) { exists c, f :: UrlFrom(env, acts, u, c, f) }

  ghost predicate StartsTraced(env: Env, acts: seq<Action>, starts: Starters, urls: seq<Url>) {
    && (forall c | c in starts && starts[c].Prepared? :: Started(env, acts, starts[c].flow))
    && (forall c | c in starts && starts[c].Stored? :: StoredBy(env, acts, c, starts[c].flow))
    && (forall i | 0 <= i < |urls| :: HasSource(env, acts, urls[i]))
  }

  lemma UrlGrows(env: Env, acts: seq<Action>, a: Action, u: Url)
    requires HasSource(env, acts, u)
    ensures HasSource(env, acts + [a], u)
  {
    var c, f :| UrlFrom(env, acts, u, c, f);
    StartedGrows(env, acts, a, f);
    assert UrlFrom(env, acts + [a], u, c, f);
  }

  lemma StartsGrow(env: Env, acts: seq<Action>, a: Action, starts: Starters, urls: seq<Url>)
    requires StartsTraced(env, acts, starts, urls)
    ensures StartsTraced(env, acts + [a], starts, urls)
  {
    forall c | c in starts && starts[c].Prepared? ensures Started(env, acts + [a], starts[c].flow) {
      StartedGrows(env, acts, a, starts[c].flow);
    }
    forall c | c in starts && starts[c].Stored? ensures StoredBy(env, acts + [a], c, starts[c].flow) {
      StartedGrows(env, acts, a, starts[c].flow);
    }
    forall i | 0 <= i < |urls| ensures HasSource(env, acts + [a], urls[i]) {
      UrlGrows(env, acts, a, urls[i]);
    }
  }

  lemma StartLoginKeeps(env: Env, acts: seq<Action>, a: Action, s: System)
    requires s.clock == Elapsed(acts) && StartsTraced(env, acts, s.starts, s.urls) && a.StartLogin?
    ensures var s' := NextStart(env, s, a); StartsTraced(env, acts + [a], s'.starts, s'.urls)
  {
    StartsGrow(env, acts, a, s.starts, s.urls);
    var all := acts + [a];
    assert all[..|acts|] == acts && all[|acts|] == a;
    assert Starts(env, all, |acts|, NewFlow(env, s, a));
  }

  lemma PutFlowKeeps(env: Env, acts: seq<Action>, a: Action, s: System)
    requires StartsTraced(env, acts, s.starts, s.urls) && a.PutFlow?
    ensures var s' := NextStart(env, s, a); StartsTraced(env, acts + [a], s'.starts, s'.urls)
  {
    StartsGrow(env, acts, a, s.starts, s.urls);
    assert a == PutFlow(a.c, a.ok) && a in acts + [a];
  }

  lemma PublishKeeps(env: Env, acts: seq<Action>, a: Action, s: System)
    requires StartsTraced(env, acts, s.starts, s.urls) && a.Publish?
    ensures var s' := NextStart(env, s, a); StartsTraced(env, acts + [a], s'.starts, s'.urls)
  {
    StartsGrow(env, acts, a, s.starts, s.urls);
    if a.c in s.starts && s.starts[a.c].Stored? && a.ok {
      var f, urls := s.starts[a.c].flow, NextStart(env, s, a).urls;
      assert a == Publish(a.c, true) && a in acts + [a];
      assert UrlFrom(env, acts + [a], UrlOf(env, f), a.c, f);
      assert urls == s.urls + [UrlOf(env, f)];
    }
  }

  lemma NextKeepsStarts(env: Env, acts: seq<Action>, a: Action, s: System)
    requires s.clock == Elapsed(acts) && StartsTraced(env, acts, s.starts, s.urls)
    ensures var s' := Next(env, s, a); StartsTraced(env, acts + [a], s'.starts, s'.urls)
  {
    if a.StartLogin? {
      StartLoginKeeps(env, acts, a, s);
    } else if a.PutFlow? {
      PutFlowKeeps(env, acts, a, s);
    } else if a.Publish? {
      PublishKeeps(env, acts, a, s);
    } else {
      CallbackLeavesStarts(env, s, a);
      StartsGrow(env, acts, a, s.starts, s.urls);
    }
  }

  lemma CallbackLeavesStarts(env: Env, s: System, a: Action)
    requires !a.StartLogin? && !a.PutFlow? && !a.Publish?
    ensures Next(env, s, a).starts == s.starts && Next(env, s, a).urls == s.urls
  {
  }

  lemma {:induction false} StartsAreTraced(env: Env, acts: seq<Action>)
    ensures var s := Exec(env, START, acts); StartsTraced(env, acts, s.starts, s.urls)
  {
    if acts == [] {
    } else {
      var past, a := acts[..|acts| - 1], acts[|acts| - 1];
      assert acts == past + [a];
      StartsAreTraced(env, past);
      RunIsTraced(env, past);
      ExecThen(env, START, past, a);
      NextKeepsStarts(env, past, a, Exec(env, START, past));
    }
  }

  /** Every published URL carries the state and nonce that a start of a login drew, and the
      challenge of the verifier it drew with them; its flow was stored before. */
  lemma UrlsAreTheStarts(env: Env, acts: seq<Action>, u: Url) returns (i: nat, c: nat)
    requires u in Exec(env, START, acts).urls
    ensures i < |acts| && acts[i].StartLogin? && acts[i].state == u.state && acts[i].nonce == u.nonce
    ensures u.challenge == env.challenge(acts[i].verifier)
    ensures PutFlow(c, true) in acts && Publish(c, true) in acts
  {
    StartsAreTraced(env, acts);
    var s := Exec(env, START, acts);
    var k :| 0 <= k < |s.urls| && s.urls[k] == u;
    assert HasSource(env, acts, u);
    var d, f :| UrlFrom(env, acts, u, d, f);
    i :| Starts(env, acts, i, f);
    c := d;
  }

  /** And a stored flow whose URL the provider makes is published. */
  lemma StoredIsPublished(env: Env, acts: seq<Action>, c: nat, ok: bool)
    requires var s := Exec(env, START, acts); c in s.starts && s.starts[c].Stored?
    ensures var s := Exec(env, START, acts);
            var f := s.starts[c].flow;
            Exec(env, START, acts + [Publish(c, ok)]).urls
            == if ok then s.urls + [Url(f.state, f.nonce, env.challenge(f.verifier))] else s.urls
  {
    ExecThen(env, START, acts, Publish(c, ok));
  }
}
