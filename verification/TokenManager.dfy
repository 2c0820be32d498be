/** `StoreManager.AccessToken` as the source runs it, over mutable stores and the in-process
    lock, when nothing interrupts it and any of its store operations may fail.  `SoloIsARun`
    places such a call in the step relation of module Refresh, so that everything proved there
    of all interleavings holds of it. */
module TokenManager {
  import opened Base
  import opened Sessions
  import opened Refresh

  /** internal/token/memory.go. */
  class TokenStore {
    var data: map<string, Entry>

    constructor ()
      ensures data == map[]
    {
      data := map[];
    }

    method Get(sid: string, now: Moment) returns (r: Option<TokenSet>)
      modifies this
      ensures r == Stored(old(data), sid, now)
      ensures data == if r.Some? then old(data) else old(data) - {sid}
    {
      if sid !in data || (data[sid].expiresAt != 0 && data[sid].expiresAt <= now) {
        Delete(sid);
        return None;
      }
      return Some(data[sid].tokens);
    }

    method Put(sid: string, tokens: TokenSet, expiresAt: int)
      modifies this
      ensures data == old(data)[sid := Entry(tokens, expiresAt)]
    {
      data := data[sid := Entry(tokens, expiresAt)];
    }

    method Delete(sid: string)
      modifies this
      ensures data == old(data) - {sid}
    {
      data := data - {sid};
    }
  }

  // ---- What one undisturbed call does ----

  /** Which of its operations on the stores fail.  One that fails changes nothing. */
  datatype Faults = Faults(
    reading: bool, rereading: bool, asking: bool, touching: bool, saving: bool, droppingTokens: bool,
    droppingSession: bool)

  datatype Outcome = Outcome(tokens: map<string, Entry>, sessions: Store, result: Refresh.Result)

  /** `invalidate` ignores what fails. */
  function Dropped(tokens: map<string, Entry>, sessions: Store, sid: string, f: Faults): Outcome {
    Outcome(if f.droppingTokens then tokens else tokens - {sid},
            if f.droppingSession then sessions else sessions - {sid}, NoToken)
  }

  /** With a set to store: the session is asked for its end. */
  function Stores(cfg: Setup, tokens: map<string, Entry>, sessions: Store, sid: string, m: TokenSet, now: Moment,
                  f: Faults): Outcome {
    if f.asking then Dropped(tokens, sessions, sid, f)
    else if sid !in sessions || Dead(cfg.limits, sessions[sid], now) then Dropped(tokens, sessions - {sid}, sid, f)
    else if f.touching && TouchDue(cfg.limits, sessions[sid], now) then Dropped(tokens, sessions, sid, f)
    else
      var touched := sessions[sid := Touched(cfg.limits, sessions[sid], now)];
      if f.saving then Outcome(tokens, touched, NoToken)
      else Outcome(tokens[sid := Entry(m, sessions[sid].expiresAt)], touched, Token(m.access, m, now))
  }

  /** From the answer of the provider to the release of the lock. */
  function Renewed(cfg: Setup, tokens: map<string, Entry>, sessions: Store, sid: string, t: TokenSet, now: Moment,
                   reply: Reply, f: Faults): Outcome {
    if !reply.Granted? || !Usable(reply.tokens, now) then Dropped(tokens, sessions, sid, f)
    else Stores(cfg, tokens, sessions, sid, Merge(t, reply.tokens), now, f)
  }

  /** From the second look at the store on: the set may have changed while the caller waited. */
  function UnderLock(cfg: Setup, tokens: map<string, Entry>, sessions: Store, sid: string, now: Moment, reply: Reply,
                     f: Faults): Outcome {
    var found := Stored(tokens, sid, now);
    if f.rereading then Outcome(tokens, sessions, NoToken)
    else if found.None? then Outcome(tokens - {sid}, sessions, NoToken)
    else if !NeedsRefresh(cfg, found.value, now) then
      Outcome(tokens, sessions, Token(found.value.access, found.value, now))
    else if found.value.refresh == "" then Outcome(tokens, sessions, NoToken)
    else Renewed(cfg, tokens, sessions, sid, found.value, now, reply, f)
  }

  /** `free` says whether the lock of the session is; if it is not, the caller's context ends
      while it waits. */
  function Solo(cfg: Setup, tokens: map<string, Entry>, sessions: Store, sid: string, now: Moment, reply: Reply,
                free: bool, f: Faults): Outcome {
    var found := Stored(tokens, sid, now);
    if f.reading then Outcome(tokens, sessions, NoToken)
    else if found.None? then Outcome(tokens - {sid}, sessions, NoToken)
    else
      var t := found.value;
      if t.access == "" then Outcome(tokens, sessions, NoToken)
      else if !NeedsRefresh(cfg, t, now) then Outcome(tokens, sessions, Token(t.access, t, now))
      else if t.refresh == "" || !free then Outcome(tokens, sessions, NoToken)
      else UnderLock(cfg, tokens, sessions, sid, now, reply, f)
  }

  /** The call gets as far as the lock. */
  predicate AsksForLock(cfg: Setup, tokens: map<string, Entry>, sid: string, now: Moment, f: Faults) {
    var found := Stored(tokens, sid, now);
    && !f.reading && found.Some? && found.value.access != "" && NeedsRefresh(cfg, found.value, now)
    && found.value.refresh != ""
  }

  class StoreManager {
    const cfg: Setup
    const store: TokenStore
    const sessions: LifecycleStore
    const locker: MemoryLocker

    constructor (cfg: Setup, store: TokenStore, sessions: LifecycleStore, locker: MemoryLocker)
      ensures this.cfg == cfg && this.store == store && this.sessions == sessions && this.locker == locker
    {
      this.cfg, this.store, this.sessions, this.locker := cfg, store, sessions, locker;
    }

    method Invalidate(sid: string, f: Faults)
      requires sessions.Keyed()
      modifies store, sessions.next
      ensures sessions.Keyed()
      ensures Outcome(store.data, sessions.next.data, NoToken)
              == Dropped(old(store.data), old(sessions.next.data), sid, f)
    {
      if !f.droppingTokens {
        store.Delete(sid);
      }
      if !f.droppingSession {
        sessions.Delete(sid);
      }
    }

    /** `needsRefresh`. */
    method IsDue(set_: TokenSet, now: Moment) returns (due: bool)
      ensures due <==> NeedsRefresh(cfg, set_, now)
    {
      if set_.expiry <= 0 {
        return false;
      }
      var before := cfg.refreshBefore;
      if before <= 0 {
        before := 30 * SECOND;
      }
      return !(set_.expiry * SECOND > now + before);
    }

    method SessionExpiry(sid: string, now: Moment, f: Faults) returns (expiresAt: Option<int>)
      requires sessions.Keyed() && sessions.limits == cfg.limits
      modifies sessions.next
      ensures sessions.Keyed()
      ensures f.asking ==> expiresAt.None? && sessions.next.data == old(sessions.next.data)
      ensures !f.asking ==>
                var (data, v) := Tried(cfg.limits, old(sessions.next.data), sid, now, f.touching);
                sessions.next.data == data && expiresAt == if v.Some? then Some(v.value.expiresAt) else None
    {
      if f.asking {
        return None;
      }
      var session := sessions.Get(sid, now, f.touching);
      return if session.Some? then Some(session.value.expiresAt) else None;
    }

    /** The part under the lock, whatever it finds there.  `reply` is what the provider answers if it is called. */
    method Renew(sid: string, now: Moment, reply: Reply, f: Faults) returns (r: Refresh.Result)
      requires sessions.Keyed() && sessions.limits == cfg.limits
      modifies store, sessions.next
      ensures sessions.Keyed()
      ensures Outcome(store.data, sessions.next.data, r)
              == UnderLock(cfg, old(store.data), old(sessions.next.data), sid, now, reply, f)
    {
      if f.rereading {
        return NoToken;
      }
      var found := store.Get(sid, now);
      if found.None? {
        return NoToken;
      }
      var current := found.value;
      var due := IsDue(current, now);
      if !due {
        return Token(current.access, current, now);
      }
      if current.refresh == "" {
        return NoToken;
      }
      if !reply.Granted? || reply.tokens.access == "" || reply.tokens.expiry <= now / SECOND {
        Invalidate(sid, f);
        return NoToken;
      }
      var merged := Merge(current, reply.tokens);
      var expiresAt := SessionExpiry(sid, now, f);
      if expiresAt.None? {
        Invalidate(sid, f);
        return NoToken;
      }
      if f.saving {
        return NoToken;
      }
      store.Put(sid, merged, expiresAt.value);
      return Token(merged.access, merged, now);
    }

    /** Nothing else moves: if somebody holds the lock of the session, the call waits until its
        context ends. */
    method AccessToken(sid: string, now: Moment, reply: Reply, f: Faults) returns (r: Refresh.Result)
      requires sessions.Keyed() && sessions.limits == cfg.limits
      modifies store, sessions.next, locker
      ensures sessions.Keyed()
      ensures Outcome(store.data, sessions.next.data, r)
              == Solo(cfg, old(store.data), old(sessions.next.data), sid, now, reply,
                      sid !in old(locker.locks) || old(locker.locks)[sid] > 0, f)
      ensures locker.locks == if AsksForLock(cfg, old(store.data), sid, now, f) then
                                WithSemaphore(old(locker.locks), sid)
                              else old(locker.locks)
    {
      if f.reading {
        return NoToken;
      }
      var found := store.Get(sid, now);
      if found.None? {
        return NoToken;
      }
      var current := found.value;
      if current.access == "" {
        return NoToken;
      }
      var due := IsDue(current, now);
      if !due {
        return Token(current.access, current, now);
      }
      if current.refresh == "" {
        return NoToken;
      }
      locker.Ensure(sid);
      var ready := locker.Receive(sid);
      if !ready {
        return NoToken;
      }
      r := Renew(sid, now, reply, f);
      locker.Unlock(sid);
    }
  }

  // ---- Such a call is a run of the step relation ----

  function Changed(base: State, e: Effect): State {
    base.(tokens := Updated(base.tokens, e.pc.sid, e.onTokens),
          sessions := Updated(base.sessions, e.pc.sid, e.onSession),
          log := Grown(base.log, e.event))
  }

  /** One more step of caller d. */
  lemma ActsOnce(cfg: Setup, base: State, d: nat, pc: Pc, fails: bool, reply: Reply, e: Effect)
    requires Acts(pc) && !Looks(pc) && e == EffectOf(cfg, base, pc, fails, reply)
    ensures Next(cfg, To(base, d, pc), Go(d, fails, reply)) == To(Changed(base, e), d, e.pc)
  {
    assert base.pcs[d := pc][d := e.pc] == base.pcs[d := e.pc];
  }

  lemma Acting(cfg: Setup, s: State, base: State, d: nat, pc: Pc, fails: bool, reply: Reply, e: Effect)
    requires Acts(pc) && !Looks(pc) && Reaches(cfg, s, To(base, d, pc)) && e == EffectOf(cfg, base, pc, fails, reply)
    ensures Reaches(cfg, s, To(Changed(base, e), d, e.pc))
  {
    ActsOnce(cfg, base, d, pc, fails, reply, e);
    Onward(cfg, s, To(base, d, pc), Go(d, fails, reply));
  }

  /** The state a call ends its locked part in, the log aside. */
  ghost predicate Settles(base: State, base': State, out: Outcome) {
    base' == base.(tokens := out.tokens, sessions := out.sessions, log := base'.log)
  }

  /** And the caller is about to unlock. */
  ghost predicate Concludes(cfg: Setup, s: State, base: State, base': State, d: nat, sid: string, out: Outcome) {
    Settles(base, base', out) && Reaches(cfg, s, To(base', d, Unlocking(sid, out.result)))
  }

  lemma DropsTokens(cfg: Setup, s: State, base: State, d: nat, sid: string, f: Faults) returns (base': State)
    requires Reaches(cfg, s, To(base, d, DroppingTokens(sid)))
    ensures base' == base.(tokens := Dropped(base.tokens, base.sessions, sid, f).tokens, log := base'.log)
    ensures Reaches(cfg, s, To(base', d, DroppingSession(sid)))
  {
    var e := EffectOf(cfg, base, DroppingTokens(sid), f.droppingTokens, Refused);
    Acting(cfg, s, base, d, DroppingTokens(sid), f.droppingTokens, Refused, e);
    base' := Changed(base, e);
  }

  lemma Drops(cfg: Setup, s: State, base: State, d: nat, sid: string, f: Faults) returns (base': State)
    requires Reaches(cfg, s, To(base, d, DroppingTokens(sid)))
    ensures Concludes(cfg, s, base, base', d, sid, Dropped(base.tokens, base.sessions, sid, f))
  {
    var part := DropsTokens(cfg, s, base, d, sid, f);
    var e := EffectOf(cfg, part, DroppingSession(sid), f.droppingSession, Refused);
    Acting(cfg, s, part, d, DroppingSession(sid), f.droppingSession, Refused, e);
    base' := Changed(part, e);
  }

  /** A live session is touched when due, and either way stored as `Touched` says. */
  lemma Touches(cfg: Setup, s: State, base: State, d: nat, sid: string, t: TokenSet)
    requires Reaches(cfg, s, To(base, d, AskingSession(sid, t, base.clock)))
    requires sid in base.sessions && !Dead(cfg.limits, base.sessions[sid], base.clock)
    ensures var v := Touched(cfg.limits, base.sessions[sid], base.clock);
            Reaches(cfg, s, To(base.(sessions := base.sessions[sid := v]), d, Saving(sid, t, base.clock, v.expiresAt)))
  {
    var v := Touched(cfg.limits, base.sessions[sid], base.clock);
    OnwardLooking(cfg, s, base, d, AskingSession(sid, t, base.clock), false);
    if TouchDue(cfg.limits, base.sessions[sid], base.clock) {
      Acting(cfg, s, base, d, Touching(sid, t, base.clock, v), false, Refused,
             Effect(Saving(sid, t, base.clock, v.expiresAt), Leave, Put(v), None));
    } else {
      assert base.sessions[sid := v] == base.sessions;
    }
  }

  lemma FailsToTouch(cfg: Setup, s: State, base: State, d: nat, sid: string, t: TokenSet)
    requires Reaches(cfg, s, To(base, d, AskingSession(sid, t, base.clock)))
    requires sid in base.sessions && !Dead(cfg.limits, base.sessions[sid], base.clock)
    requires TouchDue(cfg.limits, base.sessions[sid], base.clock)
    ensures Reaches(cfg, s, To(base, d, DroppingTokens(sid)))
  {
    var v := Touched(cfg.limits, base.sessions[sid], base.clock);
    OnwardLooking(cfg, s, base, d, AskingSession(sid, t, base.clock), false);
    Acting(cfg, s, base, d, Touching(sid, t, base.clock, v), true, Refused,
           Effect(DroppingTokens(sid), Leave, Leave, None));
  }

  lemma Saves(cfg: Setup, s: State, base: State, d: nat, sid: string, t: TokenSet, expiresAt: int, f: Faults)
    returns (base': State)
    requires Reaches(cfg, s, To(base, d, Saving(sid, t, base.clock, expiresAt)))
    ensures Concludes(cfg, s, base, base', d, sid,
                      if f.saving then Outcome(base.tokens, base.sessions, NoToken)
                      else Outcome(base.tokens[sid := Entry(t, expiresAt)], base.sessions,
                                   Token(t.access, t, base.clock)))
  {
    var e := EffectOf(cfg, base, Saving(sid, t, base.clock, expiresAt), f.saving, Refused);
    Acting(cfg, s, base, d, Saving(sid, t, base.clock, expiresAt), f.saving, Refused, e);
    base' := Changed(base, e);
  }

  lemma Keeps(cfg: Setup, s: State, base: State, d: nat, sid: string, m: TokenSet, f: Faults) returns (base': State)
    requires Reaches(cfg, s, To(base, d, AskingSession(sid, m, base.clock))) && !f.asking
    requires sid in base.sessions && !Dead(cfg.limits, base.sessions[sid], base.clock)
    requires !(f.touching && TouchDue(cfg.limits, base.sessions[sid], base.clock))
    ensures Concludes(cfg, s, base, base', d, sid, Stores(cfg, base.tokens, base.sessions, sid, m, base.clock, f))
  {
    var v := Touched(cfg.limits, base.sessions[sid], base.clock);
    Touches(cfg, s, base, d, sid, m);
    base' := Saves(cfg, s, base.(sessions := base.sessions[sid := v]), d, sid, m, v.expiresAt, f);
  }

  /** A dead session is deleted when it is asked for. */
  lemma FindsDead(cfg: Setup, s: State, base: State, d: nat, sid: string, m: TokenSet) returns (base': State)
    requires Reaches(cfg, s, To(base, d, AskingSession(sid, m, base.clock)))
    ensures base' == base.(sessions := base.sessions - {sid}) && Reaches(cfg, s, To(base', d, DroppingTokens(sid)))
  {
    Onward(cfg, s, To(base, d, AskingSession(sid, m, base.clock)), ForgetSession(sid));
    base' := base.(sessions := base.sessions - {sid});
    OnwardLooking(cfg, s, base', d, AskingSession(sid, m, base.clock), false);
  }

  lemma AsksSession(cfg: Setup, s: State, base: State, d: nat, sid: string, m: TokenSet, f: Faults)
    returns (base': State)
    requires Reaches(cfg, s, To(base, d, AskingSession(sid, m, base.clock)))
    ensures Concludes(cfg, s, base, base', d, sid, Stores(cfg, base.tokens, base.sessions, sid, m, base.clock, f))
  {
    if f.asking {
      OnwardLooking(cfg, s, base, d, AskingSession(sid, m, base.clock), true);
      base' := Drops(cfg, s, base, d, sid, f);
    } else if sid !in base.sessions || Dead(cfg.limits, base.sessions[sid], base.clock) {
      var forgotten := FindsDead(cfg, s, base, d, sid, m);
      base' := Drops(cfg, s, forgotten, d, sid, f);
    } else if f.touching && TouchDue(cfg.limits, base.sessions[sid], base.clock) {
      FailsToTouch(cfg, s, base, d, sid, m);
      base' := Drops(cfg, s, base, d, sid, f);
    } else {
      base' := Keeps(cfg, s, base, d, sid, m, f);
    }
  }

  lemma Judges(cfg: Setup, s: State, base: State, d: nat, sid: string, t: TokenSet, reply: Reply, f: Faults)
    returns (base': State)
    requires Reaches(cfg, s, To(base, d, Judging(sid, t, reply)))
    ensures Concludes(cfg, s, base, base', d, sid,
                      Renewed(cfg, base.tokens, base.sessions, sid, t, base.clock, reply, f))
  {
    OnwardLooking(cfg, s, base, d, Judging(sid, t, reply), false);
    if reply.Granted? && Usable(reply.tokens, base.clock) {
      base' := AsksSession(cfg, s, base, d, sid, Merge(t, reply.tokens), f);
    } else {
      base' := Drops(cfg, s, base, d, sid, f);
    }
  }

  lemma CallsAndJudges(cfg: Setup, s: State, base: State, d: nat, sid: string, t: TokenSet, reply: Reply, f: Faults)
    returns (base': State)
    requires Reaches(cfg, s, To(base, d, Calling(sid, t)))
    ensures Concludes(cfg, s, base, base', d, sid,
                      Renewed(cfg, base.tokens, base.sessions, sid, t, base.clock, reply, f))
  {
    var e := Effect(Judging(sid, t, reply), Leave, Leave, Some(Called(sid, t, base.clock, reply)));
    Acting(cfg, s, base, d, Calling(sid, t), false, reply, e);
    base' := Judges(cfg, s, Changed(base, e), d, sid, t, reply, f);
  }

  /** From the lock to its release. */
  lemma Refreshes(cfg: Setup, s: State, d: nat, sid: string, reply: Reply, f: Faults) returns (base': State)
    requires WillRefresh(cfg, s, sid) && d !in s.pcs && (sid in s.locks ==> s.locks[sid] == 1)
    ensures Concludes(cfg, s, Locked(s, d, sid), base', d, sid,
                      UnderLock(cfg, s.tokens, s.sessions, sid, s.clock, reply, f))
  {
    var t, base := s.tokens[sid].tokens, Locked(s, d, sid);
    ReachQueue(cfg, s, d, sid);
    ReachLock(cfg, s, d, sid);
    OnwardLooking(cfg, s, base, d, Rereading(sid), f.rereading);
    if f.rereading {
      base' := base;
    } else {
      OnwardLooking(cfg, s, base, d, Redeciding(sid, t), false);
      base' := CallsAndJudges(cfg, s, base, d, sid, t, reply, f);
    }
  }

  /** What the call of one caller leaves behind, when only that caller moves. */
  ghost predicate LeavesBehind(cfg: Setup, s: State, s': State, d: nat, sid: string, f: Faults, out: Outcome) {
    && s'.tokens == out.tokens && s'.sessions == out.sessions && s'.clock == s.clock && s'.logins == s.logins
    && s'.pcs == s.pcs[d := Returned(sid, out.result)]
    && s'.locks == (if AsksForLock(cfg, s.tokens, sid, s.clock, f) then WithSemaphore(s.locks, sid) else s.locks)
    && s'.owner == s.owner
  }

  lemma ReleasesOnce(cfg: Setup, s: State, base: State, d: nat, sid: string, f: Faults, out: Outcome)
    requires Settles(Locked(s, d, sid), base, out) && (sid in s.locks ==> s.locks[sid] == 1) && sid !in s.owner
    requires AsksForLock(cfg, s.tokens, sid, s.clock, f)
    ensures LeavesBehind(cfg, s, Unlock(To(base, d, Unlocking(sid, out.result)), d), d, sid, f, out)
  {
    var s' := Unlock(To(base, d, Unlocking(sid, out.result)), d);
    assert s'.locks == WithSemaphore(s.locks, sid);
    assert s'.owner == s.owner;
    assert s'.pcs == s.pcs[d := Returned(sid, out.result)];
  }

  lemma Releases(cfg: Setup, s: State, base: State, d: nat, sid: string, r: Refresh.Result)
    requires Reaches(cfg, s, To(base, d, Unlocking(sid, r)))
    ensures Reaches(cfg, s, Unlock(To(base, d, Unlocking(sid, r)), d))
  {
    Onward(cfg, s, To(base, d, Unlocking(sid, r)), Go(d, false, Refused));
  }

  /** A caller that cannot read the store changes nothing. */
  lemma FailsToRead(cfg: Setup, s: State, d: nat, sid: string) returns (s': State)
    requires d !in s.pcs
    ensures Reaches(cfg, s, s') && s' == To(s, d, Returned(sid, NoToken))
  {
    Stay(cfg, s);
    Onward(cfg, s, s, Request(d, sid));
    OnwardLooking(cfg, s, s, d, Reading(sid), true);
    s' := To(s, d, Returned(sid, NoToken));
  }

  /** A caller that does not refresh only reads. */
  lemma Answers(cfg: Setup, s: State, base: State, d: nat, sid: string, f: Faults) returns (s': State)
    requires d !in s.pcs && !WillRefresh(cfg, s, sid) && !f.reading
    requires base == if Present(s, sid).None? then s.(tokens := s.tokens - {sid}) else s
    ensures Reaches(cfg, s, s')
    ensures s' == To(base, d, Returned(sid, Solo(cfg, s.tokens, s.sessions, sid, s.clock, Refused, true, f).result))
  {
    Stay(cfg, s);
    if Present(s, sid).None? {
      Onward(cfg, s, s, ForgetTokens(sid));
    }
    Onward(cfg, s, base, Request(d, sid));
    OnwardLooking(cfg, s, base, d, Reading(sid), false);
    if Present(s, sid).Some? {
      OnwardLooking(cfg, s, base, d, Deciding(sid, s.tokens[sid].tokens), false);
    }
    s' := To(base, d, Returned(sid, Solo(cfg, s.tokens, s.sessions, sid, s.clock, Refused, true, f).result));
  }

  /** A caller that finds the lock taken gives up. */
  lemma GivesUp(cfg: Setup, s: State, d: nat, sid: string) returns (s': State)
    requires WillRefresh(cfg, s, sid) && d !in s.pcs
    ensures Reaches(cfg, s, s')
    ensures s' == To(s, d, Returned(sid, NoToken)).(locks := WithSemaphore(s.locks, sid))
  {
    ReachQueue(cfg, s, d, sid);
    ReachWait(cfg, s, d, sid);
    var waiting := To(s, d, Waiting(sid)).(locks := WithSemaphore(s.locks, sid));
    Onward(cfg, s, waiting, Cancel(d));
    s' := To(s, d, Returned(sid, NoToken)).(locks := WithSemaphore(s.locks, sid));
    assert s.pcs[d := Waiting(sid)][d := Returned(sid, NoToken)] == s.pcs[d := Returned(sid, NoToken)];
  }

  lemma RunsWhenFree(cfg: Setup, s: State, d: nat, sid: string, reply: Reply, f: Faults) returns (s': State)
    requires d !in s.pcs && WillRefresh(cfg, s, sid) && sid !in s.owner && (sid in s.locks ==> s.locks[sid] == 1)
    requires !f.reading
    ensures Reaches(cfg, s, s')
    ensures LeavesBehind(cfg, s, s', d, sid, f, Solo(cfg, s.tokens, s.sessions, sid, s.clock, reply, true, f))
  {
    var out := UnderLock(cfg, s.tokens, s.sessions, sid, s.clock, reply, f);
    var base := Refreshes(cfg, s, d, sid, reply, f);
    Releases(cfg, s, base, d, sid, out.result);
    ReleasesOnce(cfg, s, base, d, sid, f, out);
    s' := Unlock(To(base, d, Unlocking(sid, out.result)), d);
  }

  lemma RunsWhenTaken(cfg: Setup, s: State, d: nat, sid: string, reply: Reply, f: Faults) returns (s': State)
    requires d !in s.pcs && WillRefresh(cfg, s, sid) && !f.reading
    ensures Reaches(cfg, s, s')
    ensures LeavesBehind(cfg, s, s', d, sid, f, Solo(cfg, s.tokens, s.sessions, sid, s.clock, reply, false, f))
  {
    s' := GivesUp(cfg, s, d, sid);
  }

  lemma RunsReadingOnly(cfg: Setup, s: State, d: nat, sid: string, reply: Reply, free: bool, f: Faults)
    returns (s': State)
    requires d !in s.pcs && (f.reading || !WillRefresh(cfg, s, sid))
    ensures Reaches(cfg, s, s')
    ensures LeavesBehind(cfg, s, s', d, sid, f, Solo(cfg, s.tokens, s.sessions, sid, s.clock, reply, free, f))
  {
    if f.reading {
      s' := FailsToRead(cfg, s, d, sid);
    } else {
      var base := if Present(s, sid).None? then s.(tokens := s.tokens - {sid}) else s;
      s' := Answers(cfg, s, base, d, sid, f);
    }
  }

  /** An undisturbed call, whatever fails in it, is a run of the step relation: from any state
      where the caller is new, caller d can move to its answer, and the stores, the locks and the
      answer are those of `Solo`. */
  lemma SoloIsARun(cfg: Setup, s: State, d: nat, sid: string, reply: Reply, f: Faults) returns (s': State)
    requires d !in s.pcs && LockInv(s.locks, s.owner, s.pcs)
    ensures Reaches(cfg, s, s')
    ensures var free := sid !in s.locks || s.locks[sid] > 0;
            LeavesBehind(cfg, s, s', d, sid, f, Solo(cfg, s.tokens, s.sessions, sid, s.clock, reply, free, f))
  {
    if f.reading || !WillRefresh(cfg, s, sid) {
      s' := RunsReadingOnly(cfg, s, d, sid, reply, sid !in s.locks || s.locks[sid] > 0, f);
    } else if sid in s.locks && s.locks[sid] == 0 {
      s' := RunsWhenTaken(cfg, s, d, sid, reply, f);
    } else {
      s' := RunsWhenFree(cfg, s, d, sid, reply, f);
    }
  }

  // ---- What a call comes to ----

  const ALL_WELL := Faults(false, false, false, false, false, false, false)

  /** A set without an expiry, or with one later than now and RefreshBefore, or now and thirty
      seconds if that is not set, is handed out as it is. */
  lemma FreshSetIsReturned(cfg: Setup, tokens: map<string, Entry>, sessions: Store, sid: string, now: Moment,
                           reply: Reply, free: bool, f: Faults)
    requires sid in tokens && (tokens[sid].expiresAt == 0 || now < tokens[sid].expiresAt) && !f.reading
    requires tokens[sid].tokens.access != ""
    requires var expiry := tokens[sid].tokens.expiry;
             || expiry <= 0
             || now + (if cfg.refreshBefore > 0 then cfg.refreshBefore else 30_000_000_000) < expiry * 1_000_000_000
    ensures var t := tokens[sid].tokens;
            Solo(cfg, tokens, sessions, sid, now, reply, free, f) == Outcome(tokens, sessions, Token(t.access, t, now))
    ensures !AsksForLock(cfg, tokens, sid, now, f)
  {
  }

  /** As a run, such a call moves nothing but the caller: stores, locks and log stay. */
  lemma FreshCallIsQuiet(cfg: Setup, s: State, d: nat, sid: string) returns (s': State)
    requires d !in s.pcs && sid in s.tokens && (s.tokens[sid].expiresAt == 0 || s.clock < s.tokens[sid].expiresAt)
    requires s.tokens[sid].tokens.access != ""
    requires var expiry := s.tokens[sid].tokens.expiry;
             || expiry <= 0
             || s.clock + (if cfg.refreshBefore > 0 then cfg.refreshBefore else 30_000_000_000)
                < expiry * 1_000_000_000
    ensures Reaches(cfg, s, s')
    ensures var t := s.tokens[sid].tokens;
            s' == s.(pcs := s.pcs[d := Returned(sid, Token(t.access, t, s.clock))])
  {
    FreshSetIsReturned(cfg, s.tokens, s.sessions, sid, s.clock, Refused, true, ALL_WELL);
    s' := Answers(cfg, s, s, d, sid, ALL_WELL);
  }

  /** A set in the refresh window: it has an expiry, and that is no later than now and
      RefreshBefore, or now and thirty seconds if that is not set. */
  predicate Due(cfg: Setup, tokens: map<string, Entry>, sid: string, now: Moment) {
    && sid in tokens && (tokens[sid].expiresAt == 0 || now < tokens[sid].expiresAt)
    && var t := tokens[sid].tokens;
       && t.access != "" && t.refresh != "" && 0 < t.expiry
       && t.expiry * 1_000_000_000 <= now + (if cfg.refreshBefore > 0 then cfg.refreshBefore else 30_000_000_000)
  }

  /** A session within its own end, the absolute lifetime and the idle time. */
  predicate Lives(l: Checked, sessions: Store, sid: string, now: Moment) {
    && sid in sessions
    && var v := sessions[sid];
       && (v.expiresAt == 0 || now < v.expiresAt)
       && (v.createdAt == 0 || now < v.createdAt + l.maxLifetime)
       && (v.lastSeen == 0 || now < v.lastSeen + l.idle)
  }

  /** The refreshed set: what was granted, with the old refresh and id token where none came. */
  function GrantedSet(old_: TokenSet, granted: TokenSet): TokenSet {
    TokenSet(granted.access, if granted.refresh != "" then granted.refresh else old_.refresh,
             if granted.idToken != "" then granted.idToken else old_.idToken, granted.expiry)
  }

  /** Within the window, with the lock free and nothing failing: a granted set with an access
      token and an expiry to come is stored for a live session, until that session's end, and its
      access token is the answer. */
  lemma GrantIsStored(cfg: Setup, tokens: map<string, Entry>, sessions: Store, sid: string, now: Moment,
                      granted: TokenSet)
    requires Due(cfg, tokens, sid, now) && Lives(cfg.limits, sessions, sid, now)
    requires granted.access != "" && now < granted.expiry * 1_000_000_000
    ensures var v, m := sessions[sid], GrantedSet(tokens[sid].tokens, granted);
            var seen := if v.lastSeen == 0 || v.lastSeen + cfg.limits.touch <= now then now else v.lastSeen;
            Solo(cfg, tokens, sessions, sid, now, Granted(granted), true, ALL_WELL)
            == Outcome(tokens[sid := Entry(m, v.expiresAt)], sessions[sid := v.(lastSeen := seen)],
                       Token(granted.access, m, now))
  {
  }

  /** And otherwise, when the provider refuses, garbles its answer, grants a set without access
      token or already expired, or when the session is no longer alive: set and session are gone. */
  lemma RefusalForgets(cfg: Setup, tokens: map<string, Entry>, sessions: Store, sid: string, now: Moment, reply: Reply)
    requires Due(cfg, tokens, sid, now)
    requires || !Lives(cfg.limits, sessions, sid, now) || !reply.Granted?
             || reply.tokens.access == "" || reply.tokens.expiry * 1_000_000_000 <= now
    ensures Solo(cfg, tokens, sessions, sid, now, reply, true, ALL_WELL)
            == Outcome(tokens - {sid}, sessions - {sid}, NoToken)
  {
  }

  // ---- What a session must be like, in any interleaving ----

  /** A session that has not been seen for the touch interval, or never. */
  predicate Unseen(l: Checked, v: Session, now: Moment) { v.lastSeen == 0 || v.lastSeen + l.touch <= now }

  /** A caller with a refreshed set goes on to store it exactly when it can read its session and
      finds it alive; otherwise it forgets the set. */
  lemma StoresForLiveSessions(cfg: Setup, s: State, c: nat, fails: bool, reply: Reply)
    requires c in s.pcs && s.pcs[c].AskingSession?
    ensures var s', pc := Next(cfg, s, Go(c, fails, reply)), s.pcs[c];
            && s' == s.(pcs := s.pcs[c := s'.pcs[c]])
            && s'.pcs[c] == if fails || !Lives(cfg.limits, s.sessions, pc.sid, s.clock) then DroppingTokens(pc.sid)
                            else
                              var v := s.sessions[pc.sid];
                              if Unseen(cfg.limits, v, s.clock)
                              then Touching(pc.sid, pc.tokens, pc.checkedAt, v.(lastSeen := s.clock))
                              else Saving(pc.sid, pc.tokens, pc.checkedAt, v.expiresAt)
  {
  }

  lemma VisitReads(cfg: Setup, s: State, c: nat, fails: bool)
    requires c in s.pcs && s.pcs[c].Visiting?
    ensures var s', sid := Next(cfg, s, Go(c, fails, Refused)), s.pcs[c].sid;
            && s' == s.(pcs := s.pcs[c := s'.pcs[c]])
            && s'.pcs[c] == if !fails && Lives(cfg.limits, s.sessions, sid, s.clock)
                               && Unseen(cfg.limits, s.sessions[sid], s.clock)
                            then WritingBack(sid, s.sessions[sid].(lastSeen := s.clock))
                            else Returned(sid, NoToken)
  {
  }

  lemma VisitWrites(cfg: Setup, s: State, c: nat, fails: bool)
    requires c in s.pcs && s.pcs[c].WritingBack?
    ensures var sid, v := s.pcs[c].sid, s.pcs[c].session;
            Next(cfg, s, Go(c, fails, Refused))
            == s.(pcs := s.pcs[c := Returned(sid, NoToken)],
                  sessions := if fails then s.sessions else s.sessions[sid := v])
  {
  }

  /** A visit marks a live session as seen when that is due and neither its read nor its write
      fails, and changes nothing else. */
  lemma VisitMarksLiveSessions(cfg: Setup, s: State, c: nat, readFails: bool, writeFails: bool)
    requires c in s.pcs && s.pcs[c].Visiting?
    ensures var s', sid := Next(cfg, Next(cfg, s, Go(c, readFails, Refused)), Go(c, writeFails, Refused)), s.pcs[c].sid;
            && s' == s.(pcs := s'.pcs, sessions := s'.sessions) && s'.pcs == s.pcs[c := Returned(sid, NoToken)]
            && s'.sessions == if !readFails && !writeFails && Lives(cfg.limits, s.sessions, sid, s.clock)
                                 && Unseen(cfg.limits, s.sessions[sid], s.clock)
                              then s.sessions[sid := s.sessions[sid].(lastSeen := s.clock)]
                              else s.sessions
  {
    VisitReads(cfg, s, c, readFails);
    var between := Next(cfg, s, Go(c, readFails, Refused));
    if between.pcs[c].WritingBack? {
      VisitWrites(cfg, between, c, writeFails);
      assert between.pcs[c := Returned(s.pcs[c].sid, NoToken)] == s.pcs[c := Returned(s.pcs[c].sid, NoToken)];
    }
  }
}
