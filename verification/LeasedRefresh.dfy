/** Token refresh with the Redis lease of module Lease in place of the in-process lock: what a
    run does to one session is a run of module Refresh as long as nobody stays past their lease
    of that session, so that what is proved there of the in-process lock holds of the lease. */
module LeasedRefresh {
  import opened Base
  import Lease
  import Refresh
  import Sessions

  /** The refresh steps and the lease steps of the same callers.  The lock fields of `r` only
      record who is inside. */
  datatype World = World(r: Refresh.State, l: Lease.State)

  const START := World(Refresh.START, Lease.START)

  datatype Action =
    | Elapse(time: nat)
    | Other(a: Refresh.Action)             // any step that does not concern the lock
    | Begin(c: nat, value: string, ttl: int)
    | Try(c: nat)                          // one poll
    | TryButLost(c: nat)                   // the lease was stored, the caller saw an error
    | GiveUp(c: nat)
    | Leave(c: nat, lost: bool)

  function At(w: World, c: nat): Option<Refresh.Pc> { if c in w.r.pcs then Some(w.r.pcs[c]) else None }

  predicate Waits(w: World, c: nat) { At(w, c).Some? && At(w, c).value.Waiting? }

  /** Steps of a caller at the lock are not among the others. */
  predicate OffLock(w: World, a: Refresh.Action) {
    match a
    case Tick(_) => false
    case Cancel(_) => false
    case Go(c, _, _) => At(w, c).Some? && Refresh.Acts(At(w, c).value)
    case _ => true
  }

  /** The caller goes on to read the store again: it has the lease and asks nobody else. */
  function Entered(r: Refresh.State, c: nat): Refresh.State
    requires c in r.pcs
  {
    var sid := r.pcs[c].sid;
    Refresh.To(r, c, Refresh.Rereading(sid)).(locks := r.locks[sid := 0], owner := r.owner[sid := c])
  }

  function Next(cfg: Refresh.Setup, w: World, a: Action): World {
    match a
    case Elapse(time) => World(Refresh.Next(cfg, w.r, Refresh.Tick(time)), Lease.Next(w.l, Lease.Tick(time)))
    case Other(b) => if OffLock(w, b) then w.(r := Refresh.Next(cfg, w.r, b)) else w
    case Begin(c, value, ttl) =>
      if At(w, c).Some? && At(w, c).value.Queueing? && c !in w.l.callers && value !in w.l.used then
        World(Refresh.Queue(w.r, c), Lease.Next(w.l, Lease.Begin(c, At(w, c).value.sid, value, ttl)))
      else w
    case Try(c) =>
      if Waits(w, c) then
        var l := Lease.Next(w.l, Lease.TrySet(c));
        World(if Lease.In(l, c) then Entered(w.r, c) else w.r, l)
      else w
    case TryButLost(c) =>
      if Waits(w, c) then
        World(Refresh.Next(cfg, w.r, Refresh.Cancel(c)), Lease.Next(w.l, Lease.SetButReplyLost(c)))
      else w
    case GiveUp(c) =>
      if Waits(w, c) then World(Refresh.Next(cfg, w.r, Refresh.Cancel(c)), Lease.Next(w.l, Lease.GiveUp(c))) else w
    case Leave(c, lost) =>
      if At(w, c).Some? && At(w, c).value.Unlocking? then
        World(Refresh.Unlock(w.r, c), Lease.Next(w.l, if lost then Lease.LeaveButLost(c) else Lease.Leave(c)))
      else w
  }

  function Exec(cfg: Refresh.Setup, w: World, acts: seq<Action>): World
    decreases |acts|
  {
    if acts == [] then w else Exec(cfg, Next(cfg, w, acts[0]), acts[1..])
  }

  /** Nobody is past their lease of this session. */
  ghost predicate NobodyOverstays(l: Lease.State, sid: string) {
    forall c | Lease.In(l, c) && l.callers[c].key == sid :: !Lease.Overstayed(l, c)
  }

  /** Nor in any state of the run. */
  ghost predicate InTime(cfg: Refresh.Setup, w: World, acts: seq<Action>, sid: string)
    decreases |acts|
  {
    NobodyOverstays(w.l, sid) && (acts == [] || InTime(cfg, Next(cfg, w, acts[0]), acts[1..], sid))
  }

  // ---- The two lock states go together ----

  /** A waiting caller polls, a holder is inside, for the same session; nobody else is at the
      lease. */
  predicate Agree(pc: Refresh.Pc, callers: map<nat, Lease.Caller>, c: nat) {
    if pc.Waiting? then c in callers && callers[c].Polling? && callers[c].key == pc.sid
    else if Refresh.Holds(pc) then c in callers && callers[c].Inside? && callers[c].key == pc.sid
    else c in callers ==> callers[c].Outside?
  }

  ghost predicate Linked(pcs: map<nat, Refresh.Pc>, locks: map<string, nat>, callers: map<nat, Lease.Caller>) {
    && (forall c | c in pcs :: Agree(pcs[c], callers, c))
    && (forall c | c in callers :: c in pcs)
    && (forall c | c in pcs && pcs[c].Waiting? :: pcs[c].sid in locks)
  }

  /** One caller moves, on both sides or on one. */
  lemma MoveLinked(pcs: map<nat, Refresh.Pc>, locks: map<string, nat>, callers: map<nat, Lease.Caller>,
                   c: nat, pc: Refresh.Pc, locks': map<string, nat>, callers': map<nat, Lease.Caller>)
    requires Linked(pcs, locks, callers) && Agree(pc, callers', c) && locks.Keys <= locks'.Keys
    requires pc.Waiting? ==> pc.sid in locks'
    requires callers' == callers || (c in callers' && callers' == callers[c := callers'[c]])
    ensures Linked(pcs[c := pc], locks', callers')
  {
  }

  // ---- One session's part of the refresh state ----

  function Part<T>(m: map<string, T>, sid: string): map<string, T> {
    if sid in m then map[sid := m[sid]] else map[]
  }

  function PartOfPcs(pcs: map<nat, Refresh.Pc>, sid: string): map<nat, Refresh.Pc> {
    map c | c in pcs && pcs[c].sid == sid :: pcs[c]
  }

  function Only(log: seq<Refresh.Event>, sid: string): seq<Refresh.Event> {
    if log == [] then []
    else
      var past, e := Only(log[..|log| - 1], sid), log[|log| - 1];
      if e.sid == sid then past + [e] else past
  }

  function Of(r: Refresh.State, sid: string): Refresh.State {
    Refresh.State(r.clock, Part(r.tokens, sid), Part(r.sessions, sid), Part(r.locks, sid), Part(r.owner, sid),
                  PartOfPcs(r.pcs, sid), Part(r.logins, sid), Only(r.log, sid))
  }

  lemma PartOfMove(pcs: map<nat, Refresh.Pc>, c: nat, pc: Refresh.Pc, sid: string)
    requires c in pcs ==> pcs[c].sid == pc.sid
    ensures PartOfPcs(pcs[c := pc], sid) == if pc.sid == sid then PartOfPcs(pcs, sid)[c := pc] else PartOfPcs(pcs, sid)
  {
  }

  lemma PartOfSet<T>(m: map<string, T>, key: string, value: T, sid: string)
    ensures Part(m[key := value], sid) == if key == sid then Part(m, sid)[key := value] else Part(m, sid)
  {
  }

  lemma PartOfDropped<T>(m: map<string, T>, key: string, sid: string)
    ensures Part(m - {key}, sid) == if key == sid then Part(m, sid) - {key} else Part(m, sid)
  {
  }

  lemma PartOfUpdated<T>(m: map<string, T>, key: string, w: Refresh.Write<T>, sid: string)
    ensures Part(Refresh.Updated(m, key, w), sid)
            == if key == sid then Refresh.Updated(Part(m, sid), key, w) else Part(m, sid)
  {
  }

  lemma OnlyGrown(log: seq<Refresh.Event>, event: Option<Refresh.Event>, sid: string)
    ensures Only(Refresh.Grown(log, event), sid)
            == if event.Some? && event.value.sid == sid then Refresh.Grown(Only(log, sid), event) else Only(log, sid)
  {
    if event.Some? {
      assert (log + [event.value])[..|log|] == log;
    }
  }

  /** A step of a caller concerns its own session and depends on nothing else. */
  lemma OfApply(r: Refresh.State, c: nat, e: Refresh.Effect, sid: string)
    requires (c in r.pcs ==> r.pcs[c].sid == e.pc.sid) && (e.event.Some? ==> e.event.value.sid == e.pc.sid)
    ensures Of(Refresh.Apply(r, c, e), sid) == if e.pc.sid == sid then Refresh.Apply(Of(r, sid), c, e) else Of(r, sid)
  {
    PartOfMove(r.pcs, c, e.pc, sid);
    PartOfUpdated(r.tokens, e.pc.sid, e.onTokens, sid);
    PartOfUpdated(r.sessions, e.pc.sid, e.onSession, sid);
    OnlyGrown(r.log, e.event, sid);
  }

  lemma SameInPart(r: Refresh.State, sid: string)
    ensures var part := Of(r, sid);
            && part.clock == r.clock && Refresh.Present(part, sid) == Refresh.Present(r, sid)
            && (sid in part.sessions <==> sid in r.sessions)
            && (sid in r.sessions ==> part.sessions[sid] == r.sessions[sid])
  {
  }

  lemma LooksAtPart(cfg: Refresh.Setup, r: Refresh.State, part: Refresh.State, pc: Refresh.Pc, fails: bool)
    requires part.clock == r.clock && Refresh.Present(part, pc.sid) == Refresh.Present(r, pc.sid)
    requires pc.sid in part.sessions <==> pc.sid in r.sessions
    requires pc.sid in r.sessions ==> part.sessions[pc.sid] == r.sessions[pc.sid]
    ensures Refresh.Look1(cfg, part, pc, fails) == Refresh.Look1(cfg, r, pc, fails)
  {
  }

  lemma EffectOfPart(cfg: Refresh.Setup, r: Refresh.State, pc: Refresh.Pc, fails: bool, reply: Refresh.Reply)
    requires Refresh.Acts(pc)
    ensures Refresh.EffectOf(cfg, Of(r, pc.sid), pc, fails, reply) == Refresh.EffectOf(cfg, r, pc, fails, reply)
  {
    if Refresh.Looks(pc) {
      SameInPart(r, pc.sid);
      LooksAtPart(cfg, r, Of(r, pc.sid), pc, fails);
    }
  }

  lemma OfGo(cfg: Refresh.Setup, r: Refresh.State, b: Refresh.Action, sid: string)
    requires b.Go? && b.c in r.pcs && Refresh.Acts(r.pcs[b.c])
    ensures Of(Refresh.Next(cfg, r, b), sid)
            == if r.pcs[b.c].sid == sid then Refresh.Next(cfg, Of(r, sid), b) else Of(r, sid)
  {
    var pc := r.pcs[b.c];
    Refresh.EffectWellFormed(cfg, r, pc, b.fails, b.reply);
    EffectOfPart(cfg, r, pc, b.fails, b.reply);
    OfApply(r, b.c, Refresh.EffectOf(cfg, r, pc, b.fails, b.reply), sid);
  }

  lemma OfEnrol(cfg: Refresh.Setup, r: Refresh.State, id: string, who: Sessions.Identity,
                t: Refresh.TokenSet, sid: string)
    ensures Of(Refresh.Enrol(cfg, r, id, who, t), sid)
            == if id == sid then Refresh.Enrol(cfg, Of(r, sid), id, who, t) else Of(r, sid)
  {
    var r' := Refresh.Enrol(cfg, r, id, who, t);
    PartOfSet(r.tokens, id, r'.tokens[id], sid);
    PartOfSet(r.sessions, id, r'.sessions[id], sid);
    PartOfSet(r.logins, id, r'.logins[id], sid);
    OnlyGrown(r.log, Some(Refresh.LoggedIn(id, t)), sid);
  }

  lemma OfArrive(cfg: Refresh.Setup, r: Refresh.State, b: Refresh.Action, sid: string)
    requires (b.Request? || b.Visit?) && b.c !in r.pcs
    ensures Of(Refresh.Next(cfg, r, b), sid) == if b.sid == sid then Refresh.Next(cfg, Of(r, sid), b) else Of(r, sid)
  {
    PartOfMove(r.pcs, b.c, Refresh.Next(cfg, r, b).pcs[b.c], sid);
  }

  /** A step off the lock is one of the session's part, or leaves it alone. */
  lemma OfOther(cfg: Refresh.Setup, w: World, b: Refresh.Action, sid: string)
    requires OffLock(w, b)
    ensures var r' := Refresh.Next(cfg, w.r, b);
            Of(r', sid) == Of(w.r, sid) || Of(r', sid) == Refresh.Next(cfg, Of(w.r, sid), b)
  {
    match b
    case Go(_, _, _) => OfGo(cfg, w.r, b, sid);
    case LogIn(id, who, tokens) => if id !in w.r.logins { OfEnrol(cfg, w.r, id, who, tokens, sid); }
    case Request(c, _) => if c !in w.r.pcs { OfArrive(cfg, w.r, b, sid); }
    case Visit(c, _) => if c !in w.r.pcs { OfArrive(cfg, w.r, b, sid); }
    case _ =>
  }

  // ---- What every run keeps ----

  ghost predicate Inv(cfg: Refresh.Setup, w: World, sid: string) {
    Linked(w.r.pcs, w.r.locks, w.l.callers) && Lease.Inv(w.l) && Refresh.Reaches(cfg, Refresh.START, Of(w.r, sid))
  }

  lemma OtherLinked(cfg: Refresh.Setup, w: World, b: Refresh.Action)
    requires Linked(w.r.pcs, w.r.locks, w.l.callers) && OffLock(w, b)
    ensures var r' := Refresh.Next(cfg, w.r, b); Linked(r'.pcs, r'.locks, w.l.callers)
  {
    if b.Go? {
      var pc := w.r.pcs[b.c];
      var e := Refresh.EffectOf(cfg, w.r, pc, b.fails, b.reply);
      Refresh.EffectWellFormed(cfg, w.r, pc, b.fails, b.reply);
      MoveLinked(w.r.pcs, w.r.locks, w.l.callers, b.c, e.pc, w.r.locks, w.l.callers);
    } else if (b.Request? || b.Visit?) && b.c !in w.r.pcs {
      MoveLinked(w.r.pcs, w.r.locks, w.l.callers, b.c, Refresh.Next(cfg, w.r, b).pcs[b.c], w.r.locks, w.l.callers);
    }
  }

  lemma OtherInv(cfg: Refresh.Setup, w: World, b: Refresh.Action, sid: string)
    requires Inv(cfg, w, sid) && OffLock(w, b)
    ensures Inv(cfg, w.(r := Refresh.Next(cfg, w.r, b)), sid)
  {
    OtherLinked(cfg, w, b);
    OfOther(cfg, w, b, sid);
    Refresh.Onward(cfg, Refresh.START, Of(w.r, sid), b);
  }

  lemma ElapseInv(cfg: Refresh.Setup, w: World, time: nat, sid: string)
    requires Inv(cfg, w, sid)
    ensures Inv(cfg, Next(cfg, w, Elapse(time)), sid)
  {
    Refresh.Onward(cfg, Refresh.START, Of(w.r, sid), Refresh.Tick(time));
    Lease.NextInv(w.l, Lease.Tick(time));
  }

  /** The steps at the lock, seen from one session. */
  lemma OfQueue(r: Refresh.State, c: nat, sid: string)
    requires c in r.pcs
    ensures Of(Refresh.Queue(r, c), sid) == if r.pcs[c].sid == sid then Refresh.Queue(Of(r, sid), c) else Of(r, sid)
  {
    PartOfMove(r.pcs, c, Refresh.Waiting(r.pcs[c].sid), sid);
  }

  lemma OfCancel(cfg: Refresh.Setup, r: Refresh.State, c: nat, sid: string)
    requires c in r.pcs && r.pcs[c].Waiting?
    ensures Of(Refresh.Next(cfg, r, Refresh.Cancel(c)), sid)
            == if r.pcs[c].sid == sid then Refresh.Next(cfg, Of(r, sid), Refresh.Cancel(c)) else Of(r, sid)
  {
    PartOfMove(r.pcs, c, Refresh.Returned(r.pcs[c].sid, Refresh.NoToken), sid);
  }

  lemma UnlockPart(r: Refresh.State, c: nat, sid: string)
    requires c in r.pcs && r.pcs[c].Unlocking? && r.pcs[c].sid == sid
    ensures Of(Refresh.Unlock(r, c), sid) == Refresh.Unlock(Of(r, sid), c)
  {
    assert Of(r, sid).pcs[c] == r.pcs[c];
    PartOfMove(r.pcs, c, Refresh.Returned(sid, r.pcs[c].result), sid);
    PartOfDropped(r.owner, sid, sid);
    if sid in r.locks {
      PartOfSet(r.locks, sid, r.locks[sid] + 1, sid);
    }
  }

  lemma UnlockElsewhere(r: Refresh.State, c: nat, sid: string)
    requires c in r.pcs && r.pcs[c].Unlocking? && r.pcs[c].sid != sid
    ensures Of(Refresh.Unlock(r, c), sid) == Of(r, sid)
  {
    var id := r.pcs[c].sid;
    PartOfMove(r.pcs, c, Refresh.Returned(id, r.pcs[c].result), sid);
    PartOfDropped(r.owner, id, sid);
    if id in r.locks {
      PartOfSet(r.locks, id, r.locks[id] + 1, sid);
    }
  }

  lemma OfEntered(r: Refresh.State, c: nat, sid: string)
    requires c in r.pcs
    ensures Of(Entered(r, c), sid) == if r.pcs[c].sid == sid then Entered(Of(r, sid), c) else Of(r, sid)
  {
    PartOfMove(r.pcs, c, Refresh.Rereading(r.pcs[c].sid), sid);
    PartOfSet(r.locks, r.pcs[c].sid, 0, sid);
    PartOfSet(r.owner, r.pcs[c].sid, c, sid);
  }

  lemma BeginPart(cfg: Refresh.Setup, r: Refresh.State, c: nat, sid: string)
    requires Refresh.Reaches(cfg, Refresh.START, Of(r, sid)) && c in r.pcs && r.pcs[c].Queueing?
    ensures Refresh.Reaches(cfg, Refresh.START, Of(Refresh.Queue(r, c), sid))
  {
    OfQueue(r, c, sid);
    if r.pcs[c].sid == sid {
      Refresh.Onward(cfg, Refresh.START, Of(r, sid), Refresh.Go(c, false, Refresh.Refused));
    }
  }

  lemma QueueLinked(r: Refresh.State, callers: map<nat, Lease.Caller>, c: nat, polling: Lease.Caller)
    requires Linked(r.pcs, r.locks, callers) && c in r.pcs && polling.Polling? && polling.key == r.pcs[c].sid
    ensures var r' := Refresh.Queue(r, c); Linked(r'.pcs, r'.locks, callers[c := polling])
  {
    var r' := Refresh.Queue(r, c);
    MoveLinked(r.pcs, r.locks, callers, c, Refresh.Waiting(r.pcs[c].sid), r'.locks, callers[c := polling]);
  }

  lemma BeginInv(cfg: Refresh.Setup, w: World, c: nat, value: string, ttl: int, sid: string)
    requires Inv(cfg, w, sid) && At(w, c).Some? && At(w, c).value.Queueing? && c !in w.l.callers && value !in w.l.used
    ensures Inv(cfg, Next(cfg, w, Begin(c, value, ttl)), sid)
  {
    var b := Lease.Begin(c, At(w, c).value.sid, value, ttl);
    BeginPart(cfg, w.r, c, sid);
    Lease.NextInv(w.l, b);
    QueueLinked(w.r, w.l.callers, c, Lease.Next(w.l, b).callers[c]);
  }

  lemma QuitCallers(l: Lease.State, c: nat, b: Lease.Action)
    requires c in l.callers && l.callers[c].Polling? && (b == Lease.GiveUp(c) || b == Lease.SetButReplyLost(c))
    ensures Lease.Next(l, b).callers == l.callers[c := Lease.Outside]
  {
  }

  lemma QuitPart(cfg: Refresh.Setup, r: Refresh.State, c: nat, sid: string)
    requires Refresh.Reaches(cfg, Refresh.START, Of(r, sid)) && c in r.pcs && r.pcs[c].Waiting?
    ensures Refresh.Reaches(cfg, Refresh.START, Of(Refresh.Next(cfg, r, Refresh.Cancel(c)), sid))
  {
    OfCancel(cfg, r, c, sid);
    Refresh.Onward(cfg, Refresh.START, Of(r, sid), Refresh.Cancel(c));
  }

  lemma QuitLinked(cfg: Refresh.Setup, r: Refresh.State, callers: map<nat, Lease.Caller>, c: nat)
    requires Linked(r.pcs, r.locks, callers) && c in r.pcs && r.pcs[c].Waiting?
    ensures var r' := Refresh.Next(cfg, r, Refresh.Cancel(c)); Linked(r'.pcs, r'.locks, callers[c := Lease.Outside])
  {
    MoveLinked(r.pcs, r.locks, callers, c, Refresh.Returned(r.pcs[c].sid, Refresh.NoToken), r.locks,
               callers[c := Lease.Outside]);
  }

  lemma QuitInv(cfg: Refresh.Setup, w: World, c: nat, b: Lease.Action, sid: string)
    requires Inv(cfg, w, sid) && Waits(w, c) && (b == Lease.GiveUp(c) || b == Lease.SetButReplyLost(c))
    ensures Inv(cfg, World(Refresh.Next(cfg, w.r, Refresh.Cancel(c)), Lease.Next(w.l, b)), sid)
  {
    assert Agree(w.r.pcs[c], w.l.callers, c);
    QuitPart(cfg, w.r, c, sid);
    QuitCallers(w.l, c, b);
    Lease.NextInv(w.l, b);
    QuitLinked(cfg, w.r, w.l.callers, c);
  }

  lemma UnlockStep(cfg: Refresh.Setup, r: Refresh.State, c: nat)
    requires Refresh.Reaches(cfg, Refresh.START, r) && c in r.pcs && r.pcs[c].Unlocking?
    ensures Refresh.Reaches(cfg, Refresh.START, Refresh.Unlock(r, c))
  {
    Refresh.Onward(cfg, Refresh.START, r, Refresh.Go(c, false, Refresh.Refused));
  }

  lemma UnlockReaches(cfg: Refresh.Setup, r: Refresh.State, c: nat, sid: string)
    requires Refresh.Reaches(cfg, Refresh.START, Of(r, sid)) && c in r.pcs && r.pcs[c].Unlocking?
    ensures Refresh.Reaches(cfg, Refresh.START, Of(Refresh.Unlock(r, c), sid))
  {
    if r.pcs[c].sid == sid {
      UnlockPart(r, c, sid);
      UnlockStep(cfg, Of(r, sid), c);
    } else {
      UnlockElsewhere(r, c, sid);
    }
  }

  lemma LeaveCallers(l: Lease.State, c: nat, b: Lease.Action)
    requires Lease.In(l, c) && (b == Lease.Leave(c) || b == Lease.LeaveButLost(c))
    ensures Lease.Next(l, b).callers == l.callers[c := Lease.Outside]
  {
  }

  lemma UnlockLinked(r: Refresh.State, callers: map<nat, Lease.Caller>, c: nat)
    requires Linked(r.pcs, r.locks, callers) && c in r.pcs && r.pcs[c].Unlocking?
    ensures var r' := Refresh.Unlock(r, c); Linked(r'.pcs, r'.locks, callers[c := Lease.Outside])
  {
    var pc, r' := r.pcs[c], Refresh.Unlock(r, c);
    MoveLinked(r.pcs, r.locks, callers, c, Refresh.Returned(pc.sid, pc.result), r'.locks, callers[c := Lease.Outside]);
  }

  lemma LeaveInv(cfg: Refresh.Setup, w: World, c: nat, b: Lease.Action, sid: string)
    requires Inv(cfg, w, sid) && At(w, c).Some? && At(w, c).value.Unlocking?
    requires b == Lease.Leave(c) || b == Lease.LeaveButLost(c)
    ensures Inv(cfg, World(Refresh.Unlock(w.r, c), Lease.Next(w.l, b)), sid)
  {
    assert Agree(w.r.pcs[c], w.l.callers, c);
    UnlockReaches(cfg, w.r, c, sid);
    LeaveCallers(w.l, c, b);
    UnlockLinked(w.r, w.l.callers, c);
    Lease.NextInv(w.l, b);
  }

  lemma ReachedLockInv(cfg: Refresh.Setup, r: Refresh.State)
    requires Refresh.Reaches(cfg, Refresh.START, r)
    ensures Refresh.LockInv(r.locks, r.owner, r.pcs)
  {
    var acts :| Refresh.Exec(cfg, Refresh.START, acts) == r;
    Refresh.RunInv(cfg, acts);
  }

  /** A holder is inside and in time, so its lease is live. */
  lemma HeldIsLive(part: Refresh.State, l: Lease.State, sid: string)
    requires Refresh.LockInv(part.locks, part.owner, part.pcs) && Lease.Inv(l) && NobodyOverstays(l, sid)
    requires (forall c | c in part.pcs :: Agree(part.pcs[c], l.callers, c)) && sid in part.owner
    ensures Lease.Live(l.rdb, sid, l.clock)
  {
    var d := part.owner[sid];
    assert Agree(part.pcs[d], l.callers, d);
    assert Lease.In(l, d) && Lease.Leased(l, d);
  }

  lemma EntersWhenFree(l: Lease.State, c: nat, sid: string)
    requires c in l.callers && l.callers[c].Polling? && l.callers[c].key == sid
    requires Lease.In(Lease.Next(l, Lease.TrySet(c)), c)
    ensures !Lease.Live(l.rdb, sid, l.clock)
  {
  }

  lemma AcquireIsEntered(r: Refresh.State, c: nat)
    requires Refresh.LockInv(r.locks, r.owner, r.pcs) && c in r.pcs
    requires r.pcs[c].sid in r.locks && r.pcs[c].sid !in r.owner
    ensures Refresh.Acquire(r, c) == Entered(r, c)
  {
  }

  /** A poll that succeeds finds the in-process lock free as well. */
  lemma FreeForBoth(cfg: Refresh.Setup, w: World, c: nat, sid: string)
    requires Inv(cfg, w, sid) && NobodyOverstays(w.l, sid) && Waits(w, c) && w.r.pcs[c].sid == sid
    requires Lease.In(Lease.Next(w.l, Lease.TrySet(c)), c)
    ensures Refresh.Acquire(Of(w.r, sid), c) == Entered(Of(w.r, sid), c)
  {
    var part := Of(w.r, sid);
    ReachedLockInv(cfg, part);
    assert Agree(w.r.pcs[c], w.l.callers, c);
    EntersWhenFree(w.l, c, sid);
    if sid in part.owner {
      HeldIsLive(part, w.l, sid);
    }
    AcquireIsEntered(part, c);
  }

  lemma EnterReaches(cfg: Refresh.Setup, r: Refresh.State, c: nat)
    requires Refresh.Reaches(cfg, Refresh.START, r) && c in r.pcs && r.pcs[c].Waiting?
    requires Refresh.Acquire(r, c) == Entered(r, c)
    ensures Refresh.Reaches(cfg, Refresh.START, Entered(r, c))
  {
    Refresh.Onward(cfg, Refresh.START, r, Refresh.Go(c, false, Refresh.Refused));
  }

  lemma EnterLinked(r: Refresh.State, callers: map<nat, Lease.Caller>, c: nat, inside: Lease.Caller)
    requires Linked(r.pcs, r.locks, callers) && c in r.pcs && inside.Inside? && inside.key == r.pcs[c].sid
    ensures var r' := Entered(r, c); Linked(r'.pcs, r'.locks, callers[c := inside])
  {
    var r' := Entered(r, c);
    MoveLinked(r.pcs, r.locks, callers, c, Refresh.Rereading(r.pcs[c].sid), r'.locks, callers[c := inside]);
  }

  /** A poll either lets the caller in or leaves it polling. */
  lemma TryCallers(l: Lease.State, c: nat)
    requires c in l.callers && l.callers[c].Polling?
    ensures var l' := Lease.Next(l, Lease.TrySet(c));
            if Lease.In(l', c) then l'.callers[c].key == l.callers[c].key && l'.callers == l.callers[c := l'.callers[c]]
            else l' == l
  {
  }

  lemma EnterPart(cfg: Refresh.Setup, w: World, c: nat, sid: string)
    requires Inv(cfg, w, sid) && NobodyOverstays(w.l, sid) && Waits(w, c)
    requires Lease.In(Lease.Next(w.l, Lease.TrySet(c)), c)
    ensures Refresh.Reaches(cfg, Refresh.START, Of(Entered(w.r, c), sid))
  {
    OfEntered(w.r, c, sid);
    if w.r.pcs[c].sid == sid {
      FreeForBoth(cfg, w, c, sid);
      EnterReaches(cfg, Of(w.r, sid), c);
    }
  }

  lemma TryInv(cfg: Refresh.Setup, w: World, c: nat, sid: string)
    requires Inv(cfg, w, sid) && NobodyOverstays(w.l, sid) && Waits(w, c)
    ensures Inv(cfg, Next(cfg, w, Try(c)), sid)
  {
    var l := Lease.Next(w.l, Lease.TrySet(c));
    assert Agree(w.r.pcs[c], w.l.callers, c);
    TryCallers(w.l, c);
    Lease.NextInv(w.l, Lease.TrySet(c));
    if Lease.In(l, c) {
      EnterPart(cfg, w, c, sid);
      EnterLinked(w.r, w.l.callers, c, l.callers[c]);
    }
  }

  lemma NextInv(cfg: Refresh.Setup, w: World, a: Action, sid: string)
    requires Inv(cfg, w, sid) && NobodyOverstays(w.l, sid)
    ensures Inv(cfg, Next(cfg, w, a), sid)
  {
    match a
    case Elapse(time) => ElapseInv(cfg, w, time, sid);
    case Other(b) => if OffLock(w, b) { OtherInv(cfg, w, b, sid); }
    case Begin(c, value, ttl) =>
      if At(w, c).Some? && At(w, c).value.Queueing? && c !in w.l.callers && value !in w.l.used {
        BeginInv(cfg, w, c, value, ttl, sid);
      }
    case Try(c) => if Waits(w, c) { TryInv(cfg, w, c, sid); }
    case TryButLost(c) => if Waits(w, c) { QuitInv(cfg, w, c, Lease.SetButReplyLost(c), sid); }
    case GiveUp(c) => if Waits(w, c) { QuitInv(cfg, w, c, Lease.GiveUp(c), sid); }
    case Leave(c, lost) =>
      if At(w, c).Some? && At(w, c).value.Unlocking? {
        LeaveInv(cfg, w, c, if lost then Lease.LeaveButLost(c) else Lease.Leave(c), sid);
      }
  }

  lemma {:induction false} ExecInv(cfg: Refresh.Setup, w: World, acts: seq<Action>, sid: string)
    requires Inv(cfg, w, sid) && InTime(cfg, w, acts, sid)
    ensures Inv(cfg, Exec(cfg, w, acts), sid)
    decreases |acts|
  {
    if acts == [] {
    } else {
      NextInv(cfg, w, acts[0], sid);
      ExecInv(cfg, Next(cfg, w, acts[0]), acts[1..], sid);
    }
  }

  /** With the lease in place of the in-process lock, what a run does to a session whose lease
      nobody overstays is a run of the refresh steps under the in-process lock, whatever happens
      in other sessions. */
  lemma LeasedRunIsARun(cfg: Refresh.Setup, acts: seq<Action>, sid: string)
    requires InTime(cfg, START, acts, sid)
    ensures exists steps :: Refresh.Exec(cfg, Refresh.START, steps) == Of(Exec(cfg, START, acts).r, sid)
  {
    Refresh.Stay(cfg, Refresh.START);
    assert Of(START.r, sid) == Refresh.START;
    ExecInv(cfg, START, acts, sid);
  }

  // ---- What that says of the whole run ----

  lemma {:induction false} OnlyLooks(log: seq<Refresh.Event>, sid: string)
    ensures Refresh.Look(Only(log, sid), sid) == Refresh.Look(log, sid)
  {
    if log == [] {
    } else {
      var past, e := log[..|log| - 1], log[|log| - 1];
      assert log == past + [e];
      OnlyLooks(past, sid);
      Refresh.LookAfter(past, e, sid);
      Refresh.LookAfter(Only(past, sid), e, sid);
    }
  }

  /** Where an event of the session stands in its part of the log. */
  lemma {:induction false} OnlyAt(log: seq<Refresh.Event>, i: nat, sid: string)
    requires i < |log| && log[i].sid == sid
    ensures var k := |Only(log[..i], sid)|;
            k < |Only(log, sid)| && Only(log, sid)[k] == log[i] && Only(log, sid)[..k] == Only(log[..i], sid)
    decreases |log|
  {
    var past := log[..|log| - 1];
    if i == |past| {
    } else {
      OnlyAt(past, i, sid);
      assert past[..i] == log[..i];
      assert Only(past, sid) <= Only(log, sid);
    }
  }

  lemma SameHolders(pcs: map<nat, Refresh.Pc>, sid: string)
    ensures Where(PartOfPcs(pcs, sid), Refresh.HolderOf(sid)) == Where(pcs, Refresh.HolderOf(sid))
  {
  }

  /** A call, judged by the log before it. */
  predicate InChain(log: seq<Refresh.Event>, i: nat)
    requires i < |log| && log[i].Called?
  {
    && Refresh.Written(log[..i], log[i].sid) == Some(log[i].current)
    && (Refresh.DriftOf(log[..i], log[i].sid) != Refresh.Lost ==>
          log[i].current.refresh == Refresh.Latest(log[..i], log[i].sid))
  }

  /** So at most one caller of such a session is between lock and unlock, and every refresh
      token presented for it is the latest issued unless the write after its issue failed. */
  lemma LeasedRefreshIsSafe(cfg: Refresh.Setup, acts: seq<Action>, sid: string)
    requires InTime(cfg, START, acts, sid)
    ensures var r := Exec(cfg, START, acts).r;
            && |Where(r.pcs, Refresh.HolderOf(sid))| <= 1
            && forall i | 0 <= i < |r.log| && r.log[i].Called? && r.log[i].sid == sid :: InChain(r.log, i)
  {
    LeasedRunIsARun(cfg, acts, sid);
    var r := Exec(cfg, START, acts).r;
    var steps :| Refresh.Exec(cfg, Refresh.START, steps) == Of(r, sid);
    Refresh.OneHolderPerSession(cfg, steps, sid);
    SameHolders(r.pcs, sid);
    forall i | 0 <= i < |r.log| && r.log[i].Called? && r.log[i].sid == sid ensures InChain(r.log, i) {
      OnlyAt(r.log, i, sid);
      Refresh.RotationChain(cfg, steps, |Only(r.log[..i], sid)|);
      OnlyLooks(r.log[..i], sid);
    }
  }

  // ---- What overstaying does ----

  lemma {:induction false} ExecOneMore(cfg: Refresh.Setup, w: World, acts: seq<Action>, a: Action)
    ensures Exec(cfg, w, acts + [a]) == Next(cfg, Exec(cfg, w, acts), a)
    decreases |acts|
  {
    if acts == [] {
      assert (acts + [a])[1..] == [];
    } else {
      assert (acts + [a])[1..] == acts[1..] + [a];
      ExecOneMore(cfg, Next(cfg, w, acts[0]), acts[1..], a);
    }
  }

  /** Every lease of the run is asked for with this time to live. */
  predicate EachFor(acts: seq<Action>, ttl: int) {
    forall i | 0 <= i < |acts| && acts[i].Begin? :: acts[i].ttl == ttl
  }

  lemma EachForMore(acts: seq<Action>, a: Action, ttl: int)
    requires EachFor(acts, ttl) && (a.Begin? ==> a.ttl == ttl)
    ensures EachFor(acts + [a], ttl)
  {
  }

  ghost predicate Reached(cfg: Refresh.Setup, ttl: int, w: World) {
    exists acts :: EachFor(acts, ttl) && Exec(cfg, START, acts) == w
  }

  lemma Takes(cfg: Refresh.Setup, ttl: int, w: World, a: Action)
    requires Reached(cfg, ttl, w) && (a.Begin? ==> a.ttl == ttl)
    ensures Reached(cfg, ttl, Next(cfg, w, a))
  {
    var acts :| EachFor(acts, ttl) && Exec(cfg, START, acts) == w;
    ExecOneMore(cfg, START, acts, a);
    EachForMore(acts, a, ttl);
  }

  /** One step of a caller that only looks. */
  lemma LooksOn(cfg: Refresh.Setup, ttl: int, w: World, c: nat) returns (w': World)
    requires Reached(cfg, ttl, w) && c in w.r.pcs && Refresh.Looks(w.r.pcs[c])
    ensures Reached(cfg, ttl, w') && w' == w.(r := Refresh.To(w.r, c, Refresh.Look1(cfg, w.r, w.r.pcs[c], false)))
  {
    var a := Other(Refresh.Go(c, false, Refresh.Refused));
    Takes(cfg, ttl, w, a);
    w' := Next(cfg, w, a);
  }

  /** A caller that will refresh comes to the lease. */
  lemma ComesToLease(cfg: Refresh.Setup, ttl: int, w: World, c: nat, sid: string) returns (w': World)
    requires Reached(cfg, ttl, w) && Refresh.WillRefresh(cfg, w.r, sid) && c !in w.r.pcs
    ensures Reached(cfg, ttl, w') && w'.l == w.l
    ensures w'.r == w.r.(pcs := w'.r.pcs) && w'.r.pcs == w.r.pcs[c := Refresh.Queueing(sid)]
  {
    var a := Other(Refresh.Request(c, sid));
    Takes(cfg, ttl, w, a);
    w' := LooksOn(cfg, ttl, Next(cfg, w, a), c);
    w' := LooksOn(cfg, ttl, w', c);
  }

  lemma StartsPolling(cfg: Refresh.Setup, ttl: int, w: World, c: nat, sid: string, value: string) returns (w': World)
    requires Reached(cfg, ttl, w) && c in w.r.pcs && w.r.pcs[c] == Refresh.Queueing(sid)
    requires c !in w.l.callers && value !in w.l.used
    ensures Reached(cfg, ttl, w') && w'.r.pcs == w.r.pcs[c := Refresh.Waiting(sid)]
    ensures w'.r == w.r.(pcs := w'.r.pcs, locks := w'.r.locks)
    ensures w'.l == w.l.(callers := w'.l.callers, used := w.l.used + {value})
    ensures w'.l.callers == w.l.callers[c := Lease.Polling(sid, value, Lease.Ttl(ttl))]
  {
    Takes(cfg, ttl, w, Begin(c, value, ttl));
    w' := Next(cfg, w, Begin(c, value, ttl));
  }

  /** With no live lease of the session a poll succeeds. */
  lemma GetsIn(cfg: Refresh.Setup, ttl: int, w: World, c: nat, sid: string, value: string) returns (w': World)
    requires Reached(cfg, ttl, w) && c in w.r.pcs && w.r.pcs[c] == Refresh.Waiting(sid)
    requires c in w.l.callers && w.l.callers[c] == Lease.Polling(sid, value, Lease.Ttl(ttl))
    requires !Lease.Live(w.l.rdb, sid, w.l.clock)
    ensures Reached(cfg, ttl, w') && w'.r.pcs == w.r.pcs[c := Refresh.Rereading(sid)]
    ensures w'.r == w.r.(pcs := w'.r.pcs, locks := w'.r.locks, owner := w'.r.owner)
    ensures w'.l == w.l.(callers := w'.l.callers, rdb := w'.l.rdb) && w'.l.callers.Keys == w.l.callers.Keys
    ensures w'.l.rdb == w.l.rdb[sid := Lease.Entry(value, w.l.clock + Lease.Ttl(ttl))]
  {
    Takes(cfg, ttl, w, Try(c));
    w' := Next(cfg, w, Try(c));
  }

  lemma GetsLease(cfg: Refresh.Setup, ttl: int, w: World, c: nat, sid: string, value: string) returns (w': World)
    requires Reached(cfg, ttl, w) && c in w.r.pcs && w.r.pcs[c] == Refresh.Queueing(sid)
    requires c !in w.l.callers && value !in w.l.used && !Lease.Live(w.l.rdb, sid, w.l.clock)
    ensures Reached(cfg, ttl, w') && w'.r.pcs.Keys == w.r.pcs.Keys && w'.r.pcs[c] == Refresh.Rereading(sid)
    ensures w'.r == w.r.(pcs := w'.r.pcs, locks := w'.r.locks, owner := w'.r.owner)
    ensures w'.l.callers.Keys == w.l.callers.Keys + {c} && w'.l.used == w.l.used + {value} && w'.l.clock == w.l.clock
    ensures w'.l.rdb == w.l.rdb[sid := Lease.Entry(value, w.l.clock + Lease.Ttl(ttl))]
  {
    w' := StartsPolling(cfg, ttl, w, c, sid, value);
    w' := GetsIn(cfg, ttl, w', c, sid, value);
  }

  lemma DecidesToCall(cfg: Refresh.Setup, ttl: int, w: World, c: nat, sid: string) returns (w': World)
    requires Reached(cfg, ttl, w) && Refresh.WillRefresh(cfg, w.r, sid)
    requires c in w.r.pcs && w.r.pcs[c] == Refresh.Rereading(sid)
    ensures Reached(cfg, ttl, w') && w'.l == w.l && w'.r == w.r.(pcs := w'.r.pcs)
    ensures w'.r.pcs == w.r.pcs[c := Refresh.Calling(sid, w.r.tokens[sid].tokens)]
  {
    w' := LooksOn(cfg, ttl, w, c);
    w' := LooksOn(cfg, ttl, w', c);
  }

  lemma IsAnswered(cfg: Refresh.Setup, ttl: int, w: World, c: nat, reply: Refresh.Reply) returns (w': World)
    requires Reached(cfg, ttl, w) && c in w.r.pcs && w.r.pcs[c].Calling?
    ensures Reached(cfg, ttl, w') && w'.l == w.l && w'.r == w.r.(pcs := w'.r.pcs, log := w'.r.log)
    ensures w'.r.pcs.Keys == w.r.pcs.Keys
    ensures w'.r.log == w.r.log + [Refresh.Called(w.r.pcs[c].sid, w.r.pcs[c].tokens, w.r.clock, reply)]
  {
    var a := Other(Refresh.Go(c, false, reply));
    Takes(cfg, ttl, w, a);
    w' := Next(cfg, w, a);
  }

  lemma PresentsUnderLease(cfg: Refresh.Setup, ttl: int, w: World, c: nat, sid: string, reply: Refresh.Reply)
    returns (w': World)
    requires Reached(cfg, ttl, w) && Refresh.WillRefresh(cfg, w.r, sid)
    requires c in w.r.pcs && w.r.pcs[c] == Refresh.Rereading(sid)
    ensures Reached(cfg, ttl, w') && w'.l == w.l && w'.r == w.r.(pcs := w'.r.pcs, log := w'.r.log)
    ensures w'.r.pcs.Keys == w.r.pcs.Keys
    ensures w'.r.log == w.r.log + [Refresh.Called(sid, w.r.tokens[sid].tokens, w.r.clock, reply)]
  {
    w' := DecidesToCall(cfg, ttl, w, c, sid);
    w' := IsAnswered(cfg, ttl, w', c, reply);
  }

  /** A caller alone at the lease presents the stored refresh token, as it does under the
      in-process lock. */
  lemma Calls(cfg: Refresh.Setup, ttl: int, w: World, c: nat, sid: string, value: string, reply: Refresh.Reply)
    returns (w': World)
    requires Reached(cfg, ttl, w) && Refresh.WillRefresh(cfg, w.r, sid) && c !in w.r.pcs
    requires c !in w.l.callers && value !in w.l.used && !Lease.Live(w.l.rdb, sid, w.l.clock)
    ensures Reached(cfg, ttl, w') && w'.r.pcs.Keys == w.r.pcs.Keys + {c}
    ensures w'.r.tokens == w.r.tokens && w'.r.clock == w.r.clock
    ensures w'.r.log == w.r.log + [Refresh.Called(sid, w.r.tokens[sid].tokens, w.r.clock, reply)]
    ensures w'.l.callers.Keys == w.l.callers.Keys + {c} && w'.l.used == w.l.used + {value} && w'.l.clock == w.l.clock
    ensures w'.l.rdb == w.l.rdb[sid := Lease.Entry(value, w.l.clock + Lease.Ttl(ttl))]
  {
    var queueing := ComesToLease(cfg, ttl, w, c, sid);
    var inside := GetsLease(cfg, ttl, queueing, c, sid, value);
    w' := PresentsUnderLease(cfg, ttl, inside, c, sid, reply);
  }

  lemma LogsIn(cfg: Refresh.Setup, ttl: int, sid: string, who: Sessions.Identity, t: Refresh.TokenSet)
    returns (w: World)
    requires t.access != "" && t.refresh != "" && t.expiry == 1
    ensures Reached(cfg, ttl, w) && w.r == Refresh.JustIn(cfg, sid, who, t)
    ensures w.l.callers == map[] && w.l.used == {} && w.l.rdb == map[]
  {
    assert Exec(cfg, START, []) == START && EachFor([], ttl);
    Takes(cfg, ttl, START, Elapse(2 * SECOND));
    var later := Next(cfg, START, Elapse(2 * SECOND));
    Takes(cfg, ttl, later, Other(Refresh.LogIn(sid, who, t)));
    w := Next(cfg, later, Other(Refresh.LogIn(sid, who, t)));
  }

  lemma Overstays(cfg: Refresh.Setup, ttl: int, w: World, sid: string) returns (w': World)
    requires Reached(cfg, ttl, w) && Refresh.WillRefresh(cfg, w.r, sid) && sid in w.l.rdb
    requires w.l.rdb[sid].expiresAt == w.l.clock + Lease.Ttl(ttl)
    requires w.r.tokens[sid].expiresAt > w.r.clock + Lease.Ttl(ttl)
    ensures Reached(cfg, ttl, w') && !Lease.Live(w'.l.rdb, sid, w'.l.clock) && Refresh.WillRefresh(cfg, w'.r, sid)
    ensures w'.r == w.r.(clock := w'.r.clock) && w'.l == w.l.(clock := w'.l.clock)
  {
    Takes(cfg, ttl, w, Elapse(Lease.Ttl(ttl)));
    w' := Next(cfg, w, Elapse(Lease.Ttl(ttl)));
  }

  lemma OverstayRun(cfg: Refresh.Setup, ttl: int, sid: string, who: Sessions.Identity, t: Refresh.TokenSet,
                    renewed: Refresh.TokenSet)
    returns (w: World, at: Moment, later: Moment)
    requires t.access != "" && t.refresh != "" && t.expiry == 1 && Lease.Ttl(ttl) < cfg.limits.maxLifetime
    ensures Reached(cfg, ttl, w)
    ensures w.r.log == [Refresh.LoggedIn(sid, t), Refresh.Called(sid, t, at, Refresh.Granted(renewed)),
                        Refresh.Called(sid, t, later, Refresh.Refused)]
  {
    w := LogsIn(cfg, ttl, sid, who, t);
    at := w.r.clock;
    w := Calls(cfg, ttl, w, 0, sid, "x", Refresh.Granted(renewed));
    w := Overstays(cfg, ttl, w, sid);
    later := w.r.clock;
    w := Calls(cfg, ttl, w, 1, sid, "y", Refresh.Refused);
  }

  lemma GrantReplaces(login: Refresh.Event, call: Refresh.Event)
    requires login.LoggedIn? && call.Called? && call.sid == login.sid && call.current == login.tokens
    requires call.reply.Granted? && call.reply.tokens.refresh != "" && call.reply.tokens.refresh != call.current.refresh
    ensures Refresh.Latest([login, call], login.sid) != call.current.refresh
    ensures Refresh.DriftOf([login, call], login.sid) != Refresh.Lost
  {
    assert [login] + [call] == [login, call] && [] + [login] == [login];
    Refresh.LookAfter([], login, login.sid);
    Refresh.LookAfter([login], call, login.sid);
  }

  /** Without that, the lease does not keep the chain: for every lease time shorter than a
      session there is a run, with no failed write, in which the provider grants a new refresh
      token to a caller that overstays and the next caller presents the replaced one. */
  lemma OverstayBreaksChain(cfg: Refresh.Setup, ttl: int, who: Sessions.Identity) returns (acts: seq<Action>)
    requires Lease.Ttl(ttl) < cfg.limits.maxLifetime
    ensures EachFor(acts, ttl)
    ensures var log := Exec(cfg, START, acts).r.log;
            && |log| == 3 && log[0].LoggedIn? && log[1].Called? && log[2].Called?
            && log[1].sid == log[2].sid && log[1].current == log[2].current
            && log[1].reply.Granted? && log[1].reply.tokens.refresh != log[1].current.refresh
            && !InChain(log, 2)
  {
    var t, renewed := Refresh.TokenSet("a", "old", "", 1), Refresh.TokenSet("b", "new", "", 10);
    var w, at, later := OverstayRun(cfg, ttl, "s", who, t, renewed);
    acts :| EachFor(acts, ttl) && Exec(cfg, START, acts) == w;
    var log := w.r.log;
    assert log[..2] == [log[0], log[1]];
    GrantReplaces(log[0], log[1]);
  }
}
