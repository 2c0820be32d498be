/** Token refresh: `StoreManager.AccessToken` (internal/token/manager.go) over the in-process
    lock of internal/token/lock.go, as a step relation.

    Any number of callers interleave at single store, lock and identity-provider steps, with
    reads of the clock as steps of their own.  Logouts, expiry and lazy deletion may remove a
    token set or a session at any moment.  Other requests touch sessions through the
    lifecycle store, reading and writing back in two steps.  Every store operation may fail. */
module Refresh {
  import opened Base
  import opened Sessions

  datatype TokenSet = TokenSet(access: string, refresh: string, idToken: string, expiry: int)

  datatype Entry = Entry(tokens: TokenSet, expiresAt: int)

  datatype Setup = Setup(limits: Checked, refreshBefore: int)

  function Margin(cfg: Setup): int { if cfg.refreshBefore <= 0 then 30 * SECOND else cfg.refreshBefore }

  /** `needsRefresh`: the set is in the refresh window.  A set without an expiry never is. */
  predicate NeedsRefresh(cfg: Setup, t: TokenSet, now: int) {
    t.expiry > 0 && t.expiry * SECOND <= now + Margin(cfg)
  }

  predicate Unexpired(t: TokenSet, now: int) { t.expiry <= 0 || t.expiry * SECOND > now }

  /** What the identity provider did with a refresh token: refused it, issued a new set that
      reached us, or issued a refresh token and we got an error. */
  datatype Reply = Refused | Garbled(issued: string) | Granted(tokens: TokenSet)

  /** The refreshed set the manager accepts; `now / SECOND` is Go's `Unix()`. */
  predicate Usable(tokens: TokenSet, now: Moment) { tokens.access != "" && tokens.expiry > now / SECOND }

  function Merge(current: TokenSet, renewed: TokenSet): TokenSet {
    renewed.(refresh := if renewed.refresh == "" then current.refresh else renewed.refresh,
            idToken := if renewed.idToken == "" then current.idToken else renewed.idToken)
  }

  // ---- The log ----

  /** Logins, calls to the identity provider, successful writes of a token set, and writes or
      deletions of a token set that failed. */
  datatype Event =
    | LoggedIn(sid: string, tokens: TokenSet)
    | Called(sid: string, current: TokenSet, at: Moment, reply: Reply)
    | Persisted(sid: string, tokens: TokenSet)
    | WriteFailed(sid: string)

  function IssuedBy(e: Event): string {
    match e
    case LoggedIn(_, t) => t.refresh
    case Called(_, _, _, Granted(t)) => t.refresh
    case Called(_, _, _, Garbled(r)) => r
    case _ => ""
  }

  /** The refresh token the provider issued last for a session, as far as the log goes. */
  function Latest(log: seq<Event>, sid: string): string {
    if log == [] then ""
    else
      var past, e := log[..|log| - 1], log[|log| - 1];
      if e.sid == sid && (IssuedBy(e) != "" || e.LoggedIn?) then IssuedBy(e) else Latest(past, sid)
  }

  /** The token set written last for a session. */
  function Written(log: seq<Event>, sid: string): Option<TokenSet> {
    if log == [] then None
    else
      var past, e := log[..|log| - 1], log[|log| - 1];
      if e.sid == sid && (e.LoggedIn? || e.Persisted?) then Some(e.tokens) else Written(past, sid)
  }

  /** How the store stands to the provider: it has the refresh token issued last; one was
      issued since the last write; or the write after that issue failed and left the store
      behind. */
  datatype Drift = Saved | Unsaved | Lost

  function Drifts(d: Drift, e: Event): Drift {
    match e
    case LoggedIn(_, _) => Saved
    case Called(_, _, _, _) => if IssuedBy(e) != "" then Unsaved else d
    case Persisted(_, _) => if d == Unsaved then Saved else d
    case WriteFailed(_) => if d == Unsaved then Lost else d
  }

  function DriftOf(log: seq<Event>, sid: string): Drift {
    if log == [] then Saved
    else
      var past, e := log[..|log| - 1], log[|log| - 1];
      if e.sid == sid then Drifts(DriftOf(past, sid), e) else DriftOf(past, sid)
  }

  /** A write or deletion failed after the last call of the provider. */
  function Excused(log: seq<Event>, sid: string): bool {
    if log == [] then false
    else
      var past, e := log[..|log| - 1], log[|log| - 1];
      if e.sid == sid && e.WriteFailed? then true
      else if e.sid == sid && e.Called? then false
      else Excused(past, sid)
  }

  /** The provider was called after the last write. */
  function Pending(log: seq<Event>, sid: string): bool {
    if log == [] then false
    else
      var past, e := log[..|log| - 1], log[|log| - 1];
      if e.sid == sid && e.Called? then true
      else if e.sid == sid && e.Persisted? then false
      else Pending(past, sid)
  }

  predicate Stores(e: Event, sid: string, tokens: TokenSet) {
    e.sid == sid && (e.LoggedIn? || e.Persisted?) && e.tokens == tokens
  }

  predicate WasWritten(log: seq<Event>, sid: string, tokens: TokenSet) {
    exists i :: 0 <= i < |log| && Stores(log[i], sid, tokens)
  }

  /** What a log says about one session. */
  datatype View = View(latest: string, written: Option<TokenSet>, drift: Drift, pending: bool, excused: bool)

  function Look(log: seq<Event>, sid: string): View {
    View(Latest(log, sid), Written(log, sid), DriftOf(log, sid), Pending(log, sid), Excused(log, sid))
  }

  function Advance(v: View, e: Event): View {
    match e
    case LoggedIn(_, t) => v.(latest := t.refresh, written := Some(t), drift := Saved)
    case Called(_, _, _, _) =>
      v.(latest := if IssuedBy(e) != "" then IssuedBy(e) else v.latest, drift := Drifts(v.drift, e), pending := true,
         excused := false)
    case Persisted(_, t) => v.(written := Some(t), drift := Drifts(v.drift, e), pending := false)
    case WriteFailed(_) => v.(drift := Drifts(v.drift, e), excused := true)
  }

  lemma LookAfter(log: seq<Event>, e: Event, sid: string)
    ensures Look(log + [e], sid) == if e.sid == sid then Advance(Look(log, sid), e) else Look(log, sid)
  {
    assert (log + [e])[..|log|] == log;
  }

  lemma WrittenAfter(log: seq<Event>, e: Event, sid: string, tokens: TokenSet)
    ensures WasWritten(log, sid, tokens) || Stores(e, sid, tokens) ==> WasWritten(log + [e], sid, tokens)
  {
    var log' := log + [e];
    assert log'[|log|] == e;
    assert forall i | 0 <= i < |log| :: log'[i] == log[i];
  }

  lemma {:induction false} LastIsWritten(log: seq<Event>, sid: string)
    requires Written(log, sid).Some?
    ensures WasWritten(log, sid, Written(log, sid).value)
  {
    var past, e := log[..|log| - 1], log[|log| - 1];
    assert log == past + [e];
    if e.sid == sid && (e.LoggedIn? || e.Persisted?) {
    } else {
      LastIsWritten(past, sid);
    }
    WrittenAfter(past, e, sid, Written(log, sid).value);
  }

  // ---- The in-process lock ----

  /** `MemoryLocker`: one buffered channel per key, holding one permit when free.  The
      methods are the mutex section of `Lock`, the channel receive of its `select`, and
      the unlock closure. */
  class MemoryLocker {
    var locks: map<string, nat>

    constructor ()
      ensures locks == map[]
    {
      locks := map[];
    }

    method Ensure(key: string)
      modifies this
      ensures locks == WithSemaphore(old(locks), key)
    {
      if key !in locks {
        locks := locks[key := 1];
      }
    }

    /** Ready when the channel holds a permit; otherwise the caller stays blocked. */
    method Receive(key: string) returns (ready: bool)
      requires key in locks
      modifies this
      ensures ready <==> old(locks)[key] > 0
      ensures locks == if ready then old(locks)[key := old(locks)[key] - 1] else old(locks)
    {
      ready := locks[key] > 0;
      if ready {
        locks := locks[key := locks[key] - 1];
      }
    }

    method Unlock(key: string)
      requires key in locks
      modifies this
      ensures locks == old(locks)[key := old(locks)[key] + 1]
    {
      locks := locks[key := locks[key] + 1];
    }
  }

  function WithSemaphore(locks: map<string, nat>, key: string): map<string, nat> {
    if key in locks then locks else locks[key := 1]
  }

  // ---- The steps ----

  datatype Result = NoToken | Token(access: string, tokens: TokenSet, checkedAt: Moment)

  /** Where a caller stands.  The middle group, from `Rereading` to `Unlocking`, holds the
      refresh lock of its session; `Visiting` and `WritingBack` are other requests that
      touch a session. */
  datatype Pc =
    | Reading(sid: string)
    | Deciding(sid: string, tokens: TokenSet)
    | Queueing(sid: string)
    | Waiting(sid: string)
    | Rereading(sid: string)
    | Redeciding(sid: string, tokens: TokenSet)
    | Calling(sid: string, tokens: TokenSet)
    | Judging(sid: string, tokens: TokenSet, reply: Reply)
    | AskingSession(sid: string, tokens: TokenSet, checkedAt: Moment)
    | Touching(sid: string, tokens: TokenSet, checkedAt: Moment, session: Session)
    | Saving(sid: string, tokens: TokenSet, checkedAt: Moment, expiresAt: int)
    | DroppingTokens(sid: string)
    | DroppingSession(sid: string)
    | Unlocking(sid: string, result: Result)
    | Returned(sid: string, result: Result)
    | Visiting(sid: string)
    | WritingBack(sid: string, session: Session)

  /** `logins` is when each session began, `owner` who holds the lock of a session. */
  datatype State = State(
    clock: Moment,
    tokens: map<string, Entry>,
    sessions: Store,
    locks: map<string, nat>,
    owner: map<string, nat>,
    pcs: map<nat, Pc>,
    logins: map<string, Moment>,
    log: seq<Event>)

  const START := State(1, map[], map[], map[], map[], map[], map[], [])

  datatype Action =
    | Tick(elapsed: nat)
    | LogIn(sid: string, who: Identity, tokens: TokenSet)
    | ForgetTokens(sid: string)
    | ForgetSession(sid: string)
    | Request(c: nat, sid: string)
    | Visit(c: nat, sid: string)
    | Go(c: nat, fails: bool, reply: Reply)  // the next step of caller c
    | Cancel(c: nat)                         // its context ends while it waits for the lock

  function To(s: State, c: nat, pc: Pc): State { s.(pcs := s.pcs[c := pc]) }

  /** What a token store answers: the set, unless it is missing or has expired. */
  function Stored(tokens: map<string, Entry>, sid: string, now: Moment): Option<TokenSet> {
    if sid in tokens && (tokens[sid].expiresAt == 0 || tokens[sid].expiresAt > now)
    then Some(tokens[sid].tokens) else None
  }

  function Present(s: State, sid: string): Option<TokenSet> { Stored(s.tokens, sid, s.clock) }

  /** The reading steps of a caller: they change nothing but its own position. */
  function Look1(cfg: Setup, s: State, pc: Pc, fails: bool): Pc {
    match pc
    case Reading(sid) =>
      if fails || Present(s, sid).None? then Returned(sid, NoToken) else Deciding(sid, Present(s, sid).value)
    case Deciding(sid, t) =>
      if t.access == "" then Returned(sid, NoToken)
      else if !NeedsRefresh(cfg, t, s.clock) then Returned(sid, Token(t.access, t, s.clock))
      else if t.refresh == "" then Returned(sid, NoToken)
      else Queueing(sid)
    case Rereading(sid) =>
      if fails || Present(s, sid).None? then Unlocking(sid, NoToken) else Redeciding(sid, Present(s, sid).value)
    case Redeciding(sid, t) =>
      if !NeedsRefresh(cfg, t, s.clock) then Unlocking(sid, Token(t.access, t, s.clock))
      else if t.refresh == "" then Unlocking(sid, NoToken)
      else Calling(sid, t)
    case Judging(sid, t, reply) =>
      if reply.Granted? && Usable(reply.tokens, s.clock) then AskingSession(sid, Merge(t, reply.tokens), s.clock)
      else DroppingTokens(sid)
    case AskingSession(sid, t, at) =>
      if fails || sid !in s.sessions || Dead(cfg.limits, s.sessions[sid], s.clock) then DroppingTokens(sid)
      else if TouchDue(cfg.limits, s.sessions[sid], s.clock) then
        Touching(sid, t, at, Touched(cfg.limits, s.sessions[sid], s.clock))
      else Saving(sid, t, at, s.sessions[sid].expiresAt)
    case Visiting(sid) =>
      if fails || sid !in s.sessions || Dead(cfg.limits, s.sessions[sid], s.clock)
         || !TouchDue(cfg.limits, s.sessions[sid], s.clock)
      then Returned(sid, NoToken)
      else WritingBack(sid, Touched(cfg.limits, s.sessions[sid], s.clock))
    case _ => pc
  }

  /** What a step does to one key of a store. */
  datatype Write<T> = Leave | Put(value: T) | Remove

  function Updated<T>(m: map<string, T>, key: string, w: Write<T>): map<string, T> {
    match w
    case Leave => m
    case Put(v) => m[key := v]
    case Remove => m - {key}
  }

  /** A step of a caller that does not concern the lock: its next position, what happens to
      its session's token set and session record, and what the log gains. */
  datatype Effect = Effect(pc: Pc, onTokens: Write<Entry>, onSession: Write<Session>, event: Option<Event>)

  function Apply(s: State, c: nat, e: Effect): State {
    s.(pcs := s.pcs[c := e.pc],
       tokens := Updated(s.tokens, e.pc.sid, e.onTokens),
       sessions := Updated(s.sessions, e.pc.sid, e.onSession),
       log := Grown(s.log, e.event))
  }

  function Grown(log: seq<Event>, event: Option<Event>): seq<Event> {
    if event.None? then log else log + [event.value]
  }

  predicate Acts(pc: Pc) {
    || Looks(pc) || pc.Calling? || pc.Touching? || pc.Saving? || pc.DroppingTokens? || pc.DroppingSession?
    || pc.WritingBack?
  }

  function EffectOf(cfg: Setup, s: State, pc: Pc, fails: bool, reply: Reply): Effect
    requires Acts(pc)
  {
    match pc
    case Calling(sid, t) => Effect(Judging(sid, t, reply), Leave, Leave, Some(Called(sid, t, s.clock, reply)))
    case Touching(sid, t, at, v) =>
      if fails then Effect(DroppingTokens(sid), Leave, Leave, None)
      else Effect(Saving(sid, t, at, v.expiresAt), Leave, Put(v), None)
    case Saving(sid, t, at, expiresAt) =>
      if fails then Effect(Unlocking(sid, NoToken), Leave, Leave, Some(WriteFailed(sid)))
      else Effect(Unlocking(sid, Token(t.access, t, at)), Put(Entry(t, expiresAt)), Leave, Some(Persisted(sid, t)))
    case DroppingTokens(sid) =>
      if fails then Effect(DroppingSession(sid), Leave, Leave, Some(WriteFailed(sid)))
      else Effect(DroppingSession(sid), Remove, Leave, None)
    case DroppingSession(sid) => Effect(Unlocking(sid, NoToken), Leave, if fails then Leave else Remove, None)
    case WritingBack(sid, v) => Effect(Returned(sid, NoToken), Leave, if fails then Leave else Put(v), None)
    case _ => Effect(Look1(cfg, s, pc, fails), Leave, Leave, None)
  }

  function Queue(s: State, c: nat): State
    requires c in s.pcs
  {
    var sid := s.pcs[c].sid;
    To(s, c, Waiting(sid)).(locks := WithSemaphore(s.locks, sid))
  }

  function Acquire(s: State, c: nat): State
    requires c in s.pcs
  {
    var sid := s.pcs[c].sid;
    if sid in s.locks && s.locks[sid] > 0 then
      To(s, c, Rereading(sid)).(locks := s.locks[sid := s.locks[sid] - 1], owner := s.owner[sid := c])
    else s
  }

  function Unlock(s: State, c: nat): State
    requires c in s.pcs && s.pcs[c].Unlocking?
  {
    var p := s.pcs[c];
    To(s, c, Returned(p.sid, p.result))
      .(locks := if p.sid in s.locks then s.locks[p.sid := s.locks[p.sid] + 1] else s.locks, owner := s.owner - {p.sid})
  }

  predicate Looks(pc: Pc) {
    pc.Reading? || pc.Deciding? || pc.Rereading? || pc.Redeciding? || pc.Judging? || pc.AskingSession? || pc.Visiting?
  }

  function GoOn(cfg: Setup, s: State, c: nat, fails: bool, reply: Reply): State
    requires c in s.pcs
  {
    var pc := s.pcs[c];
    if Acts(pc) then Apply(s, c, EffectOf(cfg, s, pc, fails, reply))
    else if pc.Queueing? then Queue(s, c)
    else if pc.Waiting? then Acquire(s, c)
    else if pc.Unlocking? then Unlock(s, c)
    else s
  }

  /** Sessions and tokens of a new login share the expiry now + MaxLifetime. */
  function Enrol(cfg: Setup, s: State, sid: string, who: Identity, tokens: TokenSet): State {
    s.(tokens := s.tokens[sid := Entry(tokens, s.clock + cfg.limits.maxLifetime)],
       sessions := s.sessions[sid := Record(cfg.limits, sid, who, s.clock)],
       logins := s.logins[sid := s.clock],
       log := s.log + [LoggedIn(sid, tokens)])
  }

  function Next(cfg: Setup, s: State, a: Action): State {
    match a
    case Tick(elapsed) => s.(clock := s.clock + elapsed)
    case LogIn(sid, who, tokens) => if sid in s.logins then s else Enrol(cfg, s, sid, who, tokens)
    case ForgetTokens(sid) => s.(tokens := s.tokens - {sid})
    case ForgetSession(sid) => s.(sessions := s.sessions - {sid})
    case Request(c, sid) => if c in s.pcs then s else To(s, c, Reading(sid))
    case Visit(c, sid) => if c in s.pcs then s else To(s, c, Visiting(sid))
    case Go(c, fails, reply) => if c in s.pcs then GoOn(cfg, s, c, fails, reply) else s
    case Cancel(c) => if c in s.pcs && s.pcs[c].Waiting? then To(s, c, Returned(s.pcs[c].sid, NoToken)) else s
  }

  function Exec(cfg: Setup, s: State, acts: seq<Action>): State
    decreases |acts|
  {
    if acts == [] then s else Exec(cfg, Next(cfg, s, acts[0]), acts[1..])
  }

  // ---- Invariants ----

  predicate Holds(pc: Pc) {
    || pc.Rereading? || pc.Redeciding? || pc.Calling? || pc.Judging? || pc.AskingSession? || pc.Touching?
    || pc.Saving? || pc.DroppingTokens? || pc.DroppingSession? || pc.Unlocking?
  }

  /** The provider has answered and the store does not know yet. */
  predicate Unsettled(pc: Pc) {
    pc.Judging? || pc.AskingSession? || pc.Touching? || pc.Saving? || pc.DroppingTokens?
  }

  ghost predicate LockInv(locks: map<string, nat>, owner: map<string, nat>, pcs: map<nat, Pc>) {
    && (forall c | c in pcs && Holds(pcs[c]) ::
          pcs[c].sid in locks && pcs[c].sid in owner && owner[pcs[c].sid] == c)
    && (forall sid | sid in owner :: owner[sid] in pcs && Holds(pcs[owner[sid]]) && pcs[owner[sid]].sid == sid)
    && (forall sid | sid in locks :: locks[sid] == if sid in owner then 0 else 1)
    && (forall sid | sid in owner :: sid in locks)
  }

  /** Nothing was lost and nothing issued since the last write: what was written is the latest. */
  predicate Aligned(v: View) { v.drift == Saved && v.written.Some? ==> v.written.value.refresh == v.latest }

  /** The set read under the lock is the one last written; what the provider issued last has
      been saved or lost, and a call that was not followed by a write was followed by one that
      failed. */
  predicate Settled(v: View, t: TokenSet) {
    v.written == Some(t) && Aligned(v) && v.drift != Unsaved && (v.pending ==> v.excused)
  }

  /** The refresh token a holder is about to write: the one just issued, or else the old one. */
  predicate Carries(v: View, refresh: string) {
    v.written.Some? && refresh == if v.drift == Unsaved then v.latest else v.written.value.refresh
  }

  predicate HasAccess(v: View) { v.written.Some? && v.written.value.access != "" }

  predicate Refreshed(v: View, t: TokenSet, at: Moment, clock: Moment) {
    t.access != "" && Unexpired(t, at) && at <= clock && Carries(v, t.refresh)
  }

  predicate Sound(v: View, r: Result, clock: Moment) {
    r.Token? ==> r.access == r.tokens.access != "" && Unexpired(r.tokens, r.checkedAt) && r.checkedAt <= clock
  }

  /** What a caller may rely on, given the log's view of its session. */
  predicate Local(cfg: Setup, v: View, clock: Moment, pc: Pc) {
    (Holds(pc) ==> v.written.Some?) &&
    match pc
    case Queueing(_) => HasAccess(v)
    case Waiting(_) => HasAccess(v)
    case Rereading(_) => HasAccess(v)
    case Redeciding(_, t) => HasAccess(v) && Settled(v, t)
    case Calling(_, t) => Settled(v, t) && t.refresh != "" && NeedsRefresh(cfg, t, clock)
    case Judging(_, t, reply) => reply.Granted? ==> Carries(v, Merge(t, reply.tokens).refresh)
    case AskingSession(_, t, at) => Refreshed(v, t, at, clock)
    case Touching(_, t, at, _) => Refreshed(v, t, at, clock)
    case Saving(_, t, at, _) => Refreshed(v, t, at, clock)
    case Unlocking(_, r) => Sound(v, r, clock)
    case Returned(_, r) => Sound(v, r, clock)
    case _ => true
  }

  ghost predicate LocalInv(cfg: Setup, log: seq<Event>, clock: Moment, pcs: map<nat, Pc>) {
    forall c | c in pcs :: Local(cfg, Look(log, pcs[c].sid), clock, pcs[c])
  }

  predicate Busy(owner: map<string, nat>, pcs: map<nat, Pc>, sid: string) {
    sid in owner && owner[sid] in pcs && Unsettled(pcs[owner[sid]])
  }

  ghost predicate StoreInv(log: seq<Event>, tokens: map<string, Entry>, owner: map<string, nat>, pcs: map<nat, Pc>) {
    forall sid | sid in tokens ::
      && Look(log, sid).written == Some(tokens[sid].tokens)
      && (!Busy(owner, pcs, sid) ==> Settled(Look(log, sid), tokens[sid].tokens))
  }

  const BLANK := View("", None, Saved, false, false)

  ghost predicate KnownInv(log: seq<Event>, logins: map<string, Moment>) {
    forall sid | sid !in logins :: Look(log, sid) == BLANK
  }

  /** A call to the provider, judged by the log before it. */
  predicate ProperCall(cfg: Setup, v: View, e: Event)
    requires e.Called?
  {
    && Settled(v, e.current)
    && e.current.refresh != "" && NeedsRefresh(cfg, e.current, e.at)
  }

  /** A session logs in once; what is written later has an access token, and the refresh
      token just issued or else the old one. */
  predicate Fitting(v: View, e: Event) {
    && (e.LoggedIn? ==> v.written.None?)
    && (e.Persisted? ==> e.tokens.access != "" && Carries(v, e.tokens.refresh))
  }

  ghost predicate Steady(log: seq<Event>) {
    forall i | 0 <= i < |log| :: Fitting(Look(log[..i], log[i].sid), log[i])
  }

  ghost predicate Proper(cfg: Setup, log: seq<Event>) {
    && (forall i | 0 <= i < |log| :: log[i].Called? ==> ProperCall(cfg, Look(log[..i], log[i].sid), log[i]))
    && Steady(log)
  }

  /** Every token set a caller has in hand was written for that caller's session. */
  predicate Genuine(log: seq<Event>, pc: Pc) {
    match pc
    case Deciding(sid, t) => WasWritten(log, sid, t)
    case Redeciding(sid, t) => WasWritten(log, sid, t)
    case Unlocking(sid, r) => r.Token? ==> WasWritten(log, sid, r.tokens)
    case Returned(sid, r) => r.Token? ==> WasWritten(log, sid, r.tokens)
    case _ => true
  }

  ghost predicate GenuineInv(log: seq<Event>, pcs: map<nat, Pc>) {
    forall c | c in pcs :: Genuine(log, pcs[c])
  }

  /** Everything that ends with a session ends MaxLifetime after its login. */
  predicate EndsOnTime(cfg: Setup, logins: map<string, Moment>, sid: string, expiresAt: int) {
    sid in logins && expiresAt == logins[sid] + cfg.limits.maxLifetime
  }

  predicate SessionOnTime(cfg: Setup, logins: map<string, Moment>, sid: string, v: Session) {
    EndsOnTime(cfg, logins, sid, v.expiresAt) && v.createdAt == logins[sid]
  }

  predicate PcOnTime(cfg: Setup, logins: map<string, Moment>, pc: Pc) {
    match pc
    case Touching(sid, _, _, v) => SessionOnTime(cfg, logins, sid, v)
    case WritingBack(sid, v) => SessionOnTime(cfg, logins, sid, v)
    case Saving(sid, _, _, expiresAt) => EndsOnTime(cfg, logins, sid, expiresAt)
    case _ => true
  }

  ghost predicate LifeInv(cfg: Setup, logins: map<string, Moment>, tokens: map<string, Entry>, sessions: Store,
                          pcs: map<nat, Pc>) {
    && (forall sid | sid in tokens :: EndsOnTime(cfg, logins, sid, tokens[sid].expiresAt))
    && (forall sid | sid in sessions :: SessionOnTime(cfg, logins, sid, sessions[sid]))
    && (forall c | c in pcs :: PcOnTime(cfg, logins, pcs[c]))
  }

  ghost predicate Inv(cfg: Setup, s: State) {
    && LockInv(s.locks, s.owner, s.pcs)
    && LocalInv(cfg, s.log, s.clock, s.pcs)
    && StoreInv(s.log, s.tokens, s.owner, s.pcs)
    && KnownInv(s.log, s.logins)
    && Proper(cfg, s.log)
    && GenuineInv(s.log, s.pcs)
    && LifeInv(cfg, s.logins, s.tokens, s.sessions, s.pcs)
  }

  // ---- The lock ----

  lemma MoveLock(locks: map<string, nat>, owner: map<string, nat>, pcs: map<nat, Pc>, c: nat, pc: Pc)
    requires LockInv(locks, owner, pcs)
    requires Holds(pc) == (c in pcs && Holds(pcs[c])) && (Holds(pc) ==> pc.sid == pcs[c].sid)
    ensures LockInv(locks, owner, pcs[c := pc])
  {
  }

  lemma QueueLock(locks: map<string, nat>, owner: map<string, nat>, pcs: map<nat, Pc>, sid: string)
    requires LockInv(locks, owner, pcs)
    ensures LockInv(WithSemaphore(locks, sid), owner, pcs)
  {
  }

  lemma AcquireLock(locks: map<string, nat>, owner: map<string, nat>, pcs: map<nat, Pc>, c: nat, sid: string)
    requires LockInv(locks, owner, pcs) && c in pcs && !Holds(pcs[c]) && sid in locks && locks[sid] > 0
    ensures LockInv(locks[sid := locks[sid] - 1], owner[sid := c], pcs[c := Rereading(sid)])
  {
    assert sid !in owner;
  }

  lemma ReleaseLock(locks: map<string, nat>, owner: map<string, nat>, pcs: map<nat, Pc>, c: nat, pc: Pc)
    requires LockInv(locks, owner, pcs) && c in pcs && Holds(pcs[c]) && !Holds(pc)
    ensures var sid := pcs[c].sid;
            sid in locks && LockInv(locks[sid := locks[sid] + 1], owner - {sid}, pcs[c := pc])
  {
  }

  // ---- One step of a caller, without the lock ----

  /** A reading step keeps the session and keeps, or keeps off, the lock. */
  lemma LookKeeps(cfg: Setup, s: State, pc: Pc, fails: bool)
    requires Looks(pc)
    ensures var pc' := Look1(cfg, s, pc, fails);
            pc'.sid == pc.sid && Holds(pc') == Holds(pc) && Unsettled(pc') == Unsettled(pc)
  {
  }

  /** An effect concerns one session, keeps the lock, and settles the provider's answer
      exactly when it writes, removes, or logs a failure to do so. */
  predicate WellFormed(pc: Pc, e: Effect) {
    && e.pc.sid == pc.sid && Holds(e.pc) == Holds(pc)
    && (e.event.Some? ==> Holds(pc) && e.event.value.sid == pc.sid && !e.event.value.LoggedIn?)
    && (e.onTokens.Put? <==> e.event.Some? && e.event.value.Persisted?)
    && (e.onTokens.Put? ==> e.event.value.tokens == e.onTokens.value.tokens)
    && (e.event.Some? && e.event.value.Called? ==> Unsettled(e.pc))
    && (Unsettled(pc) && !Unsettled(e.pc) ==>
          e.onTokens != Leave || (e.event.Some? && e.event.value.WriteFailed?))
    && (e.onTokens.Put? ==> Unsettled(pc))
  }

  lemma EffectWellFormed(cfg: Setup, s: State, pc: Pc, fails: bool, reply: Reply)
    requires Acts(pc)
    ensures WellFormed(pc, EffectOf(cfg, s, pc, fails, reply))
  {
    if Looks(pc) {
      LookKeeps(cfg, s, pc, fails);
    }
  }

  // Lifetimes.

  predicate EffectOnTime(cfg: Setup, logins: map<string, Moment>, e: Effect) {
    && PcOnTime(cfg, logins, e.pc)
    && (e.onTokens.Put? ==> EndsOnTime(cfg, logins, e.pc.sid, e.onTokens.value.expiresAt))
    && (e.onSession.Put? ==> SessionOnTime(cfg, logins, e.pc.sid, e.onSession.value))
  }

  lemma LookOnTime(cfg: Setup, s: State, pc: Pc, fails: bool)
    requires Looks(pc)
    requires forall sid | sid in s.sessions :: SessionOnTime(cfg, s.logins, sid, s.sessions[sid])
    ensures PcOnTime(cfg, s.logins, Look1(cfg, s, pc, fails))
  {
  }

  lemma EffectIsOnTime(cfg: Setup, s: State, pc: Pc, fails: bool, reply: Reply)
    requires Acts(pc) && PcOnTime(cfg, s.logins, pc)
    requires forall sid | sid in s.sessions :: SessionOnTime(cfg, s.logins, sid, s.sessions[sid])
    ensures EffectOnTime(cfg, s.logins, EffectOf(cfg, s, pc, fails, reply))
  {
    if Looks(pc) {
      LookOnTime(cfg, s, pc, fails);
    }
  }

  lemma ApplyLife(cfg: Setup, s: State, c: nat, e: Effect)
    requires LifeInv(cfg, s.logins, s.tokens, s.sessions, s.pcs) && EffectOnTime(cfg, s.logins, e)
    ensures var s' := Apply(s, c, e); LifeInv(cfg, s'.logins, s'.tokens, s'.sessions, s'.pcs)
  {
  }

  // Views.

  function NewView(v: View, event: Option<Event>): View {
    if event.None? then v else Advance(v, event.value)
  }

  lemma LookGrown(log: seq<Event>, event: Option<Event>, sid: string)
    ensures Look(Grown(log, event), sid)
            == if event.Some? && event.value.sid == sid then Advance(Look(log, sid), event.value) else Look(log, sid)
  {
    if event.Some? {
      LookAfter(log, event.value, sid);
    }
  }

  /** What a caller knows survives the passing of time and the steps of others. */
  lemma LocalLater(cfg: Setup, v: View, clock: Moment, v': View, clock': Moment, pc: Pc)
    requires Local(cfg, v, clock, pc) && clock <= clock'
    requires (Holds(pc) ==> v' == v) && (HasAccess(v) ==> HasAccess(v'))
    ensures Local(cfg, v', clock', pc)
  {
  }

  /** The token set a caller finds in the store. */
  predicate Finds(s: State, v: View, sid: string) {
    sid in s.tokens ==> Settled(v, s.tokens[sid].tokens)
  }

  lemma LookLocal(cfg: Setup, s: State, v: View, pc: Pc, fails: bool)
    requires Looks(pc) && Local(cfg, v, s.clock, pc)
    requires pc.Deciding? && pc.tokens.access != "" ==> HasAccess(v)
    requires pc.Rereading? ==> Finds(s, v, pc.sid)
    ensures Local(cfg, v, s.clock, Look1(cfg, s, pc, fails))
  {
    if pc.Judging? && pc.reply.Granted? && Usable(pc.reply.tokens, s.clock) {
      assert pc.reply.tokens.expiry * SECOND > s.clock;
    }
  }

  lemma EffectLocal(cfg: Setup, s: State, v: View, pc: Pc, fails: bool, reply: Reply)
    requires Acts(pc) && Local(cfg, v, s.clock, pc)
    requires pc.Deciding? && pc.tokens.access != "" ==> HasAccess(v)
    requires pc.Rereading? ==> Finds(s, v, pc.sid)
    requires Aligned(v)
    ensures var e := EffectOf(cfg, s, pc, fails, reply);
            && Local(cfg, NewView(v, e.event), s.clock, e.pc)
            && (e.event.Some? && e.event.value.Called? ==> ProperCall(cfg, v, e.event.value))
            && (e.onTokens.Put? ==>
                  Settled(NewView(v, e.event), e.onTokens.value.tokens) && Fitting(v, e.event.value))
            && (HasAccess(v) ==> HasAccess(NewView(v, e.event)))
  {
    if Looks(pc) {
      LookLocal(cfg, s, v, pc, fails);
    }
  }

  lemma SteadyPast(log: seq<Event>, e: Event)
    requires Steady(log + [e])
    ensures Steady(log) && Fitting(Look(log, e.sid), e)
  {
    var log' := log + [e];
    assert log'[|log|] == e && log'[..|log|] == log;
    assert forall i | 0 <= i < |log| :: log'[i] == log[i] && log'[..i] == log[..i];
  }

  /** Once a session's set has an access token, whatever is written later has one. */
  lemma {:induction false} AccessIsKept(log: seq<Event>, sid: string, t: TokenSet)
    requires Steady(log) && WasWritten(log, sid, t) && t.access != ""
    ensures HasAccess(Look(log, sid))
  {
    var past, e := log[..|log| - 1], log[|log| - 1];
    assert log == past + [e];
    SteadyPast(past, e);
    LookAfter(past, e, sid);
    if Stores(e, sid, t) {
    } else {
      assert WasWritten(past, sid, t);
      AccessIsKept(past, sid, t);
    }
  }

  lemma {:induction false} AlwaysAligned(log: seq<Event>, sid: string)
    requires Steady(log)
    ensures Aligned(Look(log, sid))
  {
    if log == [] {
    } else {
      var past, e := log[..|log| - 1], log[|log| - 1];
      assert log == past + [e];
      SteadyPast(past, e);
      LookAfter(past, e, sid);
      AlwaysAligned(past, sid);
    }
  }

  lemma ProperAfter(cfg: Setup, log: seq<Event>, e: Event)
    requires Proper(cfg, log)
    requires e.Called? ==> ProperCall(cfg, Look(log, e.sid), e)
    requires Fitting(Look(log, e.sid), e)
    ensures Proper(cfg, log + [e])
  {
    var log' := log + [e];
    assert log'[..|log|] == log;
    assert forall i | 0 <= i < |log| :: log'[i] == log[i] && log'[..i] == log[..i];
  }

  // The invariants after an effect.

  lemma ApplyLocal(cfg: Setup, s: State, c: nat, e: Effect)
    requires LockInv(s.locks, s.owner, s.pcs) && LocalInv(cfg, s.log, s.clock, s.pcs)
    requires c in s.pcs && WellFormed(s.pcs[c], e)
    requires var v := Look(s.log, e.pc.sid);
             Local(cfg, NewView(v, e.event), s.clock, e.pc) && (HasAccess(v) ==> HasAccess(NewView(v, e.event)))
    ensures LocalInv(cfg, Grown(s.log, e.event), s.clock, s.pcs[c := e.pc])
  {
    var log', pcs' := Grown(s.log, e.event), s.pcs[c := e.pc];
    forall d | d in pcs'
      ensures Local(cfg, Look(log', pcs'[d].sid), s.clock, pcs'[d])
    {
      LookGrown(s.log, e.event, pcs'[d].sid);
      if d != c {
        LocalLater(cfg, Look(s.log, s.pcs[d].sid), s.clock, Look(log', s.pcs[d].sid), s.clock, s.pcs[d]);
      }
    }
  }

  lemma BusyElsewhere(s: State, c: nat, pc: Pc, sid: string)
    requires LockInv(s.locks, s.owner, s.pcs) && c in s.pcs && (Holds(s.pcs[c]) ==> s.pcs[c].sid != sid)
    ensures Busy(s.owner, s.pcs[c := pc], sid) == Busy(s.owner, s.pcs, sid)
  {
  }

  /** The entry of the caller's own session, before and after. */
  lemma OwnEntry(v: View, pc: Pc, e: Effect, t: TokenSet, busy: bool)
    requires WellFormed(pc, e) && e.onTokens == Leave && Aligned(v)
    requires v.written == Some(t) && (busy || Settled(v, t))
    requires Holds(pc) ==> busy == Unsettled(pc)
    ensures var v' := NewView(v, e.event);
            v'.written == Some(t) && (Settled(v', t) || if Holds(pc) then Unsettled(e.pc) else busy)
  {
  }

  /** The entry of a session is as the log says, after the effect. */
  ghost predicate EntryFits(s: State, c: nat, e: Effect, sid: string, t: TokenSet) {
    var v := Look(Grown(s.log, e.event), sid);
    v.written == Some(t) && (!Busy(s.owner, s.pcs[c := e.pc], sid) ==> Settled(v, t))
  }

  lemma OtherEntryFits(s: State, c: nat, e: Effect, sid: string)
    requires LockInv(s.locks, s.owner, s.pcs) && StoreInv(s.log, s.tokens, s.owner, s.pcs)
    requires c in s.pcs && WellFormed(s.pcs[c], e) && sid != e.pc.sid && sid in s.tokens
    ensures EntryFits(s, c, e, sid, s.tokens[sid].tokens)
  {
    LookGrown(s.log, e.event, sid);
    BusyElsewhere(s, c, e.pc, sid);
  }

  lemma LeftEntryFits(s: State, c: nat, e: Effect, sid: string)
    requires LockInv(s.locks, s.owner, s.pcs) && StoreInv(s.log, s.tokens, s.owner, s.pcs)
    requires c in s.pcs && WellFormed(s.pcs[c], e) && e.onTokens == Leave && sid == e.pc.sid && sid in s.tokens
    requires Aligned(Look(s.log, sid))
    ensures EntryFits(s, c, e, sid, s.tokens[sid].tokens)
  {
    LookGrown(s.log, e.event, sid);
    OwnEntry(Look(s.log, sid), s.pcs[c], e, s.tokens[sid].tokens, Busy(s.owner, s.pcs, sid));
    if !Holds(s.pcs[c]) {
      BusyElsewhere(s, c, e.pc, sid);
    }
  }

  lemma ApplyStoreAt(s: State, c: nat, e: Effect, sid: string)
    requires LockInv(s.locks, s.owner, s.pcs) && StoreInv(s.log, s.tokens, s.owner, s.pcs)
    requires c in s.pcs && WellFormed(s.pcs[c], e) && Aligned(Look(s.log, e.pc.sid))
    requires e.onTokens.Put? ==> Settled(NewView(Look(s.log, e.pc.sid), e.event), e.onTokens.value.tokens)
    requires sid in Updated(s.tokens, e.pc.sid, e.onTokens)
    ensures EntryFits(s, c, e, sid, Updated(s.tokens, e.pc.sid, e.onTokens)[sid].tokens)
  {
    if sid != e.pc.sid {
      OtherEntryFits(s, c, e, sid);
    } else if e.onTokens == Leave {
      LeftEntryFits(s, c, e, sid);
    } else {
      LookGrown(s.log, e.event, sid);
    }
  }

  lemma ApplyStore(s: State, c: nat, e: Effect)
    requires LockInv(s.locks, s.owner, s.pcs) && StoreInv(s.log, s.tokens, s.owner, s.pcs)
    requires c in s.pcs && WellFormed(s.pcs[c], e) && Aligned(Look(s.log, e.pc.sid))
    requires e.onTokens.Put? ==> Settled(NewView(Look(s.log, e.pc.sid), e.event), e.onTokens.value.tokens)
    ensures var s' := Apply(s, c, e); StoreInv(s'.log, s'.tokens, s'.owner, s'.pcs)
  {
    forall sid | sid in Updated(s.tokens, e.pc.sid, e.onTokens)
      ensures EntryFits(s, c, e, sid, Updated(s.tokens, e.pc.sid, e.onTokens)[sid].tokens)
    {
      ApplyStoreAt(s, c, e, sid);
    }
  }

  lemma GrowKnown(log: seq<Event>, logins: map<string, Moment>, event: Option<Event>)
    requires KnownInv(log, logins)
    requires event.Some? ==> event.value.sid in logins
    ensures KnownInv(Grown(log, event), logins)
  {
    forall sid | sid !in logins
      ensures Look(Grown(log, event), sid) == BLANK
    {
      LookGrown(log, event, sid);
    }
  }

  lemma GrowGenuine(log: seq<Event>, event: Option<Event>, pc: Pc)
    requires Genuine(log, pc)
    ensures Genuine(Grown(log, event), pc)
  {
    if event.Some? {
      match pc
      case Deciding(sid, t) => WrittenAfter(log, event.value, sid, t);
      case Redeciding(sid, t) => WrittenAfter(log, event.value, sid, t);
      case Unlocking(sid, r) =>
        if r.Token? {
          WrittenAfter(log, event.value, sid, r.tokens);
        }
      case Returned(sid, r) =>
        if r.Token? {
          WrittenAfter(log, event.value, sid, r.tokens);
        }
      case _ =>
    }
  }

  lemma LookGenuine(cfg: Setup, s: State, pc: Pc, fails: bool)
    requires Looks(pc) && Genuine(s.log, pc)
    requires pc.sid in s.tokens ==> WasWritten(s.log, pc.sid, s.tokens[pc.sid].tokens)
    ensures Genuine(s.log, Look1(cfg, s, pc, fails))
  {
  }

  lemma EffectGenuine(cfg: Setup, s: State, pc: Pc, fails: bool, reply: Reply)
    requires Acts(pc) && Genuine(s.log, pc)
    requires pc.sid in s.tokens ==> WasWritten(s.log, pc.sid, s.tokens[pc.sid].tokens)
    ensures var e := EffectOf(cfg, s, pc, fails, reply); Genuine(Grown(s.log, e.event), e.pc)
  {
    if Looks(pc) {
      LookGenuine(cfg, s, pc, fails);
    } else if pc.Saving? && !fails {
      WrittenAfter(s.log, Persisted(pc.sid, pc.tokens), pc.sid, pc.tokens);
    }
  }

  lemma ApplyGenuine(s: State, c: nat, e: Effect)
    requires GenuineInv(s.log, s.pcs) && Genuine(Grown(s.log, e.event), e.pc)
    ensures GenuineInv(Grown(s.log, e.event), s.pcs[c := e.pc])
  {
    forall d | d in s.pcs && d != c
      ensures Genuine(Grown(s.log, e.event), s.pcs[d])
    {
      GrowGenuine(s.log, e.event, s.pcs[d]);
    }
  }

  /** The facts an effect needs, from the invariant. */
  lemma ActPremises(cfg: Setup, s: State, c: nat)
    requires Inv(cfg, s) && c in s.pcs && Acts(s.pcs[c])
    ensures var pc := s.pcs[c];
            var v := Look(s.log, pc.sid);
            && Local(cfg, v, s.clock, pc) && Genuine(s.log, pc) && PcOnTime(cfg, s.logins, pc)
            && (pc.Deciding? && pc.tokens.access != "" ==> HasAccess(v))
            && (pc.Rereading? ==> Finds(s, v, pc.sid)) && Aligned(v)
            && (pc.sid in s.tokens ==> WasWritten(s.log, pc.sid, s.tokens[pc.sid].tokens))
  {
    var pc := s.pcs[c];
    AlwaysAligned(s.log, pc.sid);
    if pc.sid in s.tokens {
      LastIsWritten(s.log, pc.sid);
    }
    if pc.Deciding? && pc.tokens.access != "" {
      AccessIsKept(s.log, pc.sid, pc.tokens);
    }
    if pc.Rereading? {
      assert s.owner[pc.sid] == c;
    }
  }

  lemma ApplyInv(cfg: Setup, s: State, c: nat, e: Effect)
    requires Inv(cfg, s) && c in s.pcs && WellFormed(s.pcs[c], e)
    requires EffectOnTime(cfg, s.logins, e) && Genuine(Grown(s.log, e.event), e.pc)
    requires var v := Look(s.log, e.pc.sid);
             && Local(cfg, NewView(v, e.event), s.clock, e.pc) && (HasAccess(v) ==> HasAccess(NewView(v, e.event)))
             && (e.event.Some? && e.event.value.Called? ==> ProperCall(cfg, v, e.event.value))
             && (e.onTokens.Put? ==>
                  Settled(NewView(v, e.event), e.onTokens.value.tokens) && Fitting(v, e.event.value))
    ensures Inv(cfg, Apply(s, c, e))
  {
    MoveLock(s.locks, s.owner, s.pcs, c, e.pc);
    ApplyLocal(cfg, s, c, e);
    AlwaysAligned(s.log, e.pc.sid);
    ApplyStore(s, c, e);
    GrowKnown(s.log, s.logins, e.event);
    if e.event.Some? {
      ProperAfter(cfg, s.log, e.event.value);
    }
    ApplyGenuine(s, c, e);
    ApplyLife(cfg, s, c, e);
  }

  lemma ActInv(cfg: Setup, s: State, c: nat, fails: bool, reply: Reply)
    requires Inv(cfg, s) && c in s.pcs && Acts(s.pcs[c])
    ensures Inv(cfg, Apply(s, c, EffectOf(cfg, s, s.pcs[c], fails, reply)))
  {
    var pc := s.pcs[c];
    ActPremises(cfg, s, c);
    EffectWellFormed(cfg, s, pc, fails, reply);
    EffectIsOnTime(cfg, s, pc, fails, reply);
    EffectLocal(cfg, s, Look(s.log, pc.sid), pc, fails, reply);
    EffectGenuine(cfg, s, pc, fails, reply);
    ApplyInv(cfg, s, c, EffectOf(cfg, s, pc, fails, reply));
  }

  // ---- The other steps ----

  /** Nobody starts being unsettled when the lock changes hands. */
  lemma Reown(s: State, owner: map<string, nat>, pcs: map<nat, Pc>)
    requires StoreInv(s.log, s.tokens, s.owner, s.pcs)
    requires forall sid | sid in s.tokens && Busy(s.owner, s.pcs, sid) :: Busy(owner, pcs, sid)
    ensures StoreInv(s.log, s.tokens, owner, pcs)
  {
  }

  lemma MoveLocal(cfg: Setup, s: State, c: nat, pc: Pc)
    requires LocalInv(cfg, s.log, s.clock, s.pcs) && Local(cfg, Look(s.log, pc.sid), s.clock, pc)
    ensures LocalInv(cfg, s.log, s.clock, s.pcs[c := pc])
  {
  }

  lemma MoveStore(s: State, c: nat, pc: Pc)
    requires LockInv(s.locks, s.owner, s.pcs) && StoreInv(s.log, s.tokens, s.owner, s.pcs)
    requires c in s.pcs ==> !Unsettled(s.pcs[c])
    ensures StoreInv(s.log, s.tokens, s.owner, s.pcs[c := pc])
  {
    Reown(s, s.owner, s.pcs[c := pc]);
  }

  lemma MoveGenuine(log: seq<Event>, pcs: map<nat, Pc>, c: nat, pc: Pc)
    requires GenuineInv(log, pcs) && Genuine(log, pc)
    ensures GenuineInv(log, pcs[c := pc])
  {
  }

  lemma MoveLife(cfg: Setup, s: State, c: nat, pc: Pc)
    requires LifeInv(cfg, s.logins, s.tokens, s.sessions, s.pcs) && PcOnTime(cfg, s.logins, pc)
    ensures LifeInv(cfg, s.logins, s.tokens, s.sessions, s.pcs[c := pc])
  {
  }

  /** All invariants but the lock's own, for given callers and owners. */
  ghost predicate Rest(cfg: Setup, s: State, owner: map<string, nat>, pcs: map<nat, Pc>) {
    && LocalInv(cfg, s.log, s.clock, pcs) && StoreInv(s.log, s.tokens, owner, pcs) && GenuineInv(s.log, pcs)
    && KnownInv(s.log, s.logins) && Proper(cfg, s.log) && LifeInv(cfg, s.logins, s.tokens, s.sessions, pcs)
  }

  function Placed(s: State, pcs: map<nat, Pc>, locks: map<string, nat>, owner: map<string, nat>): State {
    s.(pcs := pcs, locks := locks, owner := owner)
  }

  lemma PlacedInv(cfg: Setup, s: State, pcs: map<nat, Pc>, locks: map<string, nat>, owner: map<string, nat>)
    requires LockInv(locks, owner, pcs) && Rest(cfg, s, owner, pcs)
    ensures Inv(cfg, Placed(s, pcs, locks, owner))
  {
  }

  /** A caller moves without touching a store or the log. */
  lemma MoveRest(cfg: Setup, s: State, c: nat, pc: Pc)
    requires Inv(cfg, s) && (c in s.pcs ==> !Unsettled(s.pcs[c]))
    requires Local(cfg, Look(s.log, pc.sid), s.clock, pc) && Genuine(s.log, pc) && PcOnTime(cfg, s.logins, pc)
    ensures Rest(cfg, s, s.owner, s.pcs[c := pc])
  {
    MoveLocal(cfg, s, c, pc);
    MoveStore(s, c, pc);
    MoveGenuine(s.log, s.pcs, c, pc);
    MoveLife(cfg, s, c, pc);
  }

  /** A new or moved caller that stays off the lock. */
  lemma MoveInv(cfg: Setup, s: State, c: nat, pc: Pc)
    requires Inv(cfg, s) && !Holds(pc) && (c in s.pcs ==> !Holds(s.pcs[c]))
    requires Local(cfg, Look(s.log, pc.sid), s.clock, pc) && Genuine(s.log, pc) && PcOnTime(cfg, s.logins, pc)
    ensures Inv(cfg, To(s, c, pc))
  {
    MoveLock(s.locks, s.owner, s.pcs, c, pc);
    MoveRest(cfg, s, c, pc);
    PlacedInv(cfg, s, s.pcs[c := pc], s.locks, s.owner);
  }

  lemma OwnFacts(cfg: Setup, s: State, c: nat)
    requires Inv(cfg, s) && c in s.pcs
    ensures Local(cfg, Look(s.log, s.pcs[c].sid), s.clock, s.pcs[c]) && Genuine(s.log, s.pcs[c])
  {
  }

  lemma QueueRest(cfg: Setup, s: State, c: nat, pc: Pc)
    requires Inv(cfg, s) && c in s.pcs && s.pcs[c].Queueing? && pc == Waiting(s.pcs[c].sid)
    ensures Rest(cfg, s, s.owner, s.pcs[c := pc])
  {
    OwnFacts(cfg, s, c);
    MoveRest(cfg, s, c, pc);
  }

  lemma QueueLocks(s: State, c: nat, pc: Pc) returns (locks: map<string, nat>)
    requires LockInv(s.locks, s.owner, s.pcs) && c in s.pcs && !Holds(s.pcs[c]) && !Holds(pc)
    ensures locks == WithSemaphore(s.locks, pc.sid) && LockInv(locks, s.owner, s.pcs[c := pc])
  {
    MoveLock(s.locks, s.owner, s.pcs, c, pc);
    QueueLock(s.locks, s.owner, s.pcs[c := pc], pc.sid);
    locks := WithSemaphore(s.locks, pc.sid);
  }

  lemma QueueIs(s: State, c: nat, pc: Pc, locks: map<string, nat>)
    requires c in s.pcs && pc == Waiting(s.pcs[c].sid) && locks == WithSemaphore(s.locks, pc.sid)
    ensures Queue(s, c) == Placed(s, s.pcs[c := pc], locks, s.owner)
  {
  }

  lemma QueueInv(cfg: Setup, s: State, c: nat)
    requires Inv(cfg, s) && c in s.pcs && s.pcs[c].Queueing?
    ensures Inv(cfg, Queue(s, c))
  {
    var pc := Waiting(s.pcs[c].sid);
    QueueRest(cfg, s, c, pc);
    var locks := QueueLocks(s, c, pc);
    QueueIs(s, c, pc, locks);
    PlacedInv(cfg, s, s.pcs[c := pc], locks, s.owner);
  }

  lemma AcquireStore(s: State, c: nat, pc: Pc)
    requires StoreInv(s.log, s.tokens, s.owner, s.pcs[c := pc]) && pc.sid !in s.owner
    ensures StoreInv(s.log, s.tokens, s.owner[pc.sid := c], s.pcs[c := pc])
  {
    Reown(To(s, c, pc), s.owner[pc.sid := c], s.pcs[c := pc]);
  }

  lemma AcquireInv(cfg: Setup, s: State, c: nat)
    requires Inv(cfg, s) && c in s.pcs && s.pcs[c].Waiting?
    ensures Inv(cfg, Acquire(s, c))
  {
    var sid := s.pcs[c].sid;
    if sid in s.locks && s.locks[sid] > 0 {
      var pc := Rereading(sid);
      OwnFacts(cfg, s, c);
      AcquireLock(s.locks, s.owner, s.pcs, c, sid);
      MoveRest(cfg, s, c, pc);
      AcquireStore(s, c, pc);
      PlacedInv(cfg, s, s.pcs[c := pc], s.locks[sid := s.locks[sid] - 1], s.owner[sid := c]);
    }
  }

  lemma ReleaseStore(s: State, c: nat, pc: Pc)
    requires LockInv(s.locks, s.owner, s.pcs) && StoreInv(s.log, s.tokens, s.owner, s.pcs)
    requires c in s.pcs && s.pcs[c].Unlocking? && pc.sid == s.pcs[c].sid
    ensures StoreInv(s.log, s.tokens, s.owner - {pc.sid}, s.pcs[c := pc])
  {
    assert s.owner[pc.sid] == c;
    Reown(s, s.owner - {pc.sid}, s.pcs[c := pc]);
  }

  lemma UnlockRest(cfg: Setup, s: State, c: nat, pc: Pc)
    requires Inv(cfg, s) && c in s.pcs && s.pcs[c].Unlocking? && pc == Returned(s.pcs[c].sid, s.pcs[c].result)
    ensures Rest(cfg, s, s.owner - {pc.sid}, s.pcs[c := pc])
  {
    OwnFacts(cfg, s, c);
    MoveRest(cfg, s, c, pc);
    ReleaseStore(s, c, pc);
  }

  lemma UnlockIs(s: State, c: nat, pc: Pc, locks: map<string, nat>)
    requires c in s.pcs && s.pcs[c].Unlocking? && pc == Returned(s.pcs[c].sid, s.pcs[c].result)
    requires pc.sid in s.locks && locks == s.locks[pc.sid := s.locks[pc.sid] + 1]
    ensures Unlock(s, c) == Placed(s, s.pcs[c := pc], locks, s.owner - {pc.sid})
  {
  }

  lemma UnlockLock(s: State, c: nat, pc: Pc) returns (locks: map<string, nat>)
    requires LockInv(s.locks, s.owner, s.pcs) && c in s.pcs && Holds(s.pcs[c]) && !Holds(pc) && s.pcs[c].sid == pc.sid
    ensures pc.sid in s.locks && locks == s.locks[pc.sid := s.locks[pc.sid] + 1]
    ensures LockInv(locks, s.owner - {pc.sid}, s.pcs[c := pc])
  {
    ReleaseLock(s.locks, s.owner, s.pcs, c, pc);
    locks := s.locks[pc.sid := s.locks[pc.sid] + 1];
  }

  lemma UnlockPlaced(cfg: Setup, s: State, c: nat, pc: Pc) returns (s': State)
    requires Inv(cfg, s) && c in s.pcs && s.pcs[c].Unlocking? && pc == Returned(s.pcs[c].sid, s.pcs[c].result)
    ensures Inv(cfg, s') && s' == Unlock(s, c)
  {
    UnlockRest(cfg, s, c, pc);
    var locks := UnlockLock(s, c, pc);
    UnlockIs(s, c, pc, locks);
    s' := Placed(s, s.pcs[c := pc], locks, s.owner - {pc.sid});
    PlacedInv(cfg, s, s.pcs[c := pc], locks, s.owner - {pc.sid});
  }

  lemma UnlockInv(cfg: Setup, s: State, c: nat)
    requires Inv(cfg, s) && c in s.pcs && s.pcs[c].Unlocking?
    ensures Inv(cfg, Unlock(s, c))
  {
    var s' := UnlockPlaced(cfg, s, c, Returned(s.pcs[c].sid, s.pcs[c].result));
  }

  lemma TickLocal(cfg: Setup, s: State, elapsed: nat)
    requires LocalInv(cfg, s.log, s.clock, s.pcs)
    ensures LocalInv(cfg, s.log, s.clock + elapsed, s.pcs)
  {
    forall c | c in s.pcs
      ensures Local(cfg, Look(s.log, s.pcs[c].sid), s.clock + elapsed, s.pcs[c])
    {
      var v := Look(s.log, s.pcs[c].sid);
      LocalLater(cfg, v, s.clock, v, s.clock + elapsed, s.pcs[c]);
    }
  }

  lemma TickInv(cfg: Setup, s: State, elapsed: nat)
    requires Inv(cfg, s)
    ensures Inv(cfg, s.(clock := s.clock + elapsed))
  {
    TickLocal(cfg, s, elapsed);
  }

  lemma EnrolLocal(cfg: Setup, s: State, sid: string, t: TokenSet)
    requires LocalInv(cfg, s.log, s.clock, s.pcs) && Look(s.log, sid) == BLANK
    ensures LocalInv(cfg, s.log + [LoggedIn(sid, t)], s.clock, s.pcs)
  {
    var e := LoggedIn(sid, t);
    forall c | c in s.pcs
      ensures Local(cfg, Look(s.log + [e], s.pcs[c].sid), s.clock, s.pcs[c])
    {
      LookAfter(s.log, e, s.pcs[c].sid);
      LocalLater(cfg, Look(s.log, s.pcs[c].sid), s.clock, Look(s.log + [e], s.pcs[c].sid), s.clock, s.pcs[c]);
    }
  }

  lemma EnrolStore(s: State, sid: string, entry: Entry)
    requires StoreInv(s.log, s.tokens, s.owner, s.pcs) && Look(s.log, sid) == BLANK
    ensures StoreInv(s.log + [LoggedIn(sid, entry.tokens)], s.tokens[sid := entry], s.owner, s.pcs)
  {
    var e := LoggedIn(sid, entry.tokens);
    forall k | k in s.tokens[sid := entry]
      ensures var t := s.tokens[sid := entry][k].tokens;
              Look(s.log + [e], k).written == Some(t)
              && (!Busy(s.owner, s.pcs, k) ==> Settled(Look(s.log + [e], k), t))
    {
      LookAfter(s.log, e, k);
    }
  }

  lemma EnrolLog(cfg: Setup, s: State, sid: string, t: TokenSet)
    requires KnownInv(s.log, s.logins) && Proper(cfg, s.log) && sid !in s.logins
    ensures KnownInv(s.log + [LoggedIn(sid, t)], s.logins[sid := s.clock]) && Proper(cfg, s.log + [LoggedIn(sid, t)])
  {
    var e := LoggedIn(sid, t);
    assert KnownInv(s.log, s.logins[sid := s.clock]);
    GrowKnown(s.log, s.logins[sid := s.clock], Some(e));
    ProperAfter(cfg, s.log, e);
  }

  lemma EnrolGenuine(s: State, e: Event)
    requires GenuineInv(s.log, s.pcs)
    ensures GenuineInv(s.log + [e], s.pcs)
  {
    forall c | c in s.pcs
      ensures Genuine(s.log + [e], s.pcs[c])
    {
      GrowGenuine(s.log, Some(e), s.pcs[c]);
    }
  }

  lemma EnrolInv(cfg: Setup, s: State, sid: string, who: Identity, t: TokenSet)
    requires Inv(cfg, s) && sid !in s.logins
    ensures Inv(cfg, Enrol(cfg, s, sid, who, t))
  {
    EnrolLocal(cfg, s, sid, t);
    EnrolStore(s, sid, Entry(t, s.clock + cfg.limits.maxLifetime));
    EnrolLog(cfg, s, sid, t);
    EnrolGenuine(s, LoggedIn(sid, t));
    EnrolLife(cfg, s, sid, who, t);
  }

  lemma EnrolLife(cfg: Setup, s: State, sid: string, who: Identity, t: TokenSet)
    requires LifeInv(cfg, s.logins, s.tokens, s.sessions, s.pcs) && sid !in s.logins
    ensures var s' := Enrol(cfg, s, sid, who, t); LifeInv(cfg, s'.logins, s'.tokens, s'.sessions, s'.pcs)
  {
  }

  lemma ForgetInv(cfg: Setup, s: State, sid: string)
    requires Inv(cfg, s)
    ensures Inv(cfg, s.(tokens := s.tokens - {sid})) && Inv(cfg, s.(sessions := s.sessions - {sid}))
  {
  }

  lemma GoInv(cfg: Setup, s: State, c: nat, fails: bool, reply: Reply)
    requires Inv(cfg, s) && c in s.pcs
    ensures Inv(cfg, GoOn(cfg, s, c, fails, reply))
  {
    if Acts(s.pcs[c]) {
      ActInv(cfg, s, c, fails, reply);
    } else if s.pcs[c].Queueing? {
      QueueInv(cfg, s, c);
    } else if s.pcs[c].Waiting? {
      AcquireInv(cfg, s, c);
    } else if s.pcs[c].Unlocking? {
      UnlockInv(cfg, s, c);
    }
  }

  lemma ArriveInv(cfg: Setup, s: State, c: nat, pc: Pc)
    requires Inv(cfg, s) && c !in s.pcs && (pc.Reading? || pc.Visiting?)
    ensures Inv(cfg, To(s, c, pc))
  {
    MoveInv(cfg, s, c, pc);
  }

  lemma CancelInv(cfg: Setup, s: State, c: nat)
    requires Inv(cfg, s) && c in s.pcs && s.pcs[c].Waiting?
    ensures Inv(cfg, To(s, c, Returned(s.pcs[c].sid, NoToken)))
  {
    MoveInv(cfg, s, c, Returned(s.pcs[c].sid, NoToken));
  }

  lemma NextInv(cfg: Setup, s: State, a: Action)
    requires Inv(cfg, s)
    ensures Inv(cfg, Next(cfg, s, a))
  {
    match a
    case Tick(elapsed) => TickInv(cfg, s, elapsed);
    case LogIn(sid, who, tokens) => if sid !in s.logins { EnrolInv(cfg, s, sid, who, tokens); }
    case ForgetTokens(sid) => ForgetInv(cfg, s, sid);
    case ForgetSession(sid) => ForgetInv(cfg, s, sid);
    case Request(c, sid) => if c !in s.pcs { ArriveInv(cfg, s, c, Reading(sid)); }
    case Visit(c, sid) => if c !in s.pcs { ArriveInv(cfg, s, c, Visiting(sid)); }
    case Go(c, fails, reply) => if c in s.pcs { GoInv(cfg, s, c, fails, reply); }
    case Cancel(c) => if c in s.pcs && s.pcs[c].Waiting? { CancelInv(cfg, s, c); }
  }

  lemma {:induction false} ExecInv(cfg: Setup, s: State, acts: seq<Action>)
    requires Inv(cfg, s)
    ensures Inv(cfg, Exec(cfg, s, acts))
    decreases |acts|
  {
    if acts == [] {
    } else {
      NextInv(cfg, s, acts[0]);
      ExecInv(cfg, Next(cfg, s, acts[0]), acts[1..]);
    }
  }

  // ---- What every run keeps ----

  lemma RunInv(cfg: Setup, acts: seq<Action>)
    ensures Inv(cfg, Exec(cfg, START, acts))
  {
    ExecInv(cfg, START, acts);
  }

  function HolderOf(sid: string): Pc -> bool { pc => Holds(pc) && pc.sid == sid }

  lemma HoldersAreOwners(locks: map<string, nat>, owner: map<string, nat>, pcs: map<nat, Pc>, sid: string)
    requires LockInv(locks, owner, pcs)
    ensures Where(pcs, HolderOf(sid)) == if sid in owner then {owner[sid]} else {}
  {
  }

  /** In every interleaving, for every session: free permits plus callers between lock and
      unlock make one.  So the unlock never finds the channel full. */
  lemma OneHolderPerSession(cfg: Setup, acts: seq<Action>, sid: string)
    ensures var s := Exec(cfg, START, acts);
            && (sid in s.locks ==> s.locks[sid] + |Where(s.pcs, HolderOf(sid))| == 1)
            && (sid !in s.locks ==> Where(s.pcs, HolderOf(sid)) == {})
  {
    RunInv(cfg, acts);
    var s := Exec(cfg, START, acts);
    HoldersAreOwners(s.locks, s.owner, s.pcs, sid);
  }

  /** The issuing call behind a lost write: the set in the store still carries the token that
      call presented. */
  lemma {:induction false} LostComesFrom(cfg: Setup, log: seq<Event>, sid: string) returns (k: nat)
    requires Proper(cfg, log) && DriftOf(log, sid) != Saved
    ensures k < |log| && log[k].Called? && log[k].sid == sid && IssuedBy(log[k]) != ""
    ensures Latest(log, sid) == IssuedBy(log[k])
    ensures Written(log, sid).Some? && Written(log, sid).value.refresh == log[k].current.refresh
  {
    var n := |log| - 1;
    var past, e := log[..n], log[n];
    assert log == past + [e];
    ProperPast(cfg, past, e);
    LookAfter(past, e, sid);
    if e.sid == sid && e.Called? && IssuedBy(e) != "" {
      k := n;
    } else {
      k := LostComesFrom(cfg, past, sid);
    }
  }

  lemma ProperPast(cfg: Setup, log: seq<Event>, e: Event)
    requires Proper(cfg, log + [e])
    ensures Proper(cfg, log) && Fitting(Look(log, e.sid), e) && (e.Called? ==> ProperCall(cfg, Look(log, e.sid), e))
  {
    var log' := log + [e];
    assert log'[|log|] == e && log'[..|log|] == log;
    assert forall i | 0 <= i < |log| :: log'[i] == log[i] && log'[..i] == log[..i];
  }

  /** Every refresh token presented to the provider comes from the set last written, which is
      in the refresh window, and is the latest the provider issued for that session (section 6
      of RFC 6749), unless the write that followed the latest issue failed. */
  lemma RotationChain(cfg: Setup, acts: seq<Action>, i: nat)
    requires var log := Exec(cfg, START, acts).log; i < |log| && log[i].Called?
    ensures var log := Exec(cfg, START, acts).log;
            var e := log[i];
            && Written(log[..i], e.sid) == Some(e.current) && NeedsRefresh(cfg, e.current, e.at)
            && (DriftOf(log[..i], e.sid) != Lost ==> e.current.refresh == Latest(log[..i], e.sid))
  {
    RunInv(cfg, acts);
    var log := Exec(cfg, START, acts).log;
    assert ProperCall(cfg, Look(log[..i], log[i].sid), log[i]);
  }

  lemma {:induction false} WrittenStays(log: seq<Event>, i: nat, sid: string)
    requires i <= |log| && Written(log[..i], sid).Some?
    ensures Written(log, sid).Some?
  {
    if i < |log| {
      assert log[..|log| - 1][..i] == log[..i];
      WrittenStays(log[..|log| - 1], i, sid);
    } else {
      assert log[..i] == log;
    }
  }

  predicate NoLaterLogin(log: seq<Event>, i: nat)
    requires i < |log|
  {
    forall j | i < j < |log| && log[j].sid == log[i].sid :: !log[j].LoggedIn?
  }

  /** Nobody logs in under a session that has already called the provider. */
  lemma NoLoginAfterCall(cfg: Setup, log: seq<Event>, i: nat)
    requires Proper(cfg, log) && i < |log| && log[i].Called?
    ensures NoLaterLogin(log, i)
  {
    assert ProperCall(cfg, Look(log[..i], log[i].sid), log[i]);
    forall j | i < j < |log| && log[j].sid == log[i].sid ensures !log[j].LoggedIn? {
      assert log[..j][..i] == log[..i];
      WrittenStays(log[..j], i, log[i].sid);
    }
  }

  /** If the provider was called and nothing is pending, the set in force was persisted since. */
  lemma {:induction false} PersistedSince(log: seq<Event>, i: nat) returns (k: nat)
    requires i < |log| && log[i].Called? && NoLaterLogin(log, i) && !Pending(log, log[i].sid)
    ensures i < k < |log| && log[k].Persisted? && log[k].sid == log[i].sid
    ensures Written(log, log[i].sid) == Some(log[k].tokens)
  {
    var n := |log| - 1;
    if log[n].sid == log[i].sid && log[n].Persisted? {
      k := n;
    } else {
      k := PersistedSince(log[..n], i);
    }
  }

  /** If a write failed after the last call, it failed after every call. */
  lemma {:induction false} FailedSince(log: seq<Event>, i: nat) returns (k: nat)
    requires i < |log| && log[i].Called? && Excused(log, log[i].sid)
    ensures i < k < |log| && log[k] == WriteFailed(log[i].sid)
  {
    var n := |log| - 1;
    if log[n].sid == log[i].sid && log[n].WriteFailed? {
      k := n;
    } else {
      k := FailedSince(log[..n], i);
    }
  }

  /** Between two refreshes of a session the set the first one obtained has been persisted and
      has entered the refresh window again, or writing or deleting the session's set failed. */
  lemma RefreshesAreSpaced(cfg: Setup, acts: seq<Action>, i: nat, j: nat) returns (k: nat)
    requires var log := Exec(cfg, START, acts).log;
             i < j < |log| && log[i].Called? && log[j].Called? && log[i].sid == log[j].sid
    ensures var log := Exec(cfg, START, acts).log;
            && i < k < j && (log[k] == Persisted(log[i].sid, log[j].current) || log[k] == WriteFailed(log[i].sid))
            && NeedsRefresh(cfg, log[j].current, log[j].at)
  {
    RunInv(cfg, acts);
    var log := Exec(cfg, START, acts).log;
    var sid := log[i].sid;
    assert ProperCall(cfg, Look(log[..j], sid), log[j]);
    NoLoginAfterCall(cfg, log, i);
    assert log[..j][i] == log[i];
    if Pending(log[..j], sid) {
      k := FailedSince(log[..j], i);
    } else {
      k := PersistedSince(log[..j], i);
    }
    assert log[k] == log[..j][k];
  }

  predicate Mentions(e: Event, token: string) {
    (e.LoggedIn? && e.tokens.refresh == token) || (e.Called? && (e.current.refresh == token || IssuedBy(e) == token))
  }

  /** A provider that never issues the same refresh token twice. */
  predicate NeverReissues(log: seq<Event>) {
    forall k | 0 <= k < |log| && log[k].Called? && IssuedBy(log[k]) != "" ::
      && IssuedBy(log[k]) != log[k].current.refresh
      && forall m | 0 <= m < k :: !Mentions(log[m], IssuedBy(log[k]))
  }

  lemma LatestStep(log: seq<Event>, n: nat, sid: string)
    requires n < |log|
    ensures Latest(log[..n + 1], sid)
            == if log[n].sid == sid && (IssuedBy(log[n]) != "" || log[n].LoggedIn?) then IssuedBy(log[n])
               else Latest(log[..n], sid)
  {
    assert log[..n + 1][..n] == log[..n];
  }

  lemma NotIssuedAgain(log: seq<Event>, i: nat, n: nat)
    requires NeverReissues(log) && i <= n < |log| && log[i].Called? && log[n].Called? && IssuedBy(log[n]) != ""
    ensures IssuedBy(log[n]) != log[i].current.refresh
  {
    assert i < n ==> Mentions(log[i], log[i].current.refresh);
  }

  lemma {:induction false} ReplacedForGood(log: seq<Event>, i: nat, n: nat)
    requires NeverReissues(log)
    requires i < n <= |log| && log[i].Called? && IssuedBy(log[i]) != "" && NoLaterLogin(log, i)
    ensures Latest(log[..n], log[i].sid) != log[i].current.refresh
  {
    var sid, last := log[i].sid, n - 1;
    LatestStep(log, last, sid);
    if last == i {
      NotIssuedAgain(log, i, i);
    } else {
      ReplacedForGood(log, i, last);
      if log[last].sid == sid && IssuedBy(log[last]) != "" {
        NotIssuedAgain(log, i, last);
      }
    }
  }

  lemma ProperUpTo(cfg: Setup, log: seq<Event>, n: nat)
    requires Proper(cfg, log) && n <= |log|
    ensures Proper(cfg, log[..n])
  {
    assert forall i | 0 <= i < n :: log[..n][i] == log[i] && log[..n][..i] == log[..i];
  }

  /** A lost write makes the next call present the token that the issuing call presented. */
  lemma LostIsStale(cfg: Setup, acts: seq<Action>, j: nat) returns (k: nat)
    requires var log := Exec(cfg, START, acts).log;
             j < |log| && log[j].Called? && DriftOf(log[..j], log[j].sid) == Lost
    ensures var log := Exec(cfg, START, acts).log;
            && k < j && log[k].Called? && log[k].sid == log[j].sid && IssuedBy(log[k]) != ""
            && log[j].current.refresh == log[k].current.refresh && Latest(log[..j], log[j].sid) == IssuedBy(log[k])
  {
    RunInv(cfg, acts);
    var log := Exec(cfg, START, acts).log;
    RotationChain(cfg, acts, j);
    ProperUpTo(cfg, log, j);
    k := LostComesFrom(cfg, log[..j], log[j].sid);
    assert log[..j][k] == log[k];
  }

  /** With a provider that never issues a refresh token twice, a call presents a token that is
      not the latest exactly when the write after the latest issue failed. */
  lemma StaleIff(cfg: Setup, acts: seq<Action>, j: nat)
    requires var log := Exec(cfg, START, acts).log; j < |log| && log[j].Called? && NeverReissues(log)
    ensures var log := Exec(cfg, START, acts).log;
            log[j].current.refresh != Latest(log[..j], log[j].sid) <==> DriftOf(log[..j], log[j].sid) == Lost
  {
    var log := Exec(cfg, START, acts).log;
    RotationChain(cfg, acts, j);
    if DriftOf(log[..j], log[j].sid) == Lost {
      var k := LostIsStale(cfg, acts, j);
      NotIssuedAgain(log, k, k);
    }
  }

  /** Call i replaced the refresh token that call j presents. */
  predicate Replaced(log: seq<Event>, i: nat, j: nat)
    requires j < |log| && log[j].Called?
  {
    i < j && log[i].Called? && log[i].sid == log[j].sid && IssuedBy(log[i]) != ""
    && log[i].current.refresh == log[j].current.refresh
  }

  /** And so a refresh token that was rotated out is presented again exactly then. */
  lemma RotatedOutReturnsIff(cfg: Setup, acts: seq<Action>, j: nat)
    requires var log := Exec(cfg, START, acts).log; j < |log| && log[j].Called? && NeverReissues(log)
    ensures var log := Exec(cfg, START, acts).log;
            (exists i: nat :: Replaced(log, i, j)) <==> DriftOf(log[..j], log[j].sid) == Lost
  {
    RunInv(cfg, acts);
    var log := Exec(cfg, START, acts).log;
    if DriftOf(log[..j], log[j].sid) == Lost {
      var k := LostIsStale(cfg, acts, j);
      assert Replaced(log, k, j);
    } else {
      RotationChain(cfg, acts, j);
      forall i: nat ensures !Replaced(log, i, j) {
        if i < j && log[i].Called? && log[i].sid == log[j].sid && IssuedBy(log[i]) != "" {
          NoLoginAfterCall(cfg, log, i);
          ReplacedForGood(log, i, j);
        }
      }
    }
  }

  /** Every call is made within the refresh window, which opens RefreshBefore ahead of the expiry
      of the set presented, or thirty seconds ahead if that is not set; a set without an expiry is
      never presented. */
  lemma CallsAreDue(cfg: Setup, acts: seq<Action>, i: nat)
    requires var log := Exec(cfg, START, acts).log; i < |log| && log[i].Called?
    ensures var e := Exec(cfg, START, acts).log[i];
            && e.current.refresh != "" && 0 < e.current.expiry
            && e.current.expiry * 1_000_000_000
               <= e.at + (if cfg.refreshBefore > 0 then cfg.refreshBefore else 30_000_000_000)
  {
    RunInv(cfg, acts);
  }

  /** A call that succeeds returns a non-empty access token of a set that was written for its
      own session and was unexpired when last looked at. */
  lemma ReturnedTokensAreGood(cfg: Setup, acts: seq<Action>, c: nat)
    requires var s := Exec(cfg, START, acts); c in s.pcs && s.pcs[c].Returned? && s.pcs[c].result.Token?
    ensures var s := Exec(cfg, START, acts);
            var r := s.pcs[c].result;
            && r.access != "" && r.access == r.tokens.access && WasWritten(s.log, s.pcs[c].sid, r.tokens)
            && Unexpired(r.tokens, r.checkedAt) && r.checkedAt <= s.clock
  {
    RunInv(cfg, acts);
    OwnFacts(cfg, Exec(cfg, START, acts), c);
  }

  /** No refresh and no activity moves the end of a session: in every interleaving its record
      and its token set end MaxLifetime after the login. */
  lemma LifetimeIsFixed(cfg: Setup, acts: seq<Action>, sid: string)
    ensures var s := Exec(cfg, START, acts);
            && (sid in s.sessions ==> sid in s.logins && s.sessions[sid].createdAt == s.logins[sid]
                                      && s.sessions[sid].expiresAt == s.logins[sid] + cfg.limits.maxLifetime)
            && (sid in s.tokens ==>
                  sid in s.logins && s.tokens[sid].expiresAt == s.logins[sid] + cfg.limits.maxLifetime)
            && (sid in s.tokens && sid in s.sessions ==> s.tokens[sid].expiresAt == s.sessions[sid].expiresAt)
  {
    RunInv(cfg, acts);
    var s := Exec(cfg, START, acts);
    assert sid in s.sessions ==> SessionOnTime(cfg, s.logins, sid, s.sessions[sid]);
  }

  // ---- What a failed write does ----

  lemma {:induction false} ExecAppend(cfg: Setup, s: State, a: seq<Action>, b: seq<Action>)
    ensures Exec(cfg, s, a + b) == Exec(cfg, Exec(cfg, s, a), b)
    decreases |a|
  {
    if a == [] {
      assert a + b == b;
    } else {
      assert (a + b)[1..] == a[1..] + b;
      ExecAppend(cfg, Next(cfg, s, a[0]), a[1..], b);
    }
  }

  ghost predicate Reaches(cfg: Setup, s: State, s': State) {
    exists acts :: Exec(cfg, s, acts) == s'
  }

  lemma Onward(cfg: Setup, s: State, s1: State, a: Action)
    requires Reaches(cfg, s, s1)
    ensures Reaches(cfg, s, Next(cfg, s1, a))
  {
    var acts :| Exec(cfg, s, acts) == s1;
    ExecAppend(cfg, s, acts, [a]);
    assert [a][1..] == [];
    assert Exec(cfg, s, acts + [a]) == Next(cfg, s1, a);
  }

  lemma Stay(cfg: Setup, s: State)
    ensures Reaches(cfg, s, s)
  {
    assert Exec(cfg, s, []) == s;
  }

  /** A caller would find the stored set in the refresh window. */
  predicate WillRefresh(cfg: Setup, s: State, sid: string) {
    && sid in s.tokens && Present(s, sid).Some?
    && s.tokens[sid].tokens.access != "" && s.tokens[sid].tokens.refresh != ""
    && NeedsRefresh(cfg, s.tokens[sid].tokens, s.clock)
  }

  lemma GoLooks(cfg: Setup, s: State, d: nat, pc: Pc, fails: bool)
    requires Looks(pc)
    ensures Next(cfg, To(s, d, pc), Go(d, fails, Refused)) == To(s, d, Look1(cfg, s, pc, fails))
  {
    var s0 := To(s, d, pc);
    assert s0.pcs[d := Look1(cfg, s, pc, fails)] == s.pcs[d := Look1(cfg, s, pc, fails)];
  }

  lemma OnwardLooking(cfg: Setup, s: State, base: State, d: nat, pc: Pc, fails: bool)
    requires Looks(pc) && Reaches(cfg, s, To(base, d, pc))
    ensures Reaches(cfg, s, To(base, d, Look1(cfg, base, pc, fails)))
  {
    GoLooks(cfg, base, d, pc, fails);
    Onward(cfg, s, To(base, d, pc), Go(d, fails, Refused));
  }

  lemma ReachQueue(cfg: Setup, s: State, d: nat, sid: string)
    requires WillRefresh(cfg, s, sid) && d !in s.pcs
    ensures Reaches(cfg, s, To(s, d, Queueing(sid)))
  {
    Stay(cfg, s);
    Onward(cfg, s, s, Request(d, sid));
    OnwardLooking(cfg, s, s, d, Reading(sid), false);
    OnwardLooking(cfg, s, s, d, Deciding(sid, s.tokens[sid].tokens), false);
  }

  function Locked(s: State, d: nat, sid: string): State {
    s.(locks := WithSemaphore(s.locks, sid)[sid := 0], owner := s.owner[sid := d])
  }

  lemma QueueAlone(s: State, d: nat, sid: string)
    ensures Queue(To(s, d, Queueing(sid)), d) == To(s, d, Waiting(sid)).(locks := WithSemaphore(s.locks, sid))
  {
    assert s.pcs[d := Queueing(sid)][d := Waiting(sid)] == s.pcs[d := Waiting(sid)];
  }

  lemma AcquireAlone(s: State, d: nat, sid: string)
    requires sid in s.locks ==> s.locks[sid] == 1
    ensures Acquire(To(s, d, Waiting(sid)).(locks := WithSemaphore(s.locks, sid)), d)
            == To(Locked(s, d, sid), d, Rereading(sid))
  {
    assert s.pcs[d := Waiting(sid)][d := Rereading(sid)] == s.pcs[d := Rereading(sid)];
  }

  lemma ReachWait(cfg: Setup, s: State, d: nat, sid: string)
    requires Reaches(cfg, s, To(s, d, Queueing(sid)))
    ensures Reaches(cfg, s, To(s, d, Waiting(sid)).(locks := WithSemaphore(s.locks, sid)))
  {
    QueueAlone(s, d, sid);
    Onward(cfg, s, To(s, d, Queueing(sid)), Go(d, false, Refused));
  }

  lemma ReachLock(cfg: Setup, s: State, d: nat, sid: string)
    requires (sid in s.locks ==> s.locks[sid] == 1) && Reaches(cfg, s, To(s, d, Queueing(sid)))
    ensures Reaches(cfg, s, To(Locked(s, d, sid), d, Rereading(sid)))
  {
    ReachWait(cfg, s, d, sid);
    AcquireAlone(s, d, sid);
    Onward(cfg, s, To(s, d, Waiting(sid)).(locks := WithSemaphore(s.locks, sid)), Go(d, false, Refused));
  }

  /** The state, but for the caller's own position, once the provider has answered it. */
  function Asked(s: State, d: nat, sid: string, reply: Reply): State
    requires sid in s.tokens
  {
    Locked(s, d, sid).(log := s.log + [Called(sid, s.tokens[sid].tokens, s.clock, reply)])
  }

  lemma GoCalls(cfg: Setup, s: State, d: nat, sid: string, t: TokenSet, reply: Reply)
    ensures Next(cfg, To(s, d, Calling(sid, t)), Go(d, false, reply))
            == To(s.(log := s.log + [Called(sid, t, s.clock, reply)]), d, Judging(sid, t, reply))
  {
    assert s.pcs[d := Calling(sid, t)][d := Judging(sid, t, reply)] == s.pcs[d := Judging(sid, t, reply)];
  }

  /** Running alone, such a caller presents the stored refresh token. */
  lemma PresentsStored(cfg: Setup, s: State, d: nat, sid: string, reply: Reply)
    requires WillRefresh(cfg, s, sid) && d !in s.pcs && (sid in s.locks ==> s.locks[sid] == 1)
    ensures Reaches(cfg, s, To(Asked(s, d, sid, reply), d, Judging(sid, s.tokens[sid].tokens, reply)))
  {
    var t, locked := s.tokens[sid].tokens, Locked(s, d, sid);
    ReachQueue(cfg, s, d, sid);
    ReachLock(cfg, s, d, sid);
    OnwardLooking(cfg, s, locked, d, Rereading(sid), false);
    OnwardLooking(cfg, s, locked, d, Redeciding(sid, t), false);
    GoCalls(cfg, locked, d, sid, t, reply);
    Onward(cfg, s, To(locked, d, Calling(sid, t)), Go(d, false, reply));
  }

  /** With a usable answer and a session just seen, it is then about to save. */
  lemma ReachSaving(cfg: Setup, s: State, d: nat, sid: string, renewed: TokenSet)
    requires WillRefresh(cfg, s, sid) && d !in s.pcs && (sid in s.locks ==> s.locks[sid] == 1)
    requires Usable(renewed, s.clock) && sid in s.sessions
    requires !Dead(cfg.limits, s.sessions[sid], s.clock) && !TouchDue(cfg.limits, s.sessions[sid], s.clock)
    ensures Reaches(cfg, s, To(Asked(s, d, sid, Granted(renewed)), d,
                               Saving(sid, Merge(s.tokens[sid].tokens, renewed), s.clock, s.sessions[sid].expiresAt)))
  {
    var t, base := s.tokens[sid].tokens, Asked(s, d, sid, Granted(renewed));
    PresentsStored(cfg, s, d, sid, Granted(renewed));
    OnwardLooking(cfg, s, base, d, Judging(sid, t, Granted(renewed)), false);
    OnwardLooking(cfg, s, base, d, AskingSession(sid, Merge(t, renewed), s.clock), false);
  }

  /** A caller whose write or deletion fails is about to unlock, and the old set is there. */
  lemma Fails(cfg: Setup, s: State, c: nat) returns (s': State)
    requires c in s.pcs && (s.pcs[c].Saving? || s.pcs[c].DroppingTokens?)
    ensures Reaches(cfg, s, s')
    ensures s'.pcs == s.pcs[c := Unlocking(s.pcs[c].sid, NoToken)]
    ensures s' == s.(pcs := s'.pcs, log := s.log + [WriteFailed(s.pcs[c].sid)])
  {
    var go := Go(c, true, Refused);
    Stay(cfg, s);
    Onward(cfg, s, s, go);
    s' := Next(cfg, s, go);
    if s.pcs[c].DroppingTokens? {
      Onward(cfg, s, s', go);
      s' := Next(cfg, s', go);
    }
  }

  lemma FailsAndLeaves(cfg: Setup, s: State, c: nat, sid: string) returns (s': State)
    requires c in s.pcs && (s.pcs[c].Saving? || s.pcs[c].DroppingTokens?) && s.pcs[c].sid == sid
    requires sid in s.locks && s.locks[sid] == 0
    ensures Reaches(cfg, s, s') && s'.log == s.log + [WriteFailed(sid)] && s'.clock == s.clock
    ensures s'.tokens == s.tokens && s'.pcs.Keys == s.pcs.Keys && sid in s'.locks && s'.locks[sid] == 1
  {
    var failed := Fails(cfg, s, c);
    Onward(cfg, s, failed, Go(c, false, Refused));
    s' := Unlock(failed, c);
  }

  lemma ReachesThrough(cfg: Setup, a: State, b: State, c: State)
    requires Reaches(cfg, a, b) && Reaches(cfg, b, c)
    ensures Reaches(cfg, a, c)
  {
    var first :| Exec(cfg, a, first) == b;
    var second :| Exec(cfg, b, second) == c;
    ExecAppend(cfg, a, first, second);
    assert Exec(cfg, a, first + second) == c;
  }

  /** From any reachable state in which the provider has rotated the stored refresh token and
      the caller's next step is to save or delete the set: if that one step fails, the next
      caller presents a token that is no longer the latest. */
  lemma LostWriteBreaksChain(cfg: Setup, acts: seq<Action>, c: nat, sid: string, d: nat) returns (s': State)
    requires var s := Exec(cfg, START, acts);
             && c in s.pcs && (s.pcs[c].Saving? || s.pcs[c].DroppingTokens?) && s.pcs[c].sid == sid
             && WillRefresh(cfg, s, sid) && s.tokens[sid].tokens.refresh != Latest(s.log, sid) && d !in s.pcs
    ensures var s := Exec(cfg, START, acts);
            && Reaches(cfg, s, s')
            && s'.log == s.log + [WriteFailed(sid)] + [Called(sid, s.tokens[sid].tokens, s.clock, Refused)]
            && s.tokens[sid].tokens.refresh != Latest(s.log + [WriteFailed(sid)], sid)
  {
    RunInv(cfg, acts);
    var s := Exec(cfg, START, acts);
    var freed := FailsAndLeaves(cfg, s, c, sid);
    PresentsStored(cfg, freed, d, sid, Refused);
    s' := To(Asked(freed, d, sid, Refused), d, Judging(sid, freed.tokens[sid].tokens, Refused));
    ReachesThrough(cfg, s, freed, s');
    LookAfter(s.log, WriteFailed(sid), sid);
  }

  /** A session whose access token has already run out, just after its login. */
  function JustIn(cfg: Setup, sid: string, who: Identity, t: TokenSet): State {
    Enrol(cfg, START.(clock := 1 + 2 * SECOND), sid, who, t)
  }

  lemma ReachJustIn(cfg: Setup, sid: string, who: Identity, t: TokenSet)
    requires t.access != "" && t.refresh != "" && t.expiry == 1
    ensures var s := JustIn(cfg, sid, who, t);
            && Reaches(cfg, START, s) && WillRefresh(cfg, s, sid) && sid in s.sessions
            && !Dead(cfg.limits, s.sessions[sid], s.clock) && !TouchDue(cfg.limits, s.sessions[sid], s.clock)
  {
    Stay(cfg, START);
    Onward(cfg, START, START, Tick(2 * SECOND));
    Onward(cfg, START, START.(clock := 1 + 2 * SECOND), LogIn(sid, who, t));
  }

  /** Such states are reachable, whatever the configuration: a caller is about to save a set
      with a new refresh token. */
  lemma ReachRotated(cfg: Setup, sid: string, who: Identity, t: TokenSet, renewed: TokenSet, c: nat) returns (s: State)
    requires t.access != "" && t.refresh != "" && t.expiry == 1
    requires renewed.access != "" && renewed.refresh != "" && renewed.refresh != t.refresh && renewed.expiry > 2
    ensures Reaches(cfg, START, s) && s.pcs.Keys == {c} && s.pcs[c].Saving? && s.pcs[c].sid == sid
    ensures WillRefresh(cfg, s, sid) && s.tokens[sid].tokens.refresh != Latest(s.log, sid)
  {
    var base, reply := JustIn(cfg, sid, who, t), Granted(renewed);
    ReachJustIn(cfg, sid, who, t);
    ReachSaving(cfg, base, c, sid, renewed);
    s := To(Asked(base, c, sid, reply), c, Saving(sid, Merge(t, renewed), base.clock, base.sessions[sid].expiresAt));
    ReachesThrough(cfg, START, base, s);
    LookAfter(base.log, Called(sid, t, base.clock, reply), sid);
  }

  /** So every configuration has a run in which a call presents a token that is not the latest. */
  lemma ChainBreaks(cfg: Setup, who: Identity)
    ensures exists acts, i: nat ::
              var log := Exec(cfg, START, acts).log;
              i < |log| && log[i].Called? && log[i].current.refresh != Latest(log[..i], log[i].sid)
  {
    var sid := "s";
    var s := ReachRotated(cfg, sid, who, TokenSet("a", "old", "", 1), TokenSet("b", "new", "", 10), 0);
    var acts :| Exec(cfg, START, acts) == s;
    var s' := LostWriteBreaksChain(cfg, acts, 0, sid, 1);
    ReachesThrough(cfg, START, s, s');
    var all :| Exec(cfg, START, all) == s';
    var n := |s.log| + 1;
    assert s'.log[..n] == s.log + [WriteFailed(sid)];
    assert Exec(cfg, START, all).log[n].Called?;
  }
}
