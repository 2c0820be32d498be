/** The user context: internal/usercontext/resolver.go derives it from a session and the
    policy, internal/usercontext/user_context.go puts internal/cache/memory.go in front.
    The policy is a fixed function that may report an error. */
module UserContext {
  import opened Base
  import opened Sessions

  datatype Ruling = Ruling(permissions: seq<string>, capabilities: seq<string>, authLevel: string)

  datatype Policy = NoPolicy | Policy(evaluate: (string, seq<string>) -> Option<Ruling>)

  datatype Context = Context(
    subject: string, username: string, displayName: string, email: string, roles: seq<string>,
    permissions: seq<string>, authLevel: string, capabilities: seq<string>)

  const AUTHENTICATED := "authenticated"

  const DEFAULT_TTL := 60 * SECOND

  function Build(who: Identity, r: Ruling): Context {
    Context(who.subject, who.username, who.displayName, who.email, who.roles,
            r.permissions, if r.authLevel != "" then r.authLevel else AUTHENTICATED, r.capabilities)
  }

  function Derive(p: Policy, who: Identity): Option<Context> {
    match p
    case NoPolicy => Some(Build(who, Ruling([], [], "")))
    case Policy(evaluate) =>
      var ruling := evaluate(who.subject, who.roles);
      if ruling.None? then None else Some(Build(who, ruling.value))
  }

  datatype Answer = Got(context: Context) | Missing | PolicyError

  /** `SessionResolver.Resolve`, given what the session store answered. */
  function FromSession(p: Policy, found: Option<Session>): Answer {
    if found.None? then Missing
    else
      var c := Derive(p, found.value.who);
      if c.None? then PolicyError else Got(c.value)
  }

  // ---- The cache ----

  datatype Entry = Entry(context: Context, expiresAt: int)

  function CacheKey(id: string): string { "userctx:" + id }

  function Hit(cache: map<string, Entry>, key: string, now: Moment): Option<Context> {
    if key in cache && (cache[key].expiresAt == 0 || cache[key].expiresAt > now) then Some(cache[key].context) else None
  }

  function AfterLookup(cache: map<string, Entry>, key: string, now: Moment): map<string, Entry> {
    if key in cache && Hit(cache, key, now).None? then cache - {key} else cache
  }

  class Memory {
    var data: map<string, Entry>

    constructor ()
      ensures data == map[]
    {
      data := map[];
    }

    method Get(key: string, now: Moment) returns (r: Option<Context>)
      modifies this
      ensures r == Hit(old(data), key, now) && data == AfterLookup(old(data), key, now)
    {
      if key !in data {
        return None;
      }
      var entry := data[key];
      if entry.expiresAt != 0 && entry.expiresAt <= now {
        Delete(key);
        return None;
      }
      return Some(entry.context);
    }

    method Set(key: string, value: Context, ttl: int, now: Moment)
      modifies this
      ensures data == old(data)[key := Entry(value, now + ttl)]
    {
      data := data[key := Entry(value, now + ttl)];
    }

    method Delete(key: string)
      modifies this
      ensures data == old(data) - {key}
    {
      data := data - {key};
    }
  }

  // ---- The cached resolver ----

  datatype Setup = Setup(limits: Checked, policy: Policy, ttl: int)

  function Ttl(s: Setup): int { if s.ttl <= 0 then DEFAULT_TTL else s.ttl }

  datatype System = System(world: World, cache: map<string, Entry>)

  /** `CachedResolver.Resolve`.  If `blind`, reading the cache fails; if `lost`, writing it
      does.  A miss asks the session store, which may touch or delete the session. */
  function Resolved(c: Setup, s: System, id: string, now: Moment, blind: bool, lost: bool): (System, Answer) {
    var key := CacheKey(id);
    var hit := if blind then None else Hit(s.cache, key, now);
    var cache := if blind then s.cache else AfterLookup(s.cache, key, now);
    if hit.Some? then (s.(cache := cache), Got(hit.value))
    else
      var answer := FromSession(c.policy, Fetch(c.limits, s.world.data, id, now).1);
      var world := Step(c.limits, s.world, Timed(Visit(id, false), now));
      (System(world, if answer.Got? && !lost then cache[key := Entry(answer.context, now + Ttl(c))] else cache), answer)
  }

  class CachedResolver {
    const sessions: LifecycleStore
    const cache: Memory
    const setup: Setup

    constructor (sessions: LifecycleStore, cache: Memory, setup: Setup)
      requires sessions.limits == setup.limits
      ensures this.sessions == sessions && this.cache == cache && this.setup == setup
    {
      this.sessions, this.cache, this.setup := sessions, cache, setup;
    }

    /** `SessionResolver.Resolve`, the resolver behind the cache. */
    method Derived(id: string, now: Moment) returns (answer: Answer)
      requires sessions.limits == setup.limits && sessions.Keyed()
      modifies sessions.next
      ensures sessions.Keyed()
      ensures var (data, found) := Fetch(setup.limits, old(sessions.next.data), id, now);
              sessions.next.data == data && answer == FromSession(setup.policy, found)
    {
      var found := sessions.Get(id, now, false);
      if found.None? {
        return Missing;
      }
      var who := found.value.who;
      var permissions: seq<string>, capabilities: seq<string>, authLevel := [], [], "authenticated";
      if setup.policy.Policy? {
        var ruling := setup.policy.evaluate(who.subject, who.roles);
        if ruling.None? {
          return PolicyError;
        }
        permissions, capabilities := ruling.value.permissions, ruling.value.capabilities;
        if ruling.value.authLevel != "" {
          authLevel := ruling.value.authLevel;
        }
      }
      return Got(Context(subject := who.subject, username := who.username, displayName := who.displayName,
                         email := who.email, roles := who.roles, permissions := permissions,
                         authLevel := authLevel, capabilities := capabilities));
    }

    /** If `blind`, the cache cannot be read; if `lost`, it cannot be written. */
    method Resolve(id: string, now: Moment, blind: bool, lost: bool, ghost world: World) returns (answer: Answer)
      requires sessions.limits == setup.limits && sessions.Keyed()
      requires world.data == sessions.next.data && world.clock <= now
      modifies sessions.next, cache
      ensures sessions.Keyed()
      ensures var (after, a) := Resolved(setup, System(world, old(cache.data)), id, now, blind, lost);
              sessions.next.data == after.world.data && cache.data == after.cache && answer == a
    {
      var key := CacheKey(id);
      if !blind {
        var hit := cache.Get(key, now);
        if hit.Some? {
          return Got(hit.value);
        }
      }
      answer := Derived(id, now);
      if !answer.Got? {
        return;
      }
      var ttl := setup.ttl;
      if ttl <= 0 {
        ttl := DEFAULT_TTL;
      }
      if !lost {
        cache.Set(key, answer.context, ttl, now);
      }
    }
  }

  // ---- Runs ----

  datatype Event =
    | OnSessions(t: Timed)
    | OnResolve(id: string, now: Moment, blind: bool, lost: bool)
    | Evict(key: string)

  function Next(c: Setup, s: System, e: Event): System {
    match e
    case OnSessions(t) => s.(world := Step(c.limits, s.world, t))
    case OnResolve(id, now, blind, lost) => if now < s.world.clock then s else Resolved(c, s, id, now, blind, lost).0
    case Evict(key) => s.(cache := s.cache - {key})
  }

  function Exec(c: Setup, s: System, es: seq<Event>): System
    decreases |es|
  {
    if es == [] then s else Exec(c, Next(c, s, es[0]), es[1..])
  }

  const START := System(EMPTY, map[])

  /** What is cached for an identifier is derived from whoever logged in under it. */
  ghost predicate Coherent(c: Setup, s: System) {
    && (forall id | id in s.world.data :: Kept(c.limits, s.world, id))
    && (forall id | CacheKey(id) in s.cache ::
          id in s.world.logins && Derive(c.policy, s.world.logins[id].0) == Some(s.cache[CacheKey(id)].context))
  }

  lemma KeysDiffer(a: string, b: string)
    requires CacheKey(a) == CacheKey(b)
    ensures a == b
  {
    assert CacheKey(a)[8..] == a && CacheKey(b)[8..] == b;
  }

  lemma LoginsOnlyGrow(l: Checked, w: World, t: Timed, id: string)
    requires id in w.logins
    ensures id in Step(l, w, t).logins && Step(l, w, t).logins[id] == w.logins[id]
  {
  }

  lemma SessionsCoherent(c: Setup, s: System, t: Timed)
    requires Coherent(c, s)
    ensures Coherent(c, s.(world := Step(c.limits, s.world, t)))
  {
    KeptStep(c.limits, s.world, t);
    forall id | CacheKey(id) in s.cache
      ensures id in Step(c.limits, s.world, t).logins
      ensures Derive(c.policy, Step(c.limits, s.world, t).logins[id].0) == Some(s.cache[CacheKey(id)].context)
    {
      LoginsOnlyGrow(c.limits, s.world, t, id);
    }
  }

  lemma StoreCoherent(c: Setup, s: System, id: string, entry: Entry)
    requires Coherent(c, s) && id in s.world.logins
    requires Derive(c.policy, s.world.logins[id].0) == Some(entry.context)
    ensures Coherent(c, s.(cache := s.cache[CacheKey(id) := entry]))
  {
    forall other | CacheKey(other) == CacheKey(id) ensures other == id {
      KeysDiffer(other, id);
    }
  }

  /** What a session answers with is derived from whoever logged in under its identifier. */
  lemma AnswerIsTheirs(c: Setup, s: System, id: string, now: Moment)
    requires Coherent(c, s) && FromSession(c.policy, Fetch(c.limits, s.world.data, id, now).1).Got?
    ensures id in s.world.logins
    ensures var answer := FromSession(c.policy, Fetch(c.limits, s.world.data, id, now).1);
            Derive(c.policy, s.world.logins[id].0) == Some(answer.context)
  {
    assert Kept(c.limits, s.world, id);
  }

  lemma ResolveCoherent(c: Setup, s: System, id: string, now: Moment, blind: bool, lost: bool)
    requires Coherent(c, s)
    ensures Coherent(c, Resolved(c, s, id, now, blind, lost).0)
  {
    var visit := Timed(Visit(id, false), now);
    var looked := s.(cache := if blind then s.cache else AfterLookup(s.cache, CacheKey(id), now));
    var visited := looked.(world := Step(c.limits, s.world, visit));
    SessionsCoherent(c, looked, visit);
    var answer := FromSession(c.policy, Fetch(c.limits, s.world.data, id, now).1);
    if answer.Got? {
      AnswerIsTheirs(c, s, id, now);
      LoginsOnlyGrow(c.limits, s.world, visit, id);
      StoreCoherent(c, visited, id, Entry(answer.context, now + Ttl(c)));
    }
  }

  lemma NextCoherent(c: Setup, s: System, e: Event)
    requires Coherent(c, s)
    ensures Coherent(c, Next(c, s, e))
  {
    match e
    case OnSessions(t) => SessionsCoherent(c, s, t);
    case OnResolve(id, now, blind, lost) => if s.world.clock <= now { ResolveCoherent(c, s, id, now, blind, lost); }
    case Evict(_) =>
  }

  lemma {:induction false} ExecCoherent(c: Setup, s: System, es: seq<Event>)
    requires Coherent(c, s)
    ensures Coherent(c, Exec(c, s, es))
    decreases |es|
  {
    if es == [] {
    } else {
      NextCoherent(c, s, es[0]);
      ExecCoherent(c, Next(c, s, es[0]), es[1..]);
    }
  }

  lemma AgreesAt(c: Setup, s: System, id: string, now: Moment, blind: bool, lost: bool)
    requires Coherent(c, s) && Answers(c.limits, s.world, id, now)
    ensures id in s.world.logins
    ensures Resolved(c, s, id, now, blind, lost).1
            == FromSession(c.policy, Fetch(c.limits, s.world.data, id, now).1)
            == Understood(c.policy, s.world.logins[id].0)
  {
    assert Kept(c.limits, s.world, id);
  }

  function Understood(p: Policy, who: Identity): Answer {
    var c := Derive(p, who);
    if c.None? then PolicyError else Got(c.value)
  }

  /** After any history, with any pattern of cache failures, the cached resolver answers for a
      live session exactly what the plain one would. */
  lemma CacheAgrees(c: Setup, es: seq<Event>, id: string, now: Moment, blind: bool, lost: bool)
    requires var s := Exec(c, START, es); s.world.clock <= now && Answers(c.limits, s.world, id, now)
    ensures var s := Exec(c, START, es);
            Resolved(c, s, id, now, blind, lost).1 == FromSession(c.policy, Fetch(c.limits, s.world.data, id, now).1)
  {
    ExecCoherent(c, START, es);
    AgreesAt(c, Exec(c, START, es), id, now, blind, lost);
  }

  /** `GET /api/me` reads the session first and resolves the context after; None is 401. */
  function Me(c: Setup, s: System, id: string, now: Moment, blind: bool, lost: bool): Option<Context> {
    if !Answers(c.limits, s.world, id, now) then None
    else
      var visited := s.(world := Step(c.limits, s.world, Timed(Visit(id, false), now)));
      var answer := Resolved(c, visited, id, now, blind, lost).1;
      if answer.Got? then Some(answer.context) else None
  }

  /** So the cache cannot be seen from outside: not even for a session that has ended. */
  lemma MeIgnoresTheCache(c: Setup, es: seq<Event>, id: string, now: Moment, blind: bool, lost: bool)
    requires Exec(c, START, es).world.clock <= now
    ensures var s := Exec(c, START, es);
            Me(c, s, id, now, blind, lost)
            == match FromSession(c.policy, Fetch(c.limits, s.world.data, id, now).1)
               case Got(context) => Some(context)
               case _ => None
  {
    ExecCoherent(c, START, es);
    var s := Exec(c, START, es);
    if Answers(c.limits, s.world, id, now) {
      var visit := Timed(Visit(id, false), now);
      NextCoherent(c, s, OnSessions(visit));
      VisitKeepsAlive(c.limits, s.world, id, now);
      AgreesAt(c, s, id, now, blind, lost);
      AgreesAt(c, s.(world := Step(c.limits, s.world, visit)), id, now, blind, lost);
    }
  }

  lemma VisitKeepsAlive(l: Checked, w: World, id: string, now: Moment)
    requires w.clock <= now && Answers(l, w, id, now)
    ensures var w' := Step(l, w, Timed(Visit(id, false), now)); Answers(l, w', id, now) && w'.logins == w.logins
  {
  }

  // ---- Whose context it is, and how old ----

  /** Event i is a login of this person under this identifier. */
  predicate LogsIn(es: seq<Event>, i: int, id: string, who: Identity) {
    0 <= i < |es| && es[i].OnSessions? && es[i].t.op == Login(id, who)
  }

  /** How long an answer is kept: as configured, or a minute. */
  function Freshness(c: Setup): int { if c.ttl > 0 then c.ttl else 60_000_000_000 }

  /** Event i resolved this identifier by the given time, and the entry ends that much later. */
  predicate Resolves(c: Setup, es: seq<Event>, i: int, id: string, expiresAt: int, by_: int) {
    && 0 <= i < |es| && es[i].OnResolve? && es[i].id == id
    && es[i].now <= by_ && expiresAt == es[i].now + Freshness(c)
  }

  ghost predicate LoginsTraced(es: seq<Event>, logins: map<string, (Identity, Moment)>) {
    forall id | id in logins :: exists i :: LogsIn(es, i, id, logins[id].0)
  }

  ghost predicate CacheTraced(c: Setup, es: seq<Event>, cache: map<string, Entry>, clock: int) {
    forall id | CacheKey(id) in cache :: exists i :: Resolves(c, es, i, id, cache[CacheKey(id)].expiresAt, clock)
  }

  ghost predicate Traced(c: Setup, es: seq<Event>, s: System) {
    LoginsTraced(es, s.world.logins) && CacheTraced(c, es, s.cache, s.world.clock)
  }

  lemma LoginsStayTraced(l: Checked, es: seq<Event>, e: Event, w: World, t: Timed)
    requires LoginsTraced(es, w.logins) && (t.op.Login? ==> e == OnSessions(t))
    ensures LoginsTraced(es + [e], Step(l, w, t).logins)
  {
    var w', all := Step(l, w, t), es + [e];
    forall id | id in w'.logins ensures exists i :: LogsIn(all, i, id, w'.logins[id].0) {
      if id in w.logins {
        var i :| LogsIn(es, i, id, w.logins[id].0);
        LoginsOnlyGrow(l, w, t, id);
        assert LogsIn(all, i, id, w'.logins[id].0);
      } else {
        assert LogsIn(all, |es|, id, w'.logins[id].0);
      }
    }
  }

  /** Entries that are kept stay traced, at any later time. */
  lemma CacheStaysTraced(c: Setup, es: seq<Event>, e: Event, cache: map<string, Entry>, cache': map<string, Entry>,
                         clock: int, clock': int)
    requires CacheTraced(c, es, cache, clock) && clock <= clock'
    requires forall key | key in cache' :: key in cache && cache'[key] == cache[key]
    ensures CacheTraced(c, es + [e], cache', clock')
  {
    forall id | CacheKey(id) in cache'
      ensures exists i :: Resolves(c, es + [e], i, id, cache'[CacheKey(id)].expiresAt, clock')
    {
      var i :| Resolves(c, es, i, id, cache[CacheKey(id)].expiresAt, clock);
      assert Resolves(c, es + [e], i, id, cache'[CacheKey(id)].expiresAt, clock');
    }
  }

  /** A new entry is traced to the event that made it. */
  lemma EntryIsTraced(c: Setup, es: seq<Event>, e: Event, cache: map<string, Entry>, entry: Entry)
    requires e.OnResolve? && CacheTraced(c, es + [e], cache, e.now) && entry.expiresAt == e.now + Freshness(c)
    ensures CacheTraced(c, es + [e], cache[CacheKey(e.id) := entry], e.now)
  {
    var all, cache' := es + [e], cache[CacheKey(e.id) := entry];
    forall id | CacheKey(id) in cache'
      ensures exists i :: Resolves(c, all, i, id, cache'[CacheKey(id)].expiresAt, e.now)
    {
      if CacheKey(id) == CacheKey(e.id) {
        KeysDiffer(id, e.id);
        assert Resolves(c, all, |es|, id, entry.expiresAt, e.now);
      }
    }
  }

  lemma ResolveStaysTraced(c: Setup, es: seq<Event>, e: Event, s: System)
    requires Traced(c, es, s) && e.OnResolve? && s.world.clock <= e.now
    ensures Traced(c, es + [e], Next(c, s, e))
  {
    var visit := Timed(Visit(e.id, false), e.now);
    var looked := if e.blind then s.cache else AfterLookup(s.cache, CacheKey(e.id), e.now);
    LoginsStayTraced(c.limits, es, e, s.world, visit);
    CacheStaysTraced(c, es, e, s.cache, looked, s.world.clock, s.world.clock);
    CacheStaysTraced(c, es, e, s.cache, looked, s.world.clock, e.now);
    assert forall id | id in s.world.logins :: id in Step(c.limits, s.world, visit).logins;
    var answer := FromSession(c.policy, Fetch(c.limits, s.world.data, e.id, e.now).1);
    if answer.Got? {
      EntryIsTraced(c, es, e, looked, Entry(answer.context, e.now + Ttl(c)));
    }
  }

  lemma NextStaysTraced(c: Setup, es: seq<Event>, e: Event, s: System)
    requires Traced(c, es, s)
    ensures Traced(c, es + [e], Next(c, s, e))
  {
    if e.OnResolve? && s.world.clock <= e.now {
      ResolveStaysTraced(c, es, e, s);
    } else {
      var s', idle := Next(c, s, e), Timed(FailedTouch(""), 1);
      LoginsStayTraced(c.limits, es, e, s.world, if e.OnSessions? then e.t else idle);
      CacheStaysTraced(c, es, e, s.cache, s'.cache, s.world.clock, s'.world.clock);
    }
  }

  lemma {:induction false} ExecThen(c: Setup, s: System, es: seq<Event>, e: Event)
    ensures Exec(c, s, es + [e]) == Next(c, Exec(c, s, es), e)
    decreases |es|
  {
    if es == [] {
      assert es + [e] == [e] && [e][1..] == [];
    } else {
      assert (es + [e])[1..] == es[1..] + [e];
      ExecThen(c, Next(c, s, es[0]), es[1..], e);
    }
  }

  lemma {:induction false} RunIsTraced(c: Setup, es: seq<Event>)
    ensures Traced(c, es, Exec(c, START, es))
  {
    if es == [] {
    } else {
      var past, e := es[..|es| - 1], es[|es| - 1];
      assert es == past + [e];
      RunIsTraced(c, past);
      ExecThen(c, START, past, e);
      NextStaysTraced(c, past, e, Exec(c, START, past));
    }
  }

  /** The context that stands for a person under a ruling. */
  predicate Describes(context: Context, who: Identity, permissions: seq<string>, capabilities: seq<string>,
                      level: string)
  {
    && context.subject == who.subject && context.username == who.username
    && context.displayName == who.displayName && context.email == who.email && context.roles == who.roles
    && context.permissions == permissions && context.capabilities == capabilities && context.authLevel == level
  }

  /** The answer that a policy calls for: without one the person is just authenticated; with one
      the permissions, capabilities and level are those it rules for their subject and roles. */
  predicate Befits(p: Policy, who: Identity, answer: Answer) {
    match p
    case NoPolicy => answer.Got? && Describes(answer.context, who, [], [], "authenticated")
    case Policy(evaluate) =>
      match evaluate(who.subject, who.roles)
      case None => answer == PolicyError
      case Some(r) =>
        answer.Got? && Describes(answer.context, who, r.permissions, r.capabilities,
                                 if r.authLevel == "" then "authenticated" else r.authLevel)
  }

  lemma UnderstoodBefits(p: Policy, who: Identity)
    ensures Befits(p, who, Understood(p, who))
  {
  }

  /** After any history and with any cache failures, the answer for a live session is the one the
      policy calls for, of a person who logged in under that identifier; and so is that of
      `GET /api/me`. */
  lemma AnswerIsOfWhoLoggedIn(c: Setup, es: seq<Event>, id: string, now: Moment, blind: bool, lost: bool)
    returns (who: Identity, i: nat)
    requires var s := Exec(c, START, es); s.world.clock <= now && Answers(c.limits, s.world, id, now)
    ensures LogsIn(es, i, id, who)
    ensures var s := Exec(c, START, es);
            && Befits(c.policy, who, Resolved(c, s, id, now, blind, lost).1)
            && (Me(c, s, id, now, blind, lost).Some? ==>
                  Befits(c.policy, who, Got(Me(c, s, id, now, blind, lost).value)))
            && (Me(c, s, id, now, blind, lost).None? ==> Befits(c.policy, who, PolicyError))
  {
    var s := Exec(c, START, es);
    RunIsTraced(c, es);
    ExecCoherent(c, START, es);
    AgreesAt(c, s, id, now, blind, lost);
    MeIgnoresTheCache(c, es, id, now, blind, lost);
    who := s.world.logins[id].0;
    i :| LogsIn(es, i, id, who);
    UnderstoodBefits(c.policy, who);
  }

  /** The resolver by itself goes on answering for a session that has ended, but only from the
      cache, and only until the configured time, or a minute, after someone resolved it. */
  lemma OldAnswersFade(c: Setup, es: seq<Event>, id: string, now: Moment, blind: bool, lost: bool) returns (i: nat)
    requires var s := Exec(c, START, es);
             && s.world.clock <= now && !Answers(c.limits, s.world, id, now)
             && Resolved(c, s, id, now, blind, lost).1 != Missing
    ensures !blind && i < |es| && es[i].OnResolve? && es[i].id == id
    ensures es[i].now <= now < es[i].now + (if c.ttl > 0 then c.ttl else 60_000_000_000)
  {
    var s := Exec(c, START, es);
    RunIsTraced(c, es);
    i :| Resolves(c, es, i, id, s.cache[CacheKey(id)].expiresAt, s.world.clock);
  }
}
