/** The Redis refresh lock of internal/store/redis/refresh_lock.go: SET NX with a TTL, polled
    until it succeeds, and a release that deletes the key only while it still holds the
    caller's own value.  Redis is an atomic map with expiry.  Owner values are 16 random
    bytes; the model takes them to be distinct. */
module Lease {
  import opened Base

  const DEFAULT_TTL := 10 * SECOND

  function Ttl(ttl: int): (t: int)
    ensures t == if 0 < ttl then ttl else 10_000_000_000
  {
    if ttl <= 0 then DEFAULT_TTL else ttl
  }

  datatype Entry = Entry(owner: string, expiresAt: int)

  type Redis = map<string, Entry>

  predicate Live(r: Redis, key: string, now: int) { key in r && now < r[key].expiresAt }

  /** SET key value NX PX ttl. */
  function SetNX(r: Redis, key: string, value: string, ttl: int, now: int): (Redis, bool) {
    if Live(r, key, now) then (r, false) else (r[key := Entry(value, now + ttl)], true)
  }

  /** The release script: compare and delete. */
  function Release(r: Redis, key: string, value: string, now: int): Redis {
    if Live(r, key, now) && r[key].owner == value then r - {key} else r
  }

  /** The lock against a mutable Redis.  `Poll` is one turn of the loop. */
  class RefreshLocker {
    var rdb: Redis

    constructor ()
      ensures rdb == map[]
    {
      rdb := map[];
    }

    method Poll(key: string, value: string, ttl: int, now: int) returns (ok: bool)
      modifies this
      ensures (rdb, ok) == SetNX(old(rdb), key, value, Ttl(ttl), now)
    {
      if key in rdb && now < rdb[key].expiresAt {
        return false;
      }
      rdb := rdb[key := Entry(value, now + Ttl(ttl))];
      return true;
    }

    /** `Lock`: polls at the given times until the key is free; None when the context ends
        first, that is when the times run out. */
    method Lock(key: string, value: string, ttl: int, times: seq<int>) returns (since: Option<int>)
      modifies this
      ensures since.None? ==> rdb == old(rdb) && forall i | 0 <= i < |times| :: Live(rdb, key, times[i])
      ensures since.Some? ==>
                && rdb == old(rdb)[key := Entry(value, since.value + Ttl(ttl))]
                && exists i :: 0 <= i < |times| && times[i] == since.value && !Live(old(rdb), key, times[i])
                               && forall j | 0 <= j < i :: Live(old(rdb), key, times[j])
    {
      for i := 0 to |times|
        invariant rdb == old(rdb)
        invariant forall j | 0 <= j < i :: Live(rdb, key, times[j])
      {
        var ok := Poll(key, value, ttl, times[i]);
        if ok {
          return Some(times[i]);
        }
      }
      return None;
    }

    method Unlock(key: string, value: string, now: int)
      modifies this
      ensures rdb == Release(old(rdb), key, value, now)
    {
      if key in rdb && now < rdb[key].expiresAt && rdb[key].owner == value {
        rdb := rdb - {key};
      }
    }
  }

  // ---- Any number of callers ----

  datatype Caller =
    | Polling(key: string, value: string, ttl: int)
    | Inside(key: string, value: string, ttl: int, since: int)
    | Outside

  datatype State = State(clock: int, rdb: Redis, callers: map<nat, Caller>, used: set<string>)

  datatype Action =
    | Tick(elapsed: nat)
    | Begin(c: nat, key: string, value: string, ttl: int)
    | TrySet(c: nat)
    | SetButReplyLost(c: nat)  // Redis stored the lease, the caller saw an error
    | GiveUp(c: nat)
    | Leave(c: nat)
    | LeaveButLost(c: nat)     // the release never reached Redis

  const START := State(0, map[], map[], {})

  function Next(s: State, a: Action): State {
    match a
    case Tick(elapsed) => s.(clock := s.clock + elapsed)
    case Begin(c, key, value, ttl) =>
      if c in s.callers || value in s.used then s
      else s.(callers := s.callers[c := Polling(key, value, Ttl(ttl))], used := s.used + {value})
    case TrySet(c) =>
      if !(c in s.callers && s.callers[c].Polling?) then s
      else
        var p := s.callers[c];
        var (rdb, ok) := SetNX(s.rdb, p.key, p.value, p.ttl, s.clock);
        if ok then s.(rdb := rdb, callers := s.callers[c := Inside(p.key, p.value, p.ttl, s.clock)]) else s
    case SetButReplyLost(c) =>
      if !(c in s.callers && s.callers[c].Polling?) then s
      else
        var p := s.callers[c];
        s.(rdb := SetNX(s.rdb, p.key, p.value, p.ttl, s.clock).0, callers := s.callers[c := Outside])
    case GiveUp(c) =>
      if !(c in s.callers && s.callers[c].Polling?) then s else s.(callers := s.callers[c := Outside])
    case Leave(c) =>
      if !(c in s.callers && s.callers[c].Inside?) then s
      else s.(rdb := Release(s.rdb, s.callers[c].key, s.callers[c].value, s.clock), callers := s.callers[c := Outside])
    case LeaveButLost(c) =>
      if !(c in s.callers && s.callers[c].Inside?) then s else s.(callers := s.callers[c := Outside])
  }

  function Exec(s: State, acts: seq<Action>): State
    decreases |acts|
  {
    if acts == [] then s else Exec(Next(s, acts[0]), acts[1..])
  }

  predicate In(s: State, c: nat) { c in s.callers && s.callers[c].Inside? }

  /** A caller that stayed in its critical section until its lease ran out. */
  predicate Overstayed(s: State, c: nat)
    requires In(s, c)
  {
    s.callers[c].since + s.callers[c].ttl <= s.clock
  }

  predicate Active(callers: map<nat, Caller>, c: nat) { c in callers && !callers[c].Outside? }

  /** Active callers have values of their own. */
  ghost predicate CallersOwn(callers: map<nat, Caller>, used: set<string>) {
    && (forall c | Active(callers, c) :: callers[c].value in used && 0 < callers[c].ttl)
    && (forall c, d | Active(callers, c) && Active(callers, d) && c != d :: callers[c].value != callers[d].value)
  }

  ghost predicate StoredAreUsed(rdb: Redis, used: set<string>) {
    forall k | k in rdb :: rdb[k].owner in used
  }

  /** Every value in circulation is accounted for. */
  ghost predicate OwnValues(s: State) { CallersOwn(s.callers, s.used) && StoredAreUsed(s.rdb, s.used) }

  /** Until its time is up, a caller's lease is where it put it. */
  predicate Leased(s: State, c: nat)
    requires In(s, c)
  {
    && s.callers[c].since <= s.clock
    && (Overstayed(s, c) ||
        (&& s.callers[c].key in s.rdb
         && s.rdb[s.callers[c].key] == Entry(s.callers[c].value, s.callers[c].since + s.callers[c].ttl)))
  }

  ghost predicate Inv(s: State) {
    OwnValues(s) && forall c | In(s, c) :: Leased(s, c)
  }

  /** A caller that keeps its value, or goes, disturbs nobody; nor does one with a new value. */
  lemma CallerMoves(callers: map<nat, Caller>, used: set<string>, c: nat, p: Caller, used': set<string>)
    requires CallersOwn(callers, used) && used <= used'
    requires !p.Outside? ==>
               && 0 < p.ttl && p.value in used'
               && (p.value !in used || (Active(callers, c) && callers[c].value == p.value))
    ensures CallersOwn(callers[c := p], used')
  {
  }

  lemma NextCallersOwn(s: State, a: Action, s': State)
    requires OwnValues(s) && s' == Next(s, a) && s' != s && !a.Tick?
    ensures CallersOwn(s'.callers, s'.used)
  {
    CallerMoves(s.callers, s.used, a.c, s'.callers[a.c], s'.used);
  }

  lemma NextStoredAreUsed(s: State, a: Action, s': State)
    requires OwnValues(s) && s' == Next(s, a)
    ensures StoredAreUsed(s'.rdb, s'.used)
  {
    if !a.Tick? && !a.Begin? && Active(s.callers, a.c) {
      assert s.callers[a.c].value in s.used;
    }
  }

  lemma NextOwnValues(s: State, a: Action)
    requires OwnValues(s)
    ensures OwnValues(Next(s, a))
  {
    var s' := Next(s, a);
    NextStoredAreUsed(s, a, s');
    if s' != s && !a.Tick? {
      NextCallersOwn(s, a, s');
    }
  }

  lemma NextLeased(s: State, a: Action, c: nat)
    requires Inv(s) && In(Next(s, a), c)
    ensures Leased(Next(s, a), c)
  {
    if In(s, c) {
      assert Leased(s, c);
      if !a.Tick? && !a.Begin? && Active(s.callers, a.c) {
        assert a.c != c ==> s.callers[a.c].value != s.callers[c].value;
      }
    }
  }

  lemma NextInv(s: State, a: Action)
    requires Inv(s)
    ensures Inv(Next(s, a))
  {
    NextOwnValues(s, a);
    forall c | In(Next(s, a), c)
      ensures Leased(Next(s, a), c)
    {
      NextLeased(s, a, c);
    }
  }

  lemma {:induction false} ExecInv(s: State, acts: seq<Action>)
    requires Inv(s)
    ensures Inv(Exec(s, acts))
    decreases |acts|
  {
    if acts == [] {
    } else {
      NextInv(s, acts[0]);
      ExecInv(Next(s, acts[0]), acts[1..]);
    }
  }

  /** In every run, callers in time hold the live lease of their key, so two of them are never
      inside for the same key. */
  lemma ExclusiveWhileInTime(acts: seq<Action>, c: nat, d: nat)
    requires var s := Exec(START, acts);
             && In(s, c) && In(s, d) && s.callers[c].key == s.callers[d].key
             && !Overstayed(s, c) && !Overstayed(s, d)
    ensures c == d
    ensures var s := Exec(START, acts);
            Live(s.rdb, s.callers[c].key, s.clock) && s.rdb[s.callers[c].key].owner == s.callers[c].value
  {
    ExecInv(START, acts);
  }

  /** A release, however late, removes exactly the caller's own lease if that is still live:
      every entry with another owner stays, be its owner inside or gone.  A caller inside and
      in time is such an owner. */
  lemma ReleaseIsOwn(acts: seq<Action>, c: nat)
    requires In(Exec(START, acts), c)
    ensures var s := Exec(START, acts);
            var s' := Next(s, Leave(c));
            && (forall k | k in s'.rdb :: k in s.rdb && s'.rdb[k] == s.rdb[k])
            && (forall k | k in s.rdb && k !in s'.rdb ::
                  k == s.callers[c].key && Live(s.rdb, k, s.clock) && s.rdb[k].owner == s.callers[c].value)
            && (!Overstayed(s, c) ==> s.callers[c].key !in s'.rdb)
            && (forall d | In(s, d) && d != c && !Overstayed(s, d) ::
                  s.callers[d].key in s'.rdb && s'.rdb[s.callers[d].key].owner == s.callers[d].value)
  {
    ExecInv(START, acts);
    var s := Exec(START, acts);
    forall d | In(s, d) && d != c && !Overstayed(s, d)
      ensures s.callers[d].key in s.rdb && s.rdb[s.callers[d].key].owner == s.callers[d].value != s.callers[c].value
    {
      assert Leased(s, d);
    }
  }

  lemma LongerThanAll(used: set<string>) returns (value: string)
    ensures value !in used && forall u | u in used :: |u| < |value|
  {
    value := "0";
    if used == {} {
    } else {
      var u :| u in used;
      var rest := LongerThanAll(used - {u});
      value := rest + u + "0";
      assert forall v | v in used :: v == u || v in used - {u};
    }
  }

  /** Staying too long is exactly what breaks exclusion: from any reachable state with a caller
      that has overstayed, another can join it without the first one doing anything. */
  lemma OverstayingIsJoined(acts: seq<Action>, c: nat) returns (more: seq<Action>, d: nat)
    requires var s := Exec(START, acts); In(s, c) && Overstayed(s, c)
    ensures var s := Exec(START, acts);
            var s' := Exec(s, more);
            && In(s', c) && In(s', d) && c != d && s'.callers[c] == s.callers[c]
            && s'.callers[d].key == s.callers[c].key
  {
    var s := Exec(START, acts);
    var key := s.callers[c].key;
    d := Above(s.callers.Keys);
    var value := LongerThanAll(s.used);
    var wait := if Live(s.rdb, key, s.clock) then s.rdb[key].expiresAt - s.clock else 0;
    more := [Tick(wait), Begin(d, key, value, 1), TrySet(d)];
    var s1 := Next(s, more[0]);
    var s2 := Next(s1, more[1]);
    var s3 := Next(s2, more[2]);
    assert more[1..] == [more[1], more[2]] && [more[1], more[2]][1..] == [more[2]] && [more[2]][1..] == [];
    assert Exec(s, more) == Exec(s1, [more[1], more[2]]) == Exec(s2, [more[2]]) == Exec(s3, []);
    assert s2.callers[d] == Polling(key, value, 1);
  }

  /** A lease whose caller never learned of it holds all the same: from any state in which a poll
      would have succeeded, the key is taken until the lease runs out, and free after. */
  lemma AbandonedLeaseHolds(s: State, c: nat, d: nat, wait: nat)
    requires c in s.callers && s.callers[c].Polling? && d in s.callers && s.callers[d].Polling? && c != d
    requires s.callers[c].key == s.callers[d].key && !Live(s.rdb, s.callers[c].key, s.clock)
    ensures var s' := Next(Next(Next(s, SetButReplyLost(c)), Tick(wait)), TrySet(d));
            !In(s', c) && (In(s', d) <==> s.callers[c].ttl <= wait)
  {
  }
}
