/** Sessions: internal/session/memory.go under internal/session/lifecycle.go.

    Instants and durations are integers in one unit; 0 is Go's zero time.  A run is a
    sequence of whole operations at times that never go back. */
module Sessions {
  import opened Base

  datatype Identity = Identity(
    subject: string, issuer: string, username: string, displayName: string, email: string, roles: seq<string>)

  datatype Session = Session(id: string, who: Identity, createdAt: int, expiresAt: int, lastSeen: int)

  type Store = map<string, Session>

  /** A non-positive MaxLifetime or IdleTimeout is switched off; a non-positive
      TouchInterval means one minute. */
  datatype Limits = Limits(maxLifetime: int, idle: int, touch: int)

  // ---- Single operations as functions ----

  predicate Expired(v: Session, now: Moment) { v.expiresAt != 0 && v.expiresAt <= now }

  function Found(data: Store, id: string, now: Moment): Option<Session> {
    if id in data && !Expired(data[id], now) then Some(data[id]) else None
  }

  predicate TooOld(l: Limits, v: Session, now: Moment) {
    l.maxLifetime > 0 && v.createdAt != 0 && v.createdAt + l.maxLifetime <= now
  }

  predicate TooIdle(l: Limits, v: Session, now: Moment) {
    l.idle > 0 && v.lastSeen != 0 && v.lastSeen + l.idle <= now
  }

  /** What no later read will return. */
  predicate Dead(l: Limits, v: Session, now: Moment) {
    Expired(v, now) || TooOld(l, v, now) || TooIdle(l, v, now)
  }

  function TouchEvery(l: Limits): int { if l.touch <= 0 then MINUTE else l.touch }

  predicate TouchDue(l: Limits, v: Session, now: Moment) {
    l.idle > 0 && (v.lastSeen == 0 || now - v.lastSeen >= TouchEvery(l))
  }

  function Touched(l: Limits, v: Session, now: Moment): Session {
    if TouchDue(l, v, now) then v.(lastSeen := now) else v
  }

  /** `LifecycleStore.Get`. */
  function Fetch(l: Limits, data: Store, id: string, now: Moment): (Store, Option<Session>) {
    if id !in data then (data, None)
    else if Dead(l, data[id], now) then (data - {id}, None)
    else (data[id := Touched(l, data[id], now)], Some(Touched(l, data[id], now)))
  }

  /** The same when a touch may fail: the error is the caller's, and nothing has changed. */
  function Tried(l: Limits, data: Store, id: string, now: Moment, failing: bool): (Store, Option<Session>) {
    if failing && id in data && !Dead(l, data[id], now) && TouchDue(l, data[id], now) then (data, None)
    else Fetch(l, data, id, now)
  }

  /** The record `LifecycleStore.Put` stores. */
  function Stamp(l: Limits, v: Session, now: Moment): Session {
    var created := if v.createdAt == 0 then now else v.createdAt;
    var absolute := created + l.maxLifetime;
    v.(createdAt := created,
       lastSeen := if v.lastSeen == 0 then now else v.lastSeen,
       expiresAt := if l.maxLifetime > 0 && (v.expiresAt == 0 || v.expiresAt > absolute) then absolute else v.expiresAt)
  }

  // ---- The stores as objects ----

  class MemoryStore {
    var data: Store

    constructor ()
      ensures data == map[]
    {
      data := map[];
    }

    method Get(id: string, now: Moment) returns (r: Option<Session>)
      modifies this
      ensures r == Found(old(data), id, now)
      ensures data == if id in old(data) && r.None? then old(data) - {id} else old(data)
    {
      if id !in data || (data[id].expiresAt != 0 && data[id].expiresAt <= now) {
        if id in data {
          Delete(id);
        }
        return None;
      }
      return Some(data[id]);
    }

    method Put(v: Session)
      modifies this
      ensures data == old(data)[v.id := v]
    {
      data := data[v.id := v];
    }

    method Delete(id: string)
      modifies this
      ensures data == old(data) - {id}
    {
      data := data - {id};
    }
  }

  class LifecycleStore {
    const next: MemoryStore
    const limits: Limits

    constructor (next: MemoryStore, limits: Limits)
      ensures this.next == next && this.limits == limits
    {
      this.next, this.limits := next, limits;
    }

    /** Records are stored under their own id. */
    ghost predicate Keyed()
      reads next
    {
      forall id | id in next.data :: next.data[id].id == id
    }

    /** If `failing`, the write of a touch fails. */
    method Get(id: string, now: Moment, failing: bool) returns (r: Option<Session>)
      requires Keyed()
      modifies next
      ensures Keyed()
      ensures (next.data, r) == Tried(limits, old(next.data), id, now, failing)
    {
      r := next.Get(id, now);
      if r.None? {
        return;
      }
      var v := r.value;
      if limits.maxLifetime > 0 && v.createdAt != 0 && v.createdAt + limits.maxLifetime <= now {
        next.Delete(id);
        return None;
      }
      if limits.idle > 0 && v.lastSeen != 0 && v.lastSeen + limits.idle <= now {
        next.Delete(id);
        return None;
      }
      var touch := limits.touch;
      if touch <= 0 {
        touch := MINUTE;
      }
      if limits.idle > 0 && (v.lastSeen == 0 || now - v.lastSeen >= touch) {
        v := v.(lastSeen := now);
        if failing {
          return None;
        }
        next.Put(v);
      }
      assert next.data == old(next.data)[id := v];
      return Some(v);
    }

    method Put(v: Session, now: Moment)
      requires Keyed()
      modifies next
      ensures Keyed()
      ensures next.data == old(next.data)[v.id := Stamp(limits, v, now)]
    {
      var w := v;
      if w.createdAt == 0 {
        w := w.(createdAt := now);
      }
      if w.lastSeen == 0 {
        w := w.(lastSeen := now);
      }
      if limits.maxLifetime > 0 {
        var absolute := w.createdAt + limits.maxLifetime;
        if w.expiresAt == 0 || w.expiresAt > absolute {
          w := w.(expiresAt := absolute);
        }
      }
      next.Put(w);
    }

    method Delete(id: string)
      requires Keyed()
      modifies next
      ensures Keyed() && next.data == old(next.data) - {id}
    {
      next.Delete(id);
    }
  }

  // ---- Runs as the application wires them ----

  /** Limits that the configuration check admits. */
  type Checked = l: Limits | 0 < l.touch <= l.idle <= l.maxLifetime witness Limits(1, 1, 1)

  /** `Login` is the Put of a completed callback, under an identifier never used before.
      `Visit` is a Get; if `lost`, the store fails to carry out the deletions it asks for.
      `FailedTouch` is a Get that ends in an error because its touch could not be written. */
  datatype Op =
    | Login(id: string, who: Identity)
    | Visit(id: string, lost: bool)
    | FailedTouch(id: string)
    | Drop(id: string)

  datatype Timed = Timed(op: Op, now: Moment)

  datatype Write = Write(id: string, at: Moment)

  /** `logins` remembers who logged in under each identifier and when, `access` the last
      successful access, `gone` the identifiers a Visit reported missing, and `writes` every
      Put, in order. */
  datatype World = World(
    data: Store,
    clock: int,
    logins: map<string, (Identity, Moment)>,
    access: map<string, int>,
    gone: set<string>,
    writes: seq<Write>)

  const EMPTY := World(map[], 0, map[], map[], {}, [])

  function Record(l: Checked, id: string, who: Identity, now: Moment): Session {
    Stamp(l, Session(id, who, now, now + l.maxLifetime, now), now)
  }

  function Step(l: Checked, w: World, t: Timed): World {
    if t.now < w.clock then w
    else
      var w := w.(clock := t.now);
      match t.op
      case Login(id, who) =>
        if id in w.logins then w
        else
          w.(data := w.data[id := Record(l, id, who, t.now)], logins := w.logins[id := (who, t.now)],
             access := w.access[id := t.now], gone := w.gone - {id}, writes := w.writes + [Write(id, t.now)])
      case Visit(id, lost) =>
        var (data, r) := Fetch(l, w.data, id, t.now);
        if r.None? then w.(data := if lost then w.data else data, gone := w.gone + {id})
        else
          w.(data := data, access := w.access[id := t.now],
             writes := if TouchDue(l, w.data[id], t.now) then w.writes + [Write(id, t.now)] else w.writes)
      case FailedTouch(_) => w
      case Drop(id) => w.(data := w.data - {id})
  }

  function Run(l: Checked, w: World, ops: seq<Timed>): World
    decreases |ops|
  {
    if ops == [] then w else Run(l, Step(l, w, ops[0]), ops[1..])
  }

  predicate Answers(l: Checked, w: World, id: string, now: Moment) {
    Fetch(l, w.data, id, now).1.Some?
  }

  /** A record as login left it, but for a LastSeen that lags the last access by less than
      the touch interval. */
  predicate Kept(l: Checked, w: World, id: string)
    requires id in w.data
  {
    && id in w.logins && id in w.access
    && w.data[id] == Session(id, w.logins[id].0, w.logins[id].1, w.logins[id].1 + l.maxLifetime, w.data[id].lastSeen)
    && w.logins[id].1 <= w.data[id].lastSeen <= w.access[id] <= w.clock
    && w.access[id] - w.data[id].lastSeen < l.touch
  }

  ghost predicate WritesSpaced(l: Checked, w: World) {
    && (forall i, j | 0 <= i < j < |w.writes| && w.writes[i].id == w.writes[j].id ::
          w.writes[j].at - w.writes[i].at >= l.touch)
    && (forall i | 0 <= i < |w.writes| :: w.writes[i].id in w.logins)
    && (forall i | 0 <= i < |w.writes| && w.writes[i].id in w.data :: w.writes[i].at <= w.data[w.writes[i].id].lastSeen)
  }

  ghost predicate GoneStaysGone(l: Checked, w: World) {
    forall id | id in w.gone && id in w.data :: w.clock > 0 && Dead(l, w.data[id], w.clock)
  }

  ghost predicate Inv(l: Checked, w: World) {
    (forall id | id in w.data :: Kept(l, w, id)) && GoneStaysGone(l, w) && WritesSpaced(l, w)
  }

  lemma KeptStep(l: Checked, w: World, t: Timed)
    requires forall id | id in w.data :: Kept(l, w, id)
    ensures var w' := Step(l, w, t); forall id | id in w'.data :: Kept(l, w', id)
  {
  }

  lemma GoneStep(l: Checked, w: World, t: Timed)
    requires GoneStaysGone(l, w)
    ensures GoneStaysGone(l, Step(l, w, t))
  {
  }

  lemma WritesStep(l: Checked, w: World, t: Timed)
    requires Inv(l, w)
    ensures WritesSpaced(l, Step(l, w, t))
  {
    var w' := Step(l, w, t);
    assert forall i | 0 <= i < |w.writes| :: w'.writes[i] == w.writes[i];
    if w'.writes == w.writes {
      QuietStep(l, w, t);
    } else {
      WriteStep(l, w, t);
    }
  }

  lemma NothingWritten(l: Checked, w: World, t: Timed)
    requires Step(l, w, t).writes == w.writes
    ensures var w' := Step(l, w, t);
            w'.logins == w.logins && forall id | id in w'.data :: id in w.data && w'.data[id] == w.data[id]
  {
    assert |Step(l, w, t).writes| == |w.writes|;
  }

  lemma QuietStep(l: Checked, w: World, t: Timed)
    requires Inv(l, w) && Step(l, w, t).writes == w.writes
    ensures WritesSpaced(l, Step(l, w, t))
  {
    NothingWritten(l, w, t);
  }

  lemma WriteStep(l: Checked, w: World, t: Timed)
    requires Inv(l, w) && Step(l, w, t).writes != w.writes
    ensures WritesSpaced(l, Step(l, w, t))
  {
    var w', id := Step(l, w, t), t.op.id;
    assert w'.writes == w.writes + [Write(id, t.now)] && id in w'.data && w'.data[id].lastSeen == t.now;
    forall i | 0 <= i < |w.writes| && w.writes[i].id == id
      ensures t.now - w.writes[i].at >= l.touch
    {
      assert id in w.data;
    }
    forall i | 0 <= i < |w'.writes| && w'.writes[i].id in w'.data
      ensures w'.writes[i].at <= w'.data[w'.writes[i].id].lastSeen
    {
      if i < |w.writes| && w.writes[i].id != id {
        assert w'.data[w.writes[i].id] == w.data[w.writes[i].id];
      }
    }
  }

  lemma {:induction false} RunInv(l: Checked, w: World, ops: seq<Timed>)
    requires Inv(l, w)
    ensures Inv(l, Run(l, w, ops))
    decreases |ops|
  {
    if ops == [] {
    } else {
      KeptStep(l, w, ops[0]);
      GoneStep(l, w, ops[0]);
      WritesStep(l, w, ops[0]);
      RunInv(l, Step(l, w, ops[0]), ops[1..]);
    }
  }

  /** In every run: a read succeeds only if the last access was less than IdleTimeout ago and
      the absolute lifetime is not over; it does succeed if the last access was at most
      IdleTimeout - TouchInterval ago, unless the session was dropped or its lifetime is over. */
  lemma IdleBounds(l: Checked, ops: seq<Timed>, id: string, now: Moment)
    requires Run(l, EMPTY, ops).clock <= now
    ensures var w := Run(l, EMPTY, ops);
            && (Answers(l, w, id, now) ==>
                  && id in w.access && now - w.access[id] < l.idle
                  && id in w.logins && now < w.logins[id].1 + l.maxLifetime)
            && (id in w.data ==>
                  && id in w.access && id in w.logins
                  && (now - w.access[id] <= l.idle - l.touch && now < w.logins[id].1 + l.maxLifetime ==>
                        Answers(l, w, id, now)))
  {
    RunInv(l, EMPTY, ops);
    if id in Run(l, EMPTY, ops).data {
      assert Kept(l, Run(l, EMPTY, ops), id);
    }
  }

  /** Put writes for one session are at least TouchInterval apart, login included. */
  lemma TouchesAreThrottled(l: Checked, ops: seq<Timed>, i: nat, j: nat)
    requires var writes := Run(l, EMPTY, ops).writes; i < j < |writes| && writes[i].id == writes[j].id
    ensures var writes := Run(l, EMPTY, ops).writes; writes[j].at - writes[i].at >= l.touch
  {
    RunInv(l, EMPTY, ops);
  }

  /** Visits to `id` come at most IdleTimeout - TouchInterval apart and before its lifetime
      ends, and it is not dropped. */
  predicate Attended(l: Checked, id: string, last: int, end: int, ops: seq<Timed>)
    decreases |ops|
  {
    ops == [] ||
    (&& !(ops[0].op == Drop(id))
     && (ops[0].op.Visit? && ops[0].op.id == id ==>
           last <= ops[0].now && ops[0].now - last <= l.idle - l.touch && ops[0].now < end)
     && Attended(l, id, if ops[0].op.Visit? && ops[0].op.id == id then ops[0].now else last, end, ops[1..]))
  }

  predicate Ordered(clock: int, ops: seq<Timed>) {
    && (ops != [] ==> clock <= ops[0].now)
    && (forall i, j | 0 <= i < j < |ops| :: ops[i].now <= ops[j].now)
  }

  lemma {:induction false} AttendedSurvivesFrom(l: Checked, w: World, id: string, ops: seq<Timed>)
    requires Inv(l, w) && id in w.data && id !in w.gone && Ordered(w.clock, ops)
    requires Attended(l, id, w.access[id], w.data[id].expiresAt, ops)
    ensures var w' := Run(l, w, ops); id in w'.data && id !in w'.gone
    decreases |ops|
  {
    if ops == [] {
    } else {
      var w' := Step(l, w, ops[0]);
      assert Kept(l, w, id);
      KeptStep(l, w, ops[0]);
      GoneStep(l, w, ops[0]);
      WritesStep(l, w, ops[0]);
      assert Kept(l, w', id);
      AttendedSurvivesFrom(l, w', id, ops[1..]);
    }
  }

  /** A session that is there and whose visits are close enough together is never lost before
      its lifetime is over, whatever else happens before and in between. */
  lemma AttendedSurvives(l: Checked, before: seq<Timed>, id: string, ops: seq<Timed>)
    requires var w := Run(l, EMPTY, before);
             && id in w.data && id !in w.gone && Ordered(w.clock, ops)
             && id in w.access && Attended(l, id, w.access[id], w.data[id].expiresAt, ops)
    ensures var w := Run(l, Run(l, EMPTY, before), ops); id in w.data && id !in w.gone
  {
    RunInv(l, EMPTY, before);
    AttendedSurvivesFrom(l, Run(l, EMPTY, before), id, ops);
  }

  predicate NoLogin(id: string, ops: seq<Timed>) {
    forall i | 0 <= i < |ops| :: !(ops[i].op.Login? && ops[i].op.id == id)
  }

  lemma {:induction false} GoneForGoodFrom(l: Checked, w: World, id: string, ops: seq<Timed>, now: Moment)
    requires Inv(l, w) && id in w.gone && NoLogin(id, ops)
    requires Run(l, w, ops).clock <= now
    ensures !Answers(l, Run(l, w, ops), id, now)
    decreases |ops|
  {
    if ops == [] {
    } else {
      KeptStep(l, w, ops[0]);
      GoneStep(l, w, ops[0]);
      WritesStep(l, w, ops[0]);
      GoneForGoodFrom(l, Step(l, w, ops[0]), id, ops[1..], now);
    }
  }

  /** Once a read has reported a session missing, every later read does, even if the store
      lost the deletions, until someone logs in under that identifier. */
  lemma GoneForGood(l: Checked, before: seq<Timed>, id: string, lost: bool, at: Moment, after: seq<Timed>, now: Moment)
    requires var w := Run(l, EMPTY, before);
             w.clock <= at && !Answers(l, w, id, at) && NoLogin(id, after)
    requires Run(l, Step(l, Run(l, EMPTY, before), Timed(Visit(id, lost), at)), after).clock <= now
    ensures !Answers(l, Run(l, Step(l, Run(l, EMPTY, before), Timed(Visit(id, lost), at)), after), id, now)
  {
    RunInv(l, EMPTY, before);
    var w, t := Run(l, EMPTY, before), Timed(Visit(id, lost), at);
    KeptStep(l, w, t);
    GoneStep(l, w, t);
    WritesStep(l, w, t);
    GoneForGoodFrom(l, Step(l, w, t), id, after, now);
  }
}
