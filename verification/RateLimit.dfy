/** The per-client token bucket of internal/httpx/middleware/rate_limit.go: lazily refilled
    buckets, a sweep that drops idle ones, and one shared overflow bucket.  Seconds, tokens
    and rates are reals; an instant is positive, and 0.0 is Go's zero time. */
module RateLimit {
  import opened Base

  const OVERFLOW := "__overflow__"

  /** Ten minutes, in seconds. */
  const DEFAULT_IDLE := 600.0
  const DEFAULT_ENTRIES := 10000

  datatype Raw = Raw(rate: real, burst: int, idle: real, maxEntries: int)

  /** A limiter that is switched on, after its defaults have been filled in. */
  type Config = c: Raw | 0.0 < c.rate && 0 < c.burst && 0.0 < c.idle && 0 < c.maxEntries
    witness Raw(1.0, 1, DEFAULT_IDLE, DEFAULT_ENTRIES)

  function Configure(c: Raw): (r: Config)
    requires c.rate > 0.0 && c.burst > 0
    ensures r.rate == c.rate && r.burst == c.burst
    ensures r.idle == (if c.idle > 0.0 then c.idle else 600.0)
    ensures r.maxEntries == if c.maxEntries > 0 then c.maxEntries else 10000
  {
    Raw(c.rate, c.burst, if c.idle <= 0.0 then DEFAULT_IDLE else c.idle,
        if c.maxEntries <= 0 then DEFAULT_ENTRIES else c.maxEntries)
  }

  datatype Bucket = Bucket(tokens: real, last: real)

  datatype Limiter = Limiter(buckets: map<string, Bucket>, lastSweep: real)

  const EMPTY := Limiter(map[], 0.0)

  type Instant = t: real | 0.0 < t witness 1.0

  datatype Request = Request(at: Instant, key: string)

  /** Which bucket a request was charged to, and whether it was let through. */
  datatype Decision = Decision(bucket: string, allowed: bool)

  // ---- One request, as a function ----

  function ChargedTo(cfg: Config, buckets: map<string, Bucket>, key: string): string {
    if key !in buckets && |buckets| >= cfg.maxEntries then OVERFLOW else key
  }

  predicate SweepDue(cfg: Config, st: Limiter, now: Instant) {
    st.lastSweep == 0.0 || now - st.lastSweep >= cfg.idle
  }

  function Fresh(cfg: Config, buckets: map<string, Bucket>, now: Instant): map<string, Bucket> {
    map k | k in buckets && now - buckets[k].last < cfg.idle :: buckets[k]
  }

  function Sweep(cfg: Config, st: Limiter, now: Instant): Limiter {
    if SweepDue(cfg, st, now) then Limiter(Fresh(cfg, st.buckets, now), now) else st
  }

  function Cap(cfg: Config, x: real): real {
    if x > cfg.burst as real then cfg.burst as real else x
  }

  /** Tokens that accrue in `dt` seconds. */
  function Gain(cfg: Config, dt: real): real { cfg.rate * dt }

  function Refill(cfg: Config, b: Bucket, now: Instant): real {
    if b.last == 0.0 then cfg.burst as real else Cap(cfg, b.tokens + Gain(cfg, now - b.last))
  }

  function Find(buckets: map<string, Bucket>, key: string): Bucket {
    if key in buckets then buckets[key] else Bucket(0.0, 0.0)
  }

  function Charge(cfg: Config, buckets: map<string, Bucket>, key: string, now: Instant): (map<string, Bucket>, bool) {
    var level := Refill(cfg, Find(buckets, key), now);
    var allowed := level >= 1.0;
    (buckets[key := Bucket(if allowed then level - 1.0 else level, now)], allowed)
  }

  function Serve(cfg: Config, st: Limiter, r: Request): (Limiter, Decision) {
    var key := ChargedTo(cfg, st.buckets, r.key);
    var swept := Sweep(cfg, st, r.at);
    var (buckets, allowed) := Charge(cfg, swept.buckets, key, r.at);
    (Limiter(buckets, swept.lastSweep), Decision(key, allowed))
  }

  // ---- One request, as the source runs it ----

  class RateLimiter {
    const cfg: Config
    var buckets: map<string, Bucket>
    var lastSweep: real

    function Value(): Limiter
      reads this
    {
      Limiter(buckets, lastSweep)
    }

    constructor (cfg: Config)
      ensures this.cfg == cfg && Value() == EMPTY
    {
      this.cfg := cfg;
      buckets, lastSweep := map[], 0.0;
    }

    /** The loop that deletes idle buckets. */
    method SweepIdle(now: Instant)
      modifies this
      ensures Value() == Sweep(cfg, old(Value()), now)
    {
      if lastSweep == 0.0 || now - lastSweep >= cfg.idle {
        var rest := buckets.Keys;
        while rest != {}
          invariant rest <= buckets.Keys <= old(buckets).Keys
          invariant forall k | k in buckets :: buckets[k] == old(buckets)[k]
          invariant forall k | k in old(buckets) && k !in rest ::
                      k in buckets <==> now - old(buckets)[k].last < cfg.idle
          decreases |rest|
        {
          var k :| k in rest;
          if now - buckets[k].last >= cfg.idle {
            buckets := buckets - {k};
          }
          rest := rest - {k};
        }
        assert buckets == Fresh(cfg, old(buckets), now);
        lastSweep := now;
      }
    }

    /** Seconds times the rate. */
    method Accrued(seconds: real) returns (gained: real)
      ensures gained == Gain(cfg, seconds)
    {
      gained := seconds * cfg.rate;
    }

    /** The critical section: everything between `mu.Lock()` and `mu.Unlock()`. */
    method Allow(now: Instant, client: string) returns (allowed: bool, ghost bucket: string)
      modifies this
      ensures (Value(), Decision(bucket, allowed)) == Serve(cfg, old(Value()), Request(now, client))
    {
      var key := client;
      if key !in buckets && |buckets| >= cfg.maxEntries {
        key := OVERFLOW;
      }
      bucket := key;
      SweepIdle(now);
      var b := if key in buckets then buckets[key] else Bucket(0.0, 0.0);
      if b.last == 0.0 {
        b := Bucket(cfg.burst as real, now);
      } else {
        var gained := Accrued(now - b.last);
        b := b.(tokens := b.tokens + gained);
        if b.tokens > cfg.burst as real {
          b := b.(tokens := cfg.burst as real);
        }
        b := b.(last := now);
      }
      allowed := b.tokens >= 1.0;
      if allowed {
        b := b.(tokens := b.tokens - 1.0);
      }
      buckets := buckets[key := b];
    }
  }

  /** No limiter is put in front unless rate and burst are positive. */
  method NewLimiter(c: Raw) returns (l: RateLimiter?)
    ensures l == null <==> c.rate <= 0.0 || c.burst <= 0
    ensures l != null ==> fresh(l) && l.cfg == Configure(c) && l.Value() == EMPTY
  {
    if c.rate <= 0.0 || c.burst <= 0 {
      return null;
    }
    l := new RateLimiter(Configure(c));
  }

  // ---- Runs ----

  function Run(cfg: Config, reqs: seq<Request>): (Limiter, seq<Decision>) {
    if reqs == [] then (EMPTY, [])
    else
      var (st, ds) := Run(cfg, reqs[..|reqs| - 1]);
      var (st', d) := Serve(cfg, st, reqs[|reqs| - 1]);
      (st', ds + [d])
  }

  lemma {:induction false} RunLength(cfg: Config, reqs: seq<Request>)
    ensures |Run(cfg, reqs).1| == |reqs|
  {
    if reqs == [] {
    } else {
      RunLength(cfg, reqs[..|reqs| - 1]);
    }
  }

  lemma GainLaws(cfg: Config, a: real, b: real)
    ensures Gain(cfg, a + b) == Gain(cfg, a) + Gain(cfg, b)
    ensures a >= 0.0 ==> Gain(cfg, a) >= 0.0
  {
  }

  /** Gain is linear and increasing. */
  lemma GainBetween(cfg: Config, a: real, b: real)
    ensures Gain(cfg, b - a) == Gain(cfg, b) - Gain(cfg, a)
    ensures a <= b ==> Gain(cfg, a) <= Gain(cfg, b)
  {
    GainLaws(cfg, b - a, a);
    assert b - a + a == b;
  }

  lemma {:induction false} RunPrefix(cfg: Config, reqs: seq<Request>, n: nat)
    requires n <= |reqs|
    ensures |Run(cfg, reqs).1| == |reqs| && Run(cfg, reqs[..n]).1 == Run(cfg, reqs).1[..n]
  {
    RunLength(cfg, reqs);
    if n == |reqs| {
      assert reqs[..n] == reqs;
    } else {
      var past := reqs[..|reqs| - 1];
      RunPrefix(cfg, past, n);
      assert past[..n] == reqs[..n];
    }
  }

  lemma DecisionAt(cfg: Config, reqs: seq<Request>, j: nat)
    requires j < |reqs|
    ensures |Run(cfg, reqs).1| == |reqs|
    ensures Run(cfg, reqs).1[j] == Serve(cfg, Run(cfg, reqs[..j]).0, reqs[j]).1
    ensures Run(cfg, reqs).1[j].bucket == ChargedTo(cfg, Run(cfg, reqs[..j]).0.buckets, reqs[j].key)
  {
    RunPrefix(cfg, reqs, j + 1);
    RunLength(cfg, reqs[..j]);
    assert reqs[..j + 1][..j] == reqs[..j];
    assert Run(cfg, reqs).1[j] == Run(cfg, reqs).1[..j + 1][j];
  }

  // ---- The number of entries ----

  /** The map holds at most MaxEntries client buckets and the overflow bucket. */
  lemma {:induction false} EntriesBounded(cfg: Config, reqs: seq<Request>)
    ensures var b := Run(cfg, reqs).0.buckets;
            |b| <= cfg.maxEntries + 1 && (OVERFLOW !in b ==> |b| <= cfg.maxEntries)
  {
    if reqs == [] {
    } else {
      var past, r := reqs[..|reqs| - 1], reqs[|reqs| - 1];
      EntriesBounded(cfg, past);
      var st := Run(cfg, past).0;
      var b := st.buckets;
      var key := ChargedTo(cfg, b, r.key);
      var swept := Sweep(cfg, st, r.at).buckets;
      var b' := Run(cfg, reqs).0.buckets;
      assert b'.Keys == swept.Keys + {key} && swept.Keys <= b.Keys;
      SubsetSize(b'.Keys, b.Keys + {key});
      if key in b {
        assert b.Keys + {key} == b.Keys;
      }
      if OVERFLOW !in b' && OVERFLOW in b {
        SubsetSize(b'.Keys, b.Keys + {key} - {OVERFLOW});
      }
    }
  }

  // ---- Tokens, in whatever order requests are served ----

  /** The latest reading among the requests charged to one bucket. */
  function LatestOn(cfg: Config, reqs: seq<Request>, key: string): real {
    if reqs == [] then 0.0
    else
      var past, r := reqs[..|reqs| - 1], reqs[|reqs| - 1];
      var before := LatestOn(cfg, past, key);
      if ChargedTo(cfg, Run(cfg, past).0.buckets, r.key) == key && r.at > before then r.at else before
  }

  /** A bucket holds at most the burst and owes at most what accrues between its last use
      and `latest`. */
  predicate OwesAtMost(cfg: Config, b: Bucket, latest: real) {
    0.0 < b.last <= latest && -Gain(cfg, latest - b.last) <= b.tokens <= cfg.burst as real
  }

  lemma ChargeOwes(cfg: Config, b: Bucket, latest: real, now: Instant, latest': real)
    requires OwesAtMost(cfg, b, latest) && latest <= latest' && now <= latest'
    ensures OwesAtMost(cfg, b, latest')
    ensures var level := Refill(cfg, b, now);
            OwesAtMost(cfg, Bucket(if level >= 1.0 then level - 1.0 else level, now), latest')
  {
    GainLaws(cfg, latest - b.last, latest' - latest);
    assert latest - b.last + (latest' - latest) == latest' - b.last;
    GainLaws(cfg, latest' - latest, 0.0);
    GainLaws(cfg, latest' - now, now - b.last);
    assert latest' - now + (now - b.last) == latest' - b.last;
    GainLaws(cfg, latest' - now, 0.0);
  }

  /** The clock is read before the mutex is taken, so requests may be served out of order.
      However they are, a bucket holds at most the burst, and owes at most what accrues in
      the time by which the last request charged to it was late. */
  lemma {:induction false} TokensInRange(cfg: Config, reqs: seq<Request>, key: string)
    requires key in Run(cfg, reqs).0.buckets
    ensures OwesAtMost(cfg, Run(cfg, reqs).0.buckets[key], LatestOn(cfg, reqs, key))
  {
    var past, r := reqs[..|reqs| - 1], reqs[|reqs| - 1];
    var st := Run(cfg, past).0;
    if key !in st.buckets {
    } else {
      TokensInRange(cfg, past, key);
      if ChargedTo(cfg, st.buckets, r.key) == key {
        ChargeOwes(cfg, st.buckets[key], LatestOn(cfg, past, key), r.at, LatestOn(cfg, reqs, key));
      }
    }
    GainLaws(cfg, LatestOn(cfg, reqs, key) - r.at, 0.0);
  }

  /** Exactly when a request drives its bucket below zero: the bucket outlives the sweep and
      holds less than what accrues between the request and the bucket's last use. */
  lemma OwedIff(cfg: Config, reqs: seq<Request>, r: Request)
    ensures var st := Run(cfg, reqs).0;
            var kept := Sweep(cfg, st, r.at).buckets;
            var key := ChargedTo(cfg, st.buckets, r.key);
            Serve(cfg, st, r).0.buckets[key].tokens < 0.0
            <==> key in kept && kept[key].tokens < Gain(cfg, kept[key].last - r.at)
  {
    var st := Run(cfg, reqs).0;
    var kept := Sweep(cfg, st, r.at).buckets;
    var key := ChargedTo(cfg, st.buckets, r.key);
    if key in kept {
      TokensInRange(cfg, reqs, key);
      GainBetween(cfg, kept[key].last, r.at);
      GainBetween(cfg, r.at, kept[key].last);
    }
  }

  // ---- A client that keeps its distance ----

  lemma {:induction false} LatestUse(cfg: Config, reqs: seq<Request>, key: string) returns (i: nat)
    requires LatestOn(cfg, reqs, key) > 0.0
    ensures |Run(cfg, reqs).1| == |reqs| && i < |reqs|
    ensures Run(cfg, reqs).1[i].bucket == key && reqs[i].at == LatestOn(cfg, reqs, key)
  {
    RunLength(cfg, reqs);
    var n := |reqs| - 1;
    var past, r := reqs[..n], reqs[n];
    if ChargedTo(cfg, Run(cfg, past).0.buckets, r.key) == key && r.at > LatestOn(cfg, past, key) {
      i := n;
    } else {
      i := LatestUse(cfg, past, key);
    }
  }

  lemma SpacedServe(cfg: Config, st: Limiter, r: Request, latest: real)
    requires var key := ChargedTo(cfg, st.buckets, r.key);
             key in st.buckets ==> OwesAtMost(cfg, st.buckets[key], latest) && Gain(cfg, r.at - latest) >= 1.0
    ensures Serve(cfg, st, r).1.allowed
  {
    var key := ChargedTo(cfg, st.buckets, r.key);
    if key in st.buckets {
      var last := st.buckets[key].last;
      GainLaws(cfg, r.at - latest, latest - last);
      assert r.at - latest + (latest - last) == r.at - last;
    }
  }

  /** The latest request charged to the bucket of request j before it, if the bucket is there. */
  lemma UsedBefore(cfg: Config, reqs: seq<Request>, j: nat, key: string) returns (i: nat)
    requires j < |reqs| && key in Run(cfg, reqs[..j]).0.buckets
    ensures |Run(cfg, reqs).1| == |reqs| && i < j && Run(cfg, reqs).1[i].bucket == key
    ensures reqs[i].at == LatestOn(cfg, reqs[..j], key)
    ensures OwesAtMost(cfg, Run(cfg, reqs[..j]).0.buckets[key], reqs[i].at)
  {
    RunLength(cfg, reqs);
    TokensInRange(cfg, reqs[..j], key);
    i := LatestUse(cfg, reqs[..j], key);
    RunPrefix(cfg, reqs, j);
    assert Run(cfg, reqs).1[i] == Run(cfg, reqs).1[..j][i];
  }

  /** Request j comes at least 1/rate seconds after every earlier one charged to its bucket. */
  ghost predicate Spaced(cfg: Config, reqs: seq<Request>, j: nat)
    requires j < |reqs|
  {
    && |Run(cfg, reqs).1| == |reqs|
    && forall i | 0 <= i < j && Run(cfg, reqs).1[i].bucket == Run(cfg, reqs).1[j].bucket ::
         Gain(cfg, reqs[j].at - reqs[i].at) >= 1.0
  }

  lemma SpacedFromLatest(cfg: Config, reqs: seq<Request>, j: nat, key: string) returns (latest: real)
    requires j < |reqs| && Spaced(cfg, reqs, j) && key == Run(cfg, reqs).1[j].bucket
    ensures var buckets := Run(cfg, reqs[..j]).0.buckets;
            key in buckets ==> OwesAtMost(cfg, buckets[key], latest) && Gain(cfg, reqs[j].at - latest) >= 1.0
  {
    latest := 0.0;
    if key in Run(cfg, reqs[..j]).0.buckets {
      var i := UsedBefore(cfg, reqs, j, key);
      latest := reqs[i].at;
    }
  }

  /** Such a request is never rejected, in whatever order requests are served. */
  lemma SpacedIsServed(cfg: Config, reqs: seq<Request>, j: nat)
    requires j < |reqs| && Spaced(cfg, reqs, j)
    ensures Run(cfg, reqs).1[j].allowed
  {
    DecisionAt(cfg, reqs, j);
    var latest := SpacedFromLatest(cfg, reqs, j, Run(cfg, reqs).1[j].bucket);
    SpacedServe(cfg, Run(cfg, reqs[..j]).0, reqs[j], latest);
  }

  // ---- Requests that are late by at most so much ----

  /** No request is served more than `late` after one with a later reading. */
  predicate LateBy(reqs: seq<Request>, late: real) {
    0.0 <= late && forall i, j | 0 <= i < j < |reqs| :: reqs[i].at - late <= reqs[j].at
  }

  function Latest(reqs: seq<Request>): real {
    if reqs == [] then 0.0
    else
      var past, at := Latest(reqs[..|reqs| - 1]), reqs[|reqs| - 1].at;
      if at > past then at else past
  }

  lemma {:induction false} LatestIsAtMost(reqs: seq<Request>, bound: real)
    requires 0.0 <= bound && forall i | 0 <= i < |reqs| :: reqs[i].at <= bound
    ensures Latest(reqs) <= bound
  {
    if reqs == [] {
    } else {
      LatestIsAtMost(reqs[..|reqs| - 1], bound);
    }
  }

  lemma {:induction false} LatestIsAtLeast(reqs: seq<Request>, i: nat)
    requires i < |reqs|
    ensures reqs[i].at <= Latest(reqs)
  {
    if i == |reqs| - 1 {
    } else {
      LatestIsAtLeast(reqs[..|reqs| - 1], i);
    }
  }

  /** From here on no request is stamped before this. */
  function Floor(reqs: seq<Request>, late: real): real { Latest(reqs) - late }

  lemma FloorHolds(reqs: seq<Request>, late: real)
    requires LateBy(reqs, late) && reqs != []
    ensures var past, at := reqs[..|reqs| - 1], reqs[|reqs| - 1].at;
            && LateBy(past, late) && Floor(past, late) <= Floor(reqs, late) <= at
            && at - late <= Floor(reqs, late)
  {
    var past, at := reqs[..|reqs| - 1], reqs[|reqs| - 1].at;
    forall i | 0 <= i < |past| ensures past[i].at <= at + late {
      assert past[i] == reqs[i];
    }
    LatestIsAtMost(past, at + late);
  }

  // ---- What a bucket can still give from a moment on, stored or not ----

  function Min(a: real, b: real): real { if a < b then a else b }

  /** A full bucket, as tokens less what has accrued since time zero. */
  function Full(cfg: Config, t: real): real { cfg.burst as real - Gain(cfg, t) }

  /** Refilling does not change this; the cap and admissions lower it. */
  function Credit(cfg: Config, b: Bucket): real { b.tokens - Gain(cfg, b.last) }

  /** The credit of a bucket for requests stamped `floor` or later. */
  function Reach(cfg: Config, buckets: map<string, Bucket>, key: string, floor: real): real {
    if key in buckets then Min(Credit(cfg, buckets[key]), Full(cfg, floor)) else Full(cfg, floor)
  }

  predicate Stamped(buckets: map<string, Bucket>) { forall k | k in buckets :: 0.0 < buckets[k].last }

  /** A bucket evicted for idling is full again for every request that may still come. */
  predicate RefillsWhenIdle(cfg: Config, late: real) { Gain(cfg, cfg.idle - late - late) >= cfg.burst as real }

  /** A later floor only takes away what the cap takes away. */
  lemma ReachLater(cfg: Config, buckets: map<string, Bucket>, key: string, m: real, m': real)
    requires m <= m'
    ensures Reach(cfg, buckets, key, m') == Min(Reach(cfg, buckets, key, m), Full(cfg, m'))
  {
    GainBetween(cfg, m, m');
  }

  /** The level a request meets. */
  lemma LevelFromReach(cfg: Config, buckets: map<string, Bucket>, key: string, m: real, t: Instant)
    requires Stamped(buckets) && m <= t
    ensures Refill(cfg, Find(buckets, key), t) == Min(Reach(cfg, buckets, key, m), Full(cfg, t)) + Gain(cfg, t)
  {
    GainBetween(cfg, m, t);
    if key in buckets {
      GainBetween(cfg, buckets[key].last, t);
    }
  }

  /** What a charge leaves: the reach of the charged bucket less the token, the others as they
      were. */
  lemma ChargeReach(cfg: Config, buckets: map<string, Bucket>, key: string, t: Instant, k: string, m: real)
    requires Stamped(buckets) && m <= t
    ensures var (buckets', allowed) := Charge(cfg, buckets, key, t);
            var met := Min(Reach(cfg, buckets, key, m), Full(cfg, t));
            && (allowed <==> met + Gain(cfg, t) >= 1.0)
            && Stamped(buckets')
            && Reach(cfg, buckets', k, m)
               == if k == key then (if allowed then met - 1.0 else met) else Reach(cfg, buckets, k, m)
  {
    LevelFromReach(cfg, buckets, key, m, t);
    GainBetween(cfg, m, t);
  }

  predicate Bounded(cfg: Config, buckets: map<string, Bucket>, late: real) {
    forall k | k in buckets :: 0.0 < buckets[k].last && -Gain(cfg, late) <= buckets[k].tokens <= cfg.burst as real
  }

  /** An idle bucket that is evicted has a full reach. */
  lemma EvictedIsFull(cfg: Config, b: Bucket, now: Instant, m: real, late: real)
    requires RefillsWhenIdle(cfg, late) && -Gain(cfg, late) <= b.tokens
    requires now - b.last >= cfg.idle && now - late <= m
    ensures Credit(cfg, b) >= Full(cfg, m)
  {
    GainBetween(cfg, b.last, now - cfg.idle);
    GainBetween(cfg, cfg.idle, now);
    GainBetween(cfg, now - late, m);
    GainBetween(cfg, late, now);
    GainBetween(cfg, late, cfg.idle);
    GainBetween(cfg, late, cfg.idle - late);
  }

  lemma SweepKeepsReach(cfg: Config, st: Limiter, now: Instant, key: string, m: real, late: real)
    requires RefillsWhenIdle(cfg, late) && Bounded(cfg, st.buckets, late) && now - late <= m
    ensures Reach(cfg, Sweep(cfg, st, now).buckets, key, m) == Reach(cfg, st.buckets, key, m)
  {
    if SweepDue(cfg, st, now) && key in st.buckets && now - st.buckets[key].last >= cfg.idle {
      EvictedIsFull(cfg, st.buckets[key], now, m, late);
    }
  }

  /** What serving a request does to every reach, sweep included. */
  lemma ServeReach(cfg: Config, st: Limiter, r: Request, k: string, m: real, late: real)
    requires RefillsWhenIdle(cfg, late) && Bounded(cfg, st.buckets, late) && r.at - late <= m <= r.at
    ensures var (st', d) := Serve(cfg, st, r);
            var met := Min(Reach(cfg, st.buckets, d.bucket, m), Full(cfg, r.at));
            && (d.allowed <==> met + Gain(cfg, r.at) >= 1.0)
            && Reach(cfg, st'.buckets, k, m)
               == if k == d.bucket then (if d.allowed then met - 1.0 else met) else Reach(cfg, st.buckets, k, m)
  {
    var key := ChargedTo(cfg, st.buckets, r.key);
    var swept := Sweep(cfg, st, r.at);
    SweepKeepsReach(cfg, st, r.at, key, m, late);
    SweepKeepsReach(cfg, st, r.at, k, m, late);
    ChargeReach(cfg, swept.buckets, key, r.at, k, m);
  }

  // ---- Every run with bounded lateness ----

  lemma LatestOnIsAtMost(cfg: Config, reqs: seq<Request>, key: string)
    ensures LatestOn(cfg, reqs, key) <= Latest(reqs)
  {
    if reqs == [] {
    } else {
      LatestOnIsAtMost(cfg, reqs[..|reqs| - 1], key);
    }
  }

  /** With bounded lateness no bucket owes more than what accrues in that time. */
  lemma {:induction false} RunBounded(cfg: Config, reqs: seq<Request>, late: real)
    requires LateBy(reqs, late)
    ensures Bounded(cfg, Run(cfg, reqs).0.buckets, late)
  {
    if reqs == [] {
    } else {
      var past, r := reqs[..|reqs| - 1], reqs[|reqs| - 1];
      FloorHolds(reqs, late);
      RunBounded(cfg, past, late);
      var st := Run(cfg, past).0;
      var key := ChargedTo(cfg, st.buckets, r.key);
      GainLaws(cfg, late, 0.0);
      if key in st.buckets {
        TokensInRange(cfg, past, key);
        LatestOnIsAtMost(cfg, past, key);
        ChargeBounded(cfg, st.buckets[key], LatestOn(cfg, past, key), r.at, late);
      }
    }
  }

  lemma ChargeBounded(cfg: Config, b: Bucket, latest: real, now: Instant, late: real)
    requires OwesAtMost(cfg, b, latest) && latest - late <= now && 0.0 <= late
    ensures var level := Refill(cfg, b, now);
            -Gain(cfg, late) <= (if level >= 1.0 then level - 1.0 else level) <= cfg.burst as real
  {
    GainLaws(cfg, late, 0.0);
    GainBetween(cfg, b.last, latest);
    GainBetween(cfg, b.last, now);
    GainBetween(cfg, latest - late, now);
    GainBetween(cfg, late, latest);
  }

  /** Nothing owes more than what accrued until the latest request. */
  lemma ReachIsAtLeast(cfg: Config, reqs: seq<Request>, key: string, late: real)
    requires LateBy(reqs, late)
    ensures Reach(cfg, Run(cfg, reqs).0.buckets, key, Floor(reqs, late)) >= -Gain(cfg, Latest(reqs))
  {
    var buckets := Run(cfg, reqs).0.buckets;
    GainBetween(cfg, Floor(reqs, late), Latest(reqs));
    if key in buckets {
      TokensInRange(cfg, reqs, key);
      LatestOnIsAtMost(cfg, reqs, key);
      GainBetween(cfg, buckets[key].last, LatestOn(cfg, reqs, key));
      GainBetween(cfg, LatestOn(cfg, reqs, key), Latest(reqs));
    }
  }

  // ---- The token-bucket bound ----

  function Admissions(ds: seq<Decision>, bucket: string): nat {
    if ds == [] then 0
    else
      Admissions(ds[..|ds| - 1], bucket)
      + if ds[|ds| - 1].bucket == bucket && ds[|ds| - 1].allowed then 1 else 0
  }

  lemma AdmissionsAfter(ds: seq<Decision>, d: Decision, key: string)
    ensures Admissions(ds + [d], key) == Admissions(ds, key) + if d.bucket == key && d.allowed then 1 else 0
  {
    assert (ds + [d])[..|ds|] == ds;
  }

  /** Admissions from i on, split at the last request. */
  lemma AdmissionsOfRun(cfg: Config, reqs: seq<Request>, i: nat, key: string)
    requires i < |reqs|
    ensures var past, r := reqs[..|reqs| - 1], reqs[|reqs| - 1];
            var d := Serve(cfg, Run(cfg, past).0, r).1;
            && |Run(cfg, past).1| == |past| && |Run(cfg, reqs).1| == |reqs|
            && Admissions(Run(cfg, reqs).1[i..], key)
               == Admissions(Run(cfg, past).1[i..], key) + if d.bucket == key && d.allowed then 1 else 0
  {
    var n := |reqs| - 1;
    RunLength(cfg, reqs[..n]);
    var ds, d := Run(cfg, reqs[..n]).1, Serve(cfg, Run(cfg, reqs[..n]).0, reqs[n]).1;
    AdmissionsAfter(ds[i..], d, key);
    assert (ds + [d])[i..] == ds[i..] + [d];
  }

  /** Admissions from i on and the reach left stay within a full bucket at the time of i. */
  ghost predicate Within(cfg: Config, reqs: seq<Request>, i: nat, key: string, late: real)
    requires i < |reqs|
  {
    && |Run(cfg, reqs).1| == |reqs|
    && Admissions(Run(cfg, reqs).1[i..], key) as real + Reach(cfg, Run(cfg, reqs).0.buckets, key, Floor(reqs, late))
       <= Full(cfg, reqs[i].at - late)
  }

  /** One more request, whatever the admissions so far. */
  lemma WithinStep(cfg: Config, admitted: nat, st: Limiter, r: Request, key: string, m: real, late: real, bound: real)
    requires RefillsWhenIdle(cfg, late) && Bounded(cfg, st.buckets, late) && r.at - late <= m <= r.at
    requires admitted as real + Reach(cfg, st.buckets, key, m) <= bound
    ensures var (st', d) := Serve(cfg, st, r);
            var admitted' := admitted + if d.bucket == key && d.allowed then 1 else 0;
            admitted' as real + Reach(cfg, st'.buckets, key, m) <= bound
  {
    ServeReach(cfg, st, r, key, m, late);
  }

  lemma WithinFirst(cfg: Config, reqs: seq<Request>, key: string, late: real)
    requires RefillsWhenIdle(cfg, late) && LateBy(reqs, late) && reqs != []
    ensures Within(cfg, reqs, |reqs| - 1, key, late)
  {
    var n, m := |reqs| - 1, Floor(reqs, late);
    FloorHolds(reqs, late);
    RunBounded(cfg, reqs[..n], late);
    AdmissionsOfRun(cfg, reqs, n, key);
    assert Run(cfg, reqs[..n]).1[n..] == [];
    GainBetween(cfg, reqs[n].at - late, m);
    WithinStep(cfg, 0, Run(cfg, reqs[..n]).0, reqs[n], key, m, late, Full(cfg, reqs[n].at - late));
  }

  lemma WithinNext(cfg: Config, reqs: seq<Request>, i: nat, key: string, late: real)
    requires RefillsWhenIdle(cfg, late) && LateBy(reqs, late) && i < |reqs| - 1
    requires Within(cfg, reqs[..|reqs| - 1], i, key, late)
    ensures Within(cfg, reqs, i, key, late)
  {
    var n, m := |reqs| - 1, Floor(reqs, late);
    var past := reqs[..n];
    var st, admitted := Run(cfg, past).0, Admissions(Run(cfg, past).1[i..], key);
    FloorHolds(reqs, late);
    RunBounded(cfg, past, late);
    AdmissionsOfRun(cfg, reqs, i, key);
    ReachLater(cfg, st.buckets, key, Floor(past, late), m);
    WithinStep(cfg, admitted, st, reqs[n], key, m, late, Full(cfg, reqs[i].at - late));
  }

  lemma {:induction false} WithinAtEnd(cfg: Config, reqs: seq<Request>, i: nat, key: string, late: real)
    requires RefillsWhenIdle(cfg, late) && LateBy(reqs, late) && i < |reqs|
    ensures Within(cfg, reqs, i, key, late)
  {
    if i == |reqs| - 1 {
      WithinFirst(cfg, reqs, key, late);
    } else {
      FloorHolds(reqs, late);
      WithinAtEnd(cfg, reqs[..|reqs| - 1], i, key, late);
      WithinNext(cfg, reqs, i, key, late);
    }
  }

  lemma BurstPlusRateAtEnd(cfg: Config, reqs: seq<Request>, i: nat, key: string, late: real)
    requires RefillsWhenIdle(cfg, late) && LateBy(reqs, late) && i < |reqs|
    ensures |Run(cfg, reqs).1| == |reqs|
    ensures Admissions(Run(cfg, reqs).1[i..], key) as real
            <= cfg.burst as real + Gain(cfg, reqs[|reqs| - 1].at - reqs[i].at + late + late)
  {
    var at, from := reqs[|reqs| - 1].at, reqs[i].at;
    WithinAtEnd(cfg, reqs, i, key, late);
    ReachIsAtLeast(cfg, reqs, key, late);
    FloorHolds(reqs, late);
    GainBetween(cfg, Latest(reqs), at + late);
    GainBetween(cfg, from - late, at + late);
    assert at + late - (from - late) == at - from + late + late;
  }

  /** With requests late by at most `late`, admissions on one bucket between request i and
      request j are at most the burst and what accrues between them and in twice that time,
      sweeps included. */
  lemma BurstPlusRate(cfg: Config, reqs: seq<Request>, i: nat, j: nat, key: string, late: real)
    requires RefillsWhenIdle(cfg, late) && LateBy(reqs, late) && i <= j < |reqs|
    ensures |Run(cfg, reqs).1| == |reqs|
    ensures Admissions(Run(cfg, reqs).1[i..j + 1], key) as real
            <= cfg.burst as real + Gain(cfg, reqs[j].at - reqs[i].at + late + late)
  {
    var upTo := reqs[..j + 1];
    RunPrefix(cfg, reqs, j + 1);
    BurstPlusRateAtEnd(cfg, upTo, i, key, late);
    assert Run(cfg, reqs).1[..j + 1][i..] == Run(cfg, reqs).1[i..j + 1];
  }

  /** Two instants a token's time apart: one over the rate. */
  predicate Apart(rate: real, from: real, to: real) { rate * (to - from) >= 1.0 }

  /** At most the burst, and the rate times the time elapsed. */
  predicate AtMostRate(n: nat, rate: real, burst: nat, elapsed: real) { n as real <= burst as real + rate * elapsed }

  lemma ApartGains(cfg: Config, from: real, to: real)
    ensures Apart(cfg.rate, from, to) <==> Gain(cfg, to - from) >= 1.0
  {
  }

  lemma AtMostGains(cfg: Config, n: nat, elapsed: real)
    ensures AtMostRate(n, cfg.rate, cfg.burst, elapsed) <==> n as real <= cfg.burst as real + Gain(cfg, elapsed)
  {
  }

  lemma RefillsInOrder(cfg: Config)
    requires AtMostRate(cfg.burst, cfg.rate, 0, cfg.idle)
    ensures RefillsWhenIdle(cfg, 0.0)
  {
    assert cfg.idle - 0.0 - 0.0 == cfg.idle;
  }

  /** In plain numbers, for requests served in order: where the rate times the idle time is at
      least the burst, a bucket admits at most burst plus rate times elapsed. */
  lemma TokenBucketBound(cfg: Config, reqs: seq<Request>, i: nat, j: nat, key: string)
    requires LateBy(reqs, 0.0) && i <= j < |reqs| && AtMostRate(cfg.burst, cfg.rate, 0, cfg.idle)
    ensures |Run(cfg, reqs).1| == |reqs|
    ensures AtMostRate(Admissions(Run(cfg, reqs).1[i..j + 1], key), cfg.rate, cfg.burst, reqs[j].at - reqs[i].at)
  {
    RefillsInOrder(cfg);
    BurstPlusRate(cfg, reqs, i, j, key, 0.0);
    var elapsed := reqs[j].at - reqs[i].at;
    assert elapsed + 0.0 + 0.0 == elapsed;
    AtMostGains(cfg, Admissions(Run(cfg, reqs).1[i..j + 1], key), elapsed);
  }

  /** And in whatever order: a request a token's time after every earlier one is served. */
  lemma TokensTimeLater(cfg: Config, reqs: seq<Request>, j: nat)
    requires j < |reqs| && forall i | 0 <= i < j :: Apart(cfg.rate, reqs[i].at, reqs[j].at)
    ensures j < |Run(cfg, reqs).1| && Run(cfg, reqs).1[j].allowed
  {
    RunLength(cfg, reqs);
    forall i | 0 <= i < j ensures Gain(cfg, reqs[j].at - reqs[i].at) >= 1.0 {
      ApartGains(cfg, reqs[i].at, reqs[j].at);
    }
    SpacedIsServed(cfg, reqs, j);
  }
}
