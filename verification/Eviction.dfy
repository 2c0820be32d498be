/** Evicting idle buckets, against a limiter that keeps every bucket for ever: when it can be
    observed, and when the token-bucket bound holds. */
module Eviction {
  import opened Base
  import opened RateLimit

  // ---- Eviction cannot be observed, exactly when evicted buckets are full ----

  /** The limiter that keeps every bucket for ever and needs no overflow bucket. */
  function Kept(cfg: Config, reqs: seq<Request>): (map<string, Bucket>, seq<Decision>) {
    if reqs == [] then (map[], [])
    else
      var r := reqs[|reqs| - 1];
      var (b, ds) := Kept(cfg, reqs[..|reqs| - 1]);
      var (b', allowed) := Charge(cfg, b, r.key, r.at);
      (b', ds + [Decision(r.key, allowed)])
  }

  function Clients(reqs: seq<Request>): set<string> {
    set r | r in reqs :: r.key
  }

  ghost predicate SameReach(cfg: Config, buckets: map<string, Bucket>, kept: map<string, Bucket>, m: real) {
    forall k :: Reach(cfg, buckets, k, m) == Reach(cfg, kept, k, m)
  }

  lemma SameReachLater(cfg: Config, buckets: map<string, Bucket>, kept: map<string, Bucket>, m: real, m': real)
    requires SameReach(cfg, buckets, kept, m) && m <= m'
    ensures SameReach(cfg, buckets, kept, m')
  {
    forall k
      ensures Reach(cfg, buckets, k, m') == Reach(cfg, kept, k, m')
    {
      ReachLater(cfg, buckets, k, m, m');
      ReachLater(cfg, kept, k, m, m');
    }
  }

  lemma ServeSimulates(cfg: Config, st: Limiter, kept: map<string, Bucket>, r: Request, m: real, late: real)
    requires RefillsWhenIdle(cfg, late) && Bounded(cfg, st.buckets, late) && Stamped(kept) && r.at - late <= m <= r.at
    requires SameReach(cfg, st.buckets, kept, m) && ChargedTo(cfg, st.buckets, r.key) == r.key
    ensures var (st', d) := Serve(cfg, st, r);
            var (kept', allowed) := Charge(cfg, kept, r.key, r.at);
            d == Decision(r.key, allowed) && SameReach(cfg, st'.buckets, kept', m) && Stamped(kept')
  {
    var (st', d) := Serve(cfg, st, r);
    var (kept', allowed) := Charge(cfg, kept, r.key, r.at);
    ServeReach(cfg, st, r, r.key, m, late);
    ChargeReach(cfg, kept, r.key, r.at, r.key, m);
    forall k
      ensures Reach(cfg, st'.buckets, k, m) == Reach(cfg, kept', k, m)
    {
      ServeReach(cfg, st, r, k, m, late);
      ChargeReach(cfg, kept, r.key, r.at, k, m);
    }
  }

  /** With no more clients than entries, no request is charged to the overflow bucket. */
  lemma {:induction false} NoOverflow(cfg: Config, reqs: seq<Request>)
    requires |Clients(reqs)| <= cfg.maxEntries
    ensures Run(cfg, reqs).0.buckets.Keys <= Clients(reqs)
    ensures reqs != [] ==>
              var r := reqs[|reqs| - 1]; ChargedTo(cfg, Run(cfg, reqs[..|reqs| - 1]).0.buckets, r.key) == r.key
  {
    if reqs == [] {
    } else {
      var past, r := reqs[..|reqs| - 1], reqs[|reqs| - 1];
      assert Clients(past) <= Clients(reqs) && r.key in Clients(reqs);
      SubsetSize(Clients(past), Clients(reqs));
      NoOverflow(cfg, past);
      var b := Run(cfg, past).0.buckets;
      if r.key !in b {
        SubsetSize(b.Keys + {r.key}, Clients(reqs));
      }
    }
  }

  ghost predicate Simulates(cfg: Config, reqs: seq<Request>, late: real) {
    && Run(cfg, reqs).1 == Kept(cfg, reqs).1
    && Stamped(Kept(cfg, reqs).0)
    && SameReach(cfg, Run(cfg, reqs).0.buckets, Kept(cfg, reqs).0, Floor(reqs, late))
  }

  /** Where evicted buckets are full again, every decision is that of the limiter that keeps
      its buckets. */
  lemma {:induction false} EvictionInvisible(cfg: Config, reqs: seq<Request>, late: real)
    requires RefillsWhenIdle(cfg, late) && LateBy(reqs, late) && |Clients(reqs)| <= cfg.maxEntries
    ensures Simulates(cfg, reqs, late)
  {
    if reqs == [] {
    } else {
      var past := reqs[..|reqs| - 1];
      assert Clients(past) <= Clients(reqs);
      SubsetSize(Clients(past), Clients(reqs));
      FloorHolds(reqs, late);
      EvictionInvisible(cfg, past, late);
      NoOverflow(cfg, reqs);
      SimulatesOneMore(cfg, reqs, late);
    }
  }

  lemma SimulatesOneMore(cfg: Config, reqs: seq<Request>, late: real)
    requires RefillsWhenIdle(cfg, late) && LateBy(reqs, late) && reqs != []
    requires var past, r := reqs[..|reqs| - 1], reqs[|reqs| - 1];
             Simulates(cfg, past, late) && ChargedTo(cfg, Run(cfg, past).0.buckets, r.key) == r.key
    ensures Simulates(cfg, reqs, late)
  {
    var past, r, m := reqs[..|reqs| - 1], reqs[|reqs| - 1], Floor(reqs, late);
    var st, kept := Run(cfg, past).0, Kept(cfg, past).0;
    FloorHolds(reqs, late);
    RunBounded(cfg, past, late);
    SameReachLater(cfg, st.buckets, kept, Floor(past, late), m);
    ServeSimulates(cfg, st, kept, r, m, late);
  }

  // A client that spends its burst, waits IdleTTL and spends its burst again.

  const CLIENT := "client"

  function Copies(n: nat, t: Instant): seq<Request> { seq(n, _ => Request(t, CLIENT)) }

  function TwoBursts(cfg: Config, n: nat, m: nat): seq<Request> {
    Copies(n, 1.0) + Copies(m, 1.0 + cfg.idle)
  }

  predicate AllAllowed(ds: seq<Decision>) {
    forall i | 0 <= i < |ds| :: ds[i] == Decision(CLIENT, true)
  }

  function AfterFirst(cfg: Config, n: nat): Limiter {
    if n == 0 then EMPTY else Limiter(map[CLIENT := Bucket((cfg.burst - n) as real, 1.0)], 1.0)
  }

  lemma ServeFirst(cfg: Config, n: nat)
    requires 1 <= n <= cfg.burst
    ensures Serve(cfg, AfterFirst(cfg, n - 1), Request(1.0, CLIENT)) == (AfterFirst(cfg, n), Decision(CLIENT, true))
    ensures Charge(cfg, AfterFirst(cfg, n - 1).buckets, CLIENT, 1.0) == (AfterFirst(cfg, n).buckets, true)
  {
    var st := AfterFirst(cfg, n - 1);
    assert ChargedTo(cfg, st.buckets, CLIENT) == CLIENT;
    if n == 1 {
      assert Fresh(cfg, st.buckets, 1.0) == map[];
      assert Sweep(cfg, st, 1.0) == Limiter(map[], 1.0);
    } else {
      assert Gain(cfg, 0.0) == 0.0;
      assert Sweep(cfg, st, 1.0) == st;
    }
    assert Charge(cfg, st.buckets, CLIENT, 1.0).0 == AfterFirst(cfg, n).buckets;
  }

  lemma RunGrows(cfg: Config, past: seq<Request>, r: Request, reqs: seq<Request>)
    requires reqs == past + [r]
    ensures var (st, d) := Serve(cfg, Run(cfg, past).0, r);
            Run(cfg, reqs) == (st, Run(cfg, past).1 + [d])
    ensures var (b, allowed) := Charge(cfg, Kept(cfg, past).0, r.key, r.at);
            Kept(cfg, reqs) == (b, Kept(cfg, past).1 + [Decision(r.key, allowed)])
  {
    assert reqs[..|reqs| - 1] == past;
  }

  lemma {:induction false} FirstBurst(cfg: Config, n: nat)
    requires n <= cfg.burst
    ensures var (st, ds) := Run(cfg, Copies(n, 1.0));
            st == AfterFirst(cfg, n) && |ds| == n && AllAllowed(ds) && Kept(cfg, Copies(n, 1.0)) == (st.buckets, ds)
  {
    if n == 0 {
      assert Copies(n, 1.0) == [];
    } else {
      assert Copies(n, 1.0) == Copies(n - 1, 1.0) + [Request(1.0, CLIENT)];
      FirstBurst(cfg, n - 1);
      ServeFirst(cfg, n);
      RunGrows(cfg, Copies(n - 1, 1.0), Request(1.0, CLIENT), Copies(n, 1.0));
    }
  }

  function AfterSecond(cfg: Config, m: nat): Limiter {
    if m == 0 then Limiter(map[CLIENT := Bucket(0.0, 1.0)], 1.0)
    else Limiter(map[CLIENT := Bucket((cfg.burst - m) as real, 1.0 + cfg.idle)], 1.0 + cfg.idle)
  }

  lemma ServeSecond(cfg: Config, m: nat)
    requires 1 <= m <= cfg.burst
    ensures Serve(cfg, AfterSecond(cfg, m - 1), Request(1.0 + cfg.idle, CLIENT))
            == (AfterSecond(cfg, m), Decision(CLIENT, true))
  {
    var st, now := AfterSecond(cfg, m - 1), 1.0 + cfg.idle;
    assert ChargedTo(cfg, st.buckets, CLIENT) == CLIENT;
    if m == 1 {
      assert Fresh(cfg, st.buckets, now) == map[];
      assert Sweep(cfg, st, now) == Limiter(map[], now);
    } else {
      assert Gain(cfg, 0.0) == 0.0;
      assert Sweep(cfg, st, now) == st;
      assert Refill(cfg, st.buckets[CLIENT], now) == (cfg.burst - m + 1) as real;
      assert Charge(cfg, st.buckets, CLIENT, now).0 == AfterSecond(cfg, m).buckets;
    }
  }

  lemma {:induction false} SecondBurst(cfg: Config, m: nat)
    requires m <= cfg.burst
    ensures var (st, ds) := Run(cfg, TwoBursts(cfg, cfg.burst, m));
            st == AfterSecond(cfg, m) && |ds| == cfg.burst + m && AllAllowed(ds)
  {
    if m == 0 {
      FirstBurst(cfg, cfg.burst);
      assert TwoBursts(cfg, cfg.burst, 0) == Copies(cfg.burst, 1.0);
    } else {
      var past, reqs := TwoBursts(cfg, cfg.burst, m - 1), TwoBursts(cfg, cfg.burst, m);
      assert reqs == past + [Request(1.0 + cfg.idle, CLIENT)];
      SecondBurst(cfg, m - 1);
      ServeSecond(cfg, m);
      RunGrows(cfg, past, Request(1.0 + cfg.idle, CLIENT), reqs);
    }
  }

  function KeptSecond(cfg: Config, m: nat): map<string, Bucket> {
    if m == 0 then map[CLIENT := Bucket(0.0, 1.0)]
    else map[CLIENT := Bucket(Gain(cfg, cfg.idle) - m as real, 1.0 + cfg.idle)]
  }

  lemma ChargeSecond(cfg: Config, m: nat)
    requires 1 <= m <= cfg.burst && !RefillsWhenIdle(cfg, 0.0)
    ensures var (b, allowed) := Charge(cfg, KeptSecond(cfg, m - 1), CLIENT, 1.0 + cfg.idle);
            allowed ==> b == KeptSecond(cfg, m) && Gain(cfg, cfg.idle) >= m as real
  {
    assert Gain(cfg, 0.0) == 0.0;
    assert Refill(cfg, KeptSecond(cfg, m - 1)[CLIENT], 1.0 + cfg.idle) == Gain(cfg, cfg.idle) - (m - 1) as real;
  }

  lemma {:induction false} SecondBurstKept(cfg: Config, m: nat)
    requires m <= cfg.burst && !RefillsWhenIdle(cfg, 0.0)
    ensures var (b, ds) := Kept(cfg, TwoBursts(cfg, cfg.burst, m));
            && |ds| == cfg.burst + m
            && (AllAllowed(ds) ==> b == KeptSecond(cfg, m) && (m > 0 ==> Gain(cfg, cfg.idle) >= m as real))
  {
    if m == 0 {
      FirstBurst(cfg, cfg.burst);
      assert TwoBursts(cfg, cfg.burst, 0) == Copies(cfg.burst, 1.0);
    } else {
      var past, reqs := TwoBursts(cfg, cfg.burst, m - 1), TwoBursts(cfg, cfg.burst, m);
      assert reqs == past + [Request(1.0 + cfg.idle, CLIENT)];
      SecondBurstKept(cfg, m - 1);
      RunGrows(cfg, past, Request(1.0 + cfg.idle, CLIENT), reqs);
      var ds, ds' := Kept(cfg, past).1, Kept(cfg, reqs).1;
      assert ds'[..|ds|] == ds;
      assert AllAllowed(ds') ==> AllAllowed(ds) && ds'[|ds|].allowed;
      ChargeSecond(cfg, m);
    }
  }

  /** Where idle buckets do not refill, the sweep hands out a second burst early: the
      limiter that keeps its buckets rejects, and the token-bucket bound is broken. */
  lemma EvictionVisible(cfg: Config)
    requires !RefillsWhenIdle(cfg, 0.0)
    ensures var reqs := TwoBursts(cfg, cfg.burst, cfg.burst);
            && LateBy(reqs, 0.0) && |Clients(reqs)| <= cfg.maxEntries
            && Run(cfg, reqs).1 != Kept(cfg, reqs).1
            && |Run(cfg, reqs).1| == |reqs| == 2 * cfg.burst
            && Admissions(Run(cfg, reqs).1, CLIENT) as real
               > cfg.burst as real + Gain(cfg, reqs[|reqs| - 1].at - reqs[0].at)
  {
    var reqs := TwoBursts(cfg, cfg.burst, cfg.burst);
    SecondBurst(cfg, cfg.burst);
    SecondBurstKept(cfg, cfg.burst);
    assert Clients(reqs) <= {CLIENT};
    SubsetSize(Clients(reqs), {CLIENT});
    AllAreAdmissions(Run(cfg, reqs).1);
  }

  lemma {:induction false} AllAreAdmissions(ds: seq<Decision>)
    requires AllAllowed(ds)
    ensures Admissions(ds, CLIENT) == |ds|
  {
    if ds == [] {
    } else {
      AllAreAdmissions(ds[..|ds| - 1]);
    }
  }

  // ---- Every limiter can be driven below zero ----

  /** A client spends its burst, and a request read half a second earlier enters after it. */
  lemma TokensCanBeOwed(cfg: Config)
    ensures var reqs := Copies(cfg.burst, 1.0) + [Request(0.5, CLIENT)];
            && Run(cfg, reqs).0.buckets == map[CLIENT := Bucket(-Gain(cfg, 0.5), 0.5)]
            && -Gain(cfg, 0.5) < 0.0
  {
    var first, r := Copies(cfg.burst, 1.0), Request(0.5, CLIENT);
    FirstBurst(cfg, cfg.burst);
    RunGrows(cfg, first, r, first + [r]);
    var st := AfterFirst(cfg, cfg.burst);
    assert ChargedTo(cfg, st.buckets, CLIENT) == CLIENT;
    assert Sweep(cfg, st, 0.5) == st;
    GainBetween(cfg, 1.0, 0.5);
    GainBetween(cfg, 0.5, 1.0);
    assert 0.5 - 1.0 == -0.5 && 1.0 - 0.5 == 0.5;
    assert Charge(cfg, st.buckets, CLIENT, 0.5).0 == map[CLIENT := Bucket(-Gain(cfg, 0.5), 0.5)];
  }

  /** A bucket after a charge. */
  function Drawn(cfg: Config, b: Bucket, t: Instant): Bucket {
    var level := Refill(cfg, b, t);
    Bucket(if level >= 1.0 then level - 1.0 else level, t)
  }

  lemma ChargeFinds(cfg: Config, kept: map<string, Bucket>, key: string, t: Instant, k: string)
    ensures Find(Charge(cfg, kept, key, t).0, k) == if k == key then Drawn(cfg, Find(kept, key), t) else Find(kept, k)
  {
  }

  predicate LastAllowed(ds: seq<Decision>, m: nat) {
    m <= |ds| && forall i | |ds| - m <= i < |ds| :: ds[i] == Decision(CLIENT, true)
  }

  lemma LastAllowedAfter(ds: seq<Decision>, d: Decision, m: nat)
    requires m > 0
    ensures LastAllowed(ds + [d], m) <==> LastAllowed(ds, m - 1) && d == Decision(CLIENT, true)
  {
    var ds' := ds + [d];
    assert ds'[|ds|] == d;
    assert forall i | 0 <= i < |ds| :: ds'[i] == ds[i];
  }

  // ---- The token-bucket bound holds exactly when evicted buckets are full ----

  // One client spends its burst at time s, then sends one request per token until k of them
  // have been let through, then one request `d` late.  Another client evicts it, and at a time
  // `d` before that the next round begins.

  const OTHER := "other"

  /** The time in which k tokens accrue. */
  function Accrue(cfg: Config, k: nat): real { k as real / cfg.rate }

  lemma AccrueGains(cfg: Config, k: nat)
    ensures Gain(cfg, Accrue(cfg, k)) == k as real && Accrue(cfg, k) >= 0.0
  {
  }

  lemma GainOrder(cfg: Config, a: real, b: real)
    ensures Gain(cfg, a) < Gain(cfg, b) <==> a < b
  {
    GainBetween(cfg, b, a);
    if a < b {
      GainBetween(cfg, a, b);
      assert Gain(cfg, b - a) > 0.0;
    }
  }

  /** The rounds that break the bound. */
  predicate Round(cfg: Config, d: real, k: nat) {
    && 0.0 <= d < cfg.idle
    && Gain(cfg, d + d) <= k as real < Gain(cfg, d + cfg.idle)
    && Gain(cfg, cfg.idle - d - d) < cfg.burst as real
  }

  lemma RoundTimes(cfg: Config, d: real, k: nat)
    requires Round(cfg, d, k)
    ensures d + d <= Accrue(cfg, k) < d + cfg.idle
  {
    AccrueGains(cfg, k);
    GainOrder(cfg, Accrue(cfg, k), d + d);
    GainOrder(cfg, Accrue(cfg, k), d + cfg.idle);
  }

  /** The bucket the first client is charged to while the other one has an entry. */
  function Charged(cfg: Config): string { if cfg.maxEntries >= 2 then CLIENT else OVERFLOW }

  lemma ChargedDiffers(cfg: Config)
    ensures Charged(cfg) != OTHER && CLIENT != OTHER && CLIENT != OVERFLOW
  {
    assert |CLIENT| == 6 && |OTHER| == 5 && |OVERFLOW| == 12;
  }

  function Period(cfg: Config, d: real, k: nat): real { Accrue(cfg, k) + cfg.idle - d - d }

  /** Between two rounds: only the other client has an entry. */
  predicate Between(st: Limiter, t: real) { st.lastSweep == t && st.buckets.Keys == {OTHER} }

  /** Within a round. */
  predicate Amid(cfg: Config, st: Limiter, sweep: real, b: Bucket) {
    st.lastSweep == sweep && st.buckets.Keys == {OTHER, Charged(cfg)} && st.buckets[Charged(cfg)] == b
  }

  /** The first client is charged to its bucket, and no sweep is due. */
  lemma AmidServe(cfg: Config, st: Limiter, t: Instant, b: Bucket)
    requires OTHER in st.buckets && st.buckets.Keys <= {OTHER, Charged(cfg)} && 0.0 < st.lastSweep
    requires t - st.lastSweep < cfg.idle && b == Find(st.buckets, Charged(cfg))
    ensures var (st', d) := Serve(cfg, st, Request(t, CLIENT));
            Amid(cfg, st', st.lastSweep, Drawn(cfg, b, t)) && d == Decision(Charged(cfg), Refill(cfg, b, t) >= 1.0)
  {
    ChargedDiffers(cfg);
    if CLIENT !in st.buckets {
      assert |st.buckets| == |st.buckets.Keys|;
      if cfg.maxEntries >= 2 {
        assert st.buckets.Keys == {OTHER};
      } else {
        SubsetSize({OTHER}, st.buckets.Keys);
      }
    }
    assert ChargedTo(cfg, st.buckets, CLIENT) == Charged(cfg);
    assert Sweep(cfg, st, t) == st;
  }

  // One round, piece by piece.

  function Drips(cfg: Config, s: Instant, j: nat): seq<Request> {
    seq(j, i requires 0 <= i < j => AccrueGains(cfg, i + 1); Request(s + Accrue(cfg, i + 1), CLIENT))
  }

  /** A bucket n requests into a burst at time s. */
  function Bursting(cfg: Config, s: Instant, n: nat): Bucket {
    if n == 0 then Bucket(0.0, 0.0) else Bucket((cfg.burst - n) as real, s)
  }

  lemma DrawsBurst(cfg: Config, s: Instant, n: nat)
    requires 1 <= n <= cfg.burst
    ensures Refill(cfg, Bursting(cfg, s, n - 1), s) == (cfg.burst - n + 1) as real
    ensures Drawn(cfg, Bursting(cfg, s, n - 1), s) == Bursting(cfg, s, n)
  {
    assert Gain(cfg, 0.0) == 0.0;
  }

  /** Between rounds, or n requests into the burst of one. */
  predicate InBurst(cfg: Config, st: Limiter, sweep: real, s: Instant, n: nat) {
    if n == 0 then Between(st, sweep) else Amid(cfg, st, sweep, Bursting(cfg, s, n))
  }

  lemma BurstServe(cfg: Config, st: Limiter, sweep: real, s: Instant, n: nat)
    requires 1 <= n <= cfg.burst && InBurst(cfg, st, sweep, s, n - 1) && 0.0 < sweep && s - sweep < cfg.idle
    ensures var (st', d) := Serve(cfg, st, Request(s, CLIENT));
            InBurst(cfg, st', sweep, s, n) && d == Decision(Charged(cfg), true)
  {
    ChargedDiffers(cfg);
    AmidServe(cfg, st, s, Bursting(cfg, s, n - 1));
    DrawsBurst(cfg, s, n);
  }

  /** Requests let through on the first client's bucket. */
  function LetThrough(cfg: Config, reqs: seq<Request>): nat { Admissions(Run(cfg, reqs).1, Charged(cfg)) }

  lemma OneMoreThrough(cfg: Config, past: seq<Request>, r: Request, d: Decision, reqs: seq<Request>)
    requires reqs == past + [r] && d == Serve(cfg, Run(cfg, past).0, r).1
    ensures LetThrough(cfg, reqs) == LetThrough(cfg, past) + if d == Decision(Charged(cfg), true) then 1 else 0
    ensures Run(cfg, reqs).0 == Serve(cfg, Run(cfg, past).0, r).0
  {
    RunGrows(cfg, past, r, reqs);
    AdmissionsAfter(Run(cfg, past).1, d, Charged(cfg));
  }

  lemma CopiesGrow(past: seq<Request>, n: nat, s: Instant)
    requires n > 0
    ensures past + Copies(n, s) == past + Copies(n - 1, s) + [Request(s, CLIENT)]
  {
  }

  lemma {:induction false} SpendsBurst(cfg: Config, past: seq<Request>, s: Instant, sweep: real, n: nat)
    requires n <= cfg.burst && Between(Run(cfg, past).0, sweep) && 0.0 < sweep && s - sweep < cfg.idle
    ensures InBurst(cfg, Run(cfg, past + Copies(n, s)).0, sweep, s, n)
    ensures LetThrough(cfg, past + Copies(n, s)) == LetThrough(cfg, past) + n
  {
    if n == 0 {
      assert past + Copies(n, s) == past;
    } else {
      var before := past + Copies(n - 1, s);
      SpendsBurst(cfg, past, s, sweep, n - 1);
      CopiesGrow(past, n, s);
      BurstServe(cfg, Run(cfg, before).0, sweep, s, n);
      OneMoreThrough(cfg, before, Request(s, CLIENT), Decision(Charged(cfg), true), past + Copies(n, s));
    }
  }

  lemma DrawsDrip(cfg: Config, s: Instant, j: nat)
    requires j > 0
    ensures s + Accrue(cfg, j) > 0.0
    ensures var t: Instant := s + Accrue(cfg, j);
            var b := Bucket(0.0, s + Accrue(cfg, j - 1));
            b.last > 0.0 && Refill(cfg, b, t) == 1.0 && Drawn(cfg, b, t) == Bucket(0.0, t)
  {
    AccrueGains(cfg, j);
    AccrueGains(cfg, j - 1);
    GainBetween(cfg, Accrue(cfg, j - 1), Accrue(cfg, j));
    assert s + Accrue(cfg, j) - (s + Accrue(cfg, j - 1)) == Accrue(cfg, j) - Accrue(cfg, j - 1);
  }

  lemma AccrueRises(cfg: Config, i: nat, j: nat)
    requires i <= j
    ensures 0.0 <= Accrue(cfg, i) <= Accrue(cfg, j)
  {
    AccrueGains(cfg, i);
    AccrueGains(cfg, j);
    GainOrder(cfg, Accrue(cfg, j), Accrue(cfg, i));
  }

  lemma DripsGrow(cfg: Config, past: seq<Request>, s: Instant, j: nat, r: Request)
    requires j > 0 && r.at == s + Accrue(cfg, j) && r.key == CLIENT
    ensures past + Drips(cfg, s, j) == past + Drips(cfg, s, j - 1) + [r]
  {
  }

  lemma DripServe(cfg: Config, st: Limiter, s: Instant, sweep: real, j: nat, r: Request)
    requires j > 0 && r.at == s + Accrue(cfg, j) && r.key == CLIENT && 0.0 < sweep && r.at - sweep < cfg.idle
    requires Amid(cfg, st, sweep, Bucket(0.0, s + Accrue(cfg, j - 1)))
    ensures var (st', d) := Serve(cfg, st, r);
            Amid(cfg, st', sweep, Bucket(0.0, s + Accrue(cfg, j))) && d == Decision(Charged(cfg), true)
  {
    DrawsDrip(cfg, s, j);
    AmidServe(cfg, st, r.at, Bucket(0.0, s + Accrue(cfg, j - 1)));
  }

  lemma {:induction false} SpendsDrips(cfg: Config, past: seq<Request>, s: Instant, sweep: real, j: nat)
    requires Amid(cfg, Run(cfg, past).0, sweep, Bucket(0.0, s)) && 0.0 < sweep && s + Accrue(cfg, j) - sweep < cfg.idle
    ensures Amid(cfg, Run(cfg, past + Drips(cfg, s, j)).0, sweep, Bucket(0.0, s + Accrue(cfg, j)))
    ensures LetThrough(cfg, past + Drips(cfg, s, j)) == LetThrough(cfg, past) + j
  {
    if j == 0 {
      assert past + Drips(cfg, s, j) == past;
      assert Accrue(cfg, 0) == 0.0;
    } else {
      AccrueRises(cfg, j - 1, j);
      var before, r := past + Drips(cfg, s, j - 1), Request(s + Accrue(cfg, j), CLIENT);
      SpendsDrips(cfg, past, s, sweep, j - 1);
      DripsGrow(cfg, past, s, j, r);
      DripServe(cfg, Run(cfg, before).0, s, sweep, j, r);
      OneMoreThrough(cfg, before, r, Decision(Charged(cfg), true), past + Drips(cfg, s, j));
    }
  }

  lemma LateIsRefused(cfg: Config, t: real, d: real)
    requires 0.0 <= d && 0.0 < t - d
    ensures Refill(cfg, Bucket(0.0, t), t - d) < 1.0
  {
    GainBetween(cfg, t, t - d);
    GainBetween(cfg, t - d, t);
  }

  /** The late request is refused. */
  lemma SendsLate(cfg: Config, past: seq<Request>, t: real, sweep: real, r: Request)
    requires r.key == CLIENT && r.at <= t && Amid(cfg, Run(cfg, past).0, sweep, Bucket(0.0, t))
    requires 0.0 < sweep && r.at - sweep < cfg.idle
    ensures Amid(cfg, Run(cfg, past + [r]).0, sweep, Drawn(cfg, Bucket(0.0, t), r.at))
    ensures LetThrough(cfg, past + [r]) == LetThrough(cfg, past)
  {
    AmidServe(cfg, Run(cfg, past).0, r.at, Bucket(0.0, t));
    LateIsRefused(cfg, t, t - r.at);
    OneMoreThrough(cfg, past, r, Decision(Charged(cfg), false), past + [r]);
  }

  /** The other client's request evicts the bucket. */
  lemma OtherSweeps(cfg: Config, st: Limiter, sweep: real, b: Bucket, w: Instant)
    requires Amid(cfg, st, sweep, b) && w - b.last >= cfg.idle && w - sweep >= cfg.idle
    ensures var (st', d) := Serve(cfg, st, Request(w, OTHER)); Between(st', w) && d.bucket == OTHER
  {
    ChargedDiffers(cfg);
    assert Fresh(cfg, st.buckets, w).Keys <= {OTHER};
  }

  lemma Evicts(cfg: Config, past: seq<Request>, sweep: real, b: Bucket, w: Instant)
    requires Amid(cfg, Run(cfg, past).0, sweep, b) && w - b.last >= cfg.idle && w - sweep >= cfg.idle
    ensures Between(Run(cfg, past + [Request(w, OTHER)]).0, w)
    ensures LetThrough(cfg, past + [Request(w, OTHER)]) == LetThrough(cfg, past)
  {
    ChargedDiffers(cfg);
    var r := Request(w, OTHER);
    OtherSweeps(cfg, Run(cfg, past).0, sweep, b, w);
    OneMoreThrough(cfg, past, r, Serve(cfg, Run(cfg, past).0, r).1, past + [r]);
  }

  /** After a burst and its drips, the round ends. */
  function LastOf(cfg: Config, d: real, k: nat, s: Instant): seq<Request>
    requires Round(cfg, d, k)
  {
    RoundTimes(cfg, d, k);
    [Request(s + Accrue(cfg, k) - d, CLIENT), Request(s + Accrue(cfg, k) - d + cfg.idle, OTHER)]
  }

  function OneRound(cfg: Config, d: real, k: nat, s: Instant): seq<Request>
    requires Round(cfg, d, k)
  {
    Copies(cfg.burst, s) + Drips(cfg, s, k) + LastOf(cfg, d, k, s)
  }

  lemma RoundBegins(cfg: Config, past: seq<Request>, d: real, k: nat, s: Instant)
    requires Round(cfg, d, k) && Between(Run(cfg, past).0, s + d)
    ensures var reqs := past + Copies(cfg.burst, s) + Drips(cfg, s, k);
            && Amid(cfg, Run(cfg, reqs).0, s + d, Bucket(0.0, s + Accrue(cfg, k)))
            && LetThrough(cfg, reqs) == LetThrough(cfg, past) + cfg.burst + k
  {
    RoundTimes(cfg, d, k);
    SpendsBurst(cfg, past, s, s + d, cfg.burst);
    SpendsDrips(cfg, past + Copies(cfg.burst, s), s, s + d, k);
  }

  lemma RoundEnds(cfg: Config, past: seq<Request>, u: real, sweep: real, late: Request, other: Request)
    requires Amid(cfg, Run(cfg, past).0, sweep, Bucket(0.0, u)) && 0.0 < sweep
    requires late.key == CLIENT && late.at <= u && late.at - sweep < cfg.idle
    requires other.key == OTHER && other.at - late.at >= cfg.idle && other.at - sweep >= cfg.idle
    ensures var reqs := past + [late] + [other];
            Between(Run(cfg, reqs).0, other.at) && LetThrough(cfg, reqs) == LetThrough(cfg, past)
  {
    SendsLate(cfg, past, u, sweep, late);
    Evicts(cfg, past + [late], sweep, Drawn(cfg, Bucket(0.0, u), late.at), other.at);
  }

  lemma RoundSplits(cfg: Config, past: seq<Request>, d: real, k: nat, s: Instant, late: Request, other: Request)
    requires Round(cfg, d, k) && LastOf(cfg, d, k, s) == [late, other]
    ensures past + OneRound(cfg, d, k, s) == past + Copies(cfg.burst, s) + Drips(cfg, s, k) + [late] + [other]
  {
  }

  lemma LastTimes(cfg: Config, d: real, k: nat, s: Instant) returns (late: Request, other: Request)
    requires Round(cfg, d, k)
    ensures LastOf(cfg, d, k, s) == [late, other]
    ensures late.key == CLIENT && late.at <= s + Accrue(cfg, k) && late.at - (s + d) < cfg.idle
    ensures other.key == OTHER && other.at - late.at >= cfg.idle && other.at - (s + d) >= cfg.idle
    ensures other.at == s + Period(cfg, d, k) + d
  {
    RoundTimes(cfg, d, k);
    late, other := LastOf(cfg, d, k, s)[0], LastOf(cfg, d, k, s)[1];
  }

  lemma RoundRuns(cfg: Config, past: seq<Request>, d: real, k: nat, s: Instant)
    requires Round(cfg, d, k) && Between(Run(cfg, past).0, s + d)
    ensures var reqs := past + OneRound(cfg, d, k, s);
            && Between(Run(cfg, reqs).0, s + Period(cfg, d, k) + d)
            && LetThrough(cfg, reqs) == LetThrough(cfg, past) + cfg.burst + k
  {
    var late, other := LastTimes(cfg, d, k, s);
    RoundBegins(cfg, past, d, k, s);
    RoundEnds(cfg, past + Copies(cfg.burst, s) + Drips(cfg, s, k), s + Accrue(cfg, k), s + d, late, other);
    RoundSplits(cfg, past, d, k, s, late, other);
  }

  // Rounds one after another.

  function Start(cfg: Config, d: real, k: nat, n: nat): (t: Instant)
    requires Round(cfg, d, k)
  {
    if n == 0 then 1.0 else RoundTimes(cfg, d, k); Start(cfg, d, k, n - 1) + Period(cfg, d, k)
  }

  function Rounds(cfg: Config, d: real, k: nat, n: nat): seq<Request>
    requires Round(cfg, d, k)
  {
    if n == 0 then [Request(1.0 + d, OTHER)]
    else Rounds(cfg, d, k, n - 1) + OneRound(cfg, d, k, Start(cfg, d, k, n - 1))
  }

  function AdmittedIn(cfg: Config, k: nat, n: nat): nat {
    if n == 0 then 0 else AdmittedIn(cfg, k, n - 1) + cfg.burst + k
  }

  lemma OtherBegins(cfg: Config, d: real)
    requires 0.0 <= d
    ensures var reqs := [Request(1.0 + d, OTHER)]; Between(Run(cfg, reqs).0, 1.0 + d) && LetThrough(cfg, reqs) == 0
  {
    ChargedDiffers(cfg);
    var r := Request(1.0 + d, OTHER);
    assert [] + [r] == [r];
    assert Fresh(cfg, map[], r.at) == map[];
    OneMoreThrough(cfg, [], r, Serve(cfg, EMPTY, r).1, [r]);
  }

  lemma {:induction false} RoundsRun(cfg: Config, d: real, k: nat, n: nat)
    requires Round(cfg, d, k)
    ensures var reqs := Rounds(cfg, d, k, n);
            Between(Run(cfg, reqs).0, Start(cfg, d, k, n) + d) && LetThrough(cfg, reqs) == AdmittedIn(cfg, k, n)
  {
    if n == 0 {
      OtherBegins(cfg, d);
    } else {
      RoundsRun(cfg, d, k, n - 1);
      RoundRuns(cfg, Rounds(cfg, d, k, n - 1), d, k, Start(cfg, d, k, n - 1));
    }
  }

  predicate AtMost(reqs: seq<Request>, t: real) { forall i | 0 <= i < |reqs| :: reqs[i].at <= t }

  predicate AtLeast(reqs: seq<Request>, t: real) { forall i | 0 <= i < |reqs| :: t <= reqs[i].at }

  lemma LateThen(a: seq<Request>, b: seq<Request>, late: real, top: real)
    requires LateBy(a, late) && LateBy(b, late) && AtMost(a, top) && AtLeast(b, top - late)
    ensures LateBy(a + b, late)
  {
  }

  lemma DripsRise(cfg: Config, s: Instant, j: nat, late: real)
    requires 0.0 <= late
    ensures LateBy(Drips(cfg, s, j), late) && AtLeast(Drips(cfg, s, j), s)
    ensures AtMost(Drips(cfg, s, j), s + Accrue(cfg, j))
  {
    var reqs := Drips(cfg, s, j);
    forall i | 0 <= i < j ensures s <= reqs[i].at <= s + Accrue(cfg, j) {
      AccrueRises(cfg, i + 1, j);
    }
    forall a, b | 0 <= a < b < j ensures reqs[a].at - late <= reqs[b].at {
      AccrueRises(cfg, a + 1, b + 1);
    }
  }

  lemma RoundIsLate(cfg: Config, past: seq<Request>, d: real, k: nat, s: Instant)
    requires Round(cfg, d, k) && LateBy(past, d) && AtMost(past, s + d)
    ensures var reqs := past + OneRound(cfg, d, k, s); LateBy(reqs, d) && AtMost(reqs, s + Period(cfg, d, k) + d)
  {
    RoundTimes(cfg, d, k);
    var u, last := s + Accrue(cfg, k), LastOf(cfg, d, k, s);
    var a := past + Copies(cfg.burst, s);
    LateThen(past, Copies(cfg.burst, s), d, s + d);
    var b := a + Drips(cfg, s, k);
    DripsRise(cfg, s, k, d);
    LateThen(a, Drips(cfg, s, k), d, s + d);
    LateThen(b, last, d, u);
    assert past + OneRound(cfg, d, k, s) == b + last;
  }

  lemma {:induction false} RoundsAreLate(cfg: Config, d: real, k: nat, n: nat)
    requires Round(cfg, d, k)
    ensures var reqs := Rounds(cfg, d, k, n);
            && LateBy(reqs, d) && AtMost(reqs, Start(cfg, d, k, n) + d)
            && reqs != [] && reqs[0].at == 1.0 + d && reqs[|reqs| - 1].at == Start(cfg, d, k, n) + d
  {
    if n == 0 {
    } else {
      RoundsAreLate(cfg, d, k, n - 1);
      RoundIsLate(cfg, Rounds(cfg, d, k, n - 1), d, k, Start(cfg, d, k, n - 1));
    }
  }

  /** What a round admits beyond what accrues in it. */
  function Surplus(cfg: Config, d: real): real { cfg.burst as real - Gain(cfg, cfg.idle - d - d) }

  lemma PeriodGains(cfg: Config, d: real, k: nat)
    ensures Gain(cfg, Period(cfg, d, k)) == (cfg.burst + k) as real - Surplus(cfg, d)
  {
    AccrueGains(cfg, k);
    GainLaws(cfg, Accrue(cfg, k), cfg.idle - d - d);
    assert Accrue(cfg, k) + (cfg.idle - d - d) == Period(cfg, d, k);
  }

  lemma {:induction false} RoundsExceed(cfg: Config, d: real, k: nat, n: nat)
    requires Round(cfg, d, k)
    ensures AdmittedIn(cfg, k, n) as real == Gain(cfg, Start(cfg, d, k, n) - 1.0) + n as real * Surplus(cfg, d)
  {
    if n == 0 {
      assert Gain(cfg, 0.0) == 0.0;
    } else {
      RoundsExceed(cfg, d, k, n - 1);
      PeriodGains(cfg, d, k);
      GainLaws(cfg, Start(cfg, d, k, n - 1) - 1.0, Period(cfg, d, k));
      assert Start(cfg, d, k, n - 1) - 1.0 + Period(cfg, d, k) == Start(cfg, d, k, n) - 1.0;
      Times(n, Surplus(cfg, d));
    }
  }

  lemma Times(n: nat, e: real)
    requires n > 0
    ensures n as real * e == (n - 1) as real * e + e
  {
  }

  /** Some multiple of a positive number is above any other. */
  lemma Exceeds(e: real, x: real) returns (n: nat)
    requires e > 0.0
    ensures n as real * e > x
  {
    if x < 0.0 {
      n := 0;
    } else {
      n := (x / e).Floor + 1;
      assert n as real > x / e;
    }
  }

  // Which round to take.

  lemma RoundUp(x: real) returns (k: nat)
    requires 0.0 <= x
    ensures x <= k as real < x + 1.0
  {
    k := -((-x).Floor);
  }

  lemma HalfGains(cfg: Config, t: real)
    ensures Gain(cfg, t / 2.0) == Gain(cfg, t) / 2.0
  {
    GainLaws(cfg, t / 2.0, t / 2.0);
    assert t / 2.0 + t / 2.0 == t;
  }

  /** Where idle buckets refill in order, and much accrues in the idle time. */
  lemma RoundForMuch(cfg: Config, late: real) returns (d: real, k: nat)
    requires 0.0 <= late && !RefillsWhenIdle(cfg, late) && Gain(cfg, cfg.idle) >= 2.0
    ensures d <= late && Round(cfg, d, k)
  {
    d := if late < cfg.idle / 2.0 then late else cfg.idle / 2.0;
    GainLaws(cfg, d + d, 0.0);
    k := RoundUp(Gain(cfg, d + d));
    HalfGains(cfg, cfg.idle);
    GainBetween(cfg, d, cfg.idle / 2.0);
    GainLaws(cfg, d, d);
    GainLaws(cfg, d, cfg.idle);
    if d != late {
      assert cfg.idle - d - d == 0.0 && Gain(cfg, 0.0) == 0.0;
    }
  }

  /** Where little does: the burst is one. */
  lemma RoundForLittle(cfg: Config, late: real) returns (d: real, k: nat)
    requires 0.0 < late && !RefillsWhenIdle(cfg, late) && RefillsWhenIdle(cfg, 0.0) && Gain(cfg, cfg.idle) < 2.0
    ensures d <= late && Round(cfg, d, k)
  {
    var half := Accrue(cfg, 1) / 2.0;
    d, k := if late < half then late else half, 1;
    AccrueGains(cfg, 1);
    HalfGains(cfg, Accrue(cfg, 1));
    GainBetween(cfg, d, half);
    GainOrder(cfg, d, cfg.idle);
    GainLaws(cfg, d, d);
    GainLaws(cfg, d, cfg.idle);
    GainBetween(cfg, d + d, cfg.idle);
    assert cfg.idle - (d + d) == cfg.idle - d - d;
    GainOrder(cfg, 0.0, d);
    assert Gain(cfg, 0.0) == 0.0;
  }

  lemma SomeRound(cfg: Config, late: real) returns (d: real, k: nat)
    requires 0.0 <= late && !RefillsWhenIdle(cfg, late)
    ensures d <= late && Round(cfg, d, k)
  {
    if !RefillsWhenIdle(cfg, 0.0) {
      d, k := 0.0, 0;
      assert Gain(cfg, 0.0) == 0.0;
      GainOrder(cfg, 0.0, cfg.idle);
    } else if Gain(cfg, cfg.idle) >= 2.0 {
      d, k := RoundForMuch(cfg, late);
    } else {
      d, k := RoundForLittle(cfg, late);
    }
  }

  lemma LaterIsLate(reqs: seq<Request>, d: real, late: real)
    requires LateBy(reqs, d) && d <= late
    ensures LateBy(reqs, late)
  {
  }

  lemma RoundsBreak(cfg: Config, d: real, k: nat, n: nat, extra: real)
    requires Round(cfg, d, k) && n as real * Surplus(cfg, d) > extra
    ensures var reqs := Rounds(cfg, d, k, n);
            && reqs != []
            && Admissions(Run(cfg, reqs).1, Charged(cfg)) as real
               > extra + Gain(cfg, reqs[|reqs| - 1].at - reqs[0].at)
  {
    RoundsAreLate(cfg, d, k, n);
    RoundsRun(cfg, d, k, n);
    RoundsExceed(cfg, d, k, n);
    var reqs := Rounds(cfg, d, k, n);
    assert reqs[|reqs| - 1].at - reqs[0].at == Start(cfg, d, k, n) - 1.0;
  }

  /** Where evicted buckets are not full again, no bound of this kind holds: some run admits
      on one bucket more than what accrues from its first request to its last, by any amount. */
  lemma AdmitsBeyond(cfg: Config, late: real, extra: real) returns (reqs: seq<Request>, key: string)
    requires 0.0 <= late && !RefillsWhenIdle(cfg, late)
    ensures LateBy(reqs, late) && reqs != [] && forall r | r in reqs :: r.key == CLIENT || r.key == OTHER
    ensures Admissions(Run(cfg, reqs).1, key) as real > extra + Gain(cfg, reqs[|reqs| - 1].at - reqs[0].at)
  {
    var d, k := SomeRound(cfg, late);
    var n := Exceeds(Surplus(cfg, d), extra);
    RoundsAreLate(cfg, d, k, n);
    LaterIsLate(Rounds(cfg, d, k, n), d, late);
    RoundsBreak(cfg, d, k, n, extra);
    RoundsClients(cfg, d, k, n);
    reqs, key := Rounds(cfg, d, k, n), Charged(cfg);
  }

  /** Admissions from request i to request j stay within burst and rate. */
  ghost predicate BoundAt(cfg: Config, reqs: seq<Request>, late: real, i: nat, j: nat, key: string)
    requires i <= j < |reqs|
  {
    && |Run(cfg, reqs).1| == |reqs|
    && Admissions(Run(cfg, reqs).1[i..j + 1], key) as real
       <= cfg.burst as real + Gain(cfg, reqs[j].at - reqs[i].at + late + late)
  }

  ghost predicate BoundHolds(cfg: Config, reqs: seq<Request>, late: real) {
    forall i: nat, j: nat, key | i <= j < |reqs| :: BoundAt(cfg, reqs, late, i, j, key)
  }

  lemma BoundBreaksAt(cfg: Config, reqs: seq<Request>, late: real, key: string)
    requires reqs != []
    requires Admissions(Run(cfg, reqs).1, key) as real
             > cfg.burst as real + Gain(cfg, late + late) + Gain(cfg, reqs[|reqs| - 1].at - reqs[0].at)
    ensures !BoundAt(cfg, reqs, late, 0, |reqs| - 1, key)
  {
    var ds, n := Run(cfg, reqs).1, |reqs| - 1;
    RunLength(cfg, reqs);
    assert ds[0..n + 1] == ds;
    var elapsed := reqs[n].at - reqs[0].at;
    GainLaws(cfg, elapsed, late + late);
    assert elapsed + (late + late) == reqs[n].at - reqs[0].at + late + late;
  }

  lemma BoundBreaks(cfg: Config, late: real) returns (reqs: seq<Request>)
    requires 0.0 <= late && !RefillsWhenIdle(cfg, late)
    ensures LateBy(reqs, late) && !BoundHolds(cfg, reqs, late)
  {
    var key;
    reqs, key := AdmitsBeyond(cfg, late, cfg.burst as real + Gain(cfg, late + late));
    BoundBreaksAt(cfg, reqs, late, key);
  }

  lemma BoundKept(cfg: Config, reqs: seq<Request>, late: real)
    requires RefillsWhenIdle(cfg, late) && LateBy(reqs, late)
    ensures BoundHolds(cfg, reqs, late)
  {
    forall i: nat, j: nat, key | i <= j < |reqs| ensures BoundAt(cfg, reqs, late, i, j, key) {
      BurstPlusRate(cfg, reqs, i, j, key, late);
    }
  }

  /** Over all runs with lateness at most `late`, the token-bucket bound holds if and only if
      what accrues in the idle time less twice `late` is at least the burst. */
  lemma BurstPlusRateIff(cfg: Config, late: real)
    requires 0.0 <= late
    ensures (forall reqs | LateBy(reqs, late) :: BoundHolds(cfg, reqs, late)) <==> RefillsWhenIdle(cfg, late)
  {
    if RefillsWhenIdle(cfg, late) {
      forall reqs | LateBy(reqs, late) ensures BoundHolds(cfg, reqs, late) {
        BoundKept(cfg, reqs, late);
      }
    } else {
      var reqs := BoundBreaks(cfg, late);
    }
  }

  // ---- The kept limiter obeys the bound ----

  lemma {:induction false} KeptStamped(cfg: Config, reqs: seq<Request>)
    ensures Stamped(Kept(cfg, reqs).0) && |Kept(cfg, reqs).1| == |reqs|
  {
    if reqs == [] {
    } else {
      KeptStamped(cfg, reqs[..|reqs| - 1]);
    }
  }

  /** Nothing owes more than what accrued until the latest request. */
  lemma {:induction false} KeptReachIsAtLeast(cfg: Config, reqs: seq<Request>, key: string, late: real)
    requires LateBy(reqs, late)
    ensures Reach(cfg, Kept(cfg, reqs).0, key, Floor(reqs, late)) >= -Gain(cfg, Latest(reqs))
  {
    GainBetween(cfg, Floor(reqs, late), Latest(reqs));
    if reqs == [] {
    } else {
      var past, r, m := reqs[..|reqs| - 1], reqs[|reqs| - 1], Floor(reqs, late);
      var kept := Kept(cfg, past).0;
      FloorHolds(reqs, late);
      KeptStamped(cfg, past);
      KeptReachIsAtLeast(cfg, past, key, late);
      ReachLater(cfg, kept, key, Floor(past, late), m);
      ChargeReach(cfg, kept, r.key, r.at, key, m);
      GainBetween(cfg, Latest(past), Latest(reqs));
      GainBetween(cfg, r.at, Latest(reqs));
    }
  }

  ghost predicate KeptWithin(cfg: Config, reqs: seq<Request>, key: string, late: real)
    requires reqs != []
  {
    Admissions(Kept(cfg, reqs).1, key) as real + Reach(cfg, Kept(cfg, reqs).0, key, Floor(reqs, late))
    <= Full(cfg, reqs[0].at - late)
  }

  lemma KeptStep(cfg: Config, kept: map<string, Bucket>, admitted: nat, r: Request, key: string, m: real, bound: real)
    requires Stamped(kept) && m <= r.at && admitted as real + Reach(cfg, kept, key, m) <= bound
    ensures var (kept', allowed) := Charge(cfg, kept, r.key, r.at);
            var admitted' := admitted + if r.key == key && allowed then 1 else 0;
            admitted' as real + Reach(cfg, kept', key, m) <= bound
  {
    ChargeReach(cfg, kept, r.key, r.at, key, m);
  }

  lemma {:induction false} KeptIsWithin(cfg: Config, reqs: seq<Request>, key: string, late: real)
    requires LateBy(reqs, late) && reqs != []
    ensures KeptWithin(cfg, reqs, key, late)
  {
    var past, r, m := reqs[..|reqs| - 1], reqs[|reqs| - 1], Floor(reqs, late);
    var kept, ds := Kept(cfg, past).0, Kept(cfg, past).1;
    FloorHolds(reqs, late);
    KeptStamped(cfg, past);
    AdmissionsAfter(ds, Decision(r.key, Charge(cfg, kept, r.key, r.at).1), key);
    if past == [] {
      GainBetween(cfg, r.at - late, m);
    } else {
      KeptIsWithin(cfg, past, key, late);
      ReachLater(cfg, kept, key, Floor(past, late), m);
    }
    KeptStep(cfg, kept, Admissions(ds, key), r, key, m, Full(cfg, reqs[0].at - late));
  }

  /** With or without evictions by the other limiter: this one never admits more than the burst
      and what accrues in the time of the run and in twice the lateness. */
  lemma KeptObeysBound(cfg: Config, reqs: seq<Request>, key: string, late: real)
    requires LateBy(reqs, late) && reqs != []
    ensures Admissions(Kept(cfg, reqs).1, key) as real
            <= cfg.burst as real + Gain(cfg, reqs[|reqs| - 1].at - reqs[0].at + late + late)
  {
    var at, from := reqs[|reqs| - 1].at, reqs[0].at;
    KeptIsWithin(cfg, reqs, key, late);
    KeptReachIsAtLeast(cfg, reqs, key, late);
    FloorHolds(reqs, late);
    GainBetween(cfg, Latest(reqs), at + late);
    GainBetween(cfg, from - late, at + late);
    assert at + late - (from - late) == at - from + late + late;
  }

  lemma {:induction false} RoundsClients(cfg: Config, d: real, k: nat, n: nat)
    requires Round(cfg, d, k)
    ensures forall r | r in Rounds(cfg, d, k, n) :: r.key == CLIENT || r.key == OTHER
  {
    if n == 0 {
    } else {
      RoundsClients(cfg, d, k, n - 1);
    }
  }

  /** With two entries: a run where the two limiters part, because one breaks the bound. */
  lemma LateEvictionVisible(cfg: Config, late: real) returns (reqs: seq<Request>)
    requires 0.0 <= late && cfg.maxEntries >= 2 && !RefillsWhenIdle(cfg, late)
    ensures LateBy(reqs, late) && |Clients(reqs)| <= cfg.maxEntries && Run(cfg, reqs).1 != Kept(cfg, reqs).1
  {
    var key;
    reqs, key := AdmitsBeyond(cfg, late, cfg.burst as real + Gain(cfg, late + late));
    assert Clients(reqs) <= {CLIENT, OTHER};
    SubsetSize(Clients(reqs), {CLIENT, OTHER});
    KeptObeysBound(cfg, reqs, key, late);
    var elapsed := reqs[|reqs| - 1].at - reqs[0].at;
    GainLaws(cfg, elapsed, late + late);
    assert elapsed + (late + late) == reqs[|reqs| - 1].at - reqs[0].at + late + late;
  }

  // ---- One client alone ----

  // A client whose requests are the only ones is evicted by its own request, so that what
  // matters is how full its bucket would be at that moment.

  /** Alone, an evicted bucket is full again at the request that evicts it; or the burst is one
      and accrues in exactly the idle time, when every sweep meets a full bucket. */
  predicate RefillsAlone(cfg: Config, late: real) {
    Gain(cfg, cfg.idle - late) >= cfg.burst as real || (cfg.burst == 1 && Gain(cfg, cfg.idle) == 1.0)
  }

  predicate Alone(reqs: seq<Request>, key: string) { forall i | 0 <= i < |reqs| :: reqs[i].key == key }

  /** The two limiters agree on everything. */
  ghost predicate Same(cfg: Config, reqs: seq<Request>) {
    Run(cfg, reqs).1 == Kept(cfg, reqs).1 && Run(cfg, reqs).0.buckets == Kept(cfg, reqs).0
  }

  lemma AloneIsOwn(cfg: Config, buckets: map<string, Bucket>, key: string)
    requires buckets.Keys <= {key}
    ensures ChargedTo(cfg, buckets, key) == key
  {
    if key !in buckets {
      assert buckets == map[];
    }
  }

  /** A request that is not seen to evict: the bucket stays, or is full at that moment. */
  lemma AloneServe(cfg: Config, st: Limiter, r: Request)
    requires st.buckets.Keys <= {r.key}
    requires r.key in st.buckets && SweepDue(cfg, st, r.at) && r.at - st.buckets[r.key].last >= cfg.idle ==>
               Refill(cfg, st.buckets[r.key], r.at) == cfg.burst as real
    ensures var (st', d) := Serve(cfg, st, r);
            var (kept, allowed) := Charge(cfg, st.buckets, r.key, r.at);
            st'.buckets == kept && d == Decision(r.key, allowed) && kept.Keys == {r.key}
  {
    AloneIsOwn(cfg, st.buckets, r.key);
    var swept := Sweep(cfg, st, r.at).buckets;
    assert swept == st.buckets || swept == map[];
  }

  lemma SameOneMore(cfg: Config, past: seq<Request>, r: Request, reqs: seq<Request>)
    requires reqs == past + [r] && Same(cfg, past) && Run(cfg, past).0.buckets.Keys <= {r.key}
    requires var st := Run(cfg, past).0;
             r.key in st.buckets && SweepDue(cfg, st, r.at) && r.at - st.buckets[r.key].last >= cfg.idle ==>
               Refill(cfg, st.buckets[r.key], r.at) == cfg.burst as real
    ensures Same(cfg, reqs) && Run(cfg, reqs).0.buckets.Keys == {r.key}
  {
    RunGrows(cfg, past, r, reqs);
    AloneServe(cfg, Run(cfg, past).0, r);
  }

  lemma IdleIsFull(cfg: Config, b: Bucket, t: Instant, late: real)
    requires Gain(cfg, cfg.idle - late) >= cfg.burst as real && -Gain(cfg, late) <= b.tokens && 0.0 < b.last
    requires t - b.last >= cfg.idle
    ensures Refill(cfg, b, t) == cfg.burst as real
  {
    GainBetween(cfg, cfg.idle, t - b.last);
    GainBetween(cfg, late, cfg.idle);
  }

  lemma {:induction false} AloneSame(cfg: Config, reqs: seq<Request>, key: string, late: real)
    requires LateBy(reqs, late) && Alone(reqs, key) && Gain(cfg, cfg.idle - late) >= cfg.burst as real
    ensures Same(cfg, reqs) && Run(cfg, reqs).0.buckets.Keys <= {key}
  {
    if reqs == [] {
    } else {
      var past, r := reqs[..|reqs| - 1], reqs[|reqs| - 1];
      assert reqs == past + [r];
      FloorHolds(reqs, late);
      AloneSame(cfg, past, key, late);
      RunBounded(cfg, past, late);
      var st := Run(cfg, past).0;
      if key in st.buckets && r.at - st.buckets[key].last >= cfg.idle {
        IdleIsFull(cfg, st.buckets[key], r.at, late);
      }
      SameOneMore(cfg, past, r, reqs);
    }
  }

  /** With a burst of one that accrues in the idle time: the bucket was emptied at the last
      sweep and has only been refilling since. */
  predicate SinceSweep(cfg: Config, st: Limiter, key: string) {
    st.buckets.Keys <= {key} &&
    if st.buckets == map[] then st.lastSweep == 0.0
    else 0.0 < st.lastSweep && 0.0 < st.buckets[key].last && Credit(cfg, st.buckets[key]) == -Gain(cfg, st.lastSweep)
  }

  lemma MeetsSinceSweep(cfg: Config, b: Bucket, sweep: real, t: Instant)
    requires cfg.burst == 1 && Gain(cfg, cfg.idle) == 1.0 && 0.0 < b.last && Credit(cfg, b) == -Gain(cfg, sweep)
    ensures if t - sweep >= cfg.idle then Refill(cfg, b, t) == 1.0
            else Refill(cfg, b, t) == Gain(cfg, t) - Gain(cfg, sweep) < 1.0
  {
    GainBetween(cfg, b.last, t);
    GainBetween(cfg, sweep, t);
    GainOrder(cfg, t - sweep, cfg.idle);
  }

  lemma SinceSweepStep(cfg: Config, st: Limiter, r: Request)
    requires cfg.burst == 1 && Gain(cfg, cfg.idle) == 1.0 && SinceSweep(cfg, st, r.key)
    ensures SinceSweep(cfg, Serve(cfg, st, r).0, r.key)
    ensures r.key in st.buckets && SweepDue(cfg, st, r.at) ==> Refill(cfg, st.buckets[r.key], r.at) == 1.0
  {
    AloneIsOwn(cfg, st.buckets, r.key);
    if r.key in st.buckets {
      MeetsSinceSweep(cfg, st.buckets[r.key], st.lastSweep, r.at);
      AloneServe(cfg, st, r);
    } else {
      assert st.buckets == map[];
      assert Fresh(cfg, map[], r.at) == map[];
    }
  }

  lemma {:induction false} AloneSameForOne(cfg: Config, reqs: seq<Request>, key: string)
    requires Alone(reqs, key) && cfg.burst == 1 && Gain(cfg, cfg.idle) == 1.0
    ensures Same(cfg, reqs) && SinceSweep(cfg, Run(cfg, reqs).0, key)
  {
    if reqs == [] {
    } else {
      var past, r := reqs[..|reqs| - 1], reqs[|reqs| - 1];
      assert reqs == past + [r];
      AloneSameForOne(cfg, past, key);
      SinceSweepStep(cfg, Run(cfg, past).0, r);
      SameOneMore(cfg, past, r, reqs);
    }
  }

  // A client alone that opens its bucket, spends its burst, is late once, and spends its burst
  // again at the moment it is evicted.

  predicate Lonely(cfg: Config, d: real, g: real) {
    0.0 <= d <= g < cfg.idle && Gain(cfg, g) >= 1.0 && Gain(cfg, cfg.idle - d) < cfg.burst as real
  }

  function Opening(g: real, n: nat): seq<Request>
    requires 0.0 <= g
  {
    Copies(1, 1.0) + Copies(n, 1.0 + g)
  }

  function Owing(cfg: Config, d: real, g: real): seq<Request>
    requires 0.0 <= d <= g
  {
    Opening(g, cfg.burst) + [Request(1.0 + g - d, CLIENT)]
  }

  function LoneBursts(cfg: Config, d: real, g: real, m: nat): seq<Request>
    requires 0.0 <= d <= g
  {
    Owing(cfg, d, g) + Copies(m, 1.0 + g - d + cfg.idle)
  }

  /** One bucket and no sweep: both limiters draw from it. */
  lemma LoneServe(cfg: Config, past: seq<Request>, r: Request, b: Bucket)
    requires Same(cfg, past) && Run(cfg, past).0 == Limiter(map[CLIENT := b], 1.0) && r.key == CLIENT
    requires r.at - 1.0 < cfg.idle
    ensures Same(cfg, past + [r]) && Run(cfg, past + [r]).0 == Limiter(map[CLIENT := Drawn(cfg, b, r.at)], 1.0)
  {
    SameOneMore(cfg, past, r, past + [r]);
    RunGrows(cfg, past, r, past + [r]);
    AloneIsOwn(cfg, map[CLIENT := b], CLIENT);
  }

  function Opened(cfg: Config, g: real, n: nat): Bucket {
    if n == 0 then Bucket((cfg.burst - 1) as real, 1.0) else Bucket((cfg.burst - n) as real, 1.0 + g)
  }

  lemma DrawsOpened(cfg: Config, g: real, n: nat)
    requires 0.0 <= g && Gain(cfg, g) >= 1.0 && 1 <= n <= cfg.burst
    ensures Drawn(cfg, Opened(cfg, g, n - 1), 1.0 + g) == Opened(cfg, g, n)
  {
    assert Gain(cfg, 0.0) == 0.0 && 1.0 + g - 1.0 == g;
  }

  ghost predicate OpenedBy(cfg: Config, reqs: seq<Request>, g: real, n: nat) {
    Same(cfg, reqs) && Run(cfg, reqs).0 == Limiter(map[CLIENT := Opened(cfg, g, n)], 1.0)
  }

  lemma OpensFirst(cfg: Config, g: real)
    ensures OpenedBy(cfg, Copies(1, 1.0), g, 0)
  {
    FirstBurst(cfg, 1);
  }

  lemma OpensNext(cfg: Config, past: seq<Request>, g: real, n: nat, reqs: seq<Request>)
    requires 0.0 <= g < cfg.idle && Gain(cfg, g) >= 1.0 && 1 <= n <= cfg.burst && OpenedBy(cfg, past, g, n - 1)
    requires reqs == past + [Request(1.0 + g, CLIENT)]
    ensures OpenedBy(cfg, reqs, g, n)
  {
    LoneServe(cfg, past, Request(1.0 + g, CLIENT), Opened(cfg, g, n - 1));
    DrawsOpened(cfg, g, n);
  }

  lemma {:induction false} OpeningRuns(cfg: Config, d: real, g: real, n: nat)
    requires Lonely(cfg, d, g) && n <= cfg.burst
    ensures OpenedBy(cfg, Opening(g, n), g, n)
  {
    if n == 0 {
      OpensFirst(cfg, g);
      assert Opening(g, 0) == Copies(1, 1.0);
    } else {
      OpeningRuns(cfg, d, g, n - 1);
      CopiesGrow(Copies(1, 1.0), n, 1.0 + g);
      OpensNext(cfg, Opening(g, n - 1), g, n, Opening(g, n));
    }
  }

  lemma OwingRuns(cfg: Config, d: real, g: real)
    requires Lonely(cfg, d, g)
    ensures Same(cfg, Owing(cfg, d, g))
    ensures Run(cfg, Owing(cfg, d, g)).0 == Limiter(map[CLIENT := Bucket(-Gain(cfg, d), 1.0 + g - d)], 1.0)
  {
    OpeningRuns(cfg, d, g, cfg.burst);
    LoneServe(cfg, Opening(g, cfg.burst), Request(1.0 + g - d, CLIENT), Bucket(0.0, 1.0 + g));
    DrawsDebt(cfg, 1.0 + g, d);
  }

  lemma DrawsDebt(cfg: Config, u: real, d: real)
    requires 0.0 <= d && 0.0 < u - d
    ensures Drawn(cfg, Bucket(0.0, u), u - d) == Bucket(-Gain(cfg, d), u - d)
  {
    LateIsRefused(cfg, u, d);
    GainBetween(cfg, u, u - d);
    GainBetween(cfg, u - d, u);
    assert u - (u - d) == d && u - d - u == -d;
    GainLaws(cfg, d, 0.0);
  }

  function Respent(cfg: Config, w: real, m: nat): map<string, Bucket> {
    map[CLIENT := Bucket((cfg.burst - m) as real, w)]
  }

  lemma SpendsAgain(cfg: Config, st: Limiter, w: Instant, m: nat)
    requires 1 <= m <= cfg.burst
    requires if m > 1 then st == Limiter(Respent(cfg, w, m - 1), w)
             else st.buckets.Keys == {CLIENT} && SweepDue(cfg, st, w) && w - st.buckets[CLIENT].last >= cfg.idle
    ensures Serve(cfg, st, Request(w, CLIENT)) == (Limiter(Respent(cfg, w, m), w), Decision(CLIENT, true))
  {
    AloneIsOwn(cfg, st.buckets, CLIENT);
    if m == 1 {
      assert Fresh(cfg, st.buckets, w) == map[];
    } else {
      assert Gain(cfg, 0.0) == 0.0;
      assert Sweep(cfg, st, w) == st;
      assert Refill(cfg, st.buckets[CLIENT], w) == (cfg.burst - m + 1) as real;
      assert Charge(cfg, st.buckets, CLIENT, w).0 == Respent(cfg, w, m);
    }
  }

  /** Where the second burst begins. */
  lemma BeforeAgain(cfg: Config, d: real, g: real, w: real)
    requires Lonely(cfg, d, g) && w == 1.0 + g - d + cfg.idle
    ensures var st := Run(cfg, LoneBursts(cfg, d, g, 0)).0;
            st.buckets.Keys == {CLIENT} && SweepDue(cfg, st, w) && w - st.buckets[CLIENT].last >= cfg.idle
  {
    OwingRuns(cfg, d, g);
    assert LoneBursts(cfg, d, g, 0) == Owing(cfg, d, g);
  }

  lemma {:induction false} LoneRuns(cfg: Config, d: real, g: real, w: Instant, m: nat)
    requires Lonely(cfg, d, g) && m <= cfg.burst && w == 1.0 + g - d + cfg.idle
    ensures var (st, ds) := Run(cfg, LoneBursts(cfg, d, g, m));
            LastAllowed(ds, m) && (m > 0 ==> st == Limiter(Respent(cfg, w, m), w))
  {
    if m == 0 {
    } else {
      var past, r := LoneBursts(cfg, d, g, m - 1), Request(w, CLIENT);
      assert LoneBursts(cfg, d, g, m) == past + [r];
      BeforeAgain(cfg, d, g, w);
      LoneRuns(cfg, d, g, w, m - 1);
      RunGrows(cfg, past, r, LoneBursts(cfg, d, g, m));
      SpendsAgain(cfg, Run(cfg, past).0, w, m);
      LastAllowedAfter(Run(cfg, past).1, Decision(CLIENT, true), m);
    }
  }

  function KeptLone(cfg: Config, d: real, g: real, m: nat): Bucket {
    if m == 0 then Bucket(-Gain(cfg, d), 1.0 + g - d)
    else Bucket(Gain(cfg, cfg.idle - d) - m as real, 1.0 + g - d + cfg.idle)
  }

  lemma MeetsLone(cfg: Config, d: real, g: real, m: nat)
    requires Lonely(cfg, d, g)
    ensures Refill(cfg, KeptLone(cfg, d, g, m), 1.0 + g - d + cfg.idle) == Gain(cfg, cfg.idle - d) - m as real
  {
    GainBetween(cfg, d, cfg.idle);
    assert Gain(cfg, 0.0) == 0.0;
    assert 1.0 + g - d + cfg.idle - (1.0 + g - d) == cfg.idle;
  }

  lemma {:induction false} LoneKept(cfg: Config, d: real, g: real, m: nat)
    requires Lonely(cfg, d, g) && m <= cfg.burst
    ensures var (kept, ds) := Kept(cfg, LoneBursts(cfg, d, g, m));
            LastAllowed(ds, m) ==>
              Find(kept, CLIENT) == KeptLone(cfg, d, g, m) && (m > 0 ==> Gain(cfg, cfg.idle - d) >= m as real)
  {
    if m == 0 {
      OwingRuns(cfg, d, g);
      assert LoneBursts(cfg, d, g, 0) == Owing(cfg, d, g);
    } else {
      var past, r := LoneBursts(cfg, d, g, m - 1), Request(1.0 + g - d + cfg.idle, CLIENT);
      assert LoneBursts(cfg, d, g, m) == past + [r];
      LoneKept(cfg, d, g, m - 1);
      RunGrows(cfg, past, r, past + [r]);
      var kept := Kept(cfg, past).0;
      LastAllowedAfter(Kept(cfg, past).1, Decision(CLIENT, Charge(cfg, kept, CLIENT, r.at).1), m);
      ChargeFinds(cfg, kept, CLIENT, r.at, CLIENT);
      MeetsLone(cfg, d, g, m - 1);
    }
  }

  lemma LoneIsLate(cfg: Config, d: real, g: real, m: nat)
    requires Lonely(cfg, d, g)
    ensures LateBy(LoneBursts(cfg, d, g, m), d) && Alone(LoneBursts(cfg, d, g, m), CLIENT)
  {
    var reqs, n := LoneBursts(cfg, d, g, m), cfg.burst;
    assert reqs[0].at == 1.0 && reqs[n + 1].at == 1.0 + g - d;
    assert forall i | 1 <= i <= n :: reqs[i].at == 1.0 + g;
    assert forall i | n + 1 < i < |reqs| :: reqs[i].at == 1.0 + g - d + cfg.idle;
  }

  lemma SomeLonely(cfg: Config, late: real) returns (d: real, g: real)
    requires 0.0 <= late && Gain(cfg, cfg.idle - late) < cfg.burst as real && Gain(cfg, cfg.idle) > 1.0
    ensures d <= late && Lonely(cfg, d, g)
  {
    var one := Accrue(cfg, 1);
    AccrueGains(cfg, 1);
    GainOrder(cfg, one, cfg.idle);
    HalfGains(cfg, one);
    d := if late < cfg.idle - one / 2.0 then late else cfg.idle - one / 2.0;
    g := if d < one then one else d;
    assert cfg.idle - (cfg.idle - one / 2.0) == one / 2.0;
    GainBetween(cfg, one, g);
  }

  lemma OneClient(reqs: seq<Request>)
    requires Alone(reqs, CLIENT)
    ensures |Clients(reqs)| <= 1
  {
    assert Clients(reqs) <= {CLIENT};
    SubsetSize(Clients(reqs), {CLIENT});
  }

  /** With one client: a run where the two limiters part. */
  lemma LoneEvictionVisible(cfg: Config, late: real) returns (reqs: seq<Request>)
    requires 0.0 <= late && !RefillsAlone(cfg, late)
    ensures LateBy(reqs, late) && |Clients(reqs)| <= 1 && Run(cfg, reqs).1 != Kept(cfg, reqs).1
  {
    if Gain(cfg, cfg.idle) < cfg.burst as real {
      reqs := TwoBursts(cfg, cfg.burst, cfg.burst);
      EvictionVisible(cfg);
      LaterIsLate(reqs, 0.0, late);
    } else {
      var d, g := SomeLonely(cfg, late);
      reqs := LoneBursts(cfg, d, g, cfg.burst);
      LoneIsLate(cfg, d, g, cfg.burst);
      LaterIsLate(reqs, d, late);
      LoneRuns(cfg, d, g, 1.0 + g - d + cfg.idle, cfg.burst);
      LoneKept(cfg, d, g, cfg.burst);
    }
    OneClient(reqs);
  }

  lemma AloneInvisible(cfg: Config, reqs: seq<Request>, late: real)
    requires RefillsAlone(cfg, late) && LateBy(reqs, late) && |Clients(reqs)| <= 1
    ensures Run(cfg, reqs).1 == Kept(cfg, reqs).1
  {
    if reqs != [] {
      OnlyClient(reqs);
      if Gain(cfg, cfg.idle - late) >= cfg.burst as real {
        AloneSame(cfg, reqs, reqs[0].key, late);
      } else {
        AloneSameForOne(cfg, reqs, reqs[0].key);
      }
    }
  }

  lemma OnlyClient(reqs: seq<Request>)
    requires reqs != [] && |Clients(reqs)| <= 1
    ensures Alone(reqs, reqs[0].key)
  {
    forall i | 0 <= i < |reqs| ensures reqs[i].key == reqs[0].key {
      assert {reqs[i].key, reqs[0].key} <= Clients(reqs);
      SubsetSize({reqs[i].key, reqs[0].key}, Clients(reqs));
    }
  }

  // ---- Eviction cannot be observed exactly then ----

  /** What must accrue, with one entry and with more. */
  predicate CannotTell(cfg: Config, late: real) {
    if cfg.maxEntries >= 2 then RefillsWhenIdle(cfg, late) else RefillsAlone(cfg, late)
  }

  /** On every request sequence with no more clients than entries and lateness at most `late`,
      the sweeping limiter decides as one that never deletes a bucket, if and only if: with two
      entries or more, what accrues in the idle time less twice `late` is at least the burst;
      with one entry, what accrues in the idle time less `late` is, or the burst is one and
      accrues in exactly the idle time. */
  lemma EvictionInvisibleIff(cfg: Config, late: real)
    requires 0.0 <= late
    ensures (forall reqs | LateBy(reqs, late) && |Clients(reqs)| <= cfg.maxEntries ::
               Run(cfg, reqs).1 == Kept(cfg, reqs).1)
            <==> CannotTell(cfg, late)
  {
    if CannotTell(cfg, late) {
      forall reqs | LateBy(reqs, late) && |Clients(reqs)| <= cfg.maxEntries
        ensures Run(cfg, reqs).1 == Kept(cfg, reqs).1
      {
        if cfg.maxEntries >= 2 {
          EvictionInvisible(cfg, reqs, late);
        } else {
          AloneInvisible(cfg, reqs, late);
        }
      }
    } else {
      var reqs;
      if cfg.maxEntries >= 2 {
        reqs := LateEvictionVisible(cfg, late);
      } else {
        reqs := LoneEvictionVisible(cfg, late);
      }
      assert Run(cfg, reqs).1 != Kept(cfg, reqs).1;
    }
  }
}
