/** The inbound concurrency limit (internal/httpx/middleware/concurrency.go) and the inflight
    gauge, over every interleaving of requests. */
module Concurrency {
  import opened Base
  import opened Metrics

  /** Where a request stands.  The permit is given back before the gauge goes down, so a
      `Released` request is counted although it holds no permit. */
  datatype Pc =
    | Arrived
    | Passing       // not limited: an operational path, or the limit is off
    | Permitted     // holds a permit, not counted yet
    | Serving       // holds a permit and is counted
    | Released      // has given the permit back, still counted
    | TurnedAway    // found no permit; the rejection is not recorded yet
    | Refused
    | Done

  datatype State = State(permits: nat, gauge: int, rejected: map<string, nat>, pcs: map<nat, Pc>)

  const START := State(0, 0, map[], map[])
  const REASON := "concurrency"

  datatype Action = Arrive(c: nat, operational: bool) | Go(c: nat)

  function Move(s: State, c: nat, pc: Pc): State { s.(pcs := s.pcs[c := pc]) }

  function GoOn(max: int, s: State, c: nat): State
    requires c in s.pcs
  {
    match s.pcs[c]
    case Arrived =>
      if s.permits < max then Move(s, c, Permitted).(permits := s.permits + 1) else Move(s, c, TurnedAway)
    case Passing => Move(s, c, Done)
    case Permitted => Move(s, c, Serving).(gauge := Shift(s.gauge, 1))
    case Serving => if s.permits == 0 then s else Move(s, c, Released).(permits := s.permits - 1)
    case Released => Move(s, c, Done).(gauge := Shift(s.gauge, -1))
    case TurnedAway => Move(s, c, Refused).(rejected := Bump(s.rejected, REASON))
    case _ => s
  }

  function Next(max: int, s: State, a: Action): State {
    match a
    case Arrive(c, operational) =>
      if c in s.pcs then s else Move(s, c, if max <= 0 || operational then Passing else Arrived)
    case Go(c) => if c in s.pcs then GoOn(max, s, c) else s
  }

  function Exec(max: int, s: State, acts: seq<Action>): State
    decreases |acts|
  {
    if acts == [] then s else Exec(max, Next(max, s, acts[0]), acts[1..])
  }

  // ---- The same on objects ----

  /** The channel of permits and the registry, as one request uses them. */
  class Limiter {
    const max: int
    const metrics: Registry
    var permits: nat

    constructor (max: int, metrics: Registry)
      ensures this.max == max && this.metrics == metrics && permits == 0
    {
      this.max, this.metrics, permits := max, metrics, 0;
    }

    /** The non-blocking send of the `select`. */
    method TryAcquire() returns (admitted: bool)
      modifies this
      ensures admitted <==> old(permits) < max
      ensures permits == old(permits) + if admitted then 1 else 0
    {
      admitted := permits < max;
      if admitted {
        permits := permits + 1;
      }
    }

    /** The receive of the deferred function. */
    method Release()
      requires permits > 0
      modifies this
      ensures permits == old(permits) - 1
    {
      permits := permits - 1;
    }

    /** The first two steps of a request, undisturbed: what `Permitted` and `Serving`, or
        `TurnedAway` and `Refused`, leave behind. */
    method Enter() returns (admitted: bool)
      modifies this, metrics
      ensures admitted <==> old(permits) < max
      ensures var s := State(old(permits), old(metrics.inflight), old(metrics.rejected), map[0 := Arrived]);
              var s' := GoOn(max, GoOn(max, s, 0), 0);
              permits == s'.permits && metrics.inflight == s'.gauge && metrics.rejected == s'.rejected
    {
      admitted := TryAcquire();
      if admitted {
        metrics.AddInflight(1);
      } else {
        metrics.RecordRejected(REASON);
      }
    }

    /** The last two steps, undisturbed. */
    method Leave()
      requires permits > 0
      modifies this, metrics
      ensures var s := State(old(permits), old(metrics.inflight), old(metrics.rejected), map[0 := Serving]);
              var s' := GoOn(max, GoOn(max, s, 0), 0);
              permits == s'.permits && metrics.inflight == s'.gauge && metrics.rejected == s'.rejected
    {
      Release();
      metrics.AddInflight(-1);
    }
  }

  // ---- Every interleaving ----

  function Holding(): Pc -> bool { (pc: Pc) => pc.Permitted? || pc.Serving? }

  function Counted(): Pc -> bool { (pc: Pc) => pc.Serving? || pc.Released? }

  function Leaving(): Pc -> bool { (pc: Pc) => pc.Released? }

  function Recorded(): Pc -> bool { (pc: Pc) => pc.Refused? }

  ghost predicate Inv(max: int, s: State) {
    && s.permits == |Where(s.pcs, Holding())|
    && s.gauge == |Where(s.pcs, Counted())|
    && Count(s.rejected, REASON) == |Where(s.pcs, Recorded())|
    && (s.permits <= max || s.permits == 0)
  }

  /** How a count changes when request c moves to `pc`. */
  function Change(pcs: map<nat, Pc>, c: nat, pc: Pc, f: Pc -> bool): int {
    (if f(pc) then 1 else 0) - (if c in pcs && f(pcs[c]) then 1 else 0)
  }

  lemma MoveInv(max: int, s: State, c: nat, s': State)
    requires Inv(max, s) && c in s'.pcs && s'.pcs == s.pcs[c := s'.pcs[c]]
    requires s'.permits == s.permits + Change(s.pcs, c, s'.pcs[c], Holding())
    requires s'.gauge == s.gauge + Change(s.pcs, c, s'.pcs[c], Counted())
    requires Count(s'.rejected, REASON) == Count(s.rejected, REASON) + Change(s.pcs, c, s'.pcs[c], Recorded())
    requires s'.permits <= max || s'.permits <= s.permits
    ensures Inv(max, s')
  {
    WhereAfterMove(s.pcs, c, s'.pcs[c], Holding());
    WhereAfterMove(s.pcs, c, s'.pcs[c], Counted());
    WhereAfterMove(s.pcs, c, s'.pcs[c], Recorded());
  }

  lemma OneIsThere(pcs: map<nat, Pc>, c: nat, f: Pc -> bool)
    requires c in pcs && f(pcs[c])
    ensures |Where(pcs, f)| > 0
  {
    assert c in Where(pcs, f);
  }

  lemma GoInv(max: int, s: State, c: nat)
    requires Inv(max, s) && c in s.pcs
    ensures Inv(max, GoOn(max, s, c))
  {
    var s' := GoOn(max, s, c);
    if s.pcs[c].Serving? {
      OneIsThere(s.pcs, c, Holding());
    } else if s.pcs[c].Released? {
      OneIsThere(s.pcs, c, Counted());
    }
    if s' != s {
      MoveInv(max, s, c, s');
    }
  }

  lemma NextInv(max: int, s: State, a: Action)
    requires Inv(max, s)
    ensures Inv(max, Next(max, s, a))
  {
    if a.Go? && a.c in s.pcs {
      GoInv(max, s, a.c);
    } else if a.Arrive? && a.c !in s.pcs {
      MoveInv(max, s, a.c, Next(max, s, a));
    }
  }

  lemma {:induction false} ExecInv(max: int, s: State, acts: seq<Action>)
    requires Inv(max, s)
    ensures Inv(max, Exec(max, s, acts))
    decreases |acts|
  {
    if acts == [] {
    } else {
      NextInv(max, s, acts[0]);
      ExecInv(max, Next(max, s, acts[0]), acts[1..]);
    }
  }

  lemma RunInv(max: int, acts: seq<Action>)
    ensures Inv(max, Exec(max, START, acts))
  {
    ExecInv(max, START, acts);
  }

  /** In every run the gauge is the number of requests between their increment and their
      decrement, permits held are the requests holding one and never more than `max`, and
      every recorded rejection is a refused request. */
  lemma GaugeAndPermitsAreExact(max: int, acts: seq<Action>)
    ensures var s := Exec(max, START, acts);
            && s.gauge == |Where(s.pcs, Counted())|
            && s.permits == |Where(s.pcs, Holding())| && (max > 0 ==> s.permits <= max)
            && Count(s.rejected, REASON) == |Where(s.pcs, Recorded())|
  {
    RunInv(max, acts);
  }

  /** The clamp at zero never fires: a request about to decrement finds the gauge positive,
      and a request about to give its permit back finds one in the channel. */
  lemma ClampNeverFires(max: int, acts: seq<Action>, c: nat)
    requires c in Exec(max, START, acts).pcs
    ensures var s := Exec(max, START, acts);
            && (s.pcs[c].Released? ==> s.gauge > 0 && Next(max, s, Go(c)).gauge == s.gauge - 1)
            && (s.pcs[c].Serving? ==> s.permits > 0 && Next(max, s, Go(c)).permits == s.permits - 1)
  {
    RunInv(max, acts);
    var s := Exec(max, START, acts);
    if s.pcs[c].Released? {
      OneIsThere(s.pcs, c, Counted());
    } else if s.pcs[c].Serving? {
      OneIsThere(s.pcs, c, Holding());
    }
  }

  function Uncounted(): Pc -> bool { (pc: Pc) => pc.Permitted? }

  function BeingServed(): Pc -> bool { (pc: Pc) => pc.Serving? }

  /** Where the gauge stands: above the permits taken by the requests that have given theirs
      back and not decremented, below by those that have taken one and not incremented.  So it
      is above the limit exactly when the former outnumber the latter and the free permits. */
  lemma GaugeAgainstLimit(max: int, acts: seq<Action>)
    ensures var s := Exec(max, START, acts);
            && s.gauge == s.permits + |Where(s.pcs, Leaving())| - |Where(s.pcs, Uncounted())|
            && (s.gauge > max <==> |Where(s.pcs, Leaving())| > |Where(s.pcs, Uncounted())| + (max - s.permits))
  {
    RunInv(max, acts);
    var pcs := Exec(max, START, acts).pcs;
    WhereSplits(pcs, BeingServed(), Leaving(), Counted());
    WhereSplits(pcs, Uncounted(), BeingServed(), Holding());
  }

  /** When every request is over, nothing is left behind. */
  lemma QuietMeansEmpty(max: int, acts: seq<Action>)
    requires forall c | c in Exec(max, START, acts).pcs ::
               Exec(max, START, acts).pcs[c].Done? || Exec(max, START, acts).pcs[c].Refused?
    ensures Exec(max, START, acts).permits == 0 && Exec(max, START, acts).gauge == 0
  {
    RunInv(max, acts);
    var s := Exec(max, START, acts);
    assert Where(s.pcs, Holding()) == {} && Where(s.pcs, Counted()) == {};
  }

  lemma {:induction false} ExecAppend(max: int, s: State, a: seq<Action>, b: seq<Action>)
    ensures Exec(max, s, a + b) == Exec(max, Exec(max, s, a), b)
    decreases |a|
  {
    if a == [] {
      assert a + b == b;
    } else {
      assert (a + b)[1..] == a[1..] + b;
      ExecAppend(max, Next(max, s, a[0]), a[1..], b);
    }
  }

  lemma ExecOne(max: int, s: State, a: Action)
    ensures Exec(max, s, [a]) == Next(max, s, a)
  {
    assert [a][1..] == [];
  }

  lemma ExecTwo(max: int, s: State, a: Action, b: Action)
    ensures Exec(max, s, [a, b]) == Next(max, Next(max, s, a), b)
  {
    assert [a, b][1..] == [b];
    ExecOne(max, Next(max, s, a), b);
  }

  /** A newcomer takes a permit and is counted. */
  lemma Enters(max: int, s: State, c: nat) returns (acts: seq<Action>)
    requires c !in s.pcs && s.permits < max && s.gauge >= 0
    ensures Exec(max, s, acts)
            == State(s.permits + 1, s.gauge + 1, s.rejected, s.pcs[c := Serving])
  {
    var arrive, go := Arrive(c, false), Go(c);
    acts := [arrive, go] + [go];
    ExecTwo(max, s, arrive, go);
    ExecAppend(max, s, [arrive, go], [go]);
    ExecOne(max, Next(max, Next(max, s, arrive), go), go);
    assert s.pcs[c := Arrived][c := Permitted][c := Serving] == s.pcs[c := Serving];
  }

  /** A request that is being served gives its permit back. */
  lemma GivesBack(max: int, s: State, c: nat)
    requires c in s.pcs && s.pcs[c].Serving? && s.permits > 0
    ensures Exec(max, s, [Go(c)]) == State(s.permits - 1, s.gauge, s.rejected, s.pcs[c := Released])
  {
    ExecOne(max, s, Go(c));
  }

  /** k requests stand between the two halves of their departure. */
  lemma ReachReleased(max: int, k: nat) returns (acts: seq<Action>)
    requires max > 0
    ensures var s := Exec(max, START, acts);
            s.permits == 0 && s.gauge == k && forall c | c in s.pcs :: c < k
  {
    acts := [];
    if k == 0 {
    } else {
      var before := ReachReleased(max, k - 1);
      var s := Exec(max, START, before);
      var enter := Enters(max, s, k - 1);
      ExecAppend(max, START, before, enter);
      var s1 := Exec(max, START, before + enter);
      GivesBack(max, s1, k - 1);
      acts := before + enter + [Go(k - 1)];
      ExecAppend(max, START, before + enter, [Go(k - 1)]);
    }
  }

  /** And n more are being served. */
  lemma ReachServing(max: int, k: nat, n: nat) returns (acts: seq<Action>)
    requires max > 0 && n <= max
    ensures var s := Exec(max, START, acts);
            s.permits == n && s.gauge == k + n && forall c | c in s.pcs :: c < k + n
  {
    if n == 0 {
      acts := ReachReleased(max, k);
    } else {
      var before := ReachServing(max, k, n - 1);
      var enter := Enters(max, Exec(max, START, before), k + n - 1);
      acts := before + enter;
      ExecAppend(max, START, before, enter);
    }
  }

  /** The gauge does get above the limit, by as much as one likes. */
  lemma GaugeExceedsLimit(max: int, k: nat)
    requires max > 0
    ensures exists acts :: Exec(max, START, acts).gauge == max + k
  {
    var acts := ReachServing(max, k, max);
  }

  /** A request on an operational path, or any request where no limit is set, passes without a
      permit and leaves permits, gauge and counters alone; any other takes a permit, or is turned
      away when none is free. */
  lemma PassesIff(max: int, s: State, c: nat, operational: bool)
    requires c !in s.pcs
    ensures var s' := Next(max, Next(max, s, Arrive(c, operational)), Go(c));
            if operational || max <= 0 then s' == s.(pcs := s.pcs[c := Done])
            else if s.permits < max then s' == s.(pcs := s.pcs[c := Permitted], permits := s.permits + 1)
            else s' == s.(pcs := s.pcs[c := TurnedAway])
  {
    var s' := Next(max, Next(max, s, Arrive(c, operational)), Go(c));
    assert s'.pcs == s.pcs[c := s'.pcs[c]];
  }
}
