/** Counters of internal/observability/metrics.go that the modelled code writes. */
module Metrics {

  /** The values of the `outcome` label of the outbound request counter. */
  datatype Tag = OnSuccess | OnRateLimited | OnUnavailable | OnUnauthorized | OnForbidden | OnError

  /** The values of the `reason` label of the outbound rejection counter. */
  datatype Reason = Bulkhead | CircuitBreak

  function Count<K>(m: map<K, nat>, name: K): nat {
    if name in m then m[name] else 0
  }

  function Bump<K>(m: map<K, nat>, name: K): map<K, nat> {
    m[name := Count(m, name) + 1]
  }

  /** `AddInflight`: the gauge is clamped at zero. */
  function Shift(gauge: int, delta: int): int {
    if gauge + delta < 0 then 0 else gauge + delta
  }

  /** Each method is one critical section of the source's mutex. */
  class Registry {
    var outRequests: map<Tag, nat>
    var outRejected: map<Reason, nat>
    var rejected: map<string, nat>
    var inflight: int

    constructor ()
      ensures outRequests == map[] && outRejected == map[] && rejected == map[] && inflight == 0
    {
      outRequests, outRejected, rejected, inflight := map[], map[], map[], 0;
    }

    method RecordOutbound(outcome: Tag)
      modifies this`outRequests
      ensures outRequests == Bump(old(outRequests), outcome)
    {
      outRequests := outRequests[outcome := (if outcome in outRequests then outRequests[outcome] else 0) + 1];
    }

    method RecordOutboundRejected(reason: Reason)
      modifies this`outRejected
      ensures outRejected == Bump(old(outRejected), reason)
    {
      outRejected := outRejected[reason := (if reason in outRejected then outRejected[reason] else 0) + 1];
    }

    method RecordRejected(reason: string)
      modifies this`rejected
      ensures rejected == Bump(old(rejected), reason)
    {
      rejected := rejected[reason := (if reason in rejected then rejected[reason] else 0) + 1];
    }

    method AddInflight(delta: int)
      modifies this`inflight
      ensures inflight == Shift(old(inflight), delta)
    {
      inflight := inflight + delta;
      if inflight < 0 {
        inflight := 0;
      }
    }
  }
}
