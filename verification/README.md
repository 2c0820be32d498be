# Gateway runtime: a verified model

This project models the concurrent and stateful core of the gateway runtime and proves, for
every input and every interleaving, what that code keeps.  Each component is a step function over
values (one step per critical section, store operation or provider call), a run is a fold of steps
from the start state, and the theorems quantify over all runs.  Code that the source writes as
loops or as objects that change in place is a method or a class proved against the same functions.

| file | what it covers |
|---|---|
| `Breaker.dfy` | the circuit breaker of an outbound service, refined to a log of admissions and outcomes |
| `Outbound.dfy` | bulkhead, breaker, metrics and the retrying client together, over all interleavings of calls |
| `Statuses.dfy` | which replies count as failures, under which label, and which are sent again |
| `Metrics.dfy` | the counters and the inflight gauge |
| `RateLimit.dfy` | the token bucket per client, with sweeping, the entry cap and the overflow bucket |
| `Eviction.dfy` | what sweeping idle buckets does: to decisions, and to the burst-plus-rate bound |
| `Concurrency.dfy` | the inbound concurrency limit and the inflight gauge |
| `Sessions.dfy` | absolute and idle lifetimes, touching, and the session store |
| `UserContext.dfy` | the cached user context and `GET /api/me` |
| `Login.dfy` | the authorization-code flow: one-time states, PKCE, rollback of a failed callback |
| `LoginTrace.dfy` | logins traced back to the requests they come from |
| `Refresh.dfy` | token refresh under the in-process lock: rotation, spacing, lifetimes |
| `TokenManager.dfy` | `StoreManager.AccessToken` on mutable stores, placed in the steps of `Refresh.dfy` |
| `Lease.dfy` | the Redis refresh lock as a lease |
| `LeasedRefresh.dfy` | token refresh under that lease, as a refinement of `Refresh.dfy` |
| `Text.dfy`, `RuntimeConfig.dfy`, `Spelling.dfy` | roles and capabilities: parsers, validator, text forms, spelling |
| `StorageReady.dfy` | readiness of the storage role, request validation, choice of provider |
| `StorageRoutes.dfy` | the storage routes one by one |
| `Base.dfy` | shared datatypes and counting over callers |

`dafny verify dfyconfig.toml` checks everything.

## Where the code and what is said of it differ

- The rotation chain (the token presented is the latest issued) breaks when the write or deletion
  that follows a rotation fails: `invalidate` ignores the error of `Delete`, and a failed `Put`
  leaves the old set.  `Refresh.StaleIff` says exactly when a call presents a stale token, and
  `Refresh.ChainBreaks` gives such a run for every configuration.
- "One probe at a time" does not hold of the breaker: a call admitted before it opened may fail
  while a probe is out.  `Breaker.OneProbePerOutcome` is what holds always,
  `Outbound.ProbeAloneIffNoStraggler` says exactly when a probe is alone.
- The limiter reads the clock before it takes its mutex, so requests can be charged out of order
  and a bucket can go below zero.  `RateLimit.OwedIff` says exactly when,
  `Eviction.TokensCanBeOwed` gives such a run for every configuration, and
  `RateLimit.TokensInRange` bounds by how much.
- With requests late by at most some time, the burst-plus-rate bound holds exactly when what
  accrues in the idle time less twice that time is at least the burst (`Eviction.BurstPlusRateIff`);
  otherwise some run exceeds it by any amount (`Eviction.AdmitsBeyond`).  With two entries or more
  the same condition decides whether sweeping can be observed at all, with one entry a weaker one
  does (`Eviction.EvictionInvisibleIff`).  Configuration enforces neither.
- A lease can run out under its holder.  As long as nobody overstays their lease of a session, its
  refreshes are as safe as under the in-process lock (`LeasedRefresh.LeasedRunIsARun`); for every
  lease time shorter than a session there is a run in which a caller overstays and the next one
  presents the replaced token, with no failed write (`LeasedRefresh.OverstayBreaksChain`).
- A permit is given back before the inflight gauge goes down, so the gauge can exceed the limit by
  any amount (`Concurrency.GaugeExceedsLimit`); `Concurrency.GaugeAgainstLimit` says exactly when
  it does.
- A login callback whose token write fails deletes its session and ignores the error of that
  deletion, so a failed callback can leave a session.  `Login.FailureLeavesASessionIff` says
  exactly when, `Login.SessionIsLeft` gives such a run.
- A ready storage instance still answers 503 when the access policy fails on a request
  (`StorageReady.ReadyIsUnavailableIff`, `StorageReady.ReadyYetUnavailable`).
- A target registered under a name with outer spaces stays in the registry beside its trimmed
  copy.  No request can name it, and yet it can keep an instance from becoming ready
  (`StorageReady.ReadinessIsExact`, `StorageReady.ServedYetUnready`).
- A requested lifetime in seconds is multiplied in 64 bits without a range check: a huge value can
  wrap around to a small accepted one (`StorageReady.LifetimeIsBounded`,
  `StorageReady.LongLifetimeIsAccepted`).

## Model

| member | source | states |
|---|---|---|
| `Breaker.BreakerRefinesLog` | internal/outbound/protected.go:82-122 | in every run the three fields of the breaker are a function of its log of admissions and outcomes; a call is admitted exactly when the log allows it, and every past admission and refusal obeyed that rule |
| `Breaker.AdmittedSinceMeans` | internal/outbound/protected.go:82-98 | a probe is out, by the log, exactly when some admission has no outcome after it |
| `Breaker.OneProbePerOutcome` | internal/outbound/protected.go:82-122 | two admissions with the circuit tripped have an outcome between them |
| `Breaker.TwoProbesAtOnce` | internal/outbound/protected.go:82-122 | a run in which two probes are out together |
| `Breaker.CircuitBreaker.constructor` | internal/outbound/protected.go:65-80 | a new breaker is closed, with threshold and open time defaulted |
| `Breaker.CircuitBreaker.BeforeRequest` | internal/outbound/protected.go:82-98 | the critical section is the function `Before` the refinement speaks of |
| `Breaker.CircuitBreaker.AfterResult` | internal/outbound/protected.go:100-122 | the critical section is the function `After` the refinement speaks of |
| `Outbound.SendWithRetries` | internal/outbound/client.go:47-96 | the retry loop, exactly: what was sent, why it went on after each send but the last, and the error it ended with in every case |
| `Outbound.BulkheadHolds` | internal/outbound/protected.go:31-63 | in every interleaving the slots taken are the calls between acquire and release, never above the limit; calls the bulkhead rejects never reach the breaker |
| `Outbound.FullIff` | internal/outbound/protected.go:37-49 | in every interleaving a call is turned away exactly when a limit is set and that many calls are between acquire and release |
| `Outbound.CallAccounting` | internal/outbound/protected.go:31-63 | in every interleaving each counter is the number of calls that ended that way, by outcome or by reason of rejection; finished calls are among them; a served call gave the breaker exactly one result however often it sent, any other call none |
| `Outbound.BreakerNeverWedges` | internal/outbound/protected.go:82-122 | while the half-open flag is set the probe that set it is in flight, and whatever answer it gets, its report clears the flag, as does any other report |
| `Outbound.ProbeAloneIffNoStraggler` | internal/outbound/protected.go:82-122 | in any reachable state with a probe out, and for any time, the probe stays alone in flight in every continuation from that time on, its clock not going back, until it reports, if and only if no earlier call is still in flight |
| `Outbound.ProtectedClient.constructor` | internal/outbound/protected.go:65-80 | an idle client: no slot taken, breaker closed |
| `Outbound.ProtectedClient.DoJSON` | internal/outbound/protected.go:31-63 | one call on the mutable client ends in the state, counters and error that its uninterrupted steps give, and what it sent and returned follows the script of the retry loop |
| `Outbound.AloneIsARun` | internal/outbound/protected.go:31-63 | those steps are a run of the interleaving model, all by that call |
| `Outbound.AloneServed` | internal/outbound/observed.go:20-45 | an admitted call is counted under the outcome of its error, reported to the breaker once, and gives its slot back |
| `Outbound.AloneRefused` | internal/outbound/protected.go:31-63 | a call the breaker refuses is counted as such, gives its slot back and reports nothing |
| `Outbound.AloneFull` | internal/outbound/protected.go:31-63 | a call without a slot is counted as such and asks the breaker nothing |
| `Outbound.ProtectedClient.IsFailure` | internal/outbound/protected.go:124-139 | the source's order of tests is the predicate the steps use |
| `Outbound.ProtectedClient.Label` | internal/outbound/observed.go:29-45 | the source's order of tests is the label the steps count under |
| `Statuses.ReportedAsFailureIff` | internal/outbound/protected.go:100-139 | a served call that ends on its last reply is reported as a failure exactly when that is a send that failed and was not cancelled, a body that could not be read, was too large or did not decode, or a readable 502, 503 or 504; any other report resets the breaker |
| `Statuses.CancelledIsNoFailure` | internal/outbound/protected.go:124-139 | a context that ended during the last send is a failure unless it was cancelled |
| `Statuses.CountedByStatus` | internal/outbound/observed.go:20-45 | a readable last reply is counted as success for a 2xx that decodes, under its own label for 401, 403, 429 and 502 to 504, and as an error otherwise |
| `Statuses.FailedSendIsAnError` | internal/outbound/observed.go:20-45 | a send that failed is counted as an error |
| `Statuses.ErrorNamesTheStatus` | internal/outbound/errors.go:35-55 | a readable last reply ends the call with the kind of error its status stands for, or with none |
| `Statuses.SentAgainIff` | internal/outbound/client.go:47-96 | only GET, HEAD and OPTIONS are sent again, only after a failed send or a 502, 503 or 504, at most MaxRetries times; and then they are, unless something stops the loop |
| `Statuses.NothingSentIff` | internal/outbound/client.go:47-66 | nothing is sent exactly when the payload cannot be encoded or the first request cannot be built, and that is then the error |
| `Statuses.BadCallsOpenTheCircuit` | internal/outbound/protected.go:82-139 | after fewer such calls in a row than the threshold the next call is served; after as many, a call within the open time is refused and one after it served |
| `Statuses.UnavailableIsBad` | internal/outbound/client.go:47-96 | a POST answered by a readable 503 is such a call, whatever the configuration |
| `Metrics.Registry.RecordOutbound` | internal/observability/metrics.go:106-120 | one more under that outcome, all else unchanged |
| `Metrics.Registry.RecordOutboundRejected` | internal/observability/metrics.go:132-143 | one more under that reason, all else unchanged |
| `Metrics.Registry.RecordRejected` | internal/observability/metrics.go:122-130 | one more under that reason, all else unchanged |
| `Metrics.Registry.AddInflight` | internal/observability/metrics.go:145-155 | the gauge moves by delta and is clamped at zero |
| `RateLimit.Configure` | internal/httpx/middleware/rate_limit.go:29-58 | idle time and entry cap are positive: kept when they already were, else ten minutes and 10000 |
| `RateLimit.RateLimiter.SweepIdle` | internal/httpx/middleware/rate_limit.go:62-90 | the sweep loop removes exactly the buckets idle for the idle time, when a sweep is due |
| `RateLimit.RateLimiter.Allow` | internal/httpx/middleware/rate_limit.go:62-90 | the critical section is the function `Serve` that the theorems speak of |
| `RateLimit.EntriesBounded` | internal/httpx/middleware/rate_limit.go:62-90 | in every run the map holds at most the entry cap and the overflow bucket |
| `RateLimit.TokensInRange` | internal/httpx/middleware/rate_limit.go:59-90 | in whatever order requests are served a bucket holds at most the burst and owes at most what accrues in the time by which the last request charged to it was late |
| `RateLimit.OwedIff` | internal/httpx/middleware/rate_limit.go:59-90 | after any run, a request drives its bucket below zero exactly when the bucket outlives the sweep and holds less than what accrues between the request and the bucket's last use |
| `Eviction.TokensCanBeOwed` | internal/httpx/middleware/rate_limit.go:59-90 | for every configuration, a run that leaves a bucket below zero |
| `RateLimit.BurstPlusRate` | internal/httpx/middleware/rate_limit.go:62-90 | with requests late by at most some time, a bucket admits between any two requests at most the burst and what accrues between them and in twice that time, sweeps included; in order this is burst plus rate times elapsed |
| `RateLimit.SpacedIsServed` | internal/httpx/middleware/rate_limit.go:62-90 | a request one token's time after every earlier one on its bucket is never rejected, in whatever order requests are served |
| `RateLimit.NewLimiter` | internal/httpx/middleware/rate_limit.go:29-50 | there is a limiter exactly when rate and burst are positive |
| `RateLimit.RateLimiter.Accrued` | internal/httpx/middleware/rate_limit.go:79-79 | seconds times the rate |
| `RateLimit.TokenBucketBound` | internal/httpx/middleware/rate_limit.go:62-90 | in plain numbers, served in order and where rate times idle time is at least the burst: at most burst plus rate times elapsed between any two requests |
| `RateLimit.TokensTimeLater` | internal/httpx/middleware/rate_limit.go:62-90 | a request one over the rate after every earlier one is served, in whatever order |
| `Eviction.EvictionInvisible` | internal/httpx/middleware/rate_limit.go:62-90 | with bounded lateness and evicted buckets full again, every decision is that of a limiter that keeps all buckets for ever |
| `Eviction.EvictionVisible` | internal/httpx/middleware/rate_limit.go:62-90 | served in order, otherwise: a run where decisions differ and the burst-plus-rate bound is broken |
| `Eviction.LateEvictionVisible` | internal/httpx/middleware/rate_limit.go:62-90 | served with lateness and two entries or more, otherwise: a run with two clients where decisions differ |
| `Eviction.BurstPlusRateIff` | internal/httpx/middleware/rate_limit.go:62-90 | over all requests with lateness at most some time, the burst-plus-rate bound holds between any two of them if and only if what accrues in the idle time less twice that time is at least the burst, whatever the entry cap |
| `Eviction.AdmitsBeyond` | internal/httpx/middleware/rate_limit.go:62-90 | otherwise: for any amount, a run that admits on one bucket that much more than what accrues from its first request to its last |
| `Eviction.KeptObeysBound` | internal/httpx/middleware/rate_limit.go:62-90 | a limiter that keeps all buckets obeys the bound in every configuration |
| `Eviction.AloneInvisible` | internal/httpx/middleware/rate_limit.go:62-90 | a single client cannot observe evictions if what accrues in the idle time less the lateness is at least the burst, or the burst is one and accrues in exactly the idle time |
| `Eviction.LoneEvictionVisible` | internal/httpx/middleware/rate_limit.go:62-90 | otherwise: a run with one client where decisions differ |
| `Eviction.EvictionInvisibleIff` | internal/httpx/middleware/rate_limit.go:62-90 | over all requests with lateness at most some time and no more clients than entries, eviction cannot be observed if and only if: with two entries or more, what accrues in the idle time less twice that time is at least the burst; with one, what accrues in the idle time less that time is, or the burst is one and accrues in exactly the idle time |
| `Concurrency.Limiter.TryAcquire` | internal/httpx/middleware/concurrency.go:19-20 | admitted exactly when a permit is free, which is then taken |
| `Concurrency.Limiter.Release` | internal/httpx/middleware/concurrency.go:24-25 | one permit fewer in the channel |
| `Concurrency.Limiter.Enter` | internal/httpx/middleware/concurrency.go:19-37 | the first two steps of a request, undisturbed, are those of the interleaving model: permit and gauge, or a recorded rejection |
| `Concurrency.Limiter.Leave` | internal/httpx/middleware/concurrency.go:24-29 | so are the last two: permit back, then gauge down |
| `Concurrency.GaugeAndPermitsAreExact` | internal/httpx/middleware/concurrency.go:13-38 | in every interleaving the gauge is the number of requests between increment and decrement, permits held are the requests holding one and at most the limit, and recorded rejections are refused requests |
| `Concurrency.ClampNeverFires` | internal/observability/metrics.go:145-155 | a request about to decrement finds the gauge positive, one about to release finds a permit |
| `Concurrency.GaugeAgainstLimit` | internal/httpx/middleware/concurrency.go:19-30 | in every interleaving the gauge is the permits taken, more by the requests between release and decrement and less by those between acquire and increment; it exceeds the limit exactly when the former outnumber the latter and the free permits |
| `Concurrency.GaugeExceedsLimit` | internal/httpx/middleware/concurrency.go:24-29 | for every limit and every k there is a run with the gauge k above the limit |
| `Concurrency.QuietMeansEmpty` | internal/httpx/middleware/concurrency.go:13-38 | when all requests are over no permit is held and the gauge is zero |
| `Concurrency.PassesIff` | internal/httpx/middleware/concurrency.go:10-37 | a request on an operational path, or with no limit set, passes and leaves everything alone; any other takes a permit or is turned away |
| `Sessions.MemoryStore.Get` | internal/session/memory.go:22-33 | finds exactly the unexpired record and deletes an expired one |
| `Sessions.MemoryStore.Put` | internal/session/memory.go:35-40 | stores the record under its id |
| `Sessions.MemoryStore.Delete` | internal/session/memory.go:42-47 | removes that id only |
| `Sessions.LifecycleStore.Get` | internal/session/lifecycle.go:16-43 | result and new store are those of the functions the session theorems speak of: dead sessions are deleted and missing, live ones touched when due, and a touch that cannot be written is an error that changes nothing |
| `Sessions.LifecycleStore.Put` | internal/session/lifecycle.go:45-60 | stores the record stamped and cut to the absolute lifetime |
| `Sessions.LifecycleStore.Delete` | internal/session/lifecycle.go:62-64 | removes that id only |
| `Sessions.IdleBounds` | internal/session/lifecycle.go:16-43 | in every run a read succeeds only within the idle time of the last access and within the absolute lifetime, and does succeed within idle time less touch interval |
| `Sessions.TouchesAreThrottled` | internal/session/lifecycle.go:16-43 | writes for one session are at least the touch interval apart |
| `Sessions.AttendedSurvives` | internal/session/lifecycle.go:16-43 | a session visited often enough is not lost before its lifetime ends, whatever else happens |
| `Sessions.GoneForGood` | internal/session/lifecycle.go:16-43 | once a read reports a session missing every later read does, even if deletions are lost, until a login under that id |
| `UserContext.Memory.Get` | internal/cache/memory.go:25-40 | finds exactly the unexpired entry and deletes an expired one |
| `UserContext.Memory.Set` | internal/cache/memory.go:42-51 | stores the value with its expiry |
| `UserContext.Memory.Delete` | internal/cache/memory.go:53-58 | removes that key only |
| `UserContext.CachedResolver.Resolve` | internal/usercontext/user_context.go:39-61 | answer, cache and sessions afterwards are those of the function `Resolved` that the theorems speak of, also when the cache cannot be read or written |
| `UserContext.CachedResolver.Derived` | internal/usercontext/resolver.go:15-48 | the resolver behind the cache, field by field as the source fills the context |
| `UserContext.CacheAgrees` | internal/usercontext/user_context.go:39-61 | after any history and any cache failures the cached answer for a live session is what the plain resolver gives |
| `UserContext.MeIgnoresTheCache` | internal/auth/http.go:104-126 | `GET /api/me` answers exactly as without a cache, also for sessions that have ended |
| `UserContext.AnswerIsOfWhoLoggedIn` | internal/usercontext/resolver.go:15-48 | after any history and cache failures the answer for a live session, and that of `GET /api/me`, has subject, names, email and roles of someone who logged in under that id, and the permissions, capabilities and level the policy rules for that subject and those roles; without a policy none and "authenticated"; an error exactly when the policy fails |
| `UserContext.OldAnswersFade` | internal/usercontext/user_context.go:39-61 | for a session that has ended the resolver answers only from the cache, and only within the cache time, or a minute, after someone resolved it |
| `Login.MemoryFlowStore.Put` | internal/auth/flow_store.go:35-40 | stores the flow under its state |
| `Login.MemoryFlowStore.TakeOnce` | internal/auth/flow_store.go:42-54 | removes the flow and hands it out only before its expiry |
| `Login.StateIsUsedOnce` | internal/auth/service.go:100-157 | in every interleaving a state is exchanged at most once and completes at most one callback |
| `Login.ExchangeMatchesChallenge` | internal/auth/service.go:56-157 | every exchange presents the verifier and nonce drawn with its state, every published URL for that state carries that verifier's challenge and that nonce, and a completed callback returns to the checked address (sections 4.2 and 4.5 of RFC 7636) |
| `LoginTrace.ExchangesAreTheCallbacks` | internal/auth/service.go:56-108 | every exchange of a run presents the state and code of its own callback, neither empty, and the verifier and nonce that a StartLogin of the run drew with that state |
| `LoginTrace.CompletedInTime` | internal/auth/service.go:56-157 | a completed callback returns to the address its StartLogin was given, or "/" for none, and took the flow after it and less than the flow's lifetime later, five minutes unless configured |
| `LoginTrace.FlowIsTakenIff` | internal/auth/flow_store.go:42-54 | a callback whose flow is stored goes on to the exchange exactly when that lifetime is not over, and the flow is gone either way |
| `LoginTrace.UrlsAreTheStarts` | internal/auth/service.go:56-98 | every published URL carries the state and nonce a StartLogin of the run drew and the challenge of the verifier drawn with them, and its flow was stored first |
| `LoginTrace.StoredIsPublished` | internal/auth/service.go:88-98 | a stored flow is published exactly when the provider makes its URL |
| `Login.FailureLeavesASessionIff` | internal/auth/service.go:100-157 | in every interleaving a callback that returned an error has left a session exactly when both its token write and its deletion of the session failed, and never tokens; every stored session and token set belongs to the callback that drew its id |
| `Login.CompletionStoresBoth` | internal/auth/service.go:115-157 | a completed callback has stored its session and its tokens, under an id that it alone drew |
| `Login.SessionIsLeft` | internal/auth/service.go:141-149 | a run in which a failed callback leaves its session |
| `Refresh.MemoryLocker.Ensure` | internal/token/lock.go:20-39 | the first user of a key finds one permit, later ones what is there |
| `Refresh.MemoryLocker.Receive` | internal/token/lock.go:20-39 | succeeds exactly when the channel holds a permit, and takes it |
| `Refresh.MemoryLocker.Unlock` | internal/token/lock.go:20-39 | puts the permit back |
| `Refresh.OneHolderPerSession` | internal/token/lock.go:20-39 | in every interleaving free permits and callers between lock and unlock of a session make one |
| `Refresh.RotationChain` | internal/token/manager.go:35-100 | every refresh token presented comes from the set last written, which is in the refresh window, and is the latest issued for its session unless the write or deletion that followed that issue failed (section 6 of RFC 6749) |
| `Refresh.StaleIff` | internal/token/manager.go:35-100 | with a provider that never reissues, a call presents a token that is not the latest if and only if the write or deletion after the latest issue failed |
| `Refresh.RefreshesAreSpaced` | internal/token/manager.go:35-111 | between two refreshes of a session the set from the first was persisted and entered the refresh window again, or a write or deletion of the session's set failed |
| `Refresh.CallsAreDue` | internal/token/manager.go:63-111 | every call presents a set with an expiry no later than the time of the call plus RefreshBefore, or thirty seconds if that is not set |
| `Refresh.RotatedOutReturnsIff` | internal/token/manager.go:35-100 | with a provider that never reissues, a call presents a token that an earlier call of the session had replaced if and only if the write or deletion after the latest issue failed |
| `Refresh.ReturnedTokensAreGood` | internal/token/manager.go:35-111 | a call that succeeds returns a non-empty access token, written for its own session, unexpired when it was checked |
| `Refresh.LifetimeIsFixed` | internal/token/manager.go:84-122 | no refresh and no activity moves the end of a session or of its token set from login plus maximum lifetime |
| `Refresh.PresentsStored` | internal/token/manager.go:35-100 | a caller alone with a set in the refresh window presents the stored refresh token, whatever the provider answers |
| `Refresh.LostWriteBreaksChain` | internal/token/manager.go:73-99 | from every reachable state with a rotated-out token in the store, one failed save or delete lets the next caller present it |
| `Refresh.ReachRotated` | internal/token/manager.go:35-100 | such states are reachable in every configuration |
| `Refresh.ChainBreaks` | internal/token/manager.go:73-99 | every configuration has a run in which a call presents a token that is not the latest |
| `TokenManager.TokenStore.Get` | internal/token/memory.go:27-38 | finds exactly the unexpired set and deletes an expired one |
| `TokenManager.TokenStore.Put` | internal/token/memory.go:40-45 | stores the set with its expiry |
| `TokenManager.TokenStore.Delete` | internal/token/memory.go:47-52 | removes that session's set only |
| `TokenManager.StoreManager.Invalidate` | internal/token/manager.go:124-129 | token set and session of that id are gone, each unless its deletion fails, and nothing else |
| `TokenManager.StoreManager.IsDue` | internal/token/manager.go:102-111 | the source's window test is the predicate the steps use |
| `TokenManager.StoreManager.SessionExpiry` | internal/token/manager.go:113-122 | the end of the session that a read finds, touched when due; none when the read or the touch fails or the session is dead |
| `TokenManager.StoreManager.Renew` | internal/token/manager.go:60-99 | the part under the lock, whichever store operations fail: the set is looked at again; a usable answer for a live session is merged and stored with the session's end, a failed refresh or a session that cannot be had removes both, a failed write keeps the old set |
| `TokenManager.StoreManager.AccessToken` | internal/token/manager.go:35-100 | stores, locks and answer after an undisturbed call, case by case, the lock free or taken, whichever store operations fail; a lock is made and given back exactly when the call gets as far as refreshing |
| `TokenManager.SoloIsARun` | internal/token/manager.go:35-100 | such a call is a run of the interleaving model, so its theorems apply to it |
| `TokenManager.FreshSetIsReturned` | internal/token/manager.go:40-49 | a set without expiry, or with one later than now plus RefreshBefore or thirty seconds, is handed out; stores and locks stay as they are |
| `TokenManager.FreshCallIsQuiet` | internal/token/manager.go:40-49 | as a run, such a call changes nothing but its caller's position: no call to the provider is logged |
| `TokenManager.GrantIsStored` | internal/token/manager.go:54-100 | within the window, with the lock free, a granted set with an access token and a future expiry is stored for a live session until that session's end, with the old refresh and id token where none came, and its access token is the answer |
| `TokenManager.RefusalForgets` | internal/token/manager.go:70-95 | otherwise, refused, unusable or without a live session, set and session are gone and there is no answer |
| `TokenManager.StoresForLiveSessions` | internal/token/manager.go:88-122 | in any interleaving a caller goes on to store its refreshed set exactly when it can read its session and finds it within its end, the absolute lifetime and the idle time; otherwise it forgets the set |
| `TokenManager.VisitMarksLiveSessions` | internal/session/lifecycle.go:16-43 | another request marks a live session as seen when that is due and neither read nor write fails, and changes nothing else |
| `Lease.RefreshLocker.Poll` | internal/store/redis/refresh_lock.go:13-48 | sets the key only when no live lease is there |
| `Lease.RefreshLocker.Lock` | internal/store/redis/refresh_lock.go:13-48 | the polling loop succeeds at the first poll that finds no live lease, and fails only if every poll finds one |
| `Lease.RefreshLocker.Unlock` | internal/store/redis/refresh_lock.go:13-48 | deletes the key only if it still holds the caller's own value |
| `Lease.ExclusiveWhileInTime` | internal/store/redis/refresh_lock.go:13-48 | in every run two callers within their leases are never inside for one key, and each holds the live lease |
| `Lease.ReleaseIsOwn` | internal/store/redis/refresh_lock.go:13-48 | a release, however late, removes at most the caller's own live lease: every entry with another owner stays, be its owner inside or gone |
| `Lease.OverstayingIsJoined` | internal/store/redis/refresh_lock.go:13-48 | from every reachable state with a caller past its lease another can join it |
| `Lease.AbandonedLeaseHolds` | internal/store/redis/refresh_lock.go:13-48 | a lease whose reply was lost keeps others out until it runs out, and no longer |
| `LeasedRefresh.LeasedRunIsARun` | internal/token/manager.go:54-61 | with the Redis lease as the lock, what any run does to a session whose lease nobody overstays is a run under the in-process lock, whatever happens in other sessions, so all its theorems hold of that session |
| `LeasedRefresh.LeasedRefreshIsSafe` | internal/token/manager.go:35-100 | in particular at most one caller of that session is between lock and unlock, and the rotation chain holds for it |
| `LeasedRefresh.OverstayBreaksChain` | internal/token/manager.go:54-99 | for every lease time shorter than a session, a run without a failed write in which the provider grants a new refresh token to a caller that overstays and the next caller presents the replaced one |
| `Text.TrimSpaceMeans` | internal/runtimecfg/runtime.go:46-52 | trimming removes the white space at both ends and nothing else |
| `Text.SpacesAre` | internal/runtimecfg/runtime.go:46-52 | white space is the code points Go's unicode tables list |
| `Text.LowerMeans` | internal/runtimecfg/runtime.go:52-52 | lower-casing moves A to Z by 32 and leaves the rest of ASCII |
| `Text.SplitJoins` | internal/runtimecfg/runtime.go:51-51 | splitting cuts at every separator and joining gives the text back |
| `Text.JoinSplits` | internal/runtimecfg/runtime.go:175-181 | splitting a joined list of parts without separators gives the parts |
| `RuntimeConfig.ParseRoles` | internal/runtimecfg/runtime.go:45-65 | the loop yields the roles in order of first occurrence, or the first unsupported name |
| `RuntimeConfig.ParseCapList` | internal/runtimecfg/runtime.go:114-134 | the loop yields the capabilities in order of first occurrence, the first unsupported one, or that there is none |
| `RuntimeConfig.ParseGroup` | internal/runtimecfg/runtime.go:88-104 | one group: blank, malformed, for an unselected role, or a role with its list |
| `RuntimeConfig.ParseGroups` | internal/runtimecfg/runtime.go:87-105 | the loop over groups collects them in turn up to the first error |
| `RuntimeConfig.FillDefaults` | internal/runtimecfg/runtime.go:106-110 | roles without a list get their defaults, the others keep theirs |
| `RuntimeConfig.ParseCapabilities` | internal/runtimecfg/runtime.go:67-112 | blank text, the one-role shorthand and the group syntax together |
| `RuntimeConfig.CheckCaps` | internal/runtimecfg/runtime.go:149-156 | accepts exactly a non-empty list of allowed capabilities, with a true error otherwise |
| `RuntimeConfig.Validate` | internal/runtimecfg/runtime.go:136-164 | accepts exactly the valid selections, and its error is true of the selection |
| `RuntimeConfig.ExplainedIsInvalid` | internal/runtimecfg/runtime.go:136-164 | no error is true of a valid selection |
| `RuntimeConfig.DistinctMeans` | internal/runtimecfg/runtime.go:49-59 | removing duplicates keeps exactly the elements, once each |
| `RuntimeConfig.DistinctInOrder` | internal/runtimecfg/runtime.go:49-59 | and orders them by first occurrence |
| `RuntimeConfig.FirstErrorDecides` | internal/runtimecfg/runtime.go:87-105 | groups fail with the error of the first that fails, and succeed only if none does |
| `RuntimeConfig.LastGroupWins` | internal/runtimecfg/runtime.go:87-105 | a role is configured by the last group naming it and by nothing else |
| `RuntimeConfig.TablesAreSound` | internal/runtimecfg/runtime.go:23-35 | every role's defaults are a valid list without repetitions |
| `RuntimeConfig.ParsedIsValid` | internal/runtimecfg/runtime.go:45-164 | for every pair of texts, what both parsers accept the validator accepts, and no list repeats a capability |
| `RuntimeConfig.ParsedIsValidIn` | internal/runtimecfg/runtime.go:45-164 | the same for any tables whose defaults are valid lists |
| `RuntimeConfig.RolesRoundTrip` | internal/runtimecfg/runtime.go:175-181 | joining the names of a parsed role list with commas parses back to the same list |
| `RuntimeConfig.CapabilitiesRoundTripIn` | internal/runtimecfg/runtime.go:67-112 | writing the capabilities of a valid selection as groups and parsing the text gives them back |
| `RuntimeConfig.EverySelectionHasAText` | internal/runtimecfg/runtime.go:67-112 | every valid selection without repeated capabilities is what some pair of texts parses to |
| `Spelling.RolesIgnoreCase` | internal/runtimecfg/runtime.go:45-65 | texts that differ only in the case of letters give the same roles |
| `Spelling.CapabilitiesIgnoreCase` | internal/runtimecfg/runtime.go:67-134 | and the same capabilities, in the shorthand and in groups |
| `Spelling.AllowedIff` | internal/runtimecfg/runtime.go:23-28 | which capabilities each role may list |
| `StorageReady.CheckSigner` | internal/roleruntime/server.go:204-213 | accepts exactly a signer with the interfaces the listed capabilities call for, with a true reason otherwise |
| `StorageReady.ProviderNames` | internal/roleruntime/server.go:191-198 | the loop fills the set of providers the targets name |
| `StorageReady.CheckProviders` | internal/roleruntime/server.go:199-214 | passes exactly when every named provider has a fitting signer |
| `StorageReady.ValidateProvidersReady` | internal/roleruntime/server.go:173-216 | passes exactly when every signer the targets name fits, and otherwise blames one of those truthfully |
| `StorageReady.BlamedIsUnfit` | internal/roleruntime/server.go:173-216 | no reason is true of a signer that fits |
| `StorageReady.ValidateParts` | internal/roleruntime/server.go:655-678 | accepts exactly the lists of 1 to 10000 parts with distinct numbers in range and tags that are not blank, and trims the tags |
| `StorageReady.ReadyFindsASigner` | internal/roleruntime/server.go:154-216 | once ready, every accepted request on an enabled route finds a signer supporting its capability |
| `StorageReady.ReadyIsUnavailableIff` | internal/roleruntime/server.go:770-828 | a ready instance answers 503 before the provider is called if and only if an accepted request whose route finds its own fields in order, of an identified caller, for a target it may use that way, meets a policy that fails |
| `StorageReady.ReadyYetUnavailable` | internal/roleruntime/server.go:812-822 | an instance that is ready and answers 503 |
| `StorageReady.OneEntryServes` | internal/roleruntime/server.go:726-783 | in target mode, on every route, the bucket used, the target authorized and the provider called come from one registry entry |
| `StorageReady.ServedIff` | internal/roleruntime/server.go:154-171 | every accepted request on every enabled route finds a fitting signer if and only if no route is enabled, no lifetime is acceptable, or every signer behind a nameable target fits |
| `StorageReady.ReadinessIsExact` | internal/roleruntime/server.go:173-216 | the readiness check passes if and only if the signers behind nameable and unnameable targets fit; where routes are enabled and lifetimes acceptable, if and only if every accepted request is served and the targets no request can name fit as well |
| `StorageReady.SomeLifetimeMeans` | internal/roleruntime/server.go:748-761 | some request has an acceptable lifetime if and only if the default one fits the maximum or the maximum is at least 512 nanoseconds, the shortest that wraps around |
| `StorageReady.ServedYetUnready` | internal/storagetarget/registry.go:26-37 | an instance that serves every accepted request and is not ready, for a target name with outer spaces |
| `StorageReady.LifetimeIsBounded` | internal/roleruntime/server.go:748-761 | an accepted lifetime is positive and within the maximum, and is the one asked for exactly when it fits 64 bits |
| `StorageReady.LongLifetimeIsAccepted` | internal/roleruntime/server.go:752-761 | a request for 2^55 + 1 seconds is accepted as one second |
| `StorageRoutes.ValidateRequest` | internal/roleruntime/server.go:726-768 | the validation in source order is the function the theorems speak of |
| `StorageRoutes.Authorize` | internal/roleruntime/server.go:770-828 | so is the authorization |
| `StorageRoutes.RequiresProvider` | internal/roleruntime/server.go:218-226 | true exactly when a listed capability needs a provider |
| `StorageRoutes.CheckReady` | internal/roleruntime/server.go:124-140 | the readiness handler in source order is the predicate the theorems speak of |
| `StorageRoutes.AcceptedIff` | internal/roleruntime/server.go:726-768 | accepted are exactly the requests for a known target, or a bucket where there are none, with a trimmed key that is not empty, does not start with a slash and has neither two dots in a row nor a backslash, and a lifetime above zero and at most the maximum, or an hour; and what is passed on |
| `StorageRoutes.WrapMeans` | internal/roleruntime/server.go:752-754 | a product is off by a multiple of 2^64, and exact when it fits |
| `StorageRoutes.ReadOnlyIsNotWritten` | internal/roleruntime/server.go:776-783 | for a read-only target no upload, upload intent, multipart step or presigned put or upload gets through to a provider |
| `StorageRoutes.ReadsIgnoreMarks` | internal/roleruntime/server.go:776-783 | the outcome of downloads, metadata, references, verification and presigned downloads does not depend on which targets are read-only |
| `StorageRoutes.CallsIff` | internal/roleruntime/server.go:237-640 | with targets, the exact condition for a provider to be called, route by route: which write, what each asks the policy, which interface each needs; and which provider is called with what |
| `StorageRoutes.ProviderOfTarget` | internal/roleruntime/server.go:154-171 | the provider behind a target is registered under the trimmed name the target gives, or is the one signer |
| `StorageRoutes.OpenCallsIff` | internal/roleruntime/server.go:154-171 | without targets nobody is asked, and the one signer or the provider "default" serves |
| `StorageRoutes.EnabledIff` | internal/roleruntime/server.go:228-237 | which capability switches each route on |
| `StorageRoutes.BadFieldsAreMalformed` | internal/roleruntime/server.go:256-600 | an unknown operation, a blank upload id, a part number outside 1 to 10000, no or too many parts, a blank target of an intent, a negative size or a blank checksum are refused as malformed |
| `StorageRoutes.OtherFieldsAreInOrder` | internal/roleruntime/server.go:256-678 | and nothing else is |

## Left out

- HTTP routing, headers, cookies, JSON, logging, audit and trace propagation: plumbing around the modelled logic.
- OIDC token verification, hashing, random values and UUIDs: the PKCE challenge is a parameter, and states, session ids and lease values are any values not drawn before.
- Clocks: readings are parameters.  A session operation and an undisturbed `AccessToken` call use one reading each; the interleaved models read the clock at every step.
- Floating point: token levels and rates are real numbers, so rounding is not captured.
- Metrics.Registry.RecordOutbound: counts per outcome; the service and method labels and the duration histogram are not modelled, because one client of one service is.
- Metrics.Registry.RecordOutboundRejected: counts per reason; the service label is not modelled.
- Nil collaborators (no metrics, no locker, no session store): the wired configuration is modelled.
- The Redis stores except the refresh lock, and its network errors beyond a lost reply and a lost release.
- Logout, the streaming and WebSocket roles, the API proxy and coarse authorization are outside the scope of this model.
- Storage identity extraction and the access policy: whether a caller is identified and what the policy says of an action on a target are parameters.
- Parsing of the storage target JSON: the registry is a parameter.
- Invalid UTF-8 in configuration text: strings are sequences of characters, and lower-casing outside ASCII is a parameter.
- Context cancellation inside the provider call and the backoff sleep of the client: the reply or error is a parameter.
- Sessions.LifecycleStore.Get: the deletion of a dead session inside a read does not fail in this method; in the runs it may (`Visit`).
- StorageReady.ValidateProvidersReady: which of several true reasons is reported depends on map order and is left open.
- RuntimeConfig.Validate: which of several true errors about unselected roles is reported depends on map order and is left open.
