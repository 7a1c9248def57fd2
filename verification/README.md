# A verified model of the Atlas-MCP call guards

Atlas-MCP puts every tool call of an agent through a chain of stateful guards: policy, a
per-tenant token bucket, a human approval gate, a two-tier cache with single-flight, a timeout
budget, a circuit breaker per tool, and retries. This project models each guard as a state
machine over time-stamped steps, proves what its runs keep, and then composes them the way
`dispatch` does and proves what the whole server keeps in every interleaving of calls.

Run `dafny verify dfyconfig.toml` in this directory.

## How the model is organised

- **Steps.** A coroutine of the server runs uninterrupted between two real suspensions, so each
  such stretch is one step. `CircuitBreaker.call` suspends only while the function it wraps is
  awaited: its two halves are `Enter` and `Finish`. `get_or_compute` suspends only while it
  computes or sleeps: its stretches are `Arrive`, a wake-up, and `Complete`. No lock in these
  modules is ever held across a suspension, so locks are never contended and are not modelled.
- **Classes and functions.** State the source updates in place is a class (`L1Cache`,
  `InMemoryL2`, `CacheManager`, `CircuitBreaker`, `InMemoryTokenBucket`, `RedisTokenBucket`,
  `InMemoryApprovalStore`, `ApprovalGate`, `LatencyTracker`, `BudgetContext`, `ATBA`,
  `CircuitBreakerRegistry`, `AtlasServer`). Each method is
  proved equal to a function on values, stated above the class; the run theorems are about
  those functions.
- **Runs.** A run is a sequence of states joined by enabled events, with times that never go
  back unless a lemma says otherwise. Theorems quantify over all runs.
- **The server.** `ServerRuns` embeds the cache-caller system and one breaker system per tool.
  `ServerParts` proves that what a server run does to either is a run of that component, so all
  the component theorems carry over. `ServerSafety`, `ServerLocks`, `ServerCache`,
  `ServerAccounts`, `ServerLoad`, `ServerRecovery`, `ServerRecords`, `ServerRefusals` and
  `ServerAccess` use this. A stretch of `dispatch` may be split
  into several server events; that only adds runs. `ServerScenes` builds concrete runs;
  `ServerWitnesses`, `ServerOutage`, `ServerStampede`, `ServerInvalidation` and `ServerLeaks` use
  them for the negative halves of the theorems and to show premises can be met.

Files by subject: `Errors`; `Spacing`; `CircuitBreaker`, `BreakerRuns`, `BreakerRecovery`; `L1Cache` (module `Lru`),
`LruInclusion`, `LruRecency`; `CacheKeys`, `CacheManager`, `CacheFacts`, `CacheTiers`, `CacheFreshness`, `SingleFlight`,
`CacheAge`, `CacheTransparency`; `TokenBucket`, `BucketRuns`, `BucketLaw`; `PolicyEngine`; `Approval`;
`Sorting`, `RankFusion`; `Atba`; `Retry`; `Server`, `ServerRuns`, `ServerParts`, `ServerSafety`,
`ServerLocks`, `ServerCache`, `ServerAccounts`, `ServerLoad`, `ServerAccess`, `ServerScenes`,
`ServerWitnesses`, `ServerOutage`, `ServerStampede`, `ServerInvalidation`, `ServerLeaks`,
`ServerRecovery`, `ServerRecords`, `ServerRefusals`.

## Where the code does less than its documentation says

Each line names the exact condition under which the documented claim holds, and the run that
breaks it.

- "One probe is allowed through" (`src/atlas_mcp/reliability/circuit_breaker.py:8`) holds exactly when the
  breaker never half-opens with a call in flight (`ExclusiveIffDrained`; in the server, with a call of the tool
  executing: `ProbesExclusiveIff`). Calls shorter than the recovery time ensure it, and calls of exactly that
  length do not (`ProbesOverlapAtTheBound`). In the server it is enough that the timeouts a tool is allotted stay
  below the recovery time (`ProbesExclusive`), which `TimeoutWithin` decides from the tool's samples.
- ATBA is said to divide 30 seconds across a turn's calls (`docs/architecture/request-pipeline.md:257`).
  The server never begins a budget, and without one nothing caps the timeout: a tool that never answers is
  launched with a timeout beyond any bound, its breaker as good as new all along (`HungToolOutgrows`). A timeout
  is within a cap exactly when the tool's samples say so (`TimeoutWithin`).
- The breaker is said to open after "5 consecutive retryable errors" (`docs/architecture/components.md:201`).
  A success in between resets nothing (`SuccessDoesNotReset`); the exact condition is `TripMeansThreshold`.
- `trips` is commented as the count of transitions to OPEN (`src/atlas_mcp/reliability/circuit_breaker.py:52`).
  It is that count exactly when no late failure re-arms an open breaker (`TripsCountOpenings`), which happens
  (`LateFailureCounts`).
- "Only one should recompute" (`src/atlas_mcp/cache/manager.py:9-10`): a waiter gives up after 40 sleeps of 25 ms.
  Over all calm runs with computations below a bound it holds exactly when the bound is at most that one second
  (`ComputedOnceIff`; in the server, `ExecutedOnceIff`). A tool without samples is allotted 7.5 s, and two of its
  calls do execute, on time and with no lock expired (`ImpatientCallExecutes`).
- An invalidation does not stop a call that executes from storing what it is about to return
  (`src/atlas_mcp/cache/manager.py:161-186`). Whatever is answered afterwards comes from calls launched since,
  however the run goes on, exactly when no call of the key whose value would be stored with a lifetime that is not
  negative executes at the time (`InvalidationHoldsIff`); otherwise the old value can come back
  (`LateWriteSurvives`).
- "No cross-tenant collision" (`docs/architecture/request-pipeline.md:214`): two tenants can share a key, and one
  can be answered with the other's result, exactly when one's name goes on from the other's with a colon
  (`TenantsShareIff`, `LeakIff`; in runs of the server, `ServerLeakIff`), and then only under a tool with a colon in
  its name. With colon-free tools, which
  the registered ones are, tenants are separated whatever their names (`KeyInjective`, `RepliesGenuine`); but even
  then invalidating a tenant drops the keys of tenants whose names go on from its own with a colon
  (`TenantPrefixReaches`, `InvalidationOverstepsIff`). The limiter's keys and the approval ids behave alike
  (`LimiterKeysEqualIff`, `ApprovalIdsEqualIff`).
- The limiter's window bound of capacity plus refill needs more than a wall clock promises
  (`src/atlas_mcp/ratelimit/limiter.py:49-58`). It holds for all quotas and costs exactly when from the first call on
  the clock moves forward no more than the window is long (`SteadyClockIff`); a clock that goes back and forth
  admits more (`BackwardClockOverAdmits`).
- The breaker guards launches, not attempts. No attempt of a tool ever starts while its breaker is open if and only
  if calls are not retried (`NeverLateIff`); late attempts are retries of calls launched before the breaker
  opened, never of destructive tools (`LateAttemptsAreRetries`).
- The cache comment bounds staleness by the L2 ttl (`src/atlas_mcp/cache/manager.py:192-193`). That holds exactly
  when L1 holds nothing or its ttl is not positive (`DocumentedBoundIff`). Otherwise the bound is the sum of
  both ttls (`Freshness`), and it is reached (`StalenessReached`).
- The stampede lock has no owner token: a holder that outlives it releases its successor's lock
  (`StrangersRelease`). Two calls never hold a key's lock exactly when none begins at a miss while a holder is
  5 s old or more (`LocksExclusiveIff`). On a tool with fewer than twenty samples, allotted 7.5 s, that happens
  (`FreshToolSharesLock`); calls of a key allotted less than 5 s are safe (`LocksExclusive`), and a warmed tool
  allots them less (`WarmToolMeetsPremise`).
- Rules scoped to a tenant can admit exactly the requests whose full resource begins with the tenant's scope
  (`ScopeAdmitsIff`), so a tenant name with a slash escapes (`SlashEscapes`).
- The open breaker is documented as an `UpstreamError` (`docs/architecture/request-pipeline.md:184`); the code
  raises `CircuitOpenError`, and so does the model.
- Fusion does not always rank documents found by both retrievers first: exactly when the lists are shorter
  than `rrf_k + 2` (`BothFirstIff`). The input schema also allows `top_k` 50 with `rrf_k` 10, which is not.

## Model

| member | source | states |
|---|---|---|
| CircuitBreaker.CircuitBreaker.CheckTransitions | src/atlas_mcp/reliability/circuit_breaker.py:86-95 | half-opens an open breaker once the recovery time has passed and pops every leading stale failure; nothing else changes |
| CircuitBreaker.CircuitBreaker.OnFailure | src/atlas_mcp/reliability/circuit_breaker.py:97-113 | only retryable upstream failures count; in HALF_OPEN, or at the threshold in any state, the breaker (re)opens, clears its window and counts a trip |
| CircuitBreaker.CircuitBreaker.OnSuccess | src/atlas_mcp/reliability/circuit_breaker.py:115-119 | closes a half-open breaker with an empty window; otherwise changes nothing |
| CircuitBreaker.CircuitBreaker.Enter | src/atlas_mcp/reliability/circuit_breaker.py:54-65 | the admission (rejected, ordinary, probe) and the whole new state, as the first half of `call` |
| CircuitBreaker.CircuitBreaker.Finish | src/atlas_mcp/reliability/circuit_breaker.py:65-80 | the whole new state for every way the awaited function can end; the probe always lowers the flag |
| BreakerRuns.ExclusiveIffDrained | src/atlas_mcp/reliability/circuit_breaker.py:54-119 | throughout a run the flag is up exactly when one probe is in flight, in HALF_OPEN and alone, if and only if the breaker only half-opens with nothing in flight |
| BreakerRuns.ShortCallsExclusive | src/atlas_mcp/reliability/circuit_breaker.py:54-119 | in every interleaving where calls last less than the recovery time, the probe is exclusive |
| BreakerRuns.ProbesOverlapAtTheBound | src/atlas_mcp/reliability/circuit_breaker.py:88-92 | that bound is tight: calls lasting exactly the recovery time let two probes overlap |
| BreakerRuns.OpenAdmitsNothing | src/atlas_mcp/reliability/circuit_breaker.py:57-58 | while the breaker is open, everything in flight started no later than it opened |
| BreakerRuns.NoStartDuringRecovery | src/atlas_mcp/reliability/circuit_breaker.py:54-113 | no function starts within the recovery time of any trip, whatever the calls in flight do |
| BreakerRuns.OutageSpacing | src/atlas_mcp/reliability/circuit_breaker.py:57-113 | once tripped, if every probe fails and calls are short, successive starts are a recovery time apart |
| BreakerRuns.OutageLoad | src/atlas_mcp/reliability/circuit_breaker.py:57-113 | so at most floor(L / recovery) + 1 functions start among events spanning L seconds |
| BreakerRuns.WindowRefinement | src/atlas_mcp/reliability/circuit_breaker.py:86-119 | the deque is always sorted and below the threshold, and while CLOSED equals the counted failures since the last close that the latest entry saw in the window |
| BreakerRuns.TripMeansThreshold | src/atlas_mcp/reliability/circuit_breaker.py:97-113 | while CLOSED, an event opens the breaker if and only if it is a counted failure that brings those to the threshold, met exactly |
| BreakerRuns.SuccessDoesNotReset | src/atlas_mcp/reliability/circuit_breaker.py:115-119 | two failures with a success in between still trip a threshold of two: the documented "consecutive" is not what the code does |
| BreakerRuns.TripsCountOpenings | src/atlas_mcp/reliability/circuit_breaker.py:52-113 | `trips` equals the transitions into OPEN if and only if no late failure re-armed an open breaker, and is never below |
| BreakerRuns.LateFailureCounts | src/atlas_mcp/reliability/circuit_breaker.py:97-113 | a run with a re-arm: two trips counted, one opening |
| BreakerRuns.StaysClosed | src/atlas_mcp/reliability/circuit_breaker.py:86-113 | in any run without a counted failure the breaker stays as built and turns no call away |
| BreakerRecovery.ClosesIff | src/atlas_mcp/reliability/circuit_breaker.py:115-119 | over every run, a breaker that is not CLOSED closes if and only if a probe in flight returns a value while it is HALF_OPEN, and then with an empty window |
| BreakerRecovery.ReopensIff | src/atlas_mcp/reliability/circuit_breaker.py:97-108 | a half-open breaker opens if and only if a call ends in a retryable upstream failure, probe or not |
| BreakerRecovery.HalfOpensIff | src/atlas_mcp/reliability/circuit_breaker.py:86-89 | it half-opens if and only if a call comes to it open, the recovery time after it opened |
| BreakerRecovery.TurnedAwayIff | src/atlas_mcp/reliability/circuit_breaker.py:54-65 | in any run an entry is turned away if and only if the breaker is open and its last trip is less than the recovery time ago, or half-open with its flag up |
| BreakerRecovery.TurnedAwayByProbe | src/atlas_mcp/reliability/circuit_breaker.py:54-65 | with calls shorter than the recovery time the second case is: a probe is in flight |
| BreakerRecovery.SuccessRestores | src/atlas_mcp/reliability/circuit_breaker.py:54-119 | after a probe that returns, every entry starts its function, as no probe, until the breaker next trips |
| BreakerRecovery.Recovers | src/atlas_mcp/reliability/circuit_breaker.py:54-119 | if the breaker only half-opens with nothing in flight, a call that comes the recovery time after the last trip starts, and when it returns the breaker closes |
| BreakerRecovery.RecoveryHappens | src/atlas_mcp/reliability/circuit_breaker.py:54-119 | such a run, with two calls served at once right after the probe |
| Lru.L1Cache.Get | src/atlas_mcp/cache/l1.py:32-41 | the hit and the whole new store: an expired entry is dropped, a live one becomes the newest |
| Lru.L1Cache.Set | src/atlas_mcp/cache/l1.py:43-48 | the entry becomes the newest and the oldest beyond the capacity are evicted |
| Lru.L1Cache.Delete | src/atlas_mcp/cache/l1.py:50-52 | removes exactly that key, order of the rest unchanged |
| Lru.L1Cache.DeletePrefix | src/atlas_mcp/cache/l1.py:54-59 | removes exactly the matching keys, order of the rest unchanged, and counts them |
| Lru.L1Cache.Matching | src/atlas_mcp/cache/l1.py:56 | the matching keys, each once |
| Lru.L1Cache.Len | src/atlas_mcp/cache/l1.py:61-62 | the number of entries, expired ones included, never above the capacity |
| LruInclusion.Inclusion | src/atlas_mcp/cache/l1.py:32-59 | the same operations on capacities n <= m keep the small store an ordered subsequence of the big one with equal entries, sizes at most m - n apart, on any clock |
| LruInclusion.NoHitLost | src/atlas_mcp/cache/l1.py:32-48 | raising the capacity never loses a hit and never changes its value |
| LruRecency.HeldIffKept | src/atlas_mcp/cache/l1.py:32-59 | after any operations, at any times, the cache holds a key if and only if it has been set or hit, not removed since, and fewer other keys than it has places have ever been in use at once since its last use; all read off the log |
| LruRecency.AnswersByTheLog | src/atlas_mcp/cache/l1.py:32-41 | a get answers with the value last set, if and only if the key is so kept and has not expired |
| LruRecency.OrderOfUse | src/atlas_mcp/cache/l1.py:40-46 | the store is in the order of last use |
| LruRecency.EvictsLeastRecent | src/atlas_mcp/cache/l1.py:43-48 | setting a new key on a full cache evicts one key, that whose last set or hit is the oldest |
| CacheKeys.TenantPrefixExact | src/atlas_mcp/tools/base.py:64-74 | with colon-free names the tenant prefix matches exactly that tenant's keys |
| CacheKeys.ToolPrefixExact | src/atlas_mcp/tools/base.py:64-74 | with colon-free names the tool prefix matches exactly that tenant's and tool's keys |
| CacheKeys.KeyInjective | src/atlas_mcp/tools/base.py:64-74 | with colon-free tools, whatever the tenants, equal keys mean equal tenant, tool and arguments |
| CacheKeys.KeysEqualIff | src/atlas_mcp/tools/base.py:64-74 | for any names, keys are equal if and only if tenant and tool joined by a colon spell the same and the arguments are the same |
| CacheKeys.TenantsShareIff | src/atlas_mcp/tools/base.py:64-74 | two tenants can share a key, under some tools, if and only if one's name goes on from the other's with a colon |
| CacheKeys.TenantPrefixReaches | src/atlas_mcp/tools/base.py:64-74 | with colon-free tools a tenant's prefix matches exactly the keys of the tenant, of tenants whose names go on from it with a colon, and of a tool whose full name it spells |
| CacheKeys.ToolPrefixReaches | src/atlas_mcp/tools/base.py:64-74 | with colon-free tools a tool's prefix matches exactly what the prefix of a tenant of its full name does |
| CacheKeys.ColonsCollide | src/atlas_mcp/tools/base.py:64-74 | with colons two tenants share a key, and one tenant's prefix covers another's |
| CacheManager.InMemoryL2.Get | src/atlas_mcp/cache/manager.py:42-50 | a live value, or none with the expired entry dropped |
| CacheManager.InMemoryL2.Set | src/atlas_mcp/cache/manager.py:52-53 | the entry with its expiry, others unchanged |
| CacheManager.InMemoryL2.Delete | src/atlas_mcp/cache/manager.py:55-56 | the store without the key |
| CacheManager.InMemoryL2.DeletePrefix | src/atlas_mcp/cache/manager.py:58-62 | removes exactly the matching keys and returns their number |
| CacheManager.InMemoryL2.AcquireLock | src/atlas_mcp/cache/manager.py:64-70 | acquired if and only if free or expired, then held for its time to live |
| CacheManager.InMemoryL2.ReleaseLock | src/atlas_mcp/cache/manager.py:72-73 | removes the lock whoever holds it |
| CacheManager.CacheManager.Get | src/atlas_mcp/cache/manager.py:138-149 | answer, promotion, counters and both tiers after a read |
| CacheManager.CacheManager.Set | src/atlas_mcp/cache/manager.py:151-155 | both tiers after a write, with the effective lifetimes |
| CacheManager.CacheManager.Delete | src/atlas_mcp/cache/manager.py:157-159 | both tiers without the key |
| CacheManager.CacheManager.InvalidatePrefix | src/atlas_mcp/cache/manager.py:210-212 | both tiers without the prefix; returns the number removed from L2 only |
| CacheManager.CacheManager.InvalidateTool | src/atlas_mcp/cache/manager.py:202-212 | both tiers without the tool's prefix; returns the number removed from L2 |
| CacheManager.CacheManager.InvalidateTenant | src/atlas_mcp/cache/manager.py:206-212 | both tiers without the tenant's prefix; returns the number removed from L2 |
| CacheManager.CacheManager.Arrive | src/atlas_mcp/cache/manager.py:161-170 | `get_or_compute` up to its first suspension: hit, compute under the lock, or wait |
| CacheManager.CacheManager.Complete | src/atlas_mcp/cache/manager.py:171-186 | its end: a success is stored, a failure is not, the holder releases the lock either way |
| CacheFacts.GetAnswer | src/atlas_mcp/cache/manager.py:138-149 | a read answers exactly when one tier is live, with a value that tier holds |
| CacheTiers.SetFillsBoth | src/atlas_mcp/cache/manager.py:151-155 | a write leaves the value in the second tier for its lifetime and newest in the first for the shorter of both |
| CacheTiers.ReadFillsFirst | src/atlas_mcp/cache/manager.py:138-149 | a read that only the second tier answers leaves the value newest in the first tier, for that tier's own lifetime |
| CacheTiers.MissClears | src/atlas_mcp/cache/manager.py:138-149 | a read that finds nothing leaves nothing under the key in either tier |
| CacheTiers.CountersCount | src/atlas_mcp/cache/manager.py:138-149 | after any operations the counters are the reads that were answered and those that were not |
| CacheFreshness.Freshness | src/atlas_mcp/cache/manager.py:138-159 | after any operations a get returns only the value of the standing write, always up to write + L2 ttl whatever L1 evicted, never after write + L2 ttl + L1 ttl, and not at all if the L2 ttl is negative |
| CacheFreshness.StalenessReached | src/atlas_mcp/cache/manager.py:145 | the bound of `Freshness` is reached: a value is served at write + L2 ttl + L1 ttl |
| CacheFreshness.DocumentedBoundIff | src/atlas_mcp/cache/manager.py:138-155 | over all operations and times nothing is served past the L2 ttl if and only if L1 holds nothing or its ttl is not positive |
| CacheFreshness.InvalidateTenantReaches | src/atlas_mcp/cache/manager.py:206-212 | with colon-free tools, whatever the tenants, exactly the keys in the tenant's reach leave both tiers; the others keep value, expiry and order |
| CacheFreshness.InvalidateToolReaches | src/atlas_mcp/cache/manager.py:202-212 | the same for the reach of one tenant's tool |
| CacheFreshness.InvalidationOverstepsIff | src/atlas_mcp/cache/manager.py:206-212 | with colon-free tools, invalidating one tenant can drop a key of another if and only if the other's name goes on from its own with a colon, or its own goes on from the other's with one colon |
| CacheFreshness.InvalidateTenantExact | src/atlas_mcp/cache/manager.py:206-212 | with colon-free names too exactly the tenant's keys leave both tiers, and they are counted |
| CacheFreshness.InvalidateToolExact | src/atlas_mcp/cache/manager.py:202-212 | the same for one tenant's tool |
| CacheFreshness.MatchedCount | src/atlas_mcp/cache/manager.py:58-62 | the returned count is by how much L2 shrank |
| SingleFlight.ExclusiveIffNoLateArrival | src/atlas_mcp/cache/manager.py:64-73 | with failures, fallbacks, cancellations and invalidations, two callers never hold one key's lock if and only if nobody misses while a holder has computed for the lock's time to live |
| SingleFlight.ShortComputesExclusive | src/atlas_mcp/cache/manager.py:161-186 | computations under the lock's time to live never let two callers hold it |
| SingleFlight.StrangersRelease | src/atlas_mcp/cache/manager.py:72-73 | a slow holder releases its successor's lock, so two callers hold it well within their time |
| SingleFlight.ComputedOnce | src/atlas_mcp/cache/manager.py:161-186 | from a miss, in a calm episode, any number of callers in any interleaving compute exactly once and all return that value |
| SingleFlight.PatienceRunsOut | src/atlas_mcp/cache/manager.py:122-124 | the duration bound of that theorem is tight: at 40 x 25 ms the value is computed twice |
| SingleFlight.ComputedOnceIff | src/atlas_mcp/cache/manager.py:161-186 | over all runs from a miss, calm and with computations below a bound, at most one caller computes if and only if the bound is at most a waiter's patience |
| CacheAge.TiersFollowOps | src/atlas_mcp/cache/manager.py:138-186 | in every interleaving of callers the two tiers are what the plain operations of their events leave |
| CacheAge.AnswersAreFresh | src/atlas_mcp/cache/manager.py:138-186 | so every answer in an interleaving was written by some event no longer ago than both ttls, and no event since has written, deleted or invalidated the key |
| CacheTransparency.SharesKey | src/atlas_mcp/server.py:162-172 | from an empty cache, in any interleaving and whatever the names, a cacheable call returns what some dispatched request with its own key produced |
| CacheTransparency.Transparent | src/atlas_mcp/server.py:162-172 | with colon-free tools, whatever the tenants, that is what that tool's execute produced for the same tenant and arguments |
| CacheTransparency.ColonsLeak | src/atlas_mcp/tools/base.py:64-74 | for any two tenants, one's name going on from the other's with a colon, a run that answers one with the other's result |
| CacheTransparency.LeakIff | src/atlas_mcp/server.py:162-172 | some run of dispatched calls answers one tenant with another's result if and only if one's name goes on from the other's with a colon |
| TokenBucket.InMemoryTokenBucket.Consume | src/atlas_mcp/ratelimit/limiter.py:49-63 | verdict and new buckets as functions of the stored bucket and the time |
| TokenBucket.RedisTokenBucket.Evalsha | src/atlas_mcp/ratelimit/limiter.py:66-94 | the script's verdict and stored hash, including its hour of idle expiry; at a zero rate the wait is whatever the reply makes of infinity |
| TokenBucket.RedisTokenBucket.RunScript | src/atlas_mcp/ratelimit/limiter.py:77-89 | the script's arithmetic computes the same bucket and verdict as the in-memory one |
| TokenBucket.RateLimiter.Acquire | src/atlas_mcp/ratelimit/limiter.py:149-164 | the tool's quota applied to the (tenant, tool) bucket; the error carries retry-after in seconds |
| BucketRuns.RefillComposes | src/atlas_mcp/ratelimit/limiter.py:52-54 | capped refill over two stretches equals refill over both |
| BucketRuns.AdmissionBound | src/atlas_mcp/ratelimit/limiter.py:49-63 | over any run with nondecreasing time, the cost admitted to a tenant on a tool in any window is at most the capacity plus the refill over the window |
| BucketLaw.PassesIffItFits | src/atlas_mcp/ratelimit/limiter.py:49-63 | over every run with nondecreasing time a call is admitted if and only if its cost fits into the capacity and, with all that was admitted on its key from any earlier call on, into the capacity and what the time since that call refills |
| BucketLaw.LevelIff | src/atlas_mcp/ratelimit/limiter.py:49-58 | the tokens there are at a time are the least such room |
| BucketLaw.GainIsRefill | src/atlas_mcp/ratelimit/limiter.py:52-54 | what a stretch refills is its milliseconds times the refill per minute over 60 000 |
| BucketLaw.ExpensiveTools | src/atlas_mcp/ratelimit/limiter.py:128-147 | three calls of customer.build_context at once and the next exactly from six seconds on, thirty of either search and the next from half a second on, whatever the default |
| BucketLaw.BurstPasses | src/atlas_mcp/ratelimit/limiter.py:49-63 | of n calls at one time as many are admitted as the capacity |
| BucketRuns.NeverRefilled | src/atlas_mcp/ratelimit/limiter.py:60-63 | a bucket that does not refill turns what does not fit away for good, each time for an hour |
| BucketRuns.ForwardBound | src/atlas_mcp/ratelimit/limiter.py:53-58 | on any clock at all, a stored bucket admits at most its tokens plus the refill of the clock's forward moves |
| BucketRuns.BackwardClockOverAdmits | src/atlas_mcp/ratelimit/limiter.py:53-58 | a clock that goes back admits three calls where the window bound allows two |
| BucketRuns.SteadyKeepsBound | src/atlas_mcp/ratelimit/limiter.py:49-63 | a clock whose forward moves from the first call on sum to no more than the window keeps the window bound, for any quota and costs |
| BucketRuns.SteadyClockIff | src/atlas_mcp/ratelimit/limiter.py:49-63 | for given times of calls within a window, the window bound holds for all quotas and costs if and only if those moves sum to no more than the window |
| BucketRuns.TokensInRange | src/atlas_mcp/ratelimit/limiter.py:49-63 | stored tokens stay in [0, capacity] over every run, on any clock |
| BucketRuns.LimiterKeysEqualIff | src/atlas_mcp/ratelimit/limiter.py:156 | for any names, limiter keys are equal if and only if tenant and tool joined by a colon spell the same |
| BucketRuns.LimiterKeyInjective | src/atlas_mcp/ratelimit/limiter.py:156 | with colon-free tenants, or colon-free tools, a key names one tenant and one tool |
| BucketRuns.RetryAfterExact | src/atlas_mcp/ratelimit/limiter.py:52-63 | after a denial, with any denied polls in between, the same request is admitted at exactly the milliseconds from now + retry-after on |
| BucketRuns.RetryPromiseKept | src/atlas_mcp/ratelimit/limiter.py:60-63 | the announced retry succeeds if and only if the cost fits the capacity and the bucket refills |
| BucketRuns.BackendsAgree | src/atlas_mcp/ratelimit/limiter.py:49-94 | both backends answer alike on every run with nondecreasing time if and only if an hour fills the bucket |
| PolicyEngine.Check | src/atlas_mcp/auth/policy.py:47-71 | the decision is the declarative one on the set of rules; a denial names the first denying rule |
| PolicyEngine.DecisionMeans | src/atlas_mcp/auth/policy.py:47-105 | a request is denied if and only if a denying rule speaks of it; else allowed if and only if another rule does or nothing is denied by default: one pattern each names subject, action and full resource, being a star, equal, or a stem with a star, and the first condition holds |
| PolicyEngine.SingleRuleAdmitsIff | src/atlas_mcp/auth/policy.py:50-105 | the same for a single rule under default deny |
| PolicyEngine.OrderIrrelevant | src/atlas_mcp/auth/policy.py:47-71 | the outcome code is invariant under permuting the rules |
| PolicyEngine.TenantConfined | src/atlas_mcp/auth/policy.py:50-105 | with default deny and slash-free tenants, allows scoped to one tenant never admit another |
| PolicyEngine.ScopeAdmitsIff | src/atlas_mcp/auth/policy.py:50-105 | under default deny some rules scoped to a tenant admit a request if and only if its full resource begins with the tenant's scope |
| PolicyEngine.SlashEscapes | src/atlas_mcp/auth/policy.py:50-105 | a tenant name with a slash escapes that confinement |
| Approval.ApprovalGate.Enforce | src/atlas_mcp/governance/approval.py:96-130 | pass, pending or refused, and the store, for every state of the record |
| Approval.ApprovalGate.Transition | src/atlas_mcp/governance/approval.py:138-150 | a live record is re-stored with a fresh ttl; a missing or expired one is approval_not_found |
| Approval.ApprovalGate.Approve | src/atlas_mcp/governance/approval.py:132-133 | the transition to approved, by the approver |
| Approval.ApprovalGate.Deny | src/atlas_mcp/governance/approval.py:135-136 | the transition to denied, by the approver |
| Approval.InMemoryApprovalStore.Get | src/atlas_mcp/governance/approval.py:39-47 | a live record, or none with the expired one dropped |
| Approval.InMemoryApprovalStore.Set | src/atlas_mcp/governance/approval.py:49-50 | the record with its expiry, others unchanged |
| Approval.AlwaysRemembers | src/atlas_mcp/governance/approval.py:96-150 | over every run a decided record in the store is the last decision on it, with that decision's expiry; one that is gone has expired |
| Approval.PassIffApproved | src/atlas_mcp/governance/approval.py:96-150 | over every run an attempt passes if and only if the last decision that took effect on that record was an approval within the ttl |
| Approval.RefusedIffDenied | src/atlas_mcp/governance/approval.py:96-150 | it is refused if and only if that decision was a denial within the ttl |
| Approval.WaitsIffUndecided | src/atlas_mcp/governance/approval.py:96-150 | it has to wait if and only if no decision took effect within the ttl |
| Approval.WaitsForItsRecord | src/atlas_mcp/governance/approval.py:106-130 | the record it waits for is pending, of its own id, and that of the attempt that created it, or a new one in its own name |
| Approval.DecisionIsTold | src/atlas_mcp/governance/approval.py:138-150 | over every run a decision finds the record if and only if that was created or decided on within the ttl, and is told it as decided, with its approver; else that there is none |
| Approval.TakesIffAlive | src/atlas_mcp/governance/approval.py:138-150 | so a decision takes effect if and only if the log says that the record is alive |
| Approval.RetryChangesNothing | src/atlas_mcp/governance/approval.py:106-117 | retrying while a record is live changes no record, nor its expiry |
| Approval.ApprovalIdsEqualIff | src/atlas_mcp/governance/approval.py:81-94 | for any names, ids are equal if and only if tenant and tool joined by a colon spell the same and the arguments are the same |
| Approval.ApprovalIdInjective | src/atlas_mcp/governance/approval.py:81-94 | with colon-free tools, whatever the tenants, a record belongs to one tenant, tool and arguments |
| RankFusion.Fuse | src/atlas_mcp/tools/composed/hybrid_search.py:79-108 | the reply: the query, the best top_k of the union by exact score, best first, each with its ranks, its source and its rounded score, those descending too, and the size of the union |
| RankFusion.Report | src/atlas_mcp/tools/composed/hybrid_search.py:95-107 | one result per ranked document: the lexical source if there is one, else the dense payload, else an empty one |
| RankFusion.KeptIsRanked | src/atlas_mcp/tools/composed/hybrid_search.py:79-93 | the hit whose source is shown for an id is the one at its rank |
| RankFusion.RoundFacts | src/atlas_mcp/tools/composed/hybrid_search.py:102 | rounding moves a score by at most half a millionth and keeps the order |
| RankFusion.TiesGoToEven | src/atlas_mcp/tools/composed/hybrid_search.py:102 | rounding keeps whole units and sends ties to the even neighbour |
| RankFusion.ScoreByPlaces | src/atlas_mcp/tools/composed/hybrid_search.py:79-90 | a score is the sum, over the lists that have the document, of one over its last place and the constant |
| RankFusion.SourceMeans | src/atlas_mcp/tools/composed/hybrid_search.py:92-105 | the text shown is that of the last lexical hit with the id, else of the last dense one, else an empty object |
| RankFusion.Index | src/atlas_mcp/tools/composed/hybrid_search.py:92-93 | the hits by id, the last of an id winning |
| RankFusion.ScoreAll | src/atlas_mcp/tools/composed/hybrid_search.py:82-89 | every document of the union is scored exactly once, with its exact score, whatever the iteration order |
| RankFusion.RankAll | src/atlas_mcp/tools/composed/hybrid_search.py:82-96 | the kept documents are the best top_k, none twice, best first |
| RankFusion.RankDict | src/atlas_mcp/tools/composed/hybrid_search.py:79-80 | the rank dictionary of a list |
| RankFusion.RanksOf | src/atlas_mcp/tools/composed/hybrid_search.py:79-80 | a rank is the last position of an id, and only listed ids have one |
| RankFusion.DominantPrecedes | src/atlas_mcp/tools/composed/hybrid_search.py:82-96 | a document at least as well ranked in both lists and better in one always precedes |
| RankFusion.BothPrecedeOne | src/atlas_mcp/tools/composed/hybrid_search.py:82-96 | with lists shorter than rrf_k + 2, documents found by both retrievers precede those found by one |
| RankFusion.BothFirstIff | src/atlas_mcp/tools/composed/hybrid_search.py:82-90 | for all lists of distinct ids up to a length they outscore them if and only if that length is below rrf_k + 2 |
| Atba.P95IsPercentile | src/atlas_mcp/reliability/atba.py:53-59 | the value is a sample that at least 95 % do not exceed and at most 95 % are below |
| Atba.LatencyTracker.Record | src/atlas_mcp/reliability/atba.py:50-51 | a bounded deque: the oldest sample goes when the window is full; other tools' samples stay |
| Atba.ATBA.Begin | src/atlas_mcp/reliability/atba.py:73-76 | a fresh budget for the caller's context variable |
| Atba.ATBA.TimeoutFor | src/atlas_mcp/reliability/atba.py:78-85 | the timeout from the task's budget, if any, the tool's p95 and the time |
| Atba.ATBA.BeginCall | src/atlas_mcp/reliability/atba.py:87-92 | that timeout, and one more call made in the budget |
| Atba.ATBA.EndCall | src/atlas_mcp/reliability/atba.py:94-103 | the duration is sampled, and credited to the budget the call found when it began, however it ended |
| Atba.KeepsMinimum | src/atlas_mcp/reliability/atba.py:65-103 | after each of the first five calls the minimum is left for every call still expected |
| Atba.FiveCallsFit | src/atlas_mcp/reliability/atba.py:65-103 | the first five back-to-back calls, each cut at its timeout, always finish within the budget if and only if it covers five minimum timeouts |
| Atba.OverrunBound | src/atlas_mcp/reliability/atba.py:65-103 | n calls overrun the budget by at most n minimum timeouts, only the calls after the fifth once it covers five |
| Atba.BudgetCaps | src/atlas_mcp/reliability/atba.py:78-85 | within a turn a timeout lies between the minimum and the larger of it and what remains |
| Atba.BudgetTimeoutWithin | src/atlas_mcp/reliability/atba.py:65-85 | within a turn a timeout is at most a cap if and only if the cap covers the minimum and either the target or an equal share of the remaining budget for each of the five calls still expected |
| Atba.TimeoutWithin | src/atlas_mcp/reliability/atba.py:53-85 | without a budget a timeout is at most (or below) a cap if and only if the cap covers the minimum and, with under twenty samples, 7.5 s, else enough samples lie within cap / 1.5 |
| Atba.TimeoutsRatchet | src/atlas_mcp/reliability/atba.py:78-103 | the timeouts of calls cut one after another without a budget exceed any bound from some call on |
| Retry.WithRetry | src/atlas_mcp/reliability/retry.py:41-56 | attempts and result as `Retried` says: the first attempt that is not retryable, is the last, or cannot be followed by a sleep in time, or a cancelled sleep; and the total backoff |
| Retry.RetriedOnce | src/atlas_mcp/reliability/retry.py:41-56 | that description settles the number of attempts and the result |
| Retry.BackoffBound | src/atlas_mcp/reliability/retry.py:59-62 | the backoff of n attempts is at most (n-1) maximum delays and at most base x (2^(n-1) - 1) |
| Retry.CapDoubles | src/atlas_mcp/reliability/retry.py:59-62 | the delay cap starts at the base and doubles up to the maximum |
| Retry.FullJitter | src/atlas_mcp/reliability/retry.py:59-62 | jitter drawn at the cap sleeps for the sum of the caps |
| Retry.GeometricReached | src/atlas_mcp/reliability/retry.py:59-62 | that sum is the geometric bound as long as the maximum is not met |
| Retry.LinearReached | src/atlas_mcp/reliability/retry.py:59-62 | and the linear one when the base is no smaller than the maximum |
| Server.AtlasServer.Screen | src/atlas_mcp/server.py:102-125 | the stateless checks in order: registry, validation, scopes, policy, host allow-list, with the error each raises |
| Server.CircuitBreakerRegistry.ForTool | src/atlas_mcp/reliability/circuit_breaker.py:129-136 | one breaker per tool, created fresh on first use, the others unchanged |
| Server.CircuitBreakerRegistry.Enter | src/atlas_mcp/server.py:206-238 | only the tool's own breaker takes the call, as `Entered` says |
| Server.CircuitBreakerRegistry.Finish | src/atlas_mcp/server.py:236-241 | only the tool's own breaker sees the end of the call |
| Server.AtlasServer.Admit | src/atlas_mcp/server.py:102-143 | refusal and new limiter and approval state of all guards before the cache |
| Server.AtlasServer.Consult | src/atlas_mcp/server.py:160-172 | only cacheable tools, with caching on, consult the cache, under the tenant's key |
| Server.AtlasServer.Publish | src/atlas_mcp/server.py:166-169 | the end of a cached execution, with the tool's own ttl |
| Server.AtlasServer.Launch | src/atlas_mcp/server.py:206-241 | timeout, admission, breaker map and samples when execution starts or is short-circuited; other tools' breakers unchanged |
| Server.AtlasServer.Land | src/atlas_mcp/server.py:236-241 | breaker map and samples when execution ends or is cut |
| ServerParts.NeverBlocked | src/atlas_mcp/server.py:100-241 | in every reachable state the cache and the breakers can take whatever comes next to a call: calls, cache callers and breaker calls never fall out of step |
| ServerParts.AlwaysTied | src/atlas_mcp/server.py:152-241 | in every reachable state a cacheable call past the guards is a cache caller of its own key at the same point, and a call is in flight in its tool's breaker exactly while it executes |
| ServerParts.BreakerRefines | src/atlas_mcp/server.py:196-241 | what any run of the server does to one tool's breaker is a run of that breaker, no event lost or reordered |
| ServerParts.CacheRefines | src/atlas_mcp/server.py:160-172 | what any run of the server does to the cache is a run of its callers |
| ServerSafety.ShortInServer | src/atlas_mcp/server.py:236-238 | with timeouts and their lag below the recovery time, the calls a breaker sees in the server are short, so every theorem on short calls holds there |
| ServerSafety.ProbesExclusive | src/atlas_mcp/server.py:206-241 | then in every interleaving of dispatches the probe is exclusive |
| ServerSafety.ProbesExclusiveIff | src/atlas_mcp/server.py:206-241 | in any run of the server probes are exclusive throughout if and only if the breaker never half-opens while a call of the tool executes |
| ServerSafety.NoLaunchDuringRecovery | src/atlas_mcp/server.py:206-241 | no dispatched call is launched within the recovery time of a trip of its tool's breaker |
| ServerSafety.LateAttemptsAreOld | src/atlas_mcp/server.py:223-238 | while a breaker is open, its tool runs only for calls launched before it opened |
| ServerRecovery.TurnedAwayIff | src/atlas_mcp/server.py:206-241 | with timeouts and lag below the recovery time, a call is answered with the breaker's error if and only if another is being tried as a probe, or the breaker is open and last tripped less than the recovery time ago |
| ServerRecovery.AnswerRestoresService | src/atlas_mcp/server.py:206-241 | in every run, when a probe is answered the breaker closes and every call of the tool is launched until it next trips |
| ServerRecovery.OnlyAnswersClose | src/atlas_mcp/server.py:206-241 | nothing else closes it |
| ServerLocks.LocksExclusiveIff | src/atlas_mcp/server.py:160-172 | in any run no two dispatched calls hold one key's lock if and only if no call of the key begins, past the guards and at a miss, while a holder is as old as the lock's time to live |
| ServerLocks.LocksExclusive | src/atlas_mcp/server.py:160-172 | so with the timeouts of the key's own calls, and their lag, below the lock's time to live, whatever calls of other keys do |
| ServerWitnesses.FreshToolSharesLock | src/atlas_mcp/server.py:160-172 | on any tool without samples, under any settings that admit its calls, two dispatched calls come to hold one lock |
| ServerWitnesses.WarmToolMeetsPremise | src/atlas_mcp/server.py:160-172 | the premise of `LocksExclusive` is met by runs in which calls of the key execute |
| ServerCache.AnswersAreFresh | src/atlas_mcp/server.py:160-172 | in every run a call answered from the cache gets the value of the last call of its key to return one, which nobody has deleted or invalidated since, no longer ago than that call's ttl and the L1 ttl together |
| ServerCache.ExecutedOnce | src/atlas_mcp/server.py:160-172 | in a calm run, however many calls of one key pass the guards in whatever interleaving, one executes and the others get its value |
| ServerStampede.ExecutedOnceIff | src/atlas_mcp/server.py:160-172 | over all runs, on time and calm with executions below a bound, at most one call of a key executes if and only if the bound is at most a waiter's patience |
| ServerStampede.ImpatientCallExecutes | src/atlas_mcp/server.py:160-172 | a run, on time and with nothing cut or abandoned, in which two dispatched calls of one key execute, the first well within its 7.5 s |
| ServerInvalidation.AnswersAreNew | src/atlas_mcp/cache/manager.py:199-212 | in every run, if no call of a key that would store its value executes when the key is deleted or invalidated, whatever is answered from then on was produced by a call launched since |
| ServerInvalidation.InvalidationHoldsIff | src/atlas_mcp/cache/manager.py:199-212 | after any run that ends with the deletion or invalidation of a key, that is so in all its continuations if and only if no such call executes |
| ServerInvalidation.DroppedWhileExecuting | src/atlas_mcp/server.py:160-172 | under the default settings there are such runs, with such a call executing |
| ServerInvalidation.LateWriteSurvives | src/atlas_mcp/cache/manager.py:161-186 | a run, on time, in which a call that executes at the invalidation stores its value and the next call is answered with it, though no call was launched since |
| ServerOutage.LateAttemptsAreRetries | src/atlas_mcp/server.py:206-238 | in any run an attempt that starts while its breaker is open is a retry, of a call that is not destructive and was launched before the breaker opened |
| ServerOutage.RetryDuringOutage | src/atlas_mcp/server.py:223-238 | with two attempts or more, for any threshold and any settings that admit the calls, be they of one tenant or of several, there is a run on time with such an attempt |
| ServerOutage.NeverLateIff | src/atlas_mcp/server.py:206-238 | no attempt ever starts while its tool's breaker is open if and only if calls are not retried |
| ServerOutage.CrewsExist | src/atlas_mcp/server.py:127-133 | the premise of these two is met by calls of as many tenants with a token each, and by calls of one tenant with a burst |
| ServerWitnesses.HungToolIsServed | src/atlas_mcp/server.py:206-241 | a run in which the n-th call is launched with the n-th timeout of the ratchet and the breaker never leaves CLOSED |
| ServerWitnesses.HungToolOutgrows | src/atlas_mcp/server.py:206-241 | so under any settings that admit its calls a tool that never answers is launched with a timeout beyond any bound, its breaker never tripped |
| ServerAccounts.AttemptAccounting | src/atlas_mcp/server.py:206-241 | every dispatch runs the tool at most retry_max_attempts times, once if destructive, with bounded backoff, and gives the breaker at most one failure, its own outcome |
| ServerAccounts.CallsFollowTheLoop | src/atlas_mcp/server.py:223-234 | every launched call of a tool that is not destructive went through exactly what `with_retry` makes of its attempts, and its outcome is the loop's result unless it was cut |
| ServerAccounts.UnblamedNeverTrips | src/atlas_mcp/server.py:206-241 | as long as no call of a tool ended in a failure that counts, its breaker is as good as new, whatever was cut |
| ServerAccounts.FailuresAreCalls | src/atlas_mcp/server.py:206-241 | the failures a breaker counted are exactly the calls of its tool that ended in one |
| ServerRecords.CachedIff | src/atlas_mcp/server.py:160-172 | in every run a call past the guards is a caller of the cache if and only if caching is on and its tool cacheable, under the key of its tenant, tool and validated arguments and with its tool's ttl |
| ServerRecords.ResultsAreSaid | src/atlas_mcp/server.py:211-222 | in every run the results a call recorded are what its attempts returned, in order, a crash as an internal error not to be retried |
| ServerRecords.RetriedIff | src/atlas_mcp/server.py:206-234 | an attempt is followed by another if and only if the tool is not destructive, the error is worth a retry and the settings allow one more |
| ServerRecords.HowCallsEnd | src/atlas_mcp/server.py:236-241 | in every run a call that executed ended with what its last attempt returned, with the timeout error when it was cut, or abandoned |
| ServerRecords.BackoffIsWaited | src/atlas_mcp/reliability/retry.py:41-56 | in every run an attempt is repeated no sooner than the backoff drawn when the last one ended |
| ServerRecords.PausedIsDrawn | src/atlas_mcp/reliability/retry.py:41-56 | a call's account of its backoff is the sum of what was drawn |
| ServerRecords.SamplesAreLatencies | src/atlas_mcp/reliability/atba.py:94-103 | in every run a tool's latencies are the last five hundred of: the time from launch to end or cut of a call, and zero for one its breaker turned away |
| ServerAccounts.AttemptsWithinLimit | src/atlas_mcp/server.py:127-133 | with colon-free tenants or tools, the calls a tenant gets past the guards on a tool in a window are at most capacity plus refill, and their attempts at most retry_max_attempts times those, in any interleaving |
| ServerLoad.LaunchSpacing | src/atlas_mcp/server.py:206-241 | once a tool's breaker has tripped, while every probe fails and timeouts are below the recovery time, dispatched calls are launched a recovery time apart |
| ServerLoad.LaunchLoad | src/atlas_mcp/server.py:206-241 | so at most floor(L / recovery) + 1 calls are launched by events spanning L seconds |
| ServerLoad.AttemptsByLaunches | src/atlas_mcp/server.py:223-238 | in any run what a tool's calls may come to make of attempts grows by retry_max_attempts with each launch, and with nothing else |
| ServerLoad.AttemptLoad | src/atlas_mcp/server.py:206-241 | in an outage the attempts a backend has seen are at most what the calls so far may make and retry_max_attempts x (floor(L / recovery) + 1) |
| ServerLoad.OutageAttempts | src/atlas_mcp/server.py:206-241 | from a moment when none of the tool's calls executes, the attempts of L seconds are at most retry_max_attempts x (floor(L / recovery) + 1) |
| ServerAccess.NoneUnapproved | src/atlas_mcp/server.py:135-143 | in every run a destructive call passes only if the last effective decision on exactly that record was an approval within the ttl |
| ServerRefusals.GateIff | src/atlas_mcp/server.py:135-143 | in every run a destructive call that no other guard stops passes, is refused with approval_denied, or is told to wait, exactly as the last decision within the ttl on its record was an approval, a denial, or is missing |
| ServerRefusals.GateLetsOthersBe | src/atlas_mcp/server.py:135-136 | a call that is not destructive, or under settings that ask for no approvals, is not stopped by the gate and leaves no record |
| ServerRefusals.RefusalIff | src/atlas_mcp/server.py:106-125 | in every run a call of a known tool with valid arguments is refused with insufficient_scope if and only if some scope is held neither literally nor through tool:*:admin, and by the policy and the host list exactly as the rules say of it |
| ServerRefusals.FaultyAreRefused | src/atlas_mcp/server.py:102-104 | a call of no tool, or with faulty arguments, is refused for that |
| ServerRefusals.ScopesAreHeld | src/atlas_mcp/context.py:31-36 | whoever is not refused holds each scope of the tool, or it begins with tool: and they hold tool:*:admin |
| ServerRefusals.RateLimitedIff | src/atlas_mcp/server.py:127-133 | in every run, with colon-free tenants or tools, a call the checks let through is refused with rate_limited if and only if one more call does not fit into the capacity, or with those let through from some earlier one on into the capacity and the refill since |
| ServerAccess.OnlyTheScopedTenant | src/atlas_mcp/server.py:117-124 | with default deny, slash-free names and allows scoped to one tenant, only its calls get past the guards |
| ServerAccess.RepliesShareKey | src/atlas_mcp/server.py:160-172 | in every run and whatever the names, an answered cacheable call got what some dispatched call with its own key returned |
| ServerAccess.RepliesGenuine | src/atlas_mcp/server.py:160-172 | with colon-free tools, whatever the tenants, that is what its own tool returned for its own tenant and arguments |
| ServerLeaks.RepliesExtend | src/atlas_mcp/server.py:160-172 | in every run and whatever the names, cached or not, whoever is answered with another tenant's result bears a name that goes on from that tenant's with a colon, or the other way round |
| ServerLeaks.RepliesAreOwn | src/atlas_mcp/server.py:160-241 | with colon-free tools every reply, cached or not, is what the call's own tool returned for its own tenant and validated arguments |
| ServerLeaks.AnsweredForIff | src/atlas_mcp/server.py:160-172 | for two cacheable calls the settings admit, in some run the one is answered with the other's result if and only if tenant and tool joined by a colon spell the same and the arguments are the same |
| ServerLeaks.ServerLeakIff | src/atlas_mcp/server.py:160-172 | under settings that admit a cacheable call under any names, some run of the server answers one tenant with another's result if and only if one's name goes on from the other's with a colon |
| ServerLeaks.OpenSettingsExist | src/atlas_mcp/config.py:45-64 | the default settings with a policy that denies nothing are such |
| ServerAccess.RefusedForever | src/atlas_mcp/server.py:100-150 | in every run a refused call stays as it was refused: no attempt, never a caller of the cache, never seen by a breaker |

## Left out

- Real time and rounding: times, tokens, scores and durations are exact reals, the clock is one nondecreasing parameter for all components, and floating-point error is not modelled, nor the float index of the percentile.
- Task scheduling inside `wait_for`: choosing the timeout and entering the breaker are one step, so on Python versions where `wait_for` starts a task, steps of other calls in between are not modelled; and a cancelled tool's clean-up takes no time beyond the lag of its cut.
- `Server.AtlasServer.Launch`, `Server.AtlasServer.Land` and the other methods of the class are the uninterrupted stretches of a dispatch; the coroutines that join them are the flights of `ServerRuns`, as values.
- The in-memory backends are the ones composed; `RedisL2`, its races and several replicas are not part of this model.
- Lua and Redis: number formatting of stored tokens, and the server's own clock, taken to be the caller's.
- SHA-256 truncated to 24 hex digits is an abstract digest; lemmas that need it assume that it is injective, and that its text has no colon, as hex digits have none (`CacheKeys.DigestsExist` shows that both can be met). JSON encoding is the identity, and values are never null.
- Negative `cache_l1_max_items`, which would raise KeyError on the first write: capacities are natural numbers. Negative retry delays likewise.
- `BreakerRuns.WindowRefinement`, `BreakerRuns.TripMeansThreshold`, `ServerOutage.NeverLateIff`: assume a window that is not negative; the server always uses 60 seconds.
- `ServerOutage.NeverLateIff`: assumes that a server that has just started admits some call of a tool and as many others, with other cache keys, as it takes to open the breaker (`CrewsExist`).
- `BucketRuns.SteadyClockIff`: a tool with the default quota, since the quota varies; calls outside the window, which only spend tokens, are covered by `BucketRuns.ForwardBound`.
- `ServerStampede.ExecutedOnceIff`, `ServerInvalidation.InvalidationHoldsIff`: assume a call that is not destructive and that the settings admit, twice at once for the former, once more at the end of the run for the latter; `ServerWitnesses.DefaultsAdmit` shows that the default settings do.
- `ServerLeaks.AnsweredForIff`, `ServerLeaks.ServerLeakIff`: the one whose result is returned must be stored with a lifetime that is not negative, and the second must be admitted right after it.
- `BucketRuns.AdmissionBound`, `BucketRuns.TokensInRange`, `ServerAccounts.AttemptsWithinLimit`: assume a default quota that is not negative.
- `Atba.FiveCallsFit`, `Atba.OverrunBound`: calls run back to back; time an agent spends between calls also uses up the budget.
- `RankFusion.Fuse`: the order among equal scores, which depends on set iteration.
- `PolicyEngine.Check`: upper-casing is a parameter, and a policy file with malformed entries is not modelled.
- Who an approver is: any caller of `approve` decides.
- Registry lookup, argument validation and the host allow-list are given results of a call; their own rules are single-function checks. So are audit, metrics and hit-ratio figures.
- JWT validation, transports, tool back ends and the agent layer are not part of this model.
