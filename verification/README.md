# ChatNow consistency core

ChatNow is a distributed chat backend. This project models the small state
machines that keep Redis, MySQL and process memory consistent under concurrency,
retries and expiry, and proves what they promise over whole runs. A Lua script,
or an operation that holds one lock throughout, is one atomic step; where the
source works with single atomic accesses, locks or separate Redis commands, each
of those is a step and any number of threads interleave.

| module | what it models |
|---|---|
| `BreakerSteps` | the Redis circuit breaker, one atomic access at a time |
| `BreakerCalls` | the same breaker with each method call one step, for the failure threshold |
| `Pipeline` | who settles a breaker permit: guarded calls and the movable `RedisPipeline` |
| `UnackedLedger` | the four scripts of the unacked-push ledger, a ZSET and a HASH with a repair cursor |
| `MembersCache` | the version-fenced member list, its readers and its writers |
| `UserInfoCache`, `BatchFill` | the generation-fenced user-info cache and its batch script |
| `TokenBucket` | the Redis rate limiter and its C++ form |
| `LocalLimiter`, `LimiterRuns` | the in-process limiter: its calls, and its decisions over whole runs |
| `BucketCounter`, `LimiterRefinement` | its shared counter under concurrency, and that the calls are those of `LocalLimiter` |
| `PushDelivery` | at-least-once push |
| `RefreshRotation` | refresh-token rotation |
| `LruCache` | the in-process LRU cache with expiry |
| `Inflight`, `RouteLoads` | the single-flight registry and the route lookup that uses it |
| `Snowflake` | the id generator |
| `TextCodecs` | numbers and states kept as text |
| `ShardLimits`, `Wrappers`, `Bits`, `Division` | constants, types, bit operations and arithmetic shared by the others |

`dafny verify dfyconfig.toml` checks everything.

Objects whose methods update fields are classes; each method is tied to a
specification function on values, and the results over runs are lemmas about
those functions. Results quantify over every run, given as a sequence of steps
or of worlds.

## Where the code and what it promises part

- A refresh token can be exchanged twice although no call is slower than the
  24-hour lifetime of the chain key: the winner may read the active pointer, claim
  the chain key and stall; a second call may read the still unchanged pointer just
  before the winner replaces it or the pointer expires, and stall until the chain
  key is gone. With s the longest stall and t the refresh lifetime, rotation is
  safe exactly if min(s, t) + s is within the chain lifetime
  (`RefreshRotation.SafeExactlyIfChainOutlasts`).
- The user-info cache is coherent only while no fill is accepted across an expiry
  of the generation key: an expired key counts from 0 again
  (`UserInfoCache.ExpiryDuringFillBreaksCoherence`).
- The comment on the batch script says that validation prevents partial fills.
  It accepts times to live that SET refuses: numbers that only Lua reads, and
  plain ones whose deadline does not fit 64 bits
  (`BatchFill.RefusedTtlFillsHalfway`); the callers never send one.
- The push script of the ledger likewise writes both indexes and then fails if
  EXPIRE refuses its time to live; on an empty ledger they are left without a
  deadline (`UnackedLedger.OddPushNeverLapses`). Refinement and pairing hold all
  the same.
- The Redis limiter keeps its rate bound for capacities up to
  2000 * window + 1, and for no other: a key that expires after two windows comes
  back full (`TokenBucket.RateIsBounded`, `TokenBucket.RateIsExceeded`).
- The local limiter's cleanup goes by the window of whoever asks. It changes no
  decision while windows are within a factor of two, and beyond that a key can
  exceed its rate (`LimiterRuns.FactorOfTwoIsExact`,
  `LimiterRuns.ForgetsTooSoon`).
- Once a local connection took a message, the member's devices on other
  instances are not told (push/source/push_server.h:325); what `Ack` guarantees is
  stated with that exception (`PushDelivery.TakenHereMissesPeers`).
- `queue_` treats a reply error as abandoned where `exec` and the guarded calls
  treat it as success.
- Snowflake ids repeat in the last millisecond of the 64-bit clock
  (`Snowflake.LastMillisecondRepeats`).

## Model

| member | source | states |
|---|---|---|
| `BreakerSteps.OneProbePerGeneration` | common/utils/redis_circuit_breaker.hpp:60-122 | In every interleaving of any number of callers, atomic access by atomic access, a generation hands out at most one probe permit and reports `Recovered` at most once. |
| `BreakerSteps.HalfOpenHasOneProbe` | common/utils/redis_circuit_breaker.hpp:60-122 | While the state is HalfOpen exactly one caller has the probe slot, and in every world, whoever is in the mutex, it holds an unsettled probe permit of the current generation, unless it is at the very load that puts the generation into its permit. |
| `BreakerSteps.QuietIsNotHalfOpen` | common/utils/redis_circuit_breaker.hpp:60-122 | With no call under way the breaker is not half-open, in any interleaving. |
| `BreakerSteps.SettledProbeLeavesHalfOpen` | common/utils/redis_circuit_breaker.hpp:78-122 | However it is settled, a probe reports `Opened` or `Recovered`, and the half-open state it belonged to is over: a HalfOpen seen afterwards is of a later generation. |
| `BreakerSteps.OpenedCountsGenerations` | common/utils/redis_circuit_breaker.hpp:49-58 | At every moment of every interleaving the generation counter equals the number of callers told `Opened`. |
| `BreakerSteps.StalePermitsAreInert` | common/utils/redis_circuit_breaker.hpp:78-122 | No access made with a permit of an older generation changes the state word or the generation, even when it raced past the first generation check. |
| `BreakerSteps.StoresAreExclusive` | common/utils/redis_circuit_breaker.hpp:49-122 | The state word is only written under the mutex and never under the feet of a caller that is about to take or to settle the probe. |
| `BreakerSteps.OpenRefusesForASecond` | common/utils/redis_circuit_breaker.hpp:49-76 | In every interleaving, a caller that finds the circuit open under the mutex is refused for exactly 1000 milliseconds after the last caller told `Opened` read the clock, and then takes the half-open slot. |
| `BreakerSteps.KeepsDistinctProbes` | common/utils/redis_circuit_breaker.hpp:66-76 | A probe permit is minted only while no permit of this generation carries one, whoever else is between its unlocked load and the mutex. |
| `BreakerSteps.KeepsOpenedCount` | common/utils/redis_circuit_breaker.hpp:49-58 | One access keeps the number of callers told `Opened` equal to the generation: the increment and the result come in the same access. |
| `BreakerSteps.InvKept` | common/utils/redis_circuit_breaker.hpp:49-122 | Every single load, store, read-modify-write, lock and unlock keeps the invariant behind the breaker's guarantees. |
| `BreakerSteps.InvReached` | common/utils/redis_circuit_breaker.hpp:37-122 | That invariant holds in every world of every run from a fresh breaker. |
| `BreakerCalls.RedisCircuitBreaker.OpenLocked` | common/utils/redis_circuit_breaker.hpp:49-58 | Opening clears the failures, sets the deadline one second ahead and starts a new generation; an open circuit stays as it is. |
| `BreakerCalls.RedisCircuitBreaker.BeforeCall` | common/utils/redis_circuit_breaker.hpp:60-76 | A whole call as one step: ordinary permits while closed, refusal while open or half-open, the probe once the second is over. |
| `BreakerCalls.RedisCircuitBreaker.OnSuccess` | common/utils/redis_circuit_breaker.hpp:78-95 | A whole settlement as one step, tied to the specification that the threshold result is about. |
| `BreakerCalls.RedisCircuitBreaker.OnConnectionFailure` | common/utils/redis_circuit_breaker.hpp:97-112 | The same for a connection failure, with the 32-bit failure counter. |
| `BreakerCalls.RedisCircuitBreaker.OnAbandoned` | common/utils/redis_circuit_breaker.hpp:114-122 | The same for an abandoned call, which only matters for the probe. |
| `BreakerCalls.OpensExactlyAtThreshold` | common/utils/redis_circuit_breaker.hpp:97-122 | Over every history of whole calls: a settlement opens the circuit if and only if it is the third consecutive failure of the current generation (counted on the history alone), or settles the probe with anything but success; it recovers if and only if it settles the probe with success. |
| `BreakerCalls.AskFollowsWord` | common/utils/redis_circuit_breaker.hpp:60-76 | What before_call answers is a function of what earlier calls were told: an ordinary permit after a recovery or before any opening; for 1000 milliseconds after an opening nothing, then the probe, once; each permit stamped with the number of openings. |
| `BreakerCalls.ReachedIsCoherent` | common/utils/redis_circuit_breaker.hpp:60-122 | After any calls the failure counter is the streak in the history, and every unsettled probe is the one of the current half-open generation. |
| `BreakerCalls.SettledIsNotHalfOpen` | common/utils/redis_circuit_breaker.hpp:60-122 | After any whole calls, with every permit settled the breaker is not half-open. |
| `BreakerCalls.AskIsUninterrupted` | common/utils/redis_circuit_breaker.hpp:60-76 | The accesses of before_call taken by one caller without interruption have exactly the effect and result of the call as one step. |
| `BreakerCalls.SettleIsUninterrupted` | common/utils/redis_circuit_breaker.hpp:78-122 | So have those of each of the three settlements, open_locked included: the two models of the breaker are one. |
| `Pipeline.RedisPipeline.Move` | common/dao/data_redis.hpp:72-78 | The move constructor hands the permit over: the source object can no longer settle it. |
| `Pipeline.RedisPipeline.Assign` | common/dao/data_redis.hpp:79-88 | Move assignment abandons the permit this object owed before taking over the other's; assigning to itself changes nothing. |
| `Pipeline.RedisPipeline.Release` | common/dao/data_redis.hpp:91-91 | Destruction abandons the permit if and only if it is still owed. |
| `Pipeline.RedisPipeline.SettleAs` | common/dao/data_redis.hpp:175-192 | A settlement reaches the breaker once; a second one is silent. |
| `Pipeline.RedisPipeline.Queue` | common/dao/data_redis.hpp:141-163 | Queueing settles only when it fails, a reply error counting as abandoned there, and is a logic error after settlement. |
| `Pipeline.RedisPipeline.Exec` | common/dao/data_redis.hpp:113-138 | Execution always settles, with the outcome its exception stands for, and is a logic error after settlement. |
| `Pipeline.DebtMoves` | common/dao/data_redis.hpp:65-198 | For every permit, what is owed plus what was reported is unchanged by every operation except the one that issues it. |
| `Pipeline.BalanceReached` | common/dao/data_redis.hpp:331-353 | After any sequence of guarded calls entered and left, pipeline constructions, moves, queueing, execution and destruction each issued permit is owed once or reported once. |
| `Pipeline.SettledExactlyOnce` | common/dao/data_redis.hpp:388-471 | No permit is settled twice, a settled one is owed by nobody, and when all pipelines are gone exactly the issued permits have been settled. |
| `Pipeline.InStepReached` | common/dao/data_redis.hpp:388-471 | With real permits asked of a real breaker, which may refuse: however pipelines are created, moved, used and destroyed, with guarded calls under way in between, the permits the breaker waits for are exactly those of the unsettled tickets, and no report comes for a permit it does not wait for. |
| `Pipeline.IdleClientIsNotHalfOpen` | common/dao/data_redis.hpp:65-198 | After any such run, with no pipeline alive and no guarded call under way the breaker is not half-open: the probe cannot be lost. |
| `Pipeline.RepliesDecide` | common/dao/data_redis.hpp:113-163 | After any turns, the next one opens the breaker if and only if the reply it got makes the third permit of the generation lost in a row (I/O error, closed connection or pool wait), or leaves a probe unserved; and closes it again if and only if Redis answered the probe, with a result or a reply error. |
| `Pipeline.FailuresAreLostInRow` | common/dao/data_redis.hpp:422-471 | The failures the breaker counts are at all times the permits of its generation lost in a row, counted on replies. |
| `Pipeline.AnsweredStaysClosed` | common/dao/data_redis.hpp:422-471 | As long as every reply is a result or a reply error, the breaker stays closed with no failure counted, whatever is done with the objects. |
| `Pipeline.ReportIsMeaning` | common/dao/data_redis.hpp:113-163 | What an operation reports is what its reply means: queueing reports only failures, an answered call succeeded even if the answer is an error. |
| `UnackedLedger.UnackedPush.PushScript` | common/dao/data_redis.hpp:1908-1927 | The push script as Redis runs it: wrong key types, bad arguments, and a time to live that passes its checks and that EXPIRE then refuses, after both indexes were written. |
| `UnackedLedger.UnackedPush.AckScript` | common/dao/data_redis.hpp:2027-2042 | The ack script, with the number of removals it returns. |
| `UnackedLedger.UnackedPush.PeekScript` | common/dao/data_redis.hpp:1929-1992 | The peek script: due entries, repair of both indexes, and the persisted HSCAN cursor with its deadline. |
| `UnackedLedger.UnackedPush.BumpScript` | common/dao/data_redis.hpp:1994-2025 | The bump script: which scores move, which orphans go, the three deadlines, and what is left when EXPIRE refuses the time to live. |
| `UnackedLedger.ScriptRefines` | common/dao/data_redis.hpp:1908-2042 | From any ledger, orphans in either index included, each script acts on the entries present in both indexes as its operation on one simple map; peek and bump neither drop nor revive an entry. |
| `UnackedLedger.PurgeRefines` | common/dao/data_redis.hpp:1923-1924 | Key expiry refines the map's: the entries lapse together when either index lapses. |
| `UnackedLedger.LiveIsLastWord` | common/dao/data_redis.hpp:1908-2042 | Over every run from any start, an entry is live if and only if the history's last word on it is a push, or it was live initially and nothing was said since; its payload is that of its last push. |
| `UnackedLedger.LiveIsToldLast` | common/dao/data_redis.hpp:1908-2042 | From an empty ledger, with times to live in whole seconds, liveness and payload are a function of the operations alone: the last push or ack of the number, and the deadline of the last push or bump. |
| `UnackedLedger.PeekReturnsLiveDue` | common/dao/data_redis.hpp:1958-1975 | Peek returns only live due entries, each with its latest payload; it leaves one out only if Redis' limit was used up by members due no later. |
| `UnackedLedger.RefusedForArgumentsOnly` | common/dao/data_redis.hpp:1908-2042 | From an empty ledger a script is refused if and only if its own arguments are bad: no positive time to live, or no positive limit. |
| `UnackedLedger.BumpCountsLive` | common/dao/data_redis.hpp:2007-2024 | The reply of a bump is the number of listed entries that are live. |
| `UnackedLedger.NoOrphansEver` | common/dao/data_redis.hpp:1908-2042 | From an empty ledger, at every point of every run, even one with times to live that EXPIRE refuses, neither index has an orphan, both have the same deadline, and the repair cursor never outlives the hash. |
| `UnackedLedger.OddPushNeverLapses` | common/dao/data_redis.hpp:1921-1924 | A push whose time to live EXPIRE refuses stores its entry all the same; on an empty ledger it then has no deadline and never lapses. |
| `UnackedLedger.StepKeepsPaired` | common/dao/data_redis.hpp:1921-1924 | Every script leaves both indexes missing, or with the same members and deadline. |
| `UnackedLedger.StepKeepsCursorWithin` | common/dao/data_redis.hpp:1976-1990 | Every script leaves the cursor's deadline within the hash's. |
| `UnackedLedger.ResumesWhereItStopped` | common/dao/data_redis.hpp:1943-1990 | In any run, a scan resumes where the previous one stopped exactly if that is still remembered and Redis takes the position, and starts over otherwise; it is remembered for the life of the hash, or 300000 milliseconds if the hash has no deadline, is put off by bumps and made void by pushes and acks. |
| `UnackedLedger.CyclesAreChained` | common/dao/data_redis.hpp:1943-1957 | In a cycle of timely scans, from one that starts at 0 to the first that returns 0, each continues HSCAN where the previous one stopped. |
| `UnackedLedger.FullCycleRepairs` | common/dao/data_redis.hpp:1943-1990 | From any ledger, one such cycle without an accepted push or ack deletes every field that was in the hash only when it began, given HSCAN's guarantee that a full cycle returns what stays throughout. |
| `MembersCache.Members.WarmIfVersion` | common/dao/data_redis.hpp:968-992 | The compare-and-set warm: it stores the members, and removes the sentinel, exactly when the version observed is still current. |
| `MembersCache.Members.SetSentinelIfVersion` | common/dao/data_redis.hpp:1051-1072 | The same for the sentinel, which removes the members. |
| `MembersCache.Members.Invalidate` | common/dao/data_redis.hpp:1120-1124 | Invalidation empties the cache under a new version. |
| `MembersCache.StepKeepsInv` | conversation/source/conversation_server.h:661-706 | Every step of a reader, a writer or an expiry keeps cached data, and every fill under way that could still succeed, no older than the completed changes. |
| `MembersCache.InvReached` | conversation/source/conversation_server.h:661-706 | That holds throughout every interleaving. |
| `MembersCache.DataExcludesSentinel` | common/dao/data_redis.hpp:1088-1104 | Member data and sentinel never coexist, in any interleaving. |
| `MembersCache.CachedAnswersAreCurrent` | conversation/source/conversation_server.h:668-688 | Whenever GetMemberIds answers from a stable non-empty snapshot or a confirmed sentinel, the answer is the member list of a commit no older than any change whose invalidation completed before that cache read; a writer that fails before invalidating simply never completes. |
| `MembersCache.CachedAnswersAreSnapshots` | common/dao/data_redis.hpp:946-957 | Every answer from the cache is what its reader saw between two readings of the version that succeeded, with no invalidation in between. |
| `MembersCache.MissAnswersLatestCommit` | conversation/source/conversation_server.h:690-705 | A miss is answered with the member list of the latest commit at a moment after it observed the version; the list, or the sentinel for an empty one, is stored if and only if no read or write failed and no invalidation fell in between. |
| `MembersCache.ReaderAlone` | conversation/source/conversation_server.h:661-706 | GetMemberIds undisturbed: cached members, a confirmed sentinel, or the latest commit, which is then in the cache for the next reader. |
| `UserInfoCache.CacheReflectsCompletedUpdates` | identity/source/identity_server.h:479-489 | Whatever fills race before, between or after its two invalidations, a value in the cache reflects every UpdateProfile whose post-commit invalidation completed, in runs where no fill is accepted under a generation value that was reached again after the generation key expired. |
| `UserInfoCache.GentleRunsAreCoherent` | common/dao/data_redis.hpp:1354-1366 | In particular in every run where the generation key does not expire during a fill. |
| `UserInfoCache.FillIsAcceptedExactly` | common/dao/data_redis.hpp:1354-1366 | While the generation key does not expire, a fill is accepted if and only if its write does not fail and no invalidation came since it observed the generation; it then stores the latest commit of a moment in between, and otherwise changes nothing. |
| `UserInfoCache.ExpiryDuringFillBreaksCoherence` | common/dao/data_redis.hpp:1354-1366 | Without that it fails: for any two different profiles there is a run in which the generation key expires during a fill and the old profile is left in the cache. |
| `UserInfoCache.InvReached` | common/dao/data_redis.hpp:1282-1299 | In every such run a fill that can still succeed carries a row no older than the completed updates. |
| `BatchFill.UserInfoStore.SetIfGeneration` | common/dao/data_redis.hpp:1354-1360 | The single-entry script with its type and argument errors, a time to live that SET does not take included. |
| `BatchFill.UserInfoStore.BatchSetIfGeneration` | common/dao/data_redis.hpp:1371-1408 | The batch script refuses without any change exactly when an entry is invalid; when it completes, store and count are those of the single-entry script over its entries in order, also when entries share keys. |
| `BatchFill.CompletesExactly` | common/dao/data_redis.hpp:1380-1407 | A valid batch runs to its end if and only if SET takes the time to live of each entry that is to be written: plain decimal digits whose deadline fits 64 bits, which the callers always send. |
| `BatchFill.EachKeyHasLastMatch` | common/dao/data_redis.hpp:1396-1407 | A batch that completes returns the number of entries whose generation matched when their turn came, and leaves each key with the text and lifetime of the last of them, generation keys with a week. |
| `BatchFill.PlainBatchesComplete` | common/dao/data_redis.hpp:1380-1407 | With times to live that are plain numbers in range, a valid batch never stops halfway. |
| `BatchFill.RefusedTtlFillsHalfway` | common/dao/data_redis.hpp:1389-1402 | Otherwise validation does not keep the promise of no partial fill: every positive number that SET does not take passes it, and SET then fails after the first entry was written. |
| `BatchFill.LooseAndHugeTtlsAreRefused` | common/dao/data_redis.hpp:1392-1393 | Both kinds exist: a spelling such as `6e1`, and plain digits such as 9223372036854775807. |
| `TokenBucket.LuaAgreesExactly` | common/utils/reliability_state.hpp:82-104 | On the same stored bucket the Redis script and `compute_token_bucket` take the same decision and leave the same tokens and timestamp if and only if the refill and its sum with the tokens fit the C++ int; beyond, the sum is undefined or the truncated refill leaves an earlier timestamp. |
| `TokenBucket.LuaAgreesOnMissing` | common/dao/data_redis.hpp:1668-1672 | They agree on a missing bucket too. |
| `TokenBucket.RateLimiter.Allow` | common/dao/data_redis.hpp:1657-1691 | The script on its hash key, expiry after two windows included. |
| `TokenBucket.RefillKeepsCredit` | common/dao/data_redis.hpp:1673-1679 | A refill accounts for whole intervals only and never creates credit towards a later time. |
| `TokenBucket.LaterGrants` | common/dao/data_redis.hpp:1657-1691 | From any bucket a call leaves, all later grants up to a time are within the credit left for that time. |
| `TokenBucket.RateIsBounded` | common/dao/data_redis.hpp:1657-1691 | From t0 to t1, across expiry of the key, the script grants at most capacity plus the number of started intervals, for every capacity up to 2000 * window + 1. |
| `TokenBucket.RunsStayPossible` | common/dao/data_redis.hpp:1681-1690 | Every key a run passes through is one the bound may start from, so it holds for every stretch of every run. |
| `TokenBucket.RateIsExceeded` | common/dao/data_redis.hpp:1683-1689 | For every greater capacity the bound fails: draining the bucket, letting its key expire and draining it again exceeds it. |
| `TokenBucket.RefusedOnlyWhenSpent` | common/dao/data_redis.hpp:1657-1691 | From a missing key, for every capacity: whenever a call is refused there is an earlier one from which on the whole capacity and one token for every interval since have been granted. |
| `TokenBucket.NoLimitAllows` | common/utils/reliability_state.hpp:82-90 | Without a positive capacity and window the C++ form allows. |
| `LocalLimiter.IdleIsFull` | common/utils/local_rate_limiter.hpp:74-84 | A bucket of one window that is idle for another, of at least half its length, tops up to the full capacity, so forgetting it changes no decision. |
| `LocalLimiter.ForgettingIsHarmlessExactly` | common/utils/local_rate_limiter.hpp:74-112 | Cleanup goes by the window of whoever asks. Forgetting a bucket of one window as idle for another is harmless in all cases if and only if the one is at most twice the other. |
| `LimiterRuns.ForgetsTooSoon` | common/utils/local_rate_limiter.hpp:25-116 | For all windows further apart, and any two keys of one shard, a run of 1025 requests to an empty limiter in which the one key, always asked for with capacity 1 and its window, is granted more than capacity and accrual allow, and which the unbounded limiter answers otherwise. |
| `LocalLimiter.LocalRateLimiter.Sweep` | common/utils/local_rate_limiter.hpp:104-112 | The erase loop removes exactly the idle buckets and counts them, in whatever order it visits them. |
| `LocalLimiter.LocalRateLimiter.Cleanup` | common/utils/local_rate_limiter.hpp:101-116 | Cleanup of a shard, tied to the specification the run results are about: exactly its idle buckets go, and the counter goes down by their number. |
| `LocalLimiter.LocalRateLimiter.ReserveBucket` | common/utils/local_rate_limiter.hpp:90-99 | A reservation succeeds exactly below the limit, and only then counts. |
| `LocalLimiter.LocalRateLimiter.ReclaimIdleBounded` | common/utils/local_rate_limiter.hpp:118-128 | The reclaim loop, tied to the specification that ReclaimedScans characterises. |
| `LocalLimiter.LocalRateLimiter.Allow` | common/utils/local_rate_limiter.hpp:25-61 | One call, tied to the specification that the run results are about: new shards, counter, operation count, cursor and the answer. |
| `LocalLimiter.ReclaimedScans` | common/utils/local_rate_limiter.hpp:118-128 | Reclaiming cleans the next shards in turn except the caller's own, eight or fewer, fewer only if that made room, touches no other and moves the cursor by eight; only idle buckets go. |
| `LocalLimiter.CallAnswers` | common/utils/local_rate_limiter.hpp:25-61 | In any state the limiter may be in, a call answers for its key from its bucket, with a fresh one, or by turning it away with 65536 buckets in use; it forgets only idle buckets of others, and leaves the counter equal to the stored buckets. |
| `LocalLimiter.CallIsTurn` | common/utils/local_rate_limiter.hpp:25-61 | So each call is a turn of a service: besides, it is counted, and every 1024th forgets whatever is idle in its shard. |
| `LocalLimiter.EveryThousandthForgets` | common/utils/local_rate_limiter.hpp:32-35 | Every 1024th turn forgets, of the other keys in its shard, exactly those not asked for within its last two windows. |
| `LimiterRuns.ServedIsService` | common/utils/local_rate_limiter.hpp:25-61 | The states and answers of every run are such a service. |
| `LocalLimiter.AnsweredSimulates` | common/utils/local_rate_limiter.hpp:25-84 | With windows within a factor of two an answer that turns nobody away is the unbounded limiter's, and keeps the two in step. |
| `LimiterRuns.ServiceBudget` | common/utils/local_rate_limiter.hpp:25-84 | At any point of any service of requests, what a key was granted plus what is available to it is within its capacity and what accrued. |
| `LimiterRuns.KeyRateIsBounded` | common/utils/local_rate_limiter.hpp:25-84 | Between t0 and t1 a run of the limiter from any state grants a key with capacity C at most C + C * (t1 - t0) / (1000 * window) requests, whatever other keys do, through cleanups and also when the bucket limit is reached, as long as no window in use is shorter than half the key's own. |
| `LimiterRuns.PurseDecides` | common/utils/local_rate_limiter.hpp:25-84 | Exactly which requests are granted, from times and earlier answers alone: a key with capacity C and window w starts with C, gains C / (1000 * w) a millisecond up to C and pays one for each grant; a request is granted if and only if it has at least one, unless the key is turned away with 65536 buckets stored. |
| `LimiterRuns.NoLimitNoRefusal` | common/utils/local_rate_limiter.hpp:26-26 | A request without a positive capacity and window is always granted. |
| `LimiterRuns.RunIsIdeal` | common/utils/local_rate_limiter.hpp:25-128 | A run with windows within a factor of two, from any state in step with the unbounded limiter, gives all the answers the unbounded limiter gives, or some key in it was turned away with 65536 buckets stored. |
| `LimiterRuns.TurnedAwayNeedsManyKeys` | common/utils/local_rate_limiter.hpp:39-49 | From empty, a key is turned away only if more than 65536 keys asked. |
| `LimiterRuns.FewKeysAnswerIdeally` | common/utils/local_rate_limiter.hpp:25-128 | So from an empty limiter with at most 65536 keys and windows within a factor of two, shards, cleanup and limit do not show: every answer is that of a map that never forgets a key. |
| `LimiterRuns.FactorOfTwoIsExact` | common/utils/local_rate_limiter.hpp:25-116 | For two windows in use, and two keys that share a shard, all such runs are answered as by the unbounded limiter if and only if the longer window is at most twice the shorter. |
| `BucketCounter.StepConserves` | common/utils/local_rate_limiter.hpp:90-128 | Every load, compare-exchange, insertion, erasure and subtraction keeps the counter equal to the stored buckets plus those reserved and not inserted plus those erased and not subtracted, at most 65536. |
| `BucketCounter.StepKeepsExclusive` | common/utils/local_rate_limiter.hpp:28-57 | Every step keeps each shard lock with at most one caller. |
| `BucketCounter.CounterIsConserved` | common/utils/local_rate_limiter.hpp:28-57 | In every interleaving the conservation law holds, stored buckets never exceed 65536, and no caller holds two shard locks. |
| `LimiterRefinement.CallIsUninterrupted` | common/utils/local_rate_limiter.hpp:25-128 | In any state, the locks, loads, compare-exchanges, erasures and insertions of a call that nobody interrupts leave exactly the keys and the counter that the call as one step leaves, and every lock free: the two models of the limiter are one. |
| `LimiterRefinement.AllowAlone` | common/utils/local_rate_limiter.hpp:28-58 | Which keys and which count those are: the cleanup that is due, up to three attempts to reserve, with the cleanup of the own shard and the scan of eight others in between, and the insertion or the refusal. |
| `PushDelivery.PushService.Persist` | push/source/push_server.h:485-499 | A successful persist leaves an entry for user, device and number; a failed one may or may not have reached Redis. |
| `PushDelivery.PushService.LocalSend` | push/source/push_server.h:721-739 | A numbered payload may be sent only where the ledger has had the entry. |
| `PushDelivery.PushService.PushToUser` | push/source/push_server.h:107-154 | On success every targeted device has an entry, if the user has a number, and was handed the payload, which carries the number for chat messages only; nothing numbered was sent before its entry; it succeeds if nothing fails. |
| `PushDelivery.PushService.PushBatch` | push/source/push_server.h:180-222 | On success every device of every numbered user has an entry written during this call, and every device of every user was handed its payload; nothing numbered was sent before its entry. |
| `PushDelivery.PushService.DeliverToMembers` | push/source/push_server.h:267-326 | Step 1: every local device of a numbered member is in the ledger and no other device is; with nobody listed twice, the members left for the peers are exactly those no local connection took the message for. |
| `PushDelivery.PushService.GroupByPeer` | push/source/push_server.h:330-347 | Step 2: every peer with a routed device of a remaining member is told of the member, and a peer is told only of remaining members with a device on it. |
| `PushDelivery.PushService.PushToPeers` | push/source/push_server.h:349-380 | Step 3: if no peer fails, every device of every member sent to a peer is in the ledger. |
| `PushDelivery.PushService.OnPushMessage` | push/source/push_server.h:248-382 | Ack implies, for every numbered member with a routed device, an entry written during this call, and one for every routed device if no local connection took the payload. If one did, whatever the outcome, no device of the member on another instance gets an entry (members and device ids listed once). When no call fails and every connection takes what it is sent, the message is acked, and a member with devices elsewhere has all routed devices covered if and only if it has none here. After Ack every local device of every member was handed the message, and where no local connection took it every device on a peer was handed it by that peer. |
| `PushDelivery.CoveredExactlyIfNotTaken` | push/source/push_server.h:325-347 | So after Ack, for a member with a device on another instance, all routed devices have an entry if and only if no local connection took the message. |
| `PushDelivery.TakenHereMissesPeers` | push/source/push_server.h:325-325 | A run of onPushMessage for a user with one device here and one on a peer, in which nothing fails: the message is acked, the device here took it, and the device on the peer has no entry. |
| `PushDelivery.PushService.HeartbeatResend` | push/source/push_server.h:549-576 | Resending sends exactly the ledger entries that peek finds due, so every numbered send stays backed by an earlier entry, and within the same call puts off all of a device's together. |
| `PushDelivery.PushService.OnPushAck` | push/source/push_server.h:387-406 | A client's ack takes exactly its own number off the ledger, if and only if the message is complete and comes over a connection of the user and device it names; no other entry changes. |
| `PushDelivery.Coverage` | push/source/push_server.h:325-347 | Local entries and a full set from any one peer add up to the coverage that Ack promises. |
| `RefreshRotation.ExchangedAtMostOnce` | identity/source/identity_server.h:233-271 | In every interleaving of RefreshToken calls, logins, logouts and expiries, with s the longest time a call takes from reading the active pointer to replacing it and t the refresh lifetime: if min(s, t) + s is within the chain lifetime, no refresh token is exchanged twice, also after its chain key expired. |
| `RefreshRotation.OutlastedChainExchangesTwice` | common/auth/jwt_store.hpp:129-150 | For all other positive lifetimes and stalls, although each call stays within its own stall, there is a run that exchanges one token twice. |
| `RefreshRotation.SafeExactlyIfChainOutlasts` | common/auth/jwt_store.hpp:129-150 | So the condition is exact: all runs are safe if and only if it holds, or no token can pass verification at all. |
| `RefreshRotation.ClaimNeedsDeath` | common/auth/jwt_store.hpp:135-142 | A second claim of a token's chain key can only succeed after the first claimant is too late to rotate. |
| `RefreshRotation.StepKeepsInv` | identity/source/identity_server.h:233-271 | Each Redis command of each call keeps replaced tokens out of the active pointers and at most one live claim per token. |
| `RefreshRotation.InvReached` | identity/source/identity_server.h:233-271 | That holds throughout every interleaving. |
| `RefreshRotation.RefreshAlone` | identity/source/identity_server.h:233-271 | RefreshToken undisturbed: a token that is forged, expired or blacklisted changes nothing; one that is not active or was claimed within 86400 seconds is blacklisted and its owner loses the active pointer; any other is exchanged, claimed, blacklisted until it expires, and the new one active. |
| `RefreshRotation.ExchangedIsBlacklisted` | identity/source/identity_server.h:264-271 | In every interleaving, whatever the lifetimes, an exchanged token is blacklisted as long as it would pass verification. |
| `RefreshRotation.BlacklistedFails` | identity/source/identity_server.h:237-241 | A call that finds its token blacklisted fails for good, and neither pointers nor chain keys change. |
| `RefreshRotation.ReplayIsRefused` | identity/source/identity_server.h:237-241 | So a token presented again after its exchange is refused at the blacklist while it lasts, and the owner's new pointer stays. |
| `LruCache.LocalCache.GetEntry` | common/utils/local_cache.hpp:46-74 | get answers with a live entry only, and its effect on map, list and counters is the one the run results are about. |
| `LruCache.LocalCache.SetEntry` | common/utils/local_cache.hpp:76-108 | set, including a non-positive lifetime, capacity zero and the order of expiry, insertion and eviction. |
| `LruCache.LocalCache.SetEntryIfAbsent` | common/utils/local_cache.hpp:111-140 | set_if_absent stores exactly where no live entry is, and touches the one it finds. |
| `LruCache.LocalCache.InvalidateKey` | common/utils/local_cache.hpp:142-146 | invalidate removes the entry from map and list. |
| `LruCache.LocalCache.EraseExpired` | common/utils/local_cache.hpp:187-199 | The sweep loop removes exactly the expired entries, in whatever order it visits the map, and counts them. |
| `LruCache.LocalCache.EvictExpiredEntries` | common/utils/local_cache.hpp:153-161 | evict_expired returns by how much the cache shrank. |
| `LruCache.LocalCache.EvictOverCapacity` | common/utils/local_cache.hpp:201-215 | The eviction loop, whose victims FitSound characterises. |
| `LruCache.SinceIsLater` | common/utils/local_cache.hpp:177-180 | The keys touched since a key are exactly those with a later last touch: two readings of recency in the log agree. |
| `LruCache.ListingSize` | common/utils/local_cache.hpp:177-185 | A list in strict last-touch order of the map's keys has no duplicates and the map's size. |
| `LruCache.TouchKeeps` | common/utils/local_cache.hpp:177-180 | Splicing a touched key to the front keeps the list in strict last-touch order. |
| `LruCache.EvictSound` | common/utils/local_cache.hpp:201-215 | An eviction over capacity keeps the whole invariant; its victim is gone because at least max_entries other keys were touched later. |
| `LruCache.FitSound` | common/utils/local_cache.hpp:201-215 | The eviction loop ends within capacity, evicts only keys less recently touched than all that stay, and never below capacity. |
| `LruCache.CallKeepsGood` | common/utils/local_cache.hpp:46-161 | Every call keeps the invariant. |
| `LruCache.RunsAreSound` | common/utils/local_cache.hpp:46-215 | After any calls on a monotone clock: the list is a duplicate-free listing of the map's keys in strict last-touch order, size is within max_entries, each entry is its key's latest write, and insertions = size + evictions + expirations + removals by invalidation. |
| `LruCache.GetIsLatestWrite` | common/utils/local_cache.hpp:46-74 | After any calls get returns only the latest, unexpired, uninvalidated write of its key; and it does return it unless max_entries other keys were touched since. |
| `LruCache.SetStoresAndTrims` | common/utils/local_cache.hpp:76-140 | After any calls, a set or set_if_absent that finds no live entry stores its own, keeps only live entries, and drops a live one only if max_entries more recently touched ones stay. |
| `Inflight.InflightRegistry.Acquire` | common/utils/inflight.hpp:46-60 | acquire takes one reference on the key's mutex, a new one only if the key has none. |
| `Inflight.InflightRegistry.Release` | common/utils/inflight.hpp:62-71 | release gives one back and removes the entry with the last. |
| `Inflight.Guard.MoveFrom` | common/utils/inflight.hpp:24-27 | A moved-from guard holds nothing and will release nothing. |
| `Inflight.Guard.MoveAssign` | common/utils/inflight.hpp:28-37 | Move assignment releases what the target held and takes over; on itself it does nothing. |
| `Inflight.Guard.Destroy` | common/utils/inflight.hpp:20-20 | Destruction releases what the guard holds. |
| `Inflight.StepKeepsInv` | common/utils/inflight.hpp:14-71 | Declaring, acquiring, moving, assigning and destroying keep counts, sharing and distinctness of mutexes. |
| `Inflight.EntriesCountGuards` | common/utils/inflight.hpp:46-71 | After any of these, a key has an entry if and only if it has a live guard, and its count is their number: no entry survives its last guard. |
| `Inflight.GuardsShareOneMutex` | common/utils/inflight.hpp:46-60 | Two live guards have the same mutex if and only if they have the same key. |
| `RouteLoads.Exclusive` | push/source/push_server.h:687-717 | Two threads past the lock for one key are the same thread. |
| `RouteLoads.StepKeepsInv` | push/source/push_server.h:677-717 | Every cache, registry and lock access of every thread keeps guards, locks, misses and counts consistent. |
| `RouteLoads.OneLoadPerKey` | push/source/push_server.h:687-717 | In every interleaving at most one thread per key loads a route from Redis; without a registry, at most one at all. |
| `RouteLoads.LoadsAreBounded` | push/source/push_server.h:693-713 | With a route cache, the loads of a key are at most one more than the times its entry was dropped or its load failed. |
| `RouteLoads.LookupAlone` | push/source/push_server.h:677-717 | A lookup with nobody in the way: a cached route costs no load; otherwise there is exactly one, cached unless it fails; registry and locks are as before. |
| `RouteLoads.NeverStuck` | push/source/push_server.h:687-717 | While any lookup is under way some thread can take its next step: no lock is left behind. |
| `RouteLoads.IdleLeavesNothing` | push/source/push_server.h:715-716 | When all threads are done the registry is empty and no mutex is held. |
| `Snowflake.SnowflakeId.Create` | common/infra/snowflake.hpp:49-59 | A worker number of 1024 or more is refused. |
| `Snowflake.SnowflakeId.WaitUntil` | common/infra/snowflake.hpp:107-117 | The loop returns the first reading that reached the target, whatever the readings before it. |
| `Snowflake.SnowflakeId.NextId` | common/infra/snowflake.hpp:62-85 | Next on any clock readings: refusal of a rollback over a second before anything changes, waiting, sequence wrap-around. |
| `Snowflake.PartsShow` | common/infra/snowflake.hpp:92-97 | An id can be taken apart into the time, worker and sequence it was made of. |
| `Snowflake.ComposeJoinsBits` | common/infra/snowflake.hpp:92-97 | The id is the 64-bit expression of shifts and `|`, bit by bit, for worker and sequence in range. |
| `Snowflake.SequenceMasksBits` | common/infra/snowflake.hpp:77-77 | Counting the sequence modulo 4096 is the mask of twelve ones. |
| `Snowflake.NextIsLater` | common/infra/snowflake.hpp:62-85 | Each id is made at a later time than the one before, or at the same time with a greater sequence number. |
| `Snowflake.IdsIncrease` | common/infra/snowflake.hpp:62-117 | For any clock readings in range, in any order, the ids of one generator strictly increase. |
| `Snowflake.RefusesExactlyOnRollback` | common/infra/snowflake.hpp:62-85 | After any ids, a call is refused if and only if the clock is more than 1000 milliseconds behind the time in the last id, or behind at all where the generator does not wait, and then nothing changes; any other call returns an id once the clock is past that time. |
| `Snowflake.WorkersNeverCollide` | common/infra/snowflake.hpp:62-97 | Generators with different workers never return equal ids, even if their epochs differ. |
| `Snowflake.FarTimesCollide` | common/infra/snowflake.hpp:92-97 | The range is needed: times 2^42 milliseconds apart give equal ids. |
| `Snowflake.LastMillisecondRepeats` | common/infra/snowflake.hpp:76-82 | So is its end: in the last 64-bit millisecond the wait target wraps to zero, and once the sequence is used up the first id is returned again. |
| `TextCodecs.ParseCacheVersion` | common/utils/cache_version.hpp:14-27 | A version is returned if and only if the text is a non-empty digit string standing for less than 2^64 - 1, and it is that number; the accumulator never wraps. |
| `TextCodecs.RoundTrip` | common/utils/reliability_state.hpp:22-65 | A serialized idempotency state parses back to itself if and only if it is Empty, Pending, or Accepted or Persisted with a non-zero id. |
| `TextCodecs.ParsedIsSerialized` | common/utils/reliability_state.hpp:22-65 | A text that parses to Accepted or Persisted is the one written for that state if and only if its id has no leading zero. |
| `TextCodecs.DecimalHasValue` | common/utils/reliability_state.hpp:56-59 | Decimal output reads back as the same number and has no leading zero unless it is 0. |

## Left out

- MySQL, Elasticsearch, object storage, mail, speech, etcd, brpc and RabbitMQ clients: a database read or commit is one atomic step, and a remote call succeeds, fails or loses its reply.
- `Members::add` and `Members::remove` (common/dao/data_redis.hpp:1106-1118): on a cold cache they create a partial set, which the coherence result does not cover; no service calls them.
- Signing and verifying tokens, hashing, base64, protobuf and JSON: tokens are claim records and payloads opaque values.
- Leader election, worker-id leases, `RedisMutex`: they rest on wall-clock leases of external services.
- Media, gateway, presence, relationship and transmite handlers, logging, metrics callbacks, connection and channel tables: they would only add easy members.
- Memory orders: atomics are sequentially consistent, and the breaker's 64-bit generation does not wrap.
- The failure threshold of the breaker is stated with each call as one step only: a late `fetch_add` (common/utils/redis_circuit_breaker.hpp:102) can fall into a newer generation.
- Redis failures inside the members cache scripts and the token store: they count as a step that did not happen, except that RefreshRotation takes Redis as working throughout, where the code lets a call pass when the chain key cannot be written.
- TTL jitter: keys of the two fenced caches may expire at any time, which covers every lifetime.
- LocalLimiter.LocalRateLimiter.Allow: doubles are reals, timestamps do not go back and each call is one step; an older timestamp would move the refill time back. The shared counter under concurrency is BucketCounter's subject, which leaves token amounts out.
- RefreshRotation.BlacklistedFails: access tokens and their part of the blacklist are left out; their ids are never those of refresh tokens.
- RefreshRotation.StepKeepsInv: the new token is made together with the claim of the chain key; the code signs it just before (identity/source/identity_server.h:253-256), and one signed for a claim that fails is never stored or handed out.
- TokenBucket.RateIsBounded: timestamps do not go back.
- PushDelivery.PushService.OnPushMessage: routes are fixed during the call, and expiry and acks of ledger entries are not part of this promise; the order in which peers and members are visited is any.
- PushDelivery.PushService.HeartbeatResend: scores are not part of this ledger; that the bump is asked for is recorded, whether it succeeds or its failure is swallowed, and UnackedLedger has what bumping does. The skipping of payloads that decode to nothing is left out: none is ever written.
- PushDelivery.PushService.LocalSend: how many connections take a payload is up to the network.
- UnackedLedger.LiveIsToldLast: times to live that EXPIRE refuses are left to LiveIsLastWord, since the deadline then depends on what the ledger held.
- UnackedLedger.PeekReturnsLiveDue: members with equal scores may come in any order.
- BatchFill.UserInfoStore.BatchSetIfGeneration: numbers in text are integers and compared exactly, where Lua compares them as doubles; a server out of memory during SET is not modelled.
- Pipeline.InStepReached: a guarded call under way is kept among the pipeline objects, so the runs include some that move or queue on one, which the source does not.
- LruCache.LocalCache.GetEntry: the list position stored in an entry is modelled as the place of its key in the list, which the invariant shows to be unique.
- RouteLoads.OneLoadPerKey: a lookup without an online-route store returns at once and is not modelled.
- Snowflake.IdsIncrease: timestamps are at or after the epoch, less than 2^42 milliseconds after it and not the last 64-bit value; FarTimesCollide and LastMillisecondRepeats show why.
- Snowflake.SnowflakeId.NextId: a call that waits for ever keeps the lock; it ends as Blocked when the readings given to it run out, and no call follows it.
