# Verified model of the PhonePe SDK's concurrent core

Most of the SDK builds and parses JSON. Inside it sit a few small mechanisms that several threads share,
and these are modelled here in Dafny:

- **Token service** (`TokenTiming`, `TokenMachine`, `TokenInvariant`, `TokenTheorems`, `TokenSolo`,
  `RefresherSolo`, `TokenLimits`, `TokenRefresh`):
  any number of callers, the 401 path, one starter, closers and the background refresher share one cached
  token, a lock, a stop event and a wake event. `TokenMachine` has one step per shared read or write, lock,
  event and network operation, and its theorems speak of every interleaving and every timing. `TokenSolo`
  and `RefresherSolo` say what each call and each part of the refresher's loops comes to when the other
  threads stand still, and `TokenLimits` where the service
  promises less than one might expect, with the exact condition and a run for each.
  `TokenRefresh` is the code of the guarded fetch and of the retry loop as methods of a class, with the
  steps of all other threads let in wherever the lock is not held.
- **Recycling connection pool** (`RecyclingPool`, `PoolMachine`, `PoolRefinement`, `PoolStaleness`):
  check-out, return and the sweep as methods of a class; the same under any interleaving of one sweeper
  with any number of requests; a proof that an uninterrupted sweep of the second is the sweep of the
  first; and timed runs with atomic sweeps.
- **Client cache** (`InstanceCache`, `InstanceSolo`): the double-checked look-up with lazily created per-key locks,
  concurrent with `close()`. A log of the moments at which calls take effect makes it a refinement of an
  atomic map.
- **Events** (`EventQueue`, `EventMachine`): the bounded queue, the batching loop and the flush as methods
  of classes, and the same with concurrent producers.
- **Client life cycle** (`ClientLifecycle`): clean-up after a failing construction, and `close()`.

How to read it: references to tokens are version numbers (0 is None, v is the v-th object ever stored),
which is what object identity amounts to while a caller keeps its snapshot alive. State fields described as
history decide no step; theorems use them to speak about the past. A run is any sequence of actions that
`Exec` accepts, so each theorem about `Reachable` states is about every run. Proofs about a machine go
thread by thread: a step keeps the moving thread's part of the invariant and disturbs nobody else's.

Where the code and its documentation differ, the model follows the code:

- The guard in `_fetch_and_store_token` is described as avoiding redundant fetches. The snapshot is taken
  after the validity check, so a caller can fetch over a perfectly fresh token. In every interleaving that
  takes a store since its check began (`TokenLimits.RedundantOnlyAfterStore`), and a caller about to take its
  snapshot, left alone, does so exactly if a valid token was stored since (`RedundantFetchExactly`).
- The lock-free validity test can mix fields of two tokens. It is sound in every run that stores a given
  sequence of tokens if and only if no mix of an older and a newer one outlasts the last
  (`TokenLimits.FastPathExactly`). Time stamps that never decrease suffice; `TornVerdictCanMislead` is a run
  that returns a token past its half-life.
- The pool's comments and the README speak of idle time; the code measures the time since a connection was
  opened. `PoolStaleness.IdleAreSwept` and `JustUsedIsSwept` say how the two compare.
- The adapter's comment promises that nothing idle waits much longer than 1.5 times the keep-alive limit.
  With the one-second floor of the sweep interval that holds in all runs exactly for limits of two seconds
  and more (`PoolStaleness.OneAndAHalfExactly`); the exact bound for every limit is proved, and attained.
- A 401 is meant to come from the API request. But `get_auth_token` runs inside the same `try`, so when its
  own fetch is refused with a 401 and no token is cached, and only then, the 401 path starts a second fetch
  although no request was sent (`TokenLimits.SecondFetchExactly`).

Assumptions: stored tokens have integer time stamps. Publishing an event does not raise, except that inside
the refresher's `try` anything may raise at any point. `start()` is called once, and callers may use the
service before it. The wall clock is monotone and agrees with the timers of waits. Pool and adapter are not
closed in the middle of a sweep. Pool size and keep-alive limit are positive, as `HttpClientConfig` demands.
urllib3's queue is a bounded stack whose single operations are atomic, and each check-out is followed by
exactly one return. The cache key is an abstract value.

## Model

| member | source | states |
|---|---|---|
| TokenTiming.TornVerdict | phonepe/sdk/pg/common/token_handler/token_service.py:134-139 | a verdict computed from the `issued_at` of one token and the `expires_at` of another holds for any token at least as late in both |
| TokenTiming.ValidIffSecondLeft | phonepe/sdk/pg/common/token_handler/token_service.py:134-139 | the floored integer test says valid exactly when the unrounded half-life used by the sleep is at least one second away |
| TokenTiming.SleepEndsAtHalfLife | phonepe/sdk/pg/common/token_handler/token_service.py:279-286 | the sleep lasts between a second and a day; from a valid token it ends exactly at the mean of the two time stamps, unless that is more than a day away, and never later; from an expired one it lasts a second |
| TokenTiming.SleepOutlastsTokenExactly | phonepe/sdk/pg/common/token_handler/token_service.py:266-286 | a sleep is sure to outlast its token if and only if the half-life is less than one day and one second away |
| TokenTiming.RetryDelayNondecreasing | phonepe/sdk/pg/common/token_handler/token_service.py:345-348 | backoff delays never decrease and stay within 1 to 30 seconds |
| TokenTiming.TotalDelayClosedForm | phonepe/sdk/pg/common/token_handler/token_service.py:345-348 | n failures cost 2^n - 1 seconds of backoff up to five failures, and 31 + 30(n - 5) from there on |
| TokenInvariant.OwnStep | phonepe/sdk/pg/common/token_handler/token_service.py:126-356 | every step of every thread keeps the invariant of shared memory and of that thread, and stays within what each other thread relies on |
| TokenInvariant.Stable | phonepe/sdk/pg/common/token_handler/token_service.py:126-356 | no step of another thread, nor the clock, disturbs a thread's part of the invariant |
| TokenTheorems.OnlyFreshStoresChangeCache | phonepe/sdk/pg/common/token_handler/token_service.py:212-230 | the cache changes only when the lock holder stores a new object over the very token it had snapshotted; skips and failures leave it alone |
| TokenTheorems.OneStorePerSnapshot | phonepe/sdk/pg/common/token_handler/token_service.py:225-230 | of all callers with the same snapshot at most one stores, and no version is overwritten twice |
| TokenTheorems.CacheGrows | phonepe/sdk/pg/common/token_handler/token_service.py:225-230 | over every run versions only grow, stored objects never change, the cache never returns to None, and stop is never undone |
| TokenTheorems.FastPathSound | phonepe/sdk/pg/common/token_handler/token_service.py:129-143 | if time stamps never decrease, the token returned without a fetch was before its half-life at the sampled time, however the lock-free reads were torn |
| TokenTheorems.GetReturnsToken | phonepe/sdk/pg/common/token_handler/token_service.py:141-187 | a call that began with a token cached hands out one at least as new, whatever the fetches do, to its caller or into the header of an API request, which is then always sent; None is never dereferenced |
| TokenTheorems.SeenNeverGoesBack | phonepe/sdk/pg/common/token_handler/token_service.py:141-187 | the tokens handed to one thread never go backwards over a run |
| TokenTheorems.CallsEnd | phonepe/sdk/pg/common/token_handler/token_service.py:141-230 | every call of a caller ends within 17 steps of its own, with an outcome |
| TokenTheorems.CallersNeverStuck | phonepe/sdk/pg/common/token_handler/token_service.py:141-230 | until its call has ended a caller can step, or, if it waits for the token lock, the thread holding that can |
| TokenTheorems.RejectedTokenReplaced | phonepe/sdk/pg/common/base_client.py:167-178 | when `force_refresh_token` returns after a 401, the cached token is strictly newer than the rejected one, and stays so |
| TokenTheorems.RequestBudget | phonepe/sdk/pg/common/base_client.py:164-178 | one API call sends at most one API request and starts at most two fetches; every other call starts at most one, a close none |
| TokenTheorems.AnswerDecides | phonepe/sdk/pg/common/base_client.py:167-184 | in every run an API call that sent its request goes on to a forced refresh if and only if it was answered with a 401, and completes if and only if it was answered otherwise |
| TokenTheorems.ForcedRefreshNotLost | phonepe/sdk/pg/common/token_handler/token_service.py:202-210 | at any time after a forced refresh, a refresher blocked with the wake event clear sleeps on a schedule computed from a token at least that new |
| TokenTheorems.CloseNotLost | phonepe/sdk/pg/common/token_handler/token_service.py:193-200 | once `close()` has set both events, the refresher is never blocked with the wake event clear |
| TokenTheorems.FetchesPaced | phonepe/sdk/pg/common/token_handler/token_service.py:266-307 | in every timed run the refresher's fetches start at least one second apart |
| TokenTheorems.AttemptsBackOff | phonepe/sdk/pg/common/token_handler/token_service.py:309-356 | the n-th attempt of one refresh starts only after the whole backoff of its n - 1 failures |
| TokenTheorems.TimeoutMeansExpired | phonepe/sdk/pg/common/token_handler/token_service.py:279-301 | a sleep that timed out, its half-life less than a day and a second away, was computed from fields of stored tokens and ends with that token, or with monotone time stamps every token the fields came from, no longer valid |
| TokenTheorems.AtMostOneLateFetch | phonepe/sdk/pg/common/token_handler/token_service.py:288-356 | the refresher starts at most one fetch after the stop event is set |
| TokenTheorems.RefresherRunsOut | phonepe/sdk/pg/common/token_handler/token_service.py:288-356 | after the stop event is set it takes at most 14 more steps, from any point of both loops and the handler |
| TokenTheorems.NoDeadlockAfterClose | phonepe/sdk/pg/common/token_handler/token_service.py:193-200 | after `close()` the refresher, until it has exited, can step, or the thread holding the token lock can |
| TokenSolo.LazyAlone | phonepe/sdk/pg/common/token_handler/token_service.py:141-187 | `get_auth_token` undisturbed, for its caller or for an API request: a valid cached token is handed out without a fetch; otherwise one fetch decides between the new token, the cached one, and the error, and nothing else in memory changes |
| TokenSolo.GetAlone | phonepe/sdk/pg/common/token_handler/token_service.py:141-187 | the same, for a direct call |
| TokenSolo.ForceAlone | phonepe/sdk/pg/common/token_handler/token_service.py:202-210 | undisturbed, `force_refresh_token` makes one fetch, however valid the cached token looks: success replaces it and wakes the refresher, failure is raised and changes nothing |
| TokenSolo.SkippedAlone | phonepe/sdk/pg/common/token_handler/token_service.py:225-227 | with something stored since the snapshot no fetch is made: the newer token is handed out, the forced refresh counts as done and wakes the refresher, the refresher returns to its loop |
| TokenSolo.StartAlone | phonepe/sdk/pg/common/token_handler/token_service.py:109-124 | `start()` makes one fetch and starts the refresher, unless the fetch fails with a client error other than "too many requests", which is raised instead |
| TokenSolo.CloseAlone | phonepe/sdk/pg/common/token_handler/token_service.py:193-197 | `close()` sets both events and changes nothing else |
| TokenSolo.AcceptedAlone | phonepe/sdk/pg/common/base_client.py:167-184 | an accepted request completes the call and touches no token |
| TokenSolo.ApiAlone | phonepe/sdk/pg/common/base_client.py:164-184 | a call with a valid token cached sends that token without a fetch and completes with the memory unchanged, or, answered with a 401, makes one forced fetch |
| TokenSolo.RejectedAlone | phonepe/sdk/pg/common/base_client.py:175-178 | undisturbed, a 401 leads to one fetch: its success replaces the cached token and wakes the refresher, its failure is raised and changes nothing |
| RefresherSolo.SleepAlone | phonepe/sdk/pg/common/token_handler/token_service.py:266-291 | undisturbed, the refresher goes to sleep until less than a second after the real half-life of the token now cached, a second from now if that is past, a day from now if that is too far, and no time at all if none is cached |
| RefresherSolo.WakeAlone | phonepe/sdk/pg/common/token_handler/token_service.py:291-301 | a wait ends with the wake event or at its deadline; the event is cleared, a stop is heeded first, a wake-up leads back to the loop and a time-out to the refresh |
| RefresherSolo.WokenAlone | phonepe/sdk/pg/common/token_handler/token_service.py:291-300 | woken, the refresher fetches nothing and is back asleep with the wake event clear, on a schedule from the token now cached |
| RefresherSolo.TimedOutAlone | phonepe/sdk/pg/common/token_handler/token_service.py:291-317 | from its deadline on a sleep times out, and a fetch follows unless the cached token is valid |
| RefresherSolo.DueTokenIsFetched | phonepe/sdk/pg/common/token_handler/token_service.py:288-317 | in every run, a refresher whose deadline has passed with the token its sleep was computed from still cached is enabled to go on to a fetch that replaces exactly that token |
| RefresherSolo.FetchedAlone | phonepe/sdk/pg/common/token_handler/token_service.py:316-328 | a fetch that succeeds stores its token and ends the refresh |
| RefresherSolo.FailedAlone | phonepe/sdk/pg/common/token_handler/token_service.py:329-355 | one that fails changes nothing and is followed by a pause of exactly the backoff |
| RefresherSolo.RetryAlone | phonepe/sdk/pg/common/token_handler/token_service.py:311-356 | after the pause the next attempt fetches, unless the cached token has become valid |
| RefresherSolo.HandlerAlone | phonepe/sdk/pg/common/token_handler/token_service.py:303-307 | whatever is raised inside the `try`, the thread survives and pauses for exactly a second |
| TokenSolo.SoloIsRun | phonepe/sdk/pg/common/token_handler/token_service.py:126-356 | the steps of one thread standing alone are a run of the whole machine |
| TokenLimits.RedundantOnlyAfterStore | phonepe/sdk/pg/common/token_handler/token_service.py:141-147 | in every interleaving, a lazy fetch over a valid token overwrites a token stored after the caller's validity check began |
| TokenLimits.RedundantFetchExactly | phonepe/sdk/pg/common/token_handler/token_service.py:141-147 | a caller about to take its snapshot, left alone, fetches over a valid token if and only if a valid one was stored since its check began |
| TokenLimits.FreshTokenRefetched | phonepe/sdk/pg/common/token_handler/token_service.py:141-147 | a run, begun by a start() whose fetch failed for a transient reason, in which `get_auth_token` is fetching although the cached token is valid |
| TokenLimits.FastPathExactly | phonepe/sdk/pg/common/token_handler/token_service.py:129-143 | for every sequence of stored tokens: in all runs storing them the fast path returns only tokens before their half-life, if and only if no mix of an older `issued_at` and a newer `expires_at` outlasts the last token |
| TokenLimits.MonotoneIsTornSafe | phonepe/sdk/pg/common/token_handler/token_service.py:134-139 | time stamps that never decrease meet that condition |
| TokenLimits.TornVerdictCanMislead | phonepe/sdk/pg/common/token_handler/token_service.py:129-143 | a run in which a call returns a token without a fetch although no stored token was valid at the sampled time |
| TokenLimits.SecondFetchNeeds | phonepe/sdk/pg/common/base_client.py:167-178 | an API call with two fetches and no request began with nothing cached and had its own fetch refused with a 401 |
| TokenLimits.SecondFetchExactly | phonepe/sdk/pg/common/base_client.py:167-178 | the response to an API call's own fetch leads to the forced one if and only if it is a 401 and nothing is cached |
| TokenLimits.SecondFetchWithoutRequest | phonepe/sdk/pg/common/base_client.py:167-178 | a run with such a call |
| TokenRefresh.TokenService.FetchAndStoreToken | phonepe/sdk/pg/common/token_handler/token_service.py:212-230 | skips exactly if something was stored since the snapshot when the lock is acquired; otherwise a response stores exactly one new object and an error nothing |
| TokenRefresh.TokenService.IsCachedTokenValid | phonepe/sdk/pg/common/token_handler/token_service.py:129-139 | with other threads storing between its reads, the verdict is exactly that of two fields read from tokens at least as new as the one cached at the call; undisturbed it is the cached token's; with monotone time stamps a positive one speaks for the token cached at the end and a negative one against the token cached at the call |
| TokenRefresh.TokenService.GetAuthToken | phonepe/sdk/pg/common/token_handler/token_service.py:141-187 | under interference, returns a token at least as new as the one cached at the call; raises only on a failed fetch with none cached; does not fetch if the token cached at the call was valid, undisturbed or with monotone time stamps; without a fetch returns a valid or newer one |
| TokenRefresh.TokenService.ForceRefreshToken | phonepe/sdk/pg/common/token_handler/token_service.py:202-207 | a normal return means the cached token is strictly newer than at the call |
| TokenRefresh.TokenService.Attempt | phonepe/sdk/pg/common/token_handler/token_service.py:316-356 | one attempt: others stored first, or one fetch that began at `started`; only a failure pauses, for the whole delay or until the stop event |
| TokenRefresh.TokenService.RefreshWithRetry | phonepe/sdk/pg/common/token_handler/token_service.py:309-356 | gaps between fetches are at least the backoff delays and the pauses asked for are exactly those, all but the last response failed; no fetch starts while the token cached at the start is valid; the loop ends only on a positive verdict about newer fields, a newer token, or the stop event |
| RecyclingPool.Pool.GetConn | phonepe/sdk/pg/common/http_client_modules/recycling_http_adapter.py:69-87 | takes the top slot or mints a connection, and waits exactly if there is none and the pool blocks; an open connection within the limit is handed out untouched, any other recorded as opened now; a close that raises reaches the caller |
| RecyclingPool.Pool.PutConn | phonepe/sdk/pg/common/http_client_modules/recycling_http_adapter.py:56-58 | puts the slot back, or closes what is returned to a full pool |
| RecyclingPool.Pool.EvictIdleConnections | phonepe/sdk/pg/common/http_client_modules/recycling_http_adapter.py:114-158 | one undisturbed sweep leaves the reversed content with exactly the over-age connections replaced by None and untracked, whichever `close()` calls raise |
| RecyclingPool.SweptStackAt | phonepe/sdk/pg/common/http_client_modules/recycling_http_adapter.py:117-138 | slot by slot: slot i after the sweep is slot n - 1 - i before, emptied exactly if over age |
| RecyclingPool.SweptContent | phonepe/sdk/pg/common/http_client_modules/recycling_http_adapter.py:126-138 | the connections still pooled are exactly the pooled ones within the limit |
| RecyclingPool.SweepTwice | phonepe/sdk/pg/common/http_client_modules/recycling_http_adapter.py:114-138 | a second sweep at the same instant evicts nothing and restores the order |
| PoolMachine.StepKeepsInv | phonepe/sdk/pg/common/http_client_modules/recycling_http_adapter.py:69-158 | every request and sweeper step, at the granularity of single queue operations, keeps slots, places of connections and open times consistent |
| PoolMachine.BlockingPoolConservesSlots | phonepe/sdk/pg/common/http_client_modules/recycling_http_adapter.py:105-113 | with `block`, queued + checked out + sweeper-held is always the pool size, and no put by anyone who owes a slot is refused |
| PoolMachine.QuietPoolIsFull | phonepe/sdk/pg/common/http_client_modules/recycling_http_adapter.py:105-113 | in any pool that sum never drops below the pool size, and a quiet pool has exactly its size in the queue |
| PoolMachine.NoConnectionLost | phonepe/sdk/pg/common/http_client_modules/recycling_http_adapter.py:126-158 | in every state, each connection ever created is queued once, or with one request, or still held by the sweeper, or let go after its `close()` was called since its socket was last opened; so it leaks no open socket unless that very call raised |
| PoolMachine.QueuedIsTracked | phonepe/sdk/pg/common/http_client_modules/recycling_http_adapter.py:69-87 | every queued connection has a recorded open time no later than its actual connect |
| PoolMachine.NoStaleHandout | phonepe/sdk/pg/common/http_client_modules/recycling_http_adapter.py:81-87 | no request is handed an open socket older than the limit, measured from its actual connect |
| PoolMachine.SweepEnds | phonepe/sdk/pg/common/http_client_modules/recycling_http_adapter.py:117-158 | with `block`, whatever requests do, a sweep drains at most the pool's size and ends within 4 * maxsize + 2 steps of its own; without, the refill after n drained items ends within 3n + 1; it is never stuck |
| PoolMachine.DrainUnbounded | phonepe/sdk/pg/common/http_client_modules/recycling_http_adapter.py:119-123 | without `block` there is, for every n, a run in which one sweep drains n items from a pool of size one |
| PoolRefinement.UninterruptedSweep | phonepe/sdk/pg/common/http_client_modules/recycling_http_adapter.py:114-158 | an uninterrupted run of the concurrent sweeper, however `close()` behaves, ends with the sequential sweep's queue and open times |
| PoolRefinement.UninterruptedSweepEnds | phonepe/sdk/pg/common/http_client_modules/recycling_http_adapter.py:114-158 | every sweep, left alone, comes to that end |
| PoolRefinement.UninterruptedSweepCloses | phonepe/sdk/pg/common/http_client_modules/recycling_http_adapter.py:126-154 | it leaves every other socket alone, and every connection it removes closed unless the last close() raised |
| PoolRefinement.CheckOutRefines | phonepe/sdk/pg/common/http_client_modules/recycling_http_adapter.py:69-87 | the machine's check-out hands over the top connection or a new one, untouched if open and within the limit, else closed and recorded as opened now; it waits exactly if the pool is empty and blocks |
| PoolRefinement.ReturnRefines | phonepe/sdk/pg/common/http_client_modules/recycling_http_adapter.py:56-58 | its return puts a healthy connection back if there is room and closes any other, and gives the slot back |
| PoolRefinement.TimedTakeAgrees | phonepe/sdk/pg/common/http_client_modules/recycling_http_adapter.py:69-87 | the atomic check-out of the timed runs has the same effect as the machine's |
| PoolRefinement.TimedGiveAgrees | phonepe/sdk/pg/common/http_client_modules/recycling_http_adapter.py:56-58 | and so has its return |
| PoolStaleness.PooledTimeBounded | phonepe/sdk/pg/common/http_client_modules/recycling_http_adapter.py:193-223 | with atomic sweeps at most one interval apart, no connection sits in the pool longer than the limit plus one interval, even if returned over age; once swept past, its age is bounded likewise |
| PoolStaleness.PooledTimeBoundTight | phonepe/sdk/pg/common/http_client_modules/recycling_http_adapter.py:193-223 | for every limit there is a run, its sweeps exactly one interval apart, that attains the bound |
| PoolStaleness.PooledWithinExactly | phonepe/sdk/pg/common/http_client_modules/recycling_http_adapter.py:193-223 | a bound holds for the pooled times of all runs of the sweep loop if and only if it is at least the limit plus one interval |
| PoolStaleness.OneAndAHalfExactly | phonepe/sdk/pg/common/http_client_modules/recycling_http_adapter.py:178-181 | the documented factor of 1.5 bounds the pooled times of all runs of the sweep loop if and only if the limit is at least two seconds |
| PoolStaleness.IdleAreSwept | phonepe/sdk/pg/common/http_client_modules/recycling_http_adapter.py:89-94 | a sweep removes exactly the pooled connections open for longer than the limit, hence all idle for longer |
| PoolStaleness.JustUsedIsSwept | phonepe/sdk/pg/common/http_client_modules/recycling_http_adapter.py:89-94 | a run of the sweep loop in which a connection in use until this instant, when a sweep is due, is swept |
| InstanceCache.RefinesAtomicMap | phonepe/sdk/pg/common/base_client.py:116-152 | the calls, ordered by when they take effect, are a legal history of atomic get-or-create and evict-if-same, and the dictionary is its result |
| InstanceCache.CallTookEffectOnce | phonepe/sdk/pg/common/base_client.py:130-152 | a finished call took effect exactly once after it began, as the operation whose result it returned: a hit without construction, a creation only after a construction that succeeded; it fails exactly if construction or announcement did |
| InstanceCache.OneBuildPerKey | phonepe/sdk/pg/common/base_client.py:131-152 | no two threads ever build or register for one key, and nothing is cached under it meanwhile |
| InstanceCache.OnlySameKeyBlocks | phonepe/sdk/pg/common/base_client.py:117-128 | a thread waits for a key lock only because of a call about the same key, and the registry lock is never held across a build |
| InstanceCache.NobodyStuck | phonepe/sdk/pg/common/base_client.py:117-152 | a call that has not ended can step, or the thread whose lock it waits for can |
| InstanceCache.CachedIsLive | phonepe/sdk/pg/common/base_client.py:186-215 | no cached client has begun to release its resources |
| InstanceCache.CloseKeepsSuccessor | phonepe/sdk/pg/common/base_client.py:208-215 | an entry leaves the cache only by the `close()` of the client it holds |
| InstanceCache.RegisteredIsEvictedPlusPresent | phonepe/sdk/pg/payments/v2/standard_checkout_client.py:92-106 | for each key, registrations = evictions + (1 if present), in every state |
| InstanceSolo.GetInstanceAlone | phonepe/sdk/pg/payments/v2/standard_checkout_client.py:92-106 | undisturbed, a hit returns the cached client; on a miss a construction that succeeds registers a new client, returned unless its announcement raises, and one that fails fails the call and registers nothing |
| InstanceSolo.SecondGetHits | phonepe/sdk/pg/common/base_client.py:145-151 | a second call for the key, by any thread, returns that client without building another |
| InstanceSolo.CloseAlone | phonepe/sdk/pg/common/base_client.py:208-215 | undisturbed, `close()` removes the client if it is the one cached under its key, leaves any other there, and then begins to release it |
| EventQueue.EventQueueHandler.EnqueueEvent | phonepe/sdk/pg/common/events/event_queue_handler.py:31-40 | appends unless the event is None or the queue is full, and then changes nothing |
| EventQueue.EventQueueHandler.Get | phonepe/sdk/pg/common/events/event_queue_handler.py:42-49 | takes the oldest event, or None from an empty queue |
| EventQueue.QueuedEventPublisher.CreateEventBatches | phonepe/sdk/pg/common/events/publisher/queued_event_publisher.py:38-53 | empties the queue into batches that are its content in order, all full but possibly the last, which is not empty |
| EventQueue.BatchingUnique | phonepe/sdk/pg/common/events/publisher/queued_event_publisher.py:38-53 | there is only one such batching |
| EventQueue.BatchCount | phonepe/sdk/pg/common/events/publisher/queued_event_publisher.py:38-53 | it has ceil(n / max) batches |
| EventQueue.FailureEventsCount | phonepe/sdk/pg/common/events/publisher/queued_event_publisher.py:55-65 | the token requests of a flush publish one event for each that failed and none for any other |
| EventQueue.QueuedEventPublisher.SendEvents | phonepe/sdk/pg/common/events/publisher/queued_event_publisher.py:55-78 | a flush takes everything queued and leaves one failure event for each of its batches whose token request failed, and so nothing if none did |
| EventQueue.FlushBacklog | phonepe/sdk/pg/common/events/publisher/queued_event_publisher.py:55-78 | a flush of n events leaves at most ceil(n / 10), and exactly that many if every fetch fails |
| EventQueue.QueuedEventPublisher.FlushRepeatedly | phonepe/sdk/pg/common/events/publisher/queued_event_publisher.py:67-78 | k flushes of n events with no other sender leave at most n / 10^k rounded up, with equality to the iterated bound if every fetch fails; from the fifth on at most one event, and under permanent failure exactly one; without failures none from the first on |
| EventMachine.NoEventLost | phonepe/sdk/pg/common/events/publisher/queued_event_publisher.py:38-81 | with any number of producers, flushed ++ held by the flush ++ queue is always the accepted events in order, and the queue keeps within its cap |
| EventMachine.FlushTakesItsCount | phonepe/sdk/pg/common/events/publisher/queued_event_publisher.py:41-53 | a flush takes exactly the events it counted, in ceil(n / max) batches, whatever arrives meanwhile |
| EventMachine.FlushFeedsItselfLess | phonepe/sdk/pg/common/events/publisher/queued_event_publisher.py:55-78 | a flush of n events puts at most ceil(n / max) of its own |
| EventMachine.FlushEnds | phonepe/sdk/pg/common/events/publisher/queued_event_publisher.py:67-78 | a flush always has a step to take, and each brings it closer to its end |
| EventMachine.FlushesShrinkBacklog | phonepe/sdk/pg/common/events/publisher/queued_event_publisher.py:67-78 | in every run without producer steps, k complete flushes leave at most n / 10^k of n queued events, rounded up, and from the fifth on at most one |
| EventMachine.FlushesUnderFailure | phonepe/sdk/pg/common/events/publisher/queued_event_publisher.py:67-78 | if moreover every fetch fails, they leave exactly the iterated bound, and from the fifth on exactly one event unless there was none |
| EventMachine.FlushesUnderSuccess | phonepe/sdk/pg/common/events/publisher/queued_event_publisher.py:67-78 | if no fetch fails, one complete flush empties the queue and puts nothing |
| EventMachine.FlushAlone | phonepe/sdk/pg/common/events/publisher/queued_event_publisher.py:38-78 | an undisturbed flush of the machine does what the sequential one does: it sends the whole queue as one batching and leaves one event for each failed token request |
| EventMachine.PuttingEnds | phonepe/sdk/pg/common/events/event_queue_handler.py:37-40 | a send that passed the size test ends with its event queued if there is room, and otherwise after its timeout without |
| EventMachine.SendAlone | phonepe/sdk/pg/common/events/event_queue_handler.py:31-40 | an event sent undisturbed is queued if there is room and dropped if there is not |
| ClientLifecycle.BaseClient.Construct | phonepe/sdk/pg/common/base_client.py:73-114 | the first failing step is reported; exactly the resources created before it have close() called once each, newest first, and are released except those whose own close() raised, which are logged |
| ClientLifecycle.BaseClient.ReleaseReversed | phonepe/sdk/pg/common/base_client.py:106-113 | every close() is called, newest first; those that raise are logged in order, all others release their resource |
| ClientLifecycle.BaseClient.Close | phonepe/sdk/pg/common/base_client.py:186-206 | all six steps run in order; a step that raises is logged and leaves only its own resource, or the cache entry, in place |
| ClientLifecycle.CleanUpOrder | phonepe/sdk/pg/common/base_client.py:106-114 | wherever construction stopped, nothing is closed twice and the publisher is closed before its sender |
| ClientLifecycle.ReversedContent | phonepe/sdk/pg/common/base_client.py:106-114 | the clean-up closes exactly what was created and does not touch the cache |
| ClientLifecycle.CloseOrder | phonepe/sdk/pg/common/base_client.py:192-202 | `close()` leaves the cache first, closes every resource once, and the publisher before its sender |

## Left out

- HTTP transport, sockets, TLS, urllib3 and APScheduler internals, logging: their outcomes are inputs of the steps (success, failure, a close that raises, a dropped connection).
- Hashing of the cache key and of callbacks: the key is an abstract value.
- Request and response classes, builders, enums, JSON, type mappers, status mapping, URL selection, header merging: field copying and single branches.
- API methods of the three clients, and `get_instance` of the other two clients: thin wrappers, and copies of the one modelled.
- Malformed tokens: only as the unexpected exception that may strike the refresher anywhere inside its `try`.
- A second `start()`, and the `join` with a timeout in `close()`: callers of `close()` do not wait in the model.
- Closing of the token service's own HTTP command: it follows the two event sets and shares no state with the refresher.
- The background loop as a class method: only as steps of `TokenMachine`, since its promises are about interleavings and time; `TokenRefresh` has the retry loop it calls.
- Pool or adapter closed in the middle of a sweep, and the adapter's table of pools per host: each pool is modelled alone.
- Weak references in the open-time table: entries of discarded connections simply stay.
- Sweeps interrupted by requests are covered by `PoolMachine`, but the time bounds of `PoolStaleness` are for atomic sweeps.
- The wait inside a blocking queue operation is a step that is not yet enabled; its timeout is modelled for `enqueue_event` and left out for `get` and for check-out.
- `task_done` bookkeeping of the event queue and the scheduler's start and shutdown.
- A `close()` that raises inside urllib3, when it drops a dead connection at check-out or discards one on return: only those of the SDK's own code may raise in the model.
- RecyclingPool.Pool.PutConn: urllib3's own return is not part of this repository; the model has its documented effect on a bounded LIFO.
- TokenRefresh.TokenService.RefreshWithRetry: observed for as many rounds as responses are given, since the loop itself may go on for ever.
- TokenTheorems.CallsEnd: bounds the steps of one call, but says nothing about fairness of the lock.
