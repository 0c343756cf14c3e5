# A verified model of the profile API's resilience core

The service turns LinkedIn profile URLs into profiles. Almost all of its difficulty is in what stands
between a request and LinkedIn: a guard with a concurrency gate and a two-level circuit breaker, a
size-bounded TTL cache, expiring marks for missing profiles and rejected caller sessions, single-flight
coalescing, bounded concurrent enrichment, a retry loop under one deadline, and an audit writer that must
neither block nor lose what it accepted. This project models those parts in Dafny and proves what they keep
over every run. `dafny verify dfyconfig.toml` checks all of it.

Time is an integer number of nanoseconds. Where the code depends on 64-bit durations (the doubling cooldown,
the Retry-After product, the retry backoff, `time.Time.Sub`) the wrap-around or saturation is written out
(`Int64` in `Domain.dfy`); everywhere else integers are unbounded.

## How it is built

A concurrent component has a transition system with one step per atomic action of the code, run over arbitrary
sequences of steps: that is every interleaving. The guard, the audit writer and the profile service also have
the object itself, a class whose methods change its fields as the code does; a ghost state of the transition
system rides along, and each method is proved to perform exactly the steps its contract lists, uninterrupted.
The service object runs enrichment one section after the other; the interleavings of its goroutines are a
transition system over the section join's own field update.

| file | part of the system | shape |
|---|---|---|
| `Breaker.dfy` | both sub-breakers and their composition | functions on values; classes `SubBreaker`, `TwoLevelBreaker` |
| `GuardProtocol.dfy`, `GuardSafety.dfy` | every interleaving of `Enter` (three atomic steps) and `release` (two) | transition system over tickets |
| `GuardStranding.dfy` | the step that loses a probe, and runs that lose one | iff lemmas; runs on one clock with a token bucket |
| `RetryAfter.dfy` | how long a Retry-After keeps traffic away | iff lemmas; runs on one clock that cut it short |
| `BreakerHistory.dfy` | a specification without counters, only a log | refinement |
| `UpstreamGuard.dfy` | `Guard` and the closure `Enter` returns | classes `Gate`, `Release` |
| `TtlCache.dfy` | the TTL cache | window specification; class `Cache` |
| `ExpiringMarks.dfy` | negative cache and caller tracker | classes `Tracker`, `CallerHealth` |
| `AuditWriter.dfy` | the audit writer | transition system; class `Writer` |
| `ServiceProtocol.dfy` | every interleaving of server and caller requests | transition system over results named by who allocated them |
| `ServiceCalls.dfy` | the steps one undisturbed call takes, and where they lead | functions and lemmas on that system |
| `ProfileService.dfy` | the service object, wired to the cache, the trackers and the guard above | class `Service` |
| `Enrichment.dfy` | one goroutine per section | transition system |
| `SectionJoin.dfy` | the indexed join and the field it fills | method with loops; class `Profile` |
| `RetryLoop.dfy` | error classification and the retry loop | functions; method with a loop |
| `ProfileUrl.dfy` | URL parsing and canonicalisation, on bytes | functions |
| `UrlForms.dfy`, `UrlTexts.dfy` | what the parser accepts, written out as forms of the text | iff lemmas |

In the guard every step carries its own arbitrary instant, because the code reads the clock before it takes
the mutex; instants are ordered only where a result says so. What the rate limiter answers is an arbitrary
Boolean at each step. A ticket is one call of `Enter` and what became of it.

## Where the code and its description part

* The breaker's comment says that after the cooldown it admits one probe at a time. It does not say that a
  probe can be lost. `probing` is set before the limiter is asked, and a rejected call records nothing.
  A step strands the general breaker if and only if it is the limiter turning away the last call in progress
  while a probe is out (`StrandsIff`); a step strands the session breaker if and only if the limiter or the full
  semaphore turns away the last server call in progress while a session probe is out (`SessionStrandsIff`). From
  then on no call of that mode is ever admitted (`StrandedForever`, `RecoverableIff`). Both happen under every
  valid configuration, with every answer of the limiter that of a real token bucket on one clock:
  for the session breaker it takes no more than callers holding the semaphore when the probe comes, with the
  limiter turning nobody away and the general breaker never open (`EverySessionCanStrand`); in the
  run shown for the general breaker a burst of calls is held up between the breaker check and the limiter for
  longer than the cooldown and then takes the last tokens just ahead of the probe (`EveryGuardCanStrand`).
* `docs/security.md:47-51` says that a 429's Retry-After extends the cooldown "so LinkedIn's own backoff is
  honored". It does not always. A later trip sets `openUntil` afresh, also to an earlier instant, and faults of
  calls let past before the breaker opened still count. On an ordered clock, up to the deadline, a step moves it
  earlier if and only if it records the threshold-th fault and that fault's own trip ends before the deadline
  (`MovesEarlierIff`, `OrderedMovesEarlierIff`). Over whole runs: nobody could be let past before the instant a
  trip set, at any point, if and only if no such fault was recorded (`HonouredIff`, `EarlyOnlyIfCut`). Whatever
  the configuration, there is a run on one clock in which a call is let past before the instant LinkedIn asked
  for if and only if it asked for more than the cooldown (`CanBeCutShortIff`). Moreover a Retry-After counts only
  on the fault that trips the breaker: below the threshold it is dropped unless the breaker is to stay open as
  long anyway (`RequestHoldsOffIff`), and beyond 9223372036 seconds the product with a second wraps around
  (`TripCoversRetryAfterIff`).
* `docs/security.md:42-43` says that a burst of identical lookups makes one upstream request. At most one is in
  flight (`SingleFlight`), but a request that missed the cache before another one's result was stored, and gets
  to the flight table after that flight is over, makes a second one; and no other request retrieves a profile that
  is in the cache (`RefetchIff`, `SecondRetrievalHappens`).
* A cache miss can be spurious. Get finds an entry, reads the clock later, and answers from what it found: if the
  key was Set in between while that entry was unexpired, and not otherwise, it can miss a key that was there
  throughout (`MissLinearizes`, `RefreshedMissIff`, `SpuriousMiss`). What is Set after the clock was read does no
  harm.
* `docs/auditing.md:81` says that buffered records are flushed on graceful shutdown. When `srv.Shutdown` fails,
  `cmd/server/main.go:185-188` returns before the writer's Close: then what is in the batch and the queue is never
  inserted (`WithoutCloseTheRestIsLost`).
* The doubling cooldown is exact if and only if eight cooldowns fit in a duration (`DoublingExactIff`), and
  the retry waits are exact in every world if and only if one and a half times every backoff the timeout
  leaves time for is a duration (`WaitsAreExactIff`). Where one is not, the draw of the jitter panics in some world
  if and only if that backoff is out of range itself or is not the last (`PanicsIff`). Validation checks none of
  these.
* The eviction scan uses the empty key as "none yet". An eviction makes room under every order of the visit
  if and only if the cache is not full of live entries with the empty key strictly the soonest to expire
  (`RoomIff`). The URL parser never produces that key.
* `CircuitTrips` counts openings, not trips; it falls short by exactly the trips that found their breaker
  already open (`TripCounterUndercounts`).

## Model

| member | source | states |
|---|---|---|
| GuardProtocol.InvStep | internal/upstream/guard.go:75-99 | Each of the five atomic steps, at any instant and with any limiter answer, keeps: slots counted exactly and within the ceiling, ticket bookkeeping, well-formed sub-breakers (probing implies open, open iff openUntil set, failures below threshold, strikes within 4), truthful gauges, and that an outstanding probe has a ticket accounting for it |
| GuardProtocol.Reachable | internal/upstream/guard.go:52-99 | That invariant holds in every state of every interleaving from a fresh guard |
| GuardSafety.ConcurrencyCeiling | internal/upstream/guard.go:86-98 | In every run the semaphore is held by exactly the tickets whose release has not run, never more than MaxConcurrency; a ticket frees once, then records once; a rejected one does neither |
| GuardSafety.ReleaseOnce | internal/upstream/guard.go:93-98 | Calling release again at any later point of any run changes nothing |
| GuardSafety.StrandedOnlyByLimiter | internal/upstream/guard.go:75-91 | A general probe outstanding with no call in progress can only come from the rate limiter rejecting that latest probe |
| GuardSafety.SessionStrandedByRejection | internal/upstream/guard.go:75-91 | A session probe outstanding with no server call in progress comes from its own rejection by the limiter or the semaphore |
| GuardSafety.StrandedForever | internal/upstream/guard.go:157-173 | A stranded state is closed under every step at every instant, and the breaker refuses every later Enter of that mode |
| GuardSafety.RecoverableIff | internal/upstream/guard.go:157-173 | From a reachable state, letting the calls in progress finish and the clock run can get a call of a mode past the breaker if and only if the state is not stranded for that mode |
| GuardStranding.StrandsIff | internal/upstream/guard.go:82-85 | In every reachable state, a step loses the general breaker for good if and only if it is a limiter rejection of the last call in progress while a probe is outstanding |
| GuardStranding.SessionStrandsIff | internal/upstream/guard.go:82-91 | The same for the session breaker: a rejection by the limiter or the full semaphore, of the last server call in progress, while a session probe is outstanding |
| GuardStranding.GeneralStrandedIff | internal/upstream/guard.go:75-99 | A run from a fresh guard ends with the general breaker stranded if and only if some step of it was such a rejection |
| GuardStranding.SessionStrandedIff | internal/upstream/guard.go:75-99 | The same for the session breaker |
| GuardStranding.EveryGuardCanStrand | internal/upstream/guard.go:75-91 | Under every valid breaker, gate and limiter configuration a run on one clock, with the limiter a token bucket, strands the general breaker |
| GuardStranding.EverySessionCanStrand | internal/upstream/guard.go:86-91 | Under every valid configuration such a run in which the limiter turns nobody away ends with the session breaker stranded; the general breaker is closed at every point of it |
| GuardSafety.GeneralProbeDiscipline | internal/upstream/guard.go:231-273 | While the general breaker is open, the calls of any mode let past since it last tripped number 1 if a probe is out and 0 otherwise; probing implies open, open iff openUntil is set |
| GuardSafety.SessionProbeDiscipline | internal/upstream/guard.go:231-287 | The same count for session probes; while the session breaker is open, a server call let past is exactly one of a general probe and a session probe |
| GuardSafety.MetricsAgree | internal/upstream/guard.go:291-323 | In every state of every run, between steps: CircuitOpen is 1 iff either breaker is open, SessionHealthy is 1 iff the session breaker is closed, CircuitTrips is the number of closed-to-open transitions |
| GuardSafety.TripCounterUndercounts | internal/upstream/guard.go:256-298 | In every run the number of trips is CircuitTrips plus the trips that found their breaker already open |
| GuardSafety.CallersAreBlindToSession | internal/upstream/guard.go:231-287 | Two guards differing only in session breaker and gauges take the same decisions and reach the same slots, tickets and general breaker on any caller-only run, and neither session breaker moves |
| GuardSafety.CallerStepKeepsSession | internal/upstream/guard.go:251-284 | In any traffic, a step of a caller-mode call leaves the session breaker as it is |
| GuardSafety.HarmlessCallersNeverTrip | internal/upstream/guard.go:251-287 | Callers whose results are successes, missing profiles or rejected sessions never open a breaker and are never refused by one, in any run |
| GuardSafety.HarmlessResultsKeepItClosed | internal/upstream/guard.go:256-273 | From any reachable state with the general breaker closed, in any traffic, results that are not upstream-wide faults keep it closed |
| BreakerHistory.CountersRefineLog | internal/upstream/guard.go:175-214 | After every sequence of probes and results, with any Retry-After and any cooldown, failures, strikes, openUntil (in wrapping arithmetic), open and probing are exactly what the log of those events says |
| BreakerHistory.TripsExactlyAtThreshold | internal/upstream/guard.go:175-180 | With no probe out, a fault trips the breaker if and only if it is the threshold-th since the last clean result, trip or probe resolution |
| BreakerHistory.FaultsBelowThreshold | internal/upstream/guard.go:175-196 | The faults counted in any log stay below the threshold |
| BreakerHistory.GuardRefinesHistory | internal/upstream/guard.go:256-287 | In every interleaved run of every valid guard both sub-breakers are what their logs say, and both failure counts stay below their thresholds; the log takes each result by its error code |
| BreakerHistory.GuardPlaysGeneral | internal/upstream/guard.go:231-273 | The general breaker of a running guard sees exactly its probes and every recorded result, whoever made the call: a rate limit, an outage, a timeout or an unreadable answer as a fault, an authentication failure as none of its business, anything else as clean |
| BreakerHistory.GuardPlaysSession | internal/upstream/guard.go:231-284 | The session breaker sees exactly its probes and the results of server-mode calls |
| BreakerHistory.ResultsByCode | internal/upstream/guard.go:256-284 | With no probe out, by error code: a clean result sets the failures to zero and changes nothing else, the other breaker's fault changes nothing, its own is counted or, at the threshold, trips; a caller's result never touches the session breaker |
| BreakerHistory.ProbesByCode | internal/upstream/guard.go:207-214 | With a probe out, by error code: the matching fault trips the breaker again, anything else closes it |
| BreakerHistory.FailuresAreFaultsSince | internal/upstream/guard.go:256-284 | In every run, for either breaker: failures is the number of recorded results with a code of its own kind (of server-mode calls, for the session) since the last clean result, trip or probe resolution |
| BreakerHistory.RecordedIsGiven | internal/upstream/guard.go:94-98 | In every run, what a call records is the error its release was called with while it held its slot |
| BreakerHistory.TripLengthIsNominalIff | internal/upstream/guard.go:182-193 | The k-th trip in a row lasts max(cooldown * 2^(min(k,4)-1), Retry-After), or max(cooldown, Retry-After) without doubling, if and only if that is a 64-bit duration |
| BreakerHistory.OpenUntilIsNominalIff | internal/upstream/guard.go:182-196 | After every trace that leaves a sub-breaker open, openUntil is the instant of the latest trip plus that length, k counting the trips since it last closed, if and only if the length is a duration |
| BreakerHistory.SessionCooldownBounds | internal/upstream/guard.go:19-22 | That length is at least one cooldown, at most max(8 cooldowns, Retry-After), and doubles from one trip to the next up to the fourth |
| BreakerHistory.DoublingExactIff | internal/upstream/guard.go:184-189 | The shift is exact for every number of strikes if and only if 8 * cooldown is a 64-bit duration |
| BreakerHistory.TripCoversRetryAfterIff | internal/upstream/guard.go:190-194 | The deadline one trip sets is no sooner than its Retry-After if and only if that is at most 9223372036 seconds |
| RetryAfterRuns.MovesEarlierIff | internal/upstream/guard.go:256-273 | From any reachable state with the breaker open, a step clears the deadline or moves it earlier exactly as follows: without a probe out, if and only if it records the threshold-th fault and that fault's trip ends earlier; with one, if and only if it records anything but a fault whose trip lasts as long |
| RetryAfterRuns.OrderedMovesEarlierIff | internal/upstream/guard.go:182-214 | In every run on a clock that never goes back, before the deadline only the first of the two can happen |
| RetryAfterRuns.RequestHoldsOffIff | internal/upstream/guard.go:175-196 | Once a fault is recorded the breaker is to stay open for that fault's own Retry-After if and only if the fault trips it or it was to stay open as long anyway |
| RetryAfterRuns.HonouredIff | internal/upstream/guard.go:157-196 | From an open breaker without a probe, over all steps before an instant up to which it is open: at every point every call of every earlier instant would be refused, if and only if no step recorded the threshold-th fault with a trip that ends before that instant |
| RetryAfterRuns.EarlyOnlyIfCut | internal/upstream/guard.go:182-196 | In every run on such a clock: a call of any mode let past after a trip and before the instant its Retry-After asked for comes after such a fault, recorded in between |
| RetryAfterRuns.RetryAfterCanBeCutShort | internal/upstream/guard.go:86-98 | Under every valid breaker, gate and limiter configuration, for every Retry-After longer than the cooldown: a run on one clock, with a token bucket that refuses nobody, in which a trip receives it and a caller is let past too soon |
| RetryAfterRuns.CanBeCutShortIff | internal/upstream/guard.go:182-196 | Under every valid configuration such a run exists if and only if the Retry-After is longer than the cooldown |
| BreakerHistory.HintIsTight | internal/upstream/guard.go:157-168 | A sub-breaker blocks before its deadline, and after it while a probe is out; the hint is the remaining time in whole seconds as far as a duration can hold it, at least one, and one after the deadline |
| Breaker.SubBreaker.IsBlocking | internal/upstream/guard.go:157-168 | The answer and the hint are those of the value semantics the run theorems are about, and nothing changes |
| Breaker.SubBreaker.DoTrip | internal/upstream/guard.go:182-196 | In-place trip: the whole new state, with the wrapping shift and product |
| Breaker.SubBreaker.DoFail | internal/upstream/guard.go:175-180 | In-place fault: the whole new state |
| Breaker.SubBreaker.DoProbeResult | internal/upstream/guard.go:207-214 | In-place probe resolution: the whole new state |
| Breaker.TwoLevelBreaker.Blocked | internal/upstream/guard.go:231-249 | Refusal, hint and the one probe it marks are those of the protocol's Enter step |
| Breaker.TwoLevelBreaker.Record | internal/upstream/guard.go:256-287 | Both sub-breakers and the gauges become those of the protocol's Record step, which `ResultsByCode` and `ProbesByCode` spell out by error code |
| Breaker.TwoLevelBreaker.SyncGauges | internal/upstream/guard.go:291-314 | The three metrics after a state change |
| UpstreamGuard.EnterOutcome | internal/upstream/guard.go:75-99 | An Enter nobody interleaves is refused by the breaker first, then by the limiter, then by the semaphore, and takes a slot exactly when it is admitted |
| UpstreamGuard.WhoIsRefused | internal/upstream/guard.go:231-249 | A server call is refused if and only if either breaker blocks, a caller's if and only if the general one does; the general breaker's hint comes first |
| UpstreamGuard.Gate.Enter | internal/upstream/guard.go:75-106 | The object performs the three protocol steps and keeps the protocol invariant; it returns a release function exactly when it holds a slot, and otherwise, by reason: unavailable with the breaker's hint, rate limited with one second, or unavailable, each counted under its own reason |
| UpstreamGuard.Release.Call | internal/upstream/guard.go:93-98 | The first call frees the slot and records the result, every later call leaves the guard unchanged |
| TtlWindow.HistoryIsWindow | internal/cache/ttl.go:40-86 | After every history of Sets and expired Gets, Sets at one instant included, whatever order the scans visit in, the map has at most maxEntries entries and answers, for every key and from then on, exactly the unexpired keys among the maxEntries most recently Set ones, each with its last value |
| TtlWindow.SetKeeps | internal/cache/ttl.go:59-86 | One Set moves the map and the window together, for every visiting order of the eviction |
| TtlWindow.VictimIsOldest | internal/cache/ttl.go:70-86 | The entry the eviction gives up was Set at the oldest instant of the window |
| TtlWindow.ScanFindsSoonest | internal/cache/ttl.go:74-82 | Without the empty key, under any order, the scan comes back empty iff everything expired, and otherwise with a live entry that expires no later than any other |
| TtlWindow.RoomIff | internal/cache/ttl.go:70-86 | The eviction makes room under every visiting order if and only if the cache is not full of live entries with the empty key strictly the soonest to expire |
| TtlWindow.RecencyIsUnique | internal/cache/ttl.go:59-65 | A history in which no two Sets share an instant has one recency list, so the window is then unique |
| TtlWindow.HitLinearizes | internal/cache/ttl.go:41-54 | A hit returns a value that was in the window and unexpired at the instant of the lookup, however late the expiry check runs |
| TtlWindow.MissLinearizes | internal/cache/ttl.go:41-53 | After every history and whatever changes come between a Get's lookup and its reading of the clock: a miss was the window's answer at some instant in between, unless the key was Set in between at an instant at which what the lookup found was unexpired |
| TtlWindow.RefreshedMissIff | internal/cache/ttl.go:41-65 | With one Set of the key in between, after any history: the miss was the window's answer at some instant in between if and only if what the lookup found had expired before the Set or what was Set has expired at the reading |
| TtlWindow.SpuriousMiss | internal/cache/ttl.go:41-53 | Under every positive TTL and size there is a Get that misses a key the window answered throughout |
| TtlWindow.DroppingExpiredKeeps | internal/cache/ttl.go:47-49 | Removing expired entries never changes what the cache answers |
| TtlCache.Cache.Get | internal/cache/ttl.go:40-56 | An uninterrupted Get answers exactly what the window answers |
| TtlCache.Cache.DropIfExpired | internal/cache/ttl.go:46-52 | The second phase removes the key only if the entry there now has expired, so never one refreshed between the phases |
| TtlCache.Cache.Set | internal/cache/ttl.go:59-66 | Set appends to the history and the cache is the window of the longer history |
| TtlCache.Cache.EvictLocked | internal/cache/ttl.go:70-86 | The loop drops every expired entry and, when still full, the entry the scan in that order settles on |
| ExpiringMarks.Tracker.Blocked | internal/cache/negative.go:33-45 | The answer is yes if and only if the key's latest event is a mark no older than the TTL that was not given up for want of room; a lapsed mark is removed |
| ExpiringMarks.Tracker.Remember | internal/cache/negative.go:48-55 | The key is marked; an unlapsed mark is given up, and then exactly one, only when the key is new and lapsed marks leave no place |
| ExpiringMarks.Tracker.EvictLocked | internal/cache/negative.go:59-73 | Every lapsed mark goes, one arbitrary unlapsed mark too if the tracker is still full, and there is room afterwards |
| ExpiringMarks.LatestMarkStep | internal/service/callerhealth.go:59-79 | A mark stands if and only if the latest event about its key is that mark |
| ExpiringMarks.CallerHealth.Unhealthy | internal/service/callerhealth.go:41-56 | A fingerprint is unhealthy iff it is not empty and its rejection stands, has not lapsed and was not given up for want of room |
| ExpiringMarks.CallerHealth.MarkUnhealthy | internal/service/callerhealth.go:59-69 | A rejection is recorded for a non-empty fingerprint only and stands afterwards; another one is given up, and then exactly one, only when the fingerprint is new and the lapsed ones leave no place |
| ExpiringMarks.CallerHealth.Clear | internal/service/callerhealth.go:72-79 | A success withdraws the rejection of that fingerprint and keeps every other |
| WriterProtocol.Conservation | internal/audit/writer.go:89-177 | In every state of every interleaving the accepted records are, in order, the batches given to Insert, the current batch and the queue; calls of Record are accepted plus dropped; records lost to failed inserts lie between the error count and that count times BatchSize |
| WriterProtocol.FinishedIff | internal/audit/writer.go:137-158 | When the consumer has returned, everything accepted before the drain found the queue empty has been given to Insert in order; everything accepted has, if and only if no Record came later |
| WriterProtocol.StoreClosesLast | internal/audit/writer.go:101-113 | Unless Close's context ran out, the store closes only after the consumer has returned |
| WriterProtocol.WithoutCloseTheRestIsLost | cmd/server/main.go:185-188 | In every run without a Close the store stays open and what was accepted and not given to Insert is exactly the batch and the queue |
| WriterProtocol.GracefulShutdown | cmd/server/main.go:190-197 | With the server stopped before Close and an unexpired context, everything ever accepted has been given to Insert, in order, when the store closes |
| WriterProtocol.LossBounds | internal/audit/writer.go:162-177 | For non-empty batches within the size: failures bound the lost records from below and, times the size, from above; written plus lost is everything inserted |
| AuditWriter.Writer.Record | internal/audit/writer.go:89-97 | Enqueues or drops without blocking, as one Record step of the protocol |
| AuditWriter.Writer.Receive | internal/audit/writer.go:128-132 | Receiving appends to the reused buffer and flushes exactly when the batch is full, as protocol steps |
| AuditWriter.Writer.Flush | internal/audit/writer.go:162-177 | Hands over exactly the batch, counts it as written or as one error, and empties the slice over the same buffer |
| AuditWriter.Writer.DrainAndFinish | internal/audit/writer.go:137-158 | The drain loop ends with the queue and the batch empty and everything accepted given to Insert |
| AuditWriter.Writer.Loop | internal/audit/writer.go:126-137 | The consumer's loop with Record calls between its turns: each turn moves the records as it should, what was accepted stays in order in inserts, batch and queue, every arrival is accepted or counted as dropped, and the batch is never left full |
| WriterTurns.TurnsAchieve | internal/audit/writer.go:89-134 | A turn at a queue that is not empty takes its oldest record, a turn of the flush ticker empties the batch into Insert, an arrival is accepted if and only if there is room, and nothing is lost or reordered |
| WriterTurns.EverythingGetsWritten | internal/audit/writer.go:126-137 | After as many turns at the queue as it has records and one of the flush ticker, everything ever accepted has been given to Insert, in order |
| AuditWriter.Writer.Close | internal/audit/writer.go:101-113 | Within its context the steps are the signal, the consumer's drain and only then the closing of the store, with everything ever accepted given to Insert in order; with its context over the store closes at once |
| ServiceProtocol.Reachable | internal/service/profile.go:141-252 | Every interleaving of server and caller requests keeps the invariant on results, caches, flight table and tracker |
| ServiceProtocol.IdentityAndProvenance | internal/service/profile.go:150-205 | In every run a returned result, fresh, cached or shared with a follower, carries its request's identifier and canonical URL and comes from its own credential; cache entries are unmarked server results under their own identifier; negative entries and flights come from server requests |
| ServiceProtocol.FollowersShare | internal/service/profile.go:164-175 | In every continuation of any run, a request that waited for a leader still waits for it, or has returned the very answer the leader returned, error or result |
| ServiceProtocol.AnswersComeFrom | internal/service/profile.go:150-252 | In every run, every answer was given by one step of its request: a hit, a standing mark (not found), the leader's answer, the gate's refusal, or the error or success its own core call ended with at an earlier step; for a caller also the fast failure, and a refused session as an invalid caller session |
| ServiceProtocol.SingleFlight | internal/service/profile.go:164-166 | At most one retrieval per profile is in flight |
| ServiceProtocol.RefetchIff | internal/service/profile.go:151-166 | In every run a request starts a retrieval of a profile the cache holds if and only if it has missed both caches and finds no flight; and then what the cache holds was stored, by another request whose retrieval is over, after this one's own lookup had missed |
| ServiceCalls.SecondRetrievalHappens | internal/service/profile.go:151-166 | For every reference, whatever the TTLs, some run does that |
| ServiceProtocol.NeverMutatedAfterPublication | internal/service/profile.go:181-205 | Once its retrieval has left enrichment, a result never changes again in any continuation of any run, whoever shares it |
| ServiceProtocol.HitsAreCopies | internal/service/profile.go:151-157 | A hit returns another object, equal but marked cached; the stored one stays unmarked and unchanged |
| ServiceProtocol.FastFailIff | internal/service/profile.go:212-219 | In every run a request is failed fast if and only if it is a caller's that has just begun and the latest word on its own fingerprint is a rejection within the TTL that the tracker has not forgotten |
| ServiceProtocol.ReservationReturnedOnce | internal/service/profile.go:185-192 | In every run a request takes at most one reservation for its core call and gives it back exactly once, after the fetch and with the fetch's own outcome, which is the outcome it reports |
| ServiceProtocol.CallersDoNotInterfere | internal/service/profile.go:134-140 | Leave out of any run everything the callers did: every server request goes exactly as before, and the shared cache, negative cache and flight table are the same |
| ServiceCalls.ServerRuns | internal/service/profile.go:150-205 | The protocol steps of one undisturbed server call lead to exactly the stated tables, gate log and answer, for a hit, a known miss and each end of a retrieval |
| ServiceCalls.CallerRuns | internal/service/profile.go:212-252 | The same for a caller call, failed fast or not |
| ProfileService.Service.FetchCore | internal/service/profile.go:268-289 | A successful core call yields a new, unmarked result with the reference's identity |
| ProfileService.Service.FetchThroughGate | internal/service/profile.go:185-192 | The guard performs Enter, Limit and Acquire and, if it admits the call, Release and Record with the fetch's own error after the fetch; otherwise the guard's refusal is returned and nothing is fetched |
| ProfileService.Service.FailureIsHeard | internal/service/profile.go:191-192 | After a retrieval whose core call failed both breakers are as that very error, recorded for that mode, leaves them |
| ProfileService.Service.EnrichResult | internal/service/profile.go:295-349 | Every section that got a slot enters the guard and, if admitted, gives its reservation back with its own call's error |
| UpstreamGuard.VisitsSettle | internal/upstream/guard.go:75-99 | After any number of such visits, whatever happens to each: one new ticket a visit, each rejected or recorded, freed once; no other ticket changed, no slot taken |
| ProfileService.Service.Retrieve | internal/service/profile.go:181-205 | The guard performs the core call's visit and, after a success, one of every section; a success is stored in the cache as the very object returned, enriched; a missing profile is remembered, with at most one standing mark given up and only for want of room; nothing else touches either |
| ProfileService.Service.GetServer | internal/service/profile.go:150-176 | One call is one run of the protocol and gets its answer: a hit is a marked copy of the key's last stored result, a standing mark answers not found, both without the guard; otherwise one retrieval with exactly its visits to the guard, which hears the error of a failed core call; a missing profile is remembered, and nothing else is. Everything ever stored keeps its key's identity unmarked and no older result is written |
| ProfileService.Service.GetCaller | internal/service/profile.go:212-252 | One call is one run of the protocol and gets its answer: failed fast without the guard if and only if the tracker holds this fingerprint's rejection, otherwise one retrieval with exactly its visits to the guard, which hears the error of a failed core call; a refused session is answered as an invalid caller session; it touches no shared cache; the tracker is told of a refused session or a success and of nothing else |
| ProfileService.Service.EveryReservationReturned | internal/service/profile.go:185-249 | After such a call every reservation it took, the core call's and the sections', has been returned exactly once |
| ProfileService.Service.NextCallSees | internal/service/callerhealth.go:41-79 | After a caller call, a fingerprint is held rejected at any later instant if and only if it is the one just refused and within the TTL, or it was before, was not just cleared, and was not given up for want of room |
| Enrichment.Confluence | internal/service/profile.go:306-358 | Every complete interleaving ends with the same fields and status map, determined by the responses alone; its domain is the configured sections and a section is ok iff its field is present |
| Enrichment.StatusIs | internal/service/profile.go:334-358 | In that status map a section that could not be fetched or decoded is unavailable, one that joins to nothing is empty and any other ok; its field holds the join |
| Enrichment.BoundedFetches | internal/service/profile.go:334-346 | In every state the holders of gate reservations hold slots, and with other requests they stay within the semaphore |
| Enrichment.EverythingReturned | internal/service/profile.go:334-358 | On every path of every complete run each slot and each reservation taken is returned exactly once |
| SectionJoin.ParseSection | internal/linkedin/parse/sections.go:56-89 | The indexed join equals the naive join; absent iff empty |
| SectionJoin.JoinIsInOrder | internal/linkedin/parse/sections.go:66-89 | What was joined is the values of exactly the elements that resolve, from left to right: an element resolves to the decoding of the last item that carries its URN |
| SectionJoin.SectionNames | internal/linkedin/parse/sections.go:16-52 | The eight names and the field each fills; no other name is known |
| SectionJoin.LastWithIsLast | internal/linkedin/parse/sections.go:66-74 | The naive search finds an item iff some item carries the URN, and then the last one |
| SectionJoin.Profile.ApplySection | internal/linkedin/parse/sections.go:16-52 | Only the named section's field changes, to exactly the joined entries; the count is its length, and positive iff the field is present; an unknown name changes nothing |
| RetryLoop.FaultOfReply | internal/linkedin/errors.go:27-65 | Through both classifications: which replies count against the session breaker, which against nobody, and that only a 429 carries a Retry-After |
| RetryLoop.ErrorOfReply | internal/linkedin/errors.go:27-65 | The code and Retry-After every reply is reported with |
| RetryLoop.RetriesIff | internal/linkedin/client.go:115-180 | An attempt is tried again if and only if attempts are left, it began before the deadline, and it came back with a status from 500 to 599 or, still before the deadline, with no response |
| RetryLoop.RetriesOnlyTransient | internal/linkedin/client.go:148-179 | Whatever is retried was classified as timeout or unavailable, so is an upstream-wide fault |
| RetryLoop.ReachingTakesTime | internal/linkedin/client.go:228-239 | Reaching attempt k takes at least retryBackoff * (2^k - 1), as long as every backoff before it that there was time for fits |
| RetryLoop.WaitsAreExactIff | internal/linkedin/client.go:228-231 | For every validated configuration: all waits are exact in every world if and only if one and a half times each backoff the timeout leaves time for is a duration |
| RetryLoop.ShortTimeoutsAreRoomy | internal/linkedin/client.go:228-231 | That condition follows from 3 * (timeout + retryBackoff) fitting in two maximal durations |
| RetryLoop.PanicsIff | internal/linkedin/client.go:228-231 | For every validated configuration: some world makes the random draw panic if and only if a backoff the timeout leaves time for does not fit, with its largest jitter, and is out of range itself or may be followed by another attempt |
| RetryLoop.ShiftAloneOverflows | internal/linkedin/client.go:229 | Without the deadline the shift overflows for every backoff, given enough retries |
| RetryLoop.Get | internal/linkedin/client.go:110-133 | For every validated configuration: at most maxRetries + 1 attempts, exactly attempts - 1 retries, every attempt but the last was transient, and it stops at the first attempt that leads to no other, with that attempt's outcome or by the draw's panic there, which only the configurations of `PanicsIff` allow |
| ProfileUrl.CanonicalisationIsFixed | internal/urlx/profile_url.go:46-80 | For every accepted input, parsing the canonical URL succeeds and returns the same reference |
| ProfileUrl.AcceptedIsValid | internal/urlx/profile_url.go:82-96 | An accepted identifier is a valid slug, its URL is the canonical prefix plus it, and the URL stays within the input limit because percent-encoding at most triples 150 bytes |
| ProfileUrl.ReferencesIff | internal/urlx/profile_url.go:46-96 | A reference is produced by some input if and only if its identifier is a valid slug and its URL is the canonical one |
| ProfileUrl.EscapedPathIsAscii | internal/urlx/profile_url.go:70-72 | The path the slug is taken from is ASCII for every input, so the letter classes of the slug pattern only ever meet ASCII |
| UrlForms.ParseIff | internal/urlx/profile_url.go:46-96 | The parser written out, both ways: freed of white space and with https:// before it if it names no scheme, the text has 1 to 512 bytes and is scheme, user, host, path, query and fragment with an http or https scheme, a host of one of the pattern's forms, and a path of slashes, in/, a slug and slashes; the reference is made of that slug alone |
| UrlForms.AcceptedHost | internal/urlx/profile_url.go:33-69 | Whenever a text is accepted, the host written in it, decoded, lower-cased and without its port, is linkedin.com or ends in .linkedin.com |
| UrlTexts.HostDecides | internal/urlx/profile_url.go:67-69 | For every plain host, with or without a port, and every slug, the URL is accepted if and only if the lower-cased host has one of the forms the pattern allows; then with that slug |
| UrlTexts.HandlesSurvive | internal/urlx/profile_url.go:70-79 | A handle with bytes outside ASCII, written as it is or percent-encoded, becomes the same reference, whose slug decodes to the handle |
| UrlTexts.EscapedPathIs | internal/urlx/profile_url.go:70-72 | The path the slug is taken from is the text itself if it may stand in a path, and otherwise its bytes encoded anew |
| UrlTexts.TrimIs | internal/urlx/profile_url.go:47 | Exactly the Unicode white space around the text is taken away |

## Left out

Weaker than a reader might expect:

- BreakerHistory.HintIsTight: the hint is the floor of the remaining seconds. The code goes through a float64,
  which can only round up to the next second for waits of 2^24 seconds or more.
- BreakerHistory.TripLengthIsNominalIff: for a Retry-After that is not negative, as the header parser returns it.
- TtlWindow.HistoryIsWindow: keys are not empty, as the URL parser guarantees; `RoomIff` says exactly what the
  empty key breaks. The clock does not go back inside the lock.
- TtlCache.Cache.Get: the object's Get is not interleaved; what may come between its lookup and its reading of the
  clock is in `TtlWindow.HitLinearizes` and `TtlWindow.MissLinearizes`.
- ServiceProtocol.CallersDoNotInterfere: what the gate answers is an input of each step. Through the shared
  gate callers and servers do compete; the guard's own theorems say how far.
- ProfileService.Service.GetServer: one call that no other call interleaves; `ServiceProtocol` has the
  interleavings. The copy a hit returns shares the profile object in the code; here the copied fields are
  values, which the never-mutated theorem justifies.
- ProfileService.Service.EnrichResult: the object visits the guard for one section after the other, where the code
  has a goroutine for each; `Enrichment` has their interleavings. What the sections write is one value.
- ServiceProtocol.ReservationReturnedOnce: the reservation of the core call; those of enrichment are in
  `Enrichment.EverythingReturned`.
- GuardStranding.EveryGuardCanStrand: the token bucket has a rational rate and exact arithmetic, where the
  library uses float64.
- RetryLoop.ReachingTakesTime: for a configuration for which the exact condition fails, only up to the first
  backoff that does not fit; there the code's sum wraps.
- Enrichment.Confluence: a profile that starts without section fields, as the code's always do.

Not modelled:

- Panics other than that of the retry loop's random draw, what becomes of any panic, and log output. A panic
  between `Enter` and `release` would keep a slot.
- `singleflight`, `sync`, channels and the rate limiter as implementations: they are a table with one flight per
  key, atomic steps, and a Boolean answer at each step that is arbitrary except where a run is exhibited.
- JSON decoding: partial functions from items to URNs and to entries. The per-section decoders, `date`,
  `entityURL` and the other field copying of `internal/linkedin/parse` are not modelled.
- `net/url` beyond what the profile parser runs through; a bracketed IPv6 host is simply not accepted, which
  the host pattern does anyway.
- HTTP transport, headers, TLS, response bodies and Retry-After header parsing: an attempt is a reply.
- The SQLite store: Insert succeeds or fails. A store that kept the reused batch slice after returning is not
  modelled; the writer's purge is a step without effect.
- Metrics other than the three circuit gauges, the rejection counts, the retry count and the audit counters.
- `internal/api`, `internal/config` (its validated ranges are the constructors' preconditions), credentials,
  the web UI and process start-up.
