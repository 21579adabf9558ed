# Verified model of the LLM inference gateway

The gateway is a reverse proxy in front of several LLM providers. This project
models the parts of it that keep state or follow a protocol, and proves what
they keep over whole runs. It covers the token-bucket rate limiter and the
settlement of each request against it, the circuit breaker and its prober, the
retry and failover engine with its router and backoff, the streaming handler,
the semantic cache, the usage ledger and the WordPiece tokenizer.

## How it is built

| file | models |
|---|---|
| Wrappers | the option type |
| TokenBuckets, TickingBuckets, Settlement, Limiter | the two Redis scripts; a reference limiter they refine; any interleaving of requests over shared buckets; the limiter those requests call |
| Int64, Backoff | int64 wrap-around and the jittered delay |
| Breaker, BreakerRuns, BreakerLaws, Prober | the breaker over its ring of seconds; whole runs with stale reports; what callers can rely on; the background prober |
| Router, Selection, Attempts, Engine, EngineLaws | tiers, the weighted pick, one candidate's retry loop, the failover walk; what its runs do, told from statuses and clocks alone |
| Reporting | what the engine's calls amount to at a breaker |
| Streaming, ChatHandler, ChatShortfalls | the streaming walk with its callback; one request from admission to settlement, over the limiter; concrete runs that fall short |
| SemanticStore, UsageLedger, WordPiece | the semantic cache, the usage ledger, the tokenizer |

Code that changes state in place is a class or a method with loops, specified by
a function of values: the breaker against an unbounded log of outcomes, the
store against a least-recently-used list, the writer against a step system, the
scripts against a map of buckets, the stream handler against the calls of the
run. Clocks, random draws, provider replies, breaker answers, client writes and
cancellation are oracles: arbitrary functions of the moment they are consulted,
and no two questions share a moment. Every engine contract therefore holds for
every outcome and every concurrent interference, and ties each pick, grant,
reply, sleep and tier exit in the trace to the oracle that gave it. Where the
shared object itself is modelled (a breaker under the prober, the limiter under a
handler, the writer under its shutdown), what other goroutines do between its own
calls is an arbitrary sequence of events, performed on that object.

## Main results

- **Usage bound.** Over every window of every interleaving, usage settled plus
  reservations still open on a bucket stays within capacity plus refill plus
  overruns plus what fail-open let through (`Settlement.UsageBound`). The real
  limiter stays within it at any time (`Limiter.RateLimiter.Bounded`). Nor is anyone
  overcharged: a bucket loses no more than was used, is still reserved, or was a
  refund that Redis could not be told of (`Settlement.NoOvercharge`).
- **Lazy equals ticking** call by call, if and only if no call reads a bucket that
  expired before it had earned its debt back (`TickingBuckets.LazyRefinesTicking`).
- **A breaker told from its history**: it trips exactly on the share of failures among
  the last calls (`BreakerLaws.TripsOnHistory`), then holds off exactly as long as
  configured whatever stale reports arrive (`BreakerLaws.TripHoldsOff`), lets exactly
  a quota through (`BreakerLaws.EpochLetsQuotaThrough`) and, closed again, cannot be
  told from a new one (`BreakerLaws.ReclosedIsNew`).
- **Statuses decide** what is retried, what is passed on and what the caller is
  answered, over every run (`EngineLaws.RetriedByStatus`, `EngineLaws.GivesUpLast`,
  `EngineLaws.AnsweredByStatus`).
- **No splicing**, over every run of the streaming walk (`Engine.NoSplicing`,
  `Streaming.RunDelivers`).
- **The ring equals the log** for any window and any gaps
  (`Breaker.RingCountsWindow`), half-open slots are always accounted for
  (`BreakerRuns.SlotsAreAccounted`), and however the engine's or the prober's
  calls are interleaved with others they are such a run and leave nothing in flight
  (`Reporting.BlockIsTraffic`, `Prober.ProbeReports`).
- **One settlement per admitted request**, whatever other requests do between its
  arrival and its settlement (`ChatHandler.HandleChatCompletion`), charged exactly
  what reached the client unless a write failed on counted tokens
  (`ChatHandler.ChargedAsServed`); only what was delivered is cached
  (`ChatHandler.StoredIsSent`).
- **Conservation and order of ledger rows** under every interleaving
  (`UsageLedger.EveryRunConserves`).

## Where the code falls short of a natural promise

Each of these has an exact condition and a lemma at a concrete input.

- Debt is forgiven when its bucket expires before earning it back
  (`LazyRefinesTicking`; `DeepDebtIsForgiven`). The usage bound holds regardless.
- A reported Retry-After is not minimal when the bucket expires first, and not
  sufficient when the cost exceeds the capacity (`RetryAfterIsExact`;
  `WaitLongerThanNeeded`, `WaitInVain`).
- A half-open breaker whose probes end unreported refuses for ever
  (`WedgedExactlyWithoutSlots`; `TerminalProbeWedges`). Terminal outcomes and
  failures after the first flush go unreported (`BlockTells`).
- The cooldown turns negative once its ceiling is 2^62 ns or more
  (`CooldownDoublesToCeiling`; `CooldownTurnsNegative`), and the jitter cap can be
  too low for such settings (`JitterCapExact`; `JitterCapWraps`).
- A provider name configured twice with different settings is not routed as
  configured (`GroupsFollowConfiguration`; `SameNameMisgrouped`).
- Loading a file whose keys the store already has breaks its recency list
  (`LoadConsistent`; `ReloadListsTwice`).
- The drain batch of the ledger exceeds a batch and a buffer when more rows arrive
  during the drain than there is room for (`DrainSize`; `DrainBatchCanGrow`).
- A stream that fails without content answers with a JSON error after
  event-stream headers when some provider had sent an empty delta
  (`StreamedResponse`; `ErrorAfterHeaders`).
- A delta the client could not be sent is still charged for
  (`ChargedAsServed`; `RefusedDeltaIsCharged`).
- The provider header of a stream names a provider that failed when that one was
  the first to offer a delta (`HeadersNameAnswer`; `FailedProviderIsNamed`).
- An answer is cached with the finish reason of a failed provider when it names none
  itself (`StoredIsSent`; `FailedFinishIsStored`).
- A ready link of an explicit chain is passed over when its provider has weight 0
  (`LinkIsTriedByWeight`; `WeightlessChainIsRefused`).

## Where the code and its documentation differ

The model follows the code.

- The gateway's README.md (line 345) lists connection resets and dial timeouts as
  retryable. The code gives an error without a status the status 0, which
  `ClassifyByStatus` calls Terminal (internal/providers/provider.go:115-124).
- docs/adr/0013 says the headers go out at exactly the moment the engine
  considers content flushed, and notes a failing first write as the one
  exception. In the code a delta with empty content is another
  (internal/server/stream.go:117-151 and internal/retry/engine.go:378-380), so
  only "flushed implies headers sent" is claimed.
- The gateway's README.md (line 665) says X-Gateway-Provider names the provider that
  actually served the call. On a stream the code sends the name of whichever
  provider offered the first delta (internal/server/stream.go:126-142).
- internal/router/router.go:82-83 calls weight irrelevant to an explicit chain. The
  code gives each link its provider's weight (internal/router/router.go:102-104), and
  the pick never chooses a weight of 0 (internal/retry/engine.go:401-419).

## Assumptions

- Capacities are positive and every request quotes the same one for a bucket;
  Redis time never goes back; Lua numbers are reals.
- Configuration holds what internal/config/config.go:108-196 validates: weights
  are not negative, 0 < cooldown <= cooldown_max, and attempts, probes and
  minimum requests are at least 1. The ledger's buffer and batch sizes are at
  least 1, and so is the semantic cache's max_vectors
  (internal/config/config.go:253-255).
- A provider call returns within the timeout it is given, and no provider error
  wraps the engine's own "no healthy provider".
- Where it is said nobody is overcharged, costs and usage are not negative; a client may
  send a negative max_tokens (internal/server/chat.go:137-140). Every other bound holds
  for either sign.
- Keys of new semantic entries are fresh, and maxSeqLen is at least 1.

Everything here is proved by the verifier; nothing was executed.

## Model

| member | source | states |
|---|---|---|
| `TokenBuckets.RedisBuckets.Refilled` | internal/ratelimit/reserve.lua:24-39 | a bucket reads as its lazily refilled balance, capped at capacity; a missing or expired one reads as full |
| `TokenBuckets.RedisBuckets.Reserve` | internal/ratelimit/reserve.lua:14-56 | admits exactly when all three balances cover the cost; then all three buckets are rewritten, else none; a rejection names the first short scope and its wait |
| `TokenBuckets.RedisBuckets.Adjust` | internal/ratelimit/adjust.lua:12-45 | refunds or charges all three buckets, clamped at capacity with overdraft allowed; a zero delta touches nothing |
| `TokenBuckets.WrittenLookup` | internal/ratelimit/reserve.lua:49-54 | a write round sets the three buckets with a fresh expiry and leaves every other bucket alone |
| `TokenBuckets.ReserveAsksEachScope` | internal/ratelimit/reserve.lua:14-47 | admitted if and only if the organisation's, the team's and the key's own bucket, each at its own capacity, all hold the cost; a rejection names the first that does not and the wait that one needs |
| `TokenBuckets.ReserveTakesFromEachScope` | internal/ratelimit/reserve.lua:49-56 | an admission takes the cost out of all three, as read at any later time through refill and expiry, and reports what is left of the key's; a rejection changes nothing; other buckets stay |
| `TokenBuckets.AdjustMovesEachScope` | internal/ratelimit/adjust.lua:12-45 | all three move by the difference up to their own capacity, as read at any later time; other buckets stay |
| `TickingBuckets.AnyTickingIsOneRefill` | internal/ratelimit/reserve.lua:33-38 | however an interval is cut into refills, the balance at its end is that of a single refill |
| `TickingBuckets.BalanceTicks` | internal/ratelimit/reserve.lua:28-39 | the balance read later is the balance read now, ticked forward, across expiry, when the debt is at most one capacity |
| `TickingBuckets.UncutTicks` | internal/ratelimit/reserve.lua:33-38 | without expiry a later balance is the earlier one ticked forward, whatever the debt |
| `TickingBuckets.ExpiryUnobservable` | internal/ratelimit/ratelimit.go:27-30 | the 120 s expiry with "missing means full" is never observable, at any later time, if and only if the last write left at most one capacity of debt |
| `TickingBuckets.DeepDebtIsForgiven` | internal/ratelimit/adjust.lua:36-42 | counterexample: a debt of two capacities is forgiven by the expiry |
| `TickingBuckets.OpMirrors` | internal/ratelimit/adjust.lua:19-43 | one Reserve or Adjust that forgives nothing keeps the lazy store and the ticking buckets in agreement |
| `TickingBuckets.StepMirrors` | internal/ratelimit/reserve.lua:23-54 | one call sees the ticking balances if and only if none of its buckets expired before earning its debt back |
| `TickingBuckets.LazyRefinesTicking` | internal/ratelimit/reserve.lua:23-54 | over every run of Reserve and Adjust calls, each call sees exactly the balances of a limiter that ticks continuously and never expires, if and only if no call reads a bucket that expired before it had earned its debt back |
| `TickingBuckets.ShallowForgivesNothing` | internal/ratelimit/ratelimit.go:27-30 | so it does whenever no bucket expires more than one capacity in debt, however deep it went in between |
| `TickingBuckets.RetryAfterIsExact` | internal/ratelimit/reserve.lua:42-46 | for any bucket, missing or not: waiting the reported milliseconds admits the cost if and only if it fits the capacity; one millisecond less still refuses if and only if the bucket has not expired meanwhile |
| `TickingBuckets.WaitLongerThanNeeded` | internal/ratelimit/reserve.lua:42-46 | counterexample: three capacities of debt report four minutes and admit after two |
| `TickingBuckets.WaitInVain` | internal/ratelimit/reserve.lua:42-46 | counterexample: a cost above the capacity is told to wait and refused again |
| `TickingBuckets.HeaderIsNeverTooShort` | internal/server/chat.go:345-348 | the whole-second header is the wait rounded up and never too short for the scope that rejected |
| `Settlement.HeadroomGrows` | internal/ratelimit/reserve.lua:28-39 | the refill from a balance with its debt written off dominates the balance at all times, expiry included, and grows no faster than the refill rate |
| `Settlement.ReserveSpendsHeadroom` | internal/ratelimit/reserve.lua:49-54 | an admission takes at least its cost out of every bucket it touches |
| `Settlement.AdjustSpendsHeadroom` | internal/ratelimit/adjust.lua:36-43 | a refund gives back at most itself and a charge never gives anything back |
| `Settlement.StepSpendsHeadroom` | internal/server/chat.go:151-209 | one arrival or settlement, Redis reachable or not, fail-open or not, spends what it serves or reserves |
| `Settlement.WhoIsAdmitted` | internal/ratelimit/ratelimit.go:68-79 | a reservation is held if and only if all three scopes have the cost, or Redis is unreachable and the limiter fails open |
| `Settlement.UsageBound` | internal/server/chat.go:151-209 | for every interleaving over shared buckets and every window: usage settled plus reservations still open is at most capacity + capacity/60 per second + overruns + what fail-open let past; no limit on debt, any sign of cost |
| `Settlement.MeteredUsageBound` | internal/ratelimit/ratelimit.go:66-79 | failing closed from an idle start, the fail-open term is gone |
| `Settlement.FailClosedIsMetered` | internal/ratelimit/ratelimit.go:73-78 | with fail-open off nothing is admitted without asking Redis |
| `Settlement.NoOvercharge` | internal/server/chat.go:151-209 | for every interleaving and window: a bucket loses at most usage settled plus reservations still open plus refunds that did not reach Redis |
| `Limiter.RateLimiter.constructor` | internal/ratelimit/ratelimit.go:53-60 | a limiter starts from the buckets Redis holds with no reservation open |
| `Limiter.RateLimiter.Reserve` | internal/ratelimit/ratelimit.go:68-95 | an unreachable Redis admits when failing open and errors when not; otherwise the script decides; either way the limiter is where an arrival leads |
| `Limiter.RateLimiter.Adjust` | internal/ratelimit/ratelimit.go:102-114 | reconciling a reservation leaves the limiter exactly where its settlement leads, Redis reachable or not |
| `Limiter.RateLimiter.Interleave` | internal/server/chat.go:151-209 | any possible arrivals and settlements of other requests, performed on the limiter itself |
| `Limiter.RateLimiter.Bounded` | internal/server/chat.go:151-209 | at any time and for every bucket, usage settled so far plus what is still reserved is within the usage bound |
| `Backoff.FullJitterBackoff` | internal/retry/backoff.go:17-32 | the delay lies in [0, maxBackoff) for every attempt, base and draw, wrapped or not |
| `Backoff.BackoffFor` | internal/retry/backoff.go:36-42 | a positive Retry-After overrides the jittered delay |
| `Backoff.JitterIsEven` | internal/retry/backoff.go:28-32 | of the draws below the cap exactly one gives each delay below it |
| `Int64.WrapIsInt64` | internal/retry/backoff.go:24-25 | the wrapped value is the one int64 congruent to the product modulo 2^64 |
| `Backoff.WrappedStaysMultiple` | internal/retry/backoff.go:24-25 | a wrapped product with 2^a is still a multiple of 2^a, so if positive it is at least 2^a |
| `Backoff.JitterCapExact` | internal/retry/backoff.go:18-27 | under int64 wrap-around the cap is min(base*2^attempt, maxBackoff) if and only if the product is representable or wraps to something not strictly between 0 and maxBackoff |
| `Backoff.JitterCapExactWhenSmall` | internal/retry/backoff.go:18-27 | base*maxBackoff <= 2^62 makes the cap exact at every attempt |
| `Backoff.JitterCapWraps` | internal/retry/backoff.go:21-25 | counterexample: attempt 62 with base 5 ns and a ceiling above 2^62 ns is capped too low |
| `Breaker.CountNextResidue` | internal/breaker/breaker.go:207-216 | seconds of one residue class that matter are all in its one cell |
| `Breaker.RingCountsWindow` | internal/breaker/breaker.go:207-216 | the live cells of the ring sum to exactly the outcomes of the last windowSeconds in the full log, for any window and any gaps |
| `Breaker.RecordMatches` | internal/breaker/breaker.go:191-202 | recording at any later second keeps the ring in agreement with the log |
| `Breaker.CircuitBreaker.constructor` | internal/breaker/breaker.go:68-83 | a new breaker is closed with an empty window of at least one second |
| `Breaker.CircuitBreaker.IsReady` | internal/breaker/breaker.go:107-121 | a peek says exactly whether Allow would grant, and changes nothing |
| `Breaker.CircuitBreaker.Allow` | internal/breaker/breaker.go:127-149 | the whole transition, cooldown end, quota and slot, over the log-based view |
| `Breaker.CircuitBreaker.RecordSuccess` | internal/breaker/breaker.go:152-167 | half-open wins close at the quota and forget the window; closed outcomes are logged |
| `Breaker.CircuitBreaker.RecordFailure` | internal/breaker/breaker.go:170-189 | half-open failures reopen with a doubled cooldown; a closed failure is logged and trips on the log's own window, even when the clock ticks between its three readings |
| `Breaker.CircuitBreaker.Record` | internal/breaker/breaker.go:191-202 | the ring update is an append to the log |
| `Breaker.CircuitBreaker.ShouldTrip` | internal/breaker/breaker.go:207-221 | the verdict is the error rate and volume of the last windowSeconds of the log |
| `Breaker.CircuitBreaker.ResetWindow` | internal/breaker/breaker.go:223-227 | clearing the ring empties the log |
| `BreakerRuns.CooldownDoublesToCeiling` | internal/breaker/breaker.go:178 | after k half-open failures the cooldown is min(cooldown*2^k, max) for every k if and only if the ceiling is below 2^62 ns |
| `BreakerRuns.CooldownTurnsNegative` | internal/breaker/breaker.go:178 | counterexample: a ceiling of 2^62 ns doubles to a negative cooldown |
| `BreakerRuns.CoolingStep` | internal/breaker/breaker.go:127-189 | every call keeps the cooldown bookkeeping of a tripped breaker, and grants come out of the quota |
| `BreakerRuns.TrippedRunIsThrottled` | internal/breaker/breaker.go:127-189 | along every run that does not close after a failure trips a closed breaker, the n-th half-open epoch cannot begin before the first n doubled cooldowns, and at most n quotas of calls are granted |
| `BreakerRuns.AdvanceAccounts` | internal/breaker/breaker.go:127-189 | every request, report (stale or not) and unreported end keeps the half-open slots accounted for |
| `BreakerRuns.SlotsAreAccounted` | internal/breaker/breaker.go:127-189 | in every reachable half-open state slots + probes out + abandoned + wins >= quota, and wins < quota |
| `BreakerRuns.StaysInFlight` | internal/breaker/breaker.go:127-189 | whatever other calls do, a call keeps its ticket until an event of its own ends it, so its next report is always possible |
| `BreakerRuns.CallSettles` | internal/breaker/breaker.go:127-189 | however its events are interleaved with other calls, a call that concludes is in flight no longer, and abandoned only if it ended without a report |
| `BreakerRuns.RequestSettles` | internal/breaker/breaker.go:127-189 | the same from its request on, which was granted if it ever reports |
| `BreakerRuns.HalfOpenResolves` | internal/breaker/breaker.go:152-189 | if every call that ends reports, half-open cannot wedge: a probe is out, one failure reopens, all succeeding closes |
| `BreakerRuns.WedgedExactlyWithoutSlots` | internal/breaker/breaker.go:107-149 | a half-open breaker with nothing in flight refuses for ever if and only if it has no slot left, and only after a probe ended unreported |
| `BreakerRuns.TerminalProbeWedges` | internal/retry/engine.go:180-184 | counterexample: a new breaker with a quota of one trips on one failure and wedges on one Terminal probe |
| `BreakerLaws.ClosedRemembers` | internal/breaker/breaker.go:127-202 | while closed every call is let through and every outcome remembered in order |
| `BreakerLaws.TripsOnHistory` | internal/breaker/breaker.go:170-221 | a breaker closed since it was new trips on a failure if and only if the calls of the last window seconds number at least minRequests and the share of failures among them has reached the threshold |
| `BreakerLaws.OpenHolds` | internal/breaker/breaker.go:127-189 | while open, reports of any kind and early calls change nothing |
| `BreakerLaws.TripHoldsOff` | internal/breaker/breaker.go:182-187 | from a trip on, whatever stale reports arrive, nothing is let through before the configured cooldown is over and the first call after it is |
| `BreakerLaws.FailedProbeHoldsOff` | internal/breaker/breaker.go:174-181 | a failed probe holds off for exactly min(2*cooldown, ceiling) |
| `BreakerLaws.EpochLetsQuotaThrough` | internal/breaker/breaker.go:127-167 | an epoch without a failed probe lets exactly the quota of calls through and closes on exactly the quota-th success |
| `BreakerLaws.ReclosedIsNew` | internal/breaker/breaker.go:152-167 | whatever calls follow, a breaker that closed again answers and changes state exactly as a new one |
| `Prober.ProbeOnce` | internal/breaker/prober.go:42-69 | one sweep leaves every breaker as its own probe and its other callers do: exactly those seen open, due, wired and checkable are asked, and exactly those let through are reported to |
| `Prober.ProbeBreaker` | internal/breaker/prober.go:44-67 | see, peek, ask, check health and report, over the breaker itself, with arbitrary calls of others before each |
| `Prober.ProbeReports` | internal/breaker/prober.go:57-67 | whatever other callers do in between: a probe passed over asks nothing, one that loses the race only asks, one let through asks and reports; nothing stays in flight and nothing is abandoned |
| `Prober.ProbeTellsHealth` | internal/breaker/prober.go:44-67 | a breaker is asked if and only if it was seen open, was ready, and its provider is wired and checkable; one let through is told the health found |
| `Prober.RaceIsLost` | internal/breaker/prober.go:54-57 | the race can be lost: with a quota of one, a request just before the ask takes the slot |
| `Router.SortIsStable` | internal/router/router.go:41-67 | sorting by priority keeps configuration order within a priority |
| `Router.SortKeeps` | internal/router/router.go:41-67 | the sorted order is sorted and a permutation of the configuration |
| `Router.LastEntryWins` | internal/router/router.go:53-58 | of entries that share a name the last in sorted order decides priority and weight |
| `Router.Tabulate` | internal/router/router.go:50-58 | the loop builds the order and, for each name, the settings of its last entry |
| `Router.Routes.constructor` | internal/router/router.go:41-67 | for any configuration, the sorted order with each name's last priority and weight |
| `Router.Routes.Resolve` | internal/router/router.go:89-134 | unknown aliases give nothing; tier k of a chain holds exactly its k-th supported link with the alias's model; otherwise the tiers are the grouping of the routed order, which is exactly the alias's providers by strictly increasing priority and in configuration order when entries of one name agree |
| `Router.Routes.FollowChain` | internal/router/router.go:95-111 | tier k is exactly the k-th link the alias supports, with its model and weight |
| `Router.ChainInOrder` | internal/router/router.go:95-105 | as many tiers as supported links, each at the place the links before it leave |
| `Router.ChainJoins` | internal/router/router.go:97-105 | the tiers of two chains in a row are those of the first and then those of the second |
| `Router.Routes.GroupByPriority` | internal/router/router.go:113-129 | one loop over the routed order computes its grouping, and finds nothing only when the alias has no provider |
| `Router.ByPriorityOnce` | internal/router/router.go:113-129 | there is only one such grouping of a configuration |
| `Router.LowerPriorityFirst` | internal/router/router.go:113-129 | any two configured providers of an alias stand in one tier if and only if their priorities are equal, the lower one in an earlier tier otherwise, each at its place in configuration order |
| `Router.GroupsFollowConfiguration` | internal/router/router.go:41-134 | for every alias the grouping follows the configuration if and only if entries that share a name agree in priority and weight |
| `Router.SameNameMisgrouped` | internal/router/router.go:52-58 | counterexample: one name at two priorities |
| `Router.NextKeepsGroups` | internal/router/router.go:116-129 | one more provider joins the last tier, opens a new one or is skipped, and the grouping stays complete |
| `Selection.NoWeightIsDrained` | internal/retry/engine.go:401-419 | eligible weights sum to zero if and only if every candidate is tried, unwired, not ready when asked, or of weight 0 |
| `Selection.DrawsMatchWeight` | internal/retry/engine.go:421-427 | exactly weight-many of the totalWeight draws choose each candidate |
| `Selection.CoversOnce` | internal/retry/engine.go:421-427 | a draw chooses one candidate only |
| `Selection.LandsInShare` | internal/retry/engine.go:421-427 | every draw lands in exactly one share, its owner's |
| `Selection.PickedWasReady` | internal/retry/engine.go:401-419 | whoever is picked is wired, untried and was ready when asked |
| `Selection.PickFromTier` | internal/retry/engine.go:401-429 | nothing if and only if the tier is drained, otherwise the eligible candidate in whose share the draw lands |
| `Selection.Scan` | internal/retry/engine.go:421-428 | the scan always stops inside a share, so the last return is unreachable |
| `Attempts.Pause` | internal/retry/engine.go:146-156 | a backoff takes its place in the run: Retry-After or a draw below the cap, refused if it would outlive the deadline |
| `Attempts.Complete` | internal/retry/engine.go:159-186 | one call: the provider's own reply within its timeout, with the breaker told of everything but Terminal failures |
| `Attempts.TryCandidate` | internal/retry/engine.go:131-192 | one candidate's calls and sleeps: at most maxAttempts calls, only a retryable failure is followed by anything, no call without a grant |
| `Engine.Execute` | internal/retry/engine.go:86-125 | terminates under arbitrary breaker interference; the run fits the grammar with every pick, grant, reply and sleep the oracles' own; a tier is left only when it is drained, asked after everything done there and before anything later; the result follows from the run |
| `Engine.WalkTier` | internal/retry/engine.go:91-122 | one tier: candidates are tried until one settles the request or nobody is left to choose |
| `Engine.ReadyIsTried` | internal/retry/engine.go:91-97 | a tier is never left over the head of a candidate that stays ready: it was tried there first |
| `Engine.Visit` | internal/retry/engine.go:99-121 | one candidate tried: the request is settled by it or the walk goes on |
| `Engine.CandidateJoins` | internal/retry/engine.go:99-121 | each outcome extends the run within the grammar and settles the request exactly as its class demands |
| `Engine.NoSplicing` | internal/retry/engine.go:238-272 | in every run all but the last reply are failures that blame the provider and sent nothing; an error is "flushed" if and only if some call sent content |
| `Engine.OneReplyCounts` | internal/retry/engine.go:296-346 | the same from the order of the acts alone: content only ever comes from the last reply, and a completed run's answer is that reply |
| `Engine.NoHealthyProviderMeansNoCall` | internal/retry/engine.go:86-125 | "no healthy provider" is the answer if and only if no call was made |
| `Engine.RunKeepsDeadline` | internal/retry/backoff.go:44-79 | from the timeout each call is given and the fit each sleep is checked for: no call or sleep begun before the deadline ends after it, whatever the Retry-After values and number of tiers; the breaker hears of every call except Terminal and post-flush failures |
| `Engine.WaitsAreBounded` | internal/retry/backoff.go:36-42 | every backoff of every run is the provider's Retry-After or below the configured ceiling, at any attempt, wrapped or not |
| `EngineLaws.PickedReady` | internal/retry/engine.go:91-99 | every candidate of every run was ready when asked, and is called if and only if its breaker let it through right after |
| `EngineLaws.TriedOncePerTier` | internal/retry/engine.go:86-99 | no provider is tried twice in a tier and no tier is gone back to |
| `EngineLaws.RetriedByStatus` | internal/retry/engine.go:172-190 | a call is followed by anything at the same provider only after a 429 or a status of 500 and up that sent nothing |
| `EngineLaws.GivesUpLast` | internal/retry/engine.go:144-191 | after such a failure it is asked again until the attempts are used up or the sleep is refused or cut short, and there is no sleep after the last attempt |
| `EngineLaws.ActsTakeTheirTime` | internal/retry/backoff.go:44-79 | every call ends when the provider answers, at its timeout or at the deadline, whichever is first; a sleep completes if and only if it fits before the deadline and is not cancelled, and then lasts exactly its wait |
| `EngineLaws.WaitsDouble` | internal/retry/backoff.go:17-42 | the wait after a provider's n-th failure is its Retry-After or is drawn from below min(base*2^(n-1), ceiling) |
| `EngineLaws.BreakerHears` | internal/retry/engine.go:165-186 | the breaker hears of success, of failure exactly for 400, 401, 403, 404, 429 and 500 and up with nothing sent, and nothing of any other failure |
| `EngineLaws.GoesPast` | internal/retry/engine.go:99-121 | the walk goes past a candidate only if its breaker refused it, or it failed with one of those statuses, sent nothing and left the context alive |
| `EngineLaws.AnsweredByStatus` | internal/retry/engine.go:86-125 | the result is determined by the run: which reply completes it, fails it flushed or not, ends it with the context, or is the last error once every tier is left |
| `Engine.WeightlessLinkIsSkipped` | internal/router/router.go:95-111 | a link of an explicit chain with weight 0 is never called in any run, and its tier is always drained |
| `Engine.LinkIsTriedByWeight` | internal/retry/engine.go:401-419 | a link that is wired and stays ready is tried before the walk goes past it if and only if its weight is not 0 |
| `ChatShortfalls.WeightlessChainIsRefused` | internal/router/router.go:95-111 | counterexample: the only link is ready but of weight 0, and no provider is healthy |
| `Reporting.BlockTells` | internal/retry/engine.go:172-186 | every call of a block but the last is reported as a failure, and the last is unreported if and only if it failed Terminal or after content was sent |
| `Reporting.ToldInOrder` | internal/retry/engine.go:159-186 | the breaker is told of each call when that call ends, in order |
| `Reporting.BlockIsTraffic` | internal/retry/engine.go:131-192 | however the events of a granted block are interleaved with those of other calls, at the end it is in flight no longer, and abandoned only if it ended Terminal or after content was sent |
| `Reporting.BlockGoesOn` | internal/retry/engine.go:131-192 | it is never held up: its next event is possible until the last has happened |
| `Streaming.StreamHandler.OnDelta` | internal/server/stream.go:117-151 | collects the delta, commits headers before the first chunk, accepts exactly when it could write; headers are out exactly when it can flush and has seen a delta |
| `Streaming.OfferAll` | internal/retry/engine.go:363-381 | deltas reach the callback in order until it cannot write one |
| `Streaming.RelayStream` | internal/retry/engine.go:354-383 | the reply is the provider's, or the accepted prefix with an error that has no status; the handler holds exactly what the call left |
| `Streaming.RelayedExactly` | internal/retry/engine.go:363-382 | all the provider sent if and only if every delta could be written, else those before the first that could not and an error without a status |
| `Streaming.TryCandidateStream` | internal/retry/engine.go:281-347 | the retry loop never calls again once content was sent, and the handler holds what every call left |
| `Streaming.ExecuteStream` | internal/retry/engine.go:233-273 | the grammar and answers of the plain walk, and wire and collected deltas are exactly those of the calls of the run |
| `Streaming.RunDelivers` | internal/retry/engine.go:233-273 | in every run the client holds exactly the content of the last call if it was answered or flushed, else nothing; what was counted is that and a refused delta |
| `Streaming.WireCarriesAccepted` | internal/server/stream.go:144-151 | after the headers exactly one chunk for every accepted delta of every call, in order, with its content and finish reason |
| `Streaming.CountsEachDelta` | internal/server/stream.go:119-122 | tokens are counted delta by delta, content only |
| `Streaming.WireStarts` | internal/server/stream.go:126-142 | event-stream headers are out if and only if the writer can flush and some call offered a delta |
| `Streaming.HeadersNameFirst` | internal/server/stream.go:126-142 | headers that are out name a provider if and only if its call was the first to offer a delta, whether or not it went on to fail |
| `Streaming.FinishIsOwn` | internal/server/stream.go:123-125 | after an answered run the collected finish reason is the answer's own if and only if the answering call named one or no call before it left another |
| `Streaming.FlushedMeansContent` | internal/retry/engine.go:378-380 | a reply is flushed if and only if its accepted deltas have content |
| `ChatHandler.HandleStreaming` | internal/server/stream.go:84-235 | one Adjust on the limiter for exactly the charge of the cached answer or of the engine's run, and response and stored answer are theirs, whether or not the last event could be written |
| `ChatHandler.CachedStreamContent` | internal/server/stream.go:271-310 | a replayed cache entry sends exactly its content, then its finish reason, "stop" by default, and closes with [DONE] if that can be written |
| `ChatHandler.HandlePlain` | internal/server/chat.go:167-214 | the same for a plain request |
| `ChatHandler.HandleChatCompletion` | internal/server/chat.go:135-216 | whatever other requests do meanwhile: a request that was not admitted only asks; an admitted one is an arrival and exactly one settlement for its charge, and charge, response and stored answer are those of its run in every case |
| `ChatHandler.ChargedAsServed` | internal/server/stream.go:172-218 | the charge is at least what reached the client, by the usage it reports or the tokens of its content, and exactly that if and only if the stream did not break on a refused delta that counts tokens |
| `ChatHandler.AnswerIsCharged` | internal/server/chat.go:208-209 | an answer is charged the prompt and completion usage it reports itself, streamed or not; without any, a stream is charged its prompt and content and a plain answer nothing |
| `ChatHandler.OverrunsEstimate` | internal/server/chat.go:135-140 | a request overruns its reservation by exactly what it is charged beyond its prompt and the completion announced, or the default estimate |
| `ChatShortfalls.RefusedDeltaIsCharged` | internal/server/stream.go:119-122 | counterexample: one token delivered, two charged |
| `ChatHandler.StreamedResponse` | internal/server/stream.go:107-235 | every streamed response has exactly one last event, if it can be written: [DONE] after exactly the answer, an error event after exactly what the last call delivered, or a JSON error after no content, which follows headers if and only if some call offered a delta |
| `ChatHandler.PlainResponse` | internal/server/chat.go:172-201 | a plain response is one JSON document: the answer's content, the cached content, or an error |
| `ChatShortfalls.ErrorAfterHeaders` | internal/server/stream.go:126-142 | counterexample: an empty delta and a 502 give headers, a chunk and a JSON error |
| `ChatHandler.StoredIsSent` | internal/server/stream.go:181-190 | only a complete answer is stored, with exactly the content the client received and the usage reported or counted, which is what was charged; its finish reason is the answer's own if and only if no failed call left another behind |
| `ChatHandler.HeadersNameAnswer` | internal/server/stream.go:126-142 | an answered stream opens with headers naming the provider that answered if and only if headers can be sent and its call was the first to offer a delta |
| `ChatShortfalls.FailedProviderIsNamed` | internal/server/stream.go:134 | counterexample: one provider sends an empty delta and fails, another answers, and the header names the first |
| `ChatShortfalls.FailedFinishIsStored` | internal/server/stream.go:123-125 | counterexample: the finish reason of the failed provider is stored for the other's answer |
| `SemanticStore.FirstMatchQualifies` | internal/cache/semantic/semantic.go:87-105 | a match is live, unexpired, above the threshold and equal in tenant, model, tools and format; there is none if and only if nothing qualifies |
| `SemanticStore.FirstMatchIsNearest` | internal/cache/semantic/semantic.go:74-78 | over sorted results the first match is the most similar one |
| `SemanticStore.NothingBelowThreshold` | internal/cache/semantic/semantic.go:93-95 | past the threshold nothing can match |
| `SemanticStore.StoredIsFound` | internal/cache/semantic/semantic.go:78-142 | a stored response is found by its own query until it expires, and only by queries of equal tenant, model, tools and format, who get that response |
| `SemanticStore.HitKeepsRecency` | internal/cache/semantic/semantic.go:103 | a hit keeps the list in order of last use and loses nothing |
| `SemanticStore.SetKeepsRecency` | internal/cache/semantic/semantic.go:116-161 | so does storing: the new entry is in front, the i-th stays if there is room behind it, and whatever goes was used before all that stays |
| `SemanticStore.Store.constructor` | internal/cache/semantic/semantic.go:60-72 | a new store is empty |
| `SemanticStore.Store.Get` | internal/cache/semantic/semantic.go:78-107 | for any nodes searched: a hit qualifies and becomes most recent, a miss changes nothing; with nodes of the graph the stored entry itself is similar enough; over sorted nodes the early break equals the full scan |
| `SemanticStore.Store.MoveToFront` | internal/cache/semantic/semantic.go:103 | exactly the hit item moves to the front |
| `SemanticStore.Store.Set` | internal/cache/semantic/semantic.go:116-142 | the new entry is most recent and survives, the least recent make room, live entries <= maxVectors and graph nodes <= 2*maxVectors, even after an oversized load |
| `SemanticStore.Store.EvictOldest` | internal/cache/semantic/semantic.go:152-161 | the least recently set or hit item goes, nothing else |
| `SemanticStore.Store.RebuildGraphIfNeeded` | internal/cache/semantic/semantic.go:167-179 | every live vector stays in the graph unchanged and orphans stay bounded |
| `SemanticStore.Store.SaveToDisk` | internal/cache/semantic/semantic.go:203-222 | the file lists each live entry exactly once |
| `SemanticStore.Store.LoadFromDisk` | internal/cache/semantic/semantic.go:227-259 | for any file: every unexpired item goes in front, whatever the limit; list, map and graph stay consistent if and only if each key is new when its turn comes |
| `SemanticStore.LastLoadedFirst` | internal/cache/semantic/semantic.go:244-257 | loaded items stand in reverse file order |
| `SemanticStore.LoadConsistent` | internal/cache/semantic/semantic.go:244-257 | the loaded list pairs with the restored map if and only if the keys are new, and then recency, index and orphan bound carry over |
| `SemanticStore.ReloadListsTwice` | internal/cache/semantic/semantic.go:254-255 | counterexample: loading over the store that saved the file |
| `SemanticStore.SaveLoadRoundTrip` | internal/cache/semantic/semantic.go:203-259 | saving and loading into an empty store restores exactly the entries that have not expired |
| `UsageLedger.NextConserves` | internal/ledger/ledger.go:85-136 | every atomic step keeps batches + current batch + channel equal to the accepted rows in order, and accepted + dropped equal to recorded |
| `UsageLedger.NextBounded` | internal/ledger/ledger.go:85-136 | every step keeps batches non-empty, ordinary ones within batchSize and the drain batch within a batch, a buffer and late arrivals |
| `UsageLedger.DropsOnlyWhenFull` | internal/ledger/ledger.go:85-91 | a row is dropped if and only if as many as the buffer holds are taken but neither batched nor handed over |
| `UsageLedger.FullUnlessTicked` | internal/ledger/ledger.go:111-131 | a batch is handed over full, by the ticker or by the shutdown, and at no other time |
| `UsageLedger.EveryRunConserves` | internal/ledger/ledger.go:85-136 | conservation, order and bounds under every interleaving |
| `UsageLedger.TickHandsOver` | internal/ledger/ledger.go:116-117 | after any run that ends in a tick every row received has been handed over |
| `UsageLedger.ExitLosesOnlyLateRows` | internal/ledger/ledger.go:111-131 | after exit everything accepted was handed over if and only if no row was accepted after the loop had gone |
| `UsageLedger.DrainSize` | internal/ledger/ledger.go:117-130 | the drain adds at most one batch: what was batched and buffered when it began plus what was accepted while it ran; it stays within batchSize-1+bufferSize if and only if those arrivals fit in the room left |
| `UsageLedger.DrainBatchCanGrow` | internal/ledger/ledger.go:117-130 | counterexample: a Record during the drain exceeds batchSize-1+bufferSize |
| `UsageLedger.Writer.RecordRow` | internal/ledger/ledger.go:85-91 | never blocks: a full buffer drops and counts |
| `UsageLedger.Writer.Flush` | internal/ledger/ledger.go:99-107 | an empty batch is never handed over |
| `UsageLedger.Writer.OnReceive` | internal/ledger/ledger.go:111-115 | one received row, flushed at batchSize |
| `UsageLedger.Writer.OnTick` | internal/ledger/ledger.go:116-117 | the interval flush |
| `UsageLedger.Writer.RequestStop` | internal/ledger/ledger.go:141-142 | cancellation only sets the flag |
| `UsageLedger.Writer.Drain` | internal/ledger/ledger.go:118-131 | whatever is recorded before each look at the channel, the drain is a run of the ledger's steps that exits with nothing buffered: all accepted by then was handed over in order |
| `WordPiece.LongestFrom` | internal/embedding/wordpiece.go:104-118 | the longest known piece at a position, or that there is none |
| `WordPiece.Wordpiece` | internal/embedding/wordpiece.go:95-126 | the greedy segmentation, or a bare [UNK] exactly when the word is over 100 runes or the scan reaches a position nothing matches |
| `WordPiece.GreedyIsUnique` | internal/embedding/wordpiece.go:95-126 | a word has only one finished greedy scan |
| `WordPiece.SegmentedOnce` | internal/embedding/wordpiece.go:95-126 | so its segmentation is unique |
| `WordPiece.PiecesRejoin` | internal/embedding/wordpiece.go:107-109 | stripping "##" and joining gives back the word as far as it was cut |
| `WordPiece.PiecesAreMarked` | internal/embedding/wordpiece.go:104-118 | the first piece is cut as it is and later ones carry "##"; at no cut was a longer piece known |
| `WordPiece.WholeWord` | internal/embedding/wordpiece.go:95-126 | a known word of at most 100 runes stays whole and a longer one becomes [UNK] |
| `WordPiece.PiecesAreKnown` | internal/embedding/wordpiece.go:95-126 | every piece is in the vocabulary unless the word became [UNK] |
| `WordPiece.CleanText` | internal/embedding/wordpiece.go:165-178 | NUL, replacement and control characters go and every space becomes a blank |
| `WordPiece.CleansEachCharacter` | internal/embedding/wordpiece.go:165-197 | character by character: ordinary ones stay, every kind of space becomes a blank, NUL, replacement and control characters go |
| `WordPiece.BasicTokenize` | internal/embedding/wordpiece.go:130-152 | the buffer scan yields exactly the maximal plain runs and single punctuation marks of the cleaned text |
| `WordPiece.WordsKeepText` | internal/embedding/wordpiece.go:130-152 | splitting loses nothing but spaces, and every word is a run of plain characters or one mark |
| `WordPiece.AsciiPunctuation` | internal/embedding/wordpiece.go:200-205 | the built-in marks are exactly the 32 of ASCII |
| `WordPiece.Encode` | internal/embedding/wordpiece.go:64-91 | ids of the words' pieces between [CLS] and [SEP], at most maxSeqLen, [SEP] last, [CLS] first whenever maxSeqLen >= 2 |
| `WordPiece.IdsNamePieces` | internal/embedding/wordpiece.go:79-85 | without repeated ids, the id of a known piece names that piece alone, and an unknown one gets the id of [UNK] or 0 |
| `WordPiece.TruncatedKeepsStart` | internal/embedding/wordpiece.go:73-76 | cutting to the limit keeps the beginning, and [SEP] at the end |

## Left out

- Backoff.FullJitterBackoff: the distribution of the draw is not modelled; the contract holds for every draw.
- Breaker.CircuitBreaker.ShouldTrip: the error rate is an exact quotient, without float64 rounding.
- TokenBuckets.RedisBuckets.Reserve: Lua's double rounding, the millisecond grain of EXPIRE and a script that applied but whose reply was lost are not modelled.
- Engine.Execute: breakers are oracles here, so the engine's own reports do not feed back into the answers it gets; any answers are allowed.
- ChatHandler.CachedStreamContent: a replay's chunks are taken to be written; the source ignores their write errors too.
- UsageLedger.Writer.Drain: an insert that fails drops its batch in the source; handing the batch over is where the model stops.
- UsageLedger.Writer.RequestStop: Close's timeout while waiting for the loop is not modelled.
- SemanticStore.SaveLoadRoundTrip: the gob encoding and file errors are not modelled, and the recency order is not restored by the source either.
- WordPiece.BasicTokenize: lower-casing, accent stripping and the Unicode tables are parameters or happen before the text arrives.
- Streaming.StreamHandler.OnDelta: a write either succeeds whole or fails; partially written events, chunk ids and the X-Gateway headers other than the provider are not modelled.
- Liveness: that a prober or ticker ever runs is not claimed.
- Provider HTTP clients and SSE parsing: network code, represented by the reply oracles.
- HNSW search and ONNX embedding: foreign libraries, represented by an arbitrary list of nodes and a similarity function.
- Exact-match cache keys: almost entirely JSON encoding and hashing.
- Authentication, admin handlers, cache lookup plumbing, configuration parsing, breaker registry: thin code that would add only easy members.
- Metrics, logging, server lifecycle, migrations, pricing and token counting: no property of the kind proved here.
