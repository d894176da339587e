# Gateway model

A Dafny model of the stateful algorithms under an LLM gateway written in Go, with proofs of what they keep over
whole runs. Each part of the gateway has its own module.

| part | modules |
|---|---|
| Bounded-load consistent-hash routing | `Labels`, `HashRing`, `Affinity` |
| Request coalescing | `Coalescing` |
| Sliding windows: circuit breaker and burn-rate monitor | `Windows`, `Circuit`, `Slo` |
| Token buckets: multi-level limiter, per-consumer limiter, warm-up quota and rounds | `Metering`, `MultiLimiter`, `PrunedLimiter`, `Quota`, `Warmup` |
| Hot reload of providers | `Registry`, `Reload` |
| Usage ledger and its log | `Ledger` |
| Stream reassembly and server-sent events | `ToolCalls`, `Sse` |
| Response cache | `TtlCache` |
| Provider selection | `Routing` |

Objects with mutable fields are classes whose methods are proved against functions on values; whole-run results are
lemmas about those functions. `dafny verify dfyconfig.toml` checks everything.

## Conventions

- The clock is a parameter, read once per operation, and does not go back. Floating-point numbers are `real`s and
  machine integers unbounded, except the index that `Labels.Itoa` writes, which is a 64-bit one.
- Mutexes make each locked operation one atomic step, so classes are sequential. The coalescer, whose point is
  concurrency, is a step system instead: each goroutine has a program counter, each unlocked read or write of a call
  record is a step of its own, and every schedule is considered.
- Buckets and entries that the Go code reaches by reference from maps are values in maps here: no bucket is
  ever reached from two places, so this cannot be observed.
- The vnode hash is a function parameter. The library sort of vnodes is any sorted permutation; results that would
  depend on how equal hashes of different providers are ordered assume there are none, which
  `HashRing.CollisionFreeHashHasNoTies` derives from a hash that tells the labels on the ring apart.
- JSON and YAML decoding, digests of file contents, provider factories, upstream answers, random draws and health
  snapshots are parameters. A map's iteration order is arbitrary.
- `Circuit` keeps two of the three counters of a bucket and takes the number of calls to be successes plus failures,
  which is how every record leaves them.
- Server-sent events are read and written as the gateway does, a subset of sections 9.2.5 and 9.2.6 of the WHATWG
  HTML Standard. The reader's line limit is the default token limit of Go's scanner, 64 KiB including the newline.

## Where a promise fails

Each of these is kept as the code has it, and the condition under which the promise holds is proved to be exact.

- The affinity walk starts with the last visited name set to the empty string, so an available provider with an
  empty name can be passed over (`Affinity.WalkIsLookupExactlyWhenNotShadowed`, `Affinity.EmptyNameCanBeShadowed`).
  Configured providers always have a name (`config/parser.go:135`), so only other users of the router can meet this.
- A request with a negative token count can lift a bucket over its limit (`MultiLimiter.StepKeepsRange`,
  `MultiLimiter.NegativeTokensCanOverfill`). The gateway rejects negative `max_tokens` first (`server/api.go:476`), so its
  estimate (`provider/manager.go:205-212`) could be negative only by integer overflow; other callers of the limiter can
  pass any count.
- Forgetting idle buckets can be observed when the capacity is at least 1 and above 600 times the rate
  (`PrunedLimiter.PruningIsInvisibleExactlyWhen`).
- A reload leaves a name wrong when its factory fails on an addition or update (`Reload.FailingFactoryLosesAProvider`),
  and the name stays wrong until its configuration changes again (`Reload.RightnessNeedsAChange`); an addition never
  rebuilds a name already registered (`Reload.ReloadIsRightExactlyWhen`).
  The condition covers configurations that repeat a name; `Reload.DuplicateNamesDiverge` is one that diverges.
- A log line longer than the scanner's buffer ends the replay there, and what is recorded while the log is not open is
  lost (`Ledger.RestartRebuildsExactlyWhen`, `Ledger.ARecordCanBeLost`).
- Fragments whose indices do not open in the order 0, 1, 2, ... are misplaced
  (`ToolCalls.ReassemblyIsRightExactlyWhen`, `ToolCalls.LateIndexIsSplit`).
- A payload that is empty, has white space at its end, spans lines, equals the terminator or exceeds the line limit
  does not survive the stream (`Sse.ReadsBackExactlyWhen`, `Sse.TerminatorPayloadIsLost`).
- Eviction forgets the empty key as its choice (`TtlCache.VictimIsEarliestExactlyWhen`,
  `TtlCache.EmptyKeyCanBeForgotten`). The gateway's own keys are digests and never empty.

## Where code and comments differ

- `cache/cache.go` calls the cache LRU-like; the code evicts the entry that expires first, and at capacity evicts
  even when it overwrites a key already held.
- `provider/circuit.go` configures staged half-open permits 1, 3, 10; the code reads only the first and caps no
  admissions, and the model does the same.
- `observability/slo.go` describes its long window as six hours of ten-minute buckets; both rings step every five
  minutes, so the model's long ring covers 36 slices of five minutes.
- `prefix/quota.go` says rpm <= 0 means unlimited; the constructor turns it into 30.

## Model

| member | source | states |
|---|---|---|
| Labels.Itoa | prefix/affinity.go:258-270 | For every 64-bit index the backwards-filled buffer is the decimal numeral of a non-negative index and empty for a negative one |
| Labels.DecimalReadsBack | prefix/affinity.go:258-270 | Reading a numeral back gives the index it was made from |
| Labels.LabelsAreDistinct | prefix/affinity.go:47-51 | Two vnode labels are equal only for the same provider name and the same index, even when names contain NULs or digits |
| HashRing.CollisionFreeHashHasNoTies | prefix/affinity.go:47-54 | If the hash tells apart the labels that these nodes put on the ring, no two providers share a position, so the unstable sort has nothing to decide |
| HashRing.Search | prefix/affinity.go:64-66 | Bisection finds the first vnode at or past the hash: all before are smaller, all from there on are not |
| HashRing.SortByHash | prefix/affinity.go:54 | A sorted permutation of the vnodes, all that is used of the library sort |
| HashRing.Ring.constructor | prefix/affinity.go:38-56 | The ring holds exactly 256 points per unit of weight for every node, sorted by hash, with each name's last weight |
| HashRing.PointsAreWeighted | prefix/affinity.go:44-53 | Each unit of a node's weight, one at least, puts 256 points on the ring |
| HashRing.WeightIsLastListed | prefix/affinity.go:44-82 | On a ring the load bound weighs a provider as its last listing does, and by at least one |
| HashRing.Ring.PointsOnRing | prefix/affinity.go:38-56 | The vnodes are, as a set, the points the node list stands for; the ring is empty exactly when the list is |
| HashRing.Ring.Lookup | prefix/affinity.go:59-71 | The answer owns the point nearest clockwise of the key's hash, wrapping around; the empty ring answers the empty name |
| HashRing.OwnerIsUnique | prefix/affinity.go:59-71 | A position has one owner, so a lookup does not depend on how equal hashes were ordered |
| HashRing.RemovingANodeMovesOnlyItsKeys | prefix/affinity.go:38-71 | Removing a provider leaves every key it did not own where it was, and leaves it none |
| HashRing.AddingANodeGrows | prefix/affinity.go:38-56 | Inserting a node anywhere in the list only adds points of that node |
| HashRing.RaisingAWeightGrows | prefix/affinity.go:38-56 | Raising a weight keeps every old point and only adds points of that node, because labels are prefix-stable in the index |
| HashRing.GrowingANodeMovesKeysOnlyToIt | prefix/affinity.go:38-71 | Adding a provider or raising its weight moves keys only to that provider, for every key and node list |
| Affinity.WalkFindsFirstAvailable | prefix/affinity.go:155-171 | The walk's answer is the first available name of the turn unless the turn starts with an available empty name and every later empty name comes after an available non-empty one, and exactly then it is not |
| Affinity.FirstIsNamed | prefix/affinity.go:155-171 | By positions alone: when the first available name of a list is not the empty one |
| Affinity.FirstAvailableIsLookup | prefix/affinity.go:150-171 | The first available name clockwise is what a lookup answers on a ring rebuilt from only the available providers at the same weights; there is none exactly when no provider is available |
| Affinity.AffinityRouter.constructor | prefix/affinity.go:102-117 | Defaults 1.25 and 60 seconds replace non-positive settings; the ring is built from the nodes; maps and counters start empty |
| Affinity.AffinityRouter.SetRing | prefix/affinity.go:120-125 | A new ring from the new nodes and no sticky entries; load and counters are kept |
| Affinity.AffinityRouter.WalkFrom | prefix/affinity.go:155-171 | The loop over one turn, with its last visited name and early exit, is the specified walk; what that walk answers is told in probes and counts by AnswerFits |
| Affinity.AnswerFits | prefix/affinity.go:150-182 | The walk's answer in probe results and in-flight counts: healthy and within overload * weight; none only when every provider is unhealthy or over it; and the nearest point of a provider that is neither decides |
| Affinity.OwnerAnswers | prefix/affinity.go:133-174 | The owner of a key's position answers it whenever it is healthy and has at most overload * weight in flight |
| Affinity.BoundIsLastListed | prefix/affinity.go:73-82 | The bound is the overload factor times the weight last listed under the name, at least one |
| Affinity.AffinityRouter.WalkRing | prefix/affinity.go:150-171 | The answer is available, and it is the lookup on the ring of available providers unless an empty name is shadowed; without ties only then is it not |
| Affinity.AffinityRouter.Decide | prefix/affinity.go:133-174 | Overflow exactly when an unexpired sticky entry names a healthy provider; otherwise the entry is dropped and the ring decides: a provider it answers is listed, healthy and has at most overload * weight in flight; without empty names, falling back means that every provider is unhealthy or has more, and, with no ties, a healthy one within its bound is the answer when every nearer point is of one that is not; with empty names the answer is the lookup on the ring of available providers exactly when none is shadowed; each answer bumps its own counter only |
| Affinity.AffinityRouter.RecordOverflow | prefix/affinity.go:186-191 | Records the provider until now plus the TTL, replacing what was there |
| Affinity.AffinityRouter.Inc | prefix/affinity.go:194-203 | Adds one to the provider's load, from nothing if it had none |
| Affinity.AffinityRouter.Dec | prefix/affinity.go:205-215 | Takes one off, never leaving less than zero; an unknown provider is left unknown |
| Affinity.EndingUndoesStarting | prefix/affinity.go:194-215 | A request that ends gives back exactly what it took, and touches no other provider's count |
| Affinity.WalkAnswers | prefix/affinity.go:150-174 | Whatever the names, the walk answers only available providers, and the lookup over them unless an empty name is shadowed |
| Affinity.WalkIsLookupExactlyWhenNotShadowed | prefix/affinity.go:155-162 | With providers of empty name allowed: the walk is the lookup if and only if no available leading empty name is overtaken, told from the positions and availability of the names on the turn |
| Affinity.AnswerIsTheLookup | prefix/affinity.go:58-71 | Without ties, what Decide must answer is the very name Lookup returns on the rebuilt ring, and none when that ring is empty |
| Affinity.LoadIsBounded | prefix/affinity.go:155-215 | Bounded load: on one ring, over any run of walks that are each counted before the next, and of requests that end, no provider is ever more than one request over overload * weight |
| Affinity.EmptyNameCanBeShadowed | prefix/affinity.go:155-161 | The failing input: when every vnode has the empty name and is available, the walk falls back although the lookup answers it |
| Affinity.LosingAProviderMovesOnlyItsKeys | prefix/affinity.go:133-182 | A provider that turns unhealthy or overloaded loses its keys; every other key keeps its provider |
| Coalescing.StepKeepsInv | cache/coalescer.go:34-66 | Every step of every goroutine keeps the invariant: calls and leaders one to one, pending exactly the leaders before their delete, records as their leader left them |
| Coalescing.RunKeepsInv | cache/coalescer.go:34-66 | So does every schedule of any number of callers |
| Coalescing.OneLeaderPerKey | cache/coalescer.go:35-57 | Over every interleaving at most one caller per key is between creating its entry and deleting it, so at most one runs fn |
| Coalescing.LeadersReturnWhatFnGave | cache/coalescer.go:52-66 | Over any schedule from the start: a leader that has returned ran fn once and returns the value and error that run gave; a caller that joined another's call never runs fn |
| Coalescing.WaitersReturnTheirLeadersResult | cache/coalescer.go:36-47 | Over any schedule from the start: a waiter that returns without timing out returns the one value and error fn gave the leader of the call it joined, a call for its own key, published before the waiter woke |
| Coalescing.CallersJoinOnlyLiveCalls | cache/coalescer.go:35-50 | A caller waits exactly when a call of its key is under way, and then for that call; it never joins one whose leader has passed its delete |
| Coalescing.ProcessesAreArrivals | cache/coalescer.go:34 | Each process is one call of Do and keeps the key it came with |
| Coalescing.EveryCallCanReturn | cache/coalescer.go:34-66 | No deadlock: from every reachable state each call that has not timed out can return a result without any timeout and without further calls |
| Coalescing.DeleteRemovesOnlyOwnEntry | cache/coalescer.go:59-64 | At its delete a leader finds its own entry, and every other entry stays |
| Coalescing.PendingCountsOwners | cache/coalescer.go:69-72 | The size of the pending map is the number of leaders not yet past their delete |
| Coalescing.NoLostWakeup | cache/coalescer.go:36-64 | While a caller waits on an open channel its leader still has a step to take before closing; once closed the waiter can go on; and it can time out whenever it waits |
| Windows.RecordMirrors | provider/circuit.go:103-112 | Adding an outcome to the current bucket keeps every bucket and their sum equal to the event log's counts per slice |
| Windows.AdvanceMirrors | provider/circuit.go:213-217 | Moving on one bucket and clearing it drops exactly the oldest slice from the sum |
| Windows.TallySplits | provider/circuit.go:142-149 | Counts over adjacent ranges of slices add up |
| Windows.SumAfterUpdate | provider/circuit.go:145-149 | Replacing one bucket changes the sum by the difference |
| Windows.TallyIsNumbers | provider/circuit.go:103-112 | The counts of a range of slices are its numbers of logged calls, failed calls and slow calls |
| Circuit.RateCompares | provider/circuit.go:182-185 | The quotient test is the test on counts, so no division is lost |
| Circuit.ShouldTrip | provider/circuit.go:162-187 | The adaptive thresholds, with rates as quotients, decide as specified on counts alone; TripsInNumbers says what that is on whole numbers |
| Circuit.TripsInNumbers | provider/circuit.go:162-187 | The decision on numbers of calls: past 15% of recent failures three calls and 40% failed or slow; under 3% and from twenty calls on, 60%; otherwise the configured calls and rates |
| Circuit.DefaultOpensExactlyWhen | provider/circuit.go:127-188 | By default a closed breaker opens if and only if, among the logged calls of the last ten slices, the one being recorded included, 2/5 of at least three, 3/5 of at least twenty or 1/2 of at least five failed or took over ten seconds, as the failures of the last two slices decide |
| Circuit.CircuitBreaker.constructor | provider/circuit.go:64-84 | Closed, with an empty window, and every unset field at its default |
| Circuit.CircuitBreaker.TransitionTo | provider/circuit.go:190-210 | Opening and closing empty the window, opening notes the time, half-opening restarts the count with the first permit |
| Circuit.CircuitBreaker.WindowCounts | provider/circuit.go:142-149 | The sum over all buckets is the log's count of the last numBuckets slices since the last reset |
| Circuit.CircuitBreaker.RecentCounts | provider/circuit.go:156-160 | Current and previous bucket hold the log's last two slices |
| Circuit.CircuitBreaker.Evaluate | provider/circuit.go:127-188 | The imperative evaluation refines the one on the event log, whose decision DefaultOpensExactlyWhen states on whole numbers |
| Circuit.CircuitBreaker.Allow | provider/circuit.go:94-98 | Refuses exactly when the state after evaluation is open |
| Circuit.CircuitBreaker.Record | provider/circuit.go:101-125 | Recording an outcome refines the step of the breaker over its event log |
| Circuit.CircuitBreaker.AdvanceBucket | provider/circuit.go:213-217 | Advancing refines moving the window on by one slice |
| Circuit.ClosedStep | provider/circuit.go:127-188 | A closed breaker stays closed or opens at the event's reading with an empty window |
| Circuit.OpenStep | provider/circuit.go:130-136 | An open breaker half-opens at the first reading past the wait, its count at zero, and changes nothing before |
| Circuit.HalfOpenStep | provider/circuit.go:113-124 | Half-open ends on a failure or on the success that completes the count, re-closing on an empty window that the same Record cannot trip again |
| Circuit.OnlyFourEdges | provider/circuit.go:101-210 | Whatever the event, the state changes only along Closed to Open, Open to HalfOpen, HalfOpen to Open and HalfOpen to Closed |
| Circuit.OpenHoldsForTheWait | provider/circuit.go:94-136 | From opening until openedAt plus the wait the breaker stays open through any late records and bucket advances |
| Circuit.HalfOpenLastsUntilNeeded | provider/circuit.go:113-123 | Without a failure the half-open phase lasts until max(first permit, 1) successes |
| Circuit.HalfOpenEnds | provider/circuit.go:113-124 | It opens exactly on a failure and closes exactly on the success that completes the count |
| Circuit.TripNeedsEvidence | provider/circuit.go:162-187 | Any trip has at least min(3, minCalls) windowed calls and a failure or slow rate at 40% or the configured threshold |
| Circuit.EmptyWindowNeverTrips | provider/circuit.go:178-187 | An empty window never trips |
| Circuit.FewCallsNeverTrip | provider/circuit.go:178-187 | With minCalls at least 3, fewer than three recorded calls never trip it |
| Circuit.OpensExactlyWhenItTrips | provider/circuit.go:127-188 | A closed breaker opens exactly when the window it judges trips |
| Circuit.DefaultTripNeedsThreeCalls | provider/circuit.go:31-42 | Under the default configuration opening needs at least 3 windowed calls, at least 40% of them failed or at least 40% slow |
| Circuit.QuietRunNeverOpens | provider/circuit.go:101-188 | A run with no failed and no slow call never opens, under any configuration |
| Circuit.OnlyFailuresTripAtThree | provider/circuit.go:156-187 | With only failures in the window, the last in the current slice, it trips exactly from the third on |
| Circuit.TwoFailuresAreTolerated | provider/circuit.go:101-188 | On a fresh window two failures never open it, when minCalls is at least 3, as by default |
| Circuit.ClosedHasBeenClosed | provider/circuit.go:101-188 | A breaker that has seen only failures and is closed has been closed all along, every failure still logged |
| Circuit.ThirdFailureOpens | provider/circuit.go:101-188 | Under any configuration: after two or more failures on a fresh window, within a full turn of it, one more failure opens a breaker that is still closed and leaves none closed; with minCalls at least 3 it is the third that opens it |
| Circuit.SlowSuccessesOpen | provider/circuit.go:101-188 | Under any configuration: successes that are all slow open a fresh window exactly at call min(minCalls, 20), or 20 when the slow rate is above 1, within a full turn of it, and leave it closed before |
| Circuit.FifthSlowSuccessOpens | provider/circuit.go:101-188 | By default: four successful calls of over ten seconds are tolerated and the fifth opens the breaker |
| Slo.AdvancingKeepsPace | observability/slo.go:144-161 | Slices stay paced against the clock despite the dropped remainder and the 12-step cap |
| Slo.ShortWindowSandwich | observability/slo.go:144-166 | Within a slice of the last advance the short window counts every record of age up to 11 slices and none of age 23 slices or more |
| Slo.ShortWithinLong | observability/slo.go:154-159 | Because the rings step together, short totals and failures never exceed the long ones |
| Slo.LongWindowReaches | observability/slo.go:144-166 | Within a slice of the last advance the long window counts every record of age up to 35 slices |
| Slo.LongWindowKeepsOldRecords | observability/slo.go:150-160 | The long window has no bound on age: through a gap of any length it keeps the record made just before, because a gap moves it 12 slices at most |
| Slo.RepeatedAlertsNeedQuiet | observability/slo.go:200-225 | Two successive alerts of one level have an evaluation without a level between them |
| Slo.LevelInNumbers | observability/slo.go:163-208 | With an error budget (target below 1) it pages exactly when in one window the errors reach page threshold times budgeted share times requests, and files a ticket exactly when they only reach the ticket threshold's; without one nothing burns |
| Slo.AlertsOnChange | observability/slo.go:200-225 | An evaluation appends its level, and alerts exactly when that is page or ticket and the evaluation before had another |
| Slo.BudgetInNumbers | observability/slo.go:190-198 | The remaining share times the budget is the budget less the errors, or nothing when they have used it up |
| Slo.SLOMonitor.Advance | observability/slo.go:144-161 | Both rings move together by the whole slices elapsed, at most 12, and the remainder is dropped |
| Slo.SLOMonitor.Aggregate | observability/slo.go:228-234 | The loop's totals are the sums over the ring's buckets |
| Slo.SLOMonitor.Measure | observability/slo.go:163-198 | Rates, burn rate and remaining budget from the loops over both rings are those of the logged windows |
| Slo.SLOMonitor.Judge | observability/slo.go:200-225 | The level for the burn rate, and one alert exactly when the level is not none and differs from the last |
| Slo.SLOMonitor.Evaluate | observability/slo.go:163-226 | An evaluation judges the figures of the logged windows |
| Slo.SLOMonitor.WindowsAtEvaluation | observability/slo.go:122-166 | At the reading of any record both ring sums are the logged windows: the short one holds every request of the last 55 minutes and none of 115 minutes or more, the long one holds the short one and every request of the last 175 minutes |
| Slo.SLOMonitor.Record | observability/slo.go:122-142 | One request joins both current buckets after the advance; exactly every thirtieth evaluates |
| Metering.Conservation | provider/rate_limit_multi.go:132-144 | What a run drains plus what it leaves never exceeds what the meter held at its start plus what was earned meanwhile |
| Metering.HeldIsWithin | provider/rate_limit_multi.go:132-144 | Refilling takes nothing away and never passes the limit |
| Metering.DrainBound | provider/rate_limit_multi.go:132-144 | A meter that starts within its limit drains at most its allowance |
| Metering.AllowanceIsProduct | provider/rate_limit_multi.go:132-144 | The allowance is rate * (1 + minutes) |
| MultiLimiter.RefillComposes | provider/rate_limit_multi.go:132-144 | Refilling at one reading and again later is refilling once at the later one |
| MultiLimiter.MultiRateLimiter.constructor | provider/rate_limit_multi.go:28-34 | A full provider bucket and no key or model buckets |
| MultiLimiter.MultiRateLimiter.SetKeyLimit | provider/rate_limit_multi.go:47-50 | A fresh full bucket replaces the key's; nothing else changes |
| MultiLimiter.MultiRateLimiter.SetModelLimit | provider/rate_limit_multi.go:53-56 | A fresh full bucket replaces the model's; nothing else changes |
| MultiLimiter.MultiRateLimiter.ClearKeyLimit | provider/rate_limit_multi.go:59-62 | The key's bucket goes; nothing else changes |
| MultiLimiter.MultiRateLimiter.ClearModelLimit | provider/rate_limit_multi.go:65-68 | The model's bucket goes; nothing else changes |
| MultiLimiter.MultiRateLimiter.Allow | provider/rate_limit_multi.go:92-130 | Passed exactly when the refilled buckets of key, model and provider, where there are any, each have a request left and the tokens asked for; they are refilled and judged in that order up to the first complaint, which is the answer; without one all three are debited |
| MultiLimiter.PassesInNumbers | provider/rate_limit_multi.go:92-130 | On the fields of the refilled buckets: a request passes if and only if at its key, its model and the provider, where there is a bucket, rpm <= 0 or req >= 1, and tpm <= 0 or tok >= tokens |
| MultiLimiter.RefusesInNumbers | provider/rate_limit_multi.go:92-116 | Which level and which shortage a refusal names: the first of key, model, provider to fall short, requests before tokens |
| MultiLimiter.ChargesInNumbers | provider/rate_limit_multi.go:118-128 | An admitted request takes one request and its tokens from each limited measure of its three levels, and nothing from any other bucket |
| MultiLimiter.RefillInNumbers | provider/rate_limit_multi.go:132-144 | Time that passes earns a limited measure its rate a minute, up to the limit |
| MultiLimiter.BurstIsExact | provider/rate_limit_multi.go:92-130 | At one reading, with n requests left in the one limited bucket, exactly the first n requests that concern it pass, and each later one is refused for that level |
| MultiLimiter.FreshLimitAdmitsExactly | provider/rate_limit_multi.go:47-130 | A level just given a limit of n requests a minute admits exactly n at once when nothing else limits |
| MultiLimiter.DenialLeavesAlike | provider/rate_limit_multi.go:92-130 | A denial debits no level: no later request can tell it happened, although it refilled some levels and skipped others |
| MultiLimiter.RequestOnAlike | provider/rate_limit_multi.go:92-130 | Limiters no request can tell apart answer a request alike and stay so |
| MultiLimiter.DeniedRequestsAreInvisible | provider/rate_limit_multi.go:92-144 | Deleting any denied request from any run changes no other event's answer or reason |
| MultiLimiter.BucketBound | provider/rate_limit_multi.go:92-144 | One bucket admits at most limit * (1 + minutes) of requests and of tokens |
| MultiLimiter.StepOnLevel | provider/rate_limit_multi.go:92-130 | An event debits a level exactly when it is an admitted request that concerns it, and only what the level could afford |
| MultiLimiter.RunIsHistory | provider/rate_limit_multi.go:92-130 | A run without resets is a history of each bucket whose debits are the admitted requests and tokens |
| MultiLimiter.AdmissionBound | provider/rate_limit_multi.go:92-144 | Over any interval without a reset a key, a model and the provider each admit at most rpm * (1 + T) requests and tpm * (1 + T) tokens |
| MultiLimiter.PassesExactlyWhen | provider/rate_limit_multi.go:92-130 | All or nothing, level by level: admitted exactly when every level concerned can afford the request once refilled; PassesInNumbers says it on the buckets' fields |
| MultiLimiter.NegativePassesExactlyWhen | provider/rate_limit_multi.go:92-130 | A request of negative tokens is admitted exactly when every level concerned has a request left once refilled |
| MultiLimiter.StepKeepsRange | provider/rate_limit_multi.go:92-144 | From buckets in [0, limit] an event keeps them there if and only if it is not a request of negative tokens that finds a request left at every level concerned and, at one of them, less room than the tokens it gives back; non-negative counts always keep the range |
| MultiLimiter.NegativeTokensCanOverfill | provider/rate_limit_multi.go:118-128 | The failing input: a full provider bucket of ten tokens and a request of minus one |
| MultiLimiter.RunKeepsRange | provider/rate_limit_multi.go:92-144 | Over any run of non-negative counts, limit changes included, every bucket stays in [0, limit] |
| PrunedLimiter.RateLimiter.Allow | server/middleware.go:43-66 | Admits exactly when the refilled level is at least one, spending one; an unknown key starts full |
| PrunedLimiter.LevelInNumbers | server/middleware.go:45-57 | Waiting earns the rate a second, up to the capacity; an unknown key may spend all of it |
| PrunedLimiter.RateLimiter.Cleanup | server/middleware.go:68-76 | Exactly the buckets idle for more than ten minutes go |
| PrunedLimiter.CoveredRuns | server/middleware.go:43-76 | While an idle bucket is necessarily full, cleanups at arbitrary times change no answer |
| PrunedLimiter.PruningIsInvisibleExactlyWhen | server/middleware.go:43-76 | For every rate and capacity: cleanups can never be observed if and only if capacity < 1 or capacity <= 600 * rate |
| Quota.QuotaCoordinator.constructor | prefix/quota.go:28-40 | Defaults 30 and 0.30 replace non-positive settings; no buckets |
| Quota.QuotaCoordinator.Open | prefix/quota.go:42-63 | The key's bucket, created full if new, refilled to the reading, capped at rpm |
| Quota.QuotaCoordinator.RealRequest | prefix/quota.go:66-76 | Takes one token whenever the refilled level is positive, possibly overdrawing by less than one |
| Quota.QuotaCoordinator.WarmAllowed | prefix/quota.go:79-92 | Grants exactly when the refilled level is above the reserve and at least one, taking one token; a refusal takes none |
| Quota.QuotaCoordinator.Remaining | prefix/quota.go:95-99 | The refilled level, which is also what is stored |
| Quota.OpenedInNumbers | prefix/quota.go:42-63 | A new key is full; minutes that pass earn rpm each, up to rpm |
| Quota.NextInNumbers | prefix/quota.go:66-99 | A real request takes a token from any positive level; a warm-up is granted exactly above reserve * rpm and from one token on; no other bucket changes |
| Quota.StepKeepsRange | prefix/quota.go:42-92 | Every event keeps every bucket in (-1, rpm] |
| Quota.WarmLeavesTheReserve | prefix/quota.go:79-92 | Every granted warm-up leaves more than the reserve less one token and never overdraws |
| Quota.RunOnMeter | prefix/quota.go:42-92 | A run acts on one key's bucket as a metered run whose drains include every grant |
| Quota.WarmUpsAreBounded | prefix/quota.go:42-92 | Over T minutes a key's grants, if any, are fewer than rpm * (1 - r) + rpm * T + 1, however real requests interleave |
| Warmup.WarmScheduler.constructor | prefix/warmup.go:46-67 | Defaults for tail, per-tick maximum and cap ratio; counters at zero |
| Warmup.WarmScheduler.WarmOne | prefix/warmup.go:145-174 | Sends the record's messages with only the last content replaced, and counts the answer |
| Warmup.WarmScheduler.Visit | prefix/warmup.go:91-119 | One candidate: skipped, ending the round at the cap, refused by the quota, or sent |
| Warmup.WarmScheduler.Tick | prefix/warmup.go:84-121 | The loop with its early exits refines the round over all candidates, state and calls alike; disabled, or unable to route or generate, it does nothing |
| Warmup.CallsSpendGrants | prefix/warmup.go:111-117 | Every upstream call of a round has spent one grant of its own bucket, and the round spends nothing else |
| Warmup.RoundCounts | prefix/warmup.go:90-119 | At most maxWarm successes per round, each counted once, none without a call |
| Warmup.OnlyDuePrefixesAreWarmed | prefix/warmup.go:91-131 | Whatever is sent warms a candidate that is hot by request count or hit tokens, idle and with a payload, at the node it routes to, changing only the last message |
| Warmup.EveryDuePrefixIsWarmed | prefix/warmup.go:84-121 | With no cap, no quota and room for all, every candidate that is hot, idle, has a payload and routes somewhere gets its call |
| Warmup.CandidateInNumbers | prefix/warmup.go:91-174 | One candidate, in numbers: when it ends the round, when it is sent, and what its answer adds to the counters |
| Warmup.CapIsExceededByOneAnswer | prefix/warmup.go:104-142 | While the total is positive and only grows, the cap test before each call lets a round leave warm input over ratio * total by at most its last answer |
| Warmup.CapHoldsOverARun | prefix/warmup.go:133-174 | The same over any run of rounds and real traffic |
| Warmup.WarmCallsAreBounded | prefix/warmup.go:84-174 | Over a whole run of rounds and real traffic the upstream warm-up calls per provider and prefix within T minutes are fewer than rpm * (1 - r) + rpm * T + 1 |
| Registry.Manager.Register | provider/manager.go:60-104 | A registered name keeps its provider and takes the new configuration; a new one fills every table when its factory builds; otherwise nothing changes |
| Registry.Manager.Unregister | provider/manager.go:106-113 | The name leaves providers, circuits, semaphores, rate limiters and configurations, and only those |
| Registry.Manager.Bootstrap | provider/manager.go:44-58 | Notes every configuration and registers the enabled ones, in order |
| Registry.BootstrapNotesLast | provider/manager.go:44-58 | Start-up notes every configuration, enabled or not; of two with one name the later |
| Registry.UnregisterUndoesRegister | provider/manager.go:60-113 | Unregistering undoes a registration of a new name except that an adaptive semaphore and a retry budget it created stay behind, and a configuration noted for the name before is gone; no other name is touched |
| Reload.Watcher.UpdateHash | config/watcher.go:117-132 | Takes the readable contents as applied; their providers only when they parse |
| Reload.Watcher.Removals | config/watcher.go:156-161 | One removal for each remembered name the new configuration lacks, in any map order |
| Reload.Watcher.Compare | config/watcher.go:138-172 | Additions and updates in file order, then the removals; an enabled entry of a remembered name is an update exactly when base URL, key, timeout, default model, models or enabled flag differ; the enabled providers are remembered |
| Reload.DiffInFields | config/watcher.go:138-172 | Exactly which events a diff holds: added for an enabled entry of a new name, updated for one of a remembered name in which one of the six fields differs, removed for a remembered name no enabled entry has |
| Reload.Watcher.Check | config/watcher.go:92-115 | Unreadable, unchanged or unparsable contents change nothing; otherwise the diff is applied to the registry and remembered |
| Reload.Apply | cmd/gateway/main.go:67-87 | The callback's loop is the events applied in turn: added registers, updated unregisters then registers, removed unregisters |
| Reload.EventsActByName | cmd/gateway/main.go:67-87 | What a list of events leaves at a name depends only on the events that name it |
| Reload.DiffTouches | config/watcher.go:138-164 | What a diff does to one name, however often it is listed: the changes of its enabled entries in order, or its removal |
| Reload.DiffTouchesOnce | config/watcher.go:138-164 | With distinct names a diff touches each name at most once: by its change or by its removal |
| Reload.AdditionsLeave | provider/manager.go:60-104 | Repeated additions of a name: the provider there, or else the first entry that builds, stays; the last configuration shows |
| Reload.UpdatesLeave | cmd/gateway/main.go:72-82 | Repeated updates of a name: only the last entry that differs from the remembered one counts |
| Reload.EventsKeepConsistency | provider/manager.go:60-113 | Whatever events are applied, every table agrees with the provider of each name |
| Reload.ReloadIsRightExactlyWhen | config/watcher.go:138-172 | For any registry, any order of removals and names listed any number of times: exactly which names a reload leaves built from the current configuration, judged before it, failing factories and earlier disagreement included |
| Reload.DistinctNamesHeal | config/watcher.go:138-172 | What the condition comes to when names are distinct |
| Reload.ReloadConverges | config/watcher.go:138-172 | Agreement is carried over any reload with distinct names whose enabled providers can be built, also through edits that emit no event |
| Reload.ReloadServes | config/watcher.go:138-172 | The same in fields: after the reload each enabled entry has a provider built from its base URL, key, timeout, default model and models, and there is no other provider |
| Reload.BootstrapIsSynced | provider/manager.go:44-58 | Starting up from a configuration with distinct names whose enabled providers can be built leaves the registry in agreement with it |
| Reload.PollingConverges | config/watcher.go:92-115 | Starting in agreement, after any sequence of polls the registry has exactly the enabled providers of the latest contents that parse, each built from a configuration equal to the current one up to sameProvider, provided every parsable contents have distinct names and enabled providers that can be built, and no two contents of the run share a digest |
| Reload.PollingServes | config/watcher.go:92-172 | From start-up on, after any sequence of polls: each enabled entry of the latest contents that parse has a provider built from the base URL, key, timeout, default model and models listed there, and there is no other; while contents are loadable and no two of the run share a digest |
| Reload.UnchangedIsUntouched | config/watcher.go:138-172 | A reload that lists a name as remembered leaves the registry's entry of that name as it was |
| Reload.RightnessNeedsAChange | config/watcher.go:92-115 | Over any polls until its configuration changes, a name the registry is wrong about stays wrong and a right one right |
| Reload.FailingFactoryLosesAProvider | cmd/gateway/main.go:72-82 | A failing input: an update whose factory fails leaves the name without a provider |
| Reload.DuplicateNamesDiverge | config/watcher.go:141-155 | A failing input for repeated names: of two new entries with one name the registry keeps the first and the watcher remembers the second |
| Ledger.CostTracker.constructor | provider/cost.go:59-74 | The figures are those of the records the log parses to |
| Ledger.CostTracker.RecordLocked | provider/cost.go:94-128 | One more record behind the figures: its key, its model, the totals and its key's day grow, and nothing else |
| Ledger.CostTracker.AppendLog | provider/cost.go:140-156 | The record, its time cut to seconds, is the log's next line; without an open log nothing is written |
| Ledger.CostTracker.ReplayLog | provider/cost.go:158-175 | Lines that do not parse are skipped and a line too long for the scanner ends the scan |
| Ledger.CostTracker.Note | provider/cost.go:77-92 | The figures grow by one record of exactly this request, whose cost times a million is prompt tokens times input price plus completion tokens times output price, nothing without a price; and the log, when kept, by its line |
| Ledger.CostIsPerMillion | provider/models.go:89-95 | A million times a cost is prompt tokens times input price plus completion tokens times output price |
| Ledger.SumInFields | provider/cost.go:94-128 | What a sum over records is: nothing at first, and each selected record adds its tokens, its cost and one request |
| Ledger.CostTracker.DailyTokens | provider/cost.go:178-182 | The tokens of exactly the records of the key on the current day |
| Ledger.DayKeysAreDistinct | provider/cost.go:126-127 | Key and day can be told from a day key even when keys contain the separator |
| Ledger.TotalIsSum | provider/cost.go:121-125 | The totals are the sums over all records |
| Ledger.KeyFiguresAreSums | provider/cost.go:97-108 | Each key's figures are the sums over its own records |
| Ledger.LastRequestIsLatest | provider/cost.go:97-108 | A key's last request is the time of its latest record |
| Ledger.ModelFiguresAreSums | provider/cost.go:110-119 | Each model's figures are the sums over its own records |
| Ledger.ModelCountsAreSums | provider/cost.go:108 | Each count of a key's model is the number of records of both |
| Ledger.DailyTokensAreSums | provider/cost.go:126-127 | A key's daily figure is the tokens of its records of that day |
| Ledger.ClassesAddUp | provider/cost.go:94-128 | However records are classified, the classes listed in any order add up to the whole |
| Ledger.KeysAddUpToTotal | provider/cost.go:94-128 | In every reachable ledger the per-key figures add up to the totals |
| Ledger.ModelsAddUpToTotal | provider/cost.go:94-128 | In every reachable ledger the per-model figures add up to the totals |
| Ledger.ModelCountsAddUpToRequests | provider/cost.go:97-108 | Each key's model counts add up to its requests |
| Ledger.DailyTokensAddUp | provider/cost.go:103-127 | Each key's daily tokens add up to its prompt plus completion tokens |
| Ledger.RestartRebuildsExactlyWhen | provider/cost.go:140-175 | Restarting rebuilds every per-key, per-model, total and daily figure, last requests up to seconds, if and only if nothing was recorded, or the log is open and no line is too long for the scanner |
| Ledger.ARecordCanBeLost | provider/cost.go:140-175 | The failing inputs: one record whose line is too long, or recorded while the log is not open |
| ToolCalls.MergeToolCalls | provider/openai.go:437-456 | The in-place loop is the fold of the fragments |
| ToolCalls.MergingGroups | provider/openai.go:437-456 | When new indices open in order there is one call per index, each field its last non-empty value and the arguments all fragments in order |
| ToolCalls.PositionsAreIndicesExactlyWhen | provider/openai.go:439-453 | Every entry sits at its own index if and only if new indices open in order |
| ToolCalls.ReassemblyIsRightExactlyWhen | provider/openai.go:437-456 | Reassembly gives one call per index, built from its own fragments, if and only if new indices open in the order 0, 1, 2, ... |
| ToolCalls.LateIndexIsSplit | provider/openai.go:438-453 | A failing input: two fragments of index 1 in a stream that never opened index 0 stay two calls |
| ToolCalls.InterleavingIsInvisible | provider/openai.go:437-456 | Streams that give each index the same fragments reassemble alike, however indices interleave |
| ToolCalls.ChunkBoundariesAreInvisible | provider/openai.go:127-129 | Merging chunk by chunk is merging the concatenation |
| ToolCalls.GenerateViaStream | provider/openai.go:109-149 | The first error discards the answer; otherwise ids, model, finish reason and usage are the last given, texts are concatenated, fragments merged, and reasoning stands in for empty content unless switched off |
| ToolCalls.AnswerInFields | provider/openai.go:115-136 | The answer chunk by chunk: each appends its text and fragments and overrides id, model, finish reason and usage when it has them |
| ToolCalls.FallbackInFields | provider/openai.go:137-149 | Reasoning stands in only when no chunk has content, and then all of it in order |
| ToolCalls.LastNonEmptyIsLast | provider/openai.go:115-136 | The last value that is not empty, or the default when all are |
| ToolCalls.ChunkingIsInvisible | provider/openai.go:109-149 | How a stream is cut into chunks and how its indices interleave cannot be seen in the answer |
| Sse.SSEWriter.Send | stream/sse.go:32-42 | Appends the event line, if there is an event, the data line and a blank line; nothing when the data cannot be encoded |
| Sse.SSEWriter.SendDone | stream/sse.go:44-47 | Appends the terminator's frame |
| Sse.JudgeLine | provider/openai.go:380-390 | A trimmed line gives payload p exactly when it is the data prefix followed by p and p is not the terminator, and stops exactly when it is the prefix and the terminator |
| Sse.ReadSSEStream | provider/openai.go:374-406 | The loop over scanned lines delivers what the specified reading does, stopping at the terminator, an undecodable payload or a line over the scanner's limit |
| Sse.OnlyCleanPayloadsAreRead | provider/openai.go:374-406 | Every payload ever delivered is one line, not empty, without white space at its end, not the terminator, short enough, and decodes |
| Sse.FrameIsRead | stream/sse.go:37-40 | A frame with a clean payload and a one-line event name is read as that payload, and reading goes on after it |
| Sse.DoneIsTheEnd | provider/openai.go:388-390 | At the terminator reading stops, whatever follows |
| Sse.ReadsBackExactlyWhen | stream/sse.go:32-47 | Reading the bytes written by any Send calls and SendDone yields exactly the payloads sent if and only if every payload is clean and decodes, whatever one-line event names were used |
| Sse.TerminatorPayloadIsLost | provider/openai.go:387-390 | A failing input: a payload equal to the terminator ends the stream and what was sent after it is lost |
| TtlCache.Cache.Get | cache/cache.go:39-50 | The value exactly when the key is held and not past its expiry |
| TtlCache.Cache.Oldest | cache/cache.go:65-72 | The scanning loop, with its empty-string sentinel, in whatever order the map yields its keys: a held key, and an earliest-expiring one whenever the empty key cannot be forgotten |
| TtlCache.Cache.SetWithTTL | cache/cache.go:59-80 | At capacity the scanned victim goes first, whether or not the key is already held; then the entry is written |
| TtlCache.Cache.EvictExpired | cache/cache.go:90-99 | Exactly the expired entries go |
| TtlCache.ScanFinds | cache/cache.go:67-72 | A scan finds an earliest-expiring entry unless the empty key was it and was forgotten |
| TtlCache.VictimIsEarliestExactlyWhen | cache/cache.go:64-74 | Eviction takes an earliest-expiring entry in every iteration order if and only if the empty key is unused, alone, or no earlier than some other entry |
| TtlCache.EmptyKeyCanBeForgotten | cache/cache.go:65-73 | A failing input: the empty key expires first and is met first, and the other entry is evicted |
| TtlCache.HoldsOnlyLatestWrites | cache/cache.go:39-80 | Whatever the cache holds for a key is the key's latest write in an unbounded map of writes |
| TtlCache.SizeIsBounded | cache/cache.go:59-80 | Over every run the cache holds at most max(1, maxSize) entries |
| TtlCache.MissingWasEvicted | cache/cache.go:59-99 | For all keys: an unexpired latest write is missing only because a write of another key, at capacity, evicted it as the scan's choice and nothing wrote it again, no entry expiring before it unless the scan had forgotten the empty key |
| TtlCache.MissingWasEarliest | cache/cache.go:59-99 | With non-empty keys it was an earliest-expiring entry when evicted at capacity |
| Routing.ScoreIsWithin | server/routing.go:280-313 | Every score lies in [w/2000, w], with w at least 1 |
| Routing.ScoreInNumbers | server/routing.go:280-313 | A score in numbers: weight, a tenth when unhealthy, the share of five seconds the latency leaves but a twentieth at least, and cheapest over own price but a tenth at least |
| Routing.BetterScoresNoLess | server/routing.go:280-313 | At least as good in weight, health, latency and price scores at least as high |
| Routing.MinInputPrice | server/routing.go:315-332 | The cheapest positive price, or zero when there is none |
| Routing.MinPriceIsUnique | server/routing.go:315-332 | The minimum does not depend on the order of the list |
| Routing.PoolEligible | server/routing.go:174-194 | Active providers with a key, restricted to the routing pool unless it is empty, in list order |
| Routing.FilteredKeeps | server/routing.go:183-193 | Filtering keeps exactly the providers that pass, and their names distinct |
| Routing.SortedIsUnique | server/routing.go:250-267 | The comparison is a strict total order, so members can be sorted in one way only |
| Routing.RoutingCandidates | server/routing.go:244-273 | The chain is the sorted names of the eligible providers |
| Routing.ChainIgnoresListOrder | server/routing.go:244-273 | The chain is the same for every order in which the provider map is listed |
| Routing.ChainIsTheEligible | server/routing.go:244-273 | The chain holds each eligible provider once and nothing else |
| Routing.ChainOrderInFields | server/routing.go:250-267 | Of any two in the chain the earlier has the better circuit, or else the higher priority, or else the higher score, or else the smaller name |
| Routing.LexLessIs | server/routing.go:266 | The order of names: a proper beginning first, else by the first character that differs |
| Routing.WeightedPick | server/routing.go:340-359 | The subtracting loop picks the first candidate whose scores so far exceed the draw |
| Routing.DrawsAreProportional | server/routing.go:344-358 | Of the draws in [0, total) exactly an interval of length score selects each candidate, and the trailing fallback is unreachable |
| Routing.BestTier | server/routing.go:203-226 | The tier set is exactly the eligible providers of the best circuit class present and, within it, of the highest priority |
| Routing.SelectFromPool | server/routing.go:198-239 | Nothing eligible answers the empty name; otherwise the answer names a member of the best tier, by the weighted draw over scores that are all positive |
| Routing.SelectionAgreesWithChain | server/routing.go:198-273 | Whatever the selection can return shares the circuit class and the priority of the fallback chain's head |

## Left out

- TtlCache.MissingWasEarliest: speaks of runs that write no empty key; TtlCache.MissingWasEvicted covers all keys, and TtlCache.VictimIsEarliestExactlyWhen says what the empty key can do.
- Sse.ReadsBackExactlyWhen: event names are one line and short enough for the scanner, as those the gateway sends are.
- Coalescing: panics inside `fn` and the timer behind the timeout; a waiter may time out at any moment.
- Affinity.LoadIsBounded: sticky overflow answers are counted too but not bounded by the walk, and callers that decide before another has counted its answer can exceed the bound together; the ring and its weights stay the same.
- Affinity: the server's use of `RecordOverflow`, and counters observed without the lock; `Dec` is one atomic step.
- Warmup: the profiler's ranking of candidates, which are an input in any order, and the ticker.
- Quota, Warmup: the nil coordinator's answers, except that a scheduler without a quota asks nobody.
- Slo: the absent alert callback; alerts are a list.
- Registry: what circuit breakers, semaphores and rate limiters do once created; a table entry is the setting it was created with.
- Reload: `ReloadNow`, which notifies nobody, the re-read of routing rules, and file reads that change between digest and parse.
- Ledger: snapshots, whitelists and quota checks on top of the figures, and writes that fail half-way.
- ToolCalls, Sse: HTTP, retries, the conversion of one raw chunk into several choices, and bytes that are not UTF-8.
- Routing: the rule matching of `applyRule` and `matchList`, sticky and explicit provider choices.
- HTTP handlers, authentication, admin pages, exporters, persistence of health state, canary and tenant configuration, adaptive concurrency: I/O, or parts without a property over runs.
- Error classification, alias resolution, token estimation, load shedding, audit log: single branches or tables.
