# VigilAgent: the in-memory protocols, modelled and proved

VigilAgent is a Go service that runs coding agents. Its hard logic sits in a handful of small
stateful components. This project models them in Dafny and proves what they keep over every
run, or under every interleaving of their critical sections.

| file | component |
|---|---|
| `HitlQueue.dfy` | the human approval queue: Submit, Decide, timeout and expiry sweep racing for a checkpoint |
| `TaskState.dfy`, `Agent.dfy`, `Approval.dfy` | the task state machine, the agent loop, and the two halves joined |
| `CircuitBreaker.dfy`, `Health.dfy`, `LlmCache.dfy`, `Budget.dfy` | the parts of the model router |
| `Router.dfy`, `RouterRuns.dfy`, `RouterSpending.dfy` | the router, what holds over its runs, and exactly when a request spends |
| `LruOrder.dfy`, `ResponseCache.dfy`, `HttpCache.dfy` | the two LRU caches |
| `Idempotency.dfy` | the two idempotency stores |
| `KnowledgeGraph.dfy` | the edge index and the depth-bounded search |
| `CostIntel.dfy`, `CostForecast.dfy` | cost anomalies and the cost forecast |
| `Extraction.dfy` | the vulnerability pattern store |
| `Database.dfy` | the database circuit breaker and the two forms of retry |
| `Common.dfy` | what several modules share |

`dafny verify dfyconfig.toml` checks everything.

## How it is built

Each critical section of the source is one function on values. Beside it stands a class whose
fields are the source's fields and whose methods, with the source's loops and branches, are
proved to do exactly what the function says. An interleaving is a sequence of events; an event
that is not enabled in a state changes nothing. A main result then speaks about every sequence
of events from the initial state.

Conventions:

- Floating point numbers are `real`; integers are unbounded.
- Time is an input of every operation that reads a clock. Nothing is assumed about it unless a
  lemma says so.
- Replies of models, tools, humans, the database and the network are inputs, mostly functions
  from the attempt or the iteration to the reply.
- Where the code iterates over a map, or sorts with ties, the model allows every order.
- Hashes are injective: the preimage stands for the hash, or the hash is any injective function.

## What turned out otherwise than one would expect

Where the code misses a property, the lemmas named say exactly when it meets it.

- The comment at internal/llm/provider.go:559-561 says that a budget error ends the failover. The
  loop at lines 522-529 goes on, and a provider that was not ranked is tried with an estimate of
  zero. The model follows the code; `RouterSpending.RefusedPrimaryExactly` says when money is
  still spent, `RouterSpending.RefusedOnEstimateYetServed` gives a request that is.
- `attempt` skips an open circuit without calling `Execute`, the only place that moves it to
  half-open. With requests that do not overlap, five failed calls retire a provider for good
  (`RouterRuns.OpenCircuitStaysOpen`), although the breaker alone recovers (`CircuitBreakers.Recovers`).
- A success clears the error rate before the rate is looked at, so "degraded" is unreachable
  (`Health.StatusIsStreak`).
- Any call that ends decides a half-open circuit. The probe alone decides it if and only if it is
  the only call in flight (`CircuitBreakers.ProbeAloneDecidesIffAlone`, `StaleSuccessCloses`).
- Only `CheckDBHealth` leaves the open state of the database breaker, and nothing in the
  repository calls it (`DatabaseBreaker.StaysOpenWithoutChecks`). Successes never lower the
  failure count of a closed circuit.
- A `Decide` that reported success can still lose to the submitter's timer. The decision is
  delivered if and only if the submitter never stopped waiting
  (`HitlQueue.DecisionDeliveredExactlyWhen`, `ApprovalCanBeDropped`).
- A submission under an id that is still pending strands the earlier submitter until its own
  timer. Wake-ups are never lost if and only if that never happens
  (`HitlQueue.QueueNeverLosesWakeups`), and agents never do it (`Approval.AgentsNeverLoseWakeups`).
- A hit read before an invalidation is returned after it, and no other is
  (`HttpCache.StaleHitsExactly`, `HitCanOutliveInvalidation`).
- The agent loop keeps executing tools in state `failed`. Nothing runs there if and only if every
  remaining slot in reach is gated (`Agent.NothingRunsAfterFailedIff`, `FailedTaskRunsAnotherTool`).
- The eviction scan of the idempotency stores uses the empty key for "none yet". A full store
  makes room for sure if and only if the empty key is not its oldest entry
  (`Idempotency.FullStoreMakesRoomIff`, `EmptyKeyDefeatsEviction`).
- The record under test is in its own sample, so the two minimum-data guards (10 records, 5 of
  the model) never decide anything (`CostIntel.AnomalyNeedsElevenRecords`).
- One day of history forecasts zero spend, because the mean is only computed when the denominator
  is not zero (`CostForecast.OneDayForecastsNothing`, `MeanIsAverageIff`).

## Model

| member | source | states |
|---|---|---|
| `HitlQueue.HITLQueue.SubmitEntry` | internal/middleware/hitl.go:100-109 | publishes a pending, open entry under its id with the expiry set; other entries are untouched |
| `HitlQueue.HITLQueue.DecideEntry` | internal/middleware/hitl.go:144-164 | settles exactly a checkpoint that is in the map and pending, and otherwise changes nothing |
| `HitlQueue.HITLQueue.SignalDecision` | internal/middleware/hitl.go:223-233 | closes the channel, and reports whether this call was the one that closed it |
| `HitlQueue.HITLQueue.MarkTimeoutEntry` | internal/middleware/hitl.go:250-274 | times out whatever entry the map holds under the id |
| `HitlQueue.HITLQueue.ExpirySweep` | internal/middleware/hitl.go:278-306 | the loop over the map, in any order, times out and closes exactly the expired checkpoints and keeps the others |
| `HitlQueue.StepKeepsInv` | internal/middleware/hitl.go:100-306 | every critical section keeps the invariant of every checkpoint |
| `HitlQueue.SweepsExactlyWhenDue` | internal/middleware/hitl.go:278-306 | in every reachable state, a tick settles a checkpoint if and only if it is pending and more than the timeout has passed since its submission |
| `HitlQueue.ReturnedIsNotPending` | internal/middleware/hitl.go:100-141 | in every reachable state, a submitter that has returned leaves no pending checkpoint |
| `HitlQueue.SettledOnceClosedOnce` | internal/middleware/hitl.go:100-306 | in every interleaving: settled at most once, closed at most once and only after being settled, and once settled either closed or with exactly one signal still owed |
| `HitlQueue.ApprovalComesFromDecide` | internal/middleware/hitl.go:127-141 | an approved result means exactly one Decide succeeded on the checkpoint, and it approved |
| `HitlQueue.FreshStepLosesNothing` | internal/middleware/hitl.go:100-306 | a step that reuses no pending id loses no wake-up |
| `HitlQueue.ReusedIdLoses` | internal/middleware/hitl.go:106-109 | a submission under a pending id always does lose one |
| `HitlQueue.QueueNeverLosesWakeups` | internal/middleware/hitl.go:100-306 | over every run, no wake-up is ever lost if and only if no submission reuses a pending id |
| `HitlQueue.ApprovalCanBeDropped` | internal/middleware/hitl.go:130-140 | from every state where an approved checkpoint's submitter still waits, the timer branch returns an error although the approval stands; the next row says exactly when |
| `HitlQueue.DecisionDeliveredExactlyWhen` | internal/middleware/hitl.go:127-194 | over every interleaving, a submitter that has returned from a decided checkpoint returned that decision if and only if its select never took the timer or the context while it waited |
| `HitlQueue.SettledAtSomePoint` | internal/middleware/hitl.go:144-306 | every settlement was made at a point of the run where the checkpoint was pending: a decision by a Decide on its id, an expiry by a tick more than the timeout after its submission, a timeout by a submitter of its id |
| `HitlQueue.RunKeepsSettlement` | internal/middleware/hitl.go:100-306 | a checkpoint keeps its id and its settlement for the rest of every run |
| `HitlQueue.DistinctIdsAreFresh` | internal/middleware/hitl.go:106-109 | a run whose submissions use different ids never reuses a pending one |
| `HitlQueue.ApprovedStillWaiting` | internal/middleware/hitl.go:144-194 | such a state is reachable |
| `TaskState.TaskRecord.Apply` | internal/agent/state.go:139-219 | the update in place is the transition function on the whole record |
| `TaskState.TransitionsAgree` | internal/agent/state.go:222-245 | an event is accepted if and only if it is in the published list; terminal states are exactly those that accept nothing; a rejected event changes nothing |
| `TaskState.EventsDetermineStates` | internal/agent/state.go:139-219 | where an accepted event leads is told by the event, with the retry, the completion and the error it records; nothing else is touched |
| `Agent.FilterValidSteps` | internal/agent/agent.go:561-574 | keeps exactly the steps with registered tools, in order |
| `Agent.ValidStepsExactly` | internal/agent/agent.go:561-574 | a step is kept as often as it occurs if its tool is registered, and never otherwise |
| `Agent.ValidStepsInOrder` | internal/agent/agent.go:561-574 | the kept steps are in their order |
| `Agent.Replace` | internal/agent/agent.go:257-264 | the slots from the given one on hold the new steps, as far as both reach; the others are kept |
| `Agent.OverwritePlan` | internal/agent/agent.go:257-264 | overwrites the slots after the failed one as far as both lists reach, and keeps the length and the earlier slots |
| `Agent.AwaitGate` | internal/agent/agent.go:180-214 | the gate in place: asks, transitions and fails as the specification of the gate |
| `Agent.ExecuteStep` | internal/agent/agent.go:216-270 | the rest of an iteration in place: result, budget stop, transition, rewritten plan |
| `Agent.RunIteration` | internal/agent/agent.go:170-271 | one iteration in place: cancellation, gate, step |
| `Agent.RunLoop` | internal/agent/agent.go:170-274 | the loop in place equals its recursive specification, log included |
| `Agent.RunTask` | internal/agent/agent.go:128-295 | the whole call in place equals its specification |
| `Agent.FinalPlanIsSound` | internal/agent/agent.go:170-271 | in every run, each slot of the final plan holds the step planned there or one a reflection proposed and whose tool is registered; every step asked about or executed is the one in its slot |
| `Agent.TaskRecordsItsRun` | internal/agent/agent.go:170-295 | in every run, the recorded steps are the executed ones in order with what the tools gave; only a cancellation interrupts; a refusal leaves its reason as the error |
| `Agent.GateSafety` | internal/agent/agent.go:170-271 | with a queue attached, in every run: an executed step that needed approval ran right after the approval of that very step; any other answer ends the run in failed with nothing executed after it, whatever the plan was rewritten to |
| `Agent.FailedStaysFailed` | internal/agent/agent.go:170-274 | once failed, the rest of the loop ends failed |
| `Agent.LoopCompletes` | internal/agent/agent.go:170-274 | from every point of the loop, the end state is completed if and only if the remaining condition holds |
| `Agent.CompletesExactlyWhen` | internal/agent/agent.go:128-295 | a call on a pending task ends completed if and only if the plan is not empty and within the iteration limit, no iteration is cancelled, every gate met is approved, the token budget never trips, the last step succeeds and the failures leave a retry over; it then ran every slot of the final plan once, in order; a task in any other state is left alone |
| `Agent.RunsOnAfterFailed` | internal/agent/agent.go:170-271 | from every failed point of a run, slot k is executed if and only if the loop gets there before a cancellation or the token budget and the step then in the slot is not gated |
| `Agent.FailedIterationRunsExactly` | internal/agent/agent.go:170-271 | an iteration of a failed task executes its step if and only if it is neither cancelled nor gated |
| `Agent.FailedLoopLog` | internal/agent/agent.go:170-274 | from every failed point the rest of the log is exactly the ungated steps up to the limit, the token budget or the cancellation |
| `Agent.NothingRunsAfterFailedIff` | internal/agent/agent.go:170-274 | nothing runs after failed if and only if every remaining slot in reach is gated |
| `Agent.FailedTaskRunsAnotherTool` | internal/agent/agent.go:216-271 | such runs exist, for every two-step plan of that kind |
| `Approval.CheckpointIdsDistinct` | internal/agent/agent.go:694-697 | checkpoint ids of different steps or tasks never coincide |
| `Approval.DecimalReadsBack` | internal/agent/agent.go:696 | the step number in an id reads back as the number, without a leading zero |
| `Approval.ApprovedBeforeItRan` | internal/agent/agent.go:694-733 | execution, queue run and every way they interleave: a step that needed approval runs only after a Decide approved the pending checkpoint of that very step, the only settlement it ever gets |
| `Approval.ReturnedWasApproved` | internal/server/server.go:560-590 | what the adapter passes on as approved was approved by a Decide before, and by nothing else ever |
| `Approval.AgentsNeverLoseWakeups` | internal/agent/agent.go:694-733 | with one execution per task, in every interleaving of any number of agents with the queue, no wake-up is ever lost |
| `Approval.ApprovalsAreNotShared` | internal/server/server.go:560-590 | answers to different steps of a run come from different checkpoints |
| `CircuitBreakers.CircuitBreaker.BeginExecute` | internal/llm/circuit_breaker.go:46-69 | the critical section before the call, on the whole state |
| `CircuitBreakers.CircuitBreaker.EndExecute` | internal/llm/circuit_breaker.go:71-91 | the critical section after the call, on the whole state |
| `CircuitBreakers.CircuitBreaker.IsOpen` | internal/llm/circuit_breaker.go:94-98 | answers whether the state is open |
| `CircuitBreakers.CircuitBreaker.Reset` | internal/llm/circuit_breaker.go:101-107 | closes the circuit and clears the counts, keeping the probe counter |
| `CircuitBreakers.EveryRunKeepsInv` | internal/llm/circuit_breaker.go:46-107 | the invariant behind the next rows holds along every interleaving |
| `CircuitBreakers.BreakerSafety` | internal/llm/circuit_breaker.go:46-107 | in every interleaving with Reset: closed if and only if fewer calls than the threshold failed since a call or Reset last closed it; the counts and the clock are those of the events; every half-open episode admitted exactly one probe; half-open means that probe is still in flight |
| `CircuitBreakers.AdmitsExactlyWhen` | internal/llm/circuit_breaker.go:46-68 | in every reachable state a call is let through if and only if the circuit is closed, or open with more than the timeout passed since the last call that failed |
| `CircuitBreakers.ProbeDecides` | internal/llm/circuit_breaker.go:71-91 | a half-open circuit has exactly one probe, whose failure opens it and whose success closes it |
| `CircuitBreakers.LeavesOpenOnlyByTimeout` | internal/llm/circuit_breaker.go:46-107 | an event takes an open circuit out of open if and only if it is Reset or an admission later than the timeout |
| `CircuitBreakers.Recovers` | internal/llm/circuit_breaker.go:46-91 | past the timeout one probe that succeeds closes the circuit with no failure counted |
| `CircuitBreakers.HalfOpenEndsWithAnyCall` | internal/llm/circuit_breaker.go:70-107 | in every reachable half-open state, exactly Reset and the end of a call in flight, probe or not, decide the circuit, each as its result says |
| `CircuitBreakers.ProbeAloneDecidesIffAlone` | internal/llm/circuit_breaker.go:70-107 | the probe alone decides a half-open circuit if and only if it is the only call in flight |
| `CircuitBreakers.StaleSuccessCloses` | internal/llm/circuit_breaker.go:85-90 | half-open states with an older call in flight are reached: its success closes the circuit while the probe is out |
| `Health.StatusIsStreak` | internal/llm/health.go:103-165 | over every history of reports: usable if and only if nothing failed since the last success, down if and only if three failed in a row, never degraded, error rate and count as the streak says |
| `Health.ScoreIsStreak` | internal/llm/health.go:82-100 | in every history the score is told by the failures in a row, and an unknown provider has its own |
| `Health.HealthMonitor.RegisterProvider` | internal/llm/health.go:58-65 | a registered provider starts healthy, with its past forgotten |
| `Health.HealthMonitor.GetHealthyProviders` | internal/llm/health.go:68-79 | the loop collects exactly the usable providers |
| `Health.HealthMonitor.Confidence` | internal/llm/health.go:82-100 | the score of every status, and of an unknown provider |
| `Health.HealthMonitor.RecordFailure` | internal/llm/health.go:103-127 | worsens that provider alone, and ignores an unknown one |
| `Health.HealthMonitor.RecordSuccess` | internal/llm/health.go:130-165 | clears that provider alone, and ignores an unknown one |
| `Health.HealthMonitor.CheckHealth` | internal/llm/health.go:168-190 | a probe reports like a call |
| `LlmCache.InMemoryCache.Get` | internal/llm/cache.go:82-100 | a hit is the stored response at zero cost and latency; an expired entry is dropped; one counter moves |
| `LlmCache.InMemoryCache.Set` | internal/llm/cache.go:103-111 | stores with the expiry set and changes nothing else |
| `LlmCache.DifferentRequestsDifferentKeys` | internal/llm/cache.go:33-52 | a change in model, system prompt, messages or token limit changes the key |
| `LlmCache.HitsExactly` | internal/llm/cache.go:82-118 | after every history a read hits if and only if a response was stored under its key and is in its lifetime, it gets the last one free of cost and delay, and hits and misses are counted |
| `Budget.KeysNeverCollide` | internal/cost/budget.go:189-229 | org and task usage, and that of different ids, never share a key |
| `Budget.ChargeAddsUp` | internal/cost/budget.go:189-196 | for every org and every task: a charge adds its cost once to its own org and task and moves no other |
| `Budget.AllowedIff` | internal/cost/budget.go:123-173 | an estimate passes if and only if it keeps both its org and its task within any budget set |
| `Budget.RefusalSaysWhose` | internal/cost/budget.go:123-173 | a refusal names an account that would be overdrawn, with its usage and budget: the org if that would be, and else the task |
| `Budget.BudgetManager.SetOrgBudget` | internal/cost/budget.go:89-93 | sets one org's limit; usage and the other limits stay |
| `Budget.BudgetManager.SetTaskBudget` | internal/cost/budget.go:96-100 | sets one task's limit; usage and the other limits stay |
| `Budget.BudgetManager.CheckBudget` | internal/cost/budget.go:123-173 | refuses if and only if a set budget would be exceeded, naming the org's first |
| `Budget.BudgetManager.RecordCost` | internal/cost/budget.go:189-212 | the in-memory part: exactly that charge |
| `Router.SortChoices` | internal/llm/provider.go:445-451 | some order by cost, then confidence, of the same candidates |
| `Router.TiersByScore` | internal/llm/provider.go:466-477 | which scores each model is considered for |
| `Router.EstimateExactly` | internal/llm/provider.go:368-413 | a token for every four characters of the messages together, at least fifty, and the estimate is what these and the output tokens cost per thousand |
| `Router.ModelRouter.RegisterProvider` | internal/llm/provider.go:277-284 | a healthy provider with a closed breaker of its own |
| `Router.ModelRouter.AddCandidate` | internal/llm/provider.go:396-423 | appends the model exactly when it is eligible, at its estimate |
| `Router.ModelRouter.Collect` | internal/llm/provider.go:384-431 | the loop keeps exactly the eligible models, at their estimates, in order |
| `Router.ModelRouter.RankCandidates` | internal/llm/provider.go:384-454 | a ranking: sorted, and the same candidates with multiplicity, the default model standing in for none |
| `Router.ModelRouter.DefaultModelFor` | internal/llm/provider.go:624-632 | some model of the provider if it has one |
| `Router.ModelRouter.Remaining` | internal/llm/provider.go:531-545 | every untried provider once, with a model of its own, without estimate |
| `Router.ModelRouter.Admission` | internal/llm/provider.go:563-576 | refuses an unregistered provider and an open circuit, in this order |
| `Router.ModelRouter.LookUp` | internal/llm/provider.go:585-591 | the cache lookup moves nothing but the cache |
| `Router.ModelRouter.CheckSpend` | internal/llm/provider.go:593-598 | the budget gate, absent without a guard |
| `Router.ModelRouter.ReportToBreaker` | internal/llm/provider.go:601-611 | the outcome reaches that provider's breaker alone |
| `Router.ModelRouter.SettleReply` | internal/llm/provider.go:600-619 | health, breaker, usage and cache after the reply, and nothing else |
| `Router.ModelRouter.AttemptOption` | internal/llm/provider.go:562-620 | one attempt on the objects equals its specification: registration, circuit, cache, budget, call |
| `Router.ModelRouter.TryInTurn` | internal/llm/provider.go:520-551 | the loop over the options equals its recursive specification, with the number of attempts |
| `Router.ModelRouter.ExecuteWithFailover` | internal/llm/provider.go:510-557 | the request equals its specification for some ranking and some order of the rest |
| `RouterRuns.AttemptShape` | internal/llm/provider.go:562-620 | without a call only the cache moves and a response is free; a call happens only with the circuit not open and the estimate allowed |
| `RouterRuns.EveryRunKeepsInv` | internal/llm/provider.go:510-620 | the invariant behind the next rows holds for every org, task, provider and request along every run |
| `RouterRuns.SpendIsConserved` | internal/llm/provider.go:600-620 | in every run, for every org and every task: the growth of its usage equals the summed cost of the responses returned for it |
| `RouterRuns.WalkReturnsOne` | internal/llm/provider.go:522-551 | a request adds exactly the response it returns, if any |
| `RouterRuns.OvershootDoesNotAccumulate` | internal/cost/budget.go:123-212 | with a positive org or task budget, usage never exceeds the larger of its initial value and the budget plus the worst overrun of a single paid call over its estimate |
| `RouterRuns.ProviderFailsAtMostFiveTimes` | internal/llm/provider.go:573-611 | over every run a provider fails at most five calls and its circuit is open if and only if it failed five |
| `RouterRuns.OpenCircuitStaysOpen` | internal/llm/provider.go:573-576 | an open circuit stays open for the rest of every run and its provider is never called again |
| `RouterRuns.EligibleExactly` | internal/llm/provider.go:396-423 | in every run, a model may be chosen if and only if it is priced, able, and its registered provider has not failed since its last success; the provider then has confidence 1 |
| `RouterRuns.SupportsExactly` | internal/llm/provider.go:457-464 | a model supports a task if and only if it has every required capability |
| `RouterRuns.RoutesToCheapest` | internal/llm/provider.go:287-321 | the primary is a cheapest eligible model of the tier or target, and every candidate is at its own price with a provider of confidence 1 |
| `RouterRuns.RoutesExactlyWhen` | internal/llm/provider.go:425-443 | routing succeeds if and only if a model of the tier or target is eligible, or else the default model, which is then the only candidate |
| `RouterRuns.RankingBreaksTies` | internal/llm/provider.go:445-451 | candidates ascend in cost, and those of equal cost are in order of confidence |
| `RouterRuns.FailoverTriesEveryProvider` | internal/llm/provider.go:510-557 | without a candidate nothing is tried; with one, at most 3 attempts more than providers, and failure only after trying every registered provider with a priced model |
| `RouterRuns.ServedWasAnswered` | internal/llm/provider.go:510-620 | in every run, the response a request returns, from the primary, a fallback or an unranked provider, has content that a provider gave for the same system prompt and messages with the model and token limit of one of its options, during the request or before and in its lifetime at the lookup |
| `RouterRuns.RepeatIsFree` | internal/llm/provider.go:585-619 | an answer just paid for is given again free of charge to any task with the same prompt and messages that tries the same model in its lifetime, without a call |
| `RouterSpending.UnrankedAllowedUnlessOverdrawn` | internal/llm/provider.go:541-551 | an unranked provider passes the budget gate if and only if no set budget is overdrawn already |
| `RouterSpending.RequestCallsExactlyWhen` | internal/llm/provider.go:510-620 | in every state, for every ranking and rest: the request asks a provider if and only if one of its options can be tried, has its estimate allowed, and comes before any that the cache answers |
| `RouterSpending.RefusedPrimaryExactly` | internal/llm/provider.go:522-551 | when the primary is refused on its estimate, every call still made is to an unranked provider at estimate zero, and one is made if and only if no budget is overdrawn and such a provider can be tried before the cache answers |
| `RouterSpending.RefusedOnEstimateYetServed` | internal/llm/provider.go:522-551 | such a request exists: refused on its estimate, it is paid, beyond the budget, elsewhere |
| `LruOrder.CutKey` | internal/cache/response_cache.go:261-269 | the scan that cuts one key out of the list |
| `ResponseCaches.ResponseCache.DeleteEntry` | internal/cache/response_cache.go:261-269 | removes the key from map and list alike |
| `ResponseCaches.ResponseCache.Touch` | internal/cache/response_cache.go:283-291 | moves the key to the end |
| `ResponseCaches.ResponseCache.Lookup` | internal/cache/response_cache.go:79-103 | the whole state after a hit, a miss or an expiry |
| `ResponseCaches.ResponseCache.Store` | internal/cache/response_cache.go:112-175 | the whole state after a store; its eviction loop terminates because list and map agree |
| `ResponseCaches.ResponseCache.Delete` | internal/cache/response_cache.go:178-186 | removes the key if present, and says whether it was |
| `ResponseCaches.ResponseCache.PurgeExpired` | internal/cache/response_cache.go:229-244 | removes exactly the expired entries and counts them |
| `ResponseCaches.EvictionWouldSpin` | internal/cache/response_cache.go:272-280 | without the agreement the eviction step changes nothing and the loop would not end |
| `ResponseCaches.EveryHistoryIsLru` | internal/cache/response_cache.go:79-291 | after every history the list holds the map's keys once each by last use, within the limit, and every entry is the latest put for its key, not deleted, cleared, purged or found expired since |
| `ResponseCaches.HitIsLatestPut` | internal/cache/response_cache.go:79-103 | a hit is the latest put for its key, not taken back since and not expired |
| `ResponseCaches.RecentPutIsHit` | internal/cache/response_cache.go:79-175 | a response put, not taken back, and followed by the use of fewer other keys than the cache holds is hit before its expiry |
| `ResponseCaches.EveryHistoryKeepsOrCrowdsOut` | internal/cache/response_cache.go:137-144 | after every history, a key put and not taken back is gone only if as many other keys as the cache holds were used since |
| `ResponseCaches.StatsAddUp` | internal/cache/response_cache.go:56-144 | after every history the cache has the size asked for or the default, and has counted exactly the reads that found and missed their key, the cost these found, the evictions, and the hits of every entry |
| `ResponseCaches.PutEvictsLeastRecentlyUsed` | internal/cache/response_cache.go:112-144 | a new key in a full cache costs exactly the least recently used key |
| `ResponseCaches.PutBelowLimitKeepsAll` | internal/cache/response_cache.go:130-143 | a put of a known key, or below the limit, keeps every other entry |
| `HttpCache.ResponseCache.FinishHit` | internal/middleware/cache.go:82-94 | the second phase of a hit counts it and moves only the order |
| `HttpCache.ResponseCache.SetEntry` | internal/middleware/cache.go:106-135 | the whole state after a store, with the default lifetime and the eviction loop |
| `HttpCache.ResponseCache.Delete` | internal/middleware/cache.go:138-148 | removes the key from map and list alike |
| `HttpCache.ResponseCache.InvalidatePrefix` | internal/middleware/cache.go:151-166 | removes exactly the prefixed keys, keeps the others in order, and counts the removed |
| `HttpCache.ResponseCache.InvalidateByMethod` | internal/middleware/cache.go:306-322 | a write removes exactly the path, the path with its query, and every key that starts with the first segment |
| `HttpCache.WriteRemovesRelated` | internal/middleware/cache.go:306-322 | the four removals of a write amount to that one set |
| `HttpCache.SegmentsExactly` | internal/middleware/cache.go:312-315 | the segments of a path are what its slashes separate, surrounding slashes apart: they hold none, and joined they give the path back |
| `HttpCache.WriteLeavesNoRelatedKey` | internal/middleware/cache.go:306-322 | over every run: after the last step of a write no key that starts with the first segment is in map or list until one is stored again |
| `HttpCache.InvalidationIsExact` | internal/middleware/cache.go:151-166 | an invalidation removes exactly the prefixed keys from map and list and keeps the other entries |
| `HttpCache.EveryRunKeepsInv` | internal/middleware/cache.go:70-166 | the invariant behind the next row holds along every interleaving |
| `HttpCache.CacheSafety` | internal/middleware/cache.go:54-166 | in every interleaving of the phases: same keys in list and map, once each, within the size asked for; every entry is the one last stored under its key, with its lifetime; what a Get will return was stored under its key; hits and misses are counted |
| `HttpCache.ReadsExactlyLive` | internal/middleware/cache.go:70-95 | in every interleaving a read begins to return an entry if and only if there is one no older than its lifetime, and it is the last one stored |
| `HttpCache.SetEvictsLeastRecentlyUsed` | internal/middleware/cache.go:106-135 | in every interleaving a store of a new key into a full cache costs exactly the key whose last use is longest ago, and any other store costs none |
| `HttpCache.SecondPhaseRevivesNothing` | internal/middleware/cache.go:82-94 | the second phase brings no key back, and leaves the list alone if the key is gone |
| `HttpCache.StaleHitsExactly` | internal/middleware/cache.go:70-166 | after an invalidation and any events without a store under its prefix, every read of such a key misses, and a reader will return one if and only if it had read it before the invalidation and has not ended since |
| `HttpCache.HitCanOutliveInvalidation` | internal/middleware/cache.go:70-95 | for every live entry, a hit read before an invalidation is still returned after it |
| `Idempotency.Store.EvictOldest` | internal/idempotency/idempotency.go:105-117 | the scan, in any order, passes over an older entry only if the stored empty key is older still, and evicts nothing only if the store is empty or the empty key is its oldest entry |
| `Idempotency.EveryChoiceIsMade` | internal/idempotency/idempotency.go:105-117 | each of these choices is what the scan does in some order of the map, so the eviction is modelled exactly |
| `Idempotency.Store.Arrive` | internal/idempotency/idempotency.go:137-168 | waits on, replays or reserves; a reservation makes room first |
| `Idempotency.Store.Finish` | internal/idempotency/idempotency.go:174-183 | overwrites the key with the response, reserved or not |
| `Idempotency.Store.Set` | internal/idempotency/idempotency.go:66-81 | makes room and stores |
| `Idempotency.Store.Delete` | internal/idempotency/idempotency.go:84-88 | removes that key alone |
| `Idempotency.Store.Cleanup` | internal/idempotency/idempotency.go:91-103 | removes exactly the stale entries and counts them |
| `Idempotency.EveryRunIsAccounted` | internal/middleware/idempotency.go:43-122 | the account behind the next two rows holds along every interleaving, for either store |
| `Idempotency.HandlerStartsAreBounded` | internal/idempotency/idempotency.go:129-185 | in every interleaving, per key: starts plus entries put back or written equal entries lost plus the one present; so at most one start more than losses |
| `Idempotency.ReplaysAreAnswers` | internal/idempotency/idempotency.go:137-158 | a replayed response was given for that key |
| `Idempotency.RestartNeedsLossOrAge` | internal/idempotency/idempotency.go:137-168 | in every run, as long as a key's entry is not evicted, deleted or cleaned up, a request starts the handler if and only if the last reservation, completion or write is older than the maximal age |
| `Idempotency.AnswerIsReplayedWithinWindow` | internal/idempotency/idempotency.go:140-158 | after a completion a request is told the response within the maximal age, and starts the handler after it |
| `Idempotency.DuplicateWaitsWithinWindow` | internal/idempotency/idempotency.go:140-146 | after a start a request for the same key waits within the maximal age, and starts the handler after it |
| `Idempotency.MiddlewareReplaysWithinLifetime` | internal/middleware/idempotency.go:65-83 | the middleware replays an answer younger than its lifetime, and no other |
| `Idempotency.CleanupDropsExactlyAged` | internal/idempotency/idempotency.go:91-103 | in every run a cleanup drops exactly the entries past the maximal age, none of which would have been replayed |
| `Idempotency.SizeIsBounded` | internal/middleware/idempotency.go:85-119 | in every interleaving, entries never exceed the capacity plus completions that landed on a lost reservation plus the times a full store made no room for a new key, which is never unless the empty key is written directly |
| `Idempotency.MiddlewareSizeIsBounded` | internal/middleware/idempotency.go:43-122 | the middleware, which has no direct writes, holds at most 10000 plus those completions |
| `Idempotency.FullStoreMakesRoomIff` | internal/idempotency/idempotency.go:160-168 | in every state, a new key never makes a full store grow if and only if the empty key is not its oldest entry |
| `Idempotency.EmptyKeyDefeatsEviction` | internal/idempotency/idempotency.go:105-117 | such stores are reached: a store of capacity one comes to hold two |
| `KnowledgeGraph.Graph.AddNode` | internal/knowledge/graph.go:184-193 | keeps the index equal to the edge list |
| `KnowledgeGraph.Graph.AddEdge` | internal/knowledge/graph.go:235-244 | keeps the index equal to the edge list, with the new edge |
| `KnowledgeGraph.BuildIndex` | internal/knowledge/graph.go:508-520 | the loop builds an index that says what the edges say |
| `KnowledgeGraph.MergeIndex` | internal/knowledge/graph.go:523-538 | the merge joins the successor sets of every node |
| `KnowledgeGraph.Expand` | internal/knowledge/graph.go:315-320 | one node's unvisited successors join the visited set and the next frontier |
| `KnowledgeGraph.SortedIds` | internal/knowledge/graph.go:326-332 | the visited ids, each once, in strictly ascending order |
| `KnowledgeGraph.LessIsFirstDifference` | internal/knowledge/graph.go:332 | the order of the output is that of the first differing character, a proper prefix being less |
| `KnowledgeGraph.Graph.LoadFromDB` | internal/knowledge/graph.go:508-538 | keeps the index equal to the edge list after a merge |
| `KnowledgeGraph.ExpandLayer` | internal/knowledge/graph.go:313-321 | one round visits exactly the successors of the frontier, and its next frontier is exactly what is new |
| `KnowledgeGraph.Graph.Reachable` | internal/knowledge/graph.go:304-334 | strictly sorted, and exactly the ids other than the start joined to it by a path of at most the given number of edges, whatever that number |
| `KnowledgeGraph.BallIsPaths` | internal/knowledge/graph.go:304-334 | layers of the search reach exactly what paths of that length reach |
| `KnowledgeGraph.LayerAdvances` | internal/knowledge/graph.go:312-324 | a round takes the layer invariant from one depth to the next |
| `KnowledgeGraph.SearchIsDone` | internal/knowledge/graph.go:312-324 | stopping early on an empty frontier loses nothing |
| `KnowledgeGraph.ReloadJoinsNothing` | internal/knowledge/graph.go:523-538 | loading the same rows twice changes no reachability |
| `CostIntel.Engine.RecordCost` | internal/costintel/costintel.go:153-185 | the capped record list and the anomalies after a record |
| `CostIntel.Engine.DetectAnomaly` | internal/costintel/costintel.go:188-233 | the accumulating loop flags exactly what the definition on the sample flags |
| `CostIntel.KeepsTheLatest` | internal/costintel/costintel.go:81-84 | after every history the engine holds exactly the last 10000 records and the last 1000 of all anomalies found |
| `CostIntel.CauchySchwarz` | internal/costintel/costintel.go:188-233 | the square of a sum is at most the count times the sum of squares |
| `CostIntel.DeviationBound` | internal/costintel/costintel.go:188-233 | a member's squared deviation is at most (count - 1) times the variance of its own sample |
| `CostIntel.AnomalyNeedsElevenRecords` | internal/costintel/costintel.go:188-233 | no anomaly with fewer than 11 records of the model in the window, none critical with fewer than 18 |
| `CostIntel.OutlierOverFlatHistory` | internal/costintel/costintel.go:188-233 | one outlier over equal costs lies exactly on that bound |
| `CostIntel.SpikeFlaggedExactlyFromEleven` | internal/costintel/costintel.go:188-233 | any spike over a flat history is flagged if and only if there are 11 records, and critical if and only if 18 |
| `CostForecast.ForecastCost` | internal/costintel/costintel.go:297-339 | the accumulating loop computes the forecast defined on the daily costs |
| `CostForecast.DenominatorClosed` | internal/costintel/costintel.go:297-309 | the denominator is n^2 (n^2 - 1) / 12, nonzero if and only if n is at least 2 |
| `CostForecast.OneDayForecastsNothing` | internal/costintel/costintel.go:308-328 | a single day forecasts zero |
| `CostForecast.MeanIsAverageIff` | internal/costintel/costintel.go:308-312 | the mean the forecast starts from is the average of the history if and only if there are two days or more, or nothing was spent on the one there is |
| `CostForecast.SlopeOfLinearCosts` | internal/costintel/costintel.go:308-312 | on costs a + b*i the slope is exactly b, for every n of at least 2 |
| `CostForecast.SlopeIsLeastSquares` | internal/costintel/costintel.go:308-312 | on any costs, the computed slope through the mean point has the least squared error of all lines |
| `CostForecast.PredictionIsDailySum` | internal/costintel/costintel.go:325-328 | the closed form is the day by day sum of the trend started at the mean |
| `CostForecast.TrendMeans` | internal/costintel/costintel.go:314-323 | increasing if and only if the mean is positive and the slope is over a twentieth of it, decreasing likewise; the percentage is slope over mean |
| `CostForecast.PredictionMeans` | internal/costintel/costintel.go:325-334 | the prediction is the day by day sum of the trend, but never below zero |
| `CostForecast.ConfidenceMeans` | internal/costintel/costintel.go:330 | the confidence is a thirtieth for each day of history, up to one |
| `Extraction.SimilarityScore` | internal/extraction/extraction.go:350-380 | the loops compute shared words over all words |
| `Extraction.CollectWords` | internal/extraction/extraction.go:351-362 | the loop collects exactly the lower-case words of at least three characters |
| `Extraction.WordsExactly` | internal/extraction/extraction.go:351-362 | a word counts if and only if it is, lower-cased, a run of the text between spaces or its ends, of at least three characters |
| `Extraction.LowerExactly` | internal/extraction/extraction.go:352 | the 26 capitals become small and nothing else changes |
| `Extraction.SpaceExactly` | internal/extraction/extraction.go:352 | the six ASCII space characters |
| `Extraction.AppendIfUnique` | internal/extraction/extraction.go:383-390 | adds the variant exactly when it is not there yet |
| `Extraction.JaccardIsProportion` | internal/extraction/extraction.go:350-380 | the score is between 0 and 1, and 1 if and only if both have the same words, and some |
| `Extraction.JaccardIsSymmetric` | internal/extraction/extraction.go:350-380 | the score does not depend on the order of its arguments |
| `Extraction.IdsAreUnique` | internal/extraction/extraction.go:344-347 | equal ids come from equal category and trigger |
| `Extraction.FindSimilarFinds` | internal/extraction/extraction.go:206-223 | finds a pattern if and only if the category holds one with this trigger or one above 0.7, and then such a one: the one with this very trigger if there is one |
| `Extraction.NewIdIsUnused` | internal/extraction/extraction.go:82-87 | a new pattern never overwrites one |
| `Extraction.Engine.FindSimilarPattern` | internal/extraction/extraction.go:206-223 | the two scans over the objects find what the specification finds |
| `Extraction.PatternObject.Merge` | internal/extraction/extraction.go:74-81 | the merged pattern, whole |
| `Extraction.PatternObject.Score` | internal/extraction/extraction.go:158-164 | the pattern after an outcome, whole |
| `Extraction.MergeKeepsVariants` | internal/extraction/extraction.go:74-81 | a merge keeps the variants in order and each once, has the new one, and moves the confidence a fifth of the way |
| `Extraction.FindingIsKept` | internal/extraction/extraction.go:61-91 | the pattern a finding goes to has its category and snippet, and if new is all the finding's own |
| `Extraction.OutcomeMovesRate` | internal/extraction/extraction.go:158-164 | an outcome moves the success rate a tenth of the way to one if accepted and to zero if not |
| `Extraction.Engine.ExtractFinding` | internal/extraction/extraction.go:66-88 | one finding: merged into the shared object, or stored in both structures |
| `Extraction.Engine.ExtractFromFindings` | internal/extraction/extraction.go:61-91 | the loop over findings, with the returned patterns in order |
| `Extraction.Engine.RecordMatchOutcome` | internal/extraction/extraction.go:149-166 | changes the one known pattern, seen through both structures, or nothing |
| `Extraction.ExtractKeeps` | internal/extraction/extraction.go:61-91 | a batch keeps the invariant and every stored pattern in its place, adds one use per categorised finding, and leaves each of them matched |
| `Extraction.ExtractReturnsInOrder` | internal/extraction/extraction.go:61-91 | a batch returns one pattern for each categorised finding, in their order |
| `Extraction.StoreSafety` | internal/extraction/extraction.go:61-166 | in every reachable store: patterns of a category differ in trigger and are at most 0.7 similar; map and index hold the same patterns once each; success rates stay proportions; uses add up to categorised findings plus outcomes on known patterns |
| `Extraction.SeenFindingAddsNothing` | internal/extraction/extraction.go:72-87 | a finding processed at any time earlier in a run is matched ever after, so it adds no pattern again |
| `DatabaseBreaker.DbCircuitBreaker.CheckDBHealth` | internal/database/postgres.go:48-65 | the health check on the whole state |
| `DatabaseBreaker.DbCircuitBreaker.RecordDBFailure` | internal/database/postgres.go:69-79 | a recorded failure on the whole state |
| `DatabaseBreaker.DbCircuitBreaker.RecordDBSuccess` | internal/database/postgres.go:82-90 | a recorded success on the whole state |
| `DatabaseBreaker.DbCircuitBreaker.EnterCall` | internal/database/postgres.go:623-629 | an open circuit rejects, any other state lets the call through |
| `DatabaseBreaker.DbCircuitBreaker.Execute` | internal/database/postgres.go:652-728 | a call that no other interleaves with fails if and only if rejected or refused by the pool, and records what the specification records |
| `DatabaseBreaker.EveryRunKeepsInv` | internal/database/postgres.go:48-90 | the invariant behind the next row holds along every interleaving |
| `DatabaseBreaker.BreakerSafety` | internal/database/postgres.go:615-728 | in every interleaving: open if and only if at least the threshold of failures was recorded since a health check or a recovery last cleared the count; the clock of an open circuit is the latest failure or rejected call |
| `DatabaseBreaker.LeavesOpenOnlyByLateCheck` | internal/database/postgres.go:48-65 | an event leaves open if and only if it is a health check later than the reset timeout after the latest recorded failure |
| `DatabaseBreaker.HealthyExactlyWhen` | internal/database/postgres.go:48-65 | a health check reports healthy if and only if the circuit was not open, or left alone for more than the reset timeout |
| `DatabaseBreaker.OutageLastsExactlyWhile` | internal/database/postgres.go:48-90 | an outage lasts through a run if and only if every health check in it is that early |
| `DatabaseBreaker.PollingKeepsItOpen` | internal/database/postgres.go:623-629 | rejected calls no further apart than the timeout keep the circuit open for any number of rounds, health checks notwithstanding |
| `DatabaseBreaker.OpensAtThresholdWithoutChecks` | internal/database/postgres.go:67-90 | without health checks it is open if and only if the threshold of failures was ever recorded, whatever succeeded in between |
| `DatabaseBreaker.StaysOpenWithoutChecks` | internal/database/postgres.go:67-90 | without health checks an open circuit stays open through every run |
| `DatabaseBreaker.Recovers` | internal/database/postgres.go:48-90 | left alone, checked and then used once with success, an open circuit closes |
| `DatabaseRetry.RetryQuery` | internal/database/postgres.go:971-1036 | the loop returns the same result after the same number of calls as the recursion |
| `DatabaseRetry.ScanStopsFirst` | internal/database/postgres.go:946-968 | the recursion makes exactly as many calls as the first at which retrying stops, never more than the limit |
| `DatabaseRetry.RetryCharacterised` | internal/database/postgres.go:919-968 | for every stream of outcomes and cancellations: at least one call and at most the maximum asked for, or three; up to the first that does not ask for another; with that call's value or error, or the cancellation |

## Left out

- HitlQueue.HITLQueue.DecideEntry: keeps of a decision only the status; the modified data and the time of the decision, which no other step reads, are not in the entry.
- Agent.ExecuteStep: leaves out tool tokens, cost and the conversation, which decide no transition; what the model proposes from the conversation is an input.
- Health.HealthMonitor.RecordSuccess: leaves out the latency window and its median, which nothing in routing reads.
- CostIntel.Engine.RecordCost: leaves out the spending budgets and their calendar resets (internal/costintel/costintel.go:164-181), which the anomaly check does not read.
- Router runs: requests do not overlap, every provider is registered at the start, and prices and limits are fixed; overlapping requests could pass the budget gate together.
- Router: the default model of an unranked provider is picked before the first attempt instead of just before its own, which is the same while prices do not change.
- Streaming (`StreamWithFailover`, `streamAttempt`): drops chunks and estimates cost.
- Complexity scoring of tasks: the score is an input, every value of it is covered.
- Latency statistics of the health monitor: nothing in routing reads them.
- Persistence of budgets, caches, checkpoints and graphs in Redis and PostgreSQL, and the loading of persisted usage.
- HITL: the callback, the HTTP handlers, and submitting one entry object twice.
- Agent: prompts, memory, parsing of plans and critiques, and the text of results; a parsed plan is an input, and so is whether a tool asks for approval.
- Response caches: hashing of prompts, and the waiting loop of the idempotency stores beyond the decision to wait.
- ETag, stale-while-revalidate and cache header middleware.
- Knowledge graph: node attributes, prompt validation and control rules.
- Cost intelligence: pricing, budgets, recommendations, and the grouping of records by day, whose daily totals are the input of the forecast; `math.Sqrt` is any non-negative root.
- Extraction: categorisation and abstraction of the text of a finding, matching against code, and timestamps; words are split and lowered as ASCII.
- Database: the transaction and connection paths that bypass the breaker, the classification of errors and the length of retry delays; `RetryExec` has the same loop as `RetryQuery` and is covered by the same method.
- Rounding of floating point numbers and overflow of counters.
