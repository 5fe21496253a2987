# A verified model of the AI service layer's control algorithms

The service routes requests to three simulated model tiers. Underneath its endpoints sit a
circuit breaker with retry and fallback, an atomic admission script used by concurrent clients,
a largest-deficit weighted scheduler behind a shared sequence counter, and several
reconciliations of evidence held in different stores. This project models those algorithms and
proves what they promise for every input, every run and every interleaving. The demo's pinned
constants (threshold 3, cooldown 1, cap 3, weights 50/30/20, the limits table, the ten percent
canary) are parameters here; the pinned configuration is proved as one instance of each theorem.

Check it with `dafny verify dfyconfig.toml` (Dafny 4.11).

## How it is organised

| file | what it models |
|---|---|
| `Arithmetic.dfy`, `Counting.dfy` | `round` (ties to even) and `ceil` on exact quotients; counting, sums, selections |
| `Ledger.dfy` | the receipts table: keyed insert where the first write wins, deletes by policy, counting queries |
| `CircuitBreaker.dfy` | one drill step and its fold over any sequence of conditions; the theorems about runs |
| `CircuitDrill.dfy` | the drill loop over mutable state, its Redis evidence and receipts, the failover reconciliation |
| `WeightedSchedule.dfy` | the greedy schedule run forever: fairness, exactness, period |
| `WeightedRouting.dfy` | the configured sequence computed slot by slot, and the wrap-around index |
| `RoutingBatches.dfy` | concurrent batches over the sequence counter, one batch as a loop, the validation report |
| `PinnedWeights.dfy` | the configured 50/30/20 weights |
| `Admission.dfy` | the admission script, runs of submits and resets, the projected matrix |
| `AdmissionService.dfy` | the Redis keys as a mutable object, one submit, the spike loop |
| `AdmissionConcurrency.dfy` | any number of interleaved four-step clients with key resets and receipt deletes; the script and the matrix under concurrency |
| `AdmissionLedgers.dfy` | what receipts, tally and log say about those clients in every state |
| `AdmissionCorrelation.dfy` | the correlation of a logged decision with its receipt, while all of that goes on |
| `SmartRouting.dfy`, `MixedBatch.dfy` | payload decisions, the mixed batch, its three-ledger disposition, the interleaved sample |
| `Canary.dfy`, `Percentile.dfy` | the exposure measured from the receipt trail; the nearest-rank percentile |

Objects whose fields the source updates in place are classes whose methods are proved against
specification functions (`Step`, `Run`, `Standing`, `Decide`, `Admit`, `BatchOf`, ...); the lemmas
below are about those functions. Concurrency is a transition system: each Redis command or script
and each SQL statement is one atomic step, and a schedule names who moves next.

Where the code and its own description differ, the model follows the code:

- The canary docstring says a release can never harm more than the configured slice. The split
  rounds up to a whole request, so small windows exceed it (15 requests at ten percent measure
  13); `Canary.BoundedIff` gives the exact condition.
- The matrix endpoint accepts any integer burst size; for negative ones its closed form is not
  what a burst of that size does (`Admission.MatrixIsBurstIff`).
- The script's comment calls an accepted request's observed depth of 0 provable. It is so only
  because the configured limiter keys are distinct (`Admission.AcceptedSeesEmptyQueueIff`).
- The published order attempts <= counterfactual <= ceiling needs a retry cap of at least 1
  (`CircuitBreaker.StormAvoidedIff`). The cap is compared nowhere else, and `SUCCESS_THRESHOLD`
  is configured but never read: one good probe closes the circuit.
- A spike and the admin reset erase the admission evidence in two separate steps, the Redis keys
  and the receipt rows, in opposite orders, and neither waits for clients in flight. A reset of
  the keys between a client's tally and its log entry leaves a log entry the tally does not count
  (`AdmissionLedgers.ResetRaceLogsUntallied`); a delete of the receipts between a client's
  receipt and its tally leaves a logged decision without a receipt, whose correlation fails
  (`AdmissionCorrelation.SpikeOrphansLog`). Which interleavings lose what is stated exactly
  (`AdmissionLedgers.ConservedIff`, `AdmissionCorrelation.CorrelationExact`).
- Weights that do not add up to 100 are never rejected; `WeightedRouting.RoutedIsGreedyIff` says
  for any table whether the wrapped sequence is still the greedy schedule.
- A failure threshold of 0 behaves like 1, because the counter is incremented before it is
  compared.
- In the receipt query the underscore of `LIKE 'override_%'` stands for any character.

Fresh request ids are an assumption wherever a lemma says `Fresh`: the insert silently keeps an
older row under the same id.

## Model

| member | source | states |
|---|---|---|
| `CircuitBreaker.ReachableSettled` | app/resilience/circuit.py:83-140 | in every reachable state between requests the circuit is closed with fewer failures than trip it, or open within its cooldown; never half-open |
| `CircuitBreaker.RunConcat` | app/resilience/circuit.py:83-140 | a drill over a concatenation is the drill over the first part continued from the state it reaches |
| `CircuitBreaker.OutageState` | app/resilience/circuit.py:88-140 | where an unbroken outage of any length leaves the circuit, from any settled state: still counting, or open at a known point of the cooldown cycle |
| `CircuitBreaker.OutageCost` | app/resilience/circuit.py:88-140 | L unhealthy requests cost exactly min(L, T-f) times the cap plus one probe per C+1 requests after opening; floor((L+p)/(C+1)) if already open with p sheds |
| `CircuitBreaker.OutageCostInDrill` | app/resilience/circuit.py:88-140 | the same bill for an outage that starts at any point of any drill |
| `CircuitBreaker.OutageOpens` | app/resilience/circuit.py:136-140 | from any reachable state T failures in a row leave the circuit open |
| `CircuitBreaker.HealingRun` | app/resilience/circuit.py:88-112 | a healed provider is probed after exactly the remaining sheds, that probe recovers, and the circuit stays closed |
| `CircuitBreaker.HealingCloses` | app/resilience/circuit.py:88-112 | from any reachable state C+1 healthy requests leave the circuit closed |
| `CircuitBreaker.TripsAndRecoveriesAlternate` | app/resilience/circuit.py:101-140 | on every prefix trips minus recoveries is 1 exactly while open, else 0 |
| `CircuitBreaker.CounterIsStreak` | app/resilience/circuit.py:124-139 | while closed the failure counter is the length of the current run of closed failures |
| `CircuitBreaker.TripIffFailureStreak` | app/resilience/circuit.py:120-140 | a request trips if and only if the T requests ending at it were all unhealthy and all handled closed |
| `CircuitBreaker.OpenCounters` | app/resilience/circuit.py:88-140 | while open the failure counter stands where it tripped and the probe counter is the number of requests shed since |
| `CircuitBreaker.TimelineTracksCircuit` | app/resilience/circuit.py:85-160 | every entry's before and after are where the run's circuit stood, so consecutive entries join up; handling is half-open exactly when the circuit was open with the cooldown's sheds behind it, else it is before |
| `CircuitBreaker.EntriesExplained` | app/resilience/circuit.py:88-140 | handling and health determine each entry's transition, end state, reason and attempts |
| `CircuitBreaker.SavingsAccounted` | app/resilience/circuit.py:181-193 | counterfactual minus real attempts equals the bare cost of the shed requests plus cap-1 per failed probe |
| `CircuitBreaker.StormAvoidedIff` | app/resilience/circuit.py:183-193 | attempts <= counterfactual <= ceiling for every drill if and only if the cap is at least 1 |
| `CircuitBreaker.ProbeBreaksZeroCap` | app/resilience/circuit.py:101-104 | with a cap of 0 an outage long enough for one probe spends an attempt the counterfactual does not have |
| `CircuitBreaker.PrimaryServedIsHealthy` | app/resilience/circuit.py:93-135 | the primary answers only healthy requests on one attempt, every other answer is the fallback's and is marked so, and an open circuit makes no attempts |
| `CircuitBreaker.RolesPartition` | app/resilience/circuit.py:77-78 | every request is answered by exactly one of the two roles |
| `CircuitBreaker.PinnedDrill` | app/providers/registry.py:259-322 | the configured drill spends 12 attempts against 20 and a ceiling of 24, and ends recovered |
| `CircuitDrill.DrillLoop.Serve` | app/resilience/circuit.py:83-140 | the branches on mutable loop variables perform exactly one specification step and move each counter by that record's own contribution |
| `CircuitDrill.DrillLoop.Handle` | app/resilience/circuit.py:83-167 | one loop iteration keeps state, timeline, retry log and all counters in agreement with the specification |
| `CircuitDrill.EvidenceStep` | app/resilience/circuit.py:145-167 | one more record moves every counter and log by exactly that record |
| `CircuitDrill.ReceiptsSay` | app/resilience/circuit.py:39-61 | receipt i names who served entry i, why, and for whom |
| `CircuitDrill.RetryLogSays` | app/resilience/circuit.py:159-166 | retry entry i repeats its record's condition, attempts and end state, is retried beyond one attempt, and says which role answered |
| `CircuitDrill.CircuitKeys.CircuitIncr` | app/db/redis_client.py:287-288 | the tally of one role grows by one and the other is unchanged |
| `CircuitDrill.RunDrill` | app/resilience/circuit.py:63-200 | the drill stores the specified timeline, retry log, role tallies, summary and final circuit, replaces earlier circuit receipts by one receipt per request, and leaves every row of another policy as it was |
| `CircuitDrill.DrillLedgersAgree` | app/main.py:716-738 | for every drill over any table, summary, receipts and retry log agree per role and add up to the number of requests |
| `CircuitDrill.ConfirmedIffLedgersAgree` | app/main.py:711-746 | a drill's summary against any table and any retry log: confirmed if and only if a probe recovered and both ledgers count, per role, exactly the drill's records |
| `CircuitDrill.ConfirmedIffRecovered` | app/main.py:711-746 | right after a drill with any ids: confirmed if and only if some probe recovered the circuit and the ids were fresh |
| `CircuitDrill.OverlappingDrillsBlocked` | app/main.py:723-742 | two drills that both clear before either inserts are never confirmed |
| `CircuitDrill.HealedDrillConfirmed` | app/main.py:735-738 | any drill that ends open becomes confirmed and closed by healing for one cooldown and one probe |
| `Ledger.InsertAllConserves` | app/db/postgres.py:56-83 | with fresh ids every query grows by exactly the matching inserted receipts and the table by their number |
| `Ledger.InsertAllRowAt` | app/db/postgres.py:56-83 | with fresh ids each id has its own receipt |
| `Ledger.InsertAllLoses` | app/db/postgres.py:56-83 | the table grows by the number of receipts if and only if the ids are fresh |
| `Ledger.Postgres.InsertReceipt` | app/db/postgres.py:56-83 | a duplicate id changes nothing; existing rows always survive |
| `Ledger.DeletePolicyClears` | app/db/postgres.py:206-210 | clearing a policy leaves none of its rows |
| `Ledger.DeletePolicyKeeps` | app/db/postgres.py:132-136 | clearing a policy keeps every row of another policy with its value, and no other row |
| `Ledger.OtherQueriesUnchanged` | app/db/postgres.py:132-136 | a query that no row of the cleared policy satisfies counts the same before and after |
| `Ledger.Postgres.ClearPolicy` | app/db/postgres.py:132-136 | exactly the rows of other policies remain |
| `WeightedSchedule.StandingIsDeficit` | app/providers/registry.py:83 | a tier's running credit equals the scaled deficit share times slots minus picks |
| `WeightedSchedule.FairAtEveryPrefix` | app/providers/registry.py:79-87 | at every prefix no tier is a full pick ahead of its share, nor further behind than the others can be ahead together |
| `WeightedSchedule.ZeroWeightNeverPicked` | app/providers/registry.py:82-87 | a tier with no weight is never picked |
| `WeightedSchedule.SettledIffWhole` | app/providers/registry.py:71-75 | after n slots every tier has exactly its share if and only if every share is a whole number of picks |
| `WeightedSchedule.PickedExactlyItsWeight` | app/providers/registry.py:70-88 | in one period of sum(weights) slots every tier is picked exactly its weight |
| `WeightedSchedule.StartsOver` | app/routing/weighted.py:22-23 | from an exact slot on, the greedy schedule repeats from its beginning |
| `WeightedSchedule.PicksAfterCycles` | app/routing/weighted.py:22-23 | whole periods multiply every tier's picks |
| `WeightedSchedule.WrapFaithfulIffLevel` | app/routing/weighted.py:22-23 | for any weights whatever, indexing modulo the length equals running the greedy selection forever if and only if every tier used within the length ends it level with the highest standing |
| `WeightedSchedule.WrapFaithfulIff` | app/routing/weighted.py:22-23 | for shares that add up to one, that is if and only if the length gives every tier a whole number of picks |
| `WeightedRouting.WeightedSequence` | app/providers/registry.py:70-88 | the nested loops over deficits return the greedy schedule's first sum(pct // 10) picks |
| `WeightedRouting.FindFurthestBehind` | app/providers/registry.py:80-85 | the tier scan returns the first tier furthest behind |
| `WeightedRouting.SlotsDropRemainders` | app/providers/registry.py:76 | the configured slots are the whole tens of each percentage |
| `WeightedRouting.RouteWeightedCycles` | app/routing/weighted.py:22-23 | the routed tiers are the sequence and then the sequence again |
| `WeightedRouting.RoutedIsGreedyIff` | app/routing/weighted.py:20-23 | for any percentages the routed tier is the greedy pick at every index if and only if the sequence is non-empty and no tier is owed more after one pass than a tier it uses; for percentages summing to 100, if and only if 100 divides every pct times the length |
| `RoutingBatches.StepConserves` | app/main.py:212-216 | every atomic step of any batch keeps counter plus in-flight picks equal to the schedule's count at the sequence counter, and receipts ahead of counters by the stored ones |
| `RoutingBatches.RunConserves` | app/main.py:212-216 | the same in every state of every interleaving, with one index handed out per request |
| `RoutingBatches.QuiescentCounts` | app/main.py:212-216 | when all batches are done counters and receipts are the schedule's counts, whatever the order |
| `RoutingBatches.WorkIsTurns` | app/main.py:212-216 | every batch gets on by one step with each of its turns, three a request, whatever the others do |
| `RoutingBatches.QuiescentIff` | app/main.py:212-216 | all batches are done if and only if each has had its turns |
| `RoutingBatches.WeightedReceiptsSay` | app/routing/weighted.py:41-54 | receipt k of a batch names the model of the k-th slot it took, under the weighted policy |
| `RoutingBatches.RouteBatch` | app/main.py:206-232 | a single batch takes the next `count` slots of the unbounded schedule, with one receipt, one tally and one stored sample each |
| `RoutingBatches.RoutingKeys.NextSeq` | app/db/redis_client.py:60-62 | indices are handed out consecutively from 0 |
| `RoutingBatches.Validate` | app/main.py:250-261 | every row compares the observed count with the nearest integer to its share, and all_match says that all rows match |
| `RoutingBatches.CountTableMeaning` | app/main.py:252-253 | the schedule's counts over all tiers add up to the number of slots |
| `RoutingBatches.MatchIff` | app/main.py:250-261 | reduces validation to standings: for any percentages the schedule's own counts validate if and only if every tier's standing is within half a pick, a tie counting only for an even count (`PinnedWeights.PinnedMatchIff` evaluates it) |
| `RoutingBatches.WholeTotalsMatch` | app/main.py:255-261 | totals that entitle every tier to whole requests always validate |
| `RoutingBatches.BatchesValidateIff` | app/main.py:250-261 | the same reduction for the counters left by any interleaving of batches |
| `RoutingBatches.TensConfigure` | app/providers/registry.py:57-61 | percentages in tens summing to 100 give ten slots whose wrap-around is sound |
| `RoutingBatches.TensValidate` | app/providers/registry.py:57-61 | batches totalling a multiple of ten validate however they interleaved |
| `PinnedWeights.PinnedSequence` | app/providers/registry.py:63-67 | the configured weights yield the sequence E B P E E B E P B E |
| `PinnedWeights.PinnedMatchIff` | app/main.py:250-261 | with 50/30/20 the validation accepts a total if and only if it is not 1, 3, 5, 17 or 19 modulo 20 |
| `Admission.StoreClosedForm` | app/db/redis_client.py:168-187 | after any run with resets, a model's counter is min(submits, rate) and its queue is exactly the ids submitted between the rate and the room, in order |
| `Admission.DecisionClosedForm` | app/db/redis_client.py:168-187 | every reply depends only on the submits since the last reset: accepted, then delayed, then rejected, with the exact counter and depth reported |
| `Admission.WithinLimits` | app/db/redis_client.py:145-152 | neither limit is ever exceeded, and a waiting queue means the rate is spent |
| `Admission.QueueHasNoDuplicates` | app/db/redis_client.py:183 | with distinct ids no id is queued twice |
| `Admission.AcceptedSeesEmptyQueueIff` | app/db/redis_client.py:168-174 | an accepted request observes depth 0 in every run if and only if no model that can admit shares its limiter key with another that can queue |
| `Admission.QueueJumpRun` | app/db/redis_client.py:162-165 | when two such models do share a key, filling one shows the other a non-empty queue on acceptance |
| `Admission.OtherModelsUntouched` | app/db/redis_client.py:158-165 | a submit leaves the counter, queue and next decision of every model with another key unchanged |
| `Admission.SameKeyIff` | app/providers/registry.py:252-256 | two models share a limiter key if and only if they share provider, tier and class |
| `Admission.ResetLeavesOthers` | app/db/redis_client.py:230-236 | a reset leaves counters and queues of keys that are not configured |
| `Admission.BurstClosedForm` | app/resilience/admission.py:131-134 | a burst's counts, taken request by request, are the capped differences of its size, the rate and the room |
| `Admission.MatrixIsBurstIff` | app/main.py:524-530 | the projected matrix row equals the burst's counts if and only if the burst size and the rate are not negative |
| `Admission.NegativeBurstDiffers` | app/main.py:519-528 | a burst size of -1 is projected to -1 accepts, where the burst has none |
| `Admission.MatrixRowPartitions` | app/main.py:524-528 | whatever integer is asked for, the projected row adds up to it, and rejects only once the queue is full |
| `Admission.ConfiguredRows` | app/main.py:519-532 | the three configured rows for a burst of twenty |
| `Admission.ConfiguredIsolated` | app/providers/registry.py:241-256 | the configured limiter keys are pairwise different |
| `AdmissionService.ConfiguredOwnKeys` | app/providers/registry.py:241-256 | every configured model has a key of its own |
| `AdmissionService.ResilienceKeys.Admit` | app/db/redis_client.py:175-197 | the script on mutable keys replies and writes as specified, extending the history by one submit |
| `AdmissionService.ResilienceKeys.ResetResilience` | app/db/redis_client.py:230-236 | one atomic reset of counters, queues, tally and log |
| `AdmissionService.SubmitOne` | app/resilience/admission.py:79-120 | one decision, one receipt under the id, one tally increment and one log entry, all with the same disposition |
| `AdmissionService.ReceiptSpellsDisposition` | app/resilience/admission.py:54-96 | an admission receipt names its model and spells its disposition in its reason |
| `AdmissionService.BurstEvidenceAt` | app/resilience/admission.py:89-118 | log entry and receipt k of a spike are those of the k-th request's own decision |
| `AdmissionService.RunSpike` | app/resilience/admission.py:123-150 | a spike's counts, tally, log, receipts, queue depth and queue_full flag, exactly, from any earlier state and whatever keys other models have; every row of another policy stays as it was |
| `AdmissionService.SpikeReconciles` | app/resilience/admission.py:131-150 | after a spike receipts, tally and projected matrix row agree per disposition |
| `AdmissionConcurrency.StoreIsSequential` | app/db/redis_client.py:144-147 | under every interleaving with resets the shared counter and queues are those of the decisions run one after another |
| `AdmissionConcurrency.ConcurrentWithinLimits` | app/db/redis_client.py:168-187 | in every such state limits hold and the next accepted request observes depth 0 |
| `AdmissionConcurrency.ProgressIsTurns` | app/resilience/admission.py:89-118 | how far a client has got is its number of turns in the interleaving, up to four |
| `AdmissionConcurrency.DecisionsInOrder` | app/db/redis_client.py:168-187 | in every state of every interleaving the k-th client decided for a model since the last reset has exactly the k-th decision of a burst, counter and depth included |
| `AdmissionConcurrency.ConcurrentMatchesMatrix` | app/main.py:523-531 | however many clients race over however many models, and wherever keys are reset before a model's first decision, the model's final counts are the matrix row for its number of requests, and its queue holds each delayed client once |
| `AdmissionLedgers.ExecAccounted` | app/resilience/admission.py:89-118 | in every state of every interleaving, with key resets and receipt deletes anywhere, each ledger accounts for exactly the clients past its step, except those whose entry was there when it was last erased; receipts and log are stated id by id |
| `AdmissionLedgers.LogEntriesSay` | app/resilience/admission.py:100-118 | every log entry spells its client's model and that model's limiter key |
| `AdmissionLedgers.OtherReceiptsStayIff` | app/main.py:162-167 | a receipt of another feature stays, with its value, through any interleaving of clients, spikes and resets if and only if the table is never truncated |
| `AdmissionLedgers.WipedIffTurns` | app/main.py:162-167 | whose entry is erased can be read off the schedule: those that had had the turn for it when a reset or delete of that ledger came |
| `AdmissionLedgers.NothingWipedIff` | app/main.py:162-167 | nothing in a ledger is erased if and only if no reset or delete of it comes after a client's turn for its entry |
| `AdmissionLedgers.EntriesCounted` | app/resilience/admission.py:97-118 | at every moment receipts, tally and log each count, per disposition, the clients past their step less those they lost |
| `AdmissionLedgers.ConservedIff` | app/resilience/admission.py:129-130 | receipts are complete if and only if no delete comes after a client's second turn, the tally if and only if no key reset comes after a third, the log if and only if none comes after a fourth |
| `AdmissionLedgers.DecisionsLead` | app/resilience/admission.py:89-118 | whatever is erased when, no ledger ever counts more than was decided |
| `AdmissionLedgers.LeadsIff` | app/resilience/admission.py:97-118 | of two ledgers the one written first stays ahead from any point on, in every continuation without further erasures, if and only if it has lost no more entries than the other |
| `AdmissionLedgers.LedgersLagInOrder` | app/resilience/admission.py:97-118 | so receipts >= tally >= log entries from any point on, if no erasure found a client between the two entries; from a fresh start, always |
| `AdmissionLedgers.TallyLeadsLogIff` | app/db/redis_client.py:230-236 | for tally and log, from any point on, if and only if the last key reset found no client with exactly three turns |
| `AdmissionLedgers.LedgersAgreeAtRest` | app/resilience/admission.py:89-118 | when every client has finished, each ledger accounts for every decision if and only if nothing erased it after a client's turn for its entry |
| `AdmissionLedgers.ResetRaceLogsUntallied` | app/db/redis_client.py:230-236 | a key reset between a client's tally and its log entry leaves a log entry that the tally does not count |
| `AdmissionCorrelation.TargetMeaning` | app/main.py:588-594 | the traced request is the one named, else the latest rejected, else the latest logged, else none |
| `AdmissionCorrelation.MatchMeaning` | app/main.py:595-617 | over any log and table the correlation matches if and only if the target's receipt is there with the disposition of the target's first log entry |
| `AdmissionCorrelation.CorrelationExact` | app/main.py:583-617 | from the schedule alone: a client is in the log from its fourth turn unless the keys were reset after it, has a receipt from its second turn unless receipts were deleted after it, and its correlation matches exactly when it has both |
| `AdmissionCorrelation.LoggedCorrelatesIff` | app/main.py:583-617 | for any request id, or none, the correlation matches if and only if its target is in the log and receipts were not deleted after that client's second turn |
| `AdmissionCorrelation.SpikeOrphansLog` | app/resilience/admission.py:129-130 | a spike's reset and delete between a client's receipt and its tally leave it logged and tallied without a receipt, with a failed correlation |
| `SmartRouting.TaskSelectsTier` | app/routing/payload.py:43-69 | without a rule a declared class selects the tier of its own level, any other or none that of the default level, with the matching reason |
| `SmartRouting.RulePinsTier` | app/routing/payload.py:47-59 | with a rule model, risk and direction are the rule's, the reason names the class, and the tier the task would have got is reported exactly when it differs |
| `SmartRouting.KindsAgreeIff` | app/main.py:364 | tallied kind and receipt kind agree for every request if and only if no override rule is keyed by the empty string |
| `SmartRouting.ReasonKinds` | app/db/postgres.py:109-117 | every override or complexity reason reads back as its own kind |
| `SmartRouting.ReceiptKindIff` | app/db/postgres.py:109-117 | which reasons read as which kind: the exact phrase, or the word and at least one more character |
| `SmartRouting.TablesAreSound` | app/providers/registry.py:109-136 | the configured tables are complete and kinds always agree |
| `MixedBatch.WeightedInBatch` | app/main.py:351-356 | request i of the weighted part leaves a receipt of the sequence's tier at i |
| `MixedBatch.CaseInBatch` | app/main.py:358-366 | case j leaves the receipt of its own decision, in order |
| `MixedBatch.CaseReceipt` | app/routing/payload.py:72-116 | that receipt's model and reason are those of the declared class's level, or of the override class's rule |
| `MixedBatch.CanonicalCases` | app/providers/registry.py:152-213 | the six canonical cases get their expected models and reasons |
| `MixedBatch.BatchWellTagged` | app/main.py:351-366 | every receipt of a batch reads back as the kind it was tallied under, with the matching policy |
| `MixedBatch.ReceiptsReadBack` | app/db/postgres.py:105-119 | the receipt query counts each kind as often as it was tallied, and finds no inconsistency |
| `MixedBatch.InconsistentIff` | app/db/postgres.py:225-236 | the inconsistency query as written selects the receipts whose policy does not go with their kind |
| `MixedBatch.ConfirmedIffLedgersAgree` | app/main.py:401-429 | a batch's summary against any counters and any table: CONFIRMED if and only if the batch was not empty, both ledgers count each kind as the batch did, no receipt is missing or extra and every policy goes with its reason |
| `MixedBatch.ConfirmedIffClean` | app/main.py:401-429 | over any earlier stores a batch is CONFIRMED if and only if it is not empty, the table was empty and no kind had been tallied |
| `MixedBatch.SecondRunBlocked` | app/main.py:401-429 | a second batch without a reset is BLOCKED |
| `MixedBatch.RouteMixed` | app/main.py:343-384 | the batch's receipts, Redis tallies, API summary, listed policies and interleaved sample, exactly, from any earlier stores |
| `MixedBatch.GroupsKeepOrder` | app/main.py:349-366 | each group of the sample is its kind's rows in request order |
| `MixedBatch.Interleave` | app/main.py:368-375 | the loop terminates with one row of each kind per round |
| `MixedBatch.RoundsAreFair` | app/main.py:371-375 | after r rounds each kind has contributed its first min(r, length) rows in order |
| `MixedBatch.InterleaveIsMerge` | app/main.py:368-375 | the finished sample is an order-preserving merge: filtered by kind it is each group, and nothing else is in it |
| `MixedBatch.ShortSampleShowsAll` | app/main.py:368-375 | any sample of three or more rows shows all three kinds when none is empty |
| `MixedBatch.BatchPolicies` | app/main.py:380 | the policies named across the sample are those of the requests that were in the batch |
| `Canary.WatchWindow` | app/lifecycle/canary.py:91-127 | the trail's lanes are contiguous with the stated id ranges, exposure is the nearest percentage, and the two faults occur exactly on an empty window or an empty lane |
| `Canary.ShareWithinOneRequest` | app/lifecycle/canary.py:91 | the canary share exceeds the percentage by less than one request and never falls short |
| `Canary.BoundedIff` | app/lifecycle/canary.py:111-112 | the measured exposure stays within the percentage if and only if the overshoot is under half a percent of the window, or exactly half and the percentage even |
| `Canary.BoundedWindows` | app/lifecycle/canary.py:111-112 | windows of 200 or more are always bounded, and a whole split measures exactly the percentage |
| `Canary.SmallWindowBreaches` | app/lifecycle/canary.py:11-14 | 15 requests at ten percent measure 13 and fail the check |
| `Canary.ConfiguredWindow` | app/lifecycle/canary.py:37-38 | 50 requests at ten percent give the canary 5 and measure 10 |
| `Percentile.RankMeaning` | app/observability/observe.py:257 | the rank asked for is the nearest to the percentage's share of the way up, even on a tie; below 0 the first, above 100 the last |
| `Percentile.NearestRankIff` | app/observability/observe.py:255-258 | a value is the percentile if and only if it is observed and, for the rank k, has at least k+1 values at or below it and n-k at or above it |
| `Percentile.NearestRankMeaning` | app/observability/observe.py:255-258 | from the percentage alone: the counts on either side are within half an observation of its share; 0 gives the minimum and 100 the maximum |
| `Percentile.ObservedPercentiles` | app/observability/observe.py:282-303 | the observed batch has p50 712 and p95 2112 |
| `Percentile.OrderIrrelevant` | app/observability/observe.py:256 | it does not depend on the order of observation |
| `Percentile.MonotoneInPct` | app/observability/observe.py:303 | a higher percentage never gives a lower value, so p50 <= p95 |
| `Arithmetic.RoundCharacterised` | app/main.py:256 | a number is the rounding if and only if it is nearest, and even on a tie |
| `Arithmetic.RealRoundCharacterised` | app/observability/observe.py:257 | the same for the rounding of a real number |
| `Arithmetic.RoundRealIsRound` | app/main.py:256 | the rounding of a quotient and of the real number it denotes agree |
| `Arithmetic.CeilCharacterised` | app/lifecycle/canary.py:91 | a number is the ceiling if and only if it overshoots the quotient by less than one |

## Left out

- Floating point: deficits and shares are exact integers over a common denominator and percentages of a percentile are real numbers; the 1e-9 tolerance and IEEE rounding are not modelled.
- HTTP routing, validation, status codes and headers; JSON, SQL text, connections, startup and health.
- `uuid4`: ids are parameters; lemmas that need them distinct and unused say so.
- Costs, tokens, latencies and quality values carried on receipts and events.
- Timeline sequence numbers (they are positions plus one) and `states_seen`, `storm_prevented`, `caller_errors` and other constant outputs.
- `backoff_schedule`, `estimate_tokens`, `size_label`, the baseline router: bounds on fixed expressions.
- The canary's promotion criteria (`_evaluate`) and the promote, rollback and reconcile records, which copy constants.
- Trace tiling in `_build_trace`, migration's aggregation, and the prompt, readiness, incident and live-metrics modules.
- The `limit` slice of the sample endpoints beyond `MixedBatch.ShortSampleShowsAll`; the order of the sorted policies, which are a set here; the replies of the batch endpoints that repeat their input and constants.
- `resilience_matrix` is modelled row by row; the surrounding loop only collects the rows.
- Resets that race weighted batches, the mixed batch or the drill: only the admission stores have resets and deletes among their moves.
- Window expiry and dequeuing: the code never expires the counter nor pops the queue, so there is nothing to model.
