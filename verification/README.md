# Webhook delivery pipeline: verified model

The system stores webhook events in Postgres and delivers them at least once.
Schedulers claim due deliveries and publish them; workers load a delivery,
insert an attempt, POST it, record the outcome, settle the endpoint's circuit
breaker and update the delivery; a reaper returns expired leases and purges
idempotency records; clients submit events, and operators list and replay dead
letters. No single function guarantees ordering, the retry budget, the probe
discipline or progress: they are properties of all interleavings. This project
models the pipeline as one transition system whose steps are single SQL
statements, HTTP calls and message moves, and proves those properties for all
runs, or for all runs that meet a stated hypothesis.

`dafny verify dfyconfig.toml` checks everything.

## How it is built

- `Model`, `Statements`, `Circuit`, `Retry`, `Idempotency`: rows, and the effect
  of each statement on them as functions on values.
- `Pipeline`: states, actions and runs. Every actor may crash between any two
  statements; messages may be lost, duplicated or late; leases may expire at any
  time; Submit transactions may overlap. NOW() inside a transaction is its start.
- `RunFacts`, `AttemptFence`, `CircuitRuns`, `Fifo`, `ReplayForest`, `Recovery`,
  `HeadOfLine`, `Finishing`, `Delays`, `Finality`: theorems about all runs.
- `Fenced`, `FencedRuns`, `Domain`: theorems about fenced runs. In these no
  message is duplicated, no lease is reaped while its message or worker is
  alive, and deliveries of one tenant are stored in increasing created_at.
- `ProbeDiscipline`, `SoundRuns`, `AtomicFinish`, `ProbeCalls`: the probe
  discipline of fenced runs, and its exact condition: three guards that the code
  leaves out. Sound runs are the fenced runs that meet it with every circuit
  update stored.
- `Tracing`, `Drain`, `Progress`, `Completion`: progress in sound runs.
- `Database`, `Workers`, `Scheduler`, `Reaper`, `DeadLetters`, `BulkReplay`,
  `EventService`: the imperative code. Class `Db` has one method per SQL
  statement. The methods above it carry a ghost run of `Pipeline`: each
  statement that changes deliveries, endpoints or attempts is an enabled action
  applied to the ghost state (`Trace` and `At`). `EventService` carries, besides,
  a path of `SubmitRuns`, in which each statement of the transaction is a step.
  The reaper's purge is a method of `EventService.Ledger` and is not traced.
  A method describes a call with no other actor between its statements, except in
  `BulkReplay`, where other actors run between any two.
- `SubmitRuns`: overlapping idempotent Submit transactions, statement by
  statement, with an arbitrary lock function (collisions allowed).
- `Attempts`, `Witnesses`: runs that show why the hypotheses are needed.
  `Pagination`: the paged dead-letter list.

Identifiers stand for UUIDs. Times are integers in nanoseconds. Payload hashes
and lock keys are abstract values; random draws, outcomes, store and broker
errors are parameters.

## Findings

- Ordering rests on created_at, which is the start time of the transaction. Two
  submissions in sequence whose starts fall on one clock instant are not ordered
  at all (`Fifo.EarlierSubmissionBlocks` gives the exact condition,
  `Witnesses.SameInstantOvertakes` a run).
- specs/001-receive-deliver/plan.md:380 asks a worker to skip a delivery that is
  not in_flight. The code does not, so a duplicated message can move a
  delivered row back to scheduled (`Witnesses.DuplicateUnfinishes`). In all runs a
  terminal status is final exactly while nothing can still attempt the delivery,
  or the one attempt under way waits for another replay of its source that can
  never finish (`Finality.FinalIff`).
- The probe of a half-open endpoint is its oldest unfinished delivery, and all
  that is in flight to it, exactly as long as three things never happen
  (`ProbeDiscipline.DisciplineIff`), and the code checks none of them: that
  the second statement of SetProbeDelivery stores a choice that is no longer
  current; that a suspension expires while a delivery is in flight to the
  endpoint; that a final update finishes the probe of an endpoint still half
  open. Stored circuit updates rule out the third given the second
  (`SoundRuns.StoredDisciplineIff`), circuit and final updates with nothing in
  between rule out the second as well (`AtomicFinish.AtomicDisciplineIff`), and
  one SetProbeDelivery call per endpoint at a time rules out the first while the
  others hold (`ProbeCalls.OneCallSuffices`). None of these hypotheses can be dropped:
  overlapping calls, a circuit update lost to a store error, or a final update
  that comes after the suspension it opened, each alone leaves an endpoint half
  open with a finished probe (`Witnesses.OverlappingCallsStick`,
  `Witnesses.LostCircuitUpdateSticks`, `Witnesses.LateFinalUpdateSticks`). None of its
  deliveries then makes progress until a new call starts for it
  (`ProbeCalls.StuckForever`), which Tick does only for open endpoints and
  endpoints without a probe. internal/config/config.go:72-75 advises against
  several schedulers; the last two need only one.
- A worker that dies between InsertStarted and its final update blocks its
  delivery for ever: exactly those crashes do, whoever else holds a copy of the
  message (`Recovery.CrashBlocksIffStarted`, `Recovery.BlockedForever`). It also
  blocks every later delivery of the tenant that nobody holds yet. Apart from
  endpoints that need a new SetProbeDelivery call, nothing else can keep a
  delivery from finishing for ever (`Finishing.FinishesIff`).
- BulkReplay skips a delivery whose row it cannot read and still reports success
  (`BulkReplay.BulkReplay`).
- The page offset is computed in 64 bits without a bound on the page number; a
  large page can wrap round to page 1 (`Pagination.ListedIsPageIff`,
  `Pagination.WrappedPage`).
- The jitter bound needs no condition on the base: where base*30 wraps around, the
  delay still stays within 15 percent (`Retry.JitterWithin15Percent`).
- cmd/webhookd/main.go:194-200 and 249-256 leave CircuitStore unset. The model
  describes the configured case.

## Model

| member | source | states |
|---|---|---|
| `Drain.Drain` | internal/scheduler/scheduler.go:69-117 | from every quiet, clean state of a sound run, the loop of clock, reaper, Tick and workers terminates with every delivery delivered or permanently_failed, for any outcomes and any finite number of lost messages |
| `Drain.Round` | internal/delivery/worker.go:104-191 | one round strictly lowers lost messages left plus remaining attempt budget, so every round claims something and completes an attempt or loses a message |
| `Drain.AttemptUsesBudget` | internal/delivery/worker.go:168-190 | each completed attempt lowers the sum of MaxAttempts - attempt_count over unfinished deliveries |
| `Drain.SomethingEligible` | internal/store/delivery_store.go:67-95 | when nothing is in flight, everything is due and the circuits are repaired, some unfinished delivery can be claimed |
| `Completion.NoDeadlock` | internal/delivery/worker.go:104-191 | from every state of a sound run in which no worker died after InsertStarted, workers between their last two updates included, and for any answers of the receivers, the run goes on, with no loss, drop, duplicate, crash or store error, to a state with nothing under way |
| `Completion.EverythingCanFinish` | internal/scheduler/scheduler.go:69-117 | and further, in the same way, until every delivery is terminal: the continued run is itself sound |
| `Completion.ReachQuiet` | internal/delivery/worker.go:82-102 | publishing what is claimed, finishing every worker and consuming every message is always possible |
| `Completion.OneRound` | internal/scheduler/scheduler.go:69-117 | from a quiet state one round of clock, reaper, repair, claim, publish and attempt lowers the remaining budget |
| `Progress.AttendedAlways` | internal/store/attempt_store.go:28-38 | in fenced runs, unless a worker died after InsertStarted, every started attempt of an unfinished delivery has its worker |
| `ProbeDiscipline.DisciplineIff` | internal/store/circuit_store.go:92-179 | in every fenced run: the probe of each half-open endpoint is its oldest unfinished delivery and everything in flight to it is that probe, in every state, if and only if no second statement of SetProbeDelivery that meets a half-open endpoint stores a delivery that is no longer its oldest, no suspension expires while a delivery is in flight to the endpoint, and no final update finishes the probe of an endpoint that is still half open |
| `ProbeDiscipline.DisciplineStep` | internal/store/delivery_store.go:80-83 | every fenced step that meets the three conditions keeps the discipline of every endpoint |
| `ProbeDiscipline.UnsoundBreaks` | internal/delivery/worker.go:144-190 | every other fenced step leaves an endpoint undisciplined |
| `SoundRuns.StoredDisciplineIff` | internal/delivery/worker.go:146-166 | if circuit updates meet no store error, the first two conditions suffice |
| `SoundRuns.ProbeOutcomeEndsHalfOpen` | internal/delivery/worker.go:146-190 | in sound runs a worker that has updated the circuit finds its endpoint not half open up to its final update, so a finished probe never stays the probe |
| `SoundRuns.ClaimsAlways` | internal/store/delivery_store.go:67-95 | while circuit updates are stored and no suspension expires under a delivery in flight, a claim or message finds its circuit not open, and a worker before its circuit update finds it as it saw it or closed |
| `AtomicFinish.AtomicDisciplineIff` | internal/delivery/worker.go:144-190 | if moreover each circuit update is directly followed by the same worker's final update, however SetProbeDelivery calls overlap, the first condition alone is exact |
| `AtomicFinish.AtomicOneCallSuffices` | internal/scheduler/scheduler.go:71-93 | and with one call per endpoint at a time the discipline holds |
| `ProbeCalls.OneCallSuffices` | internal/scheduler/scheduler.go:71-93 | calls that start only for half-open endpoints without probe, one per endpoint at a time, meet the first condition as long as the other two hold, so the discipline is then equivalent to these two |
| `ProbeCalls.StuckForever` | internal/store/circuit_store.go:164-169 | in fenced runs an endpoint with a finished probe keeps its circuit row, and its deliveries their status and counter, until a new call starts for it |
| `ProbeCalls.NewCallRepairs` | internal/store/circuit_store.go:141-169 | a new call then closes it or makes its oldest delivery the probe |
| `ProbeCalls.OrphanStep` | internal/store/circuit_store.go:181-202 | a half-open, disciplined endpoint without probe stays so until a SetProbeDelivery call reaches its second statement |
| `ProbeDiscipline.FencedGivesExclusive` | internal/store/delivery_store.go:67-115 | in fenced runs each endpoint has at most one delivery in flight, each delivery at most one worker, and each worker's delivery is in flight to the worker's endpoint |
| `Fifo.EarlierSubmissionBlocks` | internal/store/delivery_store.go:67-95 | in all runs a delivery stored before another's transaction began has the earlier or equal created_at, and blocks it exactly while unfinished and the two times differ |
| `Fifo.ClaimFindsEarlierTerminal` | internal/scheduler/scheduler.go:96-110 | every claim of the later delivery finds the earlier one of its tenant terminal |
| `Fifo.FirstPostAfterEarlierTerminal` | internal/service/event_service.go:64-116 | every POST of the later delivery comes after a state in which the earlier one was terminal |
| `Fifo.ClaimedBefore` | internal/scheduler/scheduler.go:96-110 | nothing is published, loaded or POSTed without an earlier claim |
| `AttemptFence.SingleWorkerFence` | internal/store/migrations/001_init.sql:59 | in all runs the sequences of a delivery are exactly 1..n or 1..n+1 for its attempt_count n, at most one worker per delivery is past InsertStarted, and no (delivery, sequence) is POSTed twice |
| `AttemptFence.FenceStep` | internal/store/attempt_store.go:28-38 | every step of every actor keeps the fence, the budget, and "in_flight iff leased" |
| `AttemptFence.FenceAlways` | internal/delivery/worker.go:104-117 | that invariant holds in every reachable state, so an unfinished delivery has attempt_count below MaxAttempts |
| `AttemptFence.RescheduleStaysInBudget` | internal/delivery/worker.go:179-190 | every reschedule asks for Delay(n) with 2 <= n <= 9 and sets a due time strictly after the worker's clock |
| `FencedRuns.StepRefinesDomain` | internal/store/delivery_store.go:117-162 | in fenced runs each change of a row is a move the guarded domain machine allows, the reaper's return of a lease, or an earlier due time for a probe |
| `FencedRuns.TerminalIsFinal` | internal/domain/delivery.go:42-86 | in fenced runs the whole row of a delivered or permanently_failed delivery never changes again |
| `Finality.FinalIff` | internal/store/delivery_store.go:119-162 | in every reachable state of all runs: status and counter of a terminal delivery can still change if and only if a worker is past InsertStarted on it, or its next sequence is free and a claim, message or loaded worker can insert it; and, where that worker's outcome asks for a retry that the unique index rejects, the other unfinished replay of the source can still finish |
| `Finality.BarredStep` | internal/store/migrations/007_dlq_replay.sql:5-7 | an attempt of a terminal replay that waits for another replay which cannot finish changes nothing, whatever step is taken |
| `Finishing.FinishesIff` | internal/store/delivery_store.go:67-95 | in every reachable state of all runs an unfinished delivery can still become terminal if and only if it is not blocked by a crash after InsertStarted and either somebody holds it who may finish it without a new claim, or no earlier unfinished delivery of its tenant is so blocked |
| `Finishing.FinishInOrder` | internal/scheduler/scheduler.go:69-117 | how: whoever is ahead finishes first, and only those deliveries are attempted |
| `HeadOfLine.HopelessStep` | internal/delivery/worker.go:104-114 | a delivery that cannot finish stays unfinished and unable to, whatever step is taken |
| `Finality.AtRestStays` | internal/delivery/worker.go:104-114 | a terminal delivery that nothing can attempt stays so in every state of the run |
| `FencedRuns.OneInFlightPerTenant` | internal/store/delivery_store.go:67-95 | an in-flight delivery is strictly the oldest unfinished one of its tenant, so a tenant has at most one in flight under any number of schedulers |
| `FencedRuns.ClaimTakesDistinctTenants` | internal/store/delivery_store.go:67-115 | one claim takes at most batch deliveries, of pairwise distinct tenants |
| `FencedRuns.AtMostNineAttempts` | internal/domain/retry.go:23-24 | no delivery is attempted or POSTed beyond sequence 9 |
| `FencedRuns.SourcesStayFailed` | internal/store/migrations/007_dlq_replay.sql:5-7 | every replay's source stays permanently_failed, and the unique index never rejects a worker's final update |
| `Fenced.FencedStep` | internal/store/delivery_store.go:67-162 | every step of a fenced run keeps: one live claim per in-flight delivery, distinct creation times per tenant, in-flight is oldest, failed stays failed |
| `Fenced.FencedAlways` | internal/store/delivery_store.go:67-162 | that invariant holds in every state of every fenced run |
| `Domain.DeliveryEntity.constructor` | internal/domain/delivery.go:22-40 | the entity holds the given row |
| `Domain.DeliveryEntity.MarkInFlight` | internal/domain/delivery.go:42-51 | allowed exactly from scheduled; otherwise the entity is unchanged |
| `Domain.DeliveryEntity.MarkDelivered` | internal/domain/delivery.go:53-62 | allowed exactly from in_flight; clears the lease and counts the attempt |
| `Domain.DeliveryEntity.MarkPermanentlyFailed` | internal/domain/delivery.go:64-73 | allowed exactly from in_flight; clears the lease and counts the attempt |
| `Domain.DeliveryEntity.RescheduleAfter` | internal/domain/delivery.go:75-86 | allowed exactly from in_flight; due at now + delay |
| `CircuitRuns.StoredRowIsHistory` | internal/store/circuit_store.go:29-179 | in all runs the stored circuit columns are the row specified by the endpoint's history of outcomes, expiries and probe choices |
| `CircuitRuns.CircuitRowsConsistent` | internal/store/migrations/006_circuit_breaker.sql:5-11 | in all runs: open iff suspended_until; a probe implies half_open; sensitive implies closed with count 0; closed implies count < threshold; otherwise count >= 1 |
| `CircuitBreaker.RowInvAlways` | internal/store/circuit_store.go:29-179 | the same for every history |
| `CircuitBreaker.CounterIsStreak` | internal/store/circuit_store.go:29-76 | the counter is the number of transient failures since the last reset, permanent failures and outcomes while open ignored; sensitive says the reset was a probe success |
| `CircuitBreaker.OpensExactlyWhen` | internal/store/circuit_store.go:49-76 | a closed circuit opens exactly at the threshold-th such failure, or the first one after a probe success |
| `CircuitBreaker.OpenUntilDeadline` | internal/store/circuit_store.go:93-136 | while open nothing but an expiry at or after last opening + suspension changes the row; then it is half open or closed as the queue is non-empty or empty |
| `CircuitBreaker.HalfOpenEndsByProbe` | internal/store/circuit_store.go:29-90 | which events end half_open, and how |
| `CircuitBreaker.ProbeIsLastChosen` | internal/store/circuit_store.go:141-179 | the stored probe is the last one chosen since the circuit became half open |
| `CircuitBreaker.NoProbeUntilChosen` | internal/store/circuit_store.go:93-136 | a circuit that became half open has no probe until one is chosen |
| `CircuitBreaker.LastResetExists` | internal/store/circuit_store.go:29-47 | every history has a last reset, so the counter specification applies to all |
| `Recovery.LostClaimReturns` | internal/store/delivery_store.go:406-416 | in all runs a claim nobody finishes is returned by the first reaper pass after its lease, with attempt_count, due time, created_at and source unchanged, due at once and then eligible exactly if order and circuit allow |
| `Recovery.CrashBlocksIffStarted` | internal/delivery/worker.go:110-114 | in all runs, whoever else holds a copy of the message, a worker's crash blocks its delivery exactly if it comes after InsertStarted (or the delivery was blocked) |
| `Recovery.BlockedForever` | internal/store/migrations/001_init.sql:59 | a blocked delivery makes no progress in any continuation |
| `ReplayForest.ForestStep` | internal/store/delivery_store.go:322-336 | every step keeps: source links acyclic, a replay shares event, endpoint and tenant with its source, at most one unfinished replay per source |
| `ReplayForest.ForestAlways` | internal/service/dlq_service.go:131-160 | these hold in every reachable state of all runs |
| `ReplayForest.ChainSharesEvent` | internal/store/migrations/007_dlq_replay.sql:5-7 | all deliveries on a chain of source links share event, endpoint and tenant |
| `Delays.WaitsOutItsDelay` | internal/delivery/worker.go:188-189 | a delivery rescheduled after attempt n is not claimed before the drawn delay, at least 85 percent of the n-th schedule step, has passed, unless SetProbeDelivery made it due |
| `Delays.StepKeepsDue` | internal/store/circuit_store.go:171-176 | only a completed attempt or the third statement of SetProbeDelivery changes when a delivery is due |
| `Retry.JitterWithin15Percent` | internal/domain/retry.go:71-81 | for every positive int64 base and every draw the jittered delay is positive and within 15 percent of base, wrap-around of base*30 included |
| `Retry.DelayPositiveExactlyInBudget` | internal/domain/retry.go:54-69 | Delay(n) is positive exactly for 2 <= n <= MaxAttempts |
| `Retry.DelaysIncrease` | internal/domain/retry.go:54-81 | a later retry waits longer than an earlier one for any two draws |
| `Retry.ProductionScheduleFitsBudget` | internal/domain/retry.go:12-24 | the production schedule is spaced widely enough for that and has one step per retry |
| `SubmitRuns.Linearizable` | internal/service/event_service.go:64-123 | for any lock function and any interleaving of submissions and purges, the committed records are the atomic map after one sequence of operations |
| `SubmitRuns.AnswersAreAtomic` | internal/service/event_service.go:75-116 | each caller with a key is told what the atomic map answers at a step of its own transaction |
| `SubmitRuns.StepRefines` | internal/store/idempotency_store.go:52-119 | each statement is one atomic operation with the right answer, or changes nothing visible |
| `SubmitRuns.InvAlways` | internal/store/idempotency_store.go:37-60 | in every reachable state committed records are complete and name a committed delivery, and lock holders have distinct lock keys |
| `SubmitRuns.SecondCreationAfterExpiry` | internal/store/idempotency_store.go:89-107 | two events for one key are created only if the clock passed the first record's expires_at in between |
| `SubmitRuns.RepeatIsAnswered` | internal/service/event_service.go:75-82 | until then an equal hash gets the first ids, another hash a conflict, and nothing is created |
| `SubmitRuns.LiveRecordStays` | internal/store/delivery_store.go:418-429 | neither the purge nor another transaction touches a record before its expires_at |
| `SubmitRuns.RecordHasCreator` | internal/store/idempotency_store.go:109-119 | every record comes from one earlier creation with its hash and ids |
| `Idempotency.PurgeChangesAnswerIff` | internal/store/delivery_store.go:422-429 | a purge changes an answer exactly if the record was valid at the transaction's start and had expired at the purge |
| `Idempotency.PurgeUnseenByLaterStarts` | internal/store/delivery_store.go:422-429 | a purge changes no answer, now or later, of a transaction that starts at or after it |
| `EventService.Submit` | internal/service/event_service.go:42-124 | run alone: which requests are refused and why; otherwise reply and tables are those of the atomic map, reached by a path of SubmitRuns and a submission of Pipeline; unless an event is created no table changes, also on a store error at any statement |
| `EventService.InTx` | internal/store/postgres.go:49-64 | begin, body, and commit or rollback: on anything but a commit all tables are as before |
| `EventService.Body` | internal/service/event_service.go:64-116 | run alone, the body inserts, hits or conflicts exactly as the atomic map, one step of SubmitRuns per statement |
| `EventService.Deduplicate` | internal/service/event_service.go:67-87 | lock, lookup and claim: the answer of the atomic map, or a claimed record |
| `EventService.Ledger.constructor` | internal/store/migrations/003_idempotency.sql:3-13 | the ledger starts empty |
| `EventService.Ledger.Lookup` | internal/store/idempotency_store.go:62-87 | returns the record exactly while expires_at >= NOW() |
| `EventService.Ledger.Claim` | internal/store/idempotency_store.go:89-107 | inserts a partial record or overwrites an expired one, and nothing else |
| `EventService.Ledger.Complete` | internal/store/idempotency_store.go:109-119 | fills in the ids of an existing record |
| `EventService.Ledger.PurgeExpired` | internal/store/delivery_store.go:418-429 | deletes exactly the expired records and counts them |
| `Reaper.Tick` | internal/recovery/reaper.go:43-65 | leases first, then records; what each error leaves; after a full pass nothing expired at its time remains |
| `DeadLetters.Replay` | internal/service/dlq_service.go:131-160 | run alone, a replay is created exactly if the delivery exists, is permanently_failed, has its endpoint and no unfinished replay; which error otherwise |
| `BulkReplay.BulkReplay` | internal/service/dlq_service.go:162-214 | with any other actors between its statements the count equals the rows it inserted, on every exit; run alone it inserts nothing else, and without an error every target is replayed once, except rows it could not read |
| `BulkReplay.ReplayListed` | internal/service/dlq_service.go:188-213 | the same for the loop over the listed ids |
| `BulkReplay.BulkStep` | internal/service/dlq_service.go:189-212 | one iteration, other actors in between: when it inserts, skips (a concurrent replay included) or stops |
| `BulkReplay.InsertAccounted` | internal/service/dlq_service.go:203-211 | the insert fails exactly on a missing endpoint or an unfinished replay, and otherwise adds one row of this run |
| `DeadLetters.ExactlyOneActive` | internal/store/delivery_store.go:387-401 | after a complete run every matching failed delivery has exactly one unfinished replay |
| `DeadLetters.SecondRunFindsNothing` | internal/service/dlq_service.go:188-213 | an immediate second run has no targets |
| `DeadLetters.InterruptedThenComplete` | internal/service/dlq_service.go:188-213 | an interrupted run and then a complete one replay the same sources, each once, with the same total as one complete run |
| `Pagination.List` | internal/service/dlq_service.go:74-93 | the reply is that of the list specification, errors included |
| `Pagination.ListedIsPageIff` | internal/store/delivery_store.go:271-297 | the reply is rows (page-1)*limit to page*limit with has_next iff rows remain, exactly if the 64-bit offset does not wrap onto a negative number or existing rows |
| `Pagination.RoundTrip` | internal/service/dlq_service.go:82-92 | pages 1, 2, ... as List replies them, followed while has_next, give the whole filtered list, each row once, in order |
| `Pagination.ReachedPagesInRange` | internal/store/delivery_store.go:272-275 | every page reached by following has_next is the right page |
| `Pagination.WrappedPage` | internal/store/delivery_store.go:272-275 | page 2^58 + 1 with limit 64 is page 1 |
| `Pagination.TiesCanHideARow` | internal/store/delivery_store.go:296-297 | with equal updated_at and no fixed tie order a row can be missed and another listed twice |
| `Witnesses.DuplicateUnfinishes` | internal/delivery/worker.go:104-114 | with two copies of its message queued, a row can become delivered and then scheduled |
| `Witnesses.DuplicateReachable` | internal/scheduler/scheduler.go:96-110 | such a state is reachable |
| `Witnesses.SameInstantOvertakes` | internal/store/delivery_store.go:67-95 | a run in which equal created_at lets the later submission be claimed first |
| `Witnesses.StaleProbeSticks` | internal/store/circuit_store.go:164-169 | a stale second statement makes a finished delivery the probe, after which nothing of the endpoint is eligible |
| `Witnesses.OverlappingCallsStick` | internal/store/circuit_store.go:141-179 | a fenced run with two overlapping calls, each circuit update stored and directly followed by the final update, that ends with a finished probe, after which another delivery waits in every fenced run until a new call starts |
| `Witnesses.LateFinalUpdateSticks` | internal/delivery/worker.go:144-190 | the same for a fenced run with one call at a time, each of them current, and every circuit update stored, in which the suspension expires before the probe's final update |
| `Witnesses.LostCircuitUpdateSticks` | internal/delivery/worker.go:149-152 | the same for a fenced run with one call at a time, each of them current, and no expiry under a delivery in flight, in which the probe's circuit update meets a store error |
| `Scheduler.Tick` | internal/scheduler/scheduler.go:67-117 | run alone from any state, whatever an earlier Tick left, a Tick without store errors leaves no half-open endpoint without probe and no open endpoint expired when it looked; the claim takes the batch due first; published is a prefix of the claims |
| `Scheduler.RepairCircuits` | internal/scheduler/scheduler.go:71-93 | steps 0a and 0b together, which keep the invariant of sound runs if nothing is in flight to an open endpoint |
| `Scheduler.RecoverOrphans` | internal/scheduler/scheduler.go:71-81 | step 0a leaves no half-open endpoint without probe, except where a call failed |
| `Scheduler.ExpireAndProbe` | internal/scheduler/scheduler.go:83-93 | step 0b leaves no expired open endpoint and adds no endpoint without probe, except where a call failed |
| `Scheduler.SetProbes` | internal/scheduler/scheduler.go:76-80 | the loop treats every listed endpoint and touches no other |
| `Scheduler.SetProbeDelivery` | internal/store/circuit_store.go:141-179 | three statements, an error after each; when it succeeds the endpoint has a probe or is closed |
| `Scheduler.PublishAll` | internal/scheduler/scheduler.go:102-110 | publishes the claims in order until the first broker error |
| `Workers.Process` | internal/delivery/worker.go:104-191 | when process stops early; otherwise one attempt, one POST, the circuit settled with the state loaded before it, and the row the outcome asks for |
| `Workers.RunAttempt` | internal/delivery/worker.go:104-136 | load, insert, POST, record: the state after each exit |
| `Workers.LoadAndInsert` | internal/delivery/worker.go:104-114 | stops exactly if the delivery is unknown or its next sequence already exists; otherwise one attempt row more |
| `Workers.Conclude` | internal/delivery/worker.go:144-190 | circuit update and final update, and what a store error in either leaves |
| `Workers.CircuitUpdate` | internal/delivery/worker.go:146-166 | the dispatch on the outcome settles the circuit as specified |
| `Workers.FinalUpdate` | internal/delivery/worker.go:168-190 | the dispatch on the outcome and the budget stores the specified row |
| `Workers.NextAttempt` | internal/delivery/worker.go:188-189 | the due time is the worker's clock plus Delay(seq + 1) |
| `Database.Db.constructor` | internal/store/migrations/001_init.sql:1-62 | the tables as given |
| `Database.Db.ClaimReady` | internal/store/delivery_store.go:67-115 | the claimed rows are the batch eligible rows due first, in order; they go in flight with the lease and no other row changes |
| `Database.Db.LoadForWorker` | internal/store/delivery_store.go:175-202 | the row with its endpoint's circuit state, or not found |
| `Database.Db.MarkDelivered` | internal/store/delivery_store.go:119-129 | unguarded by status; counts the attempt and clears the lease |
| `Database.Db.MarkPermanentlyFailed` | internal/store/delivery_store.go:131-141 | unguarded by status; counts the attempt and clears the lease |
| `Database.Db.Reschedule` | internal/store/delivery_store.go:154-164 | unguarded by status; rejected only by the unique replay index |
| `Database.Db.ResurrectExpiredLeases` | internal/store/delivery_store.go:404-416 | exactly the expired in-flight rows return to scheduled, and are counted |
| `Database.Db.ListPermanentlyFailedIDs` | internal/store/delivery_store.go:355-385 | the matching failed ids, each once |
| `Database.Db.HasNonTerminalReplay` | internal/store/delivery_store.go:387-401 | whether an unfinished replay exists |
| `Database.Db.CreateReplay` | internal/store/delivery_store.go:316-336 | inserts the replay, or which constraint rejects it |
| `Database.Db.InsertStarted` | internal/store/attempt_store.go:28-38 | succeeds exactly if (delivery, sequence) is free |
| `Database.Db.UpdateOutcome` | internal/store/attempt_store.go:70-85 | records outcome and completion time |
| `Database.Db.RecordSuccess` | internal/store/circuit_store.go:29-47 | the row after a success |
| `Database.Db.RecordTransientFailure` | internal/store/circuit_store.go:49-76 | the row after a transient failure |
| `Database.Db.RecordProbePermanentFailure` | internal/store/circuit_store.go:78-90 | the row after a permanent probe failure |
| `Database.Db.ProcessExpiredSuspensions` | internal/store/circuit_store.go:93-136 | the new rows, and which endpoints are reported half open or closed |
| `Database.Db.OrphanedHalfOpenEndpoints` | internal/store/circuit_store.go:181-202 | exactly the half-open endpoints without probe, each once |
| `Database.Db.SelectOldestQueued` | internal/store/circuit_store.go:141-147 | an oldest unfinished delivery of the endpoint, or none if there is none |
| `Database.Db.StoreProbeChoice` | internal/store/circuit_store.go:149-169 | assigns the probe, or closes an endpoint with an empty queue; nothing unless half open |
| `Database.Db.ResetProbeDue` | internal/store/circuit_store.go:171-178 | a probe due later becomes due now |

## Left out

- HTTP handlers, request parsing, middleware, metrics, logging, configuration parsing and process start-up.
- Kafka and Postgres internals: a bag of messages with loss and duplication, and atomic statements under READ COMMITTED. A claimed batch whose publishing stops is modelled as dropped claims.
- Payload signing, secrets, SHA-256 and FNV: hashes and lock keys are abstract; results about payloads hold up to equality of hashes.
- URL, tenant-name and idempotency-key validation.
- Row counters of type INT: failure and attempt counters are unbounded naturals. A failure counter would need 2^31 failures without a success to overflow.
- UseShortScheduleForTests: the active schedule is the production schedule in runs; DelaysIncrease is stated for every well-spaced schedule.
- DeliveryStore.Create and DeliveryStore.MarkInFlight, which nothing calls; DLQ Detail, a read with a maximum.
- Endpoints and tenants registered during a run: the endpoints of a run exist from its start. Endpoints are never deleted by the code.
- Poison messages: a message that cannot be decoded is committed and skipped, and changes no table.
- The offset commit after process: a redelivered message is a duplicated message.
- DeadLetters.Replay: stated for a call with no other actor between its statements; concurrent replays are covered by ReplayForest.ForestStep.
- BulkReplay.BulkReplay: under other actors only the count and the inserted rows are stated, because which targets remain depends on them.
- Drain.Drain: assumes that no worker dies after InsertStarted, from which the code does not recover, and that neither a circuit update nor a final update meets a store error; the outcome update may.
- Completion.EverythingCanFinish: for sound runs only, because outside of them an endpoint can keep a finished probe for ever (ProbeCalls.StuckForever). SetProbeDelivery calls under way may stay where they are; the continuation starts its own.
- Finishing.FinishesIff: the continuation may start a SetProbeDelivery call at any time, which is more than Tick does for an endpoint with a probe; that nothing else can make the delivery finish is proved of all continuations.
- EventService.Submit: a call waits for its advisory lock; the method is stated for the moment it is free. Interleavings are those of SubmitRuns.
- FencedRuns.TerminalIsFinal: only in fenced runs, because workers do not check the status; Finality.FinalIff gives the condition for all runs.
- Fifo.ClaimFindsEarlierTerminal: only for different created_at, because equal times are not ordered.
- Pagination.RoundTrip: over one fixed order of rows, because updated_at alone does not fix it.
- Wall-clock limits of the specifications and index performance.
