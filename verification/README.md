# Hodei job platform: state machines, aggregates, sagas and texts

A Dafny model of the parts of Hodei that decide what may happen to a job, a worker and a saga, and of
the texts those parts exchange.

| module | models |
|---|---|
| `Runs` | runs of a guarded state machine; a store of machines fed with an interleaved list of requests |
| `JobStates`, `JobHistories` | the guard of `JobState`; a second, guard-free description of its runs |
| `JobAggregate`, `JobFields` | the `Job` object: its fields, its operations, its attempt counter; which call set each field last |
| `JobFleet` | the in-memory job repository and any number of jobs in it |
| `WorkerStates`, `WorkerAggregate`, `WorkerFields` | the crash-only guard of `WorkerState`, fleets of workers, the `Worker` object and its fields |
| `SagaStates` | the guard of `SagaState` |
| `SagaTransactions` | the saga orchestrator on PostgreSQL: transactional steps, breaking off anywhere, resuming |
| `SagaHistories` | histories of doing and undoing steps, and the rows that record them |
| `SagaExecutions`, `SagaGuarantees` | what one execution comes to, and what any number of them guarantee |
| `SagaEnds`, `SagaOverlaps` | how each end of an execution leaves things; stored states and executions at the same time |
| `SagaOrchestrator` | the in-memory saga orchestrator: compensation in reverse, bounded attempts |
| `SagaLimits` | how many sagas each of the two runs at once |
| `Texts`, `Messages` | first-occurrence search, decimal numbers, the layout the failure lines share |
| `JobResults`, `JobFailures`, `DispatchFailures`, `ProvisioningFailures`, `SchedulingFailures` | what a displayed result or failure line tells, and when it has one reading |
| `Codecs` | texts and codes of the four state enumerations |
| `EventTopics` | dotted event subjects, their tokens, and NATS wildcards |
| `KeyValues` | `key=value` arguments collected into a map |
| `BuildMinikube`, `JobsPage` | the flag loop of the build script; the selection set of the console's jobs page |

The guards, printers and parsers are functions, as in the source. `Job`, `Worker`,
`InMemoryJobRepository`, `SagaTables`, `SagaGate` and `JobsPageState` are classes: a function on a record says what
each operation does to the fields, every method is proved to do just that in place, and the lemmas about
sequences of calls are about that function. Loops of the source (`parse_args`, `select_all`, the loops of both saga
orchestrators) are loops here, proved against their specification.

Clocks become parameters. What the steps of a saga, its clock and its database do is a `Script` that an execution
reads. In `SagaTransactions` it says for every access to the database whether it is carried out, lost, or carried
out without an answer. Two histories are kept: `effects`, the steps and compensations whose transactions were committed,
and `bodies`, those whose bodies were entered at all. Most steps of the repository ignore the transaction they are
handed and act elsewhere, through a command bus for instance: for them it is the bodies that count. In `SagaOrchestrator`
the orchestrator writes a log of events, in which `Saved` stands for a state it asked its repository to store.

The two job repositories modelled are the in-memory ones, which go through the guard with `set_state`. The
PostgreSQL repositories write job and worker states without asking the guard
(crates/server/infrastructure/src/persistence/postgres/job_repository.rs:344-356 and worker_registry.rs:277-292), so the
fleet results hold of the guard and of these repositories, not of those tables. The in-memory saga orchestrator is marked
as deprecated and meant for tests (crates/server/domain/src/saga/orchestrator.rs:242-249); the one on PostgreSQL is the one
in production.

## Where the code and its description differ

The model follows the code. Members in parentheses are listed below.

- Terminal job states are final under the guard, but not for the `Job` object: `prepare_retry` moves `Failed` and
  `Timeout` back to `Pending` without asking the guard. No other operation leaves the guard (`OperationsFollowGuard`).
- `fail` and `timeout` raise `attempts`, and so does `prepare_retry`; `complete` with a failed result does not. With the default
  limit of three, a job whose failures go through `fail` or `timeout` is retried at most once (`StrikesHalveRetries`,
  `DefaultLimitAllowsOneRetry`); one that fails through `complete` can be retried three times (`RoundsReachBounds`).
- `can_be_cancelled` denies exactly two states in which `cancel` succeeds: assigned, and parked with an operator
  (`CancelPredicateMisses`).
- `set_state`, which the in-memory job repositories use, leaves the other fields behind. Exactly one of its accepted moves
  leaves a consistent record consistent: scheduled to running (`ForcingBreaksConsistency`).
- `update_state` answers `Ok` for an id it does not know (`InMemoryJobRepository.UpdateState`).
- Redelivering a request makes no difference exactly when it would be refused at that moment (`FleetRedelivery`). A change
  that was carried out is carried out again only if an operator sent the job back to `Pending` in between
  (`RedeliveryNeedsRetry`); then it can be (`RedeliveryAfterRetry`).
- The line of an I/O error that names a path is always also the line of one that names none (`IoPathIsNeverTold`).
- The comment above the worker's `transition_to` lists states the enumeration no longer has; the code follows the
  four-state guard. (No lemma: the comment is only outdated.)
- On PostgreSQL, no step is committed twice without being undone in between (`ExactlyOnce`), but bodies are another matter: a
  body runs once per commit exactly when it is never run in vain (`RunsOncePerCommit`), and a lost commit makes it run
  twice (`LostCommitRunsTwice`). A step's marks that it is already done are in the context, which is saved in the
  transaction that is lost. At most two bodies an execution are run in vain (`BodiesAccount`).
- A reported rollback does not compensate the step that failed (`RollbackLeavesOutside`). A reported success does not mean
  that every step's outside work stands: a step whose compensation was entered and not committed is skipped
  (`SuccessLeavesOutside`, `SuccessWithoutStep`).
- On PostgreSQL, neither the stored state of a saga nor the state of its context has any influence on an execution
  (`StateIsIgnored`). The poller asks for sagas that are compensating too, and gives every saga it claims as pending: its
  execution goes forward, and executes the steps a broken-off rollback had undone again (`CompletesExactly`). Where
  the code notes that such a saga should go straight to compensation, nothing does. (Whether the claim's update finds
  its row is not modelled: it binds the id as text, where the other queries bind a UUID.)
- On PostgreSQL, a saga that was rolled back is stored as `Completed`, like one that succeeded (`ReportsStoreCompleted`); what
  is in effect differs (`ReportsAreRight`). A step that times out is neither compensated nor stored as a failure
  (`TimedOutEnd`); when a saga is stored as failed is `FailedStoredExactly`.
- On PostgreSQL, every commit of a step stores the state of the context again, which the guard of `SagaState` never allows. A
  saga given as pending follows the guard only if its execution stores nothing after the first save
  (`StatesFollowGuard`, `PolledSagaLeavesGuard`).
- Nothing keeps two executions of one saga apart: the claim's row locks end with its query, and the first save makes the
  saga pending, hence claimable, again. An execution that is overtaken by another commits what it found missing when
  it started, whatever the other has committed since (`CommittedTwiceExactly`, `OverlapIsUnsound`).
- The PostgreSQL orchestrator lets go of its semaphore permit at once and still gives one back at the end. One entry after
  the other, its limit on concurrent sagas never refuses anyone unless it is zero; the in-memory one keeps the limit
  (`LimitHoldsExactly`).
- The in-memory orchestrator never stores `InProgress`. A new saga, which is given as `Pending`, leaves the guard of
  `SagaState` whatever happens, unless the step it reaches can open no transaction (`NewSagaLeavesGuard`).
- The in-memory orchestrator compensates nothing when a saga runs out of time between two steps or cannot open a
  transaction: all its executed steps stay in effect (`StandingAfter`).
- `SagaState::Failed` is documented as "could not be fully compensated"; in memory, a saga whose every step was undone ends in
  it too (`FailureAccounts`).

## Model

Rows that start with *Table:* state a finite table or a step that other rows build on; the results are the others.

| member | source | states |
|---|---|---|
| `Runs.TrailIsRun` | crates/shared/src/states.rs:47-89 | a machine that refuses what its guard refuses passes through a run, whatever is requested |
| `Runs.TrailFollowsRun` | crates/shared/src/states.rs:47-89 | a machine asked for the states of a run goes through that run |
| `Runs.TrailStep` | crates/shared/src/states.rs:47-89 | one more request is taken if the guard allows it from the last state, and else passed over |
| `Runs.ReplayProjects` | crates/server/infrastructure/src/lib.rs:106-112 | in any interleaving, each id goes through the trail of a lone machine given its own requests; what was accepted for it is a run; ids do not appear or vanish |
| `Runs.Confluence` | crates/server/infrastructure/src/lib.rs:106-112 | two interleavings that keep each id's own order leave the same store and accept the same requests |
| `Runs.RedeliveryExactly` | crates/server/infrastructure/src/lib.rs:106-112 | delivering a request once more makes no difference to anything that can follow if and only if it would be refused at that moment |
| `Runs.BetweenDeliveries` | crates/server/infrastructure/src/lib.rs:106-112 | between two deliveries of an accepted request its id goes through a run, and the second is accepted exactly when that run can be continued back to the requested state |
| `Runs.DuplicateDelivery` | crates/server/infrastructure/src/lib.rs:106-112 | in particular, a second delivery is harmless if the id was asked nothing else in between |
| `Runs.RefusalsAreInert` | crates/server/infrastructure/src/lib.rs:106-112 | dropping every refused request changes neither the store nor what is accepted |
| `Runs.AcceptedBound` | crates/shared/src/states.rs:47-89 | amortised bound: if each allowed step gives up rank or earns credit, a whole store accepts no more than rank lost plus credit earned |
| `JobStates.RunLength` | crates/shared/src/states.rs:47-89 | a run has at most rank(start) − rank(end) + 4·(entries into manual intervention) steps, with equality exactly when no step is a short cut |
| `JobStates.LongestRunReachesBound` | crates/shared/src/states.rs:47-89 | for every k there is a run from `Pending` with k manual interventions and 4k + 3 steps |
| `JobStates.RevisitNeedsRetry` | crates/shared/src/states.rs:47-89 | between two visits of one state lies a step from manual intervention to `Pending` |
| `JobStates.RunWithoutOperator` | crates/shared/src/states.rs:47-89 | a run without manual intervention repeats no state and has at most three steps |
| `JobStates.TerminalIsLast` | crates/shared/src/states.rs:85-86 | a terminal state can only end a run |
| `JobStates.SuccessHistory` | crates/shared/src/states.rs:53-79 | a run from `Pending` to `Succeeded` ends with `Pending`, placed, `Running`, `Succeeded`, however many retries came before |
| `JobStates.VisitCounts` | crates/shared/src/states.rs:52-84 | succeeded ≤ running ≤ assigned + scheduled ≤ pending ≤ 1 + manual, at most one terminal visit, and which of these are strict depending on the last state |
| `JobStates.VisitsAlternate` | crates/shared/src/states.rs:52-84 | in every prefix, `Pending` was visited as often as manual intervention or once more |
| `JobStates.PathToIsRun` | crates/shared/src/states.rs:47-89 | every non-terminal state reaches every state by a non-empty run of at most four steps |
| `JobStates.PathToIsShortest` | crates/shared/src/states.rs:47-89 | no non-empty run between two states is shorter than that one, and none leaves a terminal state |
| `JobStates.TerminalCharacterised` | crates/shared/src/states.rs:92-110 | terminal, not in progress, and without a way out are the same thing |
| `JobHistories.HistoryIsRun` | crates/shared/src/states.rs:47-89 | every history of attempts, retries and one outcome is a run the guard allows |
| `JobHistories.RunIsHistory` | crates/shared/src/states.rs:47-89 | every run from `Pending` is the run of the history read from it |
| `JobHistories.HistoryReadsBack` | crates/shared/src/states.rs:47-89 | reading the run of a history gives the history back |
| `JobHistories.RunsAreHistories` | crates/shared/src/states.rs:47-89 | the runs from `Pending` are exactly the histories, each recording one |
| `JobHistories.HistoryVisits` | crates/shared/src/states.rs:47-89 | a history calls the operator once per interrupted attempt, and queues the job once per attempt |
| `JobAggregate.Job.constructor` | crates/server/domain/src/jobs/aggregate.rs:736-757 | a new job is pending, untouched, with no attempts and a limit of three |
| `JobAggregate.Job.Hydrate` | crates/server/domain/src/jobs/aggregate.rs:760-800 | takes over persisted fields without checking them |
| `JobAggregate.Job.Queue` | crates/server/domain/src/jobs/aggregate.rs:882-891 | accepts exactly a pending job and changes nothing |
| `JobAggregate.Job.SubmitToProvider` | crates/server/domain/src/jobs/aggregate.rs:894-915 | the whole new record, or an unchanged job and the refused transition |
| `JobAggregate.Job.AssignToProvider` | crates/server/domain/src/jobs/aggregate.rs:919-950 | as above; a job that is assigned already gets the new provider and context |
| `JobAggregate.Job.MarkRunning` | crates/server/domain/src/jobs/aggregate.rs:953-970 | as above |
| `JobAggregate.Job.Complete` | crates/server/domain/src/jobs/aggregate.rs:973-998 | as above, with the state the result leads to; the attempt counter stays |
| `JobAggregate.Job.Fail` | crates/server/domain/src/jobs/aggregate.rs:1001-1021 | as above, recording the message and one more attempt |
| `JobAggregate.Job.Cancel` | crates/server/domain/src/jobs/aggregate.rs:1024-1042 | as above |
| `JobAggregate.Job.Timeout` | crates/server/domain/src/jobs/aggregate.rs:1045-1065 | as above, recording a timeout result and one more attempt |
| `JobAggregate.Job.PrepareRetry` | crates/server/domain/src/jobs/aggregate.rs:1075-1093 | clears what the attempt left and returns to `Pending` with one more attempt, or reports the limit |
| `JobAggregate.Job.SetState` | crates/server/domain/src/jobs/aggregate.rs:1123-1135 | changes the state alone, under the guard |
| `JobAggregate.Job.SetAttempts` | crates/server/domain/src/jobs/aggregate.rs:1119-1121 | changes the counter alone |
| `JobAggregate.OperationsFollowGuard` | crates/server/domain/src/jobs/aggregate.rs:880-1135 | every accepted operation keeps the state or follows the guard, except a retry, which leaves a terminal state against it |
| `JobAggregate.AcceptedWhen` | crates/server/domain/src/jobs/aggregate.rs:880-1135 | *Table:* for each operation, the states in which it is accepted; a job parked with an operator can neither time out nor complete as timed out |
| `JobAggregate.CancelPredicateMisses` | crates/server/domain/src/jobs/aggregate.rs:1156-1161 | `can_be_cancelled` implies that `cancel` succeeds, and the converse fails exactly for assigned and parked jobs |
| `JobAggregate.StepBudget` | crates/server/domain/src/jobs/aggregate.rs:880-1135 | any calls change the state at most rank lost + 4·(entries into manual) + 4·(retries) times |
| `JobAggregate.AttemptsAccount` | crates/server/domain/src/jobs/aggregate.rs:1001-1093 | the counter is its start plus failures plus timeouts plus retries |
| `JobAggregate.RetriesBounded` | crates/server/domain/src/jobs/aggregate.rs:1068-1093 | retries stop at the limit, and the counter exceeds it by at most one, while a failure stands |
| `JobAggregate.NewJobStepBound` | crates/server/domain/src/jobs/aggregate.rs:736-757 | a new job changes state at most 15 + 4·(entries into manual) times in its whole life |
| `JobAggregate.LongestLifeReachesBound` | crates/server/domain/src/jobs/aggregate.rs:736-757 | for every k there are calls that reach 15 + 4k changes with k entries into manual |
| `JobAggregate.StrikesHalveRetries` | crates/server/domain/src/jobs/aggregate.rs:1001-1093 | when failures come through `fail` or `timeout`, r retries use up 2r of the limit |
| `JobAggregate.StrikeRoundsReachBound` | crates/server/domain/src/jobs/aggregate.rs:1001-1093 | half of what the limit leaves can be retried, so that bound is reached |
| `JobAggregate.DefaultLimitAllowsOneRetry` | crates/server/domain/src/jobs/aggregate.rs:745 | with the default limit, at most one of the failures so reported is retried, whatever is called |
| `JobAggregate.RoundsReachBounds` | crates/server/domain/src/jobs/aggregate.rs:973-998 | when failures come through `complete`, every attempt up to the limit is retried, four state changes a round |
| `JobAggregate.StaysConsistent` | crates/server/domain/src/jobs/aggregate.rs:880-1093 | unless the state is forced, provider, context, times, result and message stay in step with the state through any calls and retries |
| `JobAggregate.NewJobStaysConsistent` | crates/server/domain/src/jobs/aggregate.rs:736-757 | so a job whose state is never forced is consistent from its creation on |
| `JobAggregate.ForcingBreaksConsistency` | crates/server/domain/src/jobs/aggregate.rs:1123-1135 | forcing the state keeps a consistent record consistent exactly when refused or from scheduled to running |
| `JobFields.StateIsLast` | crates/server/domain/src/jobs/aggregate.rs:880-1135 | after any calls the state is the one asked for by the last accepted call that asks for one |
| `JobFields.ProviderIsLast` | crates/server/domain/src/jobs/aggregate.rs:894-950 | provider and context are those of the last accepted assign or submit since the last retry, whatever was there before |
| `JobFields.TimesAreLast` | crates/server/domain/src/jobs/aggregate.rs:894-1093 | the start is the time of the last accepted submit or start, the completion that of the last end, since the last retry |
| `JobFields.OutcomeIsLast` | crates/server/domain/src/jobs/aggregate.rs:973-1093 | the result is that of the last accepted completion or timeout, the message that of the last failure, since the last retry |
| `JobFields.AttemptsSinceSet` | crates/server/domain/src/jobs/aggregate.rs:1119-1121 | after the counter is set, it is that number plus the failures, timeouts and retries since |
| `JobFields.RefusalsSay` | crates/server/domain/src/jobs/aggregate.rs:880-1135 | a refusal names the job, its state and the state asked for; a refused retry names the limit |
| `JobFleet.InMemoryJobRepository.constructor` | crates/server/infrastructure/src/lib.rs:52-56 | a new repository is empty |
| `JobFleet.InMemoryJobRepository.Save` | crates/server/infrastructure/src/lib.rs:61-65 | binds the job's id to the job and leaves the rest |
| `JobFleet.InMemoryJobRepository.UpdateState` | crates/server/infrastructure/src/persistence/postgres/in_memory.rs:141-151 | the whole new map: one job's state changes exactly when it is known and its guard allows it; an unknown id is reported as success |
| `JobFleet.FleetBound` | crates/shared/src/states.rs:47-89 | pending jobs in any interleaving accept at most 3·jobs + 4·(entries into manual intervention) changes |
| `JobFleet.FleetProjects` | crates/server/infrastructure/src/lib.rs:106-112 | each job's accepted changes form a valid run that depends on its own requests only |
| `JobFleet.FleetRedelivery` | crates/server/infrastructure/src/lib.rs:106-112 | for jobs: redelivering a request makes no difference to anything that can follow if and only if the job is unknown or its state does not allow the change |
| `JobFleet.RedeliveryNeedsRetry` | crates/server/infrastructure/src/lib.rs:106-112 | a change that was carried out is carried out again on redelivery only if, between the two, an operator sent the job back to `Pending` |
| `JobFleet.RedeliveryAfterRetry` | crates/shared/src/states.rs:81 | a concrete list in which a redelivered call for the operator parks a retried job again |
| `WorkerStates.GuardIsCodeOrder` | crates/shared/src/states.rs:267-318 | *Table:* a change is allowed exactly when the code grows by one or the target is `Terminated` with a larger code |
| `WorkerStates.CodesIncrease` | crates/shared/src/states.rs:299-318 | along a run the code grows by at least one a step |
| `WorkerStates.OneJobPerLife` | crates/shared/src/states.rs:299-341 | at most three steps, no state twice, and no job accepted after `Busy` |
| `WorkerStates.Lives` | crates/shared/src/states.rs:299-318 | the runs of a new worker are exactly the six: part of `Creating`, `Ready`, `Busy`, possibly followed by `Terminated` |
| `WorkerStates.WorkerFleetBound` | crates/shared/src/states.rs:299-318 | n workers accept at most 3n changes in any interleaving, whatever states they start in |
| `WorkerStates.PastIsRefused` | crates/shared/src/states.rs:299-318 | an accepted request is refused ever after |
| `WorkerStates.ReplayedPastIsInert` | crates/shared/src/states.rs:299-318 | replaying any of the accepted requests, in any order, leaves a fleet as it is |
| `WorkerAggregate.Worker.constructor` | crates/server/domain/src/workers/aggregate.rs:756-770 | a new worker is creating, idle, with no job executed |
| `WorkerAggregate.Worker.Transition` | crates/server/domain/src/workers/aggregate.rs:867-883 | changes state and time under the guard, or changes nothing and names both states |
| `WorkerAggregate.Worker.MarkReady` | crates/server/domain/src/workers/aggregate.rs:888-896 | the whole new record or a refusal; nothing changes when already ready |
| `WorkerAggregate.Worker.AssignJob` | crates/server/domain/src/workers/aggregate.rs:899-907 | the whole new record, naming the job, or a refusal |
| `WorkerAggregate.Worker.CompleteJob` | crates/server/domain/src/workers/aggregate.rs:910-932 | refused without a current job; otherwise the worker terminates and counts the job |
| `WorkerAggregate.Worker.MarkTerminating` | crates/server/domain/src/workers/aggregate.rs:936-943 | terminates; nothing changes when already terminated |
| `WorkerAggregate.Worker.MarkFailed` | crates/server/domain/src/workers/aggregate.rs:946-948 | terminates, or is refused when already terminated |
| `WorkerAggregate.Worker.UpdateHeartbeat` | crates/server/domain/src/workers/aggregate.rs:951-954 | changes the two times, each from its own reading of the clock, and nothing else |
| `WorkerAggregate.JobsConserved` | crates/server/domain/src/workers/aggregate.rs:867-954 | through any calls, a worker takes at most one job, and that job is the current one or was executed |
| `WorkerAggregate.OrphanedJob` | crates/server/domain/src/workers/aggregate.rs:936-948 | a terminated worker still names a job exactly when one of the calls stopped it while it was busy; then it took that job and never completed it |
| `WorkerFields.AcceptedWhen` | crates/server/domain/src/workers/aggregate.rs:888-954 | *Table:* for each operation, the states in which it is accepted |
| `WorkerFields.CanAcceptExactly` | crates/shared/src/states.rs:339-341 | a worker says it can accept a job exactly when it would |
| `WorkerFields.RefusalsSay` | crates/server/domain/src/workers/aggregate.rs:867-948 | a refusal names the state and the one asked for |
| `WorkerFields.StateAndJobAreLast` | crates/server/domain/src/workers/aggregate.rs:888-948 | after any calls, state and job are those of the last accepted call that sets them |
| `WorkerFields.TimesAreLast` | crates/server/domain/src/workers/aggregate.rs:894-954 | heartbeat, update and completion are each the time of the last accepted call that sets it, read when it was |
| `SagaTransactions.SagaTables.SaveState` | crates/server/infrastructure/src/persistence/postgres/saga_repository.rs:640-677 | stores the state after those stored before, unless the write is lost |
| `SagaTransactions.SagaTables.SaveStep` | crates/server/infrastructure/src/persistence/postgres/saga_repository.rs:1274-1291 | the completed row, the context's state and the step as committed, together or not at all |
| `SagaTransactions.SagaTables.SaveUndo` | crates/server/infrastructure/src/persistence/postgres/saga_repository.rs:1413-1433 | the compensated row and the compensation as committed, together or not at all |
| `SagaTransactions.SagaTables.LoadCompleted` | crates/server/infrastructure/src/persistence/postgres/saga_repository.rs:1166-1188 | the steps with completed rows, and the number of those rows |
| `SagaTransactions.SagaTables.Compensate` | crates/server/infrastructure/src/persistence/postgres/saga_repository.rs:1336-1528 | tables, committed compensations, entered bodies and the answer of the way back |
| `SagaTransactions.SagaTables.ExecuteSaga` | crates/server/infrastructure/src/persistence/postgres/saga_repository.rs:1080-1567 | tables, committed steps, entered bodies and the answer of an execution, wherever it breaks off: before, inside or after a body, at any write |
| `SagaExecutions.ForwardIs` | crates/server/infrastructure/src/persistence/postgres/saga_repository.rs:1198-1291 | the way forward does exactly the missing steps below the first that does not succeed |
| `SagaExecutions.BackIs` | crates/server/infrastructure/src/persistence/postgres/saga_repository.rs:1355-1488 | the way back undoes exactly the compensable steps above the first that is not undone |
| `SagaGuarantees.ExecutionRecords` | crates/server/infrastructure/src/persistence/postgres/saga_repository.rs:1080-1567 | for every script: the committed steps, the entered bodies, the stored states and the answer, in full, from the two stops alone |
| `SagaGuarantees.ExecutionKeepsSound` | crates/server/infrastructure/src/persistence/postgres/saga_repository.rs:1080-1567 | one execution, whatever it meets, keeps the completed rows equal to the committed steps in effect, each once, in a disciplined history |
| `SagaGuarantees.ExactlyOnce` | crates/server/infrastructure/src/persistence/postgres/saga_repository.rs:1166-1205 | after any number of executions that break off anywhere: no step is committed twice without being undone in between, steps are undone last first, and the completed rows are exactly the committed steps in effect |
| `SagaGuarantees.BodiesAccount` | crates/server/infrastructure/src/persistence/postgres/saga_repository.rs:1268-1291 | the bodies entered in all executions are those committed and those run in vain, of which an execution has at most two |
| `SagaGuarantees.RunsOncePerCommit` | crates/server/infrastructure/src/persistence/postgres/saga_repository.rs:1268-1291 | the body of a step or compensation runs once per commit if and only if it is never run in vain; a step's body runs once for each undoing, once more if in effect, and once for each run in vain |
| `SagaGuarantees.NothingInVain` | crates/server/infrastructure/src/persistence/postgres/saga_repository.rs:1268-1291 | the entered bodies are the committed ones, in the same order, if and only if nothing was run in vain |
| `SagaGuarantees.LostCommitRunsTwice` | crates/server/infrastructure/src/persistence/postgres/saga_repository.rs:1290-1291 | a lost commit and a second execution: one commit, two runs of the body |
| `SagaEnds.EveryEnd` | crates/server/infrastructure/src/persistence/postgres/saga_repository.rs:1080-1567 | for every script and every end: which steps are committed and in effect, and of which steps the outside work stands |
| `SagaEnds.UnreadableSteps` | crates/server/infrastructure/src/persistence/postgres/saga_repository.rs:1125-1146 | if the first save or the reading of the steps fails: a database error, no body entered, nothing committed |
| `SagaEnds.StepRunsExactly` | crates/server/infrastructure/src/persistence/postgres/saga_repository.rs:1198-1291 | in one execution the body of a step is entered, and committed, once or not at all: once exactly if the steps can be read, it is missing, all missing steps below succeed, and its turn gets that far |
| `SagaEnds.UndoRunsExactly` | crates/server/infrastructure/src/persistence/postgres/saga_repository.rs:1336-1488 | the same for compensations: once exactly if the execution turns back above, and all that lies between is undone |
| `SagaEnds.ReportsAreRight` | crates/server/infrastructure/src/persistence/postgres/saga_repository.rs:1519-1567 | reported success: every step is in effect and counted; reported rollback: nothing that can be undone is in effect, and executed = undone + left |
| `SagaEnds.RollbackLeavesOutside` | crates/server/infrastructure/src/persistence/postgres/saga_repository.rs:1293-1528 | after a reported rollback, the outside work of compensable steps that stands is that of the failed step and of those above it whose work stood before |
| `SagaEnds.SuccessLeavesOutside` | crates/server/infrastructure/src/persistence/postgres/saga_repository.rs:1198-1207 | after a reported success, a step's outside work stands unless the step was found completed with its compensation entered since |
| `SagaEnds.SuccessWithoutStep` | crates/server/infrastructure/src/persistence/postgres/saga_repository.rs:1432-1433 | the input: a compensation whose commit is lost, then a success that skips the step |
| `SagaEnds.TimedOutEnd` | crates/server/infrastructure/src/persistence/postgres/saga_repository.rs:1529-1544 | a step that times out: all missing steps below it are in effect, nothing is compensated, the context's state stays stored, and the step's own outside work stands |
| `SagaEnds.ExpiredEnd` | crates/server/infrastructure/src/persistence/postgres/saga_repository.rs:1209-1233 | time up between two steps: nothing is compensated; stored as failed if that is written |
| `SagaEnds.UndoFailedEnd` | crates/server/infrastructure/src/persistence/postgres/saga_repository.rs:1437-1484 | a compensation that fails: what is above it is undone, it and what is below are not; stored as failed if that is written, else as compensating |
| `SagaEnds.ReportsStoreCompleted` | crates/server/infrastructure/src/persistence/postgres/saga_repository.rs:1489-1560 | both reports leave the saga stored as completed |
| `SagaEnds.FailedStoredExactly` | crates/server/infrastructure/src/persistence/postgres/saga_repository.rs:1209-1484 | an execution leaves the saga stored as failed if and only if its time was up or a compensation failed, and that was written |
| `SagaEnds.StatesFollowGuard` | crates/server/domain/src/saga/types.rs:265-275 | the states an execution stores follow the saga guard if and only if it commits no step and its end is allowed from the given state |
| `SagaEnds.PolledSagaLeavesGuard` | crates/server/infrastructure/src/persistence/postgres/saga_repository.rs:971-984 | a saga given as pending follows the guard if and only if nothing is stored after the first save |
| `SagaEnds.CompletesExactly` | crates/server/infrastructure/src/persistence/postgres/saga_repository.rs:1198-1567 | an execution completes the saga if and only if the first save, the reading and the last write are heard and every step not in effect succeeds |
| `SagaEnds.RollsBackExactly` | crates/server/infrastructure/src/persistence/postgres/saga_repository.rs:1293-1528 | an execution reports a rollback if and only if the database answers, the first step not in effect that does not succeed fails, and every step below it that can be undone is |
| `SagaEnds.AnswersExactly` | crates/server/infrastructure/src/persistence/postgres/saga_repository.rs:1198-1545 | where an execution gets to a step that is not committed, the answer is that of the step's turn, or of the compensation that stops the way back |
| `SagaOverlaps.StateIsIgnored` | crates/server/infrastructure/src/persistence/postgres/saga_repository.rs:1148-1164 | stored state and context state have no influence on rows, commits, bodies and outcome |
| `SagaOverlaps.OvertakenCommits` | crates/server/infrastructure/src/persistence/postgres/saga_repository.rs:1136-1205 | an execution overtaken by another and the other each commit the steps both found missing |
| `SagaOverlaps.CommittedTwiceExactly` | crates/server/infrastructure/src/persistence/postgres/saga_repository.rs:1136-1205 | a step gains two commits if and only if both executions reach and commit it |
| `SagaOverlaps.OverlapIsUnsound` | crates/server/infrastructure/src/persistence/postgres/saga_repository.rs:1136-1205 | two successful executions, one overtaken by the other, leave tables that no sequence of executions leaves |
| `SagaHistories.DisciplineCloses` | crates/server/infrastructure/src/persistence/postgres/saga_repository.rs:1355-1488 | if a step is in effect above one that is not, the upper has no compensation and the lower has one |
| `SagaHistories.DoneOnce` | crates/server/infrastructure/src/persistence/postgres/saga_repository.rs:1198-1205 | in every disciplined history a step was committed as often as undone, or once more while it is in effect |
| `SagaLimits.SagaGate.constructor` | crates/server/infrastructure/src/persistence/postgres/saga_repository.rs:1052-1058 | as many permits as the limit, nothing running |
| `SagaLimits.SagaGate.TryEnter` | crates/server/infrastructure/src/persistence/postgres/saga_repository.rs:1100-1118 | enters exactly when a permit is free, and then one more saga runs; who is refused changes nothing |
| `SagaLimits.SagaGate.End` | crates/server/infrastructure/src/persistence/postgres/saga_repository.rs:1728-1734 | one saga less is running, one permit more is free |
| `SagaLimits.HeldPermitsAddUp` | crates/server/domain/src/saga/orchestrator.rs:492-502 | in memory, free permits and running sagas add up to the limit, whatever comes and goes |
| `SagaLimits.RunningIsAdmitted` | crates/server/infrastructure/src/persistence/postgres/saga_repository.rs:1100-1123 | with either gate, what runs is what was admitted and has not ended |
| `SagaLimits.HeldAdmitsExactly` | crates/server/domain/src/saga/orchestrator.rs:492-502 | in memory, an entry is admitted exactly while fewer than the limit of admitted sagas have not ended, counted over the events alone |
| `SagaLimits.ReleasedAdmitsAll` | crates/server/infrastructure/src/persistence/postgres/saga_repository.rs:1101-1123 | on PostgreSQL, with a limit above zero, every entry is admitted |
| `SagaLimits.ReleasedPermitsGrow` | crates/server/infrastructure/src/persistence/postgres/saga_repository.rs:1101-1123 | on PostgreSQL, every saga that ends raises the number of permits by one |
| `SagaLimits.LimitHoldsExactly` | crates/server/infrastructure/src/persistence/postgres/saga_repository.rs:1101-1123 | no sequence of sagas exceeds the limit if and only if the permit is held or the limit is zero |
| `SagaOrchestrator.CompensateWithRetry` | crates/server/domain/src/saga/orchestrator.rs:321-407 | the attempts made on one step and whether one of them undid it, as the two rows below pin them down |
| `SagaOrchestrator.GetsUndoneExactly` | crates/server/domain/src/saga/orchestrator.rs:321-407 | from any attempt on, a step gets undone exactly when such an attempt exists |
| `SagaOrchestrator.TriesExactly` | crates/server/domain/src/saga/orchestrator.rs:321-407 | the attempts are numbered, each answered as scripted, and go on exactly until one undoes the step, the limit is reached, or no transaction opens |
| `SagaOrchestrator.ExecuteCompensation` | crates/server/domain/src/saga/orchestrator.rs:410-454 | the log of the reverse pass and the number of steps it undid, going on past steps that cannot be undone |
| `SagaOrchestrator.ExecuteSaga` | crates/server/domain/src/saga/orchestrator.rs:465-735 | outcome and log of a run, fresh or resumed: the given context is saved, and then the first step that does not succeed determines the rest |
| `SagaOrchestrator.CompletedExactly` | crates/server/domain/src/saga/orchestrator.rs:538-595 | a run answers completed, with the number of steps, exactly when every turn from the current step on is in time, opens its transaction and succeeds |
| `SagaOrchestrator.AnswersExactly` | crates/server/domain/src/saga/orchestrator.rs:559-710 | otherwise the first turn that is not so decides: expired, no transaction, timed out, or failed with that error, the steps executed and the steps undone |
| `SagaOrchestrator.UnsavedExactly` | crates/server/domain/src/saga/orchestrator.rs:504-511 | a first save that fails is answered as such, and nothing else happens |
| `SagaOrchestrator.RanExactly` | crates/server/domain/src/saga/orchestrator.rs:538-595 | the steps executed are exactly those from the current one up to the first that is late, opens no transaction or does not succeed |
| `SagaOrchestrator.StopsInExactly` | crates/server/domain/src/saga/orchestrator.rs:596-710 | the run stops inside a step exactly when that step fails or times out |
| `SagaOrchestrator.TriedExactly` | crates/server/domain/src/saga/orchestrator.rs:410-454 | then, and only then, every compensation of an executed step is tried, with all its attempts |
| `SagaOrchestrator.LogInOrder` | crates/server/domain/src/saga/orchestrator.rs:504-734 | the given state is saved first; then steps upwards, the stop, compensating, attempts downwards, the end |
| `SagaOrchestrator.StandingAfter` | crates/server/domain/src/saga/orchestrator.rs:504-734 | which executed steps are left uncompensated: all when completed; exactly those that could not be undone after a failed or timed-out step; all executed ones after expiry between steps or without a transaction |
| `SagaOrchestrator.FailureAccounts` | crates/server/domain/src/saga/orchestrator.rs:596-657 | executed steps = compensated steps + steps left in effect; the two numbers are equal exactly when nothing is left; `Failed` is stored either way |
| `SagaOrchestrator.RollbackOrdered` | crates/server/domain/src/saga/orchestrator.rs:410-454 | compensation goes strictly backwards, only over executed steps that have one; attempts are numbered, bounded, and stop at the first success |
| `SagaOrchestrator.SavedByRun` | crates/server/domain/src/saga/orchestrator.rs:504-734 | the states stored, in order: the one the context came with, and then what the end of the run stores |
| `SagaOrchestrator.SavedStatesFollowGuard` | crates/server/domain/src/saga/types.rs:265-275 | for every given state and script, exactly when the stored states follow the saga guard |
| `SagaStates.RunsOfNewSaga` | crates/server/domain/src/saga/types.rs:265-275 | the runs of a new saga under the guard are exactly the beginnings of four ways: success, cancellation, rollback, giving up |
| `SagaOrchestrator.NewSagaLeavesGuard` | crates/server/domain/src/saga/types.rs:485 | from `Pending`, which new contexts carry, they do only if the step reached opens no transaction |
| `SagaOrchestrator.ResumeContinues` | crates/server/domain/src/saga/orchestrator.rs:515-548 | a run from a context whose first k steps are recorded as executed gives the outcome and the steps in effect of the run that executed them, if the two meet the same from step k on; the clock of the second starts anew |
| `Codecs.JobStateText` | crates/shared/src/states.rs:139-172 | *Table:* a text is read as a state exactly when it is that state's text |
| `Codecs.JobStateNumber` | crates/shared/src/states.rs:174-207 | *Table:* a number is read as a state exactly when it is that state's code |
| `Codecs.WorkerStateText` | crates/shared/src/states.rs:228-251 | *Table:* the same for worker states |
| `Codecs.WorkerStateNumber` | crates/shared/src/states.rs:253-276 | *Table:* the same for worker codes |
| `Codecs.ProviderStatusText` | crates/shared/src/states.rs:373-401 | *Table:* the same for provider status |
| `Codecs.ProviderStatusNumber` | crates/shared/src/states.rs:403-429 | *Table:* the same for provider codes |
| `Codecs.ExecutionStatusText` | crates/shared/src/states.rs:443-473 | *Table:* the same for execution status |
| `Codecs.ExecutionStatusNumber` | crates/shared/src/states.rs:475-503 | *Table:* the same for execution codes |
| `Codecs.JobStateTextsInOrder` | crates/shared/src/states.rs:139-207 | *Table:* the texts in the order of the codes |
| `Codecs.WorkerStateTextsInOrder` | crates/shared/src/states.rs:228-276 | *Table:* the same for worker states |
| `Codecs.ProviderStatusTextsInOrder` | crates/shared/src/states.rs:373-429 | *Table:* the same for provider status |
| `Codecs.ExecutionStatusTextsInOrder` | crates/shared/src/states.rs:443-503 | *Table:* the same for execution status |
| `Texts.ShowNatIsDecimal` | crates/shared/src/states.rs:522-539 | numbers are written in decimal digits, the highest first, without leading zeros |
| `Texts.DigitsInOrder` | crates/shared/src/states.rs:522-539 | *Table:* the ten digits |
| `JobResults.ReadShown` | crates/shared/src/states.rs:522-539 | every displayed result reads back, up to the captured output the display omits |
| `JobResults.ShowDetermines` | crates/shared/src/states.rs:522-539 | two results are displayed alike exactly when they agree in variant, exit code and error message |
| `JobResults.ReadSound` | crates/shared/src/states.rs:522-539 | a line that reads back is the line of what was read |
| `JobFailures.ShowDetermines` | crates/shared/src/states.rs:639-694 | equal lines come from the same variant and carry the same body, whatever the payloads |
| `JobFailures.Lines` | crates/shared/src/states.rs:639-694 | *Table:* the lines, variant by variant |
| `JobFailures.ReadBack` | crates/shared/src/states.rs:639-694 | a reader recovers a reason from its line exactly when no front field hides a separator |
| `JobFailures.ReadSound` | crates/shared/src/states.rs:639-694 | whatever the reader returns is displayed as the line it was read from |
| `JobFailures.SpaceFreeIsClean` | crates/shared/src/states.rs:678-688 | an I/O error whose operation and path hold no space is recovered in full, with or without a path; likewise the two-field reasons |
| `JobFailures.IoPathIsNeverTold` | crates/shared/src/states.rs:678-688 | over all payloads, a line with a path is also the line of an error without one |
| `JobFailures.UnambiguousExactly` | crates/shared/src/states.rs:639-694 | no other reason has the same line exactly when each separator occurs only where the format put it and no path was written |
| `JobFailures.CleanShowInjective` | crates/shared/src/states.rs:639-694 | among clean reasons the line determines the reason |
| `JobFailures.NumbersTold` | crates/shared/src/states.rs:639-694 | time limits, signals and exit codes are recovered exactly |
| `DispatchFailures.DispatchShowInjective` | crates/shared/src/states.rs:857-880 | different dispatch failures are always displayed differently |
| `DispatchFailures.DispatchReadsBack` | crates/shared/src/states.rs:857-880 | every line reads back to the reason it was written for |
| `DispatchFailures.DispatchReadSound` | crates/shared/src/states.rs:857-880 | whatever a text reads as is displayed as that text |
| `DispatchFailures.DispatchLines` | crates/shared/src/states.rs:857-880 | *Table:* the lines, variant by variant |
| `ProvisioningFailures.ProvisioningShowDetermines` | crates/shared/src/states.rs:927-956 | two lines are equal exactly when variant and body are |
| `ProvisioningFailures.ProvisioningUnambiguousExactly` | crates/shared/src/states.rs:927-956 | no other reason has the same line exactly when the separator of a two-field reason occurs only between its fields |
| `ProvisioningFailures.ProvisioningCleanInjective` | crates/shared/src/states.rs:927-956 | when no front field hides the separator, the line determines the reason |
| `ProvisioningFailures.ProvisioningReadsBack` | crates/shared/src/states.rs:927-956 | a line reads back to its reason exactly when the first of two fields does not hide the separator |
| `ProvisioningFailures.ProvisioningReadSound` | crates/shared/src/states.rs:927-956 | whatever a text reads as is displayed as that text |
| `ProvisioningFailures.ProvisioningLines` | crates/shared/src/states.rs:927-956 | *Table:* the lines, variant by variant |
| `SchedulingFailures.SchedulingShowDetermines` | crates/shared/src/states.rs:995-1032 | two lines are equal exactly when variant and body are |
| `SchedulingFailures.SchedulingUnambiguousExactly` | crates/shared/src/states.rs:995-1032 | no other reason has the same line exactly when it is no resource shortage, or each separator occurs once in the two fields it joins |
| `SchedulingFailures.SchedulingCleanInjective` | crates/shared/src/states.rs:1010-1020 | when resource and requirement hide no separator, the line determines all three fields |
| `SchedulingFailures.PlainFieldsHideNothing` | crates/shared/src/states.rs:1010-1020 | a resource without spaces and a requirement without commas hide nothing |
| `SchedulingFailures.SchedulingReadsBack` | crates/shared/src/states.rs:995-1032 | a line reads back to its reason exactly when the front fields of a resource shortage hide no separator |
| `SchedulingFailures.SchedulingReadSound` | crates/shared/src/states.rs:995-1032 | whatever a text reads as is displayed as that text |
| `SchedulingFailures.SchedulingLines` | crates/shared/src/states.rs:995-1032 | *Table:* the lines, variant by variant |
| `EventTopics.SubjectTokens` | crates/shared/src/event_topics.rs:187-189 | the tokens of a subject are those of prefix, entity and action, in that order, whatever the texts |
| `EventTopics.SubjectFormat` | crates/shared/src/event_topics.rs:187-189 | a subject has exactly the four documented tokens if and only if entity and action hold no dot |
| `EventTopics.SubjectDeterminesExactly` | crates/shared/src/event_topics.rs:187-189 | no other pair builds the same subject if and only if entity and action hold no dot |
| `EventTopics.TokensOfJoined` | crates/shared/src/event_topics.rs:187-189 | splitting a text joined with a dot gives the tokens of its parts |
| `EventTopics.TokensOfJoin` | crates/shared/src/event_topics.rs:187-189 | splitting undoes joining of dot-free tokens |
| `EventTopics.TokensAreDotFree` | crates/shared/src/event_topics.rs:187-189 | joining undoes splitting, and tokens hold no dot |
| `EventTopics.WildcardRoutes` | crates/shared/src/event_topics.rs:57 | an entity's wildcard matches a subject exactly when the subject's first entity token is that entity |
| `EventTopics.WildcardRoutesExactly` | crates/shared/src/event_topics.rs:57 | for a dot-free entity, exactly its own wildcard matches |
| `EventTopics.AllEventsMatchesEverySubject` | crates/shared/src/event_topics.rs:183 | the all-events pattern matches everything the builder produces |
| `EventTopics.RoutingIsExclusive` | crates/shared/src/event_topics.rs:57-179 | of the seven entity wildcards at most one matches a subject |
| `KeyValues.ParseKeyValueExactly` | crates/cli/src/main.rs:175-182 | an argument parses to a pair exactly when it is that pair written out and the key holds no `=` |
| `KeyValues.KeysAreBound` | crates/cli/src/main.rs:185-190 | a key is in the map exactly when a well-formed argument binds it |
| `KeyValues.LastBindingWins` | crates/cli/src/main.rs:185-190 | the value of a key is that of its last well-formed argument |
| `KeyValues.ParseMapConcat` | crates/cli/src/main.rs:185-190 | parsing xs followed by ys is parsing xs overridden by parsing ys |
| `KeyValues.MalformedIsIgnored` | crates/cli/src/main.rs:175-190 | an argument without `=` is refused with the expected format and can be dropped anywhere |
| `KeyValues.SwapNeighbours` | crates/cli/src/main.rs:185-190 | swapping neighbours changes nothing exactly when they do not give one key two values that no later argument overrides |
| `KeyValues.ParsedKeysHoldNoEquals` | crates/cli/src/main.rs:175-190 | no parsed key holds `=` |
| `KeyValues.WriteThenParse` | crates/cli/src/main.rs:175-190 | a map written in any order of its keys parses back to itself exactly when no key holds `=` |
| `KeyValues.ParseWriteParse` | crates/cli/src/main.rs:175-190 | what was parsed once survives being written and parsed again, for every argument list |
| `KeyValues.MoreArguments` | crates/cli/src/main.rs:641-666 | more label arguments override labels and touch nothing else; likewise annotations |
| `KeyValues.PartsAreTheirArguments` | crates/cli/src/main.rs:641-666 | each part of the scheduling information is that of its own argument |
| `BuildMinikube.ParseArgs` | scripts/build_minikube.rs:50-83 | help exactly when asked for; otherwise the image of the last `-only` flag or both, `no_cache` exactly when the flag occurs, and never nothing to build |
| `BuildMinikube.OneFlagIsLast` | scripts/build_minikube.rs:58-66 | of the two `-only` flags at most one is last, and one is as soon as either occurs |
| `JobsPage.JobsPageState.ToggleSelection` | crates/console-web/src/state.rs:67-75 | an id is selected afterwards exactly if it was, except the given one, which is exactly if it was not |
| `JobsPage.JobsPageState.SelectAll` | crates/console-web/src/state.rs:78-85 | an id is selected afterwards exactly if it was or is the id of a loaded job |
| `JobsPage.JobsPageState.ClearSelection` | crates/console-web/src/state.rs:88-90 | selects nothing |
| `JobsPage.StatusAfter` | crates/console-web/src/state.rs:67-90 | *Table:* what each call makes of the status of an id |
| `JobsPage.StatusByParity` | crates/console-web/src/state.rs:67-75 | where no call fixes an id's status, the parity of its toggles decides it |
| `JobsPage.StatusSinceLastFix` | crates/console-web/src/state.rs:67-90 | an id is selected exactly when the last call that fixed its status and the parity of its toggles since say so |
| `JobsPage.TogglesCommute` | crates/console-web/src/state.rs:67-75 | lists of toggles with the same parity for each id have the same effect: order does not matter and a repeated toggle cancels |

## Left out

- JobAggregate.Job.SetAttempts: the counter is unbounded; the source's `u32` cannot overflow below a limit of 2³² − 1 (`RetriesBounded`), except by setting it there.
- JobAggregate.Job.Complete: name, spec, metadata, template fields and `created_at` are not in the record, since no operation touches them; whether retries are allowed is a fixed flag taken from the spec.
- WorkerAggregate.Worker.Transition: a refusal names the two states, not their texts, and the reason argument, which the source ignores, is dropped.
- SagaOrchestrator.ExecuteSaga: the rate limiter and the audit trail are not modelled; nor is a step that changes the context's step index, which the orchestrator itself never advances.
- SagaOrchestrator.CompensateWithRetry: the delays between attempts are not modelled, only their number.
- SagaOrchestrator.StandingAfter: a step counts as in effect when it returned success, by what it did besides the transaction it was handed, which the orchestrator never commits; what a timed-out step left half done is not modelled.
- SagaEnds.EveryEnd: a step's outside work counts as standing from the moment its body is entered until its compensation is; how much of it a body that failed, timed out or was interrupted had done, and whether a step makes it harmless to do it again, is not modelled.
- SagaTransactions.SagaTables.ExecuteSaga: the tables of one saga; step outputs, error messages and times are not in the rows. No uniqueness constraint on the step table is assumed (its schema is not part of this model): executing an undone step again adds a second row for it.
- SagaGuarantees.ExactlyOnce: holds of executions one after the other; of overlapping executions only those are modelled in which one runs from start to end while the other waits (`OvertakenCommits`).
- SagaLimits.SagaGate.TryEnter: entries come one after the other; the permit that the PostgreSQL orchestrator holds for a moment can still refuse an entry at the same moment.
- EventTopics.WildcardRoutes: subjects NATS would reject (empty tokens, white space, wildcards in a subject) are matched like any other.
- Codecs: numbers are unbounded integers, of which the source's `i32` values are a part; conversions to the generated protocol enumerations are not modelled.
- Locks and asynchrony: requests to a repository arrive one after the other, in any order.
- The other PostgreSQL repositories, the saga poller, the scheduler, the dispatcher and the provisioner: I/O around the objects modelled here.
- Time-dependent worker predicates (expiry, idle and heartbeat timeouts): comparisons of clocks.
- The table of topic constants, suggested actions, error categories and the user or infrastructure flags: fixed tables.
- UUIDs, serde, gRPC, command handlers, log streaming, and user interface beyond the selection set.
- The other page states of the console, which toggle in the same way.
