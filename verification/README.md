# Verified model of the workflow engine

The engine runs directed acyclic graphs of tasks. An API process accepts definitions and triggers
executions, Orchestrators decide which nodes are ready and react to completed tasks, and Workers
claim tasks, run handlers and report outcomes. The processes share PostgreSQL rows and exchange
Redis stream messages that are delivered at least once. This project models that machinery in
Dafny and proves what it keeps true whatever the processes do, in whatever order, and wherever
they stop.

## How the model is laid out

- **Rows and transactions.** `TaskTables` and `ExecutionTables` hold the tables as values and each
  transaction as a function from tables to tables. `Database.Session` holds them as mutable state;
  its methods perform the statements of the repositories and services one by one and are proved to
  have exactly the effect of those functions, rollback included.
- **The protocol.** `Protocol` is a step system over one execution: every transaction and every
  message put on a stream is one step. Streams remember everything they were ever given, so any
  message may be delivered again at any later point; ready lists, loaded nodes, started handlers
  and unpublished events are held in the memory of some process, and a crash is the absence of its
  next step. `ProtocolInvariants` states the invariant, `MemorySteps`, `WorkerSteps`,
  `DispatchSteps` and `CompletionSteps` prove it step by step, `Runs` over whole runs. `Theorems`
  and `RetryWaits` draw the conclusions. `Dataflow` is the reference: a recursive evaluator that
  knows nothing of messages, attempts or rows. `Adequacy` is the converse of the refinement: an
  execution can complete exactly when that evaluator gives every node a value. `Announcements`
  ties the outbox to the rows, `TaskStatuses` the status of a task to its attempts, `Endings` and
  `EndConditions` say which executions can still end, `AttemptEvents` which events an attempt
  reports, and `Anomalies` constructs the runs that show what does not hold.
- **Graph algorithms.** `CycleDetection` is the iterative depth-first search with its explicit
  frames, `Traversal` the adjacency construction, readiness and the breadth-first propagation of
  failures, `DefinitionRules` the validation rules around them, `Graphs` the theory they share.
- **Templates.** `TemplateSyntax` gives the meaning of a template string, `TemplateParser` the
  scanning and delimiter loops, `TemplateRoundTrip` printing and reading back, `ReferenceGrammar` which
  expressions are references, `InputResolver` and `ResolverProofs` the substitution into nested JSON,
  and `ReferenceMeaning` what its result means, without the functions that compute it.
- **Contents.** `TaskInputs` says what every task carries, `NodeRows` what every column of a node row
  holds, `RetryTiming` that retries wait their time, `OutboxRows` where messages are sent, and
  `Refusals` what the transactions accept, for arbitrary rows.
- **Delivery.** `OutboxPublishing` is the outbox publisher with failures of Redis and crashes at
  any point, `RetryPublishing` the loop that sends due retries, `TaskWorker` the handling of one
  delivery by a worker, `BackoffBounds` the retry delays in exact reals.

Handlers are one uninterpreted function of handler name, configuration and resolved input, plus
failure at any time. Version 5 UUIDs (section 5.5 of RFC 9562) are represented by the values they
are derived from, version 4 UUIDs by identifiers not drawn before. Time is a real number that never
decreases.

## Where the code differs from its documentation, or from what one might expect

Each of these comes with an input that shows it and the exact condition under which the expected
property holds.

- DESIGN.md (lines 338-342) says that a completed duplicate delivery replays the stored result. The
  code replays only while the result is recorded and not yet marked completed; afterwards it merely
  acknowledges. `TaskWorker.AcknowledgementMeans` says exactly when a delivery publishes, and what.
- An acknowledged delivery need not have led to a result (`TaskWorker.AcknowledgedWithoutResult`), and
  a worker that lives through all its actions need not acknowledge: marking raises when the
  orchestrator has noted a failure before, or when another worker has replayed the result and marked
  it first (`TaskWorker.MarkedFirst`). `TaskWorker.AcknowledgedIff` gives the exact condition whatever
  other processes do. With only the orchestrator interfering, a delivery is acknowledged unless it
  dies or its failure is noted before it is marked, and its attempt is completed unless another worker
  held the claim or the failure is noted after it was marked (`TaskWorker.AcknowledgementMeans`).
- DESIGN.md (lines 338-340) says that the claim keeps workers from executing one logical task at the
  same time. Claims are exclusive for an attempt (`Theorems.LeasesAreExclusive`). Two attempts of one
  task may be held and run at once (`Anomalies.TaskMayRunTwice`), exactly when more than one attempt
  is permitted and some node can start (`Anomalies.TaskHeldTwiceIffRetried`), and then the lower
  numbered one has a noted failure (`Theorems.EarlierAttemptHasFailed`).
- Recording a result does not ask who holds the claim: a worker whose claim has lapsed may record while
  another one holds it (`Anomalies.StaleWorkerMayRecord`). The row names the recording worker exactly
  when nobody else was granted the attempt since (`Anomalies.NamedUntilNextGrant`).
- The status of a logical task is never completed (`TaskStatuses.TaskStatusMeans`, which says exactly
  what it is), because a worker has always stored the success before the orchestrator hears of it.
- An attempt that has failed may be claimed and run again, and may then succeed, with its failure
  still to be published (`Anomalies.FailureMayFollowSuccess`). An attempt reports at most two events,
  and two exactly when its row names a noted failure and another event
  (`AttemptEvents.AtMostTwoEvents`); beside a success there is no other exactly while no failure is
  noted (`Theorems.FirstSuccessIsFinal`).
- A message of the outbox may be sent twice (`OutboxPublishing.MayBeSentTwice`); it is sent once
  exactly as long as every publication is clean (`OutboxPublishing.ExactlyOnceIffClean`).
- Resolving a template twice is not resolving it once, since outputs may look like templates
  (`ResolverProofs.OutputsAreNotTemplates`); a second pass is harmless exactly for values without
  delimiters (`ResolverProofs.SecondPassIsHarmlessIff`).
- A triggered execution may stay RUNNING for ever: that of a definition without nodes
  (`Theorems.EmptyDefinitionNeverEnds`), any in which no node without dependencies has templates that
  can be resolved (`Endings.AlwaysStuck`, `Endings.StuckAtOnce`), and any in which nothing runs and no
  ready node has an input (`Endings.StuckForEver`). `EndConditions.CanEndIff` says for every state of
  every run whether an end is in reach. The end is reached from the ready lists that processes were
  given, and by the trigger only if it was never evaluated (`EndConditions.ReadyIsListed`); a list that
  a crash takes away is not recovered by the code, and such a loss is not part of the condition.

## Model

| member | source | states |
|---|---|---|
| `Theorems.CompletedOutputIsEval` | app/services/task_completion_service.py:96-296 | in every reachable state the stored output of a COMPLETED node is the one of the recursive evaluation of the graph on the trigger input |
| `Theorems.RunsAgree` | app/services/node_task_dispatcher.py:102-184 | any two runs on the same input agree on every node both have completed |
| `TaskInputs.TaskCarriesInput` | app/services/node_task_dispatcher.py:128-184 | in every reachable state every task message in the outbox, on the stream, about to be sent again or being worked on carries the input its node is to have: the execution input for the input handler, the stored outputs of its dependencies by name for the output handler, and otherwise, key by key, what the configuration stands for given those outputs |
| `TaskInputs.EntriesAreCarried` | app/services/templates/resolver.py:32-69 | an entry without templates is carried as it is, and one that is a single reference is carried as the part of the stored output of the dependency it names |
| `Adequacy.CompletableIffEvaluable` | app/services/node_task_dispatcher.py:84-200 | a non-empty definition has a run that completes on an input, and one without any redelivery (no task message claimed, no event processed, no node dispatched twice, the trigger evaluated once), exactly when the recursive evaluation gives every node a value on it |
| `Adequacy.CompleteNode` | app/worker/task_processor.py:62-106 | a node on a ready list with a value can be dispatched, run and completed by seven new steps, with no other node row changed and the nodes that become ready put on a ready list |
| `Adequacy.SomeReadyNode` | app/domain/dag/readiness.py:19-38 | a reachable state whose nodes are pending or completed, not all completed, has a ready node |
| `Theorems.DependenciesComeFirst` | app/services/node_task_dispatcher.py:108-146 | a RUNNING or COMPLETED node has only COMPLETED dependencies; every dependant of a FAILED node is FAILED |
| `Theorems.DispatchFailureBranchIsDead` | app/services/node_task_dispatcher.py:108-127 | however old the ready list a dispatch acts on, its failed-dependency branch is never taken |
| `Theorems.TransitionsAreDeclared` | app/domain/state/state_machine.py:11-34 | every status change of a run is an edge of the declared transition maps, and a completed row never changes |
| `Theorems.NoDeadlock` | app/domain/dag/readiness.py:19-38 | a reachable state without running and without ready nodes has only terminal nodes, and the execution has ended exactly when the definition is not empty |
| `Theorems.EmptyDefinitionNeverEnds` | app/services/workflow_finalization_service.py:63-117 | a triggered execution of the empty definition is RUNNING in every reachable state |
| `EndConditions.CanEndIff` | app/services/task_completion_service.py:146-296 | from any state of any run after the trigger, the execution can still end without another delivery of the trigger exactly when it has ended, or a running node whose latest attempt has no recorded success exists, or, taking all running nodes as completed, all nodes are completed or some ready node has an input |
| `EndConditions.ReadyIsListed` | app/services/task_completion_service.py:274-296 | in every state of every run a ready node is on a ready list some process was given, unless it has no dependencies and the trigger was never evaluated |
| `EndConditions.QuietExecutionCanEndIff` | app/services/node_task_dispatcher.py:128-146 | when no node runs, that condition is that the execution has ended or some ready node has an input |
| `Endings.StuckForEver` | app/services/node_task_dispatcher.py:128-146 | an execution in which no node runs and no ready node has an input stays exactly as it is, whatever the processes do |
| `Endings.AlwaysStuck` | app/services/node_task_dispatcher.py:128-146 | when no node without dependencies has an input, every reachable state after the trigger is stuck |
| `Endings.StuckAtOnce` | app/services/node_task_dispatcher.py:128-146 | the witness for the row above: when every node without dependencies holds a template, no node starts on any input, and a stuck state is reached |
| `Endings.NoInputNoTask` | app/services/node_task_dispatcher.py:128-157 | a node whose templates cannot be resolved has no task in any reachable state |
| `Theorems.StatusTellsTheNodes` | app/services/workflow_finalization_service.py:63-117 | the execution is FAILED exactly when a node is, COMPLETED exactly when the definition is not empty and all nodes are |
| `Theorems.ResultsAreComplete` | app/services/workflow_execution_results_service.py:71-107 | the inconsistent branch is unreachable; results are available exactly for completed executions and list every defined node with its evaluated output |
| `Refusals.ResultsAre` | app/services/workflow_execution_results_service.py:48-107 | for arbitrary rows: which executions have no results, which are inconsistent, and that results are the outputs of the completed nodes |
| `Theorems.AttemptsFormAChain` | app/infrastructure/persistence/repositories/task_retry_repository.py:65-199 | the attempts of a task are numbered 1 to k without gap or repetition, k at most the limit; all but the last have failed, the last has not unless the limit is reached |
| `Theorems.FailureEventsAreDistinct` | app/infrastructure/persistence/repositories/task_retry_repository.py:84-108 | no two attempts share a failure event |
| `Theorems.WhyANodeFailed` | app/services/task_completion_service.py:146-239 | a node with a task is FAILED only when every permitted attempt has a recorded failure, one without only because of a FAILED dependency |
| `NodeRows.NodeRowMeans` | app/services/task_completion_service.py:179-239 | in every reachable state a pending or running row is as submitted but for its status, a completed one has no error, one failed with a task has no output and the error of its last permitted attempt, and one failed without a task has the kind FailedDependency and a message that names a node that failed on its own |
| `NodeRows.FinalErrorMeans` | app/infrastructure/persistence/repositories/task_retry_repository.py:109-121 | a task has a final error exactly when its last permitted attempt has failed, and then it is the error of that attempt |
| `NodeRows.NodeErrorIsFinalError` | app/services/task_completion_service.py:179-200 | the error of a node that failed with its task is the final error of the task |
| `TaskStatuses.TaskStatusMeans` | app/infrastructure/persistence/repositories/task_retry_repository.py:31-152 | a logical task is failed exactly when its last permitted attempt has failed, scheduled for retry exactly when it has a second attempt and the last permitted one has not failed, running otherwise, and never completed |
| `TaskStatuses.RunningIsUnspent` | app/services/task_completion_service.py:146-202 | in every state of every run a running node has an attempt that has not failed |
| `Theorems.RedeliveryIsHarmless` | app/services/task_completion_service.py:130-218 | an event that was processed once leaves the whole database unchanged when processed at any later point of the run |
| `Theorems.AnnouncedExactlyOnce` | app/services/task_completion_service.py:240-273 | over any run the outbox holds exactly one message for the trigger, for each claimed node, each terminal node and the terminal execution, and none for what has not happened |
| `Announcements.AnnouncementsAreTrue` | app/services/task_completion_service.py:240-273 | every announcement in the outbox of a reachable state is true of the rows: status and output of an ended node, failed node and failed cause, status of the execution; a queued task is a first attempt; and the keys derive from the recorded event that caused the message |
| `Announcements.AnnouncedInOrder` | app/services/task_completion_service.py:240-290 | one completion adds to the outbox nothing, or, in this order, the dependants that fail with the node, the node with its event, and the end of the execution exactly if it ends now |
| `Theorems.OutboxKeysAreUnique` | app/services/node_task_dispatcher.py:141-184 | no insertion into the outbox ever violates its primary key |
| `Theorems.FirstAttemptIsUnique` | app/infrastructure/persistence/repositories/task_retry_repository.py:154-199 | a node has a logical task exactly when it has an attempt numbered 1, and then exactly one; pending nodes have none |
| `Theorems.FirstSuccessIsFinal` | app/infrastructure/persistence/repositories/task_attempt_processing_repository.py:57-130 | a stored success keeps its event and output for the rest of the run, nothing else can be recorded, every replay repeats it, and no other event exists for the attempt exactly while no failure was noted |
| `Theorems.OneEventUntilFailureIsNoted` | app/infrastructure/persistence/repositories/task_retry_repository.py:93-108 | in every reachable state two different events of one attempt were recorded only if a failure of it has been noted |
| `AttemptEvents.AtMostTwoEvents` | app/infrastructure/persistence/repositories/task_attempt_processing_repository.py:57-100 | in every reachable state at most two different events were ever recorded for an attempt, and two exactly when its row names a noted failure and another event |
| `Theorems.LeasesAreExclusive` | app/infrastructure/persistence/repositories/task_attempt_processing_repository.py:57-76 | two different workers never both hold an unexpired claim on one attempt, and the row names the holder |
| `Theorems.EarlierAttemptHasFailed` | app/infrastructure/persistence/repositories/task_attempt_processing_repository.py:57-76 | of two attempts of one task the lower numbered one has a noted failure, so at most one attempt of a task has none; when two can be held at once is the row of TaskHeldTwiceIffRetried |
| `Theorems.ExpiryNeverMovesBack` | app/infrastructure/persistence/repositories/task_attempt_processing_repository.py:132-146 | no step of a run moves the stored expiry of a claim backwards |
| `Theorems.NoRetryIsLost` | app/infrastructure/persistence/repositories/task_retry_repository.py:201-231 | in every reachable state a retry is returned by every poll from its due time on, or its message is on the task stream |
| `RetryTiming.NoRetryIsEarly` | app/infrastructure/persistence/repositories/task_retry_repository.py:201-231 | in every reachable state a retry on the task stream, or read to be sent, has come to its due time |
| `RetryTiming.PolledInTime` | app/infrastructure/persistence/repositories/task_retry_repository.py:201-231 | what a poll returns is due, scheduled and not yet marked as sent |
| `RetryTiming.RetryWaitsItsDelay` | app/infrastructure/persistence/repositories/task_retry_repository.py:122-142 | in any run no worker claims attempt k + 1 before the delay of the policy for attempt k has passed since the failure of attempt k was processed |
| `Theorems.MarkingKeepsClaims` | app/infrastructure/persistence/repositories/task_retry_repository.py:233-252 | in any run, marking a retry published leaves every claimed attempt exactly as it is |
| `RetryWaits.WaitedIsBackoff` | app/services/task_completion_service.py:151-161 | at any point of any run the waiting scheduled for a task with k attempts is exactly the sum of the first k - 1 delays of the policy |
| `RetryWaits.WaitingIsBounded` | app/services/task_completion_service.py:57-87 | the waiting of a task over a whole run is at most the cap times the permitted retries and at most the geometric sum |
| `RetryWaits.DueTimesStay` | app/infrastructure/persistence/repositories/task_retry_repository.py:122-142 | no step changes the due time of a scheduled retry |
| `BackoffBounds.DelaysGrow` | app/services/task_completion_service.py:81-87 | delays are non-negative, never above the cap and non-decreasing in the attempt number |
| `BackoffBounds.DelaysAre` | app/services/task_completion_service.py:81-87 | the first delay is the initial one, each further one the multiplier times the one before, and with a cap each is the smaller of the two |
| `BackoffBounds.GeometricClosedForm` | app/services/task_completion_service.py:84-84 | the closed form of the geometric sum of delays, for a multiplier of one as well |
| `BackoffBounds.ChainDelayIsBounded` | app/services/task_completion_service.py:57-87 | the sum of the delays of a chain is within the cap times (limit - 1) and within the geometric sum, which it reaches when there is no cap |
| `Dataflow.ResolvedInputIsEvalInput` | app/services/node_task_dispatcher.py:128-140 | the input resolved from completed dependency rows is the input of the recursive evaluation |
| `Runs.StepKeepsInv` | app/services/node_task_dispatcher.py:84-238 | every step of every process keeps the whole invariant |
| `Runs.RunKeepsInv` | app/orchestrator/task_completion_consumer.py:67-117 | the invariant holds in every state of every run |
| `Runs.RunKeepsOutbox` | app/infrastructure/persistence/repositories/outbox_event_repository.py:20-63 | in every state of every run the outbox corresponds one to one to what has happened |
| `StepEffects.StepEffect` | app/domain/state/state_machine.py:11-34 | a step moves statuses along declared transitions, loses no row, changes no identity of an attempt or task and shortens no claim |
| `CompletionSteps.ProcessKeepsInv` | app/services/task_completion_service.py:96-296 | the completion transaction keeps the whole invariant |
| `CompletionSteps.ProcessSuccess` | app/services/task_completion_service.py:130-145 | a delivered success settles the node exactly when it is RUNNING and is a duplicate otherwise |
| `CompletionSteps.ProcessFailure` | app/services/task_completion_service.py:146-178 | a delivered failure is a duplicate exactly when the attempt has failed before; otherwise it schedules a retry below the limit and settles the node at it |
| `CompletionSteps.DoomedHasFailedDependency` | app/domain/dag/failure.py:24-52 | a node failed by propagation has a FAILED dependency afterwards |
| `DispatchSteps.DispatchNeverFails` | app/services/node_task_dispatcher.py:108-127 | a loaded node still has only completed dependencies when its dispatch comes to act |
| `DispatchSteps.DispatchStepKeepsInv` | app/services/node_task_dispatcher.py:84-200 | dispatch keeps the whole invariant |
| `WorkerSteps.RecordKeepsInv` | app/worker/task_processor.py:149-199 | recording a result keeps the whole invariant: its output is the evaluated one |
| `WorkerSteps.ClaimKeepsInv` | app/worker/task_processor.py:338-365 | claiming keeps the whole invariant, leases included |
| `WorkerSteps.RenewKeepsInv` | app/worker/task_processor.py:201-228 | renewing a claim keeps the whole invariant, leases included |
| `MemorySteps.ReplayedEventIsRecorded` | app/worker/task_processor.py:253-336 | a replayed event is one that was recorded before |
| `ExecutionInvariants.ConcludeKeepsInv` | app/services/task_completion_service.py:179-296 | settling a node keeps the order of execution, the propagation of failure and the agreement of the execution status, and moves along declared transitions |
| `ExecutionInvariants.FinalizeAgrees` | app/services/workflow_finalization_service.py:48-117 | finalization makes the execution status agree with the nodes |
| `ExecutionInvariants.FailedReaches` | app/services/task_completion_service.py:220-239 | after propagation no node with a FAILED dependency is PENDING |
| `AttemptLedger.ClaimKeepsLedger` | app/infrastructure/persistence/repositories/task_attempt_processing_repository.py:28-76 | claiming keeps the attempt ledger: chain, recorded results and retry rows |
| `AttemptLedger.RenewKeepsLedger` | app/infrastructure/persistence/repositories/task_attempt_processing_repository.py:132-146 | renewing keeps the ledger |
| `AttemptLedger.RecordResultKeepsLedger` | app/infrastructure/persistence/repositories/task_attempt_processing_repository.py:78-100 | recording a fresh event keeps the ledger extended by it |
| `AttemptLedger.MarkCompletedKeepsLedger` | app/infrastructure/persistence/repositories/task_attempt_processing_repository.py:116-130 | marking completed keeps the ledger |
| `AttemptLedger.SuccessIsNeverNews` | app/infrastructure/persistence/repositories/task_retry_repository.py:31-63 | a recorded success always takes the early return: the worker has stored the same event |
| `AttemptLedger.FailureNews` | app/infrastructure/persistence/repositories/task_retry_repository.py:84-108 | a recorded failure is news exactly when the attempt has no failure event |
| `AttemptLedger.RecordFailureKeepsLedger` | app/infrastructure/persistence/repositories/task_retry_repository.py:65-152 | recording a failure succeeds and keeps the ledger, whether it schedules a retry or exhausts the task |
| `AttemptLedger.RegisterKeepsLedger` | app/infrastructure/persistence/repositories/task_retry_repository.py:154-199 | registering a new task with its first attempt keeps the ledger |
| `AttemptLedger.MarkRetryPublishedKeepsLedger` | app/infrastructure/persistence/repositories/task_retry_repository.py:233-252 | marking a retry published keeps the ledger |
| `Database.Session.Submit` | app/infrastructure/persistence/repositories/workflow_execution_repository.py:23-34 | a submission starts with everything the transactions keep true: the order and status invariant of the execution and an empty attempt ledger; ready are exactly the nodes without dependencies |
| `Database.Session.RecordSuccess` | app/infrastructure/persistence/repositories/task_retry_repository.py:31-63 | what a worker has recorded is never news: the call takes the early return and changes nothing; a repeated call changes nothing either |
| `Database.Session.RecordFailure` | app/infrastructure/persistence/repositories/task_retry_repository.py:65-152 | a recorded failure is accepted, keeps the attempt ledger, and is a duplicate exactly when the attempt has failed before; a repeated call is a duplicate that changes nothing |
| `Database.Session.RegisterInitialTask` | app/infrastructure/persistence/repositories/task_retry_repository.py:154-199 | inserts task and first attempt unless they exist and returns the attempt in use |
| `Database.Session.MarkRetryPublished` | app/infrastructure/persistence/repositories/task_retry_repository.py:233-252 | the retry is due at no time any more, every other retry is due as before, no claim is touched and the ledger is kept |
| `Database.Session.ClaimAttempt` | app/infrastructure/persistence/repositories/task_attempt_processing_repository.py:28-76 | a granted claim was free before, belongs to the worker, and nobody is granted the attempt again before it expires; every other outcome changes nothing; the ledger is kept |
| `Database.Session.RecordResult` | app/infrastructure/persistence/repositories/task_attempt_processing_repository.py:78-100 | a recorded event can be replayed as itself by any delivery of its task, no other event can be recorded for the attempt, and the ledger is extended by exactly this event |
| `Database.Session.MarkCompleted` | app/infrastructure/persistence/repositories/task_attempt_processing_repository.py:116-130 | every later delivery finds the attempt completed, the stored result stays what it was, and the ledger is kept |
| `Database.Session.RenewClaim` | app/infrastructure/persistence/repositories/task_attempt_processing_repository.py:132-146 | only the holder renews, nobody else is granted the attempt before the new expiry, and the ledger is kept |
| `Database.Session.UpdateNodeIfCurrent` | app/infrastructure/persistence/repositories/node_execution_repository.py:85-121 | compare and set: changes the row exactly when it has the expected status, and only the given columns |
| `Database.Session.ClaimPendingNode` | app/infrastructure/persistence/repositories/node_execution_repository.py:123-145 | a node is claimed exactly when it is PENDING |
| `Database.Session.FailPendingNodes` | app/infrastructure/persistence/repositories/node_execution_repository.py:147-174 | exactly the PENDING rows among the given ones fail and are returned |
| `Database.Session.UpdateExecutionIfCurrent` | app/infrastructure/persistence/repositories/workflow_execution_repository.py:80-108 | compare and set of the execution status |
| `OutboxLedger.AppendKeepsOutboxInv` | app/infrastructure/persistence/repositories/outbox_event_repository.py:20-38 | messages about what has just happened, none of it announced before, keep the outbox in one-to-one correspondence with what has happened |
| `Database.Session.Trigger` | app/services/workflow_trigger_service.py:29-64 | a pending execution starts running with its input and one outbox message; any other is refused unchanged |
| `Database.Session.Finalize` | app/services/workflow_finalization_service.py:48-117 | has the effect of the finalization function proved to make the status agree with the nodes |
| `Database.Session.Dispatch` | app/services/node_task_dispatcher.py:84-200 | has the effect of the dispatch transaction: failed dependency, resolution error, already started, or claim with task, attempt and outbox row |
| `Database.Session.FailDependants` | app/services/task_completion_service.py:220-261 | fails exactly the nodes of the least propagation set and announces each of them once |
| `Database.Session.Conclude` | app/services/task_completion_service.py:179-296 | settles the node, propagates, announces, evaluates readiness and finalizes, or rejects |
| `Database.Session.Process` | app/services/task_completion_service.py:96-296 | has exactly the effect of the completion transaction; an error rolls every row back |
| `Refusals.EventRefused` | app/services/task_completion_service.py:103-178 | which events are refused, with which error |
| `Refusals.EventAccepted` | app/services/task_completion_service.py:103-218 | an event that can be recorded and concerns a started node is accepted |
| `Refusals.ReadyAfter` | app/services/task_completion_service.py:274-296 | the ready list a completion returns: the nodes that are pending with completed dependencies after a processed success, and nothing in every other case |
| `Refusals.FailureRefusedIff` | app/infrastructure/persistence/repositories/task_retry_repository.py:65-97 | a failure is refused exactly when the limit is not positive, or it is new and the attempt is not one of the known task |
| `Refusals.SuccessOutcomeIs` | app/infrastructure/persistence/repositories/task_retry_repository.py:31-63 | when a success is news, refused or neither, and what it changes, for arbitrary rows |
| `Refusals.NotedFailureIs` | app/infrastructure/persistence/repositories/task_retry_repository.py:65-152 | a failure that is news fails the attempt under its event, and at the limit its task with that error; below the limit it schedules the attempt with the next number for the given time; one that is not news changes nothing |
| `Refusals.MarkingIs` | app/infrastructure/persistence/repositories/task_retry_repository.py:233-252 | a retry is marked exactly when it waits to be sent, and its attempt is queued exactly if it is still scheduled |
| `Refusals.ClaimOutcomeIs` | app/infrastructure/persistence/repositories/task_attempt_processing_repository.py:28-76 | when a claim is refused and which outcome it has, for arbitrary rows and messages |
| `Refusals.RowChangesAre` | app/infrastructure/persistence/repositories/task_attempt_processing_repository.py:57-146 | which columns of the one attempt a granted claim, a recorded result, a completion and a renewal set, and when the last three are refused, for arbitrary rows |
| `Refusals.DispatchOutcomeIs` | app/services/node_task_dispatcher.py:105-184 | what dispatch does with a failed dependency, an unresolvable template, a pending and a started node, for arbitrary rows |
| `Refusals.TriggerOutcomeIs` | app/services/workflow_trigger_service.py:29-64 | the execution row and the outbox after a trigger |
| `ExecutionTables.PendingAmongAll` | app/infrastructure/persistence/repositories/node_execution_repository.py:147-174 | when all listed nodes are pending, all of them are updated and returned in order |
| `CycleDetection.Explore` | app/domain/validation/rules/cycles.py:44-90 | one depth-first search from a start node keeps frames, stack index, active and visited sets consistent, terminates, and reports only genuine cycles |
| `CycleDetection.DetectCycles` | app/domain/validation/rules/cycles.py:36-92 | no error is reported exactly when the graph is acyclic, and every reported path is a closed walk along dependency edges |
| `Graphs.TopologicalIsAcyclic` | app/domain/validation/rules/cycles.py:36-92 | a graph whose nodes finish in dependency order has no cycle |
| `Graphs.AcyclicHasTopologicalOrder` | app/domain/validation/rules/cycles.py:36-92 | an acyclic graph can be ordered so that dependencies come first, the measure behind evaluation and no deadlock |
| `DefinitionRules.CheckNodeIds` | app/domain/validation/rules/node_ids.py:16-33 | exactly the nodes with an invalid identifier are reported |
| `DefinitionRules.CheckUniqueIds` | app/domain/validation/rules/node_ids.py:36-55 | a node is reported exactly when it shares a valid identifier with another |
| `DefinitionRules.CheckDependencies` | app/domain/validation/rules/dependencies.py:15-67 | reports the unknown, self-referring and repeated dependencies in order |
| `DefinitionRules.ReportedWhereWrong` | app/domain/validation/rules/dependencies.py:26-66 | a fault is reported at a position exactly when that is what is wrong there: no node has the identifier, it is the node itself, or it was listed before |
| `DefinitionRules.CheckCycles` | app/domain/validation/rules/cycles.py:17-92 | the rule reports nothing exactly when the graph it builds is acyclic |
| `DefinitionRules.RuleGraphMeans` | app/domain/validation/rules/cycles.py:18-36 | the graph that is searched has the identifiers defined exactly once as nodes and, as edges, the declared dependencies that are other such identifiers |
| `DefinitionRules.Validate` | app/domain/validation/validator.py:24-28 | a definition passes the four modelled rules exactly when it is acceptable: valid unique identifiers, known and unrepeated dependencies, no cycle; what passes is what the protocol theorems require of a workflow |
| `Traversal.BuildDag` | app/domain/dag/graph.py:82-114 | the dependants of a node are exactly the nodes that depend on it, in definition order, and roots and terminals are those without dependencies and dependants |
| `Traversal.DependantsInOrder` | app/domain/dag/graph.py:82-114 | dependants come in the order of the definition |
| `Traversal.EvaluateReady` | app/domain/dag/readiness.py:19-38 | the ready list is the one whose members the next row describes |
| `Traversal.ReadyById` | app/domain/dag/readiness.py:19-38 | a node is ready exactly when it is PENDING and all its dependencies are COMPLETED |
| `Traversal.ReadyInOrder` | app/domain/dag/readiness.py:19-38 | the ready list keeps the order of the definition |
| `Traversal.EvaluateFailedDependencies` | app/domain/dag/failure.py:24-52 | the search returns, in definition order and without repetition, exactly the PENDING nodes reachable from a FAILED node through PENDING nodes |
| `Traversal.SelectInOrder` | app/domain/dag/failure.py:47-52 | the result keeps the order of the definition |
| `Traversal.PropagationCloses` | app/domain/dag/failure.py:24-52 | once those nodes have failed, no PENDING node has a FAILED dependency |
| `Traversal.PropagationIsLeast` | app/domain/dag/failure.py:24-52 | every set of nodes that closes failures contains them |
| `Traversal.PropagationIsIdempotent` | app/domain/dag/failure.py:24-52 | a second evaluation returns nothing |
| `TemplateParser.CoveredIsBalanced` | app/domain/templates/parser.py:59-68 | every delimiter lies inside a match exactly when no literal text contains one |
| `TemplateParser.SkippedIsCovered` | app/domain/templates/parser.py:68-68 | an occurrence that the step of two skips lies inside the same match |
| `TemplateParser.DelimitersCovered` | app/domain/templates/parser.py:59-68 | the search in steps of two misses no unmatched delimiter |
| `TemplateParser.ValidateDelimiters` | app/domain/templates/parser.py:59-68 | accepts exactly when every delimiter position lies inside a match |
| `TemplateParser.CollectSegments` | app/domain/templates/parser.py:47-56 | the cursor loop collects the segments of the cut string, or fails on a malformed reference |
| `TemplateParser.ParseTemplate` | app/domain/templates/parser.py:36-56 | the parser computes the declarative meaning of every string, rejections included |
| `TemplateRoundTrip.ScanTiles` | app/domain/templates/parser.py:47-56 | the pieces of a string, put together again, are the string: no gap and no overlap |
| `TemplateRoundTrip.ScanAlternates` | app/domain/templates/parser.py:47-56 | literals are not empty, do not follow each other, and do not end in an opening brace before a reference |
| `TemplateRoundTrip.ParsedIsCanonical` | app/domain/templates/parser.py:36-81 | on every accepted string with templates the literals hold no delimiter and the references are valid |
| `TemplateRoundTrip.ReferenceRoundTrip` | app/domain/templates/parser.py:71-81 | a printed reference is read back as itself |
| `ReferenceGrammar.Grammar` | app/domain/templates/parser.py:8-14 | an expression denotes a reference exactly when the reference is valid and the expression is its names, each with any white space around it, joined by dots |
| `ReferenceGrammar.CharacterClasses` | app/domain/templates/parser.py:8-14 | the characters of names and of white space, by code point |
| `ReferenceGrammar.NamesAre` | app/domain/templates/parser.py:8-14 | names start with a letter and hold name characters only; parts of a path are names or digits only |
| `TemplateRoundTrip.PrintThenParse` | app/domain/templates/parser.py:36-81 | every canonical segment list with a reference is read back after printing |
| `TemplateRoundTrip.ParseRoundTrip` | app/domain/templates/parser.py:36-81 | parsing, printing and parsing again gives the same result for every accepted string |
| `ResolverProofs.FollowReference` | app/services/templates/resolver.py:71-103 | the loop finds the value at the path, or nothing when a step is missing |
| `ReferenceMeaning.LookupMeans` | app/services/templates/resolver.py:71-103 | a reference yields a value exactly when the value stands at the end of its path, each step taking the field of that name or the item at the position the key denotes in decimal notation |
| `ReferenceMeaning.ListItems` | app/services/templates/resolver.py:94-99 | behind a path that leads to a list, a key yields item i exactly when it is a digit string that denotes i, and nothing otherwise |
| `ReferenceMeaning.PathInParts` | app/services/templates/resolver.py:83-103 | following a path in two parts is following it in turn |
| `ReferenceMeaning.NumberReadsBack` | app/services/templates/resolver.py:127-128 | the text of a number denotes that number and has no leading zero |
| `ReferenceMeaning.RenderingMeans` | app/services/templates/resolver.py:115-132 | how null, booleans, strings and numbers appear inside text, and that lists and objects do not |
| `ReferenceMeaning.ResolutionMeans` | app/services/templates/resolver.py:39-132 | what resolution yields is what the value stands for: lists item by item, objects field by field, strings themselves, the value they refer to, or the text of their parts in order |
| `ResolverProofs.ResolutionIsLocal` | app/services/templates/resolver.py:46-69 | two sets of outputs that agree on the nodes a value refers to resolve it alike |
| `ResolverProofs.NodeInputIsLocal` | app/services/templates/resolver.py:24-37 | the input of a node depends on the outputs its configuration names and on nothing else |
| `ResolverProofs.TemplateFreeIsUnchanged` | app/services/templates/resolver.py:39-57 | a value without delimiters comes back unchanged, at any nesting |
| `ResolverProofs.ResolutionSucceeds` | app/services/templates/resolver.py:46-132 | a value resolves exactly when every string in it is well formed, all references lead somewhere and embedded ones lead to scalars |
| `ResolverProofs.WholeReferenceYieldsValue` | app/services/templates/resolver.py:65-68 | a string that is exactly one reference, however spaced, becomes the referenced value itself |
| `ResolverProofs.InterpolateConcat` | app/services/templates/resolver.py:105-113 | segments are rendered independently, so substituted text joins nothing into a new template |
| `ResolverProofs.SubstitutedVerbatim` | app/services/templates/resolver.py:105-132 | a substituted string stands verbatim between its surroundings, whatever it contains |
| `ResolverProofs.SecondPassIsHarmlessIff` | app/services/templates/resolver.py:46-69 | resolving a value again leaves it unchanged for all outputs exactly when no string in it holds a delimiter, and resolving it without outputs decides that |
| `ResolverProofs.OutputsAreNotTemplates` | app/services/templates/resolver.py:59-69 | the witness for the row above: an output that is a template is handed over unresolved, while resolving it would change it |
| `OutboxPublishing.Publisher.PublishPending` | app/messaging/outbox_publisher.py:26-61 | for any answers of Redis and any crash: the accepted prefix is sent in order and marked, the failing row has its error, the rest is untouched; without a commit no row changes |
| `OutboxPublishing.Publisher.CleanupPublished` | app/messaging/outbox_publisher.py:63-93 | deletes exactly the selected rows, all published and past the cutoff; bad arguments change nothing |
| `OutboxPublishing.NothingIsLost` | app/messaging/outbox_publisher.py:26-93 | over any history of writes, publications, failures, crashes and cleanups every message ever written waits in the table or has reached its stream, and nothing else is sent |
| `OutboxPublishing.SentToItsStream` | app/messaging/outbox_publisher.py:45-49 | in every history what was sent was written and was sent to the stream its message names, or to workflow.events if it names none |
| `OutboxPublishing.WaitsOrArrived` | app/messaging/outbox_publisher.py:26-61 | in every history a message that was written waits unpublished or was sent to that stream |
| `OutboxPublishing.PublicationMarks` | app/messaging/outbox_publisher.py:50-60 | the columns of the rows that were sent and of the row that was refused; these are stored unless the process dies |
| `OutboxPublishing.BatchesOfAHundred` | app/messaging/outbox_publisher.py:36-42 | a batch holds the hundred oldest waiting unlocked rows, or all of them |
| `OutboxPublishing.SentOldestFirst` | app/messaging/outbox_publisher.py:36-61 | one publication sends different waiting unlocked rows, older ones first, each with the message of its row |
| `OutboxPublishing.CleanupMeans` | app/messaging/outbox_publisher.py:75-93 | which rows are deleted and which are not |
| `OutboxRows.WrittenForItsReaders` | app/infrastructure/persistence/repositories/outbox_event_repository.py:20-63 | a task and nothing else is written for the task stream, and which kinds the messages have |
| `OutboxRows.PublisherAgrees` | app/messaging/outbox_publisher.py:26-61 | a message reaches the task stream by the publisher exactly when the publication step of the step system puts it there |
| `OutboxPublishing.PublicationIsConfined` | app/messaging/outbox_publisher.py:45-61 | only the sent prefix and the failing row change, the latter in attempts and error only; published and locked rows never |
| `OutboxPublishing.QuietPublicationDrains` | app/messaging/outbox_publisher.py:36-61 | a publication without failure below its limit leaves no unlocked row waiting |
| `OutboxPublishing.ExactlyOnceIffClean` | app/messaging/outbox_publisher.py:26-61 | over any history every message is sent at most once, and never while it waits, exactly when every publication was clean: it committed and an unaccepted message was not stored, or it did not commit and nothing was stored |
| `OutboxPublishing.MayBeSentTwice` | app/messaging/outbox_publisher.py:26-33 | for any message there is a history that sends it twice: the publisher dies once the stream has stored it |
| `RetryPublishing.PublishDueRetries` | app/services/node_task_dispatcher.py:202-238 | with arbitrary changes of the tables by other processes before every action and cut off at any action, the loop has sent a prefix of the list and marked that prefix or all but its last; it returns the number of marks that took effect |
| `RetryPublishing.DyingLosesNothing` | app/services/node_task_dispatcher.py:202-238 | wherever the loop dies, a due retry has been sent by it, is still due, or was seen to by another process |
| `RetryPublishing.ListedAreDone` | app/infrastructure/persistence/repositories/task_retry_repository.py:201-252 | after the whole loop no listed retry is due at any time, as long as no process takes marks off |
| `TaskWorker.Processor.Process` | app/worker/task_processor.py:62-106 | one delivery, with arbitrary changes of the tables by other processes before every action and cut off at any action, leaves the rows, the published events and the acknowledgement that the rows above and below speak of |
| `TaskWorker.Processor.PublishCompleteAndAck` | app/worker/task_processor.py:265-306 | whatever other processes do before each action: nothing is published, marked or acknowledged out of order, and the delivery is acknowledged exactly when it lives and its worker itself finds the result still recorded when it comes to mark it |
| `TaskWorker.ReplayRepeatsEvent` | app/worker/task_processor.py:253-336 | a recorded result is replayed as the event that was recorded, and no other can be recorded |
| `TaskWorker.RedeliveryCompletes` | app/worker/task_processor.py:62-106 | wherever a worker dies and whether or not the orchestrator notes what it published, the redelivery is acknowledged; both workers publish one event, exactly unless a published and unmarked failure was noted before the second claim, and then each publishes its own |
| `TaskWorker.AcknowledgementMeans` | app/worker/task_processor.py:84-106 | with the orchestrator noting the event before or after its marking: a delivery publishes its own event when the claim is granted, the stored one when a result is recorded, nothing otherwise; it is acknowledged exactly unless it dies or its failure is noted before it is marked; an acknowledged delivery leaves a completed attempt exactly unless another worker held the claim or its failure was noted between marking and acknowledgement |
| `TaskWorker.AcknowledgedIff` | app/worker/task_processor.py:62-106 | under arbitrary interference a delivery publishes exactly the event it recorded or read, and is acknowledged exactly when it has nothing to do, or when it lives and the result is still recorded when its worker comes to mark it |
| `TaskWorker.MarkedFirst` | app/worker/task_processor.py:265-306 | a worker that replays a result and marks it first keeps the one that recorded it from acknowledging, also for a success |
| `TaskWorker.NotingMeans` | app/infrastructure/persistence/repositories/task_retry_repository.py:31-152 | noting an event whose outcome the row holds marks the attempt failed exactly when it is a failure that is news, and changes nothing otherwise |
| `TaskWorker.AcknowledgedWithoutResult` | app/worker/task_processor.py:84-100 | a delivery acknowledged without a result, since another worker holds the claim |
| `TaskWorker.FailedAttemptMaySucceed` | app/infrastructure/persistence/repositories/task_attempt_processing_repository.py:57-64 | on any tables, an attempt whose failure was noted can be claimed again and store a success beside it |
| `Anomalies.FailureMayFollowSuccess` | app/infrastructure/persistence/repositories/task_attempt_processing_repository.py:57-64 | for every system and every node that can start there is a reachable state in which the attempt has recorded a success and the publication of its earlier failure is enabled |
| `Anomalies.TaskMayRunTwice` | app/infrastructure/persistence/repositories/task_attempt_processing_repository.py:57-76 | for every system that retries and every node that can start there is a reachable state in which two workers hold unexpired claims on two attempts of one task and run both |
| `Anomalies.TaskHeldTwiceIffRetried` | app/infrastructure/persistence/repositories/task_attempt_processing_repository.py:57-76 | for every valid system, a reachable state with unexpired claims on two attempts of one task exists exactly when more than one attempt is permitted and some node can start on some input |
| `Anomalies.StaleWorkerMayRecord` | app/infrastructure/persistence/repositories/task_attempt_processing_repository.py:78-100 | for every system and every node that can start there is a reachable state in which one worker holds an unexpired claim and another, whose claim has lapsed, can record any result of its handler |
| `Anomalies.NamedUntilNextGrant` | app/infrastructure/persistence/repositories/task_attempt_processing_repository.py:57-76 | from its last grant on, the row names a worker exactly as long as nobody else is granted the attempt, in any run |

## Left out

- HTTP routes, schemas, logging, signal handling, migrations and deployment files: no property beyond plumbing.
- The consumers' read and acknowledge loops, the stream groups and the reclaiming of idle messages: a delivery is any message a stream was ever given, which allows more behaviour than the loops do.
- Liveness: a ready list lost in a crash between completion and dispatch is not recovered by the code; what is proved is safety and the absence of deadlock in states.
- Malformed task messages, dead letters and events without error information: parsing of stream fields.
- The field, handler and configuration rules and definitions whose nodes or dependencies are not lists of objects: shape checks settled by one branch each.
- JSON text, floating point numbers, NaN and infinity: JSON numbers are integers, delays exact reals.
- Unicode decimal digits and the digit limit of integer conversion in list positions: paths hold ASCII digits only.
- Error texts of template resolution: failure is one case without its message.
- The layout of stream fields made by the outbox publisher: a delivery carries the stream, the key and the message as a whole.
- Rows of other executions in the shared tables: the step system follows one execution.
- The created, started and completed timestamps of rows and the order of rows returned by an update: no decision depends on them.
- The older per-task claim path and the branches without a unit of work or a retry repository: not used by the deployed processes.
- DefinitionRules.Validate: covers the identifier, uniqueness, dependency and cycle rules; the field, handler and configuration rules are shape checks settled by one branch each.
- TaskWorker.RedeliveryCompletes: between the two deliveries only the noting of the first worker's event is considered; all other interleavings are those of Theorems.OneEventUntilFailureIsNoted.
