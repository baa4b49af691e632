/** The logical_tasks, task_attempts and task_retry_dispatches tables, the events workers
    report, and the transactions of the two repositories that update these rows: the
    orchestrator's retry repository and the worker's attempt repository. */
module TaskTables {
  import opened Wrappers
  import opened JsonValues

  // ---------- Identifiers and messages ----------

  // Random identifiers. A version 5 identifier is the value it is derived from.
  type Uuid = nat
  type Time = real
  type Worker = string

  datatype TaskId = TaskId(execution: Uuid, node: string)

  function CreateTaskId(execution: Uuid, node: string): TaskId { TaskId(execution, node) }

  datatype TaskError = TaskError(message: string, kind: string)

  datatype Outcome = Succeeded(output: Json) | Errored(error: TaskError)

  /** A worker-reported terminal outcome of one attempt. */
  datatype Event = Event(id: Uuid, task: TaskId, attempt: Uuid, number: nat, execution: Uuid, node: string,
                         outcome: Outcome)

  /** A task as it is put on the task stream. */
  datatype TaskMessage = TaskMessage(task: TaskId, attempt: Uuid, number: nat, execution: Uuid, node: string,
                                     handler: string, config: map<string, Json>, input: map<string, Json>)

  // ---------- Rows ----------

  datatype TaskStatus = TaskRunning | TaskRetryScheduled | TaskCompleted | TaskFailed

  datatype TaskRow = TaskRow(execution: Uuid, node: string, handler: string, config: map<string, Json>,
                             input: map<string, Json>, status: TaskStatus, finalError: Option<TaskError>)

  datatype AttemptStatus = Started | Scheduled | Queued | Claimed | ResultRecorded | Done | Broken

  datatype AttemptRow = AttemptRow(task: TaskId, number: nat, status: AttemptStatus,
                                   failureEvent: Option<Uuid>, completionEvent: Option<Uuid>,
                                   result: Json, errorMessage: Option<string>, errorKind: Option<string>,
                                   claimedBy: Option<Worker>, claimExpiresAt: Option<Time>)

  datatype DispatchRow = DispatchRow(availableAt: Time, published: bool)

  datatype Tables = Tables(tasks: map<TaskId, TaskRow>, attempts: map<Uuid, AttemptRow>,
                           dispatches: map<Uuid, DispatchRow>)

  datatype StoreError =
    | AttemptNotFound | AttemptMismatch | NotClaimed | NothingToReplay | NotRecorded | InvalidLimit
    | IncompleteError

  function NewAttempt(task: TaskId, number: nat, status: AttemptStatus): AttemptRow {
    AttemptRow(task, number, status, None, None, Null, None, None, None, None)
  }

  // ---------- The orchestrator's side: task_retry_repository ----------

  predicate Belongs(t: Tables, task: TaskId, attempt: Uuid) {
    attempt in t.attempts && t.attempts[attempt].task == task
  }

  /** Whether the orchestrator still has to take note of the success of this attempt. */
  predicate SuccessIsNews(a: AttemptRow, event: Uuid) {
    && a.completionEvent != Some(event)
    && !((a.status.Done? || a.status.Broken?) && a.completionEvent.Some?)
  }

  function AfterSuccess(t: Tables, task: TaskId, attempt: Uuid, event: Uuid): Tables
    requires task in t.tasks && attempt in t.attempts
  {
    t.(attempts := t.attempts[attempt := t.attempts[attempt].(status := Done, completionEvent := Some(event))],
       tasks := t.tasks[task := t.tasks[task].(status := TaskCompleted)])
  }

  function RecordSuccess(t: Tables, task: TaskId, attempt: Uuid, event: Uuid): Result<(bool, Tables), StoreError> {
    if task !in t.tasks then Ok((true, t))
    else if !Belongs(t, task, attempt) then Err(AttemptMismatch)
    else if !SuccessIsNews(t.attempts[attempt], event) then Ok((false, t))
    else Ok((true, AfterSuccess(t, task, attempt, event)))
  }

  datatype RetryDecision = Duplicate | Exhausted | RetryScheduled(attempt: Uuid, number: nat)

  predicate FailureKnown(t: Tables, event: Uuid) {
    exists a :: a in t.attempts && t.attempts[a].failureEvent == Some(event)
  }

  predicate FailureIsNews(a: AttemptRow, event: Uuid) {
    a.failureEvent.None? && !(a.status.Done? && a.completionEvent != Some(event))
  }

  function MarkBroken(t: Tables, attempt: Uuid, event: Uuid, error: TaskError): Tables
    requires attempt in t.attempts
  {
    t.(attempts := t.attempts[attempt := t.attempts[attempt].(
      status := Broken, failureEvent := Some(event),
      errorMessage := Some(error.message), errorKind := Some(error.kind))])
  }

  function AfterExhausted(t: Tables, task: TaskId, attempt: Uuid, event: Uuid, error: TaskError): Tables
    requires task in t.tasks && attempt in t.attempts
  {
    MarkBroken(t, attempt, event, error).(
      tasks := t.tasks[task := t.tasks[task].(status := TaskFailed, finalError := Some(error))])
  }

  function AfterRetry(t: Tables, task: TaskId, attempt: Uuid, event: Uuid, error: TaskError, next: Uuid,
                      retryAt: Time): Tables
    requires task in t.tasks && attempt in t.attempts
  {
    var broken := MarkBroken(t, attempt, event, error);
    broken.(
      attempts := broken.attempts[next := NewAttempt(task, t.attempts[attempt].number + 1, Scheduled)],
      dispatches := t.dispatches[next := DispatchRow(retryAt, false)],
      tasks := t.tasks[task := t.tasks[task].(status := TaskRetryScheduled)])
  }

  /** `next` is the random identifier of the attempt to insert. */
  function RecordFailure(t: Tables, task: TaskId, attempt: Uuid, event: Uuid, error: TaskError, maxAttempts: int,
                         retryAt: Time, next: Uuid): Result<(RetryDecision, Tables), StoreError>
  {
    if maxAttempts < 1 then Err(InvalidLimit)
    else if task !in t.tasks then Ok((Exhausted, t))
    else if FailureKnown(t, event) then Ok((Duplicate, t))
    else if !Belongs(t, task, attempt) then Err(AttemptMismatch)
    else if !FailureIsNews(t.attempts[attempt], event) then Ok((Duplicate, t))
    else if t.attempts[attempt].number >= maxAttempts then
      Ok((Exhausted, AfterExhausted(t, task, attempt, event, error)))
    else
      Ok((RetryScheduled(next, t.attempts[attempt].number + 1), AfterRetry(t, task, attempt, event, error, next, retryAt)))
  }

  predicate HasFirstAttempt(t: Tables, task: TaskId) {
    exists a :: a in t.attempts && t.attempts[a].task == task && t.attempts[a].number == 1
  }

  ghost function FirstAttempt(t: Tables, task: TaskId): Uuid
    requires HasFirstAttempt(t, task)
  {
    var a :| a in t.attempts && t.attempts[a].task == task && t.attempts[a].number == 1;
    a
  }

  /** Inserts the logical task and its first attempt unless they exist. Returns the attempt in use. */
  ghost function RegisterInitialTask(t: Tables, task: TaskId, row: TaskRow, attempt: Uuid): (Uuid, Tables) {
    var withTask := if task in t.tasks then t else t.(tasks := t.tasks[task := row]);
    if HasFirstAttempt(withTask, task) then (FirstAttempt(withTask, task), withTask)
    else (attempt, withTask.(attempts := withTask.attempts[attempt := NewAttempt(task, 1, Started)]))
  }

  predicate DueRetry(t: Tables, attempt: Uuid, at: Time) {
    && attempt in t.attempts && attempt in t.dispatches
    && t.attempts[attempt].task in t.tasks
    && !t.dispatches[attempt].published && t.dispatches[attempt].availableAt <= at
    && t.attempts[attempt].status.Scheduled?
  }

  /** The task message of an attempt, as its logical task describes it. */
  function MessageFor(t: Tables, attempt: Uuid): TaskMessage
    requires attempt in t.attempts && t.attempts[attempt].task in t.tasks
  {
    var a := t.attempts[attempt];
    var row := t.tasks[a.task];
    TaskMessage(a.task, attempt, a.number, row.execution, row.node, row.handler, row.config, row.input)
  }

  function GetDueRetries(t: Tables, at: Time): set<TaskMessage> {
    set a | a in t.attempts && DueRetry(t, a, at) :: MessageFor(t, a)
  }

  function MarkRetryPublished(t: Tables, attempt: Uuid): (bool, Tables) {
    if attempt !in t.dispatches || t.dispatches[attempt].published then (false, t)
    else
      var dispatched := t.(dispatches := t.dispatches[attempt := t.dispatches[attempt].(published := true)]);
      if attempt in t.attempts && t.attempts[attempt].status.Scheduled? then
        (true, dispatched.(attempts := t.attempts[attempt := t.attempts[attempt].(status := Queued)]))
      else (true, dispatched)
  }

  // ---------- The worker's side: task_attempt_processing_repository ----------

  datatype ClaimOutcome = ClaimGranted | CurrentlyClaimed | ResultAvailable | AlreadyCompleted

  // A claim without an expiry time never lapses.
  predicate HeldAt(a: AttemptRow, at: Time) {
    a.claimedBy.Some? && (a.claimExpiresAt.None? || a.claimExpiresAt.value > at)
  }

  function ClaimAttempt(t: Tables, m: TaskMessage, worker: Worker, at: Time, expiresAt: Time)
    : Result<(ClaimOutcome, Tables), StoreError>
  {
    if m.attempt !in t.attempts then Err(AttemptNotFound)
    else if m.task !in t.tasks || t.attempts[m.attempt].task != m.task
            || t.tasks[m.task].execution != m.execution || t.tasks[m.task].node != m.node then Err(AttemptMismatch)
    else
      var a := t.attempts[m.attempt];
      if a.status.Done? then Ok((AlreadyCompleted, t))
      else if a.status.ResultRecorded? then Ok((ResultAvailable, t))
      else if HeldAt(a, at) then Ok((CurrentlyClaimed, t))
      else Ok((ClaimGranted, t.(attempts := t.attempts[m.attempt := a.(
        status := Claimed, claimedBy := Some(worker), claimExpiresAt := Some(expiresAt))])))
  }

  function MessageOf(o: Outcome): Option<string> {
    if o.Errored? then Some(o.error.message) else None
  }

  function KindOf(o: Outcome): Option<string> {
    if o.Errored? then Some(o.error.kind) else None
  }

  function OutputOf(o: Outcome): Json {
    if o.Succeeded? then o.output else Null
  }

  function RecordResult(t: Tables, e: Event): Result<Tables, StoreError> {
    if e.attempt !in t.attempts || !t.attempts[e.attempt].status.Claimed? then Err(NotClaimed)
    else Ok(t.(attempts := t.attempts[e.attempt := t.attempts[e.attempt].(
      status := ResultRecorded, result := OutputOf(e.outcome), errorMessage := MessageOf(e.outcome),
      errorKind := KindOf(e.outcome), completionEvent := Some(e.id))]))
  }

  /** The completion event a worker replays from a stored result. */
  function EventFromResult(m: TaskMessage, a: AttemptRow): Result<Event, StoreError> {
    if a.completionEvent.None? then Err(NothingToReplay)
    else if a.errorMessage.None? && a.errorKind.None? then
      Ok(Event(a.completionEvent.value, m.task, m.attempt, m.number, m.execution, m.node, Succeeded(a.result)))
    else if a.errorMessage.None? || a.errorKind.None? then Err(IncompleteError)
    else
      Ok(Event(a.completionEvent.value, m.task, m.attempt, m.number, m.execution, m.node,
               Errored(TaskError(a.errorMessage.value, a.errorKind.value))))
  }

  function MarkCompleted(t: Tables, attempt: Uuid): Result<Tables, StoreError> {
    if attempt !in t.attempts || !t.attempts[attempt].status.ResultRecorded? then Err(NotRecorded)
    else Ok(t.(attempts := t.attempts[attempt := t.attempts[attempt].(status := Done, claimExpiresAt := None)]))
  }

  function RenewClaim(t: Tables, attempt: Uuid, worker: Worker, expiresAt: Time): (bool, Tables) {
    if attempt in t.attempts && t.attempts[attempt].status.Claimed? && t.attempts[attempt].claimedBy == Some(worker) then
      (true, t.(attempts := t.attempts[attempt := t.attempts[attempt].(claimExpiresAt := Some(expiresAt))]))
    else (false, t)
  }
}
