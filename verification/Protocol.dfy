/** The orchestration protocol of one execution as a step system. Every database transaction is
    one step, and so is every message put on a stream. Streams keep what they were ever given, so
    a message may be delivered any number of times and at any later point; what a process holds in
    memory between two steps is part of the state, and a crash is the absence of its next step. */
module Protocol {
  import opened Wrappers
  import opened JsonValues
  import opened Definitions
  import opened Graphs
  import opened Traversal
  import opened TaskTables
  import opened RetryPolicies
  import opened ExecutionTables

  type Handler = (string, map<string, Json>, map<string, Json>) -> Json

  /** A definition, the settings of the processes, what handlers compute when they succeed, and
      the length of each worker's lease. */
  datatype System = System(settings: Settings, handler: Handler, lease: Worker -> Time, execution: Uuid)

  ghost function DependencyGraph(w: Workflow): Graph {
    map n | n in Ids(w) :: DepsOf(w, n)
  }

  /** What acceptance by the validator amounts to. */
  ghost predicate WellFormed(w: Workflow) {
    UniqueIds(w) && KnownDependencies(w) && Acyclic(DependencyGraph(w))
  }

  ghost predicate ValidSystem(sys: System) {
    && WellFormed(sys.settings.workflow) && ValidPolicy(sys.settings.policy)
    && forall w :: sys.lease(w) > 0.0
  }

  // ---------- State ----------

  /** A node an orchestrator is about to dispatch, with the execution input it has read. */
  datatype Load = Load(node: Node, input: map<string, Json>)

  datatype Run = Run(worker: Worker, message: TaskMessage)

  datatype Lease = Lease(worker: Worker, attempt: Uuid)

  datatype State = State(
    db: Db,
    now: Time,
    used: set<Uuid>,               // random identifiers drawn so far
    triggered: bool,               // workflow.events holds the trigger message
    tasks: set<TaskMessage>,       // workflow.tasks
    completions: set<Event>,       // workflow.task-completions
    ready: set<string>,            // ready lists returned to orchestrators
    loaded: set<Load>,             // nodes loaded for dispatch
    due: set<TaskMessage>,         // due retries read by orchestrators
    running: set<Run>,             // handlers started by workers
    replaying: set<TaskMessage>,   // deliveries whose result a worker is about to replay
    unpublished: set<Event>,       // completion events held by workers
    recorded: set<Event>,          // history: every event ever recorded
    leases: map<Lease, Time>)      // the expiry each worker knows of its own claims

  ghost predicate Init(sys: System, s: State) {
    s == State(Submitted(sys.settings.workflow, sys.execution), s.now, {}, false, {}, {}, {}, {}, {}, {}, {}, {}, {}, map[])
  }

  // ---------- Steps ----------

  datatype Step =
    | TriggerStep(input: Option<map<string, Json>>, mid: Uuid)
    | PublishOutboxStep(row: nat)
    | EvaluateStep
    | LoadStep(node: string)
    | DispatchStep(load: Load, attempt: Uuid)
    | ProcessStep(event: Event, next: Uuid)
    | ReadRetriesStep
    | PublishRetryStep(message: TaskMessage)
    | MarkRetryStep(message: TaskMessage)
    | ClaimStep(worker: Worker, message: TaskMessage)
    | RenewStep(run: Run)
    | RecordStep(run: Run, outcome: Outcome, id: Uuid)
    | ReplayStep(message: TaskMessage)
    | PublishCompletionStep(event: Event)
    | MarkCompletedStep(event: Event)
    | TickStep(time: Time)

  function EventOf(m: TaskMessage, id: Uuid, outcome: Outcome): Event {
    Event(id, m.task, m.attempt, m.number, m.execution, m.node, outcome)
  }

  ghost function ProcessResult(sys: System, s: State, e: Event, next: Uuid): Result<(Decision, Db), ServiceError> {
    Process(sys.settings, s.db, e, s.now, next)
  }

  function ClaimResult(sys: System, s: State, worker: Worker, m: TaskMessage): Result<(ClaimOutcome, Tables), StoreError> {
    ClaimAttempt(s.db.tables, m, worker, s.now, s.now + sys.lease(worker))
  }

  ghost predicate Enabled(sys: System, s: State, step: Step) {
    match step
    case TriggerStep(input, mid) => mid !in s.used && Trigger(s.db.exec, input, mid).Ok?
    case PublishOutboxStep(row) => row < |s.db.exec.outbox|
    case EvaluateStep => s.triggered
    case LoadStep(node) => node in s.ready && node in Ids(sys.settings.workflow)
    case DispatchStep(load, attempt) =>
      load in s.loaded && attempt !in s.used && Dispatch(s.db, load.node, load.input, attempt).Ok?
    case ProcessStep(event, next) => event in s.completions && next !in s.used && ProcessResult(sys, s, event, next).Ok?
    case ReadRetriesStep => true
    case PublishRetryStep(message) => message in s.due
    case MarkRetryStep(message) => message in s.due && message in s.tasks
    case ClaimStep(worker, message) => message in s.tasks && ClaimResult(sys, s, worker, message).Ok?
    case RenewStep(run) => run in s.running
    case RecordStep(run, outcome, id) =>
      && run in s.running && id !in s.used
      && (outcome.Succeeded? ==>
            outcome.output == sys.handler(run.message.handler, run.message.config, run.message.input))
      && RecordResult(s.db.tables, EventOf(run.message, id, outcome)).Ok?
    case ReplayStep(message) =>
      && message in s.replaying && message.attempt in s.db.tables.attempts
      && EventFromResult(message, s.db.tables.attempts[message.attempt]).Ok?
    case PublishCompletionStep(event) => event in s.unpublished
    case MarkCompletedStep(event) => event in s.completions && MarkCompleted(s.db.tables, event.attempt).Ok?
    case TickStep(time) => time >= s.now
  }

  ghost function AfterTrigger(s: State, input: Option<map<string, Json>>, mid: Uuid): State
    requires Trigger(s.db.exec, input, mid).Ok?
  {
    s.(db := s.db.(exec := Trigger(s.db.exec, input, mid).value), used := s.used + {mid})
  }

  ghost function AfterPublishOutbox(s: State, row: nat): State
    requires row < |s.db.exec.outbox|
  {
    match s.db.exec.outbox[row].body
    case ExecutionTriggered => s.(triggered := true)
    case TaskQueued(m) => s.(tasks := s.tasks + {m})
    case _ => s
  }

  ghost function AfterEvaluate(sys: System, s: State): State {
    s.(ready := s.ready + set n | n in ReadyIds(sys.settings.workflow, NodeStatuses(s.db.exec.nodes)))
  }

  ghost function AfterLoad(sys: System, s: State, n: string): State
    requires n in Ids(sys.settings.workflow)
  {
    s.(loaded := s.loaded + {Load(NodeOf(sys.settings.workflow, n), s.db.exec.input)})
  }

  ghost function AfterDispatch(s: State, load: Load, attempt: Uuid): State
    requires Dispatch(s.db, load.node, load.input, attempt).Ok?
  {
    s.(db := Dispatch(s.db, load.node, load.input, attempt).value.1, used := s.used + {attempt})
  }

  ghost function AfterProcess(sys: System, s: State, e: Event, next: Uuid): State
    requires ProcessResult(sys, s, e, next).Ok?
  {
    var (decision, db) := ProcessResult(sys, s, e, next).value;
    s.(db := db, used := s.used + {next}, ready := s.ready + set n | n in decision.ready)
  }

  ghost function WithTables(s: State, tables: Tables): State {
    s.(db := s.db.(tables := tables))
  }

  ghost function AfterClaim(sys: System, s: State, worker: Worker, m: TaskMessage): State
    requires ClaimResult(sys, s, worker, m).Ok?
  {
    var (outcome, tables) := ClaimResult(sys, s, worker, m).value;
    match outcome
    case ClaimGranted =>
      WithTables(s, tables).(running := s.running + {Run(worker, m)},
                             leases := s.leases[Lease(worker, m.attempt) := s.now + sys.lease(worker)])
    case ResultAvailable => s.(replaying := s.replaying + {m})
    case _ => s
  }

  ghost function AfterRenew(sys: System, s: State, run: Run): State {
    var expiry := s.now + sys.lease(run.worker);
    var (renewed, tables) := RenewClaim(s.db.tables, run.message.attempt, run.worker, expiry);
    if renewed then WithTables(s, tables).(leases := s.leases[Lease(run.worker, run.message.attempt) := expiry]) else s
  }

  ghost function AfterRecord(s: State, e: Event): State
    requires RecordResult(s.db.tables, e).Ok?
  {
    WithTables(s, RecordResult(s.db.tables, e).value).(
      used := s.used + {e.id}, recorded := s.recorded + {e}, unpublished := s.unpublished + {e})
  }

  ghost function After(sys: System, s: State, step: Step): State
    requires Enabled(sys, s, step)
  {
    match step
    case TriggerStep(input, mid) => AfterTrigger(s, input, mid)
    case PublishOutboxStep(row) => AfterPublishOutbox(s, row)
    case EvaluateStep => AfterEvaluate(sys, s)
    case LoadStep(node) => AfterLoad(sys, s, node)
    case DispatchStep(load, attempt) => AfterDispatch(s, load, attempt)
    case ProcessStep(event, next) => AfterProcess(sys, s, event, next)
    case ReadRetriesStep => s.(due := s.due + GetDueRetries(s.db.tables, s.now))
    case PublishRetryStep(message) => s.(tasks := s.tasks + {message})
    case MarkRetryStep(message) => WithTables(s, MarkRetryPublished(s.db.tables, message.attempt).1)
    case ClaimStep(worker, message) => AfterClaim(sys, s, worker, message)
    case RenewStep(run) => AfterRenew(sys, s, run)
    case RecordStep(run, outcome, id) => AfterRecord(s, EventOf(run.message, id, outcome))
    case ReplayStep(message) =>
      s.(unpublished := s.unpublished + {EventFromResult(message, s.db.tables.attempts[message.attempt]).value})
    case PublishCompletionStep(event) => s.(completions := s.completions + {event})
    case MarkCompletedStep(event) => WithTables(s, MarkCompleted(s.db.tables, event.attempt).value)
    case TickStep(time) => s.(now := time)
  }

  ghost predicate Next(sys: System, s: State, step: Step, s': State) {
    Enabled(sys, s, step) && s' == After(sys, s, step)
  }

  /** A finite run: states joined by steps, from an initial state. */
  ghost predicate IsRun(sys: System, states: seq<State>, steps: seq<Step>) {
    && |states| == |steps| + 1
    && Init(sys, states[0])
    && forall i, j :: 0 <= i < |steps| && 0 <= j < |states| && j == i + 1 ==> Next(sys, states[i], steps[i], states[j])
  }
}
