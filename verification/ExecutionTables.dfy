/** One workflow execution: its row, its node rows and its outbox, and the transactions that
    trigger it, dispatch its nodes and process completion events. A transaction that raises an
    error is rolled back, so a failed result carries no tables. */
module ExecutionTables {
  import opened Wrappers
  import opened JsonValues
  import opened Definitions
  import opened Traversal
  import opened TaskTables
  import opened RetryPolicies
  import InputResolver

  // ---------- Rows ----------

  datatype NodeRow = NodeRow(status: Status, output: Json, error: Option<TaskError>)

  /** Identifiers of outbox rows, which are the primary key. */
  datatype MessageId =
    | RandomId(id: Uuid)
    | TaskMessageId(task: TaskId)
    | NodeFailedId(event: Uuid, node: string)
    | WorkflowEventId(event: Uuid, status: Status)

  datatype Body =
    | ExecutionTriggered
    | TaskQueued(message: TaskMessage)
    | NodeFinished(node: string, status: Status, event: Event)
    | DependencyFailed(node: string, cause: string)
    | WorkflowFinished(status: Status)

  datatype OutboxMessage = OutboxMessage(id: MessageId, body: Body)

  /** `outbox` holds every message ever written, whether or not the row was cleaned up later. */
  datatype Execution = Execution(id: Uuid, status: Status, input: map<string, Json>,
                                 nodes: map<string, NodeRow>, outbox: seq<OutboxMessage>)

  datatype Db = Db(exec: Execution, tables: Tables)

  /** The definition that is executed and the settings of the processes. */
  datatype Settings = Settings(workflow: Workflow, policy: RetryPolicy)

  function NodeStatuses(nodes: map<string, NodeRow>): Statuses {
    map n | n in nodes :: nodes[n].status
  }

  /** A submitted execution: pending, with one pending row per node. */
  function Submitted(w: Workflow, id: Uuid): Db {
    Db(Execution(id, Pending, map[], map n | n in Ids(w) :: NodeRow(Pending, Object(map[]), None), []),
       Tables(map[], map[], map[]))
  }

  datatype ServiceError =
    | ExecutionNotFound | NodeNotFound | NotTriggerable(status: Status) | TaskMismatch | InvalidAttemptNumber
    | CannotComplete(status: Status) | Unresolvable | Store(error: StoreError)

  // ---------- Trigger ----------

  function Trigger(x: Execution, input: Option<map<string, Json>>, mid: Uuid): Result<Execution, ServiceError> {
    if !x.status.Pending? then Err(NotTriggerable(x.status))
    else Ok(x.(status := Running, input := if input.Some? then input.value else x.input,
               outbox := x.outbox + [OutboxMessage(RandomId(mid), ExecutionTriggered)]))
  }

  // ---------- Node row updates ----------

  function FailPending(nodes: map<string, NodeRow>, ids: set<string>, reason: string): map<string, NodeRow> {
    map n | n in nodes ::
      if n in ids && nodes[n].status.Pending?
      then FailedRow(nodes[n], reason) else nodes[n]
  }

  function IdSet(ids: seq<string>): set<string> { set n | n in ids }

  function FailedRow(row: NodeRow, reason: string): NodeRow {
    row.(status := Failed, error := Some(TaskError(reason, "FailedDependency")))
  }

  // Failing one node more.
  lemma FailPendingStep(nodes: map<string, NodeRow>, ids: seq<string>, n: string, reason: string)
    ensures FailPending(nodes, IdSet(ids + [n]), reason)
            == var before := FailPending(nodes, IdSet(ids), reason);
               if n in nodes && nodes[n].status.Pending? && n !in ids then before[n := FailedRow(nodes[n], reason)] else before
  {
  }

  /** The nodes an update of pending rows reaches: those it returns. */
  function PendingAmong(nodes: map<string, NodeRow>, ids: seq<string>): seq<string> {
    if ids == [] then []
    else
      PendingAmong(nodes, ids[..|ids| - 1])
      + (var n := ids[|ids| - 1]; if n in nodes && nodes[n].status.Pending? then [n] else [])
  }

  lemma {:induction false} PendingAmongAll(nodes: map<string, NodeRow>, ids: seq<string>)
    requires forall i :: 0 <= i < |ids| ==> ids[i] in nodes && nodes[ids[i]].status.Pending?
    ensures PendingAmong(nodes, ids) == ids
  {
    if ids != [] {
      PendingAmongAll(nodes, ids[..|ids| - 1]);
      assert ids == ids[..|ids| - 1] + [ids[|ids| - 1]];
    }
  }

  // ---------- Dispatch ----------

  datatype DispatchOutcome = Dispatched | AlreadyStarted

  function CompletedOutputs(nodes: map<string, NodeRow>, dependencies: seq<string>): map<string, Json> {
    map d | d in nodes && d in dependencies && nodes[d].status.Completed? :: nodes[d].output
  }

  predicate HasFailedDependency(nodes: map<string, NodeRow>, node: Node) {
    exists d :: d in node.dependencies && d in nodes && nodes[d].status.Failed?
  }

  ghost function Claim(db: Db, node: Node, input: map<string, Json>, attempt: Uuid): Db
    requires node.id in db.exec.nodes
  {
    var task := CreateTaskId(db.exec.id, node.id);
    var row := TaskRow(db.exec.id, node.id, node.handler, node.config, input, TaskRunning, None);
    var (used, tables) := RegisterInitialTask(db.tables, task, row, attempt);
    var message := TaskMessage(task, used, 1, db.exec.id, node.id, node.handler, node.config, input);
    Db(db.exec.(nodes := db.exec.nodes[node.id := db.exec.nodes[node.id].(status := Running)],
                outbox := db.exec.outbox + [OutboxMessage(TaskMessageId(task), TaskQueued(message))]),
       tables)
  }

  /** `input` is the execution input the orchestrator read when it loaded the ready list. */
  ghost function Dispatch(db: Db, node: Node, input: map<string, Json>, attempt: Uuid): Result<(DispatchOutcome, Db), ServiceError> {
    var x := db.exec;
    if HasFailedDependency(x.nodes, node) then
      Ok((AlreadyStarted, db.(exec := x.(nodes := FailPending(x.nodes, {node.id}, "A required dependency failed.")))))
    else
      match InputResolver.Resolve(node, input, CompletedOutputs(x.nodes, node.dependencies))
      case None => Err(Unresolvable)
      case Some(resolved) =>
        if node.id in x.nodes && x.nodes[node.id].status.Pending?
        then Ok((Dispatched, Claim(db, node, resolved, attempt)))
        else Ok((AlreadyStarted, db))
  }

  // ---------- Finalization ----------

  predicate AnyFailed(nodes: map<string, NodeRow>) {
    exists n :: n in nodes && nodes[n].status.Failed?
  }

  predicate AllCompleted(w: Workflow, nodes: map<string, NodeRow>) {
    forall i :: 0 <= i < |w| ==> w[i].id in nodes && nodes[w[i].id].status.Completed?
  }

  function Finish(x: Execution, status: Status, correlation: Uuid): Execution {
    if x.status.Running?
    then x.(status := status, outbox := x.outbox + [OutboxMessage(WorkflowEventId(correlation, status), WorkflowFinished(status))])
    else x
  }

  function Finalize(w: Workflow, x: Execution, correlation: Uuid): Execution {
    if AnyFailed(x.nodes) then Finish(x, Failed, correlation)
    else if AllCompleted(w, x.nodes) then Finish(x, Completed, correlation)
    else x
  }

  // ---------- Completion ----------

  datatype CompletionOutcome = Processed | AlreadyKnown | RetryPlanned(attempt: Uuid, number: nat)

  datatype Decision = Decision(outcome: CompletionOutcome, ready: seq<string>)

  function TargetStatus(o: Outcome): Status { if o.Succeeded? then Completed else Failed }

  function Settle(row: NodeRow, o: Outcome): NodeRow {
    if o.Succeeded? then row.(status := Completed, output := o.output)
    else NodeRow(Failed, Null, Some(o.error))
  }

  function DependencyMessages(event: Uuid, cause: string, ids: seq<string>): (m: seq<OutboxMessage>)
    ensures |m| == |ids|
    ensures forall i :: 0 <= i < |ids| ==> m[i] == OutboxMessage(NodeFailedId(event, ids[i]), DependencyFailed(ids[i], cause))
  {
    seq(|ids|, i requires 0 <= i < |ids| => OutboxMessage(NodeFailedId(event, ids[i]), DependencyFailed(ids[i], cause)))
  }

  function DependencyReason(cause: string): string { "Dependency '" + cause + "' failed." }

  function Finished(e: Event): OutboxMessage {
    OutboxMessage(RandomId(e.id), NodeFinished(e.node, TargetStatus(e.outcome), e))
  }

  /** Fails every pending node that can no longer run. */
  ghost function FailDependants(w: Workflow, nodes: map<string, NodeRow>, cause: string): map<string, NodeRow> {
    FailPending(nodes, IdSet(FailedDependencies(w, NodeStatuses(nodes))), DependencyReason(cause))
  }

  /** The node rows and the outbox once the event's own node has left RUNNING. */
  ghost function Propagate(w: Workflow, x: Execution, e: Event): Execution
    requires e.node in x.nodes
  {
    var settled := x.nodes[e.node := Settle(x.nodes[e.node], e.outcome)];
    if e.outcome.Succeeded? then x.(nodes := settled, outbox := x.outbox + [Finished(e)])
    else
      var ids := FailedDependencies(w, NodeStatuses(settled));
      x.(nodes := FailDependants(w, settled, e.node),
         outbox := x.outbox + DependencyMessages(e.id, e.node, PendingAmong(settled, ids)) + [Finished(e)])
  }

  ghost function Conclude(w: Workflow, db: Db, e: Event): Result<(Decision, Db), ServiceError>
    requires e.node in db.exec.nodes
  {
    var x := db.exec;
    if !x.nodes[e.node].status.Running? then
      if Terminal(x.nodes[e.node].status) then Ok((Decision(AlreadyKnown, []), db))
      else Err(CannotComplete(x.nodes[e.node].status))
    else
      var after := Propagate(w, x, e);
      var ready := if e.outcome.Succeeded? then ReadyIds(w, NodeStatuses(after.nodes)) else [];
      Ok((Decision(Processed, ready), db.(exec := Finalize(w, after, e.id))))
  }

  /** The completion transaction. `now` is the time of the failure and `next` the identifier of
      the retry attempt, if one is inserted. */
  ghost function Process(s: Settings, db: Db, e: Event, now: Time, next: Uuid): Result<(Decision, Db), ServiceError> {
    if e.task != CreateTaskId(e.execution, e.node) then Err(TaskMismatch)
    else if e.execution != db.exec.id then Err(ExecutionNotFound)
    else if e.node !in db.exec.nodes then Err(NodeNotFound)
    else
      match e.outcome
      case Succeeded(_) => (
        match RecordSuccess(db.tables, e.task, e.attempt, e.id)
        case Err(error) => Err(Store(error))
        case Ok((recorded, tables)) =>
          if !recorded && !db.exec.nodes[e.node].status.Running? then Ok((Decision(AlreadyKnown, []), db.(tables := tables)))
          else Conclude(s.workflow, db.(tables := tables), e))
      case Errored(error) =>
        if e.number < 1 then Err(InvalidAttemptNumber)
        else
          match RecordFailure(db.tables, e.task, e.attempt, e.id, error, s.policy.maxAttempts,
                              now + DelayFor(s.policy, e.number), next)
          case Err(error) => Err(Store(error))
          case Ok((Duplicate, tables)) => Ok((Decision(AlreadyKnown, []), db.(tables := tables)))
          case Ok((RetryScheduled(attempt, number), tables)) =>
            Ok((Decision(RetryPlanned(attempt, number), []), db.(tables := tables)))
          case Ok((Exhausted, tables)) => Conclude(s.workflow, db.(tables := tables), e)
  }

  // ---------- Results ----------

  datatype Results = NotAvailable(status: Status) | Inconsistent | Available(outputs: map<string, Json>)

  function ResultsOf(x: Execution): Results {
    if !x.status.Completed? then NotAvailable(x.status)
    else if AnyFailed(x.nodes) then Inconsistent
    else Available(map n | n in x.nodes && x.nodes[n].status.Completed? :: x.nodes[n].output)
  }
}
