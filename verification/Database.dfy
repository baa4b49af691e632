/** The tables as mutable state, and the repository and service methods that update them in
    place, statement by statement. Each is proved equal to its transaction function. */
module Database {
  import opened Wrappers
  import opened JsonValues
  import opened Definitions
  import opened Graphs
  import opened Traversal
  import opened TaskTables
  import opened AttemptLedger
  import opened RetryPolicies
  import opened ExecutionTables
  import opened ExecutionInvariants
  import opened Protocol
  import InputResolver

  function Outcomes<A, B, E>(r: Result<(A, B), E>): Result<A, E> {
    match r case Ok((a, _)) => Ok(a) case Err(e) => Err(e)
  }

  function StateAfter<A, B, E>(r: Result<(A, B), E>, before: B): B {
    match r case Ok((_, b)) => b case Err(_) => before
  }

  lemma FailPendingRow(nodes: map<string, NodeRow>, ids: set<string>, n: string, reason: string)
    requires n !in ids
    ensures n in nodes <==> n in FailPending(nodes, ids, reason)
    ensures n in nodes ==> FailPending(nodes, ids, reason)[n] == nodes[n]
  {
  }

  lemma MessagesNone(e: Event)
    ensures forall ids: seq<string> :: DependencyMessages(e.id, e.node, ids[..0]) == []
  {
  }

  lemma MessagesStep(e: Event, ids: seq<string>, k: nat)
    requires k < |ids|
    ensures DependencyMessages(e.id, e.node, ids[..k + 1])
         == DependencyMessages(e.id, e.node, ids[..k]) + [OutboxMessage(NodeFailedId(e.id, ids[k]), DependencyFailed(ids[k], e.node))]
  {
  }

  lemma RootsAreReady(w: Workflow, id: Uuid)
    requires UniqueIds(w)
    ensures forall n :: n in Ids(w) ==> (n in ReadyIds(w, NodeStatuses(Submitted(w, id).exec.nodes)) <==> DepsOf(w, n) == [])
  {
    var st := NodeStatuses(Submitted(w, id).exec.nodes);
    forall n | n in Ids(w) ensures n in ReadyIds(w, st) <==> DepsOf(w, n) == [] {
      ReadyById(w, st, n);
      if DepsOf(w, n) != [] {
        assert DepsOf(w, n)[0] in DepsOf(w, n);
      }
    }
  }

  /** What the other processes have done to the task tables before action i of a process. */
  type Others = (nat, Tables) -> Tables

  class Session {
    const id: Uuid
    // workflow_executions and node_executions
    var status: Status
    var input: map<string, Json>
    var nodes: map<string, NodeRow>
    // outbox_events
    var outbox: seq<OutboxMessage>
    // logical_tasks, task_attempts and task_retry_dispatches
    var tasks: map<TaskId, TaskRow>
    var attempts: map<Uuid, AttemptRow>
    var dispatches: map<Uuid, DispatchRow>

    ghost function Exec(): Execution
      reads this
    {
      Execution(id, status, input, nodes, outbox)
    }

    ghost function Rows(): Tables
      reads this
    {
      Tables(tasks, attempts, dispatches)
    }

    ghost function Snapshot(): Db
      reads this
    {
      Db(Exec(), Rows())
    }

    /** A submitted definition: one pending execution and one pending row per node. All that the
        transactions keep true holds, and ready are exactly the nodes without dependencies. */
    constructor Submit(w: Workflow, execution: Uuid)
      ensures Snapshot() == Submitted(w, execution)
      ensures ExecutionInv(w, Exec()) && forall max :: Ledger(Rows(), {}, max)
      ensures UniqueIds(w) ==> forall n :: n in Ids(w) ==> (n in ReadyIds(w, NodeStatuses(nodes)) <==> DepsOf(w, n) == [])
    {
      id := execution;
      status, input, outbox := Pending, map[], [];
      tasks, attempts, dispatches := map[], map[], map[];
      nodes := map n | n in Ids(w) :: NodeRow(Pending, Object(map[]), None);
      new;
      hide ExecutionInv, Ledger;
      SubmittedInv(w, execution);
      forall max ensures Ledger(Rows(), {}, max) {
        EmptyLedger(max);
      }
      if UniqueIds(w) {
        RootsAreReady(w, execution);
      }
    }

    // ---------- task_retry_repository ----------

    method RecordSuccess(task: TaskId, attempt: Uuid, event: Uuid) returns (r: Result<bool, StoreError>)
      modifies this`attempts, this`tasks
      ensures r == Outcomes(TaskTables.RecordSuccess(old(Rows()), task, attempt, event))
      ensures Rows() == StateAfter(TaskTables.RecordSuccess(old(Rows()), task, attempt, event), old(Rows()))
      // What a worker has recorded is never news, and nothing is news twice.
      ensures (exists rec, max, e :: ReportedSuccess(old(Rows()), task, attempt, event, rec, max, e)) ==> r == Ok(false) && Rows() == old(Rows())
      ensures r.Ok? ==> TaskTables.RecordSuccess(Rows(), task, attempt, event) == Ok((task !in tasks, Rows()))
    {
      SuccessPromises(Rows(), task, attempt, event);
      if task !in tasks {
        return Ok(true);
      }
      if attempt !in attempts || attempts[attempt].task != task {
        return Err(AttemptMismatch);
      }
      var row := attempts[attempt];
      if row.completionEvent == Some(event) {
        return Ok(false);
      }
      if (row.status == Done || row.status == Broken) && row.completionEvent != None {
        return Ok(false);
      }
      attempts := attempts[attempt := row.(status := Done, completionEvent := Some(event))];
      tasks := tasks[task := tasks[task].(status := TaskCompleted)];
      return Ok(true);
    }

    method RecordFailure(task: TaskId, attempt: Uuid, event: Uuid, error: TaskError, maxAttempts: int,
                         retryAt: Time, next: Uuid) returns (r: Result<RetryDecision, StoreError>)
      modifies this`attempts, this`tasks, this`dispatches
      ensures r == Outcomes(TaskTables.RecordFailure(old(Rows()), task, attempt, event, error, maxAttempts, retryAt, next))
      ensures Rows() == StateAfter(TaskTables.RecordFailure(old(Rows()), task, attempt, event, error, maxAttempts, retryAt, next),
                                   old(Rows()))
      // A recorded failure keeps the ledger and is a duplicate exactly when the attempt has failed before.
      ensures maxAttempts >= 1 && next !in old(attempts) ==>
                forall rec, e :: ReportedFailure(old(Rows()), task, attempt, event, error, rec, maxAttempts, e) ==>
                  && r.Ok? && Ledger(Rows(), rec, maxAttempts)
                  && attempt in old(attempts) && (r.value.Duplicate? <==> old(attempts)[attempt].failureEvent.Some?)
      ensures r.Ok? && task in tasks && next != attempt ==>
                TaskTables.RecordFailure(Rows(), task, attempt, event, error, maxAttempts, retryAt, next) == Ok((Duplicate, Rows()))
    {
      hide Ledger, ReportedFailure;
      if maxAttempts >= 1 && next !in attempts {
        FailurePromises(Rows(), task, attempt, event, error, maxAttempts, retryAt, next);
      }
      if TaskTables.RecordFailure(Rows(), task, attempt, event, error, maxAttempts, retryAt, next).Ok? && task in tasks && next != attempt {
        FailureIsNotedOnce(Rows(), task, attempt, event, error, maxAttempts, retryAt, next, maxAttempts, retryAt, next);
      }
      if maxAttempts < 1 {
        return Err(InvalidLimit);
      }
      if task !in tasks {
        return Ok(Exhausted);
      }
      if exists a :: a in attempts && attempts[a].failureEvent == Some(event) {
        return Ok(Duplicate);
      }
      if attempt !in attempts || attempts[attempt].task != task {
        return Err(AttemptMismatch);
      }
      var row := attempts[attempt];
      if row.failureEvent != None || (row.status == Done && row.completionEvent != Some(event)) {
        return Ok(Duplicate);
      }
      attempts := attempts[attempt := row.(status := Broken, failureEvent := Some(event),
                                           errorMessage := Some(error.message), errorKind := Some(error.kind))];
      if row.number >= maxAttempts {
        tasks := tasks[task := tasks[task].(status := TaskFailed, finalError := Some(error))];
        return Ok(Exhausted);
      }
      attempts := attempts[next := NewAttempt(task, row.number + 1, Scheduled)];
      dispatches := dispatches[next := DispatchRow(retryAt, false)];
      tasks := tasks[task := tasks[task].(status := TaskRetryScheduled)];
      return Ok(RetryScheduled(next, row.number + 1));
    }

    // The unique constraint on task and attempt number.
    ghost predicate UniqueNumbers()
      reads this
    {
      forall a, b ::
        (a in attempts && b in attempts && attempts[a].task == attempts[b].task && attempts[a].number == attempts[b].number)
        ==> a == b
    }

    method RegisterInitialTask(task: TaskId, row: TaskRow, attempt: Uuid) returns (used: Uuid)
      requires UniqueNumbers()
      modifies this`attempts, this`tasks
      ensures (used, Rows()) == TaskTables.RegisterInitialTask(old(Rows()), task, row, attempt)
    {
      if task !in tasks {
        tasks := tasks[task := row];
      }
      if a :| a in attempts && attempts[a].task == task && attempts[a].number == 1 {
        return a;
      }
      attempts := attempts[attempt := NewAttempt(task, 1, Started)];
      return attempt;
    }

    method MarkRetryPublished(attempt: Uuid) returns (marked: bool)
      modifies this`attempts, this`dispatches
      ensures (marked, Rows()) == TaskTables.MarkRetryPublished(old(Rows()), attempt)
      // The retry is not due any more, all others are due as before, and no claim is touched.
      ensures KeepsLedger(old(Rows()), Rows())
      ensures forall at :: !DueRetry(Rows(), attempt, at)
      ensures forall a, at :: a != attempt ==> (DueRetry(Rows(), a, at) <==> DueRetry(old(Rows()), a, at))
      ensures forall a :: a in old(attempts) ==>
                a in attempts && attempts[a].claimedBy == old(attempts)[a].claimedBy && attempts[a].claimExpiresAt == old(attempts)[a].claimExpiresAt
    {
      MarkPromises(Rows(), attempt);
      hide KeepsLedger;
      if attempt !in dispatches || dispatches[attempt].published {
        return false;
      }
      dispatches := dispatches[attempt := dispatches[attempt].(published := true)];
      if attempt in attempts && attempts[attempt].status == Scheduled {
        attempts := attempts[attempt := attempts[attempt].(status := Queued)];
      }
      return true;
    }

    // ---------- task_attempt_processing_repository ----------

    method ClaimAttempt(m: TaskMessage, worker: Worker, at: Time, expiresAt: Time) returns (r: Result<ClaimOutcome, StoreError>)
      modifies this`attempts
      ensures r == Outcomes(TaskTables.ClaimAttempt(old(Rows()), m, worker, at, expiresAt))
      ensures Rows() == StateAfter(TaskTables.ClaimAttempt(old(Rows()), m, worker, at, expiresAt), old(Rows()))
      // A granted claim was free, and nobody is granted it again before it expires.
      ensures KeepsLedger(old(Rows()), Rows())
      ensures r == Ok(ClaimGranted) ==>
                && m.attempt in old(attempts) && !HeldAt(old(attempts)[m.attempt], at)
                && m.attempt in attempts && attempts[m.attempt].claimedBy == Some(worker) && HeldUntil(Rows(), m.attempt, expiresAt)
      ensures r != Ok(ClaimGranted) ==> attempts == old(attempts)
      ensures r == Ok(CurrentlyClaimed) ==> m.attempt in attempts && HeldAt(attempts[m.attempt], at)
    {
      if TaskTables.ClaimAttempt(Rows(), m, worker, at, expiresAt).Ok? {
        ClaimPromises(Rows(), m, worker, at, expiresAt);
      }
      hide Ledger, HeldUntil;
      if m.attempt !in attempts {
        return Err(AttemptNotFound);
      }
      var row := attempts[m.attempt];
      if m.task !in tasks || row.task != m.task || tasks[m.task].execution != m.execution || tasks[m.task].node != m.node {
        return Err(AttemptMismatch);
      }
      if row.status == Done {
        return Ok(AlreadyCompleted);
      }
      if row.status == ResultRecorded {
        return Ok(ResultAvailable);
      }
      if row.claimedBy != None && (row.claimExpiresAt == None || row.claimExpiresAt.value > at) {
        return Ok(CurrentlyClaimed);
      }
      attempts := attempts[m.attempt := row.(status := Claimed, claimedBy := Some(worker), claimExpiresAt := Some(expiresAt))];
      return Ok(ClaimGranted);
    }

    method RecordResult(e: Event) returns (r: Result<(), StoreError>)
      modifies this`attempts
      ensures r.Ok? <==> TaskTables.RecordResult(old(Rows()), e).Ok?
      ensures r.Ok? ==> Rows() == TaskTables.RecordResult(old(Rows()), e).value
      ensures r.Err? ==> Rows() == old(Rows()) && r.error == NotClaimed
      // What is recorded can be replayed, and nothing else can be recorded for the attempt.
      ensures r.Ok? ==> ExtendsLedger(old(Rows()), Rows(), e)
      ensures r.Ok? ==> e.attempt in attempts && forall m :: EventOf(m, e.id, e.outcome) == e ==> EventFromResult(m, attempts[e.attempt]) == Ok(e)
      ensures r.Ok? ==> forall f: Event :: f.attempt == e.attempt ==> TaskTables.RecordResult(Rows(), f).Err?
    {
      if TaskTables.RecordResult(Rows(), e).Ok? {
        RecordPromises(Rows(), e);
      }
      hide ExtendsLedger;
      if e.attempt !in attempts || attempts[e.attempt].status != Claimed {
        return Err(NotClaimed);
      }
      var row := attempts[e.attempt];
      row := row.(status := ResultRecorded, completionEvent := Some(e.id));
      match e.outcome {
        case Succeeded(output) => row := row.(result := output, errorMessage := None, errorKind := None);
        case Errored(error) => row := row.(result := Null, errorMessage := Some(error.message), errorKind := Some(error.kind));
      }
      attempts := attempts[e.attempt := row];
      return Ok(());
    }

    method MarkCompleted(attempt: Uuid) returns (r: Result<(), StoreError>)
      modifies this`attempts
      ensures r.Ok? <==> TaskTables.MarkCompleted(old(Rows()), attempt).Ok?
      ensures r.Ok? ==> Rows() == TaskTables.MarkCompleted(old(Rows()), attempt).value
      ensures r.Err? ==> Rows() == old(Rows()) && r.error == NotRecorded
      // Later deliveries find the attempt completed, and the result stays what it was.
      ensures r.Ok? ==> KeepsLedger(old(Rows()), Rows())
      ensures r.Ok? ==> forall m: TaskMessage, w, at, e ::
                m.attempt == attempt && TaskTables.ClaimAttempt(Rows(), m, w, at, e).Ok? ==>
                  TaskTables.ClaimAttempt(Rows(), m, w, at, e) == Ok((AlreadyCompleted, Rows()))
      ensures r.Ok? ==> attempt in old(attempts) && attempt in attempts
                        && forall m :: EventFromResult(m, attempts[attempt]) == EventFromResult(m, old(attempts)[attempt])
    {
      MarkPromises(Rows(), attempt);
      hide KeepsLedger;
      if attempt !in attempts || attempts[attempt].status != ResultRecorded {
        return Err(NotRecorded);
      }
      attempts := attempts[attempt := attempts[attempt].(status := Done, claimExpiresAt := None)];
      return Ok(());
    }

    method RenewClaim(attempt: Uuid, worker: Worker, expiresAt: Time) returns (renewed: bool)
      modifies this`attempts
      ensures (renewed, Rows()) == TaskTables.RenewClaim(old(Rows()), attempt, worker, expiresAt)
      // Only the holder renews, and then nobody else is granted the attempt before the new expiry.
      ensures KeepsLedger(old(Rows()), Rows())
      ensures renewed ==> attempt in old(attempts) && old(attempts)[attempt].claimedBy == Some(worker) && HeldUntil(Rows(), attempt, expiresAt)
      ensures !renewed ==> attempts == old(attempts)
    {
      RenewPromises(Rows(), attempt, worker, expiresAt);
      hide Ledger, HeldUntil;
      renewed := attempt in attempts && attempts[attempt].status == Claimed && attempts[attempt].claimedBy == Some(worker);
      if renewed {
        attempts := attempts[attempt := attempts[attempt].(claimExpiresAt := Some(expiresAt))];
      }
    }

    // ---------- node_execution_repository and workflow_execution_repository ----------

    /** Compare and set: the row changes only from the expected status, and only in the columns given. */
    method UpdateNodeIfCurrent(node: string, expected: Status, target: Status, output: Option<Json>, error: Option<TaskError>)
      returns (updated: bool)
      modifies this`nodes
      ensures updated <==> node in old(nodes) && old(nodes)[node].status == expected
      ensures !updated ==> nodes == old(nodes)
      ensures updated ==> nodes == old(nodes)[node := NodeRow(target,
                                                           if output.Some? then output.value else old(nodes)[node].output,
                                                           if error.Some? then error else old(nodes)[node].error)]
    {
      updated := node in nodes && nodes[node].status == expected;
      if updated {
        var row := nodes[node].(status := target);
        if output.Some? {
          row := row.(output := output.value);
        }
        if error.Some? {
          row := row.(error := error);
        }
        nodes := nodes[node := row];
      }
    }

    method ClaimPendingNode(node: string) returns (claimed: bool)
      modifies this`nodes
      ensures claimed <==> node in old(nodes) && old(nodes)[node].status.Pending?
      ensures nodes == if claimed then old(nodes)[node := old(nodes)[node].(status := Running)] else old(nodes)
    {
      claimed := node in nodes && nodes[node].status == Pending;
      if claimed {
        nodes := nodes[node := nodes[node].(status := Running)];
      }
    }

    method FailPendingNodes(ids: seq<string>, reason: string) returns (updated: seq<string>)
      requires NoDuplicates(ids)
      modifies this`nodes
      ensures nodes == FailPending(old(nodes), IdSet(ids), reason)
      ensures updated == PendingAmong(old(nodes), ids)
    {
      updated := [];
      for k := 0 to |ids|
        invariant nodes == FailPending(old(nodes), IdSet(ids[..k]), reason)
        invariant updated == PendingAmong(old(nodes), ids[..k])
      {
        hide FailPending;
        var n := ids[k];
        assert ids[..k + 1][..k] == ids[..k] && ids[..k + 1] == ids[..k] + [n];
        assert n !in ids[..k];
        FailPendingStep(old(nodes), ids[..k], n, reason);
        FailPendingRow(old(nodes), IdSet(ids[..k]), n, reason);
        if n in nodes && nodes[n].status == Pending {
          nodes := nodes[n := FailedRow(nodes[n], reason)];
          updated := updated + [n];
        }
      }
      assert ids[..|ids|] == ids;
    }

    method UpdateExecutionIfCurrent(expected: Status, target: Status) returns (updated: bool)
      modifies this`status
      ensures updated <==> old(status) == expected
      ensures status == if updated then target else old(status)
    {
      updated := status == expected;
      if updated {
        status := target;
      }
    }

    method AddMessage(mid: MessageId, body: Body)
      modifies this`outbox
      ensures outbox == old(outbox) + [OutboxMessage(mid, body)]
    {
      outbox := outbox + [OutboxMessage(mid, body)];
    }

    // ---------- workflow_trigger_service ----------

    method Trigger(data: Option<map<string, Json>>, mid: Uuid) returns (r: Result<(), ServiceError>)
      modifies this`status, this`input, this`outbox
      ensures r.Ok? <==> ExecutionTables.Trigger(old(Exec()), data, mid).Ok?
      ensures r.Ok? ==> Exec() == ExecutionTables.Trigger(old(Exec()), data, mid).value
      ensures r.Err? ==> Exec() == old(Exec()) && r.error == NotTriggerable(old(status))
    {
      if status != Pending {
        return Err(NotTriggerable(status));
      }
      var transitioned := UpdateExecutionIfCurrent(Pending, Running);
      if data.Some? {
        input := data.value;
      }
      AddMessage(RandomId(mid), ExecutionTriggered);
      return Ok(());
    }

    // ---------- workflow_finalization_service ----------

    method Finalize(w: Workflow, correlation: Uuid)
      modifies this`status, this`outbox
      ensures Exec() == ExecutionTables.Finalize(w, old(Exec()), correlation)
    {
      if exists n :: n in nodes && nodes[n].status == Failed {
        var updated := UpdateExecutionIfCurrent(Running, Failed);
        if updated {
          AddMessage(WorkflowEventId(correlation, Failed), WorkflowFinished(Failed));
        }
        return;
      }
      if forall i :: 0 <= i < |w| ==> w[i].id in nodes && nodes[w[i].id].status == Completed {
        var updated := UpdateExecutionIfCurrent(Running, Completed);
        if updated {
          AddMessage(WorkflowEventId(correlation, Completed), WorkflowFinished(Completed));
        }
      }
    }

    // ---------- node_task_dispatcher ----------

    method Dispatch(node: Node, data: map<string, Json>, attempt: Uuid) returns (r: Result<DispatchOutcome, ServiceError>)
      requires UniqueNumbers()
      modifies this
      ensures r == Outcomes(ExecutionTables.Dispatch(old(Snapshot()), node, data, attempt))
      ensures Snapshot() == StateAfter(ExecutionTables.Dispatch(old(Snapshot()), node, data, attempt), old(Snapshot()))
    {
      if exists d :: d in node.dependencies && d in nodes && nodes[d].status == Failed {
        assert HasFailedDependency(nodes, node);
        var failed := FailPendingNodes([node.id], "A required dependency failed.");
        assert IdSet([node.id]) == {node.id};
        return Ok(AlreadyStarted);
      }
      assert !HasFailedDependency(nodes, node);
      var resolved := InputResolver.Resolve(node, data, CompletedOutputs(nodes, node.dependencies));
      if resolved == None {
        return Err(Unresolvable);
      }
      var claimed := ClaimPendingNode(node.id);
      if !claimed {
        return Ok(AlreadyStarted);
      }
      var task := CreateTaskId(id, node.id);
      var row := TaskRow(id, node.id, node.handler, node.config, resolved.value, TaskRunning, None);
      assert Rows() == old(Rows());
      var used := RegisterInitialTask(task, row, attempt);
      AddMessage(TaskMessageId(task),
                 TaskQueued(TaskMessage(task, used, 1, id, node.id, node.handler, node.config, resolved.value)));
      assert Snapshot() == Claim(old(Snapshot()), node, resolved.value, attempt);
      return Ok(Dispatched);
    }

    // ---------- task_completion_service ----------

    /** Fails the dependants of a failed node and announces each of them. */
    method FailDependants(w: Workflow, e: Event)
      requires UniqueIds(w) && KnownDependencies(w)
      modifies this`nodes, this`outbox
      ensures nodes == ExecutionTables.FailDependants(w, old(nodes), e.node)
      ensures outbox == old(outbox) + DependencyMessages(e.id, e.node,
                PendingAmong(old(nodes), FailedDependencies(w, NodeStatuses(old(nodes)))))
    {
      hide FailPending, PendingAmong, DependencyMessages, DoomedSet;
      MessagesNone(e);
      var statuses := map n | n in nodes :: nodes[n].status;
      var ids := EvaluateFailedDependencies(w, statuses);
      SelectNoDuplicates(w, DoomedSet(w, statuses));
      var failed := FailPendingNodes(ids, DependencyReason(e.node));
      for k := 0 to |failed|
        invariant outbox == old(outbox) + DependencyMessages(e.id, e.node, failed[..k])
        invariant nodes == ExecutionTables.FailDependants(w, old(nodes), e.node)
      {
        AddMessage(NodeFailedId(e.id, failed[k]), DependencyFailed(failed[k], e.node));
        MessagesStep(e, failed, k);
      }
      assert failed[..|failed|] == failed;
    }

    method Conclude(w: Workflow, e: Event) returns (r: Result<Decision, ServiceError>)
      requires UniqueIds(w) && KnownDependencies(w) && e.node in nodes
      modifies this`nodes, this`outbox, this`status
      ensures r == Outcomes(ExecutionTables.Conclude(w, old(Snapshot()), e))
      ensures Snapshot() == StateAfter(ExecutionTables.Conclude(w, old(Snapshot()), e), old(Snapshot()))
    {
      var current := nodes[e.node].status;
      var updated;
      match e.outcome {
        case Succeeded(output) => updated := UpdateNodeIfCurrent(e.node, Running, Completed, Some(output), None);
        case Errored(error) => updated := UpdateNodeIfCurrent(e.node, Running, Failed, Some(Null), Some(error));
      }
      if !updated {
        if current != Completed && current != Failed {
          return Err(CannotComplete(current));
        }
        return Ok(Decision(AlreadyKnown, []));
      }
      assert nodes == old(nodes)[e.node := Settle(old(nodes)[e.node], e.outcome)];
      if e.outcome.Errored? {
        FailDependants(w, e);
      }
      AddMessage(RandomId(e.id), NodeFinished(e.node, TargetStatus(e.outcome), e));
      assert Exec() == Propagate(w, old(Exec()), e);
      var ready := [];
      if e.outcome.Succeeded? {
        ready := EvaluateReady(w, map n | n in nodes :: nodes[n].status);
      }
      Finalize(w, e.id);
      return Ok(Decision(Processed, ready));
    }

    /** The completion transaction: an error rolls every row back. */
    method Process(w: Workflow, policy: RetryPolicy, e: Event, now: Time, next: Uuid) returns (r: Result<Decision, ServiceError>)
      requires UniqueIds(w) && KnownDependencies(w)
      modifies this
      ensures r == Outcomes(ExecutionTables.Process(Settings(w, policy), old(Snapshot()), e, now, next))
      ensures Snapshot() == StateAfter(ExecutionTables.Process(Settings(w, policy), old(Snapshot()), e, now, next), old(Snapshot()))
    {
      hide ExecutionTables.Conclude, TaskTables.RecordSuccess, TaskTables.RecordFailure;
      if e.task != CreateTaskId(e.execution, e.node) {
        return Err(TaskMismatch);
      }
      if e.execution != id {
        return Err(ExecutionNotFound);
      }
      if e.node !in nodes {
        return Err(NodeNotFound);
      }
      var before := nodes[e.node].status;
      var saved := (tasks, attempts, dispatches);
      match e.outcome {
        case Succeeded(_) =>
          var recorded := RecordSuccess(e.task, e.attempt, e.id);
          if recorded.Err? {
            return Err(Store(recorded.error));
          }
          if !recorded.value && before != Running {
            return Ok(Decision(AlreadyKnown, []));
          }
        case Errored(error) =>
          if e.number < 1 {
            return Err(InvalidAttemptNumber);
          }
          var decision := RecordFailure(e.task, e.attempt, e.id, error, policy.maxAttempts, now + DelayFor(policy, e.number), next);
          if decision.Err? {
            return Err(Store(decision.error));
          }
          if decision.value == Duplicate {
            return Ok(Decision(AlreadyKnown, []));
          }
          if decision.value.RetryScheduled? {
            return Ok(Decision(RetryPlanned(decision.value.attempt, decision.value.number), []));
          }
      }
      r := Conclude(w, e);
      if r.Err? {
        tasks, attempts, dispatches := saved.0, saved.1, saved.2;
      }
    }
  }
}
