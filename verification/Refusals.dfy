/** When the transactions accept what they are given, for arbitrary rows and arbitrary messages. */
module Refusals {
  import opened Wrappers
  import opened JsonValues
  import opened Definitions
  import opened Traversal
  import opened TaskTables
  import opened RetryPolicies
  import opened ExecutionTables
  import InputResolver

  /** A claim is refused exactly when the attempt is unknown or is not the attempt of the task, execution
      and node the message names; otherwise the status and the claim of the row decide. */
  lemma ClaimOutcomeIs(t: Tables, m: TaskMessage, worker: Worker, at: Time, expiresAt: Time)
    ensures var r := ClaimAttempt(t, m, worker, at, expiresAt);
            && (r == Err(AttemptNotFound) <==> m.attempt !in t.attempts)
            && (r.Ok? <==>
                  && m.attempt in t.attempts && t.attempts[m.attempt].task == m.task
                  && m.task in t.tasks && t.tasks[m.task].execution == m.execution && t.tasks[m.task].node == m.node)
            && (r.Ok? ==>
                  var a := t.attempts[m.attempt];
                  && (r.value.0.AlreadyCompleted? <==> a.status.Done?)
                  && (r.value.0.ResultAvailable? <==> a.status.ResultRecorded?)
                  && (r.value.0.CurrentlyClaimed? <==>
                        && !a.status.Done? && !a.status.ResultRecorded?
                        && a.claimedBy.Some? && (a.claimExpiresAt.None? || a.claimExpiresAt.value > at)))
  {
  }

  /** When a success is news, the attempt is completed under that event and its task with it; nothing
      else changes. An unknown task is no obstacle. */
  lemma SuccessOutcomeIs(t: Tables, task: TaskId, attempt: Uuid, event: Uuid)
    ensures var r := RecordSuccess(t, task, attempt, event);
            && (r.Err? <==> task in t.tasks && !(attempt in t.attempts && t.attempts[attempt].task == task))
            && (task !in t.tasks ==> r == Ok((true, t)))
            && (r.Ok? && task in t.tasks ==>
                  var a := t.attempts[attempt];
                  && (!r.value.0 <==> a.completionEvent == Some(event) || ((a.status.Done? || a.status.Broken?) && a.completionEvent.Some?))
                  && (!r.value.0 ==> r.value.1 == t)
                  && (r.value.0 ==>
                        && var t' := r.value.1;
                        && t'.attempts.Keys == t.attempts.Keys && t'.tasks.Keys == t.tasks.Keys && t'.dispatches == t.dispatches
                        && t'.attempts[attempt].status.Done? && t'.attempts[attempt].completionEvent == Some(event)
                        && t'.attempts[attempt] == a.(status := t'.attempts[attempt].status, completionEvent := t'.attempts[attempt].completionEvent)
                        && t'.tasks[task].status.TaskCompleted? && t'.tasks[task] == t.tasks[task].(status := t'.tasks[task].status)
                        && (forall b :: b in t.attempts && b != attempt ==> t'.attempts[b] == t.attempts[b])
                        && (forall k :: k in t.tasks && k != task ==> t'.tasks[k] == t.tasks[k])))
  {
  }

  /** A failure is refused exactly when the limit is not positive, or it is new and the attempt is not
      one of the known task. */
  lemma FailureRefusedIff(t: Tables, task: TaskId, attempt: Uuid, event: Uuid, error: TaskError, max: int, retryAt: Time, next: Uuid)
    ensures var r := RecordFailure(t, task, attempt, event, error, max, retryAt, next);
            && (r.Err? <==>
                  || max < 1
                  || (task in t.tasks && (forall a :: a in t.attempts ==> t.attempts[a].failureEvent != Some(event))
                      && !(attempt in t.attempts && t.attempts[attempt].task == task)))
            && (max >= 1 && task !in t.tasks ==> r == Ok((Exhausted, t)))
  {
  }

  // The orchestrator may record the outcome of the event.
  ghost predicate Recordable(policy: RetryPolicy, t: Tables, e: Event) {
    match e.outcome
    case Succeeded(_) => e.task in t.tasks ==> e.attempt in t.attempts && t.attempts[e.attempt].task == e.task
    case Errored(_) =>
      && e.number >= 1 && policy.maxAttempts >= 1
      && (e.task in t.tasks ==>
            || (exists a :: a in t.attempts && t.attempts[a].failureEvent == Some(e.id))
            || (e.attempt in t.attempts && t.attempts[e.attempt].task == e.task))
  }

  /** An event is refused when its task is not the one of its execution and node, when the execution or
      the node is unknown, or when its outcome cannot be recorded; and it is never accepted then. */
  lemma EventRefused(s: Settings, db: Db, e: Event, now: Time, next: Uuid)
    ensures e.task != TaskId(e.execution, e.node) ==> Process(s, db, e, now, next) == Err(TaskMismatch)
    ensures e.task == TaskId(e.execution, e.node) && e.execution != db.exec.id ==> Process(s, db, e, now, next) == Err(ExecutionNotFound)
    ensures e.task == TaskId(e.execution, e.node) && e.execution == db.exec.id && e.node !in db.exec.nodes ==>
              Process(s, db, e, now, next) == Err(NodeNotFound)
    ensures Process(s, db, e, now, next).Ok? ==> Recordable(s.policy, db.tables, e)
  {
    hide Conclude;
    if e.outcome.Errored? && e.number >= 1 {
      FailureRefusedIff(db.tables, e.task, e.attempt, e.id, e.outcome.error, s.policy.maxAttempts, now + DelayFor(s.policy, e.number), next);
    }
  }

  /** An event that can be recorded and concerns a node that has been started is accepted. */
  lemma EventAccepted(s: Settings, db: Db, e: Event, now: Time, next: Uuid)
    requires e.task == TaskId(e.execution, e.node) && e.execution == db.exec.id && e.node in db.exec.nodes && Recordable(s.policy, db.tables, e)
    ensures !db.exec.nodes[e.node].status.Pending? ==> Process(s, db, e, now, next).Ok?
    ensures Process(s, db, e, now, next).Err? ==> Process(s, db, e, now, next) == Err(CannotComplete(Pending))
  {
    hide Propagate, Finalize, ReadyIds;
    if e.outcome.Errored? {
      FailureRefusedIff(db.tables, e.task, e.attempt, e.id, e.outcome.error, s.policy.maxAttempts, now + DelayFor(s.policy, e.number), next);
    }
  }

  /** Dispatch of a node with a failed dependency fails the node if it is pending and gives the reason;
      otherwise it is refused exactly when a template cannot be resolved, and starts the node exactly
      when it is pending. */
  lemma DispatchOutcomeIs(db: Db, node: Node, input: map<string, Json>, attempt: Uuid)
    ensures var r := Dispatch(db, node, input, attempt);
            var x := db.exec;
            var blocked := exists d :: d in node.dependencies && d in x.nodes && x.nodes[d].status.Failed?;
            && (blocked ==>
                  && r.Ok? && r.value.0 == AlreadyStarted && r.value.1.tables == db.tables
                  && r.value.1.exec.outbox == x.outbox && r.value.1.exec.nodes.Keys == x.nodes.Keys
                  && forall n :: n in x.nodes ==>
                       r.value.1.exec.nodes[n] ==
                         if n == node.id && x.nodes[n].status.Pending?
                         then NodeRow(Failed, x.nodes[n].output, Some(TaskError("A required dependency failed.", "FailedDependency"))) else x.nodes[n])
            && (!blocked ==>
                  && (r.Err? <==> InputResolver.Resolve(node, input, CompletedOutputs(x.nodes, node.dependencies)).None?)
                  && (r.Ok? ==> (r.value.0.Dispatched? <==> node.id in x.nodes && x.nodes[node.id].status.Pending?))
                  && (r.Ok? && r.value.0.AlreadyStarted? ==> r.value.1 == db))
  {
    hide InputResolver.Resolve, Claim;
  }

  /** A trigger starts a pending execution with the given input, or with the one it has, and is refused
      otherwise. */
  lemma TriggerOutcomeIs(x: Execution, input: Option<map<string, Json>>, mid: Uuid)
    ensures Trigger(x, input, mid).Ok? <==> x.status.Pending?
    ensures x.status.Pending? ==>
              Trigger(x, input, mid).value
              == Execution(x.id, Running, match input case Some(i) => i case None => x.input, x.nodes, x.outbox + [OutboxMessage(RandomId(mid), ExecutionTriggered)])
  {
  }

  /** A granted claim, a recorded result, a completed mark, a renewal and a published retry change the row
      of the attempt in these columns and nothing else. */
  lemma RowChangesAre(t: Tables, m: TaskMessage, e: Event, attempt: Uuid, worker: Worker, at: Time, expiresAt: Time)
    ensures ClaimAttempt(t, m, worker, at, expiresAt).Ok? && ClaimAttempt(t, m, worker, at, expiresAt).value.0.ClaimGranted? ==>
              var t' := ClaimAttempt(t, m, worker, at, expiresAt).value.1;
              ChangesTo(t, t', m.attempt, (a: AttemptRow) => a.(status := Claimed, claimedBy := Some(worker), claimExpiresAt := Some(expiresAt)))
              && t'.dispatches == t.dispatches
    ensures RecordResult(t, e).Ok? <==> e.attempt in t.attempts && t.attempts[e.attempt].status.Claimed?
    ensures RecordResult(t, e).Ok? && e.outcome.Succeeded? ==>
              ChangesTo(t, RecordResult(t, e).value, e.attempt,
                        (a: AttemptRow) => a.(status := ResultRecorded, completionEvent := Some(e.id), result := e.outcome.output,
                                              errorMessage := None, errorKind := None))
    ensures RecordResult(t, e).Ok? && e.outcome.Errored? ==>
              ChangesTo(t, RecordResult(t, e).value, e.attempt,
                        (a: AttemptRow) => a.(status := ResultRecorded, completionEvent := Some(e.id), result := Null,
                                              errorMessage := Some(e.outcome.error.message), errorKind := Some(e.outcome.error.kind)))
    ensures MarkCompleted(t, attempt).Ok? <==> attempt in t.attempts && t.attempts[attempt].status.ResultRecorded?
    ensures MarkCompleted(t, attempt).Ok? ==>
              ChangesTo(t, MarkCompleted(t, attempt).value, attempt, (a: AttemptRow) => a.(status := Done, claimExpiresAt := None))
    ensures RenewClaim(t, attempt, worker, expiresAt).0 <==>
              attempt in t.attempts && t.attempts[attempt].status.Claimed? && t.attempts[attempt].claimedBy == Some(worker)
    ensures RenewClaim(t, attempt, worker, expiresAt).0 ==>
              ChangesTo(t, RenewClaim(t, attempt, worker, expiresAt).1, attempt, (a: AttemptRow) => a.(claimExpiresAt := Some(expiresAt)))
    ensures !RenewClaim(t, attempt, worker, expiresAt).0 ==> RenewClaim(t, attempt, worker, expiresAt).1 == t
  {
  }

  // The tables differ in this one attempt, which changes as the function says.
  ghost predicate ChangesTo(t: Tables, t': Tables, attempt: Uuid, change: AttemptRow -> AttemptRow) {
    attempt in t.attempts && t'.tasks == t.tasks && t'.attempts == t.attempts[attempt := change(t.attempts[attempt])]
  }

  /** Marking takes effect once, on an unpublished row; a scheduled attempt is queued by it. */
  lemma MarkingIs(t: Tables, attempt: Uuid)
    ensures var (marked, t') := MarkRetryPublished(t, attempt);
            && (marked <==> attempt in t.dispatches && !t.dispatches[attempt].published)
            && (!marked ==> t' == t)
            && (marked ==>
                  && t'.dispatches == t.dispatches[attempt := DispatchRow(t.dispatches[attempt].availableAt, true)] && t'.tasks == t.tasks
                  && t'.attempts == if attempt in t.attempts && t.attempts[attempt].status.Scheduled?
                                    then t.attempts[attempt := t.attempts[attempt].(status := Queued)] else t.attempts)
  {
  }

  /** Noting a new failure: the attempt is failed under that event with that error; at the limit the task
      fails with the error, below it a scheduled attempt with the next number waits until its time. */
  lemma NotedFailureIs(t: Tables, task: TaskId, attempt: Uuid, event: Uuid, error: TaskError, max: int, retryAt: Time, next: Uuid)
    requires max >= 1 && task in t.tasks && attempt in t.attempts && t.attempts[attempt].task == task && next !in t.attempts
    ensures var r := RecordFailure(t, task, attempt, event, error, max, retryAt, next);
            var a := t.attempts[attempt];
            var news := a.failureEvent.None? && !(a.status.Done? && a.completionEvent != Some(event))
                        && (forall b :: b in t.attempts ==> t.attempts[b].failureEvent != Some(event));
            && r.Ok?
            && (!news ==> r.value == (Duplicate, t))
            && (news ==>
                  var t' := r.value.1;
                  var broken := a.(status := Broken, failureEvent := Some(event), errorMessage := Some(error.message), errorKind := Some(error.kind));
                  && (a.number >= max ==>
                        && r.value.0 == Exhausted && t'.attempts == t.attempts[attempt := broken] && t'.dispatches == t.dispatches
                        && t'.tasks == t.tasks[task := t.tasks[task].(status := TaskFailed, finalError := Some(error))])
                  && (a.number < max ==>
                        && r.value.0 == RetryScheduled(next, a.number + 1)
                        && t'.attempts == t.attempts[attempt := broken][next := AttemptRow(task, a.number + 1, Scheduled, None, None, Null, None, None, None, None)]
                        && t'.dispatches == t.dispatches[next := DispatchRow(retryAt, false)]
                        && t'.tasks == t.tasks[task := t.tasks[task].(status := TaskRetryScheduled)]))
  {
  }

  /** The ready list a completion returns: after a success that was processed, the pending nodes whose
      dependencies have all completed by then; in every other case nothing. */
  lemma ReadyAfter(s: Settings, db: Db, e: Event, now: Time, next: Uuid, n: string)
    requires UniqueIds(s.workflow) && n in Ids(s.workflow) && Process(s, db, e, now, next).Ok?
    ensures var (decision, db') := Process(s, db, e, now, next).value;
            var nodes := db'.exec.nodes;
            && (n in decision.ready <==>
                  && decision.outcome.Processed? && e.outcome.Succeeded?
                  && (n in nodes ==> nodes[n].status.Pending?)
                  && forall d :: d in DepsOf(s.workflow, n) ==> d in nodes && nodes[d].status.Completed?)
            && (decision.ready != [] ==> decision.outcome.Processed? && e.outcome.Succeeded?)
  {
    hide ReadyIds, FailedDependencies, TaskTables.RecordSuccess, TaskTables.RecordFailure, DepsOf;
    ReadyById(s.workflow, NodeStatuses(Process(s, db, e, now, next).value.1.exec.nodes), n);
  }

  /** Results are given only for a completed execution without failed nodes: the outputs of its
      completed nodes. */
  lemma ResultsAre(x: Execution)
    ensures !x.status.Completed? <==> ResultsOf(x) == NotAvailable(x.status)
    ensures x.status.Completed? ==>
              (ResultsOf(x) == Inconsistent <==> exists n :: n in x.nodes && x.nodes[n].status.Failed?)
    ensures ResultsOf(x).Available? ==>
              var outputs := ResultsOf(x).outputs;
              && (forall n :: n in outputs <==> n in x.nodes && x.nodes[n].status.Completed?)
              && (forall n :: n in outputs ==> outputs[n] == x.nodes[n].output)
  {
  }
}
