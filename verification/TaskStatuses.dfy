/** What the status column of logical_tasks means. */
module TaskStatuses {
  import opened Wrappers
  import opened JsonValues
  import opened Definitions
  import opened TaskTables
  import opened Traversal
  import opened ExecutionTables
  import opened ExecutionInvariants
  import opened Protocol
  import opened ProtocolInvariants
  import DispatchSteps
  import CompletionSteps
  import opened StepEffects
  import opened Theorems
  import opened RetryWaits

  /** Failed once the last permitted attempt has failed, scheduled for retry once there is a second
      attempt, running until then. */
  ghost function StatusMeaning(t: Tables, max: int, k: TaskId): TaskStatus {
    if Spent(t, k, max) then TaskFailed else if HasAttempt(t, k, 2) then TaskRetryScheduled else TaskRunning
  }

  ghost predicate StatusesMean(t: Tables, max: int) {
    forall k :: k in t.tasks ==> t.tasks[k].status == StatusMeaning(t, max, k)
  }

  /** Nothing the meaning depends on has changed for this task. */
  ghost predicate SameAttempts(t: Tables, t': Tables, k: TaskId) {
    && (forall a :: a in t.attempts && t.attempts[a].task == k ==>
          && a in t'.attempts && t'.attempts[a].task == k && t'.attempts[a].number == t.attempts[a].number
          && t'.attempts[a].failureEvent == t.attempts[a].failureEvent)
    && (forall a :: a in t'.attempts && t'.attempts[a].task == k ==> a in t.attempts && t.attempts[a].task == k)
  }

  lemma SameMeaning(t: Tables, t': Tables, max: int, k: TaskId)
    requires SameAttempts(t, t', k)
    ensures StatusMeaning(t', max, k) == StatusMeaning(t, max, k)
  {
    if a :| a in t.attempts && t.attempts[a].task == k && t.attempts[a].number == max && t.attempts[a].failureEvent.Some? {
      assert a in t'.attempts;
    }
    if a :| AttemptNumbered(t, k, 2, a) {
      assert AttemptNumbered(t', k, 2, a);
    }
    if a :| AttemptNumbered(t', k, 2, a) {
      assert AttemptNumbered(t, k, 2, a);
    }
  }

  ghost predicate SameForAll(t: Tables, t': Tables) {
    t'.tasks == t.tasks && forall k :: k in t.tasks ==> SameAttempts(t, t', k)
  }

  lemma SameKeepsStatuses(t: Tables, t': Tables, max: int)
    requires SameForAll(t, t') && StatusesMean(t, max)
    ensures StatusesMean(t', max)
  {
    hide SameAttempts, StatusMeaning;
    forall k | k in t'.tasks ensures t'.tasks[k].status == StatusMeaning(t', max, k) {
      SameMeaning(t, t', max, k);
    }
  }

  // ---------- Steps ----------

  lemma ClaimSame(t: Tables, m: TaskMessage, worker: Worker, at: Time, expiresAt: Time)
    requires ClaimAttempt(t, m, worker, at, expiresAt).Ok?
    ensures SameForAll(t, ClaimAttempt(t, m, worker, at, expiresAt).value.1)
  {
  }

  lemma OthersSame(t: Tables, e: Event, a: Uuid)
    ensures RecordResult(t, e).Ok? ==> SameForAll(t, RecordResult(t, e).value)
    ensures MarkCompleted(t, a).Ok? ==> SameForAll(t, MarkCompleted(t, a).value)
  {
  }

  lemma MoreSame(t: Tables, a: Uuid, worker: Worker, expiresAt: Time)
    ensures SameForAll(t, RenewClaim(t, a, worker, expiresAt).1)
    ensures SameForAll(t, MarkRetryPublished(t, a).1)
  {
  }

  lemma WorkerKeepsStatuses(sys: System, s: State, step: Step)
    requires Enabled(sys, s, step) && StatusesMean(s.db.tables, Limit(sys))
    requires step.ClaimStep? || step.RenewStep? || step.RecordStep? || step.MarkCompletedStep? || step.MarkRetryStep?
    ensures StatusesMean(After(sys, s, step).db.tables, Limit(sys))
  {
    hide StatusesMean, SameForAll, ClaimAttempt, RenewClaim, RecordResult, MarkCompleted, MarkRetryPublished;
    var t, t' := s.db.tables, After(sys, s, step).db.tables;
    if t' != t {
      match step {
        case ClaimStep(worker, m) => ClaimSame(t, m, worker, s.now, s.now + sys.lease(worker));
        case RenewStep(run) => MoreSame(t, run.message.attempt, run.worker, s.now + sys.lease(run.worker));
        case RecordStep(run, outcome, id) => OthersSame(t, EventOf(run.message, id, outcome), 0);
        case MarkCompletedStep(e) => OthersSame(t, e, e.attempt);
        case MarkRetryStep(m) => MoreSame(t, m.attempt, "", 0.0);
      }
      SameKeepsStatuses(t, t', Limit(sys));
    }
  }

  // A new task starts with its first attempt, which has not failed.
  lemma ClaimedKeepsStatuses(sys: System, s: State, s': State, node: Node, input: map<string, Json>, attempt: Uuid)
    requires DispatchSteps.NodeClaimed(s.db.exec, s'.db.exec, s.db.tables, s'.db.tables, node, input, attempt)
    requires TaskOf(s.db.exec, node.id) !in s.db.tables.tasks && attempt !in s.db.tables.attempts
    requires forall a :: a in s.db.tables.attempts ==> s.db.tables.attempts[a].task in s.db.tables.tasks
    requires StatusesMean(s.db.tables, Limit(sys))
    ensures StatusesMean(s'.db.tables, Limit(sys))
  {
    var t, t', task := s.db.tables, s'.db.tables, TaskOf(s.db.exec, node.id);
    forall k | k in t'.tasks ensures t'.tasks[k].status == StatusMeaning(t', Limit(sys), k) {
      if k != task {
        SameMeaning(t, t', Limit(sys), k);
      }
    }
  }

  lemma DispatchKeepsStatuses(sys: System, s: State, load: Load, attempt: Uuid)
    requires ValidSystem(sys) && Reachable(sys, s) && Enabled(sys, s, DispatchStep(load, attempt)) && StatusesMean(s.db.tables, Limit(sys))
    ensures StatusesMean(AfterDispatch(s, load, attempt).db.tables, Limit(sys))
  {
    hide Reachable, Inv, Claim, StatusesMean, DispatchSteps.NodeClaimed;
    ReachableInv(sys, s);
    DispatchSteps.DispatchNeverFails(sys, s, load);
    var n, x := load.node.id, s.db.exec;
    if n in x.nodes && x.nodes[n].status.Pending? {
      var input :| AfterDispatch(s, load, attempt).db == Claim(s.db, load.node, input, attempt);
      DispatchSteps.ClaimEffect(sys, s, load.node, input, attempt);
      forall a | a in s.db.tables.attempts ensures s.db.tables.attempts[a].task in s.db.tables.tasks {
        AttemptsBelong(sys, s, a);
      }
      ClaimedKeepsStatuses(sys, s, AfterDispatch(s, load, attempt), load.node, input, attempt);
    }
  }

  // The task whose failure is noted has the status that its attempts mean, and no other changes.
  lemma FailureKeepsStatuses(sys: System, s: State, s': State, e: Event, next: Uuid, retryAt: Time)
    requires ValidSystem(sys) && Reachable(sys, s') && StatusesMean(s.db.tables, Limit(sys))
    requires e.outcome.Errored? && e.attempt in s.db.tables.attempts && e.task in s.db.tables.tasks && next !in s.db.tables.attempts
    requires s.db.tables.attempts[e.attempt].task == e.task && s.db.tables.attempts[e.attempt].number == e.number <= Limit(sys)
    requires s'.db.tables == if e.number < Limit(sys) then AfterRetry(s.db.tables, e.task, e.attempt, e.id, e.outcome.error, next, retryAt)
                             else AfterExhausted(s.db.tables, e.task, e.attempt, e.id, e.outcome.error)
    requires e.number >= 1
    ensures StatusesMean(s'.db.tables, Limit(sys))
  {
    var t, t', max := s.db.tables, s'.db.tables, Limit(sys);
    forall k | k in t'.tasks ensures t'.tasks[k].status == StatusMeaning(t', max, k) {
      if k != e.task {
        SameMeaning(t, t', max, k);
      } else if e.number < max {
        NotSpentYet(sys, s', k, next);
      } else {
        assert t'.attempts[e.attempt].number == max && t'.attempts[e.attempt].failureEvent.Some?;
      }
    }
  }

  // A task whose latest attempt is a retry that has not failed.
  lemma NotSpentYet(sys: System, s: State, k: TaskId, next: Uuid)
    requires ValidSystem(sys) && Reachable(sys, s) && next in s.db.tables.attempts && k in s.db.tables.tasks
    requires s.db.tables.attempts[next].task == k && s.db.tables.attempts[next].number >= 2 && s.db.tables.attempts[next].failureEvent.None?
    ensures !Spent(s.db.tables, k, Limit(sys)) && HasAttempt(s.db.tables, k, 2)
  {
    hide Reachable;
    var t := s.db.tables;
    var last := AttemptsFormAChain(sys, s, k);
    assert AttemptNumbered(t, k, t.attempts[next].number, next);
    assert HasAttempt(t, k, t.attempts[next].number);
    assert HasAttempt(t, k, 2);
    assert t.attempts[next].number == last;
    forall a | AttemptNumbered(t, k, Limit(sys), a) ensures t.attempts[a].failureEvent.None? {
      assert HasAttempt(t, k, Limit(sys));
    }
    assert forall a :: a in t.attempts && t.attempts[a].task == k && t.attempts[a].number == Limit(sys) ==> AttemptNumbered(t, k, Limit(sys), a);
  }

  lemma ProcessKeepsStatuses(sys: System, s: State, e: Event, next: Uuid)
    requires ValidSystem(sys) && Reachable(sys, s) && Enabled(sys, s, ProcessStep(e, next)) && StatusesMean(s.db.tables, Limit(sys))
    requires Reachable(sys, AfterProcess(sys, s, e, next))
    ensures StatusesMean(AfterProcess(sys, s, e, next).db.tables, Limit(sys))
  {
    hide Reachable, Inv, Conclude, Process, StatusesMean, AfterRetry, AfterExhausted;
    ReachableInv(sys, s);
    CompletionSteps.DeliveredIsRecorded(sys, s, e);
    CompletionSteps.EventBelongs(sys, s, e);
    CompletionSteps.AttemptsAreUsed(sys, s);
    var s', t := AfterProcess(sys, s, e, next), s.db.tables;
    if e.outcome.Succeeded? {
      CompletionSteps.ProcessSuccess(sys, s, e, next);
      if s.db.exec.nodes[e.node].status.Running? {
        ConcludeKeepsTables(sys, s.db, e);
      }
    } else {
      CompletionSteps.ProcessFailure(sys, s, e, next);
      if t.attempts[e.attempt].failureEvent.None? {
        if e.number >= Limit(sys) {
          ConcludeKeepsTables(sys, s.db.(tables := AfterExhausted(t, e.task, e.attempt, e.id, e.outcome.error)), e);
        }
        FailureKeepsStatuses(sys, s, s', e, next, CompletionSteps.RetryTime(sys, s, e));
      }
    }
  }

  lemma StepKeepsStatuses(sys: System, s: State, step: Step)
    requires ValidSystem(sys) && Reachable(sys, s) && Enabled(sys, s, step) && StatusesMean(s.db.tables, Limit(sys))
    requires Reachable(sys, After(sys, s, step))
    ensures StatusesMean(After(sys, s, step).db.tables, Limit(sys))
  {
    hide Reachable, StatusesMean, ProcessResult, Dispatch, Trigger, ClaimResult, AfterClaim, AfterRenew, AfterRecord;
    match step
    case DispatchStep(load, attempt) => DispatchKeepsStatuses(sys, s, load, attempt);
    case ProcessStep(event, next) => ProcessKeepsStatuses(sys, s, event, next);
    case ClaimStep(_, _) => WorkerKeepsStatuses(sys, s, step);
    case RenewStep(_) => WorkerKeepsStatuses(sys, s, step);
    case RecordStep(_, _, _) => WorkerKeepsStatuses(sys, s, step);
    case MarkCompletedStep(_) => WorkerKeepsStatuses(sys, s, step);
    case MarkRetryStep(_) => WorkerKeepsStatuses(sys, s, step);
    case _ =>
  }

  lemma {:induction false} RunKeepsStatuses(sys: System, states: seq<State>, steps: seq<Step>, i: nat)
    requires ValidSystem(sys) && IsRun(sys, states, steps) && i < |states|
    ensures StatusesMean(states[i].db.tables, Limit(sys))
    decreases i
  {
    hide Enabled, After, ValidSystem, StatusMeaning, Reachable;
    if i > 0 {
      RunKeepsStatuses(sys, states, steps, i - 1);
      VisitedIsReachable(sys, states, steps, i - 1);
      VisitedIsReachable(sys, states, steps, i);
      assert Next(sys, states[i - 1], steps[i - 1], states[i]);
      StepKeepsStatuses(sys, states[i - 1], steps[i - 1]);
    }
  }

  lemma VisitedIsReachable(sys: System, states: seq<State>, steps: seq<Step>, i: nat)
    requires IsRun(sys, states, steps) && i < |states|
    ensures Reachable(sys, states[i])
  {
  }

  /** In every reachable state the status of a logical task is failed exactly when its last permitted
      attempt has failed, scheduled for retry exactly when it has a second attempt and the last
      permitted one has not failed, and running otherwise. It is never completed, since the success of
      an attempt is never news to the orchestrator. */
  lemma TaskStatusMeans(sys: System, s: State, k: TaskId)
    requires ValidSystem(sys) && Reachable(sys, s) && k in s.db.tables.tasks
    ensures s.db.tables.tasks[k].status == StatusMeaning(s.db.tables, Limit(sys), k)
    ensures !s.db.tables.tasks[k].status.TaskCompleted?
  {
    hide IsRun, StatusMeaning, ValidSystem;
    var states, steps, i :| IsRun(sys, states, steps) && 0 <= i < |states| && states[i] == s;
    RunKeepsStatuses(sys, states, steps, i);
    MeaningIsNotCompleted(s.db.tables, Limit(sys), k);
  }

  lemma MeaningIsNotCompleted(t: Tables, max: int, k: TaskId)
    ensures !StatusMeaning(t, max, k).TaskCompleted?
  {
  }

  // ---------- Running nodes ----------

  /** A running node has an attempt left. */
  ghost predicate Unspent(x: Execution, t: Tables, max: int) {
    forall n :: n in x.nodes && x.nodes[n].status.Running? ==> !Spent(t, TaskOf(x, n), max)
  }

  lemma SameSpent(t: Tables, t': Tables, k: TaskId, max: int)
    requires SameAttempts(t, t', k)
    ensures Spent(t', k, max) <==> Spent(t, k, max)
  {
    if a :| a in t.attempts && t.attempts[a].task == k && t.attempts[a].number == max && t.attempts[a].failureEvent.Some? {
      assert a in t'.attempts;
    }
  }

  /** In every reachable state a running node has an attempt that has not failed. */
  lemma {:induction false} RunningIsUnspent(sys: System, states: seq<State>, steps: seq<Step>, i: nat)
    requires ValidSystem(sys) && IsRun(sys, states, steps) && i < |states|
    ensures Unspent(states[i].db.exec, states[i].db.tables, Limit(sys))
    decreases i
  {
    hide Enabled, After, ValidSystem, Reachable, Spent;
    if i > 0 {
      RunningIsUnspent(sys, states, steps, i - 1);
      VisitedIsReachable(sys, states, steps, i - 1);
      VisitedIsReachable(sys, states, steps, i);
      assert Next(sys, states[i - 1], steps[i - 1], states[i]);
      StepKeepsUnspent(sys, states[i - 1], steps[i - 1]);
    }
  }

  lemma SameForTask(t: Tables, t': Tables, k: TaskId)
    requires SameForAll(t, t')
    ensures k in t.tasks ==> SameAttempts(t, t', k)
  {
  }

  lemma RunningHasTask(sys: System, s: State, n: string)
    requires ValidSystem(sys) && Reachable(sys, s) && n in s.db.exec.nodes && s.db.exec.nodes[n].status.Running?
    ensures TaskOf(s.db.exec, n) in s.db.tables.tasks
  {
    hide Reachable, HasAttempt, AttemptNumbered;
    FirstAttemptIsUnique(sys, s, n);
  }

  lemma WorkerKeepsUnspent(sys: System, s: State, step: Step)
    requires ValidSystem(sys) && Reachable(sys, s) && Enabled(sys, s, step) && Unspent(s.db.exec, s.db.tables, Limit(sys))
    requires step.ClaimStep? || step.RenewStep? || step.RecordStep? || step.MarkCompletedStep? || step.MarkRetryStep?
    ensures Unspent(After(sys, s, step).db.exec, After(sys, s, step).db.tables, Limit(sys))
  {
    hide Reachable, SameForAll, ClaimAttempt, RenewClaim, RecordResult, MarkCompleted, MarkRetryPublished, Spent, SameAttempts;
    var t, s' := s.db.tables, After(sys, s, step);
    if s'.db.tables != t {
      match step {
        case ClaimStep(worker, m) => ClaimSame(t, m, worker, s.now, s.now + sys.lease(worker));
        case RenewStep(run) => MoreSame(t, run.message.attempt, run.worker, s.now + sys.lease(run.worker));
        case RecordStep(run, outcome, id) => OthersSame(t, EventOf(run.message, id, outcome), 0);
        case MarkCompletedStep(e) => OthersSame(t, e, e.attempt);
        case MarkRetryStep(m) => MoreSame(t, m.attempt, "", 0.0);
      }
      forall n | n in s.db.exec.nodes && s.db.exec.nodes[n].status.Running? ensures !Spent(s'.db.tables, TaskOf(s.db.exec, n), Limit(sys)) {
        RunningHasTask(sys, s, n);
        SameForTask(t, s'.db.tables, TaskOf(s.db.exec, n));
        SameSpent(t, s'.db.tables, TaskOf(s.db.exec, n), Limit(sys));
      }
    }
  }

  lemma StartKeepsUnspent(sys: System, s: State, s': State, node: Node, input: map<string, Json>, attempt: Uuid)
    requires DispatchSteps.NodeClaimed(s.db.exec, s'.db.exec, s.db.tables, s'.db.tables, node, input, attempt)
    requires TaskOf(s.db.exec, node.id) !in s.db.tables.tasks && attempt !in s.db.tables.attempts
    requires forall a :: a in s.db.tables.attempts ==> s.db.tables.attempts[a].task in s.db.tables.tasks
    requires Unspent(s.db.exec, s.db.tables, Limit(sys))
    ensures Unspent(s'.db.exec, s'.db.tables, Limit(sys))
  {
    var x, x', t, t' := s.db.exec, s'.db.exec, s.db.tables, s'.db.tables;
    forall n | n in x'.nodes && x'.nodes[n].status.Running? ensures !Spent(t', TaskOf(x', n), Limit(sys)) {
      if n != node.id {
        assert SameAttempts(t, t', TaskOf(x, n));
        SameSpent(t, t', TaskOf(x, n), Limit(sys));
      }
    }
  }

  lemma DispatchKeepsUnspent(sys: System, s: State, load: Load, attempt: Uuid)
    requires ValidSystem(sys) && Reachable(sys, s) && Enabled(sys, s, DispatchStep(load, attempt))
    requires Unspent(s.db.exec, s.db.tables, Limit(sys))
    ensures Unspent(AfterDispatch(s, load, attempt).db.exec, AfterDispatch(s, load, attempt).db.tables, Limit(sys))
  {
    hide Reachable, Inv, Claim, Unspent, DispatchSteps.NodeClaimed;
    ReachableInv(sys, s);
    DispatchSteps.DispatchNeverFails(sys, s, load);
    var n, x := load.node.id, s.db.exec;
    if n in x.nodes && x.nodes[n].status.Pending? {
      var input :| AfterDispatch(s, load, attempt).db == Claim(s.db, load.node, input, attempt);
      DispatchSteps.ClaimEffect(sys, s, load.node, input, attempt);
      forall a | a in s.db.tables.attempts ensures s.db.tables.attempts[a].task in s.db.tables.tasks {
        AttemptsBelong(sys, s, a);
      }
      StartKeepsUnspent(sys, s, AfterDispatch(s, load, attempt), load.node, input, attempt);
    }
  }

  // Nodes that run after a completion have run before.
  lemma RanBefore(sys: System, s: State, step: Step, n: string)
    requires ValidSystem(sys) && Inv(sys, s) && Enabled(sys, s, step) && step.ProcessStep?
    requires n in After(sys, s, step).db.exec.nodes && After(sys, s, step).db.exec.nodes[n].status.Running?
    ensures n in s.db.exec.nodes && s.db.exec.nodes[n].status.Running?
    ensures After(sys, s, step).db.exec.id == s.db.exec.id
  {
    hide Inv, Process, AfterRetry, AfterExhausted, Propagate, Finalize, ReadyIds, ExecutionInv;
    var e, next := step.event, step.next;
    CompletionSteps.DeliveredIsRecorded(sys, s, e);
    ExecutionPart(sys, s);
    if e.outcome.Succeeded? {
      CompletionSteps.ProcessSuccess(sys, s, e, next);
      if s.db.exec.nodes[e.node].status.Running? {
        ConcludeStartsNothing(Flow(sys), s.db, e, n);
      }
    } else {
      CompletionSteps.ProcessFailure(sys, s, e, next);
      if s.db.tables.attempts[e.attempt].failureEvent.None? && e.number >= Limit(sys) {
        ConcludeStartsNothing(Flow(sys), s.db.(tables := AfterExhausted(s.db.tables, e.task, e.attempt, e.id, e.outcome.error)), e, n);
      }
    }
  }

  lemma ConcludeStartsNothing(w: Workflow, db: Db, e: Event, n: string)
    requires ExecutionInv(w, db.exec) && e.node in db.exec.nodes && Conclude(w, db, e).Ok?
    ensures var db' := Conclude(w, db, e).value.1;
            && db'.tables == db.tables && db'.exec.id == db.exec.id
            && (n in db'.exec.nodes && db'.exec.nodes[n].status.Running? ==> n in db.exec.nodes && db.exec.nodes[n].status.Running?)
            && (db.exec.nodes[e.node].status.Running? && n == e.node && n in db'.exec.nodes ==> !db'.exec.nodes[n].status.Running?)
  {
    var x := db.exec;
    if x.nodes[e.node].status.Running? {
      var settled := x.nodes[e.node := Settle(x.nodes[e.node], e.outcome)];
      CompletionSteps.FinalizeKeepsNodes(w, Propagate(w, x, e), e.id);
      if e.outcome.Errored? {
        FailDependantsRows(w, settled, e.node);
        if n in settled {
          FailStatuses(w, settled, e.node, n);
        }
      }
    }
  }

  lemma ProcessKeepsUnspent(sys: System, s: State, e: Event, next: Uuid)
    requires ValidSystem(sys) && Reachable(sys, s) && Enabled(sys, s, ProcessStep(e, next)) && Unspent(s.db.exec, s.db.tables, Limit(sys))
    requires Reachable(sys, AfterProcess(sys, s, e, next))
    ensures Unspent(AfterProcess(sys, s, e, next).db.exec, AfterProcess(sys, s, e, next).db.tables, Limit(sys))
  {
    hide Reachable, Inv, Spent, AfterProcess, ProcessResult;
    ReachableInv(sys, s);
    var s' := AfterProcess(sys, s, e, next);
    forall n | n in s'.db.exec.nodes && s'.db.exec.nodes[n].status.Running? ensures !Spent(s'.db.tables, TaskOf(s'.db.exec, n), Limit(sys)) {
      RanBefore(sys, s, ProcessStep(e, next), n);
      ProcessKeepsUnspentOf(sys, s, e, next, n);
    }
  }

  lemma ProcessKeepsUnspentOf(sys: System, s: State, e: Event, next: Uuid, n: string)
    requires ValidSystem(sys) && Reachable(sys, s) && Inv(sys, s) && Enabled(sys, s, ProcessStep(e, next))
    requires Reachable(sys, AfterProcess(sys, s, e, next))
    requires n in s.db.exec.nodes && s.db.exec.nodes[n].status.Running? && !Spent(s.db.tables, TaskOf(s.db.exec, n), Limit(sys))
    requires n in AfterProcess(sys, s, e, next).db.exec.nodes && AfterProcess(sys, s, e, next).db.exec.nodes[n].status.Running?
    ensures !Spent(AfterProcess(sys, s, e, next).db.tables, TaskOf(s.db.exec, n), Limit(sys))
  {
    hide Reachable, Inv, Conclude, Process, Spent, AfterRetry, AfterExhausted, ExecutionInv;
    CompletionSteps.DeliveredIsRecorded(sys, s, e);
    CompletionSteps.EventBelongs(sys, s, e);
    CompletionSteps.AttemptsAreUsed(sys, s);
    ExecutionPart(sys, s);
    var t, s', k := s.db.tables, AfterProcess(sys, s, e, next), TaskOf(s.db.exec, n);
    if e.outcome.Succeeded? {
      CompletionSteps.ProcessSuccess(sys, s, e, next);
      if s.db.exec.nodes[e.node].status.Running? {
        ConcludeStartsNothing(Flow(sys), s.db, e, n);
      }
    } else {
      CompletionSteps.ProcessFailure(sys, s, e, next);
      if t.attempts[e.attempt].failureEvent.None? {
        if e.number >= Limit(sys) {
          var t' := AfterExhausted(t, e.task, e.attempt, e.id, e.outcome.error);
          ConcludeStartsNothing(Flow(sys), s.db.(tables := t'), e, n);
          ConcludeOnRunning(sys, s, e, n, t');
          NotedElsewhere(t, t', e, next, s.now, k);
          SameSpent(t, t', k, Limit(sys));
        } else {
          var at := CompletionSteps.RetryTime(sys, s, e);
          var t' := AfterRetry(t, e.task, e.attempt, e.id, e.outcome.error, next, at);
          NotedElsewhere(t, t', e, next, at, k);
          if k != e.task {
            SameSpent(t, t', k, Limit(sys));
          } else {
            RetryRow(t, e, next, at);
            NotSpentYet(sys, s', k, next);
          }
        }
      }
    }
  }

  // The node whose last failure is noted runs no more.
  lemma ConcludeOnRunning(sys: System, s: State, e: Event, n: string, t': Tables)
    requires e.node in s.db.exec.nodes && Conclude(Flow(sys), s.db.(tables := t'), e).Ok? && ExecutionInv(Flow(sys), s.db.exec)
    requires n in s.db.exec.nodes && s.db.exec.nodes[n].status.Running?
    requires n in Conclude(Flow(sys), s.db.(tables := t'), e).value.1.exec.nodes
    requires Conclude(Flow(sys), s.db.(tables := t'), e).value.1.exec.nodes[n].status.Running?
    ensures n != e.node
  {
    hide Propagate, Finalize, ExecutionInv;
    ConcludeStartsNothing(Flow(sys), s.db.(tables := t'), e, n);
  }

  lemma RetryRow(t: Tables, e: Event, next: Uuid, at: Time)
    requires e.outcome.Errored? && e.task in t.tasks && e.attempt in t.attempts
    ensures var t' := AfterRetry(t, e.task, e.attempt, e.id, e.outcome.error, next, at);
            && next in t'.attempts && t'.attempts[next] == NewAttempt(e.task, t.attempts[e.attempt].number + 1, Scheduled)
            && e.task in t'.tasks
  {
  }

  // Noting a failure changes attempts of its own task only.
  lemma NotedElsewhere(t: Tables, t': Tables, e: Event, next: Uuid, at: Time, k: TaskId)
    requires e.outcome.Errored? && e.task in t.tasks && e.attempt in t.attempts && t.attempts[e.attempt].task == e.task && next !in t.attempts
    requires t' == AfterRetry(t, e.task, e.attempt, e.id, e.outcome.error, next, at)
             || t' == AfterExhausted(t, e.task, e.attempt, e.id, e.outcome.error)
    ensures k != e.task ==> SameAttempts(t, t', k)
  {
  }

  lemma StepKeepsUnspent(sys: System, s: State, step: Step)
    requires ValidSystem(sys) && Reachable(sys, s) && Enabled(sys, s, step) && Unspent(s.db.exec, s.db.tables, Limit(sys))
    requires Reachable(sys, After(sys, s, step))
    ensures Unspent(After(sys, s, step).db.exec, After(sys, s, step).db.tables, Limit(sys))
  {
    hide Reachable, Spent, ProcessResult, Dispatch, ClaimResult, AfterClaim, AfterRenew, AfterRecord, AfterDispatch, AfterProcess;
    match step
    case DispatchStep(load, attempt) => DispatchKeepsUnspent(sys, s, load, attempt);
    case ProcessStep(event, next) => ProcessKeepsUnspent(sys, s, event, next);
    case ClaimStep(_, _) => WorkerKeepsUnspent(sys, s, step);
    case RenewStep(_) => WorkerKeepsUnspent(sys, s, step);
    case RecordStep(_, _, _) => WorkerKeepsUnspent(sys, s, step);
    case MarkCompletedStep(_) => WorkerKeepsUnspent(sys, s, step);
    case MarkRetryStep(_) => WorkerKeepsUnspent(sys, s, step);
    case _ =>
  }
}
