/** What every column of a node row says, and what the final error of a task says. */
module NodeRows {
  import opened Wrappers
  import opened JsonValues
  import opened Definitions
  import opened Traversal
  import opened TaskTables
  import opened AttemptLedger
  import opened ExecutionTables
  import opened ExecutionInvariants
  import opened Protocol
  import opened ProtocolInvariants
  import DispatchSteps
  import CompletionSteps
  import opened StepEffects
  import opened Runs
  import opened Theorems
  import opened RetryWaits
  import opened TaskStatuses
  import opened TaskInputs

  /** The last permitted attempt of the task failed with this error. */
  ghost predicate FailedWith(t: Tables, rec: set<Event>, max: int, k: TaskId, error: TaskError, a: Uuid, e: Event) {
    && a in t.attempts && t.attempts[a].task == k && t.attempts[a].number == max && t.attempts[a].failureEvent == Some(e.id)
    && e in rec && e.attempt == a && e.outcome == Errored(error)
  }

  ghost predicate LastError(t: Tables, rec: set<Event>, max: int, k: TaskId, error: TaskError) {
    exists a, e :: FailedWith(t, rec, max, k, error, a, e)
  }

  /** The row blames a node that failed on its own account. */
  ghost predicate Blames(x: Execution, t: Tables, error: TaskError, cause: string) {
    && cause in x.nodes && x.nodes[cause].status.Failed? && TaskOf(x, cause) in t.tasks
    && error == TaskError("Dependency '" + cause + "' failed.", "FailedDependency")
  }

  /** A pending or running row is as it was submitted but for its status; a completed one has no error;
      one that failed with a task has no output and the error of the last permitted attempt; one that
      failed without a task blames a failed node. */
  ghost predicate RowMeans(x: Execution, t: Tables, rec: set<Event>, max: int, n: string) {
    && n in x.nodes
    && var row := x.nodes[n];
    match row.status
    case Pending => row.output == Object(map[]) && row.error.None?
    case Running => row.output == Object(map[]) && row.error.None?
    case Completed => row.error.None?
    case Failed =>
      row.error.Some?
      && if TaskOf(x, n) in t.tasks then row.output == Null && LastError(t, rec, max, TaskOf(x, n), row.error.value)
         else row.output == Object(map[]) && exists cause :: Blames(x, t, row.error.value, cause)
  }

  ghost predicate RowsMean(x: Execution, t: Tables, rec: set<Event>, max: int) {
    forall n :: n in x.nodes ==> RowMeans(x, t, rec, max, n)
  }

  // ---------- What was said stays true ----------

  lemma ErrorStays(t: Tables, t': Tables, rec: set<Event>, rec': set<Event>, max: int, k: TaskId, error: TaskError)
    requires Grows(t, t') && rec <= rec' && LastError(t, rec, max, k, error)
    ensures LastError(t', rec', max, k, error)
  {
    var a, e :| FailedWith(t, rec, max, k, error, a, e);
    assert FailedWith(t', rec', max, k, error, a, e);
  }

  // A row that has not changed means what it meant, as long as no task appears for it.
  lemma SameRowMeans(x: Execution, x': Execution, t: Tables, t': Tables, rec: set<Event>, rec': set<Event>, max: int, n: string)
    requires RowMeans(x, t, rec, max, n) && n in x'.nodes && x'.nodes[n] == x.nodes[n] && x'.id == x.id
    requires Grows(t, t') && rec <= rec' && NodeMoves(x.nodes, x'.nodes)
    requires TaskOf(x, n) in t'.tasks ==> TaskOf(x, n) in t.tasks || !x.nodes[n].status.Failed?
    ensures RowMeans(x', t', rec', max, n)
  {
    var row := x.nodes[n];
    if row.status.Failed? {
      if TaskOf(x, n) in t.tasks {
        ErrorStays(t, t', rec, rec', max, TaskOf(x, n), row.error.value);
      } else {
        var cause :| Blames(x, t, row.error.value, cause);
        assert NodeMove(x.nodes[cause].status, x'.nodes[cause].status);
        assert Blames(x', t', row.error.value, cause);
      }
    }
  }

  // ---------- Completion ----------

  // What settling a node does to the rows.
  ghost predicate Settles(x: Execution, x': Execution, e: Event) {
    && e.node in x.nodes && x'.id == x.id && x'.nodes.Keys == x.nodes.Keys
    && (e.outcome.Succeeded? ==> x'.nodes[e.node] == NodeRow(Completed, e.outcome.output, x.nodes[e.node].error))
    && (e.outcome.Errored? ==> x'.nodes[e.node] == NodeRow(Failed, Null, Some(e.outcome.error)))
    && (forall n :: n in x.nodes && n != e.node ==>
          || x'.nodes[n] == x.nodes[n]
          || (e.outcome.Errored? && x.nodes[n].status.Pending?
              && x'.nodes[n] == NodeRow(Failed, x.nodes[n].output, Some(TaskError("Dependency '" + e.node + "' failed.", "FailedDependency")))))
  }

  lemma ConcludeSettles(w: Workflow, db: Db, e: Event)
    requires ExecutionInv(w, db.exec) && e.node in db.exec.nodes && db.exec.nodes[e.node].status.Running?
    ensures Conclude(w, db, e).Ok? && Settles(db.exec, Conclude(w, db, e).value.1.exec, e)
  {
    hide ReadyIds, FailedDependencies, StartedAfterDependencies, FailurePropagated, StatusAgrees;
    var x := db.exec;
    CompletionSteps.FinalizeKeepsNodes(w, Propagate(w, x, e), e.id);
    hide Finalize;
  }

  lemma SettledRowsMean(sys: System, x: Execution, x': Execution, t: Tables, t': Tables, rec: set<Event>, e: Event)
    requires Settles(x, x', e) && x.nodes[e.node].status.Running? && Grows(t, t') && NodeMoves(x.nodes, x'.nodes)
    requires RowsMean(x, t, rec, Limit(sys)) && TaskPart(sys, x, t) && t'.tasks.Keys == t.tasks.Keys
    requires e.outcome.Errored? ==> TaskOf(x, e.node) in t.tasks && LastError(t', rec, Limit(sys), TaskOf(x, e.node), e.outcome.error)
    ensures RowsMean(x', t', rec, Limit(sys))
  {
    hide Grows, NodeMoves;
    forall n | n in x'.nodes ensures RowMeans(x', t', rec, Limit(sys), n) {
      assert RowMeans(x, t, rec, Limit(sys), n);
      if n != e.node {
        if x'.nodes[n] == x.nodes[n] {
          SameRowMeans(x, x', t, t', rec, rec, Limit(sys), n);
        } else {
          assert TaskOk(sys, x, t, n);
          assert Blames(x', t', x'.nodes[n].error.value, e.node);
        }
      }
    }
  }

  lemma ProcessRows(sys: System, s: State, e: Event, next: Uuid)
    requires ValidSystem(sys) && Inv(sys, s) && Enabled(sys, s, ProcessStep(e, next))
    requires RowsMean(s.db.exec, s.db.tables, s.recorded, Limit(sys))
    ensures RowsMean(AfterProcess(sys, s, e, next).db.exec, AfterProcess(sys, s, e, next).db.tables, s.recorded, Limit(sys))
  {
    hide Inv, Conclude, Process, RowsMean, AfterRetry, AfterExhausted, ExecutionInv, Grows, ExecutionEffect, ClaimsKept, Settles, TaskPart;
    CompletionSteps.DeliveredIsRecorded(sys, s, e);
    CompletionSteps.EventBelongs(sys, s, e);
    ExecutionPart(sys, s);
    TaskPartOf(sys, s);
    ProcessEffects(sys, s, e, next);
    ProcessTasks(sys, s, e, next);
    var x, t, s' := s.db.exec, s.db.tables, AfterProcess(sys, s, e, next);
    MovesOf(x, s'.db.exec);
    if e.outcome.Succeeded? {
      CompletionSteps.ProcessSuccess(sys, s, e, next);
      if x.nodes[e.node].status.Running? {
        ConcludeKeepsTables(sys, s.db, e);
        ConcludeSettles(Flow(sys), s.db, e);
        SettledRowsMean(sys, x, s'.db.exec, t, s'.db.tables, s.recorded, e);
      }
    } else {
      CompletionSteps.ProcessFailure(sys, s, e, next);
      if t.attempts[e.attempt].failureEvent.None? {
        if e.number >= Limit(sys) {
          var t' := AfterExhausted(t, e.task, e.attempt, e.id, e.outcome.error);
          ConcludeKeepsTables(sys, s.db.(tables := t'), e);
          ExhaustedError(t, s.recorded, Limit(sys), e);
          if x.nodes[e.node].status.Running? {
            ConcludeSettles(Flow(sys), s.db.(tables := t'), e);
            SettledRowsMean(sys, x, s'.db.exec, t, t', s.recorded, e);
          } else {
            CompletionSteps.ConcludeKnown(Flow(sys), s.db.(tables := t'), e);
            TablesRows(sys, x, t, t', s.recorded);
          }
        } else {
          TablesRows(sys, x, t, s'.db.tables, s.recorded);
        }
      }
    }
  }

  lemma MovesOf(x: Execution, x': Execution)
    requires ExecutionEffect(x, x')
    ensures NodeMoves(x.nodes, x'.nodes) && x'.id == x.id
  {
  }

  lemma TaskPartOf(sys: System, s: State)
    requires ValidSystem(sys) && Inv(sys, s)
    ensures TaskPart(sys, s.db.exec, s.db.tables)
  {
    hide ExecPart, ReadyPart, TaskPart, Ledger, RetryPart, LeasePart, ValuePart, MessagePart;
  }

  lemma ExhaustedError(t: Tables, rec: set<Event>, max: int, e: Event)
    requires e.outcome.Errored? && e in rec && e.attempt in t.attempts && e.task in t.tasks
    requires t.attempts[e.attempt].task == e.task && t.attempts[e.attempt].number == max
    ensures LastError(AfterExhausted(t, e.task, e.attempt, e.id, e.outcome.error), rec, max, e.task, e.outcome.error)
  {
    assert FailedWith(AfterExhausted(t, e.task, e.attempt, e.id, e.outcome.error), rec, max, e.task, e.outcome.error, e.attempt, e);
  }

  lemma TablesRows(sys: System, x: Execution, t: Tables, t': Tables, rec: set<Event>)
    requires RowsMean(x, t, rec, Limit(sys)) && Grows(t, t') && t'.tasks.Keys == t.tasks.Keys
    ensures RowsMean(x, t', rec, Limit(sys))
  {
    hide Grows;
    forall n | n in x.nodes ensures RowMeans(x, t', rec, Limit(sys), n) {
      assert RowMeans(x, t, rec, Limit(sys), n);
      SameRowMeans(x, x, t, t', rec, rec, Limit(sys), n);
    }
  }

  // ---------- Other steps ----------

  lemma StartRows(sys: System, x: Execution, x': Execution, t: Tables, t': Tables, node: Node, input: map<string, Json>, attempt: Uuid, rec: set<Event>)
    requires DispatchSteps.NodeClaimed(x, x', t, t', node, input, attempt) && x.nodes[node.id].status.Pending?
    requires Grows(t, t') && NodeMoves(x.nodes, x'.nodes) && RowsMean(x, t, rec, Limit(sys))
    ensures RowsMean(x', t', rec, Limit(sys))
  {
    hide Grows, NodeMoves;
    forall n | n in x'.nodes ensures RowMeans(x', t', rec, Limit(sys), n) {
      assert RowMeans(x, t, rec, Limit(sys), n);
      if n != node.id {
        SameRowMeans(x, x', t, t', rec, rec, Limit(sys), n);
      }
    }
  }

  lemma DispatchRows(sys: System, s: State, load: Load, attempt: Uuid)
    requires ValidSystem(sys) && Inv(sys, s) && Enabled(sys, s, DispatchStep(load, attempt))
    requires RowsMean(s.db.exec, s.db.tables, s.recorded, Limit(sys))
    ensures RowsMean(AfterDispatch(s, load, attempt).db.exec, AfterDispatch(s, load, attempt).db.tables, s.recorded, Limit(sys))
  {
    hide Inv, Claim, RowsMean, DispatchSteps.NodeClaimed, Grows, ClaimsKept, ExecutionEffect;
    DispatchSteps.DispatchNeverFails(sys, s, load);
    ClaimNodeEffects(sys, s, load, attempt);
    var n, x := load.node.id, s.db.exec;
    if n in x.nodes && x.nodes[n].status.Pending? {
      var db' := AfterDispatch(s, load, attempt).db;
      var input :| db' == Claim(s.db, load.node, input, attempt);
      DispatchSteps.ClaimEffect(sys, s, load.node, input, attempt);
      MovesOf(x, db'.exec);
      StartRows(sys, x, db'.exec, s.db.tables, db'.tables, load.node, input, attempt, s.recorded);
    }
  }

  lemma OtherRows(sys: System, s: State, step: Step)
    requires ValidSystem(sys) && Inv(sys, s) && Enabled(sys, s, step) && !step.DispatchStep? && !step.ProcessStep?
    requires RowsMean(s.db.exec, s.db.tables, s.recorded, Limit(sys))
    ensures RowsMean(After(sys, s, step).db.exec, After(sys, s, step).db.tables, After(sys, s, step).recorded, Limit(sys))
  {
    hide Inv, RowsMean, Grows, ClaimsKept, ExecutionEffect, ProcessResult, Dispatch, AfterDispatch, AfterProcess, AfterClaim, AfterRenew, AfterRecord;
    StepEffect(sys, s, step);
    StepTasks(sys, s, step);
    var s' := After(sys, s, step);
    SameNodes(sys, s, step);
    MovesOf(s.db.exec, s'.db.exec);
    SameRowsMean(sys, s, s');
  }

  lemma SameNodes(sys: System, s: State, step: Step)
    requires Enabled(sys, s, step) && !step.DispatchStep? && !step.ProcessStep?
    ensures After(sys, s, step).db.exec.nodes == s.db.exec.nodes
  {
    hide ReadyIds, Dispatch, Process, ClaimAttempt, RecordResult, MarkCompleted, MarkRetryPublished, RenewClaim, GetDueRetries, EventFromResult;
  }

  lemma SameRowsMean(sys: System, s: State, s': State)
    requires RowsMean(s.db.exec, s.db.tables, s.recorded, Limit(sys)) && s'.db.exec.nodes == s.db.exec.nodes && s'.db.exec.id == s.db.exec.id
    requires Grows(s.db.tables, s'.db.tables) && s.recorded <= s'.recorded && NodeMoves(s.db.exec.nodes, s'.db.exec.nodes)
    requires s'.db.tables.tasks.Keys == s.db.tables.tasks.Keys
    ensures RowsMean(s'.db.exec, s'.db.tables, s'.recorded, Limit(sys))
  {
    hide Grows, NodeMoves;
    forall n | n in s'.db.exec.nodes ensures RowMeans(s'.db.exec, s'.db.tables, s'.recorded, Limit(sys), n) {
      assert RowMeans(s.db.exec, s.db.tables, s.recorded, Limit(sys), n);
      SameRowMeans(s.db.exec, s'.db.exec, s.db.tables, s'.db.tables, s.recorded, s'.recorded, Limit(sys), n);
    }
  }

  lemma {:induction false} RunKeepsRows(sys: System, states: seq<State>, steps: seq<Step>, i: nat)
    requires ValidSystem(sys) && IsRun(sys, states, steps) && i < |states|
    ensures RowsMean(states[i].db.exec, states[i].db.tables, states[i].recorded, Limit(sys))
    decreases i
  {
    hide Inv, Enabled, ValidSystem, LastError;
    if i > 0 {
      RunKeepsRows(sys, states, steps, i - 1);
      RunKeepsInv(sys, states, steps, i - 1);
      assert Next(sys, states[i - 1], steps[i - 1], states[i]);
      StepRows(sys, states[i - 1], steps[i - 1]);
    }
  }

  lemma StepRows(sys: System, s: State, step: Step)
    requires ValidSystem(sys) && Inv(sys, s) && Enabled(sys, s, step) && RowsMean(s.db.exec, s.db.tables, s.recorded, Limit(sys))
    ensures RowsMean(After(sys, s, step).db.exec, After(sys, s, step).db.tables, After(sys, s, step).recorded, Limit(sys))
  {
    hide Inv, RowsMean, ProcessResult, Dispatch;
    if step.DispatchStep? {
      DispatchRows(sys, s, step.load, step.attempt);
    } else if step.ProcessStep? {
      ProcessRows(sys, s, step.event, step.next);
    } else {
      OtherRows(sys, s, step);
    }
  }

  /** In every reachable state every node row says what it should. */
  lemma NodeRowMeans(sys: System, s: State, n: string)
    requires ValidSystem(sys) && Reachable(sys, s) && n in s.db.exec.nodes
    ensures RowMeans(s.db.exec, s.db.tables, s.recorded, Limit(sys), n)
  {
    hide IsRun, RowMeans, ValidSystem;
    var states, steps, i :| IsRun(sys, states, steps) && 0 <= i < |states| && states[i] == s;
    RunKeepsRows(sys, states, steps, i);
  }

  // ---------- Final errors of tasks ----------

  ghost predicate FinalErrors(t: Tables, rec: set<Event>, max: int) {
    forall k :: k in t.tasks ==>
      && (t.tasks[k].finalError.Some? <==> Spent(t, k, max))
      && (t.tasks[k].finalError.Some? ==> LastError(t, rec, max, k, t.tasks[k].finalError.value))
  }

  lemma SameFinal(t: Tables, t': Tables, rec: set<Event>, rec': set<Event>, max: int, k: TaskId)
    requires k in t.tasks && k in t'.tasks && t'.tasks[k].finalError == t.tasks[k].finalError && SameAttempts(t, t', k) && Grows(t, t') && rec <= rec'
    requires (t.tasks[k].finalError.Some? <==> Spent(t, k, max)) && (t.tasks[k].finalError.Some? ==> LastError(t, rec, max, k, t.tasks[k].finalError.value))
    ensures (t'.tasks[k].finalError.Some? <==> Spent(t', k, max)) && (t'.tasks[k].finalError.Some? ==> LastError(t', rec', max, k, t'.tasks[k].finalError.value))
  {
    hide Grows, SameAttempts, Spent, LastError;
    SameSpent(t, t', k, max);
    if t.tasks[k].finalError.Some? {
      ErrorStays(t, t', rec, rec', max, k, t.tasks[k].finalError.value);
    }
  }

  lemma SameKeepsFinal(t: Tables, t': Tables, rec: set<Event>, rec': set<Event>, max: int)
    requires FinalErrors(t, rec, max) && SameForAll(t, t') && Grows(t, t') && rec <= rec'
    ensures FinalErrors(t', rec', max)
  {
    hide Grows, SameAttempts, Spent, LastError;
    forall k | k in t'.tasks
      ensures t'.tasks[k].finalError.Some? <==> Spent(t', k, max)
      ensures t'.tasks[k].finalError.Some? ==> LastError(t', rec', max, k, t'.tasks[k].finalError.value)
    {
      SameFinal(t, t', rec, rec', max, k);
    }
  }

  lemma WorkerFinal(sys: System, s: State, step: Step)
    requires ValidSystem(sys) && Inv(sys, s) && Enabled(sys, s, step) && FinalErrors(s.db.tables, s.recorded, Limit(sys))
    requires step.ClaimStep? || step.RenewStep? || step.RecordStep? || step.MarkCompletedStep? || step.MarkRetryStep?
    ensures FinalErrors(After(sys, s, step).db.tables, After(sys, s, step).recorded, Limit(sys))
  {
    hide Inv, FinalErrors, SameForAll, Grows, ClaimsKept, ExecutionEffect, ClaimAttempt, RenewClaim, RecordResult, MarkCompleted, MarkRetryPublished;
    StepEffect(sys, s, step);
    var t, s' := s.db.tables, After(sys, s, step);
    SameForItself(t);
    match step {
      case ClaimStep(worker, m) => ClaimSame(t, m, worker, s.now, s.now + sys.lease(worker));
      case RenewStep(run) => MoreSame(t, run.message.attempt, run.worker, s.now + sys.lease(run.worker));
      case RecordStep(run, outcome, id) => OthersSame(t, EventOf(run.message, id, outcome), 0);
      case MarkCompletedStep(e) => OthersSame(t, e, e.attempt);
      case MarkRetryStep(m) => MoreSame(t, m.attempt, "", 0.0);
    }
    SameKeepsFinal(t, s'.db.tables, s.recorded, s'.recorded, Limit(sys));
  }

  lemma SameForItself(t: Tables)
    ensures SameForAll(t, t)
  {
  }

  lemma StartFinal(sys: System, x: Execution, x': Execution, t: Tables, t': Tables, node: Node, input: map<string, Json>, attempt: Uuid, rec: set<Event>)
    requires DispatchSteps.NodeClaimed(x, x', t, t', node, input, attempt) && attempt !in t.attempts && TaskOf(x, node.id) !in t.tasks
    requires forall a :: a in t.attempts ==> t.attempts[a].task in t.tasks
    requires Grows(t, t') && FinalErrors(t, rec, Limit(sys))
    ensures FinalErrors(t', rec, Limit(sys))
  {
    hide Grows, LastError;
    forall k | k in t'.tasks
      ensures t'.tasks[k].finalError.Some? <==> Spent(t', k, Limit(sys))
      ensures t'.tasks[k].finalError.Some? ==> LastError(t', rec, Limit(sys), k, t'.tasks[k].finalError.value)
    {
      if k != TaskOf(x, node.id) {
        assert SameAttempts(t, t', k);
        SameFinal(t, t', rec, rec, Limit(sys), k);
      }
    }
  }

  lemma DispatchFinal(sys: System, s: State, load: Load, attempt: Uuid)
    requires ValidSystem(sys) && Reachable(sys, s) && Enabled(sys, s, DispatchStep(load, attempt)) && FinalErrors(s.db.tables, s.recorded, Limit(sys))
    ensures FinalErrors(AfterDispatch(s, load, attempt).db.tables, s.recorded, Limit(sys))
  {
    hide Reachable, Inv, Claim, FinalErrors, DispatchSteps.NodeClaimed, Grows, ClaimsKept, ExecutionEffect;
    ReachableInv(sys, s);
    DispatchSteps.DispatchNeverFails(sys, s, load);
    ClaimNodeEffects(sys, s, load, attempt);
    var n, x := load.node.id, s.db.exec;
    if n in x.nodes && x.nodes[n].status.Pending? {
      var db' := AfterDispatch(s, load, attempt).db;
      var input :| db' == Claim(s.db, load.node, input, attempt);
      DispatchSteps.ClaimEffect(sys, s, load.node, input, attempt);
      forall a | a in s.db.tables.attempts ensures s.db.tables.attempts[a].task in s.db.tables.tasks {
        AttemptsBelong(sys, s, a);
      }
      StartFinal(sys, x, db'.exec, s.db.tables, db'.tables, load.node, input, attempt, s.recorded);
    }
  }

  lemma NotedFinal(sys: System, s: State, s': State, e: Event, next: Uuid, at: Time)
    requires ValidSystem(sys) && Reachable(sys, s') && FinalErrors(s.db.tables, s.recorded, Limit(sys)) && e in s.recorded
    requires e.outcome.Errored? && e.attempt in s.db.tables.attempts && e.task in s.db.tables.tasks && next !in s.db.tables.attempts
    requires s.db.tables.attempts[e.attempt].task == e.task && 1 <= s.db.tables.attempts[e.attempt].number == e.number <= Limit(sys)
    requires s'.db.tables == if e.number < Limit(sys) then AfterRetry(s.db.tables, e.task, e.attempt, e.id, e.outcome.error, next, at)
                             else AfterExhausted(s.db.tables, e.task, e.attempt, e.id, e.outcome.error)
    requires Grows(s.db.tables, s'.db.tables)
    ensures FinalErrors(s'.db.tables, s.recorded, Limit(sys))
  {
    hide Grows, Reachable, LastError, SameAttempts;
    var t, t', max, rec := s.db.tables, s'.db.tables, Limit(sys), s.recorded;
    NotedTasks(t, e, next, at);
    forall k | k in t'.tasks
      ensures t'.tasks[k].finalError.Some? <==> Spent(t', k, max)
      ensures t'.tasks[k].finalError.Some? ==> LastError(t', rec, max, k, t'.tasks[k].finalError.value)
    {
      if k != e.task {
        NotedElsewhere(t, t', e, next, at, k);
        SameFinal(t, t', rec, rec, max, k);
      } else if e.number < max {
        RetryRow(t, e, next, at);
        NotSpentYet(sys, s', k, next);
        if Spent(t, k, max) {
          GrowsKeepsSpent(t, t', k, max);
        }
      } else {
        ExhaustedError(t, rec, max, e);
        assert t'.attempts[e.attempt].number == max && t'.attempts[e.attempt].failureEvent.Some? && t'.attempts[e.attempt].task == k;
      }
    }
  }

  lemma NotedTasks(t: Tables, e: Event, next: Uuid, at: Time)
    requires e.outcome.Errored? && e.task in t.tasks && e.attempt in t.attempts
    ensures var t' := AfterRetry(t, e.task, e.attempt, e.id, e.outcome.error, next, at);
            t'.tasks.Keys == t.tasks.Keys && forall k :: k in t.tasks ==> t'.tasks[k].finalError == t.tasks[k].finalError
    ensures var t' := AfterExhausted(t, e.task, e.attempt, e.id, e.outcome.error);
            && t'.tasks.Keys == t.tasks.Keys && t'.tasks[e.task].finalError == Some(e.outcome.error)
            && forall k :: k in t.tasks && k != e.task ==> t'.tasks[k].finalError == t.tasks[k].finalError
  {
  }

  lemma ProcessFinal(sys: System, s: State, e: Event, next: Uuid)
    requires ValidSystem(sys) && Reachable(sys, s) && Enabled(sys, s, ProcessStep(e, next)) && FinalErrors(s.db.tables, s.recorded, Limit(sys))
    requires Reachable(sys, AfterProcess(sys, s, e, next))
    ensures FinalErrors(AfterProcess(sys, s, e, next).db.tables, s.recorded, Limit(sys))
  {
    hide Reachable, Inv, Conclude, Process, FinalErrors, AfterRetry, AfterExhausted, Grows, ClaimsKept, ExecutionEffect;
    ReachableInv(sys, s);
    CompletionSteps.DeliveredIsRecorded(sys, s, e);
    CompletionSteps.EventBelongs(sys, s, e);
    CompletionSteps.AttemptsAreUsed(sys, s);
    ProcessEffects(sys, s, e, next);
    var s', t := AfterProcess(sys, s, e, next), s.db.tables;
    if e.outcome.Succeeded? {
      CompletionSteps.ProcessSuccess(sys, s, e, next);
      if s.db.exec.nodes[e.node].status.Running? {
        ConcludeKeepsTables(sys, s.db, e);
      }
    } else {
      CompletionSteps.ProcessFailure(sys, s, e, next);
      if t.attempts[e.attempt].failureEvent.None? {
        if e.number >= Limit(sys) {
          ConcludeKeepsTables(sys, s.db.(tables := AfterExhausted(t, e.task, e.attempt, e.id, e.outcome.error)), e);
        }
        NotedFinal(sys, s, s', e, next, CompletionSteps.RetryTime(sys, s, e));
      }
    }
  }

  lemma StepFinal(sys: System, s: State, step: Step)
    requires ValidSystem(sys) && Reachable(sys, s) && Enabled(sys, s, step) && FinalErrors(s.db.tables, s.recorded, Limit(sys))
    requires Reachable(sys, After(sys, s, step))
    ensures FinalErrors(After(sys, s, step).db.tables, After(sys, s, step).recorded, Limit(sys))
  {
    hide Reachable, Inv, FinalErrors, ProcessResult, Dispatch, ClaimResult, AfterClaim, AfterRenew, AfterRecord;
    ReachableInv(sys, s);
    match step
    case DispatchStep(load, attempt) => DispatchFinal(sys, s, load, attempt);
    case ProcessStep(event, next) => ProcessFinal(sys, s, event, next);
    case ClaimStep(_, _) => WorkerFinal(sys, s, step);
    case RenewStep(_) => WorkerFinal(sys, s, step);
    case RecordStep(_, _, _) => WorkerFinal(sys, s, step);
    case MarkCompletedStep(_) => WorkerFinal(sys, s, step);
    case MarkRetryStep(_) => WorkerFinal(sys, s, step);
    case _ =>
  }

  lemma {:induction false} RunKeepsFinal(sys: System, states: seq<State>, steps: seq<Step>, i: nat)
    requires ValidSystem(sys) && IsRun(sys, states, steps) && i < |states|
    ensures FinalErrors(states[i].db.tables, states[i].recorded, Limit(sys))
    decreases i
  {
    hide Enabled, After, ValidSystem, Reachable, Spent, LastError;
    if i > 0 {
      RunKeepsFinal(sys, states, steps, i - 1);
      VisitedIsReachable(sys, states, steps, i - 1);
      VisitedIsReachable(sys, states, steps, i);
      assert Next(sys, states[i - 1], steps[i - 1], states[i]);
      StepFinal(sys, states[i - 1], steps[i - 1]);
    }
  }

  /** In every reachable state a task has a final error exactly when its last permitted attempt has
      failed, and then it is the error of that attempt. */
  lemma FinalErrorMeans(sys: System, s: State, k: TaskId)
    requires ValidSystem(sys) && Reachable(sys, s) && k in s.db.tables.tasks
    ensures s.db.tables.tasks[k].finalError.Some? <==> Spent(s.db.tables, k, Limit(sys))
    ensures s.db.tables.tasks[k].finalError.Some? ==> LastError(s.db.tables, s.recorded, Limit(sys), k, s.db.tables.tasks[k].finalError.value)
  {
    hide IsRun, LastError, ValidSystem, Spent;
    var states, steps, i :| IsRun(sys, states, steps) && 0 <= i < |states| && states[i] == s;
    RunKeepsFinal(sys, states, steps, i);
  }

  lemma OneLastError(sys: System, s: State, k: TaskId, error: TaskError, other: TaskError)
    requires ValidSystem(sys) && Reachable(sys, s) && k in s.db.tables.tasks
    requires LastError(s.db.tables, s.recorded, Limit(sys), k, error) && LastError(s.db.tables, s.recorded, Limit(sys), k, other)
    ensures error == other
  {
    hide Reachable, ReadyPart, TaskPart, ExecPart, RetryPart, LeasePart, ValuePart, MessagePart, Chained, RetryRows;
    var t, max := s.db.tables, Limit(sys);
    var a, e :| FailedWith(t, s.recorded, max, k, error, a, e);
    var b, f :| FailedWith(t, s.recorded, max, k, other, b, f);
    var last := AttemptsFormAChain(sys, s, k);
    assert AttemptNumbered(t, k, max, a) && AttemptNumbered(t, k, max, b);
    ReachableInv(sys, s);
    assert e.id == f.id;
  }

  /** The error of a node that failed with its task is the final error of the task. */
  lemma NodeErrorIsFinalError(sys: System, s: State, n: string)
    requires ValidSystem(sys) && Reachable(sys, s) && n in s.db.exec.nodes && s.db.exec.nodes[n].status.Failed?
    requires TaskOf(s.db.exec, n) in s.db.tables.tasks
    ensures s.db.exec.nodes[n].error.Some? && s.db.tables.tasks[TaskOf(s.db.exec, n)].finalError == s.db.exec.nodes[n].error
  {
    hide Reachable;
    var t, k := s.db.tables, TaskOf(s.db.exec, n);
    NodeRowMeans(sys, s, n);
    FinalErrorMeans(sys, s, k);
    var a, e :| FailedWith(t, s.recorded, Limit(sys), k, s.db.exec.nodes[n].error.value, a, e);
    assert Spent(t, k, Limit(sys));
    OneLastError(sys, s, k, s.db.exec.nodes[n].error.value, t.tasks[k].finalError.value);
  }
}
