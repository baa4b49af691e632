/** What a single step may change: statuses move along declared transitions, rows are never
    lost, and claims are never shortened. */
module StepEffects {
  import JsonValues
  import opened Wrappers
  import opened Definitions
  import opened Traversal
  import opened TaskTables
  import opened AttemptLedger
  import opened ExecutionTables
  import opened ExecutionInvariants
  import opened Protocol
  import opened ProtocolInvariants
  import opened DispatchSteps
  import opened CompletionSteps

  // Taking a claim without expiry as unbounded, the stored expiry never moves backwards.
  predicate NotEarlier(a: AttemptRow, a': AttemptRow) {
    a.claimedBy.Some? ==>
      a'.claimExpiresAt.None? || (a.claimExpiresAt.Some? && a.claimExpiresAt.value <= a'.claimExpiresAt.value)
  }

  ghost predicate ClaimsKept(t: Tables, t': Tables) {
    forall a :: a in t.attempts && a in t'.attempts ==> NotEarlier(t.attempts[a], t'.attempts[a])
  }

  ghost predicate ExecutionEffect(x: Execution, x': Execution) {
    && NodeMoves(x.nodes, x'.nodes) && CompletedKept(x.nodes, x'.nodes) && WorkflowMove(x.status, x'.status)
    && x'.id == x.id && (!x.status.Pending? ==> x'.input == x.input)
  }

  ghost predicate Effect(s: State, s': State) {
    && ExecutionEffect(s.db.exec, s'.db.exec)
    && Grows(s.db.tables, s'.db.tables) && ClaimsKept(s.db.tables, s'.db.tables)
    && s.recorded <= s'.recorded && s.completions <= s'.completions && s.tasks <= s'.tasks && s.now <= s'.now
  }

  lemma SameExecution(x: Execution)
    ensures ExecutionEffect(x, x)
  {
  }

  lemma SameTables(t: Tables)
    ensures Grows(t, t) && ClaimsKept(t, t)
  {
  }

  // ---------- Workers ----------

  lemma ClaimEffects(sys: System, s: State, worker: Worker, m: TaskMessage)
    requires ValidSystem(sys) && Inv(sys, s) && ClaimResult(sys, s, worker, m).Ok?
    ensures Effect(s, AfterClaim(sys, s, worker, m))
  {
    hide ExecPart, ReadyPart, TaskPart, Ledger, ValuePart, RetryPart, LeasePart, MessagePart, Grows, ExecutionEffect;
    SameExecution(s.db.exec);
    SameTables(s.db.tables);
    ClaimGrows(s.db.tables, m, worker, s.now, s.now + sys.lease(worker));
  }

  lemma RenewEffects(sys: System, s: State, run: Run)
    requires ValidSystem(sys) && Inv(sys, s)
    ensures Effect(s, AfterRenew(sys, s, run))
  {
    hide ExecPart, ReadyPart, TaskPart, Chained, RetryRows, ValuePart, RetryPart, MessagePart, Grows, ExecutionEffect;
    SameExecution(s.db.exec);
    SameTables(s.db.tables);
    var a := run.message.attempt;
    WorkerGrows(s.db.tables, EventOf(run.message, 0, Errored(TaskError("", ""))), a, run.worker, s.now + sys.lease(run.worker));
    if a in s.db.tables.attempts {
      assert ClaimBounded(sys, s.now, s.db.tables.attempts[a]);
      assert RowOk(s.db.tables, s.recorded, a);
    }
  }

  lemma OtherTableEffects(s: State, s': State, e: Event, a: Uuid)
    requires s'.db.exec == s.db.exec && s'.now == s.now && s.recorded <= s'.recorded && s'.completions == s.completions && s'.tasks == s.tasks
    requires (RecordResult(s.db.tables, e).Ok? && s'.db.tables == RecordResult(s.db.tables, e).value)
             || (MarkCompleted(s.db.tables, a).Ok? && s'.db.tables == MarkCompleted(s.db.tables, a).value)
             || s'.db.tables == MarkRetryPublished(s.db.tables, a).1
    ensures Effect(s, s')
  {
    hide Grows, ExecutionEffect;
    SameExecution(s.db.exec);
    WorkerGrows(s.db.tables, e, a, "", 0.0);
  }

  // ---------- Orchestrators ----------

  lemma ExecutionPart(sys: System, s: State)
    requires ValidSystem(sys) && Inv(sys, s)
    ensures ExecutionInv(Flow(sys), s.db.exec)
  {
  }

  lemma ClaimNodeEffects(sys: System, s: State, load: Load, attempt: Uuid)
    requires ValidSystem(sys) && Inv(sys, s) && load in s.loaded && attempt !in s.used
    requires Dispatch(s.db, load.node, load.input, attempt).Ok?
    ensures Effect(s, AfterDispatch(s, load, attempt))
  {
    hide Inv, Claim, Grows, ExecutionInv, ClaimsKept, NodeMoves, CompletedKept;
    var x := s.db.exec;
    ExecutionPart(sys, s);
    DispatchNeverFails(sys, s, load);
    SameExecution(x);
    SameTables(s.db.tables);
    var n := load.node.id;
    if n in x.nodes && x.nodes[n].status.Pending? {
      var db' := AfterDispatch(s, load, attempt).db;
      var input :| db' == Claim(s.db, load.node, input, attempt);
      ClaimEffect(sys, s, load.node, input, attempt);
      ClaimedGrows(x, db'.exec, s.db.tables, db'.tables, load.node, input, attempt);
      ClaimKeepsExecution(Flow(sys), x, db'.exec, n);
      ClaimedKeepsClaims(x, db'.exec, s.db.tables, db'.tables, load.node, input, attempt);
    }
  }

  lemma ClaimedKeepsClaims(x: Execution, x': Execution, t: Tables, t': Tables, node: Node, input: map<string, JsonValues.Json>, attempt: Uuid)
    requires NodeClaimed(x, x', t, t', node, input, attempt) && attempt !in t.attempts
    ensures ClaimsKept(t, t')
  {
  }

  lemma ConcludeEffect(w: Workflow, db: Db, e: Event)
    requires UniqueIds(w) && KnownDependencies(w) && ExecutionInv(w, db.exec) && e.node in db.exec.nodes && Conclude(w, db, e).Ok?
    ensures var db' := Conclude(w, db, e).value.1;
            ExecutionEffect(db.exec, db'.exec) && db'.tables == db.tables
  {
    hide Propagate, ExecutionInv;
    ConcludeKeepsInv(w, db, e);
    if db.exec.nodes[e.node].status.Running? {
      PropagateStatus(w, db.exec, e);
    }
  }

  lemma FailureKeepsClaims(t: Tables, t': Tables, e: Event, next: Uuid)
    requires FailureRecorded(t, t', e, next)
    ensures ClaimsKept(t, t')
  {
  }

  lemma ProcessEffects(sys: System, s: State, e: Event, next: Uuid)
    requires ValidSystem(sys) && Inv(sys, s) && e in s.completions && next !in s.used && ProcessResult(sys, s, e, next).Ok?
    ensures Effect(s, AfterProcess(sys, s, e, next))
  {
    hide Inv, Conclude, Process, ExecutionInv, Grows, ClaimsKept, ExecutionEffect, FailureRecorded, Ledger, AfterRetry, AfterExhausted;
    var w, x, t := Flow(sys), s.db.exec, s.db.tables;
    ExecutionPart(sys, s);
    DeliveredIsRecorded(sys, s, e);
    SameExecution(x);
    SameTables(t);
    if e.outcome.Succeeded? {
      ProcessSuccess(sys, s, e, next);
      if x.nodes[e.node].status.Running? {
        ConcludeEffect(w, s.db, e);
      }
    } else {
      EventBelongs(sys, s, e);
      ProcessFailure(sys, s, e, next);
      if t.attempts[e.attempt].failureEvent.None? {
        RetryIsFailureRecord(sys, s, e, next, RetryTime(sys, s, e));
        var t' := if t.attempts[e.attempt].number < Limit(sys)
                  then AfterRetry(t, e.task, e.attempt, e.id, e.outcome.error, next, RetryTime(sys, s, e))
                  else AfterExhausted(t, e.task, e.attempt, e.id, e.outcome.error);
        FailureKeepsClaims(t, t', e, next);
        if e.number >= Limit(sys) {
          ConcludeEffect(w, s.db.(tables := t'), e);
        }
      }
    }
  }

  // ---------- All steps ----------

  lemma MemoryEffects(sys: System, s: State, step: Step)
    requires Enabled(sys, s, step)
    requires step.PublishOutboxStep? || step.EvaluateStep? || step.LoadStep? || step.ReadRetriesStep? || step.PublishRetryStep?
             || step.ReplayStep? || step.PublishCompletionStep? || step.TickStep?
    ensures Effect(s, After(sys, s, step)) && After(sys, s, step).db == s.db
    ensures After(sys, s, step).recorded == s.recorded && After(sys, s, step).used == s.used
  {
    hide Grows, ClaimsKept, ExecutionEffect;
    SameExecution(s.db.exec);
    SameTables(s.db.tables);
  }

  /** Every step of every run has these effects only. */
  lemma StepEffect(sys: System, s: State, step: Step)
    requires ValidSystem(sys) && Inv(sys, s) && Enabled(sys, s, step)
    ensures Effect(s, After(sys, s, step))
  {
    hide Inv, Effect, ProcessResult, Dispatch;
    match step
    case TriggerStep(input, mid) => TriggerEffects(s, input, mid);
    case DispatchStep(load, attempt) => ClaimNodeEffects(sys, s, load, attempt);
    case ProcessStep(event, next) => ProcessEffects(sys, s, event, next);
    case ClaimStep(worker, message) => ClaimEffects(sys, s, worker, message);
    case RenewStep(run) => RenewEffects(sys, s, run);
    case RecordStep(run, outcome, id) => OtherTableEffects(s, After(sys, s, step), EventOf(run.message, id, outcome), 0);
    case MarkCompletedStep(event) => OtherTableEffects(s, After(sys, s, step), event, event.attempt);
    case MarkRetryStep(message) =>
      OtherTableEffects(s, After(sys, s, step), EventOf(message, 0, Errored(TaskError("", ""))), message.attempt);
    case _ => MemoryEffects(sys, s, step);
  }

  lemma TriggerEffects(s: State, input: Option<map<string, JsonValues.Json>>, mid: Uuid)
    requires Trigger(s.db.exec, input, mid).Ok?
    ensures Effect(s, AfterTrigger(s, input, mid))
  {
    hide Grows, ClaimsKept;
    SameTables(s.db.tables);
  }
}
