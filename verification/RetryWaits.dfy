/** The waiting that the orchestrator schedules for one task over a whole run. */
module RetryWaits {
  import opened JsonValues
  import opened Definitions
  import opened TaskTables
  import opened AttemptLedger
  import opened RetryPolicies
  import opened BackoffBounds
  import opened ExecutionTables
  import opened Protocol
  import opened ProtocolInvariants
  import DispatchSteps
  import CompletionSteps
  import opened Runs
  import opened Theorems

  // ---------- Waiting times along a run ----------

  ghost predicate NewRetry(s: State, s': State, k: TaskId, a: Uuid) {
    && a !in s.db.tables.dispatches && a in s'.db.tables.dispatches
    && a in s'.db.tables.attempts && s'.db.tables.attempts[a].task == k
  }

  /** How far ahead the retry lies that a step schedules for the task, if it schedules one. */
  ghost function Wait(s: State, s': State, k: TaskId): real {
    if a :| NewRetry(s, s', k, a) then s'.db.tables.dispatches[a].availableAt - s.now else 0.0
  }

  ghost function Waited(states: seq<State>, k: TaskId, i: nat): real
    requires i < |states|
  {
    if i == 0 then 0.0 else Waited(states, k, i - 1) + Wait(states[i - 1], states[i], k)
  }

  // ---------- What a step does to retries ----------

  ghost predicate DatesKept(t: Tables, t': Tables) {
    forall a :: a in t.dispatches ==> a in t'.dispatches && t'.dispatches[a].availableAt == t.dispatches[a].availableAt
  }

  ghost predicate AttemptsKept(t: Tables, t': Tables) {
    forall a :: a in t.attempts ==>
      a in t'.attempts && t'.attempts[a].task == t.attempts[a].task && t'.attempts[a].number == t.attempts[a].number
  }

  ghost predicate NothingScheduled(t: Tables, t': Tables) {
    && t'.dispatches.Keys == t.dispatches.Keys
    && forall a :: a in t'.attempts && a !in t.attempts ==> t'.attempts[a].task !in t.tasks && t'.attempts[a].number == 1
  }

  ghost predicate RetryOf(sys: System, s: State, t: Tables, t': Tables, failed: Uuid, next: Uuid) {
    && failed in t.attempts && next !in t.attempts && next !in t.dispatches
    && t'.attempts.Keys == t.attempts.Keys + {next} && t'.dispatches.Keys == t.dispatches.Keys + {next}
    && var a := t.attempts[failed];
    && 1 <= a.number < Limit(sys) && a.failureEvent.None? && a.task in t.tasks
    && t'.attempts[next].task == a.task && t'.attempts[next].number == a.number + 1
    && t'.dispatches[next].availableAt == s.now + DelayFor(sys.settings.policy, a.number)
  }

  ghost predicate Schedules(sys: System, s: State, s': State) {
    exists failed, next :: RetryOf(sys, s, s.db.tables, s'.db.tables, failed, next)
  }

  // Every dispatch row belongs to an attempt.
  ghost predicate DispatchRows(t: Tables) {
    t.dispatches.Keys <= t.attempts.Keys
  }

  ghost predicate RetryEffect(sys: System, s: State, s': State) {
    && DatesKept(s.db.tables, s'.db.tables) && AttemptsKept(s.db.tables, s'.db.tables) && DispatchRows(s'.db.tables)
    && (NothingScheduled(s.db.tables, s'.db.tables) || Schedules(sys, s, s'))
  }

  lemma SameTablesEffect(sys: System, s: State, s': State)
    requires s'.db.tables == s.db.tables && DispatchRows(s.db.tables)
    ensures RetryEffect(sys, s, s')
  {
  }

  lemma ConcludeKeepsTables(sys: System, db: Db, e: Event)
    requires e.node in db.exec.nodes && Conclude(Flow(sys), db, e).Ok?
    ensures Conclude(Flow(sys), db, e).value.1.tables == db.tables
  {
  }

  lemma ExhaustedEffect(sys: System, s: State, s': State, e: Event)
    requires e.outcome.Errored? && e.task in s.db.tables.tasks && e.attempt in s.db.tables.attempts && DispatchRows(s.db.tables)
    requires s'.db.tables == AfterExhausted(s.db.tables, e.task, e.attempt, e.id, e.outcome.error)
    ensures RetryEffect(sys, s, s')
  {
  }

  lemma RetriedEffect(sys: System, s: State, s': State, e: Event, next: Uuid)
    requires e.outcome.Errored? && e.task in s.db.tables.tasks && e.attempt in s.db.tables.attempts && DispatchRows(s.db.tables)
    requires 1 <= e.number < Limit(sys) && next !in s.db.tables.attempts
    requires s.db.tables.attempts[e.attempt].task == e.task && s.db.tables.attempts[e.attempt].number == e.number
    requires s.db.tables.attempts[e.attempt].failureEvent.None?
    requires s'.db.tables == AfterRetry(s.db.tables, e.task, e.attempt, e.id, e.outcome.error, next, CompletionSteps.RetryTime(sys, s, e))
    ensures RetryEffect(sys, s, s')
  {
    assert RetryOf(sys, s, s.db.tables, s'.db.tables, e.attempt, next);
  }

  lemma ProcessRetryEffect(sys: System, s: State, e: Event, next: Uuid)
    requires ValidSystem(sys) && Inv(sys, s) && Enabled(sys, s, ProcessStep(e, next)) && DispatchRows(s.db.tables)
    ensures RetryEffect(sys, s, AfterProcess(sys, s, e, next))
  {
    hide Inv, Conclude, Process, RetryEffect, AfterRetry, AfterExhausted, DispatchRows;
    CompletionSteps.DeliveredIsRecorded(sys, s, e);
    CompletionSteps.EventBelongs(sys, s, e);
    CompletionSteps.AttemptsAreUsed(sys, s);
    var s', t := AfterProcess(sys, s, e, next), s.db.tables;
    if e.outcome.Succeeded? {
      CompletionSteps.ProcessSuccess(sys, s, e, next);
      if s.db.exec.nodes[e.node].status.Running? {
        ConcludeKeepsTables(sys, s.db, e);
      }
      SameTablesEffect(sys, s, s');
    } else {
      CompletionSteps.ProcessFailure(sys, s, e, next);
      if t.attempts[e.attempt].failureEvent.Some? {
        SameTablesEffect(sys, s, s');
      } else if e.number < Limit(sys) {
        RetriedEffect(sys, s, s', e, next);
      } else {
        ConcludeKeepsTables(sys, s.db.(tables := AfterExhausted(t, e.task, e.attempt, e.id, e.outcome.error)), e);
        ExhaustedEffect(sys, s, s', e);
      }
    }
  }

  lemma DispatchRetryEffect(sys: System, s: State, load: Load, attempt: Uuid)
    requires ValidSystem(sys) && Inv(sys, s) && Enabled(sys, s, DispatchStep(load, attempt)) && DispatchRows(s.db.tables)
    ensures RetryEffect(sys, s, AfterDispatch(s, load, attempt))
  {
    hide Inv, Claim, RetryEffect, DispatchRows, DispatchSteps.NodeClaimed;
    DispatchSteps.DispatchNeverFails(sys, s, load);
    var n, x := load.node.id, s.db.exec;
    if n in x.nodes && x.nodes[n].status.Pending? {
      var db' := AfterDispatch(s, load, attempt).db;
      var input :| db' == Claim(s.db, load.node, input, attempt);
      DispatchSteps.ClaimEffect(sys, s, load.node, input, attempt);
      ClaimedRetryEffect(sys, s, AfterDispatch(s, load, attempt), load.node, input, attempt);
    } else {
      SameTablesEffect(sys, s, AfterDispatch(s, load, attempt));
    }
  }

  lemma ClaimedRetryEffect(sys: System, s: State, s': State, node: Node, input: map<string, Json>, attempt: Uuid)
    requires DispatchSteps.NodeClaimed(s.db.exec, s'.db.exec, s.db.tables, s'.db.tables, node, input, attempt)
    requires TaskOf(s.db.exec, node.id) !in s.db.tables.tasks && attempt !in s.db.tables.attempts && DispatchRows(s.db.tables)
    ensures RetryEffect(sys, s, s')
  {
  }

  lemma WorkerRetryEffect(sys: System, s: State, step: Step)
    requires Enabled(sys, s, step) && DispatchRows(s.db.tables)
    requires step.ClaimStep? || step.RenewStep? || step.RecordStep? || step.MarkCompletedStep? || step.MarkRetryStep?
    ensures RetryEffect(sys, s, After(sys, s, step))
  {
    hide RowsKept, RetryEffect, DispatchRows, ClaimAttempt, RenewClaim, RecordResult, MarkCompleted, MarkRetryPublished;
    var t, t' := s.db.tables, After(sys, s, step).db.tables;
    SameRows(t);
    match step {
      case ClaimStep(worker, m) => ClaimKeepsRows(t, m, worker, s.now, s.now + sys.lease(worker));
      case RenewStep(run) => RenewKeepsRows(t, run.message.attempt, run.worker, s.now + sys.lease(run.worker));
      case RecordStep(run, outcome, id) => RecordKeepsRows(t, EventOf(run.message, id, outcome));
      case MarkCompletedStep(e) => MarkKeepsRows(t, e.attempt);
      case MarkRetryStep(m) => MarkKeepsRows(t, m.attempt);
    }
    RowsKeptEffect(sys, s, After(sys, s, step));
  }

  ghost predicate RowsKept(t: Tables, t': Tables) {
    && t'.attempts.Keys == t.attempts.Keys && t'.dispatches.Keys == t.dispatches.Keys
    && AttemptsKept(t, t') && DatesKept(t, t')
  }

  lemma SameRows(t: Tables)
    ensures RowsKept(t, t)
  {
  }

  lemma ClaimKeepsRows(t: Tables, m: TaskMessage, worker: Worker, at: Time, expiresAt: Time)
    requires ClaimAttempt(t, m, worker, at, expiresAt).Ok?
    ensures RowsKept(t, ClaimAttempt(t, m, worker, at, expiresAt).value.1)
  {
  }

  lemma RenewKeepsRows(t: Tables, a: Uuid, worker: Worker, expiresAt: Time)
    ensures RowsKept(t, RenewClaim(t, a, worker, expiresAt).1)
  {
  }

  lemma RecordKeepsRows(t: Tables, e: Event)
    requires RecordResult(t, e).Ok?
    ensures RowsKept(t, RecordResult(t, e).value)
  {
  }

  lemma MarkKeepsRows(t: Tables, a: Uuid)
    ensures MarkCompleted(t, a).Ok? ==> RowsKept(t, MarkCompleted(t, a).value)
    ensures RowsKept(t, MarkRetryPublished(t, a).1)
  {
  }

  lemma RowsKeptEffect(sys: System, s: State, s': State)
    requires RowsKept(s.db.tables, s'.db.tables) && DispatchRows(s.db.tables)
    ensures RetryEffect(sys, s, s')
  {
  }

  lemma StepRetryEffect(sys: System, s: State, step: Step)
    requires ValidSystem(sys) && Inv(sys, s) && Enabled(sys, s, step) && DispatchRows(s.db.tables)
    ensures RetryEffect(sys, s, After(sys, s, step))
  {
    hide Inv, ProcessResult, Dispatch, Trigger, RetryEffect, DispatchRows, ClaimResult, AfterClaim, AfterRenew, AfterRecord;
    match step
    case DispatchStep(load, attempt) => DispatchRetryEffect(sys, s, load, attempt);
    case ProcessStep(event, next) => ProcessRetryEffect(sys, s, event, next);
    case ClaimStep(_, _) => WorkerRetryEffect(sys, s, step);
    case RenewStep(_) => WorkerRetryEffect(sys, s, step);
    case RecordStep(_, _, _) => WorkerRetryEffect(sys, s, step);
    case MarkCompletedStep(_) => WorkerRetryEffect(sys, s, step);
    case MarkRetryStep(_) => WorkerRetryEffect(sys, s, step);
    case _ => SameTablesEffect(sys, s, After(sys, s, step));
  }

  lemma {:induction false} RunKeepsDispatchRows(sys: System, states: seq<State>, steps: seq<Step>, i: nat)
    requires ValidSystem(sys) && IsRun(sys, states, steps) && i < |states|
    ensures DispatchRows(states[i].db.tables)
    ensures i > 0 ==> RetryEffect(sys, states[i - 1], states[i])
    decreases i
  {
    hide Inv, Enabled, After, ValidSystem;
    if i > 0 {
      RunKeepsDispatchRows(sys, states, steps, i - 1);
      RunKeepsInv(sys, states, steps, i - 1);
      assert Next(sys, states[i - 1], steps[i - 1], states[i]);
      StepRetryEffect(sys, states[i - 1], steps[i - 1]);
    }
  }

  // ---------- The waiting of one task ----------

  ghost predicate Numbered(t: Tables, k: TaskId, last: nat) {
    forall n :: HasAttempt(t, k, n) <==> 1 <= n <= last
  }

  /** What the attempts of a task look like in a reachable state. */
  ghost predicate Attempted(sys: System, t: Tables, k: TaskId, last: nat) {
    && Numbered(t, k, last)
    && (k in t.tasks <==> last > 0)
    && forall n, a :: AttemptNumbered(t, k, n, a) && n < last ==> t.attempts[a].failureEvent.Some?
  }

  lemma SomeLast(sys: System, s: State, k: TaskId) returns (last: nat)
    requires ValidSystem(sys) && Reachable(sys, s)
    ensures Attempted(sys, s.db.tables, k, last)
  {
    hide Reachable, ReadyPart, TaskPart, ExecPart, RetryPart, LeasePart, ValuePart, Chained, RetryRows;
    ReachableInv(sys, s);
    if k in s.db.tables.tasks {
      last := AttemptsFormAChain(sys, s, k);
      assert HasAttempt(s.db.tables, k, 1);
    } else {
      last := 0;
      forall a | a in s.db.tables.attempts ensures s.db.tables.attempts[a].task != k {
        assert RowOk(s.db.tables, s.recorded, a);
      }
    }
  }

  lemma SameLast(t: Tables, k: TaskId, last: nat, other: nat)
    requires Numbered(t, k, last) && Numbered(t, k, other)
    ensures last == other
  {
    hide HasAttempt;
    assert HasAttempt(t, k, other) <==> 1 <= other <= last;
    assert HasAttempt(t, k, last) <==> 1 <= last <= other;
  }

  lemma KeptNumbers(t: Tables, t': Tables, k: TaskId, n: int)
    requires AttemptsKept(t, t') && HasAttempt(t, k, n)
    ensures HasAttempt(t', k, n)
  {
    var a :| AttemptNumbered(t, k, n, a);
    assert AttemptNumbered(t', k, n, a);
  }

  lemma WasNumbered(t: Tables, t': Tables, k: TaskId, n: int, a: Uuid)
    requires AttemptsKept(t, t') && AttemptNumbered(t', k, n, a) && a in t.attempts
    ensures HasAttempt(t, k, n)
  {
    assert AttemptNumbered(t, k, n, a);
  }

  // A higher last number is that of a new attempt.
  lemma NewLast(t: Tables, t': Tables, k: TaskId, last: nat, last': nat)
    requires AttemptsKept(t, t') && Numbered(t, k, last) && Numbered(t', k, last')
    ensures last <= last'
    ensures last' > last ==> exists a :: AttemptNumbered(t', k, last', a) && a !in t.attempts
  {
    hide AttemptsKept, AttemptNumbered;
    assert HasAttempt(t, k, last) <==> 1 <= last;
    assert HasAttempt(t', k, last') <==> 1 <= last';
    assert HasAttempt(t, k, last') <==> 1 <= last' <= last;
    if last > 0 {
      KeptNumbers(t, t', k, last);
    }
    if last' > last {
      var a :| AttemptNumbered(t', k, last', a);
      if a in t.attempts {
        WasNumbered(t, t', k, last', a);
      }
    }
  }

  function Retries(last: nat): nat { if last == 0 then 0 else last - 1 }

  lemma QuietStepWaits(sys: System, s: State, s': State, k: TaskId, last: nat, last': nat)
    requires AttemptsKept(s.db.tables, s'.db.tables) && NothingScheduled(s.db.tables, s'.db.tables)
    requires Attempted(sys, s.db.tables, k, last) && Numbered(s'.db.tables, k, last')
    ensures Wait(s, s', k) == 0.0 && Retries(last') == Retries(last)
  {
    var t, t' := s.db.tables, s'.db.tables;
    NewLast(t, t', k, last, last');
    if last' > last {
      var a :| AttemptNumbered(t', k, last', a) && a !in t.attempts;
      assert last == 0 && last' == 1;
    }
  }

  lemma RetryStepWaits(sys: System, s: State, s': State, k: TaskId, last: nat, last': nat, failed: Uuid, next: Uuid)
    requires AttemptsKept(s.db.tables, s'.db.tables) && RetryOf(sys, s, s.db.tables, s'.db.tables, failed, next)
    requires Attempted(sys, s.db.tables, k, last) && Numbered(s'.db.tables, k, last')
    ensures s.db.tables.attempts[failed].task == k ==>
              last >= 1 && last' == last + 1 && Wait(s, s', k) == DelayFor(sys.settings.policy, last)
    ensures s.db.tables.attempts[failed].task != k ==> last' == last && Wait(s, s', k) == 0.0
  {
    hide DelayFor;
    var t, t' := s.db.tables, s'.db.tables;
    var k0, f := t.attempts[failed].task, t.attempts[failed].number;
    if k0 == k {
      assert AttemptNumbered(t, k, f, failed);
      assert HasAttempt(t, k, f);
      assert f == last;
      assert AttemptNumbered(t', k, last + 1, next);
      assert HasAttempt(t', k, last + 1);
      assert NewRetry(s, s', k, next);
    }
    NewLast(t, t', k, last, last');
  }

  lemma TotalStep(p: RetryPolicy, last: nat)
    requires last >= 1
    ensures TotalDelay(p, last) == TotalDelay(p, last - 1) + DelayFor(p, last)
  {
  }

  /** In any run the waiting scheduled so far for a task with `last` attempts is exactly the sum
      of the first `last - 1` delays of the policy. */
  lemma {:induction false} WaitedIsBackoff(sys: System, states: seq<State>, steps: seq<Step>, i: nat, k: TaskId, last: nat)
    requires ValidSystem(sys) && IsRun(sys, states, steps) && i < |states| && Numbered(states[i].db.tables, k, last)
    ensures Waited(states, k, i) == TotalDelay(sys.settings.policy, Retries(last))
    decreases i
  {
    hide IsRun, Wait, AttemptsKept, NothingScheduled, RetryOf, DatesKept, DispatchRows, DelayFor, Attempted, ValidSystem;
    if i == 0 {
      StartsEmpty(sys, states, steps, k, last);
    } else {
      var s, s' := states[i - 1], states[i];
      assert Reachable(sys, s);
      var before := SomeLast(sys, s, k);
      AttemptedIsNumbered(sys, s.db.tables, k, before);
      WaitedIsBackoff(sys, states, steps, i - 1, k, before);
      RunKeepsDispatchRows(sys, states, steps, i);
      if NothingScheduled(s.db.tables, s'.db.tables) {
        QuietStepWaits(sys, s, s', k, before, last);
      } else {
        var failed, next :| RetryOf(sys, s, s.db.tables, s'.db.tables, failed, next);
        RetryStepWaits(sys, s, s', k, before, last, failed, next);
        if before >= 1 {
          TotalStep(sys.settings.policy, before);
        }
      }
    }
  }

  lemma AttemptedIsNumbered(sys: System, t: Tables, k: TaskId, last: nat)
    requires Attempted(sys, t, k, last)
    ensures Numbered(t, k, last)
  {
  }

  lemma StartsEmpty(sys: System, states: seq<State>, steps: seq<Step>, k: TaskId, last: nat)
    requires IsRun(sys, states, steps) && Numbered(states[0].db.tables, k, last)
    ensures last == 0
  {
    assert HasAttempt(states[0].db.tables, k, 1) <==> 1 <= last;
  }

  /** The waiting of a task over a whole run stays within the cap times the permitted retries and
      within the geometric sum. */
  lemma WaitingIsBounded(sys: System, states: seq<State>, steps: seq<Step>, i: nat, k: TaskId)
    requires ValidSystem(sys) && IsRun(sys, states, steps) && i < |states|
    ensures var p := sys.settings.policy;
            && 0.0 <= Waited(states, k, i) <= SumBound(p)
            && (p.maxDelay.Some? ==> Waited(states, k, i) <= CapBound(p))
  {
    hide IsRun, Waited, SumBound, CapBound, TotalDelay, Numbered, Attempted;
    var s := states[i];
    assert Reachable(sys, s);
    var last := SomeLast(sys, s, k);
    AttemptedIsNumbered(sys, s.db.tables, k, last);
    WaitedIsBackoff(sys, states, steps, i, k, last);
    LastWithinLimit(sys, s, k, last);
    ChainDelayIsBounded(sys.settings.policy, Retries(last));
  }

  lemma LastWithinLimit(sys: System, s: State, k: TaskId, last: nat)
    requires ValidSystem(sys) && Reachable(sys, s) && Attempted(sys, s.db.tables, k, last)
    ensures last <= Limit(sys)
  {
    hide Reachable, HasAttempt;
    if last > 0 {
      var other := AttemptsFormAChain(sys, s, k);
      SameLast(s.db.tables, k, last, other);
    }
  }

  /** The due time of a retry never changes once it is scheduled. */
  lemma DueTimesStay(sys: System, states: seq<State>, steps: seq<Step>, i: nat, a: Uuid)
    requires ValidSystem(sys) && IsRun(sys, states, steps) && i < |steps| && a in states[i].db.tables.dispatches
    ensures a in states[i + 1].db.tables.dispatches
    ensures states[i + 1].db.tables.dispatches[a].availableAt == states[i].db.tables.dispatches[a].availableAt
  {
    hide AttemptsKept, NothingScheduled, Schedules, DispatchRows, Next;
    RunKeepsDispatchRows(sys, states, steps, i + 1);
  }
}
