/** From which states an execution can still end. */
module EndConditions {
  import opened Wrappers
  import opened Definitions
  import opened Traversal
  import opened TaskTables
  import opened AttemptLedger
  import opened ExecutionTables
  import opened ExecutionInvariants
  import opened Protocol
  import opened Dataflow
  import opened ProtocolInvariants
  import opened OutboxLedger
  import DispatchSteps
  import CompletionSteps
  import opened StepEffects
  import opened Runs
  import opened Theorems
  import opened Announcements
  import opened Adequacy
  import opened TaskStatuses
  import opened Endings

  // ---------- Ready nodes are on a ready list ----------

  /** No node completes and none becomes pending. */
  ghost predicate NothingNew(nodes: map<string, NodeRow>, nodes': map<string, NodeRow>) {
    forall n :: n in nodes' ==>
      && (nodes'[n].status.Completed? ==> n in nodes && nodes[n].status.Completed?)
      && (nodes'[n].status.Pending? ==> n in nodes && nodes[n].status.Pending?)
  }

  lemma NotNewlyReady(w: Workflow, nodes: map<string, NodeRow>, nodes': map<string, NodeRow>, n: string)
    requires UniqueIds(w) && n in Ids(w) && nodes.Keys == Ids(w) && nodes'.Keys == Ids(w) && NothingNew(nodes, nodes')
    requires n in ReadyIds(w, NodeStatuses(nodes'))
    ensures n in ReadyIds(w, NodeStatuses(nodes))
  {
    ReadyById(w, NodeStatuses(nodes), n);
    ReadyById(w, NodeStatuses(nodes'), n);
  }

  // A completion that completes a node puts what becomes ready on its ready list.
  lemma ProcessLists(sys: System, s: State, e: Event, next: Uuid)
    requires ValidSystem(sys) && Inv(sys, s) && Enabled(sys, s, ProcessStep(e, next))
    ensures var s' := AfterProcess(sys, s, e, next);
            || NothingNew(s.db.exec.nodes, s'.db.exec.nodes)
            || forall n :: n in ReadyIds(Flow(sys), NodeStatuses(s'.db.exec.nodes)) ==> n in s'.ready
  {
    hide Inv, Process, AfterRetry, AfterExhausted, ReadyIds, ExecutionInv, Conclude;
    CompletionSteps.DeliveredIsRecorded(sys, s, e);
    ExecutionPart(sys, s);
    if e.outcome.Succeeded? {
      CompletionSteps.ProcessSuccess(sys, s, e, next);
      if s.db.exec.nodes[e.node].status.Running? {
        SuccessLists(Flow(sys), s.db, e);
      }
    } else {
      CompletionSteps.ProcessFailure(sys, s, e, next);
      if s.db.tables.attempts[e.attempt].failureEvent.None? && e.number >= Limit(sys) {
        FailureCompletesNothing(Flow(sys), s.db.(tables := AfterExhausted(s.db.tables, e.task, e.attempt, e.id, e.outcome.error)), e);
      }
    }
  }

  lemma SuccessLists(w: Workflow, db: Db, e: Event)
    requires e.node in db.exec.nodes && db.exec.nodes[e.node].status.Running? && e.outcome.Succeeded?
    ensures Conclude(w, db, e).Ok?
    ensures var (decision, db') := Conclude(w, db, e).value; decision.ready == ReadyIds(w, NodeStatuses(db'.exec.nodes))
  {
    hide ReadyIds;
    CompletionSteps.FinalizeKeepsNodes(w, Propagate(w, db.exec, e), e.id);
  }

  lemma FailureCompletesNothing(w: Workflow, db: Db, e: Event)
    requires ExecutionInv(w, db.exec) && e.node in db.exec.nodes && e.outcome.Errored? && Conclude(w, db, e).Ok?
    ensures NothingNew(db.exec.nodes, Conclude(w, db, e).value.1.exec.nodes)
  {
    var x := db.exec;
    if x.nodes[e.node].status.Running? {
      var settled := x.nodes[e.node := Settle(x.nodes[e.node], e.outcome)];
      CompletionSteps.FinalizeKeepsNodes(w, Propagate(w, x, e), e.id);
      AllFailStatuses(w, settled, e.node);
      hide FailDependants, Finalize;
    }
  }

  lemma AllFailStatuses(w: Workflow, nodes: map<string, NodeRow>, cause: string)
    requires nodes.Keys == Ids(w)
    ensures NothingNew(nodes, FailDependants(w, nodes, cause))
  {
    FailDependantsRows(w, nodes, cause);
    hide FailDependants;
    forall n | n in FailDependants(w, nodes, cause) ensures n in nodes && NodeMove(nodes[n].status, FailDependants(w, nodes, cause)[n].status)
      ensures nodes[n].status.Pending? || FailDependants(w, nodes, cause)[n] == nodes[n]
    {
      FailStatuses(w, nodes, cause, n);
    }
  }

  lemma DispatchNothingNew(sys: System, s: State, load: Load, attempt: Uuid)
    requires ValidSystem(sys) && Inv(sys, s) && Enabled(sys, s, DispatchStep(load, attempt))
    ensures NothingNew(s.db.exec.nodes, AfterDispatch(s, load, attempt).db.exec.nodes)
  {
    hide Inv, Claim;
    DispatchSteps.DispatchNeverFails(sys, s, load);
    var n, x := load.node.id, s.db.exec;
    if n in x.nodes && x.nodes[n].status.Pending? {
      var input :| AfterDispatch(s, load, attempt).db == Claim(s.db, load.node, input, attempt);
      DispatchSteps.ClaimEffect(sys, s, load.node, input, attempt);
    }
  }

  lemma StepLists(sys: System, s: State, step: Step, n: string)
    requires ValidSystem(sys) && Inv(sys, s) && Enabled(sys, s, step) && n in Ids(Flow(sys))
    requires n in ReadyIds(Flow(sys), NodeStatuses(After(sys, s, step).db.exec.nodes))
    ensures n in ReadyIds(Flow(sys), NodeStatuses(s.db.exec.nodes)) || n in After(sys, s, step).ready
    ensures s.ready <= After(sys, s, step).ready
    ensures step.EvaluateStep? && n in ReadyIds(Flow(sys), NodeStatuses(s.db.exec.nodes)) ==> n in After(sys, s, step).ready
  {
    hide Inv, ReadyIds, ProcessResult, Dispatch, AfterProcess, AfterDispatch, AfterClaim, AfterRenew, AfterRecord;
    ReadyGrows(sys, s, step);
    match step {
      case ProcessStep(e, next) =>
        ProcessLists(sys, s, e, next);
        if NothingNew(s.db.exec.nodes, After(sys, s, step).db.exec.nodes) {
          KeysStay(sys, s, step);
          NotNewlyReady(Flow(sys), s.db.exec.nodes, After(sys, s, step).db.exec.nodes, n);
        }
      case DispatchStep(load, attempt) =>
        DispatchNothingNew(sys, s, load, attempt);
        KeysStay(sys, s, step);
        NotNewlyReady(Flow(sys), s.db.exec.nodes, After(sys, s, step).db.exec.nodes, n);
      case TriggerStep(_, _) =>
      case _ => QuietOutbox(sys, s, step);
    }
  }

  lemma ReadyGrows(sys: System, s: State, step: Step)
    requires Enabled(sys, s, step)
    ensures s.ready <= After(sys, s, step).ready
    ensures step.EvaluateStep? ==> forall n :: n in ReadyIds(Flow(sys), NodeStatuses(s.db.exec.nodes)) ==> n in After(sys, s, step).ready
  {
    hide ReadyIds, Dispatch, Process, Trigger, ClaimAttempt, RecordResult, MarkCompleted, MarkRetryPublished, RenewClaim, GetDueRetries, EventFromResult;
  }

  lemma KeysStay(sys: System, s: State, step: Step)
    requires ValidSystem(sys) && Inv(sys, s) && Enabled(sys, s, step)
    ensures s.db.exec.nodes.Keys == Ids(Flow(sys)) && After(sys, s, step).db.exec.nodes.Keys == Ids(Flow(sys))
  {
    hide Enabled, After, ReadyPart, TaskPart, Ledger, RetryPart, LeasePart, ValuePart, MessagePart, StartedAfterDependencies, FailurePropagated,
         StatusAgrees, Grows, ClaimsKept;
    StepEffect(sys, s, step);
  }

  /** In every state of every run a ready node is on a ready list that some process was given, unless
      it has no dependencies and the trigger was never evaluated. */
  lemma {:induction false} ReadyIsListed(sys: System, states: seq<State>, steps: seq<Step>, i: nat, n: string)
    requires ValidSystem(sys) && IsRun(sys, states, steps) && i < |states| && n in Ids(Flow(sys))
    requires n in ReadyIds(Flow(sys), NodeStatuses(states[i].db.exec.nodes))
    ensures n in states[i].ready || (DepsOf(Flow(sys), n) == [] && NoEvaluation(steps[..i]))
    decreases i
  {
    hide IsRun, Inv, Enabled, After, ReadyIds;
    RunLength(sys, states, steps);
    if i == 0 {
      FirstReady(sys, states, steps, n);
    } else {
      RunKeepsInv(sys, states, steps, i - 1);
      RunEffect(sys, states, steps, i - 1);
      StepLists(sys, states[i - 1], steps[i - 1], n);
      if n in ReadyIds(Flow(sys), NodeStatuses(states[i - 1].db.exec.nodes)) {
        ReadyIsListed(sys, states, steps, i - 1, n);
        assert steps[..i] == steps[..i - 1] + [steps[i - 1]];
      }
    }
  }

  lemma FirstReady(sys: System, states: seq<State>, steps: seq<Step>, n: string)
    requires ValidSystem(sys) && IsRun(sys, states, steps) && n in Ids(Flow(sys))
    requires n in ReadyIds(Flow(sys), NodeStatuses(states[0].db.exec.nodes))
    ensures DepsOf(Flow(sys), n) == []
  {
    var deps := DepsOf(Flow(sys), n);
    assert |deps| > 0 ==> deps[0] in deps;
    ReadyById(Flow(sys), NodeStatuses(states[0].db.exec.nodes), n);
  }

  // ---------- The condition ----------

  /** The latest attempt of the node has recorded a success. */
  ghost predicate Won(s: State, n: string, e: Event) {
    && e in s.recorded && e.node == n && e.outcome.Succeeded?
    && e.attempt in s.db.tables.attempts && s.db.tables.attempts[e.attempt].failureEvent.None?
  }

  // A running node that can still fail.
  ghost predicate Failable(s: State, n: string) {
    n in s.db.exec.nodes && s.db.exec.nodes[n].status.Running? && forall e :: !Won(s, n, e)
  }

  function AsCompleted(nodes: map<string, NodeRow>): map<string, NodeRow> {
    map n | n in nodes :: if nodes[n].status.Running? then nodes[n].(status := Completed) else nodes[n]
  }

  // The execution as if all running nodes had completed.
  function AsIf(x: Execution): Execution { x.(nodes := AsCompleted(x.nodes)) }

  /** It has ended; or a running node can still fail; or, taking the running nodes as completed, all
      nodes are completed or some ready node has an input. */
  ghost predicate EndInReach(sys: System, s: State)
    requires WellFormed(Flow(sys))
  {
    || Terminal(s.db.exec.status)
    || (exists n :: Failable(s, n))
    || (Flow(sys) != [] && AllCompleted(Flow(sys), AsIf(s.db.exec).nodes))
    || (exists n :: CanStart(sys, AsIf(s.db.exec), n))
  }

  /** The run so far has a continuation that ends the execution and does not deliver the trigger
      again. */
  ghost predicate CanEnd(sys: System, before: seq<Step>, s: State) {
    exists more, s' :: Path(sys, s, more, s') && Terminal(s'.db.exec.status) && (!NoEvaluation(before) ==> NoEvaluation(more))
  }

  // ---------- What is recorded can be published ----------

  lemma {:induction false} RecordedIsHeld(sys: System, states: seq<State>, steps: seq<Step>, i: nat)
    requires ValidSystem(sys) && IsRun(sys, states, steps) && i < |states|
    ensures states[i].recorded <= states[i].unpublished
    decreases i
  {
    hide Enabled, After, ValidSystem;
    if i > 0 {
      RecordedIsHeld(sys, states, steps, i - 1);
      assert Next(sys, states[i - 1], steps[i - 1], states[i]);
      StepHolds(sys, states[i - 1], steps[i - 1]);
    }
  }

  lemma StepHolds(sys: System, s: State, step: Step)
    requires Enabled(sys, s, step) && s.recorded <= s.unpublished
    ensures After(sys, s, step).recorded <= After(sys, s, step).unpublished
  {
    hide ReadyIds, Dispatch, Process, Trigger, ClaimAttempt, RecordResult, MarkCompleted, MarkRetryPublished, RenewClaim, GetDueRetries, EventFromResult;
  }

  /** What the workers and orchestrators know of a reachable state. */
  lemma ReachableFacts(sys: System, s: State)
    requires ValidSystem(sys) && Reachable(sys, s)
    ensures s.recorded <= s.unpublished && Unspent(s.db.exec, s.db.tables, Limit(sys))
  {
    hide IsRun, Unspent, ValidSystem;
    var states, steps, i :| IsRun(sys, states, steps) && 0 <= i < |states| && states[i] == s;
    RecordedIsHeld(sys, states, steps, i);
    RunningIsUnspent(sys, states, steps, i);
  }

  // ---------- Failing a running node ----------

  /** A running node has exactly one attempt that has not failed. */
  lemma OpenAttempt(sys: System, s: State, n: string) returns (a: Uuid)
    requires ValidSystem(sys) && Reachable(sys, s) && n in s.db.exec.nodes && s.db.exec.nodes[n].status.Running?
    ensures a in s.db.tables.attempts && s.db.tables.attempts[a].task == TaskOf(s.db.exec, n)
    ensures s.db.tables.attempts[a].failureEvent.None? && 1 <= s.db.tables.attempts[a].number <= Limit(sys)
    ensures TaskOf(s.db.exec, n) in s.db.tables.tasks
  {
    hide Reachable;
    ReachableFacts(sys, s);
    RunningHasTask(sys, s, n);
    var t, k := s.db.tables, TaskOf(s.db.exec, n);
    var last := AttemptsFormAChain(sys, s, k);
    assert HasAttempt(t, k, last);
    a :| AttemptNumbered(t, k, last, a);
    assert !Spent(t, k, Limit(sys));
  }

  /** What the row of an attempt says when it has not failed. */
  lemma OpenRow(sys: System, s: State, a: Uuid)
    requires ValidSystem(sys) && Reachable(sys, s) && a in s.db.tables.attempts && s.db.tables.attempts[a].failureEvent.None?
    ensures var t, row := s.db.tables, s.db.tables.attempts[a];
            && row.task in t.tasks && t.tasks[row.task].execution == row.task.execution && t.tasks[row.task].node == row.task.node
            && (row.completionEvent.Some? ==> RowEvent(a, row) in s.recorded)
            && (row.completionEvent.None? ==> !row.status.Done? && !row.status.ResultRecorded? && !row.status.Broken?)
            && (row.completionEvent.None? && row.claimedBy.Some? ==> row.claimExpiresAt.Some?)
  {
    hide Reachable, ReadyPart, TaskPart, ExecPart, RetryPart, LeasePart, ValuePart, Chained, RetryRows;
    ReachableInv(sys, s);
    assert RowOk(s.db.tables, s.recorded, a);
  }

  // A first attempt was announced in the outbox.
  lemma FirstMessage(sys: System, s: State, n: string, a: Uuid) returns (row: nat)
    requires ValidSystem(sys) && Reachable(sys, s) && n in s.db.exec.nodes && a in s.db.tables.attempts
    requires s.db.tables.attempts[a].task == TaskOf(s.db.exec, n) && TaskOf(s.db.exec, n) in s.db.tables.tasks && s.db.tables.attempts[a].number == 1
    ensures row < |s.db.exec.outbox| && s.db.exec.outbox[row].body == TaskQueued(MessageFor(s.db.tables, a))
  {
    hide Reachable, ExecPart, ReadyPart, TaskPart, Ledger, RetryPart, LeasePart, ValuePart, OutboxInv, AllDescribe, RunsDescribe;
    ReachableInv(sys, s);
    var t, x := s.db.tables, s.db.exec;
    row := MessageOfTask(x, t, s.recorded, s.used, n);
    AnnouncementsAreTrue(sys, s, row);
    var m := x.outbox[row].body.message;
    assert Describes(t, m);
    SameFirst(sys, s, n, a, m);
  }

  lemma MessageOfTask(x: Execution, t: Tables, rec: set<Event>, used: set<Uuid>, n: string) returns (row: nat)
    requires OutboxInv(x, t, rec, used) && TaskOf(x, n) in t.tasks
    ensures row < |x.outbox| && x.outbox[row].body.TaskQueued? && x.outbox[row].body.message.node == n
    ensures x.outbox[row].body.message.task == TaskOf(x, n)
  {
    assert Happened(x, t, AboutTask(n));
    assert Mentioned(x.outbox, AboutTask(n));
    row :| 0 <= row < |x.outbox| && TopicOf(x.outbox[row].body) == AboutTask(n);
    assert KeyOk(x, rec, used, x.outbox[row]);
  }

  lemma SameFirst(sys: System, s: State, n: string, a: Uuid, m: TaskMessage)
    requires ValidSystem(sys) && Reachable(sys, s) && n in s.db.exec.nodes && a in s.db.tables.attempts
    requires s.db.tables.attempts[a].task == TaskOf(s.db.exec, n) && s.db.tables.attempts[a].number == 1
    requires Describes(s.db.tables, m) && m.task == TaskOf(s.db.exec, n) && m.number == 1
    ensures m.attempt == a
  {
    hide Reachable;
    FirstAttemptIsUnique(sys, s, n);
    var t, k := s.db.tables, TaskOf(s.db.exec, n);
    assert AttemptNumbered(t, k, 1, a) && AttemptNumbered(t, k, 1, m.attempt);
  }

  /** The message of an attempt can always be delivered: from the outbox, as a due retry, or because it
      is on the stream. */
  lemma OnStream(sys: System, o: State, steps: seq<Step>, s: State, n: string, a: Uuid) returns (s': State, all: seq<Step>)
    requires ValidSystem(sys) && Path(sys, o, steps, s) && n in s.db.exec.nodes && a in s.db.tables.attempts && NoEvaluation(steps)
    requires s.db.tables.attempts[a].task == TaskOf(s.db.exec, n) && TaskOf(s.db.exec, n) in s.db.tables.tasks
    requires s.db.tables.attempts[a].number >= 1
    ensures Path(sys, o, all, s') && NoEvaluation(all) && s'.db == s.db && MessageFor(s.db.tables, a) in s'.tasks
  {
    hide Path, Reachable, GetDueRetries;
    PathIsReachable(sys, o, steps, s);
    var t := s.db.tables;
    if MessageFor(t, a) in s.tasks {
      s', all := s, steps;
    } else if t.attempts[a].number == 1 {
      var row := FirstMessage(sys, s, n, a);
      PathStep(sys, o, steps, s, PublishOutboxStep(row));
      s', all := After(sys, s, PublishOutboxStep(row)), steps + [PublishOutboxStep(row)];
    } else {
      NoRetryIsLost(sys, s, a);
      var due := t.dispatches[a].availableAt;
      var time := if s.now < due then due else s.now;
      PathStep(sys, o, steps, s, TickStep(time));
      var s1 := After(sys, s, TickStep(time));
      IsDue(t, a, time);
      var m;
      s', all, m := SendRetry(sys, o, steps + [TickStep(time)], s1, a);
    }
  }

  lemma IsDue(t: Tables, a: Uuid, time: Time)
    requires a in t.attempts && t.attempts[a].task in t.tasks && MessageFor(t, a) in GetDueRetries(t, time)
    ensures DueRetry(t, a, time)
  {
  }

  lemma FailUnreported(sys: System, o: State, steps: seq<Step>, s: State, n: string, a: Uuid) returns (s': State, all: seq<Step>)
    requires ValidSystem(sys) && Path(sys, o, steps, s) && NoEvaluation(steps) && n in s.db.exec.nodes && s.db.exec.nodes[n].status.Running?
    requires a in s.db.tables.attempts && s.db.tables.attempts[a].task == TaskOf(s.db.exec, n) && TaskOf(s.db.exec, n) in s.db.tables.tasks
    requires s.db.tables.attempts[a].failureEvent.None? && 1 <= s.db.tables.attempts[a].number <= Limit(sys)
    requires s.db.tables.attempts[a].completionEvent.None?
    ensures Path(sys, o, all, s') && NoEvaluation(all) && Terminal(s'.db.exec.status)
  {
    hide Path, Reachable;
    PathIsReachable(sys, o, steps, s);
    OpenRow(sys, s, a);
    var s1, steps1 := OnStream(sys, o, steps, s, n, a);
    var row := s.db.tables.attempts[a];
    var time := if row.claimExpiresAt.Some? && s1.now < row.claimExpiresAt.value then row.claimExpiresAt.value else s1.now;
    PathStep(sys, o, steps1, s1, TickStep(time));
    var s2, m := After(sys, s1, TickStep(time)), MessageFor(s.db.tables, a);
    assert Waiting(sys, s2, n, m);
    s', all := FailAll(sys, o, steps1 + [TickStep(time)], s2, n, m);
  }

  lemma FailReported(sys: System, o: State, steps: seq<Step>, s: State, n: string, a: Uuid) returns (s': State, all: seq<Step>)
    requires ValidSystem(sys) && Path(sys, o, steps, s) && NoEvaluation(steps) && Failable(s, n)
    requires a in s.db.tables.attempts && s.db.tables.attempts[a].task == TaskOf(s.db.exec, n) && TaskOf(s.db.exec, n) in s.db.tables.tasks
    requires s.db.tables.attempts[a].failureEvent.None? && 1 <= s.db.tables.attempts[a].number <= Limit(sys)
    requires s.db.tables.attempts[a].completionEvent.Some?
    ensures Path(sys, o, all, s') && NoEvaluation(all) && Terminal(s'.db.exec.status)
  {
    hide Path, Reachable, Unspent;
    PathIsReachable(sys, o, steps, s);
    OpenRow(sys, s, a);
    ReachableFacts(sys, s);
    var f, m := RowEvent(a, s.db.tables.attempts[a]), MessageFor(s.db.tables, a);
    assert !Won(s, n, f);
    PathStep(sys, o, steps, s, PublishCompletionStep(f));
    var s1, steps1 := After(sys, s, PublishCompletionStep(f)), steps + [PublishCompletionStep(f)];
    if m.number < Limit(sys) {
      var s2, steps2, m2 := NextAttempt(sys, o, steps1, s1, n, m, f);
      s', all := FailAll(sys, o, steps2, s2, n, m2);
    } else {
      s', all := LastAttempt(sys, o, steps1, s1, n, m, f);
    }
  }

  /** A running node whose latest attempt has no success can be failed, and the execution with it. */
  lemma FailRunning(sys: System, s: State, n: string) returns (s': State, all: seq<Step>)
    requires ValidSystem(sys) && Reachable(sys, s) && Failable(s, n)
    ensures Path(sys, s, all, s') && NoEvaluation(all) && Terminal(s'.db.exec.status)
  {
    hide Path, Reachable;
    PathStart(sys, s);
    var a := OpenAttempt(sys, s, n);
    if s.db.tables.attempts[a].completionEvent.None? {
      s', all := FailUnreported(sys, s, [], s, n, a);
    } else {
      s', all := FailReported(sys, s, [], s, n, a);
    }
  }

  // ---------- Completing what runs ----------

  ghost function RunningSet(nodes: map<string, NodeRow>): set<string> {
    set n | n in nodes && nodes[n].status.Running?
  }

  lemma CompleteOne(sys: System, o: State, steps: seq<Step>, s: State, n: string, e: Event) returns (s': State, all: seq<Step>)
    requires ValidSystem(sys) && Path(sys, o, steps, s) && NoEvaluation(steps) && Won(s, n, e)
    requires n in s.db.exec.nodes && s.db.exec.nodes[n].status.Running?
    ensures Path(sys, o, all, s') && NoEvaluation(all) && s'.db.exec.input == s.db.exec.input
    ensures s'.db.exec.nodes == s.db.exec.nodes[n := Settle(s.db.exec.nodes[n], e.outcome)]
    ensures s'.db.tables == s.db.tables && s'.recorded == s.recorded
  {
    hide Path, Reachable, Unspent, ReadyIds;
    PathIsReachable(sys, o, steps, s);
    ReachableFacts(sys, s);
    PathStep(sys, o, steps, s, PublishCompletionStep(e));
    var s1, steps1 := After(sys, s, PublishCompletionStep(e)), steps + [PublishCompletionStep(e)];
    var s2, next := SettleNode(sys, o, steps1, s1, e);
    s', all := s2, steps1 + [ProcessStep(e, next)];
  }

  lemma AsIfStays(x: Execution, x': Execution, n: string, o: Outcome)
    requires n in x.nodes && x.nodes[n].status.Running? && o.Succeeded? && x'.nodes == x.nodes[n := Settle(x.nodes[n], o)]
    ensures NodeStatuses(AsIf(x').nodes) == NodeStatuses(AsIf(x).nodes)
    ensures RunningSet(x'.nodes) == RunningSet(x.nodes) - {n}
  {
  }

  lemma {:induction false} CompleteRunning(sys: System, o: State, steps: seq<Step>, s: State) returns (s': State, all: seq<Step>)
    requires ValidSystem(sys) && Path(sys, o, steps, s) && NoEvaluation(steps) && forall n :: !Failable(s, n)
    ensures Path(sys, o, all, s') && NoEvaluation(all) && s'.db.exec.input == s.db.exec.input
    ensures NodeStatuses(s'.db.exec.nodes) == NodeStatuses(AsIf(s.db.exec).nodes)
    decreases |RunningSet(s.db.exec.nodes)|
  {
    hide Path;
    if RunningSet(s.db.exec.nodes) == {} {
      s', all := s, steps;
      forall n | n in s.db.exec.nodes ensures !s.db.exec.nodes[n].status.Running? {
        assert n !in RunningSet(s.db.exec.nodes);
      }
    } else {
      var n :| n in RunningSet(s.db.exec.nodes);
      assert !Failable(s, n);
      var e :| Won(s, n, e);
      var s1, steps1 := CompleteOne(sys, o, steps, s, n, e);
      AsIfStays(s.db.exec, s1.db.exec, n, e.outcome);
      forall k ensures !Failable(s1, k) {
        if k in s1.db.exec.nodes && s1.db.exec.nodes[k].status.Running? {
          assert !Failable(s, k);
          var f :| Won(s, k, f);
          assert Won(s1, k, f);
        }
      }
      s', all := CompleteRunning(sys, o, steps1, s1);
    }
  }

  // ---------- Starting what is ready ----------

  lemma PathJoin(sys: System, o: State, first: seq<Step>, s: State, more: seq<Step>, s': State)
    requires Path(sys, o, first, s) && Path(sys, s, more, s')
    ensures Path(sys, o, first + more, s')
  {
    hide Next, Reachable;
    var a :| Joined(sys, a, first) && a[0] == o && a[|first|] == s;
    var b :| Joined(sys, b, more) && b[0] == s && b[|more|] == s';
    var all, steps := a[..|first|] + b, first + more;
    forall k, l | 0 <= k < |steps| && 0 <= l < |all| && l == k + 1 ensures Next(sys, all[k], steps[k], all[l]) {
      if k < |first| {
        assert Next(sys, a[k], first[k], a[l]);
        assert all[l] == a[l];
      } else {
        assert Next(sys, b[k - |first|], more[k - |first|], b[l - |first|]);
      }
    }
    assert Joined(sys, all, steps) && all[0] == o && all[|steps|] == s';
  }

  lemma ListedOrFirst(sys: System, o: State, steps: seq<Step>, s: State, n: string)
    requires ValidSystem(sys) && Init(sys, o) && Path(sys, o, steps, s) && n in Ids(Flow(sys))
    requires n in ReadyIds(Flow(sys), NodeStatuses(s.db.exec.nodes))
    ensures n in s.ready || NoEvaluation(steps)
  {
    hide ReadyIds, Next;
    var states :| Joined(sys, states, steps) && states[0] == o && states[|steps|] == s;
    assert IsRun(sys, states, steps);
    ReadyIsListed(sys, states, steps, |steps|, n);
    assert steps[..|steps|] == steps;
  }

  lemma TriggerArrives(sys: System, o: State, steps: seq<Step>, s: State) returns (s': State, all: seq<Step>)
    requires ValidSystem(sys) && Path(sys, o, steps, s) && !s.db.exec.status.Pending?
    ensures Path(sys, o, all, s') && s' == s.(triggered := true)
  {
    hide Reachable, Inv, Path;
    if s.triggered {
      s', all := s, steps;
    } else {
      PathIsReachable(sys, o, steps, s);
      ReachableInv(sys, s);
      var x := s.db.exec;
      assert Happened(x, s.db.tables, AboutTrigger);
      assert Mentioned(x.outbox, AboutTrigger);
      var row :| 0 <= row < |x.outbox| && TopicOf(x.outbox[row].body) == AboutTrigger;
      PathStep(sys, o, steps, s, PublishOutboxStep(row));
      s', all := After(sys, s, PublishOutboxStep(row)), steps + [PublishOutboxStep(row)];
    }
  }

  /** A listed node with an input can be started and failed. */
  lemma StartAndFail(sys: System, o: State, steps: seq<Step>, s: State, n: string) returns (s': State, all: seq<Step>)
    requires ValidSystem(sys) && Path(sys, o, steps, s) && CanStart(sys, s.db.exec, n) && n in s.ready
    ensures Path(sys, o, all, s') && Terminal(s'.db.exec.status) && (NoEvaluation(steps) ==> NoEvaluation(all))
  {
    hide Path, Reachable, EvalInput, DispatchSteps.NodeClaimed;
    PathIsReachable(sys, o, steps, s);
    ReadyMember(Flow(sys), NodeStatuses(s.db.exec.nodes), n);
    NodesAreIds(sys, s);
    var s1 := LoadNode(sys, o, steps, s, n);
    var steps1 := steps + [LoadStep(n)];
    var s2, dispatch, attempt := StartNode(sys, o, steps1, s1, n, EvalInput(sys, s.db.exec.input, n).value);
    var s3, m := SendTask(sys, o, steps1 + [dispatch], s2, s1, n, EvalInput(sys, s.db.exec.input, n).value, attempt);
    s', all := FailAll(sys, o, steps1 + [dispatch] + [PublishOutboxStep(|s1.db.exec.outbox|)], s3, n, m);
  }

  lemma EvaluateTrigger(sys: System, o: State, steps: seq<Step>, s: State, n: string) returns (s': State, all: seq<Step>)
    requires ValidSystem(sys) && Path(sys, o, steps, s) && !s.db.exec.status.Pending?
    requires n in ReadyIds(Flow(sys), NodeStatuses(s.db.exec.nodes))
    ensures Path(sys, o, all, s') && s'.db == s.db && n in s'.ready
  {
    hide Path, ReadyIds;
    var s1, steps1 := TriggerArrives(sys, o, steps, s);
    PathStep(sys, o, steps1, s1, EvaluateStep);
    s', all := After(sys, s1, EvaluateStep), steps1 + [EvaluateStep];
  }

  // ---------- Reaching the end ----------

  lemma CanStartSame(sys: System, x: Execution, x': Execution, n: string)
    requires WellFormed(Flow(sys)) && CanStart(sys, AsIf(x), n) && x'.input == x.input && NodeStatuses(x'.nodes) == NodeStatuses(AsIf(x).nodes)
    ensures CanStart(sys, x', n)
  {
  }

  lemma AllCompletedSame(w: Workflow, nodes: map<string, NodeRow>, nodes': map<string, NodeRow>)
    requires NodeStatuses(nodes') == NodeStatuses(nodes) && AllCompleted(w, nodes)
    ensures AllCompleted(w, nodes')
  {
    forall i | 0 <= i < |w| ensures w[i].id in nodes' && nodes'[w[i].id].status.Completed? {
      assert w[i].id in NodeStatuses(nodes) && NodeStatuses(nodes)[w[i].id].Completed?;
      assert w[i].id in NodeStatuses(nodes') && NodeStatuses(nodes')[w[i].id].Completed?;
    }
  }

  lemma StaysTriggered(sys: System, o: State, steps: seq<Step>, s: State)
    requires ValidSystem(sys) && Path(sys, o, steps, s) && !o.db.exec.status.Pending?
    ensures !s.db.exec.status.Pending?
  {
    hide Reachable, Next;
    var states :| Joined(sys, states, steps) && states[0] == o && states[|steps|] == s;
    StaysTriggeredTo(sys, states, steps, |steps|);
  }

  lemma {:induction false} StaysTriggeredTo(sys: System, states: seq<State>, steps: seq<Step>, j: nat)
    requires ValidSystem(sys) && Joined(sys, states, steps) && j < |states| && Reachable(sys, states[0]) && !states[0].db.exec.status.Pending?
    ensures !states[j].db.exec.status.Pending?
    decreases j
  {
    hide Reachable, Inv, Enabled, After, Grows, ClaimsKept, NodeMoves, CompletedKept;
    if j > 0 {
      StaysTriggeredTo(sys, states, steps, j - 1);
      PartOfPath(sys, states, steps, j - 1);
      PathIsReachable(sys, states[0], steps[..j - 1], states[j - 1]);
      ReachableInv(sys, states[j - 1]);
      assert Next(sys, states[j - 1], steps[j - 1], states[j]);
      StepEffect(sys, states[j - 1], steps[j - 1]);
    }
  }

  lemma ReachEnd(sys: System, o: State, before: seq<Step>, s: State)
    requires ValidSystem(sys) && Init(sys, o) && Path(sys, o, before, s) && !s.db.exec.status.Pending? && EndInReach(sys, s)
    ensures CanEnd(sys, before, s)
  {
    hide Path, Reachable, Init, CanStart, AllCompleted, Failable;
    PathIsReachable(sys, o, before, s);
    PathStart(sys, s);
    if Terminal(s.db.exec.status) {
      assert NoEvaluation([]);
    } else if n :| Failable(s, n) {
      var s', all := FailRunning(sys, s, n);
    } else {
      var s1, more := CompleteRunning(sys, s, [], s);
      PathIsReachable(sys, s, more, s1);
      if Flow(sys) != [] && AllCompleted(Flow(sys), AsIf(s.db.exec).nodes) {
        AllCompletedSame(Flow(sys), AsIf(s.db.exec).nodes, s1.db.exec.nodes);
        StatusTellsTheNodes(sys, s1);
      } else {
        var n :| CanStart(sys, AsIf(s.db.exec), n);
        CanStartSame(sys, s.db.exec, s1.db.exec, n);
        StaysTriggered(sys, s, more, s1);
        StartFrom(sys, o, before, s, more, s1, n);
      }
    }
  }

  lemma StartFrom(sys: System, o: State, before: seq<Step>, s: State, more: seq<Step>, s1: State, n: string)
    requires ValidSystem(sys) && Init(sys, o) && Path(sys, o, before, s) && Path(sys, s, more, s1) && NoEvaluation(more)
    requires !s1.db.exec.status.Pending? && CanStart(sys, s1.db.exec, n)
    ensures CanEnd(sys, before, s)
  {
    hide Path, Reachable, Init, ReadyIds, EvalInput;
    PathJoin(sys, o, before, s, more, s1);
    ListedOrFirst(sys, o, before + more, s1, n);
    if n in s1.ready {
      var s2, all := StartAndFail(sys, s, more, s1, n);
    } else {
      assert NoEvaluation(before) by {
        assert forall i :: 0 <= i < |before| ==> (before + more)[i] == before[i];
      }
      var s2, steps2 := EvaluateTrigger(sys, s, more, s1, n);
      var s3, all := StartAndFail(sys, s, steps2, s2, n);
    }
  }

  // ---------- Never reaching it ----------

  /** What runs can only complete, and then nothing can start. */
  ghost predicate Hopeless(sys: System, s: State)
    requires WellFormed(Flow(sys))
  {
    && !s.db.exec.status.Pending? && !AnyFailed(s.db.exec.nodes)
    && (forall n :: !Failable(s, n))
    && !(Flow(sys) != [] && AllCompleted(Flow(sys), AsIf(s.db.exec).nodes))
    && (forall n :: !CanStart(sys, AsIf(s.db.exec), n))
  }

  /** Only running nodes change, and only to completed. */
  ghost predicate OnlyCompletes(x: Execution, x': Execution) {
    && NodeStatuses(AsIf(x').nodes) == NodeStatuses(AsIf(x).nodes) && x'.input == x.input
    && (forall n :: n in x'.nodes && x'.nodes[n].status.Running? ==> n in x.nodes && x.nodes[n].status.Running?)
    && (AnyFailed(x'.nodes) ==> AnyFailed(x.nodes)) && (x'.status.Pending? ==> x.status.Pending?)
  }

  // The failure of a node that has won is never news.
  lemma WonIsFinal(sys: System, s: State, f: Event)
    requires ValidSystem(sys) && Reachable(sys, s) && f in s.recorded && f.outcome.Errored?
    requires f.node in s.db.exec.nodes && s.db.exec.nodes[f.node].status.Running? && !Failable(s, f.node)
    ensures f.attempt in s.db.tables.attempts && s.db.tables.attempts[f.attempt].failureEvent.Some?
  {
    hide Reachable, Inv;
    ReachableInv(sys, s);
    CompletionSteps.EventBelongs(sys, s, f);
    var e :| Won(s, f.node, e);
    CompletionSteps.EventBelongs(sys, s, e);
    if e.attempt != f.attempt {
      EarlierAttemptHasFailed(sys, s, e.attempt, f.attempt);
      EarlierAttemptHasFailed(sys, s, f.attempt, e.attempt);
    } else {
      OneEventUntilFailureIsNoted(sys, s, e, f);
    }
  }

  lemma HopelessDispatch(sys: System, s: State, load: Load, attempt: Uuid)
    requires ValidSystem(sys) && Inv(sys, s) && Hopeless(sys, s) && Enabled(sys, s, DispatchStep(load, attempt))
    ensures AfterDispatch(s, load, attempt).db == s.db
  {
    hide Inv, Claim, EvalInput, CanStart, Failable, AllCompleted;
    DispatchSteps.DispatchNeverFails(sys, s, load);
    DispatchSteps.DispatchResolves(sys, s, load);
    var n, x := load.node.id, s.db.exec;
    if n in x.nodes && x.nodes[n].status.Pending? {
      ReadyAsIf(sys, x, n);
      StartableIfInput(sys, AsIf(x), n);
    }
  }

  lemma ReadyAsIf(sys: System, x: Execution, n: string)
    requires ValidSystem(sys) && n in Ids(Flow(sys)) && n in x.nodes && x.nodes[n].status.Pending?
    requires DependenciesCompleted(Flow(sys), x.nodes, n)
    ensures n in ReadyIds(Flow(sys), NodeStatuses(AsIf(x).nodes))
  {
    ReadyById(Flow(sys), NodeStatuses(AsIf(x).nodes), n);
  }

  lemma SuccessOnlyCompletes(w: Workflow, db: Db, e: Event)
    requires e.node in db.exec.nodes && db.exec.nodes[e.node].status.Running? && e.outcome.Succeeded? && Conclude(w, db, e).Ok?
    ensures OnlyCompletes(db.exec, Conclude(w, db, e).value.1.exec)
  {
    hide ReadyIds;
    var x, after := db.exec, Propagate(w, db.exec, e);
    CompletionSteps.FinalizeKeepsNodes(w, after, e.id);
    hide Finalize;
    AsIfStays(x, after, e.node, e.outcome);
  }

  lemma SameOnlyCompletes(x: Execution)
    ensures OnlyCompletes(x, x)
  {
  }

  lemma HopelessProcess(sys: System, s: State, e: Event, next: Uuid)
    requires ValidSystem(sys) && Reachable(sys, s) && Hopeless(sys, s) && Enabled(sys, s, ProcessStep(e, next))
    ensures OnlyCompletes(s.db.exec, AfterProcess(sys, s, e, next).db.exec)
    ensures KeepsWins(s, AfterProcess(sys, s, e, next))
  {
    hide Reachable, Inv, Process, Conclude, AfterRetry, AfterExhausted, OnlyCompletes, CanStart, AllCompleted, Failable;
    ReachableInv(sys, s);
    CompletionSteps.DeliveredIsRecorded(sys, s, e);
    CompletionSteps.EventBelongs(sys, s, e);
    CompletionSteps.AttemptsAreUsed(sys, s);
    SameOnlyCompletes(s.db.exec);
    if e.outcome.Succeeded? {
      CompletionSteps.ProcessSuccess(sys, s, e, next);
      if s.db.exec.nodes[e.node].status.Running? {
        SuccessOnlyCompletes(Flow(sys), s.db, e);
        ConcludeTables(Flow(sys), s.db, e);
      }
    } else {
      CompletionSteps.ProcessFailure(sys, s, e, next);
      if s.db.tables.attempts[e.attempt].failureEvent.None? {
        if s.db.exec.nodes[e.node].status.Running? {
          WonIsFinal(sys, s, e);
        } else {
          StragglerFails(sys, s, e, next);
        }
      }
    }
  }

  lemma ConcludeTables(w: Workflow, db: Db, e: Event)
    requires e.node in db.exec.nodes && Conclude(w, db, e).Ok?
    ensures Conclude(w, db, e).value.1.tables == db.tables
    ensures !db.exec.nodes[e.node].status.Running? ==> Conclude(w, db, e).value.1 == db
  {
  }

  /** Wins of running nodes stay wins. */
  ghost predicate KeepsWins(s: State, s': State) {
    forall n, e :: Won(s, n, e) && n in s.db.exec.nodes && s.db.exec.nodes[n].status.Running? ==> Won(s', n, e)
  }

  // A failure that is news, of a node that does not run any more.
  ghost predicate Straggler(s: State, e: Event) {
    && e in s.recorded && e.outcome.Errored? && e.node in s.db.exec.nodes && !s.db.exec.nodes[e.node].status.Running?
    && e.attempt in s.db.tables.attempts && s.db.tables.attempts[e.attempt].failureEvent.None?
  }

  // A failure noted for a node that does not run concerns no win of a running node.
  lemma StragglerFails(sys: System, s: State, e: Event, next: Uuid)
    requires ValidSystem(sys) && Inv(sys, s) && next !in s.used && ProcessResult(sys, s, e, next).Ok? && Straggler(s, e)
    ensures AfterProcess(sys, s, e, next).db.exec == s.db.exec
    ensures KeepsWins(s, AfterProcess(sys, s, e, next))
  {
    hide Inv, Process, Conclude, AfterRetry, AfterExhausted, CompletionSteps.FailureRecorded, KeepsWins;
    CompletionSteps.EventBelongs(sys, s, e);
    CompletionSteps.AttemptsAreUsed(sys, s);
    CompletionSteps.ProcessFailure(sys, s, e, next);
    var at := CompletionSteps.RetryTime(sys, s, e);
    var exhausted := AfterExhausted(s.db.tables, e.task, e.attempt, e.id, e.outcome.error);
    if e.number >= Limit(sys) {
      ConcludeTables(Flow(sys), s.db.(tables := exhausted), e);
    }
    var s' := AfterProcess(sys, s, e, next);
    CompletionSteps.FailureRows(s.db.tables, e, next, at);
    WinsElsewhere(sys, s, s', e, next);
  }

  lemma WinsElsewhere(sys: System, s: State, s': State, e: Event, next: Uuid)
    requires ValidSystem(sys) && Inv(sys, s) && e in s.recorded && e.node in s.db.exec.nodes && !s.db.exec.nodes[e.node].status.Running?
    requires CompletionSteps.FailureRecorded(s.db.tables, s'.db.tables, e, next) && s'.recorded == s.recorded
    ensures KeepsWins(s, s')
  {
    hide Inv;
    CompletionSteps.EventBelongs(sys, s, e);
    forall n, f | Won(s, n, f) && n in s.db.exec.nodes && s.db.exec.nodes[n].status.Running? ensures Won(s', n, f) {
      CompletionSteps.EventBelongs(sys, s, f);
    }
  }

  lemma OtherKeepsWins(sys: System, s: State, step: Step)
    requires ValidSystem(sys) && Inv(sys, s) && Enabled(sys, s, step) && !step.ProcessStep? && !step.DispatchStep? && !step.TriggerStep?
    ensures KeepsWins(s, After(sys, s, step)) && After(sys, s, step).db.exec == s.db.exec
  {
    hide Inv, ReadyIds, Dispatch, Process, Trigger, EventFromResult, GetDueRetries;
  }

  lemma HopelessStays(sys: System, s: State, s': State)
    requires WellFormed(Flow(sys)) && Hopeless(sys, s) && OnlyCompletes(s.db.exec, s'.db.exec) && KeepsWins(s, s')
    ensures Hopeless(sys, s')
  {
    hide CanStart, EvalInput;
    var x, x' := s.db.exec, s'.db.exec;
    forall n ensures !Failable(s', n) {
      if n in x'.nodes && x'.nodes[n].status.Running? {
        assert !Failable(s, n);
        var e :| Won(s, n, e);
        assert Won(s', n, e);
      }
    }
    if AllCompleted(Flow(sys), AsIf(x').nodes) {
      AllCompletedSame(Flow(sys), AsIf(x').nodes, AsIf(x).nodes);
    }
    forall n ensures !CanStart(sys, AsIf(x'), n) {
      CanStartIff(sys, AsIf(x), AsIf(x'), n);
    }
  }

  lemma CanStartIff(sys: System, x: Execution, x': Execution, n: string)
    requires WellFormed(Flow(sys)) && x'.input == x.input && NodeStatuses(x'.nodes) == NodeStatuses(x.nodes)
    ensures CanStart(sys, x', n) <==> CanStart(sys, x, n)
  {
  }

  lemma HopelessStep(sys: System, s: State, step: Step)
    requires ValidSystem(sys) && Reachable(sys, s) && Hopeless(sys, s) && Enabled(sys, s, step)
    ensures Hopeless(sys, After(sys, s, step))
  {
    hide Reachable, Inv, ProcessResult, Dispatch, AfterDispatch, AfterProcess, CanStart, Failable, AllCompleted, OnlyCompletes, KeepsWins,
         AfterClaim, AfterRenew, AfterRecord;
    ReachableInv(sys, s);
    var s' := After(sys, s, step);
    match step {
      case DispatchStep(load, attempt) =>
        HopelessDispatch(sys, s, load, attempt);
        DispatchKeepsWins(s, load, attempt);
        SameOnlyCompletes(s.db.exec);
      case ProcessStep(e, next) => HopelessProcess(sys, s, e, next);
      case TriggerStep(_, _) => assert false;
      case _ =>
        OtherKeepsWins(sys, s, step);
        SameOnlyCompletes(s.db.exec);
    }
    HopelessStays(sys, s, s');
  }

  lemma DispatchKeepsWins(s: State, load: Load, attempt: Uuid)
    requires Dispatch(s.db, load.node, load.input, attempt).Ok? && AfterDispatch(s, load, attempt).db == s.db
    ensures KeepsWins(s, AfterDispatch(s, load, attempt))
  {
    hide Dispatch;
  }

  lemma {:induction false} HopelessForEver(sys: System, states: seq<State>, steps: seq<Step>, j: nat)
    requires ValidSystem(sys) && Joined(sys, states, steps) && j < |states| && Reachable(sys, states[0]) && Hopeless(sys, states[0])
    ensures Hopeless(sys, states[j]) && Reachable(sys, states[j])
    decreases j
  {
    hide Hopeless, Reachable, Enabled, After;
    if j > 0 {
      HopelessForEver(sys, states, steps, j - 1);
      PartOfPath(sys, states, steps, j);
      PathIsReachable(sys, states[0], steps[..j], states[j]);
      assert Next(sys, states[j - 1], steps[j - 1], states[j]);
      HopelessStep(sys, states[j - 1], steps[j - 1]);
    }
  }

  lemma HopelessHasNotEnded(sys: System, s: State)
    requires ValidSystem(sys) && Reachable(sys, s) && Hopeless(sys, s)
    ensures !Terminal(s.db.exec.status)
  {
    hide Reachable, CanStart, Failable;
    StatusTellsTheNodes(sys, s);
    if AllCompleted(Flow(sys), s.db.exec.nodes) {
      assert AllCompleted(Flow(sys), AsIf(s.db.exec).nodes);
    }
  }

  /** From any state of any run, once triggered, the execution can still end without another delivery of
      the trigger exactly when it has ended, or a running node can still fail, or what would be ready
      once all running nodes have completed can start, or nothing would be left. */
  lemma CanEndIff(sys: System, o: State, before: seq<Step>, s: State)
    requires ValidSystem(sys) && Init(sys, o) && Path(sys, o, before, s) && !s.db.exec.status.Pending?
    ensures CanEnd(sys, before, s) <==> EndInReach(sys, s)
  {
    hide Init, Reachable, CanStart, Failable, AllCompleted;
    PathIsReachable(sys, o, before, s);
    if EndInReach(sys, s) {
      ReachEnd(sys, o, before, s);
    } else {
      StatusTellsTheNodes(sys, s);
      assert Hopeless(sys, s);
      forall more, s' | Path(sys, s, more, s') ensures !Terminal(s'.db.exec.status) {
        var states :| Joined(sys, states, more) && states[0] == s && states[|more|] == s';
        HopelessForEver(sys, states, more, |more|);
        HopelessHasNotEnded(sys, s');
      }
    }
  }

  /** When nothing runs, the condition is that it has ended or some ready node has an input. */
  lemma QuietExecutionCanEndIff(sys: System, o: State, before: seq<Step>, s: State)
    requires ValidSystem(sys) && Init(sys, o) && Path(sys, o, before, s) && Quiet(s.db.exec)
    ensures CanEnd(sys, before, s) <==> Terminal(s.db.exec.status) || exists n :: CanStart(sys, s.db.exec, n)
  {
    hide Init, Reachable, CanStart, Path;
    PathIsReachable(sys, o, before, s);
    CanEndIff(sys, o, before, s);
    StatusTellsTheNodes(sys, s);
    assert AsCompleted(s.db.exec.nodes) == s.db.exec.nodes;
    assert AsIf(s.db.exec) == s.db.exec;
  }
}
