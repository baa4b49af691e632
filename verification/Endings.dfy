/** Which executions can still end. */
module Endings {
  import opened Wrappers
  import opened JsonValues
  import opened Definitions
  import opened Traversal
  import opened TaskTables
  import opened AttemptLedger
  import opened RetryPolicies
  import opened ExecutionTables
  import opened ExecutionInvariants
  import opened Protocol
  import opened Dataflow
  import opened ProtocolInvariants
  import DispatchSteps
  import CompletionSteps
  import opened StepEffects
  import opened Theorems
  import opened Adequacy
  import InputResolver
  import ResolverProofs
  import TemplateSyntax

  // ---------- Executions that are stuck ----------

  ghost predicate Quiet(x: Execution) {
    !x.status.Pending? && forall n :: n in x.nodes ==> !x.nodes[n].status.Running?
  }

  // A node that is ready and whose templates can be resolved.
  ghost predicate CanStart(sys: System, x: Execution, n: string)
    requires WellFormed(Flow(sys))
  {
    n in ReadyIds(Flow(sys), NodeStatuses(x.nodes)) && n in Ids(Flow(sys)) && EvalInput(sys, x.input, n).Some?
  }

  /** Nothing runs, and dispatching raises an error for every ready node. */
  ghost predicate Stuck(sys: System, x: Execution)
    requires WellFormed(Flow(sys))
  {
    Quiet(x) && forall n :: !CanStart(sys, x, n)
  }

  lemma StuckDispatch(sys: System, s: State, load: Load, attempt: Uuid)
    requires ValidSystem(sys) && Inv(sys, s) && Stuck(sys, s.db.exec) && Enabled(sys, s, DispatchStep(load, attempt))
    ensures AfterDispatch(s, load, attempt).db == s.db
  {
    hide Inv, Claim, EvalInput, CanStart;
    DispatchSteps.DispatchNeverFails(sys, s, load);
    DispatchSteps.DispatchResolves(sys, s, load);
    var n, x := load.node.id, s.db.exec;
    if n in x.nodes && x.nodes[n].status.Pending? {
      LoadedIsReady(sys, s, n);
      StartableIfInput(sys, x, n);
    }
  }

  lemma LoadedIsReady(sys: System, s: State, n: string)
    requires ValidSystem(sys) && n in Ids(Flow(sys)) && n in s.db.exec.nodes && s.db.exec.nodes[n].status.Pending?
    requires DependenciesCompleted(Flow(sys), s.db.exec.nodes, n)
    ensures n in ReadyIds(Flow(sys), NodeStatuses(s.db.exec.nodes))
  {
    ReadyById(Flow(sys), NodeStatuses(s.db.exec.nodes), n);
  }

  lemma StartableIfInput(sys: System, x: Execution, n: string)
    requires WellFormed(Flow(sys)) && n in ReadyIds(Flow(sys), NodeStatuses(x.nodes)) && n in Ids(Flow(sys))
    ensures CanStart(sys, x, n) <==> EvalInput(sys, x.input, n).Some?
  {
  }

  lemma StuckProcess(sys: System, s: State, e: Event, next: Uuid)
    requires ValidSystem(sys) && Inv(sys, s) && Quiet(s.db.exec) && Enabled(sys, s, ProcessStep(e, next))
    ensures AfterProcess(sys, s, e, next).db.exec == s.db.exec
  {
    hide Inv, Process, AfterRetry, AfterExhausted, Propagate, Finalize;
    CompletionSteps.DeliveredIsRecorded(sys, s, e);
    CompletionSteps.EventBelongs(sys, s, e);
    if e.outcome.Succeeded? {
      CompletionSteps.ProcessSuccess(sys, s, e, next);
    } else {
      CompletionSteps.ProcessFailure(sys, s, e, next);
    }
  }

  lemma StuckStep(sys: System, s: State, step: Step)
    requires ValidSystem(sys) && Inv(sys, s) && Stuck(sys, s.db.exec) && Enabled(sys, s, step)
    ensures After(sys, s, step).db.exec == s.db.exec
  {
    hide Inv, ProcessResult, Dispatch, AfterDispatch, AfterProcess, CanStart, AfterClaim, AfterRenew, AfterRecord, ClaimResult;
    match step
    case DispatchStep(load, attempt) => StuckDispatch(sys, s, load, attempt);
    case ProcessStep(e, next) => StuckProcess(sys, s, e, next);
    case ClaimStep(_, _) => QuietWorker(sys, s, step);
    case RenewStep(_) => QuietWorker(sys, s, step);
    case RecordStep(_, _, _) => QuietWorker(sys, s, step);
    case _ =>
  }

  lemma QuietWorker(sys: System, s: State, step: Step)
    requires Enabled(sys, s, step) && (step.ClaimStep? || step.RenewStep? || step.RecordStep?)
    ensures After(sys, s, step).db.exec == s.db.exec
  {
  }

  /** An execution that is stuck stays as it is for ever, whatever the processes do. */
  lemma {:induction false} StuckForEver(sys: System, states: seq<State>, steps: seq<Step>, i: nat, j: nat)
    requires ValidSystem(sys) && Joined(sys, states, steps) && i <= j < |states| && Reachable(sys, states[0])
    requires Stuck(sys, states[i].db.exec)
    ensures states[j].db.exec == states[i].db.exec
    decreases j
  {
    hide Stuck, Reachable, Inv, Enabled, After;
    if i < j {
      StuckForEver(sys, states, steps, i, j - 1);
      PartOfPath(sys, states, steps, j - 1);
      PathIsReachable(sys, states[0], steps[..j - 1], states[j - 1]);
      ReachableInv(sys, states[j - 1]);
      assert Next(sys, states[j - 1], steps[j - 1], states[j]);
      StuckStep(sys, states[j - 1], steps[j - 1]);
    }
  }

  lemma PartOfPath(sys: System, states: seq<State>, steps: seq<Step>, j: nat)
    requires Joined(sys, states, steps) && j < |states| && Reachable(sys, states[0])
    ensures Path(sys, states[0], steps[..j], states[j])
  {
    hide Next, Reachable;
    assert Joined(sys, states[..j + 1], steps[..j]);
  }

  /** A node whose templates cannot be resolved never gets a task. */
  lemma NoInputNoTask(sys: System, s: State, n: string)
    requires ValidSystem(sys) && Reachable(sys, s) && n in Ids(Flow(sys)) && EvalInput(sys, s.db.exec.input, n).None?
    ensures TaskOf(s.db.exec, n) !in s.db.tables.tasks
  {
    hide Reachable, ReadyPart, TaskPart, ExecPart, RetryPart, LeasePart, Ledger, EvalInput;
    ReachableInv(sys, s);
    var k := TaskOf(s.db.exec, n);
    assert k in s.db.tables.tasks ==> TaskValue(sys, s.db.exec.input, k, s.db.tables.tasks[k]);
  }

  /** A node without dependencies whose configuration holds a delimiter: there is no output its
      templates could refer to. */
  ghost predicate TemplateAtRoot(w: Workflow, n: string) {
    && n in Ids(w) && DepsOf(w, n) == [] && NodeOf(w, n).handler != "input" && NodeOf(w, n).handler != "output"
    && exists text :: ResolverProofs.Inside(Object(NodeOf(w, n).config), text) && TemplateSyntax.HasDelimiter(text)
  }

  lemma TemplateAtRootHasNoInput(sys: System, input: map<string, Json>, n: string)
    requires WellFormed(Flow(sys)) && TemplateAtRoot(Flow(sys), n)
    ensures EvalInput(sys, input, n).None?
  {
    hide InputResolver.ResolveValue, TemplateSyntax.HasDelimiter, ResolverProofs.Inside, ResolverProofs.Resolvable, Eval;
    var w := Flow(sys);
    var config := Object(NodeOf(w, n).config);
    var text :| ResolverProofs.Inside(config, text) && TemplateSyntax.HasDelimiter(text);
    ResolverProofs.NothingToResolveFrom(text);
    ResolverProofs.ResolutionSucceeds(config, map[]);
    ResolvedInputIsEvalInput(sys, input, map[], n);
    assert CompletedOutputs(map[], NodeOf(w, n).dependencies) == map[];
  }

  // No node without dependencies has an input.
  ghost predicate NothingStarts(sys: System, input: map<string, Json>)
    requires WellFormed(Flow(sys))
  {
    forall n :: n in Ids(Flow(sys)) && DepsOf(Flow(sys), n) == [] ==> EvalInput(sys, input, n).None?
  }

  lemma {:induction false} NothingHasInput(sys: System, input: map<string, Json>, n: string)
    requires WellFormed(Flow(sys)) && NothingStarts(sys, input) && n in Ids(Flow(sys))
    ensures EvalInput(sys, input, n).None?
    decreases NodeRank(Flow(sys), n)
  {
    var w := Flow(sys);
    if DepsOf(w, n) != [] {
      var d := DepsOf(w, n)[0];
      DependencyDescends(w, n);
      assert d in DepsOf(w, n);
      NothingHasInput(sys, input, d);
    }
  }

  lemma {:induction false} NothingEverStarted(sys: System, s: State, n: string)
    requires ValidSystem(sys) && Reachable(sys, s) && NothingStarts(sys, s.db.exec.input) && n in Ids(Flow(sys))
    ensures n in s.db.exec.nodes && s.db.exec.nodes[n].status.Pending?
    decreases NodeRank(Flow(sys), n)
  {
    hide Reachable, NothingStarts, EvalInput, HasAttempt, AttemptNumbered, HasFailedAttempt;
    NodesAreIds(sys, s);
    NothingHasInput(sys, s.db.exec.input, n);
    NoInputNoTask(sys, s, n);
    FirstAttemptIsUnique(sys, s, n);
    if s.db.exec.nodes[n].status.Failed? {
      WhyANodeFailed(sys, s, n);
      var d :| d in DepsOf(Flow(sys), n) && d in s.db.exec.nodes && s.db.exec.nodes[d].status.Failed?;
      DependencyDescends(Flow(sys), n);
      NothingEverStarted(sys, s, d);
    }
  }

  /** When no node without dependencies has an input, every triggered execution is stuck in every
      state, from its trigger on. */
  lemma AlwaysStuck(sys: System, s: State)
    requires ValidSystem(sys) && Reachable(sys, s) && !s.db.exec.status.Pending? && NothingStarts(sys, s.db.exec.input)
    ensures Stuck(sys, s.db.exec)
  {
    hide Reachable, NothingStarts, EvalInput, ReadyIds;
    NodesAreIds(sys, s);
    forall n | n in s.db.exec.nodes ensures s.db.exec.nodes[n].status.Pending? {
      NothingEverStarted(sys, s, n);
    }
    forall n | n in Ids(Flow(sys)) ensures EvalInput(sys, s.db.exec.input, n).None? {
      NothingHasInput(sys, s.db.exec.input, n);
    }
  }

  /** So it is, on every input, when all nodes without dependencies hold templates; such a state
      exists. */
  lemma StuckAtOnce(sys: System, input: map<string, Json>) returns (s: State)
    requires ValidSystem(sys)
    requires forall n :: n in Ids(Flow(sys)) && DepsOf(Flow(sys), n) == [] ==> TemplateAtRoot(Flow(sys), n)
    ensures NothingStarts(sys, input)
    ensures Reachable(sys, s) && s.db.exec.input == input && Stuck(sys, s.db.exec)
  {
    hide Path, Reachable, AllPast, NoRedelivery, EvalInput, TemplateAtRoot, Calm;
    var o, s1, steps := Triggered(sys, input);
    s := s1;
    PathIsReachable(sys, o, steps, s);
    forall n | n in Ids(Flow(sys)) && DepsOf(Flow(sys), n) == [] ensures EvalInput(sys, input, n).None? {
      TemplateAtRootHasNoInput(sys, input, n);
    }
    AlwaysStuck(sys, s);
  }

  // ---------- Driving a node to its end ----------

  /** The task of a running node has an attempt that can be claimed, and its message was sent. */
  ghost predicate Waiting(sys: System, s: State, n: string, m: TaskMessage) {
    && m in s.tasks && m.node == n && 1 <= m.number <= Limit(sys)
    && n in s.db.exec.nodes && s.db.exec.nodes[n].status.Running?
    && m.task in s.db.tables.tasks
    && s.db.tables.tasks[m.task].execution == m.execution && s.db.tables.tasks[m.task].node == n
    && m.attempt in s.db.tables.attempts
    && var a := s.db.tables.attempts[m.attempt];
    && a.task == m.task && a.number == m.number && a.failureEvent.None?
    && !a.status.Done? && !a.status.ResultRecorded? && !HeldAt(a, s.now)
  }

  /** The run does not deliver the trigger. */
  ghost predicate NoEvaluation(steps: seq<Step>) {
    forall i :: 0 <= i < |steps| ==> !steps[i].EvaluateStep?
  }

  lemma ClaimFresh(sys: System, o: State, steps: seq<Step>, s: State, n: string, m: TaskMessage) returns (s': State)
    requires ValidSystem(sys) && Path(sys, o, steps, s) && Waiting(sys, s, n, m)
    ensures Path(sys, o, steps + [ClaimStep("worker", m)], s')
    ensures s'.db.exec == s.db.exec && s'.db.tables.tasks == s.db.tables.tasks && Run("worker", m) in s'.running
    ensures m.attempt in s'.db.tables.attempts && s'.db.tables.attempts[m.attempt].status.Claimed?
    ensures s'.db.tables.attempts[m.attempt].failureEvent.None?
    ensures s'.db.tables.attempts[m.attempt].task == m.task && s'.db.tables.attempts[m.attempt].number == m.number
  {
    hide Path;
    PathStep(sys, o, steps, s, ClaimStep("worker", m));
    s' := After(sys, s, ClaimStep("worker", m));
  }

  /** The attempt is claimed and its failure reported. */
  lemma FailAttempt(sys: System, o: State, steps: seq<Step>, s: State, n: string, m: TaskMessage) returns (s': State, all: seq<Step>, f: Event)
    requires ValidSystem(sys) && Path(sys, o, steps, s) && Waiting(sys, s, n, m)
    ensures Path(sys, o, all, s') && s'.db.exec == s.db.exec
    ensures f in s'.completions && f.outcome.Errored? && f == EventOf(m, f.id, f.outcome)
    ensures m.attempt in s'.db.tables.attempts && s'.db.tables.attempts[m.attempt].failureEvent.None?
    ensures s'.db.tables.attempts[m.attempt].task == m.task && s'.db.tables.attempts[m.attempt].number == m.number
    ensures s'.db.tables.tasks == s.db.tables.tasks && (NoEvaluation(steps) ==> NoEvaluation(all))
  {
    hide Path;
    var s1 := ClaimFresh(sys, o, steps, s, n, m);
    all := steps + [ClaimStep("worker", m)];
    var id := FreshId(s1.used);
    var outcome := Errored(TaskError("", ""));
    f := EventOf(m, id, outcome);
    var record := RecordStep(Run("worker", m), outcome, id);
    PathStep(sys, o, all, s1, record);
    var s2 := After(sys, s1, record);
    all := all + [record];
    PathStep(sys, o, all, s2, PublishCompletionStep(f));
    s' := After(sys, s2, PublishCompletionStep(f));
    all := all + [PublishCompletionStep(f)];
  }

  // Below the limit the failure leads to a retry, whose message is sent when it is due.
  lemma NextAttempt(sys: System, o: State, steps: seq<Step>, s: State, n: string, m: TaskMessage, f: Event)
    returns (s': State, all: seq<Step>, m': TaskMessage)
    requires ValidSystem(sys) && Path(sys, o, steps, s) && 1 <= m.number < Limit(sys) && m.node == n
    requires f in s.completions && f.outcome.Errored? && f == EventOf(m, f.id, f.outcome)
    requires m.attempt in s.db.tables.attempts && s.db.tables.attempts[m.attempt].failureEvent.None?
    requires s.db.tables.attempts[m.attempt].task == m.task && s.db.tables.attempts[m.attempt].number == m.number
    requires m.task in s.db.tables.tasks && s.db.tables.tasks[m.task].execution == m.execution && s.db.tables.tasks[m.task].node == n
    requires n in s.db.exec.nodes && s.db.exec.nodes[n].status.Running?
    ensures Path(sys, o, all, s') && Waiting(sys, s', n, m') && m'.number == m.number + 1 && (NoEvaluation(steps) ==> NoEvaluation(all))
  {
    hide Path, Reachable, Inv, Process, DelayFor;
    PathIsReachable(sys, o, steps, s);
    ReachableInv(sys, s);
    CompletionSteps.DeliveredIsRecorded(sys, s, f);
    CompletionSteps.AttemptsAreUsed(sys, s);
    var next := FreshId(s.used);
    CompletionSteps.ProcessFailure(sys, s, f, next);
    PathStep(sys, o, steps, s, ProcessStep(f, next));
    var s1 := After(sys, s, ProcessStep(f, next));
    all := steps + [ProcessStep(f, next)];
    var due := s.now + DelayFor(sys.settings.policy, f.number);
    var time := if s.now < due then due else s.now;
    PathStep(sys, o, all, s1, TickStep(time));
    all := all + [TickStep(time)];
    var s2 := After(sys, s1, TickStep(time));
    s', all, m' := SendRetry(sys, o, all, s2, next);
  }

  lemma SendRetry(sys: System, o: State, steps: seq<Step>, s: State, a: Uuid)
    returns (s': State, all: seq<Step>, m: TaskMessage)
    requires Path(sys, o, steps, s) && DueRetry(s.db.tables, a, s.now)
    ensures Path(sys, o, all, s') && s' == s.(due := s'.due, tasks := s'.tasks) && m in s'.tasks && m == MessageFor(s.db.tables, a)
    ensures NoEvaluation(steps) ==> NoEvaluation(all)
  {
    hide Path;
    m := MessageFor(s.db.tables, a);
    assert m in GetDueRetries(s.db.tables, s.now);
    PathStep(sys, o, steps, s, ReadRetriesStep);
    var s1 := After(sys, s, ReadRetriesStep);
    all := steps + [ReadRetriesStep];
    PathStep(sys, o, all, s1, PublishRetryStep(m));
    s' := After(sys, s1, PublishRetryStep(m));
    all := all + [PublishRetryStep(m)];
  }

  // At the limit the failure ends the node and with it the execution.
  lemma LastAttempt(sys: System, o: State, steps: seq<Step>, s: State, n: string, m: TaskMessage, f: Event) returns (s': State, all: seq<Step>)
    requires ValidSystem(sys) && Path(sys, o, steps, s) && m.number == Limit(sys) && m.node == n
    requires f in s.completions && f.outcome.Errored? && f == EventOf(m, f.id, f.outcome)
    requires m.attempt in s.db.tables.attempts && s.db.tables.attempts[m.attempt].failureEvent.None?
    requires n in s.db.exec.nodes && s.db.exec.nodes[n].status.Running?
    ensures Path(sys, o, all, s') && Terminal(s'.db.exec.status) && (NoEvaluation(steps) ==> NoEvaluation(all))
  {
    hide Path, Reachable, Inv, Process, Conclude, AfterExhausted, ExecutionInv;
    PathIsReachable(sys, o, steps, s);
    ReachableInv(sys, s);
    CompletionSteps.DeliveredIsRecorded(sys, s, f);
    var next := FreshId(s.used);
    CompletionSteps.ProcessFailure(sys, s, f, next);
    var db := s.db.(tables := AfterExhausted(s.db.tables, f.task, f.attempt, f.id, f.outcome.error));
    ExecutionPart(sys, s);
    FailureEnds(Flow(sys), db, f);
    PathStep(sys, o, steps, s, ProcessStep(f, next));
    s', all := After(sys, s, ProcessStep(f, next)), steps + [ProcessStep(f, next)];
    PathIsReachable(sys, o, all, s');
    StatusTellsTheNodes(sys, s');
  }

  lemma FailureEnds(w: Workflow, db: Db, f: Event)
    requires UniqueIds(w) && KnownDependencies(w) && ExecutionInv(w, db.exec) && f.outcome.Errored?
    requires f.node in db.exec.nodes && db.exec.nodes[f.node].status.Running?
    ensures Conclude(w, db, f).Ok? && AnyFailed(Conclude(w, db, f).value.1.exec.nodes)
  {
    var x := db.exec;
    var settled := x.nodes[f.node := Settle(x.nodes[f.node], f.outcome)];
    FailStatuses(w, settled, f.node, f.node);
    hide FailDependants;
    var after := Propagate(w, x, f);
    CompletionSteps.FinalizeKeepsNodes(w, after, f.id);
    assert after.nodes[f.node].status.Failed?;
  }

  lemma {:induction false} FailAll(sys: System, o: State, steps: seq<Step>, s: State, n: string, m: TaskMessage) returns (s': State, all: seq<Step>)
    requires ValidSystem(sys) && Path(sys, o, steps, s) && Waiting(sys, s, n, m)
    ensures Path(sys, o, all, s') && Terminal(s'.db.exec.status) && (NoEvaluation(steps) ==> NoEvaluation(all))
    decreases Limit(sys) - m.number
  {
    hide Path;
    var s1, steps1, f := FailAttempt(sys, o, steps, s, n, m);
    if m.number < Limit(sys) {
      var s2, steps2, m2 := NextAttempt(sys, o, steps1, s1, n, m, f);
      s', all := FailAll(sys, o, steps2, s2, n, m2);
    } else {
      s', all := LastAttempt(sys, o, steps1, s1, n, m, f);
    }
  }
}
