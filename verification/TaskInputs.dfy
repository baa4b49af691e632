/** What every task carries. */
module TaskInputs {
  import opened Wrappers
  import opened JsonValues
  import opened Definitions
  import opened TaskTables
  import opened AttemptLedger
  import opened ExecutionTables
  import opened ExecutionInvariants
  import opened Protocol
  import opened Dataflow
  import opened ProtocolInvariants
  import DispatchSteps
  import CompletionSteps
  import opened StepEffects
  import opened Runs
  import opened Theorems
  import opened RetryWaits
  import opened ResolverProofs
  import opened ReferenceMeaning
  import InputResolver
  import T = TemplateSyntax

  // ---------- Tasks come after dependencies ----------

  /** Whatever has become of a node with a task, its dependencies have completed. */
  ghost predicate TasksAfterDependencies(w: Workflow, x: Execution, t: Tables) {
    forall k :: k in t.tasks ==> DependenciesCompleted(w, x.nodes, k.node)
  }

  lemma CompletedStays(w: Workflow, x: Execution, x': Execution, n: string)
    requires DependenciesCompleted(w, x.nodes, n) && ExecutionEffect(x, x')
    ensures DependenciesCompleted(w, x'.nodes, n)
  {
  }

  // Only dispatch adds a task.
  lemma StepTasks(sys: System, s: State, step: Step)
    requires ValidSystem(sys) && Inv(sys, s) && Enabled(sys, s, step) && !step.DispatchStep?
    ensures After(sys, s, step).db.tables.tasks.Keys == s.db.tables.tasks.Keys
  {
    hide Inv, ProcessResult, AfterProcess, Dispatch, Trigger, GetDueRetries, EventFromResult;
    if step.ProcessStep? {
      ProcessTasks(sys, s, step.event, step.next);
    }
  }

  lemma ProcessTasks(sys: System, s: State, e: Event, next: Uuid)
    requires ValidSystem(sys) && Inv(sys, s) && Enabled(sys, s, ProcessStep(e, next))
    ensures AfterProcess(sys, s, e, next).db.tables.tasks.Keys == s.db.tables.tasks.Keys
  {
    hide Inv, Conclude, Process;
    CompletionSteps.DeliveredIsRecorded(sys, s, e);
    if e.outcome.Succeeded? {
      CompletionSteps.ProcessSuccess(sys, s, e, next);
      if s.db.exec.nodes[e.node].status.Running? {
        ConcludeKeepsTables(sys, s.db, e);
      }
    } else {
      CompletionSteps.ProcessFailure(sys, s, e, next);
      if s.db.tables.attempts[e.attempt].failureEvent.None? && e.number >= Limit(sys) {
        ConcludeKeepsTables(sys, s.db.(tables := AfterExhausted(s.db.tables, e.task, e.attempt, e.id, e.outcome.error)), e);
      }
    }
  }

  lemma DispatchTasks(sys: System, s: State, load: Load, attempt: Uuid, k: TaskId)
    requires ValidSystem(sys) && Inv(sys, s) && Enabled(sys, s, DispatchStep(load, attempt))
    requires k in AfterDispatch(s, load, attempt).db.tables.tasks
    ensures k in s.db.tables.tasks || DependenciesCompleted(Flow(sys), s.db.exec.nodes, k.node)
  {
    hide Inv, Claim;
    DispatchSteps.DispatchNeverFails(sys, s, load);
    var n, x := load.node.id, s.db.exec;
    if n in x.nodes && x.nodes[n].status.Pending? {
      var input :| AfterDispatch(s, load, attempt).db == Claim(s.db, load.node, input, attempt);
      DispatchSteps.ClaimEffect(sys, s, load.node, input, attempt);
    }
  }

  lemma StepKeepsTasksAfter(sys: System, s: State, step: Step)
    requires ValidSystem(sys) && Inv(sys, s) && Enabled(sys, s, step) && TasksAfterDependencies(Flow(sys), s.db.exec, s.db.tables)
    ensures TasksAfterDependencies(Flow(sys), After(sys, s, step).db.exec, After(sys, s, step).db.tables)
  {
    hide Inv, AfterProcess, AfterDispatch, ProcessResult, Dispatch, DependenciesCompleted, ExecutionEffect, Grows, ClaimsKept, AfterClaim, AfterRenew, AfterRecord;
    StepEffect(sys, s, step);
    var s' := After(sys, s, step);
    if !step.DispatchStep? {
      StepTasks(sys, s, step);
    }
    forall k | k in s'.db.tables.tasks ensures DependenciesCompleted(Flow(sys), s'.db.exec.nodes, k.node) {
      if step.DispatchStep? {
        DispatchTasks(sys, s, step.load, step.attempt, k);
      }
      CompletedStays(Flow(sys), s.db.exec, s'.db.exec, k.node);
    }
  }

  lemma {:induction false} RunKeepsTasksAfter(sys: System, states: seq<State>, steps: seq<Step>, i: nat)
    requires ValidSystem(sys) && IsRun(sys, states, steps) && i < |states|
    ensures TasksAfterDependencies(Flow(sys), states[i].db.exec, states[i].db.tables)
    decreases i
  {
    hide Inv, Enabled, After, ValidSystem;
    if i > 0 {
      RunKeepsTasksAfter(sys, states, steps, i - 1);
      RunKeepsInv(sys, states, steps, i - 1);
      assert Next(sys, states[i - 1], steps[i - 1], states[i]);
      StepKeepsTasksAfter(sys, states[i - 1], steps[i - 1]);
    }
  }

  // ---------- Inputs ----------

  ghost function StoredOutputs(x: Execution, dependencies: seq<string>): map<string, Json> {
    map d | d in dependencies && d in x.nodes :: x.nodes[d].output
  }

  /** The input node gets the input of the execution, the output node the stored outputs of its
      dependencies by name, and any other node what its configuration stands for, given those outputs. */
  ghost predicate CarriesInput(w: Workflow, x: Execution, m: TaskMessage) {
    && m.node in Ids(w)
    && var node := NodeOf(w, m.node);
    && m.handler == node.handler && m.config == node.config
    && (forall d :: d in node.dependencies ==> d in x.nodes && x.nodes[d].status.Completed?)
    && (m.handler == "input" ==> m.input == x.input)
    && (m.handler == "output" ==>
          && (forall d :: d in m.input <==> d in node.dependencies)
          && (forall d :: d in node.dependencies ==> m.input[d] == x.nodes[d].output))
    && (m.handler != "input" && m.handler != "output" ==>
          && m.input.Keys == m.config.Keys
          && forall key :: key in m.config ==> ValueStandsFor(m.config[key], StoredOutputs(x, node.dependencies), m.input[key]))
  }

  lemma ResolvedCarries(node: Node, input: map<string, Json>, outputs: map<string, Json>, resolved: map<string, Json>)
    requires InputResolver.Resolve(node, input, outputs) == Some(resolved)
    ensures node.handler == "input" ==> resolved == input
    ensures node.handler == "output" ==> resolved == outputs
    ensures node.handler != "input" && node.handler != "output" ==>
              && resolved.Keys == node.config.Keys
              && forall key :: key in node.config ==> ValueStandsFor(node.config[key], outputs, resolved[key])
  {
    hide InputResolver.ResolveValue;
    if node.handler != "input" && node.handler != "output" {
      ResolutionMeans(Object(node.config), outputs, Object(resolved));
    }
  }

  lemma RowCarries(sys: System, s: State, m: TaskMessage)
    requires ValidSystem(sys) && Inv(sys, s) && TasksAfterDependencies(Flow(sys), s.db.exec, s.db.tables) && Describes(s.db.tables, m)
    ensures CarriesInput(Flow(sys), s.db.exec, m)
  {
    hide Inv, EvalInput, Eval, ValueStandsFor, InputResolver.Resolve;
    var t, x, w := s.db.tables, s.db.exec, Flow(sys);
    var k := t.attempts[m.attempt].task;
    TaskNames(sys, s, m);
    TaskHasValue(sys, s, k);
    assert DependenciesCompleted(w, x.nodes, k.node);
    DependenciesHaveValues(sys, s, k.node);
    ResolvedInputIsEvalInput(sys, x.input, x.nodes, k.node);
    var node := NodeOf(w, k.node);
    var outputs := StoredOutputs(x, node.dependencies);
    assert outputs == CompletedOutputs(x.nodes, node.dependencies);
    ResolvedCarries(node, x.input, outputs, m.input);
  }

  lemma TaskHasValue(sys: System, s: State, k: TaskId)
    requires ValidSystem(sys) && Inv(sys, s) && k in s.db.tables.tasks
    ensures TaskValue(sys, s.db.exec.input, k, s.db.tables.tasks[k])
  {
    hide ExecPart, ReadyPart, TaskPart, RetryPart, LeasePart, MessagePart, Ledger, EvalInput;
  }

  lemma DependenciesHaveValues(sys: System, s: State, n: string)
    requires ValidSystem(sys) && Inv(sys, s) && n in Ids(Flow(sys)) && DependenciesCompleted(Flow(sys), s.db.exec.nodes, n)
    ensures forall d :: d in DepsOf(Flow(sys), n) ==>
              d in Ids(Flow(sys)) && d in s.db.exec.nodes && s.db.exec.nodes[d].status.Completed?
              && Eval(sys, s.db.exec.input, d) == Some(s.db.exec.nodes[d].output)
  {
    hide ExecPart, ReadyPart, TaskPart, RetryPart, LeasePart, MessagePart, Ledger, Eval, TaskValues, EventValues;
    forall d | d in DepsOf(Flow(sys), n) ensures HasValue(sys, s.db.exec.input, d, s.db.exec.nodes[d].output) {
      assert s.db.exec.nodes[d].status.Completed?;
    }
  }

  lemma TaskNames(sys: System, s: State, m: TaskMessage)
    requires ValidSystem(sys) && Inv(sys, s) && Describes(s.db.tables, m)
    ensures m.node == s.db.tables.attempts[m.attempt].task.node
  {
    hide ExecPart, ReadyPart, TaskPart, RetryPart, LeasePart, ValuePart, MessagePart, Chained, RetryRows;
  }

  /** In every reachable state, every task message in the outbox, on the task stream, about to be sent
      again or being worked on carries the input its node is to have. */
  lemma TaskCarriesInput(sys: System, s: State, m: TaskMessage)
    requires ValidSystem(sys) && Reachable(sys, s)
    requires m in s.tasks || m in s.due || m in s.replaying
             || (exists i :: 0 <= i < |s.db.exec.outbox| && s.db.exec.outbox[i].body == TaskQueued(m))
             || (exists r :: r in s.running && r.message == m)
    ensures CarriesInput(Flow(sys), s.db.exec, m)
  {
    hide IsRun, TasksAfterDependencies, CarriesInput;
    var states, steps, i :| IsRun(sys, states, steps) && 0 <= i < |states| && states[i] == s;
    RunKeepsInv(sys, states, steps, i);
    RunKeepsTasksAfter(sys, states, steps, i);
    MessageDescribes(sys, s, m);
    hide Inv;
    RowCarries(sys, s, m);
  }

  lemma MessageDescribes(sys: System, s: State, m: TaskMessage)
    requires ValidSystem(sys) && Inv(sys, s)
    requires m in s.tasks || m in s.due || m in s.replaying
             || (exists i :: 0 <= i < |s.db.exec.outbox| && s.db.exec.outbox[i].body == TaskQueued(m))
             || (exists r :: r in s.running && r.message == m)
    ensures Describes(s.db.tables, m)
  {
    hide ExecPart, ReadyPart, TaskPart, Ledger, RetryPart, LeasePart, ValuePart, Describes;
  }

  // ---------- Single entries ----------

  lemma {:induction false} TemplateFreeStandsForItself(c: Json, outputs: map<string, Json>, v: Json)
    requires TemplateFree(c) && ValueStandsFor(c, outputs, v)
    ensures v == c
  {
    hide T.HasDelimiter;
    match c
    case Text(text) => assert Inside(c, text);
    case List(items) =>
      forall i | 0 <= i < |items| ensures v.items[i] == items[i] {
        assert forall text :: Inside(items[i], text) ==> Inside(c, text);
        TemplateFreeStandsForItself(items[i], outputs, v.items[i]);
      }
      assert v.items == items;
    case Object(fields) =>
      forall k | k in fields ensures v.fields[k] == fields[k] {
        assert forall text :: Inside(fields[k], text) ==> Inside(c, text);
        TemplateFreeStandsForItself(fields[k], outputs, v.fields[k]);
      }
      assert v.fields == fields;
    case _ =>
  }

  /** So an entry without templates is carried as it is, and one that is a single reference is carried
      as the part of the stored output of the dependency it names. */
  lemma EntriesAreCarried(sys: System, s: State, m: TaskMessage, key: string)
    requires CarriesInput(Flow(sys), s.db.exec, m) && m.handler != "input" && m.handler != "output" && key in m.config
    ensures key in m.input
    ensures TemplateFree(m.config[key]) ==> m.input[key] == m.config[key]
    ensures forall e :: m.config[key] == Text("{{" + e + "}}") && T.ReferenceOf(e).Some? ==>
              && var r := T.ReferenceOf(e).value;
              && r.node in NodeOf(Flow(sys), m.node).dependencies && r.node in s.db.exec.nodes
              && At(s.db.exec.nodes[r.node].output, r.path, m.input[key])
  {
    hide TemplateFree, At, T.ReferenceOf, T.Parse;
    var outputs := StoredOutputs(s.db.exec, NodeOf(Flow(sys), m.node).dependencies);
    if TemplateFree(m.config[key]) {
      TemplateFreeStandsForItself(m.config[key], outputs, m.input[key]);
    }
    forall e | m.config[key] == Text("{{" + e + "}}") && T.ReferenceOf(e).Some?
      ensures T.Parse("{{" + e + "}}") == Some(T.Whole(T.ReferenceOf(e).value))
    {
      WholeExpression(e);
    }
  }
}
