/** Triggering an execution and dispatching its nodes. */
module DispatchSteps {
  import opened Wrappers
  import opened JsonValues
  import opened Definitions
  import opened TaskTables
  import opened AttemptLedger
  import opened ExecutionTables
  import opened ExecutionInvariants
  import opened Protocol
  import opened Dataflow
  import opened ProtocolInvariants
  import opened WorkerSteps
  import InputResolver

  // ---------- Trigger ----------

  lemma TaskHasStarted(sys: System, x: Execution, t: Tables, k: TaskId)
    requires TaskPart(sys, x, t) && k in t.tasks
    ensures k.node in x.nodes && !x.nodes[k.node].status.Pending?
  {
    assert TaskOk(sys, x, t, k.node);
  }

  lemma NoTaskBeforeTrigger(sys: System, x: Execution, t: Tables)
    requires TaskPart(sys, x, t) && forall n :: n in x.nodes ==> x.nodes[n].status.Pending?
    ensures t.tasks == map[]
  {
    forall k | k in t.tasks ensures false {
      TaskHasStarted(sys, x, t, k);
    }
  }

  /** Before the trigger there is nothing but pending nodes. */
  lemma NothingBeforeTrigger(sys: System, s: State)
    requires ValidSystem(sys) && Inv(sys, s) && s.db.exec.status.Pending?
    ensures s.db.tables.tasks == map[] && s.db.tables.attempts == map[] && s.recorded == {}
    ensures forall n :: n in s.db.exec.nodes ==> s.db.exec.nodes[n].status.Pending?
  {
    hide Chained, RetryRows, ValuePart, RetryPart, LeasePart, TaskPart;
    forall a | a in s.db.tables.attempts ensures s.db.tables.attempts[a].task in s.db.tables.tasks {
      assert RowOk(s.db.tables, s.recorded, a);
    }
    forall e | e in s.recorded ensures e.attempt in s.db.tables.attempts {
      assert EventOk(s.db.tables, e);
    }
    NoTaskBeforeTrigger(sys, s.db.exec, s.db.tables);
  }

  lemma TriggerStepKeepsInv(sys: System, s: State, input: Option<map<string, Json>>, mid: Uuid)
    requires ValidSystem(sys) && Inv(sys, s) && Trigger(s.db.exec, input, mid).Ok?
    ensures Inv(sys, AfterTrigger(s, input, mid))
  {
    hide Ledger, LeasePart, RetryPart, Describes, ExecutionInv, AllDescribe, RunsDescribe;
    NothingBeforeTrigger(sys, s);
    TriggerKeepsInv(Flow(sys), s.db.exec, input, mid);
    var s' := AfterTrigger(s, input, mid);
    forall n | n in Ids(Flow(sys)) ensures TaskOk(sys, s'.db.exec, s'.db.tables, n) {
      assert TaskOk(sys, s.db.exec, s.db.tables, n);
    }
  }

  // ---------- Dispatch ----------

  /** Dispatch never finds a failed dependency, although the ready list it acts on is old. */
  lemma DispatchNeverFails(sys: System, s: State, load: Load)
    requires ValidSystem(sys) && Inv(sys, s) && load in s.loaded
    ensures !HasFailedDependency(s.db.exec.nodes, load.node)
    ensures load.node.id in Ids(Flow(sys)) && load.node == NodeOf(Flow(sys), load.node.id)
    ensures DependenciesCompleted(Flow(sys), s.db.exec.nodes, load.node.id)
    ensures load.input == s.db.exec.input && !s.db.exec.status.Pending?
  {
    hide TaskPart, Ledger, ValuePart, RetryPart, LeasePart, ExecPart;
    assert LoadOk(sys, s.db.exec, load);
    FailedBranchIsDead(Flow(sys), s.db.exec.nodes, load.node.id);
  }

  // The input that dispatch resolves is the one of the recursive evaluation.
  lemma DispatchResolves(sys: System, s: State, load: Load)
    requires ValidSystem(sys) && Inv(sys, s) && load in s.loaded
    ensures load.node.id in Ids(Flow(sys))
    ensures EvalInput(sys, s.db.exec.input, load.node.id)
            == InputResolver.Resolve(load.node, load.input, CompletedOutputs(s.db.exec.nodes, load.node.dependencies))
  {
    hide TaskPart, Ledger, RetryPart, LeasePart, ExecPart, TaskValues, EventValues, Eval, EvalInput;
    DispatchNeverFails(sys, s, load);
    forall d | d in DepsOf(Flow(sys), load.node.id)
      ensures HasValue(sys, s.db.exec.input, d, s.db.exec.nodes[d].output)
    {
      assert s.db.exec.nodes[d].status.Completed?;
    }
    ResolvedInputIsEvalInput(sys, s.db.exec.input, s.db.exec.nodes, load.node.id);
  }

  /** The effect of a claim on the rows, for a node that has no task yet. */
  ghost predicate NodeClaimed(x: Execution, x': Execution, t: Tables, t': Tables, node: Node, input: map<string, Json>, attempt: Uuid)
  {
    && node.id in x.nodes
    && var task := TaskOf(x, node.id);
    && var row := TaskRow(x.id, node.id, node.handler, node.config, input, TaskRunning, None);
    && var message := TaskMessage(task, attempt, 1, x.id, node.id, node.handler, node.config, input);
    && x' == x.(nodes := x.nodes[node.id := x.nodes[node.id].(status := Running)],
                outbox := x.outbox + [OutboxMessage(TaskMessageId(task), TaskQueued(message))])
    && t' == t.(tasks := t.tasks[task := row], attempts := t.attempts[attempt := NewAttempt(task, 1, Started)])
  }

  lemma ClaimEffect(sys: System, s: State, node: Node, input: map<string, Json>, attempt: Uuid)
    requires ValidSystem(sys) && Inv(sys, s) && attempt !in s.used
    requires node.id in Ids(Flow(sys)) && node.id in s.db.exec.nodes && s.db.exec.nodes[node.id].status.Pending?
    ensures var db' := Claim(s.db, node, input, attempt);
            NodeClaimed(s.db.exec, db'.exec, s.db.tables, db'.tables, node, input, attempt)
            && Ledger(db'.tables, s.recorded, Limit(sys))
    ensures TaskOf(s.db.exec, node.id) !in s.db.tables.tasks && attempt !in s.db.tables.attempts
  {
    hide Ledger, ValuePart, RetryPart, LeasePart, ExecPart, ReadyPart;
    assert TaskOk(sys, s.db.exec, s.db.tables, node.id);
    var task := TaskOf(s.db.exec, node.id);
    var row := TaskRow(s.db.exec.id, node.id, node.handler, node.config, input, TaskRunning, None);
    RegisterKeepsLedger(s.db.tables, s.recorded, Limit(sys), task, row, attempt);
  }

  lemma ClaimedGrows(x: Execution, x': Execution, t: Tables, t': Tables, node: Node, input: map<string, Json>, attempt: Uuid)
    requires NodeClaimed(x, x', t, t', node, input, attempt)
    requires TaskOf(x, node.id) !in t.tasks && attempt !in t.attempts
    ensures Grows(t, t')
    ensures Describes(t', x'.outbox[|x.outbox|].body.message)
  {
  }

  lemma ClaimedKeepsTaskPart(sys: System, x: Execution, x': Execution, t: Tables, t': Tables, node: Node, input: map<string, Json>, attempt: Uuid)
    requires NodeClaimed(x, x', t, t', node, input, attempt) && Grows(t, t') && TaskPart(sys, x, t)
    requires x.nodes[node.id].status.Pending?
    ensures TaskPart(sys, x', t')
  {
    forall n | n in Ids(Flow(sys)) ensures TaskOk(sys, x', t', n) {
      assert TaskOk(sys, x, t, n);
      if n != node.id && x.nodes[n].status.Failed? {
        if TaskOf(x, n) in t.tasks {
          GrowsKeepsSpent(t, t', TaskOf(x, n), Limit(sys));
        } else {
          var d :| d in DepsOf(Flow(sys), n) && d in x.nodes && x.nodes[d].status.Failed?;
          assert x'.nodes[d].status.Failed?;
        }
      }
    }
  }

  lemma ClaimedKeepsReady(sys: System, x: Execution, x': Execution, triggered: bool, ready: set<string>, loaded: set<Load>)
    requires ReadyPart(sys, x, triggered, ready, loaded) && NodeMoves(x.nodes, x'.nodes)
    requires !x'.status.Pending? && x'.input == x.input
    ensures ReadyPart(sys, x', triggered, ready, loaded)
  {
    forall n | n in ready ensures DependenciesCompleted(Flow(sys), x'.nodes, n) {
      CompletedDependenciesKept(Flow(sys), x.nodes, x'.nodes, n);
    }
    forall l | l in loaded ensures LoadOk(sys, x', l) {
      assert LoadOk(sys, x, l);
      CompletedDependenciesKept(Flow(sys), x.nodes, x'.nodes, l.node.id);
    }
  }

  lemma ClaimedKeepsValues(sys: System, x: Execution, x': Execution, t: Tables, t': Tables, rec: set<Event>, node: Node, input: map<string, Json>, attempt: Uuid)
    requires ValidSystem(sys) && NodeClaimed(x, x', t, t', node, input, attempt) && ValuePart(sys, x, t, rec)
    requires node.id in Ids(Flow(sys)) && node == NodeOf(Flow(sys), node.id)
    requires EvalInput(sys, x.input, node.id) == Some(input)
    ensures ValuePart(sys, x', t', rec)
  {
    hide Eval, EvalInput;
    forall k | k in t'.tasks ensures TaskValue(sys, x.input, k, t'.tasks[k]) {
      if k in t.tasks && k != TaskOf(x, node.id) {
        assert TaskValue(sys, x.input, k, t.tasks[k]);
      }
    }
  }

  lemma ClaimedKeepsRetriesAndLeases(sys: System, s: State, x': Execution, t': Tables, node: Node, input: map<string, Json>, attempt: Uuid)
    requires ValidSystem(sys) && NodeClaimed(s.db.exec, x', s.db.tables, t', node, input, attempt)
    requires Grows(s.db.tables, t') && attempt !in s.db.tables.attempts
    requires RetryPart(s.db.tables, s.tasks) && Coherent(s.db.tables, s.recorded)
    requires LeasePart(sys, s.db.tables, s.now, s.leases)
    ensures RetryPart(t', s.tasks) && LeasePart(sys, t', s.now, s.leases)
  {
    var t := s.db.tables;
    forall a | a in t'.attempts && t'.attempts[a].number > 1 && !t'.attempts[a].status.Scheduled?
      ensures MessageFor(t', a) in s.tasks
    {
      assert RowOk(t, s.recorded, a);
      assert MessageFor(t, a) in s.tasks;
    }
    forall l | l in s.leases ensures LeaseOk(t', s.now, l, s.leases[l]) {
      assert LeaseOk(t, s.now, l, s.leases[l]);
    }
    forall a | a in t'.attempts ensures ClaimBounded(sys, s.now, t'.attempts[a]) {
      if a != attempt {
        assert ClaimBounded(sys, s.now, t.attempts[a]);
      }
    }
  }

  lemma ClaimStepKeepsInv(sys: System, s: State, node: Node, input: map<string, Json>, attempt: Uuid)
    requires ValidSystem(sys) && Inv(sys, s) && attempt !in s.used && !s.db.exec.status.Pending?
    requires node.id in Ids(Flow(sys)) && node == NodeOf(Flow(sys), node.id)
    requires DependenciesCompleted(Flow(sys), s.db.exec.nodes, node.id)
    requires node.id in s.db.exec.nodes && s.db.exec.nodes[node.id].status.Pending?
    requires EvalInput(sys, s.db.exec.input, node.id) == Some(input)
    ensures Inv(sys, s.(db := Claim(s.db, node, input, attempt), used := s.used + {attempt}))
  {
    hide Claim, ReadyPart, TaskPart, Chained, RetryRows, ValuePart, RetryPart, LeasePart, Grows, AllDescribe, RunsDescribe,
         Eval, EvalInput, Coherent, DependenciesCompleted, Describes, StartedAfterDependencies, FailurePropagated, StatusAgrees,
         NodeMoves, CompletedKept;
    var db' := Claim(s.db, node, input, attempt);
    var x, x', t, t' := s.db.exec, db'.exec, s.db.tables, db'.tables;
    ClaimEffect(sys, s, node, input, attempt);
    ClaimedGrows(x, x', t, t', node, input, attempt);
    ClaimKeepsExecution(Flow(sys), x, x', node.id);
    ClaimedKeepsReady(sys, x, x', s.triggered, s.ready, s.loaded);
    ClaimedKeepsTaskPart(sys, x, x', t, t', node, input, attempt);
    ClaimedKeepsValues(sys, x, x', t, t', s.recorded, node, input, attempt);
    ClaimedKeepsRetriesAndLeases(sys, s, x', t', node, input, attempt);
    GrowsKeepsMessages(t, t', s.tasks);
    GrowsKeepsMessages(t, t', s.due);
    GrowsKeepsMessages(t, t', s.replaying);
    GrowsKeepsRuns(t, t', s.running);
    GrowsKeepsOutbox(t, t', x.outbox);
  }

  lemma DispatchStepKeepsInv(sys: System, s: State, load: Load, attempt: Uuid)
    requires ValidSystem(sys) && Inv(sys, s) && load in s.loaded && attempt !in s.used
    requires Dispatch(s.db, load.node, load.input, attempt).Ok?
    ensures Inv(sys, AfterDispatch(s, load, attempt))
  {
    hide Claim, ReadyPart, Ledger, ValuePart, RetryPart, LeasePart, AllDescribe, RunsDescribe, Eval, EvalInput,
         DependenciesCompleted, ExecutionInv, OutboxDescribes;
    DispatchNeverFails(sys, s, load);
    DispatchResolves(sys, s, load);
    var n := load.node.id;
    if s.db.exec.nodes[n].status.Pending? {
      ClaimStepKeepsInv(sys, s, load.node, EvalInput(sys, s.db.exec.input, n).value, attempt);
    }
  }
}
