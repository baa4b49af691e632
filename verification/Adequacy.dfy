/** The protocol is able to compute what the evaluation defines: some run completes the execution
    exactly when every node has a value. */
module Adequacy {
  import opened Wrappers
  import opened JsonValues
  import opened Definitions
  import opened Traversal
  import opened TaskTables
  import opened AttemptLedger
  import opened ExecutionTables
  import opened ExecutionInvariants
  import opened Protocol
  import opened Dataflow
  import opened ProtocolInvariants
  import DispatchSteps
  import CompletionSteps
  import opened Theorems

  lemma {:induction false} FreshId(used: set<Uuid>) returns (id: Uuid)
    ensures id !in used && forall u :: u in used ==> u < id
  {
    if used == {} {
      id := 0;
    } else {
      var u :| u in used;
      id := FreshId(used - {u});
      assert forall v :: v in used ==> v == u || v in used - {u};
      if id <= u {
        id := u + 1;
      }
    }
  }

  // ---------- Runs step by step ----------

  /** States joined by steps, from anywhere. */
  ghost predicate Joined(sys: System, states: seq<State>, steps: seq<Step>) {
    && |states| == |steps| + 1
    && forall i, j :: 0 <= i < |steps| && 0 <= j < |states| && j == i + 1 ==> Next(sys, states[i], steps[i], states[j])
  }

  /** The steps lead from one reachable state to another. */
  ghost predicate Path(sys: System, o: State, steps: seq<Step>, s: State) {
    Reachable(sys, o) && exists states :: Joined(sys, states, steps) && states[0] == o && states[|steps|] == s
  }

  lemma PathIsReachable(sys: System, o: State, steps: seq<Step>, s: State)
    requires Path(sys, o, steps, s)
    ensures Reachable(sys, s)
  {
    hide Init, Next;
    var states :| Joined(sys, states, steps) && states[0] == o && states[|steps|] == s;
    var before, first, i :| IsRun(sys, before, first) && 0 <= i < |before| && before[i] == o;
    var all, allSteps := before[..i] + states, first[..i] + steps;
    forall k, l | 0 <= k < |allSteps| && 0 <= l < |all| && l == k + 1 ensures Next(sys, all[k], allSteps[k], all[l]) {
      if k < i {
        assert Next(sys, before[k], first[k], before[l]);
        assert all[l] == before[l];
      } else {
        assert Next(sys, states[k - i], steps[k - i], states[l - i]);
      }
    }
    assert IsRun(sys, all, allSteps) && all[i + |steps|] == s;
  }

  /** A run can be continued by any enabled step. */
  lemma PathStep(sys: System, o: State, steps: seq<Step>, s: State, step: Step)
    requires Path(sys, o, steps, s) && Enabled(sys, s, step)
    ensures Path(sys, o, steps + [step], After(sys, s, step))
  {
    hide Enabled, After, Reachable;
    var states :| Joined(sys, states, steps) && states[0] == o && states[|steps|] == s;
    var states', steps' := states + [After(sys, s, step)], steps + [step];
    forall k, l | 0 <= k < |steps'| && 0 <= l < |states'| && l == k + 1 ensures Next(sys, states'[k], steps'[k], states'[l]) {
      if k < |steps| {
        assert Next(sys, states[k], steps[k], states[l]);
      }
    }
    assert Joined(sys, states', steps') && states'[0] == o && states'[|steps'|] == After(sys, s, step);
  }

  lemma PathStart(sys: System, o: State)
    requires Reachable(sys, o)
    ensures Path(sys, o, [], o)
  {
    assert Joined(sys, [o], []) && [o][0] == o;
  }

  lemma InitIsReachable(sys: System, s: State)
    requires Init(sys, s)
    ensures Reachable(sys, s)
  {
    assert IsRun(sys, [s], []) && [s][0] == s;
  }

  // ---------- Starting a node ----------

  lemma LoadNode(sys: System, o: State, steps: seq<Step>, s: State, n: string) returns (s': State)
    requires Path(sys, o, steps, s) && n in s.ready && n in Ids(Flow(sys))
    ensures s' == s.(loaded := s'.loaded) && Load(NodeOf(Flow(sys), n), s.db.exec.input) in s'.loaded
    ensures Path(sys, o, steps + [LoadStep(n)], s')
  {
    hide Path;
    PathStep(sys, o, steps, s, LoadStep(n));
    s' := After(sys, s, LoadStep(n));
  }

  lemma StartNode(sys: System, o: State, steps: seq<Step>, s: State, n: string, input: map<string, Json>) returns (s': State, step: Step, attempt: Uuid)
    requires ValidSystem(sys) && Path(sys, o, steps, s)
    requires n in Ids(Flow(sys)) && n in s.db.exec.nodes && s.db.exec.nodes[n].status.Pending?
    requires Load(NodeOf(Flow(sys), n), s.db.exec.input) in s.loaded
    requires EvalInput(sys, s.db.exec.input, n) == Some(input)
    ensures step.DispatchStep? && step.load.node.id == n && attempt !in s.used && Path(sys, o, steps + [step], s')
    ensures s' == s.(db := s'.db, used := s.used + {attempt})
    ensures DispatchSteps.NodeClaimed(s.db.exec, s'.db.exec, s.db.tables, s'.db.tables, NodeOf(Flow(sys), n), input, attempt)
  {
    hide Path, Inv, EvalInput, Claim, DispatchSteps.NodeClaimed, Reachable;
    PathIsReachable(sys, o, steps, s);
    ReachableInv(sys, s);
    attempt := FreshId(s.used);
    var load := Load(NodeOf(Flow(sys), n), s.db.exec.input);
    DispatchSteps.DispatchNeverFails(sys, s, load);
    DispatchSteps.DispatchResolves(sys, s, load);
    DispatchSteps.ClaimEffect(sys, s, load.node, input, attempt);
    assert Dispatch(s.db, load.node, load.input, attempt) == Ok((Dispatched, Claim(s.db, load.node, input, attempt)));
    step := DispatchStep(load, attempt);
    PathStep(sys, o, steps, s, step);
    s' := After(sys, s, step);
  }

  /** What a started node looks like: running, with a task, an unclaimed attempt and its message. */
  ghost predicate HasStarted(s: State, n: string, m: TaskMessage) {
    && m in s.tasks && m.node == n && m.number == 1 && m.task == CreateTaskId(m.execution, n)
    && n in s.db.exec.nodes && s.db.exec.nodes[n].status.Running?
    && m.task in s.db.tables.tasks
    && s.db.tables.tasks[m.task].execution == m.execution && s.db.tables.tasks[m.task].node == n
    && m.attempt in s.db.tables.attempts && s.db.tables.attempts[m.attempt] == NewAttempt(m.task, 1, AttemptStatus.Started)
  }

  lemma SendTask(sys: System, o: State, steps: seq<Step>, s: State, s0: State, n: string, input: map<string, Json>, attempt: Uuid)
    returns (s': State, m: TaskMessage)
    requires Path(sys, o, steps, s) && n in Ids(Flow(sys))
    requires DispatchSteps.NodeClaimed(s0.db.exec, s.db.exec, s0.db.tables, s.db.tables, NodeOf(Flow(sys), n), input, attempt)
    ensures s' == s.(tasks := s'.tasks) && HasStarted(s', n, m) && m.attempt == attempt
    ensures Path(sys, o, steps + [PublishOutboxStep(|s0.db.exec.outbox|)], s')
  {
    hide Path;
    var row := |s0.db.exec.outbox|;
    assert row == |s.db.exec.outbox| - 1;
    m := s.db.exec.outbox[row].body.message;
    PathStep(sys, o, steps, s, PublishOutboxStep(row));
    s' := After(sys, s, PublishOutboxStep(row));
  }

  // ---------- Running it ----------

  lemma ClaimTask(sys: System, o: State, steps: seq<Step>, s: State, n: string, m: TaskMessage, worker: Worker) returns (s': State)
    requires ValidSystem(sys) && Path(sys, o, steps, s) && HasStarted(s, n, m)
    ensures Path(sys, o, steps + [ClaimStep(worker, m)], s')
    ensures s' == s.(db := s.db.(tables := s'.db.tables), running := s'.running, leases := s'.leases) && Run(worker, m) in s'.running
    ensures s'.db.tables == s.db.tables.(attempts := s.db.tables.attempts[m.attempt :=
              NewAttempt(m.task, 1, Claimed).(claimedBy := Some(worker), claimExpiresAt := Some(s.now + sys.lease(worker)))])
  {
    hide Path;
    PathStep(sys, o, steps, s, ClaimStep(worker, m));
    s' := After(sys, s, ClaimStep(worker, m));
  }

  lemma ReportSuccess(sys: System, o: State, steps: seq<Step>, s: State, m: TaskMessage, worker: Worker)
    returns (s': State, e: Event, step: Step)
    requires ValidSystem(sys) && Path(sys, o, steps, s) && Run(worker, m) in s.running
    requires m.attempt in s.db.tables.attempts && s.db.tables.attempts[m.attempt].status.Claimed?
    ensures step.RecordStep? && step.id == e.id && e.id !in s.used && Path(sys, o, steps + [step] + [PublishCompletionStep(e)], s')
    ensures s'.db.exec == s.db.exec && s'.ready == s.ready && s'.used == s.used + {e.id} && s'.triggered == s.triggered
    ensures e in s'.completions && e.node == m.node && e.outcome.Succeeded?
  {
    hide Path;
    var id := FreshId(s.used);
    var outcome := Succeeded(sys.handler(m.handler, m.config, m.input));
    e := EventOf(m, id, outcome);
    step := RecordStep(Run(worker, m), outcome, id);
    PathStep(sys, o, steps, s, step);
    var s1 := After(sys, s, step);
    PathStep(sys, o, steps + [step], s1, PublishCompletionStep(e));
    s' := After(sys, s1, PublishCompletionStep(e));
  }

  // ---------- Settling it ----------

  lemma SettleNode(sys: System, o: State, steps: seq<Step>, s: State, e: Event) returns (s': State, next: Uuid)
    requires ValidSystem(sys) && Path(sys, o, steps, s) && e in s.completions && e.outcome.Succeeded?
    requires e.node in s.db.exec.nodes && s.db.exec.nodes[e.node].status.Running?
    ensures next !in s.used && s'.used == s.used + {next} && Path(sys, o, steps + [ProcessStep(e, next)], s')
    ensures s'.db.exec.input == s.db.exec.input && s'.triggered == s.triggered && |s'.db.exec.outbox| >= |s.db.exec.outbox|
    ensures s'.db.tables == s.db.tables && s'.recorded == s.recorded && s'.unpublished == s.unpublished
    ensures s'.db.exec.nodes == s.db.exec.nodes[e.node := Settle(s.db.exec.nodes[e.node], e.outcome)]
    ensures forall n :: n in ReadyIds(Flow(sys), NodeStatuses(s'.db.exec.nodes)) ==> n in s'.ready
  {
    hide Path, Inv, Process, ReadyIds, Reachable;
    PathIsReachable(sys, o, steps, s);
    ReachableInv(sys, s);
    CompletionSteps.DeliveredIsRecorded(sys, s, e);
    next := FreshId(s.used);
    CompletionSteps.ProcessSuccess(sys, s, e, next);
    PathStep(sys, o, steps, s, ProcessStep(e, next));
    s' := After(sys, s, ProcessStep(e, next));
  }

  // ---------- A whole execution ----------

  /** No node is running or failed, and every ready node is on a ready list. */
  ghost predicate Calm(sys: System, s: State) {
    && (forall n :: n in s.db.exec.nodes ==> s.db.exec.nodes[n].status.Pending? || s.db.exec.nodes[n].status.Completed?)
    && (forall n :: n in ReadyIds(Flow(sys), NodeStatuses(s.db.exec.nodes)) ==> n in s.ready)
  }

  /** What a step of the run so far has used up, so that it will not be taken again. The run has no
      steps of other kinds: nothing is renewed, retried, replayed or marked. */
  ghost predicate Past(s: State, step: Step) {
    match step
    case TriggerStep(_, _) => true
    case EvaluateStep => true
    case PublishOutboxStep(row) => row < |s.db.exec.outbox|
    case LoadStep(n) => n in s.db.exec.nodes && s.db.exec.nodes[n].status.Completed?
    case DispatchStep(load, _) => load.node.id in s.db.exec.nodes && s.db.exec.nodes[load.node.id].status.Completed?
    case ClaimStep(_, m) => m.attempt in s.used
    case RecordStep(_, _, id) => id in s.used
    case PublishCompletionStep(e) => e.id in s.used
    case ProcessStep(e, _) => e.id in s.used
    case _ => false
  }

  ghost predicate AllPast(s: State, steps: seq<Step>) {
    forall i :: 0 <= i < |steps| ==> Past(s, steps[i])
  }

  /** The same message, event or ready node is taken up again. */
  ghost predicate SameDelivery(a: Step, b: Step) {
    || a == b
    || (a.ClaimStep? && b.ClaimStep? && a.message == b.message)
    || (a.ProcessStep? && b.ProcessStep? && a.event == b.event)
    || (a.DispatchStep? && b.DispatchStep? && a.load == b.load)
  }

  ghost predicate NoRedelivery(steps: seq<Step>) {
    forall i, j :: 0 <= i < j < |steps| ==> !SameDelivery(steps[i], steps[j])
  }

  lemma NewSteps(s: State, s': State, steps: seq<Step>, more: seq<Step>)
    requires NoRedelivery(steps) && AllPast(s, steps) && NoRedelivery(more) && AllPast(s', more)
    requires forall i :: 0 <= i < |more| ==> !Past(s, more[i])
    requires s.used <= s'.used && |s.db.exec.outbox| <= |s'.db.exec.outbox|
    requires forall n :: n in s.db.exec.nodes && s.db.exec.nodes[n].status.Completed? ==>
               n in s'.db.exec.nodes && s'.db.exec.nodes[n].status.Completed?
    ensures NoRedelivery(steps + more) && AllPast(s', steps + more)
  {
    forall i | 0 <= i < |steps| ensures Past(s', steps[i]) {
      assert Past(s, steps[i]);
    }
    forall i, j | 0 <= i < |steps| && 0 <= j < |more| ensures !SameDelivery(steps[i], more[j]) {
      assert Past(s, steps[i]) && !Past(s, more[j]);
    }
  }

  // The claim and the settling together complete one row.
  lemma RowCompleted(x: Execution, y: Execution, n: string, t: Tables, t': Tables, node: Node, input: map<string, Json>, attempt: Uuid, o: Outcome)
    requires DispatchSteps.NodeClaimed(x, y, t, t', node, input, attempt) && node.id == n && o.Succeeded?
    ensures n in x.nodes && n in y.nodes && y.input == x.input && y.nodes[n].status.Running? && |y.outbox| == |x.outbox| + 1
    ensures y.nodes[n := Settle(y.nodes[n], o)] == x.nodes[n := Settle(x.nodes[n], o)]
  {
  }

  lemma RunNode(sys: System, o: State, steps: seq<Step>, s: State, n: string, m: TaskMessage) returns (s': State, e: Event, run: seq<Step>)
    requires ValidSystem(sys) && Path(sys, o, steps, s) && HasStarted(s, n, m)
    ensures Path(sys, o, steps + run, s') && |run| == 4 && run[0] == ClaimStep("worker", m)
    ensures run[1].RecordStep? && run[1].id == e.id && run[2] == PublishCompletionStep(e) && run[3].ProcessStep? && run[3].event == e
    ensures e.outcome.Succeeded? && e.id !in s.used && s.used + {e.id} <= s'.used
    ensures n in s.db.exec.nodes && s'.db.exec.nodes == s.db.exec.nodes[n := Settle(s.db.exec.nodes[n], e.outcome)]
    ensures s'.db.exec.input == s.db.exec.input && |s'.db.exec.outbox| >= |s.db.exec.outbox|
    ensures forall k :: k in ReadyIds(Flow(sys), NodeStatuses(s'.db.exec.nodes)) ==> k in s'.ready
  {
    hide Path, ReadyIds, ValidSystem;
    var s1 := ClaimTask(sys, o, steps, s, n, m, "worker");
    var steps1 := steps + [ClaimStep("worker", m)];
    var s2, f, record := ReportSuccess(sys, o, steps1, s1, m, "worker");
    e := f;
    var steps2 := steps1 + [record] + [PublishCompletionStep(e)];
    var next;
    s', next := SettleNode(sys, o, steps2, s2, e);
    run := [ClaimStep("worker", m), record, PublishCompletionStep(e), ProcessStep(e, next)];
    assert steps2 + [ProcessStep(e, next)] == steps + run;
  }

  /** A ready node with a value can be dispatched, run and completed, with no other row changed and
      without taking a step again. */
  lemma CompleteNode(sys: System, o: State, steps: seq<Step>, s: State, n: string) returns (s': State, more: seq<Step>, output: Json)
    requires ValidSystem(sys) && Path(sys, o, steps, s) && NoRedelivery(steps) && AllPast(s, steps)
    requires n in Ids(Flow(sys)) && n in s.db.exec.nodes && s.db.exec.nodes[n].status.Pending? && n in s.ready
    requires Eval(sys, s.db.exec.input, n).Some?
    ensures Path(sys, o, steps + more, s') && NoRedelivery(steps + more) && AllPast(s', steps + more)
    ensures s'.db.exec.input == s.db.exec.input
    ensures s'.db.exec.nodes == s.db.exec.nodes[n := Settle(s.db.exec.nodes[n], Succeeded(output))]
    ensures forall k :: k in ReadyIds(Flow(sys), NodeStatuses(s'.db.exec.nodes)) ==> k in s'.ready
  {
    hide Path, ReadyIds, DispatchSteps.NodeClaimed, EvalInput, WellFormed, AllPast, Past, NoRedelivery, HasStarted, Ids;
    assert EvalInput(sys, s.db.exec.input, n).Some?;
    var input := EvalInput(sys, s.db.exec.input, n).value;
    var s1 := LoadNode(sys, o, steps, s, n);
    var steps1 := steps + [LoadStep(n)];
    var s2, dispatch, attempt := StartNode(sys, o, steps1, s1, n, input);
    var s3, m := SendTask(sys, o, steps1 + [dispatch], s2, s1, n, input, attempt);
    var row := |s.db.exec.outbox|;
    var steps3 := steps1 + [dispatch] + [PublishOutboxStep(row)];
    var s4, e, run := RunNode(sys, o, steps3, s3, n, m);
    RowCompleted(s.db.exec, s2.db.exec, n, s.db.tables, s2.db.tables, NodeOf(Flow(sys), n), input, attempt, e.outcome);
    s', output := s4, e.outcome.output;
    more := [LoadStep(n), dispatch, PublishOutboxStep(row), run[0], run[1], run[2], run[3]];
    assert steps3 + run == steps + more;
    CycleIsNew(s, s', n, more);
    NewSteps(s, s', steps, more);
  }

  // The seven steps of one node are of seven kinds, and all of them are new.
  lemma CycleIsNew(s: State, s': State, n: string, more: seq<Step>)
    requires |more| == 7 && n in s.db.exec.nodes && !s.db.exec.nodes[n].status.Completed?
    requires n in s'.db.exec.nodes && s'.db.exec.nodes[n].status.Completed?
    requires more[0] == LoadStep(n) && more[1].DispatchStep? && more[2] == PublishOutboxStep(|s.db.exec.outbox|)
    requires more[3].ClaimStep? && more[4].RecordStep? && more[5].PublishCompletionStep? && more[6].ProcessStep?
    requires more[1].load.node.id == n && more[3].message.attempt !in s.used && more[3].message.attempt in s'.used
    requires more[4].id !in s.used && more[4].id in s'.used && more[5].event.id == more[4].id
    requires more[6].event.id == more[4].id && |s.db.exec.outbox| < |s'.db.exec.outbox|
    ensures NoRedelivery(more) && AllPast(s', more) && forall i :: 0 <= i < |more| ==> !Past(s, more[i])
  {
  }

  lemma NodesAreIds(sys: System, s: State)
    requires ValidSystem(sys) && Reachable(sys, s)
    ensures s.db.exec.nodes.Keys == Ids(Flow(sys))
  {
    hide Reachable, ReadyPart, TaskPart, Ledger, RetryPart, LeasePart, ValuePart, StartedAfterDependencies, FailurePropagated, StatusAgrees;
    ReachableInv(sys, s);
  }

  ghost function PendingSet(nodes: map<string, NodeRow>): set<string> {
    set n | n in nodes && nodes[n].status.Pending?
  }

  lemma SomeReadyNode(sys: System, s: State) returns (n: string)
    requires ValidSystem(sys) && Reachable(sys, s) && Calm(sys, s) && PendingSet(s.db.exec.nodes) != {}
    ensures n in Ids(Flow(sys)) && n in ReadyIds(Flow(sys), NodeStatuses(s.db.exec.nodes)) && n in s.ready
    ensures n in s.db.exec.nodes && s.db.exec.nodes[n].status.Pending?
  {
    hide Reachable;
    var w, st := Flow(sys), NodeStatuses(s.db.exec.nodes);
    NodesAreIds(sys, s);
    var p :| p in PendingSet(s.db.exec.nodes);
    assert !Terminal(s.db.exec.nodes[p].status);
    if ReadyIds(w, st) == [] {
      NoDeadlock(sys, s);
    }
    n := ReadyIds(w, st)[0];
    ReadyMember(w, st, n);
  }

  lemma {:induction false} CompleteAll(sys: System, o: State, steps: seq<Step>, s: State) returns (s': State, all: seq<Step>)
    requires ValidSystem(sys) && Path(sys, o, steps, s) && NoRedelivery(steps) && AllPast(s, steps) && Calm(sys, s)
    requires forall n :: n in Ids(Flow(sys)) ==> Eval(sys, s.db.exec.input, n).Some?
    ensures Path(sys, o, all, s') && NoRedelivery(all) && s'.db.exec.input == s.db.exec.input
    ensures forall n :: n in s'.db.exec.nodes ==> s'.db.exec.nodes[n].status.Completed?
    decreases |PendingSet(s.db.exec.nodes)|
  {
    hide Path, Reachable, ReadyIds, Eval, WellFormed, AllPast, NoRedelivery;
    if PendingSet(s.db.exec.nodes) == {} {
      s', all := s, steps;
      assert forall n :: n in s.db.exec.nodes ==> n !in PendingSet(s.db.exec.nodes);
    } else {
      PathIsReachable(sys, o, steps, s);
      var n := SomeReadyNode(sys, s);
      var s1, more, output := CompleteNode(sys, o, steps, s, n);
      assert PendingSet(s1.db.exec.nodes) == PendingSet(s.db.exec.nodes) - {n};
      s', all := CompleteAll(sys, o, steps + more, s1);
    }
  }

  /** Submission, trigger, its delivery and the one evaluation of readiness it causes. */
  lemma Triggered(sys: System, input: map<string, Json>) returns (o: State, s: State, steps: seq<Step>)
    requires ValidSystem(sys)
    ensures Path(sys, o, steps, s) && NoRedelivery(steps) && AllPast(s, steps) && Calm(sys, s)
    ensures Init(sys, o) && s.db.exec.input == input && !s.db.exec.status.Pending? && s.db.exec.nodes.Keys == Ids(Flow(sys))
    ensures forall n :: n in s.db.exec.nodes ==> s.db.exec.nodes[n].status.Pending?
  {
    hide Path, ReadyIds;
    o := State(Submitted(Flow(sys), sys.execution), 0.0, {}, false, {}, {}, {}, {}, {}, {}, {}, {}, {}, map[]);
    InitIsReachable(sys, o);
    PathStart(sys, o);
    var trigger := TriggerStep(Some(input), 0);
    PathStep(sys, o, [], o, trigger);
    var s1 := After(sys, o, trigger);
    PathStep(sys, o, [] + [trigger], s1, PublishOutboxStep(0));
    var s2 := After(sys, s1, PublishOutboxStep(0));
    PathStep(sys, o, [] + [trigger] + [PublishOutboxStep(0)], s2, EvaluateStep);
    s, steps := After(sys, s2, EvaluateStep), [] + [trigger] + [PublishOutboxStep(0)] + [EvaluateStep];
  }

  /** Some run completes the execution on this input without any redelivery: the trigger is evaluated
      once, no task message is claimed and no event processed a second time, and no step is repeated. */
  ghost predicate CanComplete(sys: System, input: map<string, Json>) {
    exists o, steps, s :: Init(sys, o) && Path(sys, o, steps, s) && NoRedelivery(steps) && s.db.exec.input == input && s.db.exec.status.Completed?
  }

  /** An execution of a non-empty definition can complete, and can do so without any redelivery,
      exactly when the recursive evaluation gives every node a value. */
  lemma CompletableIffEvaluable(sys: System, input: map<string, Json>)
    requires ValidSystem(sys) && Flow(sys) != []
    ensures CanComplete(sys, input) <==> forall n :: n in Ids(Flow(sys)) ==> Eval(sys, input, n).Some?
    ensures (exists s :: Reachable(sys, s) && s.db.exec.input == input && s.db.exec.status.Completed?) ==> CanComplete(sys, input)
  {
    hide Path, Reachable, Eval, WellFormed, AllPast, NoRedelivery;
    if CanComplete(sys, input) {
      var o, steps, s :| Init(sys, o) && Path(sys, o, steps, s) && NoRedelivery(steps) && s.db.exec.input == input && s.db.exec.status.Completed?;
      PathIsReachable(sys, o, steps, s);
      CompletedIsEvaluable(sys, s);
    }
    if s :| Reachable(sys, s) && s.db.exec.input == input && s.db.exec.status.Completed? {
      CompletedIsEvaluable(sys, s);
    }
    if forall n :: n in Ids(Flow(sys)) ==> Eval(sys, input, n).Some? {
      var o, s, steps := Triggered(sys, input);
      var s', all := CompleteAll(sys, o, steps, s);
      PathIsReachable(sys, o, all, s');
      NodesAreIds(sys, s');
      StatusTellsTheNodes(sys, s');
      assert AllCompleted(Flow(sys), s'.db.exec.nodes);
    }
  }

  lemma CompletedIsEvaluable(sys: System, s: State)
    requires ValidSystem(sys) && Reachable(sys, s) && s.db.exec.status.Completed?
    ensures forall n :: n in Ids(Flow(sys)) ==> Eval(sys, s.db.exec.input, n).Some?
  {
    hide Reachable, Eval, WellFormed;
    StatusTellsTheNodes(sys, s);
    forall n | n in Ids(Flow(sys)) ensures Eval(sys, s.db.exec.input, n).Some? {
      var i :| 0 <= i < |Flow(sys)| && Flow(sys)[i].id == n;
      CompletedOutputIsEval(sys, s, n);
    }
  }
}
