/** The main results, for every reachable state and every run of the protocol. */
module Theorems {
  import opened Wrappers
  import opened Definitions
  import opened Traversal
  import opened TaskTables
  import opened AttemptLedger
  import opened ExecutionTables
  import opened ExecutionInvariants
  import opened Protocol
  import opened Dataflow
  import opened ProtocolInvariants
  import opened OutboxLedger
  import opened StepEffects
  import DispatchSteps
  import CompletionSteps
  import opened Runs

  ghost predicate Reachable(sys: System, s: State) {
    exists states, steps, i :: IsRun(sys, states, steps) && 0 <= i < |states| && states[i] == s
  }

  lemma ReachableInv(sys: System, s: State)
    requires ValidSystem(sys) && Reachable(sys, s)
    ensures Inv(sys, s) && OutboxPart(s)
  {
    hide Inv, IsRun, OutboxPart, ValidSystem;
    var states, steps, i :| IsRun(sys, states, steps) && 0 <= i < |states| && states[i] == s;
    RunKeepsInv(sys, states, steps, i);
    RunKeepsOutbox(sys, states, steps, i);
  }

  // ---------- Dataflow ----------

  /** Whatever the interleaving, a completed node holds the output of the recursive evaluation. */
  lemma CompletedOutputIsEval(sys: System, s: State, n: string)
    requires ValidSystem(sys) && Reachable(sys, s)
    requires n in s.db.exec.nodes && s.db.exec.nodes[n].status.Completed?
    ensures n in Ids(Flow(sys)) && Eval(sys, s.db.exec.input, n) == Some(s.db.exec.nodes[n].output)
  {
    hide Reachable, ExecPart, ReadyPart, TaskPart, Ledger, RetryPart, LeasePart, Eval, EvalInput;
    ReachableInv(sys, s);
    assert HasValue(sys, s.db.exec.input, n, s.db.exec.nodes[n].output);
  }

  /** Two runs on the same input agree on every node both have completed. */
  lemma RunsAgree(sys: System, s: State, r: State, n: string)
    requires ValidSystem(sys) && Reachable(sys, s) && Reachable(sys, r) && s.db.exec.input == r.db.exec.input
    requires n in s.db.exec.nodes && s.db.exec.nodes[n].status.Completed?
    requires n in r.db.exec.nodes && r.db.exec.nodes[n].status.Completed?
    ensures s.db.exec.nodes[n].output == r.db.exec.nodes[n].output
  {
    hide Reachable, Eval, EvalInput;
    CompletedOutputIsEval(sys, s, n);
    CompletedOutputIsEval(sys, r, n);
  }

  // ---------- Order of execution ----------

  /** A started node has only completed dependencies, and failure has reached every dependant. */
  lemma DependenciesComeFirst(sys: System, s: State, n: string, d: string)
    requires ValidSystem(sys) && Reachable(sys, s) && n in Ids(Flow(sys)) && d in DepsOf(Flow(sys), n)
    ensures n in s.db.exec.nodes && d in s.db.exec.nodes
    ensures s.db.exec.nodes[n].status.Running? || s.db.exec.nodes[n].status.Completed? ==> s.db.exec.nodes[d].status.Completed?
    ensures s.db.exec.nodes[d].status.Failed? ==> s.db.exec.nodes[n].status.Failed?
  {
    hide Reachable, ReadyPart, TaskPart, Ledger, RetryPart, LeasePart, ValuePart;
    ReachableInv(sys, s);
    KnownDependency(Flow(sys), n, d);
  }

  /** However old the ready list, dispatch never finds a failed dependency. */
  lemma DispatchFailureBranchIsDead(sys: System, s: State, load: Load)
    requires ValidSystem(sys) && Reachable(sys, s) && load in s.loaded
    ensures !HasFailedDependency(s.db.exec.nodes, load.node)
  {
    hide Reachable, Inv;
    ReachableInv(sys, s);
    DispatchSteps.DispatchNeverFails(sys, s, load);
  }

  /** Every status change of a run is an edge of the declared transition maps. */
  lemma TransitionsAreDeclared(sys: System, states: seq<State>, steps: seq<Step>, i: nat, n: string)
    requires ValidSystem(sys) && IsRun(sys, states, steps) && i < |steps|
    ensures WorkflowMove(states[i].db.exec.status, states[i + 1].db.exec.status)
    ensures states[i + 1].db.exec.nodes.Keys == states[i].db.exec.nodes.Keys
    ensures n in states[i].db.exec.nodes ==>
              NodeMove(states[i].db.exec.nodes[n].status, states[i + 1].db.exec.nodes[n].status)
    ensures n in states[i].db.exec.nodes && states[i].db.exec.nodes[n].status.Completed? ==>
              states[i + 1].db.exec.nodes[n] == states[i].db.exec.nodes[n]
  {
    hide IsRun, Grows, ClaimsKept, Next;
    RunEffect(sys, states, steps, i);
  }

  // ---------- No deadlock ----------

  lemma {:induction false} QuietNodeIsSettled(sys: System, x: Execution, n: string)
    requires ValidSystem(sys) && ExecutionInv(Flow(sys), x) && n in Ids(Flow(sys))
    requires forall m :: m in x.nodes ==> !x.nodes[m].status.Running?
    requires ReadyIds(Flow(sys), NodeStatuses(x.nodes)) == []
    ensures !x.nodes[n].status.Pending?
    decreases NodeRank(Flow(sys), n)
  {
    var w := Flow(sys);
    if x.nodes[n].status.Pending? {
      ReadyById(w, NodeStatuses(x.nodes), n);
      var d :| d in DepsOf(w, n) && !StatusOf(NodeStatuses(x.nodes), d).Completed?;
      DependencyDescends(w, n);
      QuietNodeIsSettled(sys, x, d);
    }
  }

  /** A state without running and without ready nodes has no pending node either, and unless the
      definition is empty the execution has ended. */
  lemma NoDeadlock(sys: System, s: State)
    requires ValidSystem(sys) && Reachable(sys, s)
    requires forall n :: n in s.db.exec.nodes ==> !s.db.exec.nodes[n].status.Running?
    requires ReadyIds(Flow(sys), NodeStatuses(s.db.exec.nodes)) == []
    ensures forall n :: n in s.db.exec.nodes ==> Terminal(s.db.exec.nodes[n].status)
    ensures Flow(sys) != [] ==> Terminal(s.db.exec.status)
    ensures Flow(sys) == [] ==> !Terminal(s.db.exec.status)
  {
    hide Reachable, ReadyPart, TaskPart, Ledger, RetryPart, LeasePart, ValuePart, StartedAfterDependencies, FailurePropagated;
    ReachableInv(sys, s);
    var x := s.db.exec;
    forall n | n in x.nodes ensures Terminal(x.nodes[n].status) {
      QuietNodeIsSettled(sys, x, n);
    }
    if !AnyFailed(x.nodes) {
      forall i | 0 <= i < |Flow(sys)| ensures x.nodes[Flow(sys)[i].id].status.Completed? {
        assert Flow(sys)[i].id in Ids(Flow(sys));
        assert Terminal(x.nodes[Flow(sys)[i].id].status);
      }
      assert AllCompleted(Flow(sys), x.nodes);
    }
  }

  /** A triggered execution of the empty definition stays running for ever. */
  lemma EmptyDefinitionNeverEnds(sys: System, s: State)
    requires ValidSystem(sys) && Reachable(sys, s) && Flow(sys) == [] && !s.db.exec.status.Pending?
    ensures s.db.exec.status.Running?
  {
    hide Reachable, ReadyPart, TaskPart, Ledger, RetryPart, LeasePart, ValuePart;
    ReachableInv(sys, s);
    assert s.db.exec.nodes.Keys == {};
  }

  // ---------- Status of the execution ----------

  /** The execution has failed exactly when a node has, and has completed exactly when the
      definition is not empty and every node has. */
  lemma StatusTellsTheNodes(sys: System, s: State)
    requires ValidSystem(sys) && Reachable(sys, s)
    ensures s.db.exec.status.Failed? <==> AnyFailed(s.db.exec.nodes)
    ensures s.db.exec.status.Completed? <==> Flow(sys) != [] && AllCompleted(Flow(sys), s.db.exec.nodes)
  {
    hide Reachable, ReadyPart, TaskPart, Ledger, RetryPart, LeasePart, ValuePart;
    ReachableInv(sys, s);
  }

  /** The results are never inconsistent, and when they are available they list every node of the
      definition with its evaluated output. */
  lemma ResultsAreComplete(sys: System, s: State)
    requires ValidSystem(sys) && Reachable(sys, s)
    ensures !ResultsOf(s.db.exec).Inconsistent?
    ensures ResultsOf(s.db.exec).Available? <==> s.db.exec.status.Completed?
    ensures ResultsOf(s.db.exec).Available? ==>
              && ResultsOf(s.db.exec).outputs.Keys == Ids(Flow(sys))
              && forall n :: n in Ids(Flow(sys)) ==> Eval(sys, s.db.exec.input, n) == Some(ResultsOf(s.db.exec).outputs[n])
  {
    hide Reachable, ReadyPart, TaskPart, Ledger, RetryPart, LeasePart, Eval, EvalInput, StartedAfterDependencies, FailurePropagated;
    ReachableInv(sys, s);
    var x := s.db.exec;
    if x.status.Completed? {
      forall n | n in Ids(Flow(sys)) ensures n in x.nodes && x.nodes[n].status.Completed? {
        var i :| 0 <= i < |Flow(sys)| && Flow(sys)[i].id == n;
      }
      forall n | n in Ids(Flow(sys)) ensures Eval(sys, x.input, n) == Some(x.nodes[n].output) {
        CompletedOutputIsEval(sys, s, n);
      }
    }
  }

  // ---------- The retry chain ----------

  ghost predicate AttemptNumbered(t: Tables, k: TaskId, number: int, a: Uuid) {
    a in t.attempts && t.attempts[a].task == k && t.attempts[a].number == number
  }

  ghost predicate HasAttempt(t: Tables, k: TaskId, number: int) {
    exists a :: AttemptNumbered(t, k, number, a)
  }

  ghost predicate HasFailedAttempt(t: Tables, k: TaskId, number: int) {
    exists a :: AttemptNumbered(t, k, number, a) && t.attempts[a].failureEvent.Some?
  }

  /** The attempts of a task are numbered 1 to `last` without gap or repetition, never beyond the
      limit; all but the last have failed, and the last has not unless it is the final one. */
  lemma AttemptsFormAChain(sys: System, s: State, k: TaskId) returns (last: nat)
    requires ValidSystem(sys) && Reachable(sys, s) && k in s.db.tables.tasks
    ensures 1 <= last <= Limit(sys)
    ensures forall n :: HasAttempt(s.db.tables, k, n) <==> 1 <= n <= last
    ensures forall n, a, b :: AttemptNumbered(s.db.tables, k, n, a) && AttemptNumbered(s.db.tables, k, n, b) ==> a == b
    ensures forall n, a :: AttemptNumbered(s.db.tables, k, n, a) && n < last ==> s.db.tables.attempts[a].failureEvent.Some?
    ensures forall a :: AttemptNumbered(s.db.tables, k, last, a) && last < Limit(sys) ==> s.db.tables.attempts[a].failureEvent.None?
  {
    hide Reachable, ReadyPart, TaskPart, ExecPart, RetryPart, LeasePart, ValuePart, Coherent, RetryRows;
    ReachableInv(sys, s);
    var t := s.db.tables;
    var chain :| Chain(t, Limit(sys), chain);
    last := |chain[k]|;
    forall n | 1 <= n <= last ensures HasAttempt(t, k, n) {
      assert Link(t, Limit(sys), chain[k], k, n - 1);
      assert AttemptNumbered(t, k, n, chain[k][n - 1]);
    }
    forall n, a | AttemptNumbered(t, k, n, a)
      ensures 1 <= n <= last && a == chain[k][n - 1]
      ensures n < last ==> t.attempts[a].failureEvent.Some?
      ensures n == last && last < Limit(sys) ==> t.attempts[a].failureEvent.None?
    {
      assert Listed(t, chain, a);
      assert Link(t, Limit(sys), chain[k], k, n - 1);
    }
  }

  /** Claims are exclusive for an attempt, not for a task: two attempts of one task may be held at
      the same time, but then the lower numbered one has failed, so at most one attempt of a task
      has not. */
  lemma EarlierAttemptHasFailed(sys: System, s: State, a: Uuid, b: Uuid)
    requires ValidSystem(sys) && Reachable(sys, s) && a in s.db.tables.attempts && b in s.db.tables.attempts && a != b
    requires s.db.tables.attempts[a].task == s.db.tables.attempts[b].task
    ensures s.db.tables.attempts[a].number != s.db.tables.attempts[b].number
    ensures s.db.tables.attempts[a].number < s.db.tables.attempts[b].number ==> s.db.tables.attempts[a].failureEvent.Some?
  {
    hide Reachable, Inv;
    var t, k := s.db.tables, s.db.tables.attempts[a].task;
    AttemptsBelong(sys, s, a);
    var last := AttemptsFormAChain(sys, s, k);
    assert AttemptNumbered(t, k, t.attempts[a].number, a) && AttemptNumbered(t, k, t.attempts[b].number, b);
    assert HasAttempt(t, k, t.attempts[b].number);
  }

  lemma AttemptsBelong(sys: System, s: State, a: Uuid)
    requires ValidSystem(sys) && Reachable(sys, s) && a in s.db.tables.attempts
    ensures s.db.tables.attempts[a].task in s.db.tables.tasks
  {
    hide Reachable, ReadyPart, TaskPart, ExecPart, RetryPart, LeasePart, ValuePart, Chained, RetryRows;
    ReachableInv(sys, s);
    assert RowOk(s.db.tables, s.recorded, a);
  }

  /** No two attempts share a failure event. */
  lemma FailureEventsAreDistinct(sys: System, s: State, a: Uuid, b: Uuid)
    requires ValidSystem(sys) && Reachable(sys, s)
    requires a in s.db.tables.attempts && b in s.db.tables.attempts && s.db.tables.attempts[a].failureEvent.Some?
    requires s.db.tables.attempts[a].failureEvent == s.db.tables.attempts[b].failureEvent
    ensures a == b
  {
    hide Reachable, ReadyPart, TaskPart, ExecPart, RetryPart, LeasePart, ValuePart, Chained, RetryRows;
    ReachableInv(sys, s);
    assert RowOk(s.db.tables, s.recorded, a) && RowOk(s.db.tables, s.recorded, b);
  }

  /** A node with a task fails only after every permitted attempt has failed; a node without one
      fails only because of a failed dependency. */
  lemma WhyANodeFailed(sys: System, s: State, n: string)
    requires ValidSystem(sys) && Reachable(sys, s)
    requires n in s.db.exec.nodes && s.db.exec.nodes[n].status.Failed?
    ensures n in Ids(Flow(sys))
    ensures TaskOf(s.db.exec, n) in s.db.tables.tasks ==>
              forall i :: 1 <= i <= Limit(sys) ==> HasFailedAttempt(s.db.tables, TaskOf(s.db.exec, n), i)
    ensures TaskOf(s.db.exec, n) !in s.db.tables.tasks ==> FailedDependencyOf(Flow(sys), s.db.exec.nodes, n)
  {
    hide Reachable, ReadyPart, RetryPart, LeasePart, ValuePart, Ledger;
    ReachableInv(sys, s);
    var t, k := s.db.tables, TaskOf(s.db.exec, n);
    assert TaskOk(sys, s.db.exec, t, n);
    if k in t.tasks {
      var last := AttemptsFormAChain(sys, s, k);
      var z :| z in t.attempts && t.attempts[z].task == k && t.attempts[z].number == Limit(sys) && t.attempts[z].failureEvent.Some?;
      assert AttemptNumbered(t, k, Limit(sys), z);
      assert HasAttempt(t, k, Limit(sys));
      forall i | 1 <= i <= Limit(sys) ensures HasFailedAttempt(t, k, i) {
        assert HasAttempt(t, k, i);
        var a :| AttemptNumbered(t, k, i, a);
        assert i == Limit(sys) ==> a == z;
      }
    }
  }

  // ---------- Redelivery ----------

  // What an event leaves behind once it has been processed.
  ghost predicate Settled(db: Db, e: Event) {
    && e.attempt in db.tables.attempts && e.node in db.exec.nodes
    && (e.outcome.Errored? ==> db.tables.attempts[e.attempt].failureEvent.Some?)
    && (e.outcome.Succeeded? ==> Terminal(db.exec.nodes[e.node].status))
  }

  lemma ConcludeEndsNode(w: Workflow, db: Db, e: Event)
    requires UniqueIds(w) && KnownDependencies(w) && ExecutionInv(w, db.exec) && e.node in db.exec.nodes && Conclude(w, db, e).Ok?
    ensures var db' := Conclude(w, db, e).value.1; e.node in db'.exec.nodes && Terminal(db'.exec.nodes[e.node].status)
    ensures Conclude(w, db, e).value.1.tables == db.tables
  {
    if db.exec.nodes[e.node].status.Running? && e.outcome.Errored? {
      FailDependantsRows(w, db.exec.nodes[e.node := Settle(db.exec.nodes[e.node], e.outcome)], e.node);
    }
    hide FailDependants;
  }

  lemma RunLength(sys: System, states: seq<State>, steps: seq<Step>)
    requires IsRun(sys, states, steps)
    ensures |states| == |steps| + 1
  {
  }

  lemma ProcessingSettles(sys: System, s: State, e: Event, next: Uuid)
    requires ValidSystem(sys) && Inv(sys, s) && e in s.recorded && next !in s.used && ProcessResult(sys, s, e, next).Ok?
    ensures Settled(ProcessResult(sys, s, e, next).value.1, e)
  {
    hide Inv, Conclude, Process, ExecutionInv;
    CompletionSteps.EventBelongs(sys, s, e);
    ExecutionPart(sys, s);
    CompletionSteps.AttemptsAreUsed(sys, s);
    if e.outcome.Succeeded? {
      CompletionSteps.ProcessSuccess(sys, s, e, next);
      if s.db.exec.nodes[e.node].status.Running? {
        ConcludeEndsNode(Flow(sys), s.db, e);
      }
    } else {
      CompletionSteps.ProcessFailure(sys, s, e, next);
      if s.db.tables.attempts[e.attempt].failureEvent.None? && e.number >= Limit(sys) {
        ConcludeEndsNode(Flow(sys), s.db.(tables := AfterExhausted(s.db.tables, e.task, e.attempt, e.id, e.outcome.error)), e);
      }
    }
  }

  lemma SettledStays(s: State, s': State, e: Event)
    requires Settled(s.db, e) && Effect(s, s')
    ensures Settled(s'.db, e)
  {
  }

  lemma SettledIsKnown(sys: System, s: State, e: Event, next: Uuid)
    requires ValidSystem(sys) && Inv(sys, s) && e in s.recorded && Settled(s.db, e)
    ensures ProcessResult(sys, s, e, next) == Ok((Decision(AlreadyKnown, []), s.db))
  {
    hide Inv, Conclude, Process;
    if e.outcome.Succeeded? {
      CompletionSteps.ProcessSuccess(sys, s, e, next);
    } else {
      CompletionSteps.ProcessFailure(sys, s, e, next);
    }
  }

  lemma {:induction false} SettledFromThenOn(sys: System, states: seq<State>, steps: seq<Step>, i: nat, j: nat)
    requires ValidSystem(sys) && IsRun(sys, states, steps) && i < |steps| && steps[i].ProcessStep? && i < j < |states|
    ensures steps[i].event in states[j].recorded && Settled(states[j].db, steps[i].event)
    decreases j
  {
    hide Inv, IsRun, Effect, Settled;
    RunLength(sys, states, steps);
    if j == i + 1 {
      RunKeepsInv(sys, states, steps, i);
      RunEffect(sys, states, steps, i);
      CompletionSteps.DeliveredIsRecorded(sys, states[i], steps[i].event);
      ProcessingSettles(sys, states[i], steps[i].event, steps[i].next);
    } else {
      SettledFromThenOn(sys, states, steps, i, j - 1);
      RunEffect(sys, states, steps, j - 1);
      SettledStays(states[j - 1], states[j], steps[i].event);
      RecordedStays(states[j - 1], states[j]);
    }
  }

  lemma RecordedStays(s: State, s': State)
    requires Effect(s, s')
    ensures s.recorded <= s'.recorded
  {
  }

  /** An event that has been processed once changes nothing at any later point of the run: the
      whole database stays as it is. */
  lemma RedeliveryIsHarmless(sys: System, states: seq<State>, steps: seq<Step>, i: nat, j: nat, next: Uuid)
    requires ValidSystem(sys) && IsRun(sys, states, steps) && i < |steps| && steps[i].ProcessStep? && i < j < |states|
    ensures ProcessResult(sys, states[j], steps[i].event, next) == Ok((Decision(AlreadyKnown, []), states[j].db))
  {
    hide Inv, IsRun, Settled;
    RunKeepsInv(sys, states, steps, j);
    SettledFromThenOn(sys, states, steps, i, j);
    SettledIsKnown(sys, states[j], steps[i].event, next);
  }

  // ---------- Exactly once ----------

  /** Over any run a message has been written exactly once for everything that has happened, and
      never for anything else. */
  lemma AnnouncedExactlyOnce(sys: System, s: State, topic: Topic)
    requires ValidSystem(sys) && Reachable(sys, s)
    ensures Count(s.db.exec.outbox, topic) == if Happened(s.db.exec, s.db.tables, topic) then 1 else 0
  {
    hide Reachable, Inv;
    ReachableInv(sys, s);
    CountMentioned(s.db.exec.outbox, topic);
    assert Mentioned(s.db.exec.outbox, topic) <==> Happened(s.db.exec, s.db.tables, topic);
  }

  /** Inserting into the outbox never violates its primary key. */
  lemma OutboxKeysAreUnique(sys: System, s: State, i: nat, j: nat)
    requires ValidSystem(sys) && Reachable(sys, s) && i < j < |s.db.exec.outbox|
    ensures s.db.exec.outbox[i].id != s.db.exec.outbox[j].id
  {
    hide Reachable, ReadyPart, TaskPart, ExecPart, RetryPart, LeasePart, ValuePart, Chained, RetryRows, OutboxInv;
    ReachableInv(sys, s);
    KeysAreDistinct(s.db.exec, s.db.tables, s.recorded, s.used, i, j);
  }

  /** A node that was ever claimed has exactly one attempt numbered 1; a pending node has none. */
  lemma FirstAttemptIsUnique(sys: System, s: State, n: string)
    requires ValidSystem(sys) && Reachable(sys, s) && n in s.db.exec.nodes
    ensures TaskOf(s.db.exec, n) in s.db.tables.tasks <==> HasAttempt(s.db.tables, TaskOf(s.db.exec, n), 1)
    ensures forall a, b :: AttemptNumbered(s.db.tables, TaskOf(s.db.exec, n), 1, a) && AttemptNumbered(s.db.tables, TaskOf(s.db.exec, n), 1, b) ==> a == b
    ensures s.db.exec.nodes[n].status.Pending? ==> TaskOf(s.db.exec, n) !in s.db.tables.tasks
    ensures s.db.exec.nodes[n].status.Running? || s.db.exec.nodes[n].status.Completed? ==> TaskOf(s.db.exec, n) in s.db.tables.tasks
  {
    hide Reachable, ReadyPart, RetryPart, LeasePart, ValuePart, Chained, RetryRows;
    ReachableInv(sys, s);
    var t, k := s.db.tables, TaskOf(s.db.exec, n);
    assert TaskOk(sys, s.db.exec, t, n);
    if k in t.tasks {
      var last := AttemptsFormAChain(sys, s, k);
      assert HasAttempt(t, k, 1);
    } else {
      forall a | a in t.attempts ensures t.attempts[a].task != k {
        assert RowOk(t, s.recorded, a);
      }
    }
  }

  // ---------- The first success ----------

  lemma {:induction false} RecordedFromThenOn(sys: System, states: seq<State>, steps: seq<Step>, i: nat, j: nat, e: Event)
    requires ValidSystem(sys) && IsRun(sys, states, steps) && i <= j < |states| && e in states[i].recorded
    ensures e in states[j].recorded
    decreases j
  {
    hide IsRun, Effect;
    RunLength(sys, states, steps);
    if i < j {
      RecordedFromThenOn(sys, states, steps, i, j - 1, e);
      RunEffect(sys, states, steps, j - 1);
      RecordedStays(states[j - 1], states[j]);
    }
  }

  /** Once an attempt has stored a success, its event and output stay, whatever stale workers,
      replays or orchestrators do: no other result can be recorded for it, every replay yields the
      same event, and every success ever recorded for it is this one. An event other than this one
      exists for the attempt exactly when the orchestrator has taken note of an earlier failure. */
  lemma FirstSuccessIsFinal(sys: System, states: seq<State>, steps: seq<Step>, i: nat, j: nat, e: Event)
    requires ValidSystem(sys) && IsRun(sys, states, steps) && i <= j < |states|
    requires e in states[i].recorded && e.outcome.Succeeded?
    ensures var t := states[j].db.tables;
            && e.attempt in t.attempts
            && t.attempts[e.attempt].completionEvent == Some(e.id) && RowEvent(e.attempt, t.attempts[e.attempt]) == e
            && (forall f: Event :: f.attempt == e.attempt ==> RecordResult(t, f).Err?)
            && (forall m: TaskMessage :: m in states[j].replaying && m.attempt == e.attempt ==>
                  EventFromResult(m, t.attempts[e.attempt]) == Ok(e))
            && (forall f :: f in states[j].recorded && f.attempt == e.attempt && f.outcome.Succeeded? ==> f == e)
            && ((forall f :: f in states[j].recorded && f.attempt == e.attempt ==> f == e) <==>
                  t.attempts[e.attempt].failureEvent.None?)
  {
    hide IsRun, ReadyPart, TaskPart, ExecPart, RetryPart, LeasePart, ValuePart, Chained, RetryRows;
    RunKeepsInv(sys, states, steps, j);
    RecordedFromThenOn(sys, states, steps, i, j, e);
    var s := states[j];
    assert EventOk(s.db.tables, e) && RowOk(s.db.tables, s.recorded, e.attempt);
    forall f | f in s.recorded && f.attempt == e.attempt
      ensures f.outcome.Succeeded? || s.db.tables.attempts[e.attempt].failureEvent.None? ==> f == e
    {
      assert EventOk(s.db.tables, f);
    }
    forall m: TaskMessage | m in s.replaying && m.attempt == e.attempt
      ensures EventFromResult(m, s.db.tables.attempts[e.attempt]) == Ok(e)
    {
      assert Describes(s.db.tables, m);
    }
  }

  /** Whatever the interleaving, as long as no failure of an attempt has been noted, all its
      deliveries report one and the same event. */
  lemma OneEventUntilFailureIsNoted(sys: System, s: State, e: Event, f: Event)
    requires ValidSystem(sys) && Reachable(sys, s) && e in s.recorded && f in s.recorded && e.attempt == f.attempt
    ensures e.attempt in s.db.tables.attempts
    ensures e != f ==> s.db.tables.attempts[e.attempt].failureEvent.Some?
  {
    hide Reachable, ReadyPart, TaskPart, ExecPart, RetryPart, LeasePart, ValuePart, Chained, RetryRows;
    ReachableInv(sys, s);
    assert EventOk(s.db.tables, e) && EventOk(s.db.tables, f);
  }

  // ---------- Leases ----------

  /** Two different workers never both hold an unexpired claim on one attempt. */
  lemma LeasesAreExclusive(sys: System, s: State, l: Lease, k: Lease)
    requires ValidSystem(sys) && Reachable(sys, s)
    requires l in s.leases && k in s.leases && l.attempt == k.attempt
    requires s.leases[l] > s.now && s.leases[k] > s.now
    ensures l.worker == k.worker
    ensures l.attempt in s.db.tables.attempts && s.db.tables.attempts[l.attempt].claimedBy == Some(l.worker)
  {
    hide Reachable, ReadyPart, TaskPart, ExecPart, RetryPart, Ledger, ValuePart;
    ReachableInv(sys, s);
    assert LeaseOk(s.db.tables, s.now, l, s.leases[l]) && LeaseOk(s.db.tables, s.now, k, s.leases[k]);
  }

  /** Renewals and new claims never move the stored expiry backwards. */
  lemma ExpiryNeverMovesBack(sys: System, states: seq<State>, steps: seq<Step>, i: nat, a: Uuid)
    requires ValidSystem(sys) && IsRun(sys, states, steps) && i < |steps| && a in states[i].db.tables.attempts
    ensures a in states[i + 1].db.tables.attempts
    ensures NotEarlier(states[i].db.tables.attempts[a], states[i + 1].db.tables.attempts[a])
  {
    hide IsRun, Next, ExecutionEffect;
    RunEffect(sys, states, steps, i);
  }

  // ---------- Retries ----------

  /** At every point of every run a retry is either returned by the next poll from its due time
      on, or its message is on the task stream. */
  lemma NoRetryIsLost(sys: System, s: State, a: Uuid)
    requires ValidSystem(sys) && Reachable(sys, s) && a in s.db.tables.attempts && s.db.tables.attempts[a].number > 1
    ensures s.db.tables.attempts[a].task in s.db.tables.tasks
    ensures MessageFor(s.db.tables, a) in s.tasks
            || (a in s.db.tables.dispatches && forall at :: at >= s.db.tables.dispatches[a].availableAt ==>
                  MessageFor(s.db.tables, a) in GetDueRetries(s.db.tables, at))
  {
    hide Reachable, ReadyPart, TaskPart, ExecPart, LeasePart, ValuePart, Chained;
    ReachableInv(sys, s);
    var t := s.db.tables;
    assert RowOk(t, s.recorded, a);
    if t.attempts[a].status.Scheduled? {
      forall at | at >= t.dispatches[a].availableAt ensures MessageFor(t, a) in GetDueRetries(t, at) {
        assert DueRetry(t, a, at);
      }
    }
  }

  /** Marking a retry published never touches a claimed attempt, whoever has claimed it since. */
  lemma MarkingKeepsClaims(sys: System, states: seq<State>, steps: seq<Step>, i: nat, a: Uuid)
    requires ValidSystem(sys) && IsRun(sys, states, steps) && i < |steps| && steps[i].MarkRetryStep?
    requires a in states[i].db.tables.attempts && states[i].db.tables.attempts[a].claimedBy.Some?
    ensures a in states[i + 1].db.tables.attempts && states[i + 1].db.tables.attempts[a] == states[i].db.tables.attempts[a]
  {
    hide ReadyPart, TaskPart, ExecPart, LeasePart, ValuePart, Chained, RetryRows;
    RunKeepsInv(sys, states, steps, i);
    assert Next(sys, states[i], steps[i], states[i + 1]);
    assert RowOk(states[i].db.tables, states[i].recorded, a);
  }
}
