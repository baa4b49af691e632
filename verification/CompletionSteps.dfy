/** The completion transaction, with retries and failure propagation. */
module CompletionSteps {
  import opened Wrappers
  import opened JsonValues
  import opened Definitions
  import opened Traversal
  import opened TaskTables
  import opened AttemptLedger
  import opened RetryPolicies
  import opened ExecutionTables
  import opened ExecutionInvariants
  import opened Protocol
  import opened Dataflow
  import opened ProtocolInvariants
  import opened WorkerSteps
  import opened DispatchSteps

  // ---------- What the transaction does to a recorded event ----------

  /** The identity checks pass for every recorded event. */
  lemma EventBelongs(sys: System, s: State, e: Event)
    requires ValidSystem(sys) && Inv(sys, s) && e in s.recorded
    ensures e.task == CreateTaskId(e.execution, e.node) && e.execution == s.db.exec.id
    ensures e.node in s.db.exec.nodes && e.node in Ids(Flow(sys)) && e.number >= 1
    ensures e.task in s.db.tables.tasks && e.task == TaskOf(s.db.exec, e.node)
    ensures e.attempt in s.db.tables.attempts && s.db.tables.attempts[e.attempt].task == e.task
    ensures s.db.tables.attempts[e.attempt].number == e.number <= Limit(sys)
    ensures !s.db.tables.attempts[e.attempt].status.Scheduled?
    ensures !s.db.exec.nodes[e.node].status.Pending?
  {
    hide ExecPart, ReadyPart, ValuePart, RetryPart, LeasePart, RetryRows;
    assert EventOk(s.db.tables, e);
    assert RowOk(s.db.tables, s.recorded, e.attempt);
    var chain :| Chain(s.db.tables, Limit(sys), chain);
    assert Listed(s.db.tables, chain, e.attempt);
    TaskHasStarted(sys, s.db.exec, s.db.tables, e.task);
  }

  ghost function RetryTime(sys: System, s: State, e: Event): Time
    requires e.number >= 1
  {
    s.now + DelayFor(sys.settings.policy, e.number)
  }

  /** A success settles a running node and is known otherwise; the task tables do not change. */
  lemma ProcessSuccess(sys: System, s: State, e: Event, next: Uuid)
    requires ValidSystem(sys) && Inv(sys, s) && e in s.recorded && e.outcome.Succeeded?
    ensures e.node in s.db.exec.nodes
    ensures ProcessResult(sys, s, e, next) ==
            if s.db.exec.nodes[e.node].status.Running? then Conclude(Flow(sys), s.db, e)
            else Ok((Decision(AlreadyKnown, []), s.db))
  {
    hide ExecPart, ReadyPart, TaskPart, ValuePart, RetryPart, LeasePart, Chained, RetryRows, Coherent, Conclude;
    EventBelongs(sys, s, e);
    SuccessIsNeverNews(s.db.tables, s.recorded, e);
    assert s.db.(tables := s.db.tables) == s.db;
  }

  /** A failure is known when the attempt has failed before; otherwise it leads to a retry or, at
      the limit, settles the node. */
  lemma ProcessFailure(sys: System, s: State, e: Event, next: Uuid)
    requires ValidSystem(sys) && Inv(sys, s) && e in s.recorded && e.outcome.Errored?
    ensures e.node in s.db.exec.nodes && e.number >= 1 && e.attempt in s.db.tables.attempts && e.task in s.db.tables.tasks
    ensures ProcessResult(sys, s, e, next) ==
            if s.db.tables.attempts[e.attempt].failureEvent.Some? then Ok((Decision(AlreadyKnown, []), s.db))
            else if e.number < Limit(sys) then
              Ok((Decision(RetryPlanned(next, e.number + 1), []),
                  s.db.(tables := AfterRetry(s.db.tables, e.task, e.attempt, e.id, e.outcome.error, next, RetryTime(sys, s, e)))))
            else Conclude(Flow(sys), s.db.(tables := AfterExhausted(s.db.tables, e.task, e.attempt, e.id, e.outcome.error)), e)
  {
    hide ExecPart, ReadyPart, TaskPart, ValuePart, RetryPart, LeasePart, Chained, RetryRows, Coherent, Conclude,
         AfterRetry, AfterExhausted, FailureKnown, FailureIsNews;
    EventBelongs(sys, s, e);
    FailureNews(s.db.tables, s.recorded, e);
    assert s.db.(tables := s.db.tables) == s.db;
  }

  // ---------- Recording the failure ----------

  ghost predicate FailureRecorded(t: Tables, t': Tables, e: Event, next: Uuid) {
    && e.attempt in t.attempts && e.task in t.tasks && next !in t.attempts && t'.tasks.Keys == t.tasks.Keys
    && t'.attempts.Keys <= t.attempts.Keys + {next}
    && (next in t'.attempts ==> t'.attempts[next] == NewAttempt(e.task, t.attempts[e.attempt].number + 1, Scheduled))
    && (forall a :: a in t.attempts ==>
          && a in t'.attempts
          && (a != e.attempt ==> t'.attempts[a] == t.attempts[a])
          && t'.attempts[a].claimedBy == t.attempts[a].claimedBy && t'.attempts[a].claimExpiresAt == t.attempts[a].claimExpiresAt)
  }

  lemma FailureKeepsRetries(t: Tables, t': Tables, rec: set<Event>, e: Event, next: Uuid, tasks: set<TaskMessage>)
    requires FailureRecorded(t, t', e, next) && Grows(t, t') && RetryPart(t, tasks) && Coherent(t, rec)
    requires !t.attempts[e.attempt].status.Scheduled?
    ensures RetryPart(t', tasks)
  {
    forall a | a in t'.attempts && t'.attempts[a].number > 1 && t'.attempts[a].task in t'.tasks && !t'.attempts[a].status.Scheduled?
      ensures MessageFor(t', a) in tasks
    {
      assert RowOk(t, rec, a);
      assert MessageFor(t, a) in tasks;
    }
  }

  lemma FailureKeepsLeases(sys: System, t: Tables, t': Tables, e: Event, next: Uuid, now: Time, leases: map<Lease, Time>)
    requires FailureRecorded(t, t', e, next) && LeasePart(sys, t, now, leases)
    ensures LeasePart(sys, t', now, leases)
  {
    forall l | l in leases ensures LeaseOk(t', now, l, leases[l]) {
      assert LeaseOk(t, now, l, leases[l]);
    }
    forall a | a in t'.attempts ensures ClaimBounded(sys, now, t'.attempts[a]) {
      if a in t.attempts {
        assert ClaimBounded(sys, now, t.attempts[a]);
      }
    }
  }

  /** Any growth of the task tables by a failure record keeps the invariant. */
  lemma FailureRecordKeepsInv(sys: System, s: State, t': Tables, e: Event, next: Uuid)
    requires ValidSystem(sys) && Inv(sys, s) && e in s.recorded && next !in s.used
    requires FailureRecorded(s.db.tables, t', e, next) && Grows(s.db.tables, t') && Ledger(t', s.recorded, Limit(sys))
    ensures Inv(sys, WithTables(s, t').(used := s.used + {next}))
  {
    EventBelongs(sys, s, e);
    hide ExecPart, ReadyPart, ValuePart, RetryPart, LeasePart, TaskPart, Chained, RetryRows, Coherent, Grows, FailureRecorded,
         AllDescribe, RunsDescribe, OutboxDescribes;
    hide MessagePart, FreshPart;
    var t := s.db.tables;
    FailureKeepsRetries(t, t', s.recorded, e, next, s.tasks);
    FailureKeepsLeases(sys, t, t', e, next, s.now, s.leases);
    FailureKeepsValues(sys, s, t', e, next);
    GrowsKeepsTaskPart(sys, s.db.exec, t, t');
    GrowsKeepsMessagePart(s, WithTables(s, t').(used := s.used + {next}));
  }

  lemma GrowsKeepsMessagePart(s: State, s': State)
    requires MessagePart(s) && Grows(s.db.tables, s'.db.tables)
    requires s'.tasks == s.tasks && s'.due == s.due && s'.replaying == s.replaying && s'.running == s.running
    requires s'.db.exec == s.db.exec
    ensures MessagePart(s')
  {
    hide Grows, AllDescribe, RunsDescribe, OutboxDescribes;
    var t, t' := s.db.tables, s'.db.tables;
    GrowsKeepsMessages(t, t', s.tasks);
    GrowsKeepsMessages(t, t', s.due);
    GrowsKeepsMessages(t, t', s.replaying);
    GrowsKeepsRuns(t, t', s.running);
    GrowsKeepsOutbox(t, t', s.db.exec.outbox);
  }

  lemma FailureKeepsValues(sys: System, s: State, t': Tables, e: Event, next: Uuid)
    requires ValidSystem(sys) && Inv(sys, s)
    requires FailureRecorded(s.db.tables, t', e, next) && Grows(s.db.tables, t')
    ensures t'.tasks.Keys == s.db.tables.tasks.Keys
    ensures ValuePart(sys, s.db.exec, t', s.recorded) && FreshPart(t', s.recorded, s.used + {next})
  {
    hide ExecPart, ReadyPart, RetryPart, LeasePart, TaskPart, Ledger, EventValues, NodeValues, TaskValues, Grows;
    GrowsKeepsTaskValues(sys, s.db.tables, t', s.db.exec);
  }

  lemma FailureRows(t: Tables, e: Event, next: Uuid, retryAt: Time)
    requires e.outcome.Errored? && e.attempt in t.attempts && e.task in t.tasks && next !in t.attempts
    ensures FailureRecorded(t, AfterRetry(t, e.task, e.attempt, e.id, e.outcome.error, next, retryAt), e, next)
    ensures FailureRecorded(t, AfterExhausted(t, e.task, e.attempt, e.id, e.outcome.error), e, next)
  {
  }

  lemma AttemptsAreUsed(sys: System, s: State)
    requires ValidSystem(sys) && Inv(sys, s)
    ensures forall a :: a in s.db.tables.attempts ==> a in s.used
  {
    hide ExecPart, ReadyPart, TaskPart, Ledger, RetryPart, LeasePart, ValuePart, MessagePart;
  }

  lemma RetryIsFailureRecord(sys: System, s: State, e: Event, next: Uuid, retryAt: Time)
    requires ValidSystem(sys) && Inv(sys, s) && e in s.recorded && e.outcome.Errored? && next !in s.used
    requires e.attempt in s.db.tables.attempts && e.task in s.db.tables.tasks
    requires s.db.tables.attempts[e.attempt].failureEvent.None?
    ensures var t := s.db.tables;
            var t' := if t.attempts[e.attempt].number < Limit(sys)
                      then AfterRetry(t, e.task, e.attempt, e.id, e.outcome.error, next, retryAt)
                      else AfterExhausted(t, e.task, e.attempt, e.id, e.outcome.error);
            FailureRecorded(t, t', e, next) && Grows(t, t') && Ledger(t', s.recorded, Limit(sys))
  {
    AttemptsAreUsed(sys, s);
    hide ExecPart, ReadyPart, ValuePart, RetryPart, LeasePart, TaskPart, Ledger, MessagePart, FreshPart,
         FailureRecorded, AfterRetry, AfterExhausted, Grows;
    FailureTables(s.db.tables, s.recorded, Limit(sys), e, next, retryAt);
  }

  lemma FailureTables(t: Tables, rec: set<Event>, max: int, e: Event, next: Uuid, retryAt: Time)
    requires Ledger(t, rec, max) && e in rec && e.outcome.Errored? && max >= 1 && next !in t.attempts
    requires e.attempt in t.attempts && e.task in t.tasks && t.attempts[e.attempt].failureEvent.None?
    ensures var t' := if t.attempts[e.attempt].number < max
                      then AfterRetry(t, e.task, e.attempt, e.id, e.outcome.error, next, retryAt)
                      else AfterExhausted(t, e.task, e.attempt, e.id, e.outcome.error);
            FailureRecorded(t, t', e, next) && Grows(t, t') && Ledger(t', rec, max)
  {
    hide Chained, RetryRows, Coherent, FailureRecorded, AfterRetry, AfterExhausted, Grows, FailureKnown, FailureIsNews;
    FailureNews(t, rec, e);
    FailureRows(t, e, next, retryAt);
    RecordFailureKeepsLedger(t, rec, max, e, retryAt, next);
    RecordFailureGrows(t, rec, e, max, retryAt, next);
  }

  // ---------- Settling the node ----------

  lemma FinalizeKeepsNodes(w: Workflow, x: Execution, correlation: Uuid)
    ensures var x' := Finalize(w, x, correlation);
            x'.nodes == x.nodes && x'.id == x.id && x'.input == x.input && (x'.status.Pending? ==> x.status.Pending?)
            && |x'.outbox| >= |x.outbox| && x'.outbox[..|x.outbox|] == x.outbox
            && forall i :: |x.outbox| <= i < |x'.outbox| ==> x'.outbox[i].body.WorkflowFinished?
  {
  }

  lemma PropagateOutbox(w: Workflow, x: Execution, e: Event)
    requires e.node in x.nodes
    ensures var x' := Propagate(w, x, e);
            |x'.outbox| >= |x.outbox| && x'.outbox[..|x.outbox|] == x.outbox
            && forall i :: |x.outbox| <= i < |x'.outbox| ==> !x'.outbox[i].body.TaskQueued?
  {
    hide FailDependants, FailedDependencies, PendingAmong;
  }

  lemma AppendedOutboxDescribes(t: Tables, outbox: seq<OutboxMessage>, outbox': seq<OutboxMessage>)
    requires OutboxDescribes(t, outbox) && |outbox'| >= |outbox| && outbox'[..|outbox|] == outbox
    requires forall i :: |outbox| <= i < |outbox'| ==> !outbox'[i].body.TaskQueued?
    ensures OutboxDescribes(t, outbox')
  {
    forall i | 0 <= i < |outbox'| && outbox'[i].body.TaskQueued? ensures Describes(t, outbox'[i].body.message) {
      assert outbox'[..|outbox|][i] == outbox'[i];
    }
  }

  // A node failed by propagation has a failed dependency.
  lemma DoomedHasFailedDependency(w: Workflow, nodes: map<string, NodeRow>, cause: string, n: string)
    requires UniqueIds(w) && KnownDependencies(w) && nodes.Keys == Ids(w) && n in Ids(w)
    requires nodes[n].status.Pending? && n in FailDependants(w, nodes, cause) && FailDependants(w, nodes, cause)[n].status.Failed?
    ensures FailedDependencyOf(w, FailDependants(w, nodes, cause), n)
  {
    hide FailDependants, DoomedSet;
    var st := NodeStatuses(nodes);
    FailStatuses(w, nodes, cause, n);
    var d := DoomedBy(w, st, n);
    DependsIsDepsOf(w, n, d);
    KnownDependency(w, n, d);
    FailStatuses(w, nodes, cause, d);
  }

  // The last but one node of a failure path.
  lemma DoomedBy(w: Workflow, st: Statuses, n: string) returns (d: string)
    requires n in DoomedSet(w, st)
    ensures Depends(w, n, d) && (StatusOf(st, d).Failed? || d in DoomedSet(w, st))
  {
    hide Depends;
    var p :| FailurePath(w, st, p) && p[|p| - 1] == n;
    d := p[|p| - 2];
    if |p| > 2 {
      var q := p[..|p| - 1];
      assert FailurePath(w, st, q) && q[|q| - 1] == d;
      PathStaysInside(w, st, q);
    }
  }

  lemma PathStaysInside(w: Workflow, st: Statuses, q: seq<string>)
    requires FailurePath(w, st, q)
    ensures q[|q| - 1] in Ids(w)
  {
    assert Depends(w, q[|q| - 1], q[|q| - 2]);
  }

  lemma FailureKeepsTaskPart(sys: System, x: Execution, x': Execution, t: Tables, n: string, row: NodeRow)
    requires ValidSystem(sys) && TaskPart(sys, x, t) && n in x.nodes && x.nodes[n].status.Running? && row.status.Failed?
    requires x'.nodes == FailDependants(Flow(sys), x.nodes[n := row], n) && x'.id == x.id
    requires TaskOf(x, n) in t.tasks && Spent(t, TaskOf(x, n), Limit(sys))
    ensures TaskPart(sys, x', t)
  {
    var w, settled := Flow(sys), x.nodes[n := row];
    FailDependantsRows(w, settled, n);
    hide FailDependants;
    forall m | m in Ids(w) ensures TaskOk(sys, x', t, m) {
      assert TaskOk(sys, x, t, m);
      if x.nodes[m].status.Pending? && x'.nodes[m].status.Failed? {
        DoomedHasFailedDependency(w, settled, n, m);
      } else if m != n && x.nodes[m].status.Failed? && TaskOf(x, m) !in t.tasks {
        var d :| d in DepsOf(w, m) && d in x.nodes && x.nodes[d].status.Failed?;
        assert x'.nodes[d].status.Failed?;
      }
    }
  }

  lemma SuccessKeepsTaskPart(sys: System, x: Execution, x': Execution, t: Tables, n: string, output: Json)
    requires TaskPart(sys, x, t) && n in x.nodes && x.nodes[n].status.Running?
    requires x'.nodes == x.nodes[n := x.nodes[n].(status := Completed, output := output)] && x'.id == x.id
    ensures TaskPart(sys, x', t)
  {
    forall m | m in Ids(Flow(sys)) ensures TaskOk(sys, x', t, m) {
      assert TaskOk(sys, x, t, m);
      if x.nodes[m].status.Failed? && TaskOf(x, m) !in t.tasks {
        var d :| d in DepsOf(Flow(sys), m) && d in x.nodes && x.nodes[d].status.Failed?;
        assert x'.nodes[d].status.Failed?;
      }
    }
  }

  lemma PropagateKeepsTaskPart(sys: System, x: Execution, t: Tables, e: Event)
    requires ValidSystem(sys) && TaskPart(sys, x, t) && e.node in x.nodes && x.nodes[e.node].status.Running?
    requires e.outcome.Errored? ==> TaskOf(x, e.node) in t.tasks && Spent(t, TaskOf(x, e.node), Limit(sys))
    ensures TaskPart(sys, Propagate(Flow(sys), x, e), t)
  {
    hide FailDependants, TaskPart, Spent;
    if e.outcome.Succeeded? {
      SuccessKeepsTaskPart(sys, x, Propagate(Flow(sys), x, e), t, e.node, e.outcome.output);
    } else {
      FailureKeepsTaskPart(sys, x, Propagate(Flow(sys), x, e), t, e.node, Settle(x.nodes[e.node], e.outcome));
    }
  }

  lemma TaskPartIgnoresStatus(sys: System, x: Execution, x': Execution, t: Tables)
    requires TaskPart(sys, x, t) && x'.nodes == x.nodes && x'.id == x.id
    ensures TaskPart(sys, x', t)
  {
    forall n | n in Ids(Flow(sys)) ensures TaskOk(sys, x', t, n) {
      assert TaskOk(sys, x, t, n);
    }
  }

  /** The output stored for a node is the one its success event carries, and no other node completes. */
  lemma PropagateKeepsValues(sys: System, x: Execution, t: Tables, rec: set<Event>, e: Event)
    requires ValidSystem(sys) && ValuePart(sys, x, t, rec) && e in rec
    requires e.node in x.nodes && x.nodes[e.node].status.Running?
    ensures NodeValues(sys, x.input, Propagate(Flow(sys), x, e).nodes)
  {
    hide FailDependants, Eval, EvalInput, HasValue, TaskValues;
    var after := Propagate(Flow(sys), x, e).nodes;
    if e.outcome.Errored? {
      FailDependantsRows(Flow(sys), x.nodes[e.node := Settle(x.nodes[e.node], e.outcome)], e.node);
    }
    forall n | n in after && after[n].status.Completed? ensures HasValue(sys, x.input, n, after[n].output) {
    }
  }

  lemma ConcludeReady(sys: System, x: Execution, e: Event, triggered: bool, ready: set<string>, loaded: set<Load>)
    requires ValidSystem(sys) && ExecPart(sys, x) && ReadyPart(sys, x, triggered, ready, loaded)
    requires e.node in x.nodes && x.nodes[e.node].status.Running?
    ensures var after := Propagate(Flow(sys), x, e);
            var x' := Finalize(Flow(sys), after, e.id);
            var more := set n | n in ReadyIds(Flow(sys), NodeStatuses(after.nodes));
            ReadyPart(sys, x', triggered, ready, loaded) && ReadyPart(sys, x', triggered, ready + more, loaded)
  {
    hide Propagate, Finalize, StartedAfterDependencies, FailurePropagated, CompletedKept;
    var w, after := Flow(sys), Propagate(Flow(sys), x, e);
    var x' := Finalize(w, after, e.id);
    PropagateKeepsOrder(w, x, e);
    PropagateStatus(w, x, e);
    FinalizeKeepsNodes(w, after, e.id);
    ClaimedKeepsReady(sys, x, x', triggered, ready, loaded);
    forall n | n in ReadyIds(w, NodeStatuses(after.nodes)) ensures DependenciesCompleted(w, after.nodes, n) {
      ReadyDependencies(w, after.nodes, n);
    }
  }

  lemma ConcludeKeepsProtocol(sys: System, s: State, e: Event)
    requires ValidSystem(sys) && Inv(sys, s) && e in s.recorded && e.node in s.db.exec.nodes
    requires s.db.exec.nodes[e.node].status.Running?
    requires e.outcome.Errored? ==> TaskOf(s.db.exec, e.node) in s.db.tables.tasks && Spent(s.db.tables, TaskOf(s.db.exec, e.node), Limit(sys))
    ensures Conclude(Flow(sys), s.db, e).Ok?
    ensures var (decision, db') := Conclude(Flow(sys), s.db, e).value;
            Inv(sys, s.(db := db', ready := s.ready + set n | n in decision.ready))
  {
    hide Propagate, Finalize, ExecutionInv, ReadyPart, TaskPart, Ledger, RetryPart, LeasePart, TaskValues, EventValues, NodeValues,
         AllDescribe, RunsDescribe, OutboxDescribes, Spent;
    var w, x := Flow(sys), s.db.exec;
    var after := Propagate(w, x, e);
    ConcludeKeepsInv(w, s.db, e);
    ConcludeReady(sys, x, e, s.triggered, s.ready, s.loaded);
    PropagateKeepsTaskPart(sys, x, s.db.tables, e);
    PropagateKeepsValues(sys, x, s.db.tables, s.recorded, e);
    PropagateStatus(w, x, e);
    PropagateOutbox(w, x, e);
    FinalizeKeepsNodes(w, after, e.id);
    var x' := Finalize(w, after, e.id);
    TaskPartIgnoresStatus(sys, after, x', s.db.tables);
    AppendedOutboxDescribes(s.db.tables, x.outbox, after.outbox);
    AppendedOutboxDescribes(s.db.tables, after.outbox, x'.outbox);
    assert s.ready + (set n | n in []) == s.ready;
  }

  // ---------- The step ----------

  lemma SpentAfterExhausted(t: Tables, e: Event, error: TaskError, max: int)
    requires e.attempt in t.attempts && e.task in t.tasks && t.attempts[e.attempt].task == e.task && t.attempts[e.attempt].number == max
    ensures Spent(AfterExhausted(t, e.task, e.attempt, e.id, error), e.task, max)
  {
    var t' := AfterExhausted(t, e.task, e.attempt, e.id, error);
    assert e.attempt in t'.attempts && t'.attempts[e.attempt].failureEvent.Some?;
  }

  lemma ProcessExhausted(sys: System, s: State, e: Event, next: Uuid)
    requires ValidSystem(sys) && Inv(sys, s) && e in s.recorded && e.outcome.Errored? && next !in s.used
    requires e.attempt in s.db.tables.attempts && s.db.tables.attempts[e.attempt].failureEvent.None?
    requires e.number >= Limit(sys) && ProcessResult(sys, s, e, next).Ok?
    ensures Inv(sys, AfterProcess(sys, s, e, next))
  {
    hide Inv, Conclude, AfterExhausted, AfterRetry, Process;
    EventBelongs(sys, s, e);
    ProcessFailure(sys, s, e, next);
    RetryIsFailureRecord(sys, s, e, next, RetryTime(sys, s, e));
    var t' := AfterExhausted(s.db.tables, e.task, e.attempt, e.id, e.outcome.error);
    FailureRecordKeepsInv(sys, s, t', e, next);
    var s1 := WithTables(s, t').(used := s.used + {next});
    SpentAfterExhausted(s.db.tables, e, e.outcome.error, Limit(sys));
    if s.db.exec.nodes[e.node].status.Running? {
      ExhaustedKeepsTask(s.db.tables, e);
      ConcludeKeepsProtocol(sys, s1, e);
    } else {
      ConcludeKnown(Flow(sys), s1.db, e);
      assert s.ready + (set n | n in []) == s.ready;
    }
  }

  lemma ExhaustedKeepsTask(t: Tables, e: Event)
    requires e.attempt in t.attempts && e.task in t.tasks && e.outcome.Errored?
    ensures e.task in AfterExhausted(t, e.task, e.attempt, e.id, e.outcome.error).tasks
  {
  }

  lemma ConcludeKnown(w: Workflow, db: Db, e: Event)
    requires e.node in db.exec.nodes && Terminal(db.exec.nodes[e.node].status)
    ensures Conclude(w, db, e) == Ok((Decision(AlreadyKnown, []), db))
  {
  }

  lemma UsedMayGrow(sys: System, s: State, more: set<Uuid>)
    requires ValidSystem(sys) && Inv(sys, s)
    ensures Inv(sys, s.(used := s.used + more))
  {
    hide ExecPart, ReadyPart, TaskPart, Ledger, ValuePart, RetryPart, LeasePart, AllDescribe, RunsDescribe, OutboxDescribes;
  }

  lemma ProcessFailureKeepsInv(sys: System, s: State, e: Event, next: Uuid)
    requires ValidSystem(sys) && Inv(sys, s) && e in s.recorded && e.outcome.Errored? && next !in s.used
    requires ProcessResult(sys, s, e, next).Ok?
    ensures Inv(sys, AfterProcess(sys, s, e, next))
  {
    hide Inv, Conclude, AfterExhausted, AfterRetry, Process;
    EventBelongs(sys, s, e);
    ProcessFailure(sys, s, e, next);
    assert s.ready + (set n | n in []) == s.ready;
    if s.db.tables.attempts[e.attempt].failureEvent.Some? {
      UsedMayGrow(sys, s, {next});
    } else if e.number < Limit(sys) {
      RetryIsFailureRecord(sys, s, e, next, RetryTime(sys, s, e));
      var t' := AfterRetry(s.db.tables, e.task, e.attempt, e.id, e.outcome.error, next, RetryTime(sys, s, e));
      FailureRecordKeepsInv(sys, s, t', e, next);
    } else {
      ProcessExhausted(sys, s, e, next);
    }
  }

  lemma ProcessSuccessKeepsInv(sys: System, s: State, e: Event, next: Uuid)
    requires ValidSystem(sys) && Inv(sys, s) && e in s.recorded && e.outcome.Succeeded?
    requires ProcessResult(sys, s, e, next).Ok?
    ensures Inv(sys, AfterProcess(sys, s, e, next))
  {
    hide Inv, Conclude, Process;
    EventBelongs(sys, s, e);
    ProcessSuccess(sys, s, e, next);
    UsedMayGrow(sys, s, {next});
    if s.db.exec.nodes[e.node].status.Running? {
      ConcludeKeepsProtocol(sys, s.(used := s.used + {next}), e);
    } else {
      assert s.ready + (set n | n in []) == s.ready;
    }
  }

  lemma DeliveredIsRecorded(sys: System, s: State, e: Event)
    requires ValidSystem(sys) && Inv(sys, s) && e in s.completions
    ensures e in s.recorded
  {
  }

  lemma ProcessKeepsInv(sys: System, s: State, e: Event, next: Uuid)
    requires ValidSystem(sys) && Inv(sys, s) && Enabled(sys, s, ProcessStep(e, next))
    ensures Inv(sys, AfterProcess(sys, s, e, next))
  {
    hide Inv, Process;
    DeliveredIsRecorded(sys, s, e);
    if e.outcome.Succeeded? {
      ProcessSuccessKeepsInv(sys, s, e, next);
    } else {
      ProcessFailureKeepsInv(sys, s, e, next);
    }
  }
}
