/** Steps that change only the task tables: the worker's transactions and the marking of
    published retries. */
module WorkerSteps {
  import JsonValues
  import opened Definitions
  import opened TaskTables
  import opened AttemptLedger
  import opened ExecutionTables
  import opened Protocol
  import opened ProtocolInvariants

  // ---------- Parts that survive any growth of the tables ----------

  lemma GrowsKeepsMessages(t: Tables, t': Tables, messages: set<TaskMessage>)
    requires Grows(t, t') && AllDescribe(t, messages)
    ensures AllDescribe(t', messages)
  {
    forall m | m in messages ensures Describes(t', m) {
      GrowsKeepsDescribes(t, t', m);
    }
  }

  lemma GrowsKeepsRuns(t: Tables, t': Tables, running: set<Run>)
    requires Grows(t, t') && RunsDescribe(t, running)
    ensures RunsDescribe(t', running)
  {
    forall r | r in running ensures Describes(t', r.message) {
      GrowsKeepsDescribes(t, t', r.message);
    }
  }

  lemma GrowsKeepsOutbox(t: Tables, t': Tables, outbox: seq<OutboxMessage>)
    requires Grows(t, t') && OutboxDescribes(t, outbox)
    ensures OutboxDescribes(t', outbox)
  {
    forall i | 0 <= i < |outbox| && outbox[i].body.TaskQueued? ensures Describes(t', outbox[i].body.message) {
      GrowsKeepsDescribes(t, t', outbox[i].body.message);
    }
  }

  lemma GrowsKeepsTaskPart(sys: System, x: Execution, t: Tables, t': Tables)
    requires Grows(t, t') && t'.tasks.Keys == t.tasks.Keys && TaskPart(sys, x, t)
    ensures TaskPart(sys, x, t')
  {
    forall n | n in Ids(Flow(sys)) ensures TaskOk(sys, x, t', n) {
      assert TaskOk(sys, x, t, n);
      if x.nodes[n].status.Failed? && TaskOf(x, n) in t.tasks {
        GrowsKeepsSpent(t, t', TaskOf(x, n), Limit(sys));
      }
    }
  }

  lemma GrowsKeepsTaskValues(sys: System, t: Tables, t': Tables, x: Execution)
    requires WellFormed(Flow(sys)) && Grows(t, t') && t'.tasks.Keys == t.tasks.Keys && TaskValues(sys, x.input, t)
    ensures TaskValues(sys, x.input, t')
  {
    forall k | k in t'.tasks ensures TaskValue(sys, x.input, k, t'.tasks[k]) {
      assert TaskValue(sys, x.input, k, t.tasks[k]);
    }
  }

  /** A change of one attempt row that leaves the other tables alone. */
  ghost predicate RowChange(t: Tables, t': Tables, id: Uuid) {
    && id in t.attempts && t'.tasks == t.tasks && t'.attempts.Keys == t.attempts.Keys
    && forall a :: a in t.attempts && a != id ==> t'.attempts[a] == t.attempts[a]
  }

  lemma RowChangeKeepsRetries(t: Tables, t': Tables, id: Uuid, tasks: set<TaskMessage>)
    requires RowChange(t, t', id) && Grows(t, t') && RetryPart(t, tasks)
    requires !t.attempts[id].status.Scheduled? || (id in t.attempts && t.attempts[id].task in t.tasks && MessageFor(t, id) in tasks)
    ensures RetryPart(t', tasks)
  {
  }

  lemma RowChangeKeepsLeases(sys: System, t: Tables, t': Tables, id: Uuid, now: Time, leases: map<Lease, Time>, leases': map<Lease, Time>)
    requires RowChange(t, t', id) && LeasePart(sys, t, now, leases)
    requires ClaimBounded(sys, now, t'.attempts[id])
    requires forall l :: l in leases' && (l.attempt == id || l !in leases || leases'[l] != leases[l]) ==> LeaseOk(t', now, l, leases'[l])
    ensures LeasePart(sys, t', now, leases')
  {
    forall l | l in leases' ensures LeaseOk(t', now, l, leases'[l]) {
      if l.attempt != id && l in leases && leases'[l] == leases[l] {
        assert LeaseOk(t, now, l, leases[l]);
      }
    }
  }

  /** Everything but the ledger and the leases follows from the change being confined to one row. */
  lemma TableStepKeepsInv(sys: System, s: State, s': State, id: Uuid)
    requires ValidSystem(sys) && Inv(sys, s)
    requires s' == s.(db := s.db.(tables := s'.db.tables), used := s'.used, running := s'.running,
                      unpublished := s'.unpublished, recorded := s'.recorded, leases := s'.leases)
    requires Grows(s.db.tables, s'.db.tables) && RowChange(s.db.tables, s'.db.tables, id)
    requires s.recorded <= s'.recorded && s.used <= s'.used && s.running <= s'.running && s'.unpublished <= s'.recorded
    requires forall r :: r in s'.running - s.running ==> r.message in s.tasks
    requires EventValues(sys, s.db.exec.input, s'.recorded)
    requires forall e :: e in s'.recorded - s.recorded ==> e.id in s'.used
    requires !s.db.tables.attempts[id].status.Scheduled?
             || (s.db.tables.attempts[id].task in s.db.tables.tasks && MessageFor(s.db.tables, id) in s.tasks)
    requires Ledger(s'.db.tables, s'.recorded, Limit(sys))
    requires LeasePart(sys, s'.db.tables, s'.now, s'.leases)
    ensures Inv(sys, s')
  {
    hide ExecPart, ReadyPart, Ledger, LeasePart, NodeValues, EventValues, TaskPart, TaskValues, RetryPart,
         Grows, AllDescribe, Describes, OutboxDescribes, RunsDescribe;
    var t, t' := s.db.tables, s'.db.tables;
    GrowsKeepsMessages(t, t', s.tasks);
    GrowsKeepsMessages(t, t', s.due);
    GrowsKeepsMessages(t, t', s.replaying);
    NewRunsDescribe(t, s.tasks, s.running, s'.running);
    GrowsKeepsRuns(t, t', s'.running);
    GrowsKeepsOutbox(t, t', s.db.exec.outbox);
    GrowsKeepsTaskPart(sys, s.db.exec, t, t');
    GrowsKeepsTaskValues(sys, t, t', s.db.exec);
    RowChangeKeepsRetries(t, t', id, s.tasks);
  }

  lemma NewRunsDescribe(t: Tables, tasks: set<TaskMessage>, running: set<Run>, running': set<Run>)
    requires AllDescribe(t, tasks) && RunsDescribe(t, running) && running <= running'
    requires forall r :: r in running' - running ==> r.message in tasks
    ensures RunsDescribe(t, running')
  {
  }

  // ---------- Leases ----------

  lemma ClaimKeepsLeases(sys: System, s: State, worker: Worker, m: TaskMessage)
    requires ValidSystem(sys) && LeasePart(sys, s.db.tables, s.now, s.leases)
    requires ClaimResult(sys, s, worker, m).Ok? && ClaimResult(sys, s, worker, m).value.0.ClaimGranted?
    ensures var s' := AfterClaim(sys, s, worker, m); LeasePart(sys, s'.db.tables, s'.now, s'.leases)
  {
    var s' := AfterClaim(sys, s, worker, m);
    forall l | l in s'.leases && (l.attempt == m.attempt || l !in s.leases || s'.leases[l] != s.leases[l])
      ensures LeaseOk(s'.db.tables, s.now, l, s'.leases[l])
    {
      if l != Lease(worker, m.attempt) {
        assert LeaseOk(s.db.tables, s.now, l, s.leases[l]);
      }
    }
    RowChangeKeepsLeases(sys, s.db.tables, s'.db.tables, m.attempt, s.now, s.leases, s'.leases);
  }

  lemma RenewKeepsLeases(sys: System, s: State, run: Run)
    requires ValidSystem(sys) && LeasePart(sys, s.db.tables, s.now, s.leases)
    requires RenewClaim(s.db.tables, run.message.attempt, run.worker, s.now + sys.lease(run.worker)).0
    ensures var s' := AfterRenew(sys, s, run); LeasePart(sys, s'.db.tables, s'.now, s'.leases)
  {
    var s' := AfterRenew(sys, s, run);
    var id := run.message.attempt;
    assert ClaimBounded(sys, s.now, s.db.tables.attempts[id]);
    forall l | l in s'.leases && (l.attempt == id || l !in s.leases || s'.leases[l] != s.leases[l])
      ensures LeaseOk(s'.db.tables, s.now, l, s'.leases[l])
    {
      if l != Lease(run.worker, id) {
        assert LeaseOk(s.db.tables, s.now, l, s.leases[l]);
      }
    }
    RowChangeKeepsLeases(sys, s.db.tables, s'.db.tables, id, s.now, s.leases, s'.leases);
  }

  // A change that keeps the claimant and does not shorten the claim keeps the leases.
  lemma SameClaimKeepsLeases(sys: System, t: Tables, t': Tables, id: Uuid, now: Time, leases: map<Lease, Time>)
    requires RowChange(t, t', id) && LeasePart(sys, t, now, leases)
    requires t'.attempts[id].claimedBy == t.attempts[id].claimedBy
    requires t'.attempts[id].claimExpiresAt == t.attempts[id].claimExpiresAt || t'.attempts[id].claimExpiresAt.None?
    ensures LeasePart(sys, t', now, leases)
  {
    assert ClaimBounded(sys, now, t.attempts[id]);
    forall l | l in leases && l.attempt == id ensures LeaseOk(t', now, l, leases[l]) {
      assert LeaseOk(t, now, l, leases[l]);
    }
    RowChangeKeepsLeases(sys, t, t', id, now, leases, leases);
  }

  // ---------- The steps ----------

  lemma ClaimKeepsInv(sys: System, s: State, worker: Worker, m: TaskMessage)
    requires ValidSystem(sys) && Inv(sys, s) && m in s.tasks && ClaimResult(sys, s, worker, m).Ok?
    ensures Inv(sys, AfterClaim(sys, s, worker, m))
  {
    DeliveredDescribes(sys, s, m);
    var outcome := ClaimResult(sys, s, worker, m).value.0;
    if outcome.ClaimGranted? {
      hide Inv, AfterClaim, ClaimResult, Describes, ValidSystem;
      GrantKeepsInv(sys, s, worker, m);
    } else {
      hide ExecPart, ReadyPart, TaskPart, Ledger, ValuePart, RetryPart, LeasePart, RunsDescribe, OutboxDescribes, AllDescribe,
           ClaimAttempt, Describes;
      NewMessageDescribes(s.db.tables, s.replaying, m);
    }
  }

  lemma GrantKeepsInv(sys: System, s: State, worker: Worker, m: TaskMessage)
    requires ValidSystem(sys) && Inv(sys, s) && m in s.tasks && Describes(s.db.tables, m) && ClaimResult(sys, s, worker, m).Ok?
    requires ClaimResult(sys, s, worker, m).value.0.ClaimGranted?
    ensures Inv(sys, AfterClaim(sys, s, worker, m))
  {
    hide ExecPart, ReadyPart, TaskPart, Ledger, ValuePart, RetryPart, LeasePart, MessagePart, Grows, EventValues;
    ClaimKeepsLeases(sys, s, worker, m);
    ClaimKeepsLedger(s.db.tables, s.recorded, Limit(sys), m, worker, s.now, s.now + sys.lease(worker));
    ValuesOfEvents(sys, s);
    ClaimGrows(s.db.tables, m, worker, s.now, s.now + sys.lease(worker));
    ClaimIsRowChange(s.db.tables, m, worker, s.now, s.now + sys.lease(worker));
    TableStepKeepsInv(sys, s, AfterClaim(sys, s, worker, m), m.attempt);
  }

  lemma NewMessageDescribes(t: Tables, messages: set<TaskMessage>, m: TaskMessage)
    requires AllDescribe(t, messages) && Describes(t, m)
    ensures AllDescribe(t, messages + {m})
  {
  }

  lemma DeliveredDescribes(sys: System, s: State, m: TaskMessage)
    requires ValidSystem(sys) && Inv(sys, s) && m in s.tasks
    ensures Describes(s.db.tables, m)
  {
    hide ExecPart, ReadyPart, TaskPart, Ledger, ValuePart, RetryPart, LeasePart, RunsDescribe, OutboxDescribes, Describes;
  }

  lemma ClaimIsRowChange(t: Tables, m: TaskMessage, worker: Worker, at: Time, expiresAt: Time)
    requires var r := ClaimAttempt(t, m, worker, at, expiresAt); r.Ok? && r.value.0.ClaimGranted?
    ensures RowChange(t, ClaimAttempt(t, m, worker, at, expiresAt).value.1, m.attempt)
  {
  }

  lemma RecordIsRowChange(t: Tables, e: Event)
    requires RecordResult(t, e).Ok?
    ensures var t' := RecordResult(t, e).value;
            && RowChange(t, t', e.attempt) && !t.attempts[e.attempt].status.Scheduled?
            && t'.attempts[e.attempt].claimedBy == t.attempts[e.attempt].claimedBy
            && t'.attempts[e.attempt].claimExpiresAt == t.attempts[e.attempt].claimExpiresAt
  {
  }

  lemma ValuesOfEvents(sys: System, s: State)
    requires ValidSystem(sys) && Inv(sys, s)
    ensures EventValues(sys, s.db.exec.input, s.recorded)
  {
  }

  lemma RenewKeepsInv(sys: System, s: State, run: Run)
    requires ValidSystem(sys) && Inv(sys, s) && run in s.running
    ensures Inv(sys, AfterRenew(sys, s, run))
  {
    hide ExecPart, ReadyPart, TaskPart, Ledger, ValuePart, RetryPart, LeasePart, RunsDescribe, OutboxDescribes, Grows, AllDescribe;
    var expiry := s.now + sys.lease(run.worker);
    if RenewClaim(s.db.tables, run.message.attempt, run.worker, expiry).0 {
      RenewKeepsLedger(s.db.tables, s.recorded, Limit(sys), run.message.attempt, run.worker, expiry);
      WorkerGrows(s.db.tables, EventOf(run.message, 0, Succeeded(JsonValues.Null)), run.message.attempt, run.worker, expiry);
      RenewKeepsLeases(sys, s, run);
      ValuesOfEvents(sys, s);
      TableStepKeepsInv(sys, s, AfterRenew(sys, s, run), run.message.attempt);
    }
  }

  lemma MarkCompletedKeepsInv(sys: System, s: State, e: Event)
    requires ValidSystem(sys) && Inv(sys, s) && MarkCompleted(s.db.tables, e.attempt).Ok?
    ensures Inv(sys, WithTables(s, MarkCompleted(s.db.tables, e.attempt).value))
  {
    hide ExecPart, ReadyPart, TaskPart, Ledger, ValuePart, RetryPart, LeasePart, RunsDescribe, OutboxDescribes, Grows, AllDescribe;
    var t' := MarkCompleted(s.db.tables, e.attempt).value;
    MarkCompletedKeepsLedger(s.db.tables, s.recorded, Limit(sys), e.attempt);
    WorkerGrows(s.db.tables, e, e.attempt, "", 0.0);
    SameClaimKeepsLeases(sys, s.db.tables, t', e.attempt, s.now, s.leases);
    ValuesOfEvents(sys, s);
    TableStepKeepsInv(sys, s, WithTables(s, t'), e.attempt);
  }

  /** What a handler returns for a task is the value of the node. */
  lemma RecordedOutputIsValue(sys: System, x: Execution, t: Tables, m: TaskMessage)
    requires ValidSystem(sys) && TaskValues(sys, x.input, t) && Describes(t, m)
    requires forall k :: k in t.tasks ==> t.tasks[k].node == k.node
    ensures HasValue(sys, x.input, m.node, sys.handler(m.handler, m.config, m.input))
  {
    assert TaskValue(sys, x.input, m.task, t.tasks[m.task]);
  }

  lemma RecordKeepsInv(sys: System, s: State, run: Run, outcome: Outcome, id: Uuid)
    requires ValidSystem(sys) && Inv(sys, s) && Enabled(sys, s, RecordStep(run, outcome, id))
    ensures Inv(sys, AfterRecord(s, EventOf(run.message, id, outcome)))
  {
    hide ExecPart, ReadyPart, TaskPart, RetryPart, LeasePart, OutboxDescribes, Grows, AllDescribe, TaskValues, HasValue, Chained, RetryRows;
    var m := run.message;
    var e := EventOf(m, id, outcome);
    var t' := RecordResult(s.db.tables, e).value;
    assert Describes(s.db.tables, m);
    if outcome.Succeeded? {
      RecordedOutputIsValue(sys, s.db.exec, s.db.tables, m);
    }
    assert EventValues(sys, s.db.exec.input, s.recorded + {e});
    hide MessagePart, RecordResult, RowChange, RunsDescribe, Coherent, EventValues, Describes;
    RecordIsRowChange(s.db.tables, e);
    RecordResultKeepsLedger(s.db.tables, s.recorded, Limit(sys), e);
    WorkerGrows(s.db.tables, e, e.attempt, "", 0.0);
    SameClaimKeepsLeases(sys, s.db.tables, t', e.attempt, s.now, s.leases);
    TableStepKeepsInv(sys, s, AfterRecord(s, e), e.attempt);
  }

  lemma MarkRetryKeepsInv(sys: System, s: State, m: TaskMessage)
    requires ValidSystem(sys) && Inv(sys, s) && m in s.tasks
    ensures Inv(sys, WithTables(s, MarkRetryPublished(s.db.tables, m.attempt).1))
  {
    hide ExecPart, ReadyPart, TaskPart, Ledger, ValuePart, RetryPart, LeasePart, RunsDescribe, OutboxDescribes, Grows;
    var t' := MarkRetryPublished(s.db.tables, m.attempt).1;
    assert Describes(s.db.tables, m);
    MarkRetryPublishedKeepsLedger(s.db.tables, s.recorded, Limit(sys), m.attempt);
    WorkerGrows(s.db.tables, EventOf(m, 0, Succeeded(JsonValues.Null)), m.attempt, "", 0.0);
    SameClaimKeepsLeases(sys, s.db.tables, t', m.attempt, s.now, s.leases);
    ValuesOfEvents(sys, s);
    TableStepKeepsInv(sys, s, WithTables(s, t'), m.attempt);
  }
}
