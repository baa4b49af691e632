/** The invariant of the whole protocol, as a conjunction of named parts. */
module ProtocolInvariants {
  import opened Wrappers
  import opened JsonValues
  import opened Definitions
  import opened TaskTables
  import opened AttemptLedger
  import opened ExecutionTables
  import opened ExecutionInvariants
  import opened Protocol
  import opened Dataflow

  ghost function Limit(sys: System): int { sys.settings.policy.maxAttempts }

  ghost function Flow(sys: System): Workflow { sys.settings.workflow }

  // ---------- Execution ----------

  ghost predicate ExecPart(sys: System, x: Execution) {
    ExecutionInv(Flow(sys), x) && x.id == sys.execution
  }

  ghost predicate LoadOk(sys: System, x: Execution, l: Load) {
    && l.node.id in Ids(Flow(sys)) && l.node == NodeOf(Flow(sys), l.node.id)
    && DependenciesCompleted(Flow(sys), x.nodes, l.node.id) && l.input == x.input
  }

  // Whatever waits to be dispatched has completed dependencies.
  ghost predicate ReadyPart(sys: System, x: Execution, triggered: bool, ready: set<string>, loaded: set<Load>) {
    && (forall n :: n in ready ==> DependenciesCompleted(Flow(sys), x.nodes, n))
    && (forall l :: l in loaded ==> LoadOk(sys, x, l))
    && (x.status.Pending? ==> x.outbox == [] && !triggered && ready == {} && loaded == {})
  }

  // ---------- Nodes and tasks ----------

  function TaskOf(x: Execution, n: string): TaskId { CreateTaskId(x.id, n) }

  // The last permitted attempt of a task has failed.
  ghost predicate Spent(t: Tables, task: TaskId, max: int) {
    exists a :: a in t.attempts && t.attempts[a].task == task && t.attempts[a].number == max && t.attempts[a].failureEvent.Some?
  }

  ghost predicate FailedDependencyOf(w: Workflow, nodes: map<string, NodeRow>, n: string)
    requires n in Ids(w)
  {
    exists d :: d in DepsOf(w, n) && d in nodes && nodes[d].status.Failed?
  }

  // Which nodes have a task, and why a node has failed.
  ghost predicate TaskOk(sys: System, x: Execution, t: Tables, n: string)
    requires n in Ids(Flow(sys)) && n in x.nodes
  {
    match x.nodes[n].status
    case Pending => TaskOf(x, n) !in t.tasks
    case Running | Completed => TaskOf(x, n) in t.tasks
    case Failed =>
      if TaskOf(x, n) in t.tasks then Spent(t, TaskOf(x, n), Limit(sys)) else FailedDependencyOf(Flow(sys), x.nodes, n)
  }

  ghost predicate TaskPart(sys: System, x: Execution, t: Tables) {
    && x.nodes.Keys == Ids(Flow(sys))
    && (forall k :: k in t.tasks ==> k.execution == x.id && k.node in Ids(Flow(sys)))
    && (forall n :: n in Ids(Flow(sys)) ==> TaskOk(sys, x, t, n))
  }

  // ---------- Messages and events ----------

  /** A task message describes an existing attempt exactly. */
  ghost predicate Describes(t: Tables, m: TaskMessage) {
    m.attempt in t.attempts && t.attempts[m.attempt].task in t.tasks && MessageFor(t, m.attempt) == m
  }

  ghost predicate AllDescribe(t: Tables, messages: set<TaskMessage>) {
    forall m :: m in messages ==> Describes(t, m)
  }

  ghost predicate RunsDescribe(t: Tables, running: set<Run>) {
    forall r :: r in running ==> Describes(t, r.message)
  }

  ghost predicate OutboxDescribes(t: Tables, outbox: seq<OutboxMessage>) {
    forall i :: 0 <= i < |outbox| && outbox[i].body.TaskQueued? ==> Describes(t, outbox[i].body.message)
  }

  ghost predicate MessagePart(s: State) {
    && AllDescribe(s.db.tables, s.tasks) && AllDescribe(s.db.tables, s.due) && AllDescribe(s.db.tables, s.replaying)
    && RunsDescribe(s.db.tables, s.running) && OutboxDescribes(s.db.tables, s.db.exec.outbox)
  }

  ghost predicate EventPart(s: State) {
    s.completions <= s.recorded && s.unpublished <= s.recorded
  }

  ghost predicate FreshPart(t: Tables, recorded: set<Event>, used: set<Uuid>) {
    && (forall a :: a in t.attempts ==> a in used)
    && (forall e :: e in recorded ==> e.id in used)
  }

  // ---------- Values ----------

  ghost predicate TaskValue(sys: System, input: map<string, Json>, k: TaskId, row: TaskRow)
    requires WellFormed(Flow(sys))
  {
    && k.node in Ids(Flow(sys))
    && var node := NodeOf(Flow(sys), k.node);
    && EvalInput(sys, input, k.node) == Some(row.input) && row.handler == node.handler && row.config == node.config
  }

  ghost predicate HasValue(sys: System, input: map<string, Json>, n: string, v: Json)
    requires WellFormed(Flow(sys))
  {
    n in Ids(Flow(sys)) && Eval(sys, input, n) == Some(v)
  }

  ghost predicate TaskValues(sys: System, input: map<string, Json>, t: Tables)
    requires WellFormed(Flow(sys))
  {
    forall k :: k in t.tasks ==> TaskValue(sys, input, k, t.tasks[k])
  }

  ghost predicate EventValues(sys: System, input: map<string, Json>, recorded: set<Event>)
    requires WellFormed(Flow(sys))
  {
    forall e :: e in recorded && e.outcome.Succeeded? ==> HasValue(sys, input, e.node, e.outcome.output)
  }

  ghost predicate NodeValues(sys: System, input: map<string, Json>, nodes: map<string, NodeRow>)
    requires WellFormed(Flow(sys))
  {
    forall n :: n in nodes && nodes[n].status.Completed? ==> HasValue(sys, input, n, nodes[n].output)
  }

  /** Inputs of tasks, outputs of recorded successes and outputs of completed nodes are the values
      of the recursive evaluation. */
  ghost predicate ValuePart(sys: System, x: Execution, t: Tables, recorded: set<Event>)
    requires WellFormed(Flow(sys))
  {
    TaskValues(sys, x.input, t) && EventValues(sys, x.input, recorded) && NodeValues(sys, x.input, x.nodes)
  }

  // ---------- Retries ----------

  /** A retry that no longer waits in the dispatch table has been put on the task stream. */
  ghost predicate RetryPart(t: Tables, tasks: set<TaskMessage>) {
    forall a :: (a in t.attempts && t.attempts[a].number > 1 && t.attempts[a].task in t.tasks
                 && !t.attempts[a].status.Scheduled?) ==> MessageFor(t, a) in tasks
  }

  // ---------- Leases ----------

  // A claim without an expiry time lasts for ever.
  predicate ExpiryAtLeast(expiry: Option<Time>, t: Time) {
    expiry.None? || expiry.value >= t
  }

  ghost predicate LeaseOk(t: Tables, now: Time, l: Lease, expiry: Time) {
    expiry > now ==>
      && l.attempt in t.attempts
      && t.attempts[l.attempt].claimedBy == Some(l.worker)
      && ExpiryAtLeast(t.attempts[l.attempt].claimExpiresAt, expiry)
  }

  ghost predicate ClaimBounded(sys: System, now: Time, a: AttemptRow) {
    a.claimedBy.Some? && a.claimExpiresAt.Some? ==> a.claimExpiresAt.value <= now + sys.lease(a.claimedBy.value)
  }

  /** A worker that believes to hold an unexpired claim is the one the row names. */
  ghost predicate LeasePart(sys: System, t: Tables, now: Time, leases: map<Lease, Time>) {
    && (forall l :: l in leases ==> LeaseOk(t, now, l, leases[l]))
    && (forall a :: a in t.attempts ==> ClaimBounded(sys, now, t.attempts[a]))
  }

  ghost predicate Inv(sys: System, s: State)
    requires WellFormed(Flow(sys))
  {
    && ExecPart(sys, s.db.exec)
    && ReadyPart(sys, s.db.exec, s.triggered, s.ready, s.loaded)
    && TaskPart(sys, s.db.exec, s.db.tables)
    && Ledger(s.db.tables, s.recorded, Limit(sys))
    && MessagePart(s) && EventPart(s)
    && FreshPart(s.db.tables, s.recorded, s.used)
    && ValuePart(sys, s.db.exec, s.db.tables, s.recorded)
    && RetryPart(s.db.tables, s.tasks)
    && LeasePart(sys, s.db.tables, s.now, s.leases)
  }

  lemma InitInv(sys: System, s: State)
    requires ValidSystem(sys) && Init(sys, s)
    ensures Inv(sys, s)
  {
    SubmittedInv(Flow(sys), sys.execution);
    hide ExecutionInv;
    var none: map<TaskId, seq<Uuid>> := map[];
    assert Chain(s.db.tables, Limit(sys), none);
  }

  // ---------- Growth of the task tables ----------

  /** Rows are never deleted, and what identifies an attempt or a task never changes. */
  ghost predicate Grows(t: Tables, t': Tables) {
    && (forall a :: a in t.attempts ==>
          && a in t'.attempts && t'.attempts[a].task == t.attempts[a].task
          && t'.attempts[a].number == t.attempts[a].number
          && (t.attempts[a].failureEvent.Some? ==> t'.attempts[a].failureEvent == t.attempts[a].failureEvent))
    && (forall k :: k in t.tasks ==>
          && k in t'.tasks
          && t'.tasks[k] == t.tasks[k].(status := t'.tasks[k].status, finalError := t'.tasks[k].finalError))
  }

  lemma GrowsKeepsDescribes(t: Tables, t': Tables, m: TaskMessage)
    requires Grows(t, t') && Describes(t, m)
    ensures Describes(t', m)
  {
  }

  lemma GrowsKeepsSpent(t: Tables, t': Tables, k: TaskId, max: int)
    requires Grows(t, t') && Spent(t, k, max)
    ensures Spent(t', k, max)
  {
    var a :| a in t.attempts && t.attempts[a].task == k && t.attempts[a].number == max && t.attempts[a].failureEvent.Some?;
    assert a in t'.attempts;
  }

  lemma ClaimGrows(t: Tables, m: TaskMessage, worker: Worker, at: Time, expiresAt: Time)
    requires ClaimAttempt(t, m, worker, at, expiresAt).Ok?
    ensures Grows(t, ClaimAttempt(t, m, worker, at, expiresAt).value.1)
  {
  }

  lemma WorkerGrows(t: Tables, e: Event, a: Uuid, worker: Worker, expiresAt: Time)
    ensures RecordResult(t, e).Ok? ==> Grows(t, RecordResult(t, e).value)
    ensures MarkCompleted(t, a).Ok? ==> Grows(t, MarkCompleted(t, a).value)
    ensures Grows(t, RenewClaim(t, a, worker, expiresAt).1)
    ensures Grows(t, MarkRetryPublished(t, a).1)
  {
  }

  lemma RecordFailureGrows(t: Tables, rec: set<Event>, e: Event, max: int, retryAt: Time, next: Uuid)
    requires Coherent(t, rec) && e in rec && e.outcome.Errored? && next !in t.attempts
    requires RecordFailure(t, e.task, e.attempt, e.id, e.outcome.error, max, retryAt, next).Ok?
    ensures Grows(t, RecordFailure(t, e.task, e.attempt, e.id, e.outcome.error, max, retryAt, next).value.1)
  {
    hide Coherent, FailureKnown, FailureIsNews, Belongs;
    FailureNews(t, rec, e);
    if t.attempts[e.attempt].failureEvent.None? {
      hide Grows;
      AfterRetryGrows(t, e, next, retryAt);
      AfterExhaustedGrows(t, e);
    }
  }

  lemma AfterRetryGrows(t: Tables, e: Event, next: Uuid, retryAt: Time)
    requires e.outcome.Errored? && e.task in t.tasks && e.attempt in t.attempts && next !in t.attempts
    requires t.attempts[e.attempt].failureEvent.None?
    ensures Grows(t, AfterRetry(t, e.task, e.attempt, e.id, e.outcome.error, next, retryAt))
  {
  }

  lemma AfterExhaustedGrows(t: Tables, e: Event)
    requires e.outcome.Errored? && e.task in t.tasks && e.attempt in t.attempts
    requires t.attempts[e.attempt].failureEvent.None?
    ensures Grows(t, AfterExhausted(t, e.task, e.attempt, e.id, e.outcome.error))
  {
  }
}
