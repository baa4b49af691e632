/** Reachable states that contradict what one might expect of attempts and claims. The conditions
    under which the expectations hold are theorems of their own. */
module Anomalies {
  import opened Wrappers
  import opened JsonValues
  import opened Definitions
  import opened Traversal
  import opened TaskTables
  import opened AttemptLedger
  import opened RetryPolicies
  import opened ExecutionTables
  import opened Protocol
  import opened Dataflow
  import opened ProtocolInvariants
  import DispatchSteps
  import CompletionSteps
  import opened Runs
  import opened RetryWaits
  import opened Theorems
  import opened Adequacy

  // A node that can be started at once.
  ghost predicate Startable(sys: System, input: map<string, Json>, n: string)
    requires WellFormed(Flow(sys))
  {
    n in Ids(Flow(sys)) && DepsOf(Flow(sys), n) == [] && EvalInput(sys, input, n).Some?
  }

  lemma StartFirst(sys: System, input: map<string, Json>, n: string) returns (o: State, s: State, steps: seq<Step>, m: TaskMessage)
    requires ValidSystem(sys) && Startable(sys, input, n)
    ensures Path(sys, o, steps, s) && HasStarted(s, n, m)
  {
    hide Path, EvalInput, DispatchSteps.NodeClaimed, Calm, AllPast;
    var s0, steps0;
    o, s0, steps0 := Triggered(sys, input);
    ReadyAtFirst(sys, s0, n);
    var s1 := LoadNode(sys, o, steps0, s0, n);
    var s2, dispatch, attempt := StartNode(sys, o, steps0 + [LoadStep(n)], s1, n, EvalInput(sys, input, n).value);
    steps := steps0 + [LoadStep(n)] + [dispatch];
    s, m := SendTask(sys, o, steps, s2, s1, n, EvalInput(sys, input, n).value, attempt);
    steps := steps + [PublishOutboxStep(|s1.db.exec.outbox|)];
  }

  lemma ReadyAtFirst(sys: System, s: State, n: string)
    requires ValidSystem(sys) && Calm(sys, s) && n in Ids(Flow(sys)) && DepsOf(Flow(sys), n) == []
    requires n in s.db.exec.nodes && s.db.exec.nodes[n].status.Pending?
    ensures n in s.ready
  {
    ReadyById(Flow(sys), NodeStatuses(s.db.exec.nodes), n);
  }

  /** A row whose holder has reported a failure and whose claim lapses at the given time. */
  ghost predicate Reported(s: State, m: TaskMessage, f: Event, status: AttemptStatus, failure: Option<Uuid>, expiry: Time) {
    && m in s.tasks && f == EventOf(m, f.id, f.outcome) && f.outcome.Errored? && f in s.unpublished
    && m.task in s.db.tables.tasks
    && s.db.tables.tasks[m.task].execution == m.execution && s.db.tables.tasks[m.task].node == m.node
    && m.attempt in s.db.tables.attempts
    && var a := s.db.tables.attempts[m.attempt];
    && a.task == m.task && a.number == 1 && a.status == status && a.failureEvent == failure
    && a.claimedBy.Some? && a.claimExpiresAt == Some(expiry)
  }

  /** A worker fails, and a second one, to which the message was delivered meanwhile, holds a copy
      of the failure event to replay. */
  lemma FailOnce(sys: System, o: State, steps: seq<Step>, s: State, n: string, m: TaskMessage) returns (s': State, all: seq<Step>, f: Event)
    requires ValidSystem(sys) && Path(sys, o, steps, s) && HasStarted(s, n, m)
    ensures Path(sys, o, all, s') && f in s'.completions && s'.now == s.now
    ensures Reported(s', m, f, ResultRecorded, None, s.now + sys.lease("first"))
  {
    hide Path;
    var s1 := ClaimTask(sys, o, steps, s, n, m, "first");
    var steps1 := steps + [ClaimStep("first", m)];
    var id := FreshId(s1.used);
    var outcome := Errored(TaskError("", ""));
    f := EventOf(m, id, outcome);
    var record := RecordStep(Run("first", m), outcome, id);
    PathStep(sys, o, steps1, s1, record);
    var s2 := After(sys, s1, record);
    var s3 := Replays(sys, o, steps1 + [record], s2, m, f);
    all := steps1 + [record] + [ClaimStep("second", m)] + [ReplayStep(m)];
    PathStep(sys, o, all, s3, PublishCompletionStep(f));
    s', all := After(sys, s3, PublishCompletionStep(f)), all + [PublishCompletionStep(f)];
  }

  lemma Replays(sys: System, o: State, steps: seq<Step>, s: State, m: TaskMessage, f: Event) returns (s': State)
    requires Path(sys, o, steps, s) && m in s.tasks && m.attempt in s.db.tables.attempts
    requires ClaimResult(sys, s, "second", m) == Ok((ResultAvailable, s.db.tables))
    requires EventFromResult(m, s.db.tables.attempts[m.attempt]) == Ok(f)
    ensures Path(sys, o, steps + [ClaimStep("second", m)] + [ReplayStep(m)], s')
    ensures s' == s.(replaying := s'.replaying, unpublished := s.unpublished + {f})
  {
    hide Path, ClaimAttempt, EventFromResult;
    PathStep(sys, o, steps, s, ClaimStep("second", m));
    var s1 := After(sys, s, ClaimStep("second", m));
    PathStep(sys, o, steps + [ClaimStep("second", m)], s1, ReplayStep(m));
    s' := After(sys, s1, ReplayStep(m));
  }

  /** The orchestrator takes note of the failure and, below the limit, schedules a retry. */
  lemma NoteFailure(sys: System, o: State, steps: seq<Step>, s: State, m: TaskMessage, f: Event, expiry: Time)
    returns (s': State, all: seq<Step>, next: Uuid)
    requires ValidSystem(sys) && Path(sys, o, steps, s) && f in s.completions && Reported(s, m, f, ResultRecorded, None, expiry)
    requires m.number == 1
    ensures Path(sys, o, all, s') && s'.now == s.now && next != m.attempt
    ensures Reported(s', m, f, Broken, Some(f.id), expiry)
    ensures Limit(sys) >= 2 ==> Waits(sys, s', m, next, s.now + DelayFor(sys.settings.policy, 1))
  {
    hide Path, Inv, Process, Conclude, Reachable, DelayFor;
    PathIsReachable(sys, o, steps, s);
    ReachableInv(sys, s);
    CompletionSteps.DeliveredIsRecorded(sys, s, f);
    CompletionSteps.AttemptsAreUsed(sys, s);
    next := FreshId(s.used);
    CompletionSteps.ProcessFailure(sys, s, f, next);
    ExhaustedConcludes(sys, s, f);
    PathStep(sys, o, steps, s, ProcessStep(f, next));
    s', all := After(sys, s, ProcessStep(f, next)), steps + [ProcessStep(f, next)];
  }

  lemma ExhaustedConcludes(sys: System, s: State, f: Event)
    requires ValidSystem(sys) && Inv(sys, s) && f in s.recorded && f.outcome.Errored?
    requires f.attempt in s.db.tables.attempts && f.task in s.db.tables.tasks && f.node in s.db.exec.nodes
    ensures var r := Conclude(Flow(sys), s.db.(tables := AfterExhausted(s.db.tables, f.task, f.attempt, f.id, f.outcome.error)), f);
            r.Ok? && r.value.1.tables == AfterExhausted(s.db.tables, f.task, f.attempt, f.id, f.outcome.error)
  {
    hide Inv, AfterExhausted, Propagate, Finalize, ReadyIds;
    CompletionSteps.EventBelongs(sys, s, f);
  }

  /** A retry waits for its time. */
  ghost predicate Waits(sys: System, s: State, m: TaskMessage, next: Uuid, due: Time) {
    && next in s.db.tables.attempts && s.db.tables.attempts[next] == NewAttempt(m.task, 2, Scheduled)
    && next in s.db.tables.dispatches && s.db.tables.dispatches[next] == DispatchRow(due, false)
  }

  lemma Later(sys: System, o: State, steps: seq<Step>, s: State, time: Time) returns (s': State)
    requires Path(sys, o, steps, s) && time >= s.now
    ensures s' == s.(now := time) && Path(sys, o, steps + [TickStep(time)], s')
  {
    hide Path;
    PathStep(sys, o, steps, s, TickStep(time));
    s' := After(sys, s, TickStep(time));
  }

  /** The failed attempt is claimed again once the first claim has lapsed. */
  lemma ClaimAgain(sys: System, o: State, steps: seq<Step>, s: State, m: TaskMessage, f: Event, expiry: Time) returns (s': State)
    requires ValidSystem(sys) && Path(sys, o, steps, s) && Reported(s, m, f, Broken, Some(f.id), expiry) && s.now >= expiry
    ensures Path(sys, o, steps + [ClaimStep("third", m)], s')
    ensures s'.now == s.now && s'.used == s.used && s'.unpublished == s.unpublished && Run("third", m) in s'.running
    ensures s'.leases == s.leases[Lease("third", m.attempt) := s.now + sys.lease("third")]
    ensures m.attempt in s'.db.tables.attempts && s'.db.tables.attempts[m.attempt].status.Claimed?
    ensures s'.db.tables.attempts[m.attempt].failureEvent == Some(f.id) && s'.db.tables.attempts[m.attempt].task == m.task
    ensures s'.db.tables == s.db.tables.(attempts := s.db.tables.attempts[m.attempt := s'.db.tables.attempts[m.attempt]])
    ensures s'.tasks == s.tasks
  {
    hide Path;
    PathStep(sys, o, steps, s, ClaimStep("third", m));
    s' := After(sys, s, ClaimStep("third", m));
  }

  lemma FailedAndLapsed(sys: System, input: map<string, Json>, n: string)
    returns (o: State, s: State, steps: seq<Step>, m: TaskMessage, f: Event, next: Uuid, expiry: Time)
    requires ValidSystem(sys) && Startable(sys, input, n)
    ensures Path(sys, o, steps, s) && Reported(s, m, f, Broken, Some(f.id), expiry) && s.now >= expiry && next != m.attempt
    ensures m.node == n && (Limit(sys) >= 2 ==> exists at :: at <= s.now && Waits(sys, s, m, next, at))
  {
    hide Path, Startable, HasStarted, Reported, Waits, DelayFor;
    var s0, steps0;
    o, s0, steps0, m := StartFirst(sys, input, n);
    FirstNumber(s0, n, m);
    var s1, steps1, f1 := FailOnce(sys, o, steps0, s0, n, m);
    f := f1;
    expiry := s0.now + sys.lease("first");
    var s2, steps2, next2 := NoteFailure(sys, o, steps1, s1, m, f, expiry);
    next := next2;
    var at := s1.now + DelayFor(sys.settings.policy, 1);
    var time := Latest(Latest(expiry, at), s2.now);
    s := Later(sys, o, steps2, s2, time);
    steps := steps2 + [TickStep(time)];
    ReportedStays(s2, s, m, f, expiry);
    WaitsStays(sys, s2, s, m, next, at);
  }

  function Latest(a: Time, b: Time): (c: Time)
    ensures c >= a && c >= b
  {
    if a < b then b else a
  }

  lemma FirstNumber(s: State, n: string, m: TaskMessage)
    requires HasStarted(s, n, m)
    ensures m.number == 1 && m.node == n
  {
  }

  lemma ReportedStays(s: State, s': State, m: TaskMessage, f: Event, expiry: Time)
    requires Reported(s, m, f, Broken, Some(f.id), expiry) && s' == s.(now := s'.now)
    ensures Reported(s', m, f, Broken, Some(f.id), expiry)
  {
  }

  lemma WaitsStays(sys: System, s: State, s': State, m: TaskMessage, next: Uuid, at: Time)
    requires s' == s.(now := s'.now)
    ensures Waits(sys, s, m, next, at) ==> Waits(sys, s', m, next, at)
  {
  }

  /** In every system, for every node that can be started, there is a run in which the attempt has
      recorded a success and the publication of its earlier failure is still to come. */
  lemma FailureMayFollowSuccess(sys: System, input: map<string, Json>, n: string) returns (s: State, e: Event, f: Event)
    requires ValidSystem(sys) && Startable(sys, input, n)
    ensures Reachable(sys, s) && e in s.recorded && f in s.recorded && e.attempt == f.attempt && e.node == n
    ensures e.outcome.Succeeded? && f.outcome.Errored? && Enabled(sys, s, PublishCompletionStep(f))
  {
    hide Path, Reachable, Startable;
    var o, s0, steps, m, f0, next, expiry := FailedAndLapsed(sys, input, n);
    f := f0;
    var s1 := ClaimAgain(sys, o, steps, s0, m, f, expiry);
    var steps1 := steps + [ClaimStep("third", m)];
    var id := FreshId(s1.used);
    var outcome := Succeeded(sys.handler(m.handler, m.config, m.input));
    e := EventOf(m, id, outcome);
    var record := RecordStep(Run("third", m), outcome, id);
    PathStep(sys, o, steps1, s1, record);
    s := After(sys, s1, record);
    PathIsReachable(sys, o, steps1 + [record], s);
    HeldIsRecorded(sys, s, f);
  }

  lemma HeldIsRecorded(sys: System, s: State, f: Event)
    requires ValidSystem(sys) && Reachable(sys, s) && f in s.unpublished
    ensures f in s.recorded
  {
    hide Reachable;
    ReachableInv(sys, s);
  }

  // The holder of the claim has started the handler.
  ghost predicate Running(s: State, l: Lease) {
    exists m: TaskMessage :: m.attempt == l.attempt && Run(l.worker, m) in s.running
  }

  /** In every system that retries, two workers may hold unexpired claims on two attempts of one
      task and both run its handler: the failed attempt is delivered again while its retry runs. */
  lemma TaskMayRunTwice(sys: System, input: map<string, Json>, n: string) returns (s: State, l: Lease, k: Lease)
    requires ValidSystem(sys) && Startable(sys, input, n) && Limit(sys) >= 2
    ensures Reachable(sys, s) && l.worker != k.worker && l.attempt != k.attempt
    ensures l in s.leases && k in s.leases && s.leases[l] > s.now && s.leases[k] > s.now
    ensures l.attempt in s.db.tables.attempts && k.attempt in s.db.tables.attempts
    ensures s.db.tables.attempts[l.attempt].task == s.db.tables.attempts[k.attempt].task
    ensures s.db.tables.attempts[l.attempt].status.Claimed? && s.db.tables.attempts[k.attempt].status.Claimed?
    ensures Running(s, l) && Running(s, k)
  {
    hide Path, Reachable, Startable;
    var o, s0, steps, m, f, next, expiry := FailedAndLapsed(sys, input, n);
    var at :| at <= s0.now && Waits(sys, s0, m, next, at);
    var s1 := ClaimAgain(sys, o, steps, s0, m, f, expiry);
    var steps1 := steps + [ClaimStep("third", m)];
    var s2, steps2 := ClaimRetry(sys, o, steps1, s1, m, next, at);
    s, l, k := s2, Lease("third", m.attempt), Lease("fourth", next);
    assert Run("third", m) in s.running;
    PathIsReachable(sys, o, steps2, s);
  }

  /** Two attempts of one task are held at the same time. */
  ghost predicate TwoHeld(sys: System, s: State, l: Lease, k: Lease) {
    && Reachable(sys, s) && l in s.leases && k in s.leases && s.leases[l] > s.now && s.leases[k] > s.now
    && l.attempt != k.attempt && l.attempt in s.db.tables.attempts && k.attempt in s.db.tables.attempts
    && s.db.tables.attempts[l.attempt].task == s.db.tables.attempts[k.attempt].task
  }

  /** Claims are exclusive for a whole task exactly when tasks are not retried, or when no node can
      ever start. */
  lemma TaskHeldTwiceIffRetried(sys: System)
    requires ValidSystem(sys)
    ensures (exists s, l, k :: TwoHeld(sys, s, l, k)) <==> Limit(sys) >= 2 && exists input, n :: Startable(sys, input, n)
  {
    hide Reachable, Startable;
    if s, l, k :| TwoHeld(sys, s, l, k) {
      TwoAttemptsNeedTwo(sys, s, l.attempt, k.attempt);
      var n := TaskNeedsInput(sys, s, l.attempt);
      var root := SomeRootStarts(sys, s.db.exec.input, n);
    }
    if input, n :| Startable(sys, input, n) && Limit(sys) >= 2 {
      var s, l, k := TaskMayRunTwice(sys, input, n);
      assert TwoHeld(sys, s, l, k);
    }
  }

  lemma TaskNeedsInput(sys: System, s: State, a: Uuid) returns (n: string)
    requires ValidSystem(sys) && Reachable(sys, s) && a in s.db.tables.attempts
    ensures n in Ids(Flow(sys)) && EvalInput(sys, s.db.exec.input, n).Some?
  {
    hide Reachable, ReadyPart, TaskPart, ExecPart, RetryPart, LeasePart, Ledger, EvalInput;
    AttemptsBelong(sys, s, a);
    ReachableInv(sys, s);
    var k := s.db.tables.attempts[a].task;
    assert TaskValue(sys, s.db.exec.input, k, s.db.tables.tasks[k]);
    n := k.node;
  }

  // Where a node has an input, some node without dependencies has one.
  lemma {:induction false} SomeRootStarts(sys: System, input: map<string, Json>, n: string) returns (root: string)
    requires WellFormed(Flow(sys)) && n in Ids(Flow(sys)) && EvalInput(sys, input, n).Some?
    ensures Startable(sys, input, root)
    decreases NodeRank(Flow(sys), n)
  {
    var w := Flow(sys);
    if DepsOf(w, n) == [] {
      root := n;
    } else {
      var d := DepsOf(w, n)[0];
      DependencyDescends(w, n);
      assert d in DepsOf(w, n);
      assert Eval(sys, input, d).Some?;
      root := SomeRootStarts(sys, input, d);
    }
  }

  lemma TwoAttemptsNeedTwo(sys: System, s: State, a: Uuid, b: Uuid)
    requires ValidSystem(sys) && Reachable(sys, s) && a in s.db.tables.attempts && b in s.db.tables.attempts && a != b
    requires s.db.tables.attempts[a].task == s.db.tables.attempts[b].task
    ensures Limit(sys) >= 2
  {
    hide Reachable;
    var t, k := s.db.tables, s.db.tables.attempts[a].task;
    AttemptsBelong(sys, s, a);
    EarlierAttemptHasFailed(sys, s, a, b);
    var last := AttemptsFormAChain(sys, s, k);
    assert AttemptNumbered(t, k, t.attempts[a].number, a) && AttemptNumbered(t, k, t.attempts[b].number, b);
    assert HasAttempt(t, k, t.attempts[a].number) && HasAttempt(t, k, t.attempts[b].number);
  }

  /** The retry is read, sent and claimed. */
  lemma ClaimRetry(sys: System, o: State, steps: seq<Step>, s: State, m: TaskMessage, next: Uuid, at: Time) returns (s': State, all: seq<Step>)
    requires ValidSystem(sys) && Path(sys, o, steps, s) && Waits(sys, s, m, next, at) && at <= s.now && next != m.attempt
    requires m.task in s.db.tables.tasks
    requires s.db.tables.tasks[m.task].execution == m.execution && s.db.tables.tasks[m.task].node == m.node
    ensures Path(sys, o, all, s') && s'.now == s.now && s.running <= s'.running && Running(s', Lease("fourth", next))
    ensures s'.leases == s.leases[Lease("fourth", next) := s.now + sys.lease("fourth")]
    ensures next in s'.db.tables.attempts && s'.db.tables.attempts[next].status.Claimed? && s'.db.tables.attempts[next].task == m.task
    ensures forall a :: a in s.db.tables.attempts && a != next ==>
              a in s'.db.tables.attempts && s'.db.tables.attempts[a] == s.db.tables.attempts[a]
  {
    hide Path;
    var m2 := MessageFor(s.db.tables, next);
    assert DueRetry(s.db.tables, next, s.now);
    assert m2 in GetDueRetries(s.db.tables, s.now);
    PathStep(sys, o, steps, s, ReadRetriesStep);
    var s1 := After(sys, s, ReadRetriesStep);
    PathStep(sys, o, steps + [ReadRetriesStep], s1, PublishRetryStep(m2));
    var s2 := After(sys, s1, PublishRetryStep(m2));
    PathStep(sys, o, steps + [ReadRetriesStep] + [PublishRetryStep(m2)], s2, ClaimStep("fourth", m2));
    s' := After(sys, s2, ClaimStep("fourth", m2));
    assert Run("fourth", m2) in s'.running;
    all := steps + [ReadRetriesStep] + [PublishRetryStep(m2)] + [ClaimStep("fourth", m2)];
  }

  // ---------- Recording without holding the claim ----------

  // A handler fails, or returns what it computes.
  ghost predicate Possible(sys: System, m: TaskMessage, outcome: Outcome) {
    outcome.Succeeded? ==> outcome.output == sys.handler(m.handler, m.config, m.input)
  }

  /** In every system, for every node that can be started, a worker whose claim has lapsed may record
      its result while another one holds an unexpired claim: recording does not ask who it is. */
  lemma StaleWorkerMayRecord(sys: System, input: map<string, Json>, n: string) returns (s: State, stale: Run, holder: Lease, id: Uuid)
    requires ValidSystem(sys) && Startable(sys, input, n)
    ensures Reachable(sys, s) && holder in s.leases && s.leases[holder] > s.now
    ensures stale.worker != holder.worker && stale.message.attempt == holder.attempt && stale.message.node == n
    ensures holder.attempt in s.db.tables.attempts && s.db.tables.attempts[holder.attempt].claimedBy == Some(holder.worker)
    ensures forall outcome :: Possible(sys, stale.message, outcome) ==> Enabled(sys, s, RecordStep(stale, outcome, id))
  {
    hide Path, Reachable, Startable;
    var o, s0, steps, m := StartFirst(sys, input, n);
    var s1 := ClaimTask(sys, o, steps, s0, n, m, "first");
    steps := steps + [ClaimStep("first", m)];
    var time := s1.now + sys.lease("first");
    var s2 := Later(sys, o, steps, s1, time);
    steps := steps + [TickStep(time)];
    PathStep(sys, o, steps, s2, ClaimStep("second", m));
    s := After(sys, s2, ClaimStep("second", m));
    PathIsReachable(sys, o, steps + [ClaimStep("second", m)], s);
    stale, holder := Run("first", m), Lease("second", m.attempt);
    id := FreshId(s.used);
  }

  /** Step i grants the attempt to a worker. */
  ghost predicate Grants(sys: System, states: seq<State>, steps: seq<Step>, i: int, a: Uuid) {
    && 0 <= i < |steps| && i < |states| && steps[i].ClaimStep? && steps[i].message.attempt == a
    && ClaimResult(sys, states[i], steps[i].worker, steps[i].message).Ok?
    && ClaimResult(sys, states[i], steps[i].worker, steps[i].message).value.0.ClaimGranted?
  }

  // Only a grant changes who the row names.
  lemma GrantNames(sys: System, states: seq<State>, steps: seq<Step>, i: nat, a: Uuid)
    requires ValidSystem(sys) && IsRun(sys, states, steps) && i < |steps| && a in states[i].db.tables.attempts
    ensures a in states[i + 1].db.tables.attempts
    ensures states[i + 1].db.tables.attempts[a].claimedBy ==
            if Grants(sys, states, steps, i, a) then Some(steps[i].worker) else states[i].db.tables.attempts[a].claimedBy
  {
    hide IsRun, Inv, Enabled, After;
    RunLength(sys, states, steps);
    RunKeepsInv(sys, states, steps, i);
    RunEffect(sys, states, steps, i);
    GrantStep(sys, states, steps, i, a);
  }

  lemma GrantStep(sys: System, states: seq<State>, steps: seq<Step>, i: nat, a: Uuid)
    requires ValidSystem(sys) && i < |steps| && i + 1 < |states| && Inv(sys, states[i]) && Next(sys, states[i], steps[i], states[i + 1])
    requires a in states[i].db.tables.attempts && a in states[i + 1].db.tables.attempts
    ensures states[i + 1].db.tables.attempts[a].claimedBy ==
            if Grants(sys, states, steps, i, a) then Some(steps[i].worker) else states[i].db.tables.attempts[a].claimedBy
  {
    hide Inv, Dispatch, ProcessResult, Trigger, ReadyIds, GetDueRetries, EventFromResult;
    var s, step := states[i], steps[i];
    match step {
      case DispatchStep(load, attempt) => DispatchKeepsHolder(sys, s, load, attempt);
      case ProcessStep(e, next) => ProcessKeepsHolder(sys, s, e, next);
      case _ =>
    }
  }

  ghost predicate HoldersKept(t: Tables, t': Tables) {
    forall a :: a in t.attempts ==> a in t'.attempts && t'.attempts[a].claimedBy == t.attempts[a].claimedBy
  }

  lemma DispatchKeepsHolder(sys: System, s: State, load: Load, attempt: Uuid)
    requires ValidSystem(sys) && Inv(sys, s) && Enabled(sys, s, DispatchStep(load, attempt))
    ensures HoldersKept(s.db.tables, AfterDispatch(s, load, attempt).db.tables)
  {
    hide Inv, Claim, DispatchSteps.NodeClaimed;
    DispatchSteps.DispatchNeverFails(sys, s, load);
    var n, x := load.node.id, s.db.exec;
    if n in x.nodes && x.nodes[n].status.Pending? {
      var db' := AfterDispatch(s, load, attempt).db;
      var input :| db' == Claim(s.db, load.node, input, attempt);
      DispatchSteps.ClaimEffect(sys, s, load.node, input, attempt);
      StartKeepsHolder(x, db'.exec, s.db.tables, db'.tables, load.node, input, attempt);
    }
  }

  lemma StartKeepsHolder(x: Execution, x': Execution, t: Tables, t': Tables, node: Node, input: map<string, Json>, attempt: Uuid)
    requires DispatchSteps.NodeClaimed(x, x', t, t', node, input, attempt) && attempt !in t.attempts
    ensures HoldersKept(t, t')
  {
  }

  lemma ProcessKeepsHolder(sys: System, s: State, e: Event, next: Uuid)
    requires ValidSystem(sys) && Inv(sys, s) && Enabled(sys, s, ProcessStep(e, next))
    ensures HoldersKept(s.db.tables, AfterProcess(sys, s, e, next).db.tables)
  {
    hide Inv, Conclude, Process, AfterRetry, AfterExhausted;
    CompletionSteps.DeliveredIsRecorded(sys, s, e);
    CompletionSteps.AttemptsAreUsed(sys, s);
    if e.outcome.Succeeded? {
      CompletionSteps.ProcessSuccess(sys, s, e, next);
      if s.db.exec.nodes[e.node].status.Running? {
        ConcludeKeepsTables(sys, s.db, e);
      }
    } else {
      CompletionSteps.ProcessFailure(sys, s, e, next);
      CompletionSteps.FailureRows(s.db.tables, e, next, CompletionSteps.RetryTime(sys, s, e));
      if s.db.tables.attempts[e.attempt].failureEvent.None? && e.number >= Limit(sys) {
        ConcludeKeepsTables(sys, s.db.(tables := AfterExhausted(s.db.tables, e.task, e.attempt, e.id, e.outcome.error)), e);
      }
    }
  }

  /** From its last grant on, the row names a worker exactly as long as nobody else is granted the
      attempt; so what is recorded is recorded by the worker the row names exactly then. */
  lemma {:induction false} NamedUntilNextGrant(sys: System, states: seq<State>, steps: seq<Step>, i: nat, j: nat, a: Uuid)
    requires ValidSystem(sys) && IsRun(sys, states, steps) && Grants(sys, states, steps, i, a) && i < j < |states|
    requires forall k :: i < k < j && Grants(sys, states, steps, k, a) ==> steps[k].worker != steps[i].worker
    ensures a in states[j].db.tables.attempts && states[j].db.tables.attempts[a].claimedBy.Some?
    ensures states[j].db.tables.attempts[a].claimedBy == Some(steps[i].worker) <==> forall k :: i < k < j ==> !Grants(sys, states, steps, k, a)
    decreases j
  {
    hide IsRun, Grants;
    RunLength(sys, states, steps);
    if j == i + 1 {
      GrantedExists(sys, states, steps, i, a);
      GrantNames(sys, states, steps, i, a);
    } else {
      NamedUntilNextGrant(sys, states, steps, i, j - 1, a);
      GrantNames(sys, states, steps, j - 1, a);
    }
  }

  lemma GrantedExists(sys: System, states: seq<State>, steps: seq<Step>, i: nat, a: Uuid)
    requires Grants(sys, states, steps, i, a)
    ensures a in states[i].db.tables.attempts && steps[i].ClaimStep?
  {
  }
}
