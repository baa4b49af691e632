/** Which events an attempt has ever reported. */
module AttemptEvents {
  import opened Wrappers
  import opened JsonValues
  import opened Definitions
  import opened TaskTables
  import opened AttemptLedger
  import opened ExecutionTables
  import opened Protocol
  import opened ProtocolInvariants
  import DispatchSteps
  import CompletionSteps
  import opened Runs
  import opened Theorems
  import opened RetryWaits

  /** The row still names the event, as the one completed last or as the one noted as a failure. */
  ghost predicate Named(t: Tables, e: Event) {
    && e.attempt in t.attempts
    && (t.attempts[e.attempt].completionEvent == Some(e.id) || t.attempts[e.attempt].failureEvent == Some(e.id))
  }

  // Two different events: the later one is final.
  predicate Distinct(a: AttemptRow) {
    a.completionEvent.Some? && a.failureEvent.Some? && a.completionEvent != a.failureEvent
  }

  predicate Final(a: AttemptRow) { Distinct(a) ==> a.status.ResultRecorded? || a.status.Done? }

  ghost predicate EventsNamed(t: Tables, rec: set<Event>) {
    && (forall e :: e in rec ==> Named(t, e))
    && (forall a :: a in t.attempts ==> Final(t.attempts[a]))
  }

  // ---------- Rows that change nothing of this ----------

  /** Events stay where they are, and a row with two different events stays recorded or done. */
  ghost predicate SameEvents(t: Tables, t': Tables) {
    && (forall a :: a in t.attempts ==>
          && a in t'.attempts && t'.attempts[a].completionEvent == t.attempts[a].completionEvent
          && t'.attempts[a].failureEvent == t.attempts[a].failureEvent && Final(t'.attempts[a]))
    && (forall a :: a in t'.attempts && a !in t.attempts ==> t'.attempts[a].completionEvent.None?)
  }

  lemma SameKeepsNamed(t: Tables, t': Tables, rec: set<Event>)
    requires EventsNamed(t, rec) && SameEvents(t, t')
    ensures EventsNamed(t', rec)
  {
    forall e | e in rec ensures Named(t', e) {
      assert Named(t, e);
    }
  }

  lemma ClaimSameEvents(t: Tables, rec: set<Event>, m: TaskMessage, worker: Worker, at: Time, expiresAt: Time)
    requires EventsNamed(t, rec) && ClaimAttempt(t, m, worker, at, expiresAt).Ok?
    ensures SameEvents(t, ClaimAttempt(t, m, worker, at, expiresAt).value.1)
  {
  }

  lemma MarkSameEvents(t: Tables, rec: set<Event>, a: Uuid)
    requires EventsNamed(t, rec) && MarkCompleted(t, a).Ok?
    ensures SameEvents(t, MarkCompleted(t, a).value)
  {
  }

  lemma RenewSameEvents(t: Tables, rec: set<Event>, a: Uuid, worker: Worker, expiresAt: Time)
    requires EventsNamed(t, rec)
    ensures SameEvents(t, RenewClaim(t, a, worker, expiresAt).1)
  {
  }

  lemma QueueSameEvents(t: Tables, rec: set<Event>, a: Uuid)
    requires EventsNamed(t, rec)
    ensures SameEvents(t, MarkRetryPublished(t, a).1)
  {
  }

  // ---------- Recording ----------

  // What was recorded before for a claimed attempt is its noted failure.
  lemma RecordNames(t: Tables, rec: set<Event>, e: Event)
    requires EventsNamed(t, rec) && Coherent(t, rec) && RecordResult(t, e).Ok?
    ensures EventsNamed(RecordResult(t, e).value, rec + {e})
  {
    var t' := RecordResult(t, e).value;
    assert RowOk(t, rec, e.attempt) && Final(t.attempts[e.attempt]);
    forall f | f in rec + {e} ensures Named(t', f) {
      if f in rec {
        assert Named(t, f) && EventOk(t, f);
      }
    }
  }

  // The failure that is noted is the event the row holds.
  lemma NoteNames(t: Tables, t': Tables, rec: set<Event>, e: Event, next: Uuid)
    requires EventsNamed(t, rec) && Coherent(t, rec) && e in rec && e.outcome.Errored? && next !in t.attempts
    requires e.attempt in t.attempts && e.task in t.tasks && t.attempts[e.attempt].failureEvent.None?
    requires (exists at :: t' == AfterRetry(t, e.task, e.attempt, e.id, e.outcome.error, next, at))
             || t' == AfterExhausted(t, e.task, e.attempt, e.id, e.outcome.error)
    ensures EventsNamed(t', rec)
  {
    assert EventOk(t, e);
    forall f | f in rec ensures Named(t', f) {
      assert Named(t, f);
    }
    forall a | a in t'.attempts ensures Final(t'.attempts[a]) {
      if a != next && a != e.attempt {
        assert Final(t.attempts[a]);
      }
    }
  }

  // ---------- Steps ----------

  ghost predicate EventPartNamed(s: State) { EventsNamed(s.db.tables, s.recorded) }

  lemma CoherentPart(sys: System, s: State)
    requires ValidSystem(sys) && Inv(sys, s)
    ensures Coherent(s.db.tables, s.recorded)
  {
    hide ExecPart, ReadyPart, TaskPart, RetryPart, LeasePart, ValuePart, MessagePart, Coherent;
  }

  lemma WorkerKeepsNames(sys: System, s: State, step: Step)
    requires ValidSystem(sys) && Inv(sys, s) && Enabled(sys, s, step) && EventPartNamed(s)
    requires step.ClaimStep? || step.RenewStep? || step.RecordStep? || step.MarkCompletedStep? || step.MarkRetryStep?
    ensures EventPartNamed(After(sys, s, step))
  {
    hide Inv, EventsNamed, SameEvents, Coherent, ClaimAttempt, RenewClaim, RecordResult, MarkCompleted, MarkRetryPublished;
    CoherentPart(sys, s);
    var t, rec, t' := s.db.tables, s.recorded, After(sys, s, step).db.tables;
    match step {
      case RecordStep(run, outcome, id) => RecordNames(t, rec, EventOf(run.message, id, outcome));
      case ClaimStep(worker, m) =>
        ClaimSameEvents(t, rec, m, worker, s.now, s.now + sys.lease(worker));
        SameKeepsNamed(t, ClaimAttempt(t, m, worker, s.now, s.now + sys.lease(worker)).value.1, rec);
      case RenewStep(run) =>
        RenewSameEvents(t, rec, run.message.attempt, run.worker, s.now + sys.lease(run.worker));
        SameKeepsNamed(t, RenewClaim(t, run.message.attempt, run.worker, s.now + sys.lease(run.worker)).1, rec);
      case MarkCompletedStep(e) =>
        MarkSameEvents(t, rec, e.attempt);
        SameKeepsNamed(t, t', rec);
      case MarkRetryStep(m) =>
        QueueSameEvents(t, rec, m.attempt);
        SameKeepsNamed(t, t', rec);
    }
  }

  lemma StartKeepsNames(x: Execution, x': Execution, t: Tables, t': Tables, node: Node, input: map<string, Json>, attempt: Uuid, rec: set<Event>)
    requires DispatchSteps.NodeClaimed(x, x', t, t', node, input, attempt) && attempt !in t.attempts && EventsNamed(t, rec)
    ensures EventsNamed(t', rec)
  {
    SameKeepsNamed(t, t', rec);
  }

  lemma DispatchKeepsNames(sys: System, s: State, load: Load, attempt: Uuid)
    requires ValidSystem(sys) && Inv(sys, s) && Enabled(sys, s, DispatchStep(load, attempt)) && EventPartNamed(s)
    ensures EventPartNamed(AfterDispatch(s, load, attempt))
  {
    hide Inv, Claim, EventsNamed, DispatchSteps.NodeClaimed;
    DispatchSteps.DispatchNeverFails(sys, s, load);
    var n, x := load.node.id, s.db.exec;
    if n in x.nodes && x.nodes[n].status.Pending? {
      var db' := AfterDispatch(s, load, attempt).db;
      var input :| db' == Claim(s.db, load.node, input, attempt);
      DispatchSteps.ClaimEffect(sys, s, load.node, input, attempt);
      StartKeepsNames(x, db'.exec, s.db.tables, db'.tables, load.node, input, attempt, s.recorded);
    }
  }

  lemma ProcessKeepsNames(sys: System, s: State, e: Event, next: Uuid)
    requires ValidSystem(sys) && Inv(sys, s) && Enabled(sys, s, ProcessStep(e, next)) && EventPartNamed(s)
    ensures EventPartNamed(AfterProcess(sys, s, e, next))
  {
    hide Inv, Conclude, Process, EventsNamed, AfterRetry, AfterExhausted, Coherent;
    CompletionSteps.DeliveredIsRecorded(sys, s, e);
    CompletionSteps.AttemptsAreUsed(sys, s);
    CoherentPart(sys, s);
    var t, t' := s.db.tables, AfterProcess(sys, s, e, next).db.tables;
    if e.outcome.Succeeded? {
      CompletionSteps.ProcessSuccess(sys, s, e, next);
      if s.db.exec.nodes[e.node].status.Running? {
        ConcludeKeepsTables(sys, s.db, e);
      }
    } else {
      CompletionSteps.ProcessFailure(sys, s, e, next);
      if t.attempts[e.attempt].failureEvent.None? {
        if e.number >= Limit(sys) {
          ConcludeKeepsTables(sys, s.db.(tables := AfterExhausted(t, e.task, e.attempt, e.id, e.outcome.error)), e);
        }
        NoteNames(t, t', s.recorded, e, next);
      }
    }
  }

  lemma StepKeepsNames(sys: System, s: State, step: Step)
    requires ValidSystem(sys) && Inv(sys, s) && Enabled(sys, s, step) && EventPartNamed(s)
    ensures EventPartNamed(After(sys, s, step))
  {
    hide Inv, EventsNamed, ProcessResult, Dispatch, Trigger, ClaimResult, AfterClaim, AfterRenew, AfterRecord, AfterDispatch, AfterProcess;
    match step
    case DispatchStep(load, attempt) => DispatchKeepsNames(sys, s, load, attempt);
    case ProcessStep(event, next) => ProcessKeepsNames(sys, s, event, next);
    case ClaimStep(_, _) => WorkerKeepsNames(sys, s, step);
    case RenewStep(_) => WorkerKeepsNames(sys, s, step);
    case RecordStep(_, _, _) => WorkerKeepsNames(sys, s, step);
    case MarkCompletedStep(_) => WorkerKeepsNames(sys, s, step);
    case MarkRetryStep(_) => WorkerKeepsNames(sys, s, step);
    case _ =>
  }

  lemma {:induction false} RunKeepsNames(sys: System, states: seq<State>, steps: seq<Step>, i: nat)
    requires ValidSystem(sys) && IsRun(sys, states, steps) && i < |states|
    ensures EventPartNamed(states[i])
    decreases i
  {
    hide Inv, Enabled, After, ValidSystem;
    if i > 0 {
      RunKeepsNames(sys, states, steps, i - 1);
      RunKeepsInv(sys, states, steps, i - 1);
      assert Next(sys, states[i - 1], steps[i - 1], states[i]);
      StepKeepsNames(sys, states[i - 1], steps[i - 1]);
    }
  }

  // ---------- How many events an attempt has ----------

  /** The event was recorded for this attempt. */
  ghost predicate Of(s: State, a: Uuid, e: Event) { e in s.recorded && e.attempt == a }

  ghost predicate TwoEvents(s: State, a: Uuid) {
    exists e, f :: Of(s, a, e) && Of(s, a, f) && e != f
  }

  /** Over any run an attempt reports at most two events, whatever workers, replays and orchestrators
      do, and two exactly when a failure of it was noted and another event was recorded since, which
      the row shows. */
  lemma AtMostTwoEvents(sys: System, s: State, a: Uuid)
    requires ValidSystem(sys) && Reachable(sys, s) && a in s.db.tables.attempts
    ensures forall e, f, g :: Of(s, a, e) && Of(s, a, f) && Of(s, a, g) ==> e == f || f == g || e == g
    ensures TwoEvents(s, a) <==> Distinct(s.db.tables.attempts[a])
  {
    hide IsRun, Inv;
    var states, steps, i :| IsRun(sys, states, steps) && 0 <= i < |states| && states[i] == s;
    RunKeepsNames(sys, states, steps, i);
    RunKeepsInv(sys, states, steps, i);
    CoherentPart(sys, s);
    EventsOfRow(s.db.tables, s.recorded, a);
    if Distinct(s.db.tables.attempts[a]) {
      var e, f :| e in s.recorded && f in s.recorded && e.attempt == a && f.attempt == a && e != f;
      assert Of(s, a, e) && Of(s, a, f);
    }
  }

  lemma EventsOfRow(t: Tables, rec: set<Event>, a: Uuid)
    requires EventsNamed(t, rec) && Coherent(t, rec) && a in t.attempts
    ensures forall e, f, g :: e in rec && f in rec && g in rec && e.attempt == a && f.attempt == a && g.attempt == a ==> e == f || f == g || e == g
    ensures (exists e, f :: e in rec && f in rec && e.attempt == a && f.attempt == a && e != f) <==> Distinct(t.attempts[a])
  {
    assert RowOk(t, rec, a);
    forall e | e in rec && e.attempt == a ensures t.attempts[a].completionEvent == Some(e.id) || t.attempts[a].failureEvent == Some(e.id) {
      assert Named(t, e);
    }
    forall e | e in rec && e.attempt == a ensures t.attempts[a].completionEvent.Some? {
      assert EventOk(t, e);
    }
    if Distinct(t.attempts[a]) {
      var last := RowEvent(a, t.attempts[a]);
      var noted :| noted in rec && noted.id == t.attempts[a].failureEvent.value && noted.attempt == a && noted.outcome.Errored?;
      assert last in rec && last.attempt == a && last != noted;
    }
  }
}
