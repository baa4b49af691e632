/** Retries are not sent, and so not run, before their time. */
module RetryTiming {
  import opened TaskTables
  import opened AttemptLedger
  import opened RetryPolicies
  import opened ExecutionTables
  import opened Protocol
  import opened ProtocolInvariants
  import opened StepEffects
  import opened Runs
  import opened Theorems
  import opened Announcements
  import opened RetryWaits

  /** The retry has a due time, and that time has come. */
  ghost predicate InTime(t: Tables, now: Time, m: TaskMessage) {
    m.number > 1 ==> m.attempt in t.dispatches && t.dispatches[m.attempt].availableAt <= now
  }

  ghost predicate AllInTime(s: State) {
    forall m :: m in s.tasks || m in s.due ==> InTime(s.db.tables, s.now, m)
  }

  lemma InTimeStays(sys: System, s: State, s': State, m: TaskMessage)
    requires InTime(s.db.tables, s.now, m) && DatesKept(s.db.tables, s'.db.tables) && s.now <= s'.now
    ensures InTime(s'.db.tables, s'.now, m)
  {
  }

  /** What a poll reads at this moment is due and waits to be sent. */
  lemma PolledInTime(t: Tables, now: Time, m: TaskMessage)
    requires m in GetDueRetries(t, now)
    ensures InTime(t, now, m)
    ensures m.attempt in t.attempts && m.attempt in t.dispatches && !t.dispatches[m.attempt].published && t.attempts[m.attempt].status.Scheduled?
    ensures t.dispatches[m.attempt].availableAt <= now
  {
  }

  // Messages that a step puts on the stream or into memory.
  lemma NewMessages(sys: System, s: State, step: Step, m: TaskMessage)
    requires ValidSystem(sys) && Reachable(sys, s) && Enabled(sys, s, step) && AllInTime(s)
    requires m in After(sys, s, step).tasks || m in After(sys, s, step).due
    ensures m in s.tasks || m in s.due || InTime(s.db.tables, s.now, m)
  {
    hide Reachable, Dispatch, Process, Trigger, ClaimAttempt, RecordResult, MarkCompleted, MarkRetryPublished, RenewClaim, GetDueRetries, EventFromResult, InTime;
    match step {
      case ReadRetriesStep =>
        if m in GetDueRetries(s.db.tables, s.now) {
          PolledInTime(s.db.tables, s.now, m);
        }
      case PublishOutboxStep(row) =>
        AnnouncementsAreTrue(sys, s, row);
        FirstIsInTime(s, m);
      case _ =>
    }
  }

  lemma FirstIsInTime(s: State, m: TaskMessage)
    ensures m.number == 1 ==> InTime(s.db.tables, s.now, m)
  {
  }

  lemma {:induction false} RunInTime(sys: System, states: seq<State>, steps: seq<Step>, i: nat)
    requires ValidSystem(sys) && IsRun(sys, states, steps) && i < |states|
    ensures AllInTime(states[i])
    decreases i
  {
    hide Enabled, After, ValidSystem, InTime, AttemptsKept, NothingScheduled, Schedules, DispatchRows, Effect;
    if i > 0 {
      RunInTime(sys, states, steps, i - 1);
      var s, s' := states[i - 1], states[i];
      assert Reachable(sys, s);
      assert Next(sys, s, steps[i - 1], s');
      RunKeepsDispatchRows(sys, states, steps, i);
      RunEffect(sys, states, steps, i - 1);
      TimeGoesOn(s, s');
      forall m | m in s'.tasks || m in s'.due ensures InTime(s'.db.tables, s'.now, m) {
        NewMessages(sys, s, steps[i - 1], m);
        InTimeStays(sys, s, s', m);
      }
    }
  }

  lemma TimeGoesOn(s: State, s': State)
    requires Effect(s, s')
    ensures s.now <= s'.now
  {
  }

  /** In every reachable state a retry that is on the task stream, or about to be sent, is due. */
  lemma NoRetryIsEarly(sys: System, s: State, m: TaskMessage)
    requires ValidSystem(sys) && Reachable(sys, s) && (m in s.tasks || m in s.due) && m.number > 1
    ensures m.attempt in s.db.tables.dispatches && s.db.tables.dispatches[m.attempt].availableAt <= s.now
  {
    hide IsRun, ValidSystem;
    var states, steps, i :| IsRun(sys, states, steps) && 0 <= i < |states| && states[i] == s;
    RunInTime(sys, states, steps, i);
  }

  lemma {:induction false} DueTimeStays(sys: System, states: seq<State>, steps: seq<Step>, i: nat, j: nat, a: Uuid)
    requires ValidSystem(sys) && IsRun(sys, states, steps) && i <= j < |states| && a in states[i].db.tables.dispatches
    ensures a in states[j].db.tables.dispatches
    ensures states[j].db.tables.dispatches[a].availableAt == states[i].db.tables.dispatches[a].availableAt
    decreases j
  {
    hide IsRun;
    RunLength(sys, states, steps);
    if i < j {
      DueTimeStays(sys, states, steps, i, j - 1, a);
      DueTimesStay(sys, states, steps, j - 1, a);
    }
  }

  lemma NumberKept(s: State, s': State, a: Uuid)
    requires Effect(s, s') && a in s.db.tables.attempts
    ensures a in s'.db.tables.attempts && s'.db.tables.attempts[a].number == s.db.tables.attempts[a].number
  {
    hide ClaimsKept, ExecutionEffect;
  }

  lemma {:induction false} NumberStays(sys: System, states: seq<State>, steps: seq<Step>, i: nat, j: nat, a: Uuid)
    requires ValidSystem(sys) && IsRun(sys, states, steps) && i <= j < |states| && a in states[i].db.tables.attempts
    ensures a in states[j].db.tables.attempts && states[j].db.tables.attempts[a].number == states[i].db.tables.attempts[a].number
    decreases j
  {
    hide IsRun, ValidSystem, Effect;
    RunLength(sys, states, steps);
    if i < j {
      NumberStays(sys, states, steps, i, j - 1, a);
      RunEffect(sys, states, steps, j - 1);
      NumberKept(states[j - 1], states[j], a);
    }
  }

  /** When the failure of attempt k was processed at step i and led to attempt k + 1, no worker claims
      that attempt before the delay of the policy has passed. */
  lemma RetryWaitsItsDelay(sys: System, states: seq<State>, steps: seq<Step>, i: nat, j: nat, a: Uuid)
    requires ValidSystem(sys) && IsRun(sys, states, steps) && i < j < |steps|
    requires a !in states[i].db.tables.dispatches && a in states[i + 1].db.tables.dispatches
    requires steps[j].ClaimStep? && steps[j].message.attempt == a
    ensures a in states[i + 1].db.tables.attempts && states[i + 1].db.tables.attempts[a].number >= 2
    ensures states[j].now >= states[i].now + DelayFor(sys.settings.policy, states[i + 1].db.tables.attempts[a].number - 1)
  {
    hide Enabled, After, DelayFor, AttemptsKept, DatesKept, DispatchRows, Inv;
    var s, s', m := states[i], states[i + 1], steps[j].message;
    RunKeepsDispatchRows(sys, states, steps, i + 1);
    var failed, next :| RetryOf(sys, s, s.db.tables, s'.db.tables, failed, next);
    assert a == next;
    DueTimeStays(sys, states, steps, i + 1, j, a);
    NumberStays(sys, states, steps, i + 1, j, a);
    RunKeepsInv(sys, states, steps, j);
    assert Next(sys, states[j], steps[j], states[j + 1]);
    ClaimedDescribes(sys, states[j], steps[j]);
    assert Reachable(sys, states[j]);
    NoRetryIsEarly(sys, states[j], m);
  }

  lemma ClaimedDescribes(sys: System, s: State, step: Step)
    requires ValidSystem(sys) && Inv(sys, s) && Enabled(sys, s, step) && step.ClaimStep?
    ensures step.message in s.tasks && Describes(s.db.tables, step.message)
  {
    hide ExecPart, ReadyPart, TaskPart, Ledger, ValuePart, RetryPart, LeasePart, RunsDescribe, OutboxDescribes, Describes;
  }
}
