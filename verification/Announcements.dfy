/** What the outbox announces is so, and stays so. */
module Announcements {
  import opened Definitions
  import opened Traversal
  import opened TaskTables
  import opened RetryPolicies
  import opened ExecutionTables
  import opened ExecutionInvariants
  import opened Protocol
  import opened ProtocolInvariants
  import opened OutboxLedger
  import opened StepEffects
  import DispatchSteps
  import CompletionSteps
  import opened Runs
  import opened Theorems

  /** A message about the end of a node gives its status, and its output if it completed; a message
      about a failed dependency names a failed node and a failed cause; a message about the end of
      the execution gives its status; a queued task is a first attempt. Keys derive from the event that
      caused the message. */
  ghost predicate Truthful(x: Execution, rec: set<Event>, m: OutboxMessage) {
    match m.body
    case NodeFinished(n, st, e) =>
      && m.id == RandomId(e.id) && e in rec && e.node == n && n in x.nodes && x.nodes[n].status == st == TargetStatus(e.outcome)
      && (e.outcome.Succeeded? ==> x.nodes[n].output == e.outcome.output)
    case DependencyFailed(n, cause) =>
      && n in x.nodes && x.nodes[n].status.Failed? && cause in x.nodes && x.nodes[cause].status.Failed?
      && exists e :: e in rec && m.id == NodeFailedId(e.id, n) && e.node == cause && e.outcome.Errored?
    case WorkflowFinished(st) => x.status == st && Terminal(st) && exists e :: e in rec && m.id == WorkflowEventId(e.id, st)
    case TaskQueued(task) => task.number == 1
    case _ => true
  }

  ghost predicate AllTruthful(x: Execution, rec: set<Event>) {
    forall i :: 0 <= i < |x.outbox| ==> Truthful(x, rec, x.outbox[i])
  }

  // Ends are final, so what was said about them stays true.
  lemma TruthStays(x: Execution, x': Execution, rec: set<Event>, rec': set<Event>, m: OutboxMessage)
    requires ExecutionEffect(x, x') && rec <= rec' && Truthful(x, rec, m)
    ensures Truthful(x', rec', m)
  {
  }

  lemma AppendTruth(x: Execution, x': Execution, rec: set<Event>, rec': set<Event>, more: seq<OutboxMessage>)
    requires ExecutionEffect(x, x') && rec <= rec' && AllTruthful(x, rec) && x'.outbox == x.outbox + more
    requires forall i :: 0 <= i < |more| ==> Truthful(x', rec', more[i])
    ensures AllTruthful(x', rec')
  {
    hide ExecutionEffect, Truthful;
    forall i | 0 <= i < |x'.outbox| ensures Truthful(x', rec', x'.outbox[i]) {
      if i < |x.outbox| {
        TruthStays(x, x', rec, rec', x.outbox[i]);
      } else {
        assert x'.outbox[i] == more[i - |x.outbox|];
      }
    }
  }

  // ---------- Completion ----------

  lemma PropagationTells(w: Workflow, x: Execution, rec: set<Event>, e: Event, i: nat)
    requires x.nodes.Keys == Ids(w) && e in rec && e.node in x.nodes && x.nodes[e.node].status.Running?
    requires i < |PropagationMessages(w, x, e)|
    ensures Truthful(Propagate(w, x, e), rec, PropagationMessages(w, x, e)[i])
  {
    if e.outcome.Errored? {
      var settled := x.nodes[e.node := Settle(x.nodes[e.node], e.outcome)];
      var ids := FailedDependencies(w, NodeStatuses(settled));
      hide FailDependants, FailedDependencies;
      FailStatuses(w, settled, e.node, e.node);
      if i < |ids| {
        assert ids[i] in ids;
        DoomedArePending(w, settled, ids[i]);
        FailedExactlyListed(w, settled, e.node, ids[i]);
      }
    }
  }

  lemma FinalizeTells(w: Workflow, x: Execution, correlation: Uuid)
    ensures var x' := Finalize(w, x, correlation);
            && x'.nodes == x.nodes
            && (x'.outbox == x.outbox
                || exists st :: x'.outbox == x.outbox + [OutboxMessage(WorkflowEventId(correlation, st), WorkflowFinished(st))] && x'.status == st && Terminal(st))
  {
    var x' := Finalize(w, x, correlation);
    if x' != x {
      assert x'.outbox == x.outbox + [OutboxMessage(WorkflowEventId(correlation, x'.status), WorkflowFinished(x'.status))];
    }
  }

  // What is true after propagation is true after finalization.
  lemma FinalizedTruth(x: Execution, x': Execution, rec: set<Event>, m: OutboxMessage)
    requires Truthful(x, rec, m) && x'.nodes == x.nodes && !m.body.WorkflowFinished?
    ensures Truthful(x', rec, m)
  {
  }

  lemma ConcludeTells(sys: System, db: Db, rec: set<Event>, e: Event)
    requires ValidSystem(sys) && ExecutionInv(Flow(sys), db.exec) && e in rec && e.node in db.exec.nodes
    requires AllTruthful(db.exec, rec) && Conclude(Flow(sys), db, e).Ok?
    ensures AllTruthful(Conclude(Flow(sys), db, e).value.1.exec, rec)
  {
    var w, x := Flow(sys), db.exec;
    assert x.nodes.Keys == Ids(w);
    hide ExecutionInv, ExecutionEffect, Truthful, Propagate, PropagationMessages, Finalize, AllTruthful;
    ConcludeEffect(w, db, e);
    if x.nodes[e.node].status.Running? {
      var more := EndTells(w, x, rec, e);
      AppendTruth(x, Finalize(w, Propagate(w, x, e), e.id), rec, rec, more);
    }
  }

  lemma ToldTruth(w: Workflow, x: Execution, rec: set<Event>, e: Event)
    requires x.nodes.Keys == Ids(w) && e in rec && e.node in x.nodes && x.nodes[e.node].status.Running?
    ensures var told := PropagationMessages(w, x, e);
            forall i :: 0 <= i < |told| ==> Truthful(Finalize(w, Propagate(w, x, e), e.id), rec, told[i])
  {
    hide Truthful, Propagate, PropagationMessages, Finalize;
    var after, told := Propagate(w, x, e), PropagationMessages(w, x, e);
    PropagationBodies(w, x, e);
    FinalizeTells(w, after, e.id);
    forall i | 0 <= i < |told| ensures Truthful(Finalize(w, after, e.id), rec, told[i]) {
      PropagationTells(w, x, rec, e, i);
      FinalizedTruth(after, Finalize(w, after, e.id), rec, told[i]);
    }
  }

  lemma EndTells(w: Workflow, x: Execution, rec: set<Event>, e: Event) returns (more: seq<OutboxMessage>)
    requires x.nodes.Keys == Ids(w) && e in rec && e.node in x.nodes && x.nodes[e.node].status.Running?
    ensures var x' := Finalize(w, Propagate(w, x, e), e.id);
            && x'.outbox == x.outbox + more
            && forall i :: 0 <= i < |more| ==> Truthful(x', rec, more[i])
  {
    hide Truthful, Propagate, PropagationMessages, Finalize;
    var after := Propagate(w, x, e);
    var x' := Finalize(w, after, e.id);
    PropagateAppends(w, x, e);
    ToldTruth(w, x, rec, e);
    FinalizeTells(w, after, e.id);
    more := PropagationMessages(w, x, e);
    if x'.outbox != after.outbox {
      var st :| x'.outbox == after.outbox + [OutboxMessage(WorkflowEventId(e.id, st), WorkflowFinished(st))] && x'.status == st && Terminal(st);
      var last := OutboxMessage(WorkflowEventId(e.id, st), WorkflowFinished(st));
      EndIsTrue(x', rec, st, e);
      assert x.outbox + more + [last] == x.outbox + (more + [last]);
      more := more + [last];
    }
  }

  lemma EndIsTrue(x: Execution, rec: set<Event>, st: Status, e: Event)
    requires x.status == st && Terminal(st) && e in rec
    ensures Truthful(x, rec, OutboxMessage(WorkflowEventId(e.id, st), WorkflowFinished(st)))
  {
  }

  lemma ProcessTells(sys: System, s: State, e: Event, next: Uuid)
    requires ValidSystem(sys) && Inv(sys, s) && Enabled(sys, s, ProcessStep(e, next)) && AllTruthful(s.db.exec, s.recorded)
    ensures AllTruthful(AfterProcess(sys, s, e, next).db.exec, s.recorded)
  {
    hide Inv, Conclude, Process, AllTruthful, AfterRetry, AfterExhausted, ExecutionInv;
    CompletionSteps.DeliveredIsRecorded(sys, s, e);
    ExecutionPart(sys, s);
    if e.outcome.Succeeded? {
      CompletionSteps.ProcessSuccess(sys, s, e, next);
      if s.db.exec.nodes[e.node].status.Running? {
        ConcludeTells(sys, s.db, s.recorded, e);
      }
    } else {
      CompletionSteps.ProcessFailure(sys, s, e, next);
      if s.db.tables.attempts[e.attempt].failureEvent.None? && e.number >= Limit(sys) {
        ConcludeTells(sys, s.db.(tables := AfterExhausted(s.db.tables, e.task, e.attempt, e.id, e.outcome.error)), s.recorded, e);
      }
    }
  }

  // ---------- All steps ----------

  // Triggering and dispatching append messages that say nothing about an end.
  lemma OtherStepTells(sys: System, s: State, step: Step, more: seq<OutboxMessage>)
    requires ValidSystem(sys) && Inv(sys, s) && Enabled(sys, s, step) && AllTruthful(s.db.exec, s.recorded)
    requires After(sys, s, step).db.exec.outbox == s.db.exec.outbox + more
    requires forall i :: 0 <= i < |more| ==>
               more[i].body.ExecutionTriggered? || (more[i].body.TaskQueued? && more[i].body.message.number == 1)
    ensures AllTruthful(After(sys, s, step).db.exec, After(sys, s, step).recorded)
  {
    hide Inv, Enabled, After, AllTruthful, ExecutionEffect, Grows, ClaimsKept;
    StepEffect(sys, s, step);
    var s' := After(sys, s, step);
    AppendTruth(s.db.exec, s'.db.exec, s.recorded, s'.recorded, more);
  }

  lemma DispatchAppends(sys: System, s: State, load: Load, attempt: Uuid) returns (more: seq<OutboxMessage>)
    requires ValidSystem(sys) && Inv(sys, s) && Enabled(sys, s, DispatchStep(load, attempt))
    ensures AfterDispatch(s, load, attempt).db.exec.outbox == s.db.exec.outbox + more
    ensures forall i :: 0 <= i < |more| ==> more[i].body.TaskQueued? && more[i].body.message.number == 1
  {
    hide Inv, Claim;
    DispatchSteps.DispatchNeverFails(sys, s, load);
    more := [];
    var n, x := load.node.id, s.db.exec;
    if n in x.nodes && x.nodes[n].status.Pending? {
      var input :| AfterDispatch(s, load, attempt).db == Claim(s.db, load.node, input, attempt);
      DispatchSteps.ClaimEffect(sys, s, load.node, input, attempt);
      more := [AfterDispatch(s, load, attempt).db.exec.outbox[|x.outbox|]];
    }
  }

  lemma QuietOutbox(sys: System, s: State, step: Step)
    requires Enabled(sys, s, step) && !step.TriggerStep? && !step.DispatchStep? && !step.ProcessStep?
    ensures After(sys, s, step).db.exec == s.db.exec
  {
    hide Dispatch, Process, Trigger, ReadyIds, EventFromResult, GetDueRetries;
  }

  lemma StepTells(sys: System, s: State, step: Step)
    requires ValidSystem(sys) && Inv(sys, s) && Enabled(sys, s, step) && AllTruthful(s.db.exec, s.recorded)
    ensures AllTruthful(After(sys, s, step).db.exec, After(sys, s, step).recorded)
  {
    hide Inv, AllTruthful, ProcessResult, Dispatch, AfterProcess, AfterDispatch, AfterClaim, AfterRenew, AfterRecord;
    match step {
      case ProcessStep(e, next) =>
        ProcessTells(sys, s, e, next);
        RecordedByProcess(sys, s, e, next);
      case DispatchStep(load, attempt) =>
        var more := DispatchAppends(sys, s, load, attempt);
        OtherStepTells(sys, s, step, more);
      case TriggerStep(input, mid) =>
        OtherStepTells(sys, s, step, [OutboxMessage(RandomId(mid), ExecutionTriggered)]);
      case _ =>
        QuietOutbox(sys, s, step);
        assert s.db.exec.outbox + [] == s.db.exec.outbox;
        OtherStepTells(sys, s, step, []);
    }
  }

  lemma RecordedByProcess(sys: System, s: State, e: Event, next: Uuid)
    requires ProcessResult(sys, s, e, next).Ok?
    ensures AfterProcess(sys, s, e, next).recorded == s.recorded
  {
  }

  lemma {:induction false} RunTells(sys: System, states: seq<State>, steps: seq<Step>, i: nat)
    requires ValidSystem(sys) && IsRun(sys, states, steps) && i < |states|
    ensures AllTruthful(states[i].db.exec, states[i].recorded)
    decreases i
  {
    hide Inv, Enabled, After, ValidSystem, Truthful;
    if i > 0 {
      RunTells(sys, states, steps, i - 1);
      RunKeepsInv(sys, states, steps, i - 1);
      assert Next(sys, states[i - 1], steps[i - 1], states[i]);
      StepTells(sys, states[i - 1], steps[i - 1]);
    }
  }

  /** Every announcement in the outbox of a reachable state is true of its rows. */
  lemma AnnouncementsAreTrue(sys: System, s: State, i: nat)
    requires ValidSystem(sys) && Reachable(sys, s) && i < |s.db.exec.outbox|
    ensures Truthful(s.db.exec, s.recorded, s.db.exec.outbox[i])
  {
    hide IsRun, Truthful, ValidSystem;
    var states, steps, k :| IsRun(sys, states, steps) && 0 <= k < |states| && states[k] == s;
    RunTells(sys, states, steps, k);
  }

  // The dependants that fail, the node itself, and the end of the execution if it ends.
  ghost predicate InOrderOf(e: Event, more: seq<OutboxMessage>, k: nat, ends: bool) {
    && |more| == k + (if ends then 2 else 1)
    && (forall i :: 0 <= i < k ==> more[i].body.DependencyFailed? && more[i].body.cause == e.node)
    && more[k].body.NodeFinished? && more[k].body.node == e.node && more[k].body.event == e
    && (ends ==> more[k + 1].body.WorkflowFinished?)
  }

  ghost predicate AddsInOrder(e: Event, x: Execution, x': Execution, outcome: CompletionOutcome, more: seq<OutboxMessage>, k: nat) {
    && x'.outbox == x.outbox + more
    && (outcome.Processed? ==> InOrderOf(e, more, k, x'.status != x.status))
    && (!outcome.Processed? ==> more == [] && x' == x)
  }

  lemma ConcludedInOrder(w: Workflow, db: Db, e: Event) returns (more: seq<OutboxMessage>, k: nat)
    requires e.node in db.exec.nodes && Conclude(w, db, e).Ok?
    ensures var (decision, db') := Conclude(w, db, e).value; AddsInOrder(e, db.exec, db'.exec, decision.outcome, more, k)
  {
    hide FailedDependencies, FailPending, ReadyIds, PendingAmong;
    more, k := [], 0;
    if db.exec.nodes[e.node].status.Running? {
      var after := Propagate(w, db.exec, e);
      more := after.outbox[|db.exec.outbox|..];
      assert after.outbox == db.exec.outbox + more;
      k := |more| - 1;
      if Finalize(w, after, e.id).status != after.status {
        more := more + [Finalize(w, after, e.id).outbox[|after.outbox|]];
      }
    }
  }

  /** What one completion adds to the outbox: nothing unless it ends the node, and then, in this order,
      the dependants that fail with the node, the node itself, and the execution if it ends now. */
  lemma AnnouncedInOrder(s: Settings, db: Db, e: Event, now: Time, next: Uuid) returns (more: seq<OutboxMessage>, k: nat)
    requires Process(s, db, e, now, next).Ok?
    ensures var (decision, db') := Process(s, db, e, now, next).value; AddsInOrder(e, db.exec, db'.exec, decision.outcome, more, k)
  {
    hide Conclude, TaskTables.RecordSuccess, TaskTables.RecordFailure, InOrderOf;
    more, k := [], 0;
    match e.outcome {
      case Succeeded(_) =>
        var (recorded, tables) := RecordSuccess(db.tables, e.task, e.attempt, e.id).value;
        if recorded || db.exec.nodes[e.node].status.Running? {
          more, k := ConcludedInOrder(s.workflow, db.(tables := tables), e);
        }
      case Errored(error) =>
        var (decision, tables) := RecordFailure(db.tables, e.task, e.attempt, e.id, error, s.policy.maxAttempts, now + DelayFor(s.policy, e.number), next).value;
        if decision.Exhausted? {
          more, k := ConcludedInOrder(s.workflow, db.(tables := tables), e);
        }
    }
  }
}
