/** The invariant over whole runs. */
module Runs {
  import opened ExecutionTables
  import opened Protocol
  import opened ProtocolInvariants
  import MemorySteps
  import WorkerSteps
  import DispatchSteps
  import CompletionSteps
  import opened OutboxLedger
  import opened StepEffects

  /** Every step keeps the invariant. */
  lemma StepKeepsInv(sys: System, s: State, step: Step)
    requires ValidSystem(sys) && Inv(sys, s) && Enabled(sys, s, step)
    ensures Inv(sys, After(sys, s, step))
  {
    hide Inv, ValidSystem, AfterTrigger, AfterPublishOutbox, AfterEvaluate, AfterLoad, AfterDispatch, AfterProcess, AfterClaim,
         AfterRenew, AfterRecord, ProcessResult, ClaimResult, Dispatch, Trigger, WellFormed;
    match step
    case TriggerStep(input, mid) => DispatchSteps.TriggerStepKeepsInv(sys, s, input, mid);
    case PublishOutboxStep(row) => MemorySteps.PublishOutboxKeepsInv(sys, s, row);
    case EvaluateStep => MemorySteps.EvaluateKeepsInv(sys, s);
    case LoadStep(node) => MemorySteps.LoadKeepsInv(sys, s, node);
    case DispatchStep(load, attempt) => DispatchSteps.DispatchStepKeepsInv(sys, s, load, attempt);
    case ProcessStep(event, next) => CompletionSteps.ProcessKeepsInv(sys, s, event, next);
    case ReadRetriesStep => MemorySteps.ReadRetriesKeepsInv(sys, s);
    case PublishRetryStep(message) => MemorySteps.PublishRetryKeepsInv(sys, s, message);
    case MarkRetryStep(message) => WorkerSteps.MarkRetryKeepsInv(sys, s, message);
    case ClaimStep(worker, message) => WorkerSteps.ClaimKeepsInv(sys, s, worker, message);
    case RenewStep(run) => WorkerSteps.RenewKeepsInv(sys, s, run);
    case RecordStep(run, outcome, id) => WorkerSteps.RecordKeepsInv(sys, s, run, outcome, id);
    case ReplayStep(message) => MemorySteps.ReplayKeepsInv(sys, s, message);
    case PublishCompletionStep(event) => MemorySteps.PublishCompletionKeepsInv(sys, s, event);
    case MarkCompletedStep(event) => WorkerSteps.MarkCompletedKeepsInv(sys, s, event);
    case TickStep(time) => MemorySteps.TickKeepsInv(sys, s, time);
  }

  /** The invariant holds in every state of every run. */
  lemma {:induction false} RunKeepsInv(sys: System, states: seq<State>, steps: seq<Step>, i: nat)
    requires ValidSystem(sys) && IsRun(sys, states, steps) && i < |states|
    ensures Inv(sys, states[i])
    decreases i
  {
    hide Inv, Enabled, After, Init, ValidSystem;
    if i == 0 {
      InitInv(sys, states[0]);
    } else {
      RunKeepsInv(sys, states, steps, i - 1);
      assert Next(sys, states[i - 1], steps[i - 1], states[i]);
      StepKeepsInv(sys, states[i - 1], steps[i - 1]);
    }
  }

  lemma {:induction false} RunEffect(sys: System, states: seq<State>, steps: seq<Step>, i: nat)
    requires ValidSystem(sys) && IsRun(sys, states, steps) && i < |steps|
    ensures Next(sys, states[i], steps[i], states[i + 1]) && Effect(states[i], states[i + 1])
  {
    hide Inv, Enabled, After, Init, ValidSystem, Effect;
    RunKeepsInv(sys, states, steps, i);
    assert Next(sys, states[i], steps[i], states[i + 1]);
    StepEffect(sys, states[i], steps[i]);
  }

  // ---------- The outbox ----------

  ghost predicate OutboxPart(s: State) {
    OutboxInv(s.db.exec, s.db.tables, s.recorded, s.used)
  }

  lemma TableStepKeepsOutbox(sys: System, s: State, step: Step)
    requires Enabled(sys, s, step) && OutboxPart(s)
    requires step.MarkRetryStep? || step.ClaimStep? || step.RenewStep? || step.RecordStep? || step.MarkCompletedStep?
    ensures OutboxPart(After(sys, s, step))
  {
    hide OutboxInv;
    var s' := After(sys, s, step);
    assert s'.db.exec == s.db.exec && s'.db.tables.tasks == s.db.tables.tasks;
    QuietStepKeepsOutboxInv(s.db.exec, s.db.tables, s'.db.tables, s.recorded, s'.recorded, s.used, s'.used);
  }

  lemma StepKeepsOutbox(sys: System, s: State, step: Step)
    requires ValidSystem(sys) && Inv(sys, s) && Enabled(sys, s, step) && OutboxPart(s)
    ensures OutboxPart(After(sys, s, step))
  {
    hide Inv, OutboxInv, ProcessResult, Dispatch, Trigger, Effect, AfterTrigger, AfterDispatch, AfterProcess, AfterClaim,
         AfterRenew, AfterRecord;
    match step
    case TriggerStep(input, mid) => TriggerKeepsOutbox(sys, s, input, mid);
    case DispatchStep(load, attempt) => DispatchKeepsOutbox(sys, s, load, attempt);
    case ProcessStep(event, next) => ProcessKeepsOutbox(sys, s, event, next);
    case MarkRetryStep(_) => TableStepKeepsOutbox(sys, s, step);
    case ClaimStep(_, _) => TableStepKeepsOutbox(sys, s, step);
    case RenewStep(_) => TableStepKeepsOutbox(sys, s, step);
    case RecordStep(_, _, _) => TableStepKeepsOutbox(sys, s, step);
    case MarkCompletedStep(_) => TableStepKeepsOutbox(sys, s, step);
    case _ => MemoryEffects(sys, s, step);
  }

  lemma InitOutbox(sys: System, s: State)
    requires Init(sys, s)
    ensures OutboxPart(s)
  {
  }

  lemma {:induction false} RunKeepsOutbox(sys: System, states: seq<State>, steps: seq<Step>, i: nat)
    requires ValidSystem(sys) && IsRun(sys, states, steps) && i < |states|
    ensures OutboxPart(states[i])
    decreases i
  {
    hide Inv, Enabled, After, Init, ValidSystem, OutboxPart;
    if i == 0 {
      InitOutbox(sys, states[0]);
    } else {
      RunKeepsOutbox(sys, states, steps, i - 1);
      RunKeepsInv(sys, states, steps, i - 1);
      assert Next(sys, states[i - 1], steps[i - 1], states[i]);
      StepKeepsOutbox(sys, states[i - 1], steps[i - 1]);
    }
  }
}
