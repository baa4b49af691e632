/** Steps that leave the database alone: messages are put on streams, and processes read rows
    into memory. */
module MemorySteps {
  import opened Definitions
  import opened Traversal
  import opened TaskTables
  import opened AttemptLedger
  import opened ExecutionTables
  import opened ExecutionInvariants
  import opened Protocol
  import opened ProtocolInvariants

  lemma PublishOutboxKeepsInv(sys: System, s: State, row: nat)
    requires ValidSystem(sys) && Inv(sys, s) && row < |s.db.exec.outbox|
    ensures Inv(sys, AfterPublishOutbox(s, row))
  {
    hide ExecPart, TaskPart, Ledger, ValuePart, Describes;
  }

  lemma EvaluateKeepsInv(sys: System, s: State)
    requires ValidSystem(sys) && Inv(sys, s) && s.triggered
    ensures Inv(sys, AfterEvaluate(sys, s))
  {
    hide TaskPart, Ledger, ValuePart, AllDescribe, RetryPart, LeasePart, DependenciesCompleted;
    forall n | n in ReadyIds(Flow(sys), NodeStatuses(s.db.exec.nodes))
      ensures DependenciesCompleted(Flow(sys), s.db.exec.nodes, n)
    {
      ReadyDependencies(Flow(sys), s.db.exec.nodes, n);
    }
  }

  lemma LoadKeepsInv(sys: System, s: State, n: string)
    requires ValidSystem(sys) && Inv(sys, s) && n in s.ready && n in Ids(Flow(sys))
    ensures Inv(sys, AfterLoad(sys, s, n))
  {
    hide ExecPart, TaskPart, Ledger, ValuePart, AllDescribe, RetryPart, LeasePart, DependenciesCompleted;
  }

  lemma ReadRetriesKeepsInv(sys: System, s: State)
    requires ValidSystem(sys) && Inv(sys, s)
    ensures Inv(sys, s.(due := s.due + GetDueRetries(s.db.tables, s.now)))
  {
    hide ExecPart, ReadyPart, TaskPart, Ledger, ValuePart, RetryPart, LeasePart;
  }

  lemma PublishRetryKeepsInv(sys: System, s: State, m: TaskMessage)
    requires ValidSystem(sys) && Inv(sys, s) && m in s.due
    ensures Inv(sys, s.(tasks := s.tasks + {m}))
  {
    hide ExecPart, ReadyPart, TaskPart, Ledger, ValuePart, LeasePart, Describes;
  }

  /** A worker replays exactly the event that was recorded last. */
  lemma ReplayedEventIsRecorded(t: Tables, rec: set<Event>, m: TaskMessage)
    requires Coherent(t, rec) && Describes(t, m) && EventFromResult(m, t.attempts[m.attempt]).Ok?
    ensures EventFromResult(m, t.attempts[m.attempt]).value == RowEvent(m.attempt, t.attempts[m.attempt])
    ensures EventFromResult(m, t.attempts[m.attempt]).value in rec
  {
    assert RowOk(t, rec, m.attempt);
  }

  lemma ReplayKeepsInv(sys: System, s: State, m: TaskMessage)
    requires ValidSystem(sys) && Inv(sys, s) && m in s.replaying
    requires m.attempt in s.db.tables.attempts && EventFromResult(m, s.db.tables.attempts[m.attempt]).Ok?
    ensures Inv(sys, s.(unpublished := s.unpublished + {EventFromResult(m, s.db.tables.attempts[m.attempt]).value}))
  {
    hide ExecPart, ReadyPart, TaskPart, ValuePart, RetryPart, LeasePart, Chained, RetryRows;
    ReplayedEventIsRecorded(s.db.tables, s.recorded, m);
  }

  lemma PublishCompletionKeepsInv(sys: System, s: State, e: Event)
    requires ValidSystem(sys) && Inv(sys, s) && e in s.unpublished
    ensures Inv(sys, s.(completions := s.completions + {e}))
  {
    hide ExecPart, ReadyPart, TaskPart, Ledger, ValuePart, AllDescribe, RetryPart, LeasePart;
  }

  lemma TickKeepsInv(sys: System, s: State, time: Time)
    requires ValidSystem(sys) && Inv(sys, s) && time >= s.now
    ensures Inv(sys, s.(now := time))
  {
    hide ExecPart, ReadyPart, TaskPart, Ledger, ValuePart, AllDescribe, RetryPart;
    forall l | l in s.leases ensures LeaseOk(s.db.tables, time, l, s.leases[l]) {
      assert LeaseOk(s.db.tables, s.now, l, s.leases[l]);
    }
  }
}
