/** Exactly-once bookkeeping: which messages the outbox has ever been given. */
module OutboxLedger {
  import opened Wrappers
  import opened JsonValues
  import opened Definitions
  import opened Traversal
  import opened TaskTables
  import opened AttemptLedger
  import opened ExecutionTables
  import opened ExecutionInvariants
  import opened Protocol
  import opened ProtocolInvariants
  import opened DispatchSteps
  import opened CompletionSteps
  import InputResolver

  /** What a message announces: the trigger, the dispatch of a node, the end of a node, or the end
      of the execution. */
  datatype Topic = AboutTrigger | AboutTask(node: string) | AboutNode(node: string) | AboutWorkflow

  function TopicOf(b: Body): Topic {
    match b
    case ExecutionTriggered => AboutTrigger
    case TaskQueued(m) => AboutTask(m.node)
    case NodeFinished(n, _, _) => AboutNode(n)
    case DependencyFailed(n, _) => AboutNode(n)
    case WorkflowFinished(_) => AboutWorkflow
  }

  predicate Mentioned(outbox: seq<OutboxMessage>, topic: Topic) {
    exists i :: 0 <= i < |outbox| && TopicOf(outbox[i].body) == topic
  }

  predicate TopicsOnce(outbox: seq<OutboxMessage>) {
    forall i, j :: 0 <= i < j < |outbox| ==> TopicOf(outbox[i].body) != TopicOf(outbox[j].body)
  }

  function Count(outbox: seq<OutboxMessage>, topic: Topic): nat {
    if outbox == [] then 0
    else Count(outbox[..|outbox| - 1], topic) + if TopicOf(outbox[|outbox| - 1].body) == topic then 1 else 0
  }

  /** What has happened so far and so must have been announced. */
  predicate Happened(x: Execution, t: Tables, topic: Topic) {
    match topic
    case AboutTrigger => !x.status.Pending?
    case AboutTask(n) => TaskOf(x, n) in t.tasks
    case AboutNode(n) => n in x.nodes && Terminal(x.nodes[n].status)
    case AboutWorkflow => Terminal(x.status)
  }

  // The identifier of a message, which is the primary key of its row.
  ghost predicate KeyOk(x: Execution, rec: set<Event>, used: set<Uuid>, m: OutboxMessage) {
    match m.body
    case ExecutionTriggered => m.id.RandomId? && m.id.id in used && forall e :: e in rec ==> e.id != m.id.id
    case TaskQueued(message) => m.id == TaskMessageId(message.task) && message.task == TaskOf(x, message.node)
    case NodeFinished(n, _, e) => m.id == RandomId(e.id) && e in rec && e.node == n
    case DependencyFailed(n, _) => m.id.NodeFailedId? && m.id.node == n
    case WorkflowFinished(_) => m.id.WorkflowEventId?
  }

  ghost predicate OutboxInv(x: Execution, t: Tables, rec: set<Event>, used: set<Uuid>) {
    && TopicsOnce(x.outbox)
    && (forall topic {:trigger Happened(x, t, topic)} {:trigger Mentioned(x.outbox, topic)} ::
          Mentioned(x.outbox, topic) <==> Happened(x, t, topic))
    && (forall i :: 0 <= i < |x.outbox| ==> KeyOk(x, rec, used, x.outbox[i]))
  }

  // ---------- Consequences ----------

  lemma {:induction false} CountMentioned(outbox: seq<OutboxMessage>, topic: Topic)
    requires TopicsOnce(outbox)
    ensures Count(outbox, topic) == if Mentioned(outbox, topic) then 1 else 0
  {
    if outbox != [] {
      var k := |outbox| - 1;
      CountMentioned(outbox[..k], topic);
      if i :| 0 <= i < k && TopicOf(outbox[i].body) == topic {
        assert TopicOf(outbox[..k][i].body) == topic;
      }
    }
  }

  /** No two messages share their primary key. */
  lemma KeysAreDistinct(x: Execution, t: Tables, rec: set<Event>, used: set<Uuid>, i: nat, j: nat)
    requires OutboxInv(x, t, rec, used) && i < j < |x.outbox|
    requires forall e, f :: e in rec && f in rec && e.id == f.id ==> e == f
    ensures x.outbox[i].id != x.outbox[j].id
  {
    assert KeyOk(x, rec, used, x.outbox[i]) && KeyOk(x, rec, used, x.outbox[j]);
    assert TopicOf(x.outbox[i].body) != TopicOf(x.outbox[j].body);
  }

  // ---------- Appending ----------

  lemma AppendMentions(outbox: seq<OutboxMessage>, more: seq<OutboxMessage>, topic: Topic)
    ensures Mentioned(outbox + more, topic) <==> Mentioned(outbox, topic) || Mentioned(more, topic)
  {
    if i :| 0 <= i < |outbox| && TopicOf(outbox[i].body) == topic {
      assert TopicOf((outbox + more)[i].body) == topic;
    }
    if i :| 0 <= i < |more| && TopicOf(more[i].body) == topic {
      assert TopicOf((outbox + more)[|outbox| + i].body) == topic;
    }
  }

  lemma AppendKeepsOutboxInv(x: Execution, x': Execution, t: Tables, t': Tables, rec: set<Event>, used: set<Uuid>, used': set<Uuid>,
                             more: seq<OutboxMessage>)
    requires OutboxInv(x, t, rec, used) && x'.outbox == x.outbox + more && x'.id == x.id && used <= used'
    requires TopicsOnce(more)
    requires forall i :: 0 <= i < |more| ==> !Happened(x, t, TopicOf(more[i].body))
    requires forall topic {:trigger Happened(x', t', topic)} :: Happened(x', t', topic) <==> Happened(x, t, topic) || Mentioned(more, topic)
    requires forall i :: 0 <= i < |more| ==> KeyOk(x', rec, used', more[i])
    ensures OutboxInv(x', t', rec, used')
  {
    forall i, j | 0 <= i < j < |x'.outbox| ensures TopicOf(x'.outbox[i].body) != TopicOf(x'.outbox[j].body) {
      if i < |x.outbox| <= j {
        assert Mentioned(x.outbox, TopicOf(x.outbox[i].body));
      }
    }
    forall topic ensures Mentioned(x'.outbox, topic) <==> Happened(x', t', topic) {
      AppendMentions(x.outbox, more, topic);
    }
    forall i | 0 <= i < |x'.outbox| ensures KeyOk(x', rec, used', x'.outbox[i]) {
      if i < |x.outbox| {
        assert KeyOk(x, rec, used, x.outbox[i]);
      } else {
        assert x'.outbox[i] == more[i - |x.outbox|];
      }
    }
  }

  // Steps of workers and readers write no message and settle nothing.
  lemma QuietStepKeepsOutboxInv(x: Execution, t: Tables, t': Tables, rec: set<Event>, rec': set<Event>, used: set<Uuid>, used': set<Uuid>)
    requires OutboxInv(x, t, rec, used) && t'.tasks.Keys == t.tasks.Keys && used <= used' && rec <= rec'
    requires forall e :: e in rec' - rec ==> e.id !in used
    ensures OutboxInv(x, t', rec', used')
  {
    forall topic ensures Happened(x, t', topic) <==> Happened(x, t, topic) {
    }
    forall i | 0 <= i < |x.outbox| ensures KeyOk(x, rec', used', x.outbox[i]) {
      assert KeyOk(x, rec, used, x.outbox[i]);
    }
  }

  // ---------- Trigger ----------

  lemma TriggerKeepsOutbox(sys: System, s: State, input: Option<map<string, Json>>, mid: Uuid)
    requires ValidSystem(sys) && Inv(sys, s) && Trigger(s.db.exec, input, mid).Ok? && mid !in s.used
    requires OutboxInv(s.db.exec, s.db.tables, s.recorded, s.used)
    ensures var s' := AfterTrigger(s, input, mid); OutboxInv(s'.db.exec, s'.db.tables, s'.recorded, s'.used)
  {
    hide Ledger, ValuePart, LeasePart, RetryPart, TaskPart, MessagePart, ReadyPart, ExecPart;
    NothingBeforeTrigger(sys, s);
    var x, x' := s.db.exec, Trigger(s.db.exec, input, mid).value;
    var more := [OutboxMessage(RandomId(mid), ExecutionTriggered)];
    assert Mentioned(more, AboutTrigger) by {
      assert TopicOf(more[0].body) == AboutTrigger;
    }
    AppendKeepsOutboxInv(x, x', s.db.tables, s.db.tables, s.recorded, s.used, s.used + {mid}, more);
  }

  // ---------- Dispatch ----------

  lemma ClaimKeepsOutbox(sys: System, s: State, node: Node, input: map<string, Json>, attempt: Uuid)
    requires ValidSystem(sys) && Inv(sys, s) && attempt !in s.used
    requires node.id in Ids(Flow(sys)) && node.id in s.db.exec.nodes && s.db.exec.nodes[node.id].status.Pending?
    requires OutboxInv(s.db.exec, s.db.tables, s.recorded, s.used)
    ensures var db' := Claim(s.db, node, input, attempt); OutboxInv(db'.exec, db'.tables, s.recorded, s.used + {attempt})
  {
    hide Inv, Claim, OutboxInv;
    ClaimEffect(sys, s, node, input, attempt);
    var db' := Claim(s.db, node, input, attempt);
    var x, x', t, t' := s.db.exec, db'.exec, s.db.tables, db'.tables;
    var more := [x'.outbox[|x.outbox|]];
    forall topic ensures Happened(x', t', topic) <==> Happened(x, t, topic) || Mentioned(more, topic) {
      if topic == AboutTask(node.id) {
        assert TopicOf(more[0].body) == topic;
      }
    }
    AppendKeepsOutboxInv(x, x', t, t', s.recorded, s.used, s.used + {attempt}, more);
  }

  lemma DispatchKeepsOutbox(sys: System, s: State, load: Load, attempt: Uuid)
    requires ValidSystem(sys) && Inv(sys, s) && load in s.loaded && attempt !in s.used
    requires Dispatch(s.db, load.node, load.input, attempt).Ok?
    requires OutboxInv(s.db.exec, s.db.tables, s.recorded, s.used)
    ensures var s' := AfterDispatch(s, load, attempt); OutboxInv(s'.db.exec, s'.db.tables, s'.recorded, s'.used)
  {
    hide Inv, Claim, OutboxInv;
    DispatchNeverFails(sys, s, load);
    if load.node.id in s.db.exec.nodes && s.db.exec.nodes[load.node.id].status.Pending? {
      var resolved := InputOf(s.db, load);
      ClaimKeepsOutbox(sys, s, load.node, resolved, attempt);
    } else {
      QuietStepKeepsOutboxInv(s.db.exec, s.db.tables, s.db.tables, s.recorded, s.recorded, s.used, s.used + {attempt});
    }
  }

  ghost function InputOf(db: Db, load: Load): map<string, Json> {
    match InputResolver.Resolve(load.node, load.input, CompletedOutputs(db.exec.nodes, load.node.dependencies))
    case Some(resolved) => resolved
    case None => map[]
  }

  // ---------- Completion ----------

  /** What propagation appends: one message for each node it fails, and one for the event's own node. */
  ghost function PropagationMessages(w: Workflow, x: Execution, e: Event): seq<OutboxMessage>
    requires e.node in x.nodes
  {
    if e.outcome.Succeeded? then [Finished(e)]
    else
      DependencyMessages(e.id, e.node, FailedDependencies(w, NodeStatuses(x.nodes[e.node := Settle(x.nodes[e.node], e.outcome)])))
      + [Finished(e)]
  }

  lemma DoomedArePending(w: Workflow, nodes: map<string, NodeRow>, n: string)
    requires nodes.Keys == Ids(w) && n in FailedDependencies(w, NodeStatuses(nodes))
    ensures n in nodes && nodes[n].status.Pending?
  {
    var st := NodeStatuses(nodes);
    SelectMember(w, DoomedSet(w, st), n);
    var p :| FailurePath(w, st, p) && p[|p| - 1] == n;
  }

  lemma PropagateAppends(w: Workflow, x: Execution, e: Event)
    requires x.nodes.Keys == Ids(w) && e.node in x.nodes
    ensures Propagate(w, x, e).outbox == x.outbox + PropagationMessages(w, x, e)
  {
    hide FailedDependencies, FailDependants;
    if e.outcome.Errored? {
      var settled := x.nodes[e.node := Settle(x.nodes[e.node], e.outcome)];
      var ids := FailedDependencies(w, NodeStatuses(settled));
      forall i | 0 <= i < |ids| ensures ids[i] in settled && settled[ids[i]].status.Pending? {
        DoomedArePending(w, settled, ids[i]);
      }
      PendingAmongAll(settled, ids);
    }
  }

  lemma MessagesName(e: Event, ids: seq<string>, n: string)
    ensures Mentioned(DependencyMessages(e.id, e.node, ids) + [Finished(e)], AboutNode(n)) <==> n == e.node || n in ids
  {
    var more := DependencyMessages(e.id, e.node, ids) + [Finished(e)];
    assert TopicOf(more[|more| - 1].body) == AboutNode(e.node);
    if i :| 0 <= i < |ids| && ids[i] == n {
      assert TopicOf(more[i].body) == AboutNode(n);
    }
  }

  lemma FailureNames(w: Workflow, x: Execution, e: Event, n: string)
    requires x.nodes.Keys == Ids(w) && e.node in x.nodes && x.nodes[e.node].status.Running? && n in x.nodes && e.outcome.Errored?
    ensures n in Propagate(w, x, e).nodes
    ensures Mentioned(PropagationMessages(w, x, e), AboutNode(n)) <==>
            !Terminal(x.nodes[n].status) && Terminal(Propagate(w, x, e).nodes[n].status)
    ensures Terminal(x.nodes[n].status) ==> Terminal(Propagate(w, x, e).nodes[n].status)
  {
    hide FailDependants, FailedDependencies, Mentioned, DependencyMessages;
    var settled := x.nodes[e.node := Settle(x.nodes[e.node], e.outcome)];
    FailDependantsRows(w, settled, e.node);
    FailedExactlyListed(w, settled, e.node, n);
    MessagesName(e, FailedDependencies(w, NodeStatuses(settled)), n);
  }

  // The nodes that end with this event are exactly those the messages name.
  lemma PropagationNames(w: Workflow, x: Execution, e: Event, n: string)
    requires x.nodes.Keys == Ids(w) && e.node in x.nodes && x.nodes[e.node].status.Running? && n in x.nodes
    ensures n in Propagate(w, x, e).nodes
    ensures Mentioned(PropagationMessages(w, x, e), AboutNode(n)) <==>
            !Terminal(x.nodes[n].status) && Terminal(Propagate(w, x, e).nodes[n].status)
    ensures Terminal(x.nodes[n].status) ==> Terminal(Propagate(w, x, e).nodes[n].status)
  {
    if e.outcome.Errored? {
      FailureNames(w, x, e, n);
    } else {
      assert TopicOf(PropagationMessages(w, x, e)[0].body) == AboutNode(e.node);
    }
  }

  lemma FailedExactlyListed(w: Workflow, nodes: map<string, NodeRow>, cause: string, n: string)
    requires nodes.Keys == Ids(w) && n in nodes
    ensures n in FailDependants(w, nodes, cause)
    ensures n in FailedDependencies(w, NodeStatuses(nodes)) <==>
            nodes[n].status.Pending? && FailDependants(w, nodes, cause)[n].status.Failed?
  {
    if n in FailedDependencies(w, NodeStatuses(nodes)) {
      DoomedArePending(w, nodes, n);
    }
  }

  lemma PropagationTopicsOnce(w: Workflow, x: Execution, e: Event)
    requires UniqueIds(w) && x.nodes.Keys == Ids(w) && e.node in x.nodes && x.nodes[e.node].status.Running?
    ensures TopicsOnce(PropagationMessages(w, x, e))
  {
    if e.outcome.Errored? {
      var settled := x.nodes[e.node := Settle(x.nodes[e.node], e.outcome)];
      var ids := FailedDependencies(w, NodeStatuses(settled));
      SelectNoDuplicates(w, DoomedSet(w, NodeStatuses(settled)));
      hide FailedDependencies;
      forall i | 0 <= i < |ids| ensures ids[i] != e.node {
        DoomedArePending(w, settled, ids[i]);
      }
    }
  }

  lemma PropagateKeepsOutbox(sys: System, x: Execution, t: Tables, rec: set<Event>, used: set<Uuid>, e: Event)
    requires ValidSystem(sys) && ExecPart(sys, x) && e in rec && e.node in x.nodes && x.nodes[e.node].status.Running?
    requires OutboxInv(x, t, rec, used)
    ensures OutboxInv(Propagate(Flow(sys), x, e), t, rec, used)
  {
    hide OutboxInv, Propagate, PropagationMessages, StartedAfterDependencies, FailurePropagated, StatusAgrees, FailedDependencies;
    var w := Flow(sys);
    var x', more := Propagate(w, x, e), PropagationMessages(w, x, e);
    PropagateStatus(w, x, e);
    PropagateAppends(w, x, e);
    PropagationTopicsOnce(w, x, e);
    PropagateKeepsOrder(w, x, e);
    PropagationBodies(w, x, e);
    forall topic ensures Happened(x', t, topic) <==> Happened(x, t, topic) || Mentioned(more, topic) {
      if topic.AboutNode? && topic.node in x.nodes {
        PropagationNames(w, x, e, topic.node);
      }
    }
    forall i | 0 <= i < |more| ensures !Happened(x, t, TopicOf(more[i].body)) && KeyOk(x', rec, used, more[i]) {
      PropagationNames(w, x, e, TopicOf(more[i].body).node);
    }
    AppendKeepsOutboxInv(x, x', t, t, rec, used, used, more);
  }

  lemma PropagationBodies(w: Workflow, x: Execution, e: Event)
    requires x.nodes.Keys == Ids(w) && e.node in x.nodes
    ensures forall i :: 0 <= i < |PropagationMessages(w, x, e)| ==>
              var m := PropagationMessages(w, x, e)[i];
              (m == Finished(e) || (m.body.DependencyFailed? && m.id == NodeFailedId(e.id, m.body.node)))
              && TopicOf(m.body).AboutNode? && TopicOf(m.body).node in x.nodes
    ensures forall topic :: Mentioned(PropagationMessages(w, x, e), topic) ==> topic.AboutNode? && topic.node in x.nodes
  {
    if e.outcome.Errored? {
      var settled := x.nodes[e.node := Settle(x.nodes[e.node], e.outcome)];
      var ids := FailedDependencies(w, NodeStatuses(settled));
      hide FailedDependencies;
      forall i | 0 <= i < |ids| ensures ids[i] in x.nodes {
        DoomedArePending(w, settled, ids[i]);
      }
    }
  }

  lemma FinalizeKeepsOutbox(w: Workflow, x: Execution, t: Tables, rec: set<Event>, used: set<Uuid>, correlation: Uuid)
    requires OutboxInv(x, t, rec, used)
    ensures OutboxInv(Finalize(w, x, correlation), t, rec, used)
  {
    var x' := Finalize(w, x, correlation);
    if x' != x {
      var more := x'.outbox[|x.outbox|..];
      assert |more| == 1 && more[0].body.WorkflowFinished?;
      assert x'.outbox == x.outbox + more;
      hide OutboxInv, Finalize;
      forall topic ensures Happened(x', t, topic) <==> Happened(x, t, topic) || Mentioned(more, topic) {
        if topic == AboutWorkflow {
          assert TopicOf(more[0].body) == topic;
        }
      }
      AppendKeepsOutboxInv(x, x', t, t, rec, used, used, more);
    }
  }

  lemma ConcludeKeepsOutbox(sys: System, db: Db, rec: set<Event>, used: set<Uuid>, e: Event)
    requires ValidSystem(sys) && ExecPart(sys, db.exec) && e in rec && e.node in db.exec.nodes
    requires OutboxInv(db.exec, db.tables, rec, used) && Conclude(Flow(sys), db, e).Ok?
    ensures var db' := Conclude(Flow(sys), db, e).value.1; OutboxInv(db'.exec, db'.tables, rec, used)
  {
    hide OutboxInv, Propagate, Finalize, ExecPart;
    if db.exec.nodes[e.node].status.Running? {
      PropagateKeepsOutbox(sys, db.exec, db.tables, rec, used, e);
      FinalizeKeepsOutbox(Flow(sys), Propagate(Flow(sys), db.exec, e), db.tables, rec, used, e.id);
    }
  }

  lemma ProcessKeepsOutbox(sys: System, s: State, e: Event, next: Uuid)
    requires ValidSystem(sys) && Inv(sys, s) && e in s.completions && next !in s.used && ProcessResult(sys, s, e, next).Ok?
    requires OutboxInv(s.db.exec, s.db.tables, s.recorded, s.used)
    ensures var s' := AfterProcess(sys, s, e, next); OutboxInv(s'.db.exec, s'.db.tables, s'.recorded, s'.used)
  {
    DeliveredIsRecorded(sys, s, e);
    assert ExecPart(sys, s.db.exec);
    hide OutboxInv, Inv, Conclude, Process, ExecPart;
    var x, t := s.db.exec, s.db.tables;
    QuietStepKeepsOutboxInv(x, t, t, s.recorded, s.recorded, s.used, s.used + {next});
    if e.outcome.Succeeded? {
      ProcessSuccess(sys, s, e, next);
      if x.nodes[e.node].status.Running? {
        ConcludeKeepsOutbox(sys, s.db, s.recorded, s.used + {next}, e);
      }
    } else {
      ProcessFailureKeepsOutbox(sys, s, e, next);
    }
  }

  lemma ProcessFailureKeepsOutbox(sys: System, s: State, e: Event, next: Uuid)
    requires ValidSystem(sys) && Inv(sys, s) && e in s.completions && e.outcome.Errored? && next !in s.used
    requires ProcessResult(sys, s, e, next).Ok?
    requires OutboxInv(s.db.exec, s.db.tables, s.recorded, s.used)
    ensures var s' := AfterProcess(sys, s, e, next); OutboxInv(s'.db.exec, s'.db.tables, s'.recorded, s'.used)
  {
    DeliveredIsRecorded(sys, s, e);
    hide OutboxInv, Inv, Conclude, Process, AfterRetry, AfterExhausted, ExecPart;
    var x, t := s.db.exec, s.db.tables;
    QuietStepKeepsOutboxInv(x, t, t, s.recorded, s.recorded, s.used, s.used + {next});
    ProcessFailure(sys, s, e, next);
    if t.attempts[e.attempt].failureEvent.None? {
      FailureKeepsTaskKeys(t, e, next, RetryTime(sys, s, e));
      var t' := if e.number < Limit(sys)
                then AfterRetry(t, e.task, e.attempt, e.id, e.outcome.error, next, RetryTime(sys, s, e))
                else AfterExhausted(t, e.task, e.attempt, e.id, e.outcome.error);
      QuietStepKeepsOutboxInv(x, t, t', s.recorded, s.recorded, s.used, s.used + {next});
      if e.number >= Limit(sys) {
        ConcludeKeepsOutbox(sys, s.db.(tables := t'), s.recorded, s.used + {next}, e);
      }
    }
  }

  lemma FailureKeepsTaskKeys(t: Tables, e: Event, next: Uuid, at: Time)
    requires e.outcome.Errored? && e.task in t.tasks && e.attempt in t.attempts
    ensures AfterRetry(t, e.task, e.attempt, e.id, e.outcome.error, next, at).tasks.Keys == t.tasks.Keys
    ensures AfterExhausted(t, e.task, e.attempt, e.id, e.outcome.error).tasks.Keys == t.tasks.Keys
  {
  }
}
