/** How the messages of an execution are written to the outbox, and that publication in the step system
    is publication by the publisher. */
module OutboxRows {
  import opened Definitions
  import opened TaskTables
  import opened ExecutionTables
  import opened Protocol
  import P = OutboxPublishing

  function KindOf(b: Body): string {
    match b
    case ExecutionTriggered => "workflow.execution.triggered"
    case TaskQueued(_) => "workflow.task"
    case NodeFinished(_, status, _) => if status.Completed? then "workflow.node.completed" else "workflow.node.failed"
    case DependencyFailed(_, _) => "workflow.node.failed"
    case WorkflowFinished(status) => if status.Completed? then "workflow.execution.completed" else "workflow.execution.failed"
  }

  function TargetOf(b: Body): string {
    match b
    case TaskQueued(_) => "workflow.tasks"
    case _ => "workflow.events"
  }

  /** The row that is written for a message. */
  ghost predicate WrittenAs(m: OutboxMessage, r: P.Message) {
    r.kind == KindOf(m.body) && r.target == TargetOf(m.body)
  }

  /** A task, and nothing else, is written for the task stream, under its own kind; the trigger is the
      only message of its kind on the event stream. */
  lemma WrittenForItsReaders(m: OutboxMessage, r: P.Message)
    requires WrittenAs(m, r)
    ensures r.target == "workflow.tasks" <==> m.body.TaskQueued?
    ensures r.target == "workflow.events" <==> !m.body.TaskQueued?
    ensures r.kind == "workflow.task" <==> m.body.TaskQueued?
    ensures r.kind == "workflow.execution.triggered" <==> m.body.ExecutionTriggered?
    ensures r.kind == "workflow.execution.completed" <==> m.body.WorkflowFinished? && m.body.status.Completed?
    ensures r.kind == "workflow.execution.failed" <==> m.body.WorkflowFinished? && !m.body.status.Completed?
    ensures r.kind == "workflow.node.completed" <==> m.body.NodeFinished? && m.body.status.Completed?
    ensures r.kind == "workflow.node.failed" <==> m.body.DependencyFailed? || (m.body.NodeFinished? && !m.body.status.Completed?)
  {
    var k := KindOf(m.body);
    assert "workflow.task"[9] == 't' && |"workflow.task"| == 13;
    assert "workflow.execution.triggered"[19] == 't' && |"workflow.execution.triggered"| == 28;
    assert "workflow.execution.completed"[19] == 'c' && |"workflow.execution.completed"| == 28;
    assert |"workflow.execution.failed"| == 25 && |"workflow.node.completed"| == 23 && |"workflow.node.failed"| == 20;
    assert |"workflow.tasks"| == 14 && |"workflow.events"| == 15;
  }

  /** In any history of the publisher in which the row of a message of the execution was sent, the
      message has reached the task stream exactly when the step system puts it there. */
  lemma PublisherAgrees(s: State, row: nat, states: seq<P.State>, ops: seq<P.Operation>, i: nat, d: P.Delivery)
    requires row < |s.db.exec.outbox| && P.IsHistory(states, ops) && i < |states| && d in states[i].streams
    requires d.key in states[i].written && WrittenAs(s.db.exec.outbox[row], states[i].written[d.key])
    ensures d.stream == "workflow.tasks" <==> s.db.exec.outbox[row].body.TaskQueued?
    ensures d.stream == "workflow.tasks" ==> AfterPublishOutbox(s, row) == s.(tasks := s.tasks + {s.db.exec.outbox[row].body.message})
    ensures d.stream != "workflow.tasks" ==> d.stream == "workflow.events" && AfterPublishOutbox(s, row).tasks == s.tasks
    ensures AfterPublishOutbox(s, row).triggered <==> s.triggered || d.message.kind == "workflow.execution.triggered"
  {
    P.SentToItsStream(states, ops, i, d);
    WrittenForItsReaders(s.db.exec.outbox[row], states[i].written[d.key]);
  }
}
