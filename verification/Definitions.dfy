/** Workflow definitions and the declared lifecycle state machines. */
module Definitions {
  import opened JsonValues

  datatype Node = Node(id: string, handler: string, dependencies: seq<string>, config: map<string, Json>)

  type Workflow = seq<Node>

  // Workflow executions and node executions share the same four state names.
  datatype Status = Pending | Running | Completed | Failed

  predicate Terminal(s: Status) { s.Completed? || s.Failed? }

  /** The declared transition map of a node execution. */
  const NODE_TRANSITIONS: map<Status, set<Status>> :=
    map[Pending := {Running, Failed}, Running := {Completed, Failed}, Completed := {}, Failed := {}]

  /** The declared transition map of a workflow execution. */
  const WORKFLOW_TRANSITIONS: map<Status, set<Status>> :=
    map[Pending := {Running}, Running := {Completed, Failed}, Completed := {}, Failed := {}]

  predicate NodeMove(before: Status, after: Status) {
    before == after || (before in NODE_TRANSITIONS && after in NODE_TRANSITIONS[before])
  }

  predicate WorkflowMove(before: Status, after: Status) {
    before == after || (before in WORKFLOW_TRANSITIONS && after in WORKFLOW_TRANSITIONS[before])
  }

  // ---------- Looking nodes up by identifier ----------

  function Ids(w: Workflow): set<string> {
    set i | 0 <= i < |w| :: w[i].id
  }

  predicate UniqueIds(w: Workflow) {
    forall i, j :: 0 <= i < j < |w| ==> w[i].id != w[j].id
  }

  ghost function NodeOf(w: Workflow, id: string): (n: Node)
    requires id in Ids(w)
    ensures n in w && n.id == id
  {
    var i :| 0 <= i < |w| && w[i].id == id;
    w[i]
  }

  ghost function DepsOf(w: Workflow, id: string): seq<string>
    requires id in Ids(w)
  {
    NodeOf(w, id).dependencies
  }

  lemma NodeOfUnique(w: Workflow, i: nat)
    requires UniqueIds(w) && i < |w|
    ensures w[i].id in Ids(w)
    ensures NodeOf(w, w[i].id) == w[i]
  {
    var n := NodeOf(w, w[i].id);
    var j :| 0 <= j < |w| && w[j] == n;
  }
}
