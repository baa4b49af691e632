/** The meaning of a workflow: a recursive evaluation of each node from its dependencies. */
module Dataflow {
  import opened Wrappers
  import opened JsonValues
  import opened Definitions
  import opened Graphs
  import opened ExecutionTables
  import opened Protocol
  import InputResolver

  ghost function NodeRank(w: Workflow, n: string): nat
    requires WellFormed(w) && n in Ids(w)
  {
    Rank(DependencyGraph(w), n)
  }

  lemma DependencyDescends(w: Workflow, n: string)
    requires WellFormed(w) && n in Ids(w)
    ensures forall d :: d in DepsOf(w, n) ==> d in Ids(w) && NodeRank(w, d) < NodeRank(w, n)
  {
    forall d | d in DepsOf(w, n) ensures d in Ids(w) && NodeRank(w, d) < NodeRank(w, n) {
      var node := NodeOf(w, n);
      var i :| 0 <= i < |w| && w[i] == node;
      RankDescends(DependencyGraph(w), n, d);
    }
  }

  /** The input of a node, provided all its dependencies have a value. */
  ghost function EvalInput(sys: System, input: map<string, Json>, n: string): Option<map<string, Json>>
    requires WellFormed(sys.settings.workflow) && n in Ids(sys.settings.workflow)
    decreases NodeRank(sys.settings.workflow, n), 0
  {
    var w := sys.settings.workflow;
    DependencyDescends(w, n);
    if forall d :: d in DepsOf(w, n) ==> Eval(sys, input, d).Some?
    then InputResolver.Resolve(NodeOf(w, n), input, map d | d in DepsOf(w, n) :: Eval(sys, input, d).value)
    else None
  }

  /** The output of a node: what its handler computes from its input. */
  ghost function Eval(sys: System, input: map<string, Json>, n: string): Option<Json>
    requires WellFormed(sys.settings.workflow) && n in Ids(sys.settings.workflow)
    decreases NodeRank(sys.settings.workflow, n), 1
  {
    var node := NodeOf(sys.settings.workflow, n);
    match EvalInput(sys, input, n)
    case None => None
    case Some(resolved) => Some(sys.handler(node.handler, node.config, resolved))
  }

  /** When every dependency has completed with its value, dispatch resolves the node's own input. */
  lemma ResolvedInputIsEvalInput(sys: System, input: map<string, Json>, nodes: map<string, NodeRow>, n: string)
    requires WellFormed(sys.settings.workflow) && n in Ids(sys.settings.workflow)
    requires forall d :: d in DepsOf(sys.settings.workflow, n) ==>
               d in Ids(sys.settings.workflow) && d in nodes && nodes[d].status.Completed?
               && Eval(sys, input, d) == Some(nodes[d].output)
    ensures var node := NodeOf(sys.settings.workflow, n);
            EvalInput(sys, input, n) == InputResolver.Resolve(node, input, CompletedOutputs(nodes, node.dependencies))
  {
    var w := sys.settings.workflow;
    DependencyDescends(w, n);
    var values := map d | d in DepsOf(w, n) :: Eval(sys, input, d).value;
    assert values == CompletedOutputs(nodes, NodeOf(w, n).dependencies);
  }
}
