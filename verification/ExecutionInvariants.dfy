/** What the transactions of the orchestrator keep true of the execution row and the node rows. */
module ExecutionInvariants {
  import opened Wrappers
  import opened JsonValues
  import opened Definitions
  import opened Traversal
  import opened TaskTables
  import opened ExecutionTables

  // ---------- The invariant ----------

  // A node that was started has only completed dependencies.
  ghost predicate StartedAfterDependencies(w: Workflow, nodes: map<string, NodeRow>) {
    forall n, d {:trigger d in DepsOf(w, n)} ::
      (n in Ids(w) && d in DepsOf(w, n) && n in nodes && d in nodes
       && (nodes[n].status.Running? || nodes[n].status.Completed?)) ==> nodes[d].status.Completed?
  }

  // Failure has reached every dependant.
  ghost predicate FailurePropagated(w: Workflow, nodes: map<string, NodeRow>) {
    forall n, d {:trigger d in DepsOf(w, n)} ::
      n in Ids(w) && d in DepsOf(w, n) && n in nodes && d in nodes && nodes[d].status.Failed?
      ==> nodes[n].status.Failed?
  }

  /** The status of the execution says what its nodes say. */
  ghost predicate StatusAgrees(w: Workflow, x: Execution) {
    && (x.status.Pending? ==> forall n :: n in x.nodes ==> x.nodes[n].status.Pending?)
    && (x.status.Failed? <==> AnyFailed(x.nodes))
    && (x.status.Completed? <==> w != [] && AllCompleted(w, x.nodes))
  }

  ghost predicate ExecutionInv(w: Workflow, x: Execution) {
    && x.nodes.Keys == Ids(w)
    && StartedAfterDependencies(w, x.nodes)
    && FailurePropagated(w, x.nodes)
    && StatusAgrees(w, x)
  }

  // All dependencies of a node have completed; this never changes back.
  ghost predicate DependenciesCompleted(w: Workflow, nodes: map<string, NodeRow>, n: string) {
    n in Ids(w) && forall d :: d in DepsOf(w, n) ==> d in nodes && nodes[d].status.Completed?
  }

  /** Rows change only along the declared transitions. */
  ghost predicate NodeMoves(before: map<string, NodeRow>, after: map<string, NodeRow>) {
    && after.Keys == before.Keys
    && forall n :: n in before ==> NodeMove(before[n].status, after[n].status)
  }

  // A completed row is never written again.
  ghost predicate CompletedKept(before: map<string, NodeRow>, after: map<string, NodeRow>) {
    forall n :: n in before && n in after && before[n].status.Completed? ==> after[n] == before[n]
  }

  lemma KnownDependency(w: Workflow, n: string, d: string)
    requires KnownDependencies(w) && n in Ids(w) && d in DepsOf(w, n)
    ensures d in Ids(w)
  {
    var node := NodeOf(w, n);
    var i :| 0 <= i < |w| && w[i] == node;
  }

  lemma SubmittedInv(w: Workflow, id: Uuid)
    ensures ExecutionInv(w, Submitted(w, id).exec)
  {
    if w != [] {
      assert w[0].id in Ids(w);
    }
  }

  lemma TriggerKeepsInv(w: Workflow, x: Execution, input: Option<map<string, Json>>, mid: Uuid)
    requires ExecutionInv(w, x) && Trigger(x, input, mid).Ok?
    ensures ExecutionInv(w, Trigger(x, input, mid).value)
  {
    if w != [] {
      assert w[0].id in x.nodes;
    }
  }

  // ---------- Claiming a node ----------

  lemma ClaimKeepsExecution(w: Workflow, x: Execution, x': Execution, n: string)
    requires ExecutionInv(w, x) && DependenciesCompleted(w, x.nodes, n) && x.nodes[n].status.Pending? && !x.status.Pending?
    requires x'.status == x.status && x'.nodes == x.nodes[n := x.nodes[n].(status := Running)]
    ensures ExecutionInv(w, x') && NodeMoves(x.nodes, x'.nodes) && CompletedKept(x.nodes, x'.nodes)
  {
    assert AnyFailed(x'.nodes) <==> AnyFailed(x.nodes) by {
      if m :| m in x.nodes && x.nodes[m].status.Failed? {
        assert x'.nodes[m].status.Failed?;
      }
    }
    var i :| 0 <= i < |w| && w[i].id == n;
    assert !AllCompleted(w, x.nodes) && !AllCompleted(w, x'.nodes);
  }

  // ---------- Completing a node ----------

  lemma CompleteKeepsOrder(w: Workflow, before: map<string, NodeRow>, after: map<string, NodeRow>, n: string, output: Json)
    requires before.Keys == Ids(w) && n in before && before[n].status.Running?
    requires StartedAfterDependencies(w, before) && FailurePropagated(w, before)
    requires after == before[n := before[n].(status := Completed, output := output)]
    ensures StartedAfterDependencies(w, after) && FailurePropagated(w, after)
    ensures NodeMoves(before, after) && CompletedKept(before, after)
  {
  }

  // ---------- Failing a node ----------

  lemma FailStatuses(w: Workflow, nodes: map<string, NodeRow>, cause: string, n: string)
    requires nodes.Keys == Ids(w) && n in nodes
    ensures n in FailDependants(w, nodes, cause)
    ensures FailDependants(w, nodes, cause)[n].status
            == StatusOf(Fail(NodeStatuses(nodes), DoomedSet(w, NodeStatuses(nodes))), n)
    ensures nodes[n].status.Pending? || FailDependants(w, nodes, cause)[n] == nodes[n]
    ensures NodeMove(nodes[n].status, FailDependants(w, nodes, cause)[n].status)
  {
    var st := NodeStatuses(nodes);
    hide DoomedSet, SelectIds;
    SelectMember(w, DoomedSet(w, st), n);
    if n in DoomedSet(w, st) {
      DoomedIsPending(w, st, n);
    }
  }

  lemma DoomedIsPending(w: Workflow, st: Statuses, n: string)
    requires n in DoomedSet(w, st)
    ensures StatusOf(st, n).Pending?
  {
    var p :| FailurePath(w, st, p) && p[|p| - 1] == n;
  }

  lemma FailedReaches(w: Workflow, nodes: map<string, NodeRow>, cause: string, n: string, d: string)
    requires UniqueIds(w) && nodes.Keys == Ids(w)
    requires n in Ids(w) && d in DepsOf(w, n) && d in Ids(w)
    requires n in FailDependants(w, nodes, cause) && d in FailDependants(w, nodes, cause)
    requires FailDependants(w, nodes, cause)[d].status.Failed?
    ensures !FailDependants(w, nodes, cause)[n].status.Pending?
  {
    hide FailDependants, DoomedSet;
    FailStatuses(w, nodes, cause, n);
    FailStatuses(w, nodes, cause, d);
    DependsIsDepsOf(w, n, d);
    PropagationCloses(w, NodeStatuses(nodes), n, d);
  }

  // Rows other than pending ones stay as they are; pending ones stay or fail.
  ghost predicate OnlyPendingFail(before: map<string, NodeRow>, after: map<string, NodeRow>) {
    && after.Keys == before.Keys
    && forall m :: m in before ==> after[m] == before[m] || (before[m].status.Pending? && after[m].status.Failed?)
  }

  lemma FailDependantsRows(w: Workflow, nodes: map<string, NodeRow>, cause: string)
    ensures OnlyPendingFail(nodes, FailDependants(w, nodes, cause))
  {
  }

  lemma DependantsHaveFailed(w: Workflow, before: map<string, NodeRow>, n: string, row: NodeRow)
    requires UniqueIds(w) && before.Keys == Ids(w)
    requires n in before && before[n].status.Running? && row.status.Failed?
    requires StartedAfterDependencies(w, before)
    ensures FailurePropagated(w, FailDependants(w, before[n := row], n))
  {
    hide FailDependants;
    var settled := before[n := row];
    var after := FailDependants(w, settled, n);
    FailDependantsRows(w, settled, n);
    forall m, d | m in Ids(w) && d in DepsOf(w, m) && m in after && d in after && after[d].status.Failed?
      ensures after[m].status.Failed?
    {
      FailedReaches(w, settled, n, m, d);
      assert !before[d].status.Completed?;
    }
  }

  lemma StartedStaysAfterDependencies(w: Workflow, before: map<string, NodeRow>, n: string, row: NodeRow, after: map<string, NodeRow>)
    requires n in before && before[n].status.Running? && row.status.Failed?
    requires StartedAfterDependencies(w, before) && OnlyPendingFail(before[n := row], after)
    ensures StartedAfterDependencies(w, after) && NodeMoves(before, after) && CompletedKept(before, after)
  {
  }

  lemma FailKeepsOrder(w: Workflow, before: map<string, NodeRow>, n: string, row: NodeRow)
    requires UniqueIds(w) && KnownDependencies(w) && before.Keys == Ids(w)
    requires n in before && before[n].status.Running? && row.status.Failed?
    requires StartedAfterDependencies(w, before) && FailurePropagated(w, before)
    ensures var after := FailDependants(w, before[n := row], n);
            after.Keys == Ids(w) && StartedAfterDependencies(w, after) && FailurePropagated(w, after)
            && NodeMoves(before, after) && CompletedKept(before, after)
  {
    hide FailDependants, FailurePropagated, StartedAfterDependencies, NodeMoves, CompletedKept;
    var after := FailDependants(w, before[n := row], n);
    FailDependantsRows(w, before[n := row], n);
    DependantsHaveFailed(w, before, n, row);
    StartedStaysAfterDependencies(w, before, n, row, after);
  }

  // ---------- Finalization ----------

  /** Finalization brings the status of a running execution into line with its nodes. */
  lemma FinalizeAgrees(w: Workflow, x: Execution, correlation: Uuid)
    requires x.nodes.Keys == Ids(w) && w != [] && !x.status.Pending?
    requires x.status.Failed? ==> AnyFailed(x.nodes)
    requires x.status.Completed? ==> AllCompleted(w, x.nodes)
    ensures StatusAgrees(w, Finalize(w, x, correlation))
  {
    if AnyFailed(x.nodes) {
      var n :| n in x.nodes && x.nodes[n].status.Failed?;
      var i :| 0 <= i < |w| && w[i].id == n;
      assert !AllCompleted(w, x.nodes);
    }
  }

  // ---------- The completion transaction ----------

  lemma FailureStaysFailed(before: map<string, NodeRow>, after: map<string, NodeRow>)
    requires NodeMoves(before, after)
    ensures AnyFailed(before) ==> AnyFailed(after)
  {
    if n :| n in before && before[n].status.Failed? {
      assert after[n].status.Failed?;
    }
  }

  lemma PropagateKeepsOrder(w: Workflow, x: Execution, e: Event)
    requires UniqueIds(w) && KnownDependencies(w) && ExecutionInv(w, x)
    requires e.node in x.nodes && x.nodes[e.node].status.Running?
    ensures var after := Propagate(w, x, e);
            after.nodes.Keys == Ids(w) && StartedAfterDependencies(w, after.nodes) && FailurePropagated(w, after.nodes)
            && NodeMoves(x.nodes, after.nodes) && CompletedKept(x.nodes, after.nodes)
  {
    hide FailDependants;
    if e.outcome.Succeeded? {
      CompleteKeepsOrder(w, x.nodes, Propagate(w, x, e).nodes, e.node, e.outcome.output);
    } else {
      FailKeepsOrder(w, x.nodes, e.node, Settle(x.nodes[e.node], e.outcome));
    }
  }

  lemma ConcludeKeepsInv(w: Workflow, db: Db, e: Event)
    requires UniqueIds(w) && KnownDependencies(w) && ExecutionInv(w, db.exec)
    requires e.node in db.exec.nodes && Conclude(w, db, e).Ok?
    ensures var db' := Conclude(w, db, e).value.1;
            ExecutionInv(w, db'.exec) && NodeMoves(db.exec.nodes, db'.exec.nodes)
            && CompletedKept(db.exec.nodes, db'.exec.nodes)
  {
    hide Propagate;
    var x := db.exec;
    if x.nodes[e.node].status.Running? {
      var after := Propagate(w, x, e);
      PropagateKeepsOrder(w, x, e);
      FailureStaysFailed(x.nodes, after.nodes);
      PropagateStatus(w, x, e);
      var i :| 0 <= i < |w| && w[i].id == e.node;
      FinalizeAgrees(w, after, e.id);
    }
  }

  lemma PropagateStatus(w: Workflow, x: Execution, e: Event)
    requires e.node in x.nodes
    ensures Propagate(w, x, e).status == x.status && Propagate(w, x, e).id == x.id && Propagate(w, x, e).input == x.input
  {
  }

  /** Every ready node has only completed dependencies. */
  lemma ReadyDependencies(w: Workflow, nodes: map<string, NodeRow>, n: string)
    requires UniqueIds(w) && KnownDependencies(w) && nodes.Keys == Ids(w) && n in ReadyIds(w, NodeStatuses(nodes))
    ensures DependenciesCompleted(w, nodes, n)
  {
    ReadyMember(w, NodeStatuses(nodes), n);
    assert n in Ids(w);
    ReadyById(w, NodeStatuses(nodes), n);
    forall d | d in DepsOf(w, n) ensures d in nodes && nodes[d].status.Completed? {
      KnownDependency(w, n, d);
    }
  }

  lemma CompletedDependenciesKept(w: Workflow, before: map<string, NodeRow>, after: map<string, NodeRow>, n: string)
    requires DependenciesCompleted(w, before, n) && NodeMoves(before, after)
    ensures DependenciesCompleted(w, after, n)
  {
  }

  /** A node whose dependencies have completed has no failed dependency. */
  lemma FailedBranchIsDead(w: Workflow, nodes: map<string, NodeRow>, n: string)
    requires DependenciesCompleted(w, nodes, n)
    ensures !HasFailedDependency(nodes, NodeOf(w, n))
  {
  }
}
