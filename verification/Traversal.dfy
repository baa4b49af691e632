/** Traversals of a workflow's dependency graph: adjacency construction, readiness and
    failure propagation. */
module Traversal {
  import opened Definitions
  import opened Graphs

  type Statuses = map<string, Status>

  function StatusOf(st: Statuses, id: string): Status {
    if id in st then st[id] else Pending
  }

  predicate KnownDependencies(w: Workflow) {
    forall i, d :: 0 <= i < |w| && d in w[i].dependencies ==> d in Ids(w)
  }

  ghost predicate Depends(w: Workflow, n: string, d: string) {
    exists i :: 0 <= i < |w| && w[i].id == n && d in w[i].dependencies
  }

  lemma DependsIsDepsOf(w: Workflow, n: string, d: string)
    requires UniqueIds(w) && n in Ids(w)
    ensures Depends(w, n, d) <==> d in DepsOf(w, n)
  {
    var i :| 0 <= i < |w| && w[i].id == n;
    NodeOfUnique(w, i);
  }

  // ---------- Adjacency construction ----------

  /** Every node together with its dependants; roots have no dependencies, terminals no dependants. */
  datatype Dag = Dag(nodes: map<string, Node>, dependants: map<string, seq<string>>,
                     roots: seq<string>, terminals: seq<string>)

  // One entry for every time `d` is listed.
  function Mentions(id: string, dependencies: seq<string>, d: string): seq<string> {
    if dependencies == [] then []
    else
      var k := |dependencies| - 1;
      Mentions(id, dependencies[..k], d) + if dependencies[k] == d then [id] else []
  }

  function DependantsOf(w: Workflow, d: string): seq<string> {
    if w == [] then []
    else
      var k := |w| - 1;
      DependantsOf(w[..k], d) + Mentions(w[k].id, w[k].dependencies, d)
  }

  lemma {:induction false} MentionsMember(id: string, dependencies: seq<string>, d: string, x: string)
    ensures x in Mentions(id, dependencies, d) <==> x == id && d in dependencies
  {
    if dependencies != [] {
      var k := |dependencies| - 1;
      MentionsMember(id, dependencies[..k], d, x);
      assert dependencies == dependencies[..k] + [dependencies[k]];
    }
  }

  /** The reverse adjacency lists exactly the nodes that depend on `d`. */
  lemma {:induction false} DependantsMember(w: Workflow, d: string, x: string)
    ensures x in DependantsOf(w, d) <==> Depends(w, x, d)
  {
    if w != [] {
      var k := |w| - 1;
      DependantsMember(w[..k], d, x);
      MentionsMember(w[k].id, w[k].dependencies, d, x);
      assert Depends(w, x, d) <==> Depends(w[..k], x, d) || (w[k].id == x && d in w[k].dependencies) by {
        if i :| 0 <= i < |w| && w[i].id == x && d in w[i].dependencies && i < k {
          assert w[..k][i] == w[i];
        }
      }
    }
  }

  // The identifiers of the nodes in `keep`, in definition order.
  function SelectIds(w: Workflow, keep: set<string>): seq<string> {
    if w == [] then []
    else
      var k := |w| - 1;
      SelectIds(w[..k], keep) + if w[k].id in keep then [w[k].id] else []
  }

  lemma {:induction false} SelectMember(w: Workflow, keep: set<string>, x: string)
    ensures x in SelectIds(w, keep) <==> x in keep && x in Ids(w)
  {
    if w != [] {
      var k := |w| - 1;
      SelectMember(w[..k], keep, x);
      assert Ids(w) == Ids(w[..k]) + {w[k].id} by {
        assert w == w[..k] + [w[k]];
      }
    }
  }

  lemma {:induction false} SelectNoDuplicates(w: Workflow, keep: set<string>)
    requires UniqueIds(w)
    ensures NoDuplicates(SelectIds(w, keep))
  {
    if w != [] {
      var k := |w| - 1;
      SelectNoDuplicates(w[..k], keep);
      var before := SelectIds(w[..k], keep);
      forall i | 0 <= i < |before| ensures before[i] != w[k].id {
        SelectMember(w[..k], keep, before[i]);
      }
    }
  }

  // The list names nodes in the order of their definition; `at` gives their positions.
  ghost predicate InOrder(w: Workflow, ids: seq<string>, at: seq<nat>) {
    && |at| == |ids|
    && (forall i :: 0 <= i < |at| ==> at[i] < |w| && w[at[i]].id == ids[i])
    && (forall i, j :: 0 <= i < j < |at| ==> at[i] < at[j])
  }

  /** Selections keep the order of the definition. */
  lemma {:induction false} SelectInOrder(w: Workflow, keep: set<string>) returns (at: seq<nat>)
    ensures InOrder(w, SelectIds(w, keep), at)
  {
    at := [];
    if w != [] {
      var k := |w| - 1;
      at := SelectInOrder(w[..k], keep);
      if w[k].id in keep {
        at := at + [k];
      }
    }
  }

  // The dependants of a node in the order of their definition; one that lists it twice comes twice.
  ghost predicate InWeakOrder(w: Workflow, ids: seq<string>, at: seq<nat>) {
    && |at| == |ids|
    && (forall i :: 0 <= i < |at| ==> at[i] < |w| && w[at[i]].id == ids[i])
    && (forall i, j :: 0 <= i < j < |at| ==> at[i] <= at[j])
  }

  lemma {:induction false} MentionsSame(id: string, dependencies: seq<string>, d: string)
    ensures forall i :: 0 <= i < |Mentions(id, dependencies, d)| ==> Mentions(id, dependencies, d)[i] == id
    ensures |Mentions(id, dependencies, d)| == multiset(dependencies)[d]
  {
    if dependencies != [] {
      var k := |dependencies| - 1;
      MentionsSame(id, dependencies[..k], d);
      assert dependencies == dependencies[..k] + [dependencies[k]];
    }
  }

  /** Dependants come in the order of the definition, each as often as it lists the node. */
  lemma {:induction false} DependantsInOrder(w: Workflow, d: string) returns (at: seq<nat>)
    ensures InWeakOrder(w, DependantsOf(w, d), at)
  {
    at := [];
    if w != [] {
      var k := |w| - 1;
      at := DependantsInOrder(w[..k], d);
      var more := Mentions(w[k].id, w[k].dependencies, d);
      MentionsSame(w[k].id, w[k].dependencies, d);
      at := at + seq(|more|, i => k);
    }
  }

  function RootSet(w: Workflow): set<string> {
    set i | 0 <= i < |w| && w[i].dependencies == [] :: w[i].id
  }

  ghost function TerminalSet(w: Workflow): set<string> {
    set n | n in Ids(w) && forall m :: m in Ids(w) ==> !Depends(w, m, n)
  }

  /** Appends the node to the list of each of its dependencies. */
  method LinkNode(w: Workflow, k: nat, table: map<string, seq<string>>) returns (next: map<string, seq<string>>)
    requires k < |w| && KnownDependencies(w)
    requires table.Keys == Ids(w)
    requires forall d :: d in table ==> table[d] == DependantsOf(w[..k], d)
    ensures next.Keys == Ids(w)
    ensures forall d :: d in next ==> next[d] == DependantsOf(w[..k + 1], d)
  {
    next := table;
    var dependencies := w[k].dependencies;
    for j := 0 to |dependencies|
      invariant next.Keys == Ids(w)
      invariant forall d :: d in next ==> next[d] == table[d] + Mentions(w[k].id, dependencies[..j], d)
    {
      assert dependencies[..j + 1][..j] == dependencies[..j];
      next := next[dependencies[j] := next[dependencies[j]] + [w[k].id]];
    }
    assert dependencies[..|dependencies|] == dependencies;
    assert w[..k + 1][..k] == w[..k];
  }

  method BuildDag(w: Workflow) returns (dag: Dag)
    requires UniqueIds(w) && KnownDependencies(w)
    ensures dag.nodes.Keys == Ids(w) && dag.dependants.Keys == Ids(w)
    ensures forall i :: 0 <= i < |w| ==> dag.nodes[w[i].id] == w[i]
    ensures forall d :: d in Ids(w) ==> dag.dependants[d] == DependantsOf(w, d)
    ensures dag.roots == SelectIds(w, RootSet(w))
    ensures dag.terminals == SelectIds(w, TerminalSet(w))
    ensures forall i :: 0 <= i < |w| ==> (w[i].id in dag.roots <==> w[i].dependencies == [])
    ensures forall n :: n in Ids(w) ==> (n in dag.terminals <==> forall i :: 0 <= i < |w| ==> n !in w[i].dependencies)
  {
    var nodes: map<string, Node> := map[];
    var dependants: map<string, seq<string>> := map[];
    for k := 0 to |w|
      invariant nodes.Keys == dependants.Keys == Ids(w[..k])
      invariant forall i :: 0 <= i < k ==> nodes[w[i].id] == w[i]
      invariant forall d :: d in dependants ==> dependants[d] == []
    {
      assert w[..k + 1] == w[..k] + [w[k]];
      nodes := nodes[w[k].id := w[k]];
      dependants := dependants[w[k].id := []];
    }
    assert w[..|w|] == w;
    for k := 0 to |w|
      invariant dependants.Keys == Ids(w)
      invariant forall d :: d in dependants ==> dependants[d] == DependantsOf(w[..k], d)
    {
      dependants := LinkNode(w, k, dependants);
    }
    var roots, terminals := Ends(w, nodes, dependants);
    dag := Dag(nodes, dependants, roots, terminals);
    EndsMean(w);
  }

  /** Roots depend on nothing, and nothing depends on terminals. */
  lemma EndsMean(w: Workflow)
    requires UniqueIds(w)
    ensures forall i :: 0 <= i < |w| ==> (w[i].id in SelectIds(w, RootSet(w)) <==> w[i].dependencies == [])
    ensures forall n :: n in Ids(w) ==> (n in SelectIds(w, TerminalSet(w)) <==> forall i :: 0 <= i < |w| ==> n !in w[i].dependencies)
  {
    forall i | 0 <= i < |w| ensures w[i].id in SelectIds(w, RootSet(w)) <==> w[i].dependencies == [] {
      SelectMember(w, RootSet(w), w[i].id);
      LastNode(w, i);
    }
    forall n | n in Ids(w) ensures n in SelectIds(w, TerminalSet(w)) <==> forall i :: 0 <= i < |w| ==> n !in w[i].dependencies {
      SelectMember(w, TerminalSet(w), n);
      assert forall i :: 0 <= i < |w| && n in w[i].dependencies ==> Depends(w, w[i].id, n);
    }
  }

  method Ends(w: Workflow, nodes: map<string, Node>, dependants: map<string, seq<string>>)
    returns (roots: seq<string>, terminals: seq<string>)
    requires UniqueIds(w) && nodes.Keys == Ids(w) && dependants.Keys == Ids(w)
    requires forall i :: 0 <= i < |w| ==> nodes[w[i].id] == w[i]
    requires forall d :: d in Ids(w) ==> dependants[d] == DependantsOf(w, d)
    ensures roots == SelectIds(w, RootSet(w))
    ensures terminals == SelectIds(w, TerminalSet(w))
  {
    hide TerminalSet, RootSet;
    roots, terminals := [], [];
    for k := 0 to |w|
      invariant roots == SelectIds(w[..k], RootSet(w)) && terminals == SelectIds(w[..k], TerminalSet(w))
    {
      assert w[..k + 1][..k] == w[..k];
      var id := w[k].id;
      LastNode(w, k);
      if nodes[id].dependencies == [] {
        roots := roots + [id];
      }
      if dependants[id] == [] {
        terminals := terminals + [id];
      }
    }
    assert w[..|w|] == w;
  }

  lemma LastNode(w: Workflow, k: nat)
    requires UniqueIds(w) && k < |w|
    ensures w[k].id in RootSet(w) <==> w[k].dependencies == []
    ensures w[k].id in TerminalSet(w) <==> DependantsOf(w, w[k].id) == []
  {
    var d := w[k].id;
    forall m ensures m in DependantsOf(w, d) <==> Depends(w, m, d) {
      DependantsMember(w, d, m);
    }
    if DependantsOf(w, d) != [] {
      assert DependantsOf(w, d)[0] in DependantsOf(w, d);
    }
  }

  // ---------- Readiness ----------

  predicate Ready(n: Node, st: Statuses) {
    StatusOf(st, n.id).Pending? && forall d :: d in n.dependencies ==> StatusOf(st, d).Completed?
  }

  function ReadyIds(w: Workflow, st: Statuses): seq<string> {
    if w == [] then []
    else
      var k := |w| - 1;
      ReadyIds(w[..k], st) + if Ready(w[k], st) then [w[k].id] else []
  }

  /** Ready are exactly the pending nodes all of whose dependencies have completed. */
  lemma {:induction false} ReadyMember(w: Workflow, st: Statuses, x: string)
    ensures x in ReadyIds(w, st) <==> exists i :: 0 <= i < |w| && w[i].id == x && Ready(w[i], st)
  {
    if w != [] {
      var k := |w| - 1;
      ReadyMember(w[..k], st, x);
      if i :| 0 <= i < |w| && w[i].id == x && Ready(w[i], st) && i < k {
        assert w[..k][i] == w[i];
      }
    }
  }

  /** The ready list keeps the order of the definition. */
  lemma {:induction false} ReadyInOrder(w: Workflow, st: Statuses) returns (at: seq<nat>)
    ensures InOrder(w, ReadyIds(w, st), at)
  {
    at := [];
    if w != [] {
      var k := |w| - 1;
      at := ReadyInOrder(w[..k], st);
      if Ready(w[k], st) {
        at := at + [k];
      }
    }
  }

  lemma ReadyById(w: Workflow, st: Statuses, x: string)
    requires UniqueIds(w) && x in Ids(w)
    ensures x in ReadyIds(w, st) <==>
            StatusOf(st, x).Pending? && forall d :: d in DepsOf(w, x) ==> StatusOf(st, d).Completed?
  {
    ReadyMember(w, st, x);
    var i :| 0 <= i < |w| && w[i].id == x;
    NodeOfUnique(w, i);
  }

  method EvaluateReady(w: Workflow, st: Statuses) returns (ready: seq<string>)
    ensures ready == ReadyIds(w, st)
  {
    ready := [];
    for k := 0 to |w|
      invariant ready == ReadyIds(w[..k], st)
    {
      assert w[..k + 1][..k] == w[..k];
      if !StatusOf(st, w[k].id).Pending? {
        continue;
      }
      if forall d :: d in w[k].dependencies ==> StatusOf(st, d).Completed? {
        ready := ready + [w[k].id];
      }
    }
    assert w[..|w|] == w;
  }

  // ---------- Failure propagation ----------

  /** A path that starts at a failed node and runs through pending dependants. */
  ghost predicate FailurePath(w: Workflow, st: Statuses, p: seq<string>) {
    && |p| >= 2
    && p[0] in Ids(w) && StatusOf(st, p[0]).Failed?
    && (forall i :: 0 < i < |p| ==> StatusOf(st, p[i]).Pending?)
    && (forall i, j :: 0 <= i < |p| && 0 <= j < |p| && j == i + 1 ==> Depends(w, p[j], p[i]))
  }

  ghost predicate Doomed(w: Workflow, st: Statuses, n: string) {
    exists p :: FailurePath(w, st, p) && p[|p| - 1] == n
  }

  ghost function DoomedSet(w: Workflow, st: Statuses): set<string> {
    set n | n in Ids(w) && Doomed(w, st, n)
  }

  ghost function FailedDependencies(w: Workflow, st: Statuses): seq<string> {
    SelectIds(w, DoomedSet(w, st))
  }

  lemma DoomedStep(w: Workflow, st: Statuses, d: string, n: string)
    requires Depends(w, n, d) && StatusOf(st, n).Pending?
    requires (d in Ids(w) && StatusOf(st, d).Failed?) || Doomed(w, st, d)
    ensures Doomed(w, st, n)
  {
    if d in Ids(w) && StatusOf(st, d).Failed? {
      assert FailurePath(w, st, [d, n]);
    } else {
      var p :| FailurePath(w, st, p) && p[|p| - 1] == d;
      assert FailurePath(w, st, p + [n]);
    }
  }

  ghost predicate Closed(w: Workflow, st: Statuses, done: set<string>, blocked: set<string>) {
    forall d, n :: d in done && Depends(w, n, d) && StatusOf(st, n).Pending? ==> n in blocked
  }

  lemma {:induction false} ClosedHoldsPath(w: Workflow, st: Statuses, done: set<string>, blocked: set<string>, p: seq<string>, k: nat)
    requires Closed(w, st, done, blocked) && blocked <= done
    requires forall n :: n in Ids(w) && StatusOf(st, n).Failed? ==> n in done
    requires FailurePath(w, st, p) && 0 < k < |p|
    ensures p[k] in blocked
    decreases k
  {
    if k > 1 {
      ClosedHoldsPath(w, st, done, blocked, p, k - 1);
    }
    assert Depends(w, p[k], p[k - 1]);
  }

  ghost predicate Sound(w: Workflow, st: Statuses, blocked: set<string>) {
    forall n :: n in blocked ==> n in Ids(w) && StatusOf(st, n).Pending? && Doomed(w, st, n)
  }

  // Statuses as the search sees them: blocked nodes count as failed.
  ghost predicate Overlay(st: Statuses, blocked: set<string>, now: Statuses) {
    forall n :: StatusOf(now, n) == if n in blocked then Failed else StatusOf(st, n)
  }

  ghost predicate Frontier(w: Workflow, st: Statuses, done: set<string>, queue: seq<string>, blocked: set<string>) {
    && (forall n :: n in queue || n in done ==> n in Ids(w) && (StatusOf(st, n).Failed? || n in blocked))
    && (forall n :: n in blocked ==> n in queue || n in done)
    && (forall n :: n in Ids(w) && StatusOf(st, n).Failed? ==> n in queue || n in done)
  }

  method BlockDependants(w: Workflow, st: Statuses, d: string, dependants: seq<string>, now: Statuses,
                         blocked: set<string>, queue: seq<string>, ghost done: set<string>)
    returns (now': Statuses, blocked': set<string>, queue': seq<string>)
    requires dependants == DependantsOf(w, d) && d in Ids(w) && (StatusOf(st, d).Failed? || d in blocked)
    requires Overlay(st, blocked, now) && Sound(w, st, blocked) && Closed(w, st, done, blocked)
    requires Frontier(w, st, done + {d}, queue, blocked)
    ensures Overlay(st, blocked', now') && Sound(w, st, blocked') && Closed(w, st, done + {d}, blocked')
    ensures Frontier(w, st, done + {d}, queue', blocked')
    ensures blocked < blocked' || (blocked == blocked' && queue == queue')
  {
    now', blocked', queue' := now, blocked, queue;
    for k := 0 to |dependants|
      invariant blocked <= blocked'
      invariant blocked < blocked' || queue == queue'
      invariant Overlay(st, blocked', now') && Sound(w, st, blocked') && Closed(w, st, done, blocked')
      invariant Frontier(w, st, done + {d}, queue', blocked')
      invariant forall i :: 0 <= i < k && StatusOf(st, dependants[i]).Pending? ==> dependants[i] in blocked'
    {
      var n := dependants[k];
      DependantsMember(w, d, n);
      if !StatusOf(now', n).Pending? {
        continue;
      }
      if n in blocked' {
        continue;
      }
      DoomedStep(w, st, d, n);
      blocked' := blocked' + {n};
      now' := now'[n := Failed];
      queue' := queue' + [n];
    }
    forall n | Depends(w, n, d) && StatusOf(st, n).Pending? ensures n in blocked' {
      DependantsMember(w, d, n);
    }
  }

  method FailedQueue(w: Workflow, st: Statuses) returns (queue: seq<string>)
    ensures Frontier(w, st, {}, queue, {})
  {
    queue := [];
    for k := 0 to |w|
      invariant forall n :: n in queue ==> n in Ids(w) && StatusOf(st, n).Failed?
      invariant forall i :: 0 <= i < k && StatusOf(st, w[i].id).Failed? ==> w[i].id in queue
    {
      if StatusOf(st, w[k].id).Failed? {
        queue := queue + [w[k].id];
      }
    }
  }

  /** Breadth-first propagation: the result lists, in definition order, exactly the pending nodes
      that a failed node reaches through pending nodes. */
  method EvaluateFailedDependencies(w: Workflow, st: Statuses) returns (ids: seq<string>)
    requires UniqueIds(w) && KnownDependencies(w)
    ensures ids == FailedDependencies(w, st)
  {
    hide Overlay, Sound, Closed, Frontier, DoomedSet;
    var dag := BuildDag(w);
    var now := st;
    var blocked: set<string> := {};
    var queue := FailedQueue(w, st);
    ghost var done: set<string> := {};
    StartPropagation(w, st);
    while queue != []
      invariant Overlay(st, blocked, now) && Sound(w, st, blocked) && Closed(w, st, done, blocked)
      invariant Frontier(w, st, done, queue, blocked)
      decreases |Ids(w) - blocked|, |queue|
    {
      var d := queue[0];
      PopFrontier(w, st, done, queue, blocked);
      ghost var before := blocked;
      now, blocked, queue := BlockDependants(w, st, d, dag.dependants[d], now, blocked, queue[1..], done);
      done := done + {d};
      BlockedShrinks(w, st, before, blocked);
    }
    EndPropagation(w, st, done, blocked);
    ids := InDefinitionOrder(w, blocked);
  }

  method InDefinitionOrder(w: Workflow, keep: set<string>) returns (ids: seq<string>)
    ensures ids == SelectIds(w, keep)
  {
    ids := [];
    for k := 0 to |w|
      invariant ids == SelectIds(w[..k], keep)
    {
      assert w[..k + 1][..k] == w[..k];
      if w[k].id in keep {
        ids := ids + [w[k].id];
      }
    }
    assert w[..|w|] == w;
  }

  lemma StartPropagation(w: Workflow, st: Statuses)
    ensures Overlay(st, {}, st) && Sound(w, st, {}) && Closed(w, st, {}, {})
  {
  }

  lemma PopFrontier(w: Workflow, st: Statuses, done: set<string>, queue: seq<string>, blocked: set<string>)
    requires Frontier(w, st, done, queue, blocked) && queue != []
    ensures queue[0] in Ids(w) && (StatusOf(st, queue[0]).Failed? || queue[0] in blocked)
    ensures Frontier(w, st, done + {queue[0]}, queue[1..], blocked)
  {
    assert forall n :: n in queue ==> n == queue[0] || n in queue[1..];
  }

  lemma EndPropagation(w: Workflow, st: Statuses, done: set<string>, blocked: set<string>)
    requires Sound(w, st, blocked) && Closed(w, st, done, blocked) && Frontier(w, st, done, [], blocked)
    ensures blocked == DoomedSet(w, st)
  {
    forall n | n in DoomedSet(w, st) ensures n in blocked {
      var p :| FailurePath(w, st, p) && p[|p| - 1] == n;
      ClosedHoldsPath(w, st, done, blocked, p, |p| - 1);
    }
  }

  lemma BlockedShrinks(w: Workflow, st: Statuses, before: set<string>, after: set<string>)
    requires before <= after && Sound(w, st, after)
    ensures |Ids(w) - after| < |Ids(w) - before| || after == before
  {
    if after != before {
      var n :| n in after && n !in before;
      SubsetSmaller(Ids(w) - after, Ids(w) - before, n);
    }
  }

  lemma SubsetSmaller(a: set<string>, b: set<string>, n: string)
    requires a <= b && n in b && n !in a
    ensures |a| < |b|
  {
    SubsetSize(a, b - {n});
  }

  lemma {:induction false} SubsetSize(a: set<string>, b: set<string>)
    requires a <= b
    ensures |a| <= |b|
    decreases a
  {
    if a != {} {
      var x :| x in a;
      SubsetSize(a - {x}, b - {x});
    }
  }

  // ---------- Propagation computes the least fixpoint ----------

  ghost function Fail(st: Statuses, ids: set<string>): Statuses {
    map n | n in st.Keys + ids :: if n in ids then Failed else StatusOf(st, n)
  }

  /** Once the doomed nodes have failed, no pending node has a failed dependency. */
  lemma PropagationCloses(w: Workflow, st: Statuses, n: string, d: string)
    requires Depends(w, n, d) && d in Ids(w)
    requires StatusOf(Fail(st, DoomedSet(w, st)), d).Failed?
    ensures !StatusOf(Fail(st, DoomedSet(w, st)), n).Pending?
  {
    if StatusOf(st, n).Pending? {
      DoomedStep(w, st, d, n);
      assert n in Ids(w);
    }
  }

  ghost predicate ClosesFailures(w: Workflow, st: Statuses, ids: set<string>) {
    forall n, d ::
      (Depends(w, n, d) && d in Ids(w) && (StatusOf(st, d).Failed? || d in ids) && StatusOf(st, n).Pending?) ==> n in ids
  }

  /** The doomed nodes are contained in every set of nodes that closes the failures. */
  lemma PropagationIsLeast(w: Workflow, st: Statuses, other: set<string>)
    requires ClosesFailures(w, st, other)
    ensures DoomedSet(w, st) <= other
  {
    forall n | n in DoomedSet(w, st) ensures n in other {
      var p :| FailurePath(w, st, p) && p[|p| - 1] == n;
      PathInside(w, st, other, p, |p| - 1);
    }
  }

  lemma {:induction false} PathInside(w: Workflow, st: Statuses, other: set<string>, p: seq<string>, k: nat)
    requires ClosesFailures(w, st, other)
    requires FailurePath(w, st, p) && 0 < k < |p|
    ensures p[k] in other
    decreases k
  {
    if k > 1 {
      PathInside(w, st, other, p, k - 1);
      assert Depends(w, p[k - 1], p[k - 2]);
    }
    assert Depends(w, p[k], p[k - 1]);
  }

  /** A second evaluation finds nothing more. */
  lemma PropagationIsIdempotent(w: Workflow, st: Statuses)
    ensures DoomedSet(w, Fail(st, DoomedSet(w, st))) == {}
  {
    var after := Fail(st, DoomedSet(w, st));
    forall n | n in DoomedSet(w, after) ensures false {
      var p :| FailurePath(w, after, p) && p[|p| - 1] == n;
      assert Depends(w, p[1], p[0]);
      PropagationCloses(w, st, p[1], p[0]);
    }
  }
}
