/** Directed graphs as dependency maps: walks, cycles and topological orders. */
module Graphs {

  // Each node is mapped to its dependencies. Dependencies that are not keys lead nowhere.
  type Graph = map<string, seq<string>>

  predicate Edge(g: Graph, u: string, v: string) {
    u in g && v in g && v in g[u]
  }

  predicate IsWalk(g: Graph, p: seq<string>) {
    && p != []
    && p[0] in g
    && forall i, j :: 0 <= i < |p| && 0 <= j < |p| && j == i + 1 ==> Edge(g, p[i], p[j])
  }

  predicate ClosedWalk(g: Graph, p: seq<string>) {
    |p| >= 2 && IsWalk(g, p) && p[0] == p[|p| - 1]
  }

  ghost predicate Acyclic(g: Graph) {
    forall p :: !ClosedWalk(g, p)
  }

  predicate NoDuplicates<T(==)>(s: seq<T>) {
    forall i, j :: 0 <= i < j < |s| ==> s[i] != s[j]
  }

  /** Every element of `order` is a node whose dependencies all stand before it. */
  ghost predicate Ordered(g: Graph, order: seq<string>) {
    && NoDuplicates(order)
    && (forall k :: 0 <= k < |order| ==> order[k] in g)
    && (forall k, d :: 0 <= k < |order| && Edge(g, order[k], d) ==> d in order[..k])
  }

  ghost predicate Topological(g: Graph, order: seq<string>) {
    Ordered(g, order) && forall v :: v in g ==> v in order
  }

  // ---------- A topological order excludes cycles ----------

  lemma {:induction false} WalkDescends(g: Graph, order: seq<string>, p: seq<string>, k: nat)
    requires Ordered(g, order) && IsWalk(g, p) && |p| >= 2
    requires k < |order| && order[k] == p[0]
    ensures p[|p| - 1] in order[..k]
    decreases |p|
  {
    assert Edge(g, p[0], p[1]);
    var j :| 0 <= j < k && order[j] == p[1];
    if |p| > 2 {
      WalkDescends(g, order, p[1..], j);
    }
  }

  lemma TopologicalIsAcyclic(g: Graph, order: seq<string>)
    requires Topological(g, order)
    ensures Acyclic(g)
  {
    forall p | ClosedWalk(g, p) ensures false {
      var k :| 0 <= k < |order| && order[k] == p[0];
      WalkDescends(g, order, p, k);
    }
  }

  // ---------- A finite acyclic graph has a topological order ----------

  lemma {:induction false} Pigeonhole(s: seq<string>, pool: set<string>) returns (i: nat, j: nat)
    requires |s| > |pool|
    requires forall k :: 0 <= k < |s| ==> s[k] in pool
    ensures i < j < |s| && s[i] == s[j]
    decreases |s|
  {
    var last := s[|s| - 1];
    if k :| 0 <= k < |s| - 1 && s[k] == last {
      i, j := k, |s| - 1;
    } else {
      i, j := Pigeonhole(s[..|s| - 1], pool - {last});
    }
  }

  // `next` picks for every node of `rest` one of its dependencies inside `rest`.
  ghost predicate Successors(g: Graph, rest: set<string>, next: map<string, string>) {
    && next.Keys == rest
    && forall v {:trigger next[v]} :: v in rest ==> next[v] in rest && Edge(g, v, next[v])
  }

  lemma {:induction false} WalkInside(g: Graph, rest: set<string>, next: map<string, string>, n: nat)
    returns (p: seq<string>)
    requires rest != {} && rest <= g.Keys && Successors(g, rest, next)
    ensures |p| == n + 1 && IsWalk(g, p)
    ensures forall k :: 0 <= k < |p| ==> p[k] in rest
  {
    if n == 0 {
      var v :| v in rest;
      p := [v];
    } else {
      var q := WalkInside(g, rest, next, n - 1);
      p := q + [next[q[|q| - 1]]];
    }
  }

  lemma StuckSetHasCycle(g: Graph, rest: set<string>, next: map<string, string>)
    requires rest != {} && rest <= g.Keys && Successors(g, rest, next)
    ensures !Acyclic(g)
  {
    var p := WalkInside(g, rest, next, |rest|);
    var i, j := Pigeonhole(p, rest);
    var q := p[i..j + 1];
    assert ClosedWalk(g, q);
  }

  ghost predicate Blocked(g: Graph, rest: set<string>, v: string) {
    exists d :: d in rest && Edge(g, v, d)
  }

  ghost function BlockingDependency(g: Graph, rest: set<string>, v: string): (d: string)
    requires Blocked(g, rest, v)
    ensures d in rest && Edge(g, v, d)
  {
    var d :| d in rest && Edge(g, v, d);
    d
  }

  lemma AllBlockedHasCycle(g: Graph, rest: set<string>)
    requires rest != {} && rest <= g.Keys
    requires forall v {:trigger Blocked(g, rest, v)} :: v in rest ==> Blocked(g, rest, v)
    ensures !Acyclic(g)
  {
    var next := map v | v in rest :: BlockingDependency(g, rest, v);
    StuckSetHasCycle(g, rest, next);
  }

  lemma FreeNode(g: Graph, rest: set<string>) returns (v: string)
    requires Acyclic(g) && rest != {} && rest <= g.Keys
    ensures v in rest && !Blocked(g, rest, v)
  {
    if forall w {:trigger Blocked(g, rest, w)} :: w in rest ==> Blocked(g, rest, w) {
      AllBlockedHasCycle(g, rest);
    }
    v :| v in rest && !Blocked(g, rest, v);
  }

  lemma {:induction false} ExtendOrder(g: Graph, done: seq<string>, rest: set<string>) returns (order: seq<string>)
    requires Acyclic(g) && Ordered(g, done)
    requires rest == g.Keys - set v | v in done
    ensures Topological(g, order)
    decreases |rest|
  {
    if rest == {} {
      order := done;
    } else {
      var v := FreeNode(g, rest);
      var next := done + [v];
      assert forall k :: 0 <= k < |done| ==> next[..k] == done[..k];
      assert next[..|done|] == done;
      order := ExtendOrder(g, next, rest - {v});
    }
  }

  lemma AcyclicHasTopologicalOrder(g: Graph)
    requires Acyclic(g)
    ensures exists order :: Topological(g, order)
  {
    var order := ExtendOrder(g, [], g.Keys);
  }

  // ---------- Ranks: the measure for recursion along dependencies ----------

  ghost function OrderOf(g: Graph): (order: seq<string>)
    requires Acyclic(g)
    ensures Topological(g, order)
  {
    AcyclicHasTopologicalOrder(g);
    var order :| Topological(g, order);
    order
  }

  ghost function Position(s: seq<string>, v: string): (k: nat)
    requires v in s
    ensures k < |s| && s[k] == v
  {
    var k :| 0 <= k < |s| && s[k] == v;
    k
  }

  ghost function Rank(g: Graph, v: string): nat
    requires Acyclic(g) && v in g
  {
    Position(OrderOf(g), v)
  }

  /** Ranks strictly descend along dependencies. */
  lemma RankDescends(g: Graph, v: string, d: string)
    requires Acyclic(g) && Edge(g, v, d)
    ensures Rank(g, d) < Rank(g, v)
  {
    var order, k := OrderOf(g), Rank(g, v);
    assert Edge(g, order[k], d);
    assert d in order[..k];
  }
}
