/** The iterative depth-first search of the cycle rule, with its explicit frame stack. */
module CycleDetection {
  import opened Graphs

  /** One reported back edge, with the path from the repeated node round to itself. */
  datatype CycleError = CycleError(nodeId: string, dependencyId: string, cyclePath: seq<string>)

  datatype Frame = Frame(node: string, next: nat)

  function Elements(s: seq<string>): set<string> {
    set v | v in s
  }

  /** An error is genuine when its path is a closed walk whose last step is the reported edge. */
  predicate Genuine(g: Graph, e: CycleError) {
    && ClosedWalk(g, e.cyclePath)
    && e.cyclePath[|e.cyclePath| - 2] == e.nodeId
    && e.cyclePath[|e.cyclePath| - 1] == e.dependencyId
  }

  predicate AllGenuine(g: Graph, errors: seq<CycleError>) {
    forall e :: e in errors ==> Genuine(g, e)
  }

  // ---------- Invariant of the search ----------

  predicate FrameAt(g: Graph, f: Frame, v: string) {
    f.node == v && v in g && f.next <= |g[v]|
  }

  // The dependency looked at last is `child`.
  predicate Leads(g: Graph, f: Frame, child: string) {
    f.node in g && 0 < f.next <= |g[f.node]| && g[f.node][f.next - 1] == child
  }

  // The frames hold the nodes of the traversal stack, each entered through the
  // dependency its parent looked at last.
  ghost predicate Frames(g: Graph, frames: seq<Frame>, path: seq<string>) {
    && |frames| == |path|
    && (forall i :: 0 <= i < |path| ==> FrameAt(g, frames[i], path[i]))
    && (forall i, j :: 0 <= i < |frames| && 0 <= j < |path| && j == i + 1 ==> Leads(g, frames[i], path[j]))
  }

  ghost predicate Indexed(path: seq<string>, stackIndex: map<string, nat>) {
    && (forall v :: v in stackIndex ==> v in path)
    && (forall i :: 0 <= i < |path| ==> path[i] in stackIndex && stackIndex[path[i]] == i)
  }

  // How many dependencies of frame i have been dealt with completely: for every frame
  // but the top one, the dependency looked at last is still being explored.
  ghost function Settled(frames: seq<Frame>, i: int): int
    requires 0 <= i < |frames|
  {
    if i == |frames| - 1 then frames[i].next else frames[i].next - 1
  }

  ghost predicate SettledAreDone(g: Graph, frames: seq<Frame>, done: seq<string>) {
    forall i, k :: 0 <= i < |frames| && frames[i].node in g && 0 <= k < Settled(frames, i)
                   && k < |g[frames[i].node]| && g[frames[i].node][k] in g
      ==> g[frames[i].node][k] in done
  }

  ghost predicate Search(g: Graph, frames: seq<Frame>, path: seq<string>, stackIndex: map<string, nat>,
                         active: set<string>, visited: set<string>, done: seq<string>)
  {
    && Frames(g, frames, path)
    && NoDuplicates(path)
    && NoDuplicates(done)
    && (forall v :: v in path ==> v !in done)
    && (forall v :: v in visited <==> v in path || v in done)
    && (forall v :: v in visited ==> v in g)
    && (forall v :: v in active <==> v in path)
    && Indexed(path, stackIndex)
  }

  // ---------- The three kinds of step ----------

  lemma PathIsWalk(g: Graph, frames: seq<Frame>, path: seq<string>, from: nat)
    requires Frames(g, frames, path) && from < |path|
    ensures IsWalk(g, path[from..])
  {
  }

  lemma ExtendWalk(g: Graph, p: seq<string>, d: string)
    requires IsWalk(g, p) && Edge(g, p[|p| - 1], d)
    ensures IsWalk(g, p + [d])
  {
  }

  lemma IndexLocates(path: seq<string>, stackIndex: map<string, nat>, d: string)
    requires Indexed(path, stackIndex) && d in path
    ensures d in stackIndex && stackIndex[d] < |path| && path[stackIndex[d]] == d
  {
  }

  lemma BackEdgeIsGenuine(g: Graph, frames: seq<Frame>, path: seq<string>, from: nat, d: string)
    requires Frames(g, frames, path) && from < |path| && path[from] == d
    requires Edge(g, path[|path| - 1], d)
    ensures Genuine(g, CycleError(path[|path| - 1], d, path[from..] + [d]))
  {
    PathIsWalk(g, frames, path, from);
    ExtendWalk(g, path[from..], d);
  }

  lemma FinishNode(g: Graph, frames: seq<Frame>, path: seq<string>, done: seq<string>)
    requires Frames(g, frames, path) && path != []
    requires Ordered(g, done) && path[|path| - 1] !in done
    requires SettledAreDone(g, frames, done)
    requires frames[|frames| - 1].next == |g[path[|path| - 1]]|
    ensures Ordered(g, done + [path[|path| - 1]])
    ensures SettledAreDone(g, frames[..|frames| - 1], done + [path[|path| - 1]])
  {
    var node := path[|path| - 1];
    var next := done + [node];
    assert forall k :: 0 <= k < |done| ==> next[..k] == done[..k];
    assert next[..|done|] == done;
    forall d | Edge(g, node, d) ensures d in done {
      var k :| 0 <= k < |g[node]| && g[node][k] == d;
      assert k < Settled(frames, |frames| - 1);
      assert g[frames[|frames| - 1].node][k] in g;
    }
    var rest := frames[..|frames| - 1];
    forall i, k | 0 <= i < |rest| && rest[i].node in g && 0 <= k < Settled(rest, i)
                  && k < |g[rest[i].node]| && g[rest[i].node][k] in g
      ensures g[rest[i].node][k] in next
    {
      if i == |rest| - 1 && k == rest[i].next - 1 {
        assert Leads(g, frames[i], path[i + 1]);
      } else {
        assert k < Settled(frames, i);
        assert g[frames[i].node][k] in done;
      }
    }
  }

  lemma SkipDependency(g: Graph, frames: seq<Frame>, done: seq<string>, n: nat)
    requires frames != [] && SettledAreDone(g, frames, done)
    requires var top := frames[|frames| - 1];
             top.node in g && top.next < |g[top.node]| && n == top.next + 1
             && (g[top.node][top.next] in g ==> g[top.node][top.next] in done)
    ensures SettledAreDone(g, frames[|frames| - 1 := frames[|frames| - 1].(next := n)], done)
  {
    var after := frames[|frames| - 1 := frames[|frames| - 1].(next := n)];
    forall i, k | 0 <= i < |after| && after[i].node in g && 0 <= k < Settled(after, i)
                  && k < |g[after[i].node]| && g[after[i].node][k] in g
      ensures g[after[i].node][k] in done
    {
      if i < |frames| - 1 || k < n - 1 {
        assert k < Settled(frames, i);
        assert g[frames[i].node][k] in done;
      }
    }
  }

  lemma EnterDependency(g: Graph, frames: seq<Frame>, done: seq<string>, n: nat, d: string)
    requires frames != [] && SettledAreDone(g, frames, done)
    requires n == frames[|frames| - 1].next + 1
    ensures SettledAreDone(g, frames[|frames| - 1 := frames[|frames| - 1].(next := n)] + [Frame(d, 0)], done)
  {
    var after := frames[|frames| - 1 := frames[|frames| - 1].(next := n)] + [Frame(d, 0)];
    forall i, k | 0 <= i < |after| && after[i].node in g && 0 <= k < Settled(after, i)
                  && k < |g[after[i].node]| && g[after[i].node][k] in g
      ensures g[after[i].node][k] in done
    {
      assert k < Settled(frames, i);
      assert g[frames[i].node][k] in done;
    }
  }

  // How many dependencies the top frame has yet to look at.
  ghost function Unseen(g: Graph, frames: seq<Frame>): int {
    if frames == [] || frames[|frames| - 1].node !in g then 0
    else |g[frames[|frames| - 1].node]| - frames[|frames| - 1].next
  }

  lemma StartSearch(g: Graph, visited: set<string>, done: seq<string>, start: string)
    requires Search(g, [], [], map[], {}, visited, done) && start in g && start !in visited
    ensures Search(g, [Frame(start, 0)], [start], map[start := 0], {start}, visited + {start}, done)
    ensures SettledAreDone(g, [Frame(start, 0)], done)
  {
  }

  lemma EndSearch(g: Graph, path: seq<string>, stackIndex: map<string, nat>,
                  active: set<string>, visited: set<string>, done: seq<string>)
    requires Search(g, [], path, stackIndex, active, visited, done)
    ensures Search(g, [], [], map[], {}, visited, done)
  {
  }

  lemma FewerUnvisited(g: Graph, visited: set<string>, d: string)
    requires d in g && d !in visited
    ensures |g.Keys - (visited + {d})| < |g.Keys - visited|
  {
    assert g.Keys - (visited + {d}) == g.Keys - visited - {d};
  }

  lemma AddGenuine(g: Graph, errors: seq<CycleError>, e: CycleError)
    requires AllGenuine(g, errors) && Genuine(g, e)
    ensures AllGenuine(g, errors + [e])
  {
  }

  // What the search may rely on about the frame on top and the dependency it looks at.
  lemma TopFrame(g: Graph, frames: seq<Frame>, path: seq<string>, stackIndex: map<string, nat>,
                 active: set<string>, visited: set<string>, done: seq<string>, d: string)
    requires Search(g, frames, path, stackIndex, active, visited, done) && frames != []
    ensures Frames(g, frames, path) && Indexed(path, stackIndex)
    ensures |frames| == |path| && FrameAt(g, frames[|frames| - 1], path[|path| - 1])
    ensures path[|path| - 1] !in done
    ensures d in active ==> d in path && d in g
    ensures d in visited && d !in active ==> d in done
  {
  }

  lemma PopKeepsSearch(g: Graph, frames: seq<Frame>, path: seq<string>, stackIndex: map<string, nat>,
                       active: set<string>, visited: set<string>, done: seq<string>)
    requires Search(g, frames, path, stackIndex, active, visited, done) && path != []
    ensures var node := path[|path| - 1];
            Search(g, frames[..|frames| - 1], path[..|path| - 1], stackIndex - {node}, active - {node},
                   visited, done + [node])
  {
    var node, short := path[|path| - 1], path[..|path| - 1];
    assert path == short + [node];
  }

  lemma AdvanceKeepsSearch(g: Graph, frames: seq<Frame>, path: seq<string>, stackIndex: map<string, nat>,
                           active: set<string>, visited: set<string>, done: seq<string>, after: seq<Frame>)
    requires Search(g, frames, path, stackIndex, active, visited, done) && path != []
    requires var top := frames[|frames| - 1];
             top.next < |g[path[|path| - 1]]| && after == frames[|frames| - 1 := Frame(top.node, top.next + 1)]
    ensures Search(g, after, path, stackIndex, active, visited, done)
    ensures Leads(g, after[|after| - 1], g[path[|path| - 1]][frames[|frames| - 1].next])
    ensures Unseen(g, after) == Unseen(g, frames) - 1
  {
  }

  lemma PushKeepsSearch(g: Graph, frames: seq<Frame>, path: seq<string>, stackIndex: map<string, nat>,
                        active: set<string>, visited: set<string>, done: seq<string>, d: string)
    requires Search(g, frames, path, stackIndex, active, visited, done)
    requires d in g && d !in visited
    requires frames != [] ==> Leads(g, frames[|frames| - 1], d)
    ensures Search(g, frames + [Frame(d, 0)], path + [d], stackIndex[d := |path|], active + {d}, visited + {d}, done)
  {
  }

  // ---------- The rule ----------

  /** The search from one unvisited start node. The traversal stack is empty before and after it. */
  method Explore(g: Graph, start: string, seen: set<string>, found: seq<CycleError>, ghost finished: seq<string>)
    returns (visited: set<string>, errors: seq<CycleError>, ghost done: seq<string>)
    requires start in g && start !in seen
    requires Search(g, [], [], map[], {}, seen, finished)
    requires found == [] ==> Ordered(g, finished)
    requires AllGenuine(g, found)
    ensures Search(g, [], [], map[], {}, visited, done)
    ensures seen + {start} <= visited
    ensures errors == [] ==> Ordered(g, done)
    ensures AllGenuine(g, errors)
  {
    hide Search, Frames, Indexed, Ordered, SettledAreDone, AllGenuine, Genuine, Leads;
    errors, done := found, finished;
    StartSearch(g, seen, done, start);
    var frameStack := [Frame(start, 0)];
    visited := seen + {start};
    var active := {start};
    var stackIndex: map<string, nat> := map[start := 0];
    var traversalStack := [start];

    while frameStack != []
      invariant Search(g, frameStack, traversalStack, stackIndex, active, visited, done)
      invariant seen + {start} <= visited
      invariant errors == [] ==> Ordered(g, done) && SettledAreDone(g, frameStack, done)
      invariant AllGenuine(g, errors)
      decreases |g.Keys - visited|, |frameStack|, Unseen(g, frameStack)
    {
      var Frame(node, index) := frameStack[|frameStack| - 1];
      TopFrame(g, frameStack, traversalStack, stackIndex, active, visited, done, node);
      var dependencies := g[node];

      if index >= |dependencies| {
        PopKeepsSearch(g, frameStack, traversalStack, stackIndex, active, visited, done);
        if errors == [] {
          FinishNode(g, frameStack, traversalStack, done);
        }
        frameStack := frameStack[..|frameStack| - 1];
        active := active - {node};
        stackIndex := stackIndex - {node};
        traversalStack := traversalStack[..|traversalStack| - 1];
        done := done + [node];
        continue;
      }

      var dependency := dependencies[index];
      ghost var before := frameStack;
      TopFrame(g, frameStack, traversalStack, stackIndex, active, visited, done, dependency);
      frameStack := frameStack[|frameStack| - 1 := Frame(node, index + 1)];
      AdvanceKeepsSearch(g, before, traversalStack, stackIndex, active, visited, done, frameStack);

      if dependency in active {
        IndexLocates(traversalStack, stackIndex, dependency);
        BackEdgeIsGenuine(g, before, traversalStack, stackIndex[dependency], dependency);
        var cyclePath := traversalStack[stackIndex[dependency]..] + [dependency];
        AddGenuine(g, errors, CycleError(node, dependency, cyclePath));
        errors := errors + [CycleError(node, dependency, cyclePath)];
        continue;
      }

      if dependency !in g || dependency in visited {
        if errors == [] {
          SkipDependency(g, before, done, index + 1);
        }
        continue;
      }

      if errors == [] {
        EnterDependency(g, before, done, index + 1, dependency);
      }
      PushKeepsSearch(g, frameStack, traversalStack, stackIndex, active, visited, done, dependency);
      FewerUnvisited(g, visited, dependency);
      visited := visited + {dependency};
      active := active + {dependency};
      stackIndex := stackIndex[dependency := |traversalStack|];
      traversalStack := traversalStack + [dependency];
      frameStack := frameStack + [Frame(dependency, 0)];
    }
    EndSearch(g, traversalStack, stackIndex, active, visited, done);
  }

  /** `order` lists the keys of the graph in insertion order. The rule reports nothing exactly
      when the graph has no cycle, and everything it reports is a cycle. */
  method DetectCycles(order: seq<string>, g: Graph) returns (errors: seq<CycleError>)
    requires Elements(order) == g.Keys
    ensures errors == [] <==> Acyclic(g)
    ensures AllGenuine(g, errors)
  {
    var visited: set<string> := {};
    errors := [];
    ghost var done: seq<string> := [];

    for s := 0 to |order|
      invariant Search(g, [], [], map[], {}, visited, done)
      invariant forall i :: 0 <= i < s ==> order[i] in visited
      invariant errors == [] ==> Ordered(g, done)
      invariant AllGenuine(g, errors)
    {
      if order[s] in visited {
        continue;
      }
      assert order[s] in Elements(order);
      visited, errors, done := Explore(g, order[s], visited, errors, done);
    }

    if errors == [] {
      assert forall v :: v in g ==> v in Elements(order);
      TopologicalIsAcyclic(g, done);
    } else {
      assert Genuine(g, errors[0]);
    }
  }
}
