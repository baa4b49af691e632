/** The validation rules for submitted definitions whose nodes are objects with a list of
    dependencies, and what acceptance by all of them means. */
module DefinitionRules {
  import opened Wrappers
  import opened JsonValues
  import opened Definitions
  import opened Graphs
  import opened Traversal
  import opened CycleDetection
  import opened Protocol
  import T = TemplateSyntax

  datatype RawNode = RawNode(id: Json, handler: string, dependencies: seq<Json>, config: map<string, Json>)

  type Definition = seq<RawNode>

  datatype Fault = Unknown | SelfReference | Repeated

  datatype RuleError =
    | InvalidNodeId(index: nat)
    | DuplicateNodeId(index: nat)
    | BadDependency(node: nat, position: nat, fault: Fault)
    | CyclicDependency(cycle: CycleError)

  predicate ValidId(id: Json) { id.Text? && T.Name(id.text) }

  // ---------- Node identifiers ----------

  method CheckNodeIds(def: Definition) returns (errors: seq<RuleError>)
    ensures errors == [] <==> forall i :: 0 <= i < |def| ==> ValidId(def[i].id)
    ensures forall i :: 0 <= i < |def| ==> (InvalidNodeId(i) in errors <==> !ValidId(def[i].id))
    ensures forall e :: e in errors ==> e.InvalidNodeId? && e.index < |def|
  {
    errors := [];
    for k := 0 to |def|
      invariant errors == [] <==> forall i :: 0 <= i < k ==> ValidId(def[i].id)
      invariant forall i :: 0 <= i < k ==> (InvalidNodeId(i) in errors <==> !ValidId(def[i].id))
      invariant forall e :: e in errors ==> e.InvalidNodeId? && e.index < k
    {
      if !ValidId(def[k].id) {
        errors := errors + [InvalidNodeId(k)];
      }
    }
  }

  // How often each valid identifier is defined.
  function Counts(def: Definition): multiset<string> {
    if def == [] then multiset{}
    else
      var last := def[|def| - 1].id;
      Counts(def[..|def| - 1]) + if ValidId(last) then multiset{last.text} else multiset{}
  }

  predicate SameId(a: RawNode, b: RawNode) { ValidId(a.id) && a.id == b.id }

  predicate Defines(node: RawNode, s: string) { node.id == Text(s) }

  predicate DefinedBy(def: Definition, s: string) {
    exists i :: 0 <= i < |def| && Defines(def[i], s)
  }

  predicate DefinedTwice(def: Definition, s: string) {
    exists i, j :: 0 <= i < j < |def| && Defines(def[i], s) && Defines(def[j], s)
  }

  lemma CountsStep(def: Definition, s: string)
    requires T.Name(s)
    ensures def == [] ==> Counts(def)[s] == 0
    ensures def != [] ==>
              Counts(def)[s] == Counts(def[..|def| - 1])[s] + if Defines(def[|def| - 1], s) then 1 else 0
  {
  }

  lemma {:induction false} CountsZero(def: Definition, s: string)
    requires T.Name(s)
    ensures Counts(def)[s] > 0 <==> DefinedBy(def, s)
  {
    hide T.Name, Counts;
    CountsStep(def, s);
    if def != [] {
      var k := |def| - 1;
      CountsZero(def[..k], s);
      if i :| 0 <= i < k && Defines(def[i], s) {
        assert Defines(def[..k][i], s);
      }
    }
  }

  /** A count above one is a repeated definition. */
  lemma {:induction false} CountsTell(def: Definition, s: string)
    requires T.Name(s)
    ensures Counts(def)[s] > 1 <==> DefinedTwice(def, s)
  {
    hide T.Name, Counts;
    CountsStep(def, s);
    if def != [] {
      var k := |def| - 1;
      CountsTell(def[..k], s);
      CountsZero(def[..k], s);
      if DefinedTwice(def, s) {
        var i, j :| 0 <= i < j < |def| && Defines(def[i], s) && Defines(def[j], s);
        assert Defines(def[..k][i], s);
        if j < k {
          assert Defines(def[..k][j], s);
        }
      }
      if Defines(def[k], s) && DefinedBy(def[..k], s) {
        var i :| 0 <= i < k && Defines(def[..k][i], s);
        assert Defines(def[i], s);
      }
      if DefinedTwice(def[..k], s) {
        var i, j :| 0 <= i < j < k && Defines(def[..k][i], s) && Defines(def[..k][j], s);
        assert Defines(def[i], s) && Defines(def[j], s);
      }
    }
  }

  lemma {:induction false} CountsValid(def: Definition, s: string)
    ensures Counts(def)[s] > 0 ==> T.Name(s)
  {
    if def != [] {
      CountsValid(def[..|def| - 1], s);
    }
  }

  predicate UniqueValidIds(def: Definition) {
    forall i, j :: 0 <= i < j < |def| ==> !SameId(def[i], def[j])
  }

  // Another node has the same valid identifier.
  predicate Shared(def: Definition, i: nat)
    requires i < |def|
  {
    exists j :: 0 <= j < |def| && j != i && SameId(def[i], def[j])
  }

  lemma RepeatedIffCounted(def: Definition, i: nat)
    requires i < |def| && def[i].id.Text?
    ensures Counts(def)[def[i].id.text] > 1 <==> Shared(def, i)
  {
    var s := def[i].id.text;
    if T.Name(s) {
      CountsTell(def, s);
      if j :| 0 <= j < |def| && j != i && SameId(def[i], def[j]) {
        assert Defines(def[if i < j then i else j], s) && Defines(def[if i < j then j else i], s);
      }
      if DefinedTwice(def, s) {
        var a, b :| 0 <= a < b < |def| && Defines(def[a], s) && Defines(def[b], s);
        assert SameId(def[i], def[if a == i then b else a]);
      }
    } else {
      CountsValid(def, s);
    }
  }

  /** Reports exactly the nodes that share their identifier. */
  method CheckUniqueIds(def: Definition) returns (errors: seq<RuleError>)
    ensures errors == [] <==> UniqueValidIds(def)
    ensures forall i :: 0 <= i < |def| ==> (DuplicateNodeId(i) in errors <==> Shared(def, i))
    ensures forall e :: e in errors ==> e.DuplicateNodeId? && e.index < |def|
  {
    errors := [];
    for k := 0 to |def|
      invariant errors == [] <==> forall i, j :: 0 <= i < k && 0 <= j < |def| && j != i ==> !SameId(def[i], def[j])
      invariant forall i :: 0 <= i < k ==> (DuplicateNodeId(i) in errors <==> Shared(def, i))
      invariant forall e :: e in errors ==> e.DuplicateNodeId? && e.index < k
    {
      if def[k].id.Text? {
        RepeatedIffCounted(def, k);
        if Counts(def)[def[k].id.text] > 1 {
          errors := errors + [DuplicateNodeId(k)];
        }
      }
    }
  }

  // ---------- Dependency references ----------

  function KnownIds(def: Definition): set<string> {
    set i | 0 <= i < |def| && def[i].id.Text? && T.Strip(def[i].id.text) != [] :: def[i].id.text
  }

  /** What is wrong with one dependency, if anything. */
  function FaultOf(def: Definition, node: RawNode, j: nat): Option<Fault>
    requires j < |node.dependencies|
  {
    var d := node.dependencies[j];
    if !d.Text? || d.text !in KnownIds(def) then Some(Unknown)
    else if d == node.id then Some(SelfReference)
    else if exists k :: 0 <= k < j && node.dependencies[k] == d then Some(Repeated)
    else None
  }

  function NodeFaults(def: Definition, i: nat, n: nat): seq<RuleError>
    requires i < |def| && n <= |def[i].dependencies|
  {
    if n == 0 then []
    else
      NodeFaults(def, i, n - 1)
      + match FaultOf(def, def[i], n - 1) case None => [] case Some(f) => [BadDependency(i, n - 1, f)]
  }

  function Faults(def: Definition, m: nat): seq<RuleError>
    requires m <= |def|
  {
    if m == 0 then [] else Faults(def, m - 1) + NodeFaults(def, m - 1, |def[m - 1].dependencies|)
  }

  method CheckNodeDependencies(def: Definition, i: nat, known: set<string>) returns (errors: seq<RuleError>)
    requires i < |def| && known == KnownIds(def)
    ensures errors == NodeFaults(def, i, |def[i].dependencies|)
  {
    errors := [];
    var node := def[i];
    var seen: set<string> := {};
    for j := 0 to |node.dependencies|
      invariant errors == NodeFaults(def, i, j)
      invariant forall s :: s in seen ==> exists k :: 0 <= k < j && node.dependencies[k] == Text(s)
      invariant forall k :: (0 <= k < j && node.dependencies[k].Text? && node.dependencies[k].text in known
                             && node.dependencies[k] != node.id) ==> node.dependencies[k].text in seen
    {
      var d := node.dependencies[j];
      if !d.Text? || d.text !in known {
        errors := errors + [BadDependency(i, j, Unknown)];
        continue;
      }
      if d == node.id {
        errors := errors + [BadDependency(i, j, SelfReference)];
        continue;
      }
      if d.text in seen {
        errors := errors + [BadDependency(i, j, Repeated)];
        continue;
      }
      seen := seen + {d.text};
    }
  }

  /** The rule reports every faulty dependency once, with its fault, in order. */
  method CheckDependencies(def: Definition) returns (errors: seq<RuleError>)
    ensures errors == Faults(def, |def|)
  {
    var known := KnownIds(def);
    errors := [];
    for i := 0 to |def|
      invariant errors == Faults(def, i)
    {
      var found := CheckNodeDependencies(def, i, known);
      errors := errors + found;
    }
  }

  ghost predicate Clean(def: Definition, node: RawNode, n: nat)
    requires n <= |node.dependencies|
  {
    forall j :: 0 <= j < n ==> FaultOf(def, node, j).None?
  }

  lemma {:induction false} NodeFaultsEmpty(def: Definition, i: nat, n: nat)
    requires i < |def| && n <= |def[i].dependencies|
    ensures NodeFaults(def, i, n) == [] <==> Clean(def, def[i], n)
  {
    if n > 0 {
      NodeFaultsEmpty(def, i, n - 1);
    }
  }

  ghost predicate NoFaults(def: Definition, m: nat)
    requires m <= |def|
  {
    forall i :: 0 <= i < m ==> Clean(def, def[i], |def[i].dependencies|)
  }

  lemma {:induction false} FaultsEmpty(def: Definition, m: nat)
    requires m <= |def|
    ensures Faults(def, m) == [] <==> NoFaults(def, m)
  {
    hide NodeFaults, Clean;
    if m > 0 {
      FaultsEmpty(def, m - 1);
      NodeFaultsEmpty(def, m - 1, |def[m - 1].dependencies|);
    }
  }

  // ---------- Which fault is reported where ----------

  // What is wrong with dependency j of node i, said of the definition.
  ghost predicate Wrong(def: Definition, i: nat, j: nat, fault: Fault)
    requires i < |def| && j < |def[i].dependencies|
  {
    var d := def[i].dependencies[j];
    var known := d.Text? && exists k :: 0 <= k < |def| && def[k].id == d && T.Strip(d.text) != [];
    match fault
    case Unknown => !known
    case SelfReference => known && d == def[i].id
    case Repeated => known && d != def[i].id && exists k :: 0 <= k < j && def[i].dependencies[k] == d
  }

  lemma FaultMeans(def: Definition, i: nat, j: nat, fault: Fault)
    requires i < |def| && j < |def[i].dependencies|
    ensures FaultOf(def, def[i], j) == Some(fault) <==> Wrong(def, i, j, fault)
  {
    hide T.Strip;
    var d := def[i].dependencies[j];
    if d.Text? {
      assert d.text in KnownIds(def) <==> exists k :: 0 <= k < |def| && def[k].id == d && T.Strip(d.text) != [];
    }
  }

  lemma {:induction false} NodeFaultsMember(def: Definition, i: nat, n: nat, e: RuleError)
    requires i < |def| && n <= |def[i].dependencies|
    ensures e in NodeFaults(def, i, n) <==>
            e.BadDependency? && e.node == i && e.position < n && FaultOf(def, def[i], e.position) == Some(e.fault)
  {
    hide FaultOf;
    if n > 0 {
      NodeFaultsMember(def, i, n - 1, e);
    }
  }

  lemma {:induction false} FaultsMember(def: Definition, m: nat, e: RuleError)
    requires m <= |def|
    ensures e in Faults(def, m) <==>
            e.BadDependency? && e.node < m && e.position < |def[e.node].dependencies| && FaultOf(def, def[e.node], e.position) == Some(e.fault)
  {
    hide FaultOf, NodeFaults;
    if m > 0 {
      FaultsMember(def, m - 1, e);
      NodeFaultsMember(def, m - 1, |def[m - 1].dependencies|, e);
    }
  }

  /** The dependency rule reports a fault at a position exactly when that is what is wrong there: no node
      has the identifier; or it is the node itself; or it was listed before. */
  lemma ReportedWhereWrong(def: Definition, i: nat, j: nat, fault: Fault)
    requires i < |def| && j < |def[i].dependencies|
    ensures BadDependency(i, j, fault) in Faults(def, |def|) <==> Wrong(def, i, j, fault)
  {
    hide FaultOf, Wrong, Faults;
    FaultsMember(def, |def|, BadDependency(i, j, fault));
    FaultMeans(def, i, j, fault);
  }

  // ---------- Cycles ----------

  function KeptDependencies(def: Definition, node: RawNode, n: nat): seq<string>
    requires n <= |node.dependencies|
  {
    if n == 0 then []
    else
      var d := node.dependencies[n - 1];
      KeptDependencies(def, node, n - 1)
      + if d.Text? && d != node.id && Counts(def)[d.text] == 1 then [d.text] else []
  }

  predicate IsKey(def: Definition, i: nat)
    requires i < |def|
  {
    def[i].id.Text? && Counts(def)[def[i].id.text] == 1
  }

  /** The graph the rule searches: uniquely identified nodes and the dependencies among them. */
  ghost predicate IsRuleGraph(def: Definition, g: Graph) {
    && (forall s :: s in g <==> exists i :: 0 <= i < |def| && IsKey(def, i) && def[i].id.text == s)
    && (forall i :: 0 <= i < |def| && IsKey(def, i) && ValidId(def[i].id) ==>
          def[i].id.text in g && g[def[i].id.text] == KeptDependencies(def, def[i], |def[i].dependencies|))
  }

  method KeepDependencies(def: Definition, node: RawNode) returns (kept: seq<string>)
    ensures kept == KeptDependencies(def, node, |node.dependencies|)
  {
    kept := [];
    for j := 0 to |node.dependencies|
      invariant kept == KeptDependencies(def, node, j)
    {
      var d := node.dependencies[j];
      if d.Text? && d != node.id && Counts(def)[d.text] == 1 {
        kept := kept + [d.text];
      }
    }
  }

  lemma KeyIsUnique(def: Definition, i: nat, j: nat)
    requires i < |def| && j < |def| && IsKey(def, i) && def[i].id == def[j].id
    ensures i == j && ValidId(def[i].id)
  {
    var s := def[i].id.text;
    CountsValid(def, s);
    CountsTell(def, s);
    if i != j {
      assert Defines(def[if i < j then i else j], s) && Defines(def[if i < j then j else i], s);
    }
  }

  method BuildRuleGraph(def: Definition) returns (order: seq<string>, g: Graph)
    ensures Elements(order) == g.Keys && IsRuleGraph(def, g)
  {
    order, g := [], map[];
    for k := 0 to |def|
      invariant Elements(order) == g.Keys
      invariant forall s :: s in g <==> exists i :: 0 <= i < k && IsKey(def, i) && def[i].id.text == s
      invariant forall i :: 0 <= i < k && IsKey(def, i) ==>
                  def[i].id.text in g && g[def[i].id.text] == KeptDependencies(def, def[i], |def[i].dependencies|)
    {
      if def[k].id.Text? && Counts(def)[def[k].id.text] == 1 {
        var kept := KeepDependencies(def, def[k]);
        forall i | 0 <= i < k && IsKey(def, i) ensures def[i].id != def[k].id {
          if def[i].id == def[k].id {
            KeyIsUnique(def, i, k);
          }
        }
        order := order + [def[k].id.text];
        g := g[def[k].id.text := kept];
      }
    }
  }

  // Exactly one node has this valid identifier.
  ghost predicate DefinedExactlyOnce(def: Definition, s: string) {
    T.Name(s) && DefinedBy(def, s) && !DefinedTwice(def, s)
  }

  lemma {:induction false} KeptMember(def: Definition, node: RawNode, n: nat, d: string)
    requires n <= |node.dependencies|
    ensures d in KeptDependencies(def, node, n) <==>
            (exists j :: 0 <= j < n && node.dependencies[j] == Text(d)) && Text(d) != node.id && DefinedExactlyOnce(def, d)
  {
    OnceIsCounted(def, d);
    hide Counts, DefinedExactlyOnce;
    if n > 0 {
      KeptMember(def, node, n - 1, d);
    }
  }

  lemma OnceIsCounted(def: Definition, s: string)
    ensures Counts(def)[s] == 1 <==> DefinedExactlyOnce(def, s)
  {
    if T.Name(s) {
      CountsZero(def, s);
      CountsTell(def, s);
    } else {
      CountsValid(def, s);
    }
  }

  /** The graph that is searched for cycles: its nodes are the identifiers defined exactly once, and its
      edges lead to those of the declared dependencies that are other such identifiers. */
  lemma RuleGraphMeans(def: Definition, g: Graph, i: nat, d: string)
    requires IsRuleGraph(def, g) && i < |def| && def[i].id.Text?
    ensures def[i].id.text in g <==> DefinedExactlyOnce(def, def[i].id.text)
    ensures def[i].id.text in g ==>
              (d in g[def[i].id.text] <==>
                 (exists j :: 0 <= j < |def[i].dependencies| && def[i].dependencies[j] == Text(d)) && d != def[i].id.text && DefinedExactlyOnce(def, d))
  {
    var s := def[i].id.text;
    OnceIsCounted(def, s);
    KeptMember(def, def[i], |def[i].dependencies|, d);
    hide Counts, KeptDependencies;
    if s in g {
      assert IsKey(def, i);
    }
  }

  method CheckCycles(def: Definition) returns (errors: seq<RuleError>)
    ensures exists g :: IsRuleGraph(def, g) && (errors == [] <==> Acyclic(g))
                        && forall e :: e in errors ==> e.CyclicDependency? && Genuine(g, e.cycle)
  {
    var order, g := BuildRuleGraph(def);
    var cycles := DetectCycles(order, g);
    errors := [];
    for k := 0 to |cycles|
      invariant |errors| == k
      invariant forall e :: e in errors ==> e.CyclicDependency? && Genuine(g, e.cycle)
    {
      errors := errors + [CyclicDependency(cycles[k])];
    }
  }

  // ---------- All rules ----------

  /** Runs every rule and collects all errors. */
  method Validate(def: Definition) returns (errors: seq<RuleError>)
    ensures errors == [] <==> Acceptable(def)
    ensures errors == [] ==> WellFormed(ToWorkflow(def))
  {
    assert Acceptable(def) ==> WellFormed(ToWorkflow(def));
    hide Acceptable, WellFormed, IsRuleGraph, Acyclic;
    var ids := CheckNodeIds(def);
    var unique := CheckUniqueIds(def);
    var dependencies := CheckDependencies(def);
    var cycles := CheckCycles(def);
    ghost var g :| IsRuleGraph(def, g) && (cycles == [] <==> Acyclic(g));
    FaultsEmpty(def, |def|);
    AcceptableIff(def, g);
    errors := ids + unique + dependencies + cycles;
  }

  function TextOf(j: Json): string { if j.Text? then j.text else "" }

  function Texts(js: seq<Json>): (r: seq<string>)
    ensures |r| == |js| && forall i :: 0 <= i < |js| ==> r[i] == TextOf(js[i])
  {
    if js == [] then [] else Texts(js[..|js| - 1]) + [TextOf(js[|js| - 1])]
  }

  /** The workflow an accepted definition is turned into. */
  function ToWorkflow(def: Definition): (w: Workflow)
    ensures |w| == |def|
    ensures forall i :: 0 <= i < |def| ==>
              w[i] == Node(TextOf(def[i].id), def[i].handler, Texts(def[i].dependencies), def[i].config)
  {
    if def == [] then []
    else
      var n := def[|def| - 1];
      ToWorkflow(def[..|def| - 1]) + [Node(TextOf(n.id), n.handler, Texts(n.dependencies), n.config)]
  }

  /** What acceptance means: identifiers are valid names, dependencies are names without
      repetition, and the workflow is well formed. */
  ghost predicate Acceptable(def: Definition) {
    && (forall i :: 0 <= i < |def| ==> ValidId(def[i].id))
    && (forall i, j :: 0 <= i < |def| && 0 <= j < |def[i].dependencies| ==> def[i].dependencies[j].Text?)
    && (forall i :: 0 <= i < |def| ==> NoDuplicates(Texts(def[i].dependencies)))
    && WellFormed(ToWorkflow(def))
  }

  lemma {:induction false} KeepsAll(def: Definition, node: RawNode, n: nat)
    requires n <= |node.dependencies|
    requires forall j :: 0 <= j < n ==> node.dependencies[j].Text? && node.dependencies[j] != node.id && Counts(def)[node.dependencies[j].text] == 1
    ensures KeptDependencies(def, node, n) == Texts(node.dependencies[..n])
  {
    if n > 0 {
      KeepsAll(def, node, n - 1);
      assert node.dependencies[..n][..n - 1] == node.dependencies[..n - 1];
    }
  }

  ghost predicate PlainRulesHold(def: Definition) {
    (forall i :: 0 <= i < |def| ==> ValidId(def[i].id)) && UniqueValidIds(def) && NoFaults(def, |def|)
  }

  lemma DefinedOnce(def: Definition, i: nat)
    requires i < |def| && ValidId(def[i].id) && UniqueValidIds(def)
    ensures Counts(def)[def[i].id.text] == 1
  {
    var s := def[i].id.text;
    CountsTell(def, s);
    CountsZero(def, s);
    assert Defines(def[i], s);
    forall a, b | 0 <= a < b < |def| ensures !(Defines(def[a], s) && Defines(def[b], s)) {
      assert !SameId(def[a], def[b]);
    }
  }

  lemma DependencyIsNode(def: Definition, i: nat, j: nat) returns (k: nat)
    requires PlainRulesHold(def) && i < |def| && j < |def[i].dependencies|
    ensures k < |def| && def[k].id == def[i].dependencies[j] && k != i
    ensures def[i].dependencies[j].Text? && def[i].dependencies[j] != def[i].id
    ensures Counts(def)[def[i].dependencies[j].text] == 1
  {
    assert Clean(def, def[i], |def[i].dependencies|);
    assert FaultOf(def, def[i], j).None?;
    k :| 0 <= k < |def| && def[k].id == def[i].dependencies[j];
    DefinedOnce(def, k);
  }

  lemma WorkflowIdsUnique(def: Definition)
    requires PlainRulesHold(def)
    ensures UniqueIds(ToWorkflow(def))
  {
    var w := ToWorkflow(def);
    forall i, j | 0 <= i < j < |w| ensures w[i].id != w[j].id {
      assert !SameId(def[i], def[j]);
    }
  }

  lemma RuleGraphNode(def: Definition, g: Graph, i: nat)
    requires PlainRulesHold(def) && IsRuleGraph(def, g) && i < |def|
    ensures def[i].id.Text? && def[i].id.text in g && g[def[i].id.text] == Texts(def[i].dependencies)
  {
    DefinedOnce(def, i);
    assert IsKey(def, i);
    forall j | 0 <= j < |def[i].dependencies|
      ensures def[i].dependencies[j].Text? && def[i].dependencies[j] != def[i].id && Counts(def)[def[i].dependencies[j].text] == 1
    {
      var k := DependencyIsNode(def, i, j);
    }
    KeepsAll(def, def[i], |def[i].dependencies|);
    assert def[i].dependencies[..|def[i].dependencies|] == def[i].dependencies;
  }

  // When the other rules hold, the rule's graph is the dependency graph of the workflow.
  lemma RuleGraphIsDependencyGraph(def: Definition, g: Graph)
    requires PlainRulesHold(def) && IsRuleGraph(def, g)
    ensures g == DependencyGraph(ToWorkflow(def))
  {
    hide PlainRulesHold, IsRuleGraph, Ids, DepsOf, ToWorkflow;
    var h := DependencyGraph(ToWorkflow(def));
    forall s | s in g ensures s in h && g[s] == h[s] {
      RuleGraphKeys(def, g, s);
      RuleGraphRow(def, g, s);
    }
    forall s | s in h ensures s in g {
      RuleGraphRow(def, g, s);
    }
  }

  lemma RuleGraphRow(def: Definition, g: Graph, s: string)
    requires PlainRulesHold(def) && IsRuleGraph(def, g) && s in Ids(ToWorkflow(def))
    ensures s in g && g[s] == DepsOf(ToWorkflow(def), s)
  {
    hide PlainRulesHold, IsRuleGraph, UniqueIds, NodeOf;
    var w := ToWorkflow(def);
    WorkflowIdsUnique(def);
    var i :| 0 <= i < |w| && w[i].id == s;
    RuleGraphNode(def, g, i);
    NodeOfUnique(w, i);
    assert w[i].id == def[i].id.text && w[i].dependencies == Texts(def[i].dependencies);
  }

  lemma RuleGraphKeys(def: Definition, g: Graph, s: string)
    requires PlainRulesHold(def) && IsRuleGraph(def, g)
    ensures s in g <==> s in Ids(ToWorkflow(def))
  {
    var w := ToWorkflow(def);
    if s in g {
      var i :| 0 <= i < |def| && IsKey(def, i) && def[i].id.text == s;
      assert w[i].id == s;
    }
    if s in Ids(w) {
      var i :| 0 <= i < |w| && w[i].id == s;
      RuleGraphNode(def, g, i);
    }
  }

  lemma PlainRulesGiveShape(def: Definition)
    requires PlainRulesHold(def)
    ensures UniqueIds(ToWorkflow(def)) && KnownDependencies(ToWorkflow(def))
    ensures forall i, j :: 0 <= i < |def| && 0 <= j < |def[i].dependencies| ==> def[i].dependencies[j].Text?
    ensures forall i :: 0 <= i < |def| ==> NoDuplicates(Texts(def[i].dependencies))
  {
    hide PlainRulesHold;
    var w := ToWorkflow(def);
    WorkflowIdsUnique(def);
    forall i, j | 0 <= i < |def| && 0 <= j < |def[i].dependencies|
      ensures def[i].dependencies[j].Text? && w[i].dependencies[j] in Ids(w)
    {
      var k := DependencyIsNode(def, i, j);
      assert w[k].id == w[i].dependencies[j];
    }
    forall i | 0 <= i < |def| ensures NoDuplicates(Texts(def[i].dependencies)) {
      NoRepetition(def, i);
    }
  }

  lemma NoRepetition(def: Definition, i: nat)
    requires PlainRulesHold(def) && i < |def|
    ensures NoDuplicates(Texts(def[i].dependencies))
  {
    forall a, b | 0 <= a < b < |def[i].dependencies|
      ensures Texts(def[i].dependencies)[a] != Texts(def[i].dependencies)[b]
    {
      var k := DependencyIsNode(def, i, a);
      var l := DependencyIsNode(def, i, b);
      assert Clean(def, def[i], |def[i].dependencies|);
      assert FaultOf(def, def[i], b).None?;
    }
  }

  lemma ShapeGivesClean(def: Definition, i: nat, j: nat)
    requires Acceptable(def) && i < |def| && j < |def[i].dependencies|
    ensures FaultOf(def, def[i], j).None?
  {
    hide WellFormed, KnownIds;
    var w, d := ToWorkflow(def), def[i].dependencies[j];
    assert w[i].dependencies[j] == d.text;
    DependencyIsKnown(def, i, j);
    NotOnItself(w, i, j);
    assert forall k :: 0 <= k < j ==> Texts(def[i].dependencies)[k] != d.text;
  }

  lemma DependencyIsKnown(def: Definition, i: nat, j: nat)
    requires Acceptable(def) && i < |def| && j < |def[i].dependencies|
    ensures def[i].dependencies[j].Text? && def[i].dependencies[j].text in KnownIds(def)
  {
    hide Acyclic;
    var w, d := ToWorkflow(def), def[i].dependencies[j];
    assert w[i].dependencies[j] == d.text && w[i].dependencies[j] in w[i].dependencies;
    assert d.text in Ids(w);
    var k :| 0 <= k < |w| && w[k].id == d.text;
    assert def[k].id == Text(d.text);
    NameIsKept(d.text);
  }

  lemma NotOnItself(w: Workflow, i: nat, j: nat)
    requires WellFormed(w) && i < |w| && j < |w[i].dependencies|
    ensures w[i].dependencies[j] != w[i].id
  {
    var s := w[i].id;
    NodeOfUnique(w, i);
    if w[i].dependencies[j] == s {
      assert Edge(DependencyGraph(w), s, s);
      assert ClosedWalk(DependencyGraph(w), [s, s]);
    }
  }

  lemma ShapeGivesPlainRules(def: Definition)
    requires Acceptable(def)
    ensures PlainRulesHold(def)
  {
    var w := ToWorkflow(def);
    forall i, j | 0 <= i < j < |def| ensures !SameId(def[i], def[j]) {
      assert w[i].id != w[j].id;
    }
    forall i | 0 <= i < |def| ensures Clean(def, def[i], |def[i].dependencies|) {
      forall j | 0 <= j < |def[i].dependencies| ensures FaultOf(def, def[i], j).None? {
        ShapeGivesClean(def, i, j);
      }
    }
  }

  lemma NameIsKept(s: string)
    requires T.Name(s)
    ensures T.Strip(s) == s
  {
  }

  lemma AcceptableIff(def: Definition, g: Graph)
    requires IsRuleGraph(def, g)
    ensures Acceptable(def) <==> PlainRulesHold(def) && Acyclic(g)
  {
    if PlainRulesHold(def) {
      PlainRulesGiveShape(def);
      RuleGraphIsDependencyGraph(def, g);
    }
    if Acceptable(def) {
      ShapeGivesPlainRules(def);
      RuleGraphIsDependencyGraph(def, g);
    }
  }
}
