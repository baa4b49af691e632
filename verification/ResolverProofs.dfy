/** Resolution is a single pass over the configuration and sees only what the configuration names. */
module ResolverProofs {
  import opened Wrappers
  import opened JsonValues
  import opened Definitions
  import opened InputResolver
  import T = TemplateSyntax
  import R = TemplateRoundTrip

  // ---------- The lookup loop ----------

  /** Walks down the path, one key at a time. */
  method FollowReference(r: T.Reference, outputs: Outputs) returns (found: Option<Json>)
    ensures found == Lookup(r, outputs)
  {
    if r.node !in outputs {
      return None;
    }
    var current := outputs[r.node];
    for k := 0 to |r.path|
      invariant Descend(outputs[r.node], r.path) == Descend(current, r.path[k..])
    {
      var key := r.path[k];
      assert r.path[k..][0] == key && r.path[k..][1..] == r.path[k + 1..];
      match current {
        case Object(fields) =>
          if key !in fields {
            return None;
          }
          current := fields[key];
        case List(items) =>
          if !T.Digits(key) || DigitsValue(key) >= |items| {
            return None;
          }
          current := items[DigitsValue(key)];
        case _ => return None;
      }
    }
    return Some(current);
  }

  // ---------- What a configuration mentions ----------

  /** The string stands somewhere inside the value, at any depth. */
  ghost predicate Inside(v: Json, s: string) {
    match v
    case Text(text) => text == s
    case List(items) => exists i :: 0 <= i < |items| && Inside(items[i], s)
    case Object(fields) => exists k :: k in fields && Inside(fields[k], s)
    case _ => false
  }

  function References(p: T.Parsed): set<T.Reference> {
    match p
    case Plain(_) => {}
    case Whole(r) => {r}
    case Mixed(segments) => SegmentReferences(segments)
  }

  function SegmentReferences(segments: seq<T.Segment>): set<T.Reference> {
    set s | s in segments && s.Output? :: s.reference
  }

  ghost predicate Mentions(s: string, r: T.Reference) {
    T.Parse(s).Some? && r in References(T.Parse(s).value)
  }

  ghost predicate RefersTo(v: Json, n: string) {
    exists s, r :: Inside(v, s) && Mentions(s, r) && r.node == n
  }

  ghost predicate SameAt(a: Outputs, b: Outputs, n: string) {
    (n in a <==> n in b) && (n in a ==> a[n] == b[n])
  }

  // ---------- Locality ----------

  lemma {:induction false} InterpolateIsLocal(segments: seq<T.Segment>, a: Outputs, b: Outputs)
    requires forall r :: r in SegmentReferences(segments) ==> Lookup(r, a) == Lookup(r, b)
    ensures Interpolate(segments, a) == Interpolate(segments, b)
  {
    if segments != [] {
      if segments[0].Output? {
        assert segments[0].reference in SegmentReferences(segments);
      }
      InterpolateIsLocal(segments[1..], a, b);
    }
  }

  lemma TextIsLocal(s: string, a: Outputs, b: Outputs)
    requires forall r :: Mentions(s, r) ==> SameAt(a, b, r.node)
    ensures ResolveText(s, a) == ResolveText(s, b)
  {
    hide T.Parse;
    match T.Parse(s)
    case Some(Mixed(segments)) =>
      forall r | r in SegmentReferences(segments) ensures Lookup(r, a) == Lookup(r, b) {
        assert Mentions(s, r);
      }
      InterpolateIsLocal(segments, a, b);
    case Some(Whole(r)) =>
      assert Mentions(s, r);
    case _ =>
  }

  // Resolution of a value is settled by the resolution of the strings in it.
  lemma {:induction false} StringsDecide(v: Json, a: Outputs, b: Outputs)
    requires forall s :: Inside(v, s) ==> ResolveText(s, a) == ResolveText(s, b)
    ensures ResolveValue(v, a) == ResolveValue(v, b)
  {
    hide ResolveText;
    match v
    case Text(s) => assert Inside(v, s);
    case List(items) =>
      forall i | 0 <= i < |items| ensures ResolveValue(items[i], a) == ResolveValue(items[i], b) {
        assert forall s :: Inside(items[i], s) ==> Inside(v, s);
        StringsDecide(items[i], a, b);
      }
      if ResolveValue(v, a).Some? {
        assert ResolveValue(v, a).value.items == ResolveValue(v, b).value.items;
      }
    case Object(fields) =>
      forall k | k in fields ensures ResolveValue(fields[k], a) == ResolveValue(fields[k], b) {
        assert forall s :: Inside(fields[k], s) ==> Inside(v, s);
        StringsDecide(fields[k], a, b);
      }
      if ResolveValue(v, a).Some? {
        assert ResolveValue(v, a).value.fields == ResolveValue(v, b).value.fields;
      }
    case _ =>
  }

  /** Two sets of outputs that agree on the nodes a value refers to resolve it alike. */
  lemma ResolutionIsLocal(v: Json, a: Outputs, b: Outputs)
    requires forall n :: RefersTo(v, n) ==> SameAt(a, b, n)
    ensures ResolveValue(v, a) == ResolveValue(v, b)
  {
    forall s | Inside(v, s) ensures ResolveText(s, a) == ResolveText(s, b) {
      forall r | Mentions(s, r) ensures SameAt(a, b, r.node) {
        assert RefersTo(v, r.node);
      }
      TextIsLocal(s, a, b);
    }
    StringsDecide(v, a, b);
  }

  /** The input of a node depends on nothing but the outputs its configuration names; only the
      input handler sees the execution input and only the output handler sees all outputs. */
  lemma NodeInputIsLocal(node: Node, input: map<string, Json>, input': map<string, Json>, a: Outputs, b: Outputs)
    requires node.handler == "input" ==> input == input'
    requires node.handler == "output" ==> a == b
    requires forall n :: RefersTo(Object(node.config), n) ==> SameAt(a, b, n)
    ensures Resolve(node, input, a) == Resolve(node, input', b)
  {
    hide ResolveValue, RefersTo;
    if node.handler != "input" && node.handler != "output" {
      ResolutionIsLocal(Object(node.config), a, b);
    }
  }

  // ---------- Values without templates ----------

  ghost predicate TemplateFree(v: Json) {
    forall s :: Inside(v, s) ==> !T.HasDelimiter(s)
  }

  lemma {:induction false} TemplateFreeIsUnchanged(v: Json, outputs: Outputs)
    requires TemplateFree(v)
    ensures ResolveValue(v, outputs) == Some(v)
  {
    hide T.HasDelimiter;
    match v
    case Text(s) => assert Inside(v, s);
    case List(items) =>
      forall i | 0 <= i < |items| ensures ResolveValue(items[i], outputs) == Some(items[i]) {
        assert forall s :: Inside(items[i], s) ==> Inside(v, s);
        TemplateFreeIsUnchanged(items[i], outputs);
      }
      assert ResolveValue(v, outputs).value.items == items;
    case Object(fields) =>
      forall k | k in fields ensures ResolveValue(fields[k], outputs) == Some(fields[k]) {
        assert forall s :: Inside(fields[k], s) ==> Inside(v, s);
        TemplateFreeIsUnchanged(fields[k], outputs);
      }
      assert ResolveValue(v, outputs).value.fields == fields;
    case _ =>
  }

  // ---------- Exactly when resolution succeeds ----------

  ghost predicate Scalar(v: Json) { !v.List? && !v.Object? }

  /** The string is well formed, every reference in it leads somewhere, and those surrounded by
      other text lead to scalars. */
  ghost predicate Resolvable(s: string, outputs: Outputs) {
    && T.Parse(s).Some?
    && forall r :: r in References(T.Parse(s).value) ==>
         Lookup(r, outputs).Some? && (T.Parse(s).value.Mixed? ==> Scalar(Lookup(r, outputs).value))
  }

  lemma {:induction false} InterpolationSucceeds(segments: seq<T.Segment>, outputs: Outputs)
    ensures Interpolate(segments, outputs).Some? <==>
            forall r :: r in SegmentReferences(segments) ==> Lookup(r, outputs).Some? && Scalar(Lookup(r, outputs).value)
  {
    hide Lookup;
    if segments != [] {
      InterpolationSucceeds(segments[1..], outputs);
      SegmentReferencesSplit(segments);
    }
  }

  lemma SegmentReferencesSplit(segments: seq<T.Segment>)
    requires segments != []
    ensures SegmentReferences(segments)
         == (if segments[0].Output? then {segments[0].reference} else {}) + SegmentReferences(segments[1..])
  {
    assert segments == [segments[0]] + segments[1..];
  }

  lemma TextSucceeds(s: string, outputs: Outputs)
    ensures ResolveText(s, outputs).Some? <==> Resolvable(s, outputs)
  {
    hide T.Parse, Lookup;
    match T.Parse(s)
    case Some(Mixed(segments)) => InterpolationSucceeds(segments, outputs);
    case _ =>
  }

  /** A value resolves exactly when every string in it does. */
  lemma {:induction false} ResolutionSucceeds(v: Json, outputs: Outputs)
    ensures ResolveValue(v, outputs).Some? <==> forall s :: Inside(v, s) ==> Resolvable(s, outputs)
  {
    hide ResolveText, Resolvable;
    match v
    case Text(s) => TextSucceeds(s, outputs);
    case List(items) =>
      forall i | 0 <= i < |items| ensures ResolveValue(items[i], outputs).Some? <==> forall s :: Inside(items[i], s) ==> Resolvable(s, outputs) {
        ResolutionSucceeds(items[i], outputs);
      }
    case Object(fields) =>
      forall k | k in fields ensures ResolveValue(fields[k], outputs).Some? <==> forall s :: Inside(fields[k], s) ==> Resolvable(s, outputs) {
        ResolutionSucceeds(fields[k], outputs);
      }
    case _ =>
  }

  // ---------- A string that is one reference ----------

  lemma {:induction false} SplitCovers(s: string, i: nat)
    requires i < |s| && s[i] != '.'
    ensures exists j :: 0 <= j < |T.Split(s)| && s[i] in T.Split(s)[j]
  {
    var rest := T.Split(s[1..]);
    if i > 0 {
      SplitCovers(s[1..], i - 1);
      var j :| 0 <= j < |rest| && s[i] in rest[j];
      if s[0] == '.' {
        assert T.Split(s)[j + 1] == rest[j];
      } else if j == 0 {
        assert T.Split(s)[0] == [s[0]] + rest[0];
      } else {
        assert T.Split(s)[j] == rest[j];
      }
    } else {
      assert T.Split(s)[0] == [s[0]] + rest[0];
    }
  }

  lemma {:induction false} StripLeftKeeps(s: string, c: char)
    requires c in s && !T.IsSpace(c)
    ensures c in T.StripLeft(s)
  {
    if T.IsSpace(s[0]) {
      assert s == [s[0]] + s[1..];
      StripLeftKeeps(s[1..], c);
    }
  }

  lemma {:induction false} StripRightKeeps(s: string, c: char)
    requires c in s && !T.IsSpace(c)
    ensures c in T.StripRight(s)
  {
    if T.IsSpace(s[|s| - 1]) {
      assert s == s[..|s| - 1] + [s[|s| - 1]];
      StripRightKeeps(s[..|s| - 1], c);
    }
  }

  // An expression that denotes a reference holds only names, dots and white space.
  lemma ExpressionIsBraceless(e: string)
    requires T.ReferenceOf(e).Some?
    ensures R.Braceless(e)
  {
    forall i | 0 <= i < |e| ensures e[i] != '{' && e[i] != '}' {
      if e[i] != '.' && !T.IsSpace(e[i]) {
        SplitCovers(e, i);
        var parts := T.Split(e);
        var j :| 0 <= j < |parts| && e[i] in parts[j];
        StripLeftKeeps(parts[j], e[i]);
        StripRightKeeps(T.StripLeft(parts[j]), e[i]);
        assert e[i] in T.StripAll(parts)[j];
        assert T.Name(T.StripAll(parts)[j]) || T.PathPart(T.StripAll(parts)[j]);
      }
    }
  }

  lemma WholeExpression(e: string)
    requires T.ReferenceOf(e).Some?
    ensures T.Parse("{{" + e + "}}") == Some(T.Whole(T.ReferenceOf(e).value))
  {
    hide T.ReferenceOf, T.Scan;
    var v := "{{" + e + "}}";
    ExpressionIsBraceless(e);
    R.EmptyIsClean();
    R.ScanOne([], e, []);
    R.ScanEmpty();
    assert v == [] + "{{" + (e + "}}" + []);
    assert T.Scan(v) == [T.Expression(e)];
    assert T.DelimiterAt(v, '{', 0);
    assert T.SegmentsOf([T.Expression(e)][1..]) == Some([]);
  }

  /** A string that is exactly one reference, however spaced, becomes the referenced JSON value
      itself, of whatever type, and nothing in it is looked at again. */
  lemma WholeReferenceYieldsValue(e: string, outputs: Outputs)
    requires T.ReferenceOf(e).Some?
    ensures ResolveValue(Text("{{" + e + "}}"), outputs) == Lookup(T.ReferenceOf(e).value, outputs)
  {
    hide T.ReferenceOf, T.Parse;
    WholeExpression(e);
  }

  // ---------- One pass ----------

  /** The text of a mixture is put together segment by segment: what stands left and right of a
      seam is rendered on its own, so that substituted text never joins its surroundings into a
      new template. */
  lemma {:induction false} InterpolateConcat(a: seq<T.Segment>, b: seq<T.Segment>, outputs: Outputs)
    ensures Interpolate(a + b, outputs)
         == if Interpolate(a, outputs).Some? && Interpolate(b, outputs).Some?
            then Some(Interpolate(a, outputs).value + Interpolate(b, outputs).value) else None
  {
    hide RenderSegment;
    if a == [] {
      assert a + b == b;
      if Interpolate(b, outputs).Some? {
        assert "" + Interpolate(b, outputs).value == Interpolate(b, outputs).value;
      }
    } else {
      assert (a + b)[0] == a[0] && (a + b)[1..] == a[1..] + b;
      InterpolateConcat(a[1..], b, outputs);
      if RenderSegment(a[0], outputs).Some? && Interpolate(a[1..], outputs).Some? && Interpolate(b, outputs).Some? {
        var x, y, z := RenderSegment(a[0], outputs).value, Interpolate(a[1..], outputs).value, Interpolate(b, outputs).value;
        assert x + (y + z) == x + y + z;
      }
    }
  }

  /** Text around one reference, whatever string it yields: that string stands there verbatim. */
  lemma SubstitutedVerbatim(before: string, r: T.Reference, after: string, text: string, outputs: Outputs)
    requires R.Canonical([T.Literal(before), T.Output(r), T.Literal(after)])
    requires Lookup(r, outputs) == Some(Text(text))
    ensures ResolveValue(Text(before + "{{" + R.Dotted(R.Names(r)) + "}}" + after), outputs) == Some(Text(before + text + after))
  {
    hide T.Parse, R.Canonical, Lookup;
    var segments := [T.Literal(before), T.Output(r), T.Literal(after)];
    R.PrintThenParse(segments, 1);
    assert segments == [T.Literal(before)] + [T.Output(r)] + [T.Literal(after)];
    InterpolateConcat([T.Literal(before)] + [T.Output(r)], [T.Literal(after)], outputs);
    InterpolateConcat([T.Literal(before)], [T.Output(r)], outputs);
    InterpolateOne(T.Literal(before), outputs);
    InterpolateOne(T.Output(r), outputs);
    InterpolateOne(T.Literal(after), outputs);
    PrintThree(before, r, after);
  }

  lemma InterpolateOne(s: T.Segment, outputs: Outputs)
    ensures Interpolate([s], outputs) == RenderSegment(s, outputs)
  {
    hide RenderSegment;
    assert Interpolate([s][1..], outputs) == Some("");
    if RenderSegment(s, outputs).Some? {
      assert RenderSegment(s, outputs).value + "" == RenderSegment(s, outputs).value;
    }
  }

  lemma PrintThree(before: string, r: T.Reference, after: string)
    ensures R.PrintAll([T.Literal(before), T.Output(r), T.Literal(after)])
         == before + "{{" + R.Dotted(R.Names(r)) + "}}" + after
  {
    hide R.Dotted, R.PrintAll;
    var d := R.Dotted(R.Names(r));
    var segments := [T.Literal(before), T.Output(r), T.Literal(after)];
    R.PrintTwo(segments);
    assert segments[2..] == [T.Literal(after)];
    R.PrintHead(segments[2..]);
    assert segments[2..][1..] == [];
    R.PrintNone();
    assert after + "" == after;
    R.Regroup(before, "{{", d, "}}", after);
    assert before + "{{" + (d + "}}" + after) == before + "{{" + d + "}}" + after;
  }

  // A string with delimiters is malformed or names an output, and there is none.
  lemma NothingToResolveFrom(s: string)
    requires T.HasDelimiter(s)
    ensures !Resolvable(s, map[])
  {
    hide T.HasDelimiter, T.Scan, T.SegmentsOf, R.Canonical, T.Balanced;
    if T.Parse(s).Some? {
      R.ParsedIsCanonical(s);
      var segments := T.SegmentsOf(T.Scan(s)).value;
      var i :| 0 <= i < |segments| && segments[i].Output?;
      assert segments[i] in segments;
      var r := segments[i].reference;
      assert r in SegmentReferences(segments);
      assert r in References(T.Parse(s).value);
      assert Lookup(r, map[]).None?;
    }
  }

  /** Resolving a value again is harmless, whatever outputs there are then, exactly when the value
      holds no delimiter; and the pass without any outputs tells. */
  lemma SecondPassIsHarmlessIff(u: Json)
    ensures (forall outputs :: ResolveValue(u, outputs) == Some(u)) <==> TemplateFree(u)
    ensures ResolveValue(u, map[]) == Some(u) <==> TemplateFree(u)
  {
    hide T.HasDelimiter, ResolveValue, Resolvable;
    if TemplateFree(u) {
      forall outputs ensures ResolveValue(u, outputs) == Some(u) {
        TemplateFreeIsUnchanged(u, outputs);
      }
    } else {
      var s :| Inside(u, s) && T.HasDelimiter(s);
      NothingToResolveFrom(s);
      ResolutionSucceeds(u, map[]);
    }
  }

  /** The first pass may leave such a value: an output that is itself a template is handed over as
      it stands, and resolving it once more would give something else. */
  lemma OutputsAreNotTemplates(outputs: Outputs)
    requires outputs == map["a" := Object(map["x" := Text("{{" + "b.y" + "}}")]), "b" := Object(map["y" := Text("z")])]
    ensures ResolveValue(Text("{{" + "a.x" + "}}"), outputs) == Some(Text("{{" + "b.y" + "}}"))
    ensures ResolveValue(Text("{{" + "b.y" + "}}"), outputs) == Some(Text("z"))
  {
    hide T.Parse, T.ReferenceOf, ResolveValue, Lookup;
    ShortReference("a", "x");
    ShortReference("b", "y");
    assert "a" + "." + "x" == "a.x" && "b" + "." + "y" == "b.y";
    WholeReferenceYieldsValue("a.x", outputs);
    WholeReferenceYieldsValue("b.y", outputs);
    FieldLookup("a", "x", outputs);
    FieldLookup("b", "y", outputs);
  }

  lemma FieldLookup(node: string, key: string, outputs: Outputs)
    requires node in outputs && outputs[node].Object? && key in outputs[node].fields
    ensures Lookup(T.Reference(node, [key]), outputs) == Some(outputs[node].fields[key])
  {
    var r, w := T.Reference(node, [key]), outputs[node].fields[key];
    assert r.path[1..] == [];
    assert Descend(w, r.path[1..]) == Some(w);
    assert Child(outputs[node], r.path[0]) == Some(w);
  }

  lemma ShortReference(node: string, key: string)
    requires T.Name(node) && T.Name(key)
    ensures T.ReferenceOf(node + "." + key) == Some(T.Reference(node, [key]))
  {
    var r := T.Reference(node, [key]);
    R.ReferenceRoundTrip(r);
    assert R.Names(r) == [node, key] && [node, key][1..] == [key];
    assert R.Dotted(R.Names(r)) == node + "." + key;
  }
}
