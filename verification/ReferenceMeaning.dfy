/** What references, numbers and rendered values mean, said without the functions that compute them. */
module ReferenceMeaning {
  import opened Wrappers
  import opened JsonValues
  import opened InputResolver
  import T = TemplateSyntax

  // ---------- Decimal numbers ----------

  function PowerOfTen(n: nat): nat { if n == 0 then 1 else 10 * PowerOfTen(n - 1) }

  const DIGITS := "0123456789"

  /** The character is the digit with this value. */
  predicate IsDigitOf(c: char, d: nat) { d < 10 && DIGITS[d] == c }

  /** The string is the decimal notation of the number, perhaps with leading zeros: the sum of its
      digits, each times a power of ten. */
  ghost predicate Denotes(s: string, n: nat) {
    if s == [] then n == 0
    else exists d: nat, rest: nat :: IsDigitOf(s[0], d) && Denotes(s[1..], rest) && n == d * PowerOfTen(|s| - 1) + rest
  }

  lemma DigitOf(c: char)
    requires T.IsDigit(c)
    ensures IsDigitOf(c, c as int - '0' as int)
  {
    var d := c as int - '0' as int;
    assert DIGITS[0] == '0' && DIGITS[1] == '1' && DIGITS[2] == '2' && DIGITS[3] == '3' && DIGITS[4] == '4';
    assert DIGITS[5] == '5' && DIGITS[6] == '6' && DIGITS[7] == '7' && DIGITS[8] == '8' && DIGITS[9] == '9';
  }

  lemma DigitOnly(c: char, d: nat)
    requires IsDigitOf(c, d)
    ensures T.IsDigit(c) && d == c as int - '0' as int
  {
  }

  /** A string denotes a number exactly when it consists of digits, and then exactly one. */
  lemma {:induction false} DenotesOne(s: string, n: nat, m: nat)
    requires Denotes(s, n) && Denotes(s, m)
    ensures n == m && forall i :: 0 <= i < |s| ==> T.IsDigit(s[i])
  {
    if s != [] {
      var d: nat, rest: nat :| IsDigitOf(s[0], d) && Denotes(s[1..], rest) && n == d * PowerOfTen(|s| - 1) + rest;
      var d': nat, rest': nat :| IsDigitOf(s[0], d') && Denotes(s[1..], rest') && m == d' * PowerOfTen(|s| - 1) + rest';
      DigitOnly(s[0], d);
      DigitOnly(s[0], d');
      DenotesOne(s[1..], rest, rest');
      forall i | 0 <= i < |s| ensures T.IsDigit(s[i]) {
        if i > 0 {
          assert s[i] == s[1..][i - 1];
        }
      }
    }
  }

  lemma Shifted(d: nat, n: nat)
    ensures d * PowerOfTen(n + 1) == 10 * (d * PowerOfTen(n))
  {
  }

  lemma {:induction false} DenotesAppend(s: string, n: nat, c: char, d: nat)
    requires Denotes(s, n) && IsDigitOf(c, d)
    ensures Denotes(s + [c], 10 * n + d)
  {
    var v := s + [c];
    if s == [] {
      assert v[1..] == [] && Denotes([], 0) && PowerOfTen(0) == 1;
      assert IsDigitOf(v[0], d) && Denotes(v[1..], 0);
    } else {
      var e: nat, rest: nat :| IsDigitOf(s[0], e) && Denotes(s[1..], rest) && n == e * PowerOfTen(|s| - 1) + rest;
      DenotesAppend(s[1..], rest, c, d);
      assert v[1..] == s[1..] + [c] && v[0] == s[0];
      Shifted(e, |s| - 1);
      assert IsDigitOf(v[0], e) && Denotes(v[1..], 10 * rest + d);
    }
  }

  lemma {:induction false} DigitsValueDenotes(s: string)
    requires forall i :: 0 <= i < |s| ==> T.IsDigit(s[i])
    ensures Denotes(s, DigitsValue(s))
  {
    if s != [] {
      var k := |s| - 1;
      DigitsValueDenotes(s[..k]);
      assert T.IsDigit(s[k]);
      DigitOf(s[k]);
      DenotesAppend(s[..k], DigitsValue(s[..k]), s[k], s[k] as int - '0' as int);
      assert s[..k] + [s[k]] == s;
    }
  }

  /** The text of a number denotes it, and has no leading zero unless it is zero. */
  lemma {:induction false} NumberReadsBack(n: nat)
    ensures Denotes(NatText(n), n) && T.Digits(NatText(n)) && (n > 0 ==> NatText(n)[0] != '0')
  {
    if n < 10 {
      var c := ('0' as int + n) as char;
      DigitOf(c);
      assert Denotes([], 0);
      DenotesAppend([], 0, c, n);
      assert [] + [c] == [c] && NatText(n) == [c];
    } else {
      NumberReadsBack(n / 10);
      var c := ('0' as int + n % 10) as char;
      DigitOf(c);
      DenotesAppend(NatText(n / 10), n / 10, c, n % 10);
    }
  }

  /** How scalars appear inside text: the words of JSON, strings as they are, numbers in decimal
      notation with a sign in front when negative; structured values do not. */
  lemma RenderingMeans(v: Json)
    ensures Render(v).None? <==> v.List? || v.Object?
    ensures v.Null? ==> Render(v) == Some("null")
    ensures v.Bool? ==> Render(v) == Some(if v.flag then "true" else "false")
    ensures v.Text? ==> Render(v) == Some(v.text)
    ensures v.Number? && v.number >= 0 ==> Render(v).Some? && Denotes(Render(v).value, v.number) && T.Digits(Render(v).value)
    ensures v.Number? && v.number < 0 ==>
              Render(v).Some? && |Render(v).value| > 0 && Render(v).value[0] == '-' && Denotes(Render(v).value[1..], -v.number)
              && T.Digits(Render(v).value[1..])
  {
    if v.Number? {
      var n := if v.number < 0 then -v.number else v.number;
      NumberReadsBack(n);
      assert v.number < 0 ==> ("-" + NatText(n))[1..] == NatText(n);
    }
  }

  // ---------- Paths ----------

  /** One step down: the field of that name, or the item at the position the key denotes. */
  ghost predicate StepsTo(v: Json, key: string, w: Json) {
    || (v.Object? && key in v.fields && v.fields[key] == w)
    || (v.List? && key != [] && exists i :: 0 <= i < |v.items| && Denotes(key, i) && v.items[i] == w)
  }

  /** The value at the end of a path. */
  ghost predicate At(v: Json, path: seq<string>, w: Json)
    decreases |path|
  {
    if path == [] then v == w else exists next :: StepsTo(v, path[0], next) && At(next, path[1..], w)
  }

  lemma ChildMeans(v: Json, key: string, w: Json)
    ensures Child(v, key) == Some(w) <==> StepsTo(v, key, w)
  {
    if v.List? {
      if T.Digits(key) {
        DigitsValueDenotes(key);
        if i :| 0 <= i < |v.items| && Denotes(key, i) && v.items[i] == w {
          DenotesOne(key, i, DigitsValue(key));
        }
      } else if i :| 0 <= i < |v.items| && Denotes(key, i) && key != [] {
        DenotesOne(key, i, i);
      }
    }
  }

  lemma {:induction false} DescendMeans(v: Json, path: seq<string>, w: Json)
    ensures Descend(v, path) == Some(w) <==> At(v, path, w)
    decreases |path|
  {
    if path != [] {
      if Child(v, path[0]).Some? {
        var next := Child(v, path[0]).value;
        ChildMeans(v, path[0], next);
        DescendMeans(next, path[1..], w);
      }
      forall next | StepsTo(v, path[0], next) ensures Child(v, path[0]) == Some(next) {
        ChildMeans(v, path[0], next);
      }
    }
  }

  /** A reference yields a value exactly when the value stands at the end of its path inside the output
      of the named node. */
  lemma LookupMeans(r: T.Reference, outputs: Outputs, w: Json)
    ensures Lookup(r, outputs) == Some(w) <==> r.node in outputs && At(outputs[r.node], r.path, w)
  {
    if r.node in outputs {
      DescendMeans(outputs[r.node], r.path, w);
    }
  }

  lemma {:induction false} JoinPath(v: Json, first: seq<string>, u: Json, second: seq<string>, w: Json)
    requires At(v, first, u) && At(u, second, w)
    ensures At(v, first + second, w)
    decreases |first|
  {
    var path := first + second;
    if first == [] {
      assert path == second;
    } else {
      assert path[0] == first[0] && path[1..] == first[1..] + second;
      var next :| StepsTo(v, first[0], next) && At(next, first[1..], u);
      hide StepsTo;
      JoinPath(next, first[1..], u, second, w);
    }
  }

  lemma {:induction false} SplitPath(v: Json, first: seq<string>, second: seq<string>, w: Json) returns (u: Json)
    requires At(v, first + second, w)
    ensures At(v, first, u) && At(u, second, w)
    decreases |first|
  {
    var path := first + second;
    if first == [] {
      assert path == second;
      u := v;
    } else {
      assert path[0] == first[0] && path[1..] == first[1..] + second;
      var next :| StepsTo(v, path[0], next) && At(next, path[1..], w);
      hide StepsTo;
      u := SplitPath(next, first[1..], second, w);
    }
  }

  /** Following a path in two parts is following it in turn. */
  lemma PathInParts(v: Json, first: seq<string>, second: seq<string>, w: Json)
    ensures At(v, first + second, w) <==> exists u :: At(v, first, u) && At(u, second, w)
  {
    hide At;
    if At(v, first + second, w) {
      var u := SplitPath(v, first, second, w);
    }
    if u :| At(v, first, u) && At(u, second, w) {
      JoinPath(v, first, u, second, w);
    }
  }

  lemma OneStep(v: Json, key: string, w: Json)
    ensures At(v, [key], w) <==> StepsTo(v, key, w)
  {
    assert [key][1..] == [];
    if StepsTo(v, key, w) {
      assert At(w, [key][1..], w);
    }
  }

  /** Behind a path that leads to a list stand its items: a key yields item i exactly when it is a
      digit string that denotes i, and nothing else is found there. */
  lemma ListItems(r: T.Reference, outputs: Outputs, items: seq<Json>, key: string)
    requires Lookup(r, outputs) == Some(List(items))
    ensures forall i :: 0 <= i < |items| && T.Digits(key) && Denotes(key, i) ==>
              Lookup(T.Reference(r.node, r.path + [key]), outputs) == Some(items[i])
    ensures T.Digits(key) && (forall i :: 0 <= i < |items| ==> !Denotes(key, i)) ==>
              Lookup(T.Reference(r.node, r.path + [key]), outputs).None?
    ensures !T.Digits(key) ==> Lookup(T.Reference(r.node, r.path + [key]), outputs).None?
  {
    var v, r' := outputs[r.node], T.Reference(r.node, r.path + [key]);
    LookupMeans(r, outputs, List(items));
    forall i | 0 <= i < |items| && T.Digits(key) && Denotes(key, i) ensures Lookup(r', outputs) == Some(items[i]) {
      OneStep(List(items), key, items[i]);
      PathInParts(v, r.path, [key], items[i]);
      LookupMeans(r', outputs, items[i]);
    }
    if Lookup(r', outputs).Some? {
      var w := Lookup(r', outputs).value;
      LookupMeans(r', outputs, w);
      PathInParts(v, r.path, [key], w);
      var u :| At(v, r.path, u) && At(u, [key], w);
      LookupMeans(r, outputs, u);
      OneStep(u, key, w);
      var i :| 0 <= i < |items| && Denotes(key, i) && items[i] == w;
      DenotesOne(key, i, i);
    }
  }

  // ---------- Resolution ----------

  /** How a scalar appears inside text: the words of JSON, strings as they are, and numbers in decimal
      notation without leading zeros, with a sign in front when negative. */
  ghost predicate Shows(v: Json, text: string) {
    match v
    case Null => text == "null"
    case Bool(b) => text == (if b then "true" else "false")
    case Text(s) => text == s
    case Number(n) =>
      if n < 0 then |text| > 1 && text[0] == '-' && Denotes(text[1..], -n) && text[1] != '0'
      else text != [] && Denotes(text, n) && (n > 0 ==> text[0] != '0')
    case _ => false
  }

  lemma RenderShows(v: Json, text: string)
    requires Render(v) == Some(text)
    ensures Shows(v, text)
  {
    if v.Number? {
      var n := if v.number < 0 then -v.number else v.number;
      NumberReadsBack(n);
      assert v.number < 0 ==> ("-" + NatText(n))[1..] == NatText(n);
    }
  }

  function Joined(parts: seq<string>): string {
    if parts == [] then "" else parts[0] + Joined(parts[1..])
  }

  /** What stands for a segment: literal text as it is, and for a reference the notation of the scalar
      at the end of its path. */
  ghost predicate StandsFor(s: T.Segment, outputs: Outputs, part: string) {
    match s
    case Literal(text) => part == text
    case Output(r) => r.node in outputs && exists w :: At(outputs[r.node], r.path, w) && Shows(w, part)
  }

  ghost predicate Spells(segments: seq<T.Segment>, outputs: Outputs, parts: seq<string>) {
    |parts| == |segments| && forall i :: 0 <= i < |parts| ==> StandsFor(segments[i], outputs, parts[i])
  }

  /** What a string of the configuration stands for: itself, the value it refers to, or the text made
      of its parts in order. */
  ghost predicate TextStandsFor(s: string, outputs: Outputs, u: Json) {
    match T.Parse(s)
    case None => false
    case Some(Plain(_)) => u == Text(s)
    case Some(Whole(r)) => r.node in outputs && At(outputs[r.node], r.path, u)
    case Some(Mixed(segments)) => u.Text? && exists parts :: Spells(segments, outputs, parts) && u.text == Joined(parts)
  }

  /** What a value of the configuration stands for: lists item by item, objects field by field, strings
      as above, anything else itself. */
  ghost predicate ValueStandsFor(v: Json, outputs: Outputs, u: Json) {
    match v
    case Text(s) => TextStandsFor(s, outputs, u)
    case List(items) => u.List? && |u.items| == |items| && forall i :: 0 <= i < |items| ==> ValueStandsFor(items[i], outputs, u.items[i])
    case Object(fields) => u.Object? && u.fields.Keys == fields.Keys && forall k :: k in fields ==> ValueStandsFor(fields[k], outputs, u.fields[k])
    case _ => u == v
  }

  lemma SegmentMeans(s: T.Segment, outputs: Outputs, part: string)
    requires RenderSegment(s, outputs) == Some(part)
    ensures StandsFor(s, outputs, part)
  {
    if s.Output? {
      var w := Lookup(s.reference, outputs).value;
      LookupMeans(s.reference, outputs, w);
      RenderShows(w, part);
    }
  }

  lemma {:induction false} InterpolationMeans(segments: seq<T.Segment>, outputs: Outputs, text: string) returns (parts: seq<string>)
    requires Interpolate(segments, outputs) == Some(text)
    ensures Spells(segments, outputs, parts) && text == Joined(parts)
  {
    hide StandsFor, RenderSegment;
    if segments == [] {
      parts := [];
    } else {
      var first := RenderSegment(segments[0], outputs).value;
      SegmentMeans(segments[0], outputs, first);
      var rest := InterpolationMeans(segments[1..], outputs, Interpolate(segments[1..], outputs).value);
      parts := [first] + rest;
      assert parts[1..] == rest;
      forall i | 0 <= i < |parts| ensures StandsFor(segments[i], outputs, parts[i]) {
        if i > 0 {
          assert StandsFor(segments[1..][i - 1], outputs, rest[i - 1]);
        }
      }
    }
  }

  lemma TextMeans(s: string, outputs: Outputs, u: Json)
    requires ResolveText(s, outputs) == Some(u)
    ensures TextStandsFor(s, outputs, u)
  {
    PlainIsItself(s);
    hide T.Parse, Lookup, At, Spells, Joined;
    match T.Parse(s)
    case Some(Whole(r)) => LookupMeans(r, outputs, u);
    case Some(Mixed(segments)) =>
      var parts := InterpolationMeans(segments, outputs, u.text);
    case _ =>
  }

  lemma PlainIsItself(s: string)
    ensures T.Parse(s).Some? && T.Parse(s).value.Plain? ==> T.Parse(s).value.text == s
  {
    hide T.Scan, T.HasDelimiter, T.Balanced, T.SegmentsOf;
  }

  /** What resolution yields is what the value stands for. */
  lemma {:induction false} ResolutionMeans(v: Json, outputs: Outputs, u: Json)
    requires ResolveValue(v, outputs) == Some(u)
    ensures ValueStandsFor(v, outputs, u)
  {
    hide ResolveText, TextStandsFor;
    match v
    case Text(s) => TextMeans(s, outputs, u);
    case List(items) =>
      forall i | 0 <= i < |items| ensures ValueStandsFor(items[i], outputs, u.items[i]) {
        ResolutionMeans(items[i], outputs, u.items[i]);
      }
    case Object(fields) =>
      forall k | k in fields ensures ValueStandsFor(fields[k], outputs, u.fields[k]) {
        ResolutionMeans(fields[k], outputs, u.fields[k]);
      }
    case _ =>
  }
}
