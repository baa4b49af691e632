/** Parsing loses nothing, and printing what was parsed and parsing it again gives the same. */
module TemplateRoundTrip {
  import opened Wrappers
  import opened TemplateSyntax
  import opened TemplateParser

  // ---------- Lossless cutting ----------

  function Source(p: Piece): string {
    match p case Text(s) => s case Expression(e) => "{{" + e + "}}"
  }

  function SourceOf(pieces: seq<Piece>): string {
    if pieces == [] then "" else Source(pieces[0]) + SourceOf(pieces[1..])
  }

  lemma {:induction false} SourceConcat(a: seq<Piece>, b: seq<Piece>)
    ensures SourceOf(a + b) == SourceOf(a) + SourceOf(b)
  {
    if a == [] {
      assert a + b == b;
    } else {
      assert (a + b)[0] == a[0] && (a + b)[1..] == a[1..] + b;
      SourceConcat(a[1..], b);
    }
  }

  lemma SourceOfOne(p: Piece)
    ensures SourceOf([p]) == Source(p)
  {
    assert SourceOf([p][1..]) == "";
    assert Source(p) + "" == Source(p);
  }

  /** The pieces tile the string: put together again they are the string. */
  lemma {:induction false} ScanTiles(v: string)
    ensures SourceOf(Scan(v)) == v
    decreases |v|
  {
    hide Find, Scan, SourceOf;
    var open := Find(v, '{', 0);
    SourceOfText(v);
    if open == |v| || Find(v, '}', open + 2) == |v| {
      ScanIsText(v);
    } else {
      var close := Find(v, '}', open + 2);
      ScanUnfolds(v, open, close);
      ScanTiles(v[close + 2..]);
      SourceOfText(v[..open]);
      SourceOfOne(Expression(v[open + 2..close]));
      SourceConcat(TextPiece(v[..open]), [Expression(v[open + 2..close])]);
      SourceConcat(TextPiece(v[..open]) + [Expression(v[open + 2..close])], Scan(v[close + 2..]));
      assert v == v[..open] + ("{{" + v[open + 2..close] + "}}") + v[close + 2..];
    }
  }

  lemma SourceOfText(s: string)
    ensures SourceOf(TextPiece(s)) == s
  {
    if s != [] {
      SourceOfOne(Text(s));
    }
  }

  // ---------- Shape of what is scanned ----------

  ghost predicate PiecesJoin(a: Piece, b: Piece) {
    a.Text? && a.text != [] ==> b.Expression? && a.text[|a.text| - 1] != '{'
  }

  /** Texts are not empty, do not follow each other, and do not end in a brace that would join the
      delimiter behind them. */
  ghost predicate Alternates(pieces: seq<Piece>) {
    && (forall i :: 0 <= i < |pieces| && pieces[i].Text? ==> pieces[i].text != [])
    && (forall i, j :: 0 <= i < |pieces| && 0 <= j < |pieces| && j == i + 1 ==> PiecesJoin(pieces[i], pieces[j]))
  }

  lemma AlternatesHead(text: string, e: string, rest: seq<Piece>)
    requires Alternates(rest) && (text == [] || text[|text| - 1] != '{')
    ensures Alternates(TextPiece(text) + [Expression(e)] + rest)
  {
  }

  lemma {:induction false} ScanAlternates(v: string)
    ensures Alternates(Scan(v))
    decreases |v|
  {
    hide Find, Scan, Alternates;
    var open := Find(v, '{', 0);
    if open == |v| || Find(v, '}', open + 2) == |v| {
      ScanIsText(v);
      AlternatesText(v);
    } else {
      var close := Find(v, '}', open + 2);
      ScanUnfolds(v, open, close);
      ScanAlternates(v[close + 2..]);
      if open > 0 {
        assert !DelimiterAt(v, '{', open - 1);
      }
      AlternatesHead(v[..open], v[open + 2..close], Scan(v[close + 2..]));
    }
  }

  lemma AlternatesText(s: string)
    ensures Alternates(TextPiece(s))
  {
  }

  // ---------- Printing ----------

  function Dotted(names: seq<string>): string
    requires names != []
  {
    if |names| == 1 then names[0] else names[0] + "." + Dotted(names[1..])
  }

  function Names(r: Reference): seq<string> { [r.node] + r.path }

  function PrintSegment(s: Segment): string {
    match s case Literal(text) => text case Output(r) => "{{" + Dotted(Names(r)) + "}}"
  }

  function PrintAll(segments: seq<Segment>): string {
    if segments == [] then "" else PrintSegment(segments[0]) + PrintAll(segments[1..])
  }

  function Print(p: Parsed): string {
    match p
    case Plain(text) => text
    case Whole(r) => PrintSegment(Output(r))
    case Mixed(segments) => PrintAll(segments)
  }

  // ---------- References are read back ----------

  ghost predicate Dotless(s: string) { forall i :: 0 <= i < |s| ==> s[i] != '.' }

  lemma {:induction false} SplitDotless(s: string)
    requires Dotless(s)
    ensures Split(s) == [s]
  {
    if s != [] {
      SplitDotless(s[1..]);
      assert [s[0]] + s[1..] == s;
    }
  }

  lemma {:induction false} SplitAtDot(s: string, t: string)
    requires Dotless(s)
    ensures Split(s + "." + t) == [s] + Split(t)
  {
    var v := s + "." + t;
    if s == [] {
      assert v[1..] == t && v[0] == '.';
    } else {
      SplitAtDot(s[1..], t);
      assert v[1..] == s[1..] + "." + t && v[0] == s[0];
      assert [s[0]] + s[1..] == s;
    }
  }

  lemma {:induction false} SplitDotted(names: seq<string>)
    requires names != [] && forall i :: 0 <= i < |names| ==> Dotless(names[i])
    ensures Split(Dotted(names)) == names
    decreases |names|
  {
    if |names| == 1 {
      SplitDotless(names[0]);
    } else {
      SplitDotted(names[1..]);
      SplitAtDot(names[0], Dotted(names[1..]));
    }
  }

  predicate Printable(s: string) { s != [] && forall i :: 0 <= i < |s| ==> IsNameChar(s[i]) }

  lemma StripKeeps(s: string)
    requires Printable(s)
    ensures Strip(s) == s && Dotless(s)
  {
  }

  lemma StripAllKeeps(names: seq<string>)
    requires forall i :: 0 <= i < |names| ==> Printable(names[i])
    ensures StripAll(names) == names
  {
    forall i | 0 <= i < |names| ensures Strip(names[i]) == names[i] {
      StripKeeps(names[i]);
    }
  }

  lemma NamesPrintable(r: Reference)
    requires ValidReference(r)
    ensures forall i :: 0 <= i < |Names(r)| ==> Printable(Names(r)[i])
  {
    forall i | 0 <= i < |r.path| ensures Printable(r.path[i]) {
      assert PathPart(r.path[i]);
    }
  }

  /** A printed reference denotes itself. */
  lemma ReferenceRoundTrip(r: Reference)
    requires ValidReference(r)
    ensures ReferenceOf(Dotted(Names(r))) == Some(r)
  {
    var names := Names(r);
    NamesPrintable(r);
    forall i | 0 <= i < |names| ensures Dotless(names[i]) {
      StripKeeps(names[i]);
    }
    SplitDotted(names);
    StripAllKeeps(names);
    assert names[1..] == r.path;
  }

  lemma ParsedReferenceIsValid(e: string)
    requires ReferenceOf(e).Some?
    ensures ValidReference(ReferenceOf(e).value)
  {
  }

  // ---------- Printed segments are scanned back ----------

  ghost predicate Braceless(s: string) { forall i :: 0 <= i < |s| ==> s[i] != '{' && s[i] != '}' }

  lemma {:induction false} DottedBraceless(names: seq<string>)
    requires names != [] && forall i :: 0 <= i < |names| ==> Printable(names[i])
    ensures Braceless(Dotted(names))
    decreases |names|
  {
    if |names| > 1 {
      DottedBraceless(names[1..]);
    }
    assert Printable(names[0]);
  }

  lemma FindsAt(v: string, c: char, from: nat, at: nat)
    requires from <= at && DelimiterAt(v, c, at)
    requires forall k :: from <= k < at ==> !DelimiterAt(v, c, k)
    ensures Find(v, c, from) == at
  {
  }

  lemma FindsOpen(s: string, rest: string)
    requires !HasDelimiter(s) && (s == [] || s[|s| - 1] != '{')
    ensures Find(s + "{{" + rest, '{', 0) == |s|
  {
    var v := s + "{{" + rest;
    forall k | 0 <= k < |s| ensures !DelimiterAt(v, '{', k) {
      assert !DelimiterAt(s, '{', k);
    }
    FindsAt(v, '{', 0, |s|);
  }

  lemma FindsClose(s: string, d: string, tail: string)
    requires Braceless(d)
    ensures Find(s + "{{" + (d + "}}" + tail), '}', |s| + 2) == |s| + 2 + |d|
  {
    hide Find;
    var rest := d + "}}" + tail;
    assert forall k :: 0 <= k < |d| ==> rest[k] == d[k];
    FindsBehind(s + "{{", rest, '}', |d|);
  }

  lemma FindsBehind(a: string, rest: string, c: char, n: nat)
    requires n + 1 < |rest| && rest[n] == c && rest[n + 1] == c && forall k :: 0 <= k < n ==> rest[k] != c
    ensures Find(a + rest, c, |a|) == |a| + n
  {
    hide Find;
    var v := a + rest;
    assert v[|a| + n] == c && v[|a| + n + 1] == c;
    forall k | |a| <= k < |a| + n ensures !DelimiterAt(v, c, k) {
      assert v[k] == rest[k - |a|];
    }
    FindsAt(v, c, |a|, |a| + n);
  }

  lemma ScanOne(s: string, d: string, tail: string)
    requires !HasDelimiter(s) && (s == [] || s[|s| - 1] != '{') && Braceless(d)
    ensures Scan(s + "{{" + (d + "}}" + tail)) == TextPiece(s) + [Expression(d)] + Scan(tail)
  {
    hide Scan, Find, HasDelimiter, Braceless;
    var v := s + "{{" + (d + "}}" + tail);
    FindsOpen(s, d + "}}" + tail);
    FindsClose(s, d, tail);
    ScanUnfolds(v, |s|, |s| + 2 + |d|);
    assert v[..|s|] == s && v[|s| + 2..|s| + 2 + |d|] == d && v[|s| + 2 + |d| + 2..] == tail;
  }

  function PieceOf(s: Segment): Piece {
    match s case Literal(text) => Text(text) case Output(r) => Expression(Dotted(Names(r)))
  }

  function PiecesOf(segments: seq<Segment>): seq<Piece> {
    if segments == [] then [] else [PieceOf(segments[0])] + PiecesOf(segments[1..])
  }

  ghost predicate SegmentOk(s: Segment) {
    match s
    case Literal(text) => text != [] && !HasDelimiter(text)
    case Output(r) => ValidReference(r)
  }

  // What may follow a segment.
  ghost predicate Joins(a: Segment, b: Segment) {
    a.Literal? && a.text != [] ==> b.Output? && a.text[|a.text| - 1] != '{'
  }

  /** The segment lists that parsing produces. */
  ghost predicate Canonical(segments: seq<Segment>) {
    && (forall i :: 0 <= i < |segments| ==> SegmentOk(segments[i]))
    && (forall i, j :: 0 <= i < |segments| && 0 <= j < |segments| && j == i + 1 ==> Joins(segments[i], segments[j]))
  }

  lemma CanonicalTail(segments: seq<Segment>, k: nat)
    requires Canonical(segments) && k <= |segments|
    ensures Canonical(segments[k..])
  {
  }

  lemma ScanPlain(s: string)
    requires !HasDelimiter(s)
    ensures Scan(s) == TextPiece(s)
  {
    hide Scan, Find;
    assert !DelimiterAt(s, '{', Find(s, '{', 0));
    ScanIsText(s);
  }

  lemma OutputIsBraceless(r: Reference)
    requires ValidReference(r)
    ensures Braceless(Dotted(Names(r)))
  {
    NamesPrintable(r);
    DottedBraceless(Names(r));
  }

  lemma {:induction false} PrintScans(segments: seq<Segment>)
    requires Canonical(segments)
    ensures Scan(PrintAll(segments)) == PiecesOf(segments)
    decreases |segments|
  {
    hide Scan, HasDelimiter, Braceless, ValidReference, Dotted, PrintAll, PiecesOf;
    PrintNone();
    if segments == [] {
      ScanEmpty();
    } else {
      CanonicalTail(segments, 1);
      PrintHead(segments);
      assert SegmentOk(segments[0]);
      match segments[0]
      case Output(r) =>
        var d, tail := Dotted(Names(r)), PrintAll(segments[1..]);
        OutputIsBraceless(r);
        EmptyIsClean();
        ScanOne([], d, tail);
        PrintScans(segments[1..]);
        assert PrintAll(segments) == [] + "{{" + (d + "}}" + tail);
      case Literal(text) =>
        if |segments| == 1 {
          assert segments[1..] == [] && [Text(text)] + [] == [Text(text)];
          ScanPlain(text);
          assert text + "" == text;
        } else {
          LiteralThenOutput(segments);
        }
    }
  }

  lemma PrintNone()
    ensures PrintAll([]) == "" && PiecesOf([]) == []
  {
  }

  lemma EmptyIsClean()
    ensures !HasDelimiter([])
  {
  }

  lemma ScanEmpty()
    ensures Scan([]) == []
  {
  }

  lemma PrintHead(segments: seq<Segment>)
    requires segments != []
    ensures PrintAll(segments) == PrintSegment(segments[0]) + PrintAll(segments[1..])
    ensures PiecesOf(segments) == [PieceOf(segments[0])] + PiecesOf(segments[1..])
  {
  }

  lemma Regroup(a: string, b: string, c: string, d: string, e: string)
    ensures a + (b + c + d + e) == a + b + (c + d + e)
  {
  }

  lemma PrintTwo(segments: seq<Segment>)
    requires |segments| >= 2 && segments[0].Literal? && segments[1].Output?
    ensures PrintAll(segments) ==
            segments[0].text + "{{" + (Dotted(Names(segments[1].reference)) + "}}" + PrintAll(segments[2..]))
    ensures PiecesOf(segments) ==
            [Text(segments[0].text)] + [Expression(Dotted(Names(segments[1].reference)))] + PiecesOf(segments[2..])
  {
    hide Dotted, PrintAll, PiecesOf;
    assert segments[1..][1..] == segments[2..];
    Regroup(segments[0].text, "{{", Dotted(Names(segments[1].reference)), "}}", PrintAll(segments[2..]));
    PrintHead(segments);
    PrintHead(segments[1..]);
  }

  lemma CanonicalPair(segments: seq<Segment>)
    requires Canonical(segments) && |segments| >= 2 && segments[0].Literal?
    ensures SegmentOk(segments[0]) && SegmentOk(segments[1])
    ensures segments[0].text != [] && segments[1].Output? && segments[0].text[|segments[0].text| - 1] != '{'
  {
    hide HasDelimiter, ValidReference;
    assert SegmentOk(segments[0]) && SegmentOk(segments[1]) && Joins(segments[0], segments[1]);
  }

  lemma {:induction false} LiteralThenOutput(segments: seq<Segment>)
    requires Canonical(segments) && |segments| >= 2 && segments[0].Literal?
    ensures Scan(PrintAll(segments)) == PiecesOf(segments)
    decreases |segments|, 0
  {
    hide Scan, HasDelimiter, Braceless, ValidReference, Dotted, Canonical, PrintAll, PiecesOf;
    CanonicalPair(segments);
    CanonicalTail(segments, 2);
    var r := segments[1].reference;
    OutputIsBraceless(r);
    ScanOne(segments[0].text, Dotted(Names(r)), PrintAll(segments[2..]));
    PrintScans(segments[2..]);
    PrintTwo(segments);
  }

  lemma {:induction false} PiecesAt(segments: seq<Segment>, i: nat)
    requires i < |segments|
    ensures |PiecesOf(segments)| == |segments| && PiecesOf(segments)[i] == PieceOf(segments[i])
    decreases |segments|
  {
    if i > 0 {
      PiecesAt(segments[1..], i - 1);
    } else if |segments| > 1 {
      PiecesAt(segments[1..], 0);
    }
  }

  lemma {:induction false} SegmentsOfPieces(segments: seq<Segment>)
    requires forall i :: 0 <= i < |segments| ==> SegmentOk(segments[i])
    ensures SegmentsOf(PiecesOf(segments)) == Some(segments)
    decreases |segments|
  {
    hide SegmentOk, SegmentsOf, SegmentOf, PieceOf, PiecesOf;
    if segments == [] {
      PrintNone();
      EmptySegments();
    } else {
      PieceDenotes(segments[0]);
      SegmentsOfPieces(segments[1..]);
      PrintHead(segments);
      SegmentsUnfold(PieceOf(segments[0]), PiecesOf(segments[1..]));
      assert [segments[0]] + segments[1..] == segments;
    }
  }

  lemma PieceDenotes(s: Segment)
    requires SegmentOk(s)
    ensures SegmentOf(PieceOf(s)) == Some(s)
  {
    hide ReferenceOf, ValidReference, HasDelimiter, Dotted;
    if s.Output? {
      ReferenceRoundTrip(s.reference);
    }
  }

  lemma PrintedIsBalanced(segments: seq<Segment>)
    requires Canonical(segments)
    ensures Balanced(PiecesOf(segments))
  {
    hide HasDelimiter, ValidReference, Dotted;
    forall i | 0 <= i < |PiecesOf(segments)| && PiecesOf(segments)[i].Text? ensures !HasDelimiter(PiecesOf(segments)[i].text) {
      if segments != [] {
        PiecesAt(segments, 0);
        PiecesAt(segments, i);
        assert SegmentOk(segments[i]);
      }
    }
  }

  lemma {:induction false} PrintedHasDelimiter(segments: seq<Segment>, i: nat)
    requires i < |segments| && segments[i].Output?
    ensures HasDelimiter(PrintAll(segments))
    decreases |segments|
  {
    var v, tail := PrintAll(segments), PrintAll(segments[1..]);
    if i == 0 {
      assert DelimiterAt(v, '{', 0);
    } else {
      PrintedHasDelimiter(segments[1..], i - 1);
      var k :| 0 <= k < |tail| && (DelimiterAt(tail, '{', k) || DelimiterAt(tail, '}', k));
      var at := |PrintSegment(segments[0])| + k;
      assert v[at] == tail[k] && v[at + 1] == tail[k + 1];
      assert DelimiterAt(v, '{', at) || DelimiterAt(v, '}', at);
    }
  }

  /** Printing a canonical segment list and parsing it gives it back. */
  lemma PrintThenParse(segments: seq<Segment>, i: nat)
    requires Canonical(segments) && i < |segments| && segments[i].Output?
    ensures Parse(PrintAll(segments)) ==
            Some(if |segments| == 1 then Whole(segments[0].reference) else Mixed(segments))
  {
    hide Scan, HasDelimiter, SegmentsOf, Balanced;
    PrintScans(segments);
    SegmentsOfPieces(segments);
    PrintedIsBalanced(segments);
    PrintedHasDelimiter(segments, i);
  }

  // ---------- What parsing accepts ----------

  lemma PartsAreOk(pieces: seq<Piece>)
    requires Balanced(pieces) && Alternates(pieces) && SegmentsOf(pieces).Some?
    ensures forall i :: 0 <= i < |pieces| ==> SegmentOk(SegmentsOf(pieces).value[i])
  {
    hide HasDelimiter, ReferenceOf, ValidReference, SegmentsOf;
    var segments := SegmentsOf(pieces).value;
    forall i | 0 <= i < |pieces| ensures SegmentOk(segments[i]) {
      assert SegmentOf(pieces[i]) == Some(segments[i]);
      if pieces[i].Expression? {
        ParsedReferenceIsValid(pieces[i].text);
      }
    }
  }

  lemma PartsAreCanonical(pieces: seq<Piece>)
    requires Balanced(pieces) && Alternates(pieces) && SegmentsOf(pieces).Some?
    ensures Canonical(SegmentsOf(pieces).value)
  {
    hide HasDelimiter, ReferenceOf, SegmentOk, SegmentsOf, Balanced;
    PartsAreOk(pieces);
    var segments := SegmentsOf(pieces).value;
    assert forall i :: 0 <= i < |segments| ==> SegmentOk(segments[i]);
    forall i, j | 0 <= i < |segments| && 0 <= j < |segments| && j == i + 1 ensures Joins(segments[i], segments[j]) {
      assert SegmentOf(pieces[i]) == Some(segments[i]) && SegmentOf(pieces[j]) == Some(segments[j]);
      assert PiecesJoin(pieces[i], pieces[j]);
    }
  }

  /** On every accepted string that holds templates, the segments are canonical. */
  lemma ParsedIsCanonical(v: string)
    requires HasDelimiter(v) && Parse(v).Some?
    ensures SegmentsOf(Scan(v)).Some? && Canonical(SegmentsOf(Scan(v)).value)
    ensures exists i :: 0 <= i < |SegmentsOf(Scan(v)).value| && SegmentsOf(Scan(v)).value[i].Output?
  {
    hide Scan, HasDelimiter, ReferenceOf, SegmentsOf, Balanced, Canonical, Alternates;
    ScanAlternates(v);
    PartsAreCanonical(Scan(v));
    var i := SomeExpression(v);
    assert SegmentOf(Scan(v)[i]) == Some(SegmentsOf(Scan(v)).value[i]);
  }

  lemma SomeExpression(v: string) returns (i: nat)
    requires HasDelimiter(v) && Balanced(Scan(v))
    ensures i < |Scan(v)| && Scan(v)[i].Expression?
  {
    hide HasDelimiter, Find, Scan, Balanced;
    var open := Find(v, '{', 0);
    if Balanced(TextPiece(v)) {
      BalancedText(v);
    }
    if open == |v| || Find(v, '}', open + 2) == |v| {
      ScanIsText(v);
      assert false;
    } else {
      var close := Find(v, '}', open + 2);
      ScanUnfolds(v, open, close);
      i := |TextPiece(v[..open])|;
    }
  }

  lemma BalancedText(s: string)
    requires Balanced(TextPiece(s))
    ensures !HasDelimiter(s)
  {
    if s != [] {
      assert TextPiece(s)[0] == Text(s);
    }
  }

  /** Parsing, printing and parsing again gives the same result, for every accepted string. */
  lemma ParseRoundTrip(v: string)
    requires Parse(v).Some?
    ensures Parse(Print(Parse(v).value)) == Parse(v)
  {
    if HasDelimiter(v) {
      ParsedIsCanonical(v);
      hide Scan, HasDelimiter, ReferenceOf, Canonical, SegmentsOf, Balanced;
      var segments := SegmentsOf(Scan(v)).value;
      var i :| 0 <= i < |segments| && segments[i].Output?;
      PrintThenParse(segments, i);
      if |segments| == 1 {
        assert PrintAll(segments) == PrintSegment(segments[0]) + PrintAll(segments[1..]);
        assert PrintAll(segments[1..]) == "";
        assert PrintSegment(segments[0]) + "" == PrintSegment(segments[0]);
      }
    }
  }
}
