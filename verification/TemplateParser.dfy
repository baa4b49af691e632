/** The parser as it works on a string: it finds matches, checks that no delimiter is left over
    by searching in steps of two, and collects segments with a cursor. */
module TemplateParser {
  import opened Wrappers
  import opened TemplateSyntax

  datatype Span = Span(start: nat, end: nat)

  /** The leftmost, shortest, non-overlapping matches of the delimiter pattern. */
  function Matches(v: string, from: nat): seq<Span>
    requires from <= |v|
    decreases |v| - from
  {
    var open := Find(v, '{', from);
    if open == |v| then []
    else
      var close := Find(v, '}', open + 2);
      if close == |v| then [] else [Span(open, close + 2)] + Matches(v, close + 2)
  }

  predicate Covered(spans: seq<Span>, p: int) {
    exists k :: 0 <= k < |spans| && spans[k].start <= p < spans[k].end
  }

  predicate Delimiter(v: string, p: int) {
    DelimiterAt(v, '{', p) || DelimiterAt(v, '}', p)
  }

  ghost predicate AllCovered(v: string, spans: seq<Span>, from: nat) {
    forall p :: from <= p && Delimiter(v, p) ==> Covered(spans, p)
  }

  // ---------- Shape of the matches ----------

  predicate IsMatch(v: string, s: Span) {
    && s.start + 4 <= s.end <= |v|
    && DelimiterAt(v, '{', s.start) && Find(v, '}', s.start + 2) == s.end - 2 && DelimiterAt(v, '}', s.end - 2)
  }

  lemma {:induction false} MatchShape(v: string, from: nat)
    requires from <= |v|
    ensures AllMatch(v, Matches(v, from))
    ensures forall k :: 0 <= k < |Matches(v, from)| ==> from <= Matches(v, from)[k].start
    decreases |v| - from
  {
    var open := Find(v, '{', from);
    if open < |v| {
      var close := Find(v, '}', open + 2);
      if close < |v| {
        MatchShape(v, close + 2);
      }
    }
  }

  // ---------- Matches cut the string into the scanned pieces ----------

  lemma {:induction false} FindShift(v: string, c: char, from: nat, k: nat)
    requires from + k <= |v|
    ensures Find(v[from..], c, k) == Find(v, c, from + k) - from
    decreases |v| - k
  {
    if from + k < |v| {
      assert DelimiterAt(v[from..], c, k) <==> DelimiterAt(v, c, from + k);
      if !DelimiterAt(v, c, from + k) {
        FindShift(v, c, from, k + 1);
      }
    }
  }

  predicate AllMatch(v: string, spans: seq<Span>) {
    forall k :: 0 <= k < |spans| ==> IsMatch(v, spans[k])
  }

  function Pieces(v: string, spans: seq<Span>, cursor: nat): seq<Piece>
    requires cursor <= |v| && AllMatch(v, spans)
    decreases |spans|
  {
    if spans == [] then TextPiece(v[cursor..])
    else
      var s := spans[0];
      assert IsMatch(v, s);
      (if cursor < s.start then [Text(v[cursor..s.start])] else [])
      + [Expression(v[s.start + 2..s.end - 2])] + Pieces(v, spans[1..], s.end)
  }

  lemma ScanUnfolds(w: string, open: nat, close: nat)
    requires open == Find(w, '{', 0) && open < |w| && close == Find(w, '}', open + 2) && close < |w|
    ensures Scan(w) == TextPiece(w[..open]) + [Expression(w[open + 2..close])] + Scan(w[close + 2..])
  {
  }

  lemma ScanIsText(w: string)
    requires var open := Find(w, '{', 0); open == |w| || Find(w, '}', open + 2) == |w|
    ensures Scan(w) == TextPiece(w)
  {
  }

  // The expression is cut out of the suffix where it stands in the whole string.
  lemma SuffixSlices(v: string, from: nat, open: nat, close: nat)
    requires from <= open && open + 2 <= close && close + 2 <= |v|
    ensures v[from..][..open - from] == v[from..open]
    ensures v[from..][open - from + 2..close - from] == v[open + 2..close]
    ensures v[from..][close - from + 2..] == v[close + 2..]
  {
  }

  /** Scanning a suffix, in positions of the whole string. */
  lemma ScanSuffix(v: string, from: nat)
    requires from <= |v|
    ensures var open := Find(v, '{', from);
            if open == |v| || Find(v, '}', open + 2) == |v| then Scan(v[from..]) == TextPiece(v[from..])
            else
              var close := Find(v, '}', open + 2);
              Scan(v[from..]) == TextPiece(v[from..open]) + [Expression(v[open + 2..close])] + Scan(v[close + 2..])
  {
    hide Scan, Find, TextPiece;
    var w := v[from..];
    var open := Find(v, '{', from);
    FindShift(v, '{', from, 0);
    if open == |v| {
      ScanIsText(w);
    } else {
      var close := Find(v, '}', open + 2);
      FindShift(v, '}', from, open + 2 - from);
      if close == |v| {
        ScanIsText(w);
      } else {
        ScanUnfolds(w, open - from, close - from);
        SuffixSlices(v, from, open, close);
      }
    }
  }

  lemma MatchesUnfold(v: string, from: nat)
    requires from <= |v|
    ensures var open := Find(v, '{', from);
            if open == |v| || Find(v, '}', open + 2) == |v| then Matches(v, from) == []
            else Matches(v, from) == [Span(open, Find(v, '}', open + 2) + 2)] + Matches(v, Find(v, '}', open + 2) + 2)
  {
  }

  lemma {:induction false} PiecesAreScan(v: string, from: nat)
    requires from <= |v| && AllMatch(v, Matches(v, from))
    ensures Pieces(v, Matches(v, from), from) == Scan(v[from..])
    decreases |v| - from
  {
    hide Scan, Find, IsMatch, Matches;
    ScanSuffix(v, from);
    MatchesUnfold(v, from);
    var open := Find(v, '{', from);
    if open < |v| && Find(v, '}', open + 2) < |v| {
      var close := Find(v, '}', open + 2);
      var rest := Matches(v, close + 2);
      assert Matches(v, from)[1..] == rest;
      assert forall k :: 0 <= k < |rest| ==> rest[k] == Matches(v, from)[k + 1];
      PiecesAreScan(v, close + 2);
    }
  }

  // ---------- Balance is coverage ----------

  lemma TextIsClean(v: string, from: nat, to: nat)
    requires from <= to <= |v| && (to == |v| || (to + 1 < |v| && v[to] == '{')) && Find(v, '{', from) == to
    ensures HasDelimiter(v[from..to]) <==> exists p :: from <= p < to && Delimiter(v, p)
  {
    var t := v[from..to];
    if i :| 0 <= i < |t| && (DelimiterAt(t, '{', i) || DelimiterAt(t, '}', i)) {
      assert Delimiter(v, from + i);
    }
    if p :| from <= p < to && Delimiter(v, p) {
      assert DelimiterAt(t, '}', p - from);
    }
  }

  lemma CoveredSplit(first: Span, rest: seq<Span>, p: int)
    ensures Covered([first] + rest, p) <==> first.start <= p < first.end || Covered(rest, p)
  {
    var all := [first] + rest;
    if first.start <= p < first.end {
      assert all[0] == first;
    }
    if k :| 0 <= k < |rest| && rest[k].start <= p < rest[k].end {
      assert all[k + 1] == rest[k];
    }
  }

  lemma NotCoveredBefore(v: string, from: nat, p: int)
    requires from <= |v| && p < from
    ensures !Covered(Matches(v, from), p)
  {
    MatchShape(v, from);
  }

  // With a match in front, coverage is a clean text before it and coverage after it.
  lemma CoverageStep(v: string, from: nat, open: nat, close: nat)
    requires from <= |v| && open == Find(v, '{', from) && open < |v| && close == Find(v, '}', open + 2) && close < |v|
    ensures AllCovered(v, Matches(v, from), from) <==>
            !HasDelimiter(v[from..open]) && AllCovered(v, Matches(v, close + 2), close + 2)
  {
    hide Find, Matches, HasDelimiter, Covered;
    var first, rest := Span(open, close + 2), Matches(v, close + 2);
    MatchesUnfold(v, from);
    TextIsClean(v, from, open);
    forall p | from <= p && Delimiter(v, p)
      ensures Covered(Matches(v, from), p) <==> p >= open && (p < close + 2 || Covered(rest, p))
    {
      CoveredSplit(first, rest, p);
      if p < close + 2 {
        NotCoveredBefore(v, close + 2, p);
      }
    }
  }

  lemma BalancedConcat(a: seq<Piece>, b: seq<Piece>)
    ensures Balanced(a + b) <==> Balanced(a) && Balanced(b)
  {
    if Balanced(a + b) {
      assert forall i :: 0 <= i < |a| ==> a[i] == (a + b)[i];
      assert forall i :: 0 <= i < |b| ==> b[i] == (a + b)[|a| + i];
    }
  }

  /** Every delimiter lies inside a match exactly when no text piece contains one. */
  lemma {:induction false} CoveredIsBalanced(v: string, from: nat)
    requires from <= |v|
    ensures AllCovered(v, Matches(v, from), from) <==> Balanced(Scan(v[from..]))
    decreases |v| - from
  {
    hide AllCovered, HasDelimiter, Scan, Find, Balanced, TextPiece, Matches;
    ScanSuffix(v, from);
    MatchesUnfold(v, from);
    var open := Find(v, '{', from);
    if open == |v| || Find(v, '}', open + 2) == |v| {
      NoMatchCoverage(v, from);
    } else {
      var close := Find(v, '}', open + 2);
      CoverageStep(v, from, open, close);
      CoveredIsBalanced(v, close + 2);
      BalancedConcat(TextPiece(v[from..open]) + [Expression(v[open + 2..close])], Scan(v[close + 2..]));
      HeadBalance(v[from..open], v[open + 2..close]);
    }
  }

  lemma HeadBalance(text: string, e: string)
    ensures Balanced(TextPiece(text) + [Expression(e)]) <==> !HasDelimiter(text)
  {
    if text != [] && Balanced(TextPiece(text) + [Expression(e)]) {
      assert (TextPiece(text) + [Expression(e)])[0] == Text(text);
    }
  }

  lemma NoMatchCoverage(v: string, from: nat)
    requires from <= |v| && Matches(v, from) == []
    ensures AllCovered(v, [], from) <==> Balanced(TextPiece(v[from..]))
  {
    var t := v[from..];
    if i :| 0 <= i < |t| && (DelimiterAt(t, '{', i) || DelimiterAt(t, '}', i)) {
      assert Delimiter(v, from + i);
      assert t != [] && TextPiece(t)[0] == Text(t);
    }
    if p :| from <= p && Delimiter(v, p) {
      assert DelimiterAt(t, '{', p - from) || DelimiterAt(t, '}', p - from);
      assert t != [] && TextPiece(t)[0] == Text(t);
    }
  }

  // ---------- Searching in steps of two ----------

  // `position` is an occurrence the search visits: the first one, or the first one at least two
  // positions after another.
  predicate Visits(v: string, c: char, prev: nat, position: nat) {
    && prev <= |v| && position == Find(v, c, prev) && position < |v|
    && (prev == 0 || (prev >= 2 && DelimiterAt(v, c, prev - 2)))
  }

  // A match does not end in the middle of a run of delimiters that the search visits.
  lemma MatchGoesOn(v: string, c: char, prev: nat, position: nat, s: Span)
    requires c == '{' || c == '}'
    requires IsMatch(v, s) && s.start <= position < s.end && Visits(v, c, prev, position) && DelimiterAt(v, c, position + 1)
    ensures position + 1 < s.end
  {
  }

  /** The occurrence that a step of two may skip lies inside the same match. */
  lemma SkippedIsCovered(v: string, c: char, prev: nat, position: nat)
    requires c == '{' || c == '}'
    requires Visits(v, c, prev, position) && Covered(Matches(v, 0), position) && DelimiterAt(v, c, position + 1)
    ensures Covered(Matches(v, 0), position + 1)
  {
    hide Visits, IsMatch, DelimiterAt, Find, Matches;
    MatchShape(v, 0);
    var k :| 0 <= k < |Matches(v, 0)| && Matches(v, 0)[k].start <= position < Matches(v, 0)[k].end;
    MatchGoesOn(v, c, prev, position, Matches(v, 0)[k]);
  }

  method DelimitersCovered(v: string, c: char) returns (ok: bool)
    requires c == '{' || c == '}'
    ensures ok <==> forall p :: DelimiterAt(v, c, p) ==> Covered(Matches(v, 0), p)
  {
    hide Matches, Find;
    var matches := Matches(v, 0);
    var position := Find(v, c, 0);
    ghost var prev: nat := 0;
    while position < |v|
      invariant position <= |v| && prev <= |v| && position == Find(v, c, prev)
      invariant prev == 0 || (prev >= 2 && DelimiterAt(v, c, prev - 2))
      invariant forall p :: p < prev && DelimiterAt(v, c, p) ==> Covered(matches, p)
      decreases |v| - position
    {
      if !exists k :: 0 <= k < |matches| && matches[k].start <= position < matches[k].end {
        return false;
      }
      assert Covered(matches, position);
      if DelimiterAt(v, c, position + 1) {
        SkippedIsCovered(v, c, prev, position);
      }
      prev := position + 2;
      position := Find(v, c, position + 2);
    }
    return true;
  }

  method ValidateDelimiters(v: string) returns (ok: bool)
    ensures ok <==> AllCovered(v, Matches(v, 0), 0)
  {
    ok := DelimitersCovered(v, '{');
    if ok {
      ok := DelimitersCovered(v, '}');
    }
  }

  // ---------- Collecting segments ----------

  lemma SegmentsUnfold(first: Piece, rest: seq<Piece>)
    ensures SegmentsOf([first] + rest) ==
            if SegmentOf(first).None? || SegmentsOf(rest).None? then None
            else Some([SegmentOf(first).value] + SegmentsOf(rest).value)
  {
    hide SegmentOf;
    assert ([first] + rest)[1..] == rest;
  }

  lemma {:induction false} SegmentsConcat(a: seq<Piece>, b: seq<Piece>)
    ensures SegmentsOf(a).None? ==> SegmentsOf(a + b).None?
    ensures SegmentsOf(a).Some? ==>
              SegmentsOf(a + b) == match SegmentsOf(b) case None => None case Some(t) => Some(SegmentsOf(a).value + t)
  {
    hide SegmentsOf, SegmentOf;
    if a == [] {
      EmptySegments();
      assert a + b == b;
      if SegmentsOf(b).Some? {
        assert [] + SegmentsOf(b).value == SegmentsOf(b).value;
      }
    } else {
      var first, rest := a[0], a[1..];
      assert a == [first] + rest && a + b == [first] + (rest + b);
      SegmentsConcat(rest, b);
      SegmentsUnfold(first, rest);
      SegmentsUnfold(first, rest + b);
      if SegmentOf(first).Some? && SegmentsOf(rest).Some? && SegmentsOf(b).Some? {
        assert [SegmentOf(first).value] + (SegmentsOf(rest).value + SegmentsOf(b).value)
            == [SegmentOf(first).value] + SegmentsOf(rest).value + SegmentsOf(b).value;
      }
    }
  }

  /** The cursor loop: literal text before each match, the reference of the match, and the rest. */
  method CollectSegments(v: string, matches: seq<Span>) returns (r: Option<seq<Segment>>)
    requires matches == Matches(v, 0) && AllMatch(v, matches)
    ensures r == SegmentsOf(Scan(v))
  {
    hide Scan, Find, Matches, IsMatch, SegmentsOf, ReferenceOf;
    PiecesAreScan(v, 0);
    assert v[0..] == v;
    ghost var done: seq<Piece> := [];
    var segments: seq<Segment> := [];
    EmptySegments();
    var cursor: nat := 0;
    for k := 0 to |matches|
      invariant cursor <= |v|
      invariant Scan(v) == done + Pieces(v, matches[k..], cursor)
      invariant SegmentsOf(done) == Some(segments)
    {
      var m := matches[k];
      MatchBounds(v, m);
      var expression := v[m.start + 2..m.end - 2];
      ghost var text := if cursor < m.start then [Text(v[cursor..m.start])] else [];
      PiecesHead(v, matches, k, cursor);
      CollectStep(done, text, expression, Pieces(v, matches[k + 1..], m.end), segments);
      if m.start > cursor {
        segments := segments + [Literal(v[cursor..m.start])];
      }
      var reference := ReferenceOf(expression);
      if reference == None {
        return None;
      }
      segments := segments + [Output(reference.value)];
      done := done + text + [Expression(expression)];
      cursor := m.end;
    }
    LastSegment(done, v[cursor..], segments);
    if cursor < |v| {
      segments := segments + [Literal(v[cursor..])];
    }
    return Some(segments);
  }

  lemma EmptySegments()
    ensures SegmentsOf([]) == Some([])
  {
  }

  lemma MatchBounds(v: string, s: Span)
    requires IsMatch(v, s)
    ensures s.start + 4 <= s.end <= |v|
  {
  }

  lemma PiecesHead(v: string, matches: seq<Span>, k: nat, cursor: nat)
    requires AllMatch(v, matches) && k < |matches| && cursor <= |v|
    ensures IsMatch(v, matches[k])
    ensures AllMatch(v, matches[k..]) && AllMatch(v, matches[k + 1..])
    ensures Pieces(v, matches[k..], cursor)
            == (if cursor < matches[k].start then [Text(v[cursor..matches[k].start])] else [])
               + [Expression(v[matches[k].start + 2..matches[k].end - 2])] + Pieces(v, matches[k + 1..], matches[k].end)
  {
    assert IsMatch(v, matches[k]);
    assert matches[k..][1..] == matches[k + 1..];
  }

  lemma SingleSegment(p: Piece)
    ensures SegmentsOf([p]) == match SegmentOf(p) case None => None case Some(t) => Some([t])
  {
    assert SegmentsOf([p][1..]) == Some([]);
    if SegmentOf(p).Some? {
      assert [SegmentOf(p).value] + [] == [SegmentOf(p).value];
    }
  }

  // One more match: its literal text and its reference, or no segments at all.
  lemma CollectStep(done: seq<Piece>, text: seq<Piece>, expression: string, rest: seq<Piece>, segments: seq<Segment>)
    requires SegmentsOf(done) == Some(segments) && (text == [] || (|text| == 1 && text[0].Text?))
    ensures done + (text + [Expression(expression)] + rest) == done + text + [Expression(expression)] + rest
    ensures ReferenceOf(expression).None? ==> SegmentsOf(done + text + [Expression(expression)] + rest).None?
    ensures ReferenceOf(expression).Some? ==>
              SegmentsOf(done + text + [Expression(expression)])
              == Some((if text == [] then segments else segments + [Literal(text[0].text)]) + [Output(ReferenceOf(expression).value)])
  {
    hide ReferenceOf, SegmentsOf;
    EmptySegments();
    assert segments + [] == segments;
    if text != [] {
      assert text == [text[0]];
      SingleSegment(text[0]);
    }
    SingleSegment(Expression(expression));
    SegmentsConcat(done, text);
    SegmentsConcat(done + text, [Expression(expression)]);
    SegmentsConcat(done + text + [Expression(expression)], rest);
  }

  lemma LastSegment(done: seq<Piece>, text: string, segments: seq<Segment>)
    requires SegmentsOf(done) == Some(segments)
    ensures SegmentsOf(done + TextPiece(text)) == Some(if text == [] then segments else segments + [Literal(text)])
  {
    hide SegmentsOf;
    EmptySegments();
    assert segments + [] == segments;
    SingleSegment(Text(text));
    SegmentsConcat(done, TextPiece(text));
  }

  // ---------- The parser ----------

  method ParseTemplate(v: string) returns (r: Option<Parsed>)
    ensures r == Parse(v)
  {
    var open, close := Find(v, '{', 0), Find(v, '}', 0);
    if open == |v| && close == |v| {
      return Some(Plain(v));
    }
    assert HasDelimiter(v);
    var matches := Matches(v, 0);
    MatchShape(v, 0);
    var ok := ValidateDelimiters(v);
    CoveredIsBalanced(v, 0);
    assert v[0..] == v;
    if !ok {
      return None;
    }
    if |matches| == 1 && matches[0] == Span(0, |v|) {
      WholeMatch(v);
      var reference := ReferenceOf(v[2..|v| - 2]);
      if reference == None {
        return None;
      }
      return Some(Whole(reference.value));
    }
    SeveralPieces(v);
    var segments := CollectSegments(v, matches);
    if segments == None {
      return None;
    }
    return Some(Mixed(segments.value));
  }

  // A single match over the whole string is a single expression.
  lemma WholeMatch(v: string)
    requires Matches(v, 0) == [Span(0, |v|)] && IsMatch(v, Span(0, |v|))
    ensures Scan(v) == [Expression(v[2..|v| - 2])]
  {
    PiecesAreScan(v, 0);
    assert v[0..] == v && v[|v|..] == [];
  }

  lemma {:induction false} PiecesCount(v: string, spans: seq<Span>, cursor: nat)
    requires cursor <= |v| && AllMatch(v, spans)
    ensures |Pieces(v, spans, cursor)| >= |spans|
    decreases |spans|
  {
    if spans != [] {
      assert IsMatch(v, spans[0]);
      PiecesCount(v, spans[1..], spans[0].end);
    }
  }

  lemma SeveralPieces(v: string)
    ensures |Scan(v)| == 1 && Scan(v)[0].Expression? ==> Matches(v, 0) == [Span(0, |v|)]
  {
    MatchShape(v, 0);
    PiecesAreScan(v, 0);
    assert v[0..] == v;
    var spans := Matches(v, 0);
    hide Scan, Matches;
    PiecesCount(v, spans, 0);
    if spans != [] {
      assert IsMatch(v, spans[0]);
      PiecesCount(v, spans[1..], spans[0].end);
    }
  }
}
