/** The template language: literal text with references `{{ node.path }}` to earlier outputs. */
module TemplateSyntax {
  import opened Wrappers

  /** A reference to a place inside the output of a completed node. */
  datatype Reference = Reference(node: string, path: seq<string>)

  datatype Segment = Literal(text: string) | Output(reference: Reference)

  /** A string without templates, a string that is one reference, or a mixture. */
  datatype Parsed = Plain(text: string) | Whole(reference: Reference) | Mixed(segments: seq<Segment>)

  // ---------- Characters ----------

  predicate IsLetter(c: char) { 'A' <= c <= 'Z' || 'a' <= c <= 'z' }

  predicate IsDigit(c: char) { '0' <= c <= '9' }

  predicate IsNameChar(c: char) { IsLetter(c) || IsDigit(c) || c == '_' || c == '-' }

  predicate IsSpace(c: char) {
    || '\t' <= c <= '\r' || '\U{1C}' <= c <= ' ' || c == '\U{85}' || c == '\U{A0}' || c == '\U{1680}'
    || '\U{2000}' <= c <= '\U{200A}' || c == '\U{2028}' || c == '\U{2029}' || c == '\U{202F}'
    || c == '\U{205F}' || c == '\U{3000}'
  }

  predicate Name(s: string) {
    s != [] && IsLetter(s[0]) && forall i :: 0 <= i < |s| ==> IsNameChar(s[i])
  }

  predicate Digits(s: string) {
    s != [] && forall i :: 0 <= i < |s| ==> IsDigit(s[i])
  }

  predicate PathPart(s: string) { Name(s) || Digits(s) }

  ghost predicate ValidReference(r: Reference) {
    Name(r.node) && r.path != [] && forall i :: 0 <= i < |r.path| ==> PathPart(r.path[i])
  }

  // ---------- Reference expressions ----------

  function Split(s: string): (parts: seq<string>)
    ensures parts != []
  {
    if s == [] then [[]]
    else
      var rest := Split(s[1..]);
      if s[0] == '.' then [[]] + rest else [[s[0]] + rest[0]] + rest[1..]
  }

  function StripLeft(s: string): string {
    if s != [] && IsSpace(s[0]) then StripLeft(s[1..]) else s
  }

  function StripRight(s: string): string {
    if s != [] && IsSpace(s[|s| - 1]) then StripRight(s[..|s| - 1]) else s
  }

  function Strip(s: string): string { StripRight(StripLeft(s)) }

  function StripAll(parts: seq<string>): (names: seq<string>)
    ensures |names| == |parts|
    ensures forall i :: 0 <= i < |parts| ==> names[i] == Strip(parts[i])
  {
    if parts == [] then [] else [Strip(parts[0])] + StripAll(parts[1..])
  }

  /** The reference an expression denotes: names separated by dots, with white space around them. */
  function ReferenceOf(expression: string): Option<Reference> {
    var names := StripAll(Split(expression));
    if |names| >= 2 && Name(names[0]) && forall i :: 1 <= i < |names| ==> PathPart(names[i])
    then Some(Reference(names[0], names[1..])) else None
  }

  // ---------- Delimiters ----------

  // A doubled brace starts at position i.
  predicate DelimiterAt(v: string, c: char, i: int) {
    0 <= i && i + 1 < |v| && v[i] == c && v[i + 1] == c
  }

  predicate HasDelimiter(v: string) {
    exists i :: 0 <= i < |v| && (DelimiterAt(v, '{', i) || DelimiterAt(v, '}', i))
  }

  /** The first position from `from` on where the delimiter stands, or the length of the string. */
  function Find(v: string, c: char, from: nat): (i: nat)
    requires from <= |v|
    ensures from <= i <= |v|
    ensures i < |v| ==> DelimiterAt(v, c, i)
    ensures forall k :: from <= k < i ==> !DelimiterAt(v, c, k)
    decreases |v| - from
  {
    if from == |v| then |v|
    else if DelimiterAt(v, c, from) then from
    else Find(v, c, from + 1)
  }

  // ---------- Strings ----------

  /** Literal text or the inside of a pair of delimiters. */
  datatype Piece = Text(text: string) | Expression(text: string)

  function TextPiece(s: string): seq<Piece> {
    if s == [] then [] else [Text(s)]
  }

  /** Cuts a string at its leftmost, shortest delimited expressions. */
  function Scan(v: string): seq<Piece>
    decreases |v|
  {
    var open := Find(v, '{', 0);
    if open == |v| then TextPiece(v)
    else
      var close := Find(v, '}', open + 2);
      if close == |v| then TextPiece(v)
      else TextPiece(v[..open]) + [Expression(v[open + 2..close])] + Scan(v[close + 2..])
  }

  /** No delimiter is left outside the expressions. */
  predicate Balanced(pieces: seq<Piece>) {
    forall i :: 0 <= i < |pieces| && pieces[i].Text? ==> !HasDelimiter(pieces[i].text)
  }

  function SegmentOf(p: Piece): Option<Segment> {
    match p
    case Text(s) => Some(Literal(s))
    case Expression(e) => match ReferenceOf(e) case None => None case Some(r) => Some(Output(r))
  }

  function SegmentsOf(pieces: seq<Piece>): (r: Option<seq<Segment>>)
    ensures r.Some? ==> |r.value| == |pieces|
    ensures r.Some? ==> forall i :: 0 <= i < |pieces| ==> SegmentOf(pieces[i]) == Some(r.value[i])
    ensures r.None? ==> exists i :: 0 <= i < |pieces| && SegmentOf(pieces[i]).None?
  {
    if pieces == [] then Some([])
    else
      match SegmentOf(pieces[0])
      case None => None
      case Some(first) =>
        match SegmentsOf(pieces[1..])
        case None => None
        case Some(rest) => Some([first] + rest)
  }

  /** The meaning of a string in a node configuration; nothing if it is malformed. */
  function Parse(v: string): Option<Parsed> {
    if !HasDelimiter(v) then Some(Plain(v))
    else if !Balanced(Scan(v)) then None
    else
      match SegmentsOf(Scan(v))
      case None => None
      case Some(segments) =>
        if |segments| == 1 && segments[0].Output? then Some(Whole(segments[0].reference)) else Some(Mixed(segments))
  }
}
