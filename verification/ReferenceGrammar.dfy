/** The grammar of references: which characters, which padding, which expressions. */
module ReferenceGrammar {
  import opened Wrappers
  import opened TemplateSyntax
  import opened TemplateRoundTrip

  /** The characters of names, and those that count as white space, by their code points. */
  lemma CharacterClasses(c: char)
    ensures IsLetter(c) <==> 65 <= c as int <= 90 || 97 <= c as int <= 122
    ensures IsDigit(c) <==> 48 <= c as int <= 57
    ensures IsNameChar(c) <==> 65 <= c as int <= 90 || 97 <= c as int <= 122 || 48 <= c as int <= 57 || c as int == 95 || c as int == 45
    ensures IsSpace(c) <==>
            || 9 <= c as int <= 13 || 28 <= c as int <= 32 || c as int == 133 || c as int == 160 || c as int == 5760
            || 8192 <= c as int <= 8202 || c as int == 8232 || c as int == 8233 || c as int == 8239 || c as int == 8287
            || c as int == 12288
  {
  }

  /** A node name starts with a letter; a part of a path is such a name or a string of digits. */
  lemma NamesAre(s: string)
    ensures Name(s) <==> s != [] && IsLetter(s[0]) && forall i :: 0 <= i < |s| ==> IsNameChar(s[i])
    ensures PathPart(s) <==> Name(s) || (s != [] && forall i :: 0 <= i < |s| ==> IsDigit(s[i]))
  {
  }

  ghost predicate Blank(s: string) { forall i :: 0 <= i < |s| ==> IsSpace(s[i]) }

  /** The name with white space around it. */
  ghost predicate Padded(part: string, name: string) {
    exists left, right :: Blank(left) && Blank(right) && part == left + name + right
  }

  // ---------- Padding is taken off ----------

  ghost predicate Tight(s: string) { s == [] || (!IsSpace(s[0]) && !IsSpace(s[|s| - 1])) }

  lemma {:induction false} StripLeftPadded(left: string, s: string)
    requires Blank(left) && (s == [] || !IsSpace(s[0]))
    ensures StripLeft(left + s) == s
  {
    if left == [] {
      assert left + s == s;
    } else {
      assert (left + s)[0] == left[0] && (left + s)[1..] == left[1..] + s;
      StripLeftPadded(left[1..], s);
    }
  }

  lemma {:induction false} StripRightPadded(s: string, right: string)
    requires Blank(right) && (s == [] || !IsSpace(s[|s| - 1]))
    ensures StripRight(s + right) == s
  {
    var v := s + right;
    if right == [] {
      assert v == s;
    } else {
      assert v[|v| - 1] == right[|right| - 1] && v[..|v| - 1] == s + right[..|right| - 1];
      StripRightPadded(s, right[..|right| - 1]);
    }
  }

  lemma StripPadded(part: string, name: string)
    requires Padded(part, name) && name != [] && Tight(name)
    ensures Strip(part) == name
  {
    var left, right :| Blank(left) && Blank(right) && part == left + name + right;
    assert part == left + (name + right) && (name + right)[0] == name[0];
    StripLeftPadded(left, name + right);
    StripRightPadded(name, right);
  }

  lemma {:induction false} StripLeftTakes(s: string) returns (left: string)
    ensures Blank(left) && s == left + StripLeft(s) && (StripLeft(s) == [] || !IsSpace(StripLeft(s)[0]))
  {
    left := [];
    if s != [] && IsSpace(s[0]) {
      var rest := StripLeftTakes(s[1..]);
      left := [s[0]] + rest;
    }
  }

  lemma {:induction false} StripRightTakes(s: string) returns (right: string)
    ensures Blank(right) && s == StripRight(s) + right
  {
    right := [];
    if s != [] && IsSpace(s[|s| - 1]) {
      var rest := StripRightTakes(s[..|s| - 1]);
      right := rest + [s[|s| - 1]];
    }
  }

  lemma StripTakes(s: string)
    ensures Padded(s, Strip(s))
  {
    var left := StripLeftTakes(s);
    var right := StripRightTakes(StripLeft(s));
    assert s == left + Strip(s) + right;
  }

  // ---------- Parts are joined by dots ----------

  lemma {:induction false} JoinSplit(s: string)
    ensures Dotted(Split(s)) == s && forall i :: 0 <= i < |Split(s)| ==> Dotless(Split(s)[i])
  {
    if s == [] {
      assert Split(s) == [[]];
    } else {
      var rest := Split(s[1..]);
      JoinSplit(s[1..]);
      if s[0] == '.' {
        assert Split(s) == [[]] + rest && ([[]] + rest)[1..] == rest;
        assert [] + "." + s[1..] == s;
      } else {
        var parts := [[s[0]] + rest[0]] + rest[1..];
        assert Split(s) == parts && parts[1..] == rest[1..];
        assert [s[0]] + s[1..] == s;
        DottedFirst(s[0], rest);
      }
    }
  }

  lemma DottedFirst(c: char, parts: seq<string>)
    requires parts != []
    ensures Dotted([[c] + parts[0]] + parts[1..]) == [c] + Dotted(parts)
  {
    var more := [[c] + parts[0]] + parts[1..];
    assert more[0] == [c] + parts[0] && more[1..] == parts[1..];
    if |parts| > 1 {
      assert [c] + parts[0] + "." + Dotted(parts[1..]) == [c] + (parts[0] + "." + Dotted(parts[1..]));
    }
  }

  /** The parts are the names of the reference, each with white space around it. */
  ghost predicate PartsOf(parts: seq<string>, r: Reference) {
    |parts| == 1 + |r.path| && forall i :: 0 <= i < |parts| ==> Padded(parts[i], Names(r)[i])
  }

  lemma PartName(s: string)
    requires Printable(s)
    ensures Tight(s)
  {
  }

  lemma PaddedIsDotless(part: string, name: string)
    requires Padded(part, name) && Printable(name)
    ensures Dotless(part)
  {
  }

  /** An expression denotes a reference exactly when the reference is valid and the expression is its
      names, each with any white space around it, joined by dots. */
  lemma Grammar(e: string, r: Reference)
    ensures ReferenceOf(e) == Some(r) <==> ValidReference(r) && exists parts :: PartsOf(parts, r) && e == Dotted(parts)
  {
    hide Padded, Strip, Dotted, Name, PathPart, Dotless;
    if ReferenceOf(e) == Some(r) {
      AcceptedHasParts(e, r);
    }
    if ValidReference(r) {
      forall parts | PartsOf(parts, r) && e == Dotted(parts) ensures ReferenceOf(e) == Some(r) {
        PartsAreAccepted(parts, r);
      }
    }
  }

  lemma AcceptedHasParts(e: string, r: Reference)
    requires ReferenceOf(e) == Some(r)
    ensures ValidReference(r) && PartsOf(Split(e), r) && e == Dotted(Split(e))
  {
    ParsedReferenceIsValid(e);
    JoinSplit(e);
    var parts := Split(e);
    forall i | 0 <= i < |parts| ensures Padded(parts[i], Names(r)[i]) {
      StripTakes(parts[i]);
    }
  }

  lemma PartsAreAccepted(parts: seq<string>, r: Reference)
    requires ValidReference(r) && PartsOf(parts, r)
    ensures ReferenceOf(Dotted(parts)) == Some(r)
  {
    hide Padded, Dotted;
    var names := Names(r);
    NamesPrintable(r);
    forall i | 0 <= i < |parts| ensures Dotless(parts[i]) && Strip(parts[i]) == names[i] {
      PartName(names[i]);
      PaddedIsDotless(parts[i], names[i]);
      StripPadded(parts[i], names[i]);
    }
    SplitDotted(parts);
    assert StripAll(parts) == names;
    assert names[1..] == r.path;
  }
}
