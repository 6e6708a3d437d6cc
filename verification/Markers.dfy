/** The deny list of the provenance check: plain markers, found without regard to case, and regular expressions
    (scripts/check-provenance/main.go). Letter case and expression matching are parameters. */
module Markers {
  import opened Common

  datatype Regexp = Regexp(source: string, matches: string -> bool)

  /** `fold` is the lower case of a character. */
  datatype MarkerSet = MarkerSet(fold: char -> char, substrings: seq<string>, regexps: seq<Regexp>)

  function Lower(fold: char -> char, text: string): string {
    seq(|text|, i requires 0 <= i < |text| => fold(text[i]))
  }

  predicate OccursAt(text: string, part: string, i: nat) {
    i + |part| <= |text| && text[i..i + |part|] == part
  }

  predicate Contains(text: string, part: string) {
    exists i: nat :: i <= |text| && OccursAt(text, part, i)
  }

  predicate HasSubstring(m: MarkerSet, text: string) {
    exists i :: 0 <= i < |m.substrings| && Contains(Lower(m.fold, text), m.substrings[i])
  }

  predicate HasRegexp(m: MarkerSet, text: string) {
    exists i :: 0 <= i < |m.regexps| && m.regexps[i].matches(text)
  }

  /** No marker is empty, plain ones do not end in a carriage return, and only that character folds to it. */
  ghost predicate MarkersOk(m: MarkerSet) {
    && (forall i :: 0 <= i < |m.substrings| ==> PlainOk(m.substrings[i]))
    && (forall i :: 0 <= i < |m.regexps| ==> m.regexps[i].source != "")
    && FoldOk(m.fold)
  }

  predicate PlainOk(part: string) {
    part != "" && part[|part| - 1] != '\r'
  }

  ghost predicate FoldOk(fold: char -> char) {
    forall c :: fold(c) == '\r' <==> c == '\r'
  }

  /** `hit` is the first plain marker from the `i`-th on that the lower-case text contains. */
  predicate IsFirst(substrings: seq<string>, lower: string, hit: string, i: nat) {
    exists k :: i <= k < |substrings| && hit == substrings[k] && Contains(lower, hit) && NoneBefore(substrings, lower, i, k)
  }

  predicate NoneBefore(substrings: seq<string>, lower: string, i: nat, k: nat) {
    forall j :: i <= j < k && j < |substrings| ==> !Contains(lower, substrings[j])
  }

  /** The first plain marker from the `i`-th on that the lower-case text contains. */
  function FirstSubstring(substrings: seq<string>, lower: string, i: nat): (hit: Option<string>)
    requires i <= |substrings|
    ensures hit.Some? <==> exists k :: i <= k < |substrings| && Contains(lower, substrings[k])
    ensures hit.Some? ==> IsFirst(substrings, lower, hit.value, i)
    decreases |substrings| - i
  {
    if i == |substrings| then None
    else if Contains(lower, substrings[i]) then Some(substrings[i])
    else FirstSubstring(substrings, lower, i + 1)
  }

  function FirstRegexp(regexps: seq<Regexp>, text: string, i: nat): (hit: Option<Regexp>)
    requires i <= |regexps|
    ensures hit.Some? <==> exists k :: i <= k < |regexps| && regexps[k].matches(text)
    ensures hit.Some? ==> hit.value in regexps
    decreases |regexps| - i
  {
    if i == |regexps| then None
    else if regexps[i].matches(text) then Some(regexps[i])
    else FirstRegexp(regexps, text, i + 1)
  }

  /** The first plain marker the text contains, else the first expression that matches it, else nothing. */
  function FirstMarker(m: MarkerSet, text: string): (hit: string)
    ensures HasSubstring(m, text) ==> IsFirst(m.substrings, Lower(m.fold, text), hit, 0)
    ensures hit != "" ==> HasSubstring(m, text) || HasRegexp(m, text)
    ensures MarkersOk(m) && (HasSubstring(m, text) || HasRegexp(m, text)) ==> hit != ""
  {
    var plain := FirstSubstring(m.substrings, Lower(m.fold, text), 0);
    var expr := FirstRegexp(m.regexps, text, 0);
    if plain.Some? then plain.value else if expr.Some? then expr.value.source else ""
  }

  /** The source's two loops. */
  method Match(m: MarkerSet, text: string) returns (hit: string)
    ensures hit == FirstMarker(m, text)
  {
    var lower := Lower(m.fold, text);
    for i := 0 to |m.substrings|
      invariant FirstSubstring(m.substrings, lower, 0) == FirstSubstring(m.substrings, lower, i)
    {
      if Contains(lower, m.substrings[i]) {
        return m.substrings[i];
      }
    }
    for i := 0 to |m.regexps|
      invariant FirstRegexp(m.regexps, text, 0) == FirstRegexp(m.regexps, text, i)
    {
      if m.regexps[i].matches(text) {
        return m.regexps[i].source;
      }
    }
    return "";
  }

  // ----- Reading the list -----

  const SPACES := {' ', '\t', '\n', '\r', '\U{0B}', '\U{0C}', '\U{85}', '\U{A0}'}

  function TrimLeft(s: string): (r: string)
    ensures r == "" || r[0] !in SPACES
  {
    if s == "" || s[0] !in SPACES then s else TrimLeft(s[1..])
  }

  function TrimRight(s: string): (r: string)
    ensures r == "" || r[|r| - 1] !in SPACES
  {
    if s == "" || s[|s| - 1] !in SPACES then s else TrimRight(s[..|s| - 1])
  }

  function TrimSpace(s: string): string {
    TrimRight(TrimLeft(s))
  }

  predicate AllSpaces(s: string) {
    forall i :: 0 <= i < |s| ==> s[i] in SPACES
  }

  lemma {:induction false} TrimLeftParts(s: string) returns (a: string)
    ensures s == a + TrimLeft(s) && AllSpaces(a)
  {
    if s == "" || s[0] !in SPACES {
      a := "";
    } else {
      a := TrimLeftParts(s[1..]);
      a := [s[0]] + a;
    }
  }

  lemma {:induction false} TrimRightParts(s: string) returns (b: string)
    ensures s == TrimRight(s) + b && AllSpaces(b)
  {
    if s == "" || s[|s| - 1] !in SPACES {
      b := "";
    } else {
      b := TrimRightParts(s[..|s| - 1]);
      b := b + [s[|s| - 1]];
    }
  }

  /** Trimming takes white space at the two ends and nothing else, and all of it. */
  lemma {:induction false} TrimExact(s: string) returns (a: string, b: string)
    ensures s == a + TrimSpace(s) + b && AllSpaces(a) && AllSpaces(b)
    ensures TrimSpace(s) == "" || TrimSpace(s)[|TrimSpace(s)| - 1] !in SPACES
    ensures TrimSpace(s) == "" || TrimSpace(s)[0] !in SPACES
  {
    a := TrimLeftParts(s);
    b := TrimRightParts(TrimLeft(s));
    assert TrimSpace(s) == "" || TrimLeft(s)[0] == TrimSpace(s)[0];
  }

  /** A trimmed line that is a plain marker. */
  predicate IsPlain(line: string) {
    line != "" && !("#" <= line) && !("re:" <= line)
  }

  predicate IsExpression(line: string) {
    "re:" <= line
  }

  /** The plain markers of the first `n` lines, in order. */
  function Plains(lines: seq<string>, fold: char -> char, n: nat): seq<string>
    requires n <= |lines|
  {
    if n == 0 then []
    else
      var before, line := Plains(lines, fold, n - 1), TrimSpace(lines[n - 1]);
      if IsPlain(line) then before + [Lower(fold, line)] else before
  }

  /** An expression line: case-insensitive, without the prefix. */
  function Expression(line: string, compile: string -> (string -> bool)): Regexp
    requires IsExpression(line)
  {
    Regexp("(?i)" + line[3..], compile(line[3..]))
  }

  /** The expressions of the first `n` lines, in order. */
  function Expressions(lines: seq<string>, compile: string -> (string -> bool), n: nat): seq<Regexp>
    requires n <= |lines|
  {
    if n == 0 then []
    else
      var before, line := Expressions(lines, compile, n - 1), TrimSpace(lines[n - 1]);
      if IsExpression(line) then before + [Expression(line, compile)] else before
  }

  lemma {:induction false} PlainsMembers(lines: seq<string>, fold: char -> char, n: nat, x: string)
    requires n <= |lines|
    ensures x in Plains(lines, fold, n) <==>
      exists k :: 0 <= k < n && IsPlain(TrimSpace(lines[k])) && x == Lower(fold, TrimSpace(lines[k]))
  {
    if n == 0 {
    } else {
      PlainsMembers(lines, fold, n - 1, x);
    }
  }

  lemma {:induction false} PlainsOk(lines: seq<string>, fold: char -> char, n: nat)
    requires FoldOk(fold) && n <= |lines|
    ensures forall i :: 0 <= i < |Plains(lines, fold, n)| ==> PlainOk(Plains(lines, fold, n)[i])
  {
    if n == 0 {
    } else {
      PlainsOk(lines, fold, n - 1);
      var line := TrimSpace(lines[n - 1]);
      assert line == "" || line[|line| - 1] !in SPACES;
      assert line == "" || PlainOk(Lower(fold, line));
    }
  }

  lemma {:induction false} ExpressionsNamed(lines: seq<string>, compile: string -> (string -> bool), n: nat)
    requires n <= |lines|
    ensures forall i :: 0 <= i < |Expressions(lines, compile, n)| ==> Expressions(lines, compile, n)[i].source != ""
  {
    if n == 0 {
    } else {
      ExpressionsNamed(lines, compile, n - 1);
    }
  }

  /** Every plain line of the file becomes a marker in lower case, every expression line a case-insensitive
      expression, both in order; blank lines and comments drop out. The resulting list is fit for use. */
  method ParseMarkers(lines: seq<string>, fold: char -> char, compile: string -> (string -> bool))
      returns (m: MarkerSet)
    requires FoldOk(fold)
    ensures MarkersOk(m)
    ensures m == MarkerSet(fold, Plains(lines, fold, |lines|), Expressions(lines, compile, |lines|))
    ensures forall x :: x in m.substrings <==>
      exists k :: 0 <= k < |lines| && IsPlain(TrimSpace(lines[k])) && x == Lower(fold, TrimSpace(lines[k]))
  {
    var substrings: seq<string>, regexps: seq<Regexp> := [], [];
    for i := 0 to |lines|
      invariant substrings == Plains(lines, fold, i)
      invariant regexps == Expressions(lines, compile, i)
    {
      var line := TrimSpace(lines[i]);
      if line == "" || "#" <= line {
        continue;
      }
      if "re:" <= line {
        regexps := regexps + [Expression(line, compile)];
        continue;
      }
      substrings := substrings + [Lower(fold, line)];
    }
    m := MarkerSet(fold, substrings, regexps);
    PlainsOk(lines, fold, |lines|);
    ExpressionsNamed(lines, compile, |lines|);
    forall x ensures x in m.substrings <==>
      exists k :: 0 <= k < |lines| && IsPlain(TrimSpace(lines[k])) && x == Lower(fold, TrimSpace(lines[k]))
    {
      PlainsMembers(lines, fold, |lines|, x);
    }
  }
}
