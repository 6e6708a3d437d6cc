/** The added lines of a commit, recovered from its printed diff, and the content policy over them
    (scripts/check-provenance/main.go). */
module DiffScanner {
  import opened Markers

  datatype AddedLine = AddedLine(path: string, text: string)

  // ----- Lines of a text -----

  predicate EndsInCR(line: string) {
    line != "" && line[|line| - 1] == '\r'
  }

  function StripCR(line: string): string {
    if EndsInCR(line) then line[..|line| - 1] else line
  }

  /** Length of the text before its first newline. */
  function LineLength(text: string): (n: nat)
    ensures n <= |text| && '\n' !in text[..n] && (n < |text| ==> text[n] == '\n')
  {
    if text == "" || text[0] == '\n' then 0 else
    var n := LineLength(text[1..]);
    assert text[..n + 1] == [text[0]] + text[1..][..n];
    n + 1
  }

  /** The scanner's lines: newline-terminated, one trailing carriage return dropped, a last line without
      newline included unless empty. */
  function SplitLines(text: string): seq<string>
    decreases |text|
  {
    if text == "" then [] else
    var n := LineLength(text);
    if n == |text| then [StripCR(text)] else [StripCR(text[..n])] + SplitLines(text[n + 1..])
  }

  function Unlines(lines: seq<string>): string {
    if lines == [] then "" else lines[0] + "\n" + Unlines(lines[1..])
  }

  function StripAll(lines: seq<string>): seq<string> {
    seq(|lines|, i requires 0 <= i < |lines| => StripCR(lines[i]))
  }

  predicate NoNewlines(lines: seq<string>) {
    forall i :: 0 <= i < |lines| ==> '\n' !in lines[i]
  }

  lemma {:induction false} LineLengthIs(line: string, rest: string)
    requires '\n' !in line
    ensures LineLength(line + "\n" + rest) == |line|
  {
    var text := line + "\n" + rest;
    var n := LineLength(text);
    assert text[|line|] == '\n';
    assert forall i :: 0 <= i < |line| ==> text[i] == line[i];
    assert forall i :: 0 <= i < n ==> text[i] == text[..n][i];
  }

  lemma {:induction false} SplitFirst(line: string, rest: string)
    requires '\n' !in line
    ensures SplitLines(line + "\n" + rest) == [StripCR(line)] + SplitLines(rest)
  {
    var text := line + "\n" + rest;
    LineLengthIs(line, rest);
    assert text[..|line|] == line;
    assert text[|line| + 1..] == rest;
  }

  lemma {:induction false} SplitUnlines(lines: seq<string>)
    requires NoNewlines(lines)
    ensures SplitLines(Unlines(lines)) == StripAll(lines)
  {
    if lines == [] {
    } else {
      SplitFirst(lines[0], Unlines(lines[1..]));
      SplitUnlines(lines[1..]);
      assert StripAll(lines) == [StripCR(lines[0])] + StripAll(lines[1..]);
    }
  }

  // ----- The line machine -----

  datatype Scan = Scan(path: string, inHunk: bool, added: seq<AddedLine>)

  const START := Scan("", false, [])

  function TrimTab(s: string): string {
    if s != "" && s[|s| - 1] == '\t' then s[..|s| - 1] else s
  }

  /** One line: headers count only outside hunks, added lines only inside. */
  function Step(st: Scan, line: string): Scan {
    if "diff --git " <= line then Scan("", false, st.added)
    else if !st.inHunk && "@@" <= line then st.(inHunk := true)
    else if !st.inHunk && line == "+++ /dev/null" then st.(path := "")
    else if !st.inHunk && "+++ b/" <= line then st.(path := TrimTab(line[6..]))
    else if !st.inHunk && "+++ " <= line then st.(path := line[4..])
    else if st.inHunk && "@@" <= line then st
    else if st.inHunk && "+" <= line && st.path != "" then st.(added := st.added + [AddedLine(st.path, line[1..])])
    else st
  }

  function Fold(st: Scan, lines: seq<string>): Scan {
    if lines == [] then st else Step(Fold(st, lines[..|lines| - 1]), lines[|lines| - 1])
  }

  lemma {:induction false} FoldConcat(st: Scan, a: seq<string>, b: seq<string>)
    ensures Fold(st, a + b) == Fold(Fold(st, a), b)
  {
    if b == [] {
      assert a + b == a;
    } else {
      assert (a + b)[..|a + b| - 1] == a + b[..|b| - 1];
      FoldConcat(st, a, b[..|b| - 1]);
    }
  }

  /** The source's loop: whatever diff the text was printed from, its added lines come back, in order, short of a
      trailing carriage return. */
  method LoadAddedLines(out: string) returns (added: seq<AddedLine>)
    ensures added == Fold(START, SplitLines(out)).added
    ensures forall d :: DiffOk(d) && out == Unlines(PrintDiff(d)) ==> added == Stripped(AddedBy(d))
  {
    var path, inHunk := "", false;
    added := [];
    var lines := SplitLines(out);
    for i := 0 to |lines|
      invariant Scan(path, inHunk, added) == Fold(START, lines[..i])
    {
      var line := lines[i];
      assert lines[..i + 1][..i] == lines[..i];
      if "diff --git " <= line {
        inHunk := false;
        path := "";
      } else if !inHunk && "@@" <= line {
        inHunk := true;
      } else if !inHunk && line == "+++ /dev/null" {
        path := "";
      } else if !inHunk && "+++ b/" <= line {
        path := TrimTab(line[6..]);
      } else if !inHunk && "+++ " <= line {
        path := line[4..];
      } else if inHunk && "@@" <= line {
      } else if inHunk && "+" <= line && path != "" {
        added := added + [AddedLine(path, line[1..])];
      }
    }
    assert lines[..|lines|] == lines;
    forall d | DiffOk(d) && out == Unlines(PrintDiff(d)) ensures added == Stripped(AddedBy(d)) {
      RoundTrip(d);
    }
  }

  // ----- Zero-context diffs as git prints them -----

  datatype Line = Added(text: string) | Removed(text: string) | NoEndOfLine

  /** `range` is what follows the two at-signs that open the hunk, function context included. */
  datatype Hunk = Hunk(range: string, lines: seq<Line>)

  /** The new side of a file: a plain path, a C-quoted one (kept as printed), or none. */
  datatype Target = Plain(path: string) | Quoted(raw: string) | Gone

  /** `names` and `extended` are the header lines up to the new side; a file without text change (mode,
      rename, binary) has no more. */
  datatype FileDiff =
    | NoText(names: string, extended: seq<string>)
    | Text(names: string, extended: seq<string>, target: Target, hunks: seq<Hunk>)

  function PrintLine(l: Line): string {
    match l
    case Added(text) => "+" + text
    case Removed(text) => "-" + text
    case NoEndOfLine => "\\ No newline at end of file"
  }

  function PrintBody(lines: seq<Line>): seq<string> {
    if lines == [] then [] else PrintBody(lines[..|lines| - 1]) + [PrintLine(lines[|lines| - 1])]
  }

  function PrintHunks(hunks: seq<Hunk>): seq<string> {
    if hunks == [] then []
    else
      var h := hunks[|hunks| - 1];
      PrintHunks(hunks[..|hunks| - 1]) + (["@@" + h.range] + PrintBody(h.lines))
  }

  /** A plain path with a space in it is followed by a tab. */
  function PrintTarget(t: Target): string {
    match t
    case Plain(path) => "+++ b/" + path + (if ' ' in path then "\t" else "")
    case Quoted(raw) => "+++ " + raw
    case Gone => "+++ /dev/null"
  }

  function PrintFile(f: FileDiff): seq<string> {
    ["diff --git " + f.names] + f.extended +
    match f
    case NoText(_, _) => []
    case Text(_, _, target, hunks) => [PrintTarget(target)] + PrintHunks(hunks)
  }

  function PrintDiff(d: seq<FileDiff>): seq<string> {
    if d == [] then [] else PrintDiff(d[..|d| - 1]) + PrintFile(d[|d| - 1])
  }

  /** git quotes every path with a control character, a quote or a backslash. */
  predicate TargetOk(t: Target) {
    match t
    case Plain(path) => path != "" && forall c :: c in path ==> c != '\n' && c != '\r' && c != '\t' && c != '"' && c != '\\'
    case Quoted(raw) => |raw| >= 2 && raw[0] == '"' && raw[|raw| - 1] == '"' && '\n' !in raw
    case Gone => true
  }

  /** The other header lines start differently from the ones the machine looks for. */
  predicate HeaderOk(line: string) {
    && '\n' !in line && StripCR(line) == line
    && !("diff --git " <= line) && !("@@" <= line) && !("+++ " <= line)
  }

  predicate LineOk(l: Line) {
    l.NoEndOfLine? || '\n' !in l.text
  }

  predicate HunkOk(h: Hunk) {
    '\n' !in h.range && forall i :: 0 <= i < |h.lines| ==> LineOk(h.lines[i])
  }

  /** Content is arbitrary; a deleted file has no added lines. */
  predicate FileOk(f: FileDiff) {
    && '\n' !in f.names
    && (forall i :: 0 <= i < |f.extended| ==> HeaderOk(f.extended[i]))
    && (f.Text? ==>
          && TargetOk(f.target)
          && (forall i :: 0 <= i < |f.hunks| ==> HunkOk(f.hunks[i]))
          && (f.target.Gone? ==> forall i :: 0 <= i < |f.hunks| ==> NoneAdded(f.hunks[i].lines)))
  }

  predicate NoneAdded(lines: seq<Line>) {
    forall i :: 0 <= i < |lines| ==> !lines[i].Added?
  }

  predicate DiffOk(d: seq<FileDiff>) {
    forall i :: 0 <= i < |d| ==> FileOk(d[i])
  }

  // ----- What the diff adds -----

  function PathOf(t: Target): string {
    match t
    case Plain(path) => path
    case Quoted(raw) => raw
    case Gone => ""
  }

  /** The added lines of a hunk. */
  function AddedIn(path: string, lines: seq<Line>): seq<AddedLine> {
    if lines == [] then []
    else
      var l := lines[|lines| - 1];
      AddedIn(path, lines[..|lines| - 1]) + (if l.Added? then [AddedLine(path, l.text)] else [])
  }

  function AddedInHunks(path: string, hunks: seq<Hunk>): seq<AddedLine> {
    if hunks == [] then [] else AddedInHunks(path, hunks[..|hunks| - 1]) + AddedIn(path, hunks[|hunks| - 1].lines)
  }

  function AddedInFile(f: FileDiff): seq<AddedLine> {
    if f.NoText? then [] else AddedInHunks(PathOf(f.target), f.hunks)
  }

  function AddedBy(d: seq<FileDiff>): seq<AddedLine> {
    if d == [] then [] else AddedBy(d[..|d| - 1]) + AddedInFile(d[|d| - 1])
  }

  /** The lines as the scanner sees them. */
  function Stripped(added: seq<AddedLine>): seq<AddedLine> {
    seq(|added|, i requires 0 <= i < |added| => AddedLine(added[i].path, StripCR(added[i].text)))
  }

  // ----- Round trip -----

  lemma {:induction false} StrippedConcat(a: seq<AddedLine>, b: seq<AddedLine>)
    ensures Stripped(a + b) == Stripped(a) + Stripped(b)
  {
  }

  lemma {:induction false} StripPrefixed(prefix: string, text: string)
    requires prefix != "" && prefix[|prefix| - 1] != '\r'
    ensures StripCR(prefix + text) == prefix + StripCR(text)
  {
    if text != "" {
      assert (prefix + text)[|prefix + text| - 1] == text[|text| - 1];
      assert (prefix + text)[..|prefix + text| - 1] == prefix + text[..|text| - 1];
    }
  }

  lemma {:induction false} BodyStep(st: Scan, l: Line)
    requires st.inHunk && (st.path != "" || !l.Added?)
    ensures Step(st, StripCR(PrintLine(l))) ==
      st.(added := st.added + Stripped(if l.Added? then [AddedLine(st.path, l.text)] else []))
  {
    match l
    case Added(text) =>
      assert Stripped([AddedLine(st.path, text)]) == [AddedLine(st.path, StripCR(text))];
      StripPrefixed("+", text);
      assert ("+" + StripCR(text))[0] == '+' && ("+" + StripCR(text))[1..] == StripCR(text);
    case Removed(text) =>
      StripPrefixed("-", text);
      assert ("-" + StripCR(text))[0] == '-';
    case NoEndOfLine =>
      assert PrintLine(l)[0] == '\\' && StripCR(PrintLine(l)) == PrintLine(l);
  }

  lemma {:induction false} StripConcat(a: seq<string>, b: seq<string>)
    ensures StripAll(a + b) == StripAll(a) + StripAll(b)
  {
  }

  lemma {:induction false} FoldThen(st: Scan, a: seq<string>, b: seq<string>)
    ensures Fold(st, StripAll(a + b)) == Fold(Fold(st, StripAll(a)), StripAll(b))
  {
    StripConcat(a, b);
    FoldConcat(st, StripAll(a), StripAll(b));
  }

  lemma {:induction false} Assoc<T>(a: seq<T>, b: seq<T>, c: seq<T>)
    ensures (a + b) + c == a + (b + c)
  {
  }

  lemma {:induction false} BodyFold(st: Scan, lines: seq<Line>)
    requires st.inHunk && (st.path != "" || NoneAdded(lines))
    ensures Fold(st, StripAll(PrintBody(lines))) == st.(added := st.added + Stripped(AddedIn(st.path, lines)))
  {
    if lines == [] {
      assert StripAll(PrintBody(lines)) == [] && Stripped([]) == [];
      assert st.added + [] == st.added;
    } else {
      var front, last := lines[..|lines| - 1], lines[|lines| - 1];
      BodyFold(st, front);
      var mid := st.(added := st.added + Stripped(AddedIn(st.path, front)));
      var more := if last.Added? then [AddedLine(st.path, last.text)] else [];
      BodyStep(mid, last);
      StrippedConcat(AddedIn(st.path, front), more);
      Assoc(st.added, Stripped(AddedIn(st.path, front)), Stripped(more));
      FoldThen(st, PrintBody(front), [PrintLine(last)]);
      FoldOne(mid, PrintLine(last));
    }
  }

  lemma {:induction false} FoldOne(st: Scan, line: string)
    ensures Fold(st, StripAll([line])) == Step(st, StripCR(line))
  {
    assert StripAll([line]) == [StripCR(line)];
    assert [StripCR(line)][..0] == [];
  }

  lemma {:induction false} HunkHeaderStep(st: Scan, range: string)
    ensures Step(st, StripCR("@@" + range)) == st.(inHunk := true)
  {
    StripPrefixed("@@", range);
    var line := "@@" + StripCR(range);
    assert line[0] == '@' && "@@" <= line;
  }

  /** The state on entering a hunk, whether or not one came before. */
  lemma {:induction false} HunkFold(st: Scan, h: Hunk)
    requires st.path != "" || NoneAdded(h.lines)
    ensures Fold(st, StripAll(["@@" + h.range] + PrintBody(h.lines))) ==
      Scan(st.path, true, st.added + Stripped(AddedIn(st.path, h.lines)))
  {
    FoldThen(st, ["@@" + h.range], PrintBody(h.lines));
    FoldOne(st, "@@" + h.range);
    HunkHeaderStep(st, h.range);
    BodyFold(st.(inHunk := true), h.lines);
  }

  lemma {:induction false} HunksFold(st: Scan, hunks: seq<Hunk>)
    requires st.path != "" || forall i :: 0 <= i < |hunks| ==> NoneAdded(hunks[i].lines)
    ensures Fold(st, StripAll(PrintHunks(hunks))).added == st.added + Stripped(AddedInHunks(st.path, hunks))
    ensures Fold(st, StripAll(PrintHunks(hunks))).path == st.path
  {
    if hunks == [] {
      assert StripAll(PrintHunks(hunks)) == [] && Stripped([]) == [];
    } else {
      var front, last := hunks[..|hunks| - 1], hunks[|hunks| - 1];
      HunksFold(st, front);
      var text := ["@@" + last.range] + PrintBody(last.lines);
      FoldThen(st, PrintHunks(front), text);
      HunkFold(Fold(st, StripAll(PrintHunks(front))), last);
      StrippedConcat(AddedInHunks(st.path, front), AddedIn(st.path, last.lines));
      Assoc(st.added, Stripped(AddedInHunks(st.path, front)), Stripped(AddedIn(st.path, last.lines)));
    }
  }

  lemma {:induction false} ExtendedFold(st: Scan, extended: seq<string>)
    requires !st.inHunk && forall i :: 0 <= i < |extended| ==> HeaderOk(extended[i])
    ensures Fold(st, StripAll(extended)) == st
  {
    if extended == [] {
      assert StripAll(extended) == [];
    } else {
      var front, last := extended[..|extended| - 1], extended[|extended| - 1];
      ExtendedFold(st, front);
      assert extended == front + [last];
      FoldThen(st, front, [last]);
      FoldOne(st, last);
      HeaderIgnored(st, last);
    }
  }

  lemma {:induction false} HeaderIgnored(st: Scan, line: string)
    requires !st.inHunk && HeaderOk(line)
    ensures Step(st, line) == st
  {
    assert "+++ b/"[..4] == "+++ " && "+++ /dev/null"[..4] == "+++ ";
  }

  lemma {:induction false} FileHeaderStep(st: Scan, names: string)
    ensures Step(st, StripCR("diff --git " + names)) == Scan("", false, st.added)
  {
    StripPrefixed("diff --git ", names);
  }

  lemma {:induction false} PlainTail(path: string) returns (tail: string)
    requires TargetOk(Plain(path))
    ensures PrintTarget(Plain(path)) == "+++ b/" + tail && TrimTab(tail) == path && tail != "" && tail[|tail| - 1] != '\r'
  {
    tail := path + (if ' ' in path then "\t" else "");
    assert path[|path| - 1] in path;
    assert PrintTarget(Plain(path)) == "+++ b/" + tail;
  }

  lemma {:induction false} PlainStep(st: Scan, path: string)
    requires !st.inHunk && TargetOk(Plain(path))
    ensures Step(st, StripCR(PrintTarget(Plain(path)))) == st.(path := path)
  {
    var tail := PlainTail(path);
    var line := "+++ b/" + tail;
    assert line[|line| - 1] == tail[|tail| - 1];
    assert line[0] == '+' && line[4] == 'b' && line[6..] == tail;
  }

  lemma {:induction false} QuotedStep(st: Scan, raw: string)
    requires !st.inHunk && TargetOk(Quoted(raw))
    ensures Step(st, StripCR(PrintTarget(Quoted(raw)))) == st.(path := raw)
  {
    var line := "+++ " + raw;
    assert line[|line| - 1] == '"' && line[4] == '"' && line[0] == '+';
    assert line[4..] == raw;
  }

  lemma {:induction false} TargetStep(st: Scan, t: Target)
    requires !st.inHunk && TargetOk(t)
    ensures Step(st, StripCR(PrintTarget(t))) == st.(path := PathOf(t))
  {
    match t
    case Plain(path) => PlainStep(st, path);
    case Quoted(raw) => QuotedStep(st, raw);
    case Gone =>
      var line := PrintTarget(t);
      assert line[0] == '+' && line[|line| - 1] == 'l' && StripCR(line) == line;
  }

  lemma {:induction false} HeadFold(st: Scan, f: FileDiff)
    requires FileOk(f)
    ensures Fold(st, StripAll(["diff --git " + f.names] + f.extended)) == Scan("", false, st.added)
  {
    var first := ["diff --git " + f.names];
    FoldThen(st, first, f.extended);
    FoldOne(st, "diff --git " + f.names);
    FileHeaderStep(st, f.names);
    ExtendedFold(Scan("", false, st.added), f.extended);
  }

  lemma {:induction false} FileFold(st: Scan, f: FileDiff)
    requires FileOk(f)
    ensures Fold(st, StripAll(PrintFile(f))).added == st.added + Stripped(AddedInFile(f))
  {
    var head := ["diff --git " + f.names] + f.extended;
    var clean := Scan("", false, st.added);
    HeadFold(st, f);
    if f.NoText? {
      assert PrintFile(f) == head && Stripped([]) == [];
      assert st.added + [] == st.added;
    } else {
      var target := PrintTarget(f.target);
      assert PrintFile(f) == head + ([target] + PrintHunks(f.hunks));
      FoldThen(st, head, [target] + PrintHunks(f.hunks));
      FoldThen(clean, [target], PrintHunks(f.hunks));
      FoldOne(clean, target);
      TargetStep(clean, f.target);
      HunksFold(clean.(path := PathOf(f.target)), f.hunks);
    }
  }

  lemma {:induction false} DiffFold(st: Scan, d: seq<FileDiff>)
    requires DiffOk(d)
    ensures Fold(st, StripAll(PrintDiff(d))).added == st.added + Stripped(AddedBy(d))
  {
    if d == [] {
      assert StripAll(PrintDiff(d)) == [] && Stripped([]) == [];
    } else {
      var front, last := d[..|d| - 1], d[|d| - 1];
      DiffFold(st, front);
      FoldThen(st, PrintDiff(front), PrintFile(last));
      FileFold(Fold(st, StripAll(PrintDiff(front))), last);
      StrippedConcat(AddedBy(front), AddedInFile(last));
      Assoc(st.added, Stripped(AddedBy(front)), Stripped(AddedInFile(last)));
    }
  }

  lemma {:induction false} BodyNoNewlines(lines: seq<Line>)
    requires forall i :: 0 <= i < |lines| ==> LineOk(lines[i])
    ensures NoNewlines(PrintBody(lines))
  {
    if lines == [] {
    } else {
      BodyNoNewlines(lines[..|lines| - 1]);
      assert LineOk(lines[|lines| - 1]);
    }
  }

  lemma {:induction false} HunksNoNewlines(hunks: seq<Hunk>)
    requires forall i :: 0 <= i < |hunks| ==> HunkOk(hunks[i])
    ensures NoNewlines(PrintHunks(hunks))
  {
    if hunks == [] {
    } else {
      HunksNoNewlines(hunks[..|hunks| - 1]);
      assert HunkOk(hunks[|hunks| - 1]);
      BodyNoNewlines(hunks[|hunks| - 1].lines);
    }
  }

  lemma {:induction false} FileNoNewlines(f: FileDiff)
    requires FileOk(f)
    ensures NoNewlines(PrintFile(f))
  {
    assert '\n' !in "diff --git " + f.names;
    if f.Text? {
      HunksNoNewlines(f.hunks);
      assert '\n' !in PrintTarget(f.target);
    }
  }

  lemma {:induction false} DiffNoNewlines(d: seq<FileDiff>)
    requires DiffOk(d)
    ensures NoNewlines(PrintDiff(d))
  {
    if d == [] {
    } else {
      DiffNoNewlines(d[..|d| - 1]);
      FileNoNewlines(d[|d| - 1]);
    }
  }

  /** Scanning the printed form of any diff gives exactly the lines it adds, with their paths, in order,
      whatever the content looks like; only a carriage return at the end of a line is lost. */
  lemma {:induction false} RoundTrip(d: seq<FileDiff>)
    requires DiffOk(d)
    ensures Fold(START, SplitLines(Unlines(PrintDiff(d)))).added == Stripped(AddedBy(d))
  {
    DiffNoNewlines(d);
    SplitUnlines(PrintDiff(d));
    DiffFold(START, d);
  }

  /** Scanning a printed diff gives back its added lines unchanged exactly if none of them ends in a carriage
      return. */
  lemma {:induction false} ExactIff(d: seq<FileDiff>)
    requires DiffOk(d)
    ensures Fold(START, SplitLines(Unlines(PrintDiff(d)))).added == AddedBy(d) <==>
      forall x :: x in AddedBy(d) ==> !EndsInCR(x.text)
  {
    RoundTrip(d);
    if Stripped(AddedBy(d)) == AddedBy(d) {
      forall i | 0 <= i < |AddedBy(d)| ensures StripCR(AddedBy(d)[i].text) == AddedBy(d)[i].text {
        assert Stripped(AddedBy(d))[i] == AddedBy(d)[i];
      }
    }
  }

  // ----- The content policy -----

  /** The identity checks are parameters. */
  datatype Policy = Policy(
    emailAllowed: string -> bool, extraCommitters: seq<string>, sameFold: (string, string) -> bool,
    skip: seq<string>, markers: MarkerSet)

  datatype Commit = Commit(hash: string, author: string, committer: string, message: string, added: seq<AddedLine>)

  datatype Finding =
    | AuthorEmail(hash: string) | CommitterEmail(hash: string)
    | MessageMarker(hash: string, marker: string) | ContentMarker(hash: string, path: string, marker: string)

  predicate Skipped(path: string, prefixes: seq<string>) {
    exists i :: 0 <= i < |prefixes| && prefixes[i] <= path
  }

  method SkipPath(path: string, prefixes: seq<string>) returns (skip: bool)
    ensures skip <==> exists i :: 0 <= i < |prefixes| && prefixes[i] <= path
  {
    for i := 0 to |prefixes|
      invariant forall k :: 0 <= k < i ==> !(prefixes[k] <= path)
    {
      if prefixes[i] <= path {
        return true;
      }
    }
    return false;
  }

  predicate Violates(line: AddedLine, p: Policy) {
    !Skipped(line.path, p.skip) && FirstMarker(p.markers, line.text) != ""
  }

  /** One finding per violating line, in order. */
  function ContentFindings(hash: string, added: seq<AddedLine>, p: Policy): seq<Finding> {
    if added == [] then []
    else
      var line := added[|added| - 1];
      ContentFindings(hash, added[..|added| - 1], p) +
      if Violates(line, p) then [ContentMarker(hash, line.path, FirstMarker(p.markers, line.text))] else []
  }

  predicate CommitterOk(email: string, p: Policy) {
    p.emailAllowed(email) || exists i :: 0 <= i < |p.extraCommitters| && p.sameFold(email, p.extraCommitters[i])
  }

  method CommitterAllowed(email: string, p: Policy) returns (ok: bool)
    ensures ok <==> CommitterOk(email, p)
  {
    ok := p.emailAllowed(email);
    for i := 0 to |p.extraCommitters|
      invariant ok <==> p.emailAllowed(email) || exists k :: 0 <= k < i && p.sameFold(email, p.extraCommitters[k])
    {
      if p.sameFold(email, p.extraCommitters[i]) {
        return true;
      }
    }
  }

  function IdentityFindings(c: Commit, p: Policy): seq<Finding> {
    (if p.emailAllowed(c.author) then [] else [AuthorEmail(c.hash)]) +
    (if CommitterOk(c.committer, p) then [] else [CommitterEmail(c.hash)]) +
    (if FirstMarker(p.markers, c.message) == "" then [] else [MessageMarker(c.hash, FirstMarker(p.markers, c.message))])
  }

  /** Each identity finding is there exactly for its cause. */
  lemma {:induction false} IdentityExact(c: Commit, p: Policy, content: seq<Finding>)
    requires content == ContentFindings(c.hash, c.added, p)
    ensures var all := IdentityFindings(c, p) + content;
      && (AuthorEmail(c.hash) in all <==> !p.emailAllowed(c.author))
      && (CommitterEmail(c.hash) in all <==> !CommitterOk(c.committer, p))
      && ((exists m :: MessageMarker(c.hash, m) in all) <==> FirstMarker(p.markers, c.message) != "")
  {
    forall f | f in content ensures f.ContentMarker? {
      ContentFindingsMembers(c.hash, c.added, p, f);
    }
    assert FirstMarker(p.markers, c.message) != "" ==>
      MessageMarker(c.hash, FirstMarker(p.markers, c.message)) in IdentityFindings(c, p);
  }

  method CheckCommit(c: Commit, p: Policy) returns (findings: seq<Finding>)
    ensures findings == IdentityFindings(c, p) + ContentFindings(c.hash, c.added, p)
    ensures findings == [] <==> IdentityFindings(c, p) == [] && forall i :: 0 <= i < |c.added| ==> !Violates(c.added[i], p)
    ensures AuthorEmail(c.hash) in findings <==> !p.emailAllowed(c.author)
    ensures CommitterEmail(c.hash) in findings <==>
      !p.emailAllowed(c.committer) && forall i :: 0 <= i < |p.extraCommitters| ==> !p.sameFold(c.committer, p.extraCommitters[i])
    ensures (exists m :: MessageMarker(c.hash, m) in findings) <==> FirstMarker(p.markers, c.message) != ""
  {
    findings := [];
    if !p.emailAllowed(c.author) {
      findings := findings + [AuthorEmail(c.hash)];
    }
    var committerOk := CommitterAllowed(c.committer, p);
    if !committerOk {
      findings := findings + [CommitterEmail(c.hash)];
    }
    var m := Match(p.markers, c.message);
    if m != "" {
      findings := findings + [MessageMarker(c.hash, m)];
    }
    assert findings == IdentityFindings(c, p);
    var content := CheckContent(c.hash, c.added, p);
    findings := findings + content;
    ContentFindingsEmpty(c.hash, c.added, p);
    IdentityExact(c, p, content);
  }

  /** The loop over the added lines. */
  method CheckContent(hash: string, added: seq<AddedLine>, p: Policy) returns (findings: seq<Finding>)
    ensures findings == ContentFindings(hash, added, p)
  {
    findings := [];
    for i := 0 to |added|
      invariant findings == ContentFindings(hash, added[..i], p)
    {
      assert added[..i + 1][..i] == added[..i];
      var skip := SkipPath(added[i].path, p.skip);
      if skip {
        continue;
      }
      var m := Match(p.markers, added[i].text);
      if m != "" {
        findings := findings + [ContentMarker(hash, added[i].path, m)];
      }
    }
    assert added[..|added|] == added;
  }

  lemma {:induction false} ContentFindingsEmpty(hash: string, added: seq<AddedLine>, p: Policy)
    ensures ContentFindings(hash, added, p) == [] <==> forall i :: 0 <= i < |added| ==> !Violates(added[i], p)
  {
    if added == [] {
    } else {
      ContentFindingsEmpty(hash, added[..|added| - 1], p);
      assert forall i :: 0 <= i < |added| - 1 ==> added[..|added| - 1][i] == added[i];
    }
  }

  lemma {:induction false} ContentFindingsMembers(hash: string, added: seq<AddedLine>, p: Policy, f: Finding)
    ensures f in ContentFindings(hash, added, p) <==>
      exists line :: line in added && Violates(line, p) && f == ContentMarker(hash, line.path, FirstMarker(p.markers, line.text))
  {
    if added == [] {
    } else {
      var front, last := added[..|added| - 1], added[|added| - 1];
      ContentFindingsMembers(hash, front, p, f);
      assert added == front + [last];
    }
  }

  /** Line `k` of hunk `j` of file `i` adds `text` under `path`. */
  predicate Adds(d: seq<FileDiff>, i: nat, j: nat, k: nat, path: string, text: string) {
    && i < |d| && d[i].Text? && j < |d[i].hunks| && k < |d[i].hunks[j].lines|
    && d[i].hunks[j].lines[k] == Added(text) && PathOf(d[i].target) == path
  }

  lemma {:induction false} AddedInMember(path: string, lines: seq<Line>, k: nat)
    requires k < |lines| && lines[k].Added?
    ensures AddedLine(path, lines[k].text) in AddedIn(path, lines)
  {
    if k == |lines| - 1 {
    } else {
      AddedInMember(path, lines[..|lines| - 1], k);
    }
  }

  lemma {:induction false} AddedInHunksMember(path: string, hunks: seq<Hunk>, j: nat, x: AddedLine)
    requires j < |hunks| && x in AddedIn(path, hunks[j].lines)
    ensures x in AddedInHunks(path, hunks)
  {
    if j == |hunks| - 1 {
    } else {
      AddedInHunksMember(path, hunks[..|hunks| - 1], j, x);
    }
  }

  lemma {:induction false} AddedByMember(d: seq<FileDiff>, i: nat, x: AddedLine)
    requires i < |d| && x in AddedInFile(d[i])
    ensures x in AddedBy(d)
  {
    if i == |d| - 1 {
    } else {
      AddedByMember(d[..|d| - 1], i, x);
    }
  }

  /** Dropping the carriage return hides no marker that does not itself end in one. */
  lemma {:induction false} StripKeepsMarkers(text: string, part: string)
    requires PlainOk(part)
    ensures Contains(StripCR(text), part) <==> Contains(text, part)
  {
    var short := StripCR(text);
    if Contains(text, part) {
      var i: nat :| i <= |text| && OccursAt(text, part, i);
      assert text[i..i + |part|][|part| - 1] == part[|part| - 1];
      assert i + |part| <= |short| && short[i..i + |part|] == text[i..i + |part|];
      assert OccursAt(short, part, i);
    }
    if Contains(short, part) {
      var i: nat :| i <= |short| && OccursAt(short, part, i);
      assert short[i..i + |part|] == text[i..i + |part|];
      assert OccursAt(text, part, i);
    }
  }

  /** The findings on a diff, from its printed form. */
  function FindingsOn(d: seq<FileDiff>, hash: string, p: Policy): seq<Finding> {
    ContentFindings(hash, Fold(START, SplitLines(Unlines(PrintDiff(d)))).added, p)
  }

  /** The line as scanned has a marker exactly if the added line contains a plain one or an expression matches
      the line without its carriage return. */
  lemma {:induction false} ScannedMarkers(m: MarkerSet, text: string)
    requires MarkersOk(m)
    ensures FirstMarker(m, StripCR(text)) != "" <==> HasSubstring(m, text) || HasRegexp(m, StripCR(text))
  {
    LowerStrip(m.fold, text);
    forall i | 0 <= i < |m.substrings|
      ensures Contains(Lower(m.fold, StripCR(text)), m.substrings[i]) <==> Contains(Lower(m.fold, text), m.substrings[i])
    {
      StripKeepsMarkers(Lower(m.fold, text), m.substrings[i]);
    }
  }

  lemma {:induction false} LowerStrip(fold: char -> char, text: string)
    requires FoldOk(fold)
    ensures Lower(fold, StripCR(text)) == StripCR(Lower(fold, text))
  {
    if text != "" {
      assert Lower(fold, text)[|text| - 1] == fold(text[|text| - 1]);
    }
  }

  /** From a commit's printed diff to its findings: every added line that contains a plain marker, or that an
      expression matches without its carriage return, is reported under its path unless the path is skipped. */
  lemma {:induction false} NoMarkerSlipsThrough(d: seq<FileDiff>, i: nat, j: nat, k: nat, path: string, text: string,
                                                hash: string, p: Policy) returns (m: string)
    requires DiffOk(d) && MarkersOk(p.markers) && Adds(d, i, j, k, path, text) && !Skipped(path, p.skip)
    requires HasSubstring(p.markers, text) || HasRegexp(p.markers, StripCR(text))
    ensures m != "" && ContentMarker(hash, path, m) in FindingsOn(d, hash, p)
  {
    RoundTrip(d);
    ScannedMarkers(p.markers, text);
    m := FirstMarker(p.markers, StripCR(text));
    var x := AddedLine(path, text);
    AddedInMember(path, d[i].hunks[j].lines, k);
    AddedInHunksMember(path, d[i].hunks, j, x);
    AddedByMember(d, i, x);
    var n :| 0 <= n < |AddedBy(d)| && AddedBy(d)[n] == x;
    var seen := Stripped(AddedBy(d))[n];
    assert seen in Stripped(AddedBy(d)) && Violates(seen, p);
    ContentFindingsMembers(hash, Stripped(AddedBy(d)), p, ContentMarker(hash, path, m));
  }

  lemma {:induction false} AddedInFrom(path: string, lines: seq<Line>, x: AddedLine) returns (k: nat)
    requires x in AddedIn(path, lines)
    ensures k < |lines| && lines[k] == Added(x.text) && x.path == path
  {
    if x in AddedIn(path, lines[..|lines| - 1]) {
      k := AddedInFrom(path, lines[..|lines| - 1], x);
    } else {
      k := |lines| - 1;
    }
  }

  lemma {:induction false} AddedInHunksFrom(path: string, hunks: seq<Hunk>, x: AddedLine) returns (j: nat)
    requires x in AddedInHunks(path, hunks)
    ensures j < |hunks| && x in AddedIn(path, hunks[j].lines)
  {
    if x in AddedInHunks(path, hunks[..|hunks| - 1]) {
      j := AddedInHunksFrom(path, hunks[..|hunks| - 1], x);
    } else {
      j := |hunks| - 1;
    }
  }

  lemma {:induction false} AddedByFrom(d: seq<FileDiff>, x: AddedLine) returns (i: nat)
    requires x in AddedBy(d)
    ensures i < |d| && x in AddedInFile(d[i])
  {
    if x in AddedBy(d[..|d| - 1]) {
      i := AddedByFrom(d[..|d| - 1], x);
    } else {
      i := |d| - 1;
    }
  }

  /** And nothing else is reported: every content finding goes back to such a line. */
  lemma {:induction false} NoFalseAlarm(d: seq<FileDiff>, hash: string, p: Policy, f: Finding)
      returns (i: nat, j: nat, k: nat, text: string)
    requires DiffOk(d) && MarkersOk(p.markers) && f in FindingsOn(d, hash, p)
    ensures f.ContentMarker? && f.hash == hash && Adds(d, i, j, k, f.path, text) && !Skipped(f.path, p.skip)
    ensures HasSubstring(p.markers, text) || HasRegexp(p.markers, StripCR(text))
  {
    RoundTrip(d);
    var added := AddedBy(d);
    ContentFindingsMembers(hash, Stripped(added), p, f);
    var line :|
      line in Stripped(added) && Violates(line, p) && f == ContentMarker(hash, line.path, FirstMarker(p.markers, line.text));
    var n :| 0 <= n < |added| && Stripped(added)[n] == line;
    var x := added[n];
    i := AddedByFrom(d, x);
    j := AddedInHunksFrom(PathOf(d[i].target), d[i].hunks, x);
    k := AddedInFrom(PathOf(d[i].target), d[i].hunks[j].lines, x);
    text := x.text;
    ScannedMarkers(p.markers, text);
  }

  /** A quoted path is never exempt: no skip prefix starts with a quote. */
  lemma {:induction false} QuotedNeverSkipped(raw: string, prefixes: seq<string>)
    requires TargetOk(Quoted(raw))
    requires forall i :: 0 <= i < |prefixes| ==> prefixes[i] != "" && prefixes[i][0] != '"'
    ensures !Skipped(PathOf(Quoted(raw)), prefixes)
  {
  }
}
