/**
 The zero-context unified-diff parser: which head-side lines of each file a patch touches. Hunk counts,
 not line contents, decide what is a header.
 */
module DiffParser {
  import opened Prelude
  import opened Decimal
  import Intervals

  datatype Refusal = MalformedHunk | MalformedHeader | TruncatedHunk

  datatype State = State(result: map<string, set<int>>, current: Option<string>, oldLeft: int, newLeft: int)

  const NO_NEWLINE := "\\ No newline at end of file"

  predicate StartsWith(line: string, prefix: string) {
    prefix <= line
  }

  // ----- hunk headers -----------------------------------------------------------------------------------

  /** The leading digits of a text. */
  function DigitSpan(s: string): (n: nat)
    ensures n <= |s| && AllDigits(s[..n]) && Stops(s[n..])
  {
    if s == [] || !IsDigit(s[0]) then 0
    else
      var n := 1 + DigitSpan(s[1..]);
      assert s[..n] == [s[0]] + s[1..][..n - 1] && s[n..] == s[1..][n - 1..];
      n
  }

  datatype Read = Read(value: nat, rest: string)

  function ReadNumber(s: string): Option<Read> {
    var n := DigitSpan(s);
    if n == 0 then None else Some(Read(Value(s[..n]), s[n..]))
  }

  /** An optional count after a comma; one line when it is left out. */
  function ReadCount(s: string): Read {
    if s != [] && s[0] == ',' && ReadNumber(s[1..]).Some? then ReadNumber(s[1..]).value else Read(1, s)
  }

  function Expect(s: string, prefix: string): Option<string> {
    if prefix <= s then Some(s[|prefix|..]) else None
  }

  datatype Header = Header(oldCount: nat, start: nat, newCount: nat)

  function ReadHeader(line: string): Option<Header> {
    var a := Expect(line, "@@ -");
    if a.None? then None
    else
      var oldStart := ReadNumber(a.value);
      if oldStart.None? then None
      else
        var oldCount := ReadCount(oldStart.value.rest);
        var b := Expect(oldCount.rest, " +");
        if b.None? then None
        else
          var start := ReadNumber(b.value);
          if start.None? then None
          else
            var newCount := ReadCount(start.value.rest);
            if Expect(newCount.rest, " @@").None? then None
            else Some(Header(oldCount.value, start.value.value, newCount.value))
  }

  // ----- the parser -------------------------------------------------------------------------------------

  function FileName(line: string): string
    requires |line| >= 6
  {
    var name := line[6..];
    if ' ' in name && name[|name| - 1] == '\t' then name[..|name| - 1] else name
  }

  function LinesOf(result: map<string, set<int>>, name: string): set<int> {
    if name in result then result[name] else {}
  }

  function Touch(result: map<string, set<int>>, name: string, lines: set<int>): map<string, set<int>> {
    result[name := LinesOf(result, name) + lines]
  }

  function BodyLine(s: State, line: string): Result<State, Refusal> {
    if StartsWith(line, NO_NEWLINE) then Ok(s)
    else
      var t :=
        if StartsWith(line, " ") then s.(oldLeft := s.oldLeft - 1, newLeft := s.newLeft - 1)
        else if StartsWith(line, "-") then s.(oldLeft := s.oldLeft - 1)
        else s.(newLeft := s.newLeft - 1);
      if !(StartsWith(line, " ") || StartsWith(line, "-") || StartsWith(line, "+")) || t.oldLeft < 0 || t.newLeft < 0
      then Err(MalformedHunk) else Ok(t)
  }

  function HeadLine(s: State, line: string): Result<State, Refusal> {
    if StartsWith(line, "+++ b/") then
      var name := FileName(line);
      if StartsWith(name, "\"") || '\\' in name then Ok(s.(current := None))
      else Ok(s.(current := Some(name), result := Touch(s.result, name, {})))
    else if StartsWith(line, "+++ ") then Ok(s.(current := None))
    else if StartsWith(line, "@@ ") then
      var header := ReadHeader(line);
      if header.None? then Err(MalformedHeader)
      else
        var Header(oldCount, start, newCount) := header.value;
        var lines := Intervals.Range(start, start + newCount - 1);
        Ok(s.(oldLeft := oldCount, newLeft := newCount,
              result := if s.current.Some? && s.current.value != "" then Touch(s.result, s.current.value, lines)
                  else s.result))
    else Ok(s)
  }

  function Step(s: State, line: string): Result<State, Refusal> {
    if s.oldLeft != 0 || s.newLeft != 0 then BodyLine(s, line) else HeadLine(s, line)
  }

  function Run(s: State, lines: seq<string>): Result<State, Refusal>
    decreases |lines|
  {
    if lines == [] then Ok(s)
    else
      var next := Step(s, lines[0]);
      if next.Err? then next else Run(next.value, lines[1..])
  }

  const START := State(map[], None, 0, 0)

  function Parse(lines: seq<string>): Result<map<string, set<int>>, Refusal> {
    var end := Run(START, lines);
    if end.Err? then Err(end.error)
    else if end.value.oldLeft != 0 || end.value.newLeft != 0 then Err(TruncatedHunk)
    else Ok(end.value.result)
  }

  /** The loop of the source over the lines of the patch. */
  method ChangedIntervals(lines: seq<string>) returns (changed: Result<map<string, set<int>>, Refusal>)
    ensures changed == Parse(lines)
  {
    hide Step;
    var s := START;
    assert lines[0..] == lines;
    for i := 0 to |lines|
      invariant Run(START, lines) == Run(s, lines[i..])
    {
      assert lines[i..][1..] == lines[i + 1..];
      var next := Step(s, lines[i]);
      if next.Err? {
        return Err(next.error);
      }
      s := next.value;
    }
    if s.oldLeft != 0 || s.newLeft != 0 {
      return Err(TruncatedHunk);
    }
    changed := Ok(s.result);
  }

  lemma {:induction false} RunConcat(s: State, a: seq<string>, b: seq<string>)
    ensures Run(s, a + b) == var mid := Run(s, a); if mid.Err? then mid else Run(mid.value, b)
    decreases |a|
  {
    hide Step;
    if a == [] {
      assert a + b == b;
    } else {
      assert (a + b)[1..] == a[1..] + b;
      if Step(s, a[0]).Ok? {
        RunConcat(Step(s, a[0]).value, a[1..], b);
      }
    }
  }

  // ----- the printer ------------------------------------------------------------------------------------

  /** A zero-context hunk: removed lines, then added lines, each side possibly ending without a newline. */
  datatype Hunk = Hunk(oldStart: nat, oldLines: seq<string>, oldMarker: bool,
                       newStart: nat, newLines: seq<string>, newMarker: bool, heading: string)

  /** Plain: a name git prints unquoted. Other: a deleted file, or a quoted name. Bare: no text change. */
  datatype File =
    | Plain(prelude: seq<string>, name: string, hunks: seq<Hunk>)
    | Other(prelude: seq<string>, target: string, hunks: seq<Hunk>)
    | Bare(prelude: seq<string>)

  function CountText(n: nat): string {
    if n == 1 then "" else "," + Numeral(n)
  }

  function HeaderText(h: Hunk): string {
    "@@ -" + (Numeral(h.oldStart) + (CountText(|h.oldLines|) +
    (" +" + (Numeral(h.newStart) + (CountText(|h.newLines|) + (" @@" + h.heading))))))
  }

  function Prefixed(mark: string, lines: seq<string>): seq<string> {
    if lines == [] then [] else [mark + lines[0]] + Prefixed(mark, lines[1..])
  }

  function Marker(present: bool): seq<string> {
    if present then [NO_NEWLINE] else []
  }

  function HunkLines(h: Hunk): seq<string> {
    [HeaderText(h)] +
        (Prefixed("-", h.oldLines) + (Marker(h.oldMarker) + (Prefixed("+", h.newLines) + Marker(h.newMarker))))
  }

  function AllHunks(hunks: seq<Hunk>): seq<string> {
    if hunks == [] then [] else HunkLines(hunks[0]) + AllHunks(hunks[1..])
  }

  function NameLine(f: File): seq<string> {
    match f
    case Plain(_, name, _) => ["+++ b/" + name + (if ' ' in name then "\t" else "")]
    case Other(_, target, _) => ["+++ " + target]
    case Bare(_) => []
  }

  function Hunks(f: File): seq<Hunk> {
    if f.Bare? then [] else f.hunks
  }

  function FileLines(f: File): seq<string> {
    f.prelude + (NameLine(f) + AllHunks(Hunks(f)))
  }

  function PatchLines(files: seq<File>): seq<string> {
    if files == [] then [] else FileLines(files[0]) + PatchLines(files[1..])
  }

  /** What git guarantees of its own headers; line contents and hunk headings are arbitrary. */
  predicate Printable(f: File) {
    && (forall line <- f.prelude :: !StartsWith(line, "+++ ") && !StartsWith(line, "@@ "))
    && (f.Plain? ==> f.name != "" && !StartsWith(f.name, "\"") && '\\' !in f.name && '\t' !in f.name)
    && (f.Other? ==> !StartsWith(f.target, "b/"))
  }

  function AddedLines(h: Hunk): set<int> {
    Intervals.Range(h.newStart, h.newStart + |h.newLines| - 1)
  }

  function AllAdded(hunks: seq<Hunk>): set<int> {
    if hunks == [] then {} else AddedLines(hunks[0]) + AllAdded(hunks[1..])
  }

  /** The head-side lines of each plainly named file, its hunks united. */
  function HeadSide(result: map<string, set<int>>, files: seq<File>): map<string, set<int>>
    decreases |files|
  {
    if files == [] then result
    else HeadSide(if files[0].Plain? then Touch(result, files[0].name, AllAdded(files[0].hunks))
                  else result, files[1..])
  }

  // ----- the parser inverts the printer -----------------------------------------------------------------

  lemma NumberReads(n: nat, rest: string)
    requires Stops(rest)
    ensures ReadNumber(Numeral(n) + rest) == Some(Read(n, rest))
  {
    var s := Numeral(n) + rest;
    var k := DigitSpan(s);
    assert s[..k] + s[k..] == s;
    SameDigits(s[..k], Numeral(n), s[k..], rest);
    ValueOfNumeral(n);
  }

  lemma ExpectReads(prefix: string, rest: string)
    ensures Expect(prefix + rest, prefix) == Some(rest)
  {
  }

  lemma CountReads(n: nat, rest: string)
    requires rest != [] && rest[0] == ' '
    ensures ReadCount(CountText(n) + rest) == Read(n, rest) && Stops(CountText(n) + rest)
  {
    if n == 1 {
      assert CountText(n) + rest == rest;
    } else {
      assert (CountText(n) + rest)[1..] == Numeral(n) + rest;
      NumberReads(n, rest);
    }
  }

  lemma HeaderReads(h: Hunk)
    ensures ReadHeader(HeaderText(h)) == Some(Header(|h.oldLines|, h.newStart, |h.newLines|))
    ensures StartsWith(HeaderText(h), "@@ ") && !StartsWith(HeaderText(h), "+++ ")
  {
    hide ReadNumber, ReadCount, Expect, CountText, StartsWith;
    var tail := " @@" + h.heading;
    var newPart := Numeral(h.newStart) + (CountText(|h.newLines|) + tail);
    var middle := " +" + newPart;
    var oldPart := Numeral(h.oldStart) + (CountText(|h.oldLines|) + middle);
    assert HeaderText(h) == "@@ -" + oldPart;
    ExpectReads("@@ -", oldPart);
    CountReads(|h.oldLines|, middle);
    NumberReads(h.oldStart, CountText(|h.oldLines|) + middle);
    ExpectReads(" +", newPart);
    CountReads(|h.newLines|, tail);
    NumberReads(h.newStart, CountText(|h.newLines|) + tail);
    ExpectReads(" @@", h.heading);
    HeaderStarts(oldPart);
  }

  lemma HeaderStarts(rest: string)
    ensures StartsWith("@@ -" + rest, "@@ ") && !StartsWith("@@ -" + rest, "+++ ")
  {
    assert ("@@ -" + rest)[0] == '@';
  }

  lemma RemovedLineRuns(s: State, content: string)
    requires s.oldLeft > 0 && s.newLeft >= 0
    ensures Step(s, "-" + content) == Ok(s.(oldLeft := s.oldLeft - 1))
  {
    MarkedLine("-", content);
  }

  lemma AddedLineRuns(s: State, content: string)
    requires s.oldLeft >= 0 && s.newLeft > 0
    ensures Step(s, "+" + content) == Ok(s.(newLeft := s.newLeft - 1))
  {
    MarkedLine("+", content);
  }

  lemma {:induction false} RemovedLines(s: State, lines: seq<string>)
    requires s.oldLeft >= |lines| && s.newLeft >= 0
    ensures Run(s, Prefixed("-", lines)) == Ok(s.(oldLeft := s.oldLeft - |lines|))
    decreases |lines|
  {
    hide Step;
    if lines != [] {
      RemovedLineRuns(s, lines[0]);
      RemovedLines(s.(oldLeft := s.oldLeft - 1), lines[1..]);
      assert Prefixed("-", lines)[1..] == Prefixed("-", lines[1..]);
    }
  }

  lemma {:induction false} AddedLinesRun(s: State, lines: seq<string>)
    requires s.oldLeft >= 0 && s.newLeft >= |lines|
    ensures Run(s, Prefixed("+", lines)) == Ok(s.(newLeft := s.newLeft - |lines|))
    decreases |lines|
  {
    hide Step;
    if lines != [] {
      AddedLineRuns(s, lines[0]);
      AddedLinesRun(s.(newLeft := s.newLeft - 1), lines[1..]);
      assert Prefixed("+", lines)[1..] == Prefixed("+", lines[1..]);
    }
  }

  /** Whatever the content, a marked line is read by its mark. */
  lemma MarkedLine(mark: string, content: string)
    requires |mark| == 1
    ensures StartsWith(mark + content, mark) && (mark + content)[0] == mark[0]
    ensures forall p: string :: p != [] && p[0] != mark[0] ==> !StartsWith(mark + content, p)
  {
  }

  lemma MarkerRuns(s: State, present: bool)
    ensures Run(s, Marker(present)) == Ok(s)
  {
    if present {
      assert NO_NEWLINE[0] == '\\';
      assert [NO_NEWLINE][1..] == [];
    }
  }

  ghost predicate Between(s: State) {
    s.oldLeft == 0 && s.newLeft == 0
  }

  lemma BodyRuns(s: State, h: Hunk)
    requires s.oldLeft == |h.oldLines| && s.newLeft == |h.newLines|
    ensures Run(s, Prefixed("-", h.oldLines) +
                (Marker(h.oldMarker) + (Prefixed("+", h.newLines) + Marker(h.newMarker))))
            == Ok(s.(oldLeft := 0, newLeft := 0))
  {
    hide Run, Prefixed, Marker;
    var t := s.(oldLeft := 0);
    var u := t.(newLeft := 0);
    RemovedLines(s, h.oldLines);
    MarkerRuns(t, h.oldMarker);
    AddedLinesRun(t, h.newLines);
    MarkerRuns(u, h.newMarker);
    RunConcat(t, Prefixed("+", h.newLines), Marker(h.newMarker));
    RunConcat(t, Marker(h.oldMarker), Prefixed("+", h.newLines) + Marker(h.newMarker));
    RunConcat(s, Prefixed("-", h.oldLines), Marker(h.oldMarker) + (Prefixed("+", h.newLines) + Marker(h.newMarker)));
  }

  function Credit(s: State, lines: set<int>): State {
    if s.current.Some? && s.current.value != "" then s.(result := Touch(s.result, s.current.value, lines)) else s
  }

  lemma HeaderRuns(s: State, h: Hunk)
    requires Between(s)
    ensures Run(s, [HeaderText(h)]) == Ok(Credit(s, AddedLines(h)).(oldLeft := |h.oldLines|, newLeft := |h.newLines|))
  {
    HeaderReads(h);
    hide ReadHeader, HeaderText;
    HeaderIsNoName(h);
    assert [HeaderText(h)][1..] == [];
  }

  lemma HeaderIsNoName(h: Hunk)
    ensures !StartsWith(HeaderText(h), "+++ b/")
  {
    assert HeaderText(h)[0] == '@';
  }

  lemma HunkRuns(s: State, h: Hunk)
    requires Between(s)
    ensures Run(s, HunkLines(h)) == Ok(Credit(s, AddedLines(h)))
  {
    hide Run, Prefixed, Marker, HeaderText;
    var t := Credit(s, AddedLines(h)).(oldLeft := |h.oldLines|, newLeft := |h.newLines|);
    HeaderRuns(s, h);
    BodyRuns(t, h);
    RunConcat(s, [HeaderText(h)],
              Prefixed("-", h.oldLines) + (Marker(h.oldMarker) + (Prefixed("+", h.newLines) + Marker(h.newMarker))));
  }

  lemma {:induction false} HunksRun(s: State, hunks: seq<Hunk>)
    requires Between(s) && (s.current.Some? && s.current.value != "" ==> s.current.value in s.result)
    ensures Run(s, AllHunks(hunks)) == Ok(Credit(s, AllAdded(hunks)))
    decreases |hunks|
  {
    hide HunkLines;
    if hunks == [] {
      TouchNothing(s);
    } else {
      HunkRuns(s, hunks[0]);
      var t := Credit(s, AddedLines(hunks[0]));
      HunksRun(t, hunks[1..]);
      RunConcat(s, HunkLines(hunks[0]), AllHunks(hunks[1..]));
      TouchTwice(s, AddedLines(hunks[0]), AllAdded(hunks[1..]));
    }
  }

  lemma TouchNothing(s: State)
    requires s.current.Some? && s.current.value != "" ==> s.current.value in s.result
    ensures Credit(s, {}) == s
  {
    if s.current.Some? && s.current.value != "" {
      assert LinesOf(s.result, s.current.value) + {} == s.result[s.current.value];
      assert Touch(s.result, s.current.value, {}) == s.result;
    }
  }

  lemma TouchTwice(s: State, a: set<int>, b: set<int>)
    ensures Credit(Credit(s, a), b) == Credit(s, a + b)
  {
    if s.current.Some? {
      assert LinesOf(s.result, s.current.value) + a + b == LinesOf(s.result, s.current.value) + (a + b);
      assert Touch(Touch(s.result, s.current.value, a), s.current.value, b) == Touch(s.result, s.current.value, a + b);
    }
  }

  lemma LongerPrefix(line: string)
    ensures StartsWith(line, "+++ b/") ==> StartsWith(line, "+++ ")
  {
    assert "+++ " <= "+++ b/";
  }

  lemma {:induction false} PreludeRuns(s: State, prelude: seq<string>)
    requires Between(s) && forall line <- prelude :: !StartsWith(line, "+++ ") && !StartsWith(line, "@@ ")
    ensures Run(s, prelude) == Ok(s)
    decreases |prelude|
  {
    if prelude != [] {
      assert prelude[0] in prelude;
      LongerPrefix(prelude[0]);
      assert forall line <- prelude[1..] :: line in prelude;
      PreludeRuns(s, prelude[1..]);
    }
  }

  lemma NameLineReads(name: string)
    requires name != "" && '\t' !in name
    ensures var line := "+++ b/" + name + (if ' ' in name then "\t" else "");
            StartsWith(line, "+++ b/") && FileName(line) == name
  {
    var line := "+++ b/" + name + (if ' ' in name then "\t" else "");
    if ' ' in name {
      assert line[6..] == name + "\t";
      assert ' ' in name + "\t";
      assert (name + "\t")[..|name|] == name;
    } else {
      assert line[6..] == name;
    }
  }

  lemma OtherNameReads(target: string)
    requires !StartsWith(target, "b/")
    ensures StartsWith("+++ " + target, "+++ ") && !StartsWith("+++ " + target, "+++ b/")
  {
    var line := "+++ " + target;
    assert |target| < 2 || target[0] != 'b' || target[1] != '/';
    assert |line| < 6 || line[4] != 'b' || line[5] != '/';
    assert "+++ b/"[4] == 'b' && "+++ b/"[5] == '/';
  }

  lemma NameRuns(s: State, f: File)
    requires Between(s) && Printable(f)
    ensures Run(s, NameLine(f)) ==
            Ok(match f
               case Plain(_, name, _) => s.(current := Some(name), result := Touch(s.result, name, {}))
               case Other(_, _, _) => s.(current := None)
               case Bare(_) => s)
  {
    match f
    case Plain(_, name, _) =>
      NameLineReads(name);
      assert NameLine(f)[1..] == [];
    case Other(_, target, _) =>
      OtherNameReads(target);
      assert NameLine(f)[1..] == [];
    case Bare(_) =>
  }

  /** What one file leaves behind: its own lines credited, and whichever name it set. */
  lemma FileRuns(s: State, f: File)
    requires Between(s) && Printable(f)
    ensures var end := Run(s, FileLines(f));
            && end.Ok? && Between(end.value)
            && end.value.result == if f.Plain? then Touch(s.result, f.name, AllAdded(f.hunks)) else s.result
  {
    hide Run, AllHunks, NameLine;
    PreludeRuns(s, f.prelude);
    NameRuns(s, f);
    var t := Run(s, NameLine(f)).value;
    RunConcat(s, f.prelude, NameLine(f) + AllHunks(Hunks(f)));
    RunConcat(s, NameLine(f), AllHunks(Hunks(f)));
    if f.Bare? {
      NoHunks(t);
    } else {
      HunksRun(t, f.hunks);
      if f.Plain? {
        assert Credit(t, AllAdded(f.hunks)).result == Touch(Touch(s.result, f.name, {}), f.name, AllAdded(f.hunks));
        assert LinesOf(s.result, f.name) + {} + AllAdded(f.hunks) == LinesOf(s.result, f.name) + AllAdded(f.hunks);
      }
    }
  }

  lemma NoHunks(s: State)
    ensures Run(s, AllHunks([])) == Ok(s)
  {
  }

  lemma {:induction false} FilesRun(s: State, files: seq<File>)
    requires Between(s) && forall f <- files :: Printable(f)
    ensures var end := Run(s, PatchLines(files));
            end.Ok? && Between(end.value) && end.value.result == HeadSide(s.result, files)
    decreases |files|
  {
    hide FileLines;
    if files != [] {
      assert files[0] in files && forall f <- files[1..] :: f in files;
      FileRuns(s, files[0]);
      FilesRun(Run(s, FileLines(files[0])).value, files[1..]);
      RunConcat(s, FileLines(files[0]), PatchLines(files[1..]));
    }
  }

  /** Parsing what git prints gives exactly the head-side lines of every plainly named file. */
  lemma ParserInvertsPrinter(files: seq<File>)
    requires forall f <- files :: Printable(f)
    ensures Parse(PatchLines(files)) == Ok(HeadSide(map[], files))
  {
    FilesRun(START, files);
  }

  /** A line that cannot belong to a hunk body. */
  predicate Foreign(line: string) {
    !StartsWith(line, " ") && !StartsWith(line, "-") && !StartsWith(line, "+") && !StartsWith(line, NO_NEWLINE)
  }

  /** A hunk whose body stops short of its declared counts is refused, at the next foreign line or at the end. */
  lemma ShortBodyIsRefused(files: seq<File>, f: File, h: Hunk, removed: nat, added: nat, rest: seq<string>)
    requires (forall g <- files :: Printable(g)) && Printable(f) && !f.Bare?
    requires removed <= |h.oldLines| && added <= |h.newLines| && removed + added < |h.oldLines| + |h.newLines|
    requires rest == [] || Foreign(rest[0])
    ensures Parse(PatchLines(files) + (f.prelude + (NameLine(f) + ([HeaderText(h)] +
                  (Prefixed("-", h.oldLines[..removed]) + (Prefixed("+", h.newLines[..added]) + rest)))))).Err?
  {
    hide Run, NameLine, HeaderText, Prefixed, PatchLines;
    var minus, plus := Prefixed("-", h.oldLines[..removed]), Prefixed("+", h.newLines[..added]);
    FilesRun(START, files);
    var s := Run(START, PatchLines(files)).value;
    PreludeRuns(s, f.prelude);
    NameRuns(s, f);
    var t := Run(s, NameLine(f)).value;
    HeaderRuns(t, h);
    var u := Run(t, [HeaderText(h)]).value;
    RemovedLines(u, h.oldLines[..removed]);
    var v := u.(oldLeft := u.oldLeft - removed);
    AddedLinesRun(v, h.newLines[..added]);
    var w := v.(newLeft := v.newLeft - added);
    RunConcat(v, plus, rest);
    RunConcat(u, minus, plus + rest);
    RunConcat(t, [HeaderText(h)], minus + (plus + rest));
    RunConcat(s, NameLine(f), [HeaderText(h)] + (minus + (plus + rest)));
    RunConcat(s, f.prelude, NameLine(f) + ([HeaderText(h)] + (minus + (plus + rest))));
    RunConcat(START, PatchLines(files), f.prelude + (NameLine(f) + ([HeaderText(h)] + (minus + (plus + rest)))));
    Unfinished(w, rest);
  }

  lemma Unfinished(s: State, rest: seq<string>)
    requires (s.oldLeft > 0 || s.newLeft > 0) && s.oldLeft >= 0 && s.newLeft >= 0 && (rest == [] || Foreign(rest[0]))
    ensures Run(s, rest).Err? || Run(s, rest) == Ok(s)
  {
  }

  // ----- from text to lines -----------------------------------------------------------------------------

  /** A patch text: every line ends in a newline. */
  function Text(lines: seq<string>): string {
    if lines == [] then "" else lines[0] + "\n" + Text(lines[1..])
  }

  /** The pieces between newlines, the last one possibly empty. */
  function Split(text: string): (lines: seq<string>)
    ensures lines != []
  {
    if text == "" then [""]
    else
      var rest := Split(text[1..]);
      if text[0] == '\n' then [""] + rest else [[text[0]] + rest[0]] + rest[1..]
  }

  lemma {:induction false} SplitLine(line: string, rest: string)
    requires '\n' !in line
    ensures Split(line + "\n" + rest) == [line] + Split(rest)
  {
    if line == "" {
      assert (line + "\n" + rest)[1..] == rest;
      assert [""] + Split(rest) == [line] + Split(rest);
    } else {
      assert (line + "\n" + rest)[1..] == line[1..] + "\n" + rest;
      SplitLine(line[1..], rest);
      assert [line[0]] + line[1..] == line;
    }
  }

  lemma {:induction false} SplitText(lines: seq<string>)
    requires forall line <- lines :: '\n' !in line
    ensures Split(Text(lines)) == lines + [""]
  {
    if lines != [] {
      assert lines[0] in lines && forall line <- lines[1..] :: line in lines;
      SplitText(lines[1..]);
      SplitLine(lines[0], Text(lines[1..]));
      assert lines == [lines[0]] + lines[1..];
    }
  }

  /** The same inversion over the text of the patch, whose last newline leaves one empty piece to ignore. */
  lemma ParserInvertsPatchText(files: seq<File>)
    requires (forall f <- files :: Printable(f)) && forall line <- PatchLines(files) :: '\n' !in line
    ensures Parse(Split(Text(PatchLines(files)))) == Ok(HeadSide(map[], files))
  {
    hide PatchLines, HeadSide;
    SplitText(PatchLines(files));
    FilesRun(START, files);
    RunConcat(START, PatchLines(files), [""]);
    var s := Run(START, PatchLines(files)).value;
    assert [""][1..] == [];
    assert Step(s, "") == Ok(s);
  }

  // ----- what one line does, in terms of its text -------------------------------------------------------

  /** Digits, at least one. */
  predicate Number(s: string) {
    s != "" && AllDigits(s)
  }

  /** The text of a count: nothing for one line, or a comma and a number. */
  predicate CountFor(s: string, n: nat) {
    (s == "" && n == 1) || (s != "" && s[0] == ',' && Number(s[1..]) && n == Value(s[1..]))
  }

  /** A hunk header takes this form, whatever follows it. */
  ghost predicate HeaderForm(line: string, h: Header) {
    exists a, b, c, d, rest ::
      line == "@@ -" + (a + (b + (" +" + (c + (d + (" @@" + rest))))))
      && Number(a) && CountFor(b, h.oldCount) && Number(c) && Value(c) == h.start && CountFor(d, h.newCount)
  }

  lemma NumberSplits(s: string, n: string, rest: string)
    requires s == n + rest && Number(n) && Stops(rest)
    ensures ReadNumber(s) == Some(Read(Value(n), rest))
  {
    var k := DigitSpan(s);
    assert s[..k] + s[k..] == s;
    SameDigits(s[..k], n, s[k..], rest);
  }

  lemma CountSplits(s: string, b: string, n: nat, rest: string)
    requires s == b + rest && CountFor(b, n) && rest != "" && rest[0] == ' '
    ensures ReadCount(s) == Read(n, rest) && Stops(s)
  {
    if b != "" {
      assert s[1..] == b[1..] + rest;
      NumberSplits(s[1..], b[1..], rest);
    } else {
      assert s == rest;
    }
  }

  lemma ReadNumberSplits(s: string) returns (n: string)
    requires ReadNumber(s).Some?
    ensures Number(n) && s == n + ReadNumber(s).value.rest && Value(n) == ReadNumber(s).value.value
  {
    n := s[..DigitSpan(s)];
  }

  lemma ReadCountSplits(s: string) returns (b: string)
    ensures CountFor(b, ReadCount(s).value) && s == b + ReadCount(s).rest
  {
    b := "";
    if s != [] && s[0] == ',' && ReadNumber(s[1..]).Some? {
      var n := ReadNumberSplits(s[1..]);
      b := "," + n;
      assert b[1..] == n;
      assert s == [s[0]] + s[1..];
    }
  }

  /** Exactly the texts of the header form are read as headers, with the counts and the start they spell. */
  lemma HeaderIs(line: string, h: Header)
    ensures ReadHeader(line) == Some(h) <==> HeaderForm(line, h)
  {
    if HeaderForm(line, h) {
      var a, b, c, d, rest :| line == "@@ -" + (a + (b + (" +" + (c + (d + (" @@" + rest))))))
        && Number(a) && CountFor(b, h.oldCount) && Number(c) && Value(c) == h.start && CountFor(d, h.newCount);
      FormIsRead(line, h, a, b, c, d, rest);
    }
    if ReadHeader(line) == Some(h) {
      ReadIsForm(line, h);
    }
  }

  lemma FormIsRead(line: string, h: Header, a: string, b: string, c: string, d: string, rest: string)
    requires line == "@@ -" + (a + (b + (" +" + (c + (d + (" @@" + rest))))))
    requires Number(a) && CountFor(b, h.oldCount) && Number(c) && Value(c) == h.start && CountFor(d, h.newCount)
    ensures ReadHeader(line) == Some(h)
  {
    var tail := " @@" + rest;
    var newPart := c + (d + tail);
    var middle := " +" + newPart;
    ExpectReads("@@ -", a + (b + middle));
    CountSplits(b + middle, b, h.oldCount, middle);
    NumberSplits(a + (b + middle), a, b + middle);
    ExpectReads(" +", newPart);
    CountSplits(d + tail, d, h.newCount, tail);
    NumberSplits(newPart, c, d + tail);
    ExpectReads(" @@", rest);
  }

  lemma ReadIsForm(line: string, h: Header)
    requires ReadHeader(line) == Some(h)
    ensures HeaderForm(line, h)
  {
    hide Value, DigitSpan, ReadNumber, ReadCount;
    var first := Expect(line, "@@ -").value;
    var a := ReadNumberSplits(first);
    var before := ReadNumber(first).value.rest;
    var b := ReadCountSplits(before);
    var plus := ReadCount(before).rest;
    var newPart := Expect(plus, " +").value;
    var c := ReadNumberSplits(newPart);
    var count := ReadNumber(newPart).value.rest;
    var d := ReadCountSplits(count);
    var tail := ReadCount(count).rest;
    var rest := Expect(tail, " @@").value;
    assert line == "@@ -" + first && plus == " +" + newPart && tail == " @@" + rest;
    assert line == "@@ -" + (a + (b + (" +" + (c + (d + (" @@" + rest))))));
  }

  /** A line that opens a file: the name it spells, or None where it names none that can be used. */
  ghost predicate Names(line: string, name: Option<string>)
    requires "+++ " <= line
  {
    if "+++ b/" <= line then
      var raw := line[6..];
      var bare := if raw != "" && raw[|raw| - 1] == '\t' && ' ' in raw then raw[..|raw| - 1] else raw;
      name == if '\\' in bare || (bare != "" && bare[0] == '"') then None else Some(bare)
    else name.None?
  }

  /** What one line does where a hunk is open: it counts against the side it stands on, and may not overrun it. */
  ghost predicate Inside(s: State, line: string, r: Result<State, Refusal>) {
    var onOld := if line != "" && (line[0] == ' ' || line[0] == '-') then 1 else 0;
    var onNew := if line != "" && (line[0] == ' ' || line[0] == '+') then 1 else 0;
    if onOld + onNew == 0 then r == if NO_NEWLINE <= line then Ok(s) else Err(MalformedHunk)
    else if s.oldLeft < onOld || s.newLeft < onNew then r == Err(MalformedHunk)
    else r == Ok(State(s.result, s.current, s.oldLeft - onOld, s.newLeft - onNew))
  }

  /** A hunk header opens its hunk and credits its head-side lines to the file of the moment. */
  ghost predicate Opens(s: State, h: Header, t: State) {
    && t.current == s.current && t.oldLeft == h.oldCount && t.newLeft == h.newCount
    && (s.current.None? || s.current.value == "" ==> t.result == s.result)
    && (s.current.Some? && s.current.value != "" ==>
          && t.result.Keys == s.result.Keys + {s.current.value}
          && (forall name <- s.result :: name != s.current.value ==> t.result[name] == s.result[name])
          && forall n :: n in t.result[s.current.value] <==>
                         (s.current.value in s.result && n in s.result[s.current.value])
                         || h.start <= n < h.start + h.newCount)
  }

  /** What one line does between hunks. */
  ghost predicate Outside(s: State, line: string, r: Result<State, Refusal>) {
    if "+++ " <= line then
      && r.Ok? && Names(line, r.value.current) && r.value.oldLeft == s.oldLeft && r.value.newLeft == s.newLeft
      && r.value.result == match r.value.current
                           case Some(name) => if name in s.result then s.result else s.result[name := {}]
                           case None => s.result
    else if "@@ " <= line then
      if r.Err? then r.error == MalformedHeader && forall h :: !HeaderForm(line, h)
      else exists h :: HeaderForm(line, h) && Opens(s, h, r.value)
    else r == Ok(s)
  }

  /** One line does what its text says: inside an open hunk by its mark, elsewhere as a name or a hunk header. */
  lemma LineIs(s: State, line: string)
    requires s.oldLeft >= 0 && s.newLeft >= 0
    ensures if s.oldLeft > 0 || s.newLeft > 0 then Inside(s, line, Step(s, line)) else Outside(s, line, Step(s, line))
  {
    hide Inside, Outside, Step, HeaderForm, ReadHeader;
    if s.oldLeft == 0 && s.newLeft == 0 {
      if "+++ b/" <= line {
        NameIs(s, line);
      } else if "@@ " <= line {
        HunkIs(s, line);
      } else {
        OtherIs(s, line);
      }
    } else {
      InsideIs(s, line);
    }
  }

  lemma InsideIs(s: State, line: string)
    requires s.oldLeft >= 0 && s.newLeft >= 0 && (s.oldLeft > 0 || s.newLeft > 0)
    ensures Inside(s, line, Step(s, line))
  {
    assert StartsWith(line, " ") <==> line != "" && line[0] == ' ';
    assert StartsWith(line, "-") <==> line != "" && line[0] == '-';
    assert StartsWith(line, "+") <==> line != "" && line[0] == '+';
    assert NO_NEWLINE[0] == '\\';
  }

  lemma NameIs(s: State, line: string)
    requires "+++ b/" <= line && s.oldLeft == 0 && s.newLeft == 0
    ensures Outside(s, line, Step(s, line))
  {
    assert "+++ " <= line;
    var name := FileName(line);
    if name in s.result {
      assert LinesOf(s.result, name) + {} == s.result[name];
      assert Touch(s.result, name, {}) == s.result;
    } else {
      assert LinesOf(s.result, name) + {} == {};
    }
  }

  lemma HunkIs(s: State, line: string)
    requires "@@ " <= line && s.oldLeft == 0 && s.newLeft == 0
    ensures Outside(s, line, Step(s, line))
  {
    hide HeaderForm, ReadHeader, FileName;
    assert line[0] == '@';
    forall h ensures HeaderForm(line, h) <==> ReadHeader(line) == Some(h) {
      HeaderIs(line, h);
    }
    if ReadHeader(line).Some? {
      var h := ReadHeader(line).value;
      OpenIs(s, h, Step(s, line).value);
    }
  }

  lemma OpenIs(s: State, h: Header, t: State)
    requires t == s.(oldLeft := h.oldCount, newLeft := h.newCount,
                     result := if s.current.Some? && s.current.value != "" then
                         Touch(s.result, s.current.value, Intervals.Range(h.start, h.start + h.newCount - 1))
                       else s.result)
    ensures Opens(s, h, t)
  {
  }

  lemma OtherIs(s: State, line: string)
    requires !("+++ b/" <= line) && !("@@ " <= line) && s.oldLeft == 0 && s.newLeft == 0
    ensures Outside(s, line, Step(s, line))
  {
  }
}
