/** Parsing unified diffs, and undoing it. */
module UnifiedDiff {
  import opened Text
  import opened Prelude

  datatype LineType = Context | Add | Remove

  /** A line of a hunk. The line number of a side it is not on is 0. */
  datatype DiffLine = DiffLine(kind: LineType, content: string, oldLine: nat, newLine: nat)

  datatype DiffHunk = DiffHunk(header: string, oldStart: nat, oldCount: nat, newStart: nat, newCount: nat,
                               lines: seq<DiffLine>)

  datatype DiffFile = DiffFile(oldName: string, newName: string, binary: bool, hunks: seq<DiffHunk>)

  // ---- strings ----

  function TrimPrefix(s: string, p: string): string {
    if HasPrefix(s, p) then s[|p|..] else s
  }

  /** unicode.IsSpace. */
  predicate IsSpace(c: char) {
    || '\t' <= c <= '\r' || c == ' ' || c == '\U{0085}' || c == '\U{00A0}' || c == '\U{1680}'
    || '\U{2000}' <= c <= '\U{200A}' || c == '\U{2028}' || c == '\U{2029}' || c == '\U{202F}' || c == '\U{205F}'
    || c == '\U{3000}'
  }

  predicate IsDigit(c: char) {
    '0' <= c <= '9'
  }

  predicate AllDigits(s: string) {
    forall c :: c in s ==> IsDigit(c)
  }

  /** How long the word at the front is. */
  function WordLength(s: string): (n: nat)
    ensures n <= |s|
    ensures n > 0 <==> s != "" && !IsSpace(s[0])
  {
    if s == "" || IsSpace(s[0]) then 0 else 1 + WordLength(s[1..])
  }

  /** strings.Fields. */
  function Fields(s: string): seq<string>
    decreases |s|
  {
    if s == "" then []
    else if IsSpace(s[0]) then Fields(s[1..])
    else [s[..WordLength(s)]] + Fields(s[WordLength(s)..])
  }

  const MAX_INT := 0x7fff_ffff_ffff_ffff

  function DigitValue(c: char): nat
    requires IsDigit(c)
  {
    c as int - '0' as int
  }

  function ToNat(digits: string): nat
    requires AllDigits(digits)
  {
    if digits == "" then 0
    else
      assert digits[|digits| - 1] in digits;
      ToNat(digits[..|digits| - 1]) * 10 + DigitValue(digits[|digits| - 1])
  }

  /** strconv.Atoi on digits, with its error ignored: too large a number reads as the largest int. */
  function Atoi(digits: string): nat
    requires AllDigits(digits)
  {
    if ToNat(digits) > MAX_INT then MAX_INT else ToNat(digits)
  }

  // ---- hunk headers ----

  function Digits(s: string): (d: string)
    ensures AllDigits(d)
    ensures d <= s
  {
    if s == "" || !IsDigit(s[0]) then "" else [s[0]] + Digits(s[1..])
  }

  /** A start and an optional count, which is 1 when it is left out, and what follows. */
  function ReadRange(s: string): Option<(nat, nat, string)> {
    var start := Digits(s);
    var rest := s[|start|..];
    if start == "" then None
    else if rest != "" && rest[0] == ',' && Digits(rest[1..]) != "" then
      var count := Digits(rest[1..]);
      Some((Atoi(start), Atoi(count), rest[1 + |count|..]))
    else Some((Atoi(start), 1, rest))
  }

  /** The four numbers of a header line. */
  function ReadHeader(line: string): Option<(nat, nat, nat, nat)> {
    if !HasPrefix(line, "@@ -") then None
    else match ReadRange(line[4..])
      case None => None
      case Some((oldStart, oldCount, rest)) =>
        if !HasPrefix(rest, " +") then None
        else match ReadRange(rest[2..])
          case None => None
          case Some((newStart, newCount, rest')) =>
            if HasPrefix(rest', " @@") then Some((oldStart, oldCount, newStart, newCount)) else None
  }

  // ---- hunks ----

  predicate EndsHunk(line: string) {
    HasPrefix(line, "@@") || HasPrefix(line, "diff --git ")
  }

  predicate IsMarker(line: string) {
    HasPrefix(line, "\\ ")
  }

  function LineOf(line: string, oldLine: nat, newLine: nat): DiffLine {
    if HasPrefix(line, "+") then DiffLine(Add, line[1..], 0, newLine)
    else if HasPrefix(line, "-") then DiffLine(Remove, line[1..], oldLine, 0)
    else DiffLine(Context, if |line| > 0 && line[0] == ' ' then line[1..] else line, oldLine, newLine)
  }

  predicate OnOldSide(l: DiffLine) {
    l.kind != Add
  }

  predicate OnNewSide(l: DiffLine) {
    l.kind != Remove
  }

  function OldCount(lines: seq<DiffLine>): nat {
    if lines == [] then 0 else OldCount(lines[..|lines| - 1]) + if OnOldSide(lines[|lines| - 1]) then 1 else 0
  }

  function NewCount(lines: seq<DiffLine>): nat {
    if lines == [] then 0 else NewCount(lines[..|lines| - 1]) + if OnNewSide(lines[|lines| - 1]) then 1 else 0
  }

  /** One more body line: a marker adds nothing. */
  function Grow(before: seq<DiffLine>, line: string, oldStart: nat, newStart: nat): seq<DiffLine> {
    if IsMarker(line) then before else before + [LineOf(line, oldStart + OldCount(before), newStart + NewCount(before))]
  }

  /** The lines of a hunk's body, numbered from the starts. */
  function BodyOf(body: seq<string>, oldStart: nat, newStart: nat): seq<DiffLine> {
    if body == [] then [] else Grow(BodyOf(body[..|body| - 1], oldStart, newStart), body[|body| - 1], oldStart, newStart)
  }

  lemma BodySnoc(body: seq<string>, line: string, oldStart: nat, newStart: nat)
    ensures BodyOf(body + [line], oldStart, newStart) == Grow(BodyOf(body, oldStart, newStart), line, oldStart, newStart)
  {
    var all := body + [line];
    assert all[..|all| - 1] == body && all[|all| - 1] == line;
  }

  /** How many lines follow before the hunk ends. */
  function BodyLength(lines: seq<string>): (n: nat)
    ensures n <= |lines| && (n < |lines| ==> EndsHunk(lines[n]))
    ensures forall i :: 0 <= i < n ==> !EndsHunk(lines[i])
  {
    if lines == [] || EndsHunk(lines[0]) then 0 else 1 + BodyLength(lines[1..])
  }

  /** The hunk at the front of some lines, if its header can be read, and the lines it takes. */
  function HunkAt(lines: seq<string>): (Option<DiffHunk>, nat)
    requires lines != []
    ensures 1 <= HunkAt(lines).1 <= |lines|
  {
    match ReadHeader(lines[0])
    case None => (None, 1)
    case Some((oldStart, oldCount, newStart, newCount)) =>
      var n := BodyLength(lines[1..]);
      (Some(DiffHunk(lines[0], oldStart, oldCount, newStart, newCount, BodyOf(lines[1..1 + n], oldStart, newStart))), 1 + n)
  }

  /** One body line, and the counters after it. */
  method ParseBodyLine(line: string, oldLine: nat, newLine: nat) returns (l: DiffLine, oldNext: nat, newNext: nat)
    ensures l == LineOf(line, oldLine, newLine)
    ensures oldNext == oldLine + (if OnOldSide(l) then 1 else 0)
    ensures newNext == newLine + (if OnNewSide(l) then 1 else 0)
  {
    oldNext, newNext := oldLine, newLine;
    if HasPrefix(line, "+") {
      l := DiffLine(Add, line[1..], 0, newLine);
      newNext := newNext + 1;
    } else if HasPrefix(line, "-") {
      l := DiffLine(Remove, line[1..], oldLine, 0);
      oldNext := oldNext + 1;
    } else {
      var content := line;
      if |line| > 0 && line[0] == ' ' {
        content := line[1..];
      }
      l := DiffLine(Context, content, oldLine, newLine);
      oldNext := oldNext + 1;
      newNext := newNext + 1;
    }
  }

  /** What one more body line adds, and the counters after it. */
  method ParseNext(parsed: seq<DiffLine>, line: string, oldLine: nat, newLine: nat, ghost oldStart: nat, ghost newStart: nat)
    returns (grown: seq<DiffLine>, oldNext: nat, newNext: nat)
    requires oldLine == oldStart + OldCount(parsed) && newLine == newStart + NewCount(parsed)
    ensures grown == Grow(parsed, line, oldStart, newStart)
    ensures oldNext == oldStart + OldCount(grown) && newNext == newStart + NewCount(grown)
  {
    grown, oldNext, newNext := parsed, oldLine, newLine;
    if IsMarker(line) {
      return;
    }
    var l;
    l, oldNext, newNext := ParseBodyLine(line, oldLine, newLine);
    grown := parsed + [l];
  }

  /** The body of a hunk, up to the next hunk, the next file or the end. */
  method ParseBody(lines: seq<string>, oldStart: nat, newStart: nat) returns (parsed: seq<DiffLine>, consumed: nat)
    ensures consumed == BodyLength(lines) && parsed == BodyOf(lines[..consumed], oldStart, newStart)
  {
    parsed := [];
    var oldLine, newLine, i := oldStart, newStart, 0;
    while i < |lines|
      invariant 0 <= i <= BodyLength(lines)
      invariant parsed == BodyOf(lines[..i], oldStart, newStart)
      invariant oldLine == oldStart + OldCount(parsed) && newLine == newStart + NewCount(parsed)
    {
      if EndsHunk(lines[i]) {
        break;
      }
      TakeSnoc(lines, i);
      BodySnoc(lines[..i], lines[i], oldStart, newStart);
      parsed, oldLine, newLine := ParseNext(parsed, lines[i], oldLine, newLine, oldStart, newStart);
      i := i + 1;
    }
    consumed := i;
  }

  lemma HunkAtFront(lines: seq<string>, h: DiffHunk, n: nat)
    requires lines != [] && lines[0] == h.header && n == BodyLength(lines[1..])
    requires ReadHeader(h.header) == Some((h.oldStart, h.oldCount, h.newStart, h.newCount))
    requires h.lines == BodyOf(lines[1..][..n], h.oldStart, h.newStart)
    ensures HunkAt(lines) == (Some(h), 1 + n)
  {
    assert lines[1..][..n] == lines[1..1 + n];
  }

  method ParseHunk(lines: seq<string>) returns (hunk: Option<DiffHunk>, consumed: nat)
    ensures lines == [] || !HasPrefix(lines[0], "@@") ==> hunk == None && consumed == 0
    ensures lines != [] && HasPrefix(lines[0], "@@") ==> 1 <= consumed <= |lines| && HunkAt(lines) == (hunk, consumed)
  {
    if lines == [] || !HasPrefix(lines[0], "@@") {
      return None, 0;
    }
    var m := ReadHeader(lines[0]);
    if m == None {
      return None, 1;
    }
    var (oldStart, oldCount, newStart, newCount) := m.value;
    var body, n := ParseBody(lines[1..], oldStart, newStart);
    var h := DiffHunk(lines[0], oldStart, oldCount, newStart, newCount, body);
    HunkAtFront(lines, h, n);
    return Some(h), 1 + n;
  }

  // ---- files ----

  /** The extended header lines of git that carry nothing the parser needs. */
  predicate IsExtended(line: string) {
    || HasPrefix(line, "index ") || HasPrefix(line, "old mode ") || HasPrefix(line, "new mode ")
    || HasPrefix(line, "new file mode ") || HasPrefix(line, "deleted file mode ") || HasPrefix(line, "similarity index ")
    || HasPrefix(line, "rename from ") || HasPrefix(line, "rename to ") || HasPrefix(line, "copy from ")
    || HasPrefix(line, "copy to ")
  }

  predicate IsGitLine(line: string) {
    HasPrefix(line, "diff --git ")
  }

  function GitNames(line: string): (string, string) {
    var parts := Fields(line);
    if |parts| >= 4 then (TrimPrefix(parts[2], "a/"), TrimPrefix(parts[3], "b/")) else ("", "")
  }

  function SkipExtended(lines: seq<string>): seq<string> {
    if lines != [] && IsExtended(lines[0]) then SkipExtended(lines[1..]) else lines
  }

  /** A name line, if the lines start with one. It gives the name only if there is none yet. */
  function TakeName(lines: seq<string>, marker: string, side: string, name: string): (string, seq<string>) {
    if lines == [] || !HasPrefix(lines[0], marker) then (name, lines)
    else (if name == "" then TrimPrefix(TrimPrefix(lines[0], marker), side) else name, lines[1..])
  }

  function HunksOf(lines: seq<string>): seq<DiffHunk>
    decreases |lines|
  {
    if lines == [] then []
    else if !HasPrefix(lines[0], "@@") then HunksOf(lines[1..])
    else
      var (hunk, n) := HunkAt(lines);
      Present(hunk) + HunksOf(lines[n..])
  }

  function FileOf(lines: seq<string>): Option<DiffFile> {
    if lines == [] then None
    else
      var git := IsGitLine(lines[0]);
      var (oldName, newName) := if git then GitNames(lines[0]) else ("", "");
      var rest := SkipExtended(if git then lines[1..] else lines);
      if rest != [] && HasPrefix(rest[0], "Binary files ") then Some(DiffFile(oldName, newName, true, []))
      else
        var (o, rest1) := TakeName(rest, "--- ", "a/", oldName);
        var (n, rest2) := TakeName(rest1, "+++ ", "b/", newName);
        if HunksOf(rest2) == [] then None else Some(DiffFile(o, n, false, HunksOf(rest2)))
  }

  lemma LineStartsNone(lines: seq<string>, i: nat)
    requires i < |lines| && !HasPrefix(lines[i], "@@")
    ensures HunksOf(lines[i..]) == Present(None) + HunksOf(lines[i + 1..])
  {
    assert lines[i..][0] == lines[i] && lines[i..][1..] == lines[i + 1..];
    assert [] + HunksOf(lines[i + 1..]) == HunksOf(lines[i + 1..]);
  }

  lemma HunkStarts(lines: seq<string>, i: nat, hunk: Option<DiffHunk>, n: nat)
    requires i + n <= |lines| && n > 0 && HasPrefix(lines[i], "@@")
    requires HunkAt(lines[i..]) == (hunk, n)
    ensures HunksOf(lines[i..]) == Present(hunk) + HunksOf(lines[i + n..])
  {
    assert lines[i..][0] == lines[i] && lines[i..][n..] == lines[i + n..];
  }

  /** One round of the loop over hunks: a line that starts none, a header that cannot be read, or a hunk. */
  method ParseOne(lines: seq<string>, i: nat) returns (found: Option<DiffHunk>, next: nat)
    requires i < |lines|
    ensures i < next <= |lines|
    ensures HunksOf(lines[i..]) == Present(found) + HunksOf(lines[next..])
  {
    if !HasPrefix(lines[i], "@@") {
      LineStartsNone(lines, i);
      return None, i + 1;
    }
    assert lines[i..][0] == lines[i];
    var consumed;
    found, consumed := ParseHunk(lines[i..]);
    HunkStarts(lines, i, found, consumed);
    next := i + consumed;
  }

  method ParseHunks(lines: seq<string>) returns (hunks: seq<DiffHunk>)
    ensures hunks == HunksOf(lines)
  {
    hunks := [];
    var i := 0;
    assert lines[0..] == lines;
    while i < |lines|
      invariant 0 <= i <= |lines|
      invariant HunksOf(lines) == hunks + HunksOf(lines[i..])
    {
      var hunk;
      ghost var before := hunks;
      hunk, i := ParseOne(lines, i);
      if hunk.Some? {
        hunks := hunks + [hunk.value];
      }
      assert hunks == before + Present(hunk);
      Regroup(before, Present(hunk), HunksOf(lines[i..]));
    }
    assert lines[|lines|..] == [];
  }

  method SkipExtendedLines(lines: seq<string>, start: nat) returns (i: nat)
    requires start <= |lines|
    ensures start <= i <= |lines| && lines[i..] == SkipExtended(lines[start..])
  {
    i := start;
    while i < |lines|
      invariant start <= i <= |lines|
      invariant SkipExtended(lines[start..]) == SkipExtended(lines[i..])
    {
      if !IsExtended(lines[i]) {
        break;
      }
      assert lines[i..][1..] == lines[i + 1..];
      i := i + 1;
    }
  }

  method TakeNameLine(lines: seq<string>, start: nat, marker: string, side: string, name: string)
    returns (taken: string, i: nat)
    requires start <= |lines|
    ensures start <= i <= |lines| && (taken, lines[i..]) == TakeName(lines[start..], marker, side, name)
  {
    taken, i := name, start;
    if i < |lines| && HasPrefix(lines[i], marker) {
      if taken == "" {
        taken := TrimPrefix(TrimPrefix(lines[i], marker), side);
      }
      assert lines[i..][1..] == lines[i + 1..];
      i := i + 1;
    }
  }

  method ParseFileSection(lines: seq<string>) returns (file: Option<DiffFile>)
    ensures file == FileOf(lines)
  {
    if lines == [] {
      return None;
    }
    var oldName, newName, i := "", "", 0;
    if IsGitLine(lines[i]) {
      var parts := Fields(lines[i]);
      if |parts| >= 4 {
        oldName := TrimPrefix(parts[2], "a/");
        newName := TrimPrefix(parts[3], "b/");
      }
      i := i + 1;
    }
    assert lines[0..] == lines;
    i := SkipExtendedLines(lines, i);
    if i < |lines| && HasPrefix(lines[i], "Binary files ") {
      return Some(DiffFile(oldName, newName, true, []));
    }
    oldName, i := TakeNameLine(lines, i, "--- ", "a/", oldName);
    newName, i := TakeNameLine(lines, i, "+++ ", "b/", newName);
    var hunks := ParseHunks(lines[i..]);
    file := if hunks == [] then None else Some(DiffFile(oldName, newName, false, hunks));
  }

  // ---- whole diffs ----

  /** The lines grouped by file: each group but perhaps the first starts at a git line. */
  function Sections(lines: seq<string>): seq<seq<string>> {
    Grouped(lines, [], [])
  }

  function Grouped(lines: seq<string>, sections: seq<seq<string>>, current: seq<string>): seq<seq<string>> {
    if lines == [] then if current != [] then sections + [current] else sections
    else if IsGitLine(lines[0]) then Grouped(lines[1..], if current != [] then sections + [current] else sections, [lines[0]])
    else Grouped(lines[1..], sections, current + [lines[0]])
  }

  function FilesOf(sections: seq<seq<string>>): seq<DiffFile> {
    if sections == [] then []
    else FilesOf(sections[..|sections| - 1])
         + Present(FileOf(sections[|sections| - 1]))
  }

  /** The lines of a text, without the empty one behind a final newline. */
  function DiffLines(text: string): seq<string> {
    var lines := Split(text);
    if lines[|lines| - 1] == "" then lines[..|lines| - 1] else lines
  }

  function Parsed(text: string): seq<DiffFile> {
    if text == "" then [] else FilesOf(Sections(DiffLines(text)))
  }

  method SplitIntoFileSections(lines: seq<string>) returns (sections: seq<seq<string>>)
    ensures sections == Sections(lines)
  {
    sections := [];
    var current := [];
    for i := 0 to |lines|
      invariant Sections(lines) == Grouped(lines[i..], sections, current)
    {
      assert lines[i..][1..] == lines[i + 1..];
      if HasPrefix(lines[i], "diff --git ") {
        if |current| > 0 {
          sections := sections + [current];
        }
        current := [lines[i]];
      } else {
        current := current + [lines[i]];
      }
    }
    if |current| > 0 {
      sections := sections + [current];
    }
  }

  lemma FilesSnoc(sections: seq<seq<string>>, i: nat)
    requires i < |sections|
    ensures FilesOf(sections[..i + 1]) == FilesOf(sections[..i]) + Present(FileOf(sections[i]))
  {
    assert sections[..i + 1][..i] == sections[..i];
  }

  method ParseUnifiedDiff(text: string) returns (files: seq<DiffFile>)
    ensures files == Parsed(text)
  {
    files := [];
    if text == "" {
      return;
    }
    var lines: seq<string> := Split(text);
    if lines[|lines| - 1] == "" {
      lines := lines[..|lines| - 1];
    }
    var sections := SplitIntoFileSections(lines);
    for i := 0 to |sections|
      invariant files == FilesOf(sections[..i])
    {
      FilesSnoc(sections, i);
      var f := ParseFileSection(sections[i]);
      if f.Some? {
        files := files + [f.value];
      }
    }
    assert sections[..|sections|] == sections;
  }
}
