/** Printing a diff as git does, and what the parser makes of it. */
module DiffPrinting {
  import opened Text
  import opened Prelude
  import opened UnifiedDiff

  // ---- numbers ----

  function Digit(n: nat): char
    requires n < 10
  {
    "0123456789"[n]
  }

  function Decimal(n: nat): string {
    if n < 10 then [Digit(n)] else Decimal(n / 10) + [Digit(n % 10)]
  }

  lemma {:induction false} DecimalReads(n: nat)
    ensures AllDigits(Decimal(n))
    ensures Decimal(n) != "" && ToNat(Decimal(n)) == n
  {
    if n < 10 {
      assert [Digit(n)][..0] == "";
      assert ToNat("") == 0;
    } else {
      DecimalReads(n / 10);
      var d := Decimal(n);
      assert d[..|d| - 1] == Decimal(n / 10);
    }
  }

  /** A number in a header is read as it is, up to the largest 64-bit integer, and any larger one as that. */
  lemma NumbersAreCut(n: nat)
    ensures AllDigits(Decimal(n)) && Atoi(Decimal(n)) == if n <= 9223372036854775807 then n else 9223372036854775807
  {
    DecimalReads(n);
  }

  lemma {:induction false} DigitsStop(d: string, rest: string)
    requires AllDigits(d)
    requires rest == "" || !IsDigit(rest[0])
    ensures Digits(d + rest) == d
  {
    if d == "" {
      assert d + rest == rest;
    } else {
      assert forall c :: c in d[1..] ==> IsDigit(c);
      DigitsStop(d[1..], rest);
      assert (d + rest)[1..] == d[1..] + rest;
      assert d[0] in d;
    }
  }

  // ---- printing ----

  /** A start and a count, which may be left out when it is 1. */
  function PrintRange(start: nat, count: nat, brief: bool): string {
    Decimal(start) + if brief && count == 1 then "" else "," + Decimal(count)
  }

  function PrintHeader(h: DiffHunk, briefOld: bool, briefNew: bool, context: string): string {
    "@@ -" + (PrintRange(h.oldStart, h.oldCount, briefOld)
    + (" +" + (PrintRange(h.newStart, h.newCount, briefNew) + (" @@" + context))))
  }

  function PrintLine(l: DiffLine): string {
    (match l.kind case Context => " " case Add => "+" case Remove => "-") + l.content
  }

  const NO_NEWLINE := "\\ No newline at end of file"

  /** The lines, with a marker behind those that are unended. */
  function PrintLines(lines: seq<DiffLine>, unended: set<DiffLine>): seq<string> {
    if lines == [] then []
    else
      var l := lines[|lines| - 1];
      PrintLines(lines[..|lines| - 1], unended) + [PrintLine(l)] + if l in unended then [NO_NEWLINE] else []
  }

  function PrintHunks(hunks: seq<DiffHunk>, unended: set<DiffLine>): seq<string> {
    if hunks == [] then []
    else [hunks[0].header] + (PrintLines(hunks[0].lines, unended) + PrintHunks(hunks[1..], unended))
  }

  /** The extended header lines that the parser skips. A mode, a hash, a percentage or a path follows each prefix. */
  datatype Extended =
    | Index(text: string)
    | OldMode(text: string)
    | NewMode(text: string)
    | NewFileMode(text: string)
    | DeletedFileMode(text: string)
    | Similarity(text: string)
    | RenameFrom(text: string)
    | RenameTo(text: string)
    | CopyFrom(text: string)
    | CopyTo(text: string)

  function PrintExtended(x: Extended): string {
    match x
    case Index(text) => "index " + text
    case OldMode(text) => "old mode " + text
    case NewMode(text) => "new mode " + text
    case NewFileMode(text) => "new file mode " + text
    case DeletedFileMode(text) => "deleted file mode " + text
    case Similarity(text) => "similarity index " + text
    case RenameFrom(text) => "rename from " + text
    case RenameTo(text) => "rename to " + text
    case CopyFrom(text) => "copy from " + text
    case CopyTo(text) => "copy to " + text
  }

  function PrintAllExtended(extended: seq<Extended>): seq<string> {
    if extended == [] then [] else [PrintExtended(extended[0])] + PrintAllExtended(extended[1..])
  }

  /** A file, its lines that have no newline, and the lines of its section that carry nothing else the
      parser keeps. */
  datatype Section = Section(file: DiffFile, unended: set<DiffLine>, extended: seq<Extended>, oldMark: string,
                             newMark: string, binaryMark: string)

  function GitLine(f: DiffFile): string {
    "diff --git " + ("a/" + f.oldName + (" " + ("b/" + f.newName)))
  }

  function Tail(s: Section): seq<string> {
    PrintAllExtended(s.extended)
    + if s.file.binary then [s.binaryMark] else [s.oldMark] + ([s.newMark] + PrintHunks(s.file.hunks, s.unended))
  }

  function PrintSection(s: Section): seq<string> {
    [GitLine(s.file)] + Tail(s)
  }

  function PrintSections(sections: seq<Section>): seq<string> {
    if sections == [] then [] else PrintSection(sections[0]) + PrintSections(sections[1..])
  }

  /** Each line followed by a newline. */
  function Terminated(lines: seq<string>): string {
    if lines == [] then "" else lines[0] + "\n" + Terminated(lines[1..])
  }

  function Print(sections: seq<Section>): string {
    Terminated(PrintSections(sections))
  }

  // ---- what can be printed ----

  /** The line numbers a line must carry: the start plus the lines before it on that side, or 0 off that side. */
  predicate NumberedAt(lines: seq<DiffLine>, i: nat, oldStart: nat, newStart: nat)
    requires i < |lines|
  {
    && lines[i].oldLine == (if OnOldSide(lines[i]) then oldStart + OldCount(lines[..i]) else 0)
    && lines[i].newLine == (if OnNewSide(lines[i]) then newStart + NewCount(lines[..i]) else 0)
  }

  ghost predicate Numbered(lines: seq<DiffLine>, oldStart: nat, newStart: nat) {
    forall i: nat :: i < |lines| ==> NumberedAt(lines, i, oldStart, newStart)
  }

  ghost predicate GoodHunk(h: DiffHunk) {
    && h.oldStart <= MAX_INT && h.oldCount <= MAX_INT && h.newStart <= MAX_INT && h.newCount <= MAX_INT
    && (exists x, y, context :: h.header == PrintHeader(h, x, y, context))
    && OneLine(h.header)
    && Numbered(h.lines, h.oldStart, h.newStart)
    && forall l :: l in h.lines ==> OneLine(l.content)
  }

  predicate Spaceless(s: string) {
    forall c :: c in s ==> !IsSpace(c)
  }

  predicate Word(s: string) {
    s != "" && Spaceless(s)
  }

  ghost predicate GoodSection(s: Section) {
    && Word(s.file.oldName) && Word(s.file.newName)
    && (forall x :: x in s.extended ==> OneLine(x.text))
    && (if s.file.binary then s.file.hunks == [] && HasPrefix(s.binaryMark, "Binary files ") && OneLine(s.binaryMark)
        else
          && s.file.hunks != [] && (forall h :: h in s.file.hunks ==> GoodHunk(h))
          && HasPrefix(s.oldMark, "--- ") && OneLine(s.oldMark) && HasPrefix(s.newMark, "+++ ") && OneLine(s.newMark))
  }

  function Files(sections: seq<Section>): seq<DiffFile> {
    if sections == [] then [] else Files(sections[..|sections| - 1]) + [sections[|sections| - 1].file]
  }

  // ---- headers ----

  lemma BriefRangeReads(start: string, rest: string)
    requires AllDigits(start) && start != ""
    requires rest != "" && rest[0] == ' '
    ensures ReadRange(start + rest) == Some((Atoi(start), 1, rest))
  {
    DigitsStop(start, rest);
    var s := start + rest;
    assert s[|start|..] == rest;
  }

  lemma FullRangeReads(start: string, count: string, rest: string)
    requires AllDigits(start) && start != "" && AllDigits(count) && count != ""
    requires rest != "" && rest[0] == ' '
    ensures ReadRange(start + ("," + (count + rest))) == Some((Atoi(start), Atoi(count), rest))
  {
    var end := count + rest;
    var more := "," + end;
    DigitsStop(start, more);
    DigitsStop(count, rest);
    var s := start + more;
    assert s[|start|..] == more;
    assert more[1..] == end;
    assert more[1 + |count|..] == rest;
  }

  lemma RangeReads(start: nat, count: nat, brief: bool, rest: string)
    requires start <= MAX_INT && count <= MAX_INT
    requires rest != "" && rest[0] == ' '
    ensures ReadRange(PrintRange(start, count, brief) + rest) == Some((start, count, rest))
  {
    DecimalReads(start);
    DecimalReads(count);
    if brief && count == 1 {
      assert PrintRange(start, count, brief) == Decimal(start);
      BriefRangeReads(Decimal(start), rest);
    } else {
      Concat4(Decimal(start), ",", Decimal(count), rest);
      FullRangeReads(Decimal(start), Decimal(count), rest);
    }
  }

  lemma Concat4(a: string, b: string, c: string, d: string)
    ensures a + (b + c) + d == a + (b + (c + d))
  {
  }

  lemma WrappedReads(first: string, second: string, end: string, oldStart: nat, oldCount: nat, newStart: nat, newCount: nat)
    requires ReadRange(first + (" +" + (second + (" @@" + end))))
          == Some((oldStart, oldCount, " +" + (second + (" @@" + end))))
    requires ReadRange(second + (" @@" + end)) == Some((newStart, newCount, " @@" + end))
    ensures ReadHeader("@@ -" + (first + (" +" + (second + (" @@" + end))))) == Some((oldStart, oldCount, newStart, newCount))
  {
    var tail := second + (" @@" + end);
    var middle := " +" + tail;
    var line := "@@ -" + (first + middle);
    assert HasPrefix(line, "@@ -") && line[4..] == first + middle;
    assert HasPrefix(middle, " +") && middle[2..] == tail;
    assert HasPrefix(" @@" + end, " @@");
  }

  lemma OtherStart(line: string, p: string)
    requires p != "" && (line == "" || line[0] != p[0])
    ensures !HasPrefix(line, p)
  {
  }

  lemma PrintedHeaderStarts(h: DiffHunk, x: bool, y: bool, context: string)
    ensures HasPrefix(PrintHeader(h, x, y, context), "@@") && !IsGitLine(PrintHeader(h, x, y, context))
  {
    var header := PrintHeader(h, x, y, context);
    assert header[0] == '@' && header[1] == '@';
    OtherStart(header, "diff --git ");
  }

  lemma PrintedHeaderReads(h: DiffHunk, x: bool, y: bool, context: string)
    requires h.oldStart <= MAX_INT && h.oldCount <= MAX_INT && h.newStart <= MAX_INT && h.newCount <= MAX_INT
    ensures ReadHeader(PrintHeader(h, x, y, context)) == Some((h.oldStart, h.oldCount, h.newStart, h.newCount))
  {
    var first, second := PrintRange(h.oldStart, h.oldCount, x), PrintRange(h.newStart, h.newCount, y);
    RangeReads(h.oldStart, h.oldCount, x, " +" + (second + (" @@" + context)));
    RangeReads(h.newStart, h.newCount, y, " @@" + context);
    WrappedReads(first, second, context, h.oldStart, h.oldCount, h.newStart, h.newCount);
  }

  lemma HeaderReads(h: DiffHunk)
    requires GoodHunk(h)
    ensures ReadHeader(h.header) == Some((h.oldStart, h.oldCount, h.newStart, h.newCount))
    ensures HasPrefix(h.header, "@@") && !IsGitLine(h.header)
  {
    var x, y, context :| h.header == PrintHeader(h, x, y, context);
    PrintedHeaderReads(h, x, y, context);
    PrintedHeaderStarts(h, x, y, context);
  }

  /** Digits, and after a comma perhaps more of them. */
  lemma RangeIsShaped(s: string) returns (start: string, count: string)
    requires ReadRange(s).Some?
    ensures AllDigits(start) && start != "" && AllDigits(count)
    ensures var (a, b, rest) := ReadRange(s).value;
            && a == Atoi(start) && b == (if count == "" then 1 else Atoi(count))
            && s == start + (if count == "" then "" else "," + count) + rest
  {
    start := Digits(s);
    var rest := s[|start|..];
    count := if rest != "" && rest[0] == ',' then Digits(rest[1..]) else "";
    Cut(s, |start|);
    if count != "" {
      Cut(rest, 1 + |count|);
      assert rest[..1 + |count|] == "," + count;
      Regroup(start, "," + count, rest[1 + |count|..]);
    }
  }

  /** No other line is read as a header. */
  lemma HeaderIsShaped(line: string) returns (a: string, b: string, c: string, d: string, context: string)
    requires ReadHeader(line).Some?
    ensures AllDigits(a) && a != "" && AllDigits(b) && AllDigits(c) && c != "" && AllDigits(d)
    ensures ReadHeader(line).value == (Atoi(a), if b == "" then 1 else Atoi(b), Atoi(c), if d == "" then 1 else Atoi(d))
    ensures line == "@@ -" + ((a + (if b == "" then "" else "," + b))
                    + (" +" + ((c + (if d == "" then "" else "," + d)) + (" @@" + context))))
  {
    var s := line[4..];
    a, b := RangeIsShaped(s);
    var rest := ReadRange(s).value.2;
    var t := rest[2..];
    c, d := RangeIsShaped(t);
    var last := ReadRange(t).value.2;
    context := last[3..];
    PrefixCut(line, "@@ -");
    PrefixCut(rest, " +");
    PrefixCut(last, " @@");
    var front, back := a + (if b == "" then "" else "," + b), c + (if d == "" then "" else "," + d);
    assert s == front + rest && t == back + last;
  }

  // ---- hunks ----

  lemma StartOfLine(l: DiffLine)
    ensures PrintLine(l)[0] == (match l.kind case Context => ' ' case Add => '+' case Remove => '-')
    ensures !EndsHunk(PrintLine(l)) && !IsMarker(PrintLine(l)) && !IsGitLine(PrintLine(l))
    ensures HasPrefix(PrintLine(l), "+") <==> l.kind == Add
    ensures HasPrefix(PrintLine(l), "-") <==> l.kind == Remove
  {
    var p := PrintLine(l);
    OtherStart(p, "@@");
    OtherStart(p, "diff --git ");
    OtherStart(p, "\\ ");
    if l.kind != Add { OtherStart(p, "+"); }
    if l.kind != Remove { OtherStart(p, "-"); }
  }

  lemma MarkerIsSkipped()
    ensures IsMarker(NO_NEWLINE) && !EndsHunk(NO_NEWLINE) && !IsGitLine(NO_NEWLINE) && OneLine(NO_NEWLINE)
  {
    OtherStart(NO_NEWLINE, "@@");
    OtherStart(NO_NEWLINE, "diff --git ");
  }

  lemma PrintedLineReads(l: DiffLine, oldLine: nat, newLine: nat)
    requires l.oldLine == (if OnOldSide(l) then oldLine else 0)
    requires l.newLine == (if OnNewSide(l) then newLine else 0)
    ensures LineOf(PrintLine(l), oldLine, newLine) == l
    ensures !EndsHunk(PrintLine(l)) && !IsMarker(PrintLine(l))
  {
    var p := PrintLine(l);
    assert p[1..] == l.content;
    StartOfLine(l);
  }

  lemma NumberedPrefix(lines: seq<DiffLine>, n: nat, oldStart: nat, newStart: nat)
    requires Numbered(lines, oldStart, newStart) && n <= |lines|
    ensures Numbered(lines[..n], oldStart, newStart)
  {
    forall i: nat | i < n ensures NumberedAt(lines[..n], i, oldStart, newStart) {
      assert NumberedAt(lines, i, oldStart, newStart);
      assert lines[..n][..i] == lines[..i];
    }
  }

  lemma LineJoins(printed: seq<string>, before: seq<DiffLine>, l: DiffLine, oldStart: nat, newStart: nat)
    requires BodyOf(printed, oldStart, newStart) == before
    requires l.oldLine == (if OnOldSide(l) then oldStart + OldCount(before) else 0)
    requires l.newLine == (if OnNewSide(l) then newStart + NewCount(before) else 0)
    ensures BodyOf(printed + [PrintLine(l)], oldStart, newStart) == before + [l]
  {
    BodySnoc(printed, PrintLine(l), oldStart, newStart);
    PrintedLineReads(l, oldStart + OldCount(before), newStart + NewCount(before));
  }

  lemma MarkerJoins(printed: seq<string>, oldStart: nat, newStart: nat)
    ensures BodyOf(printed + [NO_NEWLINE], oldStart, newStart) == BodyOf(printed, oldStart, newStart)
  {
    BodySnoc(printed, NO_NEWLINE, oldStart, newStart);
    MarkerIsSkipped();
  }

  /** A body line that starts with none of the marks, such as an empty one, is a context line as it stands. */
  lemma BareLineJoins(printed: seq<string>, line: string, oldStart: nat, newStart: nat)
    requires line == "" || line[0] !in "+- @\\d"
    ensures var before := BodyOf(printed, oldStart, newStart);
            !EndsHunk(line) &&
            BodyOf(printed + [line], oldStart, newStart) ==
            before + [DiffLine(Context, line, oldStart + OldCount(before), newStart + NewCount(before))]
  {
    BodySnoc(printed, line, oldStart, newStart);
    if line != "" {
      OtherStart(line, "@@");
      OtherStart(line, "diff --git ");
      OtherStart(line, "\\ ");
      OtherStart(line, "+");
      OtherStart(line, "-");
    }
  }

  lemma {:induction false} BodyReads(lines: seq<DiffLine>, unended: set<DiffLine>, oldStart: nat, newStart: nat)
    requires Numbered(lines, oldStart, newStart)
    ensures BodyOf(PrintLines(lines, unended), oldStart, newStart) == lines
  {
    if lines != [] {
      var n := |lines| - 1;
      var before, l := lines[..n], lines[n];
      var printed := PrintLines(before, unended);
      NumberedPrefix(lines, n, oldStart, newStart);
      BodyReads(before, unended, oldStart, newStart);
      assert NumberedAt(lines, n, oldStart, newStart);
      LineJoins(printed, before, l, oldStart, newStart);
      assert before + [l] == lines;
      if l in unended {
        MarkerJoins(printed + [PrintLine(l)], oldStart, newStart);
      } else {
        assert printed + [PrintLine(l)] + [] == printed + [PrintLine(l)];
      }
    }
  }

  lemma {:induction false} BodyGoesOn(lines: seq<DiffLine>, unended: set<DiffLine>)
    ensures forall s :: s in PrintLines(lines, unended) ==> !EndsHunk(s)
  {
    if lines != [] {
      BodyGoesOn(lines[..|lines| - 1], unended);
      StartOfLine(lines[|lines| - 1]);
      MarkerIsSkipped();
    }
  }

  lemma {:induction false} BodyLengthStops(body: seq<string>, rest: seq<string>)
    requires forall s :: s in body ==> !EndsHunk(s)
    requires rest == [] || EndsHunk(rest[0])
    ensures BodyLength(body + rest) == |body|
  {
    if body == [] {
      assert body + rest == rest;
    } else {
      assert body[0] in body;
      assert forall s :: s in body[1..] ==> s in body;
      BodyLengthStops(body[1..], rest);
      assert (body + rest)[1..] == body[1..] + rest;
    }
  }

  lemma HunkReads(h: DiffHunk, body: seq<string>, unended: set<DiffLine>, rest: seq<string>)
    requires GoodHunk(h) && body == PrintLines(h.lines, unended)
    requires rest == [] || EndsHunk(rest[0])
    ensures HasPrefix(h.header, "@@")
    ensures HunkAt([h.header] + (body + rest)) == (Some(h), 1 + |body|)
  {
    HeaderReads(h);
    BodyReads(h.lines, unended, h.oldStart, h.newStart);
    BodyGoesOn(h.lines, unended);
    BodyLengthStops(body, rest);
    var all := [h.header] + (body + rest);
    assert all[1..] == body + rest && (body + rest)[..|body|] == body;
    HunkAtFront(all, h, |body|);
  }

  lemma HunksGoOn(hunks: seq<DiffHunk>, unended: set<DiffLine>)
    requires forall h :: h in hunks ==> GoodHunk(h)
    ensures PrintHunks(hunks, unended) == [] || EndsHunk(PrintHunks(hunks, unended)[0])
  {
    if hunks != [] {
      assert hunks[0] in hunks;
      HeaderReads(hunks[0]);
    }
  }

  lemma HunksTake(header: string, body: seq<string>, rest: seq<string>, h: DiffHunk)
    requires HasPrefix(header, "@@")
    requires HunkAt([header] + (body + rest)) == (Some(h), 1 + |body|)
    ensures HunksOf([header] + (body + rest)) == [h] + HunksOf(rest)
  {
    var all := [header] + (body + rest);
    assert all[0] == header;
    assert all[1 + |body|..] == rest;
  }

  lemma HunksReadOne(h: DiffHunk, body: seq<string>, unended: set<DiffLine>, rest: seq<string>)
    requires GoodHunk(h) && body == PrintLines(h.lines, unended)
    requires rest == [] || EndsHunk(rest[0])
    ensures HunksOf([h.header] + (body + rest)) == [h] + HunksOf(rest)
  {
    HunkReads(h, body, unended, rest);
    HunksTake(h.header, body, rest, h);
  }

  lemma {:induction false} HunksRead(hunks: seq<DiffHunk>, unended: set<DiffLine>)
    requires forall h :: h in hunks ==> GoodHunk(h)
    ensures HunksOf(PrintHunks(hunks, unended)) == hunks
  {
    if hunks != [] {
      assert hunks[0] in hunks;
      assert forall k :: k in hunks[1..] ==> k in hunks;
      HunksRead(hunks[1..], unended);
      HunksGoOn(hunks[1..], unended);
      HunksReadOne(hunks[0], PrintLines(hunks[0].lines, unended), unended, PrintHunks(hunks[1..], unended));
      assert [hunks[0]] + hunks[1..] == hunks;
    }
  }

  // ---- names ----

  lemma {:induction false} WordEnds(w: string, rest: string)
    requires forall c :: c in w ==> !IsSpace(c)
    requires rest == "" || IsSpace(rest[0])
    ensures WordLength(w + rest) == |w|
  {
    if w == "" {
      assert w + rest == rest;
    } else {
      assert w[0] in w;
      WordEnds(w[1..], rest);
      assert (w + rest)[1..] == w[1..] + rest;
    }
  }

  lemma FieldsTake(w: string, rest: string)
    requires Word(w)
    requires rest == "" || IsSpace(rest[0])
    ensures Fields(w + rest) == [w] + Fields(rest)
    ensures Fields(" " + (w + rest)) == [w] + Fields(rest)
  {
    var s := w + rest;
    assert w[0] in w && s[0] == w[0];
    WordEnds(w, rest);
    assert s[..|w|] == w && s[|w|..] == rest;
    assert (" " + s)[1..] == s;
  }

  lemma LastFields(c: string, d: string)
    requires Word(c) && Word(d)
    ensures Fields(" " + (c + (" " + d))) == [c, d]
  {
    FieldsTake(c, " " + d);
    FieldsTake(d, "");
    assert d + "" == d;
    assert Fields("") == [];
  }

  lemma ThreeFields(b: string, c: string, d: string)
    requires Word(b) && Word(c) && Word(d)
    ensures Fields(" " + (b + (" " + (c + (" " + d))))) == [b, c, d]
  {
    LastFields(c, d);
    FieldsTake(b, " " + (c + (" " + d)));
  }

  lemma FourFields(a: string, b: string, c: string, d: string)
    requires Word(a) && Word(b) && Word(c) && Word(d)
    ensures Fields(a + (" " + (b + (" " + (c + (" " + d)))))) == [a, b, c, d]
  {
    ThreeFields(b, c, d);
    FieldsTake(a, " " + (b + (" " + (c + (" " + d)))));
  }

  lemma GitLineWords(rest: string)
    ensures "diff --git " + rest == "diff" + (" " + ("--git" + (" " + rest)))
    ensures IsGitLine("diff --git " + rest)
  {
  }

  lemma {:induction false} WordLengthStops(s: string)
    ensures Spaceless(s[..WordLength(s)])
  {
    if s != "" && !IsSpace(s[0]) {
      WordLengthStops(s[1..]);
      assert s[..WordLength(s)] == [s[0]] + s[1..][..WordLength(s[1..])];
    }
  }

  lemma {:induction false} FieldsAreSpaceless(s: string)
    ensures forall w :: w in Fields(s) ==> Spaceless(w)
    decreases |s|
  {
    if s != "" {
      WordLengthStops(s);
      FieldsAreSpaceless(if IsSpace(s[0]) then s[1..] else s[WordLength(s)..]);
    }
  }

  /** Both names come back from the git line exactly if neither has white space, which git does not quote. */
  lemma GitLineReads(f: DiffFile)
    ensures GitNames(GitLine(f)) == (f.oldName, f.newName) <==> Spaceless(f.oldName) && Spaceless(f.newName)
    ensures IsGitLine(GitLine(f))
  {
    var a, b := "a/" + f.oldName, "b/" + f.newName;
    GitLineWords(a + (" " + b));
    if Spaceless(f.oldName) && Spaceless(f.newName) {
      FourFields("diff", "--git", a, b);
      assert a[2..] == f.oldName && b[2..] == f.newName;
    }
    var parts := Fields(GitLine(f));
    FieldsAreSpaceless(GitLine(f));
    if |parts| >= 4 {
      assert parts[2] in parts && parts[3] in parts;
    }
  }

  // ---- files ----

  lemma AfterPrefix(line: string, prefix: string) returns (text: string)
    requires HasPrefix(line, prefix)
    ensures line == prefix + text
  {
    text := line[|prefix|..];
  }

  lemma SkippedIsExtended(line: string) returns (x: Extended)
    requires IsExtended(line)
    ensures line == PrintExtended(x)
  {
    var text;
    if HasPrefix(line, "index ") {
      text := AfterPrefix(line, "index ");
      x := Index(text);
    } else if HasPrefix(line, "old mode ") {
      text := AfterPrefix(line, "old mode ");
      x := OldMode(text);
    } else if HasPrefix(line, "new mode ") {
      text := AfterPrefix(line, "new mode ");
      x := NewMode(text);
    } else if HasPrefix(line, "new file mode ") {
      text := AfterPrefix(line, "new file mode ");
      x := NewFileMode(text);
    } else if HasPrefix(line, "deleted file mode ") {
      text := AfterPrefix(line, "deleted file mode ");
      x := DeletedFileMode(text);
    } else if HasPrefix(line, "similarity index ") {
      text := AfterPrefix(line, "similarity index ");
      x := Similarity(text);
    } else if HasPrefix(line, "rename from ") {
      text := AfterPrefix(line, "rename from ");
      x := RenameFrom(text);
    } else if HasPrefix(line, "rename to ") {
      text := AfterPrefix(line, "rename to ");
      x := RenameTo(text);
    } else if HasPrefix(line, "copy from ") {
      text := AfterPrefix(line, "copy from ");
      x := CopyFrom(text);
    } else {
      text := AfterPrefix(line, "copy to ");
      x := CopyTo(text);
    }
  }

  /** The parser skips exactly these lines. */
  lemma SkippedIffExtended(line: string)
    ensures IsExtended(line) <==> exists x :: line == PrintExtended(x)
  {
    if IsExtended(line) {
      var x := SkippedIsExtended(line);
    }
    if x :| line == PrintExtended(x) {
      PrintedIsExtended(x);
    }
  }

  lemma PrintedIsExtended(x: Extended)
    ensures IsExtended(PrintExtended(x))
  {
  }

  lemma {:induction false} AllAreExtended(extended: seq<Extended>)
    requires forall x :: x in extended ==> OneLine(x.text)
    ensures forall l :: l in PrintAllExtended(extended) ==> IsExtended(l) && OneLine(l)
  {
    if extended != [] {
      PrintedIsExtended(extended[0]);
      assert extended[0] in extended;
      assert forall x :: x in extended[1..] ==> x in extended;
      AllAreExtended(extended[1..]);
      PrintedExtendedIsOneLine(extended[0]);
    }
  }

  lemma PrintedExtendedIsOneLine(x: Extended)
    requires OneLine(x.text)
    ensures OneLine(PrintExtended(x))
  {
  }

  lemma {:induction false} ExtendedSkips(extended: seq<string>, rest: seq<string>)
    requires forall l :: l in extended ==> IsExtended(l)
    requires rest != [] && !IsExtended(rest[0])
    ensures SkipExtended(extended + rest) == rest
  {
    if extended == [] {
      assert extended + rest == rest;
    } else {
      assert extended[0] in extended;
      assert forall l :: l in extended[1..] ==> l in extended;
      ExtendedSkips(extended[1..], rest);
      assert (extended + rest)[1..] == extended[1..] + rest;
    }
  }

  lemma MarkStarts(line: string, mark: string)
    requires HasPrefix(line, mark) && mark != "" && mark[0] in "-+B"
    ensures line[0] == mark[0] && !IsExtended(line) && !IsGitLine(line)
  {
    OtherStart(line, "diff --git ");
    OtherStart(line, "index ");
    OtherStart(line, "old mode ");
    OtherStart(line, "new mode ");
    OtherStart(line, "new file mode ");
    OtherStart(line, "deleted file mode ");
    OtherStart(line, "similarity index ");
    OtherStart(line, "rename from ");
    OtherStart(line, "rename to ");
    OtherStart(line, "copy from ");
    OtherStart(line, "copy to ");
  }

  lemma GitIsNotExtended(line: string)
    requires IsGitLine(line)
    ensures !IsExtended(line)
  {
    assert line[0] == 'd' && line[1] == 'i';
  }

  /** Name lines give no name when the git line has given it. */
  lemma NameIsKept(mark: string, rest: seq<string>, marker: string, side: string, name: string)
    requires HasPrefix(mark, marker) && name != ""
    ensures TakeName([mark] + rest, marker, side, name) == (name, rest)
  {
    assert ([mark] + rest)[1..] == rest;
  }

  lemma SkipsToMarks(f: DiffFile, extended: seq<string>, rest: seq<string>)
    requires forall l :: l in extended ==> IsExtended(l)
    requires rest != [] && !IsExtended(rest[0])
    ensures ([GitLine(f)] + (extended + rest))[0] == GitLine(f)
    ensures SkipExtended(([GitLine(f)] + (extended + rest))[1..]) == rest
  {
    assert ([GitLine(f)] + (extended + rest))[1..] == extended + rest;
    ExtendedSkips(extended, rest);
  }

  lemma TextFileReads(f: DiffFile, extended: seq<string>, oldMark: string, newMark: string, hunks: seq<string>)
    requires Word(f.oldName) && Word(f.newName) && !f.binary && f.hunks != [] && HunksOf(hunks) == f.hunks
    requires forall l :: l in extended ==> IsExtended(l)
    requires HasPrefix(oldMark, "--- ") && HasPrefix(newMark, "+++ ")
    ensures FileOf([GitLine(f)] + (extended + ([oldMark] + ([newMark] + hunks)))) == Some(f)
  {
    GitLineReads(f);
    MarkStarts(oldMark, "--- ");
    OtherStart(oldMark, "Binary files ");
    SkipsToMarks(f, extended, [oldMark] + ([newMark] + hunks));
    NameIsKept(oldMark, [newMark] + hunks, "--- ", "a/", f.oldName);
    NameIsKept(newMark, hunks, "+++ ", "b/", f.newName);
  }

  lemma BinaryFileReads(f: DiffFile, extended: seq<string>, binaryMark: string)
    requires Word(f.oldName) && Word(f.newName) && f.binary && f.hunks == []
    requires forall l :: l in extended ==> IsExtended(l)
    requires HasPrefix(binaryMark, "Binary files ")
    ensures FileOf([GitLine(f)] + (extended + [binaryMark])) == Some(f)
  {
    GitLineReads(f);
    MarkStarts(binaryMark, "Binary files ");
    SkipsToMarks(f, extended, [binaryMark]);
  }

  lemma NameIsTaken(name: string, rest: seq<string>, marker: string, side: string)
    ensures TakeName([marker + (side + name)] + rest, marker, side, "") == (name, rest)
  {
    var mark := marker + (side + name);
    assert mark[|marker|..] == side + name && (side + name)[|side|..] == name;
    assert ([mark] + rest)[1..] == rest;
  }

  /** A diff of one file without a git line takes its names, white space and all, from the lines before the hunks. */
  lemma PlainFileReads(f: DiffFile, unended: set<DiffLine>)
    requires !f.binary && f.hunks != [] && forall h :: h in f.hunks ==> GoodHunk(h)
    ensures FileOf(["--- " + ("a/" + f.oldName)] + (["+++ " + ("b/" + f.newName)] + PrintHunks(f.hunks, unended))) == Some(f)
  {
    var oldMark, newMark, hunks := "--- " + ("a/" + f.oldName), "+++ " + ("b/" + f.newName), PrintHunks(f.hunks, unended);
    HunksRead(f.hunks, unended);
    PlainMarksRead(f, oldMark, newMark, hunks);
  }

  lemma PlainMarksRead(f: DiffFile, oldMark: string, newMark: string, hunks: seq<string>)
    requires !f.binary && f.hunks != [] && HunksOf(hunks) == f.hunks
    requires oldMark == "--- " + ("a/" + f.oldName) && newMark == "+++ " + ("b/" + f.newName)
    ensures FileOf([oldMark] + ([newMark] + hunks)) == Some(f)
  {
    MarkStarts(oldMark, "--- ");
    OtherStart(oldMark, "Binary files ");
    NameIsTaken(f.oldName, [newMark] + hunks, "--- ", "a/");
    NameIsTaken(f.newName, hunks, "+++ ", "b/");
  }

  /** A section without hunks that is not binary, such as one that only renames, gives no file. */
  lemma EmptySectionIsDropped(f: DiffFile, extended: seq<Extended>)
    requires forall x :: x in extended ==> OneLine(x.text)
    ensures FileOf([GitLine(f)] + PrintAllExtended(extended)) == None
  {
    var printed := PrintAllExtended(extended);
    AllAreExtended(extended);
    GitLineReads(f);
    assert ([GitLine(f)] + printed)[1..] == printed;
    AllSkipped(printed);
  }

  lemma {:induction false} AllSkipped(lines: seq<string>)
    requires forall l :: l in lines ==> IsExtended(l)
    ensures SkipExtended(lines) == []
  {
    if lines != [] {
      assert lines[0] in lines;
      assert forall l :: l in lines[1..] ==> l in lines;
      AllSkipped(lines[1..]);
    }
  }

  lemma SectionReads(s: Section)
    requires GoodSection(s)
    ensures FileOf(PrintSection(s)) == Some(s.file)
  {
    AllAreExtended(s.extended);
    if s.file.binary {
      BinaryFileReads(s.file, PrintAllExtended(s.extended), s.binaryMark);
    } else {
      HunksRead(s.file.hunks, s.unended);
      TextFileReads(s.file, PrintAllExtended(s.extended), s.oldMark, s.newMark, PrintHunks(s.file.hunks, s.unended));
    }
  }

  // ---- whole diffs ----

  /** A line inside a section. */
  predicate Inner(line: string) {
    OneLine(line) && !IsGitLine(line)
  }

  lemma {:induction false} BodyIsInner(lines: seq<DiffLine>, unended: set<DiffLine>)
    requires forall l :: l in lines ==> OneLine(l.content)
    ensures forall s :: s in PrintLines(lines, unended) ==> Inner(s)
  {
    if lines != [] {
      var l := lines[|lines| - 1];
      BodyIsInner(lines[..|lines| - 1], unended);
      StartOfLine(l);
      MarkerIsSkipped();
      assert Inner(PrintLine(l));
    }
  }

  lemma {:induction false} HunksAreInner(hunks: seq<DiffHunk>, unended: set<DiffLine>)
    requires forall h :: h in hunks ==> GoodHunk(h)
    ensures forall s :: s in PrintHunks(hunks, unended) ==> Inner(s)
  {
    if hunks != [] {
      assert hunks[0] in hunks;
      assert forall k :: k in hunks[1..] ==> k in hunks;
      HunksAreInner(hunks[1..], unended);
      BodyIsInner(hunks[0].lines, unended);
      HeaderReads(hunks[0]);
    }
  }

  lemma TailIsInner(s: Section)
    requires GoodSection(s)
    ensures forall l :: l in Tail(s) ==> Inner(l)
  {
    AllAreExtended(s.extended);
    forall l | l in PrintAllExtended(s.extended) ensures Inner(l) {
      if IsGitLine(l) {
        GitIsNotExtended(l);
      }
    }
    if s.file.binary {
      MarkStarts(s.binaryMark, "Binary files ");
    } else {
      HunksAreInner(s.file.hunks, s.unended);
      MarkStarts(s.oldMark, "--- ");
      MarkStarts(s.newMark, "+++ ");
    }
  }

  lemma {:induction false} GroupTakesTail(tail: seq<string>, rest: seq<string>, done: seq<seq<string>>, current: seq<string>)
    requires forall l :: l in tail ==> Inner(l)
    ensures Grouped(tail + rest, done, current) == Grouped(rest, done, current + tail)
  {
    if tail == [] {
      assert tail + rest == rest && current + tail == current;
    } else {
      assert tail[0] in tail;
      assert (tail + rest)[1..] == tail[1..] + rest;
      assert current + [tail[0]] + tail[1..] == current + tail;
      GroupTakesTail(tail[1..], rest, done, current + [tail[0]]);
    }
  }

  /** The printed sections, each on its own. */
  function Pieces(sections: seq<Section>): seq<seq<string>> {
    if sections == [] then [] else [PrintSection(sections[0])] + Pieces(sections[1..])
  }

  lemma GroupTakesSection(git: string, tail: seq<string>, rest: seq<string>, done: seq<seq<string>>, current: seq<string>)
    requires IsGitLine(git) && forall l :: l in tail ==> Inner(l)
    ensures Grouped([git] + tail + rest, done, current)
         == Grouped(rest, if current == [] then done else done + [current], [git] + tail)
  {
    var all := [git] + tail + rest;
    assert all[0] == git && all[1..] == tail + rest;
    GroupTakesTail(tail, rest, if current == [] then done else done + [current], [git]);
  }

  lemma {:induction false} SectionsAreFound(sections: seq<Section>, done: seq<seq<string>>, current: seq<string>)
    requires forall s :: s in sections ==> GoodSection(s)
    ensures Grouped(PrintSections(sections), done, current)
         == (if current == [] then done else done + [current]) + Pieces(sections)
  {
    if sections != [] {
      var s, rest := sections[0], PrintSections(sections[1..]);
      assert s in sections;
      assert forall k :: k in sections[1..] ==> k in sections;
      GitLineReads(s.file);
      TailIsInner(s);
      var done' := if current == [] then done else done + [current];
      GroupTakesSection(GitLine(s.file), Tail(s), rest, done, current);
      SectionsAreFound(sections[1..], done', PrintSection(s));
      Regroup(done', [PrintSection(s)], Pieces(sections[1..]));
    }
  }

  lemma {:induction false} PiecesAt(sections: seq<Section>)
    ensures |Pieces(sections)| == |sections|
    ensures forall i :: 0 <= i < |sections| ==> Pieces(sections)[i] == PrintSection(sections[i])
  {
    if sections != [] {
      PiecesAt(sections[1..]);
    }
  }

  lemma {:induction false} PiecesRead(sections: seq<Section>, pieces: seq<seq<string>>)
    requires forall s :: s in sections ==> GoodSection(s)
    requires |pieces| == |sections| && forall i :: 0 <= i < |sections| ==> pieces[i] == PrintSection(sections[i])
    ensures FilesOf(pieces) == Files(sections)
  {
    if sections != [] {
      var n := |sections| - 1;
      assert sections[n] in sections;
      PiecesRead(sections[..n], pieces[..n]);
      SectionReads(sections[n]);
    }
  }

  lemma {:induction false} TerminatedSplits(lines: seq<string>)
    requires forall l :: l in lines ==> OneLine(l)
    ensures Split(Terminated(lines)) == lines + [""]
  {
    if lines != [] {
      assert lines[0] in lines;
      assert forall l :: l in lines[1..] ==> l in lines;
      TerminatedSplits(lines[1..]);
      SplitLine(lines[0], Terminated(lines[1..]));
      assert [lines[0]] + (lines[1..] + [""]) == lines + [""];
    }
  }

  lemma {:induction false} PrintedLinesAreLines(sections: seq<Section>)
    requires forall s :: s in sections ==> GoodSection(s)
    ensures forall l :: l in PrintSections(sections) ==> OneLine(l)
  {
    if sections != [] {
      var s := sections[0];
      assert s in sections;
      assert forall k :: k in sections[1..] ==> k in sections;
      PrintedLinesAreLines(sections[1..]);
      assert forall l :: l in PrintSection(s) ==> OneLine(l) by {
        TailIsInner(s);
        assert IsSpace('\n');
        assert OneLine(GitLine(s.file));
      }
    }
  }

  /** Parsing a printed diff gives back its files. */
  lemma ParseUndoesPrint(sections: seq<Section>)
    requires forall s :: s in sections ==> GoodSection(s)
    ensures Parsed(Print(sections)) == Files(sections)
  {
    if sections == [] {
      assert Print(sections) == "";
    } else {
      var lines := PrintSections(sections);
      PrintedLinesAreLines(sections);
      TerminatedSplits(lines);
      assert (lines + [""])[..|lines|] == lines;
      assert DiffLines(Print(sections)) == lines;
      SectionsAreFound(sections, [], []);
      PiecesAt(sections);
      assert Sections(lines) == Pieces(sections);
      PiecesRead(sections, Pieces(sections));
    }
  }

  // ---- numbering, whatever the text ----

  lemma {:induction false} BodyIsNumbered(body: seq<string>, oldStart: nat, newStart: nat)
    ensures Numbered(BodyOf(body, oldStart, newStart), oldStart, newStart)
  {
    if body != [] {
      var before := BodyOf(body[..|body| - 1], oldStart, newStart);
      BodyIsNumbered(body[..|body| - 1], oldStart, newStart);
      var after := BodyOf(body, oldStart, newStart);
      forall i: nat | i < |after| ensures NumberedAt(after, i, oldStart, newStart) {
        assert after[..i] == before[..i];
        if i < |before| {
          assert NumberedAt(before, i, oldStart, newStart);
        } else {
          assert before[..i] == before;
        }
      }
    }
  }

  ghost predicate Clean(lines: seq<string>) {
    forall l :: l in lines ==> OneLine(l)
  }

  lemma {:induction false} BodyIsOneLine(body: seq<string>, oldStart: nat, newStart: nat)
    requires Clean(body)
    ensures forall l :: l in BodyOf(body, oldStart, newStart) ==> OneLine(l.content)
  {
    if body != [] {
      BodyIsOneLine(body[..|body| - 1], oldStart, newStart);
      assert body[|body| - 1] in body;
    }
  }

  /** The lines are numbered from the starts, and none of them holds a newline. */
  ghost predicate Sound(h: DiffHunk) {
    Numbered(h.lines, h.oldStart, h.newStart) && forall l :: l in h.lines ==> OneLine(l.content)
  }

  ghost predicate AllSound(hunks: seq<DiffHunk>) {
    forall h :: h in hunks ==> Sound(h)
  }

  lemma {:induction false} HunksAreSound(lines: seq<string>)
    requires Clean(lines)
    ensures AllSound(HunksOf(lines))
    decreases |lines|
  {
    if lines != [] {
      if !HasPrefix(lines[0], "@@") {
        HunksAreSound(lines[1..]);
      } else {
        var n := HunkAt(lines).1;
        HunksAreSound(lines[n..]);
        var header := ReadHeader(lines[0]);
        if header.Some? {
          var body := lines[1..1 + BodyLength(lines[1..])];
          BodyIsNumbered(body, header.value.0, header.value.2);
          BodyIsOneLine(body, header.value.0, header.value.2);
        }
      }
    }
  }

  lemma {:induction false} SkippingStaysClean(lines: seq<string>)
    requires Clean(lines)
    ensures Clean(SkipExtended(lines))
  {
    if lines != [] && IsExtended(lines[0]) {
      SkippingStaysClean(lines[1..]);
    }
  }

  lemma FileIsSound(lines: seq<string>)
    requires Clean(lines)
    ensures FileOf(lines).Some? ==> AllSound(FileOf(lines).value.hunks)
  {
    if lines != [] {
      var git := IsGitLine(lines[0]);
      var (oldName, newName) := if git then GitNames(lines[0]) else ("", "");
      SkippingStaysClean(if git then lines[1..] else lines);
      var rest := SkipExtended(if git then lines[1..] else lines);
      var (o, rest1) := TakeName(rest, "--- ", "a/", oldName);
      var (n, rest2) := TakeName(rest1, "+++ ", "b/", newName);
      HunksAreSound(rest2);
    }
  }

  lemma {:induction false} FilesAreSound(sections: seq<seq<string>>)
    requires forall s :: s in sections ==> Clean(s)
    ensures forall f :: f in FilesOf(sections) ==> AllSound(f.hunks)
  {
    if sections != [] {
      assert sections[|sections| - 1] in sections;
      FilesAreSound(sections[..|sections| - 1]);
      FileIsSound(sections[|sections| - 1]);
    }
  }

  lemma {:induction false} GroupingStaysClean(lines: seq<string>, done: seq<seq<string>>, current: seq<string>)
    requires Clean(lines) && Clean(current) && forall s :: s in done ==> Clean(s)
    ensures forall s :: s in Grouped(lines, done, current) ==> Clean(s)
  {
    if lines != [] {
      assert lines[0] in lines;
      var done' := if current != [] then done + [current] else done;
      if IsGitLine(lines[0]) {
        GroupingStaysClean(lines[1..], done', [lines[0]]);
      } else {
        GroupingStaysClean(lines[1..], done, current + [lines[0]]);
      }
    }
  }

  /** Every line of every hunk parsed from any text carries the right line numbers, and no newline. */
  lemma ParsedIsSound(text: string)
    ensures forall f :: f in Parsed(text) ==> AllSound(f.hunks)
  {
    if text != "" {
      SplitLinesAreOneLine(text);
      GroupingStaysClean(DiffLines(text), [], []);
      FilesAreSound(Sections(DiffLines(text)));
    }
  }
}
