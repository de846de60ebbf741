/** Incremental extraction of test results from streamed output. */
module Extractor {
  import opened Text
  import opened Prelude

  datatype Test = Test(name: string, status: string, duration: string)

  datatype Pkg = Pkg(name: string, status: string)

  /** What has been extracted from complete lines. */
  datatype Results = Results(tests: seq<Test>, pkgs: seq<Pkg>, runCount: nat, sawPause: bool)

  const NOTHING := Results([], [], 0, false)

  // ---- the patterns ----

  predicate IsSpace(c: char) {
    c == ' ' || c == '\t' || c == '\n' || c == '\r' || c == '\U{000C}'
  }

  predicate IsNotSpace(c: char) {
    !IsSpace(c)
  }

  predicate IsDurationChar(c: char) {
    '0' <= c <= '9' || c == '.'
  }

  /** How many leading characters satisfy p. */
  function Span(s: string, p: char -> bool): (n: nat)
    ensures n <= |s|
    ensures forall i :: 0 <= i < n ==> p(s[i])
    ensures n < |s| ==> !p(s[n])
  {
    if s == "" || !p(s[0]) then 0 else 1 + Span(s[1..], p)
  }

  /** === RUN, white space, a name. */
  predicate IsRun(line: string) {
    HasPrefix(line, "=== RUN") && |line| >= 9 && IsSpace(line[7])
  }

  /** === PAUSE and white space. */
  predicate IsPause(line: string) {
    HasPrefix(line, "=== PAUSE") && |line| >= 10 && IsSpace(line[9])
  }

  /** Splits "name (1.25s)" into its name and its duration. */
  function NameAndDuration(s: string): Option<(string, string)> {
    if |s| < 2 || s[|s| - 2..] != "s)" then None
    else
      var body := s[..|s| - 2];
      var digits := LastSpan(body);
      var before := body[..|body| - digits];
      if digits == 0 || |before| < 3 || before[|before| - 2..] != " (" then None
      else Some((before[..|before| - 2], body[|body| - digits..]))
  }

  /** How many trailing characters belong to a duration. */
  function LastSpan(s: string): (n: nat)
    ensures n <= |s|
  {
    if s == "" || !IsDurationChar(s[|s| - 1]) then 0 else 1 + LastSpan(s[..|s| - 1])
  }

  /** --- PASS: name (1.25s), perhaps indented. */
  function TestEnd(line: string): Option<Test> {
    var t := line[Span(line, IsSpace)..];
    if |t| < 10 || t[..4] != "--- " || t[8..10] != ": " || t[4..8] !in {"PASS", "FAIL", "SKIP"} then None
    else match NameAndDuration(t[10..])
      case Some((name, duration)) => Some(Test(name, t[4..8], duration))
      case None => None
  }

  /** A word, white space, a package name, white space and a duration. */
  function PkgLine(line: string, word: string, status: string): Option<Pkg> {
    if !HasPrefix(line, word) then None
    else
      var a := line[|word|..];
      var b := a[Span(a, IsSpace)..];
      var name := b[..Span(b, IsNotSpace)];
      var d := b[|name|..];
      var e := d[Span(d, IsSpace)..];
      var f := e[Span(e, IsDurationChar)..];
      if |b| == |a| || name == "" || |e| == |d| || |f| == |e| || !HasPrefix(f, "s") then None
      else Some(Pkg(name, status))
  }

  function ProcessLine(r: Results, line: string): Results {
    if IsRun(line) then r.(runCount := r.runCount + 1)
    else if IsPause(line) then r.(sawPause := true)
    else match TestEnd(line)
      case Some(test) => r.(tests := r.tests + [test])
      case None =>
        match PkgLine(line, "ok", "ok")
        case Some(pkg) => r.(pkgs := r.pkgs + [pkg])
        case None =>
          match PkgLine(line, "FAIL", "FAIL")
          case Some(pkg) => r.(pkgs := r.pkgs + [pkg])
          case None => r
  }

  function ProcessLines(r: Results, lines: seq<string>): Results {
    if lines == [] then r else ProcessLine(ProcessLines(r, lines[..|lines| - 1]), lines[|lines| - 1])
  }

  // ---- chunks ----

  class GoTestExtractor {
    var tests: seq<Test>
    var pkgs: seq<Pkg>
    var runCount: nat
    var sawPause: bool
    var pending: string

    function Extracted(): Results
      reads this
    {
      Results(tests, pkgs, runCount, sawPause)
    }

    constructor ()
      ensures Extracted() == NOTHING && pending == ""
    {
      tests, pkgs, runCount, sawPause, pending := [], [], 0, false, "";
    }

    /** Takes the next chunk of output, which may end in the middle of a line. After any number of calls the
        state is that of the text received so far, however it was cut: `text` is that text. */
    method Ingest(chunk: string, ghost text: string)
      requires Extracted() == ResultsOf(text) && pending == PendingOf(text)
      modifies this
      ensures Extracted() == ResultsOf(text + chunk) && pending == PendingOf(text + chunk)
    {
      IngestExtends(text, chunk);
      var data := pending + chunk;
      pending := "";
      var lines: seq<string> := Split(data);
      if !(|chunk| > 0 && chunk[|chunk| - 1] == '\n') {
        pending := lines[|lines| - 1];
        lines := lines[..|lines| - 1];
      }
      ProcessAll(lines);
    }

    method ProcessAll(lines: seq<string>)
      modifies this`tests, this`pkgs, this`runCount, this`sawPause
      ensures Extracted() == ProcessLines(old(Extracted()), lines)
    {
      for i := 0 to |lines|
        invariant Extracted() == ProcessLines(old(Extracted()), lines[..i])
      {
        assert lines[..i + 1][..i] == lines[..i];
        Process(lines[i]);
      }
      assert lines[..|lines|] == lines;
    }

    method Process(line: string)
      modifies this`tests, this`pkgs, this`runCount, this`sawPause
      ensures Extracted() == ProcessLine(old(Extracted()), line)
    {
      if IsRun(line) {
        runCount := runCount + 1;
        return;
      }
      if IsPause(line) {
        sawPause := true;
        return;
      }
      var test := TestEnd(line);
      if test.Some? {
        tests := tests + [test.value];
        return;
      }
      var pkg := PkgLine(line, "ok", "ok");
      if pkg.Some? {
        pkgs := pkgs + [pkg.value];
        return;
      }
      pkg := PkgLine(line, "FAIL", "FAIL");
      if pkg.Some? {
        pkgs := pkgs + [pkg.value];
      }
    }
  }

  /** The results of a whole text: those of its complete lines. */
  function ResultsOf(text: string): Results {
    var lines := Split(text);
    ProcessLines(NOTHING, lines[..|lines| - 1])
  }

  /** The incomplete last line of a text. */
  function PendingOf(text: string): string {
    var lines := Split(text);
    lines[|lines| - 1]
  }

  lemma {:induction false} ProcessConcat(r: Results, a: seq<string>, b: seq<string>)
    ensures ProcessLines(r, a + b) == ProcessLines(ProcessLines(r, a), b)
    decreases |b|
  {
    if b == [] {
      assert a + b == a;
    } else {
      assert (a + b)[..|a + b| - 1] == a + b[..|b| - 1];
      ProcessConcat(r, a, b[..|b| - 1]);
    }
  }

  lemma PendingIsOneLine(text: string)
    ensures Split(PendingOf(text)) == [PendingOf(text)]
  {
    SplitLinesAreOneLine(text);
    assert PendingOf(text) in Split(text);
    SplitOneLine(PendingOf(text));
  }

  /** The lines of text + chunk are those of text but the last, then those of the last and the chunk. */
  lemma SplitAcross(text: string, chunk: string)
    ensures var x := Split(text);
            Split(text + chunk) == x[..|x| - 1] + Split(PendingOf(text) + chunk)
  {
    SplitConcat(text, chunk);
    SplitConcat(PendingOf(text), chunk);
    PendingIsOneLine(text);
  }

  lemma {:induction false} NewlineEndsLastLine(s: string)
    requires s != "" && s[|s| - 1] == '\n'
    ensures PendingOf(s) == ""
  {
    assert s == s[..|s| - 1] + "\n";
    SplitConcat(s[..|s| - 1], "\n");
    assert Split("\n") == ["", ""] by {
      assert "\n"[1..] == "";
      assert [""] + [""] == ["", ""];
    }
  }

  lemma IngestExtends(text: string, chunk: string)
    ensures var lines := Split(PendingOf(text) + chunk);
            && PendingOf(text + chunk) == lines[|lines| - 1]
            && ResultsOf(text + chunk) == ProcessLines(ResultsOf(text), lines[..|lines| - 1])
            && (chunk != "" && chunk[|chunk| - 1] == '\n' ==>
                  lines[|lines| - 1] == "" && ResultsOf(text + chunk) == ProcessLines(ResultsOf(text), lines))
  {
    var x, lines := Split(text), Split(PendingOf(text) + chunk);
    var front := x[..|x| - 1];
    SplitAcross(text, chunk);
    assert (front + lines)[..|front + lines| - 1] == front + lines[..|lines| - 1];
    ProcessConcat(NOTHING, front, lines[..|lines| - 1]);
    if chunk != "" && chunk[|chunk| - 1] == '\n' {
      NewlineEndsLastLine(PendingOf(text) + chunk);
      assert lines[|lines| - 1] == "";
      EmptyLineSaysNothing(ResultsOf(text), lines);
    }
  }

  lemma EmptyLineSaysNothing(r: Results, lines: seq<string>)
    requires lines != [] && lines[|lines| - 1] == ""
    ensures ProcessLines(r, lines) == ProcessLines(r, lines[..|lines| - 1])
  {
  }

  // ---- chunking does not matter ----

  function Concat(chunks: seq<string>): string {
    if chunks == [] then "" else Concat(chunks[..|chunks| - 1]) + chunks[|chunks| - 1]
  }

  method IngestAll(chunks: seq<string>) returns (e: GoTestExtractor)
    ensures fresh(e) && e.Extracted() == ResultsOf(Concat(chunks)) && e.pending == PendingOf(Concat(chunks))
  {
    e := new GoTestExtractor();
    for i := 0 to |chunks|
      invariant fresh(e) && e.Extracted() == ResultsOf(Concat(chunks[..i])) && e.pending == PendingOf(Concat(chunks[..i]))
    {
      assert chunks[..i + 1][..i] == chunks[..i];
      e.Ingest(chunks[i], Concat(chunks[..i]));
    }
    assert chunks[..|chunks|] == chunks;
  }

  // ---- reading what go test prints ----

  lemma {:induction false} SpanTakes(front: string, rest: string, p: char -> bool)
    requires forall c :: c in front ==> p(c)
    requires rest == "" || !p(rest[0])
    ensures Span(front + rest, p) == |front|
  {
    if front == "" {
      assert front + rest == rest;
    } else {
      assert front[0] in front && (front + rest)[1..] == front[1..] + rest;
      SpanTakes(front[1..], rest, p);
    }
  }

  lemma {:induction false} LastSpanTakes(rest: string, back: string)
    requires forall c :: c in back ==> IsDurationChar(c)
    requires rest == "" || !IsDurationChar(rest[|rest| - 1])
    ensures LastSpan(rest + back) == |back|
  {
    if back == "" {
      assert rest + back == rest;
    } else {
      var n := |back| - 1;
      assert back[n] in back && (rest + back)[..|rest| + n] == rest + back[..n];
      LastSpanTakes(rest, back[..n]);
    }
  }

  predicate IsBlank(s: string) {
    forall c :: c in s ==> IsSpace(c)
  }

  predicate IsDuration(s: string) {
    s != "" && forall c :: c in s ==> IsDurationChar(c)
  }

  predicate IsWord(s: string) {
    s != "" && forall c :: c in s ==> !IsSpace(c)
  }

  lemma NameAndDurationReads(name: string, duration: string)
    requires name != "" && IsDuration(duration)
    ensures NameAndDuration(name + " (" + duration + "s)") == Some((name, duration))
  {
    var s, front := name + " (" + duration + "s)", name + " (";
    assert s[|s| - 2..] == "s)" && s[..|s| - 2] == front + duration;
    LastSpanTakes(front, duration);
    assert (front + duration)[..|front|] == front && (front + duration)[|front|..] == duration;
    assert front[|front| - 2..] == " (" && front[..|front| - 2] == name;
  }

  /** The line of a finished test, at any depth of subtests: whatever its name, its status, name and duration are
      recorded, and nothing else changes. */
  lemma TestLineReads(r: Results, indent: string, status: string, name: string, duration: string)
    requires IsBlank(indent) && status in {"PASS", "FAIL", "SKIP"} && name != "" && IsDuration(duration)
    ensures ProcessLine(r, indent + ("--- " + status + ": " + (name + " (" + duration + "s)"))) ==
            r.(tests := r.tests + [Test(name, status, duration)])
  {
    var t := "--- " + status + ": " + (name + " (" + duration + "s)");
    var line := indent + t;
    SpanTakes(indent, t, IsSpace);
    assert line[|indent|..] == t;
    assert t[..4] == "--- " && t[4..8] == status && t[8..10] == ": " && t[10..] == name + " (" + duration + "s)";
    NameAndDurationReads(name, duration);
    assert TestEnd(line) == Some(Test(name, status, duration));
    OnePattern(line);
  }

  /** No other line is read as a test. */
  lemma TestLineIsShaped(line: string) returns (indent: string)
    requires TestEnd(line).Some?
    ensures var test := TestEnd(line).value;
            && IsBlank(indent) && test.status in {"PASS", "FAIL", "SKIP"} && test.name != "" && IsDuration(test.duration)
            && line == indent + ("--- " + test.status + ": " + (test.name + " (" + test.duration + "s)"))
  {
    indent := line[..Span(line, IsSpace)];
    var t := line[Span(line, IsSpace)..];
    var pair := NameIsShaped(t[10..]);
    Cut(line, Span(line, IsSpace));
    StatusCut(t);
  }

  lemma StatusCut(t: string)
    requires |t| >= 10 && t[..4] == "--- " && t[8..10] == ": "
    ensures t == "--- " + t[4..8] + ": " + t[10..]
  {
  }

  lemma NameIsShaped(s: string) returns (pair: (string, string))
    requires NameAndDuration(s).Some?
    ensures pair == NameAndDuration(s).value && pair.0 != "" && IsDuration(pair.1) && s == pair.0 + " (" + pair.1 + "s)"
  {
    pair := NameAndDuration(s).value;
    var body := s[..|s| - 2];
    var before := body[..|body| - LastSpan(body)];
    LastSpanIsDuration(body);
    assert s == body + "s)" && body == before + pair.1 && before == pair.0 + " (";
  }

  lemma {:induction false} LastSpanIsDuration(s: string)
    ensures forall c :: c in s[|s| - LastSpan(s)..] ==> IsDurationChar(c)
  {
    if s != "" && IsDurationChar(s[|s| - 1]) {
      var front := s[..|s| - 1];
      LastSpanIsDuration(front);
      assert s[|s| - LastSpan(s)..] == front[|front| - LastSpan(front)..] + [s[|s| - 1]];
    }
  }

  /** No other line is read as a package's. */
  lemma PkgLineIsShaped(line: string, word: string, status: string)
    returns (gap: string, gap2: string, duration: string, rest: string)
    requires PkgLine(line, word, status).Some?
    ensures var name := PkgLine(line, word, status).value.name;
            && gap != "" && IsBlank(gap) && IsWord(name) && gap2 != "" && IsBlank(gap2) && IsDuration(duration)
            && line == word + (gap + (name + (gap2 + (duration + ("s" + rest)))))
            && PkgLine(line, word, status).value.status == status
  {
    var a := line[|word|..];
    gap := a[..Span(a, IsSpace)];
    var b := a[Span(a, IsSpace)..];
    var name := b[..Span(b, IsNotSpace)];
    var d := b[|name|..];
    gap2 := d[..Span(d, IsSpace)];
    var e := d[Span(d, IsSpace)..];
    duration := e[..Span(e, IsDurationChar)];
    var f := e[Span(e, IsDurationChar)..];
    rest := f[1..];
    PrefixCut(f, "s");
    Cut(e, Span(e, IsDurationChar));
    Cut(d, Span(d, IsSpace));
    Cut(b, |name|);
    Cut(a, Span(a, IsSpace));
    PrefixCut(line, word);
  }

  lemma SpanCuts(front: string, rest: string, p: char -> bool)
    requires forall c :: c in front ==> p(c)
    requires rest == "" || !p(rest[0])
    ensures Span(front + rest, p) == |front| && (front + rest)[|front|..] == rest && (front + rest)[..|front|] == front
  {
    SpanTakes(front, rest, p);
  }

  lemma PkgCut(word: string, status: string, a: string, b: string, d: string, e: string, f: string, name: string)
    requires a[Span(a, IsSpace)..] == b && |b| < |a|
    requires b[..Span(b, IsNotSpace)] == name != "" && b[|name|..] == d
    requires d[Span(d, IsSpace)..] == e && |e| < |d|
    requires e[Span(e, IsDurationChar)..] == f && |f| < |e| && HasPrefix(f, "s")
    ensures PkgLine(word + a, word, status) == Some(Pkg(name, status))
  {
    assert (word + a)[|word|..] == a;
  }

  lemma WordThenPkg(word: string, status: string, gap: string, name: string, gap2: string, duration: string, rest: string)
    requires gap != "" && IsBlank(gap) && IsWord(name) && gap2 != "" && IsBlank(gap2) && IsDuration(duration)
    ensures PkgLine(word + (gap + (name + (gap2 + (duration + ("s" + rest))))), word, status) == Some(Pkg(name, status))
  {
    var f := "s" + rest;
    var e := duration + f;
    var d := gap2 + e;
    var b := name + d;
    var a := gap + b;
    assert b[0] == name[0] && name[0] in name && d[0] == gap2[0] && gap2[0] in gap2;
    assert e[0] == duration[0] && duration[0] in duration;
    SpanCuts(gap, b, IsSpace);
    SpanCuts(name, d, IsNotSpace);
    SpanCuts(gap2, e, IsSpace);
    SpanCuts(duration, f, IsDurationChar);
    PkgCut(word, status, a, b, d, e, f, name);
  }

  /** The line of a package: its name is recorded with the status its first word gives. */
  lemma PkgLineReads(r: Results, ok: bool, gap: string, name: string, gap2: string, duration: string, rest: string)
    requires gap != "" && IsBlank(gap) && IsWord(name) && gap2 != "" && IsBlank(gap2) && IsDuration(duration)
    ensures ProcessLine(r, (if ok then "ok" else "FAIL") + (gap + (name + (gap2 + (duration + ("s" + rest)))))) ==
            r.(pkgs := r.pkgs + [Pkg(name, if ok then "ok" else "FAIL")])
  {
    var word := if ok then "ok" else "FAIL";
    var line := word + (gap + (name + (gap2 + (duration + ("s" + rest)))));
    WordThenPkg(word, word, gap, name, gap2, duration, rest);
    assert line[0] == word[0];
    OnePattern(line);
  }

  /** A test that starts is counted, and a paused one is noted. */
  lemma RunAndPauseRead(r: Results, gap: char, name: string)
    requires IsSpace(gap)
    ensures name != "" ==> ProcessLine(r, "=== RUN" + ([gap] + name)) == r.(runCount := r.runCount + 1)
    ensures ProcessLine(r, "=== PAUSE" + ([gap] + name)) == r.(sawPause := true)
  {
    var run, pause := "=== RUN" + ([gap] + name), "=== PAUSE" + ([gap] + name);
    assert run[7] == gap && pause[9] == gap && pause[4] == 'P' && run[4] == 'R';
  }

  /** No line is read by two of the five patterns, so their order does not matter. */
  lemma OnePattern(line: string)
    ensures var a, b, c := IsRun(line), IsPause(line), TestEnd(line).Some?;
            var d, e := PkgLine(line, "ok", "ok").Some?, PkgLine(line, "FAIL", "FAIL").Some?;
            && (a ==> !b && !c && !d && !e) && (b ==> !c && !d && !e) && (c ==> !d && !e) && (d ==> !e)
  {
    if IsRun(line) {
      assert line[0] == '=' && line[4] == 'R';
    }
    if IsPause(line) {
      assert line[0] == '=' && line[4] == 'P';
    }
    if HasPrefix(line, "ok") {
      assert line[0] == 'o';
    }
    if HasPrefix(line, "FAIL") {
      assert line[0] == 'F';
    }
    if TestEnd(line).Some? {
      var n := Span(line, IsSpace);
      assert line[n..][..4] == "--- ";
      assert line[n] == '-';
      assert n > 0 ==> IsSpace(line[0]);
    }
  }
}
