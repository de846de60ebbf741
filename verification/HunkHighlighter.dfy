/** Highlighting the lines of a diff by their place in the text they were taken from. Each side of a file is
    put together from its lines and highlighted as one text. A line is then looked up in the result by
    counting, and what is proved is that the count never slips: each line finds the entry for itself. */
module HunkHighlighter {
  import opened Text
  import opened Prelude
  import opened UnifiedDiff
  import opened DiffPrinting

  /** Where a line is in the old and in the new text; -1 off that side. */
  datatype Ref = Ref(oldIdx: int, newIdx: int)

  function Flatten(hunks: seq<DiffHunk>): seq<DiffLine> {
    if hunks == [] then [] else Flatten(hunks[..|hunks| - 1]) + hunks[|hunks| - 1].lines
  }

  lemma FlattenSnoc(hunks: seq<DiffHunk>, h: nat)
    requires h < |hunks|
    ensures Flatten(hunks[..h + 1]) == Flatten(hunks[..h]) + hunks[h].lines
  {
    assert hunks[..h + 1][..h] == hunks[..h];
  }

  /** The lines of the old text. */
  function OldLines(lines: seq<DiffLine>): seq<string> {
    if lines == [] then []
    else OldLines(lines[..|lines| - 1]) + if OnOldSide(lines[|lines| - 1]) then [lines[|lines| - 1].content] else []
  }

  function NewLines(lines: seq<DiffLine>): seq<string> {
    if lines == [] then []
    else NewLines(lines[..|lines| - 1]) + if OnNewSide(lines[|lines| - 1]) then [lines[|lines| - 1].content] else []
  }

  function RefOf(l: DiffLine, oldIdx: nat, newIdx: nat): Ref {
    Ref(if OnOldSide(l) then oldIdx else -1, if OnNewSide(l) then newIdx else -1)
  }

  function RefsOf(lines: seq<DiffLine>): seq<Ref> {
    if lines == [] then []
    else
      var before := lines[..|lines| - 1];
      RefsOf(before) + [RefOf(lines[|lines| - 1], OldCount(before), NewCount(before))]
  }

  function Entry(highlighted: seq<string>, i: int, plain: string): string {
    if 0 <= i < |highlighted| then highlighted[i] else plain
  }

  /** The entry of the side a line is looked up on: the old text, unless the line was added. */
  function Looked(l: DiffLine, ref: Ref, oldHL: seq<string>, newHL: seq<string>, plain: string): string {
    if l.kind == Add then Entry(newHL, ref.newIdx, plain) else Entry(oldHL, ref.oldIdx, plain)
  }

  lemma {:induction false} TerminatedSnoc(lines: seq<string>, last: string)
    ensures Terminated(lines + [last]) == Terminated(lines) + (last + "\n")
  {
    if lines == [] {
      assert [last][1..] == [];
      assert last + "\n" + "" == last + "\n";
    } else {
      TerminatedSnoc(lines[1..], last);
      assert (lines + [last])[1..] == lines[1..] + [last];
      Regroup(lines[0] + "\n", Terminated(lines[1..]), last + "\n");
    }
  }

  /** The texts and references gathered so far. */
  datatype Gathered = Gathered(oldContent: string, newContent: string, refs: seq<Ref>, oldIdx: nat, newIdx: nat)

  function GatheredFrom(lines: seq<DiffLine>): Gathered {
    Gathered(Terminated(OldLines(lines)), Terminated(NewLines(lines)), RefsOf(lines), OldCount(lines), NewCount(lines))
  }

  method GatherLine(g: Gathered, dl: DiffLine, ghost before: seq<DiffLine>) returns (g': Gathered)
    requires g == GatheredFrom(before)
    ensures g' == GatheredFrom(before + [dl])
  {
    var oldContent, newContent, oldIdx, newIdx := g.oldContent, g.newContent, g.oldIdx, g.newIdx;
    var ref := Ref(-1, -1);
    match dl.kind {
      case Context =>
        oldContent := oldContent + (dl.content + "\n");
        newContent := newContent + (dl.content + "\n");
        ref := Ref(oldIdx, newIdx);
        oldIdx := oldIdx + 1;
        newIdx := newIdx + 1;
      case Remove =>
        oldContent := oldContent + (dl.content + "\n");
        ref := ref.(oldIdx := oldIdx);
        oldIdx := oldIdx + 1;
      case Add =>
        newContent := newContent + (dl.content + "\n");
        ref := ref.(newIdx := newIdx);
        newIdx := newIdx + 1;
    }
    g' := Gathered(oldContent, newContent, g.refs + [ref], oldIdx, newIdx);
    assert (before + [dl])[..|before|] == before;
    TerminatedSnoc(OldLines(before), dl.content);
    TerminatedSnoc(NewLines(before), dl.content);
    assert OldLines(before) + [] == OldLines(before) && NewLines(before) + [] == NewLines(before);
  }

  method GatherHunk(g: Gathered, lines: seq<DiffLine>, ghost before: seq<DiffLine>) returns (g': Gathered)
    requires g == GatheredFrom(before)
    ensures g' == GatheredFrom(before + lines)
  {
    g' := g;
    ghost var seen := before;
    for i := 0 to |lines|
      invariant seen == before + lines[..i] && g' == GatheredFrom(seen)
    {
      g' := GatherLine(g', lines[i], seen);
      TakeSnoc(lines, i);
      Regroup(before, lines[..i], [lines[i]]);
      seen := seen + [lines[i]];
    }
    assert lines[..|lines|] == lines;
  }

  method Gather(f: DiffFile) returns (g: Gathered)
    ensures g == GatheredFrom(Flatten(f.hunks))
  {
    g := Gathered("", "", [], 0, 0);
    for h := 0 to |f.hunks|
      invariant g == GatheredFrom(Flatten(f.hunks[..h]))
    {
      FlattenSnoc(f.hunks, h);
      g := GatherHunk(g, f.hunks[h].lines, Flatten(f.hunks[..h]));
    }
    assert f.hunks[..|f.hunks|] == f.hunks;
  }

  class Highlighter {
    const refs: seq<Ref>
    const oldHL: seq<string>
    const newHL: seq<string>
    const escape: string -> string
    var refIdx: nat

    constructor (highlight: string -> seq<string>, escape: string -> string, f: DiffFile)
      ensures refIdx == 0 && this.escape == escape && refs == RefsOf(Flatten(f.hunks))
      ensures oldHL == highlight(Terminated(OldLines(Flatten(f.hunks))))
      ensures newHL == highlight(Terminated(NewLines(Flatten(f.hunks))))
    {
      var g := Gather(f);
      this.refs := g.refs;
      this.oldHL := highlight(g.oldContent);
      this.newHL := highlight(g.newContent);
      this.escape := escape;
      this.refIdx := 0;
    }

    method Highlight(dl: DiffLine) returns (html: string)
      modifies this`refIdx
      ensures refIdx == if old(refIdx) < |refs| then old(refIdx) + 1 else old(refIdx)
      ensures html == if old(refIdx) < |refs| then Looked(dl, refs[old(refIdx)], oldHL, newHL, escape(dl.content))
                      else escape(dl.content)
    {
      if refIdx >= |refs| {
        return escape(dl.content);
      }
      var ref := refs[refIdx];
      refIdx := refIdx + 1;
      match dl.kind {
        case Remove =>
          if ref.oldIdx >= 0 && ref.oldIdx < |oldHL| { return oldHL[ref.oldIdx]; }
        case Add =>
          if ref.newIdx >= 0 && ref.newIdx < |newHL| { return newHL[ref.newIdx]; }
        case Context =>
          if ref.oldIdx >= 0 && ref.oldIdx < |oldHL| { return oldHL[ref.oldIdx]; }
      }
      return escape(dl.content);
    }
  }

  datatype Row = HunkRow(header: string) | LineRow(gutterOld: Option<nat>, gutterNew: Option<nat>, html: string)

  function RowOf(l: DiffLine, html: string): Row {
    LineRow(if OnOldSide(l) then Some(l.oldLine) else None, if OnNewSide(l) then Some(l.newLine) else None, html)
  }

  /** The text line k is looked up in, and its place there, found by counting the lines before it. */
  function SideLines(lines: seq<DiffLine>, k: nat): seq<string>
    requires k < |lines|
  {
    if lines[k].kind == Add then NewLines(lines) else OldLines(lines)
  }

  function Place(lines: seq<DiffLine>, k: nat): nat
    requires k < |lines|
  {
    if lines[k].kind == Add then NewCount(lines[..k]) else OldCount(lines[..k])
  }

  function Shown(lines: seq<DiffLine>, k: nat, highlight: string -> seq<string>, escape: string -> string): string
    requires k < |lines|
  {
    Entry(highlight(Terminated(SideLines(lines, k))), Place(lines, k), escape(lines[k].content))
  }

  function Shows(lines: seq<DiffLine>, highlight: string -> seq<string>, escape: string -> string): (s: seq<string>)
    ensures |s| == |lines| && forall k :: 0 <= k < |lines| ==> s[k] == Shown(lines, k, highlight, escape)
  {
    seq(|lines|, k requires 0 <= k < |lines| => Shown(lines, k, highlight, escape))
  }

  /** The rows of some lines, given what each shows. */
  function LineRows(lines: seq<DiffLine>, shows: seq<string>): seq<Row>
    requires |shows| == |lines|
  {
    if lines == [] then []
    else
      var n := |lines| - 1;
      LineRows(lines[..n], shows[..n]) + [RowOf(lines[n], shows[n])]
  }

  /** A header row for each of the first h hunks, and under it a row for each of its lines. */
  function RowsOf(hunks: seq<DiffHunk>, h: nat, shows: seq<string>): seq<Row>
    requires h <= |hunks| && |Flatten(hunks[..h])| <= |shows|
  {
    if h == 0 then []
    else
      FlattenSnoc(hunks, h - 1);
      var from, to := |Flatten(hunks[..h - 1])|, |Flatten(hunks[..h])|;
      RowsOf(hunks, h - 1, shows) + ([HunkRow(hunks[h - 1].header)] + LineRows(hunks[h - 1].lines, shows[from..to]))
  }

  lemma {:induction false} RefAt(lines: seq<DiffLine>, k: nat)
    requires k < |lines|
    ensures |RefsOf(lines)| == |lines|
    ensures RefsOf(lines)[k] == RefOf(lines[k], OldCount(lines[..k]), NewCount(lines[..k]))
  {
    var n := |lines| - 1;
    if k < n {
      RefAt(lines[..n], k);
      assert lines[..n][..k] == lines[..k];
    } else if n > 0 {
      RefAt(lines[..n], n - 1);
    }
  }

  lemma {:induction false} FlattenPrefix(hunks: seq<DiffHunk>, h: nat)
    requires h <= |hunks|
    ensures Flatten(hunks[..h]) <= Flatten(hunks)
  {
    if h == |hunks| {
      assert hunks[..h] == hunks;
    } else {
      FlattenPrefix(hunks[..|hunks| - 1], h);
      assert hunks[..|hunks| - 1][..h] == hunks[..h];
    }
  }

  lemma HunkSits(hunks: seq<DiffHunk>, h: nat)
    requires h < |hunks|
    ensures |Flatten(hunks[..h + 1])| == |Flatten(hunks[..h])| + |hunks[h].lines| <= |Flatten(hunks)|
    ensures forall i :: 0 <= i < |hunks[h].lines| ==> Flatten(hunks)[|Flatten(hunks[..h])| + i] == hunks[h].lines[i]
  {
    FlattenSnoc(hunks, h);
    FlattenPrefix(hunks, h + 1);
  }

  /** Asked for the lines in order, the highlighter gives shows. */
  ghost predicate Serves(hl: Highlighter, lines: seq<DiffLine>, shows: seq<string>) {
    && |shows| == |lines| == |hl.refs|
    && forall k :: 0 <= k < |lines| ==>
         Looked(lines[k], hl.refs[k], hl.oldHL, hl.newHL, hl.escape(lines[k].content)) == shows[k]
  }

  lemma NewServes(hl: Highlighter, lines: seq<DiffLine>, highlight: string -> seq<string>, escape: string -> string)
    requires hl.refs == RefsOf(lines) && hl.escape == escape
    requires hl.oldHL == highlight(Terminated(OldLines(lines))) && hl.newHL == highlight(Terminated(NewLines(lines)))
    ensures Serves(hl, lines, Shows(lines, highlight, escape))
  {
    if lines != [] {
      RefAt(lines, 0);
    }
    forall k | 0 <= k < |lines|
      ensures Looked(lines[k], hl.refs[k], hl.oldHL, hl.newHL, hl.escape(lines[k].content))
           == Shown(lines, k, highlight, escape)
    {
      RefAt(lines, k);
    }
  }

  method RenderLine(hl: Highlighter, dl: DiffLine, ghost lines: seq<DiffLine>, ghost shows: seq<string>) returns (row: Row)
    requires Serves(hl, lines, shows)
    requires hl.refIdx < |lines| && lines[hl.refIdx] == dl
    modifies hl`refIdx
    ensures hl.refIdx == old(hl.refIdx) + 1
    ensures row == RowOf(dl, shows[old(hl.refIdx)])
  {
    var gutterOld, gutterNew := None, None;
    match dl.kind {
      case Context => gutterOld, gutterNew := Some(dl.oldLine), Some(dl.newLine);
      case Add => gutterNew := Some(dl.newLine);
      case Remove => gutterOld := Some(dl.oldLine);
    }
    var html := hl.Highlight(dl);
    row := LineRow(gutterOld, gutterNew, html);
  }

  lemma LineRowsSnoc(lines: seq<DiffLine>, shows: seq<string>, i: nat)
    requires i < |lines| <= |shows|
    ensures LineRows(lines[..i + 1], shows[..i + 1]) == LineRows(lines[..i], shows[..i]) + [RowOf(lines[i], shows[i])]
  {
    assert lines[..i + 1][..i] == lines[..i];
    assert shows[..i + 1][..i] == shows[..i];
  }

  method RenderHunk(hl: Highlighter, hunk: DiffHunk, ghost all: seq<DiffLine>, ghost shows: seq<string>)
    returns (rows: seq<Row>)
    requires Serves(hl, all, shows)
    requires hl.refIdx + |hunk.lines| <= |all|
    requires forall i :: 0 <= i < |hunk.lines| ==> all[hl.refIdx + i] == hunk.lines[i]
    modifies hl`refIdx
    ensures hl.refIdx == old(hl.refIdx) + |hunk.lines|
    ensures rows == [HunkRow(hunk.header)] + LineRows(hunk.lines, shows[old(hl.refIdx)..hl.refIdx])
  {
    rows := [HunkRow(hunk.header)];
    ghost var base := hl.refIdx;
    ghost var mine := shows[base..];
    for i := 0 to |hunk.lines|
      invariant hl.refIdx == base + i
      invariant rows == [HunkRow(hunk.header)] + LineRows(hunk.lines[..i], mine[..i])
    {
      assert all[base + i] == hunk.lines[i] && mine[i] == shows[base + i];
      var row := RenderLine(hl, hunk.lines[i], all, shows);
      LineRowsSnoc(hunk.lines, mine, i);
      Regroup([HunkRow(hunk.header)], LineRows(hunk.lines[..i], mine[..i]), [row]);
      rows := rows + [row];
    }
    assert hunk.lines[..|hunk.lines|] == hunk.lines;
    assert mine[..|hunk.lines|] == shows[base..hl.refIdx];
  }

  /** The rows of one file, in order: the highlighter is asked once for each line. */
  method RenderFile(f: DiffFile, highlight: string -> seq<string>, escape: string -> string) returns (rows: seq<Row>)
    ensures |Flatten(f.hunks[..|f.hunks|])| == |Flatten(f.hunks)|
    ensures rows == RowsOf(f.hunks, |f.hunks|, Shows(Flatten(f.hunks), highlight, escape))
  {
    var hl := new Highlighter(highlight, escape, f);
    ghost var all := Flatten(f.hunks);
    ghost var shows := Shows(all, highlight, escape);
    NewServes(hl, all, highlight, escape);
    rows := RenderHunks(hl, f.hunks, shows);
    assert f.hunks[..|f.hunks|] == f.hunks;
  }

  method RenderHunks(hl: Highlighter, hunks: seq<DiffHunk>, ghost shows: seq<string>) returns (rows: seq<Row>)
    requires Serves(hl, Flatten(hunks), shows) && hl.refIdx == 0
    modifies hl`refIdx
    ensures |Flatten(hunks[..|hunks|])| == |Flatten(hunks)|
    ensures rows == RowsOf(hunks, |hunks|, shows)
  {
    rows := [];
    for h := 0 to |hunks|
      invariant hl.refIdx == |Flatten(hunks[..h])| <= |Flatten(hunks)|
      invariant rows == RowsOf(hunks, h, shows)
    {
      HunkSits(hunks, h);
      var more := RenderHunk(hl, hunks[h], Flatten(hunks), shows);
      rows := rows + more;
    }
    assert hunks[..|hunks|] == hunks;
  }

  // ---- where each row is, and what it says ----

  lemma {:induction false} LineRowAt(lines: seq<DiffLine>, shows: seq<string>, k: nat)
    requires k < |lines| == |shows|
    ensures |LineRows(lines, shows)| == |lines| && LineRows(lines, shows)[k] == RowOf(lines[k], shows[k])
  {
    var n := |lines| - 1;
    if k < n {
      LineRowAt(lines[..n], shows[..n], k);
    } else if n > 0 {
      LineRowAt(lines[..n], shows[..n], n - 1);
    }
  }

  lemma LineRowCount(lines: seq<DiffLine>, shows: seq<string>)
    requires |lines| == |shows|
    ensures |LineRows(lines, shows)| == |lines|
  {
    if lines != [] {
      LineRowAt(lines, shows, 0);
    }
  }

  lemma {:induction false} RowCount(hunks: seq<DiffHunk>, n: nat, shows: seq<string>)
    requires n <= |hunks| && |Flatten(hunks[..n])| <= |shows|
    ensures |RowsOf(hunks, n, shows)| == n + |Flatten(hunks[..n])|
  {
    if n > 0 {
      FlattenSnoc(hunks, n - 1);
      RowCount(hunks, n - 1, shows);
      LineRowCount(hunks[n - 1].lines, shows[|Flatten(hunks[..n - 1])|..|Flatten(hunks[..n])|]);
    }
  }

  lemma {:induction false} RowPlace(hunks: seq<DiffHunk>, n: nat, shows: seq<string>, h: nat)
    requires h < n <= |hunks| && |Flatten(hunks[..n])| <= |shows|
    ensures |Flatten(hunks[..h])| + |hunks[h].lines| == |Flatten(hunks[..h + 1])| <= |shows|
    ensures var at := h + |Flatten(hunks[..h])|; var rows := RowsOf(hunks, n, shows);
            && at + |hunks[h].lines| < |rows|
            && rows[at..at + 1 + |hunks[h].lines|] ==
               [HunkRow(hunks[h].header)]
               + LineRows(hunks[h].lines, shows[|Flatten(hunks[..h])|..|Flatten(hunks[..h + 1])|])
  {
    FlattenSnoc(hunks, n - 1);
    RowCount(hunks, n - 1, shows);
    RowCount(hunks, n, shows);
    if h < n - 1 {
      RowPlace(hunks, n - 1, shows, h);
    } else {
      LineRowCount(hunks[h].lines, shows[|Flatten(hunks[..h])|..|Flatten(hunks[..n])|]);
    }
  }

  /** The rows of a file: under the header of a hunk its lines follow in order, each with its own entry. */
  lemma RowAt(hunks: seq<DiffHunk>, shows: seq<string>, h: nat, k: nat)
    requires |Flatten(hunks[..|hunks|])| <= |shows| && h < |hunks| && k < |hunks[h].lines|
    ensures var rows, before := RowsOf(hunks, |hunks|, shows), |Flatten(hunks[..h])|;
            && h + before + 1 + k < |rows| && before + k < |shows|
            && rows[h + before] == HunkRow(hunks[h].header)
            && rows[h + before + 1 + k] == RowOf(hunks[h].lines[k], shows[before + k])
  {
    var before := |Flatten(hunks[..h])|;
    RowPlace(hunks, |hunks|, shows, h);
    var mine := shows[before..|Flatten(hunks[..h + 1])|];
    LineRowAt(hunks[h].lines, mine, k);
    InSlice(RowsOf(hunks, |hunks|, shows), h + before, HunkRow(hunks[h].header), LineRows(hunks[h].lines, mine), k);
  }

  /** In a file parsed from any text, the row of a context line has both numbers, that of an added line only the new
      one and that of a removed line only the old one. Each is the hunk's start plus the lines before it on that side. */
  lemma GuttersNumberTheLines(text: string, f: DiffFile, hunk: DiffHunk, k: nat, html: string)
    requires f in Parsed(text) && hunk in f.hunks && k < |hunk.lines|
    ensures RowOf(hunk.lines[k], html) ==
            LineRow(if hunk.lines[k].kind == Add then None else Some(hunk.oldStart + OldCount(hunk.lines[..k])),
                    if hunk.lines[k].kind == Remove then None else Some(hunk.newStart + NewCount(hunk.lines[..k])), html)
  {
    ParsedLineIsNumbered(text, f, hunk, k);
    NumberedRow(hunk, k, html);
  }

  lemma NumberedRow(hunk: DiffHunk, k: nat, html: string)
    requires k < |hunk.lines| && NumberedAt(hunk.lines, k, hunk.oldStart, hunk.newStart)
    ensures RowOf(hunk.lines[k], html) ==
            LineRow(if hunk.lines[k].kind == Add then None else Some(hunk.oldStart + OldCount(hunk.lines[..k])),
                    if hunk.lines[k].kind == Remove then None else Some(hunk.newStart + NewCount(hunk.lines[..k])), html)
  {
  }

  lemma ParsedLineIsNumbered(text: string, f: DiffFile, hunk: DiffHunk, k: nat)
    requires f in Parsed(text) && hunk in f.hunks && k < |hunk.lines|
    ensures NumberedAt(hunk.lines, k, hunk.oldStart, hunk.newStart)
  {
    ParsedIsSound(text);
    assert Sound(hunk);
  }

  lemma InSlice(rows: seq<Row>, at: nat, header: Row, lines: seq<Row>, k: nat)
    requires at + |lines| < |rows| && rows[at..at + 1 + |lines|] == [header] + lines && k < |lines|
    ensures rows[at] == header && rows[at + 1 + k] == lines[k]
  {
    var slice := rows[at..at + 1 + |lines|];
    assert slice[0] == rows[at] && slice[1 + k] == rows[at + 1 + k];
  }

  // ---- what the highlighter is asked for ----

  lemma {:induction false} OldLineAt(lines: seq<DiffLine>, k: nat)
    requires k < |lines| && OnOldSide(lines[k])
    ensures OldCount(lines[..k]) < |OldLines(lines)| == OldCount(lines)
    ensures OldLines(lines)[OldCount(lines[..k])] == lines[k].content
  {
    var n := |lines| - 1;
    OldLength(lines);
    OldLength(lines[..n]);
    if k < n {
      OldLineAt(lines[..n], k);
      assert lines[..n][..k] == lines[..k];
    }
  }

  lemma {:induction false} NewLineAt(lines: seq<DiffLine>, k: nat)
    requires k < |lines| && OnNewSide(lines[k])
    ensures NewCount(lines[..k]) < |NewLines(lines)| == NewCount(lines)
    ensures NewLines(lines)[NewCount(lines[..k])] == lines[k].content
  {
    var n := |lines| - 1;
    NewLength(lines);
    NewLength(lines[..n]);
    if k < n {
      NewLineAt(lines[..n], k);
      assert lines[..n][..k] == lines[..k];
    }
  }

  lemma {:induction false} OldLength(lines: seq<DiffLine>)
    ensures |OldLines(lines)| == OldCount(lines)
  {
    if lines != [] {
      OldLength(lines[..|lines| - 1]);
    }
  }

  lemma {:induction false} NewLength(lines: seq<DiffLine>)
    ensures |NewLines(lines)| == NewCount(lines)
  {
    if lines != [] {
      NewLength(lines[..|lines| - 1]);
    }
  }

  lemma {:induction false} SidesAreClean(lines: seq<DiffLine>)
    requires forall l :: l in lines ==> OneLine(l.content)
    ensures Clean(OldLines(lines)) && Clean(NewLines(lines))
  {
    if lines != [] {
      assert lines[|lines| - 1] in lines;
      SidesAreClean(lines[..|lines| - 1]);
    }
  }

  /** The text a line is looked up in has that line at the place it is looked up. */
  lemma LooksUpItself(lines: seq<DiffLine>, k: nat)
    requires k < |lines| && forall l :: l in lines ==> OneLine(l.content)
    ensures Place(lines, k) < |Split(Terminated(SideLines(lines, k)))| - 1
    ensures Split(Terminated(SideLines(lines, k)))[Place(lines, k)] == lines[k].content
  {
    if lines[k].kind == Add {
      NewLineAt(lines, k);
    } else {
      OldLineAt(lines, k);
    }
    SidesAreClean(lines);
    TerminatedSplits(SideLines(lines, k));
  }

  /** A line that the highlighter has no entry for is shown escaped. */
  lemma MissingEntryIsEscaped(lines: seq<DiffLine>, k: nat, highlight: string -> seq<string>, escape: string -> string)
    requires k < |lines| && |highlight(Terminated(SideLines(lines, k)))| <= Place(lines, k)
    ensures Shown(lines, k, highlight, escape) == escape(lines[k].content)
  {
  }

  lemma {:induction false} FlattenIsClean(hunks: seq<DiffHunk>)
    requires AllSound(hunks)
    ensures forall l :: l in Flatten(hunks) ==> OneLine(l.content)
  {
    if hunks != [] {
      assert hunks[|hunks| - 1] in hunks;
      FlattenIsClean(hunks[..|hunks| - 1]);
    }
  }

  /**
   * In a file parsed from any text, every line shows the entry the highlighter has for the very line of the
   * old or new text that holds its content, if the highlighter gives an entry for each line of a text.
   */
  lemma EveryLineShowsItsOwnEntry(text: string, f: DiffFile, k: nat, highlight: string -> seq<string>, escape: string -> string)
    requires f in Parsed(text) && k < |Flatten(f.hunks)|
    requires forall content :: |highlight(content)| >= |Split(content)| - 1
    ensures Place(Flatten(f.hunks), k) < |Split(Terminated(SideLines(Flatten(f.hunks), k)))| - 1
    ensures Split(Terminated(SideLines(Flatten(f.hunks), k)))[Place(Flatten(f.hunks), k)] == Flatten(f.hunks)[k].content
    ensures Shown(Flatten(f.hunks), k, highlight, escape)
         == highlight(Terminated(SideLines(Flatten(f.hunks), k)))[Place(Flatten(f.hunks), k)]
  {
    ParsedIsSound(text);
    FlattenIsClean(f.hunks);
    LooksUpItself(Flatten(f.hunks), k);
  }
}
