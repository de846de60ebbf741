/** Splitting text at newlines, as strings.Split does. */
module Text {

  predicate HasPrefix(s: string, p: string) {
    p <= s
  }

  lemma PrefixCut(s: string, p: string)
    requires HasPrefix(s, p)
    ensures s == p + s[|p|..]
  {
  }

  type Lines = lines: seq<string> | |lines| > 0 witness [""]

  /** The lines of a text with one more character in front. */
  function Front(c: char, lines: Lines): Lines {
    if c == '\n' then [""] + lines else [[c] + lines[0]] + lines[1..]
  }

  function Split(s: string): Lines {
    if s == "" then [""] else Front(s[0], Split(s[1..]))
  }

  function Join(lines: Lines): string {
    if |lines| == 1 then lines[0] else lines[0] + "\n" + Join(lines[1..])
  }

  /** The lines of two texts in a row: the last line of x and the first of y are one. */
  function Glue(x: Lines, y: Lines): Lines {
    x[..|x| - 1] + [x[|x| - 1] + y[0]] + y[1..]
  }

  predicate OneLine(s: string) {
    '\n' !in s
  }

  lemma {:induction false} SplitLinesAreOneLine(s: string)
    ensures forall line :: line in Split(s) ==> OneLine(line)
    ensures forall line, c :: line in Split(s) && c in line ==> c in s
  {
    if s != "" {
      SplitLinesAreOneLine(s[1..]);
      var rest := Split(s[1..]);
      assert rest[0] in rest;
      assert forall line :: line in rest[1..] ==> line in rest;
    }
  }

  lemma {:induction false} JoinUndoesSplit(s: string)
    ensures Join(Split(s)) == s
  {
    if s != "" {
      JoinUndoesSplit(s[1..]);
    }
  }

  lemma FrontGlue(c: char, x: Lines, y: Lines)
    ensures Front(c, Glue(x, y)) == Glue(Front(c, x), y)
  {
    if c == '\n' {
      assert ([""] + x)[..|x|] == [""] + x[..|x| - 1];
    } else if |x| == 1 {
      assert [c] + (x[0] + y[0]) == [c] + x[0] + y[0];
      assert Glue(x, y)[1..] == y[1..];
    } else {
      var f := Front(c, x);
      assert f[..|f| - 1] == [[c] + x[0]] + x[1..|x| - 1];
      assert Glue(x, y)[1..] == x[1..|x| - 1] + [x[|x| - 1] + y[0]] + y[1..];
    }
  }

  lemma {:induction false} SplitConcat(a: string, b: string)
    ensures Split(a + b) == Glue(Split(a), Split(b))
  {
    if a == "" {
      assert a + b == b;
      assert "" + Split(b)[0] == Split(b)[0];
      assert Glue([""], Split(b)) == Split(b);
    } else {
      assert (a + b)[1..] == a[1..] + b;
      SplitConcat(a[1..], b);
      FrontGlue(a[0], Split(a[1..]), Split(b));
    }
  }

  lemma {:induction false} SplitOneLine(s: string)
    requires OneLine(s)
    ensures Split(s) == [s]
  {
    if s != "" {
      SplitOneLine(s[1..]);
      assert [s[0]] + s[1..] == s;
    }
  }

  /** A line taken off the front. */
  lemma SplitLine(line: string, rest: string)
    requires OneLine(line)
    ensures Split(line + "\n" + rest) == [line] + Split(rest)
  {
    SplitOneLine(line);
    assert line + "\n" + rest == line + ("\n" + rest);
    SplitConcat(line, "\n" + rest);
    assert ("\n" + rest)[1..] == rest;
    assert Split("\n" + rest) == [""] + Split(rest);
    assert line + "" == line;
  }
}
