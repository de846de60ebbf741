/** The bounded buffer for the output of a streaming command, against the unbounded log it stands for. */
module BashStream {

  const MAX_LINES := 5000

  /** A truncation note stands for dropped lines. */
  datatype Item = Line(text: string) | Truncated(count: nat)

  /** What a read from position seq returns once the log is total and its first start lines are gone. */
  function ReadItems(total: seq<string>, start: nat, pos: int): seq<Item>
    requires start <= |total|
  {
    if pos < start then [Truncated(start - pos)] + Lines(total[start..])
    else if pos < |total| then Lines(total[pos..])
    else []
  }

  function Lines(lines: seq<string>): seq<Item> {
    seq(|lines|, i requires 0 <= i < |lines| => Line(lines[i]))
  }

  // ---- a reader that passes back the position it was given ----

  /** The buffer, what the reader has been given so far, and the position it will read from. */
  datatype State = State(total: seq<string>, start: nat, given: seq<Item>, pos: nat)

  datatype Step = Append(line: string) | Read

  ghost function Next(s: State, step: Step): State
    requires s.start <= |s.total|
  {
    match step
    case Append(line) =>
      s.(total := s.total + [line],
         start := if |s.total| - s.start < MAX_LINES then s.start else s.start + (MAX_LINES + 1) / 2)
    case Read =>
      s.(given := s.given + ReadItems(s.total, s.start, s.pos), pos := if s.pos < |s.total| then |s.total| else s.pos)
  }

  // ---- the buffer, each method against its step ----

  class BashStreamBuffer {
    ghost var total: seq<string>   // every line ever appended
    var lines: seq<string>
    var startSeq: nat
    var done: bool
    var token: bool                // the one-slot wakeup channel

    ghost predicate Valid()
      reads this
    {
      startSeq <= |total| && lines == total[startSeq..] && |lines| <= MAX_LINES
    }

    ghost predicate Represents(s: State)
      reads this
    {
      total == s.total && startSeq == s.start
    }

    constructor ()
      ensures Valid() && total == [] && startSeq == 0 && !done && !token
    {
      total, lines, startSeq, done, token := [], [], 0, false, false;
    }

    /** Appends a line, dropping the oldest half when the buffer is over its bound. */
    method Append(line: string, ghost s: State)
      requires Valid() && Represents(s)
      modifies this
      ensures Represents(Next(s, Step.Append(line)))
      ensures Valid() && total == old(total) + [line] && done == old(done) && token
      ensures startSeq == if |old(lines)| < MAX_LINES then old(startSeq) else old(startSeq) + (MAX_LINES + 1) / 2
    {
      lines := lines + [line];
      total := total + [line];
      if |lines| > MAX_LINES {
        var drop := |lines| / 2;
        startSeq := startSeq + drop;
        lines := lines[drop..];
      }
      token := true;
    }

    method Close()
      requires Valid()
      modifies this`done, this`token
      ensures Valid() && done && token
    {
      done := true;
      token := true;
    }

    /** Returns what a reader at position pos has missed, and the position to read from next. */
    method Read(pos: int, ghost s: State) returns (items: seq<Item>, newPos: int, finished: bool)
      requires Valid() && Represents(s)
      ensures pos == s.pos ==> newPos >= 0 && Next(s, Step.Read) == s.(given := s.given + items, pos := newPos)
      ensures items == ReadItems(total, startSeq, pos)
      ensures newPos == if pos < |total| then |total| else pos
      ensures finished == done
    {
      items := [];
      var p := pos;
      if p < startSeq {
        items := items + [Truncated(startSeq - p)];
        p := startSeq;
      }
      var idx := p - startSeq;
      newPos := p;
      if idx < |lines| {
        items := items + Lines(lines[idx..]);
        newPos := startSeq + |lines|;
      }
      finished := done;
    }
  }

  // ---- accounting ----

  /** The items account for total[from..to]: each line in its place, each note for the lines it counts. */
  ghost predicate Accounts(items: seq<Item>, total: seq<string>, from: nat, to: nat) {
    if items == [] then from == to
    else match items[0]
      case Line(text) => from < |total| && total[from] == text && Accounts(items[1..], total, from + 1, to)
      case Truncated(count) => count > 0 && Accounts(items[1..], total, from + count, to)
  }

  ghost predicate Inv(s: State) {
    && s.start <= |s.total| && |s.total| - s.start <= MAX_LINES
    && s.pos <= |s.total| && Accounts(s.given, s.total, 0, s.pos)
  }

  lemma {:induction false} AccountsConcat(a: seq<Item>, b: seq<Item>, total: seq<string>, from: nat, mid: nat, to: nat)
    requires Accounts(a, total, from, mid) && Accounts(b, total, mid, to)
    ensures Accounts(a + b, total, from, to)
    decreases |a|
  {
    if a == [] {
      assert a + b == b;
    } else {
      assert (a + b)[1..] == a[1..] + b;
      match a[0] {
        case Line(_) => AccountsConcat(a[1..], b, total, from + 1, mid, to);
        case Truncated(count) => AccountsConcat(a[1..], b, total, from + count, mid, to);
      }
    }
  }

  lemma {:induction false} AccountsGrows(items: seq<Item>, total: seq<string>, line: string, from: nat, to: nat)
    requires Accounts(items, total, from, to)
    ensures Accounts(items, total + [line], from, to)
  {
    if items != [] {
      match items[0] {
        case Line(_) => AccountsGrows(items[1..], total, line, from + 1, to);
        case Truncated(count) => AccountsGrows(items[1..], total, line, from + count, to);
      }
    }
  }

  lemma {:induction false} LinesAccount(total: seq<string>, from: nat)
    requires from <= |total|
    ensures Accounts(Lines(total[from..]), total, from, |total|)
    decreases |total| - from
  {
    if from < |total| {
      assert Lines(total[from..])[1..] == Lines(total[from + 1..]);
      LinesAccount(total, from + 1);
    }
  }

  lemma ReadAccounts(total: seq<string>, start: nat, pos: nat)
    requires start <= |total| && pos <= |total|
    ensures Accounts(ReadItems(total, start, pos), total, pos, |total|)
  {
    if pos < start {
      LinesAccount(total, start);
      var items := ReadItems(total, start, pos);
      assert items[1..] == Lines(total[start..]);
    } else {
      LinesAccount(total, pos);
      assert pos == |total| ==> Lines(total[pos..]) == [];
    }
  }

  lemma StepKeepsInv(s: State, step: Step)
    requires Inv(s)
    ensures Inv(Next(s, step))
  {
    match step {
      case Append(line) => AccountsGrows(s.given, s.total, line, 0, s.pos);
      case Read =>
        ReadAccounts(s.total, s.start, s.pos);
        AccountsConcat(s.given, ReadItems(s.total, s.start, s.pos), s.total, 0, s.pos, |s.total|);
    }
  }

  ghost predicate ValidRun(s: State, steps: seq<Step>)
    decreases |steps|
  {
    steps == [] || (s.start <= |s.total| && ValidRun(Next(s, steps[0]), steps[1..]))
  }

  ghost function Run(s: State, steps: seq<Step>): State
    requires ValidRun(s, steps)
    decreases |steps|
  {
    if steps == [] then s else Run(Next(s, steps[0]), steps[1..])
  }

  lemma {:induction false} RunKeepsInv(s: State, steps: seq<Step>)
    requires Inv(s)
    ensures ValidRun(s, steps) && Inv(Run(s, steps))
    decreases |steps|
  {
    if steps != [] {
      StepKeepsInv(s, steps[0]);
      RunKeepsInv(Next(s, steps[0]), steps[1..]);
    }
  }

  /** Lines plus the lines the notes count. */
  function Amount(items: seq<Item>): nat {
    if items == [] then 0
    else (if items[0].Line? then 1 else items[0].count) + Amount(items[1..])
  }

  lemma {:induction false} AccountedAmount(items: seq<Item>, total: seq<string>, from: nat, to: nat)
    requires Accounts(items, total, from, to)
    ensures from + Amount(items) == to
  {
    if items != [] {
      match items[0] {
        case Line(_) => AccountedAmount(items[1..], total, from + 1, to);
        case Truncated(count) => AccountedAmount(items[1..], total, from + count, to);
      }
    }
  }

  /** Where a buffer of at most 5000 lines starts that drops 2500 whenever it would hold more. */
  function StartAfter(total: nat): nat {
    if total <= 5000 then 0 else (total - 2501) / 2500 * 2500
  }

  lemma OneMoreStarts(total: nat)
    ensures StartAfter(total + 1) == if total - StartAfter(total) < 5000 then StartAfter(total) else StartAfter(total) + 2500
    ensures StartAfter(total) <= total && total - StartAfter(total) <= 5000
    ensures StartAfter(total) > 0 ==> total - StartAfter(total) > 2500
  {
  }

  lemma {:induction false} RunKeepsStart(s: State, steps: seq<Step>)
    requires s.start == StartAfter(|s.total|) && ValidRun(s, steps)
    ensures Run(s, steps).start == StartAfter(|Run(s, steps).total|)
    decreases |steps|
  {
    if steps != [] {
      OneMoreStarts(|s.total|);
      RunKeepsStart(Next(s, steps[0]), steps[1..]);
    }
  }

  /** The bounded buffer refines the unbounded log. For every interleaving of appends and reads, what the
      reader has been given accounts for every line up to its position once and in order, and one more read brings
      the reader to the end. The buffer never holds more than 5000 lines, drops none before it would, and then keeps
      more than half of them. */
  lemma ReaderMissesNothing(steps: seq<Step>)
    ensures var start := State([], 0, [], 0);
            && ValidRun(start, steps)
            && var s := Run(start, steps);
               && Accounts(s.given, s.total, 0, s.pos) && Amount(s.given) == s.pos <= |s.total|
               && s.start <= |s.total| <= s.start + 5000
               && (|s.total| <= 5000 ==> s.start == 0) && (s.start > 0 ==> |s.total| - s.start > 2500)
               && Next(s, Read).pos == |s.total|
               && Accounts(Next(s, Read).given, s.total, 0, |s.total|)
  {
    var start := State([], 0, [], 0);
    RunKeepsInv(start, steps);
    var s := Run(start, steps);
    AccountedAmount(s.given, s.total, 0, s.pos);
    StepKeepsInv(s, Read);
    RunKeepsStart(start, steps);
    OneMoreStarts(|s.total|);
  }
}
