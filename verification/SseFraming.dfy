/** Server-sent event framing, and its decoding by the event stream rules in section 9.2.6 of the WHATWG
    HTML Standard. The decoder reads a stream line by line, and what is proved is that any number of frames
    in a row comes out as the events that were framed. */
module SseFraming {
  import opened Text
  import opened Prelude

  datatype Event = Event(name: string, data: string)

  // ---- the encoder ----

  function WithoutReturns(s: string): string {
    if s == "" then "" else WithoutReturns(s[..|s| - 1]) + if s[|s| - 1] == '\r' then "" else [s[|s| - 1]]
  }

  /** Each line behind the field name, and a newline. */
  function DataLines(lines: seq<string>): string {
    if lines == [] then "" else DataLines(lines[..|lines| - 1]) + DataField(lines[|lines| - 1])
  }

  function DataField(line: string): string {
    "data: " + line + "\n"
  }

  function Framed(e: Event): string {
    "event: " + e.name + "\n" + DataLines(Split(WithoutReturns(e.data))) + "\n"
  }

  method Sse(event: string, data: string) returns (buf: string)
    ensures buf == Framed(Event(event, data))
  {
    var stripped := "";
    for i := 0 to |data|
      invariant stripped == WithoutReturns(data[..i])
    {
      assert data[..i + 1][..i] == data[..i];
      if data[i] != '\r' {
        stripped := stripped + [data[i]];
      }
    }
    assert data[..|data|] == data;
    buf := "";
    buf := buf + "event: " + event + "\n";
    ghost var head := buf;
    var lines: seq<string> := Split(stripped);
    for i := 0 to |lines|
      invariant buf == head + DataLines(lines[..i])
    {
      assert lines[..i + 1][..i] == lines[..i];
      buf := buf + "data: " + lines[i] + "\n";
      assert buf == head + (DataLines(lines[..i]) + DataField(lines[i]));
    }
    assert lines[..|lines|] == lines;
    buf := buf + "\n";
  }

  // ---- the standard's decoder ----

  /** The parser's buffers and the events dispatched so far. */
  datatype Parser = Parser(eventType: string, data: string, events: seq<Event>)

  const START := Parser("", "", [])

  /** Decodes the lines of a stream. A last line without an end is not processed. */
  function Decode(stream: string): seq<Event> {
    Lines(START, stream).events
  }

  predicate IsEnd(c: char) {
    c == '\n' || c == '\r'
  }

  /** The index of the first line end, or the length. */
  function LineEnd(s: string): (n: nat)
    ensures n <= |s| && (n < |s| ==> IsEnd(s[n]))
    ensures forall i :: 0 <= i < n ==> !IsEnd(s[i])
  {
    if s == "" || IsEnd(s[0]) then 0 else 1 + LineEnd(s[1..])
  }

  function Lines(p: Parser, s: string): Parser
    decreases |s|
  {
    var n := LineEnd(s);
    if n == |s| then p
    else
      var next := if s[n] == '\r' && n + 1 < |s| && s[n + 1] == '\n' then n + 2 else n + 1;
      Lines(ProcessLine(p, s[..n]), s[next..])
  }

  function ProcessLine(p: Parser, line: string): Parser {
    if line == "" then Dispatch(p)
    else
      var colon := Colon(line);
      if colon == 0 then p
      else if colon == |line| then ProcessField(p, line, "")
      else ProcessField(p, line[..colon], Trimmed(line[colon + 1..]))
  }

  function Colon(line: string): (n: nat)
    ensures n <= |line|
  {
    if line == "" || line[0] == ':' then 0 else 1 + Colon(line[1..])
  }

  /** A value without one leading space. */
  function Trimmed(value: string): string {
    if value != "" && value[0] == ' ' then value[1..] else value
  }

  function ProcessField(p: Parser, field: string, value: string): Parser {
    if field == "event" then p.(eventType := value)
    else if field == "data" then p.(data := p.data + value + "\n")
    else p
  }

  function Dispatch(p: Parser): Parser {
    if p.data == "" then p.(eventType := "")
    else
      var data := if p.data[|p.data| - 1] == '\n' then p.data[..|p.data| - 1] else p.data;
      Parser("", "", p.events + [Event(if p.eventType == "" then "message" else p.eventType, data)])
  }

  // ---- the round trip ----

  predicate SingleLine(s: string) {
    forall c :: c in s ==> !IsEnd(c)
  }

  lemma {:induction false} LineEndOf(line: string, rest: string)
    requires SingleLine(line)
    ensures LineEnd(line + "\n" + rest) == |line|
  {
    var s := line + "\n" + rest;
    if line != "" {
      assert s[1..] == line[1..] + "\n" + rest;
      LineEndOf(line[1..], rest);
    }
  }

  lemma LineThenRest(p: Parser, line: string, rest: string)
    requires SingleLine(line)
    ensures Lines(p, line + "\n" + rest) == Lines(ProcessLine(p, line), rest)
  {
    var s := line + "\n" + rest;
    LineEndOf(line, rest);
    assert s[..|line|] == line && s[|line| + 1..] == rest;
  }

  lemma EventLine(p: Parser, name: string)
    ensures ProcessLine(p, "event: " + name) == p.(eventType := name)
  {
    var line := "event: " + name;
    FieldLine("event", name);
    assert line == "event" + ": " + name;
  }

  lemma DataLine(p: Parser, value: string)
    ensures ProcessLine(p, "data: " + value) == p.(data := p.data + value + "\n")
  {
    var line := "data: " + value;
    FieldLine("data", value);
    assert line == "data" + ": " + value;
  }

  lemma {:induction false} ColonAfter(field: string, value: string)
    requires ':' !in field
    ensures Colon(field + ": " + value) == |field|
  {
    var line := field + ": " + value;
    if field != "" {
      assert line[1..] == field[1..] + ": " + value;
      ColonAfter(field[1..], value);
    }
  }

  lemma FieldLine(field: string, value: string)
    requires ':' !in field && field != ""
    ensures var line := field + ": " + value;
            Colon(line) == |field| && line[..|field|] == field && Trimmed(line[|field| + 1..]) == value
  {
    var line := field + ": " + value;
    ColonAfter(field, value);
    assert line[|field| + 1..] == " " + value;
    assert (" " + value)[1..] == value;
  }

  /** The text of data lines, each ended. */
  function Ended(lines: seq<string>): string {
    if lines == [] then "" else Ended(lines[..|lines| - 1]) + (lines[|lines| - 1] + "\n")
  }

  lemma OneDataLine(p: Parser, line: string, rest: string)
    requires SingleLine(line)
    ensures Lines(p, DataField(line) + rest) == Lines(p.(data := p.data + line + "\n"), rest)
  {
    assert SingleLine("data: ") && SingleLine("data: " + line);
    LineThenRest(p, "data: " + line, rest);
    DataLine(p, line);
  }

  lemma {:induction false} DataLinesDecode(p: Parser, lines: seq<string>, rest: string)
    requires forall line :: line in lines ==> SingleLine(line)
    ensures Lines(p, DataLines(lines) + rest) == Lines(p.(data := p.data + Ended(lines)), rest)
    decreases |lines|
  {
    if lines == [] {
      assert DataLines(lines) + rest == rest;
      assert p.data + "" == p.data;
    } else {
      var front, line := lines[..|lines| - 1], lines[|lines| - 1];
      var field := DataField(line);
      Regroup(DataLines(front), field, rest);
      DataLinesDecode(p, front, field + rest);
      OneDataLine(p.(data := p.data + Ended(front)), line, rest);
      Regroup(p.data, Ended(front), line + "\n");
      Regroup(p.data + Ended(front), line, "\n");
    }
  }

  lemma {:induction false} EndedIsJoin(lines: Text.Lines)
    ensures Ended(lines) == Join(lines) + "\n"
    decreases |lines|
  {
    if |lines| == 1 {
      assert lines[..0] == [];
      assert Ended(lines) == "" + (lines[0] + "\n");
    } else {
      EndedSplit([lines[0]], lines[1..]);
      assert [lines[0]] + lines[1..] == lines;
      EndedIsJoin(lines[1..]);
      assert [lines[0]][..0] == [];
      assert Ended([lines[0]]) == "" + (lines[0] + "\n");
    }
  }

  lemma {:induction false} EndedSplit(a: seq<string>, b: seq<string>)
    ensures Ended(a + b) == Ended(a) + Ended(b)
    decreases |b|
  {
    if b == [] {
      assert a + b == a;
    } else {
      assert (a + b)[..|a + b| - 1] == a + b[..|b| - 1];
      EndedSplit(a, b[..|b| - 1]);
    }
  }

  lemma {:induction false} NoReturnsLeft(s: string)
    ensures '\r' !in WithoutReturns(s)
  {
    if s != "" {
      NoReturnsLeft(s[..|s| - 1]);
    }
  }

  lemma StrippedLinesAreSingle(s: string)
    ensures forall line :: line in Split(WithoutReturns(s)) ==> SingleLine(line)
  {
    NoReturnsLeft(s);
    SplitLinesAreOneLine(WithoutReturns(s));
  }

  /** One frame decodes to its event, its carriage returns gone, and leaves the parser clean. */
  lemma FrameDecodes(events: seq<Event>, e: Event, rest: string)
    requires e.name != "" && SingleLine(e.name)
    ensures Lines(Parser("", "", events), Framed(e) + rest) ==
            Lines(Parser("", "", events + [Event(e.name, WithoutReturns(e.data))]), rest)
  {
    var p, data := Parser("", "", events), WithoutReturns(e.data);
    var lines := Split(data);
    var head, tail := "event: " + e.name, DataLines(lines) + ("" + "\n" + rest);
    assert Framed(e) + rest == head + "\n" + tail;
    assert SingleLine("event: ") && SingleLine(head);
    LineThenRest(p, head, tail);
    EventLine(p, e.name);
    StrippedLinesAreSingle(e.data);
    var q := p.(eventType := e.name);
    DataLinesDecode(q, lines, "" + "\n" + rest);
    EndedIsJoin(lines);
    JoinUndoesSplit(data);
    var full := q.(data := q.data + Ended(lines));
    assert full.data == data + "\n";
    assert full.data[..|full.data| - 1] == data;
    LineThenRest(full, "", rest);
  }

  function Stream(events: seq<Event>): string {
    if events == [] then "" else Framed(events[0]) + Stream(events[1..])
  }

  function Received(events: seq<Event>): seq<Event> {
    if events == [] then [] else [Event(events[0].name, WithoutReturns(events[0].data))] + Received(events[1..])
  }

  lemma {:induction false} StreamDecodes(before: seq<Event>, events: seq<Event>)
    requires forall e :: e in events ==> e.name != "" && SingleLine(e.name)
    ensures Lines(Parser("", "", before), Stream(events)) == Parser("", "", before + Received(events))
    decreases |events|
  {
    if events != [] {
      assert events[0] in events;
      FrameDecodes(before, events[0], Stream(events[1..]));
      var first := Event(events[0].name, WithoutReturns(events[0].data));
      StreamDecodes(before + [first], events[1..]);
      assert before + [first] + Received(events[1..]) == before + Received(events);
    } else {
      assert before + [] == before;
    }
  }

  /** Any concatenation of frames decodes to the same events in order, with carriage returns removed, empty and
      multi-line data included. */
  lemma FramingRoundTrips(events: seq<Event>)
    requires forall e :: e in events ==> e.name != "" && SingleLine(e.name)
    ensures Decode(Stream(events)) == Received(events)
  {
    StreamDecodes([], events);
    assert [] + Received(events) == Received(events);
  }

  /** The name must not be empty: an unnamed frame decodes to an event named "message". */
  lemma UnnamedFrameIsAMessage(data: string)
    ensures Decode(Framed(Event("", data))) == [Event("message", WithoutReturns(data))]
  {
    var stripped := WithoutReturns(data);
    var lines := Split(stripped);
    var tail := DataLines(lines) + ("" + "\n" + "");
    assert Framed(Event("", data)) == "event: " + "\n" + tail;
    assert SingleLine("event: ");
    LineThenRest(START, "event: ", tail);
    EventLine(START, "");
    assert "event: " + "" == "event: ";
    StrippedLinesAreSingle(data);
    DataLinesDecode(START, lines, "" + "\n" + "");
    EndedIsJoin(lines);
    JoinUndoesSplit(stripped);
    var full := START.(data := START.data + Ended(lines));
    assert full.data == stripped + "\n";
    assert full.data[..|full.data| - 1] == stripped;
    LineThenRest(full, "", "");
  }
}
