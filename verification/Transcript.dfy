/** Reading a transcript back into a session. */
module Transcript {
  import opened LineChain
  import opened Messages
  import opened Prelude
  import Session

  /** A transcript line after JSON decoding: its identity, and the messages its content yields. */
  datatype Line = Line(uuid: Uuid, parent: Uuid, sidechain: bool, msgs: seq<Msg>)

  function Stamped(msgs: seq<Msg>, uuid: Uuid): seq<Msg> {
    seq(|msgs|, i requires 0 <= i < |msgs| => msgs[i].(uuid := uuid))
  }

  /** Every line's parent, side-chain lines and lines without messages included. */
  function ParentsOf(lines: seq<Line>): Parents {
    if lines == [] then map[]
    else if Last(lines).uuid == "" then ParentsOf(Init(lines))
    else ParentsOf(Init(lines))[Last(lines).uuid := Last(lines).parent]
  }

  /** The messages of the main-branch lines, each stamped with its line's uuid. */
  function LogOf(lines: seq<Line>): seq<Msg> {
    if lines == [] then []
    else if Last(lines).sidechain then LogOf(Init(lines))
    else LogOf(Init(lines)) + Stamped(Last(lines).msgs, Last(lines).uuid)
  }

  /** The last non-empty uuid in a log. */
  function LastUuid(log: seq<Msg>): Uuid {
    if log == [] then "" else if Last(log).uuid != "" then Last(log).uuid else LastUuid(Init(log))
  }

  /** Gives the messages from `start` on their line's uuid. */
  method StampFrom(msgs: seq<Msg>, start: nat, uuid: Uuid) returns (stamped: seq<Msg>)
    requires start <= |msgs|
    ensures stamped == msgs[..start] + Stamped(msgs[start..], uuid)
  {
    stamped := msgs;
    for j := start to |msgs|
      invariant |stamped| == |msgs| && stamped[..start] == msgs[..start] && stamped[j..] == msgs[j..]
      invariant forall k :: start <= k < j ==> stamped[k] == msgs[k].(uuid := uuid)
    {
      stamped := stamped[j := stamped[j].(uuid := uuid)];
    }
  }

  method ParseSessionMessages(lines: seq<Line>) returns (parents: Parents, msgs: seq<Msg>)
    ensures parents == ParentsOf(lines) && msgs == LogOf(lines)
    ensures HoldsMessages(lines, msgs) && HoldsLinks(lines, parents)
  {
    LogHoldsMessages(lines);
    ParentsHoldLinks(lines);
    parents, msgs := map[], [];
    for i := 0 to |lines|
      invariant parents == ParentsOf(lines[..i]) && msgs == LogOf(lines[..i])
    {
      assert Init(lines[..i + 1]) == lines[..i];
      var entry := lines[i];
      if entry.uuid != "" {
        parents := parents[entry.uuid := entry.parent];
      }
      if !entry.sidechain {
        var msgStart := |msgs|;
        var all := msgs + entry.msgs;
        assert all[..msgStart] == msgs && all[msgStart..] == entry.msgs;
        msgs := StampFrom(all, msgStart, entry.uuid);
      }
    }
    assert lines[..|lines|] == lines;
  }

  lemma LastUuidSnoc(log: seq<Msg>, i: nat)
    requires i < |log|
    ensures log[..i + 1] == log[..i] + [log[i]]
    ensures LastUuid(log[..i + 1]) == if log[i].uuid != "" then log[i].uuid else LastUuid(log[..i])
  {
    assert Init(log[..i + 1]) == log[..i] && Last(log[..i + 1]) == log[i];
  }

  // ---- what a cold load holds ----

  /** How many messages the main-branch lines before line i yield. */
  function MessagesBefore(lines: seq<Line>, i: nat): nat
    requires i <= |lines|
  {
    if i == 0 then 0 else MessagesBefore(lines, i - 1) + if lines[i - 1].sidechain then 0 else |lines[i - 1].msgs|
  }

  lemma {:induction false} MessagesBeforePrefix(lines: seq<Line>, n: nat, i: nat)
    requires i <= n <= |lines|
    ensures MessagesBefore(lines[..n], i) == MessagesBefore(lines, i)
  {
    if i > 0 {
      MessagesBeforePrefix(lines, n, i - 1);
    }
  }

  /** Message j of line i is where the lines before it put it, as the line yields it but for the uuid, which is the
      line's. */
  predicate HoldsMessage(lines: seq<Line>, log: seq<Msg>, i: nat, j: nat)
    requires i < |lines| && j < |lines[i].msgs|
  {
    var at := MessagesBefore(lines, i) + j;
    at < |log| && log[at] == lines[i].msgs[j].(uuid := lines[i].uuid)
  }

  /** The log holds the messages of the main-branch lines and no other, in order and line by line. */
  ghost predicate HoldsMessages(lines: seq<Line>, log: seq<Msg>) {
    && |log| == MessagesBefore(lines, |lines|)
    && forall i: nat, j: nat :: i < |lines| && !lines[i].sidechain && j < |lines[i].msgs| ==> HoldsMessage(lines, log, i, j)
  }

  lemma {:induction false} LogHoldsMessages(lines: seq<Line>)
    ensures HoldsMessages(lines, LogOf(lines))
  {
    if lines != [] {
      var n, front, log := |lines| - 1, Init(lines), LogOf(lines);
      LogHoldsMessages(front);
      MessagesBeforePrefix(lines, n, n);
      forall i: nat, j: nat | i < |lines| && !lines[i].sidechain && j < |lines[i].msgs|
        ensures HoldsMessage(lines, log, i, j)
      {
        MessagesBeforePrefix(lines, n, i);
        assert i < n ==> HoldsMessage(front, LogOf(front), i, j);
      }
    }
  }

  /** Every linked uuid is a line's, and its parent is that of the last line with the uuid. */
  ghost predicate HoldsLinks(lines: seq<Line>, parents: Parents) {
    forall u ::
      && (u in parents <==> u != "" && exists i :: 0 <= i < |lines| && lines[i].uuid == u)
      && (u in parents ==> exists i :: IsLastLine(lines, u, i) && parents[u] == lines[i].parent)
  }

  predicate IsLastLine(lines: seq<Line>, u: Uuid, i: int) {
    0 <= i < |lines| && lines[i].uuid == u && forall j :: i < j < |lines| ==> lines[j].uuid != u
  }

  lemma {:induction false} ParentsHoldLinks(lines: seq<Line>)
    ensures HoldsLinks(lines, ParentsOf(lines))
  {
    if lines != [] {
      var n, front, parents := |lines| - 1, Init(lines), ParentsOf(lines);
      ParentsHoldLinks(front);
      forall u
        ensures u in parents <==> u != "" && exists i :: 0 <= i < |lines| && lines[i].uuid == u
        ensures u in parents ==> exists i :: IsLastLine(lines, u, i) && parents[u] == lines[i].parent
      {
        if i :| 0 <= i < |front| && front[i].uuid == u {
          assert lines[i].uuid == u;
        }
        if u in parents {
          if lines[n].uuid == u {
            assert IsLastLine(lines, u, n);
          } else {
            var i :| IsLastLine(front, u, i) && ParentsOf(front)[u] == front[i].parent;
            assert IsLastLine(lines, u, i);
          }
        }
      }
    }
  }

  /** The tip is the uuid of the log's last message that has one. */
  lemma {:induction false} TipIsLast(log: seq<Msg>)
    ensures if LastUuid(log) == "" then forall m :: m in log ==> m.uuid == ""
            else exists i :: 0 <= i < |log| && log[i].uuid == LastUuid(log) && forall j :: i < j < |log| ==> log[j].uuid == ""
  {
    if log != [] {
      var front := Init(log);
      TipIsLast(front);
      assert log == front + [Last(log)];
      if Last(log).uuid == "" && LastUuid(log) != "" {
        var i :| 0 <= i < |front| && front[i].uuid == LastUuid(log) && forall j :: i < j < |front| ==> front[j].uuid == "";
        assert log[i].uuid == LastUuid(log);
      }
    }
  }

  /** A cold load: the whole parent map, the log, and the tip at the last message-bearing line. */
  method LoadSessionFromDisk(lines: seq<Line>) returns (s: Session.Session, log: seq<Msg>)
    ensures fresh(s) && log == LogOf(lines)
    ensures s.Chain() == Cursor(LastUuid(LogOf(lines)), ParentsOf(lines))
    ensures HoldsMessages(lines, log) && HoldsLinks(lines, s.LineParents)
  {
    LogHoldsMessages(lines);
    ParentsHoldLinks(lines);
    var parents, msgs := ParseSessionMessages(lines);
    s := new Session.Session();
    log := [];
    var lastUUID := "";
    for i := 0 to |msgs|
      invariant log == msgs[..i] && lastUUID == LastUuid(msgs[..i])
    {
      LastUuidSnoc(msgs, i);
      if msgs[i].uuid != "" {
        lastUUID := msgs[i].uuid;
      }
      log := log + [msgs[i]];
    }
    assert msgs[..|msgs|] == msgs;
    s.InitTree(parents, lastUUID);
  }
}
