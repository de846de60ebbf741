/** Whole runs of a conversation: the transcript, claude and the live session. */
module Conversation {
  import opened LineChain
  import opened Messages
  import opened Prelude
  import opened Transcript

  /** claude's transcript and cursor beside the live session's chain and log. due holds the branch points
      that claude has reported to edits whose SetTip is still to come. */
  datatype World = World(lines: seq<Line>, cursor: Uuid, session: Cursor, log: seq<Msg>, due: set<Uuid>)

  /** Emit is a main-branch line: it hangs below claude's cursor. When the scanner finds it announced, the
      session links it and logs the messages it streams, which need not be those the transcript yields. A
      started message whose queue entry is gone is not linked. SideChain is a sub-agent line, which only the
      transcript records. Note is a message outside the tree. Rewound takes claude to the target's parent,
      which the transcript does not record, and Settled takes the session to the branch point that claude
      reported for it. Respawn starts claude again under the live session, and Restart is a cold load. Both
      leave claude where it resumes from the transcript. */
  datatype Step =
    | Emit(line: Line, announced: bool, live: seq<Msg>)
    | SideChain(line: Line)
    | Note(msg: Msg)
    | Rewound(target: Uuid, branchPoint: Uuid)
    | Settled(branchPoint: Uuid)
    | Respawn(leaf: Uuid)
    | Restart(leaf: Uuid)

  ghost function Tree(w: World): Parents {
    ParentsOf(w.lines)
  }

  predicate BearsMessages(l: Line) {
    !l.sidechain && l.msgs != []
  }

  /** The uuids of message-bearing lines, the only ones a render can show. */
  ghost function Bearing(lines: seq<Line>): set<Uuid> {
    set l | l in lines && BearsMessages(l) :: l.uuid
  }

  /** The transcript's last message-bearing line, or "". */
  function Newest(w: World): Uuid {
    LastUuid(LogOf(w.lines))
  }

  predicate IsUser(m: Msg) {
    m.kind == UserMessage && m.agentID == "" && m.uuid != ""
  }

  /** The uuids of the user messages in a log, oldest first. */
  function Users(log: seq<Msg>): seq<Uuid> {
    if log == [] then []
    else Users(Init(log)) + if IsUser(Last(log)) then [Last(log).uuid] else []
  }

  /** The uuids of the transcript's user lines. Some of them are in a session's log only once it is loaded from
      the transcript: prompts that claude writes itself, and messages started after their entry was lost. */
  function UserLines(w: World): seq<Uuid> {
    Users(LogOf(w.lines))
  }

  ghost predicate SameBearing(w: World, u: Uuid, v: Uuid) {
    forall b :: b in Bearing(w.lines) ==> (Reaches(Tree(w), u, b) <==> Reaches(Tree(w), v, b))
  }

  /** b is at or above u, and no message-bearing line lies between. */
  ghost predicate IsNearest(w: World, u: Uuid, b: Uuid) {
    && Reaches(Tree(w), u, b)
    && forall c :: c in Bearing(w.lines) && Reaches(Tree(w), u, c) && Reaches(Tree(w), c, b) ==> c == b
  }

  ghost predicate NewLine(w: World, line: Line) {
    line.uuid != "" && line.uuid != line.parent && line.uuid !in Mentioned(Tree(w))
  }

  /** A process started on a transcript resumes at a leaf that sees what its last message-bearing line sees. */
  ghost predicate Resumes(w: World, leaf: Uuid) {
    (leaf == "" || leaf in Tree(w)) && SameBearing(w, leaf, Newest(w))
  }

  ghost predicate Enabled(w: World, step: Step) {
    match step
    case Emit(line, announced, live) =>
      && NewLine(w, line) && !line.sidechain && line.parent == w.cursor
      && (forall m :: m in live ==> m.uuid == line.uuid && m.agentID == "")
      && (line.msgs == [] || !announced ==> live == [])
    case SideChain(line) => NewLine(w, line) && line.sidechain
    case Note(msg) => msg.uuid == ""
    case Rewound(target, branchPoint) =>
      && target in UserLines(w) && Reaches(Tree(w), w.cursor, target)
      && branchPoint in Bearing(w.lines) && Reaches(Tree(w), ParentOf(Tree(w), target), branchPoint)
    case Settled(branchPoint) => branchPoint in w.due
    case Respawn(leaf) => Resumes(w, leaf)
    case Restart(leaf) => Resumes(w, leaf)
  }

  ghost function Next(w: World, step: Step): World {
    match step
    case Emit(line, announced, live) =>
      w.(lines := w.lines + [line], cursor := line.uuid,
         session := if announced then Advance(w.session, line.uuid) else w.session,
         log := w.log + live)
    case SideChain(line) => w.(lines := w.lines + [line])
    case Note(msg) => w.(log := w.log + [msg])
    case Rewound(target, branchPoint) => w.(cursor := ParentOf(Tree(w), target), due := w.due + {branchPoint})
    case Settled(branchPoint) => w.(session := w.session.(tip := branchPoint), due := w.due - {branchPoint})
    case Respawn(leaf) => w.(cursor := leaf)
    case Restart(leaf) => World(w.lines, leaf, Cursor(Newest(w), Tree(w)), LogOf(w.lines), {})
  }

  ghost function Run(w: World, steps: seq<Step>): World {
    if steps == [] then w else Next(Run(w, Init(steps)), Last(steps))
  }

  ghost predicate ValidRun(w: World, steps: seq<Step>) {
    steps == [] || (ValidRun(w, Init(steps)) && Enabled(Run(w, Init(steps)), Last(steps)))
  }

  lemma RunSnoc(w: World, steps: seq<Step>, step: Step)
    ensures Run(w, steps + [step]) == Next(Run(w, steps), step)
    ensures ValidRun(w, steps + [step]) <==> ValidRun(w, steps) && Enabled(Run(w, steps), step)
  {
    assert Init(steps + [step]) == steps && Last(steps + [step]) == step;
  }

  // ---- the transcript ----

  /** An append-only transcript: uuids are unique and no line's parent comes at or after it. */
  ghost predicate Ordered(lines: seq<Line>) {
    && (forall i :: 0 <= i < |lines| ==> lines[i].uuid != "")
    && (forall i, j :: 0 <= i < j < |lines| ==> lines[i].uuid != lines[j].uuid)
    && (forall i, j :: 0 <= i <= j < |lines| ==> lines[i].parent != lines[j].uuid)
  }

  lemma {:induction false} LinkOf(lines: seq<Line>, i: nat)
    requires Ordered(lines) && i < |lines|
    ensures lines[i].uuid in ParentsOf(lines) && ParentsOf(lines)[lines[i].uuid] == lines[i].parent
  {
    if i < |lines| - 1 {
      assert Init(lines)[i] == lines[i];
      LinkOf(Init(lines), i);
    }
  }

  lemma {:induction false} LinkedIsLine(lines: seq<Line>, u: Uuid)
    requires u in ParentsOf(lines)
    ensures exists i :: 0 <= i < |lines| && lines[i].uuid == u
  {
    if Last(lines).uuid == u {
      assert lines[|lines| - 1].uuid == u;
    } else {
      LinkedIsLine(Init(lines), u);
      var i :| 0 <= i < |Init(lines)| && Init(lines)[i].uuid == u;
      assert lines[i].uuid == u;
    }
  }

  lemma ParentIsEarlier(lines: seq<Line>, j: nat) returns (k: nat)
    requires Ordered(lines) && j < |lines| && lines[j].parent in ParentsOf(lines)
    ensures k < j && lines[k].uuid == lines[j].parent
  {
    LinkedIsLine(lines, lines[j].parent);
    k :| k < |lines| && lines[k].uuid == lines[j].parent;
  }

  /** A strict ancestor of a line comes earlier in the transcript. */
  lemma {:induction false} AncestorIsEarlier(lines: seq<Line>, i: nat, j: nat, n: nat)
    requires Ordered(lines) && i < |lines| && j < |lines| && n > 0
    requires Up(ParentsOf(lines), lines[j].uuid, n) == lines[i].uuid
    ensures i < j
    decreases n
  {
    LinkOf(lines, i);
    LinkOf(lines, j);
    var p := lines[j].parent;
    assert Up(ParentsOf(lines), p, n - 1) == lines[i].uuid;
    if p !in ParentsOf(lines) {
      if n > 1 {
        UnlinkedEndsWalk(ParentsOf(lines), p, 0, n - 1);
      }
      assert false;
    } else {
      var k := ParentIsEarlier(lines, j);
      if n > 1 {
        AncestorIsEarlier(lines, i, k, n - 1);
      }
    }
  }

  lemma TranscriptIsAcyclic(lines: seq<Line>)
    requires Ordered(lines)
    ensures Acyclic(ParentsOf(lines))
  {
    var tree := ParentsOf(lines);
    forall u, n: nat | u != "" && n > 0
      ensures Up(tree, u, n) != u
    {
      if u in tree {
        LinkedIsLine(lines, u);
        var i :| 0 <= i < |lines| && lines[i].uuid == u;
        if Up(tree, u, n) == u {
          AncestorIsEarlier(lines, i, i, n);
        }
      } else {
        UnlinkedEndsWalk(tree, u, 0, n);
      }
    }
  }

  /** Finds the last message-bearing line, whose uuid seeds the tip of a cold load. */
  lemma {:induction false} LastBearingLine(lines: seq<Line>) returns (i: nat)
    requires Ordered(lines)
    ensures var last := LastUuid(LogOf(lines));
            if last == "" then Bearing(lines) == {}
            else && i < |lines| && lines[i].uuid == last && BearsMessages(lines[i])
                 && forall j :: i < j < |lines| ==> !BearsMessages(lines[j])
  {
    i := 0;
    if lines != [] {
      var l := Last(lines);
      i := LastBearingLine(Init(lines));
      if BearsMessages(l) {
        i := |lines| - 1;
        assert Last(LogOf(lines)) == Last(Stamped(l.msgs, l.uuid));
      } else {
        assert LogOf(lines) == LogOf(Init(lines));
        assert Bearing(lines) == Bearing(Init(lines)) by {
          assert lines == Init(lines) + [l];
        }
      }
    }
  }

  lemma BearingIsLinked(lines: seq<Line>)
    requires Ordered(lines)
    ensures Bearing(lines) <= ParentsOf(lines).Keys
  {
    forall b | b in Bearing(lines)
      ensures b in ParentsOf(lines)
    {
      var i :| 0 <= i < |lines| && lines[i].uuid == b;
      LinkOf(lines, i);
    }
  }

  // ---- the invariant of every run ----

  /** From u up in the session's chain and from v up in the transcript there are the same messages. */
  ghost predicate Agree(w: World, u: Uuid, v: Uuid) {
    forall b :: b in Bearing(w.lines) ==> (Reaches(w.session.parents, u, b) <==> Reaches(Tree(w), v, b))
  }

  /** Session and claude are on the same messages. */
  ghost predicate InStep(w: World) {
    Agree(w, w.session.tip, w.cursor)
  }

  ghost predicate Linked(w: World) {
    && Mentioned(w.session.parents) <= Mentioned(Tree(w)) + {""}
    && w.session.tip in Mentioned(Tree(w)) + {""}
    && w.cursor in Mentioned(Tree(w)) + {""}
    && w.due <= Bearing(w.lines)
  }

  /** In the session's chain too, a line's ancestors come earlier in the transcript. */
  ghost predicate SessionOrdered(w: World) {
    forall i, j :: 0 <= i < j < |w.lines| ==> !Reaches(w.session.parents, w.lines[i].uuid, w.lines[j].uuid)
  }

  /** What every run keeps, in step or not. */
  ghost predicate Sound(w: World) {
    Ordered(w.lines) && Linked(w) && SessionOrdered(w)
  }

  ghost predicate Good(w: World) {
    Sound(w) && InStep(w)
  }

  lemma UnmentionedIsUnreached(parents: Parents, v: Uuid, u: Uuid)
    requires u !in Mentioned(parents) && v != u
    ensures !Reaches(parents, v, u)
  {
    if Reaches(parents, v, u) {
      var n: nat :| Up(parents, v, n) == u;
      UpMentioned(parents, v, n);
    }
  }

  lemma {:induction false} UsersConcat(a: seq<Msg>, b: seq<Msg>)
    ensures Users(a + b) == Users(a) + Users(b)
    decreases |b|
  {
    if b == [] {
      assert a + b == a;
    } else {
      var last := if IsUser(Last(b)) then [Last(b).uuid] else [];
      assert Init(a + b) == a + Init(b) && Last(a + b) == Last(b);
      UsersConcat(a, Init(b));
      Regroup(Users(a), Users(Init(b)), last);
    }
  }

  // ---- one more line ----

  lemma NewLineKeepsOrder(w: World, line: Line)
    requires Ordered(w.lines) && NewLine(w, line)
    ensures Ordered(w.lines + [line])
  {
    forall i | 0 <= i < |w.lines|
      ensures w.lines[i].uuid != line.uuid && w.lines[i].parent != line.uuid
    {
      LinkOf(w.lines, i);
    }
  }

  lemma MentionedAfterNewLink(parents: Parents, u: Uuid, p: Uuid)
    requires u !in parents
    ensures Mentioned(parents[u := p]) == Mentioned(parents) + {u, p}
  {
    var grown := parents[u := p];
    forall v
      ensures v in Mentioned(grown) <==> v in Mentioned(parents) + {u, p}
    {
      if v in parents.Values {
        var x :| x in parents && parents[x] == v;
        assert grown[x] == v;
      }
      assert grown[u] == p;
    }
  }

  lemma OneMoreLine(w: World, line: Line)
    requires Ordered(w.lines) && NewLine(w, line)
    ensures var lines, bears := w.lines + [line], BearsMessages(line);
            && Ordered(lines)
            && ParentsOf(lines) == Tree(w)[line.uuid := line.parent]
            && Bearing(lines) == Bearing(w.lines) + (if bears then {line.uuid} else {})
            && LogOf(lines) == LogOf(w.lines) + (if line.sidechain then [] else Stamped(line.msgs, line.uuid))
            && LastUuid(LogOf(lines)) == (if bears then line.uuid else Newest(w))
            && Mentioned(ParentsOf(lines)) == Mentioned(Tree(w)) + {line.uuid, line.parent}
  {
    assert Init(w.lines + [line]) == w.lines;
    NewLineKeepsOrder(w, line);
    MentionedAfterNewLink(Tree(w), line.uuid, line.parent);
    if BearsMessages(line) {
      assert Last(LogOf(w.lines) + Stamped(line.msgs, line.uuid)) == Last(Stamped(line.msgs, line.uuid));
    } else {
      assert LogOf(w.lines) + [] == LogOf(w.lines);
    }
  }

  /** A new line leaves every branch of the session and of the transcript alone, and is on none of them. */
  lemma OldWalksStay(w: World, line: Line, p: Uuid, v: Uuid, b: Uuid)
    requires Linked(w) && NewLine(w, line) && v != line.uuid
    ensures Reaches(w.session.parents[line.uuid := p], v, b) <==> Reaches(w.session.parents, v, b)
    ensures Reaches(Tree(w)[line.uuid := line.parent], v, b) <==> Reaches(Tree(w), v, b)
    ensures !Reaches(w.session.parents, v, line.uuid) && !Reaches(Tree(w), v, line.uuid)
  {
    UnmentionedIsUnreached(w.session.parents, v, line.uuid);
    UnmentionedIsUnreached(Tree(w), v, line.uuid);
    FreshLinkKeepsBranch(w.session.parents, line.uuid, p, v, b);
    FreshLinkKeepsBranch(Tree(w), line.uuid, line.parent, v, b);
  }

  /** The new line sees itself and what its parent saw, in the session's chain and in the transcript. */
  lemma NewWalks(w: World, line: Line, b: Uuid)
    requires Linked(w) && NewLine(w, line) && line.parent == w.cursor
    ensures Reaches(w.session.parents[line.uuid := w.session.tip], line.uuid, b) <==>
            b == line.uuid || Reaches(w.session.parents, w.session.tip, b)
    ensures Reaches(Tree(w)[line.uuid := line.parent], line.uuid, b) <==>
            b == line.uuid || Reaches(Tree(w), w.cursor, b)
  {
    OldWalksStay(w, line, w.session.tip, w.session.tip, b);
    OldWalksStay(w, line, w.session.tip, w.cursor, b);
    ReachesUnfold(w.session.parents[line.uuid := w.session.tip], line.uuid, b);
    ReachesUnfold(Tree(w)[line.uuid := line.parent], line.uuid, b);
  }

  lemma EmitLinks(w: World, line: Line, announced: bool, live: seq<Msg>)
    requires Sound(w) && Enabled(w, Emit(line, announced, live))
    ensures var x := Next(w, Emit(line, announced, live));
            && Linked(x) && Ordered(x.lines)
            && x.session == (if announced then Cursor(line.uuid, w.session.parents[line.uuid := w.session.tip]) else w.session)
            && Tree(x) == Tree(w)[line.uuid := line.parent]
            && Newest(x) == (if line.msgs != [] then line.uuid else Newest(w))
            && Bearing(x.lines) == Bearing(w.lines) + (if line.msgs != [] then {line.uuid} else {})
  {
    OneMoreLine(w, line);
    assert line.uuid !in w.session.parents;
    MentionedAfterNewLink(w.session.parents, line.uuid, w.session.tip);
  }

  /** Whether old lines agree does not change. */
  lemma EmitKeepsAgreement(w: World, line: Line, announced: bool, live: seq<Msg>, u: Uuid, v: Uuid)
    requires Sound(w) && Enabled(w, Emit(line, announced, live)) && u != line.uuid && v != line.uuid
    ensures Agree(Next(w, Emit(line, announced, live)), u, v) <==> Agree(w, u, v)
  {
    var x := Next(w, Emit(line, announced, live));
    EmitLinks(w, line, announced, live);
    forall b
      ensures Reaches(x.session.parents, u, b) <==> Reaches(w.session.parents, u, b)
      ensures Reaches(Tree(x), v, b) <==> Reaches(Tree(w), v, b)
      ensures !Reaches(w.session.parents, u, line.uuid) && !Reaches(Tree(w), v, line.uuid)
    {
      OldWalksStay(w, line, w.session.tip, u, b);
      OldWalksStay(w, line, w.session.tip, v, b);
    }
  }

  /** What the new line sees. One that is not announced sees only itself in the session's chain. */
  lemma EmitWalks(w: World, line: Line, announced: bool, live: seq<Msg>, b: Uuid)
    requires Sound(w) && Enabled(w, Emit(line, announced, live))
    ensures var x := Next(w, Emit(line, announced, live));
            && (Reaches(Tree(x), line.uuid, b) <==> b == line.uuid || Reaches(Tree(w), w.cursor, b))
            && (Reaches(x.session.parents, line.uuid, b) <==>
                b == line.uuid || (announced && Reaches(w.session.parents, w.session.tip, b)))
    ensures !Reaches(w.session.parents, w.session.tip, line.uuid) && !Reaches(Tree(w), w.cursor, line.uuid)
  {
    EmitLinks(w, line, announced, live);
    NewWalks(w, line, b);
    OldWalksStay(w, line, w.session.tip, w.session.tip, b);
    OldWalksStay(w, line, w.session.tip, w.cursor, b);
    ReachesUnfold(w.session.parents, line.uuid, b);
    NothingAboveNothing(w.session.parents, b);
  }

  /** An announced line agrees exactly if the cursors agreed, another one exactly if claude's branch held no message. */
  lemma EmitAgreesIff(w: World, line: Line, announced: bool, live: seq<Msg>)
    requires Sound(w) && Enabled(w, Emit(line, announced, live))
    ensures var x := Next(w, Emit(line, announced, live));
            Agree(x, line.uuid, line.uuid) <==> if announced then InStep(w) else SameBearing(w, w.cursor, "")
  {
    EmitLinks(w, line, announced, live);
    forall b
      ensures var x := Next(w, Emit(line, announced, live));
              && (Reaches(Tree(x), line.uuid, b) <==> b == line.uuid || Reaches(Tree(w), w.cursor, b))
              && (Reaches(x.session.parents, line.uuid, b) <==>
                  b == line.uuid || (announced && Reaches(w.session.parents, w.session.tip, b)))
              && !Reaches(w.session.parents, w.session.tip, line.uuid) && !Reaches(Tree(w), w.cursor, line.uuid)
              && !Reaches(Tree(w), "", b)
    {
      EmitWalks(w, line, announced, live, b);
      NothingAboveNothing(Tree(w), b);
    }
  }

  lemma NothingAboveNothing(parents: Parents, b: Uuid)
    ensures !Reaches(parents, "", b)
  {
  }

  /** With the tip on a new line, the session shows the branch of the line or, if that bears no messages, what
      it showed before. */
  lemma EmitMovesTheTip(w: World, line: Line, live: seq<Msg>, v: Uuid)
    requires Sound(w) && Enabled(w, Emit(line, true, live)) && v != line.uuid
    ensures var x := Next(w, Emit(line, true, live));
            Agree(x, line.uuid, v) <==> line.msgs == [] && Agree(w, w.session.tip, v)
  {
    var x := Next(w, Emit(line, true, live));
    EmitLinks(w, line, true, live);
    forall b
      ensures Reaches(x.session.parents, line.uuid, b) <==> b == line.uuid || Reaches(w.session.parents, w.session.tip, b)
      ensures Reaches(Tree(x), v, b) <==> Reaches(Tree(w), v, b)
      ensures !Reaches(Tree(w), v, line.uuid)
    {
      NewWalks(w, line, b);
      OldWalksStay(w, line, w.session.tip, v, b);
    }
    assert line.msgs == [] ==> line.uuid !in Bearing(x.lines) by {
      BearingIsLinked(w.lines);
    }
  }

  lemma EmitKeepsSound(w: World, line: Line, announced: bool, live: seq<Msg>)
    requires Sound(w) && Enabled(w, Emit(line, announced, live))
    ensures Sound(Next(w, Emit(line, announced, live)))
  {
    var x := Next(w, Emit(line, announced, live));
    EmitLinks(w, line, announced, live);
    forall i, j | 0 <= i < j < |x.lines|
      ensures !Reaches(x.session.parents, x.lines[i].uuid, x.lines[j].uuid)
    {
      assert w.lines[i].uuid != line.uuid by {
        LinkOf(w.lines, i);
      }
      OldWalksStay(w, line, w.session.tip, w.lines[i].uuid, x.lines[j].uuid);
    }
  }

  lemma SideChainKeepsAgreement(w: World, line: Line, u: Uuid, v: Uuid)
    requires Sound(w) && Enabled(w, SideChain(line)) && v != line.uuid
    ensures Agree(Next(w, SideChain(line)), u, v) <==> Agree(w, u, v)
  {
    OneMoreLine(w, line);
    forall b
      ensures Reaches(Tree(w)[line.uuid := line.parent], v, b) <==> Reaches(Tree(w), v, b)
    {
      OldWalksStay(w, line, "", v, b);
    }
  }

  lemma SideChainKeepsSound(w: World, line: Line)
    requires Sound(w) && Enabled(w, SideChain(line))
    ensures Sound(Next(w, SideChain(line)))
  {
    var x := Next(w, SideChain(line));
    OneMoreLine(w, line);
    forall i, j | 0 <= i < j < |x.lines|
      ensures !Reaches(x.session.parents, x.lines[i].uuid, x.lines[j].uuid)
    {
      assert w.lines[i].uuid != line.uuid by {
        LinkOf(w.lines, i);
      }
      OldWalksStay(w, line, "", w.lines[i].uuid, x.lines[j].uuid);
    }
  }

  /** The nearest message-bearing line at or above u is the one that sees the same messages as u. */
  lemma NearestIffSame(w: World, u: Uuid, b: Uuid)
    requires Ordered(w.lines) && b in Bearing(w.lines)
    ensures IsNearest(w, u, b) <==> SameBearing(w, u, b)
  {
    var tree := Tree(w);
    assert Up(tree, b, 0) == b && b != "";
    if SameBearing(w, u, b) {
      TranscriptIsAcyclic(w.lines);
      forall c | c in Bearing(w.lines) && Reaches(tree, u, c) && Reaches(tree, c, b)
        ensures c == b
      {
        NoMutualReach(tree, b, c);
      }
    }
    if IsNearest(w, u, b) {
      forall c | c in Bearing(w.lines)
        ensures Reaches(tree, u, c) <==> Reaches(tree, b, c)
      {
        if Reaches(tree, u, c) {
          BranchIsLinear(tree, u, b, c);
        } else if Reaches(tree, b, c) {
          ReachesTransitive(tree, u, b, c);
        }
      }
    }
  }

  // ---- the message a branch ends in ----

  /** A message-bearing line, or "" for a branch without messages. */
  ghost predicate IsMessage(w: World, v: Uuid) {
    v == "" || v in Bearing(w.lines)
  }

  lemma BearingLine(w: World, b: Uuid) returns (i: nat)
    requires b in Bearing(w.lines)
    ensures i < |w.lines| && w.lines[i].uuid == b && BearsMessages(w.lines[i])
  {
    var l :| l in w.lines && BearsMessages(l) && l.uuid == b;
    i :| i < |w.lines| && w.lines[i] == l;
  }

  lemma SeesItself(w: World, b: Uuid)
    requires Ordered(w.lines) && b in Bearing(w.lines)
    ensures b != "" && b in Tree(w) && forall parents :: Reaches(parents, b, b)
  {
    BearingIsLinked(w.lines);
    var i := BearingLine(w, b);
    forall parents
      ensures Reaches(parents, b, b)
    {
      assert Up(parents, b, 0) == b;
    }
  }

  lemma MessageIsUnique(w: World, u: Uuid, v: Uuid)
    requires Ordered(w.lines) && IsMessage(w, u) && IsMessage(w, v) && SameBearing(w, u, v)
    ensures u == v
  {
    TranscriptIsAcyclic(w.lines);
    NothingAboveNothing(Tree(w), u);
    NothingAboveNothing(Tree(w), v);
    if u != "" {
      SeesItself(w, u);
    }
    if v != "" {
      SeesItself(w, v);
    }
    if u != "" && v != "" {
      NoMutualReach(Tree(w), u, v);
    }
  }

  lemma {:induction false} NearestExists(w: World, u: Uuid, i: nat) returns (b: Uuid)
    requires Ordered(w.lines) && i < |w.lines| && BearsMessages(w.lines[i]) && Reaches(Tree(w), u, w.lines[i].uuid)
    ensures b in Bearing(w.lines) && IsNearest(w, u, b)
    decreases |w.lines| - i
  {
    b := w.lines[i].uuid;
    if c :| c in Bearing(w.lines) && Reaches(Tree(w), u, c) && Reaches(Tree(w), c, b) && c != b {
      var j := BearingLine(w, c);
      var n: nat :| Up(Tree(w), c, n) == b;
      AncestorIsEarlier(w.lines, i, j, n);
      b := NearestExists(w, u, j);
    }
  }

  /** The last message on the branch that ends at u. */
  ghost function MessageAbove(w: World, u: Uuid): Uuid {
    if b :| b in Bearing(w.lines) && IsNearest(w, u, b) then b else ""
  }

  lemma MessageAboveIsSame(w: World, u: Uuid)
    requires Ordered(w.lines)
    ensures IsMessage(w, MessageAbove(w, u)) && SameBearing(w, u, MessageAbove(w, u))
  {
    if MessageAbove(w, u) in Bearing(w.lines) && IsNearest(w, u, MessageAbove(w, u)) {
      NearestIffSame(w, u, MessageAbove(w, u));
    } else {
      forall b | b in Bearing(w.lines)
        ensures !Reaches(Tree(w), u, b) && !Reaches(Tree(w), "", b)
      {
        NothingAboveNothing(Tree(w), b);
        if Reaches(Tree(w), u, b) {
          var i := BearingLine(w, b);
          var c := NearestExists(w, u, i);
        }
      }
    }
  }

  lemma NewestIsMessage(w: World)
    requires Ordered(w.lines)
    ensures IsMessage(w, Newest(w)) && (Newest(w) == "" ==> Bearing(w.lines) == {})
  {
    var i := LastBearingLine(w.lines);
  }

  /** In the session's chain, what a message sees is in the transcript seen by that message or by none. */
  lemma AgreesOnlyWithItself(w: World, b: Uuid, v: Uuid)
    requires Sound(w) && b in Bearing(w.lines) && IsMessage(w, v) && Agree(w, b, v)
    ensures v == b
  {
    SeesItself(w, b);
    NothingAboveNothing(Tree(w), b);
    if v != b {
      SeesItself(w, v);
      var i := BearingLine(w, b);
      var j := BearingLine(w, v);
      var n: nat :| Up(Tree(w), v, n) == b;
      AncestorIsEarlier(w.lines, i, j, n);
    }
  }
}
