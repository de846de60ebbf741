/** When the live session and a cold reload show the same messages, over whole runs. */
module LiveReload {
  import opened LineChain
  import opened Messages
  import opened Prelude
  import opened Transcript
  import opened Conversation

  // ---- what a run does to claude and the session ----

  /** Followed from step to step: the transcript's newest message, the last message on claude's branch, the
      message whose branch the session shows, if there is one, and the lines from which session and
      transcript see different messages. */
  datatype Trace = Trace(newest: Uuid, at: Uuid, shown: Option<Uuid>, astray: set<Uuid>)

  /** A message goes to claude's branch. If it is announced, it goes to the session's too, and the session shows
      its branch if it was showing claude's. Otherwise the session lacks it. A rewind moves claude alone, and
      what follows it moves the session. */
  ghost function Follow(w: World, t: Trace, step: Step): Trace {
    match step
    case Emit(line, announced, _) =>
      if line.msgs == [] then t
      else
        Trace(line.uuid, line.uuid,
              if !announced then t.shown else if t.shown == Some(t.at) then Some(line.uuid) else None,
              if (if announced then t.shown == Some(t.at) else t.at == "") then t.astray else t.astray + {line.uuid})
    case Rewound(target, _) => t.(at := MessageAbove(w, ParentOf(Tree(w), target)))
    case Settled(branchPoint) => t.(shown := if branchPoint in t.astray then None else Some(branchPoint))
    case Respawn(_) => t.(at := t.newest)
    case Restart(_) => Trace(t.newest, t.newest, Some(t.newest), {})
    case _ => t
  }

  ghost function TraceOf(w: World, t: Trace, steps: seq<Step>): Trace {
    if steps == [] then t else Follow(Run(w, Init(steps)), TraceOf(w, t, Init(steps)), Last(steps))
  }

  ghost predicate Shows(w: World, shown: Option<Uuid>) {
    match shown
    case Some(v) => IsMessage(w, v) && Agree(w, w.session.tip, v)
    case None => forall v :: IsMessage(w, v) ==> !Agree(w, w.session.tip, v)
  }

  ghost predicate Stray(w: World, astray: set<Uuid>) {
    && astray <= Bearing(w.lines)
    && forall v :: v in Bearing(w.lines) ==> (Agree(w, v, v) <==> v !in astray)
  }

  /** The trace says exactly where claude, session and transcript stand. */
  ghost predicate Tracked(w: World, t: Trace) {
    && Sound(w) && t.newest == Newest(w)
    && IsMessage(w, t.at) && SameBearing(w, w.cursor, t.at)
    && Shows(w, t.shown) && Stray(w, t.astray)
  }

  lemma ShownIff(w: World, shown: Option<Uuid>, u: Uuid, v: Uuid)
    requires Ordered(w.lines) && Shows(w, shown) && IsMessage(w, v) && SameBearing(w, u, v)
    ensures Agree(w, w.session.tip, u) <==> shown == Some(v)
  {
    if Agree(w, w.session.tip, u) && shown.Some? {
      MessageIsUnique(w, shown.value, v);
    }
  }

  /** Session and claude are in step exactly if the session shows the last message on claude's branch. */
  lemma InStepIffShown(w: World, t: Trace)
    requires Tracked(w, t)
    ensures InStep(w) <==> t.shown == Some(t.at)
    ensures SameBearing(w, w.cursor, "") <==> t.at == ""
  {
    ShownIff(w, t.shown, w.cursor, t.at);
    if SameBearing(w, w.cursor, "") {
      MessageIsUnique(w, t.at, "");
    }
  }

  /** From u in x's session there is what there was from v in w's, as far as old branches go. */
  ghost predicate SameView(w: World, v: Uuid, x: World, u: Uuid, line: Uuid) {
    && Bearing(x.lines) <= Bearing(w.lines) + {line} && Bearing(w.lines) <= Bearing(x.lines)
    && forall m :: m != line ==> (Agree(x, u, m) <==> Agree(w, v, m))
  }

  lemma EmitKeepsViews(w: World, line: Line, announced: bool, live: seq<Msg>, u: Uuid)
    requires Sound(w) && Enabled(w, Emit(line, announced, live)) && u != line.uuid
    ensures SameView(w, u, Next(w, Emit(line, announced, live)), u, line.uuid)
  {
    EmitLinks(w, line, announced, live);
    forall m | m != line.uuid
      ensures Agree(Next(w, Emit(line, announced, live)), u, m) <==> Agree(w, u, m)
    {
      EmitKeepsAgreement(w, line, announced, live, u, m);
    }
  }

  lemma SilentLineKeepsTheView(w: World, line: Line, live: seq<Msg>)
    requires Sound(w) && Enabled(w, Emit(line, true, live)) && line.msgs == []
    ensures SameView(w, w.session.tip, Next(w, Emit(line, true, live)), line.uuid, line.uuid)
  {
    EmitLinks(w, line, true, live);
    forall m | m != line.uuid
      ensures Agree(Next(w, Emit(line, true, live)), line.uuid, m) <==> Agree(w, w.session.tip, m)
    {
      EmitMovesTheTip(w, line, live, m);
    }
  }

  lemma ShowsAsBefore(w: World, x: World, shown: Option<Uuid>, line: Uuid)
    requires Shows(w, shown) && SameView(w, w.session.tip, x, x.session.tip, line) && !IsMessage(w, line)
    requires IsMessage(x, line) ==> !Agree(x, x.session.tip, line)
    ensures Shows(x, shown)
  {
  }

  lemma EmitIsNew(w: World, line: Line, announced: bool, live: seq<Msg>)
    requires Sound(w) && Enabled(w, Emit(line, announced, live))
    ensures !IsMessage(w, line.uuid) && w.session.tip != line.uuid && Ordered(Next(w, Emit(line, announced, live)).lines)
  {
    BearingIsLinked(w.lines);
    EmitLinks(w, line, announced, live);
  }

  lemma UnannouncedIsUnseen(w: World, line: Line, live: seq<Msg>)
    requires Sound(w) && Enabled(w, Emit(line, false, live)) && line.msgs != []
    ensures var x := Next(w, Emit(line, false, live)); !Agree(x, x.session.tip, line.uuid)
  {
    EmitLinks(w, line, false, live);
    EmitWalks(w, line, false, live, line.uuid);
  }

  /** An announced message is all that the session can show. */
  lemma MessageShows(w: World, line: Line, live: seq<Msg>)
    requires Sound(w) && Enabled(w, Emit(line, true, live)) && line.msgs != []
    ensures Shows(Next(w, Emit(line, true, live)), if InStep(w) then Some(line.uuid) else None)
  {
    var x := Next(w, Emit(line, true, live));
    EmitLinks(w, line, true, live);
    EmitAgreesIff(w, line, true, live);
    forall v | v != line.uuid
      ensures !Agree(x, line.uuid, v)
    {
      EmitMovesTheTip(w, line, live, v);
    }
  }

  lemma EmitShows(w: World, t: Trace, line: Line, announced: bool, live: seq<Msg>)
    requires Tracked(w, t) && Enabled(w, Emit(line, announced, live))
    ensures var step := Emit(line, announced, live); Shows(Next(w, step), Follow(w, t, step).shown)
  {
    var x := Next(w, Emit(line, announced, live));
    EmitIsNew(w, line, announced, live);
    if announced && line.msgs != [] {
      InStepIffShown(w, t);
      MessageShows(w, line, live);
    } else {
      EmitLinks(w, line, announced, live);
      if announced {
        SilentLineKeepsTheView(w, line, live);
      } else {
        EmitKeepsViews(w, line, announced, live, w.session.tip);
        if line.msgs != [] {
          UnannouncedIsUnseen(w, line, live);
        }
      }
      ShowsAsBefore(w, x, t.shown, line.uuid);
    }
  }

  lemma EmitStraysAt(w: World, t: Trace, line: Line, announced: bool, live: seq<Msg>, v: Uuid)
    requires Tracked(w, t) && Enabled(w, Emit(line, announced, live))
    requires v in Bearing(Next(w, Emit(line, announced, live)).lines)
    ensures var step := Emit(line, announced, live); Agree(Next(w, step), v, v) <==> v !in Follow(w, t, step).astray
  {
    EmitIsNew(w, line, announced, live);
    EmitLinks(w, line, announced, live);
    if v == line.uuid {
      InStepIffShown(w, t);
      EmitAgreesIff(w, line, announced, live);
    } else {
      EmitKeepsAgreement(w, line, announced, live, v, v);
    }
  }

  lemma EmitStrays(w: World, t: Trace, line: Line, announced: bool, live: seq<Msg>)
    requires Tracked(w, t) && Enabled(w, Emit(line, announced, live))
    ensures var step := Emit(line, announced, live); Stray(Next(w, step), Follow(w, t, step).astray)
  {
    EmitLinks(w, line, announced, live);
    forall v | v in Bearing(Next(w, Emit(line, announced, live)).lines)
      ensures Agree(Next(w, Emit(line, announced, live)), v, v) <==>
              v !in Follow(w, t, Emit(line, announced, live)).astray
    {
      EmitStraysAt(w, t, line, announced, live, v);
    }
  }

  lemma EmitIsTracked(w: World, t: Trace, line: Line, announced: bool, live: seq<Msg>)
    requires Tracked(w, t) && Enabled(w, Emit(line, announced, live))
    ensures var step := Emit(line, announced, live); Tracked(Next(w, step), Follow(w, t, step))
  {
    var x := Next(w, Emit(line, announced, live));
    EmitLinks(w, line, announced, live);
    EmitKeepsSound(w, line, announced, live);
    EmitShows(w, t, line, announced, live);
    EmitStrays(w, t, line, announced, live);
    BearingIsLinked(w.lines);
    if line.msgs == [] {
      forall b | b in Bearing(w.lines)
        ensures Reaches(Tree(x), line.uuid, b) <==> Reaches(Tree(x), t.at, b)
      {
        EmitWalks(w, line, announced, live, b);
        OldWalksStay(w, line, w.session.tip, t.at, b);
      }
    }
  }

  lemma SideChainIsTracked(w: World, t: Trace, line: Line)
    requires Tracked(w, t) && Enabled(w, SideChain(line))
    ensures Tracked(Next(w, SideChain(line)), t)
  {
    var x := Next(w, SideChain(line));
    SideChainKeepsSound(w, line);
    OneMoreLine(w, line);
    BearingIsLinked(w.lines);
    forall u, v | v != line.uuid
      ensures Agree(x, u, v) <==> Agree(w, u, v)
    {
      SideChainKeepsAgreement(w, line, u, v);
    }
    forall b
      ensures Reaches(Tree(x), w.cursor, b) <==> Reaches(Tree(w), w.cursor, b)
      ensures Reaches(Tree(x), t.at, b) <==> Reaches(Tree(w), t.at, b)
    {
      OldWalksStay(w, line, "", w.cursor, b);
      OldWalksStay(w, line, "", t.at, b);
    }
  }

  lemma SameAgreement(w: World, x: World)
    requires x.lines == w.lines && x.session.parents == w.session.parents
    ensures forall u, v :: Agree(x, u, v) <==> Agree(w, u, v)
  {
  }

  lemma ClaudeMoves(w: World, t: Trace, x: World, at: Uuid)
    requires Tracked(w, t) && x.lines == w.lines && x.session == w.session && Linked(x)
    requires IsMessage(w, at) && SameBearing(w, x.cursor, at)
    ensures Tracked(x, t.(at := at))
  {
    SameAgreement(w, x);
    assert Shows(x, t.shown) by {
      assert forall v :: IsMessage(x, v) <==> IsMessage(w, v);
    }
  }

  lemma SettledIsTracked(w: World, t: Trace, branchPoint: Uuid)
    requires Tracked(w, t) && Enabled(w, Settled(branchPoint))
    ensures Tracked(Next(w, Settled(branchPoint)), Follow(w, t, Settled(branchPoint)))
  {
    var x := Next(w, Settled(branchPoint));
    SameAgreement(w, x);
    assert Linked(x) by {
      BearingIsLinked(w.lines);
    }
    assert Shows(x, Follow(w, t, Settled(branchPoint)).shown) by {
      forall v | IsMessage(x, v) && Agree(x, branchPoint, v)
        ensures v == branchPoint
      {
        assert IsMessage(w, v) && Agree(w, branchPoint, v);
        AgreesOnlyWithItself(w, branchPoint, v);
      }
    }
  }

  lemma RestartKeepsGood(w: World, leaf: Uuid)
    requires Sound(w) && Enabled(w, Restart(leaf))
    ensures Good(Next(w, Restart(leaf))) && forall v :: Agree(Next(w, Restart(leaf)), v, v)
  {
    NewestIsMessage(w);
    BearingIsLinked(w.lines);
    forall i, j | 0 <= i < j < |w.lines|
      ensures !Reaches(Tree(w), w.lines[i].uuid, w.lines[j].uuid)
    {
      if Reaches(Tree(w), w.lines[i].uuid, w.lines[j].uuid) {
        var n: nat :| Up(Tree(w), w.lines[i].uuid, n) == w.lines[j].uuid;
        if n > 0 {
          AncestorIsEarlier(w.lines, j, i, n);
        }
      }
    }
  }

  lemma RestartIsTracked(w: World, t: Trace, leaf: Uuid)
    requires Tracked(w, t) && Enabled(w, Restart(leaf))
    ensures Tracked(Next(w, Restart(leaf)), Follow(w, t, Restart(leaf)))
  {
    NewestIsMessage(w);
    RestartKeepsGood(w, leaf);
  }

  lemma StepIsTracked(w: World, t: Trace, step: Step)
    requires Tracked(w, t) && Enabled(w, step)
    ensures Tracked(Next(w, step), Follow(w, t, step))
  {
    match step {
      case Emit(line, announced, live) => EmitIsTracked(w, t, line, announced, live);
      case SideChain(line) => SideChainIsTracked(w, t, line);
      case Note(_) => ClaudeMoves(w, t, Next(w, step), t.at);
      case Rewound(target, _) =>
        MessageAboveIsSame(w, ParentOf(Tree(w), target));
        ClaudeMoves(w, t, Next(w, step), MessageAbove(w, ParentOf(Tree(w), target)));
      case Settled(branchPoint) => SettledIsTracked(w, t, branchPoint);
      case Respawn(_) =>
        NewestIsMessage(w);
        ClaudeMoves(w, t, Next(w, step), t.newest);
      case Restart(leaf) => RestartIsTracked(w, t, leaf);
    }
  }

  /** Over every run, the steps alone tell where claude and the session stand. */
  lemma {:induction false} RunIsTracked(w: World, t: Trace, steps: seq<Step>)
    requires Tracked(w, t) && ValidRun(w, steps)
    ensures Tracked(Run(w, steps), TraceOf(w, t, steps))
  {
    if steps != [] {
      RunIsTracked(w, t, Init(steps));
      StepIsTracked(Run(w, Init(steps)), TraceOf(w, t, Init(steps)), Last(steps));
    }
  }

  const BLANK := World([], "", Cursor("", map[]), [], {})

  /** A conversation starts in step. */
  lemma BlankIsTracked()
    ensures Tracked(BLANK, Trace("", "", Some(""), {}))
  {
    assert Bearing([]) == {};
  }

  /** Over every run, session and claude are in step exactly if the session shows the last message on claude's
      branch. */
  lemma RunIsGoodIff(w: World, t: Trace, steps: seq<Step>)
    requires Tracked(w, t) && ValidRun(w, steps)
    ensures Good(Run(w, steps)) <==> TraceOf(w, t, steps).shown == Some(TraceOf(w, t, steps).at)
  {
    RunIsTracked(w, t, steps);
    InStepIffShown(Run(w, steps), TraceOf(w, t, steps));
  }

  // ---- live view and cold reload ----

  /** The active set of a session loaded cold from the transcript as it is now. */
  ghost function ReloadedBranch(w: World): set<Uuid> {
    Active(Tree(w), Newest(w))
  }

  /** The same uuids of message-bearing lines are active in the session and after a reload. */
  ghost predicate LiveEqualsReload(w: World) {
    forall b :: b in Bearing(w.lines) ==> (b in Branch(w.session) <==> b in ReloadedBranch(w))
  }

  lemma ReloadShowsTheNewest(w: World)
    ensures LiveEqualsReload(w) <==> Agree(w, w.session.tip, Newest(w))
  {
    forall b
      ensures b in Branch(w.session) <==> Reaches(w.session.parents, w.session.tip, b)
      ensures b in ReloadedBranch(w) <==> Reaches(Tree(w), Newest(w), b)
    {
      ActiveIffReaches(w.session.parents, w.session.tip, b);
      ActiveIffReaches(Tree(w), Newest(w), b);
    }
  }

  lemma LiveEqualsReloadNow(w: World, t: Trace)
    requires Tracked(w, t)
    ensures LiveEqualsReload(w) <==> t.shown == Some(t.newest)
  {
    ReloadShowsTheNewest(w);
    NewestIsMessage(w);
    ShownIff(w, t.shown, Newest(w), Newest(w));
  }

  /** The law that makes the live page and a reload interchangeable. Over every run, with lines between a rewind
      and the tip's move, started messages whose entry is lost, and processes that die and come back, the same
      uuids are active in both exactly if the session shows the transcript's newest message. */
  lemma LiveEqualsReloadIff(w: World, t: Trace, steps: seq<Step>)
    requires Tracked(w, t) && ValidRun(w, steps)
    ensures LiveEqualsReload(Run(w, steps)) <==> TraceOf(w, t, steps).shown == Some(TraceOf(w, t, steps).newest)
  {
    RunIsTracked(w, t, steps);
    LiveEqualsReloadNow(Run(w, steps), TraceOf(w, t, steps));
  }

  /** A message that the session hears of makes them equal exactly if session and claude were in step. */
  lemma MessageAgreesIff(w: World, line: Line, live: seq<Msg>)
    requires Sound(w) && Enabled(w, Emit(line, true, live)) && line.msgs != []
    ensures LiveEqualsReload(Next(w, Emit(line, true, live))) <==> InStep(w)
  {
    EmitLinks(w, line, true, live);
    EmitAgreesIff(w, line, true, live);
    ReloadShowsTheNewest(Next(w, Emit(line, true, live)));
  }

  lemma HeardLineKeepsGood(w: World, line: Line, live: seq<Msg>)
    requires Good(w) && Enabled(w, Emit(line, true, live))
    ensures Good(Next(w, Emit(line, true, live)))
  {
    EmitKeepsSound(w, line, true, live);
    EmitLinks(w, line, true, live);
    EmitAgreesIff(w, line, true, live);
  }

  /** No edit and no lost message. */
  predicate IsPlainStep(step: Step) {
    match step
    case Emit(line, announced, _) => line.msgs != [] ==> announced
    case Rewound(_, _) => false
    case Settled(_) => false
    case _ => true
  }

  lemma {:induction false} PlainTrace(w: World, t: Trace, steps: seq<Step>)
    requires t.at == t.newest && t.shown == Some(t.newest) && forall step :: step in steps ==> IsPlainStep(step)
    ensures var u := TraceOf(w, t, steps); u.at == u.newest && u.shown == Some(u.newest)
  {
    if steps != [] {
      assert Last(steps) in steps;
      PlainTrace(w, t, Init(steps));
    }
  }

  /** Such runs keep live view and reload equal, however often the process dies. */
  lemma PlainRunsAgree(w: World, t: Trace, steps: seq<Step>)
    requires Tracked(w, t) && t.at == t.newest && t.shown == Some(t.newest) && ValidRun(w, steps)
    requires forall step :: step in steps ==> IsPlainStep(step)
    ensures LiveEqualsReload(Run(w, steps)) && InStep(Run(w, steps))
  {
    PlainTrace(w, t, steps);
    RunIsGoodIff(w, t, steps);
    LiveEqualsReloadIff(w, t, steps);
  }

  /** Once the session shows no branch of the transcript, it stays so until a tip's move or a cold load. */
  lemma {:induction false} StrayingLasts(w: World, t: Trace, steps: seq<Step>)
    requires Tracked(w, t) && t.shown == None && ValidRun(w, steps)
    requires forall step :: step in steps ==> !step.Settled? && !step.Restart?
    ensures TraceOf(w, t, steps).shown == None && !LiveEqualsReload(Run(w, steps)) && !InStep(Run(w, steps))
  {
    if steps != [] {
      assert Last(steps) in steps;
      StrayingLasts(w, t, Init(steps));
    }
    RunIsTracked(w, t, steps);
    LiveEqualsReloadIff(w, t, steps);
    InStepIffShown(Run(w, steps), TraceOf(w, t, steps));
  }

  // ---- a message whose entry was lost ----

  /** A run that fails: the queue has lost an entry that claude still starts, so nothing links its line. Claude
      replies, and the reply is the newest message everywhere, but the message it answers is missing from the
      live view. */
  lemma LostMessageIsMissing(w: World, line: Line, reply: Line, live: seq<Msg>)
    requires Sound(w) && line.msgs != [] && reply.msgs != []
    requires Enabled(w, Emit(line, false, [])) && Enabled(Next(w, Emit(line, false, [])), Emit(reply, true, live))
    ensures var x := Next(Next(w, Emit(line, false, [])), Emit(reply, true, live));
            && Newest(x) in Active(Tree(x), x.cursor) && Newest(x) in Branch(x.session)
            && line.uuid in ReloadedBranch(x) && line.uuid !in Branch(x.session) && !LiveEqualsReload(x)
  {
    var y := Next(w, Emit(line, false, []));
    var x := Next(y, Emit(reply, true, live));
    EmitKeepsSound(w, line, false, []);
    EmitLinks(w, line, false, []);
    EmitLinks(y, reply, true, live);
    EmitWalks(w, line, false, [], line.uuid);
    EmitWalks(y, reply, true, live, line.uuid);
    EmitWalks(y, reply, true, live, reply.uuid);
    ActiveIffReaches(Tree(x), reply.uuid, line.uuid);
    ActiveIffReaches(Tree(x), reply.uuid, reply.uuid);
    ActiveIffReaches(x.session.parents, reply.uuid, line.uuid);
    ActiveIffReaches(x.session.parents, reply.uuid, reply.uuid);
  }

  // ---- resuming ----

  /** The newest message is on claude's branch, or there is none. */
  ghost predicate OnBranch(w: World) {
    Newest(w) == "" || Reaches(Tree(w), w.cursor, Newest(w))
  }

  /** A branch with the newest message on it has, of messages, just that one's ancestors. */
  lemma NewestSeesTheBranch(w: World, b: Uuid)
    requires Ordered(w.lines) && b in Bearing(w.lines) && OnBranch(w)
    ensures Reaches(Tree(w), w.cursor, b) <==> Reaches(Tree(w), Newest(w), b)
  {
    var tree, last := Tree(w), Newest(w);
    NewestIsMessage(w);
    SeesItself(w, last);
    if Reaches(tree, last, b) {
      ReachesTransitive(tree, w.cursor, last, b);
    }
    if Reaches(tree, w.cursor, b) && !Reaches(tree, last, b) {
      BranchIsLinear(tree, w.cursor, last, b);
      var n: nat :| Up(tree, b, n) == last;
      var i := LastBearingLine(w.lines);
      var l :| l in w.lines && BearsMessages(l) && l.uuid == b;
      var j :| 0 <= j < |w.lines| && w.lines[j] == l;
      if n > 0 {
        AncestorIsEarlier(w.lines, i, j, n);
      }
    }
  }

  /** A process started again is in step with the session exactly if live view and reload are equal. If the old
      one was in step, that is so exactly if its branch held the newest message. */
  lemma RespawnInStepIff(w: World, leaf: Uuid)
    requires Sound(w) && Resumes(w, leaf)
    ensures InStep(w.(cursor := leaf)) <==> LiveEqualsReload(w)
    ensures InStep(w) ==> (LiveEqualsReload(w) <==> OnBranch(w))
  {
    ReloadShowsTheNewest(w);
    NewestIsMessage(w);
    if Newest(w) != "" {
      SeesItself(w, Newest(w));
    }
    if OnBranch(w) {
      forall b | b in Bearing(w.lines)
        ensures Reaches(Tree(w), Newest(w), b) <==> Reaches(Tree(w), w.cursor, b)
      {
        NewestSeesTheBranch(w, b);
      }
    }
  }

  lemma ResumedIsSound(w: World, leaf: Uuid)
    requires Sound(w) && Resumes(w, leaf)
    ensures Sound(w.(cursor := leaf))
  {
  }

  /** A run that fails: the process dies between an edit and the message that was to replace the target, and the
      next send starts it again. Claude resumes on the branch that the edit left, the session stays on the other,
      and from the first message on the reload shows what the live view does not. */
  lemma RespawnAfterEditSplits(w: World, leaf: Uuid, line: Line, live: seq<Msg>)
    requires Good(w) && !OnBranch(w) && Enabled(w, Respawn(leaf))
    requires line.msgs != [] && Enabled(Next(w, Respawn(leaf)), Emit(line, true, live))
    ensures var x := Next(Next(w, Respawn(leaf)), Emit(line, true, live));
            Newest(x) in Active(Tree(x), x.cursor) && !LiveEqualsReload(x)
  {
    var y := Next(w, Respawn(leaf));
    var x := Next(y, Emit(line, true, live));
    ResumedIsSound(w, leaf);
    RespawnInStepIff(w, leaf);
    MessageAgreesIff(y, line, live);
    EmitLinks(y, line, true, live);
    EmitWalks(y, line, true, live, line.uuid);
    ActiveIffReaches(Tree(x), x.cursor, line.uuid);
  }

  // ---- edits ----

  /** While session and claude are in step, so is every message on their branch. */
  lemma BranchAgrees(w: World, v: Uuid)
    requires Good(w) && v in Bearing(w.lines) && Reaches(Tree(w), w.cursor, v)
    ensures Agree(w, v, v)
  {
    var tree, chain := Tree(w), w.session.parents;
    forall b | b in Bearing(w.lines)
      ensures Reaches(chain, v, b) <==> Reaches(tree, v, b)
    {
      var i := BearingLine(w, v);
      var j := BearingLine(w, b);
      assert Up(tree, v, 0) == v && Up(chain, v, 0) == v;
      if Reaches(chain, v, b) {
        ReachesTransitive(chain, w.session.tip, v, b);
        BranchIsLinear(tree, w.cursor, v, b);
        assert j <= i;
        if Reaches(tree, b, v) {
          var n: nat :| Up(tree, b, n) == v;
          if n > 0 {
            AncestorIsEarlier(w.lines, i, j, n);
          }
        }
      }
      if Reaches(tree, v, b) {
        ReachesTransitive(tree, w.cursor, v, b);
        BranchIsLinear(chain, w.session.tip, v, b);
        var n: nat :| Up(tree, v, n) == b;
        if n > 0 {
          AncestorIsEarlier(w.lines, j, i, n);
        }
      }
    }
  }

  /** The steps that claude and the scanner can take while the handler cancels queued messages. */
  predicate IsMeanwhile(step: Step) {
    step.Emit? || step.SideChain? || step.Note?
  }

  predicate Speaks(steps: seq<Step>) {
    exists step :: step in steps && step.Emit? && step.line.msgs != []
  }

  lemma SpeaksSnoc(steps: seq<Step>)
    requires steps != []
    ensures Speaks(steps) <==> Speaks(Init(steps)) || (Last(steps).Emit? && Last(steps).line.msgs != [])
  {
    assert steps == Init(steps) + [Last(steps)];
  }

  /** b is a message, with its place in a trace: whether claude is at it, and whether it is astray. */
  ghost predicate Placed(w: World, t: Trace, b: Uuid, here: bool, astray: bool) {
    b in Bearing(w.lines) && (t.at == b <==> here) && (b in t.astray <==> astray)
  }

  lemma EmitStays(w: World, t: Trace, b: Uuid, line: Line, announced: bool, live: seq<Msg>, here: bool, astray: bool)
    requires Sound(w) && Enabled(w, Emit(line, announced, live)) && Placed(w, t, b, here, astray)
    ensures var step := Emit(line, announced, live);
            Placed(Next(w, step), Follow(w, t, step), b, here && line.msgs == [], astray)
  {
    EmitIsNew(w, line, announced, live);
    EmitLinks(w, line, announced, live);
    assert b != line.uuid;
  }

  lemma StepStays(w: World, t: Trace, b: Uuid, step: Step, here: bool, astray: bool)
    requires Sound(w) && Enabled(w, step) && IsMeanwhile(step) && Placed(w, t, b, here, astray)
    ensures Placed(Next(w, step), Follow(w, t, step), b, here && !(step.Emit? && step.line.msgs != []), astray)
  {
    match step {
      case Emit(line, announced, live) => EmitStays(w, t, b, line, announced, live, here, astray);
      case SideChain(line) => OneMoreLine(w, line);
      case Note(_) =>
    }
  }

  /** Meanwhile claude stays at a message exactly until it writes another. */
  lemma {:induction false} MeanwhileStays(w: World, t: Trace, b: Uuid, steps: seq<Step>, here: bool, astray: bool)
    requires Tracked(w, t) && Placed(w, t, b, here, astray) && ValidRun(w, steps)
    requires forall step :: step in steps ==> IsMeanwhile(step)
    ensures Placed(Run(w, steps), TraceOf(w, t, steps), b, here && !Speaks(steps), astray)
  {
    if steps != [] {
      assert Last(steps) in steps && forall step :: step in Init(steps) ==> step in steps;
      MeanwhileStays(w, t, b, Init(steps), here, astray);
      RunIsTracked(w, t, Init(steps));
      SpeaksSnoc(steps);
      StepStays(Run(w, Init(steps)), TraceOf(w, t, Init(steps)), b, Last(steps), here && !Speaks(Init(steps)), astray);
    }
  }

  lemma NearestIsMessageAbove(w: World, u: Uuid, b: Uuid)
    requires Ordered(w.lines) && b in Bearing(w.lines)
    ensures IsNearest(w, u, b) <==> MessageAbove(w, u) == b
  {
    MessageAboveIsSame(w, u);
    NearestIffSame(w, u, b);
    if SameBearing(w, u, b) {
      MessageIsUnique(w, MessageAbove(w, u), b);
    }
  }

  lemma BranchPointAgrees(w: World, t: Trace, target: Uuid, branchPoint: Uuid)
    requires Tracked(w, t) && InStep(w) && Enabled(w, Rewound(target, branchPoint))
    ensures branchPoint !in t.astray
  {
    SeesItself(w, branchPoint);
    ReachesUnfold(Tree(w), target, branchPoint);
    ReachesTransitive(Tree(w), w.cursor, target, branchPoint);
    BranchAgrees(w, branchPoint);
  }

  /** Once an edit has settled, session and claude are in step exactly if the branch point is the nearest message
      above the target, session and transcript see the same messages from it, as they do if they were in step
      before the edit, and claude has written no message since the rewind. */
  lemma SettledInStepIff(w: World, t: Trace, target: Uuid, branchPoint: Uuid, meanwhile: seq<Step>)
    requires Tracked(w, t) && Enabled(w, Rewound(target, branchPoint))
    requires ValidRun(Next(w, Rewound(target, branchPoint)), meanwhile)
    requires forall step :: step in meanwhile ==> IsMeanwhile(step)
    requires Enabled(Run(Next(w, Rewound(target, branchPoint)), meanwhile), Settled(branchPoint))
    ensures InStep(Next(Run(Next(w, Rewound(target, branchPoint)), meanwhile), Settled(branchPoint))) <==>
            branchPoint !in t.astray && IsNearest(w, ParentOf(Tree(w), target), branchPoint) && !Speaks(meanwhile)
    ensures InStep(w) ==> branchPoint !in t.astray
  {
    var step := Rewound(target, branchPoint);
    var x, u := Next(w, step), Follow(w, t, step);
    StepIsTracked(w, t, step);
    NearestIsMessageAbove(w, ParentOf(Tree(w), target), branchPoint);
    MeanwhileStays(x, u, branchPoint, meanwhile, u.at == branchPoint, branchPoint in t.astray);
    RunIsTracked(x, u, meanwhile);
    var y, v := Run(x, meanwhile), TraceOf(x, u, meanwhile);
    StepIsTracked(y, v, Settled(branchPoint));
    InStepIffShown(Next(y, Settled(branchPoint)), Follow(y, v, Settled(branchPoint)));
    if InStep(w) {
      BranchPointAgrees(w, t, target, branchPoint);
    }
  }

  /** A run that fails: a queued message starts between the last rewind and the tip's move, which then drops it. */
  lemma LateMessageIsDropped(w: World, target: Uuid, branchPoint: Uuid, line: Line, live: seq<Msg>)
    requires Sound(w) && Enabled(w, Rewound(target, branchPoint)) && line.msgs != []
    requires Enabled(Next(w, Rewound(target, branchPoint)), Emit(line, true, live))
    ensures var x := Next(Next(Next(w, Rewound(target, branchPoint)), Emit(line, true, live)), Settled(branchPoint));
            && Newest(x) == line.uuid && Newest(x) in Active(Tree(x), x.cursor)
            && Newest(x) !in Branch(x.session) && !LiveEqualsReload(x)
  {
    var y := Next(w, Rewound(target, branchPoint));
    var z := Next(y, Emit(line, true, live));
    var x := Next(z, Settled(branchPoint));
    assert Sound(y);
    EmitIsNew(y, line, true, live);
    EmitLinks(y, line, true, live);
    OldWalksStay(y, line, y.session.tip, branchPoint, line.uuid);
    EmitWalks(y, line, true, live, line.uuid);
    ActiveIffReaches(Tree(x), x.cursor, line.uuid);
    ActiveIffReaches(Tree(x), line.uuid, line.uuid);
    ActiveIffReaches(x.session.parents, branchPoint, line.uuid);
  }
}
