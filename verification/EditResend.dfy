/** Editing a past user message: the rewind requests handleEditResend sends, why claude accepts
    each of them, and what is left of the active branch. */
module EditResend {
  import opened LineChain
  import opened Messages
  import opened Prelude
  import opened Transcript
  import opened Conversation
  import opened LiveReload
  import Session
  import M = SessionModel

  /** The members of a list that are on the active branch, in order. */
  function Kept(uuids: seq<Uuid>, active: set<Uuid>): seq<Uuid> {
    if uuids == [] then []
    else Kept(Init(uuids), active) + if Last(uuids) in active then [Last(uuids)] else []
  }

  function Reversed(uuids: seq<Uuid>): seq<Uuid> {
    if uuids == [] then [] else [Last(uuids)] + Reversed(Init(uuids))
  }

  predicate IsTarget(m: Msg, uuid: Uuid) {
    m.kind == UserMessage && m.agentID == "" && m.uuid == uuid
  }

  /** claude needs an assistant-side message before a rewind target as the branch point. */
  predicate IsBranchPoint(m: Msg, active: set<Uuid>) {
    m.agentID == "" && m.uuid in active && m.kind in {Text, Thinking, ToolUse, ToolResult}
  }

  ghost predicate IsFirst(log: seq<Msg>, uuid: Uuid, idx: nat) {
    idx < |log| && IsTarget(log[idx], uuid) && forall i :: 0 <= i < idx ==> !IsTarget(log[i], uuid)
  }

  ghost predicate IsEditable(log: seq<Msg>, uuid: Uuid, active: set<Uuid>) {
    uuid in active && exists i :: 0 <= i < |log| && IsTarget(log[i], uuid)
  }

  ghost predicate HasBranchPoint(log: seq<Msg>, idx: nat, active: set<Uuid>)
    requires idx <= |log|
  {
    exists i :: 0 <= i < idx && IsBranchPoint(log[i], active)
  }

  /** Locates a user message on the active branch and the user messages after it. */
  method FindUserMessage(log: seq<Msg>, uuid: Uuid, active: set<Uuid>)
    returns (found: bool, idx: nat, later: seq<Uuid>, rewindable: bool)
    requires "" !in active
    ensures found <==> IsEditable(log, uuid, active)
    ensures found <==> uuid in active && exists i :: 0 <= i < |log| && log[i].kind == UserMessage
                                                     && log[i].agentID == "" && log[i].uuid == uuid
    ensures found ==> idx < |log| && (rewindable <==>
              exists i :: 0 <= i < idx && log[i].agentID == "" && log[i].uuid in active
                          && log[i].kind in {Text, Thinking, ToolUse, ToolResult})
    ensures found ==>
              && IsFirst(log, uuid, idx)
              && later == Kept(Users(log[idx + 1..]), active)
              && (rewindable <==> HasBranchPoint(log, idx, active))
  {
    idx, later, rewindable := 0, [], false;
    if uuid !in active {
      return false, 0, [], false;
    }
    while idx < |log| && !IsTarget(log[idx], uuid)
      invariant idx <= |log|
      invariant forall i :: 0 <= i < idx ==> !IsTarget(log[i], uuid)
    {
      idx := idx + 1;
    }
    if idx == |log| {
      return false, 0, [], false;
    }
    found := true;
    for i := 0 to idx
      invariant rewindable <==> exists k :: 0 <= k < i && IsBranchPoint(log[k], active)
    {
      if IsBranchPoint(log[i], active) {
        rewindable := true;
      }
    }
    ghost var after := log[idx + 1..];
    for i := idx + 1 to |log|
      invariant later == Kept(Users(after[..i - idx - 1]), active)
    {
      var m := log[i];
      assert Init(after[..i - idx]) == after[..i - idx - 1] && Last(after[..i - idx]) == m;
      KeptConcat(Users(after[..i - idx - 1]), if IsUser(m) then [m.uuid] else [], active);
      if m.kind == UserMessage && m.agentID == "" && m.uuid in active {
        later := later + [m.uuid];
      }
    }
    assert after[..|after|] == after;
  }

  lemma {:induction false} KeptConcat(a: seq<Uuid>, b: seq<Uuid>, active: set<Uuid>)
    ensures Kept(a + b, active) == Kept(a, active) + Kept(b, active)
    decreases |b|
  {
    if b == [] {
      assert a + b == a;
    } else {
      assert Init(a + b) == a + Init(b) && Last(a + b) == Last(b);
      KeptConcat(a, Init(b), active);
      Regroup(Kept(a, active), Kept(Init(b), active), if Last(b) in active then [Last(b)] else []);
    }
  }

  /** The active user messages of a log are the uuids of its main-branch user messages that are active, in the
      log's order. */
  lemma {:induction false} ActiveUsersOf(log: seq<Msg>, active: set<Uuid>) returns (at: seq<int>)
    requires "" !in active
    ensures |at| == |Kept(Users(log), active)|
    ensures forall k :: 0 <= k < |at| ==> 0 <= at[k] < |log| && Kept(Users(log), active)[k] == log[at[k]].uuid
    ensures forall j, k :: 0 <= j < k < |at| ==> at[j] < at[k]
    ensures forall i :: 0 <= i < |log| ==>
              (i in at <==> log[i].kind == UserMessage && log[i].agentID == "" && log[i].uuid in active)
  {
    at := [];
    if log != [] {
      var n := |log| - 1;
      var front, m := Init(log), Last(log);
      var one := if IsUser(m) then [m.uuid] else [];
      at := ActiveUsersOf(front, active);
      KeptConcat(Users(front), one, active);
      assert n !in at;
      if IsUser(m) {
        assert Init([m.uuid]) == [];
      }
      if IsUser(m) && m.uuid in active {
        at := at + [n];
      }
    }
  }

  // ---- the handler ----

  /** claude's answer to one rewind request. */
  datatype Reply = Accepted(branchPoint: Uuid) | Refused

  datatype Outcome = NotFound | EmptyText | ProcessDead | Busy | FirstMessage | Abandoned | Resent

  /** The requests a deep edit sends: later user messages newest first, the target last. */
  function Plan(later: seq<Uuid>, target: Uuid): seq<Uuid> {
    Reversed(later) + [target]
  }

  /** The requests sent are the whole plan, each accepted, or the part of it up to the first refusal. */
  ghost predicate Served(plan: seq<Uuid>, done: bool, rewinds: seq<Uuid>, replies: nat -> Reply) {
    && 0 < |rewinds| <= |plan| && rewinds == plan[..|rewinds|]
    && (forall k: nat :: k < |rewinds| - 1 ==> replies(k).Accepted?)
    && if done then rewinds == plan && replies(|rewinds| - 1).Accepted? else replies(|rewinds| - 1).Refused?
  }

  lemma ReversedTake(uuids: seq<Uuid>, n: nat)
    requires n < |uuids|
    ensures Reversed(uuids[..n + 1]) == [uuids[n]] + Reversed(uuids[..n])
  {
    assert Init(uuids[..n + 1]) == uuids[..n];
  }

  /** Sends the plan until it is through or claude refuses a request. */
  method SendRewinds(later: seq<Uuid>, uuid: Uuid, replies: nat -> Reply) returns (done: bool, rewinds: seq<Uuid>)
    ensures Served(Plan(later, uuid), done, rewinds, replies)
  {
    rewinds := [];
    ghost var plan := Plan(later, uuid);
    var left := |later|;
    assert later[..left] == later;
    while left > 0
      invariant 0 <= left <= |later| && |rewinds| == |later| - left
      invariant plan == rewinds + (Reversed(later[..left]) + [uuid])
      invariant forall k: nat :: k < |rewinds| ==> replies(k).Accepted?
    {
      left := left - 1;
      ReversedTake(later, left);
      Regroup([later[left]], Reversed(later[..left]), [uuid]);
      Regroup(rewinds, [later[left]], Reversed(later[..left]) + [uuid]);
      var request := |rewinds|;
      rewinds := rewinds + [later[left]];
      if replies(request).Refused? {
        return false, rewinds;
      }
    }
    var last := |rewinds|;
    rewinds := rewinds + [uuid];
    assert plan == rewinds;
    done := replies(last).Accepted?;
  }

  /** Why an edit ends as it does, given the active set and the state of process and turn. */
  ghost predicate Explains(outcome: Outcome, log: seq<Msg>, uuid: Uuid, active: set<Uuid>, blank: bool, dead: bool,
                           busy: bool, replies: nat -> Reply, rewinds: seq<Uuid>) {
    match outcome
    case NotFound => !IsEditable(log, uuid, active)
    case EmptyText => IsEditable(log, uuid, active) && blank
    case ProcessDead => IsEditable(log, uuid, active) && !blank && dead
    case Busy => IsEditable(log, uuid, active) && !blank && !dead && busy
    case FirstMessage =>
      && IsEditable(log, uuid, active) && !blank && !dead && !busy
      && exists idx: nat :: IsFirst(log, uuid, idx) && !HasBranchPoint(log, idx, active)
    case _ =>
      && !blank && !dead && !busy
      && exists idx: nat :: IsFirst(log, uuid, idx) && HasBranchPoint(log, idx, active) &&
           Served(Plan(Kept(Users(log[idx + 1..]), active), uuid), outcome == Resent, rewinds, replies)
  }

  /** The guards in the handler's order, and the rewinds if all of them pass. */
  method Rewind(log: seq<Msg>, uuid: Uuid, active: set<Uuid>, blank: bool, dead: bool, busy: bool, replies: nat -> Reply)
    returns (outcome: Outcome, rewinds: seq<Uuid>)
    requires "" !in active
    ensures Explains(outcome, log, uuid, active, blank, dead, busy, replies, rewinds)
    ensures outcome != Abandoned && outcome != Resent ==> rewinds == []
    ensures outcome == Resent ==> rewinds != []
  {
    var found, idx, later, rewindable := FindUserMessage(log, uuid, active);
    if !found {
      return NotFound, [];
    }
    if blank {
      return EmptyText, [];
    }
    if dead {
      return ProcessDead, [];
    }
    if busy {
      return Busy, [];
    }
    if !rewindable {
      return FirstMessage, [];
    }
    var done;
    done, rewinds := SendRewinds(later, uuid, replies);
    outcome := if done then Resent else Abandoned;
  }

  /** handleEditResend up to its last rewind. replies holds claude's answers in request order. */
  method BeginEdit(s: Session.Session, log: seq<Msg>, uuid: Uuid, blank: bool, dead: bool, model: M.SessionModel?,
                   replies: nat -> Reply)
    returns (outcome: Outcome, rewinds: seq<Uuid>, branchPoint: Uuid)
    ensures Explains(outcome, log, uuid, Branch(s.Chain()), blank, dead, model != null && model.CanInterrupt(),
                     replies, rewinds)
    ensures outcome != Abandoned && outcome != Resent ==> rewinds == []
    ensures outcome == Resent ==> rewinds != [] && branchPoint == replies(|rewinds| - 1).branchPoint
  {
    branchPoint := "";
    var active := Session.ActiveSet(s.LineParents, s.Tip);
    outcome, rewinds := Rewind(log, uuid, active, blank, dead, model != null && model.CanInterrupt(), replies);
    if outcome == Resent {
      branchPoint := replies(|rewinds| - 1).branchPoint;
    }
  }

  /** The rest, on the session as it is after the queued messages have been cancelled: the tip moves to the branch
      point, and a new model is built over the log. */
  method FinishEdit(s: Session.Session, log: seq<Msg>, branchPoint: Uuid, ghost w: World)
    returns (rebuilt: M.SessionModel)
    requires s.Chain() == w.session && Enabled(w, Settled(branchPoint))
    modifies s`Tip
    ensures s.Chain() == Next(w, Settled(branchPoint)).session && s.Tip == branchPoint && fresh(rebuilt)
    ensures rebuilt.Chain() == s.Chain() && rebuilt.Derived() == M.Fold(M.EMPTY_VIEW.(processAlive := true), log)
  {
    s.SetTip(branchPoint);
    rebuilt := new M.SessionModel.BuildModel(Cursor(s.Tip, s.LineParents), true, log);
  }

  // ---- whether claude accepts every request ----

  /** claude's rule: a rewind target is the latest user line on the branch below cursor. */
  ghost predicate LatestUser(w: World, cursor: Uuid, target: Uuid) {
    && target in UserLines(w) && Reaches(Tree(w), cursor, target)
    && forall v :: v in UserLines(w) && Reaches(Tree(w), cursor, v) ==> Reaches(Tree(w), target, v)
  }

  /** The session's active user messages, oldest first. */
  ghost function ActiveUsers(w: World): seq<Uuid> {
    Kept(Users(w.log), Branch(w.session))
  }

  /** From `below` up to `above` there is a user line that is not one of them. */
  ghost predicate Hides(w: World, below: Uuid, above: Uuid) {
    exists v :: v in UserLines(w) && v !in ActiveUsers(w) && Reaches(Tree(w), below, v) && Reaches(Tree(w), v, above)
  }

  /** claude's cursor after accepting the first k requests of a plan. */
  ghost function CursorAfter(w: World, plan: seq<Uuid>, k: nat): Uuid
    requires k <= |plan|
  {
    if k == 0 then w.cursor else ParentOf(Tree(w), plan[k - 1])
  }

  ghost predicate Before(lines: seq<Line>, u: Uuid, v: Uuid) {
    exists p, q :: 0 <= p < q < |lines| && lines[p].uuid == u && lines[q].uuid == v
  }

  ghost predicate InOrder(lines: seq<Line>, uuids: seq<Uuid>) {
    forall i, j :: 0 <= i < j < |uuids| ==> Before(lines, uuids[i], uuids[j])
  }

  lemma {:induction false} UsersCarryStamp(msgs: seq<Msg>, uuid: Uuid, k: nat)
    requires k <= |msgs|
    ensures forall u :: u in Users(Stamped(msgs, uuid)[..k]) ==> u == uuid
  {
    if k > 0 {
      assert Init(Stamped(msgs, uuid)[..k]) == Stamped(msgs, uuid)[..k - 1];
      UsersCarryStamp(msgs, uuid, k - 1);
    }
  }

  lemma InOrderSnoc(front: seq<Line>, l: Line, users: seq<Uuid>, more: seq<Uuid>)
    requires InOrder(front, users) && forall u :: u in users ==> u in Bearing(front)
    requires |more| <= 1 && forall u :: u in more ==> u == l.uuid
    ensures InOrder(front + [l], users + more)
  {
    var lines, all := front + [l], users + more;
    forall i, j | 0 <= i < j < |all|
      ensures Before(lines, all[i], all[j])
    {
      if j < |users| {
        assert Before(front, users[i], users[j]);
        var p, q :| 0 <= p < q < |front| && front[p].uuid == users[i] && front[q].uuid == users[j];
        assert lines[p].uuid == all[i] && lines[q].uuid == all[j];
      } else {
        assert users[i] in Bearing(front);
        var m :| m in front && m.uuid == users[i];
        var p :| 0 <= p < |front| && front[p] == m;
        assert all[j] == more[0] && more[0] in more;
        assert lines[p].uuid == all[i] && lines[|lines| - 1].uuid == all[j];
      }
    }
  }

  /** The user messages of the log are user lines of the transcript, in its order. */
  ghost predicate Listed(w: World) {
    InOrder(w.lines, Users(w.log)) && forall u :: u in Users(w.log) ==> u in UserLines(w)
  }

  /** A transcript line yields at most one user message. */
  ghost predicate OneUserEach(lines: seq<Line>) {
    forall l :: l in lines ==> |Users(Stamped(l.msgs, l.uuid))| <= 1
  }

  lemma {:induction false} UserLinesBearMessages(lines: seq<Line>)
    ensures forall u :: u in Users(LogOf(lines)) ==> u in Bearing(lines)
  {
    if lines != [] {
      var l, front := Last(lines), Init(lines);
      assert lines == front + [l];
      UserLinesBearMessages(front);
      var stamped := Stamped(l.msgs, l.uuid);
      UsersCarryStamp(l.msgs, l.uuid, |l.msgs|);
      assert stamped[..|l.msgs|] == stamped;
      UsersConcat(LogOf(front), stamped);
    }
  }

  /** User lines are in transcript order. */
  lemma {:induction false} UsersFollowTheTranscript(lines: seq<Line>)
    requires OneUserEach(lines)
    ensures InOrder(lines, Users(LogOf(lines)))
  {
    if lines != [] {
      var l, front := Last(lines), Init(lines);
      assert lines == front + [l];
      UsersFollowTheTranscript(front);
      UserLinesBearMessages(front);
      var stamped := Stamped(l.msgs, l.uuid);
      UsersCarryStamp(l.msgs, l.uuid, |l.msgs|);
      assert stamped[..|l.msgs|] == stamped;
      UsersConcat(LogOf(front), stamped);
      InOrderSnoc(front, l, Users(LogOf(front)), if l.sidechain then [] else Users(stamped));
    }
  }

  /** What the parser and the session make of one line: at most one user message each, and live only if the
      line is a user line. A prompt of claude's own is a user line without a live user message. */
  ghost predicate UsersOfStep(step: Step) {
    match step
    case Emit(line, _, live) =>
      |Users(live)| <= |Users(Stamped(line.msgs, line.uuid))| <= 1 && forall u :: u in Users(live) ==> u == line.uuid
    case SideChain(line) => |Users(Stamped(line.msgs, line.uuid))| <= 1
    case _ => true
  }

  lemma LiveUserIsStamped(line: Line, live: seq<Msg>)
    requires |Users(live)| <= |Users(Stamped(line.msgs, line.uuid))| && forall u :: u in Users(live) ==> u == line.uuid
    ensures forall u :: u in Users(live) ==> u in Users(Stamped(line.msgs, line.uuid))
  {
    var stamped := Stamped(line.msgs, line.uuid);
    UsersCarryStamp(line.msgs, line.uuid, |line.msgs|);
    assert stamped[..|line.msgs|] == stamped;
    if Users(live) != [] {
      assert Users(stamped)[0] in Users(stamped);
    }
  }

  lemma EmitKeepsListed(w: World, line: Line, announced: bool, live: seq<Msg>)
    requires Sound(w) && Listed(w) && Enabled(w, Emit(line, announced, live)) && UsersOfStep(Emit(line, announced, live))
    ensures Listed(Next(w, Emit(line, announced, live)))
  {
    var stamped := Stamped(line.msgs, line.uuid);
    OneMoreLine(w, line);
    UsersConcat(w.log, live);
    UsersConcat(LogOf(w.lines), stamped);
    UserLinesBearMessages(w.lines);
    InOrderSnoc(w.lines, line, Users(w.log), Users(live));
    LiveUserIsStamped(line, live);
  }

  lemma SideChainKeepsListed(w: World, line: Line)
    requires Sound(w) && Listed(w) && Enabled(w, SideChain(line))
    ensures Listed(Next(w, SideChain(line)))
  {
    OneMoreLine(w, line);
    UserLinesBearMessages(w.lines);
    InOrderSnoc(w.lines, line, Users(w.log), []);
    assert Users(w.log) + [] == Users(w.log);
    assert LogOf(w.lines) + [] == LogOf(w.lines);
  }

  lemma StepKeepsListed(w: World, step: Step)
    requires Sound(w) && Listed(w) && OneUserEach(w.lines) && Enabled(w, step) && UsersOfStep(step)
    ensures Listed(Next(w, step)) && OneUserEach(Next(w, step).lines)
  {
    match step {
      case Emit(line, announced, live) => EmitKeepsListed(w, line, announced, live);
      case SideChain(line) => SideChainKeepsListed(w, line);
      case Note(msg) => UsersConcat(w.log, [msg]);
      case Restart(_) => UsersFollowTheTranscript(w.lines);
      case _ =>
    }
  }

  /** Over every run the log lists user lines in transcript order, whatever it lacks. */
  lemma {:induction false} RunKeepsListed(w: World, t: Trace, steps: seq<Step>)
    requires Tracked(w, t) && Listed(w) && OneUserEach(w.lines) && ValidRun(w, steps)
    requires forall step :: step in steps ==> UsersOfStep(step)
    ensures Listed(Run(w, steps)) && OneUserEach(Run(w, steps).lines)
  {
    if steps != [] {
      RunKeepsListed(w, t, Init(steps));
      RunIsTracked(w, t, Init(steps));
      assert Last(steps) in steps;
      StepKeepsListed(Run(w, Init(steps)), Last(steps));
    }
  }

  lemma {:induction false} KeptInOrder(lines: seq<Line>, uuids: seq<Uuid>, active: set<Uuid>)
    requires InOrder(lines, uuids)
    ensures InOrder(lines, Kept(uuids, active))
    ensures forall u :: u in Kept(uuids, active) <==> u in uuids && u in active
  {
    if uuids != [] {
      KeptInOrder(lines, Init(uuids), active);
      var kept := Kept(uuids, active);
      forall i, j | 0 <= i < j < |kept|
        ensures Before(lines, kept[i], kept[j])
      {
        if j == |Kept(Init(uuids), active)| {
          assert kept[i] in Init(uuids);
          var k :| 0 <= k < |uuids| - 1 && uuids[k] == kept[i];
        }
      }
    }
  }

  /** A line does not descend from a later one. */
  lemma BeforeIsNotBelow(lines: seq<Line>, u: Uuid, v: Uuid)
    requires Ordered(lines) && Before(lines, u, v)
    ensures u != v && !Reaches(ParentsOf(lines), u, v)
  {
    var p, q :| 0 <= p < q < |lines| && lines[p].uuid == u && lines[q].uuid == v;
    if Reaches(ParentsOf(lines), u, v) {
      var n: nat :| Up(ParentsOf(lines), u, n) == v;
      if n > 0 {
        AncestorIsEarlier(lines, q, p, n);
      }
    }
  }

  lemma {:induction false} ReversedAt(uuids: seq<Uuid>, k: nat)
    requires k < |uuids|
    ensures |Reversed(uuids)| == |uuids| && Reversed(uuids)[k] == uuids[|uuids| - 1 - k]
  {
    if |uuids| > 1 {
      ReversedAt(Init(uuids), if k > 0 then k - 1 else 0);
    }
  }

  lemma SplitAtTarget(log: seq<Msg>, idx: nat, active: set<Uuid>)
    requires idx < |log| && IsUser(log[idx]) && log[idx].uuid in active
    ensures Kept(Users(log), active)
         == Kept(Users(log[..idx]), active) + ([log[idx].uuid] + Kept(Users(log[idx + 1..]), active))
  {
    var front, m, back := log[..idx], log[idx], log[idx + 1..];
    assert log == front + ([m] + back);
    UsersConcat(front, [m] + back);
    UsersConcat([m], back);
    assert Users([m]) == [m.uuid];
    KeptConcat(Users(front), [m.uuid] + Users(back), active);
    KeptConcat([m.uuid], Users(back), active);
    assert Kept([m.uuid], active) == [m.uuid];
  }

  /** The requests an edit of the message at idx sends when none is refused. */
  ghost function PlanFor(w: World, idx: nat): seq<Uuid>
    requires idx < |w.log|
  {
    Plan(Kept(Users(w.log[idx + 1..]), Branch(w.session)), w.log[idx].uuid)
  }

  lemma PlanReversesTheTail(w: World, idx: nat, k: nat)
    requires idx < |w.log| && IsUser(w.log[idx]) && w.log[idx].uuid in Branch(w.session)
    ensures var plan := PlanFor(w, idx);
            && |plan| <= |ActiveUsers(w)|
            && (k < |plan| ==> plan[k] == ActiveUsers(w)[|ActiveUsers(w)| - 1 - k])
  {
    SplitAtTarget(w.log, idx, Branch(w.session));
    var later := Kept(Users(w.log[idx + 1..]), Branch(w.session));
    if later != [] {
      ReversedAt(later, if k < |later| then k else 0);
    }
  }

  /** The plan can be made: the message at idx is an active user message, and the log follows the transcript. */
  ghost predicate CanPlan(w: World, idx: nat) {
    && Ordered(w.lines) && Listed(w)
    && idx < |w.log| && IsUser(w.log[idx]) && w.log[idx].uuid in Branch(w.session)
  }

  /** The k-th request is an active user message. */
  lemma RequestIsActive(w: World, idx: nat, k: nat)
    requires CanPlan(w, idx) && k < |PlanFor(w, idx)|
    ensures PlanFor(w, idx)[k] in ActiveUsers(w) && PlanFor(w, idx)[k] in UserLines(w) && PlanFor(w, idx)[k] != ""
  {
    PlanReversesTheTail(w, idx, k);
    KeptInOrder(w.lines, Users(w.log), Branch(w.session));
    ActiveIffReaches(w.session.parents, w.session.tip, PlanFor(w, idx)[k]);
  }

  lemma BelowComesLater(lines: seq<Line>, users: seq<Uuid>, m: nat, v: Uuid)
    requires Ordered(lines) && InOrder(lines, users) && m < |users|
    requires v in users && Reaches(ParentsOf(lines), v, users[m]) && v != users[m]
    ensures m + 1 < |users| && (v == users[m + 1] || Before(lines, users[m + 1], v))
  {
    var i :| 0 <= i < |users| && users[i] == v;
    if i < m {
      BeforeIsNotBelow(lines, v, users[m]);
    }
  }

  /** The k-th request is the k-th active user message from the end, and these are in transcript order. */
  lemma RequestAt(w: World, idx: nat, k: nat) returns (m: nat)
    requires CanPlan(w, idx) && k < |PlanFor(w, idx)|
    ensures m + k + 1 == |ActiveUsers(w)| && PlanFor(w, idx)[k] == ActiveUsers(w)[m]
    ensures InOrder(w.lines, ActiveUsers(w))
  {
    PlanReversesTheTail(w, idx, k);
    KeptInOrder(w.lines, Users(w.log), Branch(w.session));
    m := |ActiveUsers(w)| - 1 - k;
  }

  /** An active user message below the k-th request has been requested before. */
  lemma BelowIsRequested(w: World, idx: nat, k: nat, v: Uuid)
    requires CanPlan(w, idx) && k < |PlanFor(w, idx)|
    requires v in ActiveUsers(w) && Reaches(Tree(w), v, PlanFor(w, idx)[k]) && v != PlanFor(w, idx)[k]
    ensures k > 0 && (v == PlanFor(w, idx)[k - 1] || Before(w.lines, PlanFor(w, idx)[k - 1], v))
  {
    var m := RequestAt(w, idx, k);
    BelowComesLater(w.lines, ActiveUsers(w), m, v);
    var j := RequestAt(w, idx, k - 1);
  }

  lemma RequestsDescend(w: World, idx: nat, k: nat)
    requires CanPlan(w, idx) && 0 < k < |PlanFor(w, idx)|
    ensures Before(w.lines, PlanFor(w, idx)[k], PlanFor(w, idx)[k - 1])
  {
    var m := RequestAt(w, idx, k);
    var j := RequestAt(w, idx, k - 1);
  }

  lemma ParentIsAbove(w: World, u: Uuid, v: Uuid)
    requires Ordered(w.lines) && Reaches(Tree(w), ParentOf(Tree(w), u), v) && u != ""
    ensures u != v && Reaches(Tree(w), u, v)
  {
    ReachesUnfold(Tree(w), u, v);
    TranscriptIsAcyclic(w.lines);
    var n: nat :| Up(Tree(w), ParentOf(Tree(w), u), n) == v;
    assert Up(Tree(w), u, n + 1) == v;
  }

  /** The k-th request names the then-latest user line exactly if claude's branch has it, and has no user line
      below it that the session does not show. */
  lemma RequestNamesTheLatestIff(w: World, idx: nat, k: nat)
    requires CanPlan(w, idx) && k < |PlanFor(w, idx)|
    ensures var plan := PlanFor(w, idx); var cursor := CursorAfter(w, plan, k);
            LatestUser(w, cursor, plan[k]) <==> Reaches(Tree(w), cursor, plan[k]) && !Hides(w, cursor, plan[k])
  {
    var plan := PlanFor(w, idx);
    var cursor := CursorAfter(w, plan, k);
    TranscriptIsAcyclic(w.lines);
    RequestIsActive(w, idx, k);
    if LatestUser(w, cursor, plan[k]) && Hides(w, cursor, plan[k]) {
      var v :|
        v in UserLines(w) && v !in ActiveUsers(w) && Reaches(Tree(w), cursor, v) && Reaches(Tree(w), v, plan[k]);
      NoMutualReach(Tree(w), v, plan[k]);
    }
    if Reaches(Tree(w), cursor, plan[k]) && !Hides(w, cursor, plan[k]) {
      forall v | v in UserLines(w) && Reaches(Tree(w), cursor, v)
        ensures Reaches(Tree(w), plan[k], v)
      {
        BranchIsLinear(Tree(w), cursor, plan[k], v);
        if Reaches(Tree(w), v, plan[k]) && v != plan[k] {
          BelowIsRequested(w, idx, k, v);
          RequestIsActive(w, idx, k - 1);
          ParentIsAbove(w, plan[k - 1], v);
          BeforeIsNotBelow(w.lines, plan[k - 1], v);
        }
      }
    }
  }

  /** Claude's branch has every request of the plan. */
  ghost predicate OnClaudesBranch(w: World, plan: seq<Uuid>) {
    forall k :: 0 <= k < |plan| ==> Reaches(Tree(w), w.cursor, plan[k])
  }

  ghost predicate AllNameTheLatest(w: World, plan: seq<Uuid>) {
    forall k: nat :: k < |plan| ==> LatestUser(w, CursorAfter(w, plan, k), plan[k])
  }

  /** On claude's branch, each request is below the next, and so below the target. */
  lemma {:induction false} RequestsClimb(w: World, idx: nat, k: nat)
    requires CanPlan(w, idx) && k < |PlanFor(w, idx)| && OnClaudesBranch(w, PlanFor(w, idx))
    ensures var plan := PlanFor(w, idx);
            && Reaches(Tree(w), CursorAfter(w, plan, k), plan[k])
            && Reaches(Tree(w), plan[k], w.log[idx].uuid)
    decreases |PlanFor(w, idx)| - k
  {
    var plan := PlanFor(w, idx);
    if k > 0 {
      NextRequestIsAbove(w, idx, k);
    }
    if k + 1 < |plan| {
      RequestsClimb(w, idx, k + 1);
      NextRequestIsAbove(w, idx, k + 1);
      RequestIsActive(w, idx, k);
      ParentIsAbove(w, plan[k], plan[k + 1]);
      ReachesTransitive(Tree(w), plan[k], plan[k + 1], w.log[idx].uuid);
    } else {
      RequestIsActive(w, idx, k);
      assert Up(Tree(w), plan[k], 0) == plan[k] == w.log[idx].uuid;
    }
  }

  lemma NextRequestIsAbove(w: World, idx: nat, k: nat)
    requires CanPlan(w, idx) && 0 < k < |PlanFor(w, idx)| && OnClaudesBranch(w, PlanFor(w, idx))
    ensures Reaches(Tree(w), ParentOf(Tree(w), PlanFor(w, idx)[k - 1]), PlanFor(w, idx)[k])
  {
    var plan := PlanFor(w, idx);
    RequestsDescend(w, idx, k);
    BeforeIsNotBelow(w.lines, plan[k], plan[k - 1]);
    BranchIsLinear(Tree(w), w.cursor, plan[k - 1], plan[k]);
    ReachesUnfold(Tree(w), plan[k - 1], plan[k]);
  }

  /** If every request names the latest, each is on claude's branch. */
  lemma {:induction false} LatestIsOnBranch(w: World, idx: nat, k: nat)
    requires CanPlan(w, idx) && k < |PlanFor(w, idx)| && AllNameTheLatest(w, PlanFor(w, idx))
    ensures Reaches(Tree(w), w.cursor, PlanFor(w, idx)[k])
  {
    var plan := PlanFor(w, idx);
    if k > 0 {
      LatestIsOnBranch(w, idx, k - 1);
      RequestIsActive(w, idx, k - 1);
      ParentIsAbove(w, plan[k - 1], plan[k]);
      ReachesTransitive(Tree(w), w.cursor, plan[k - 1], plan[k]);
    }
  }

  /** And nothing is hidden from any of claude's positions on. */
  lemma {:induction false} LatestHidesNothing(w: World, idx: nat, v: Uuid, k: nat)
    requires CanPlan(w, idx) && k < |PlanFor(w, idx)| && AllNameTheLatest(w, PlanFor(w, idx))
    requires v in UserLines(w) && v !in ActiveUsers(w)
    ensures !(Reaches(Tree(w), CursorAfter(w, PlanFor(w, idx), k), v) && Reaches(Tree(w), v, w.log[idx].uuid))
    decreases |PlanFor(w, idx)| - k
  {
    var plan := PlanFor(w, idx);
    var cursor := CursorAfter(w, plan, k);
    RequestIsActive(w, idx, k);
    if Reaches(Tree(w), cursor, v) && Reaches(Tree(w), v, w.log[idx].uuid) {
      assert LatestUser(w, cursor, plan[k]);
      ReachesUnfold(Tree(w), plan[k], v);
      if k + 1 < |plan| {
        LatestHidesNothing(w, idx, v, k + 1);
      } else {
        TranscriptIsAcyclic(w.lines);
        NoMutualReach(Tree(w), plan[k], v);
      }
    }
  }

  /** Every request of a deep edit names the then-latest user line of the transcript, so claude has no reason to
      refuse any of them, exactly if claude's branch has all of them, and from claude's position up to the target
      has no user line that the session does not show. The last request leaves claude at the target's parent. */
  lemma EveryRewindNamesTheLatestIff(w: World, idx: nat)
    requires CanPlan(w, idx)
    ensures var plan := PlanFor(w, idx);
            && CursorAfter(w, plan, |plan|) == ParentOf(Tree(w), w.log[idx].uuid)
            && (AllNameTheLatest(w, plan) <==> OnClaudesBranch(w, plan) && !Hides(w, w.cursor, w.log[idx].uuid))
  {
    var plan, target := PlanFor(w, idx), w.log[idx].uuid;
    if AllNameTheLatest(w, plan) {
      forall k | 0 <= k < |plan|
        ensures Reaches(Tree(w), w.cursor, plan[k])
      {
        LatestIsOnBranch(w, idx, k);
      }
      forall v | v in UserLines(w) && v !in ActiveUsers(w)
        ensures !(Reaches(Tree(w), w.cursor, v) && Reaches(Tree(w), v, target))
      {
        LatestHidesNothing(w, idx, v, 0);
      }
    }
    if OnClaudesBranch(w, plan) && !Hides(w, w.cursor, target) {
      forall k: nat | k < |plan|
        ensures LatestUser(w, CursorAfter(w, plan, k), plan[k])
      {
        ShownBranchNamesTheLatest(w, idx, k);
      }
    }
  }

  lemma ShownBranchNamesTheLatest(w: World, idx: nat, k: nat)
    requires CanPlan(w, idx) && k < |PlanFor(w, idx)|
    requires OnClaudesBranch(w, PlanFor(w, idx)) && !Hides(w, w.cursor, w.log[idx].uuid)
    ensures LatestUser(w, CursorAfter(w, PlanFor(w, idx), k), PlanFor(w, idx)[k])
  {
    var plan := PlanFor(w, idx);
    RequestNamesTheLatestIff(w, idx, k);
    RequestsClimb(w, idx, k);
    if v :| v in UserLines(w) && v !in ActiveUsers(w) && Reaches(Tree(w), CursorAfter(w, plan, k), v)
            && Reaches(Tree(w), v, plan[k]) {
      ReachesTransitive(Tree(w), v, plan[k], w.log[idx].uuid);
      if k > 0 {
        RequestIsActive(w, idx, k - 1);
        ParentIsAbove(w, plan[k - 1], v);
        ReachesTransitive(Tree(w), w.cursor, plan[k - 1], v);
      }
    }
  }

  /** So if claude refuses exactly the targets that are not the latest, the handler abandons an edit exactly if
      one of the two fails. */
  lemma EditIsDoneIff(w: World, idx: nat, done: bool, rewinds: seq<Uuid>, replies: nat -> Reply)
    requires CanPlan(w, idx)
    requires var plan := PlanFor(w, idx);
             && Served(plan, done, rewinds, replies)
             && forall k: nat :: k < |plan| ==> (LatestUser(w, CursorAfter(w, plan, k), plan[k]) <==> replies(k).Accepted?)
    ensures done <==> OnClaudesBranch(w, PlanFor(w, idx)) && !Hides(w, w.cursor, w.log[idx].uuid)
  {
    EveryRewindNamesTheLatestIff(w, idx);
    if done {
      forall k: nat | k < |rewinds|
        ensures replies(k).Accepted?
      {
      }
    }
  }

  /** While session and claude are in step, claude's branch has every request, and what the session does not show
      is what its log lacks. */
  lemma InStepHides(w: World, idx: nat, above: Uuid)
    requires Good(w) && CanPlan(w, idx)
    ensures OnClaudesBranch(w, PlanFor(w, idx))
    ensures Hides(w, w.cursor, above) <==>
            exists v ::
              v in UserLines(w) && v !in Users(w.log) && Reaches(Tree(w), w.cursor, v) && Reaches(Tree(w), v, above)
  {
    var plan := PlanFor(w, idx);
    UserLinesBearMessages(w.lines);
    KeptInOrder(w.lines, Users(w.log), Branch(w.session));
    forall v | v in UserLines(w)
      ensures v in Branch(w.session) <==> Reaches(Tree(w), w.cursor, v)
    {
      ActiveIffReaches(w.session.parents, w.session.tip, v);
    }
    forall k | 0 <= k < |plan|
      ensures Reaches(Tree(w), w.cursor, plan[k])
    {
      RequestIsActive(w, idx, k);
    }
  }

  lemma {:induction false} UserInLog(log: seq<Msg>, idx: nat)
    requires idx < |log| && IsUser(log[idx])
    ensures log[idx].uuid in Users(log)
  {
    if idx < |log| - 1 {
      UserInLog(Init(log), idx);
    }
  }

  lemma UnloggedIsLatest(w: World, v: Uuid, target: Uuid)
    requires Ordered(w.lines) && Listed(w) && v in UserLines(w) && v !in Users(w.log) && w.cursor == v
    requires target != v && Reaches(Tree(w), v, target)
    ensures Hides(w, w.cursor, target) && !LatestUser(w, w.cursor, target)
  {
    UserLinesBearMessages(w.lines);
    SeesItself(w, v);
    KeptInOrder(w.lines, Users(w.log), Branch(w.session));
    TranscriptIsAcyclic(w.lines);
    if LatestUser(w, w.cursor, target) {
      NoMutualReach(Tree(w), v, target);
    }
  }

  lemma ShownIsAboveNewLine(w: World, line: Line, announced: bool, live: seq<Msg>, u: Uuid)
    requires Good(w) && Enabled(w, Emit(line, announced, live)) && u in Bearing(w.lines)
    requires u in Branch(Next(w, Emit(line, announced, live)).session)
    ensures u != line.uuid && Reaches(Tree(Next(w, Emit(line, announced, live))), line.uuid, u)
  {
    var x := Next(w, Emit(line, announced, live));
    EmitIsNew(w, line, announced, live);
    EmitLinks(w, line, announced, live);
    EmitWalks(w, line, announced, live, u);
    ActiveIffReaches(x.session.parents, x.session.tip, u);
  }

  /** A user line that the session does not log, such as the prompt in which claude notes that a background task
      has finished, or a message started after its queue entry was lost, keeps every earlier user message from being
      edited until the session is loaded again. */
  lemma PromptBlocksEveryEdit(w: World, line: Line, announced: bool, live: seq<Msg>, idx: nat)
    requires Good(w) && Listed(w) && Enabled(w, Emit(line, announced, live))
    requires Users(Stamped(line.msgs, line.uuid)) == [line.uuid] && Users(live) == []
    requires var x := Next(w, Emit(line, announced, live));
             idx < |x.log| && IsUser(x.log[idx]) && x.log[idx].uuid in Branch(x.session)
    ensures var x := Next(w, Emit(line, announced, live));
            Hides(x, x.cursor, x.log[idx].uuid) && !LatestUser(x, x.cursor, x.log[idx].uuid)
  {
    var x := Next(w, Emit(line, announced, live));
    OneMoreLine(w, line);
    UsersConcat(w.log, live);
    assert Users(w.log) + [] == Users(w.log);
    UsersConcat(LogOf(w.lines), Stamped(line.msgs, line.uuid));
    assert line.uuid in UserLines(x);
    EmitKeepsListed(w, line, announced, live);
    UserInLog(x.log, idx);
    UserLinesBearMessages(w.lines);
    EmitIsNew(w, line, announced, live);
    ShownIsAboveNewLine(w, line, announced, live, x.log[idx].uuid);
    UnloggedIsLatest(x, line.uuid, x.log[idx].uuid);
  }

  /** A conversation without forks whose lines are these. */
  ghost predicate IsPlain(w: World, uuids: set<Uuid>, log: seq<Msg>) {
    && Good(w) && Listed(w) && w.log == log && Branch(w.session) == uuids
    && Mentioned(Tree(w)) <= uuids + {""} && w.cursor in uuids + {""}
  }

  lemma PlainGoesOn(w: World, uuids: set<Uuid>, log: seq<Msg>, line: Line, live: seq<Msg>)
    requires IsPlain(w, uuids, log) && UsersOfStep(Emit(line, true, live))
    requires line.uuid !in uuids + {""} && line.parent == w.cursor && !line.sidechain && line.msgs != []
    requires forall m :: m in live ==> m.uuid == line.uuid && m.agentID == ""
    ensures Enabled(w, Emit(line, true, live))
    ensures IsPlain(Next(w, Emit(line, true, live)), uuids + {line.uuid}, log + live)
  {
    var x := Next(w, Emit(line, true, live));
    HeardLineKeepsGood(w, line, live);
    EmitKeepsListed(w, line, true, live);
    assert Mentioned(Tree(x)) <= uuids + {line.uuid} + {""} by {
      OneMoreLine(w, line);
    }
    assert Branch(x.session) == uuids + {line.uuid} by {
      AdvanceAddsExactlyOne(w.session, line.uuid);
    }
  }

  lemma BlankIsPlain()
    ensures IsPlain(BLANK, {}, [])
  {
    BlankIsTracked();
    forall u
      ensures u !in Branch(BLANK.session)
    {
      ActiveIffReaches(map[], "", u);
      ReachesUnfold(map[], "", u);
    }
  }

  predicate IsUserLine(l: Line) {
    !l.sidechain && |l.msgs| == 1 && l.msgs[0].kind == UserMessage && l.msgs[0].agentID == ""
  }

  predicate IsReplyLine(l: Line) {
    !l.sidechain && |l.msgs| == 1 && l.msgs[0].kind == Text && l.msgs[0].agentID == ""
  }

  function Heard(l: Line): Step {
    Emit(l, true, Stamped(l.msgs, l.uuid))
  }

  /** Plain conversations are those of typed messages and replies, each heard live. */
  lemma PlainHears(w: World, uuids: set<Uuid>, l: Line, x: World)
    requires IsPlain(w, uuids, w.log) && (IsUserLine(l) || IsReplyLine(l))
    requires l.uuid !in uuids + {""} && l.parent == w.cursor && x == Next(w, Heard(l))
    ensures Enabled(w, Heard(l)) && x.cursor == l.uuid && x.log == w.log + [l.msgs[0].(uuid := l.uuid)]
    ensures IsPlain(x, uuids + {l.uuid}, x.log)
  {
    assert Stamped(l.msgs, l.uuid) == [l.msgs[0].(uuid := l.uuid)];
    PlainGoesOn(w, uuids, w.log, l, Stamped(l.msgs, l.uuid));
  }

  /** The inputs on which that happens: to a plain conversation of any length claude adds one prompt of its own.
      Then the handler's only request for the last message typed does not name the latest user line. */
  lemma PlainEditIsRefused(w: World, uuids: set<Uuid>, idx: nat, p: Line)
    requires IsPlain(w, uuids, w.log) && IsUserLine(p) && p.uuid != "" && p.uuid !in uuids && p.parent == w.cursor
    requires idx + 1 == |w.log| && IsUser(w.log[idx]) && w.log[idx].uuid in uuids
    ensures Enabled(w, Emit(p, true, []))
    ensures var x := Next(w, Emit(p, true, []));
            && Good(x) && Listed(x) && x.log == w.log && Branch(x.session) == uuids + {p.uuid}
            && PlanFor(x, idx) == [w.log[idx].uuid] && !LatestUser(x, x.cursor, w.log[idx].uuid)
  {
    PlainGoesOn(w, uuids, w.log, p, []);
    assert w.log + [] == w.log;
    PromptBlocksEveryEdit(w, p, true, [], idx);
    assert w.log[idx + 1..] == [];
  }

  /** An edit that passes every guard and whose first request is refused is abandoned. */
  lemma RefusedEditIsAbandoned(log: seq<Msg>, idx: nat, active: set<Uuid>, replies: nat -> Reply,
                               outcome: Outcome, rewinds: seq<Uuid>)
    requires idx < |log| && IsUser(log[idx]) && IsFirst(log, log[idx].uuid, idx) && log[idx].uuid in active
    requires HasBranchPoint(log, idx, active) && replies(0).Refused?
    requires Explains(outcome, log, log[idx].uuid, active, false, false, false, replies, rewinds)
    ensures outcome == Abandoned && |rewinds| == 1
  {
    assert forall i: nat :: IsFirst(log, log[idx].uuid, i) ==> i == idx;
  }

  /** Claude refuses exactly if the target is not the latest. Then the edit of the last message typed in a plain
      conversation with such a prompt at its end is abandoned. */
  lemma PlainEditIsAbandoned(w: World, uuids: set<Uuid>, idx: nat, uuid: Uuid, p: Line, x: World, replies: nat -> Reply)
    requires IsPlain(w, uuids, w.log) && IsUserLine(p) && p.uuid != "" && p.uuid !in uuids && p.parent == w.cursor
    requires idx + 1 == |w.log| && IsUser(w.log[idx]) && w.log[idx].uuid == uuid && uuid in uuids
    requires IsFirst(w.log, uuid, idx) && HasBranchPoint(w.log, idx, uuids)
    requires x == Next(w, Emit(p, true, [])) && (LatestUser(x, x.cursor, uuid) <==> replies(0).Accepted?)
    ensures Enabled(w, Emit(p, true, []))
    ensures forall outcome, rewinds ::
              Explains(outcome, x.log, uuid, Branch(x.session), false, false, false, replies, rewinds) ==>
              outcome == Abandoned && |rewinds| == 1
  {
    PlainEditIsRefused(w, uuids, idx, p);
    var i :| 0 <= i < idx && IsBranchPoint(w.log[i], uuids);
    assert IsBranchPoint(w.log[i], Branch(x.session));
    forall outcome, rewinds | Explains(outcome, x.log, uuid, Branch(x.session), false, false, false, replies, rewinds)
      ensures outcome == Abandoned && |rewinds| == 1
    {
      RefusedEditIsAbandoned(w.log, idx, Branch(x.session), replies, outcome, rewinds);
    }
  }

  lemma BlankAnswers(typed: Line, reply: Line, w1: World, w2: World)
    requires IsUserLine(typed) && IsReplyLine(reply) && typed.parent == "" && reply.parent == typed.uuid
    requires typed.uuid != "" && reply.uuid !in {"", typed.uuid}
    requires w1 == Next(BLANK, Heard(typed)) && w2 == Next(w1, Heard(reply))
    ensures Enabled(BLANK, Heard(typed)) && Enabled(w1, Heard(reply))
    ensures IsPlain(w2, {typed.uuid, reply.uuid}, w2.log) && w2.cursor == reply.uuid
    ensures w2.log == [typed.msgs[0].(uuid := typed.uuid)] + [reply.msgs[0].(uuid := reply.uuid)]
  {
    BlankIsPlain();
    PlainHears(BLANK, {}, typed, w1);
    PlainHears(w1, {} + {typed.uuid}, reply, w2);
    assert {} + {typed.uuid} + {reply.uuid} == {typed.uuid, reply.uuid};
  }

  lemma ThirdMessageIsRewindable(log: seq<Msg>, active: set<Uuid>)
    requires |log| == 3 && log[0].uuid != log[2].uuid && IsBranchPoint(log[1], active) && IsUser(log[2])
    ensures IsFirst(log, log[2].uuid, 2) && HasBranchPoint(log, 2, active)
  {
  }

  lemma BlankHears(typed: Line, reply: Line, again: Line, w1: World, w2: World, w3: World)
    requires IsUserLine(typed) && IsReplyLine(reply) && IsUserLine(again)
    requires typed.parent == "" && reply.parent == typed.uuid && again.parent == reply.uuid
    requires typed.uuid != "" && reply.uuid !in {"", typed.uuid} && again.uuid !in {"", typed.uuid, reply.uuid}
    requires w1 == Next(BLANK, Heard(typed)) && w2 == Next(w1, Heard(reply)) && w3 == Next(w2, Heard(again))
    ensures Enabled(BLANK, Heard(typed)) && Enabled(w1, Heard(reply)) && Enabled(w2, Heard(again))
    ensures IsPlain(w3, {typed.uuid, reply.uuid} + {again.uuid}, w3.log) && w3.cursor == again.uuid
    ensures |w3.log| == 3 && w3.log[2].uuid == again.uuid && IsUser(w3.log[2])
    ensures IsFirst(w3.log, again.uuid, 2) && HasBranchPoint(w3.log, 2, {typed.uuid, reply.uuid} + {again.uuid})
  {
    BlankAnswers(typed, reply, w1, w2);
    PlainHears(w2, {typed.uuid, reply.uuid}, again, w3);
    ThirdMessageIsRewindable(w3.log, {typed.uuid, reply.uuid} + {again.uuid});
  }

  lemma TalkIsPlain(typed: Line, reply: Line, again: Line, talk: seq<Step>)
    requires IsUserLine(typed) && IsReplyLine(reply) && IsUserLine(again)
    requires typed.parent == "" && reply.parent == typed.uuid && again.parent == reply.uuid
    requires typed.uuid != "" && reply.uuid !in {"", typed.uuid} && again.uuid !in {"", typed.uuid, reply.uuid}
    requires talk == [Heard(typed), Heard(reply), Heard(again)]
    ensures ValidRun(BLANK, talk)
    ensures var w, uuids := Run(BLANK, talk), {typed.uuid, reply.uuid} + {again.uuid};
            && IsPlain(w, uuids, w.log) && w.cursor == again.uuid
            && |w.log| == 3 && w.log[2].uuid == again.uuid && IsUser(w.log[2])
            && IsFirst(w.log, again.uuid, 2) && HasBranchPoint(w.log, 2, uuids)
  {
    var one, two := [Heard(typed)], [Heard(typed), Heard(reply)];
    assert Init(talk) == two && Init(two) == one && Init(one) == [];
    assert Run(BLANK, []) == BLANK && Run(BLANK, one) == Next(BLANK, Heard(typed));
    assert Run(BLANK, two) == Next(Run(BLANK, one), Heard(reply));
    BlankHears(typed, reply, again, Run(BLANK, one), Run(BLANK, two), Run(BLANK, talk));
    assert ValidRun(BLANK, []) && ValidRun(BLANK, one) && ValidRun(BLANK, two);
  }

  /** A whole conversation that ends so: a message, a reply, a second message, and a prompt of claude's own. The
      edit of the second message passes every guard, and the session is abandoned. */
  lemma EditAfterPromptIsAbandoned(typed: Line, reply: Line, again: Line, prompt: Line, talk: seq<Step>,
                                   replies: nat -> Reply, outcome: Outcome, rewinds: seq<Uuid>)
    requires IsUserLine(typed) && IsReplyLine(reply) && IsUserLine(again) && IsUserLine(prompt)
    requires typed.parent == "" && reply.parent == typed.uuid && again.parent == reply.uuid && prompt.parent == again.uuid
    requires typed.uuid != "" && reply.uuid !in {"", typed.uuid} && again.uuid !in {"", typed.uuid, reply.uuid}
    requires prompt.uuid != "" && prompt.uuid !in {typed.uuid, reply.uuid} + {again.uuid}
    requires talk == [Heard(typed), Heard(reply), Heard(again)]
    requires var x := Next(Run(BLANK, talk), Emit(prompt, true, []));
             && (LatestUser(x, x.cursor, again.uuid) <==> replies(0).Accepted?)
             && Explains(outcome, x.log, again.uuid, Branch(x.session), false, false, false, replies, rewinds)
    ensures ValidRun(BLANK, talk) && Enabled(Run(BLANK, talk), Emit(prompt, true, []))
    ensures outcome == Abandoned && |rewinds| == 1
  {
    TalkIsPlain(typed, reply, again, talk);
    var w := Run(BLANK, talk);
    var uuids := {typed.uuid, reply.uuid} + {again.uuid};
    PlainEditIsAbandoned(w, uuids, 2, again.uuid, prompt, Next(w, Emit(prompt, true, [])), replies);
  }

  // ---- what an edit leaves ----

  /** Claude accepts the k-th request and reports a message above it. */
  ghost predicate Accepts(w: World, rewinds: seq<Uuid>, branchPoints: nat -> Uuid, k: nat)
    requires k < |rewinds|
  {
    && LatestUser(w, CursorAfter(w, rewinds, k), rewinds[k])
    && branchPoints(k) in Bearing(w.lines) && Reaches(Tree(w), ParentOf(Tree(w), rewinds[k]), branchPoints(k))
  }

  /** The first k requests of an edit, as steps of the run. */
  ghost function Rewinds(rewinds: seq<Uuid>, branchPoints: nat -> Uuid, k: nat): seq<Step>
    requires k <= |rewinds|
  {
    if k == 0 then [] else Rewinds(rewinds, branchPoints, k - 1) + [Rewound(rewinds[k - 1], branchPoints(k - 1))]
  }

  /** The requests of an edit are steps of the run. They move claude alone, to where the plan says, and leave the
      last branch point for the session to settle on. */
  lemma {:induction false} RewindsAreSteps(w: World, rewinds: seq<Uuid>, branchPoints: nat -> Uuid, k: nat)
    requires k <= |rewinds| && forall i: nat :: i < k ==> Accepts(w, rewinds, branchPoints, i)
    ensures ValidRun(w, Rewinds(rewinds, branchPoints, k))
    ensures var x := Run(w, Rewinds(rewinds, branchPoints, k));
            && x.lines == w.lines && x.log == w.log && x.session == w.session
            && x.cursor == CursorAfter(w, rewinds, k) && (k > 0 ==> branchPoints(k - 1) in x.due)
  {
    if k > 0 {
      RewindsAreSteps(w, rewinds, branchPoints, k - 1);
      var before, step := Rewinds(rewinds, branchPoints, k - 1), Rewound(rewinds[k - 1], branchPoints(k - 1));
      assert Accepts(w, rewinds, branchPoints, k - 1);
      RewindIsStep(w, Run(w, before), CursorAfter(w, rewinds, k - 1), step);
      RunSnoc(w, before, step);
    }
  }

  lemma RewindIsStep(w: World, x: World, cursor: Uuid, step: Step)
    requires step.Rewound? && LatestUser(w, cursor, step.target) && step.branchPoint in Bearing(w.lines)
    requires Reaches(Tree(w), ParentOf(Tree(w), step.target), step.branchPoint)
    requires x.lines == w.lines && x.cursor == cursor
    ensures Enabled(x, step)
  {
  }

  /** After the edit the active branch is exactly the old branch from the branch point up. The target
      is gone, and so is everything below it. */
  lemma EditTruncatesTheBranch(w: World, target: Uuid, branchPoint: Uuid, u: Uuid)
    requires Good(w) && Enabled(w, Rewound(target, branchPoint))
    ensures var x := Next(Next(w, Rewound(target, branchPoint)), Settled(branchPoint));
            && (u in Branch(x.session) <==> u in Branch(w.session) && Reaches(w.session.parents, branchPoint, u))
            && (Reaches(w.session.parents, u, target) ==> u !in Branch(x.session))
            && target in Branch(w.session) && branchPoint in Branch(x.session)
  {
    var tree, chain := Tree(w), w.session.parents;
    UserLinesBearMessages(w.lines);
    BearingIsLinked(w.lines);
    ActiveIffReaches(chain, w.session.tip, u);
    ActiveIffReaches(chain, w.session.tip, target);
    ActiveIffReaches(chain, branchPoint, u);
    ActiveIffReaches(chain, branchPoint, branchPoint);
    TranscriptIsAcyclic(w.lines);
    assert branchPoint != "" && Up(tree, branchPoint, 0) == branchPoint && Up(chain, branchPoint, 0) == branchPoint;
    ParentIsAbove(w, target, branchPoint);
    ReachesTransitive(tree, w.cursor, target, branchPoint);
    BranchAgrees(w, branchPoint);
    if Reaches(chain, branchPoint, u) {
      ReachesTransitive(chain, w.session.tip, branchPoint, u);
    }
    if Reaches(chain, u, target) && Reaches(chain, branchPoint, u) {
      ReachesTransitive(chain, branchPoint, u, target);
      NoMutualReach(tree, branchPoint, target);
    }
  }

  /** The branch point claude reports must be the nearest message-bearing line at or above the target's
      parent. For any other message-bearing line, the session's branch and claude's differ. */
  lemma EditAgreesIffNearest(w: World, target: Uuid, branchPoint: Uuid)
    requires Sound(w) && branchPoint in Bearing(w.lines)
    requires (InStep(w) && Reaches(Tree(w), w.cursor, target)) || Agree(w, branchPoint, branchPoint)
    ensures var x := w.(cursor := ParentOf(Tree(w), target), session := w.session.(tip := branchPoint));
            InStep(x) <==> IsNearest(w, ParentOf(Tree(w), target), branchPoint)
  {
    var p := ParentOf(Tree(w), target);
    BearingIsLinked(w.lines);
    NearestIffSame(w, p, branchPoint);
    assert Up(w.session.parents, branchPoint, 0) == branchPoint != "";
    if !Agree(w, branchPoint, branchPoint) && Reaches(Tree(w), p, branchPoint) {
      ReachesUnfold(Tree(w), target, branchPoint);
      ReachesTransitive(Tree(w), w.cursor, target, branchPoint);
      BranchAgrees(w, branchPoint);
    }
  }
}
