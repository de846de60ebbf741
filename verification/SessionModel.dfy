/** The render model's fold over the event log, and its agreement with the session. */
module SessionModel {
  import opened LineChain
  import opened Messages

  datatype BgTask = BgTask(outputPath: string, completed: bool)

  /** The state derived from the log, apart from the chain. */
  datatype View = View(messages: seq<Msg>,
                       toolUseIndexes: map<string, nat>,
                       toolResultIndexes: map<string, nat>,
                       toolResults: map<string, Msg>,
                       suppressedIDs: set<string>,
                       bgTasks: map<string, BgTask>,
                       pendingPerms: set<string>,
                       turnActive: bool,
                       processAlive: bool)

  const EMPTY_VIEW := View([], map[], map[], map[], {}, map[], {}, false, false)

  /** What one more message at the end of the log changes, field by field. */
  function Observe(v: View, msg: Msg): View {
    var here := |v.messages|;
    var named := msg.toolUseID != "";
    var mainUse := msg.kind == ToolUse && named && msg.agentID == "";
    var result := msg.kind == ToolResult && named;
    var mainResult := result && msg.agentID == "";
    var started := msg.kind == SessionStarted;
    View(v.messages + [msg],
         if mainUse then v.toolUseIndexes[msg.toolUseID := here] else v.toolUseIndexes,
         if mainResult then v.toolResultIndexes[msg.toolUseID := here] else v.toolResultIndexes,
         if mainResult then v.toolResults[msg.toolUseID := msg] else v.toolResults,
         if msg.kind == ToolUse && named && SuppressesResult(msg.tool) then v.suppressedIDs + {msg.toolUseID}
         else v.suppressedIDs,
         if started then map[]
         else if mainResult && msg.bgPath != "" then v.bgTasks[msg.toolUseID := BgTask(msg.bgPath, false)]
         else if msg.kind == TaskDone && named && msg.toolUseID in v.bgTasks
         then v.bgTasks[msg.toolUseID := BgTask(v.bgTasks[msg.toolUseID].outputPath, true)]
         else v.bgTasks,
         if started then {}
         else if result then v.pendingPerms - {msg.toolUseID}
         else if msg.kind == PermissionRequest && msg.tool != AskUserQuestion && named then v.pendingPerms + {msg.toolUseID}
         else v.pendingPerms,
         msg.kind == Running || (v.turnActive && msg.kind != Done && !started),
         started || (v.processAlive && msg.kind != SessionEnded))
  }

  function Fold(v: View, log: seq<Msg>): View {
    if log == [] then v else Observe(Fold(v, log[..|log| - 1]), log[|log| - 1])
  }

  /** How the model links a live message. Sub-agent messages are not part of the tree. */
  function Link(c: Cursor, msg: Msg): Cursor {
    if msg.agentID == "" then Advance(c, msg.uuid) else c
  }

  predicate Interruptible(v: View) {
    v.processAlive && (v.turnActive || v.pendingPerms != {})
  }

  class SessionModel {
    var Messages: seq<Msg>
    var ToolUseIndexes: map<string, nat>
    var ToolResultIndexes: map<string, nat>
    var ToolResults: map<string, Msg>
    var SuppressedIDs: set<string>
    var BgTasks: map<string, BgTask>
    var PendingPerms: set<string>
    var turnActive: bool
    var processAlive: bool
    var Tip: Uuid
    var LineParents: Parents
    var folding: bool

    ghost function Chain(): Cursor
      reads this
    {
      Cursor(Tip, LineParents)
    }

    function Derived(): View
      reads this
    {
      View(Messages, ToolUseIndexes, ToolResultIndexes, ToolResults, SuppressedIDs, BgTasks,
           PendingPerms, turnActive, processAlive)
    }

    /** Builds a model from a chain and a log. During the fold no message links, so the chain
        is the base chain whole. */
    constructor BuildModel(base: Cursor, alive: bool, log: seq<Msg>)
      ensures Chain() == base && !folding
      ensures Derived() == Fold(EMPTY_VIEW.(processAlive := alive), log)
    {
      Messages := [];
      ToolUseIndexes, ToolResultIndexes, ToolResults := map[], map[], map[];
      SuppressedIDs, BgTasks, PendingPerms := {}, map[], {};
      turnActive, processAlive := false, alive;
      Tip, LineParents := base.tip, base.parents;
      folding := true;
      new;
      for i := 0 to |log|
        invariant Chain() == base && folding
        invariant Derived() == Fold(EMPTY_VIEW.(processAlive := alive), log[..i])
      {
        assert log[..i + 1][..i] == log[..i];
        Apply(log[i]);
      }
      assert log[..|log|] == log;
      folding := false;
    }

    method Apply(msg: Msg)
      modifies this
      ensures Derived() == Observe(old(Derived()), msg)
      ensures Chain() == if folding then old(Chain()) else Link(old(Chain()), msg)
      ensures folding == old(folding)
    {
      LinkLive(msg);
      if msg.kind == ToolUse {
        NoteToolUse(msg);
      } else if msg.kind == ToolResult {
        NoteToolResult(msg);
      } else {
        NoteActivity(msg);
      }
    }

    /** A live message with an unlinked uuid extends the chain. */
    method LinkLive(msg: Msg)
      modifies this`LineParents, this`Tip
      ensures Chain() == if folding then old(Chain()) else Link(old(Chain()), msg)
    {
      if !folding && msg.uuid != "" && msg.agentID == "" {
        if msg.uuid !in LineParents {
          LineParents := LineParents[msg.uuid := Tip];
          Tip := msg.uuid;
        }
      }
    }

    method NoteToolUse(msg: Msg)
      requires msg.kind == ToolUse
      modifies this`Messages, this`ToolUseIndexes, this`SuppressedIDs
      ensures Derived() == Observe(old(Derived()), msg)
    {
      Messages := Messages + [msg];
      if msg.toolUseID != "" {
        if msg.agentID == "" {
          ToolUseIndexes := ToolUseIndexes[msg.toolUseID := |Messages| - 1];
        }
        if SuppressesResult(msg.tool) {
          SuppressedIDs := SuppressedIDs + {msg.toolUseID};
        }
      }
    }

    method NoteToolResult(msg: Msg)
      requires msg.kind == ToolResult
      modifies this`Messages, this`ToolResults, this`ToolResultIndexes, this`BgTasks, this`PendingPerms
      ensures Derived() == Observe(old(Derived()), msg)
    {
      Messages := Messages + [msg];
      if msg.toolUseID != "" {
        PendingPerms := PendingPerms - {msg.toolUseID};
        if msg.agentID == "" {
          ToolResults := ToolResults[msg.toolUseID := msg];
          ToolResultIndexes := ToolResultIndexes[msg.toolUseID := |Messages| - 1];
          if msg.bgPath != "" {
            BgTasks := BgTasks[msg.toolUseID := BgTask(msg.bgPath, false)];
          }
        }
      }
    }

    /** The kinds that track the turn, the process, prompts and background tasks, and the rest. */
    method NoteActivity(msg: Msg)
      requires msg.kind != ToolUse && msg.kind != ToolResult
      modifies this`Messages, this`BgTasks, this`PendingPerms, this`turnActive, this`processAlive
      ensures Derived() == Observe(old(Derived()), msg)
    {
      Messages := Messages + [msg];
      match msg.kind {
        case TaskDone =>
          if msg.toolUseID != "" && msg.toolUseID in BgTasks {
            BgTasks := BgTasks[msg.toolUseID := BgTasks[msg.toolUseID].(completed := true)];
          }
        case Running => turnActive := true;
        case Done => turnActive := false;
        case SessionStarted =>
          processAlive := true;
          turnActive := false;
          PendingPerms := {};
          BgTasks := map[];
        case SessionEnded => processAlive := false;
        case PermissionRequest =>
          if msg.tool != AskUserQuestion && msg.toolUseID != "" {
            PendingPerms := PendingPerms + {msg.toolUseID};
          }
        case _ =>
      }
    }

    /** Whether a turn or a permission prompt can be interrupted. */
    function CanInterrupt(): (busy: bool)
      reads this
      ensures busy == Interruptible(Derived())
    {
      processAlive && (turnActive || PendingPerms != {})
    }
  }

  // ---- what the derived state says about the log ----

  /** Some message that switches on has none after it that switches off. */
  ghost predicate Since(log: seq<Msg>, on: Msg -> bool, off: Msg -> bool) {
    exists i :: 0 <= i < |log| && on(log[i]) && forall j :: i < j < |log| ==> !off(log[j])
  }

  lemma SinceSnoc(log: seq<Msg>, msg: Msg, on: Msg -> bool, off: Msg -> bool)
    ensures Since(log + [msg], on, off) <==> on(msg) || (Since(log, on, off) && !off(msg))
  {
    var longer := log + [msg];
    if on(msg) {
      assert on(longer[|log|]);
    }
    if Since(log, on, off) && !off(msg) {
      var i :| 0 <= i < |log| && on(log[i]) && forall j :: i < j < |log| ==> !off(log[j]);
      assert on(longer[i]);
    }
    if Since(longer, on, off) && !on(msg) {
      var i :| 0 <= i < |longer| && on(longer[i]) && forall j :: i < j < |longer| ==> !off(longer[j]);
      assert on(log[i]) && !off(longer[|log|]);
      assert forall j :: i < j < |log| ==> log[j] == longer[j];
    }
  }

  predicate IsRunning(m: Msg) {
    m.kind == Running
  }

  predicate EndsTurn(m: Msg) {
    m.kind == Done || m.kind == SessionStarted
  }

  predicate Starts(m: Msg) {
    m.kind == SessionStarted
  }

  predicate Ends(m: Msg) {
    m.kind == SessionEnded
  }

  /** A prompt for the tool_use, which a question of claude's is not. */
  function Prompts(id: string): Msg -> bool {
    (m: Msg) => m.kind == PermissionRequest && m.tool != AskUserQuestion && m.toolUseID == id && id != ""
  }

  /** The tool's result answers the prompt, whether it ran at top level or in a sub-agent, and so does a new process. */
  function Answers(id: string): Msg -> bool {
    (m: Msg) => (m.kind == ToolResult && m.toolUseID == id) || m.kind == SessionStarted
  }

  /** A turn runs exactly since a running message that no end of turn and no new process has followed. */
  lemma {:induction false} TurnIsActiveIff(alive: bool, log: seq<Msg>)
    ensures Fold(EMPTY_VIEW.(processAlive := alive), log).turnActive <==> Since(log, IsRunning, EndsTurn)
  {
    if log != [] {
      var front, msg := log[..|log| - 1], log[|log| - 1];
      TurnIsActiveIff(alive, front);
      assert log == front + [msg];
      SinceSnoc(front, msg, IsRunning, EndsTurn);
    }
  }

  /** A process is alive exactly since its start, or from the beginning if one was, without an end after that. */
  lemma {:induction false} ProcessIsAliveIff(alive: bool, log: seq<Msg>)
    ensures Fold(EMPTY_VIEW.(processAlive := alive), log).processAlive <==>
            Since(log, Starts, Ends) || (alive && forall m :: m in log ==> m.kind != SessionEnded)
  {
    if log != [] {
      var front, msg := log[..|log| - 1], log[|log| - 1];
      ProcessIsAliveIff(alive, front);
      assert log == front + [msg];
      SinceSnoc(front, msg, Starts, Ends);
    }
  }

  /** A prompt is pending exactly since a request for it that neither result nor new process has followed. */
  lemma {:induction false} PromptIsPendingIff(alive: bool, log: seq<Msg>, id: string)
    ensures id in Fold(EMPTY_VIEW.(processAlive := alive), log).pendingPerms <==> Since(log, Prompts(id), Answers(id))
  {
    if log != [] {
      var front, msg := log[..|log| - 1], log[|log| - 1];
      PromptIsPendingIff(alive, front, id);
      assert log == front + [msg];
      SinceSnoc(front, msg, Prompts(id), Answers(id));
    }
  }

  function Launches(id: string): Msg -> bool {
    (m: Msg) => m.kind == ToolResult && m.toolUseID == id && id != "" && m.agentID == "" && m.bgPath != ""
  }

  function Completes(id: string): Msg -> bool {
    (m: Msg) => m.kind == TaskDone && m.toolUseID == id
  }

  /** The view holds a background task exactly since its launch, until a process starts, and it is completed exactly
      if its end was reported after the last launch. */
  ghost predicate TracksTask(v: View, id: string) {
    && (id in v.bgTasks <==> Since(v.messages, Launches(id), Starts))
    && (id in v.bgTasks ==> (v.bgTasks[id].completed <==> Since(v.messages, Completes(id), Launches(id))))
  }

  lemma ObserveTracksTask(v: View, msg: Msg, id: string)
    requires TracksTask(v, id)
    ensures TracksTask(Observe(v, msg), id)
  {
    SinceSnoc(v.messages, msg, Launches(id), Starts);
    SinceSnoc(v.messages, msg, Completes(id), Launches(id));
  }

  lemma {:induction false} ModelTracksTask(alive: bool, log: seq<Msg>, id: string)
    ensures TracksTask(Fold(EMPTY_VIEW.(processAlive := alive), log), id)
  {
    if log != [] {
      ModelTracksTask(alive, log[..|log| - 1], id);
      ObserveTracksTask(Fold(EMPTY_VIEW.(processAlive := alive), log[..|log| - 1]), log[|log| - 1], id);
    }
  }

  // ---- the last message of a kind ----

  ghost predicate IsLastAt(log: seq<Msg>, i: nat, p: Msg -> bool) {
    i < |log| && p(log[i]) && forall j :: i < j < |log| ==> !p(log[j])
  }

  /** A map from ids to places has exactly the ids of such messages, each with the place of its last one. */
  ghost predicate Indexes(at: map<string, nat>, id: string, log: seq<Msg>, p: Msg -> bool) {
    && (id in at <==> exists i :: 0 <= i < |log| && p(log[i]))
    && (id in at ==> IsLastAt(log, at[id], p))
  }

  lemma IndexesSnoc(at: map<string, nat>, id: string, log: seq<Msg>, msg: Msg, p: Msg -> bool)
    requires Indexes(at, id, log, p)
    ensures Indexes(if p(msg) then at[id := |log|] else at, id, log + [msg], p)
  {
    var longer := log + [msg];
    assert longer[|log|] == msg && forall i :: 0 <= i < |log| ==> longer[i] == log[i];
    if i :| 0 <= i < |log| && p(log[i]) {
      assert p(longer[i]);
    }
  }

  function MainUse(id: string): Msg -> bool {
    (m: Msg) => m.kind == ToolUse && m.toolUseID == id && id != "" && m.agentID == ""
  }

  function MainResult(id: string): Msg -> bool {
    (m: Msg) => m.kind == ToolResult && m.toolUseID == id && id != "" && m.agentID == ""
  }

  lemma {:induction false} FoldKeepsMessages(alive: bool, log: seq<Msg>)
    ensures Fold(EMPTY_VIEW.(processAlive := alive), log).messages == log
  {
    if log != [] {
      FoldKeepsMessages(alive, log[..|log| - 1]);
    }
  }

  ghost predicate HoldsUse(v: View, id: string) {
    Indexes(v.toolUseIndexes, id, v.messages, MainUse(id))
  }

  lemma ObserveHoldsUse(v: View, msg: Msg, id: string)
    requires HoldsUse(v, id)
    ensures HoldsUse(Observe(v, msg), id)
  {
    IndexesSnoc(v.toolUseIndexes, id, v.messages, msg, MainUse(id));
  }

  /** The view indexes the last main result of id, and holds it. */
  ghost predicate HoldsResult(v: View, id: string) {
    && Indexes(v.toolResultIndexes, id, v.messages, MainResult(id))
    && (id in v.toolResults <==> id in v.toolResultIndexes)
    && (id in v.toolResults ==> v.toolResults[id] == v.messages[v.toolResultIndexes[id]])
  }

  lemma ObserveHoldsResult(v: View, msg: Msg, id: string)
    requires HoldsResult(v, id)
    ensures HoldsResult(Observe(v, msg), id)
  {
    IndexesSnoc(v.toolResultIndexes, id, v.messages, msg, MainResult(id));
  }

  /** The model's indexes give the last main use and the last main result of every tool id. */
  lemma {:induction false} ModelIndexesTools(alive: bool, log: seq<Msg>, id: string)
    ensures var v := Fold(EMPTY_VIEW.(processAlive := alive), log); HoldsUse(v, id) && HoldsResult(v, id)
  {
    if log != [] {
      ModelIndexesTools(alive, log[..|log| - 1], id);
      ObserveHoldsUse(Fold(EMPTY_VIEW.(processAlive := alive), log[..|log| - 1]), log[|log| - 1], id);
      ObserveHoldsResult(Fold(EMPTY_VIEW.(processAlive := alive), log[..|log| - 1]), log[|log| - 1], id);
    }
  }

  /** The path of a background task is the one that its last launch gave. */
  ghost predicate HasItsPath(v: View, id: string) {
    id in v.bgTasks ==>
      exists i: nat :: IsLastAt(v.messages, i, Launches(id)) && v.bgTasks[id].outputPath == v.messages[i].bgPath
  }

  lemma ObserveKeepsPath(v: View, msg: Msg, id: string)
    requires HasItsPath(v, id)
    ensures HasItsPath(Observe(v, msg), id)
  {
    var x := Observe(v, msg);
    if Launches(id)(msg) {
      assert IsLastAt(x.messages, |v.messages|, Launches(id));
    } else if id in v.bgTasks {
      var i: nat :| IsLastAt(v.messages, i, Launches(id)) && v.bgTasks[id].outputPath == v.messages[i].bgPath;
      assert IsLastAt(x.messages, i, Launches(id));
    }
  }

  lemma {:induction false} TaskHasItsPath(alive: bool, log: seq<Msg>, id: string)
    ensures HasItsPath(Fold(EMPTY_VIEW.(processAlive := alive), log), id)
  {
    if log != [] {
      TaskHasItsPath(alive, log[..|log| - 1], id);
      ObserveKeepsPath(Fold(EMPTY_VIEW.(processAlive := alive), log[..|log| - 1]), log[|log| - 1], id);
    }
  }

  /** What refuses an edit while the session is busy, in terms of the log. */
  lemma InterruptibleIff(alive: bool, log: seq<Msg>)
    ensures var v := Fold(EMPTY_VIEW.(processAlive := alive), log);
            Interruptible(v) <==>
              && (Since(log, Starts, Ends) || (alive && forall m :: m in log ==> m.kind != SessionEnded))
              && (Since(log, IsRunning, EndsTurn) || exists id :: Since(log, Prompts(id), Answers(id)))
  {
    ProcessIsAliveIff(alive, log);
    TurnIsActiveIff(alive, log);
    forall id
      ensures id in Fold(EMPTY_VIEW.(processAlive := alive), log).pendingPerms <==> Since(log, Prompts(id), Answers(id))
    {
      PromptIsPendingIff(alive, log, id);
    }
  }

  // ---- agreement of the two chains over whole runs ----

  /** The session's chain and log beside the model's chain and messages, and the events in the model's channel. */
  datatype Pair = Pair(session: Cursor, log: seq<Msg>, model: Cursor, shown: seq<Msg>, pending: seq<Msg>)

  const CHANNEL := 256

  /** Advanced is a transcript line reaching the session. Broadcast appends to the session's log and to the
      model's channel, unless that is full. Applied is the model taking the next event, at any later time.
      Rebuild is a page load, which closes the old model, and Rewind is SetTip followed by BuildModel. */
  datatype Event = Advanced(uuid: Uuid) | Broadcast(msg: Msg) | Applied | Rebuild | Rewind(branchPoint: Uuid)

  /** A message's uuid has reached the session before the message is broadcast, and sub-agent
      messages carry none. */
  predicate Enabled(p: Pair, e: Event) {
    match e
    case Broadcast(msg) => if msg.agentID == "" then msg.uuid == "" || msg.uuid in p.session.parents else msg.uuid == ""
    case Applied => p.pending != []
    case _ => true
  }

  function Next(p: Pair, e: Event): Pair {
    match e
    case Advanced(uuid) => p.(session := Advance(p.session, uuid))
    case Broadcast(msg) =>
      p.(log := p.log + [msg], pending := if |p.pending| < CHANNEL then p.pending + [msg] else p.pending)
    case Applied =>
      if p.pending == [] then p
      else p.(model := Link(p.model, p.pending[0]), shown := p.shown + [p.pending[0]], pending := p.pending[1..])
    case Rebuild => p.(model := p.session, shown := p.log, pending := [])
    case Rewind(branchPoint) =>
      var rewound := p.session.(tip := branchPoint);
      p.(session := rewound, model := rewound, shown := p.log, pending := [])
  }

  function Run(p: Pair, events: seq<Event>): Pair {
    if events == [] then p else Next(Run(p, events[..|events| - 1]), events[|events| - 1])
  }

  ghost predicate ValidRun(p: Pair, events: seq<Event>) {
    events == [] ||
    (ValidRun(p, events[..|events| - 1]) && Enabled(Run(p, events[..|events| - 1]), events[|events| - 1]))
  }

  /** Since the last rebuild over base, the session has linked `advanced` and the model, which
      links only uuids that arrive on messages, the smaller set `heard`. */
  ghost predicate Apart(p: Pair, base: Cursor, advanced: set<Uuid>, heard: set<Uuid>) {
    && Branch(p.session) == Branch(base) + advanced
    && p.session.parents.Keys == base.parents.Keys + advanced
    && advanced !! base.parents.Keys
    && Branch(p.model) == Branch(base) + heard
    && p.model.parents.Keys == base.parents.Keys + heard
    && heard <= advanced
    && Carried(p.log) <= p.session.parents.Keys
    && (forall u :: u in Carried(p.shown) && u in advanced ==> u in heard)
    && Carried(p.shown) + Carried(p.pending) <= Carried(p.log)
  }

  ghost predicate InStep(p: Pair) {
    exists base, advanced, heard :: Apart(p, base, advanced, heard)
  }

  lemma CarriedSnoc(log: seq<Msg>, msg: Msg)
    ensures Carried(log + [msg]) ==
            Carried(log) + if msg.uuid != "" && msg.agentID == "" then {msg.uuid} else {}
  {
  }

  lemma RebuildPutsInStep(p: Pair)
    requires p.model == p.session && p.shown == p.log && p.pending == [] && Carried(p.log) <= p.session.parents.Keys
    ensures InStep(p)
  {
    assert Apart(p, p.session, {}, {});
  }

  lemma AdvanceKeepsInStep(p: Pair, uuid: Uuid)
    requires InStep(p)
    ensures InStep(Next(p, Advanced(uuid)))
  {
    var base, advanced, heard :| Apart(p, base, advanced, heard);
    AdvanceAddsExactlyOne(p.session, uuid);
    var gained := if uuid == "" || uuid in p.session.parents then {} else {uuid};
    assert Apart(Next(p, Advanced(uuid)), base, advanced + gained, heard);
  }

  lemma BroadcastKeepsInStep(p: Pair, msg: Msg)
    requires InStep(p) && Enabled(p, Broadcast(msg))
    ensures InStep(Next(p, Broadcast(msg)))
  {
    var base, advanced, heard :| Apart(p, base, advanced, heard);
    CarriedSnoc(p.log, msg);
    CarriedSnoc(p.pending, msg);
    assert Apart(Next(p, Broadcast(msg)), base, advanced, heard);
  }

  lemma LinkKeepsApart(p: Pair, msg: Msg, base: Cursor, advanced: set<Uuid>, heard: set<Uuid>)
    requires Apart(p, base, advanced, heard)
    requires msg.uuid != "" && msg.agentID == "" ==> msg.uuid in Carried(p.log)
    ensures InStep(p.(model := Link(p.model, msg), shown := p.shown + [msg]))
  {
    var q := p.(model := Link(p.model, msg), shown := p.shown + [msg]);
    CarriedSnoc(p.shown, msg);
    AdvanceAddsExactlyOne(p.model, msg.uuid);
    if msg.agentID != "" || msg.uuid == "" || msg.uuid in p.model.parents {
      assert Apart(q, base, advanced, heard);
    } else {
      assert Apart(q, base, advanced, heard + {msg.uuid});
    }
  }

  lemma ApplyKeepsInStep(p: Pair)
    requires InStep(p) && Enabled(p, Applied)
    ensures InStep(Next(p, Applied))
  {
    var base, advanced, heard :| Apart(p, base, advanced, heard);
    var msg := p.pending[0];
    assert p.pending == [msg] + p.pending[1..];
    assert msg.uuid != "" && msg.agentID == "" ==> msg.uuid in Carried(p.pending);
    var rest := p.(pending := p.pending[1..]);
    assert Carried(rest.pending) <= Carried(p.pending);
    assert Apart(rest, base, advanced, heard);
    LinkKeepsApart(rest, msg, base, advanced, heard);
  }

  lemma NextKeepsInStep(p: Pair, e: Event)
    requires InStep(p) && Enabled(p, e)
    ensures InStep(Next(p, e))
  {
    match e {
      case Advanced(uuid) => AdvanceKeepsInStep(p, uuid);
      case Broadcast(msg) => BroadcastKeepsInStep(p, msg);
      case Applied => ApplyKeepsInStep(p);
      case _ => RebuildPutsInStep(Next(p, e));
    }
  }

  lemma {:induction false} RunKeepsInStep(p: Pair, events: seq<Event>)
    requires InStep(p) && ValidRun(p, events)
    ensures InStep(Run(p, events))
  {
    if events != [] {
      RunKeepsInStep(p, events[..|events| - 1]);
      NextKeepsInStep(Run(p, events[..|events| - 1]), events[|events| - 1]);
    }
  }

  /** From any BuildModel on, over every run with events waiting or dropped, rewinds and page loads: a
      uuid on a message the model has applied is active in the model exactly if it is active in the
      session. For a uuid that is only in the session's log the two differ exactly if the model
      has never linked it and does not reach it, which takes a waiting or dropped event. */
  lemma ModelAgreesWithSession(p: Pair, events: seq<Event>, u: Uuid)
    requires p.model == p.session && p.shown == p.log && p.pending == [] && Carried(p.log) <= p.session.parents.Keys
    requires ValidRun(p, events)
    ensures var q := Run(p, events);
            && (u in Carried(q.shown) ==> (u in Branch(q.model) <==> u in Branch(q.session)))
            && (u in Carried(q.log) ==>
                ((u in Branch(q.model) <==> u in Branch(q.session)) <==>
                 (u in q.model.parents || u in Branch(q.model))))
  {
    RebuildPutsInStep(p);
    RunKeepsInStep(p, events);
  }

  /** No broadcast of the run finds the channel full. */
  predicate NeverFull(p: Pair, events: seq<Event>) {
    events == [] ||
    (NeverFull(p, events[..|events| - 1])
     && (events[|events| - 1].Broadcast? ==> |Run(p, events[..|events| - 1]).pending| < CHANNEL))
  }

  /** Then the channel loses and reorders nothing: what the model has applied and what waits is the log. */
  lemma {:induction false} ChannelCarriesTheLog(p: Pair, events: seq<Event>)
    requires p.shown + p.pending == p.log && NeverFull(p, events)
    ensures var q := Run(p, events); q.shown + q.pending == q.log
  {
    if events != [] {
      var before, e := Run(p, events[..|events| - 1]), events[|events| - 1];
      ChannelCarriesTheLog(p, events[..|events| - 1]);
      match e {
        case Broadcast(msg) => assert before.shown + (before.pending + [msg]) == before.log + [msg];
        case Applied =>
          if before.pending != [] {
            assert before.shown + [before.pending[0]] + before.pending[1..] == before.shown + before.pending;
          }
        case _ =>
      }
    }
  }

  /** The order of advance and broadcast matters: a broadcast that comes first, on a uuid the
      session neither has linked nor reaches, leaves the message active in the model only. */
  lemma EarlyBroadcastDisagrees(p: Pair, msg: Msg)
    requires p.model == p.session && p.shown == p.log && p.pending == []
    requires msg.agentID == "" && msg.uuid != "" && msg.uuid !in p.session.parents && msg.uuid !in Branch(p.session)
    ensures var q := Next(Next(p, Broadcast(msg)), Applied);
            msg.uuid in Carried(q.shown) && msg.uuid in Branch(q.model) && msg.uuid !in Branch(q.session)
  {
    CarriedSnoc(p.shown, msg);
    AdvanceAddsExactlyOne(p.model, msg.uuid);
    assert Next(p, Broadcast(msg)).pending == [msg];
  }
}
