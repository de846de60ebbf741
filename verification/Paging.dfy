/** Message lists rendered a page at a time. The first page comes from the model's context and older pages
    from a context computed from the log, and together they show every tool result once. */
module Paging {
  import opened LineChain
  import opened Messages
  import opened SessionModel
  import opened Prelude
  import Session

  const PAGE_SIZE := 100

  /** A rendered message: a tool chip, perhaps with the result at an index nested in it, a tool result
      of its own, or anything else. */
  datatype Item = Chip(use: nat, nested: Option<nat>) | Result(idx: nat) | Plain(idx: nat)

  datatype Context = Context(toolResults: map<string, Msg>,
                             toolUseIndexes: map<string, nat>,
                             toolResultIndexes: map<string, nat>,
                             bgTaskResults: set<string>,
                             suppressedIDs: set<string>,
                             active: set<Uuid>)

  predicate IsActive(m: Msg, active: set<Uuid>) {
    m.uuid == "" || m.uuid in active
  }

  // ---- the two contexts ----

  /** The context of a log, in which dormant messages take no part. */
  function Precomputed(log: seq<Msg>, active: set<Uuid>): Context {
    if log == [] then Context(map[], map[], map[], {}, {}, active)
    else
      var rc, i, msg := Precomputed(log[..|log| - 1], active), |log| - 1, log[|log| - 1];
      var main := msg.toolUseID != "" && msg.agentID == "";
      if !IsActive(msg, active) then rc
      else if msg.kind == ToolUse then
        rc.(toolUseIndexes := if main then rc.toolUseIndexes[msg.toolUseID := i] else rc.toolUseIndexes,
            suppressedIDs := if SuppressesResult(msg.tool) then rc.suppressedIDs + {msg.toolUseID} else rc.suppressedIDs)
      else if msg.kind == ToolResult && main then
        rc.(toolResults := rc.toolResults[msg.toolUseID := msg],
            toolResultIndexes := rc.toolResultIndexes[msg.toolUseID := i],
            bgTaskResults := if msg.bgPath != "" then rc.bgTaskResults + {msg.toolUseID} else rc.bgTaskResults)
      else rc
  }

  method PrecomputeRenderContext(log: seq<Msg>, active: set<Uuid>) returns (rc: Context)
    ensures rc == Precomputed(log, active)
  {
    var toolResults: map<string, Msg> := map[];
    var toolUseIndexes: map<string, nat> := map[];
    var toolResultIndexes: map<string, nat> := map[];
    var bgTaskResults: set<string> := {};
    var suppressedIDs: set<string> := {};
    for i := 0 to |log|
      invariant Context(toolResults, toolUseIndexes, toolResultIndexes, bgTaskResults, suppressedIDs, active) ==
                Precomputed(log[..i], active)
    {
      assert log[..i + 1][..i] == log[..i];
      var msg := log[i];
      if msg.uuid != "" && msg.uuid !in active {
        continue;
      }
      if msg.kind == ToolUse && msg.toolUseID != "" && msg.agentID == "" {
        toolUseIndexes := toolUseIndexes[msg.toolUseID := i];
      }
      if msg.kind == ToolResult && msg.toolUseID != "" && msg.agentID == "" {
        toolResults := toolResults[msg.toolUseID := msg];
        toolResultIndexes := toolResultIndexes[msg.toolUseID := i];
        if msg.bgPath != "" {
          bgTaskResults := bgTaskResults + {msg.toolUseID};
        }
      }
      if msg.kind == ToolUse && SuppressesResult(msg.tool) {
        suppressedIDs := suppressedIDs + {msg.toolUseID};
      }
    }
    assert log[..|log|] == log;
    rc := Context(toolResults, toolUseIndexes, toolResultIndexes, bgTaskResults, suppressedIDs, active);
  }

  /** The context of a model, whose maps cover dormant messages too. */
  function FromModel(v: View, active: set<Uuid>): Context {
    Context(v.toolResults, v.toolUseIndexes, v.toolResultIndexes,
            (set id | id in v.bgTasks && v.bgTasks[id].outputPath != "" :: id),
            v.suppressedIDs, active)
  }

  // ---- rendering a slice ----

  predicate HasChip(tool: Tool) {
    !tool.TodoWrite? && !tool.TaskCreate? && !tool.TaskUpdate?
  }

  /** A question's chip has no slot for a result. */
  predicate HasResultSlot(tool: Tool) {
    HasChip(tool) && tool != AskUserQuestion
  }

  /** The result nested in the chip of a tool_use, if any. */
  function Nested(msg: Msg, start: nat, end: nat, rc: Context): Option<nat> {
    if && msg.toolUseID != "" && msg.toolUseID !in rc.bgTaskResults
       && msg.toolUseID in rc.toolResults && msg.toolUseID in rc.toolResultIndexes
       && start <= rc.toolResultIndexes[msg.toolUseID] < end
       && (msg.toolUseID !in rc.suppressedIDs || rc.toolResults[msg.toolUseID].images > 0)
       && (rc.toolResults[msg.toolUseID].images > 0 || !rc.toolResults[msg.toolUseID].blank)
       && HasResultSlot(msg.tool)
    then Some(rc.toolResultIndexes[msg.toolUseID]) else None
  }

  /** What message i of a slice renders as. Sub-agent messages are folded into their sections. */
  function RenderOne(log: seq<Msg>, start: nat, end: nat, rc: Context, i: nat): Option<Item>
    requires i < |log|
  {
    var msg := log[i];
    if !IsActive(msg, rc.active) || msg.agentID != "" then None
    else if msg.kind == ToolResult then
      if || (msg.toolUseID != "" && msg.toolUseID in rc.toolUseIndexes && start <= rc.toolUseIndexes[msg.toolUseID] < end)
         || (msg.toolUseID in rc.suppressedIDs && msg.images == 0)
         || msg.toolUseID in rc.bgTaskResults
      then None else Some(Result(i))
    else if msg.kind == PermissionRequest && msg.tool != AskUserQuestion && msg.toolUseID != "" then None
    else if msg.kind == ToolUse then
      if HasChip(msg.tool) then Some(Chip(i, Nested(msg, start, end, rc))) else None
    else Some(Plain(i))
  }

  function Rendered(log: seq<Msg>, start: nat, end: nat, rc: Context, i: nat): seq<Item>
    requires start <= i <= end <= |log|
    decreases i - start
  {
    if i == start then []
    else
      Rendered(log, start, end, rc, i - 1)
      + match RenderOne(log, start, end, rc, i - 1) case Some(item) => [item] case None => []
  }

  method RenderMessages(log: seq<Msg>, start: nat, end: nat, rc: Context) returns (items: seq<Item>)
    requires start <= end <= |log|
    ensures items == Rendered(log, start, end, rc, end)
  {
    items := [];
    for i := start to end
      invariant items == Rendered(log, start, end, rc, i)
    {
      var msg := log[i];
      if msg.uuid != "" && msg.uuid !in rc.active {
        continue;
      }
      if msg.agentID != "" {
        continue;
      }
      if msg.kind == ToolResult && msg.toolUseID != "" && msg.toolUseID in rc.toolUseIndexes {
        var useIdx := rc.toolUseIndexes[msg.toolUseID];
        if start <= useIdx < end {
          continue;
        }
      }
      if msg.kind == ToolResult && msg.toolUseID in rc.suppressedIDs && msg.images == 0 {
        continue;
      }
      if msg.kind == ToolResult && msg.toolUseID in rc.bgTaskResults {
        continue;
      }
      if msg.kind == PermissionRequest && msg.tool != AskUserQuestion && msg.toolUseID != "" {
        continue;
      }
      if msg.kind == ToolUse {
        if HasChip(msg.tool) {
          items := items + [Chip(i, Nested(msg, start, end, rc))];
        }
      } else if msg.kind == ToolResult {
        items := items + [Result(i)];
      } else {
        items := items + [Plain(i)];
      }
    }
  }

  /** The index a page's sentinel asks for next, or 0 when there is none. */
  function PageStart(end: nat): (start: nat)
    ensures start <= end && (end > 0 ==> start < end)
    ensures if end <= 100 then start == 0 else end - start == 100
  {
    if end > PAGE_SIZE then end - PAGE_SIZE else 0
  }

  /** The newest page, rendered from the model. */
  method RenderModelMessages(m: SessionModel) returns (sentinel: nat, items: seq<Item>)
    ensures sentinel == PageStart(|m.Messages|)
    ensures items == Rendered(m.Messages, sentinel, |m.Messages|, FromModel(m.Derived(), Branch(m.Chain())), |m.Messages|)
  {
    var active := Session.ActiveSet(m.LineParents, m.Tip);
    sentinel := 0;
    if |m.Messages| > PAGE_SIZE {
      sentinel := |m.Messages| - PAGE_SIZE;
    }
    items := RenderMessages(m.Messages, sentinel, |m.Messages|, FromModel(m.Derived(), active));
  }

  /** An older page. An index outside the log renders nothing. */
  method HandleMessagesBefore(s: Session.Session, log: seq<Msg>, idx: int) returns (sentinel: nat, items: seq<Item>)
    ensures idx <= 0 || idx > |log| ==> sentinel == 0 && items == []
    ensures 0 < idx <= |log| ==>
              && sentinel == PageStart(idx)
              && items == Rendered(log, sentinel, idx, Precomputed(log, Branch(s.Chain())), idx)
  {
    if idx <= 0 || idx > |log| {
      return 0, [];
    }
    var active := Session.ActiveSet(s.LineParents, s.Tip);
    var rc := PrecomputeRenderContext(log, active);
    sentinel := if idx - 100 > 0 then idx - 100 else 0;
    items := RenderMessages(log, sentinel, idx, rc);
  }

  // ---- what the contexts say about one tool ----

  predicate IsUse(m: Msg, id: string) {
    m.kind == ToolUse && m.toolUseID == id && m.agentID == ""
  }

  predicate IsResult(m: Msg, id: string) {
    m.kind == ToolResult && m.toolUseID == id && m.agentID == ""
  }

  /** A tool id belongs to one tool_use, in the main log or in a sub-agent, and to one main result, and a
      result is active exactly if its tool_use is. */
  ghost predicate Paired(log: seq<Msg>, active: set<Uuid>) {
    && (forall i, j :: 0 <= i < j < |log| && log[i].kind == ToolUse == log[j].kind && log[i].toolUseID == log[j].toolUseID
          ==> log[i].toolUseID == "")
    && (forall i, j, id :: 0 <= i < |log| && 0 <= j < |log| && IsResult(log[i], id) && IsResult(log[j], id)
          ==> i == j || id == "")
    && (forall i, j, id :: 0 <= i < |log| && 0 <= j < |log| && IsUse(log[i], id) && IsResult(log[j], id) && id != "" ==>
          (IsActive(log[i], active) <==> IsActive(log[j], active)))
    && (forall i :: 0 <= i < |log| && log[i].agentID != "" ==> log[i].uuid == "")
  }

  /** The tools whose results show only images. */
  predicate HidesResult(tool: Tool) {
    tool in {TodoWrite, TaskCreate, TaskUpdate, AskUserQuestion, Read, FileRead, Agent}
  }

  ghost predicate Suppressed(log: seq<Msg>, id: string) {
    exists i :: 0 <= i < |log| && log[i].kind == ToolUse && log[i].toolUseID == id && HidesResult(log[i].tool)
  }

  /** An active main-branch result with content that its tool does not hide. */
  ghost predicate Presentable(log: seq<Msg>, active: set<Uuid>, r: nat) {
    && r < |log| && IsResult(log[r], log[r].toolUseID) && log[r].toolUseID != "" && IsActive(log[r], active)
    && (log[r].images > 0 || !log[r].blank)
    && (log[r].images > 0 || !Suppressed(log, log[r].toolUseID))
  }

  /** Such a result that is not the launch of a background task. */
  ghost predicate Showable(log: seq<Msg>, active: set<Uuid>, r: nat) {
    Presentable(log, active, r) && log[r].bgPath == ""
  }

  /** The context is right about result r. */
  ghost predicate Knows(rc: Context, log: seq<Msg>, active: set<Uuid>, r: nat)
    requires r < |log|
  {
    var id := log[r].toolUseID;
    && rc.active == active
    && id in rc.toolResults && rc.toolResults[id] == log[r] && id in rc.toolResultIndexes && rc.toolResultIndexes[id] == r
    && (id in rc.toolUseIndexes ==> rc.toolUseIndexes[id] < |log| && IsUse(log[rc.toolUseIndexes[id]], id))
    && (forall u :: 0 <= u < |log| && IsUse(log[u], id) ==> id in rc.toolUseIndexes)
    && id !in rc.bgTaskResults
    && (id in rc.suppressedIDs <==> Suppressed(log, id))
    && (forall other :: other in rc.toolResultIndexes && rc.toolResultIndexes[other] == r ==> other == id)
  }

  /** What either context records under one id, for a log: the last use and result with the id, as long as
      the active ones are recorded. */
  ghost predicate Describes(rc: Context, log: seq<Msg>, active: set<Uuid>, id: string) {
    && rc.active == active
    && (id in rc.toolUseIndexes ==> rc.toolUseIndexes[id] < |log| && IsUse(log[rc.toolUseIndexes[id]], id))
    && (forall i :: 0 <= i < |log| && IsUse(log[i], id) && id != "" && IsActive(log[i], active) ==> id in rc.toolUseIndexes)
    && (id in rc.toolResultIndexes <==> id in rc.toolResults)
    && (id in rc.toolResultIndexes ==>
          var r := rc.toolResultIndexes[id]; r < |log| && IsResult(log[r], id) && rc.toolResults[id] == log[r])
    && (forall i :: 0 <= i < |log| && IsResult(log[i], id) && id != "" && IsActive(log[i], active)
          ==> id in rc.toolResultIndexes)
    && (id in rc.bgTaskResults ==> exists i :: 0 <= i < |log| && IsResult(log[i], id) && log[i].bgPath != "")
    && (id in rc.suppressedIDs ==> Suppressed(log, id))
    && (id != "" ==>
          forall i :: (0 <= i < |log| && log[i].kind == ToolUse && log[i].toolUseID == id && HidesResult(log[i].tool)
                       && IsActive(log[i], active)) ==> id in rc.suppressedIDs)
  }

  /** How recording one more message about id relates the contexts before and after. */
  ghost predicate Records(a: Context, b: Context, msg: Msg, at: nat, active: set<Uuid>, id: string) {
    && b.active == a.active
    && (id in b.toolUseIndexes ==> (IsUse(msg, id) && b.toolUseIndexes[id] == at)
                                   || (id in a.toolUseIndexes && b.toolUseIndexes[id] == a.toolUseIndexes[id]))
    && (id in a.toolUseIndexes || (IsUse(msg, id) && id != "" && IsActive(msg, active)) ==> id in b.toolUseIndexes)
    && (id in b.toolResultIndexes <==> id in b.toolResults)
    && (id in b.toolResultIndexes ==>
          || (IsResult(msg, id) && b.toolResultIndexes[id] == at && b.toolResults[id] == msg)
          || (id in a.toolResultIndexes && id in a.toolResults && b.toolResultIndexes[id] == a.toolResultIndexes[id]
              && b.toolResults[id] == a.toolResults[id]))
    && (id in a.toolResultIndexes || (IsResult(msg, id) && id != "" && IsActive(msg, active)) ==> id in b.toolResultIndexes)
    && (id in b.bgTaskResults ==> id in a.bgTaskResults || (IsResult(msg, id) && msg.bgPath != ""))
    && (id in b.suppressedIDs ==>
          id in a.suppressedIDs || (msg.kind == ToolUse && msg.toolUseID == id && HidesResult(msg.tool)))
    && (id in a.suppressedIDs
        || (msg.kind == ToolUse && msg.toolUseID == id && HidesResult(msg.tool) && id != "" && IsActive(msg, active))
        ==> id in b.suppressedIDs)
  }

  lemma RecordsKeepsDescribes(a: Context, b: Context, front: seq<Msg>, msg: Msg, active: set<Uuid>, id: string)
    requires Describes(a, front, active, id) && Records(a, b, msg, |front|, active, id)
    ensures Describes(b, front + [msg], active, id)
  {
    var log := front + [msg];
    assert forall i :: 0 <= i < |front| ==> log[i] == front[i];
    assert log[|front|] == msg;
    if Suppressed(front, id) {
      var i :| 0 <= i < |front| && front[i].kind == ToolUse && front[i].toolUseID == id && HidesResult(front[i].tool);
      assert log[i].kind == ToolUse && log[i].toolUseID == id && HidesResult(log[i].tool);
    }
    if i :| 0 <= i < |front| && IsResult(front[i], id) && front[i].bgPath != "" {
      assert IsResult(log[i], id) && log[i].bgPath != "";
    }
  }

  function ActiveUse(id: string, active: set<Uuid>): Msg -> bool {
    (m: Msg) => IsUse(m, id) && id != "" && IsActive(m, active)
  }

  function ActiveResult(id: string, active: set<Uuid>): Msg -> bool {
    (m: Msg) => IsResult(m, id) && id != "" && IsActive(m, active)
  }

  /** The pass over the log gives the last active main use and result of every tool id. */
  lemma {:induction false} PassIndexesTools(log: seq<Msg>, active: set<Uuid>, id: string)
    ensures var rc := Precomputed(log, active);
            && Indexes(rc.toolUseIndexes, id, log, ActiveUse(id, active))
            && Indexes(rc.toolResultIndexes, id, log, ActiveResult(id, active))
            && (id in rc.toolResults <==> id in rc.toolResultIndexes)
            && (id in rc.toolResults ==> rc.toolResults[id] == log[rc.toolResultIndexes[id]])
  {
    if log != [] {
      var front, msg := log[..|log| - 1], log[|log| - 1];
      var a, b := Precomputed(front, active), Precomputed(log, active);
      PassIndexesTools(front, active, id);
      assert log == front + [msg];
      var use, result := ActiveUse(id, active), ActiveResult(id, active);
      IndexesSnoc(a.toolUseIndexes, id, front, msg, use);
      IndexesSnoc(a.toolResultIndexes, id, front, msg, result);
    }
  }

  lemma {:induction false} PrecomputedDescribes(log: seq<Msg>, active: set<Uuid>, id: string)
    ensures Describes(Precomputed(log, active), log, active, id)
  {
    if log != [] {
      var front, msg := log[..|log| - 1], log[|log| - 1];
      PrecomputedDescribes(front, active, id);
      assert log == front + [msg];
      RecordsKeepsDescribes(Precomputed(front, active), Precomputed(log, active), front, msg, active, id);
    }
  }

  lemma ObserveRecords(v: View, msg: Msg, active: set<Uuid>, id: string)
    requires id in v.toolResultIndexes <==> id in v.toolResults
    ensures Records(FromModel(v, active), FromModel(Observe(v, msg), active), msg, |v.messages|, active, id)
  {
  }

  lemma {:induction false} ModelDescribes(alive: bool, log: seq<Msg>, active: set<Uuid>, id: string)
    ensures Describes(FromModel(Fold(EMPTY_VIEW.(processAlive := alive), log), active), log, active, id)
  {
    if log != [] {
      var front, msg := log[..|log| - 1], log[|log| - 1];
      var v := Fold(EMPTY_VIEW.(processAlive := alive), front);
      ModelDescribes(alive, front, active, id);
      FoldKeepsMessages(alive, front);
      assert log == front + [msg];
      ObserveRecords(v, msg, active, id);
      RecordsKeepsDescribes(FromModel(v, active), FromModel(Observe(v, msg), active), front, msg, active, id);
    }
  }

  /** In a log with paired ids, both contexts are right about every result that they do not take for a background task's. */
  lemma DescribedIsKnown(rc: Context, log: seq<Msg>, active: set<Uuid>, r: nat)
    requires Paired(log, active) && Presentable(log, active, r) && forall id :: Describes(rc, log, active, id)
    requires log[r].toolUseID !in rc.bgTaskResults
    ensures Knows(rc, log, active, r)
  {
    var id := log[r].toolUseID;
    assert Describes(rc, log, active, id);
    forall u | 0 <= u < |log| && IsUse(log[u], id)
      ensures id in rc.toolUseIndexes
    {
      assert IsActive(log[u], active);
    }
    if Suppressed(log, id) {
      var i :| 0 <= i < |log| && log[i].kind == ToolUse && log[i].toolUseID == id && HidesResult(log[i].tool);
      if log[i].agentID == "" {
        assert IsUse(log[i], id) && IsActive(log[i], active);
      }
    }
    forall other | other in rc.toolResultIndexes && rc.toolResultIndexes[other] == r
      ensures other == id
    {
      assert Describes(rc, log, active, other);
    }
  }

  lemma ForegroundIsNotBackground(rc: Context, log: seq<Msg>, active: set<Uuid>, r: nat)
    requires Paired(log, active) && Showable(log, active, r) && Describes(rc, log, active, log[r].toolUseID)
    ensures log[r].toolUseID !in rc.bgTaskResults
  {
  }

  // ---- what the pages list ----

  function IndexOf(item: Item): nat {
    match item
    case Chip(use, _) => use
    case Result(idx) => idx
    case Plain(idx) => idx
  }

  /** The message is neither dormant nor a sub-agent's. */
  predicate IsListed(m: Msg, active: set<Uuid>) {
    (m.uuid == "" || m.uuid in active) && m.agentID == ""
  }

  /** Every other kind of message, but for a permission prompt, which is shown in its tool's chip. */
  predicate IsOrdinary(m: Msg) {
    && m.kind != ToolUse && m.kind != ToolResult
    && !(m.kind == PermissionRequest && m.tool != AskUserQuestion && m.toolUseID != "")
  }

  /** A tool_use of any but the three list tools. */
  predicate IsChipped(m: Msg) {
    m.kind == ToolUse && m.tool !in {TodoWrite, TaskCreate, TaskUpdate}
  }

  /** The items list the messages from..to in the log's order, none of them twice: every ordinary one, every
      tool_use but those of the three list tools, and perhaps some results. */
  ghost predicate Lists(log: seq<Msg>, active: set<Uuid>, items: seq<Item>, from: nat, to: nat) {
    && from <= to <= |log|
    && (forall k :: 0 <= k < |items| ==> from <= IndexOf(items[k]) < to && IsListed(log[IndexOf(items[k])], active))
    && (forall j, k :: 0 <= j < k < |items| ==> IndexOf(items[j]) < IndexOf(items[k]))
    && (forall k :: 0 <= k < |items| && items[k].Result? ==> log[IndexOf(items[k])].kind == ToolResult)
    && (forall m :: from <= m < to ==> (Plain(m) in items <==> IsListed(log[m], active) && IsOrdinary(log[m])))
    && (forall m :: from <= m < to ==>
          (HasChipOf(items, m) <==> IsListed(log[m], active) && IsChipped(log[m])))
  }

  ghost predicate HasChipOf(items: seq<Item>, m: nat) {
    exists k :: 0 <= k < |items| && items[k].Chip? && items[k].use == m
  }

  lemma ListsNothing(log: seq<Msg>, active: set<Uuid>, from: nat)
    requires from <= |log|
    ensures Lists(log, active, [], from, from)
  {
  }

  /** The item, if any, is the one for message i. */
  predicate IsItemOf(log: seq<Msg>, active: set<Uuid>, i: nat, item: Option<Item>)
    requires i < |log|
  {
    match item
    case Some(Plain(m)) => m == i && IsListed(log[i], active) && IsOrdinary(log[i])
    case Some(Chip(use, _)) => use == i && IsListed(log[i], active) && IsChipped(log[i])
    case Some(Result(r)) => r == i && IsListed(log[i], active) && log[i].kind == ToolResult
    case None => !IsListed(log[i], active) || !(IsOrdinary(log[i]) || IsChipped(log[i]))
  }

  lemma RenderOneIsItem(log: seq<Msg>, start: nat, end: nat, rc: Context, i: nat)
    requires i < |log|
    ensures IsItemOf(log, rc.active, i, RenderOne(log, start, end, rc, i))
  {
  }

  lemma ListsOne(log: seq<Msg>, active: set<Uuid>, i: nat, item: Option<Item>)
    requires i < |log| && IsItemOf(log, active, i, item)
    ensures Lists(log, active, Present(item), i, i + 1)
  {
    match item {
      case None =>
      case Some(one) =>
        var items := [one];
        assert Present(item) == items;
        assert HasChipOf(items, i) <==> one.Chip? by {
          assert items[0] == one;
        }
    }
  }

  lemma ListsConcat(log: seq<Msg>, active: set<Uuid>, a: seq<Item>, b: seq<Item>, from: nat, mid: nat, to: nat)
    requires Lists(log, active, a, from, mid) && Lists(log, active, b, mid, to)
    ensures Lists(log, active, a + b, from, to)
  {
    forall m
      ensures HasChipOf(a + b, m) <==> HasChipOf(a, m) || HasChipOf(b, m)
    {
      if k :| 0 <= k < |a| && a[k].Chip? && a[k].use == m {
        assert (a + b)[k] == a[k];
      }
      if k :| 0 <= k < |b| && b[k].Chip? && b[k].use == m {
        assert (a + b)[|a| + k] == b[k];
      }
    }
    forall m | from <= m < to
      ensures mid <= m ==> Plain(m) !in a && !HasChipOf(a, m)
      ensures m < mid ==> Plain(m) !in b && !HasChipOf(b, m)
    {
    }
  }

  lemma {:induction false} RenderedLists(log: seq<Msg>, start: nat, end: nat, rc: Context, i: nat)
    requires start <= i <= end <= |log|
    ensures Lists(log, rc.active, Rendered(log, start, end, rc, i), start, i)
    decreases i - start
  {
    if i == start {
      ListsNothing(log, rc.active, start);
    } else {
      RenderedLists(log, start, end, rc, i - 1);
      RenderOneIsItem(log, start, end, rc, i - 1);
      var item := RenderOne(log, start, end, rc, i - 1);
      ListsOne(log, rc.active, i - 1, item);
      ListsConcat(log, rc.active, Rendered(log, start, end, rc, i - 1), Present(item), start, i - 1, i);
    }
  }

  /** The items of the pages before `end`, oldest page first. */
  ghost function ItemsBefore(log: seq<Msg>, active: set<Uuid>, end: nat): seq<Item>
    requires end <= |log|
  {
    if end == 0 then []
    else
      var start := PageStart(end);
      ItemsBefore(log, active, start) + Rendered(log, start, end, Precomputed(log, active), end)
  }

  /** The items of all pages, the newest rendered from the model's context. */
  ghost function AllItems(log: seq<Msg>, alive: bool, active: set<Uuid>): seq<Item> {
    var start, rc := PageStart(|log|), FromModel(Fold(EMPTY_VIEW.(processAlive := alive), log), active);
    ItemsBefore(log, active, start) + Rendered(log, start, |log|, rc, |log|)
  }

  lemma {:induction false} PrecomputedActive(log: seq<Msg>, active: set<Uuid>)
    ensures Precomputed(log, active).active == active
  {
    if log != [] {
      PrecomputedActive(log[..|log| - 1], active);
    }
  }

  lemma {:induction false} OlderPagesList(log: seq<Msg>, active: set<Uuid>, end: nat)
    requires end <= |log|
    ensures Lists(log, active, ItemsBefore(log, active, end), 0, end)
    decreases end
  {
    if end == 0 {
      ListsNothing(log, active, 0);
    } else {
      var start, rc := PageStart(end), Precomputed(log, active);
      OlderPagesList(log, active, start);
      PrecomputedActive(log, active);
      RenderedLists(log, start, end, rc, end);
      ListsConcat(log, active, ItemsBefore(log, active, start), Rendered(log, start, end, rc, end), 0, start, end);
    }
  }

  /** Paging lists the log. Over the newest page and the pages reached by following sentinels, the items are in
      the log's order, name active main-branch messages only and none twice, and every ordinary message and every
      tool chip is among them. */
  lemma PagesListTheLog(log: seq<Msg>, alive: bool, active: set<Uuid>)
    ensures Lists(log, active, AllItems(log, alive, active), 0, |log|)
  {
    var start, rc := PageStart(|log|), FromModel(Fold(EMPTY_VIEW.(processAlive := alive), log), active);
    OlderPagesList(log, active, start);
    RenderedLists(log, start, |log|, rc, |log|);
    ListsConcat(log, active, ItemsBefore(log, active, start), Rendered(log, start, |log|, rc, |log|), 0, start, |log|);
  }

  // ---- every page together ----

  predicate ShowsResult(item: Item, r: nat) {
    item == Result(r) || (item.Chip? && item.nested == Some(r))
  }

  /** How often result r is shown in a list of rendered messages. */
  function Times(items: seq<Item>, r: nat): nat {
    if items == [] then 0 else Times(items[..|items| - 1], r) + if ShowsResult(items[|items| - 1], r) then 1 else 0
  }

  lemma TimesSnoc(items: seq<Item>, item: Item, r: nat)
    ensures Times(items + [item], r) == Times(items, r) + if ShowsResult(item, r) then 1 else 0
  {
    assert (items + [item])[..|items|] == items;
  }

  ghost predicate ShownBy(log: seq<Msg>, start: nat, end: nat, rc: Context, r: nat, i: nat)
    requires i < |log|
  {
    var item := RenderOne(log, start, end, rc, i);
    item.Some? && ShowsResult(item.value, r)
  }

  lemma TimesStep(log: seq<Msg>, start: nat, end: nat, rc: Context, r: nat, i: nat)
    requires start < i <= end <= |log|
    ensures Times(Rendered(log, start, end, rc, i), r) ==
            Times(Rendered(log, start, end, rc, i - 1), r) + if ShownBy(log, start, end, rc, r, i - 1) then 1 else 0
  {
    var before, item := Rendered(log, start, end, rc, i - 1), RenderOne(log, start, end, rc, i - 1);
    if item.Some? {
      TimesSnoc(before, item.value, r);
    } else {
      assert Rendered(log, start, end, rc, i) == before;
    }
  }

  /** If only message w of the slice can show r, r is shown once or not at all. */
  lemma {:induction false} TimesOnlyAt(log: seq<Msg>, start: nat, end: nat, rc: Context, r: nat, w: nat, i: nat, shown: bool)
    requires start <= i <= end <= |log|
    requires forall k :: start <= k < end ==> (ShownBy(log, start, end, rc, r, k) <==> k == w && shown)
    ensures Times(Rendered(log, start, end, rc, i), r) == if start <= w < i && shown then 1 else 0
    decreases i - start
  {
    if i > start {
      TimesOnlyAt(log, start, end, rc, r, w, i - 1, shown);
      TimesStep(log, start, end, rc, r, i);
    }
  }

  /** r's tool_use, if it is in the slice. */
  ghost predicate UseIn(log: seq<Msg>, r: nat, start: nat, end: nat, u: nat)
    requires r < |log|
  {
    u < |log| && IsUse(log[u], log[r].toolUseID) && start <= u < end
  }

  /** With its tool_use on the same page, a result is nested in the chip, which needs a slot for it. */
  lemma PageWithUse(log: seq<Msg>, start: nat, end: nat, rc: Context, active: set<Uuid>, r: nat, u: nat)
    requires Paired(log, active) && Presentable(log, active, r) && Knows(rc, log, active, r)
    requires start <= r < end <= |log| && UseIn(log, r, start, end, u)
    ensures RenderOne(log, start, end, rc, r) == None
    ensures HasResultSlot(log[u].tool) ==> RenderOne(log, start, end, rc, u) == Some(Chip(u, Some(r)))
    ensures Times(Rendered(log, start, end, rc, end), r) == if HasResultSlot(log[u].tool) then 1 else 0
  {
    var id := log[r].toolUseID;
    assert IsActive(log[u], active);
    assert rc.toolUseIndexes[id] == u;
    TimesOnlyAt(log, start, end, rc, r, u, end, HasResultSlot(log[u].tool));
  }

  /** With its tool_use elsewhere or nowhere, a result is rendered by itself. */
  lemma PageWithoutUse(log: seq<Msg>, start: nat, end: nat, rc: Context, active: set<Uuid>, r: nat)
    requires Paired(log, active) && Presentable(log, active, r) && Knows(rc, log, active, r)
    requires start <= r < end <= |log| && forall u: nat :: !UseIn(log, r, start, end, u)
    ensures RenderOne(log, start, end, rc, r) == Some(Result(r))
    ensures Times(Rendered(log, start, end, rc, end), r) == 1
  {
    var id := log[r].toolUseID;
    if id in rc.toolUseIndexes {
      assert !UseIn(log, r, start, end, rc.toolUseIndexes[id]);
    }
    forall k: nat | start <= k < end
      ensures ShownBy(log, start, end, rc, r, k) <==> k == r
    {
      assert !UseIn(log, r, start, end, k);
    }
    TimesOnlyAt(log, start, end, rc, r, r, end, true);
  }

  /** No other page shows the result. */
  lemma PageWithoutResult(log: seq<Msg>, start: nat, end: nat, rc: Context, active: set<Uuid>, r: nat)
    requires Presentable(log, active, r) && Knows(rc, log, active, r)
    requires start <= end <= |log| && !(start <= r < end)
    ensures Times(Rendered(log, start, end, rc, end), r) == 0
  {
    TimesOnlyAt(log, start, end, rc, r, r, end, false);
  }

  /** How often the pages before `end` show r, each rendered from the log's context. */
  ghost function TimesBefore(log: seq<Msg>, active: set<Uuid>, end: nat, r: nat): nat
    requires end <= |log|
  {
    if end == 0 then 0
    else
      var start := PageStart(end);
      Times(Rendered(log, start, end, Precomputed(log, active), end), r) + TimesBefore(log, active, start, r)
  }

  /** How often all pages show r, the newest rendered from the model's context. */
  ghost function TimesInAll(log: seq<Msg>, alive: bool, active: set<Uuid>, r: nat): nat {
    var start := PageStart(|log|);
    var rc := FromModel(Fold(EMPTY_VIEW.(processAlive := alive), log), active);
    Times(Rendered(log, start, |log|, rc, |log|), r) + TimesBefore(log, active, start, r)
  }

  /** The end of the page that holds message r, following the sentinels down from `end`. */
  function PageEnd(end: nat, r: nat): (e: nat)
    requires r < end
    ensures PageStart(e) <= r < e <= end
  {
    if PageStart(end) <= r then end else PageEnd(PageStart(end), r)
  }

  /** The tools that are shown without a chip, or with a chip that has no place for a result. */
  predicate LacksSlot(tool: Tool) {
    tool in {TodoWrite, TaskCreate, TaskUpdate, AskUserQuestion}
  }

  /** The tool_use's chip is on the result's page and has no slot for it. */
  ghost predicate NoRoom(log: seq<Msg>, r: nat)
    requires r < |log|
  {
    var e := PageEnd(|log|, r);
    exists u: nat :: UseIn(log, r, PageStart(e), e, u) && LacksSlot(log[u].tool)
  }

  lemma OnePage(log: seq<Msg>, end: nat, rc: Context, active: set<Uuid>, r: nat)
    requires Paired(log, active) && Presentable(log, active, r) && Knows(rc, log, active, r)
    requires end <= |log| && PageStart(end) <= r < end && end == PageEnd(|log|, r)
    ensures Times(Rendered(log, PageStart(end), end, rc, end), r) == if NoRoom(log, r) then 0 else 1
  {
    if u: nat :| UseIn(log, r, PageStart(end), end, u) {
      PageWithUse(log, PageStart(end), end, rc, active, r, u);
      forall v: nat | UseIn(log, r, PageStart(end), end, v)
        ensures v == u
      {
      }
    } else {
      PageWithoutUse(log, PageStart(end), end, rc, active, r);
    }
  }

  lemma {:induction false} OlderPages(log: seq<Msg>, active: set<Uuid>, end: nat, r: nat)
    requires Paired(log, active) && Showable(log, active, r) && end <= |log|
    requires r < end ==> PageEnd(end, r) == PageEnd(|log|, r)
    ensures TimesBefore(log, active, end, r) == if r < end && !NoRoom(log, r) then 1 else 0
    decreases end
  {
    if end > 0 {
      var rc, start := Precomputed(log, active), PageStart(end);
      forall id
        ensures Describes(rc, log, active, id)
      {
        PrecomputedDescribes(log, active, id);
      }
      ForegroundIsNotBackground(rc, log, active, r);
      DescribedIsKnown(rc, log, active, r);
      if start <= r < end {
        OnePage(log, end, rc, active, r);
      } else {
        PageWithoutResult(log, start, end, rc, active, r);
      }
      OlderPages(log, active, start, r);
    }
  }

  lemma NoRoomTakesHiddenImage(log: seq<Msg>, active: set<Uuid>, r: nat)
    requires Showable(log, active, r)
    ensures NoRoom(log, r) ==> log[r].images > 0 && Suppressed(log, log[r].toolUseID)
  {
    var e := PageEnd(|log|, r);
    if u: nat :| UseIn(log, r, PageStart(e), e, u) && LacksSlot(log[u].tool) {
      assert log[u].kind == ToolUse && log[u].toolUseID == log[r].toolUseID && HidesResult(log[u].tool);
    }
  }

  /** Paging shows each result once. For every fixed log with paired ids, following the sentinels from the
      newest page shows every showable result exactly once, unless its tool_use's chip is on the same page
      without a slot, in which case it is never shown. That takes an image from a tool that hides its results. */
  lemma EachResultIsShownOnce(log: seq<Msg>, alive: bool, active: set<Uuid>, r: nat)
    requires Paired(log, active) && Showable(log, active, r)
    ensures TimesInAll(log, alive, active, r) == if NoRoom(log, r) then 0 else 1
    ensures NoRoom(log, r) ==> log[r].images > 0 && Suppressed(log, log[r].toolUseID)
  {
    NoRoomTakesHiddenImage(log, active, r);
    var rc, start := FromModel(Fold(EMPTY_VIEW.(processAlive := alive), log), active), PageStart(|log|);
    forall id
      ensures Describes(rc, log, active, id)
    {
      ModelDescribes(alive, log, active, id);
    }
    ForegroundIsNotBackground(rc, log, active, r);
    DescribedIsKnown(rc, log, active, r);
    if start <= r {
      OnePage(log, |log|, rc, active, r);
    } else {
      PageWithoutResult(log, start, |log|, rc, active, r);
    }
    OlderPages(log, active, start, r);
  }

  // ---- results that their tools hide ----

  /** An active main-branch result without images whose tool shows only images. */
  ghost predicate HiddenResult(log: seq<Msg>, active: set<Uuid>, r: nat) {
    && r < |log| && IsResult(log[r], log[r].toolUseID) && log[r].toolUseID != "" && IsActive(log[r], active)
    && log[r].images == 0 && Suppressed(log, log[r].toolUseID)
  }

  lemma PageHidesResult(log: seq<Msg>, start: nat, end: nat, rc: Context, active: set<Uuid>, r: nat)
    requires Paired(log, active) && HiddenResult(log, active, r) && start <= end <= |log|
    requires forall id :: Describes(rc, log, active, id)
    ensures Times(Rendered(log, start, end, rc, end), r) == 0
  {
    var id := log[r].toolUseID;
    assert Describes(rc, log, active, id);
    assert id in rc.suppressedIDs by {
      var i :| 0 <= i < |log| && log[i].kind == ToolUse && log[i].toolUseID == id && HidesResult(log[i].tool);
      assert log[i].agentID == "" ==> IsUse(log[i], id);
      assert IsActive(log[i], active);
    }
    forall k | start <= k < end
      ensures !ShownBy(log, start, end, rc, r, k)
    {
      assert Describes(rc, log, active, log[k].toolUseID);
      assert Nested(log[k], start, end, rc) != Some(r);
    }
    TimesOnlyAt(log, start, end, rc, r, r, end, false);
  }

  lemma {:induction false} OlderPagesHideResult(log: seq<Msg>, active: set<Uuid>, end: nat, r: nat)
    requires Paired(log, active) && HiddenResult(log, active, r) && end <= |log|
    ensures TimesBefore(log, active, end, r) == 0
    decreases end
  {
    if end > 0 {
      forall id
        ensures Describes(Precomputed(log, active), log, active, id)
      {
        PrecomputedDescribes(log, active, id);
      }
      PageHidesResult(log, PageStart(end), end, Precomputed(log, active), active, r);
      OlderPagesHideResult(log, active, PageStart(end), r);
    }
  }

  /** Such a result is shown on no page. */
  lemma HiddenResultIsNotShown(log: seq<Msg>, alive: bool, active: set<Uuid>, r: nat)
    requires Paired(log, active) && HiddenResult(log, active, r)
    ensures TimesInAll(log, alive, active, r) == 0
  {
    var rc, start := FromModel(Fold(EMPTY_VIEW.(processAlive := alive), log), active), PageStart(|log|);
    forall id
      ensures Describes(rc, log, active, id)
    {
      ModelDescribes(alive, log, active, id);
    }
    PageHidesResult(log, start, |log|, rc, active, r);
    OlderPagesHideResult(log, active, start, r);
  }

  // ---- the launch results of background tasks ----

  ghost predicate BackgroundResult(log: seq<Msg>, active: set<Uuid>, r: nat) {
    Presentable(log, active, r) && log[r].bgPath != ""
  }

  /** A new process has started since. */
  ghost predicate Forgotten(log: seq<Msg>, r: nat) {
    exists k :: r < k < |log| && log[k].kind == SessionStarted
  }

  lemma ForgottenSnoc(log: seq<Msg>, j: nat)
    requires j < |log| - 1
    ensures Forgotten(log, j) <==> Forgotten(log[..|log| - 1], j) || log[|log| - 1].kind == SessionStarted
  {
    var front := log[..|log| - 1];
    if k :| j < k < |front| && front[k].kind == SessionStarted {
      assert log[k].kind == SessionStarted;
    }
  }

  /** The model remembers a background task from its launch result until a process starts. */
  lemma {:induction false} ModelRemembers(alive: bool, log: seq<Msg>, id: string)
    requires id != ""
    ensures var tasks := Fold(EMPTY_VIEW.(processAlive := alive), log).bgTasks;
            && (id in tasks <==>
                exists j :: 0 <= j < |log| && IsResult(log[j], id) && log[j].bgPath != "" && !Forgotten(log, j))
            && (id in tasks ==> tasks[id].outputPath != "")
  {
    if log != [] {
      var n := |log| - 1;
      ModelRemembers(alive, log[..n], id);
      forall j | 0 <= j < n
        ensures Forgotten(log, j) <==> Forgotten(log[..n], j) || log[n].kind == SessionStarted
      {
        ForgottenSnoc(log, j);
      }
      if j :| 0 <= j < n && IsResult(log[..n][j], id) && log[..n][j].bgPath != "" && !Forgotten(log[..n], j) {
        assert IsResult(log[j], id);
      }
    }
  }

  /** The pass over the log remembers every one of the active branch. */
  lemma {:induction false} PassRemembers(log: seq<Msg>, active: set<Uuid>, id: string)
    ensures id in Precomputed(log, active).bgTaskResults <==>
            id != "" && exists j :: 0 <= j < |log| && IsResult(log[j], id) && log[j].bgPath != "" && IsActive(log[j], active)
  {
    if log != [] {
      var n := |log| - 1;
      PassRemembers(log[..n], active, id);
      if j :| 0 <= j < n && IsResult(log[..n][j], id) && log[..n][j].bgPath != "" && IsActive(log[..n][j], active) {
        assert IsResult(log[j], id);
      }
    }
  }

  /** A page whose context knows the background task shows its launch result nowhere. */
  lemma BackgroundIsHidden(log: seq<Msg>, start: nat, end: nat, rc: Context, active: set<Uuid>, r: nat)
    requires r < |log| && IsResult(log[r], log[r].toolUseID) && log[r].toolUseID in rc.bgTaskResults
    requires start <= end <= |log| && forall id :: Describes(rc, log, active, id)
    ensures Times(Rendered(log, start, end, rc, end), r) == 0
  {
    forall k | start <= k < end
      ensures !ShownBy(log, start, end, rc, r, k)
    {
      var id := log[k].toolUseID;
      assert Describes(rc, log, active, id);
      assert Nested(log[k], start, end, rc) != Some(r);
    }
    TimesOnlyAt(log, start, end, rc, r, r, end, false);
  }

  lemma {:induction false} OlderPagesHideBackground(log: seq<Msg>, active: set<Uuid>, end: nat, r: nat)
    requires BackgroundResult(log, active, r) && end <= |log|
    ensures TimesBefore(log, active, end, r) == 0
    decreases end
  {
    if end > 0 {
      forall id
        ensures Describes(Precomputed(log, active), log, active, id)
      {
        PrecomputedDescribes(log, active, id);
      }
      PassRemembers(log, active, log[r].toolUseID);
      BackgroundIsHidden(log, PageStart(end), end, Precomputed(log, active), active, r);
      OlderPagesHideBackground(log, active, PageStart(end), r);
    }
  }

  /** A background task's launch result is shown exactly if it is on the newest page, a process has started since,
      and its chip has room. There the model has forgotten it, which the pass over older pages never does. */
  lemma BackgroundResultIsShownIff(log: seq<Msg>, alive: bool, active: set<Uuid>, r: nat)
    requires Paired(log, active) && BackgroundResult(log, active, r)
    ensures TimesInAll(log, alive, active, r) ==
            if PageStart(|log|) <= r && Forgotten(log, r) && !NoRoom(log, r) then 1 else 0
  {
    var rc, start := FromModel(Fold(EMPTY_VIEW.(processAlive := alive), log), active), PageStart(|log|);
    forall id
      ensures Describes(rc, log, active, id)
    {
      ModelDescribes(alive, log, active, id);
    }
    ModelRemembers(alive, log, log[r].toolUseID);
    OlderPagesHideBackground(log, active, start, r);
    assert log[r].toolUseID in rc.bgTaskResults <==> !Forgotten(log, r);
    if !Forgotten(log, r) {
      BackgroundIsHidden(log, start, |log|, rc, active, r);
    } else {
      DescribedIsKnown(rc, log, active, r);
      if start <= r {
        OnePage(log, |log|, rc, active, r);
      } else {
        PageWithoutResult(log, start, |log|, rc, active, r);
      }
    }
  }
}
