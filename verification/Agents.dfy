/** Sub-agents: registration, background marking, and the one event that finalizes each of them. */
module Agents {

  datatype Stat = Stat(description: string, background: bool, completed: bool)

  /** The session's agent bookkeeping. */
  datatype Table = Table(depth: int, ids: set<string>, stats: map<string, Stat>)

  /** The stream events that concern agents. Inner events come from inside a sub-agent. */
  datatype Event =
    | AgentToolUse(id: string, background: bool)
    | TaskStarted(id: string, description: string)
    | InnerMessage(id: string, description: string)
    | ToolResult(id: string)
    | InnerToolResult(id: string)
    | Notification(id: string)

  datatype Out = SubagentStarted(id: string) | SubagentFinished(id: string) | TaskDone(id: string)

  function Start(t: Table, id: string, description: string): Table {
    if id in t.ids then
      if description != "" && id in t.stats && t.stats[id].description == ""
      then t.(stats := t.stats[id := t.stats[id].(description := description)]) else t
    else Table(t.depth + 1, t.ids + {id}, t.stats[id := Stat(description, false, false)])
  }

  function Finish(t: Table, id: string): Table {
    Table(if id in t.ids then t.depth - 1 else t.depth, t.ids - {id},
          if id in t.stats then t.stats[id := t.stats[id].(completed := true)] else t.stats)
  }

  function MarkBackground(t: Table, id: string): Table {
    if id in t.stats then t.(stats := t.stats[id := t.stats[id].(background := true)]) else t
  }

  function Next(t: Table, e: Event): Table {
    match e
    case AgentToolUse(id, background) =>
      if background then MarkBackground(Start(t, id, ""), id) else Start(t, id, "")
    case TaskStarted(id, description) => if id == "" then t else Start(t, id, description)
    case InnerMessage(id, description) => if id in t.stats then t else Start(t, id, description)
    case ToolResult(id) => if id in t.stats && !t.stats[id].background then Finish(t, id) else t
    case InnerToolResult(_) => t
    case Notification(id) => if id != "" && id in t.stats && t.stats[id].background then Finish(t, id) else t
  }

  function Outs(t: Table, e: Event): seq<Out> {
    match e
    case AgentToolUse(_, _) => []
    case TaskStarted(id, _) => if id == "" then [] else [SubagentStarted(id)]
    case InnerMessage(id, _) => if id in t.stats then [] else [SubagentStarted(id)]
    case ToolResult(id) =>
      if id in t.stats && !t.stats[id].background then [SubagentFinished(id), TaskDone(id)] else []
    case InnerToolResult(_) => []
    case Notification(id) =>
      if id == "" then []
      else if id !in t.stats then [TaskDone(id)]
      else if t.stats[id].background then [SubagentFinished(id), TaskDone(id)]
      else []
  }

  const NO_AGENTS := Table(0, {}, map[])

  class AgentTable {
    var AgentDepth: int
    var AgentToolIDs: set<string>
    var AgentStats: map<string, Stat>

    function Abstract(): Table
      reads this
    {
      Table(AgentDepth, AgentToolIDs, AgentStats)
    }

    constructor ()
      ensures Abstract() == NO_AGENTS
    {
      AgentDepth, AgentToolIDs, AgentStats := 0, {}, map[];
    }

    method StartAgent(id: string, description: string)
      modifies this
      ensures Abstract() == Start(old(Abstract()), id, description)
    {
      if id in AgentToolIDs {
        if description != "" && id in AgentStats && AgentStats[id].description == "" {
          AgentStats := AgentStats[id := AgentStats[id].(description := description)];
        }
        return;
      }
      AgentDepth := AgentDepth + 1;
      AgentToolIDs := AgentToolIDs + {id};
      AgentStats := AgentStats[id := Stat(description, false, false)];
    }

    method FinishAgent(id: string)
      modifies this
      ensures Abstract() == Finish(old(Abstract()), id)
    {
      if id in AgentToolIDs {
        AgentDepth := AgentDepth - 1;
        AgentToolIDs := AgentToolIDs - {id};
      }
      if id in AgentStats {
        AgentStats := AgentStats[id := AgentStats[id].(completed := true)];
      }
    }

    method MarkAgentBackground(id: string)
      modifies this
      ensures Abstract() == MarkBackground(old(Abstract()), id)
    {
      if id in AgentStats {
        AgentStats := AgentStats[id := AgentStats[id].(background := true)];
      }
    }

    /** The agent cases of handleStreamEvent. */
    method HandleStreamEvent(e: Event) returns (out: seq<Out>)
      modifies this
      ensures Abstract() == Next(old(Abstract()), e) && out == Outs(old(Abstract()), e)
    {
      out := [];
      match e {
        case AgentToolUse(id, background) =>
          StartAgent(id, "");
          if background {
            MarkAgentBackground(id);
          }
        case TaskStarted(id, description) =>
          if id != "" {
            StartAgent(id, description);
            out := [SubagentStarted(id)];
          }
        case InnerMessage(id, description) =>
          if id !in AgentStats {
            StartAgent(id, description);
            out := [SubagentStarted(id)];
          }
        case ToolResult(id) =>
          if id in AgentStats {
            if !AgentStats[id].background {
              FinishAgent(id);
              out := [SubagentFinished(id), TaskDone(id)];
            }
          }
        case InnerToolResult(_) =>
        case Notification(id) =>
          if id != "" {
            if id in AgentStats && AgentStats[id].background {
              FinishAgent(id);
              out := [SubagentFinished(id), TaskDone(id)];
            } else if id !in AgentStats {
              out := [TaskDone(id)];
            }
          }
      }
    }
  }

  // ---- whole streams ----

  function Run(events: seq<Event>): Table {
    if events == [] then NO_AGENTS else Next(Run(events[..|events| - 1]), events[|events| - 1])
  }

  /** How many subagent_finished broadcasts for a the first i events cause. */
  function Finishes(events: seq<Event>, i: nat, a: string): nat
    requires i <= |events|
  {
    if i == 0 then 0
    else Finishes(events, i - 1, a) + if SubagentFinished(a) in Outs(Run(events[..i - 1]), events[i - 1]) then 1 else 0
  }

  ghost predicate Counted(t: Table) {
    t.depth == |t.ids| && t.ids <= t.stats.Keys
  }

  lemma StartIsCounted(t: Table, id: string, description: string)
    requires Counted(t)
    ensures Counted(Start(t, id, description))
  {
  }

  lemma FinishIsCounted(t: Table, id: string)
    requires Counted(t)
    ensures Counted(Finish(t, id))
  {
  }

  /** The depth is the number of active agents, over every stream, and every active agent has a stat. */
  lemma {:induction false} DepthCountsActiveAgents(events: seq<Event>)
    ensures Counted(Run(events))
  {
    if events != [] {
      var t := Run(events[..|events| - 1]);
      DepthCountsActiveAgents(events[..|events| - 1]);
      match events[|events| - 1] {
        case AgentToolUse(id, _) => StartIsCounted(t, id, "");
        case TaskStarted(id, description) => StartIsCounted(t, id, description);
        case InnerMessage(id, description) => StartIsCounted(t, id, description);
        case ToolResult(id) => FinishIsCounted(t, id);
        case InnerToolResult(_) =>
        case Notification(id) => FinishIsCounted(t, id);
      }
    }
  }

  /** What the session knows of one agent. */
  datatype Knowledge = Unknown | Known(active: bool, background: bool)

  function About(t: Table, a: string): Knowledge {
    if a in t.stats then Known(a in t.ids, t.stats[a].background) else Unknown
  }

  /** How one of a's own events changes what is known of a. */
  function After(k: Knowledge, e: Event): Knowledge {
    match e
    case AgentToolUse(_, background) =>
      Known(true, background || (k.Known? && k.active && k.background))
    case TaskStarted(_, _) => if k.Known? && k.active then k else Known(true, false)
    case InnerMessage(_, _) => if k.Known? then k else Known(true, false)
    case ToolResult(_) => if k.Known? && !k.background then k.(active := false) else k
    case InnerToolResult(_) => k
    case Notification(_) => if k.Known? && k.background then k.(active := false) else k
  }

  function Finalizes(k: Knowledge, e: Event): bool {
    k.Known? && ((e.ToolResult? && !k.background) || (e.Notification? && k.background))
  }

  lemma TableAbout(t: Table, id: string, description: string, a: string)
    requires Counted(t)
    ensures About(Start(t, id, description), a) ==
            if a != id then About(t, a)
            else if a in t.ids then Known(true, t.stats[a].background) else Known(true, false)
    ensures About(Finish(t, id), a) == if a == id && a in t.stats then Known(false, t.stats[a].background) else About(t, a)
    ensures About(MarkBackground(t, id), a) == if a == id && a in t.stats then Known(a in t.ids, true) else About(t, a)
  {
  }

  lemma FinishIsOwn(t: Table, e: Event, a: string)
    requires a != ""
    ensures SubagentFinished(a) in Outs(t, e) <==> e.id == a && Finalizes(About(t, a), e)
  {
  }

  /** An event concerns only its own agent. */
  lemma OneAgentAtATime(t: Table, e: Event, a: string)
    requires Counted(t) && a != ""
    ensures About(Next(t, e), a) == if e.id == a then After(About(t, a), e) else About(t, a)
    ensures SubagentFinished(a) in Outs(t, e) <==> e.id == a && Finalizes(About(t, a), e)
  {
    FinishIsOwn(t, e, a);
    match e {
      case AgentToolUse(id, _) =>
        StartIsCounted(t, id, "");
        TableAbout(t, id, "", a);
        TableAbout(Start(t, id, ""), id, "", a);
      case TaskStarted(id, description) => TableAbout(t, id, description, a);
      case InnerMessage(id, description) => TableAbout(t, id, description, a);
      case ToolResult(id) => TableAbout(t, id, "", a);
      case InnerToolResult(_) =>
      case Notification(id) => TableAbout(t, id, "", a);
    }
  }

  /** One agent's life: its tool_use at u, its result at r and its notification at n, each once, and its
      task_started, if any, before both. Everything else may happen anywhere. */
  ghost predicate Lives(events: seq<Event>, a: string, background: bool, u: nat, r: nat, n: nat) {
    && a != "" && u < r < |events| && u < n < |events|
    && events[u] == AgentToolUse(a, background) && events[r] == ToolResult(a) && events[n] == Notification(a)
    && (forall i :: 0 <= i < |events| && events[i].id == a ==>
          match events[i]
          case AgentToolUse(_, _) => i == u
          case TaskStarted(_, _) => i < r && i < n
          case ToolResult(_) => i == r
          case Notification(_) => i == n
          case _ => true)
  }

  lemma RunStep(events: seq<Event>, a: string, i: nat)
    requires 0 < i <= |events| && a != ""
    ensures var k, e := About(Run(events[..i - 1]), a), events[i - 1];
            && About(Run(events[..i]), a) == (if e.id == a then After(k, e) else k)
            && Finishes(events, i, a) == Finishes(events, i - 1, a) + if e.id == a && Finalizes(k, e) then 1 else 0
  {
    assert events[..i][..i - 1] == events[..i - 1];
    DepthCountsActiveAgents(events[..i - 1]);
    OneAgentAtATime(Run(events[..i - 1]), events[i - 1], a);
  }

  /** What the session knows of such an agent after i events. */
  predicate KnownAt(i: nat, background: bool, u: nat, r: nat, n: nat, k: Knowledge) {
    if i <= u then k == Unknown || k == Known(true, false)
    else k == Known(i <= if background then n else r, background)
  }

  lemma LifeGoesOn(events: seq<Event>, a: string, background: bool, u: nat, r: nat, n: nat, i: nat, k: Knowledge)
    requires Lives(events, a, background, u, r, n) && i < |events| && KnownAt(i, background, u, r, n, k)
    ensures KnownAt(i + 1, background, u, r, n, if events[i].id == a then After(k, events[i]) else k)
    ensures events[i].id == a && Finalizes(k, events[i]) <==> i == if background then n else r
  {
  }

  /** What the session knows of agent a after i events of such a stream. */
  lemma {:induction false} LifeOfAnAgent(events: seq<Event>, a: string, background: bool, u: nat, r: nat, n: nat, i: nat)
    requires Lives(events, a, background, u, r, n) && i <= |events|
    ensures KnownAt(i, background, u, r, n, About(Run(events[..i]), a))
    ensures Finishes(events, i, a) == if (if background then n else r) < i then 1 else 0
  {
    if i > 0 {
      LifeOfAnAgent(events, a, background, u, r, n, i - 1);
      RunStep(events, a, i);
      LifeGoesOn(events, a, background, u, r, n, i - 1, About(Run(events[..i - 1]), a));
    }
  }

  /** Sub-agents finalize exactly once, over every interleaving: a foreground agent at its tool_result and a
      background agent at its notification, and at no other event. */
  lemma FinalizedExactlyOnce(events: seq<Event>, a: string, background: bool, u: nat, r: nat, n: nat, i: nat)
    requires Lives(events, a, background, u, r, n) && i < |events|
    ensures Finishes(events, |events|, a) == 1
    ensures SubagentFinished(a) in Outs(Run(events[..i]), events[i]) <==> i == if background then n else r
    ensures a !in Run(events).ids
  {
    LifeOfAnAgent(events, a, background, u, r, n, |events|);
    LifeOfAnAgent(events, a, background, u, r, n, i);
    DepthCountsActiveAgents(events[..i]);
    OneAgentAtATime(Run(events[..i]), events[i], a);
    assert events[..|events|] == events;
    DepthCountsActiveAgents(events);
  }

  // ---- when an agent finishes at all ----

  /** Some earlier event has registered a: its tool_use, its task_started, or a message from inside it. */
  ghost predicate Registered(events: seq<Event>, i: nat, a: string)
    requires i <= |events|
  {
    exists k :: 0 <= k < i && events[k].id == a && (events[k].AgentToolUse? || events[k].TaskStarted? || events[k].InnerMessage?)
  }

  /** Some earlier tool_use has launched a in the background. */
  ghost predicate Launched(events: seq<Event>, i: nat, a: string)
    requires i <= |events|
  {
    exists k :: 0 <= k < i && events[k] == AgentToolUse(a, true)
  }

  /** The top-level result of a registered agent that was not launched in the background, or the notification of
      one that was. */
  ghost predicate Ends(events: seq<Event>, k: nat, a: string)
    requires k < |events|
  {
    || (events[k] == ToolResult(a) && Registered(events, k, a) && !Launched(events, k, a))
    || (events[k] == Notification(a) && Launched(events, k, a))
  }

  ghost predicate Ended(events: seq<Event>, i: nat, a: string)
    requires i <= |events|
  {
    exists k :: 0 <= k < i && Ends(events, k, a)
  }

  lemma PastGrows(events: seq<Event>, i: nat, a: string)
    requires 0 < i <= |events|
    ensures var e := events[i - 1];
            && (Registered(events, i, a) <==>
                (Registered(events, i - 1, a) || (e.id == a && (e.AgentToolUse? || e.TaskStarted? || e.InnerMessage?))))
            && (Launched(events, i, a) <==> Launched(events, i - 1, a) || e == AgentToolUse(a, true))
            && (Ended(events, i, a) <==> Ended(events, i - 1, a) || Ends(events, i - 1, a))
  {
  }

  /** An agent finishes exactly if an event ends it. Until then it is active from its registration on, and known to
      be in the background exactly if it was launched there. */
  lemma {:induction false} FinishesIffEnded(events: seq<Event>, a: string, i: nat)
    requires i <= |events| && a != ""
    ensures Finishes(events, i, a) > 0 <==> Ended(events, i, a)
    ensures !Ended(events, i, a) ==>
              About(Run(events[..i]), a) == if Registered(events, i, a) then Known(true, Launched(events, i, a)) else Unknown
  {
    if i > 0 {
      FinishesIffEnded(events, a, i - 1);
      RunStep(events, a, i);
      PastGrows(events, i, a);
      LaunchRegisters(events, i - 1, a);
    }
  }

  lemma LaunchRegisters(events: seq<Event>, i: nat, a: string)
    requires i <= |events|
    ensures Launched(events, i, a) ==> Registered(events, i, a)
  {
  }

  /** An agent started inside another agent has no tool_use and no result at top level, so no event ends it. It is
      never finalized, and stays active from its registration on. */
  lemma NestedAgentNeverFinishes(events: seq<Event>, a: string, i: nat)
    requires i <= |events| && a != ""
    requires forall k :: 0 <= k < |events| && events[k].id == a ==> !events[k].AgentToolUse? && !events[k].ToolResult?
    ensures Finishes(events, i, a) == 0
    ensures About(Run(events[..i]), a) == if Registered(events, i, a) then Known(true, false) else Unknown
  {
    FinishesIffEnded(events, a, i);
  }

  // ---- what is broadcast, and what the statistics say ----

  /** Until it ends, an agent's broadcasts are these: a start at every task_started and at the first message from
      inside if nothing has registered it before, a finish and a task_done where it ends, and a task_done alone at
      the notification of an id that was never registered, such as that of a background command. */
  lemma BroadcastsOf(events: seq<Event>, i: nat, a: string)
    requires i < |events| && events[i].id == a && a != "" && !Ended(events, i, a)
    ensures Outs(Run(events[..i]), events[i]) ==
            if Ends(events, i, a) then [SubagentFinished(a), TaskDone(a)]
            else if events[i].TaskStarted? || (events[i].InnerMessage? && !Registered(events, i, a)) then [SubagentStarted(a)]
            else if events[i].Notification? && !Registered(events, i, a) then [TaskDone(a)]
            else []
  {
    FinishesIffEnded(events, a, i);
    LaunchRegisters(events, i, a);
  }

  /** A known agent is completed exactly if it is no longer active. */
  lemma {:induction false} CompletedIffInactive(events: seq<Event>, a: string)
    ensures var t := Run(events);
            (a in t.ids ==> a in t.stats) && (a in t.stats ==> (t.stats[a].completed <==> a !in t.ids))
  {
    if events != [] {
      CompletedIffInactive(events[..|events| - 1], a);
      CompletedIffInactive(events[..|events| - 1], events[|events| - 1].id);
    }
  }

  /** Event k describes agent a: its task_started does, and a message from inside that registers it. */
  ghost predicate Describes(events: seq<Event>, k: nat, a: string)
    requires k < |events|
  {
    || (events[k].TaskStarted? && events[k].id == a && events[k].description != "")
    || (events[k].InnerMessage? && events[k].id == a && events[k].description != "" && !Registered(events, k, a))
  }

  ghost predicate FirstDescribes(events: seq<Event>, k: nat, a: string)
    requires k < |events|
  {
    Describes(events, k, a) && forall j :: 0 <= j < k ==> !Describes(events, j, a)
  }

  /** The description of an agent, "" if it is not known. */
  function DescriptionOf(t: Table, a: string): string {
    if a in t.stats then t.stats[a].description else ""
  }

  lemma DescriptionStep(t: Table, e: Event, a: string)
    requires a != "" && (a in t.stats ==> a in t.ids) && (a in t.ids ==> a in t.stats)
    ensures DescriptionOf(Next(t, e), a) ==
            if DescriptionOf(t, a) != "" || e.id != a then DescriptionOf(t, a)
            else if e.TaskStarted? || (e.InnerMessage? && a !in t.stats) then e.description
            else ""
  {
  }

  /** What the first i events say of a's description is d. */
  ghost predicate FirstDescription(events: seq<Event>, i: nat, a: string, d: string)
    requires i <= |events|
  {
    if d == "" then forall k :: 0 <= k < i ==> !Describes(events, k, a)
    else exists k :: 0 <= k < i && FirstDescribes(events, k, a) && events[k].description == d
  }

  lemma DescriptionGrows(events: seq<Event>, i: nat, a: string, d: string)
    requires 0 < i <= |events| && FirstDescription(events, i - 1, a, d)
    ensures FirstDescription(events, i, a, if d == "" && Describes(events, i - 1, a) then events[i - 1].description else d)
  {
    if d == "" && Describes(events, i - 1, a) {
      assert FirstDescribes(events, i - 1, a);
    }
  }

  /** Until it ends, an agent's description is the first that an event gives, and empty before. */
  lemma {:induction false} FirstDescriptionStays(events: seq<Event>, i: nat, a: string)
    requires i <= |events| && a != "" && !Ended(events, i, a)
    ensures FirstDescription(events, i, a, DescriptionOf(Run(events[..i]), a))
  {
    if i > 0 {
      var t := Run(events[..i - 1]);
      assert events[..i][..i - 1] == events[..i - 1];
      PastGrows(events, i, a);
      FirstDescriptionStays(events, i - 1, a);
      FinishesIffEnded(events, a, i - 1);
      LaunchRegisters(events, i - 1, a);
      CompletedIffInactive(events[..i - 1], a);
      DescriptionStep(t, events[i - 1], a);
      DescriptionGrows(events, i, a, DescriptionOf(t, a));
    }
  }
}
