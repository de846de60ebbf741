/** The messages in a session's log, reduced to what the modelled code reads. */
module Messages {
  import opened LineChain

  datatype Kind =
    | UserMessage | Text | Thinking | ToolUse | ToolResult | TaskDone
    | Running | Done | SessionStarted | SessionEnded | PermissionRequest | Other

  datatype Tool =
    | TodoWrite | TaskCreate | TaskUpdate | AskUserQuestion | Read | FileRead | Agent | Bash
    | OtherTool(name: string)

  /** bgPath is what ParseBgTaskPath finds in a tool result's output, blank says whether the
      output is only white space, and images counts the attached images. */
  datatype Msg = Msg(kind: Kind, uuid: Uuid, agentID: string, toolUseID: string, tool: Tool,
                     images: nat, bgPath: string, blank: bool)

  /** The uuids that main-branch messages carry. */
  function Carried(log: seq<Msg>): set<Uuid> {
    set m | m in log && m.uuid != "" && m.agentID == "" :: m.uuid
  }

  /** Tools whose results are hidden unless they carry images. */
  predicate SuppressesResult(tool: Tool) {
    !tool.Bash? && !tool.OtherTool?
  }
}
