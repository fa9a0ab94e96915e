/** Messages of a conversation, as far as the agent loop looks into them. */
module Messages {
  import opened Wrappers

  datatype Role = User | Assistant

  /** A tool request names its tool, or carries the error its arguments failed to parse with. */
  datatype ToolCall = Call(tool: string) | Malformed

  /** What a response reports: the tool's output, arguments that could not be parsed, a call cut
      off while tools were running, or a call that a cancelled turn never started. */
  datatype Outcome = Output | BadArguments | Interrupted | NotExecuted

  datatype Content =
    | Text(text: string, audience: Option<set<Role>>)
    | Thinking(thinking: string, signature: string)
    | RedactedThinking(data: string)
    | ToolRequest(id: string, call: ToolCall, external: bool)
    | ToolResponse(answers: string, outcome: Outcome)
    | Error(kind: int)
    | Other(what: int, audience: Option<set<Role>>)

  datatype Message = Message(
    role: Role,
    id: Option<int>,
    content: seq<Content>,
    userVisible: bool,
    agentVisible: bool,
    hasInference: bool,
    limitReached: bool)

  predicate IsThinking(c: Content) {
    c.Thinking? || c.RedactedThinking?
  }

  predicate HasToolRequest(content: seq<Content>) {
    exists i :: 0 <= i < |content| && content[i].ToolRequest?
  }

  predicate HasToolResponse(content: seq<Content>) {
    exists i :: 0 <= i < |content| && content[i].ToolResponse?
  }

  predicate HasThinking(content: seq<Content>) {
    exists i :: 0 <= i < |content| && IsThinking(content[i])
  }
}
