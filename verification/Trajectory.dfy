// The normalized row of an exported trajectory.
module Trajectory {
  import opened Basics

  datatype Role = User | Assistant | ToolRole | System

  datatype Kind =
    | ReasoningSummary
    | UserPrompt
    | ToolResult
    | SystemText
    | AssistantToolCall
    | AssistantFinal
    | AssistantMessage

  datatype Call = Call(id: string, name: string, arguments: string)

  datatype Message = Message(
    role: Role,
    kind: Kind,
    content: string,
    title: Option<string>,
    name: Option<string>,
    link: Option<string>,      // tool_call_id
    calls: seq<Call>)

  predicate IsCallAt(messages: seq<Message>, i: int, j: int) {
    0 <= i < |messages| && 0 <= j < |messages[i].calls|
  }

  predicate IsTool(messages: seq<Message>, i: int) {
    0 <= i < |messages| && messages[i].role == ToolRole
  }
}
