/** The run input an agent receives: the conversation history and the
    identities of the thread and of this run. */
module Messages {
  import opened Wrappers

  datatype Role = User | Assistant | System | Tool

  /** An assistant's recorded tool invocation: `id`, `function.name` and the
      JSON text `function.arguments`. */
  datatype ToolCall = ToolCall(id: string, name: string, arguments: string)

  /** One history entry. `content` is absent for a message without text; an
      absent `toolCalls` is the empty sequence; `toolCallId` is set on tool
      messages only. */
  datatype Message = Message(
    role: Role,
    content: Option<string>,
    toolCalls: seq<ToolCall>,
    toolCallId: Option<string>)

  /** The validated request body, with canonical field names. */
  datatype RunInput = RunInput(threadId: string, runId: string, messages: seq<Message>)
}
