/** The provider-independent types of src/llm/types.rs and the errors of src/llm/error.rs. */
module LlmTypes {
  import opened Wrappers
  import opened Json

  datatype ContentBlock =
    | Text(text: string)
    | Thinking(thinking: string)
    | ToolUse(id: string, name: string, input: Json)

  datatype UserContent =
    | UserText(text: string)
    | ToolResult(toolUseId: string, content: string, isError: bool)
    | Image(mediaType: string, data: string)

  datatype Message =
    | System(prompt: string)
    | User(items: seq<UserContent>)
    | Assistant(blocks: seq<ContentBlock>)

  datatype StopReason = EndTurn | ToolUseStop | MaxTokens | Other(reason: string)

  datatype Usage = Usage(inputTokens: U32, outputTokens: U32)

  datatype CompletionResponse = CompletionResponse(content: seq<ContentBlock>, stopReason: StopReason, usage: Usage)

  datatype ToolDefinition = ToolDefinition(name: string, description: string, inputSchema: Json)

  datatype CompletionRequest = CompletionRequest(
    model: string,
    system: string,
    messages: seq<Message>,
    tools: seq<ToolDefinition>,
    maxTokens: U32,
    temperature: Option<U64>)

  datatype StreamEvent =
    | TextDelta(text: string)
    | ThinkingDelta(thought: string)
    | ToolInputDelta(toolUseId: string, json: string)
    | ToolStart(startedId: string, name: string)
    | Done

  datatype LlmError =
    | Http(message: string)
    | Api(status: nat, body: string)
    | RateLimited(retryAfterSecs: Option<nat>)
    | StreamError(what: string)

  /** `parse_finish_reason`. */
  function ParseFinishReason(reason: string): StopReason {
    if reason == "stop" then EndTurn
    else if reason == "length" then MaxTokens
    else if reason == "tool_calls" then ToolUseStop
    else Other(reason)
  }
}
