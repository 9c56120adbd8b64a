/** The internal message, result and response types that every other module shares
    (internal/api/types.go).  Raw JSON fields appear as the values they decode to. */
module Api {

  datatype Option<+T> = None | Some(value: T)

  /** The result of one `generateID` call.  Distinct calls give distinct ids. */
  type Id = nat

  datatype Usage = Usage(inputTokens: int, outputTokens: int)

  datatype ToolCall = ToolCall(id: string, name: string, arguments: string)

  datatype ContentBlock =
    ContentBlock(kind: string, text: string, signature: string, data: string, encrypted: string)

  datatype Message =
    Message(role: string, content: seq<ContentBlock>, callId: string, name: string, toolCalls: seq<ToolCall>)

  datatype ProviderResult =
    ProviderResult(id: string, model: string, text: string, usage: Usage,
                   toolCalls: seq<ToolCall>, replayMessage: Option<Message>)

  datatype ToolCallDelta = ToolCallDelta(index: int, id: string, name: string, arguments: string)

  datatype Delta =
    Delta(id: string, model: string, text: string, done: bool, usage: Option<Usage>,
          tool: Option<ToolCallDelta>, replay: Option<Message>)

  datatype Status = Running | Complete

  datatype ContentPart = ContentPart(kind: string, text: string)

  datatype OutputItem =
    | MessageItem(id: Id, status: Status, content: seq<ContentPart>)
    | FunctionCallItem(id: Id, status: Status, callId: string, name: string, arguments: string)

  datatype ResponseError =
    | InvalidRequest(message: string)
    | ToolCallForbidden
    | UndeclaredTool(tool: string)
    | WrongTool(tool: string, required: string)
    | DisallowedTool(tool: string)
    | MissingToolCall
    | MissingRequiredTool(required: string)
    | ProviderFailed(message: string)
    | ProviderUnavailable

  datatype Response = Response(model: string, output: seq<OutputItem>, usage: Usage)

  const EMPTY_USAGE := Usage(0, 0)

  function TextBlock(text: string): ContentBlock {
    ContentBlock("output_text", text, "", "", "")
  }

  function TextPart(text: string): ContentPart {
    ContentPart("output_text", text)
  }

  /** The first of two strings that is set; the empty string means "not set". */
  function FirstSet(a: string, b: string): string {
    if a != "" then a else b
  }
}
