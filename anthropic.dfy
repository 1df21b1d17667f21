/**
 * The client-side (Anthropic Messages API) shapes the shim reads and writes. A dictionary the
 * shim reads becomes a record holding only the keys it looks up; `None` stands for a key that is
 * absent (or, where the shim treats them alike, null).
 */
module Anthropic {
  import opened Wrappers
  import opened Json

  /** A message's `content`: a string, a list of blocks, or any other JSON value. */
  datatype Content =
    | Text(s: string)
    | Blocks(items: seq<Item>)
    | Other(value: Json)  // neither a string nor a list

  /** One element of a content list; only dictionaries are blocks. */
  datatype Item = Dict(block: Block) | NotDict(value: Json)

  /** A content block, through the keys the shim reads: type, text, name, input, content. */
  datatype Block = Block(
    kind: Option<string>,
    text: Option<string>,
    name: Option<string>,
    input: Option<Json>,
    content: Option<Content>)

  datatype Message = Message(role: Option<string>, content: Option<Content>)

  /** A tool declaration: name, description and the JSON schema of its input. */
  datatype ToolDef = ToolDef(name: Option<string>, description: Option<string>, inputSchema: Option<Json>)

  /** The body of a POST to /v1/messages. */
  datatype RequestBody = RequestBody(
    model: Option<string>,
    messages: Option<seq<Message>>,
    maxTokens: Option<Json>,
    temperature: Option<Json>,
    topP: Option<Json>,
    tools: Option<seq<ToolDef>>,
    stream: Option<bool>)

  /** The error body a failed request is answered with, and its HTTP status. */
  datatype ErrorBody = ErrorBody(status: nat, errorType: string, message: string)

  const END_TURN := "end_turn"
  const TOOL_USE := "tool_use"

  /** A block of a non-streaming response. */
  datatype ResponseBlock = TextBlock(text: string) | ToolUseBlock(id: string, name: string, input: Json)

  datatype Usage = Usage(inputTokens: nat, outputTokens: nat)

  /** A complete non-streaming response. */
  datatype MessageResponse = MessageResponse(
    id: string,
    kind: string,
    model: string,
    role: string,
    content: seq<ResponseBlock>,
    stopReason: string,
    stopSequence: Option<string>,
    usage: Usage)

  /** The block a `content_block_start` event opens (its initial text or input is empty). */
  datatype StartBlock = TextStart | ToolUseStart(id: string, name: string)

  datatype Delta = TextDelta(text: string) | InputJsonDelta(partialJson: string)

  /** One server-sent event of a streamed response. */
  datatype Event =
    | Error(message: string)
    | MessageStart(id: string, model: string)
    | ContentBlockStart(index: nat, block: StartBlock)
    | ContentBlockDelta(index: nat, delta: Delta)
    | ContentBlockStop(index: nat)
    | MessageDelta(stopReason: string)
    | MessageStop
}
