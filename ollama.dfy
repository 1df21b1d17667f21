/** The backend-side (Ollama chat API) shapes the shim reads and writes. */
module Ollama {
  import opened Wrappers
  import opened Json

  /**
   * The `function` object of a returned tool call. `otherKeys` records whether it holds keys
   * besides `name` and `arguments`: such an object is non-empty, hence truthy, even without them.
   */
  datatype FunctionCall = FunctionCall(name: Option<string>, arguments: Option<Json>, otherKeys: bool) {
    /** Python truthiness of the dictionary. */
    predicate NonEmpty() {
      name.Some? || arguments.Some? || otherKeys
    }
  }

  datatype ToolCall = ToolCall(func: Option<FunctionCall>)

  /** `if function:` with `function = tool_call.get("function", {})`. */
  predicate HasFunction(call: ToolCall) {
    call.func.Some? && call.func.value.NonEmpty()
  }

  /** A returned (possibly partial) assistant message. */
  datatype ChatMessage = ChatMessage(content: Option<string>, thinking: Option<string>, toolCalls: Option<seq<ToolCall>>)

  /** A complete non-streaming reply. */
  datatype ChatResponse = ChatResponse(message: Option<ChatMessage>)

  /** One decoded line of a streamed reply. */
  datatype Chunk = Chunk(message: Option<ChatMessage>, done: Option<bool>)

  /** A tool declaration as the backend expects it: `{"type": kind, "function": {...}}`. */
  datatype FunctionDecl = FunctionDecl(name: string, description: string, parameters: Json)
  datatype Tool = Tool(kind: string, func: FunctionDecl)

  /** A tool call echoed back to the backend in an assistant message. */
  datatype CallFunction = CallFunction(name: string, arguments: Json)
  datatype OutToolCall = OutToolCall(kind: string, func: CallFunction)

  /** A backend message; `content` and `toolCalls` are keys that may be left out. */
  datatype OllamaMessage = OllamaMessage(role: string, content: Option<string>, toolCalls: Option<seq<OutToolCall>>)

  datatype Options = Options(numPredict: Json, temperature: Json, topP: Option<Json>)

  /** The body posted to /api/chat; `tools` is a key that may be left out. */
  datatype ChatRequest = ChatRequest(
    model: string,
    messages: seq<OllamaMessage>,
    options: Options,
    stream: bool,
    tools: Option<seq<Tool>>)
}
