# ollama-anthropic-shim, modelled in Dafny

The shim is a small HTTP service in `src/server.py`. It takes requests in the Anthropic Messages
API shape and translates them for a local Ollama chat backend. It then translates the backend's
answer back, either as one JSON response or as a stream of server-sent events. This project
models the translation logic of that file and proves what a client can rely on:

- **Content helpers** (`ContentHelpers`): `truncate_text`, and `extract_text_from_content` with
  its loop over a content list.
- **Request side**:
  - `Tools` covers `transform_tools_to_ollama`.
  - `Messages` covers `transform_messages_to_ollama`, both its outer loop over messages and its
    inner loop over a content list.
  - `Request` covers the request assembly inside `create_message`: parameter defaults, the
    optional `top_p` and `tools` keys, and the 500 answer when translation raises.
- **Non-streaming response** (`Response`): `build_anthropic_response`, with its loop over the
  returned tool calls.
- **Stream re-encoder** (`Stream`): the loop of `stream_ollama_response` as a method over the
  upstream status and the decoded body lines. Its locals are `full_content`, `full_thinking`,
  `accumulated_tool_calls`, `text_block_started` and `current_block_index`. The method is proved
  equal to a fold (`Run`) over the lines.
- **Stream properties** (`StreamProofs`): the event order, checked by a recogniser `Scan` of the
  protocol's phases. Also the text of block 0, the tool-use blocks, and the agreement between a
  completed stream and the non-streaming response built from the same reply.
- **SSE frames** (`Sse`): `send_sse_event` and the payload of every event kind. Frames and
  payloads are proved to read back to what was sent.

JSON values are the `Json` datatype. `json.dumps` and Python's `str()` of a non-string are the
two uninterpreted functions of a `Codec` record, passed as a parameter. The uuid4 hex strings are
a parameter `hex: nat -> string`:

- draw 0 names the message (`msg_…`);
- draw k + 1 names the k-th tool-use block (`toolu_…`).

A dictionary the shim reads is a record of `Option` fields. `None` stands for an absent key, or
a null value where the shim treats the two alike. Every `.get(key, default)` is a `GetOr(default)`.

Where a client of the Anthropic API might expect otherwise, the model follows the code:

- No check matches a `tool_result` to an earlier `tool_use`. `Messages.MessagesSucceedIff`
  proves that translation fails only on a content-list element that is not a dictionary.
- `temperature` defaults to 0.2. It is never left out of the options.
- Content deltas are streamed as they arrive, but only when non-empty. The thinking is not
  streamed: when no content arrived at all, the whole thinking text goes out at `done` as a
  single delta of block 0 (`StreamProofs.ThinkingAsOneDelta`).
- Tool-use blocks are streamed only when the `done` chunk arrives, and each input goes out as one
  `input_json_delta`. A stream that ends without `done` sends no closing events
  (`StreamProofs.StreamTruncated`).
- `stop_reason` is `tool_use` exactly when the backend's `tool_calls` list is non-empty. It does
  not depend on whether a tool-use block was produced. `Response.StopReasonWithoutToolUseBlock`
  exhibits a response with stop reason `tool_use` and no tool-use block.

The thinking fallback of the `done` branch has a branch that can never run
(`src/server.py:459-465`). Any non-empty thinking piece has already opened block 0, so the
fallback never opens the block itself. `StreamProofs.TextEventsShape` states this in its
contract.

## Model

| member | source | states |
|---|---|---|
| ContentHelpers.TruncateText | src/server.py:68-72 | The limit defaults to 200. Text no longer than the limit comes back unchanged. Longer text becomes its first `maxLength` characters followed by the marker "...[truncated]", so its length is the limit plus the marker's length. |
| ContentHelpers.ExtractTextFromContent | src/server.py:75-95 | The loop returns `ExtractText`. A string comes back unchanged. A list gives the texts of its `type == "text"` dictionaries joined by "\n". Any other value gives "". |
| ContentHelpers.TextPartsExact | src/server.py:88-93 | There is one part per text dictionary of the list, in list order. The block with k text blocks before it gives part k, its `text` (default ""). Every part comes from such a block. |
| ContentHelpers.ExtractTextSplits | src/server.py:88-93 | The list case loses nothing. When there is at least one text block and none holds a newline, splitting the extracted text at "\n" gives back exactly the blocks' texts. |
| Tools.TransformToolsToOllama | src/server.py:127-140 | The output has the input's length. Entry i is the backend tool for declaration i. |
| Tools.ToolsEnvelope | src/server.py:129-138 | Every backend tool has kind "function". It carries its declaration's name, description and `input_schema` as `parameters`, with defaults "", "" and {}. |
| Tools.ToolRoundTrip | src/server.py:130-137 | A declaration that gives all three keys is recovered from its backend tool, so the renaming loses nothing. |
| Tools.ToolEnvelopeSurjective | src/server.py:130-137 | Every backend tool of kind "function" is the translation of the declaration read back from it. |
| Messages.TransformMessagesToOllama | src/server.py:157-227 | The loop returns `MessagesToOllama`: each message's translation in message order, or failure (the AttributeError) as soon as one message fails. |
| Messages.TransformBlocks | src/server.py:173-225 | For one content list it fails exactly when some element is not a dictionary. Otherwise it yields the lead message, then the tool messages. |
| Messages.ToolResultText | src/server.py:196-203 | A tool_result's text is its string content, or the extracted text of a content list, or `str()` of any other value. |
| Messages.SortStep | src/server.py:178-204 | Each dictionary of a content list adds to exactly the list its `type` selects: a text part, a tool call or a tool message. A dictionary of any other type adds nothing. |
| Messages.MessagesAppend | src/server.py:159-227 | Translating two conversations one after the other gives the concatenation of their translations, in order. |
| Messages.MessagesSucceedIff | src/server.py:159-204 | Translation succeeds exactly when every content list holds only dictionaries. Nothing else is checked. |
| Messages.StringContentMessages | src/server.py:160-170 | Empty or missing string content yields no message. Non-empty content yields one message with the same role (default "user") and text. |
| Messages.ToolCallsPlacement | src/server.py:184-192 | There is one backend tool call per tool_use block, in block order. Each has type "function", the block's name (default "") and its input as arguments (default {}). |
| Messages.BlockLeadMessage | src/server.py:206-222 | A block list yields at most one message before the tool messages. It exists exactly when there is a text block, or the role is "assistant" with a tool_use block. It carries the tool calls exactly in the second case, and the "\n"-joined texts exactly when there are any. |
| Messages.BlockToolMessages | src/server.py:194-225 | After the lead message comes one "tool" message per tool_result block, in block order, each carrying that block's text. |
| Request.BuildRequest | src/server.py:555-585 | The request is built exactly when the messages translate, and fails with the 500 internal_error otherwise. The model is the configured one. `num_predict` is `max_tokens` (default 4096). `temperature` defaults to 0.2. `top_p` is present exactly when given and not null. `tools` is present exactly when the client's list is non-empty, and then translates it entry by entry. `stream` is passed through. |
| Request.ClientModelIgnored | src/server.py:568-569 | The model the client names never reaches the backend. |
| Response.BuildAnthropicResponse | src/server.py:270-321 | The method returns `AnthropicResponse`, which the lemmas below characterise. |
| Response.AppendToolUseBlocks | src/server.py:292-304 | The loop appends one tool-use block per call with a non-empty `function`, in backend order. Each block takes the next uuid draw. |
| Response.ResponseContent | src/server.py:270-304 | The content is one text block first, present exactly when the text is non-empty; the text is the thinking when the content is empty. Then comes one tool-use block per call with a non-empty `function`. The block for call i sits at its rank among such calls and has that call's name and arguments (defaults "" and {}). |
| Response.ResponseStopReason | src/server.py:307-320 | `stop_reason` is "tool_use" exactly when the backend's tool_calls list is non-empty, otherwise "end_turn". Usage is zero, and type, role, model and stop_sequence are fixed. |
| Response.StopReasonWithoutToolUseBlock | src/server.py:295-307 | A tool call without `function` yields no block but still sets the stop reason to "tool_use". |
| Response.ResponseIds | src/server.py:279-297 | The message id starts with "msg_" and tool-use ids start with "toolu_". Tool-use ids are pairwise distinct when the uuid draws are. |
| Sse.EventName | src/server.py:53-61 | The `event:` line's type for each event: one of the seven event type names, never empty and never holding a newline, so it cannot break the frame. |
| Sse.EventData | src/server.py:391-536 | The dictionary each event sends as its `data:` line, with the keys in the shim's order, `stop_reason` null and both token counts 0 in message_start, and `usage` with `output_tokens` 0 in message_delta. `Sse.PayloadType` and `Sse.EventRoundTrip` state its properties. |
| Sse.PayloadType | src/server.py:391-536 | Every payload is an object whose first key, `type`, repeats the event's name. |
| Sse.SseFrame | src/server.py:230-241 | `send_sse_event`: the `event:` line, the `data:` line holding the serialised payload, and a blank line. `Sse.FrameRoundTrip` states what it promises. |
| Sse.FrameRoundTrip | src/server.py:230-241 | A frame parses back into its event type and its data text when neither contains a newline. |
| Sse.EventRoundTrip | src/server.py:230-536 | Every event's name and payload decode back to the event. When the serialised payload holds no newline, the frame the shim writes for the event reads back as its name and that serialised payload. |
| Sse.ErrorRoundTrip | src/server.py:391-394 | The error payload decodes back to its message. |
| Sse.MessageStartRoundTrip | src/server.py:398-409 | The message_start payload decodes back to its id and model. |
| Sse.BlockStartRoundTrip | src/server.py:436-504 | A content_block_start payload decodes back to its index and block. |
| Sse.TextStartRoundTrip | src/server.py:436-440 | The text block's start decodes back to its index. |
| Sse.ToolUseStartRoundTrip | src/server.py:495-504 | A tool-use block's start decodes back to its index, id and name. |
| Sse.BlockDeltaRoundTrip | src/server.py:446-515 | A content_block_delta payload decodes back to its index and delta. |
| Sse.TextDeltaRoundTrip | src/server.py:446-450 | A text delta decodes back to its index and text. |
| Sse.InputJsonDeltaRoundTrip | src/server.py:509-515 | An input_json_delta decodes back to its index and partial JSON. |
| Sse.BlockStopRoundTrip | src/server.py:475-522 | A content_block_stop payload decodes back to its index. |
| Sse.MessageDeltaRoundTrip | src/server.py:527-531 | The message_delta payload decodes back to its stop reason. |
| Stream.StreamOllamaResponse | src/server.py:380-540 | The generator yields `StreamEvents`. A non-200 status yields the single error event. Otherwise the first event is message_start with the message id and model. |
| Stream.ReadChunk | src/server.py:424-453 | Reading one chunk updates the locals as `Advance` does. The last `tool_calls` seen overwrites the accumulated ones. Block 0 opens on the first content or thinking. Content pieces are sent as text deltas and accumulated. Thinking is only accumulated. |
| Stream.FinishStream | src/server.py:456-537 | The done branch writes what `Finish` adds: the thinking fallback, the close of block 0, the tool-use blocks, message_delta and message_stop. |
| Stream.EmitToolBlocks | src/server.py:484-524 | One start, input delta and stop is written per call with a non-empty `function`, numbered on from the current index. The next free index is returned. |
| Stream.ToolEventsStep | src/server.py:486-524 | One more tool call adds its three events when its `function` is non-empty, and nothing otherwise. |
| Stream.RunFinished | src/server.py:537 | Once the done chunk has been handled, later lines change nothing. |
| StreamProofs.RunUndone | src/server.py:417-453 | Before any done chunk, the locals hold the concatenated content and thinking and the last tool_calls seen. The events so far are in protocol order, block 0 is open exactly when text has arrived, and its deltas carry the content. |
| StreamProofs.AdvanceKeeps | src/server.py:424-453 | Reading one chunk that is not done keeps that invariant. |
| StreamProofs.AdvanceOrder | src/server.py:434-450 | One chunk keeps the protocol order, extends only the events, and adds its content to block 0's text. |
| StreamProofs.TextEventsShape | src/server.py:456-479 | At done, block 0 is present exactly when the reply has text, carries that text, and is closed. Without text, `message_start` is the only event so far. When no content arrived but thinking did, block 0 is already open, so the fallback never opens it. The events are then exactly message_start, block 0's start, one delta with the whole thinking, and block 0's stop. |
| StreamProofs.AssembleOrder | src/server.py:481-536 | The tool-use blocks and the two closing events complete the protocol order without adding text. |
| StreamProofs.AssembleLayout | src/server.py:481-536 | The tool-use blocks follow the events before them at consecutive indices, numbered on from the text block when there is one. The last two events are message_delta with the stop reason and message_stop. |
| StreamProofs.AssembleNoTextBlock | src/server.py:474-536 | Without text there is no block 0: the tool-use blocks come straight after `message_start`. |
| StreamProofs.FinishClosed | src/server.py:456-537 | From any state before done, the done branch completes the stream in the layout `StreamCompletes` describes, with the thinking fallback as one delta. |
| StreamProofs.FinishedIffDone | src/server.py:456-537 | The generator has finished exactly when some line read was a done chunk. |
| StreamProofs.IgnoresAfterDone | src/server.py:537 | Lines after a done chunk never change the events. |
| StreamProofs.StreamCompletes | src/server.py:397-537 | With a done chunk, the stream is complete. It starts with message_start and is in protocol order. Every text delta goes to block 0 and is non-empty. Block 0's deltas give the concatenated content. When all content was empty they give the concatenated thinking instead, as one delta sent at done, right after block 0's start (`ThinkingAsOneDelta`). When both are empty there is no block 0, and nothing comes between `message_start` and the tool-use blocks. One tool-use block per call with a non-empty `function` of the last tool_calls seen, then the stop reason, which is "tool_use" exactly when that list is non-empty. |
| StreamProofs.StreamTruncated | src/server.py:417-453 | Without a done chunk, the stream starts with message_start and stays in protocol order, with block 0 carrying the content so far. It never sends message_delta or message_stop. |
| StreamProofs.ToolEventsScan | src/server.py:484-524 | Tool-use blocks are in protocol order, numbered on from the first free index. |
| StreamProofs.ToolEventsText | src/server.py:484-524 | Tool-use blocks add no text to any block. |
| StreamProofs.ToolEventsAt | src/server.py:484-524 | Tool-use block k sits at events 3k to 3k+2. It is the streamed form of the block the non-streaming response holds for the same call and draw. |
| StreamProofs.StreamMatchesResponse | src/server.py:270-537 | A completed stream carries the response `build_anthropic_response` builds from what the chunks add up to: the same id and model, the same text, each tool-use block at its position with the same id, name and input, and the same stop reason. |
| StreamProofs.ClosedMatches | src/server.py:270-531 | Any completed stream for a reply carries the response built from that reply. |

## Left out

- The FastAPI app, its routes, the logging middleware, `/health` and the uvicorn entry point are framework plumbing. Environment configuration and logging are also left out. The configured backend model is a parameter.
- The HTTP calls to the backend are network I/O. The streaming status, error body and body lines are parameters of `Stream.StreamOllamaResponse`. The non-streaming handler's forwarding of a non-200 status and its 502 on a connection error are not modelled.
- `uuid.uuid4().hex[:24]` is the parameter `hex`. The 24-digit cut and randomness are not modelled, and distinct draws are an assumption of `Response.ResponseIds`.
- `json.dumps` and `str()` are uninterpreted (`Codec`). `json.loads` is not modelled. A body line arrives decoded, or as `None` when it is blank or not JSON.
- Values of a type the shim does not expect are excluded by the model's types, and a null is modelled only where the shim treats it like an absent key. Some of these values make the shim raise: a body line that decodes to JSON other than an object, a non-dict message, `function` or tool, a non-list `tool_calls`, or a non-string `text`. Others pass through unchanged, and the model does not capture them: a null `role` (src/server.py:160, 167), a null tool_use `name` (189), a non-string tool `name` or `description` (133-134), a non-string truthy reply `content`, which becomes a text block (271, 285-289), and a null or non-string reply `function.name`, which becomes the tool-use block's name (302, 489). A non-string chunk `content` or `thinking` makes the shim raise after block 0's start has been sent (444, 453); the model does not capture that either.
- Json.Get: a Python dict holds each key once, so a modelled object is meant to have distinct keys. `Get` reads the first of repeated keys, where `json.loads` would keep the last; a body with a repeated key is not modelled.
- The async generator is an event sequence. A client that stops reading mid-stream is not modelled.
- JSON numbers are reals. `max_tokens`, `temperature` and `top_p` are passed through as JSON values.
- Request.BuildRequest: `stream` is modelled as an optional boolean. The shim passes through whatever value the client sent.
- `truncate_text` is modelled, but its only callers are logging statements, which are left out.
