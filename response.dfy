/** `build_anthropic_response`: one complete backend reply to one complete client response. */
module Response {
  import opened Wrappers
  import opened Json
  import opened Seqs
  import opened Anthropic
  import opened Ollama

  const EMPTY_MESSAGE := ChatMessage(None, None, None)

  /** The reply's text: `content`, or `thinking` when the content is empty and that key exists. */
  function ResponseText(m: ChatMessage): string {
    var contentText := m.content.GetOr("");
    if contentText == "" && m.thinking.Some? then m.thinking.value else contentText
  }

  /** The tool-use block for a call whose `function` is non-empty, with the given id. */
  function ToolUseBlockFor(call: ToolCall, id: string): ResponseBlock {
    var f := call.func.GetOr(FunctionCall(None, None, false));
    ToolUseBlock(id, f.name.GetOr(""), f.arguments.GetOr(Obj([])))
  }

  /** Tool-use ids: `hex(k)` is the hex of the k-th uuid drawn (draw 0 names the message). */
  function ToolUseId(hex: nat -> string, k: nat): string {
    "toolu_" + hex(k + 1)
  }

  /** One tool-use block per call with a non-empty `function`, in backend order. */
  function ToolUseBlocks(calls: seq<ToolCall>, hex: nat -> string): seq<ResponseBlock> {
    var used := Filter(calls, HasFunction);
    seq(|used|, k requires 0 <= k < |used| => ToolUseBlockFor(used[k], ToolUseId(hex, k)))
  }

  /** The client response `build_anthropic_response` returns for a backend reply. */
  function AnthropicResponse(reply: ChatResponse, model: string, hex: nat -> string): MessageResponse {
    var m := reply.message.GetOr(EMPTY_MESSAGE);
    var text := ResponseText(m);
    var calls := m.toolCalls.GetOr([]);
    MessageResponse(
      "msg_" + hex(0), "message", model, "assistant",
      (if text != "" then [TextBlock(text)] else []) + ToolUseBlocks(calls, hex),
      if |calls| > 0 then TOOL_USE else END_TURN,
      None,
      Usage(0, 0))
  }

  /** `build_anthropic_response`, with its loop over the returned tool calls in `AppendToolUseBlocks`. */
  method BuildAnthropicResponse(reply: ChatResponse, model: string, hex: nat -> string) returns (r: MessageResponse)
    ensures r == AnthropicResponse(reply, model, hex)
  {
    var message := reply.message.GetOr(EMPTY_MESSAGE);
    var contentText := message.content.GetOr("");
    if contentText == "" && message.thinking.Some? {
      contentText := message.thinking.value;
    }
    var messageId := "msg_" + hex(0);
    var contentBlocks: seq<ResponseBlock> := [];
    if contentText != "" {
      contentBlocks := contentBlocks + [TextBlock(contentText)];
    }
    var toolCalls := message.toolCalls.GetOr([]);
    contentBlocks := AppendToolUseBlocks(contentBlocks, toolCalls, hex);
    var stopReason := if |toolCalls| > 0 then TOOL_USE else END_TURN;
    r := MessageResponse(messageId, "message", model, "assistant", contentBlocks, stopReason, None, Usage(0, 0));
  }

  /**
   * The loop of `build_anthropic_response` over the returned tool calls: one tool-use block
   * appended per call with a non-empty `function`, each naming the next uuid drawn after the
   * message id's.
   */
  method AppendToolUseBlocks(contentBlocks0: seq<ResponseBlock>, toolCalls: seq<ToolCall>, hex: nat -> string)
    returns (contentBlocks: seq<ResponseBlock>)
    ensures contentBlocks == contentBlocks0 + ToolUseBlocks(toolCalls, hex)
  {
    contentBlocks := contentBlocks0;
    var drawn := 1;
    ghost var used: seq<ToolCall> := [];
    ghost var toolBlocks: seq<ResponseBlock> := [];
    var i := 0;
    while i < |toolCalls|
      invariant 0 <= i <= |toolCalls|
      invariant used == Filter(toolCalls[..i], HasFunction)
      invariant drawn == 1 + |used|
      invariant |toolBlocks| == |used|
      invariant forall k :: 0 <= k < |used| ==> toolBlocks[k] == ToolUseBlockFor(used[k], ToolUseId(hex, k))
      invariant contentBlocks == contentBlocks0 + toolBlocks
    {
      var toolCall := toolCalls[i];
      FilterStep(toolCalls, HasFunction, i);
      var fn := toolCall.func.GetOr(FunctionCall(None, None, false));
      if fn.NonEmpty() {
        var toolUseId := "toolu_" + hex(drawn);
        drawn := drawn + 1;
        var block := ToolUseBlock(toolUseId, fn.name.GetOr(""), fn.arguments.GetOr(Obj([])));
        assert block == ToolUseBlockFor(toolCall, ToolUseId(hex, |used|));
        contentBlocks := contentBlocks + [block];
        used := used + [toolCall];
        toolBlocks := toolBlocks + [block];
      }
      i := i + 1;
    }
    assert toolCalls[..i] == toolCalls;
    assert toolBlocks == ToolUseBlocks(toolCalls, hex);
  }

  /**
   * The content is one text block first, present exactly when the reply's text is non-empty,
   * then one tool-use block per call with a non-empty `function`, in backend order, named and
   * with the input that call gives (defaults "" and {}).
   */
  lemma ResponseContent(reply: ChatResponse, model: string, hex: nat -> string)
    ensures var m := reply.message.GetOr(EMPTY_MESSAGE);
      var calls := m.toolCalls.GetOr([]);
      var content := AnthropicResponse(reply, model, hex).content;
      var t := if ResponseText(m) != "" then 1 else 0;
      && |content| == t + Count(calls, HasFunction)
      && (t == 1 ==> content[0] == TextBlock(ResponseText(m)))
      && (forall k :: t <= k < |content| ==> content[k].ToolUseBlock?)
      && (forall i :: 0 <= i < |calls| && HasFunction(calls[i]) ==>
            t + Count(calls[..i], HasFunction) < |content| &&
            content[t + Count(calls[..i], HasFunction)] ==
              ToolUseBlock(ToolUseId(hex, Count(calls[..i], HasFunction)),
                           calls[i].func.value.name.GetOr(""), calls[i].func.value.arguments.GetOr(Obj([]))))
  {
    var m := reply.message.GetOr(EMPTY_MESSAGE);
    var calls := m.toolCalls.GetOr([]);
    var blocks := ToolUseBlocks(calls, hex);
    var used := Filter(calls, HasFunction);
    forall i | 0 <= i < |calls| && HasFunction(calls[i])
      ensures Count(calls[..i], HasFunction) < |blocks|
      ensures blocks[Count(calls[..i], HasFunction)] ==
              ToolUseBlock(ToolUseId(hex, Count(calls[..i], HasFunction)),
                           calls[i].func.value.name.GetOr(""), calls[i].func.value.arguments.GetOr(Obj([])))
    {
      FilterAt(calls, HasFunction, i);
    }
  }

  /**
   * The stop reason is "tool_use" exactly when the backend's tool_calls list is non-empty,
   * whether or not any of its entries yields a block; usage is always zero and the fixed keys
   * are fixed.
   */
  lemma ResponseStopReason(reply: ChatResponse, model: string, hex: nat -> string)
    ensures var r := AnthropicResponse(reply, model, hex);
      var calls := reply.message.GetOr(EMPTY_MESSAGE).toolCalls.GetOr([]);
      && (r.stopReason == TOOL_USE <==> |calls| > 0)
      && (r.stopReason != TOOL_USE ==> r.stopReason == END_TURN)
      && r.usage == Usage(0, 0)
      && r.kind == "message" && r.role == "assistant" && r.model == model && r.stopSequence == None
  {
  }

  /**
   * The client-side invariant "stop_reason is tool_use iff there is a tool-use block" does not
   * hold: a tool call whose `function` is absent yields no block, yet sets the stop reason.
   */
  lemma StopReasonWithoutToolUseBlock(model: string, hex: nat -> string)
    ensures var r := AnthropicResponse(ChatResponse(Some(ChatMessage(Some("hi"), None, Some([ToolCall(None)])))), model, hex);
      r.stopReason == TOOL_USE && r.content == [TextBlock("hi")]
  {
    var calls := [ToolCall(None)];
    assert calls[..0] == [];
  }

  /** Identifiers carry their prefixes, and tool-use ids are distinct when the uuid draws are. */
  lemma ResponseIds(reply: ChatResponse, model: string, hex: nat -> string)
    requires forall a: nat, b: nat :: hex(a) == hex(b) ==> a == b
    ensures var r := AnthropicResponse(reply, model, hex);
      && r.id[..4] == "msg_"
      && (forall k :: 0 <= k < |r.content| && r.content[k].ToolUseBlock? ==> r.content[k].id[..6] == "toolu_")
      && (forall j, k :: 0 <= j < k < |r.content| && r.content[j].ToolUseBlock? && r.content[k].ToolUseBlock? ==>
            r.content[j].id != r.content[k].id)
  {
    var m := reply.message.GetOr(EMPTY_MESSAGE);
    var calls := m.toolCalls.GetOr([]);
    var r := AnthropicResponse(reply, model, hex);
    var t := if ResponseText(m) != "" then 1 else 0;
    var blocks := ToolUseBlocks(calls, hex);
    assert r.content == (if t == 1 then [TextBlock(ResponseText(m))] else []) + blocks;
    forall k | t <= k < |r.content| ensures r.content[k] == blocks[k - t] && r.content[k].id == ToolUseId(hex, k - t) {
    }
  }
}
