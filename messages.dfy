/**
 * `transform_messages_to_ollama`: client messages (string content or a list of text, tool_use
 * and tool_result blocks) to backend role/content messages, tool calls and tool messages.
 */
module Messages {
  import opened Wrappers
  import opened Json
  import opened Seqs
  import opened Strings
  import opened Anthropic
  import opened Ollama
  import opened ContentHelpers

  predicate IsToolUseItem(it: Item) {
    it.Dict? && it.block.kind == Some("tool_use")
  }

  predicate IsToolResultItem(it: Item) {
    it.Dict? && it.block.kind == Some("tool_result")
  }

  /** Every element of the list is a dictionary (the shim calls `.get` on each). */
  predicate AllDicts(items: seq<Item>) {
    forall k :: 0 <= k < |items| ==> items[k].Dict?
  }

  /** A tool_use block as a backend tool call. */
  function ItemToolCall(it: Item): OutToolCall {
    if it.Dict? then OutToolCall("function", CallFunction(it.block.name.GetOr(""), it.block.input.GetOr(Obj([]))))
    else OutToolCall("function", CallFunction("", Obj([])))
  }

  /** `str(tool_content)`, where a list was first flattened by `extract_text_from_content`. */
  function ResultText(content: Content, codec: Codec): string {
    match content
    case Text(s) => s
    case Blocks(_) => ExtractText(content)
    case Other(v) => PyStr(v, codec)
  }

  /** A tool_result block as a backend message of role "tool". */
  function ResultMessage(it: Item, codec: Codec): OllamaMessage {
    var content := if it.Dict? then it.block.content.GetOr(Text("")) else Text("");
    OllamaMessage("tool", Some(ResultText(content, codec)), None)
  }

  function ToolCallsOf(items: seq<Item>): seq<OutToolCall> {
    Map(Filter(items, IsToolUseItem), ItemToolCall)
  }

  function ToolResultsOf(items: seq<Item>, codec: Codec): seq<OllamaMessage> {
    var results := Filter(items, IsToolResultItem);
    seq(|results|, k requires 0 <= k < |results| => ResultMessage(results[k], codec))
  }

  lemma ToolCallsStep(items: seq<Item>, j: nat)
    requires j < |items|
    ensures IsToolUseItem(items[j]) ==> ToolCallsOf(items[..j + 1]) == ToolCallsOf(items[..j]) + [ItemToolCall(items[j])]
    ensures !IsToolUseItem(items[j]) ==> ToolCallsOf(items[..j + 1]) == ToolCallsOf(items[..j])
  {
    MapFilterStep(items, IsToolUseItem, ItemToolCall, j);
  }

  lemma ToolResultsStep(items: seq<Item>, j: nat, codec: Codec)
    requires j < |items|
    ensures IsToolResultItem(items[j]) ==>
      ToolResultsOf(items[..j + 1], codec) == ToolResultsOf(items[..j], codec) + [ResultMessage(items[j], codec)]
    ensures !IsToolResultItem(items[j]) ==> ToolResultsOf(items[..j + 1], codec) == ToolResultsOf(items[..j], codec)
  {
    FilterStep(items, IsToolResultItem, j);
  }

  /** One more dictionary of a block list lands in exactly the list its type selects. */
  lemma SortStep(items: seq<Item>, j: nat, codec: Codec)
    requires j < |items| && items[j].Dict?
    ensures var kind := items[j].block.kind;
      && TextParts(items[..j + 1]) == TextParts(items[..j]) + (if kind == Some("text") then [ItemText(items[j])] else [])
      && ToolCallsOf(items[..j + 1]) == ToolCallsOf(items[..j]) + (if kind == Some("tool_use") then [ItemToolCall(items[j])] else [])
      && ToolResultsOf(items[..j + 1], codec) ==
           ToolResultsOf(items[..j], codec) + (if kind == Some("tool_result") then [ResultMessage(items[j], codec)] else [])
  {
    TextPartsStep(items, j);
    ToolCallsStep(items, j);
    ToolResultsStep(items, j, codec);
  }

  /** The message (if any) a block list yields before its tool messages. */
  function LeadMessage(role: string, texts: seq<string>, calls: seq<OutToolCall>): seq<OllamaMessage> {
    if |calls| > 0 && role == "assistant" then
      [OllamaMessage("assistant", if |texts| > 0 then Some(Join(texts, "\n")) else None, Some(calls))]
    else if |texts| > 0 then
      [OllamaMessage(role, Some(Join(texts, "\n")), None)]
    else
      []
  }

  /** What a block list all of whose elements are dictionaries yields. */
  function BlockMessages(role: string, items: seq<Item>, codec: Codec): seq<OllamaMessage> {
    LeadMessage(role, TextParts(items), ToolCallsOf(items)) + ToolResultsOf(items, codec)
  }

  /** The backend messages one message yields; `None` when the shim raises on it. */
  function MessageToOllama(m: Message, codec: Codec): Option<seq<OllamaMessage>> {
    var role := m.role.GetOr("user");
    match m.content.GetOr(Text(""))
    case Text(s) => Some(if s == "" then [] else [OllamaMessage(role, Some(s), None)])
    case Blocks(items) => if AllDicts(items) then Some(BlockMessages(role, items, codec)) else None
    case Other(_) => Some([])
  }

  /** The backend messages a conversation yields, in order; `None` when the shim raises. */
  function MessagesToOllama(ms: seq<Message>, codec: Codec): Option<seq<OllamaMessage>> {
    if |ms| == 0 then Some([])
    else
      var init := MessagesToOllama(ms[..|ms| - 1], codec);
      var last := MessageToOllama(ms[|ms| - 1], codec);
      if init.Some? && last.Some? then Some(init.value + last.value) else None
  }

  lemma MessagesSnoc(ms: seq<Message>, m: Message, codec: Codec)
    ensures var init, last := MessagesToOllama(ms, codec), MessageToOllama(m, codec);
      MessagesToOllama(ms + [m], codec) == if init.Some? && last.Some? then Some(init.value + last.value) else None
  {
    assert (ms + [m])[..|ms + [m]| - 1] == ms;
  }

  lemma {:induction false} FailureSticks(ms: seq<Message>, n: nat, codec: Codec)
    requires n <= |ms| && MessagesToOllama(ms[..n], codec).None?
    ensures MessagesToOllama(ms, codec).None?
  {
    if n < |ms| {
      assert ms[..|ms| - 1][..n] == ms[..n];
      FailureSticks(ms[..|ms| - 1], n, codec);
    } else {
      assert ms[..n] == ms;
    }
  }

  /** The inner loop of `transform_messages_to_ollama` over one message's content list. */
  method TransformBlocks(role: string, items: seq<Item>, codec: Codec) returns (r: Option<seq<OllamaMessage>>)
    ensures r == if AllDicts(items) then Some(BlockMessages(role, items, codec)) else None
  {
    var textParts: seq<string> := [];
    var toolCalls: seq<OutToolCall> := [];
    var toolResults: seq<OllamaMessage> := [];
    var j := 0;
    while j < |items|
      invariant 0 <= j <= |items|
      invariant forall k :: 0 <= k < j ==> items[k].Dict?
      invariant textParts == TextParts(items[..j])
      invariant toolCalls == ToolCallsOf(items[..j])
      invariant toolResults == ToolResultsOf(items[..j], codec)
    {
      var it := items[j];
      if it.NotDict? {
        return None;
      }
      SortStep(items, j, codec);
      var block := it.block;
      if block.kind == Some("text") {
        textParts := textParts + [block.text.GetOr("")];
      } else if block.kind == Some("tool_use") {
        toolCalls := toolCalls + [OutToolCall("function", CallFunction(block.name.GetOr(""), block.input.GetOr(Obj([]))))];
      } else if block.kind == Some("tool_result") {
        var text := ToolResultText(block.content.GetOr(Text("")), codec);
        toolResults := toolResults + [OllamaMessage("tool", Some(text), None)];
      }
      j := j + 1;
    }
    assert items[..j] == items;
    var out: seq<OllamaMessage> := [];
    if |toolCalls| > 0 && role == "assistant" {
      var message := OllamaMessage("assistant", None, Some(toolCalls));
      if |textParts| > 0 {
        message := message.(content := Some(Join(textParts, "\n")));
      }
      out := [message];
    } else if |textParts| > 0 {
      out := [OllamaMessage(role, Some(Join(textParts, "\n")), None)];
    }
    return Some(out + toolResults);
  }

  /** `str(tool_content)` for a tool_result block, a list first flattened to its text. */
  method ToolResultText(toolContent: Content, codec: Codec) returns (text: string)
    ensures text == ResultText(toolContent, codec)
  {
    if toolContent.Blocks? {
      text := ExtractTextFromContent(toolContent);
    } else {
      text := if toolContent.Text? then toolContent.s else PyStr(toolContent.value, codec);
    }
  }

  /** The outer loop of `transform_messages_to_ollama`; `None` is the AttributeError it raises. */
  method TransformMessagesToOllama(messages: seq<Message>, codec: Codec) returns (r: Option<seq<OllamaMessage>>)
    ensures r == MessagesToOllama(messages, codec)
  {
    var out: seq<OllamaMessage> := [];
    var i := 0;
    while i < |messages|
      invariant 0 <= i <= |messages|
      invariant MessagesToOllama(messages[..i], codec) == Some(out)
    {
      var msg := messages[i];
      MessagesSnoc(messages[..i], msg, codec);
      assert messages[..i + 1] == messages[..i] + [msg];
      var role := msg.role.GetOr("user");
      var content := msg.content.GetOr(Text(""));
      match content {
        case Text(s) =>
          assert MessageToOllama(msg, codec) == Some(if s == "" then [] else [OllamaMessage(role, Some(s), None)]);
          if s != "" {
            out := out + [OllamaMessage(role, Some(s), None)];
          } else {
            assert out + [] == out;
          }
        case Blocks(items) =>
          var translated := TransformBlocks(role, items, codec);
          assert MessageToOllama(msg, codec) == translated;
          if translated.None? {
            FailureSticks(messages, i + 1, codec);
            return None;
          }
          out := out + translated.value;
        case Other(_) =>
          assert MessageToOllama(msg, codec) == Some([]);
          assert out + [] == out;
      }
      i := i + 1;
    }
    assert messages[..i] == messages;
    return Some(out);
  }

  /** Translating a conversation translates its parts in order and concatenates the results. */
  lemma {:induction false} MessagesAppend(a: seq<Message>, b: seq<Message>, codec: Codec)
    requires MessagesToOllama(a, codec).Some? && MessagesToOllama(b, codec).Some?
    ensures MessagesToOllama(a + b, codec) == Some(MessagesToOllama(a, codec).value + MessagesToOllama(b, codec).value)
  {
    if |b| == 0 {
      assert a + b == a;
      assert MessagesToOllama(a, codec).value + [] == MessagesToOllama(a, codec).value;
    } else {
      var init := b[..|b| - 1];
      assert (a + b)[..|a + b| - 1] == a + init;
      assert (a + b)[|a + b| - 1] == b[|b| - 1];
      MessagesAppend(a, init, codec);
      var va, vi, vm := MessagesToOllama(a, codec).value, MessagesToOllama(init, codec).value, MessageToOllama(b[|b| - 1], codec).value;
      assert va + vi + vm == va + (vi + vm);
    }
  }

  /**
   * The translation fails exactly when some message has a content list with an element that is
   * not a dictionary: nothing else is checked, in particular no tool_result is matched against
   * an earlier tool_use.
   */
  lemma {:induction false} MessagesSucceedIff(ms: seq<Message>, codec: Codec)
    ensures MessagesToOllama(ms, codec).Some? <==>
      forall k :: 0 <= k < |ms| && ms[k].content.Some? && ms[k].content.value.Blocks? ==> AllDicts(ms[k].content.value.items)
  {
    if |ms| > 0 {
      MessagesSucceedIff(ms[..|ms| - 1], codec);
    }
  }

  /** String content yields nothing when empty, else one message with the same role and text. */
  lemma StringContentMessages(role: Option<string>, s: string, codec: Codec)
    ensures MessageToOllama(Message(role, Some(Text(s))), codec) ==
      Some(if s == "" then [] else [OllamaMessage(role.GetOr("user"), Some(s), None)])
    ensures MessageToOllama(Message(role, None), codec) == Some([])
  {
  }

  /** One backend tool call per tool_use block, in block order. */
  lemma ToolCallsPlacement(items: seq<Item>)
    ensures |ToolCallsOf(items)| == Count(items, IsToolUseItem)
    ensures forall i :: 0 <= i < |items| && IsToolUseItem(items[i]) ==>
      Count(items[..i], IsToolUseItem) < |ToolCallsOf(items)| &&
      ToolCallsOf(items)[Count(items[..i], IsToolUseItem)] ==
        OutToolCall("function", CallFunction(items[i].block.name.GetOr(""), items[i].block.input.GetOr(Obj([]))))
  {
    forall i | 0 <= i < |items| && IsToolUseItem(items[i])
      ensures Count(items[..i], IsToolUseItem) < |ToolCallsOf(items)|
      ensures ToolCallsOf(items)[Count(items[..i], IsToolUseItem)] == ItemToolCall(items[i])
    {
      FilterAt(items, IsToolUseItem, i);
    }
  }

  /**
   * What a block list yields first: at most one lead message, present exactly when there is a
   * text block or the role is "assistant" with a tool_use block; it carries the tool calls
   * exactly in the second case, and the newline-joined texts exactly when there are any.
   */
  lemma BlockLeadMessage(role: string, items: seq<Item>, codec: Codec)
    ensures var out := BlockMessages(role, items, codec);
      var withCalls := role == "assistant" && Count(items, IsToolUseItem) > 0;
      var lead := |out| - Count(items, IsToolResultItem);
      && 0 <= lead <= 1
      && (lead == 1 <==> Count(items, IsTextItem) > 0 || withCalls)
      && (lead == 1 ==> out[0].role == role)
      && (lead == 1 ==> out[0].toolCalls == if withCalls then Some(ToolCallsOf(items)) else None)
      && (lead == 1 ==> out[0].content == if Count(items, IsTextItem) > 0 then Some(Join(TextParts(items), "\n")) else None)
  {
    var leadMsgs := LeadMessage(role, TextParts(items), ToolCallsOf(items));
    var results := ToolResultsOf(items, codec);
    assert BlockMessages(role, items, codec) == leadMsgs + results;
    assert |results| == Count(items, IsToolResultItem);
    assert |ToolCallsOf(items)| == Count(items, IsToolUseItem);
    assert |TextParts(items)| == Count(items, IsTextItem);
  }

  /** After the lead message comes one "tool" message per tool_result block, in block order. */
  lemma BlockToolMessages(role: string, items: seq<Item>, codec: Codec)
    ensures var out := BlockMessages(role, items, codec);
      var lead := |LeadMessage(role, TextParts(items), ToolCallsOf(items))|;
      && |out| == lead + Count(items, IsToolResultItem)
      && forall i :: 0 <= i < |items| && IsToolResultItem(items[i]) ==>
           lead + Count(items[..i], IsToolResultItem) < |out| &&
           out[lead + Count(items[..i], IsToolResultItem)] ==
             OllamaMessage("tool", Some(ResultText(items[i].block.content.GetOr(Text("")), codec)), None)
  {
    var leadMsgs := LeadMessage(role, TextParts(items), ToolCallsOf(items));
    var results := ToolResultsOf(items, codec);
    var out := BlockMessages(role, items, codec);
    assert out == leadMsgs + results;
    forall i | 0 <= i < |items| && IsToolResultItem(items[i])
      ensures |leadMsgs| + Count(items[..i], IsToolResultItem) < |out|
      ensures out[|leadMsgs| + Count(items[..i], IsToolResultItem)] ==
              OllamaMessage("tool", Some(ResultText(items[i].block.content.GetOr(Text("")), codec)), None)
    {
      FilterAt(items, IsToolResultItem, i);
      assert results[Count(items[..i], IsToolResultItem)] == ResultMessage(items[i], codec);
    }
  }
}
