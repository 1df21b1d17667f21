/**
 * `stream_ollama_response`: the backend's line-delimited chunks re-encoded, chunk by chunk,
 * as the client's stream of events.
 */
module Stream {
  import opened Wrappers
  import opened Json
  import opened Seqs
  import opened Anthropic
  import opened Ollama
  import opened Response

  /** The generator's local variables between two lines, with the events written so far. */
  datatype StreamState = StreamState(
    events: seq<Event>,
    fullContent: string,
    fullThinking: string,
    toolCalls: seq<ToolCall>,
    textStarted: bool,
    index: nat,
    finished: bool)

  /** After the upstream answered 200: only `message_start` has been written. */
  function Initial(model: string, hex: nat -> string): StreamState {
    StreamState([MessageStart("msg_" + hex(0), model)], "", "", [], false, 0, false)
  }

  /** `partial_json`: an object is serialised, anything else goes through `str()`. */
  function ArgsJson(args: Json, codec: Codec): string {
    if args.Obj? then codec.dumps(args) else PyStr(args, codec)
  }

  /** The three events of one tool-use block: start, the whole input as one delta, stop. */
  function ToolBlockEvents(call: ToolCall, index: nat, id: string, codec: Codec): seq<Event> {
    var f := call.func.GetOr(FunctionCall(None, None, false));
    [ContentBlockStart(index, ToolUseStart(id, f.name.GetOr(""))),
     ContentBlockDelta(index, InputJsonDelta(ArgsJson(f.arguments.GetOr(Obj([])), codec))),
     ContentBlockStop(index)]
  }

  /** The tool-use blocks for `used`, numbered from block index `base` and tool-use draw 0. */
  function ToolEvents(used: seq<ToolCall>, base: nat, hex: nat -> string, codec: Codec): (r: seq<Event>)
    ensures |r| == 3 * |used|
  {
    if |used| == 0 then []
    else
      var n := |used| - 1;
      ToolEvents(used[..n], base, hex, codec) + ToolBlockEvents(used[n], base + n, ToolUseId(hex, n), codec)
  }

  /** What one decoded chunk does before its `done` flag is looked at. */
  function Advance(st: StreamState, chunk: Chunk): StreamState {
    var m := chunk.message.GetOr(EMPTY_MESSAGE);
    var contentDelta := m.content.GetOr("");
    var thinkingDelta := m.thinking.GetOr("");
    var opens := (contentDelta != "" || thinkingDelta != "") && !st.textStarted;
    StreamState(
      st.events
        + (if opens then [ContentBlockStart(st.index, TextStart)] else [])
        + (if contentDelta != "" then [ContentBlockDelta(st.index, TextDelta(contentDelta))] else []),
      st.fullContent + contentDelta,
      st.fullThinking + thinkingDelta,
      if m.toolCalls.Some? then m.toolCalls.value else st.toolCalls,
      st.textStarted || opens,
      st.index,
      st.finished)
  }

  /**
   * The `done` branch: the thinking fallback, closing the text block, one block per tool call
   * with a non-empty `function`, then `message_delta` and `message_stop`.
   */
  function Finish(st: StreamState, hex: nat -> string, codec: Codec): StreamState {
    var useThinking := st.fullContent == "" && st.fullThinking != "";
    var thinkingEvents :=
      if useThinking then
        (if st.textStarted then [] else [ContentBlockStart(st.index, TextStart)])
          + [ContentBlockDelta(st.index, TextDelta(st.fullThinking))]
      else [];
    var started := st.textStarted || useThinking;
    var closeEvents := if started then [ContentBlockStop(st.index)] else [];
    var base := if started then st.index + 1 else st.index;
    var used := Filter(st.toolCalls, HasFunction);
    var stopReason := if |st.toolCalls| > 0 then TOOL_USE else END_TURN;
    StreamState(
      st.events + thinkingEvents + closeEvents + ToolEvents(used, base, hex, codec)
        + [MessageDelta(stopReason), MessageStop],
      st.fullContent, st.fullThinking, st.toolCalls, started, base + |used|, true)
  }

  /**
   * One line of the upstream body: `None` stands for a blank line or one that is not JSON,
   * both skipped; everything after the `done` chunk is never read.
   */
  function Step(st: StreamState, line: Option<Chunk>, hex: nat -> string, codec: Codec): StreamState {
    if st.finished || line.None? then st
    else
      var next := Advance(st, line.value);
      if line.value.done.GetOr(false) then Finish(next, hex, codec) else next
  }

  /** The state after the given lines of a 200 response. */
  function Run(lines: seq<Option<Chunk>>, model: string, hex: nat -> string, codec: Codec): StreamState {
    if |lines| == 0 then Initial(model, hex)
    else Step(Run(lines[..|lines| - 1], model, hex, codec), lines[|lines| - 1], hex, codec)
  }

  /** Everything the generator writes for an upstream status, error body and body lines. */
  function StreamEvents(status: int, errorText: string, lines: seq<Option<Chunk>>,
                        model: string, hex: nat -> string, codec: Codec): seq<Event> {
    if status != 200 then [Error(errorText)] else Run(lines, model, hex, codec).events
  }

  lemma RunSnoc(lines: seq<Option<Chunk>>, line: Option<Chunk>, model: string, hex: nat -> string, codec: Codec)
    ensures Run(lines + [line], model, hex, codec) == Step(Run(lines, model, hex, codec), line, hex, codec)
  {
    assert (lines + [line])[..|lines|] == lines;
  }

  lemma ToolEventsSnoc(used: seq<ToolCall>, call: ToolCall, base: nat, hex: nat -> string, codec: Codec)
    ensures ToolEvents(used + [call], base, hex, codec) ==
            ToolEvents(used, base, hex, codec) + ToolBlockEvents(call, base + |used|, ToolUseId(hex, |used|), codec)
  {
    assert (used + [call])[..|used|] == used;
  }

  /**
   * The generator itself: the upstream status and body lines come in as parameters, the
   * events it yields go out as one sequence.
   */
  method StreamOllamaResponse(status: int, errorText: string, lines: seq<Option<Chunk>>,
                              model: string, hex: nat -> string, codec: Codec)
    returns (events: seq<Event>)
    ensures events == StreamEvents(status, errorText, lines, model, hex, codec)
    ensures status != 200 ==> events == [Error(errorText)]
    ensures status == 200 ==> |events| > 0 && events[0] == MessageStart("msg_" + hex(0), model)
  {
    var messageId := "msg_" + hex(0);
    if status != 200 {
      return [Error(errorText)];
    }
    events := [MessageStart(messageId, model)];
    var fullContent := "";
    var fullThinking := "";
    var accumulatedToolCalls: seq<ToolCall> := [];
    var textBlockStarted := false;
    var currentBlockIndex: nat := 0;
    var i := 0;
    while i < |lines|
      invariant 0 <= i <= |lines|
      invariant Run(lines[..i], model, hex, codec) ==
                StreamState(events, fullContent, fullThinking, accumulatedToolCalls, textBlockStarted, currentBlockIndex, false)
      invariant |events| > 0 && events[0] == MessageStart(messageId, model)
    {
      RunSnoc(lines[..i], lines[i], model, hex, codec);
      assert lines[..i + 1] == lines[..i] + [lines[i]];
      if lines[i].None? {
        i := i + 1;
        continue;
      }
      var chunk := lines[i].value;
      events, fullContent, fullThinking, accumulatedToolCalls, textBlockStarted :=
        ReadChunk(events, fullContent, fullThinking, accumulatedToolCalls, textBlockStarted, currentBlockIndex, chunk);
      var state := StreamState(events, fullContent, fullThinking, accumulatedToolCalls,
                               textBlockStarted, currentBlockIndex, false);
      if chunk.done.GetOr(false) {
        events := FinishStream(state, hex, codec);
        RunFinished(lines, i + 1, model, hex, codec);
        return;
      }
      i := i + 1;
    }
    assert lines[..i] == lines;
  }

  /**
   * The body of the loop over lines for one decoded chunk, up to the `done` test: the
   * generator's locals before and after.
   */
  method ReadChunk(events0: seq<Event>, fullContent0: string, fullThinking0: string,
                   toolCalls0: seq<ToolCall>, textStarted0: bool, index: nat, chunk: Chunk)
    returns (events: seq<Event>, fullContent: string, fullThinking: string,
             accumulatedToolCalls: seq<ToolCall>, textBlockStarted: bool)
    ensures StreamState(events, fullContent, fullThinking, accumulatedToolCalls, textBlockStarted, index, false) ==
            Advance(StreamState(events0, fullContent0, fullThinking0, toolCalls0, textStarted0, index, false), chunk)
  {
    events, fullContent, fullThinking := events0, fullContent0, fullThinking0;
    accumulatedToolCalls, textBlockStarted := toolCalls0, textStarted0;
    var message := chunk.message.GetOr(EMPTY_MESSAGE);
    var contentDelta := message.content.GetOr("");
    var thinkingDelta := message.thinking.GetOr("");
    if message.toolCalls.Some? {
      accumulatedToolCalls := message.toolCalls.value;
    }
    ghost var opening: seq<Event> := [];
    if (contentDelta != "" || thinkingDelta != "") && !textBlockStarted {
      opening := [ContentBlockStart(index, TextStart)];
      events := events + [ContentBlockStart(index, TextStart)];
      textBlockStarted := true;
    }
    if contentDelta != "" {
      fullContent := fullContent + contentDelta;
      events := events + [ContentBlockDelta(index, TextDelta(contentDelta))];
    } else {
      assert events == events0 + opening + [];
    }
    if thinkingDelta != "" {
      fullThinking := fullThinking + thinkingDelta;
    } else {
      assert fullThinking + thinkingDelta == fullThinking;
    }
  }

  /**
   * The loop of the `done` branch over the accumulated tool calls: a block for each call
   * with a non-empty `function`, numbered from `base`; returns the next free block index.
   */
  method EmitToolBlocks(calls: seq<ToolCall>, base: nat, hex: nat -> string, codec: Codec)
    returns (events: seq<Event>, next: nat)
    ensures events == ToolEvents(Filter(calls, HasFunction), base, hex, codec)
    ensures next == base + |Filter(calls, HasFunction)|
  {
    events := [];
    next := base;
    var draws := 1;
    var j := 0;
    while j < |calls|
      invariant 0 <= j <= |calls|
      invariant draws == 1 + |Filter(calls[..j], HasFunction)| && next == base + |Filter(calls[..j], HasFunction)|
      invariant events == ToolEvents(Filter(calls[..j], HasFunction), base, hex, codec)
    {
      var toolCall := calls[j];
      ToolEventsStep(calls, j, base, next, draws, hex, codec);
      var fn := toolCall.func.GetOr(FunctionCall(None, None, false));
      if fn.NonEmpty() {
        var toolUseId := "toolu_" + hex(draws);
        draws := draws + 1;
        var toolName := fn.name.GetOr("");
        var toolArgs := fn.arguments.GetOr(Obj([]));
        var argsJson := if toolArgs.Obj? then codec.dumps(toolArgs) else PyStr(toolArgs, codec);
        assert argsJson == ArgsJson(toolArgs, codec);
        events := events + [ContentBlockStart(next, ToolUseStart(toolUseId, toolName)),
                            ContentBlockDelta(next, InputJsonDelta(argsJson)),
                            ContentBlockStop(next)];
        next := next + 1;
      }
      j := j + 1;
    }
    assert calls[..j] == calls;
  }

  /** One more returned tool call of a prefix: a block of three events when it has a `function`, nothing otherwise. */
  lemma ToolEventsStep(calls: seq<ToolCall>, j: nat, base: nat, next: nat, draws: nat, hex: nat -> string, codec: Codec)
    requires j < |calls|
    requires next == base + |Filter(calls[..j], HasFunction)| && draws == 1 + |Filter(calls[..j], HasFunction)|
    ensures var used := Filter(calls[..j], HasFunction);
      var f := calls[j].func.GetOr(FunctionCall(None, None, false));
      && (f.NonEmpty() ==> |Filter(calls[..j + 1], HasFunction)| == |used| + 1)
      && (f.NonEmpty() ==>
            ToolEvents(Filter(calls[..j + 1], HasFunction), base, hex, codec) ==
            ToolEvents(used, base, hex, codec) +
            [ContentBlockStart(next, ToolUseStart("toolu_" + hex(draws), f.name.GetOr(""))),
             ContentBlockDelta(next, InputJsonDelta(ArgsJson(f.arguments.GetOr(Obj([])), codec))),
             ContentBlockStop(next)])
      && (!f.NonEmpty() ==> Filter(calls[..j + 1], HasFunction) == used)
  {
    FilterStep(calls, HasFunction, j);
    if HasFunction(calls[j]) {
      ToolEventsSnoc(Filter(calls[..j], HasFunction), calls[j], base, hex, codec);
    }
  }

  /** The `done` branch of the generator, from the state the chunk left behind. */
  method FinishStream(st: StreamState, hex: nat -> string, codec: Codec) returns (events: seq<Event>)
    ensures events == Finish(st, hex, codec).events
  {
    events := st.events;
    var textBlockStarted := st.textStarted;
    var currentBlockIndex := st.index;
    ghost var fallback: seq<Event> := [];
    if st.fullContent == "" && st.fullThinking != "" {
      if !textBlockStarted {
        fallback := [ContentBlockStart(currentBlockIndex, TextStart)];
        events := events + [ContentBlockStart(currentBlockIndex, TextStart)];
        textBlockStarted := true;
      }
      fallback := fallback + [ContentBlockDelta(currentBlockIndex, TextDelta(st.fullThinking))];
      events := events + [ContentBlockDelta(currentBlockIndex, TextDelta(st.fullThinking))];
    }
    assert events == st.events + fallback;
    ghost var closing: seq<Event> := [];
    if textBlockStarted {
      closing := [ContentBlockStop(currentBlockIndex)];
      events := events + [ContentBlockStop(currentBlockIndex)];
      currentBlockIndex := currentBlockIndex + 1;
    }
    assert events == st.events + fallback + closing;
    var stopReason := if |st.toolCalls| > 0 then TOOL_USE else END_TURN;
    var toolEvents;
    toolEvents, currentBlockIndex := EmitToolBlocks(st.toolCalls, currentBlockIndex, hex, codec);
    events := events + toolEvents;
    events := events + [MessageDelta(stopReason), MessageStop];
  }

  /** Once the `done` chunk has been handled, the remaining lines change nothing. */
  lemma {:induction false} RunFinished(lines: seq<Option<Chunk>>, k: nat, model: string, hex: nat -> string, codec: Codec)
    requires k <= |lines| && Run(lines[..k], model, hex, codec).finished
    ensures Run(lines, model, hex, codec) == Run(lines[..k], model, hex, codec)
  {
    if k < |lines| {
      var n := |lines| - 1;
      assert lines[..n][..k] == lines[..k];
      RunFinished(lines[..n], k, model, hex, codec);
    } else {
      assert lines[..k] == lines;
    }
  }
}
