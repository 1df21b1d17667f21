/**
 * What a client can rely on in the event stream: the events follow the protocol's order,
 * the text block carries the reply's text, each tool call becomes one tool-use block, and
 * the stream carries what the non-streaming response would hold.
 */
module StreamProofs {
  import opened Wrappers
  import opened Json
  import opened Seqs
  import opened Anthropic
  import opened Ollama
  import opened Response
  import opened Stream

  /** Where an event sequence stands in the protocol: before, between blocks, inside one, ending, over. */
  datatype Phase = Idle | Between(next: nat) | InBlock(index: nat, isText: bool) | Ending | Closed

  /**
   * The protocol's order: `message_start` first; blocks numbered from 0 without gaps, each a
   * start, deltas of its own kind and a stop; then `message_delta` and `message_stop`. An
   * error event stands alone.
   */
  function NextPhase(p: Phase, e: Event): Option<Phase> {
    match e
    case MessageStart(_, _) => if p.Idle? then Some(Between(0)) else None
    case ContentBlockStart(i, block) => if p == Between(i) then Some(InBlock(i, block.TextStart?)) else None
    case ContentBlockDelta(i, delta) => if p == InBlock(i, delta.TextDelta?) then Some(p) else None
    case ContentBlockStop(i) => if p.InBlock? && p.index == i then Some(Between(i + 1)) else None
    case MessageDelta(_) => if p.Between? then Some(Ending) else None
    case MessageStop => if p == Ending then Some(Closed) else None
    case Error(_) => if p.Idle? then Some(Closed) else None
  }

  /** The phase reached from `p` after `events`, or `None` if some event is out of order. */
  function ScanFrom(p: Phase, events: seq<Event>): Option<Phase> {
    if |events| == 0 then Some(p)
    else
      match ScanFrom(p, events[..|events| - 1])
      case None => None
      case Some(q) => NextPhase(q, events[|events| - 1])
  }

  function Scan(events: seq<Event>): Option<Phase> {
    ScanFrom(Idle, events)
  }

  lemma {:induction false} ScanAppend(p: Phase, a: seq<Event>, b: seq<Event>)
    ensures ScanFrom(p, a + b) == if ScanFrom(p, a).None? then None else ScanFrom(ScanFrom(p, a).value, b)
  {
    if |b| == 0 {
      assert a + b == a;
    } else {
      var n := |b| - 1;
      ScanAppend(p, a, b[..n]);
      assert (a + b)[..|a + b| - 1] == a + b[..n];
    }
  }

  /** The text a client gathers for block `i`: its text deltas, concatenated. */
  function TextAt(events: seq<Event>, i: nat): string {
    if |events| == 0 then ""
    else
      var e := events[|events| - 1];
      TextAt(events[..|events| - 1], i) +
        (if e.ContentBlockDelta? && e.index == i && e.delta.TextDelta? then e.delta.text else "")
  }

  lemma {:induction false} TextAtAppend(a: seq<Event>, b: seq<Event>, i: nat)
    ensures TextAt(a + b, i) == TextAt(a, i) + TextAt(b, i)
  {
    if |b| == 0 {
      assert a + b == a;
    } else {
      var n := |b| - 1;
      var e := b[n];
      var x := if e.ContentBlockDelta? && e.index == i && e.delta.TextDelta? then e.delta.text else "";
      TextAtAppend(a, b[..n], i);
      assert (a + b)[..|a + b| - 1] == a + b[..n];
      assert TextAt(a + b, i) == TextAt(a + b[..n], i) + x;
      assert TextAt(b, i) == TextAt(b[..n], i) + x;
      var ta, tb := TextAt(a, i), TextAt(b[..n], i);
      assert (ta + tb) + x == ta + (tb + x);
    }
  }

  /** A text delta only ever goes to block 0, and is only sent with some text in it. */
  predicate TextDeltaSent(e: Event) {
    e.ContentBlockDelta? && e.delta.TextDelta? ==> e.index == 0 && e.delta.text != ""
  }

  /** The closing events. */
  predicate IsEnd(e: Event) {
    e.MessageDelta? || e.MessageStop?
  }

  /** The block start, input delta and stop a tool-use block is streamed as. */
  function ToolUseEvents(b: ResponseBlock, index: nat, codec: Codec): seq<Event>
    requires b.ToolUseBlock?
  {
    [ContentBlockStart(index, ToolUseStart(b.id, b.name)),
     ContentBlockDelta(index, InputJsonDelta(ArgsJson(b.input, codec))),
     ContentBlockStop(index)]
  }

  /**
   * Tool-use block k of the stream sits at events 3k to 3k+2, numbered `base + k`, and is the
   * block the non-streaming response holds for the same call.
   */
  lemma {:induction false} ToolEventsAt(used: seq<ToolCall>, base: nat, hex: nat -> string, codec: Codec, k: nat)
    requires k < |used|
    ensures ToolEvents(used, base, hex, codec)[3 * k..3 * k + 3] ==
            ToolUseEvents(ToolUseBlockFor(used[k], ToolUseId(hex, k)), base + k, codec)
  {
    var n := |used| - 1;
    if k < n {
      ToolEventsAt(used[..n], base, hex, codec, k);
    }
  }

  lemma ScanSnoc(p: Phase, events: seq<Event>, e: Event)
    ensures ScanFrom(p, events + [e]) == if ScanFrom(p, events).None? then None else NextPhase(ScanFrom(p, events).value, e)
  {
    assert (events + [e])[..|events|] == events;
  }

  lemma TextAtSnoc(events: seq<Event>, e: Event, i: nat)
    ensures TextAt(events + [e], i) ==
            TextAt(events, i) + (if e.ContentBlockDelta? && e.index == i && e.delta.TextDelta? then e.delta.text else "")
  {
    assert (events + [e])[..|events|] == events;
  }

  lemma ToolBlockShape(call: ToolCall, index: nat, id: string, codec: Codec)
    ensures ScanFrom(Between(index), ToolBlockEvents(call, index, id, codec)) == Some(Between(index + 1))
    ensures forall i :: TextAt(ToolBlockEvents(call, index, id, codec), i) == ""
  {
    var block := ToolBlockEvents(call, index, id, codec);
    var e0, e1, e2 := block[0], block[1], block[2];
    assert block == [] + [e0] + [e1] + [e2];
    ScanSnoc(Between(index), [], e0);
    assert [] + [e0] == [e0];
    ScanSnoc(Between(index), [e0], e1);
    ScanSnoc(Between(index), [e0] + [e1], e2);
    forall i ensures TextAt(block, i) == "" {
      TextAtSnoc([], e0, i);
      TextAtSnoc([e0], e1, i);
      TextAtSnoc([e0] + [e1], e2, i);
    }
  }

  /** The tool-use blocks are in protocol order, numbered on from `base`. */
  lemma {:induction false} ToolEventsScan(used: seq<ToolCall>, base: nat, hex: nat -> string, codec: Codec)
    ensures ScanFrom(Between(base), ToolEvents(used, base, hex, codec)) == Some(Between(base + |used|))
  {
    if |used| > 0 {
      var n := |used| - 1;
      ToolEventsScan(used[..n], base, hex, codec);
      ScanAppend(Between(base), ToolEvents(used[..n], base, hex, codec), ToolBlockEvents(used[n], base + n, ToolUseId(hex, n), codec));
      ToolBlockShape(used[n], base + n, ToolUseId(hex, n), codec);
    }
  }

  /** The tool-use blocks add no text to any block. */
  lemma {:induction false} ToolEventsText(used: seq<ToolCall>, base: nat, hex: nat -> string, codec: Codec, i: nat)
    ensures TextAt(ToolEvents(used, base, hex, codec), i) == ""
  {
    if |used| > 0 {
      var n := |used| - 1;
      ToolEventsText(used[..n], base, hex, codec, i);
      TextAtAppend(ToolEvents(used[..n], base, hex, codec), ToolBlockEvents(used[n], base + n, ToolUseId(hex, n), codec), i);
      ToolBlockShape(used[n], base + n, ToolUseId(hex, n), codec);
    }
  }

  /** No tool-use block event is a text delta or ends the message. */
  lemma {:induction false} ToolEventsKinds(used: seq<ToolCall>, base: nat, hex: nat -> string, codec: Codec)
    ensures forall e | e in ToolEvents(used, base, hex, codec) :: !IsEnd(e) && !(e.ContentBlockDelta? && e.delta.TextDelta?)
  {
    if |used| > 0 {
      var n := |used| - 1;
      ToolEventsKinds(used[..n], base, hex, codec);
    }
  }

  /** The message of a body line; a skipped line counts as an empty one. */
  function LineMessage(line: Option<Chunk>): ChatMessage {
    if line.Some? then line.value.message.GetOr(EMPTY_MESSAGE) else EMPTY_MESSAGE
  }

  /** All `content` pieces of the lines, in order. */
  function AllContent(lines: seq<Option<Chunk>>): string {
    if |lines| == 0 then ""
    else AllContent(lines[..|lines| - 1]) + LineMessage(lines[|lines| - 1]).content.GetOr("")
  }

  /** All `thinking` pieces of the lines, in order. */
  function AllThinking(lines: seq<Option<Chunk>>): string {
    if |lines| == 0 then ""
    else AllThinking(lines[..|lines| - 1]) + LineMessage(lines[|lines| - 1]).thinking.GetOr("")
  }

  /** The `tool_calls` of the last line whose message has that key (none if no line has it). */
  function LastToolCalls(lines: seq<Option<Chunk>>): seq<ToolCall> {
    if |lines| == 0 then []
    else if LineMessage(lines[|lines| - 1]).toolCalls.Some? then LineMessage(lines[|lines| - 1]).toolCalls.value
    else LastToolCalls(lines[..|lines| - 1])
  }

  /** A decoded line whose `done` flag is set. */
  predicate IsDone(line: Option<Chunk>) {
    line.Some? && line.value.done.GetOr(false)
  }

  predicate NoDone(lines: seq<Option<Chunk>>) {
    forall k :: 0 <= k < |lines| ==> !IsDone(lines[k])
  }

  /**
   * The generator's state before the `done` chunk: the accumulators hold everything read so
   * far, the text block (block 0) is open exactly when some content or thinking has arrived,
   * and the events so far carry exactly the content read, in protocol order, with nothing
   * closed off.
   */
  ghost predicate Undone(st: StreamState, lines: seq<Option<Chunk>>, model: string, hex: nat -> string) {
    var started := AllContent(lines) != "" || AllThinking(lines) != "";
    && !st.finished && st.index == 0
    && st.fullContent == AllContent(lines) && st.fullThinking == AllThinking(lines)
    && st.toolCalls == LastToolCalls(lines) && st.textStarted == started
    && |st.events| > 0 && st.events[0] == MessageStart("msg_" + hex(0), model)
    && Scan(st.events) == Some(TextPhase(started))
    && TextAt(st.events, 0) == AllContent(lines)
    && (forall e | e in st.events :: TextDeltaSent(e) && !IsEnd(e))
    && (started ==> |st.events| > 1 && st.events[1] == ContentBlockStart(0, TextStart))
    && (!started ==> |st.events| == 1)
    && (started && AllContent(lines) == "" ==> |st.events| == 2)
  }

  lemma LinesSnoc(lines: seq<Option<Chunk>>, line: Option<Chunk>)
    ensures AllContent(lines + [line]) == AllContent(lines) + LineMessage(line).content.GetOr("")
    ensures AllThinking(lines + [line]) == AllThinking(lines) + LineMessage(line).thinking.GetOr("")
    ensures LastToolCalls(lines + [line]) ==
            if LineMessage(line).toolCalls.Some? then LineMessage(line).toolCalls.value else LastToolCalls(lines)
  {
    assert (lines + [line])[..|lines|] == lines;
  }

  /** A skipped line changes nothing. */
  lemma SkipKeeps(st: StreamState, lines: seq<Option<Chunk>>, model: string, hex: nat -> string)
    requires Undone(st, lines, model, hex)
    ensures Undone(st, lines + [None], model, hex)
  {
    LinesSnoc(lines, None);
    assert AllContent(lines) + "" == AllContent(lines);
    assert AllThinking(lines) + "" == AllThinking(lines);
  }

  /** The events one chunk adds: possibly the text block's start, then possibly a content delta. */
  lemma AdvanceEvents(st: StreamState, chunk: Chunk, opening: seq<Event>, delta: seq<Event>)
    requires st.index == 0
    requires var m := LineMessage(Some(chunk));
      && opening == (if (m.content.GetOr("") != "" || m.thinking.GetOr("") != "") && !st.textStarted
                     then [ContentBlockStart(0, TextStart)] else [])
      && delta == (if m.content.GetOr("") != "" then [ContentBlockDelta(0, TextDelta(m.content.GetOr("")))] else [])
    ensures Advance(st, chunk).events == st.events + opening + delta
    ensures Advance(st, chunk).textStarted == (st.textStarted || opening != [])
  {
  }

  function TextPhase(started: bool): Phase {
    if started then InBlock(0, true) else Between(0)
  }

  /** The start of block 0, sent only while it is not open, opens it and carries no text. */
  lemma OpeningShape(wasStarted: bool, opening: seq<Event>)
    requires opening == [] || (opening == [ContentBlockStart(0, TextStart)] && !wasStarted)
    ensures ScanFrom(TextPhase(wasStarted), opening) == Some(TextPhase(wasStarted || opening != []))
    ensures TextAt(opening, 0) == ""
  {
    if opening != [] {
      assert [] + [opening[0]] == opening;
      ScanSnoc(TextPhase(wasStarted), [], opening[0]);
      TextAtSnoc([], opening[0], 0);
    }
  }

  /** A text delta to the open block 0 keeps it open and carries its text. */
  lemma DeltaShape(started: bool, delta: seq<Event>, text: string)
    requires delta == [] || (delta == [ContentBlockDelta(0, TextDelta(text))] && started)
    ensures ScanFrom(TextPhase(started), delta) == Some(TextPhase(started))
    ensures TextAt(delta, 0) == (if delta == [] then "" else text)
  {
    if delta != [] {
      assert [] + [delta[0]] == delta;
      ScanSnoc(TextPhase(started), [], delta[0]);
      TextAtSnoc([], delta[0], 0);
    }
  }

  /** Opening block 0 if it is not open yet, then adding a text delta to it. */
  lemma TextBlockAppend(events: seq<Event>, wasStarted: bool, opening: seq<Event>, delta: seq<Event>, text: string)
    requires Scan(events) == Some(TextPhase(wasStarted))
    requires opening == [] || (opening == [ContentBlockStart(0, TextStart)] && !wasStarted)
    requires delta == [] || (delta == [ContentBlockDelta(0, TextDelta(text))] && (wasStarted || opening != []))
    ensures Scan(events + opening + delta) == Some(TextPhase(wasStarted || opening != []))
    ensures TextAt(events + opening + delta, 0) == TextAt(events, 0) + (if delta == [] then "" else text)
  {
    OpeningShape(wasStarted, opening);
    DeltaShape(wasStarted || opening != [], delta, text);
    ScanAppend(Idle, events, opening);
    ScanAppend(Idle, events + opening, delta);
    TextAtAppend(events, opening, 0);
    TextAtAppend(events + opening, delta, 0);
    assert TextAt(events, 0) + "" == TextAt(events, 0);
  }

  /** What one chunk does to the protocol phase and to block 0's text. */
  lemma AdvanceOrder(st: StreamState, chunk: Chunk)
    requires st.index == 0
    requires Scan(st.events) == Some(TextPhase(st.textStarted))
    requires forall e | e in st.events :: TextDeltaSent(e) && !IsEnd(e)
    ensures var next := Advance(st, chunk);
      && Scan(next.events) == Some(TextPhase(next.textStarted))
      && TextAt(next.events, 0) == TextAt(st.events, 0) + LineMessage(Some(chunk)).content.GetOr("")
      && (forall e | e in next.events :: TextDeltaSent(e) && !IsEnd(e))
      && next.events[..|st.events|] == st.events
      && (next.textStarted && !st.textStarted ==> next.events[|st.events|] == ContentBlockStart(0, TextStart))
      && (!next.textStarted ==> next.events == st.events)
  {
    var m := LineMessage(Some(chunk));
    var cd := m.content.GetOr("");
    var td := m.thinking.GetOr("");
    var opens := (cd != "" || td != "") && !st.textStarted;
    var opening := if opens then [ContentBlockStart(0, TextStart)] else [];
    var delta := if cd != "" then [ContentBlockDelta(0, TextDelta(cd))] else [];
    AdvanceEvents(st, chunk, opening, delta);
    TextBlockAppend(st.events, st.textStarted, opening, delta, cd);
    assert (st.events + opening + delta)[..|st.events|] == st.events;
    forall e | e in st.events + opening + delta
      ensures TextDeltaSent(e) && !IsEnd(e)
    {
      assert e in st.events || e in opening || e in delta;
    }
  }

  /** A chunk without content adds at most the start of block 0, and nothing once it is open. */
  lemma AdvanceLength(st: StreamState, chunk: Chunk)
    requires st.index == 0
    requires LineMessage(Some(chunk)).content.GetOr("") == ""
    ensures st.textStarted ==> Advance(st, chunk).events == st.events
    ensures |Advance(st, chunk).events| <= |st.events| + 1
  {
    var m := LineMessage(Some(chunk));
    var opening := if (m.content.GetOr("") != "" || m.thinking.GetOr("") != "") && !st.textStarted
                   then [ContentBlockStart(0, TextStart)] else [];
    AdvanceEvents(st, chunk, opening, []);
    assert st.events + opening + [] == st.events + opening;
  }

  /** Reading one chunk keeps the invariant, before its `done` flag is looked at. */
  lemma AdvanceKeeps(st: StreamState, lines: seq<Option<Chunk>>, chunk: Chunk, model: string, hex: nat -> string)
    requires Undone(st, lines, model, hex)
    ensures Undone(Advance(st, chunk), lines + [Some(chunk)], model, hex)
  {
    LinesSnoc(lines, Some(chunk));
    AdvanceOrder(st, chunk);
    if AllContent(lines + [Some(chunk)]) == "" {
      AdvanceLength(st, chunk);
    }
    assert Advance(st, chunk).textStarted ==
           (AllContent(lines + [Some(chunk)]) != "" || AllThinking(lines + [Some(chunk)]) != "");
    assert Advance(st, chunk).events[0] == st.events[0];
    if st.textStarted {
      assert Advance(st, chunk).events[1] == st.events[1];
    }
  }

  /** Before any `done` chunk, the generator's state is described by `Undone`. */
  lemma {:induction false} RunUndone(lines: seq<Option<Chunk>>, model: string, hex: nat -> string, codec: Codec)
    requires NoDone(lines)
    ensures Undone(Run(lines, model, hex, codec), lines, model, hex)
  {
    if |lines| == 0 {
      var events := Initial(model, hex).events;
      ScanSnoc(Idle, [], events[0]);
      assert [] + [events[0]] == events;
      TextAtSnoc([], events[0], 0);
    } else {
      var n := |lines| - 1;
      assert lines == lines[..n] + [lines[n]];
      RunUndone(lines[..n], model, hex, codec);
      RunSnoc(lines[..n], lines[n], model, hex, codec);
      assert !IsDone(lines[n]);
      if lines[n].None? {
        SkipKeeps(Run(lines[..n], model, hex, codec), lines[..n], model, hex);
      } else {
        AdvanceKeeps(Run(lines[..n], model, hex, codec), lines[..n], lines[n].value, model, hex);
      }
    }
  }

  /** A reply's text becomes one text block when it is non-empty and none otherwise. */
  function TextBlocks(text: string): nat {
    if text != "" then 1 else 0
  }

  /**
   * The order and text of a completed stream: `message_start` first, every event in protocol
   * order up to `message_stop`, and block 0's text deltas (the only text deltas) adding up to
   * `text`.
   */
  ghost predicate ClosedOrder(events: seq<Event>, text: string, model: string, hex: nat -> string) {
    && |events| > 0
    && events[0] == MessageStart("msg_" + hex(0), model)
    && Scan(events) == Some(Closed)
    && TextAt(events, 0) == text
    && (forall e | e in events :: TextDeltaSent(e))
  }

  /**
   * The layout of a completed stream: block 0 is the text block, present exactly when the text
   * is non-empty; then the tool-use blocks `ToolEvents` streams for the calls with a non-empty
   * `function`, numbered on from the text block (`ToolEventsAt` shows each is the block the
   * non-streaming response holds for its call); last the stop reason (tool use exactly when any tool call came back) and `message_stop`.
   */
  ghost predicate ClosedLayout(events: seq<Event>, text: string, calls: seq<ToolCall>, hex: nat -> string, codec: Codec) {
    var used := Filter(calls, HasFunction);
    var t := TextBlocks(text);
    var s := |events| - 2 - 3 * |used|;
    && s >= 1 + 2 * t
    && (t == 1 ==> events[1] == ContentBlockStart(0, TextStart) && events[s - 1] == ContentBlockStop(0))
    && events[s..|events| - 2] == ToolEvents(used, t, hex, codec)
    && events[|events| - 2] == MessageDelta(if |calls| > 0 then TOOL_USE else END_TURN)
    && events[|events| - 1] == MessageStop
  }

  /** Without text there is no block 0: the tool-use blocks come straight after `message_start`. */
  predicate NoTextBlock(events: seq<Event>, text: string, calls: seq<ToolCall>) {
    text == "" ==> |events| == 3 + 3 * |Filter(calls, HasFunction)|
  }

  /** A completed stream for a reply with text `text` and tool calls `calls`. */
  ghost predicate ClosedStream(events: seq<Event>, text: string, calls: seq<ToolCall>,
                               model: string, hex: nat -> string, codec: Codec) {
    ClosedOrder(events, text, model, hex) && ClosedLayout(events, text, calls, hex, codec) && NoTextBlock(events, text, calls)
  }

  /** The events of the `done` branch up to the tool-use blocks: the thinking fallback and the close of block 0. */
  function TextEvents(st: StreamState): seq<Event> {
    var useThinking := st.fullContent == "" && st.fullThinking != "";
    var started := st.textStarted || useThinking;
    st.events
      + (if useThinking && !st.textStarted then [ContentBlockStart(st.index, TextStart)] else [])
      + (if useThinking then [ContentBlockDelta(st.index, TextDelta(st.fullThinking))] else [])
      + (if started then [ContentBlockStop(st.index)] else [])
  }

  lemma FinishSplit(st: StreamState, hex: nat -> string, codec: Codec)
    ensures var started := st.textStarted || (st.fullContent == "" && st.fullThinking != "");
      Finish(st, hex, codec).events ==
        TextEvents(st)
          + ToolEvents(Filter(st.toolCalls, HasFunction), if started then st.index + 1 else st.index, hex, codec)
          + [MessageDelta(if |st.toolCalls| > 0 then TOOL_USE else END_TURN), MessageStop]
  {
  }

  /**
   * Before the tool-use blocks, the events hold the text block exactly when there is text, with
   * that text, closed; block 0 is the only one so far.
   */
  lemma TextEventsShape(st: StreamState, lines: seq<Option<Chunk>>, model: string, hex: nat -> string)
    requires Undone(st, lines, model, hex)
    ensures var text := if st.fullContent != "" then st.fullContent else st.fullThinking;
      var t := TextBlocks(text);
      var a := TextEvents(st);
      && Scan(a) == Some(Between(t))
      && TextAt(a, 0) == text
      && |a| >= 1 + 2 * t
      && a[0] == MessageStart("msg_" + hex(0), model)
      && (forall e | e in a :: TextDeltaSent(e) && !IsEnd(e))
      && (t == 0 ==> |a| == 1)
      && (t == 1 ==> a[1] == ContentBlockStart(0, TextStart) && a[|a| - 1] == ContentBlockStop(0))
    ensures st.fullContent == "" && st.fullThinking != "" ==> st.textStarted
    ensures st.fullContent == "" && st.fullThinking != "" ==>
      TextEvents(st) == [MessageStart("msg_" + hex(0), model), ContentBlockStart(0, TextStart),
                         ContentBlockDelta(0, TextDelta(st.fullThinking)), ContentBlockStop(0)]
  {
    var useThinking := st.fullContent == "" && st.fullThinking != "";
    // Any thinking piece has already opened block 0, so the fallback never opens it itself.
    assert useThinking ==> st.textStarted;
    if !st.textStarted {
      // No text at all: the `done` branch adds nothing before the tool-use blocks.
      assert TextEvents(st) == st.events;
      return;
    }
    var delta := if useThinking then [ContentBlockDelta(0, TextDelta(st.fullThinking))] else [];
    assert TextEvents(st) == st.events + delta + [ContentBlockStop(0)];
    CloseTextBlock(st.events, delta, st.fullThinking);
    ClosedTextEvents(st.events, delta, st.fullThinking);
  }

  /** Closing an open block 0, after at most one more text delta, ends its text and its phase. */
  lemma CloseTextBlock(events: seq<Event>, delta: seq<Event>, text: string)
    requires Scan(events) == Some(TextPhase(true))
    requires delta == [] || delta == [ContentBlockDelta(0, TextDelta(text))]
    ensures Scan(events + delta + [ContentBlockStop(0)]) == Some(Between(1))
    ensures delta == [] ==> TextAt(events + delta + [ContentBlockStop(0)], 0) == TextAt(events, 0)
    ensures delta != [] ==> TextAt(events + delta + [ContentBlockStop(0)], 0) == TextAt(events, 0) + text
  {
    var filled := events + delta;
    TextBlockAppend(events, true, [], delta, text);
    assert events + [] + delta == filled;
    ScanAppend(Idle, filled, [ContentBlockStop(0)]);
    TextAtAppend(filled, [ContentBlockStop(0)], 0);
    ScanSnoc(TextPhase(true), [], ContentBlockStop(0));
    assert [] + [ContentBlockStop(0)] == [ContentBlockStop(0)];
    TextAtSnoc([], ContentBlockStop(0), 0);
  }

  /** The events of a closed text block keep the opening events and add no end or stray delta. */
  lemma ClosedTextEvents(events: seq<Event>, delta: seq<Event>, text: string)
    requires |events| > 1
    requires forall e | e in events :: TextDeltaSent(e) && !IsEnd(e)
    requires delta == [] || (delta == [ContentBlockDelta(0, TextDelta(text))] && text != "")
    ensures var a := events + delta + [ContentBlockStop(0)];
      && a[0] == events[0] && a[1] == events[1] && a[|a| - 1] == ContentBlockStop(0)
      && (forall e | e in a :: TextDeltaSent(e) && !IsEnd(e))
  {
    var a := events + delta + [ContentBlockStop(0)];
    forall e | e in a ensures TextDeltaSent(e) && !IsEnd(e) {
      assert e in events || e in delta || e == ContentBlockStop(0);
    }
  }

  /** The last two events take a phase between blocks to the end, and carry no text. */
  lemma TailShape(p: Phase, stopReason: string)
    requires p.Between?
    ensures ScanFrom(p, [MessageDelta(stopReason), MessageStop]) == Some(Closed)
    ensures TextAt([MessageDelta(stopReason), MessageStop], 0) == ""
  {
    var tail := [MessageDelta(stopReason), MessageStop];
    ScanSnoc(p, [], tail[0]);
    assert [] + [tail[0]] == [tail[0]];
    ScanSnoc(p, [tail[0]], tail[1]);
    assert [tail[0]] + [tail[1]] == tail;
    TextAtSnoc([], tail[0], 0);
    TextAtSnoc([tail[0]], tail[1], 0);
  }

  /** Appending the tool-use blocks and the two closing events keeps the order and the text. */
  lemma AssembleOrder(a: seq<Event>, calls: seq<ToolCall>, text: string, t: nat, model: string, hex: nat -> string, codec: Codec)
    requires t == TextBlocks(text)
    requires Scan(a) == Some(Between(t))
    requires TextAt(a, 0) == text
    requires |a| > 0 && a[0] == MessageStart("msg_" + hex(0), model)
    requires forall e | e in a :: TextDeltaSent(e)
    ensures ClosedOrder(a + ToolEvents(Filter(calls, HasFunction), t, hex, codec)
                          + [MessageDelta(if |calls| > 0 then TOOL_USE else END_TURN), MessageStop],
                        text, model, hex)
  {
    var used := Filter(calls, HasFunction);
    var tools := ToolEvents(used, t, hex, codec);
    var tail := [MessageDelta(if |calls| > 0 then TOOL_USE else END_TURN), MessageStop];
    ToolEventsScan(used, t, hex, codec);
    ScanAppend(Idle, a, tools);
    ScanAppend(Idle, a + tools, tail);
    TailShape(Between(t + |used|), tail[0].stopReason);
    ToolEventsText(used, t, hex, codec, 0);
    TextAtAppend(a, tools, 0);
    TextAtAppend(a + tools, tail, 0);
    ToolEventsKinds(used, t, hex, codec);
    assert (a + tools + tail)[0] == a[0];
    assert TextAt(a + tools + tail, 0) == text;
    forall e | e in a + tools + tail
      ensures TextDeltaSent(e)
    {
      assert e in a || e in tools || e in tail;
    }
  }

  /** Without text the assembled stream has no block 0: only `message_start` precedes the tool-use blocks. */
  lemma AssembleNoTextBlock(a: seq<Event>, calls: seq<ToolCall>, text: string, tools: seq<Event>,
                            hex: nat -> string, codec: Codec)
    requires text == "" ==> |a| == 1
    requires tools == ToolEvents(Filter(calls, HasFunction), TextBlocks(text), hex, codec)
    ensures NoTextBlock(a + tools + [MessageDelta(if |calls| > 0 then TOOL_USE else END_TURN), MessageStop], text, calls)
  {
  }

  /** Appending the tool-use blocks and the two closing events lays them out after the text block. */
  lemma AssembleLayout(a: seq<Event>, calls: seq<ToolCall>, text: string, hex: nat -> string, codec: Codec)
    requires var t := TextBlocks(text);
      && |a| >= 1 + 2 * t
      && (t == 1 ==> a[1] == ContentBlockStart(0, TextStart) && a[|a| - 1] == ContentBlockStop(0))
    ensures var t := TextBlocks(text);
      ClosedLayout(a + ToolEvents(Filter(calls, HasFunction), t, hex, codec)
                     + [MessageDelta(if |calls| > 0 then TOOL_USE else END_TURN), MessageStop],
                   text, calls, hex, codec)
  {
    ghost var events := a + ToolEvents(Filter(calls, HasFunction), TextBlocks(text), hex, codec)
                          + [MessageDelta(if |calls| > 0 then TOOL_USE else END_TURN), MessageStop];
    assert |events| - 2 - 3 * |Filter(calls, HasFunction)| == |a|;
    assert events[|a|..|events| - 2] == ToolEvents(Filter(calls, HasFunction), TextBlocks(text), hex, codec);
    assert events[..|a|] == a;
  }

  /**
   * Without content, the thinking goes out at `done` as a single delta of block 0, straight
   * after `message_start` and the block's start.
   */
  predicate ThinkingAsOneDelta(events: seq<Event>, content: string, thinking: string, model: string, hex: nat -> string) {
    content == "" && thinking != "" ==>
      |events| >= 4 &&
      events[..4] == [MessageStart("msg_" + hex(0), model), ContentBlockStart(0, TextStart),
                      ContentBlockDelta(0, TextDelta(thinking)), ContentBlockStop(0)]
  }

  /** The `done` branch, run on any state before it, completes the stream. */
  lemma FinishClosed(st: StreamState, lines: seq<Option<Chunk>>, model: string, hex: nat -> string, codec: Codec)
    requires Undone(st, lines, model, hex)
    ensures ClosedStream(Finish(st, hex, codec).events,
                         if AllContent(lines) != "" then AllContent(lines) else AllThinking(lines),
                         LastToolCalls(lines), model, hex, codec)
    ensures ThinkingAsOneDelta(Finish(st, hex, codec).events, AllContent(lines), AllThinking(lines), model, hex)
  {
    var text := if st.fullContent != "" then st.fullContent else st.fullThinking;
    var t := TextBlocks(text);
    var started := st.textStarted || (st.fullContent == "" && st.fullThinking != "");
    assert st.index == 0 && started == (text != "");
    assert (if started then st.index + 1 else st.index) == t;
    FinishSplit(st, hex, codec);
    var a := TextEvents(st);
    TextEventsShape(st, lines, model, hex);
    assert forall e | e in a :: TextDeltaSent(e);
    AssembleOrder(a, st.toolCalls, text, t, model, hex, codec);
    AssembleLayout(a, st.toolCalls, text, hex, codec);
    AssembleNoTextBlock(a, st.toolCalls, text, ToolEvents(Filter(st.toolCalls, HasFunction), t, hex, codec), hex, codec);
    FinishThinking(st, lines, model, hex, codec);
  }

  /** The `done` branch sends the thinking fallback as one delta. */
  lemma FinishThinking(st: StreamState, lines: seq<Option<Chunk>>, model: string, hex: nat -> string, codec: Codec)
    requires Undone(st, lines, model, hex)
    ensures ThinkingAsOneDelta(Finish(st, hex, codec).events, AllContent(lines), AllThinking(lines), model, hex)
  {
    if st.fullContent == "" && st.fullThinking != "" {
      FinishSplit(st, hex, codec);
      TextEventsShape(st, lines, model, hex);
      assert Finish(st, hex, codec).events[..4] == TextEvents(st);
    }
  }

  /** The reply's text as the stream settles it: the content, or the thinking when there is no content. */
  function ReplyText(lines: seq<Option<Chunk>>): string {
    if AllContent(lines) != "" then AllContent(lines) else AllThinking(lines)
  }

  /** The generator has finished exactly when one of the lines read was a `done` chunk. */
  lemma {:induction false} FinishedIffDone(lines: seq<Option<Chunk>>, model: string, hex: nat -> string, codec: Codec)
    ensures Run(lines, model, hex, codec).finished <==> exists k :: 0 <= k < |lines| && IsDone(lines[k])
  {
    if |lines| > 0 {
      var n := |lines| - 1;
      FinishedIffDone(lines[..n], model, hex, codec);
      if exists k :: 0 <= k < n && IsDone(lines[..n][k]) {
        var k :| 0 <= k < n && IsDone(lines[..n][k]);
        assert IsDone(lines[k]);
      }
      if exists k :: 0 <= k < |lines| && IsDone(lines[k]) {
        var k :| 0 <= k < |lines| && IsDone(lines[k]);
        if k < n {
          assert IsDone(lines[..n][k]);
        }
      }
    }
  }

  /** Whatever follows a `done` chunk is never read: the events are those of the lines up to it. */
  lemma IgnoresAfterDone(status: int, errorText: string, lines: seq<Option<Chunk>>, post: seq<Option<Chunk>>,
                         model: string, hex: nat -> string, codec: Codec)
    requires exists k :: 0 <= k < |lines| && IsDone(lines[k])
    ensures StreamEvents(status, errorText, lines + post, model, hex, codec) ==
            StreamEvents(status, errorText, lines, model, hex, codec)
  {
    FinishedIffDone(lines, model, hex, codec);
    assert (lines + post)[..|lines|] == lines;
    RunFinished(lines + post, |lines|, model, hex, codec);
  }

  /**
   * A stream whose upstream body contains a `done` chunk is complete: in protocol order, with
   * the reply's text in block 0 (when there is any), one tool-use block per call with a
   * non-empty `function` from the last `tool_calls` seen, and the stop reason.
   */
  lemma StreamCompletes(errorText: string, pre: seq<Option<Chunk>>, chunk: Chunk, post: seq<Option<Chunk>>,
                        model: string, hex: nat -> string, codec: Codec)
    requires NoDone(pre) && chunk.done.GetOr(false)
    ensures var lines := pre + [Some(chunk)];
      ClosedStream(StreamEvents(200, errorText, lines + post, model, hex, codec),
                   ReplyText(lines), LastToolCalls(lines), model, hex, codec)
    ensures var lines := pre + [Some(chunk)];
      ThinkingAsOneDelta(StreamEvents(200, errorText, lines + post, model, hex, codec),
                         AllContent(lines), AllThinking(lines), model, hex)
  {
    var lines := pre + [Some(chunk)];
    assert IsDone(lines[|pre|]);
    IgnoresAfterDone(200, errorText, lines, post, model, hex, codec);
    RunUndone(pre, model, hex, codec);
    RunSnoc(pre, Some(chunk), model, hex, codec);
    AdvanceKeeps(Run(pre, model, hex, codec), pre, chunk, model, hex);
    FinishClosed(Advance(Run(pre, model, hex, codec), chunk), lines, model, hex, codec);
  }

  /**
   * A body that ends without a `done` chunk leaves the stream open: it starts with
   * `message_start`, block 0 carries the content read so far, and no stop reason and no
   * `message_stop` are ever sent; the text block is not closed.
   */
  lemma StreamTruncated(errorText: string, lines: seq<Option<Chunk>>, model: string, hex: nat -> string, codec: Codec)
    requires NoDone(lines)
    ensures var events := StreamEvents(200, errorText, lines, model, hex, codec);
      && |events| > 0 && events[0] == MessageStart("msg_" + hex(0), model)
      && Scan(events) == Some(TextPhase(AllContent(lines) != "" || AllThinking(lines) != ""))
      && TextAt(events, 0) == AllContent(lines)
      && (forall e | e in events :: !IsEnd(e))
  {
    RunUndone(lines, model, hex, codec);
  }

  /** What the chunks add up to, as one non-streaming backend reply. */
  function Accumulated(lines: seq<Option<Chunk>>): ChatResponse {
    ChatResponse(Some(ChatMessage(Some(AllContent(lines)), Some(AllThinking(lines)), Some(LastToolCalls(lines)))))
  }

  lemma SliceOfSlice<T>(s: seq<T>, lo: nat, hi: nat, i: nat, j: nat)
    requires lo <= hi <= |s| && i <= j <= hi - lo
    ensures s[lo..hi][i..j] == s[lo + i..lo + j]
  {
    forall k | 0 <= k < j - i
      ensures s[lo..hi][i..j][k] == s[lo + i..lo + j][k]
    {
    }
  }

  /** The `j`-th tool-use block laid out from position `s`. */
  lemma BlockAt(events: seq<Event>, s: nat, used: seq<ToolCall>, t: nat, hex: nat -> string, codec: Codec, j: nat)
    requires s == |events| - 2 - 3 * |used| && j < |used|
    requires events[s..|events| - 2] == ToolEvents(used, t, hex, codec)
    ensures s + 3 * j + 3 <= |events|
    ensures events[s + 3 * j..s + 3 * j + 3] == ToolUseEvents(ToolUseBlockFor(used[j], ToolUseId(hex, j)), t + j, codec)
  {
    ToolEventsAt(used, t, hex, codec, j);
    SliceOfSlice(events, s, |events| - 2, 3 * j, 3 * j + 3);
  }

  /** Tool blocks laid out from position `s` are the streamed form of the content's tool-use blocks. */
  lemma BlocksMatch(events: seq<Event>, s: int, used: seq<ToolCall>, t: nat, content: seq<ResponseBlock>,
                    hex: nat -> string, codec: Codec)
    requires s == |events| - 2 - 3 * |used| && s >= 0
    requires events[s..|events| - 2] == ToolEvents(used, t, hex, codec)
    requires |content| == t + |used| && t == TextCount(content)
    requires forall k :: t <= k < |content| ==> content[k] == ToolUseBlockFor(used[k - t], ToolUseId(hex, k - t))
    ensures StreamedToolUses(events, |events| - 2 - 3 * (|content| - TextCount(content)), content, TextCount(content), codec)
  {
    forall k | t <= k < |content|
      ensures content[k].ToolUseBlock? && 0 <= s + 3 * (k - t) && s + 3 * (k - t) + 3 <= |events|
      ensures events[s + 3 * (k - t)..s + 3 * (k - t) + 3] == ToolUseEvents(content[k], k, codec)
    {
      BlockAt(events, s, used, t, hex, codec, k - t);
    }
    StreamedToolUsesAt(events, s, |events| - 2 - 3 * (|content| - TextCount(content)), content, t, TextCount(content), codec);
  }

  /**
   * `ResponseContent` indexed the way the stream numbers its tool-use blocks: the block after
   * the text block at offset `k` is the one for the `k`-th call with a non-empty `function`.
   */
  lemma ResponseParts(reply: ChatResponse, model: string, hex: nat -> string)
    ensures var m := reply.message.GetOr(EMPTY_MESSAGE);
      var text := ResponseText(m);
      var used := Filter(m.toolCalls.GetOr([]), HasFunction);
      var content := AnthropicResponse(reply, model, hex).content;
      var t := TextCount(content);
      && t == TextBlocks(text)
      && |content| == t + |used|
      && (t == 1 ==> content[0].text == text)
      && forall k :: t <= k < |content| ==> content[k] == ToolUseBlockFor(used[k - t], ToolUseId(hex, k - t))
  {
    var m := reply.message.GetOr(EMPTY_MESSAGE);
    var text := ResponseText(m);
    var blocks := ToolUseBlocks(m.toolCalls.GetOr([]), hex);
    var content := AnthropicResponse(reply, model, hex).content;
    var t := TextBlocks(text);
    ResponseContent(reply, model, hex);
    assert content == (if text != "" then [TextBlock(text)] else []) + blocks;
    forall k | t <= k < |content|
      ensures content[k] == blocks[k - t]
    {
    }
  }

  /** The number of text blocks at the head of a response's content (0 or 1). */
  function TextCount(content: seq<ResponseBlock>): nat {
    if |content| > 0 && content[0].TextBlock? then 1 else 0
  }

  /**
   * `events` carries response `r`: the same message id and model, the text block's text as
   * block 0's deltas, each tool-use block streamed at its own position as start, one input
   * delta and stop, and the same stop reason.
   */
  ghost predicate Carries(events: seq<Event>, r: MessageResponse, codec: Codec) {
    var t := TextCount(r.content);
    var s := |events| - 2 - 3 * (|r.content| - t);
    && |r.content| >= t && s >= 1
    && events[0] == MessageStart(r.id, r.model)
    && TextAt(events, 0) == (if t == 1 then r.content[0].text else "")
    && StreamedToolUses(events, s, r.content, t, codec)
    && events[|events| - 2] == MessageDelta(r.stopReason)
  }

  /** From event `s` on, the content's blocks from `t` on are streamed in order, three events each. */
  ghost predicate StreamedToolUses(events: seq<Event>, s: int, content: seq<ResponseBlock>, t: nat, codec: Codec) {
    forall k :: t <= k < |content| ==>
      && content[k].ToolUseBlock?
      && 0 <= s + 3 * (k - t) && s + 3 * (k - t) + 3 <= |events|
      && events[s + 3 * (k - t)..s + 3 * (k - t) + 3] == ToolUseEvents(content[k], k, codec)
  }

  /**
   * A completed stream carries any response with the same id, model, text, tool-use blocks
   * and stop reason; `t` counts the text block.
   */
  lemma ClosedCarries(events: seq<Event>, text: string, calls: seq<ToolCall>, r: MessageResponse, t: nat,
                      hex: nat -> string, codec: Codec)
    requires ClosedLayout(events, text, calls, hex, codec)
    requires events[0] == MessageStart(r.id, r.model) && TextAt(events, 0) == text
    requires r.stopReason == (if |calls| > 0 then TOOL_USE else END_TURN)
    requires t == TextCount(r.content) && t == TextBlocks(text)
    requires |r.content| == t + |Filter(calls, HasFunction)|
    requires t == 1 ==> r.content[0].text == text
    requires forall k :: t <= k < |r.content| ==>
      r.content[k] == ToolUseBlockFor(Filter(calls, HasFunction)[k - t], ToolUseId(hex, k - t))
    ensures Carries(events, r, codec)
  {
    LayoutParts(events, text, calls, hex, codec);
    BlocksMatch(events, |events| - 2 - 3 * |Filter(calls, HasFunction)|, Filter(calls, HasFunction), t, r.content, hex, codec);
  }

  /** `StreamedToolUses` with its position and count given by other, equal, terms. */
  lemma StreamedToolUsesAt(events: seq<Event>, s: int, s2: int, content: seq<ResponseBlock>, t: nat, t2: nat, codec: Codec)
    requires s == s2 && t == t2
    requires StreamedToolUses(events, s, content, t, codec)
    ensures StreamedToolUses(events, s2, content, t2, codec)
  {
  }

  /** The parts of a completed layout that `ClosedCarries` works from. */
  lemma LayoutParts(events: seq<Event>, text: string, calls: seq<ToolCall>, hex: nat -> string, codec: Codec)
    requires ClosedLayout(events, text, calls, hex, codec)
    ensures |events| - 2 - 3 * |Filter(calls, HasFunction)| >= 1 + 2 * TextBlocks(text)
    ensures events[|events| - 2 - 3 * |Filter(calls, HasFunction)|..|events| - 2] ==
            ToolEvents(Filter(calls, HasFunction), TextBlocks(text), hex, codec)
    ensures events[|events| - 2] == MessageDelta(if |calls| > 0 then TOOL_USE else END_TURN)
  {
  }

  /** A completed stream for some reply carries the response built from that reply. */
  lemma ClosedMatches(events: seq<Event>, reply: ChatResponse, model: string, hex: nat -> string, codec: Codec)
    requires var m := reply.message.GetOr(EMPTY_MESSAGE);
      ClosedStream(events, ResponseText(m), m.toolCalls.GetOr([]), model, hex, codec)
    ensures Carries(events, AnthropicResponse(reply, model, hex), codec)
  {
    ResponseParts(reply, model, hex);
    ClosedCarries(events, ResponseText(reply.message.GetOr(EMPTY_MESSAGE)), reply.message.GetOr(EMPTY_MESSAGE).toolCalls.GetOr([]),
                  AnthropicResponse(reply, model, hex), TextCount(AnthropicResponse(reply, model, hex).content), hex, codec);
  }

  /**
   * A completed stream carries the response the non-streaming path builds from the same reply:
   * the same message id and model, the text block's text, each tool-use block streamed as
   * the block with the same position, id, name and input, and the same stop reason.
   */
  lemma StreamMatchesResponse(errorText: string, pre: seq<Option<Chunk>>, chunk: Chunk, post: seq<Option<Chunk>>,
                              model: string, hex: nat -> string, codec: Codec)
    requires NoDone(pre) && chunk.done.GetOr(false)
    ensures var lines := pre + [Some(chunk)];
      Carries(StreamEvents(200, errorText, lines + post, model, hex, codec),
              AnthropicResponse(Accumulated(lines), model, hex), codec)
  {
    var lines := pre + [Some(chunk)];
    StreamCompletes(errorText, pre, chunk, post, model, hex, codec);
    var m := Accumulated(lines).message.GetOr(EMPTY_MESSAGE);
    assert ResponseText(m) == ReplyText(lines) && m.toolCalls.GetOr([]) == LastToolCalls(lines);
    ClosedMatches(StreamEvents(200, errorText, lines + post, model, hex, codec), Accumulated(lines), model, hex, codec);
  }
}
