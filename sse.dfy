/** `send_sse_event` and the payload each streamed event carries. */
module Sse {
  import opened Wrappers
  import opened Json
  import opened Anthropic

  /** The `event:` line of each event: one of the seven event types, so never a newline. */
  function EventName(e: Event): (r: string)
    ensures r != "" && '\n' !in r
  {
    match e
    case Error(_) => "error"
    case MessageStart(_, _) => "message_start"
    case ContentBlockStart(_, _) => "content_block_start"
    case ContentBlockDelta(_, _) => "content_block_delta"
    case ContentBlockStop(_) => "content_block_stop"
    case MessageDelta(_) => "message_delta"
    case MessageStop => "message_stop"
  }

  function Zero(): Json { Num(0.0) }

  function Index(i: nat): Json { Num(i as real) }

  /** The dictionary each event sends as its `data:` line, key for key. */
  function EventData(e: Event): Json {
    match e
    case Error(message) =>
      Obj([("type", Str("error")),
           ("error", Obj([("type", Str("upstream_error")), ("message", Str(message))]))])
    case MessageStart(id, model) =>
      Obj([("type", Str("message_start")),
           ("message", Obj([("id", Str(id)), ("type", Str("message")), ("role", Str("assistant")),
                            ("content", Arr([])), ("model", Str(model)), ("stop_reason", Null),
                            ("usage", Obj([("input_tokens", Zero()), ("output_tokens", Zero())]))]))])
    case ContentBlockStart(i, block) =>
      Obj([("type", Str("content_block_start")), ("index", Index(i)),
           ("content_block",
              match block
              case TextStart => Obj([("type", Str("text")), ("text", Str(""))])
              case ToolUseStart(id, name) =>
                Obj([("type", Str("tool_use")), ("id", Str(id)), ("name", Str(name)), ("input", Obj([]))]))])
    case ContentBlockDelta(i, delta) =>
      Obj([("type", Str("content_block_delta")), ("index", Index(i)),
           ("delta",
              match delta
              case TextDelta(text) => Obj([("type", Str("text_delta")), ("text", Str(text))])
              case InputJsonDelta(partial) => Obj([("type", Str("input_json_delta")), ("partial_json", Str(partial))]))])
    case ContentBlockStop(i) =>
      Obj([("type", Str("content_block_stop")), ("index", Index(i))])
    case MessageDelta(stopReason) =>
      Obj([("type", Str("message_delta")),
           ("delta", Obj([("stop_reason", Str(stopReason))])),
           ("usage", Obj([("output_tokens", Zero())]))])
    case MessageStop =>
      Obj([("type", Str("message_stop"))])
  }

  /** Every payload is an object whose first key, `type`, repeats the event's name. */
  lemma PayloadType(e: Event)
    ensures EventData(e).Obj? && |EventData(e).fields| > 0
    ensures EventData(e).fields[0] == ("type", Str(EventName(e)))
  {
  }

  /** One server-sent-events frame: an `event:` line, a `data:` line and a blank line. */
  function SseFrame(eventType: string, data: Json, dumps: Json -> string): string {
    "event: " + eventType + "\ndata: " + dumps(data) + "\n\n"
  }

  /** The frame the shim writes for an event. */
  function EventFrame(e: Event, codec: Codec): string {
    SseFrame(EventName(e), EventData(e), codec.dumps)
  }

  /** Where the first newline of `s` is, if any. */
  function LineEnd(s: string): (r: Option<nat>)
    ensures r.Some? ==> r.value < |s| && s[r.value] == '\n' && '\n' !in s[..r.value]
    ensures r.None? ==> '\n' !in s
  {
    if |s| == 0 then None
    else if s[0] == '\n' then Some(0)
    else match LineEnd(s[1..]) {
      case None => None
      case Some(k) => assert s[..k + 1] == [s[0]] + s[1..][..k]; Some(k + 1)
    }
  }

  /** What follows `prefix` in `s`, when `s` starts with it. */
  function StripPrefix(prefix: string, s: string): Option<string> {
    if |s| < |prefix| || s[..|prefix|] != prefix then None else Some(s[|prefix|..])
  }

  /** The first line of `s` and what follows its newline, when `s` holds a newline. */
  function TakeLine(s: string): Option<(string, string)> {
    match LineEnd(s)
    case None => None
    case Some(i) => Some((s[..i], s[i + 1..]))
  }

  /** How a client reads one frame back: the event type and the data text. */
  function ParseFrame(frame: string): Option<(string, string)> {
    match StripPrefix("event: ", frame)
    case None => None
    case Some(rest) =>
      match TakeLine(rest)
      case None => None
      case Some((eventType, afterName)) =>
        match StripPrefix("data: ", afterName)
        case None => None
        case Some(body) =>
          match TakeLine(body)
          case None => None
          case Some((data, end)) => if end == "\n" then Some((eventType, data)) else None
  }

  lemma {:induction false} LineEndAt(a: string, b: string)
    requires '\n' !in a
    ensures LineEnd(a + "\n" + b) == Some(|a|)
  {
    if |a| > 0 {
      assert a[0] in a;
      assert (a + "\n" + b)[1..] == a[1..] + "\n" + b;
      LineEndAt(a[1..], b);
    }
  }

  /** A line without a newline, its newline and what follows split back apart. */
  lemma TakeLineAt(line: string, tail: string)
    requires '\n' !in line
    ensures TakeLine(line + ("\n" + tail)) == Some((line, tail))
  {
    assert line + ("\n" + tail) == line + "\n" + tail;
    LineEndAt(line, tail);
    assert (line + "\n" + tail)[..|line|] == line;
    assert (line + "\n" + tail)[|line| + 1..] == tail;
  }

  lemma StripPrefixAt(prefix: string, tail: string)
    ensures StripPrefix(prefix, prefix + tail) == Some(tail)
  {
    assert (prefix + tail)[..|prefix|] == prefix;
  }

  /**
   * A frame reads back as its event type and its data text, as long as neither holds a
   * newline (json.dumps without indentation writes none).
   */
  lemma FrameRoundTrip(eventType: string, data: Json, dumps: Json -> string)
    requires '\n' !in eventType && '\n' !in dumps(data)
    ensures ParseFrame(SseFrame(eventType, data, dumps)) == Some((eventType, dumps(data)))
  {
    var body := dumps(data) + ("\n" + "\n");
    var afterName := "data: " + body;
    var rest := eventType + ("\n" + afterName);
    assert SseFrame(eventType, data, dumps) == "event: " + rest;
    StripPrefixAt("event: ", rest);
    TakeLineAt(eventType, afterName);
    StripPrefixAt("data: ", body);
    TakeLineAt(dumps(data), "\n");
  }

  /** The index of an event payload, when it is a non-negative whole number. */
  function IndexOf(fields: seq<(string, Json)>): Option<nat> {
    match Get(fields, "index")
    case Some(Num(n)) => if n >= 0.0 && n == n.Floor as real then Some(n.Floor as nat) else None
    case _ => None
  }

  /** A string stored under `key` in an object. */
  function StrAt(j: Json, key: string): Option<string> {
    if j.Obj? then
      match Get(j.fields, key)
      case Some(Str(s)) => Some(s)
      case _ => None
    else None
  }

  /** Decodes an `error` payload. */
  function DecodeError(fields: seq<(string, Json)>): Option<Event> {
    match Get(fields, "error")
    case Some(err) => (match StrAt(err, "message") case Some(m) => Some(Error(m)) case None => None)
    case None => None
  }

  /** Decodes a `message_start` payload. */
  function DecodeMessageStart(fields: seq<(string, Json)>): Option<Event> {
    match Get(fields, "message")
    case Some(msg) =>
      if StrAt(msg, "id").Some? && StrAt(msg, "model").Some? then
        Some(MessageStart(StrAt(msg, "id").value, StrAt(msg, "model").value))
      else None
    case None => None
  }

  /** Decodes a `content_block_start` payload. */
  function DecodeBlockStart(fields: seq<(string, Json)>): Option<Event> {
    match (IndexOf(fields), Get(fields, "content_block"))
    case (Some(i), Some(block)) =>
      if StrAt(block, "type") == Some("text") then Some(ContentBlockStart(i, TextStart))
      else if StrAt(block, "type") == Some("tool_use") && StrAt(block, "id").Some? && StrAt(block, "name").Some? then
        Some(ContentBlockStart(i, ToolUseStart(StrAt(block, "id").value, StrAt(block, "name").value)))
      else None
    case _ => None
  }

  /** Decodes a `content_block_delta` payload. */
  function DecodeBlockDelta(fields: seq<(string, Json)>): Option<Event> {
    match (IndexOf(fields), Get(fields, "delta"))
    case (Some(i), Some(delta)) =>
      if StrAt(delta, "type") == Some("text_delta") && StrAt(delta, "text").Some? then
        Some(ContentBlockDelta(i, TextDelta(StrAt(delta, "text").value)))
      else if StrAt(delta, "type") == Some("input_json_delta") && StrAt(delta, "partial_json").Some? then
        Some(ContentBlockDelta(i, InputJsonDelta(StrAt(delta, "partial_json").value)))
      else None
    case _ => None
  }

  /** Decodes a `message_delta` payload. */
  function DecodeMessageDelta(fields: seq<(string, Json)>): Option<Event> {
    match Get(fields, "delta")
    case Some(delta) => (match StrAt(delta, "stop_reason") case Some(r) => Some(MessageDelta(r)) case None => None)
    case None => None
  }

  /** How a client decodes a frame's type and payload back into an event. */
  function DecodeEvent(name: string, data: Json): Option<Event> {
    if !data.Obj? then None
    else if name == "error" then DecodeError(data.fields)
    else if name == "message_start" then DecodeMessageStart(data.fields)
    else if name == "content_block_start" then DecodeBlockStart(data.fields)
    else if name == "content_block_delta" then DecodeBlockDelta(data.fields)
    else if name == "content_block_stop" then
      (match IndexOf(data.fields) case Some(i) => Some(ContentBlockStop(i)) case None => None)
    else if name == "message_delta" then DecodeMessageDelta(data.fields)
    else if name == "message_stop" then Some(MessageStop)
    else None
  }

  lemma IndexRoundTrip(fields: seq<(string, Json)>, i: nat)
    requires |fields| > 1 && fields[0].0 == "type" && fields[1] == ("index", Index(i))
    ensures IndexOf(fields) == Some(i)
  {
    assert (i as real).Floor == i;
    GetFirst(fields, "index", 1);
  }

  lemma BlockStartRoundTrip(i: nat, block: StartBlock)
    ensures DecodeBlockStart(EventData(ContentBlockStart(i, block)).fields) == Some(ContentBlockStart(i, block))
    ensures DecodeEvent(EventName(ContentBlockStart(i, block)), EventData(ContentBlockStart(i, block))) == Some(ContentBlockStart(i, block))
  {
    match block
    case TextStart => TextStartRoundTrip(i);
    case ToolUseStart(id, name) => ToolUseStartRoundTrip(i, id, name);
  }

  lemma TextStartRoundTrip(i: nat)
    ensures DecodeBlockStart(EventData(ContentBlockStart(i, TextStart)).fields) == Some(ContentBlockStart(i, TextStart))
  {
    var cb := [("type", Str("text")), ("text", Str(""))];
    var fields := [("type", Str("content_block_start")), ("index", Index(i)), ("content_block", Obj(cb))];
    assert EventData(ContentBlockStart(i, TextStart)).fields == fields;
    IndexRoundTrip(fields, i);
    GetFirst(fields, "content_block", 2);
    GetFirst(cb, "type", 0);
  }

  lemma ToolUseStartRoundTrip(i: nat, id: string, name: string)
    ensures DecodeBlockStart(EventData(ContentBlockStart(i, ToolUseStart(id, name))).fields)
      == Some(ContentBlockStart(i, ToolUseStart(id, name)))
  {
    var cb := [("type", Str("tool_use")), ("id", Str(id)), ("name", Str(name)), ("input", Obj([]))];
    var fields := [("type", Str("content_block_start")), ("index", Index(i)), ("content_block", Obj(cb))];
    assert EventData(ContentBlockStart(i, ToolUseStart(id, name))).fields == fields;
    IndexRoundTrip(fields, i);
    GetFirst(fields, "content_block", 2);
    GetFirst(cb, "type", 0);
    GetFirst(cb, "id", 1);
    GetFirst(cb, "name", 2);
  }

  lemma BlockDeltaRoundTrip(i: nat, delta: Delta)
    ensures DecodeBlockDelta(EventData(ContentBlockDelta(i, delta)).fields) == Some(ContentBlockDelta(i, delta))
    ensures DecodeEvent(EventName(ContentBlockDelta(i, delta)), EventData(ContentBlockDelta(i, delta))) == Some(ContentBlockDelta(i, delta))
  {
    DecodeDeltaEvent(EventData(ContentBlockDelta(i, delta)).fields);
    match delta
    case TextDelta(text) => TextDeltaRoundTrip(i, text);
    case InputJsonDelta(partial) => InputJsonDeltaRoundTrip(i, partial);
  }

  /** A `content_block_delta` frame is decoded by `DecodeBlockDelta`. */
  lemma DecodeDeltaEvent(fields: seq<(string, Json)>)
    ensures DecodeEvent("content_block_delta", Obj(fields)) == DecodeBlockDelta(fields)
  {
  }

  lemma TextDeltaRoundTrip(i: nat, text: string)
    ensures DecodeBlockDelta(EventData(ContentBlockDelta(i, TextDelta(text))).fields) == Some(ContentBlockDelta(i, TextDelta(text)))
  {
    var d := [("type", Str("text_delta")), ("text", Str(text))];
    var fields := [("type", Str("content_block_delta")), ("index", Index(i)), ("delta", Obj(d))];
    assert EventData(ContentBlockDelta(i, TextDelta(text))).fields == fields;
    IndexRoundTrip(fields, i);
    GetFirst(fields, "delta", 2);
    GetFirst(d, "type", 0);
    GetFirst(d, "text", 1);
  }

  lemma InputJsonDeltaRoundTrip(i: nat, partial: string)
    ensures DecodeBlockDelta(EventData(ContentBlockDelta(i, InputJsonDelta(partial))).fields)
      == Some(ContentBlockDelta(i, InputJsonDelta(partial)))
  {
    var d := [("type", Str("input_json_delta")), ("partial_json", Str(partial))];
    var fields := [("type", Str("content_block_delta")), ("index", Index(i)), ("delta", Obj(d))];
    assert EventData(ContentBlockDelta(i, InputJsonDelta(partial))).fields == fields;
    IndexRoundTrip(fields, i);
    GetFirst(fields, "delta", 2);
    GetFirst(d, "type", 0);
    GetFirst(d, "partial_json", 1);
  }

  lemma ErrorRoundTrip(message: string)
    ensures DecodeError(EventData(Error(message)).fields) == Some(Error(message))
    ensures DecodeEvent(EventName(Error(message)), EventData(Error(message))) == Some(Error(message))
  {
    var err := [("type", Str("upstream_error")), ("message", Str(message))];
    var fields := [("type", Str("error")), ("error", Obj(err))];
    assert EventData(Error(message)).fields == fields;
    GetFirst(fields, "error", 1);
    GetFirst(err, "message", 1);
  }

  lemma MessageStartRoundTrip(id: string, model: string)
    ensures DecodeMessageStart(EventData(MessageStart(id, model)).fields) == Some(MessageStart(id, model))
    ensures DecodeEvent(EventName(MessageStart(id, model)), EventData(MessageStart(id, model))) == Some(MessageStart(id, model))
  {
    var msg := EventData(MessageStart(id, model)).fields[1].1.fields;
    assert msg[0] == ("id", Str(id)) && msg[4] == ("model", Str(model));
    GetFirst(EventData(MessageStart(id, model)).fields, "message", 1);
    GetFirst(msg, "id", 0);
    GetFirst(msg, "model", 4);
  }

  lemma MessageDeltaRoundTrip(stopReason: string)
    ensures DecodeMessageDelta(EventData(MessageDelta(stopReason)).fields) == Some(MessageDelta(stopReason))
    ensures DecodeEvent(EventName(MessageDelta(stopReason)), EventData(MessageDelta(stopReason))) == Some(MessageDelta(stopReason))
  {
    var delta := [("stop_reason", Str(stopReason))];
    var fields := EventData(MessageDelta(stopReason)).fields;
    assert fields[1] == ("delta", Obj(delta));
    GetFirst(fields, "delta", 1);
    GetFirst(delta, "stop_reason", 0);
  }

  lemma BlockStopRoundTrip(i: nat)
    ensures DecodeEvent(EventName(ContentBlockStop(i)), EventData(ContentBlockStop(i))) == Some(ContentBlockStop(i))
  {
    IndexRoundTrip(EventData(ContentBlockStop(i)).fields, i);
  }

  /**
   * Every event payload decodes back to the event it was built from, and the frame the shim
   * writes for it reads back as its name and its serialised payload.
   */
  lemma EventRoundTrip(e: Event, codec: Codec)
    ensures DecodeEvent(EventName(e), EventData(e)) == Some(e)
    ensures '\n' !in codec.dumps(EventData(e)) ==>
      ParseFrame(EventFrame(e, codec)) == Some((EventName(e), codec.dumps(EventData(e))))
  {
    if '\n' !in codec.dumps(EventData(e)) {
      FrameRoundTrip(EventName(e), EventData(e), codec.dumps);
    }
    match e
    case ContentBlockStart(i, block) => BlockStartRoundTrip(i, block);
    case ContentBlockDelta(i, delta) => BlockDeltaRoundTrip(i, delta);
    case ContentBlockStop(i) => BlockStopRoundTrip(i);
    case Error(message) => ErrorRoundTrip(message);
    case MessageStart(id, model) => MessageStartRoundTrip(id, model);
    case MessageDelta(stopReason) => MessageDeltaRoundTrip(stopReason);
    case MessageStop =>
  }
}
