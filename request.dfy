/** The request assembly of `create_message`: parameter defaults and which optional keys appear. */
module Request {
  import opened Wrappers
  import opened Json
  import opened Seqs
  import opened Anthropic
  import opened Ollama
  import opened Tools
  import opened Messages

  const DEFAULT_MAX_TOKENS := Num(4096.0)
  const DEFAULT_TEMPERATURE := Num(0.2)

  /** The answer to any exception raised while handling the request. */
  const INTERNAL_ERROR := ErrorBody(500, "internal_error", "unhandled exception")

  /**
   * The backend request built from a client body, with `model` the configured backend model.
   * It fails exactly when translating the messages raises.
   */
  function BuildRequest(body: RequestBody, model: string, codec: Codec): (r: Result<ChatRequest, ErrorBody>)
    ensures r.Ok? <==> MessagesToOllama(body.messages.GetOr([]), codec).Some?
    ensures r.Err? ==> r.error == INTERNAL_ERROR
    ensures r.Ok? ==> r.value.model == model
    ensures r.Ok? ==> r.value.messages == MessagesToOllama(body.messages.GetOr([]), codec).value
    ensures r.Ok? ==> r.value.options.numPredict == (if body.maxTokens.Some? then body.maxTokens.value else Num(4096.0))
    ensures r.Ok? ==> r.value.options.temperature == (if body.temperature.Some? then body.temperature.value else Num(0.2))
    ensures r.Ok? ==> (r.value.options.topP.Some? <==> body.topP.Some? && body.topP.value != Null)
    ensures r.Ok? && r.value.options.topP.Some? ==> r.value.options.topP == body.topP
    ensures r.Ok? ==> (r.value.tools.Some? <==> body.tools.Some? && |body.tools.value| > 0)
    ensures r.Ok? && r.value.tools.Some? ==>
      |r.value.tools.value| == |body.tools.value| &&
      forall i :: 0 <= i < |body.tools.value| ==> r.value.tools.value[i] == ToOllamaTool(body.tools.value[i])
    ensures r.Ok? ==> r.value.stream == (body.stream == Some(true))
  {
    var isStreaming := body.stream.GetOr(false);
    var messages := body.messages.GetOr([]);
    var maxTokens := body.maxTokens.GetOr(DEFAULT_MAX_TOKENS);
    var temperature := body.temperature.GetOr(DEFAULT_TEMPERATURE);
    var topP := if body.topP.Some? && body.topP.value != Null then body.topP else None;
    var tools := body.tools.GetOr([]);
    match MessagesToOllama(messages, codec)
    case None => Err(INTERNAL_ERROR)
    case Some(ollamaMessages) =>
      Ok(ChatRequest(
        model,
        ollamaMessages,
        Options(maxTokens, temperature, topP),
        isStreaming,
        if |tools| > 0 then Some(Map(tools, ToOllamaTool)) else None))
  }

  /** The model the client names never reaches the backend. */
  lemma ClientModelIgnored(body: RequestBody, model: string, codec: Codec, other: Option<string>)
    ensures BuildRequest(body.(model := other), model, codec) == BuildRequest(body, model, codec)
  {
  }
}
