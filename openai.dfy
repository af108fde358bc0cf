/**
 * The OpenAI adapter: key resolution, the default model, the chat-completion
 * request of each operation and the normalisation of its reply. The SDK call
 * is outside the model: the completion it returns is a parameter.
 */
module OpenAIAdapter {
  import opened Wrappers
  import opened Providers
  import opened Payloads
  import OllamaAdapter

  const DefaultModel := "gpt-4o"
  const KeyVendor := "OpenAI"
  /** What `createOpenAIClient` throws when neither the request nor the environment holds a key. */
  const KeyError := "Invalid OpenAI API key"
  /** What the JSON operations parse when the completion has no content. */
  const EmptyObject := "{}"

  function ModelOf(model: Option<string>): (r: string)
    ensures model.Some? ==> r == model.value
    ensures model.None? ==> r == DefaultModel
  {
    model.GetOr(DefaultModel)
  }

  /** `openai.chat.completions.create({ model, messages, response_format? })`. */
  datatype CompletionRequest = CompletionRequest(model: string, messages: seq<WireMessage>, jsonFormat: bool)

  /** What the SDK returns: the first choice's content (null is None) and the model that answered. */
  datatype Completion = Completion(content: Option<string>, model: string)

  datatype ChatRequest = ChatRequest(messages: seq<ChatMessage>, apiKey: Option<string>, model: Option<string>)

  /** The completion `chatCompletion` requests: none without a key, otherwise the conversation forwarded as is. */
  function ChatCall(req: ChatRequest, envKey: Option<string>): (c: Option<CompletionRequest>)
    ensures c.Some? <==> Truthy(req.apiKey) || Truthy(envKey)
    ensures c.Some? ==> c.value.model == ModelOf(req.model) && !c.value.jsonFormat
    ensures c.Some? ==> |c.value.messages| == |req.messages|
    ensures c.Some? ==> forall i :: 0 <= i < |req.messages| ==>
      c.value.messages[i] == WireMessage(RoleName(req.messages[i].role), req.messages[i].content)
  {
    if ResolveKey(req.apiKey, envKey, KeyVendor).Failure? then None
    else Some(CompletionRequest(ModelOf(req.model), WireMessages(req.messages), false))
  }

  /** The reply carries the content as is (possibly null) and the model OpenAI names, not the requested one. */
  datatype ChatReply = ChatReply(content: Option<string>, model: string)

  function ChatReplyOf(req: ChatRequest, envKey: Option<string>, answered: Result<Completion, string>): (r: Reply<ChatReply>)
    ensures !(Truthy(req.apiKey) || Truthy(envKey)) ==> r == ServerError(KeyError)
    ensures r.Ok? <==> (Truthy(req.apiKey) || Truthy(envKey)) && answered.Success?
    ensures r.Ok? ==> r.body == ChatReply(answered.value.content, answered.value.model)
    ensures r.ServerError? ==> r.error != ""
    ensures (Truthy(req.apiKey) || Truthy(envKey)) && answered.Failure? ==>
      r == ServerError(ErrorText(answered.error, DefaultFailure(Chat, "")))
  {
    if ResolveKey(req.apiKey, envKey, KeyVendor).Failure? then ServerError(KeyError)
    else match answered
      case Success(c) => Ok(ChatReply(c.content, c.model))
      case Failure(message) => ServerError(ErrorText(message, DefaultFailure(Chat, "")))
  }

  datatype OperationRequest = OperationRequest(payload: Payload, apiKey: Option<string>, model: Option<string>)

  /**
   * The completion each non-chat operation requests: the instructions as
   * "system", the payload as "user", and JSON mode exactly for the three
   * operations whose reply is parsed.
   */
  function OperationCall(op: Operation, req: OperationRequest, envKey: Option<string>, instructions: string): (c: Option<CompletionRequest>)
    ensures c.Some? <==> Truthy(req.apiKey) || Truthy(envKey)
    ensures c.Some? ==> c.value.model == ModelOf(req.model)
    ensures c.Some? ==> (c.value.jsonFormat <==> IsJsonOperation(op))
    ensures c.Some? ==> c.value.messages == [WireMessage("system", instructions), WireMessage("user", UserContent(req.payload))]
  {
    if ResolveKey(req.apiKey, envKey, KeyVendor).Failure? then None
    else Some(CompletionRequest(ModelOf(req.model), OperationMessages(instructions, req.payload), IsJsonOperation(op)))
  }

  /** `completion.choices[0].message.content || "{}"`. */
  function ParseInput(content: Option<string>): (r: string)
    ensures r != ""
    ensures Truthy(content) ==> r == content.value
    ensures !Truthy(content) ==> r == EmptyObject
  {
    if Truthy(content) then content.value else EmptyObject
  }

  /** The reply of the JSON operations: a single parse, whose error message is passed on. */
  function JsonReply<V>(op: Operation, req: OperationRequest, envKey: Option<string>,
                        answered: Result<Completion, string>, parse: string -> Result<V, string>): (r: Reply<V>)
    ensures !(Truthy(req.apiKey) || Truthy(envKey)) ==> r == ServerError(KeyError)
    ensures r.Ok? <==> (Truthy(req.apiKey) || Truthy(envKey)) && answered.Success?
                        && parse(ParseInput(answered.value.content)).Success?
    ensures r.Ok? ==> r.body == parse(ParseInput(answered.value.content)).value
    ensures (Truthy(req.apiKey) || Truthy(envKey)) && answered.Success? && r.ServerError? ==>
      r.error == ErrorText(parse(ParseInput(answered.value.content)).error, DefaultFailure(op, ""))
    ensures (Truthy(req.apiKey) || Truthy(envKey)) && answered.Failure? ==>
      r == ServerError(ErrorText(answered.error, DefaultFailure(op, "")))
  {
    if ResolveKey(req.apiKey, envKey, KeyVendor).Failure? then ServerError(KeyError)
    else match answered
      case Failure(message) => ServerError(ErrorText(message, DefaultFailure(op, "")))
      case Success(c) =>
        match parse(ParseInput(c.content))
        case Success(v) => Ok(v)
        case Failure(message) => ServerError(ErrorText(message, DefaultFailure(op, "")))
  }

  /** The reply of `generateCoverLetter` and `generateInterviewAnswer`: the content as is, possibly null. */
  function TextReply(op: Operation, req: OperationRequest, envKey: Option<string>,
                     answered: Result<Completion, string>): (r: Reply<Option<string>>)
    ensures !(Truthy(req.apiKey) || Truthy(envKey)) ==> r == ServerError(KeyError)
    ensures r.Ok? <==> (Truthy(req.apiKey) || Truthy(envKey)) && answered.Success?
    ensures r.Ok? ==> r.body == answered.value.content
    ensures (Truthy(req.apiKey) || Truthy(envKey)) && answered.Failure? ==>
      r == ServerError(ErrorText(answered.error, DefaultFailure(op, "")))
  {
    if ResolveKey(req.apiKey, envKey, KeyVendor).Failure? then ServerError(KeyError)
    else match answered
      case Failure(message) => ServerError(ErrorText(message, DefaultFailure(op, "")))
      case Success(c) => Ok(c.content)
  }

  /**
   * A completion without content: OpenAI answers with whatever the parser
   * makes of "{}", where Ollama, reading "", reports that no JSON could be
   * extracted.
   */
  lemma {:induction false} EmptyContentDiffersFromOllama<V>(op: Operation, req: OperationRequest, envKey: Option<string>,
                                                            model: string, parse: string -> Result<V, string>)
    requires Truthy(req.apiKey) || Truthy(envKey)
    requires parse(EmptyObject).Success? && parse("").Failure?
    ensures JsonReply(op, req, envKey, Success(Completion(None, model)), parse) == Ok(parse(EmptyObject).value)
    ensures OllamaAdapter.JsonReply(op, Success(None), parse) == ServerError("Could not extract JSON from Ollama response")
  {
    OllamaAdapter.EmptyReplyNotExtracted(op, None, parse);
  }
}
