/**
 * The Ollama adapter: it sends every operation to a local Ollama server as a
 * non-streaming `POST <endpoint>/api/chat` and normalises the reply. No key
 * is involved. The HTTP exchange is outside the model: what the server
 * answered is a parameter.
 */
module OllamaAdapter {
  import opened Wrappers
  import opened Providers
  import opened Payloads
  import JsonExtract

  const DefaultModel := "gamma3:1b"
  const DefaultEndpoint := "http://localhost:11434"
  const ConnectedMessage := "Successfully connected to Ollama"
  const ConnectFailure := "Failed to connect to Ollama. Make sure Ollama is running."
  const InstalledStatus := "installed"
  /** The vendor name in the JSON extraction errors. */
  const ReplyVendor := "Ollama"

  /** `z.string().default(...)`: the default replaces only an absent value. */
  function ModelOf(model: Option<string>): (r: string)
    ensures model.Some? ==> r == model.value
    ensures model.None? ==> r == DefaultModel
  {
    model.GetOr(DefaultModel)
  }

  function EndpointOf(endpoint: Option<string>): (r: string)
    ensures endpoint.Some? ==> r == endpoint.value
    ensures endpoint.None? ==> r == DefaultEndpoint
  {
    endpoint.GetOr(DefaultEndpoint)
  }

  /** The fallback when a caught error has no message: the chat handler says "from", the others "with". */
  function FailureText(op: Operation): (r: string)
    ensures r != ""
  {
    if op == Chat then DefaultFailure(Chat, " from Ollama") else DefaultFailure(op, " with Ollama")
  }

  /** The body of every request: `{ model, messages, stream: false }`. */
  datatype ChatBody = ChatBody(model: string, messages: seq<WireMessage>, stream: bool)

  datatype Post = Post(url: string, body: ChatBody)

  function ChatUrl(endpoint: string): string {
    endpoint + "/api/chat"
  }

  datatype ChatRequest = ChatRequest(messages: seq<ChatMessage>, model: Option<string>, endpoint: Option<string>)

  /** The request `chatCompletion` posts: the conversation forwarded as is, never streamed. */
  function ChatPost(req: ChatRequest): (p: Post)
    ensures p.url == EndpointOf(req.endpoint) + "/api/chat"
    ensures p.body.model == ModelOf(req.model) && !p.body.stream
    ensures |p.body.messages| == |req.messages|
    ensures forall i :: 0 <= i < |req.messages| ==>
      p.body.messages[i].content == req.messages[i].content
      && p.body.messages[i].role == RoleName(req.messages[i].role)
  {
    Post(ChatUrl(EndpointOf(req.endpoint)), ChatBody(ModelOf(req.model), WireMessages(req.messages), false))
  }

  /** Two chat requests post the same thing only if they carry the same conversation. */
  lemma ChatPostKeepsConversation(a: ChatRequest, b: ChatRequest)
    requires ChatPost(a) == ChatPost(b)
    ensures a.messages == b.messages
  {
    WireMessagesInjective(a.messages, b.messages);
  }

  /**
   * `response.data.message?.content || ""`: the reply's content, or "" when
   * the message or its content is missing or empty.
   */
  function ContentOrEmpty(content: Option<string>): (r: string)
    ensures r == "" <==> !Truthy(content)
    ensures Truthy(content) ==> r == content.value
  {
    if Truthy(content) then content.value else ""
  }

  datatype ChatReply = ChatReply(content: string, model: string)

  /**
   * The reply of `chatCompletion`. `answered` is the posted request's outcome:
   * the reply's `message?.content`, or the message of the error axios threw.
   */
  function ChatReplyOf(req: ChatRequest, answered: Result<Option<string>, string>): (r: Reply<ChatReply>)
    ensures r.Ok? <==> answered.Success?
    ensures r.Ok? ==> r.body.model == ModelOf(req.model) && r.body.content == ContentOrEmpty(answered.value)
    ensures r.ServerError? ==> r.error != ""
    ensures answered.Failure? ==> r == ServerError(ErrorText(answered.error, FailureText(Chat)))
  {
    match answered
    case Success(content) => Ok(ChatReply(ContentOrEmpty(content), ModelOf(req.model)))
    case Failure(message) => ServerError(ErrorText(message, FailureText(Chat)))
  }

  /** A non-chat request: its payload and the model and endpoint it may name. */
  datatype OperationRequest = OperationRequest(payload: Payload, model: Option<string>, endpoint: Option<string>)

  /** The request each non-chat operation posts: its instructions as "system", the payload as "user". */
  function OperationPost(req: OperationRequest, instructions: string): (p: Post)
    ensures p.url == EndpointOf(req.endpoint) + "/api/chat"
    ensures p.body.model == ModelOf(req.model) && !p.body.stream
    ensures p.body.messages == [WireMessage("system", instructions), WireMessage("user", UserContent(req.payload))]
  {
    Post(ChatUrl(EndpointOf(req.endpoint)), ChatBody(ModelOf(req.model), OperationMessages(instructions, req.payload), false))
  }

  /** The reply of `analyzeResume`, `matchResumeToJob` and `generateInterviewQuestions`. */
  function JsonReply<V>(op: Operation, answered: Result<Option<string>, string>, parse: string -> Result<V, string>): (r: Reply<V>)
    ensures answered.Failure? ==> r == ServerError(ErrorText(answered.error, FailureText(op)))
    ensures answered.Success? ==>
      (r.Ok? <==> JsonExtract.ExtractJson(ContentOrEmpty(answered.value), parse, ReplyVendor).Success?)
    ensures answered.Success? && r.Ok? ==> r.body == JsonExtract.ExtractJson(ContentOrEmpty(answered.value), parse, ReplyVendor).value
    ensures answered.Success? && r.ServerError? ==>
      r.error == JsonExtract.ExtractJson(ContentOrEmpty(answered.value), parse, ReplyVendor).error
    ensures answered.Success? && parse(ContentOrEmpty(answered.value)).Failure?
            && JsonExtract.Candidate(ContentOrEmpty(answered.value)).None? ==>
      r == ServerError(JsonExtract.ExtractError(ReplyVendor))
    ensures answered.Success? && parse(ContentOrEmpty(answered.value)).Failure?
            && JsonExtract.Candidate(ContentOrEmpty(answered.value)).Some?
            && parse(JsonExtract.Candidate(ContentOrEmpty(answered.value)).value).Failure? ==>
      r == ServerError(JsonExtract.ParseError(ReplyVendor))
  {
    match answered
    case Failure(message) => ServerError(ErrorText(message, FailureText(op)))
    case Success(content) =>
      match JsonExtract.ExtractJson(ContentOrEmpty(content), parse, ReplyVendor)
      case Success(v) => Ok(v)
      case Failure(message) => ServerError(ErrorText(message, FailureText(op)))
  }

  /**
   * A reply without content is read as "", which holds neither a fence nor a
   * brace: unless the parser accepts "", the client gets the extraction error.
   */
  lemma EmptyReplyNotExtracted<V>(op: Operation, content: Option<string>, parse: string -> Result<V, string>)
    requires !Truthy(content) && parse("").Failure?
    ensures JsonReply(op, Success(content), parse) == ServerError("Could not extract JSON from Ollama response")
  {
    assert ContentOrEmpty(content) == "";
    assert JsonExtract.Candidate("").None? by {
      assert !JsonExtract.HasFence("") && !JsonExtract.HasBrace("");
    }
    assert JsonExtract.ExtractError(ReplyVendor) == "Could not extract JSON from Ollama response";
  }

  /** The reply of `generateCoverLetter` and `generateInterviewAnswer`: once the post succeeds, it cannot fail. */
  function TextReply(op: Operation, answered: Result<Option<string>, string>): (r: Reply<string>)
    ensures r.Ok? <==> answered.Success?
    ensures r.Ok? ==> r.body == ContentOrEmpty(answered.value)
    ensures r.ServerError? ==> r.error != ""
    ensures answered.Failure? ==> r == ServerError(ErrorText(answered.error, FailureText(op)))
  {
    match answered
    case Success(content) => Ok(ContentOrEmpty(content))
    case Failure(message) => ServerError(ErrorText(message, FailureText(op)))
  }

  /** An entry of the tested server's model list. */
  datatype ModelEntry = ModelEntry(name: string, status: string)

  datatype ConnectionReport =
    | Connected(models: seq<ModelEntry>, message: string)
    | NotConnected(error: string)

  /** The URL `testOllamaConnection` lists the models from: the resolved endpoint's `/api/models`. */
  function ModelsUrl(endpoint: Option<string>): (url: string)
    ensures url == EndpointOf(endpoint) + "/api/models"
    ensures endpoint.None? ==> url == "http://localhost:11434/api/models"
  {
    EndpointOf(endpoint) + "/api/models"
  }

  /**
   * `response.data.models?.map(...) || []`: every listed name, in order,
   * marked installed; nothing when the list is missing.
   */
  function InstalledModels(names: Option<seq<string>>): (r: seq<ModelEntry>)
    ensures names.None? ==> r == []
    ensures names.Some? ==> |r| == |names.value|
    ensures names.Some? ==> forall i :: 0 <= i < |r| ==> r[i] == ModelEntry(names.value[i], InstalledStatus)
  {
    match names
    case None => []
    case Some(ns) => seq(|ns|, i requires 0 <= i < |ns| => ModelEntry(ns[i], InstalledStatus))
  }

  /**
   * `testOllamaConnection`: `get` is `axios.get` as a function of the URL, giving the
   * `models` names the reply holds or axios's error message; only `ModelsUrl(endpoint)` is asked.
   */
  function TestConnection(endpoint: Option<string>, get: string -> Result<Option<seq<string>>, string>): (r: ConnectionReport)
    ensures r.Connected? <==> get(ModelsUrl(endpoint)).Success?
    ensures r.Connected? ==> r.message == ConnectedMessage && r.models == InstalledModels(get(ModelsUrl(endpoint)).value)
    ensures r.NotConnected? ==> r.error == ErrorText(get(ModelsUrl(endpoint)).error, ConnectFailure) && r.error != ""
  {
    match get(ModelsUrl(endpoint))
    case Success(names) => Connected(InstalledModels(names), ConnectedMessage)
    case Failure(message) => NotConnected(ErrorText(message, ConnectFailure))
  }
}
