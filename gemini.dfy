/**
 * The Google Gemini adapter: key resolution, the default model, conversion of
 * a conversation into Gemini's chat history, the prompts of the other five
 * operations and the normalisation of their replies. The SDK calls themselves
 * are outside the model: what the SDK answers is a parameter.
 */
module GeminiAdapter {
  import opened Wrappers
  import opened Providers
  import opened Payloads
  import JsonExtract

  const DefaultModel := "gemini-pro"
  /** The vendor name in the key error. */
  const KeyVendor := "Google Gemini"
  /** The vendor name in the JSON extraction errors. */
  const ReplyVendor := "Gemini"
  /** What `createGeminiClient` throws when neither the request nor the environment holds a key. */
  const KeyError := "Invalid Google Gemini API key"
  const LastMessageNotUser := "The last message must be from the user"
  /** What the engine reports for `lastMessage.role` when `messages` is empty. */
  const UndefinedRoleError := "Cannot read properties of undefined (reading 'role')"

  /** `model: z.string().default("gemini-pro")`: the default replaces only an absent model. */
  function ModelOf(model: Option<string>): (r: string)
    ensures model.Some? ==> r == model.value
    ensures model.None? ==> r == DefaultModel
  {
    model.GetOr(DefaultModel)
  }

  datatype GeminiRole = UserRole | ModelRole

  /** An entry of Gemini's history: `{ role, parts: [{ text }] }`. */
  datatype Content = Content(role: GeminiRole, text: string)

  function ToContent(m: ChatMessage): Content {
    Content(if m.role == User then UserRole else ModelRole, m.content)
  }

  /** 1 when the conversation opens with an assistant turn, which the conversion drops. */
  function Dropped(messages: seq<ChatMessage>): nat {
    if |messages| > 0 && messages[0].role == Assistant then 1 else 0
  }

  /**
   * The conversion's result: every message in order with its text, `user`
   * mapped to `user` and `assistant` to `model`, except an assistant message
   * at index 0.
   */
  function FormattedHistory(messages: seq<ChatMessage>): (r: seq<Content>)
    ensures |r| == |messages| - Dropped(messages)
    ensures forall j :: 0 <= j < |r| ==>
      r[j].text == messages[j + Dropped(messages)].content
      && (r[j].role == UserRole <==> messages[j + Dropped(messages)].role == User)
  {
    var all := seq(|messages|, i requires 0 <= i < |messages| => ToContent(messages[i]));
    all[Dropped(messages)..]
  }

  /** Appending a turn appends its conversion, unless it is an assistant turn opening the conversation. */
  lemma FormattedHistoryAppend(ms: seq<ChatMessage>, m: ChatMessage)
    ensures FormattedHistory(ms + [m]) ==
      FormattedHistory(ms) + (if m.role == User || |ms| > 0 then [ToContent(m)] else [])
  {
    var l := FormattedHistory(ms + [m]);
    var r := FormattedHistory(ms) + (if m.role == User || |ms| > 0 then [ToContent(m)] else []);
    assert Dropped(ms + [m]) == if |ms| > 0 then Dropped(ms) else (if m.role == Assistant then 1 else 0);
    assert |l| == |r|;
    forall j | 0 <= j < |l| ensures l[j] == r[j] {
      assert (ms + [m])[j + Dropped(ms + [m])] == if j < |FormattedHistory(ms)| then ms[j + Dropped(ms)] else m;
    }
  }

  /** The indexed `for` loop that pushes each kept message onto `formattedHistory`. */
  method FormatHistory(messages: seq<ChatMessage>) returns (formatted: seq<Content>)
    ensures formatted == FormattedHistory(messages)
  {
    formatted := [];
    var i := 0;
    while i < |messages|
      invariant 0 <= i <= |messages|
      invariant formatted == FormattedHistory(messages[..i])
    {
      var message := messages[i];
      FormattedHistoryAppend(messages[..i], message);
      assert messages[..i + 1] == messages[..i] + [message];
      if message.role == User {
        formatted := formatted + [Content(UserRole, message.content)];
      } else if message.role == Assistant && i > 0 {
        formatted := formatted + [Content(ModelRole, message.content)];
      }
      i := i + 1;
    }
    assert messages[..i] == messages;
  }

  /** `formattedHistory.length > 1 ? formattedHistory.slice(0, -1) : []`. */
  function StartChatHistory(formatted: seq<Content>): seq<Content> {
    if |formatted| > 1 then formatted[..|formatted| - 1] else []
  }

  /**
   * When the conversation ends with the user's turn, the history handed to
   * `startChat` is exactly the conversion of the turns before it, and the
   * turn left out is the one sent.
   */
  lemma {:induction false} HistoryIsPriorTurns(messages: seq<ChatMessage>)
    requires |messages| > 0 && messages[|messages| - 1].role == User
    ensures StartChatHistory(FormattedHistory(messages)) == FormattedHistory(messages[..|messages| - 1])
    ensures FormattedHistory(messages) == FormattedHistory(messages[..|messages| - 1]) + [ToContent(messages[|messages| - 1])]
  {
    var prior := messages[..|messages| - 1];
    assert messages == prior + [messages[|messages| - 1]];
    FormattedHistoryAppend(prior, messages[|messages| - 1]);
  }

  datatype ChatRequest = ChatRequest(messages: seq<ChatMessage>, apiKey: Option<string>, model: Option<string>)

  /** The chat session the adapter starts and the message it sends on it. */
  datatype ChatSession = ChatSession(model: string, history: seq<Content>, message: string)

  datatype ChatReply = ChatReply(content: string, model: string)

  /**
   * `chatCompletion`. `sendResult` is what `chat.sendMessage` yields: the
   * response text, or the message of the error it throws. `sent` is the
   * message actually sent, if the handler gets that far.
   */
  method ChatCompletion(req: ChatRequest, envKey: Option<string>, sendResult: Result<string, string>)
    returns (sent: Option<ChatSession>, reply: Reply<ChatReply>)
    ensures ResolveKey(req.apiKey, envKey, KeyVendor).Failure? ==>
      sent.None? && reply == ServerError(KeyError)
    ensures ResolveKey(req.apiKey, envKey, KeyVendor).Success? && req.messages == [] ==>
      sent.None? && reply == ServerError(UndefinedRoleError)
    ensures (ResolveKey(req.apiKey, envKey, KeyVendor).Success? && req.messages != []
             && req.messages[|req.messages| - 1].role != User) ==>
      sent.None? && reply == ServerError(LastMessageNotUser)
    ensures sent.Some? <==> (ResolveKey(req.apiKey, envKey, KeyVendor).Success? && req.messages != []
                             && req.messages[|req.messages| - 1].role == User)
    ensures sent.Some? ==> sent.value == ChatSession(ModelOf(req.model),
      FormattedHistory(req.messages[..|req.messages| - 1]), req.messages[|req.messages| - 1].content)
    ensures sent.Some? && sendResult.Success? ==> reply == Ok(ChatReply(sendResult.value, ModelOf(req.model)))
    ensures sent.Some? && sendResult.Failure? ==>
      reply == ServerError(ErrorText(sendResult.error, DefaultFailure(Chat, "")))
  {
    var model := ModelOf(req.model);
    var key := ResolveKey(req.apiKey, envKey, KeyVendor);
    if key.Failure? {
      return None, ServerError(KeyError);
    }
    var formatted := FormatHistory(req.messages);
    var history := StartChatHistory(formatted);
    if |req.messages| == 0 {
      return None, ServerError(UndefinedRoleError);
    }
    var lastMessage := req.messages[|req.messages| - 1];
    if lastMessage.role != User {
      return None, ServerError(LastMessageNotUser);
    }
    HistoryIsPriorTurns(req.messages);
    sent := Some(ChatSession(model, history, lastMessage.content));
    match sendResult
    case Success(text) => reply := Ok(ChatReply(text, model));
    case Failure(message) => reply := ServerError(ErrorText(message, DefaultFailure(Chat, "")));
  }

  /** The text after the instructions in the prompt of each operation. */
  function Section(p: Payload): string {
    match p
    case ResumeOnly(r) => "RESUME:\n" + r
    case ResumeAndJob(r, jd) => "RESUME:\n" + r + "\n\nJOB DESCRIPTION:\n" + jd
    case JobOnly(jd) => "JOB DESCRIPTION:\n" + jd
    case QuestionAndResume(q, r) => "RESUME:\n" + r + "\n\nINTERVIEW QUESTION:\n" + q
  }

  /** The single prompt passed to `generateContent`: instructions, a blank line, the labelled payload. */
  function Prompt(instructions: string, p: Payload): string {
    instructions + "\n\n" + Section(p)
  }

  /**
   * Gemini receives the same payload text as the chat-style adapters, after
   * the instructions; a single-field payload additionally carries its label.
   */
  lemma PromptMatchesUserContent(instructions: string, p: Payload)
    ensures Prompt(instructions, p) == instructions + "\n\n" + (
      match p
      case ResumeOnly(_) => "RESUME:\n"
      case JobOnly(_) => "JOB DESCRIPTION:\n"
      case _ => "") + UserContent(p)
  {
  }

  /** A non-chat request: its payload, and the key and model it may name. */
  datatype OperationRequest = OperationRequest(payload: Payload, apiKey: Option<string>, model: Option<string>)

  /** `getGenerativeModel({ model }).generateContent(prompt)`. */
  datatype GenerateCall = GenerateCall(model: string, prompt: string)

  /** The SDK call an operation makes: none when the key is unusable. */
  function OperationCall(req: OperationRequest, envKey: Option<string>, instructions: string): (c: Option<GenerateCall>)
    ensures c.Some? <==> Truthy(req.apiKey) || Truthy(envKey)
    ensures c.Some? ==> c.value.model == ModelOf(req.model)
    ensures c.Some? ==> c.value.prompt == Prompt(instructions, req.payload)
  {
    if ResolveKey(req.apiKey, envKey, KeyVendor).Failure? then None
    else Some(GenerateCall(ModelOf(req.model), Prompt(instructions, req.payload)))
  }

  /**
   * The reply of `analyzeResume`, `matchResumeToJob` and
   * `generateInterviewQuestions`: `generated` is what `generateContent`
   * answered (its text, or its error's message).
   */
  function JsonReply<V>(op: Operation, req: OperationRequest, envKey: Option<string>,
                        generated: Result<string, string>, parse: string -> Result<V, string>): (r: Reply<V>)
    ensures ResolveKey(req.apiKey, envKey, KeyVendor).Failure? ==> r == ServerError(KeyError)
    ensures ResolveKey(req.apiKey, envKey, KeyVendor).Success? && generated.Failure? ==>
      r == ServerError(ErrorText(generated.error, DefaultFailure(op, "")))
    ensures ResolveKey(req.apiKey, envKey, KeyVendor).Success? && generated.Success? ==>
      (r.Ok? <==> JsonExtract.ExtractJson(generated.value, parse, ReplyVendor).Success?)
    ensures ResolveKey(req.apiKey, envKey, KeyVendor).Success? && generated.Success? && parse(generated.value).Success? ==>
      r == Ok(parse(generated.value).value)
    ensures ResolveKey(req.apiKey, envKey, KeyVendor).Success? && generated.Success? && r.Ok? ==>
      r.body == JsonExtract.ExtractJson(generated.value, parse, ReplyVendor).value
    ensures ResolveKey(req.apiKey, envKey, KeyVendor).Success? && generated.Success? && r.ServerError? ==>
      r.error == JsonExtract.ExtractJson(generated.value, parse, ReplyVendor).error
    ensures ResolveKey(req.apiKey, envKey, KeyVendor).Success? && generated.Success?
            && parse(generated.value).Failure? && JsonExtract.Candidate(generated.value).None? ==>
      r == ServerError(JsonExtract.ExtractError(ReplyVendor))
    ensures ResolveKey(req.apiKey, envKey, KeyVendor).Success? && generated.Success?
            && parse(generated.value).Failure? && JsonExtract.Candidate(generated.value).Some?
            && parse(JsonExtract.Candidate(generated.value).value).Failure? ==>
      r == ServerError(JsonExtract.ParseError(ReplyVendor))
  {
    var key := ResolveKey(req.apiKey, envKey, KeyVendor);
    if key.Failure? then ServerError(KeyError)
    else match generated
      case Failure(message) => ServerError(ErrorText(message, DefaultFailure(op, "")))
      case Success(text) =>
        match JsonExtract.ExtractJson(text, parse, ReplyVendor)
        case Success(v) => Ok(v)
        case Failure(message) => ServerError(ErrorText(message, DefaultFailure(op, "")))
  }

  /** The reply of `generateCoverLetter` and `generateInterviewAnswer`: the generated text as is. */
  function TextReply(op: Operation, req: OperationRequest, envKey: Option<string>,
                     generated: Result<string, string>): (r: Reply<string>)
    ensures r.Ok? <==> (Truthy(req.apiKey) || Truthy(envKey)) && generated.Success?
    ensures r.Ok? ==> r.body == generated.value
    ensures !(Truthy(req.apiKey) || Truthy(envKey)) ==> r == ServerError(KeyError)
    ensures (Truthy(req.apiKey) || Truthy(envKey)) && generated.Failure? ==>
      r == ServerError(ErrorText(generated.error, DefaultFailure(op, "")))
  {
    var key := ResolveKey(req.apiKey, envKey, KeyVendor);
    if key.Failure? then ServerError(KeyError)
    else match generated
      case Failure(message) => ServerError(ErrorText(message, DefaultFailure(op, "")))
      case Success(text) => Ok(text)
  }
}
