/**
 * What the server side shares across the universal routes and the adapters:
 * the provider and operation names, the environment keys, JavaScript
 * truthiness of optional strings, credential resolution and error fallbacks.
 */
module Providers {
  import opened Wrappers

  datatype Provider = OpenAI | Anthropic | Gemini | Ollama

  /** The six operations each universal route and each adapter offer. */
  datatype Operation =
    | Chat
    | AnalyzeResume
    | MatchResume
    | GenerateCoverLetter
    | InterviewQuestions
    | InterviewAnswer

  /** The operations whose reply is a JSON object built from the model's answer. */
  predicate IsJsonOperation(op: Operation) {
    op == AnalyzeResume || op == MatchResume || op == InterviewQuestions
  }

  /** The provider's id as it appears in requests and in the client settings. */
  function ProviderId(p: Provider): string {
    match p
    case OpenAI => "openai"
    case Anthropic => "anthropic"
    case Gemini => "gemini"
    case Ollama => "ollama"
  }

  /** The process environment's credentials; absent variables are None. */
  datatype Env = Env(openaiKey: Option<string>, anthropicKey: Option<string>, geminiKey: Option<string>)

  /** JavaScript truthiness of a string that may be undefined: defined and non-empty. */
  predicate Truthy(o: Option<string>) {
    o.Some? && o.value != ""
  }

  /** `a || b` on optional strings. */
  function Or(a: Option<string>, b: Option<string>): Option<string> {
    if Truthy(a) then a else b
  }

  /**
   * `apiKey || process.env.X || ""` followed by the non-empty check of the key
   * schema: the request key if non-empty, else the environment key, and an
   * error `"Invalid <vendor> API key"` when neither is usable.
   */
  function ResolveKey(requestKey: Option<string>, envKey: Option<string>, vendor: string): (r: Result<string, string>)
    ensures r.Success? <==> Truthy(requestKey) || Truthy(envKey)
    ensures r.Success? ==> r.value != ""
    ensures r.Success? && Truthy(requestKey) ==> r.value == requestKey.value
    ensures r.Success? && !Truthy(requestKey) ==> r.value == envKey.value
    ensures r.Failure? ==> r.error == "Invalid " + vendor + " API key"
  {
    var key := Or(requestKey, Or(envKey, Some(""))).value;
    if key == "" then Failure("Invalid " + vendor + " API key") else Success(key)
  }

  /** `error.message || fallback`: an empty message is replaced by the fixed fallback. */
  function ErrorText(message: string, fallback: string): (r: string)
    ensures fallback != "" ==> r != ""
    ensures message != "" ==> r == message
    ensures message == "" ==> r == fallback
  {
    if message == "" then fallback else message
  }

  /** What an adapter answers: the JSON body, or a 500 whose body is `{ error }`. */
  datatype Reply<+T> = Ok(body: T) | ServerError(error: string)

  /** The fixed message each operation's adapter uses when a caught error has no message. */
  function DefaultFailure(op: Operation, vendorSuffix: string): string {
    match op
    case Chat => "Failed to generate chat response" + vendorSuffix
    case AnalyzeResume => "Failed to analyze resume" + vendorSuffix
    case MatchResume => "Failed to match resume to job" + vendorSuffix
    case GenerateCoverLetter => "Failed to generate cover letter" + vendorSuffix
    case InterviewQuestions => "Failed to generate interview questions" + vendorSuffix
    case InterviewAnswer => "Failed to generate interview answer" + vendorSuffix
  }
}
