/**
 * The six universal routes (`/api/chat`, `/api/resume/analyze`,
 * `/api/resume/match`, `/api/cover-letter/generate`, `/api/interview/questions`,
 * `/api/interview/answer`). Each runs the same provider `switch`; only the
 * adapter operation it invokes differs, so the table is written once,
 * parameterised by the operation.
 */
module Dispatch {
  import opened Wrappers
  import opened Providers

  /** The fields of the request body the routes look at. */
  datatype RouteRequest = RouteRequest(provider: Option<string>, apiKey: Option<string>)

  /** What the `try` block does: hand the request to an adapter, or answer it with an error. */
  datatype Decision = Invoke(adapter: Provider, op: Operation) | Reject(status: nat, error: string)

  /** Who produces the HTTP reply in the end. */
  datatype RouteResult = Delegated(adapter: Provider, op: Operation) | Responded(status: nat, error: string)

  const OpenAIKeyMissing := "OpenAI API key not provided"
  const AnthropicKeyMissing := "Anthropic API key not provided"
  const InvalidProvider := "Invalid LLM provider"
  const NoResponse := "Failed to get response from AI"
  const NoProviderResponds := "Failed to get response from any AI provider"

  /** `const { provider = 'gemini' } = req.body`. */
  function RequestedProvider(provider: Option<string>): string {
    provider.GetOr("gemini")
  }

  /** A credential for `openai`/`anthropic` is at hand: the environment key or a request key. */
  predicate HasCredential(envKey: Option<string>, req: RouteRequest) {
    Truthy(envKey) || Truthy(req.apiKey)
  }

  /** The provider `switch` of the `try` block. */
  function TryBlock(op: Operation, req: RouteRequest, env: Env): (d: Decision)
    ensures d.Invoke? ==> d.op == op
    ensures d.Reject? ==> d.status == 400 && !Truthy(env.geminiKey)
    ensures d == Invoke(OpenAI, op) <==>
      RequestedProvider(req.provider) == "openai" && HasCredential(env.openaiKey, req)
    ensures d == Invoke(Anthropic, op) <==>
      RequestedProvider(req.provider) == "anthropic" && HasCredential(env.anthropicKey, req)
    ensures d == Invoke(Ollama, op) <==> RequestedProvider(req.provider) == "ollama"
  {
    match RequestedProvider(req.provider)
    case "openai" =>
      if !Truthy(env.openaiKey) && !Truthy(req.apiKey) then
        if Truthy(env.geminiKey) then Invoke(Gemini, op) else Reject(400, OpenAIKeyMissing)
      else Invoke(OpenAI, op)
    case "anthropic" =>
      if !Truthy(env.anthropicKey) && !Truthy(req.apiKey) then
        if Truthy(env.geminiKey) then Invoke(Gemini, op) else Reject(400, AnthropicKeyMissing)
      else Invoke(Anthropic, op)
    case "ollama" => Invoke(Ollama, op)
    case "gemini" => Invoke(Gemini, op)
    case _ =>
      if Truthy(env.geminiKey) then Invoke(Gemini, op) else Reject(400, InvalidProvider)
  }

  /**
   * The `catch` block: a request for `gemini` gives up; any other retries the
   * Gemini adapter once when its key is set. `retryThrew` says whether that
   * retry threw synchronously, which lands in the inner `catch`.
   */
  function CatchBlock(op: Operation, req: RouteRequest, env: Env, retryThrew: bool): (r: RouteResult)
    ensures r.Responded? ==> r.status == 500
    ensures r.Delegated? <==>
      RequestedProvider(req.provider) != "gemini" && Truthy(env.geminiKey) && !retryThrew
    ensures r.Delegated? ==> r == Delegated(Gemini, op)
    ensures r == Responded(500, NoProviderResponds) <==>
      RequestedProvider(req.provider) != "gemini" && Truthy(env.geminiKey) && retryThrew
  {
    if RequestedProvider(req.provider) == "gemini" then Responded(500, NoResponse)
    else if Truthy(env.geminiKey) then
      if retryThrew then Responded(500, NoProviderResponds) else Delegated(Gemini, op)
    else Responded(500, NoResponse)
  }

  /**
   * A whole universal route. The adapters are `async` functions whose promise
   * the route returns without awaiting (and they catch their own errors), so
   * delegating never throws into the `catch`: an adapter's failure is its own
   * reply. The only statement of the `try` block that could throw is the
   * route's own `res.status(400).json(...)`; `jsonThrew` says whether it did.
   * The retry in the `catch` is an adapter call too, so it cannot throw.
   */
  function UniversalRoute(op: Operation, req: RouteRequest, env: Env, jsonThrew: bool): RouteResult {
    match TryBlock(op, req, env)
    case Invoke(adapter, o) => Delegated(adapter, o)
    case Reject(status, error) =>
      if jsonThrew then CatchBlock(op, req, env, false) else Responded(status, error)
  }

  /** An HTTP reply as the client sees it. */
  datatype HttpReply = HttpReply(status: nat, body: string)

  /**
   * The reply the client receives, given what each adapter operation answers
   * (`adapterReply`, the outcome of its vendor call). A route's own error has body `{error}`.
   */
  function ClientReply(r: RouteResult, adapterReply: (Provider, Operation) -> HttpReply): HttpReply {
    match r
    case Delegated(a, o) => adapterReply(a, o)
    case Responded(status, error) => HttpReply(status, error)
  }

  // ----- The decision table, property by property -----

  /** An absent `provider` is treated as `gemini`. */
  lemma AbsentProviderIsGemini(op: Operation, req: RouteRequest, env: Env)
    requires req.provider.None?
    ensures TryBlock(op, req, env) == Invoke(Gemini, op)
    ensures TryBlock(op, req, env) == TryBlock(op, req.(provider := Some("gemini")), env)
  {
  }

  /** `openai` without any credential goes to Gemini when its key is set, else a 400. */
  lemma OpenAIWithoutCredential(op: Operation, req: RouteRequest, env: Env)
    requires RequestedProvider(req.provider) == "openai" && !HasCredential(env.openaiKey, req)
    ensures TryBlock(op, req, env) ==
      if Truthy(env.geminiKey) then Invoke(Gemini, op) else Reject(400, OpenAIKeyMissing)
  {
  }

  /** `anthropic` without any credential goes to Gemini when its key is set, else a 400. */
  lemma AnthropicWithoutCredential(op: Operation, req: RouteRequest, env: Env)
    requires RequestedProvider(req.provider) == "anthropic" && !HasCredential(env.anthropicKey, req)
    ensures TryBlock(op, req, env) ==
      if Truthy(env.geminiKey) then Invoke(Gemini, op) else Reject(400, AnthropicKeyMissing)
  {
  }

  /** `ollama` and `gemini` are dispatched to their own adapter whatever the keys. */
  lemma OllamaAndGeminiUnchecked(op: Operation, req: RouteRequest, env: Env, env': Env, key: Option<string>)
    requires RequestedProvider(req.provider) in {"ollama", "gemini"}
    ensures TryBlock(op, req, env) == TryBlock(op, req.(apiKey := key), env')
    ensures TryBlock(op, req, env) ==
      Invoke(if RequestedProvider(req.provider) == "ollama" then Ollama else Gemini, op)
  {
  }

  /** An unrecognised provider goes to Gemini when its key is set, else a 400. */
  lemma UnknownProvider(op: Operation, req: RouteRequest, env: Env)
    requires RequestedProvider(req.provider) !in {"openai", "anthropic", "ollama", "gemini"}
    ensures TryBlock(op, req, env) ==
      if Truthy(env.geminiKey) then Invoke(Gemini, op) else Reject(400, InvalidProvider)
  {
  }

  /** Substituting Gemini without asking never happens to a request for a known, usable provider. */
  lemma SubstitutionOnlyWhenUnusable(op: Operation, req: RouteRequest, env: Env)
    requires TryBlock(op, req, env) == Invoke(Gemini, op)
    ensures RequestedProvider(req.provider) == "gemini"
      || (RequestedProvider(req.provider) == "openai" && !HasCredential(env.openaiKey, req))
      || (RequestedProvider(req.provider) == "anthropic" && !HasCredential(env.anthropicKey, req))
      || RequestedProvider(req.provider) !in {"openai", "anthropic", "ollama", "gemini"}
  {
  }

  /** All six routes share one table: changing the operation changes only the operation invoked. */
  lemma SameTableForEveryRoute(op: Operation, op': Operation, req: RouteRequest, env: Env)
    ensures TryBlock(op', req, env) ==
      match TryBlock(op, req, env)
      case Invoke(a, _) => Invoke(a, op')
      case Reject(s, e) => Reject(s, e)
  {
  }

  // ----- The catch path -----

  /**
   * The `catch` block is dead as a retry: it can only be entered after a
   * rejection, and the routes reject only when no Gemini key is set, so the
   * outcome is always the plain 500.
   */
  lemma CatchNeverRetries(op: Operation, req: RouteRequest, env: Env)
    requires TryBlock(op, req, env).Reject?
    ensures UniversalRoute(op, req, env, true) == Responded(500, NoResponse)
  {
  }

  /**
   * A failing Ollama call is not retried: whatever the Ollama adapter answers,
   * including its own 500, is exactly what the client receives.
   */
  lemma OllamaFailureReachesClient(op: Operation, req: RouteRequest, env: Env, jsonThrew: bool,
                                   adapterReply: (Provider, Operation) -> HttpReply)
    requires RequestedProvider(req.provider) == "ollama"
    ensures ClientReply(UniversalRoute(op, req, env, jsonThrew), adapterReply) == adapterReply(Ollama, op)
  {
  }

  /** An adapter, once chosen, is the only one that answers; there is never a second call. */
  lemma AtMostOneAdapter(op: Operation, req: RouteRequest, env: Env, jsonThrew: bool)
    ensures TryBlock(op, req, env).Invoke? ==>
      UniversalRoute(op, req, env, jsonThrew) == Delegated(TryBlock(op, req, env).adapter, op)
  {
  }
}
