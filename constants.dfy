/**
 * The client's constant tables: the selectable LLM providers, each
 * provider's models, and the per-status badge classes and icons.
 */
module LlmConstants {
  import opened Providers
  import opened Jobs

  /** An entry of `LLM_PROVIDERS`. */
  datatype ProviderInfo = ProviderInfo(id: string, name: string, icon: string, hasApiKey: bool)

  const LlmProviders: seq<ProviderInfo> := [
    ProviderInfo("openai", "OpenAI", "bx-aperture", true),
    ProviderInfo("anthropic", "Anthropic", "bx-shape-square", true),
    ProviderInfo("gemini", "Google Gemini", "bx-shape-circle", true),
    ProviderInfo("ollama", "Ollama (Local)", "bx-server", false)
  ]

  /** An entry of a provider's list in `LLM_MODELS`. */
  datatype LlmModel = LlmModel(id: string, name: string, isDefault: bool)

  /** `LLM_MODELS[provider]`. */
  function ModelsOf(p: Provider): seq<LlmModel> {
    match p
    case OpenAI => [
      LlmModel("gpt-4o", "GPT-4o", true),
      LlmModel("gpt-4-turbo", "GPT-4 Turbo", false),
      LlmModel("gpt-3.5-turbo", "GPT-3.5 Turbo", false)]
    case Anthropic => [
      LlmModel("claude-3-7-sonnet-20250219", "Claude 3.7 Sonnet", true),
      LlmModel("claude-3-opus-20240229", "Claude 3 Opus", false),
      LlmModel("claude-3-sonnet-20240229", "Claude 3 Sonnet", false),
      LlmModel("claude-3-haiku-20240307", "Claude 3 Haiku", false)]
    case Gemini => [
      LlmModel("gemini-1.5-pro", "Gemini 1.5 Pro", true),
      LlmModel("gemini-1.5-flash", "Gemini 1.5 Flash", false),
      LlmModel("gemini-pro", "Gemini Pro (Legacy)", false)]
    case Ollama => [
      LlmModel("gamma3:1b", "Gamma3:1b", true),
      LlmModel("llama3:8b", "Llama3:8b", false),
      LlmModel("mistral:7b", "Mistral:7b", false),
      LlmModel("phi3:mini", "Phi3:mini", false)]
  }

  /** `STATUS_CLASSES[status]`: the light-mode classes, then the dark-mode ones. */
  function StatusClass(s: JobStatus): string {
    match s
    case Applied => "bg-blue-100" + " text-blue-800" + " dark:bg-blue-900" + " dark:text-blue-200"
    case Interview => "bg-green-100" + " text-green-800" + " dark:bg-green-900" + " dark:text-green-200"
    case Offer => "bg-purple-100" + " text-purple-800" + " dark:bg-purple-900" + " dark:text-purple-200"
    case Rejected => "bg-red-100" + " text-red-800" + " dark:bg-red-900" + " dark:text-red-200"
    case Saved => "bg-gray-100" + " text-gray-800" + " dark:bg-gray-700" + " dark:text-gray-200"
  }

  /** `STATUS_ICONS[status]`. */
  function StatusIcon(s: JobStatus): string {
    match s
    case Applied => "bx-send"
    case Interview => "bx-calendar"
    case Offer => "bx-badge-check"
    case Rejected => "bx-x-circle"
    case Saved => "bx-bookmark"
  }

  /** The provider table lists each provider exactly once, in the order of `Provider`. */
  lemma ProvidersListed()
    ensures |LlmProviders| == 4
    ensures forall p :: exists i :: 0 <= i < |LlmProviders| && LlmProviders[i].id == ProviderId(p)
    ensures forall i, j :: 0 <= i < j < |LlmProviders| ==> LlmProviders[i].id != LlmProviders[j].id
  {
    assert LlmProviders[0].id == ProviderId(OpenAI);
    assert LlmProviders[1].id == ProviderId(Anthropic);
    assert LlmProviders[2].id == ProviderId(Gemini);
    assert LlmProviders[3].id == ProviderId(Ollama);
  }

  /** Ollama is the only provider that needs no key. */
  lemma OnlyOllamaIsKeyless()
    ensures forall i :: 0 <= i < |LlmProviders| ==> (!LlmProviders[i].hasApiKey <==> LlmProviders[i].id == "ollama")
  {
  }

  /**
   * Every provider has models, and exactly one of them, the first, is marked
   * as the default; so `[0]` in `setProvider` is always defined.
   */
  lemma OneDefaultModel(p: Provider)
    ensures |ModelsOf(p)| > 0 && ModelsOf(p)[0].isDefault
    ensures forall i :: 0 < i < |ModelsOf(p)| ==> !ModelsOf(p)[i].isDefault
  {
  }

  /** Every status has its own badge icon. */
  lemma StatusIconsDistinct(s: JobStatus, t: JobStatus)
    requires s != t
    ensures StatusIcon(s) != StatusIcon(t)
  {
    assert StatusIcon(s)[3] != StatusIcon(t)[3] || StatusIcon(s)[4] != StatusIcon(t)[4];
  }

  /** The 4th and 6th letters of each class: they tell the colours apart. */
  function ClassMark(s: JobStatus): (char, char) {
    match s
    case Applied => ('b', 'u')
    case Interview => ('g', 'e')
    case Offer => ('p', 'r')
    case Rejected => ('r', 'd')
    case Saved => ('g', 'a')
  }

  lemma ClassMarkOf(s: JobStatus)
    ensures |StatusClass(s)| > 5 && (StatusClass(s)[3], StatusClass(s)[5]) == ClassMark(s)
  {
    match s
    case Applied =>
    case Interview =>
    case Offer =>
    case Rejected =>
    case Saved =>
  }

  /** Every status has its own badge class. */
  lemma StatusClassesDistinct(s: JobStatus, t: JobStatus)
    requires s != t
    ensures StatusClass(s) != StatusClass(t)
  {
    ClassMarkOf(s);
    ClassMarkOf(t);
  }
}
