/**
 * The client's LLM settings: the record, its defaults, the setters of the
 * settings context (with the two modal flags they close) and of the settings
 * hook (with the values they return), and the model-table lookup
 * `setProvider` makes.
 */
module LlmSettings {
  import opened Wrappers
  import opened Providers
  import opened LlmConstants

  datatype Settings = Settings(provider: Provider, model: string, apiKey: string, ollamaEndpoint: string)

  /** `DEFAULT_SETTINGS`, the same in the context and in the hook. */
  const DefaultSettings := Settings(OpenAI, "gpt-4o", "", "http://localhost:11434")

  /** `models.find(m => m.isDefault)`: the first model marked as default, if any. */
  function FindDefault(models: seq<LlmModel>): (r: Option<LlmModel>)
    ensures r.None? <==> forall i :: 0 <= i < |models| ==> !models[i].isDefault
    ensures r.Some? ==> exists i :: (0 <= i < |models| && models[i] == r.value && r.value.isDefault
                                     && forall j :: 0 <= j < i ==> !models[j].isDefault)
  {
    if models == [] then None
    else if models[0].isDefault then Some(models[0])
    else
      var rest := FindDefault(models[1..]);
      assert rest.Some? ==> exists i :: (1 <= i < |models| && models[i] == rest.value
                                         && forall j :: 0 <= j < i ==> !models[j].isDefault) by {
        if rest.Some? {
          var i :| 0 <= i < |models[1..]| && models[1..][i] == rest.value
            && forall j :: 0 <= j < i ==> !models[1..][j].isDefault;
          assert models[i + 1] == rest.value;
          assert forall j :: 0 <= j < i + 1 ==> !models[j].isDefault by {
            forall j | 0 <= j < i + 1 ensures !models[j].isDefault {
              if j > 0 { assert models[j] == models[1..][j - 1]; }
            }
          }
        }
      }
      rest
  }

  /**
   * `LLM_MODELS[provider].find(m => m.isDefault)?.id || LLM_MODELS[provider][0].id`:
   * the id of the first default model, unless it is missing or empty, then the first model's.
   */
  function DefaultModelId(p: Provider): (r: string)
    ensures exists i :: 0 <= i < |ModelsOf(p)| && ModelsOf(p)[i].id == r
  {
    OneDefaultModel(p);
    match FindDefault(ModelsOf(p))
    case Some(m) => if m.id != "" then m.id else ModelsOf(p)[0].id
    case None => ModelsOf(p)[0].id
  }

  /** With the tables as they are, every provider's default is the model listed first. */
  lemma DefaultModelIsFirst(p: Provider)
    ensures DefaultModelId(p) == ModelsOf(p)[0].id && ModelsOf(p)[0].isDefault
  {
    OneDefaultModel(p);
  }

  /** `setProvider(provider)`: the provider and its default model; key and endpoint stay. */
  function WithProvider(s: Settings, p: Provider): (r: Settings)
    ensures r.provider == p && r.model == DefaultModelId(p)
    ensures r.apiKey == s.apiKey && r.ollamaEndpoint == s.ollamaEndpoint
  {
    s.(provider := p, model := DefaultModelId(p))
  }

  /** `setModel(model)`: only the model changes, and it is not checked against the provider's list. */
  function WithModel(s: Settings, model: string): (r: Settings)
    ensures r.model == model && r.(model := s.model) == s
  {
    s.(model := model)
  }

  function WithApiKey(s: Settings, apiKey: string): (r: Settings)
    ensures r.apiKey == apiKey && r.(apiKey := s.apiKey) == s
  {
    s.(apiKey := apiKey)
  }

  function WithEndpoint(s: Settings, endpoint: string): (r: Settings)
    ensures r.ollamaEndpoint == endpoint && r.(ollamaEndpoint := s.ollamaEndpoint) == s
  {
    s.(ollamaEndpoint := endpoint)
  }

  /** The selected model is one the selected provider's table lists. */
  predicate ModelListed(s: Settings) {
    exists i :: 0 <= i < |ModelsOf(s.provider)| && ModelsOf(s.provider)[i].id == s.model
  }

  /** The defaults select OpenAI's default model. */
  lemma DefaultsAreListed()
    ensures ModelListed(DefaultSettings) && DefaultSettings.model == DefaultModelId(DefaultSettings.provider)
  {
    DefaultModelIsFirst(OpenAI);
    assert ModelsOf(OpenAI)[0].id == DefaultSettings.model;
  }

  /** Choosing a provider always lands on a listed model; the key and endpoint setters keep it listed. */
  lemma SettersKeepModelListed(s: Settings, p: Provider, apiKey: string, endpoint: string)
    ensures ModelListed(WithProvider(s, p))
    ensures ModelListed(s) ==> ModelListed(WithApiKey(s, apiKey)) && ModelListed(WithEndpoint(s, endpoint))
  {
    var r := WithProvider(s, p);
    var i :| 0 <= i < |ModelsOf(p)| && ModelsOf(p)[i].id == r.model;
    assert ModelsOf(r.provider)[i].id == r.model;
  }

  /** `setModel` alone can leave a model the provider does not offer. */
  lemma SetModelCanUnlist()
    ensures ModelListed(DefaultSettings) && !ModelListed(WithModel(DefaultSettings, "gemini-pro"))
  {
    DefaultsAreListed();
    var s := WithModel(DefaultSettings, "gemini-pro");
    forall i | 0 <= i < |ModelsOf(OpenAI)| ensures ModelsOf(OpenAI)[i].id != "gemini-pro" {
      assert ModelsOf(OpenAI)[i].id[1] != "gemini-pro"[1];
    }
  }

  /** The settings context: the record and the two settings dialogs' visibility. */
  class LlmContextState {
    var settings: Settings
    var showAPISettings: bool
    var showLLMSettings: bool

    /** With nothing saved in the browser: the defaults, both dialogs closed. */
    constructor ()
      ensures settings == DefaultSettings && !showAPISettings && !showLLMSettings
    {
      settings := DefaultSettings;
      showAPISettings := false;
      showLLMSettings := false;
    }

    method SetProvider(p: Provider)
      modifies this
      ensures settings == WithProvider(old(settings), p)
      ensures showAPISettings == old(showAPISettings) && showLLMSettings == old(showLLMSettings)
    {
      settings := WithProvider(settings, p);
    }

    method SetModel(model: string)
      modifies this
      ensures settings == WithModel(old(settings), model)
      ensures showAPISettings == old(showAPISettings) && showLLMSettings == old(showLLMSettings)
    {
      settings := WithModel(settings, model);
    }

    /** Saving a key also closes the key dialog. */
    method SetApiKey(apiKey: string)
      modifies this
      ensures settings == WithApiKey(old(settings), apiKey)
      ensures !showAPISettings && showLLMSettings == old(showLLMSettings)
    {
      settings := WithApiKey(settings, apiKey);
      showAPISettings := false;
    }

    /** Saving the endpoint also closes the LLM settings dialog. */
    method SetOllamaEndpoint(endpoint: string)
      modifies this
      ensures settings == WithEndpoint(old(settings), endpoint)
      ensures !showLLMSettings && showAPISettings == old(showAPISettings)
    {
      settings := WithEndpoint(settings, endpoint);
      showLLMSettings := false;
    }

    method SetShowAPISettings(show: bool)
      modifies this
      ensures showAPISettings == show && settings == old(settings) && showLLMSettings == old(showLLMSettings)
    {
      showAPISettings := show;
    }

    method SetShowLLMSettings(show: bool)
      modifies this
      ensures showLLMSettings == show && settings == old(settings) && showAPISettings == old(showAPISettings)
    {
      showLLMSettings := show;
    }
  }

  /** What the hook's `setProvider` returns. */
  datatype ProviderChoice = ProviderChoice(provider: Provider, model: string)

  /** The settings hook: the same record, whose setters return what they set. */
  class LlmSettingsHook {
    var settings: Settings

    constructor ()
      ensures settings == DefaultSettings
    {
      settings := DefaultSettings;
    }

    method SetProvider(p: Provider) returns (choice: ProviderChoice)
      modifies this
      ensures settings == WithProvider(old(settings), p)
      ensures choice == ProviderChoice(p, DefaultModelId(p))
      ensures choice.provider == settings.provider && choice.model == settings.model
    {
      var defaultModel := DefaultModelId(p);
      settings := WithProvider(settings, p);
      choice := ProviderChoice(p, defaultModel);
    }

    method SetModel(model: string) returns (r: string)
      modifies this
      ensures settings == WithModel(old(settings), model) && r == model
    {
      settings := WithModel(settings, model);
      r := model;
    }

    method SetApiKey(apiKey: string) returns (r: string)
      modifies this
      ensures settings == WithApiKey(old(settings), apiKey) && r == apiKey
    {
      settings := WithApiKey(settings, apiKey);
      r := apiKey;
    }

    method SetOllamaEndpoint(endpoint: string) returns (r: string)
      modifies this
      ensures settings == WithEndpoint(old(settings), endpoint) && r == endpoint
    {
      settings := WithEndpoint(settings, endpoint);
      r := endpoint;
    }
  }
}
