/** The language-model providers of backend/services/llm_providers.py:
    `get_llm_provider` chooses a provider by name, fills in the provider's
    default model, and the OpenAI and Gemini providers settle on an API key
    from the caller or the environment, refusing to start without one. The
    client libraries the providers wrap are not part of this model; a
    provider is the record of what it was built with. */
module LlmProviders {
  import opened Results
  import opened Text

  datatype Kind = Ollama | OpenAI | Gemini

  /** What a provider holds: `model_name`, `temperature` and `api_key` as
      `LLMProvider.__init__` stores them (llm_providers.py:11-14), and the key
      handed to the client library (`clientKey`). */
  datatype Provider = Provider(kind: Kind, modelName: string, temperature: real,
                               apiKey: Option<string>, clientKey: Option<string>)

  datatype ProviderError =
    | Unsupported(providerType: string)
    | OpenAIKeyRequired
    | GeminiKeyRequired

  /** The error a keyed provider raises without a key. */
  function KeyRequired(kind: Kind): ProviderError
    requires kind != Ollama
  {
    if kind == OpenAI then OpenAIKeyRequired else GeminiKeyRequired
  }

  /** The text of the `ValueError` raised (llm_providers.py:36, 51, 76). */
  function Message(e: ProviderError): string {
    match e
    case Unsupported(t) => "Unsupported provider: " + t + ". Choose from: ollama, openai, gemini"
    case OpenAIKeyRequired => "OpenAI API key required"
    case GeminiKeyRequired => "Gemini API key required"
  }

  /** Python truthiness of an optional string: present and not empty. */
  predicate Truthy(o: Option<string>) {
    o.Some? && o.value != ""
  }

  /** Each provider's default model (llm_providers.py:64, 68, 72). */
  function DefaultModel(kind: Kind): (r: string)
    ensures r != ""
  {
    match kind
    case Ollama => "jobautomation/OpenEuroLLM-Polish"
    case OpenAI => "gpt-4o-mini"
    case Gemini => "gemini-1.5-flash"
  }

  /** The environment variable a provider's key falls back to
      (llm_providers.py:34, 49). */
  function KeyVariable(kind: Kind): string
    requires kind != Ollama
  {
    if kind == OpenAI then "OPENAI_API_KEY" else "GOOGLE_API_KEY"
  }

  /** `os.getenv(name)`. */
  function GetEnv(env: map<string, string>, name: string): Option<string> {
    if name in env then Some(env[name]) else None
  }

  /** `model_name or default`. */
  function ModelOrDefault(modelName: Option<string>, kind: Kind): string {
    if Truthy(modelName) then modelName.value else DefaultModel(kind)
  }

  /** `OllamaProvider(model_name, temperature)` (llm_providers.py:21-24):
      no API key at all. */
  function NewOllama(modelName: string, temperature: real): (p: Provider)
    ensures p.kind == Ollama && p.modelName == modelName && p.temperature == temperature
    ensures p.apiKey.None? && p.clientKey.None?
  {
    Provider(Ollama, modelName, temperature, None, None)
  }

  /** The constructors of `OpenAIProvider` (llm_providers.py:31-38) and
      `GeminiProvider` (llm_providers.py:46-53): `key = api_key or
      os.getenv(...)`, a `ValueError` when that is empty or missing. */
  function NewKeyed(kind: Kind, modelName: string, temperature: real, apiKey: Option<string>,
                    env: map<string, string>): (r: Result<Provider, ProviderError>)
    requires kind != Ollama
    ensures r.Ok? <==> Truthy(apiKey) || Truthy(GetEnv(env, KeyVariable(kind)))
    ensures r.Err? ==> r.error == KeyRequired(kind)
    ensures r.Ok? ==> (r.value.kind == kind && r.value.modelName == modelName
                       && r.value.temperature == temperature && r.value.apiKey == apiKey)
    ensures r.Ok? ==> r.value.clientKey == (if Truthy(apiKey) then apiKey else GetEnv(env, KeyVariable(kind)))
    ensures r.Ok? ==> Truthy(r.value.clientKey)
  {
    var key := if Truthy(apiKey) then apiKey else GetEnv(env, KeyVariable(kind));
    if !Truthy(key) then Err(KeyRequired(kind))
    else Ok(Provider(kind, modelName, temperature, apiKey, key))
  }

  /** The provider a lower-cased name selects. */
  function KindOf(name: string): (r: Option<Kind>)
    ensures r.Some? <==> name in {"ollama", "openai", "gemini"}
  {
    if name == "ollama" then Some(Ollama)
    else if name == "openai" then Some(OpenAI)
    else if name == "gemini" then Some(Gemini)
    else None
  }

  /** `get_llm_provider` (llm_providers.py:60-76); `env` stands for the
      process environment. */
  function GetLlmProvider(providerType: string, modelName: Option<string>, temperature: real,
                          apiKey: Option<string>, env: map<string, string>): (r: Result<Provider, ProviderError>)
    ensures r.Ok? ==> r.value.modelName != "" && r.value.temperature == temperature
    ensures r.Ok? && r.value.kind == Ollama ==> r.value.apiKey.None? && r.value.clientKey.None?
    ensures r.Ok? && r.value.kind != Ollama ==> Truthy(r.value.clientKey) && r.value.apiKey == apiKey
  {
    var name := Lower(providerType);
    match KindOf(name)
    case None => Err(Unsupported(name))
    case Some(Ollama) => Ok(NewOllama(ModelOrDefault(modelName, Ollama), temperature))
    case Some(kind) => NewKeyed(kind, ModelOrDefault(modelName, kind), temperature, apiKey, env)
  }

  /** The name chooses the provider whatever its case: a name and its
      lower-case form give the same provider or the same error. */
  lemma ProviderCaseInsensitive(providerType: string, modelName: Option<string>, temperature: real,
                                apiKey: Option<string>, env: map<string, string>)
    ensures GetLlmProvider(providerType, modelName, temperature, apiKey, env)
         == GetLlmProvider(Lower(providerType), modelName, temperature, apiKey, env)
  {
    LowerIdempotent(providerType);
  }

  /** Only `ollama`, `openai` and `gemini`, in any case, are accepted; any
      other name fails as unsupported, naming the lower-cased input. */
  lemma ProviderSelection(providerType: string, modelName: Option<string>, temperature: real,
                          apiKey: Option<string>, env: map<string, string>)
    ensures var r := GetLlmProvider(providerType, modelName, temperature, apiKey, env);
      && (r.Ok? ==> KindOf(Lower(providerType)) == Some(r.value.kind))
      && (r.Err? && r.error.Unsupported? <==> KindOf(Lower(providerType)).None?)
      && (r.Err? && r.error.Unsupported? ==> r.error.providerType == Lower(providerType))
  {
  }

  /** The provider gets the given model name when one is given and not
      empty, its own default otherwise. */
  lemma ModelNameDefaults(providerType: string, modelName: Option<string>, temperature: real,
                          apiKey: Option<string>, env: map<string, string>)
    ensures var r := GetLlmProvider(providerType, modelName, temperature, apiKey, env);
      r.Ok? ==> r.value.modelName == (if Truthy(modelName) then modelName.value else DefaultModel(r.value.kind))
  {
  }

  /** Ollama is always built; OpenAI and Gemini exactly when the caller's
      key or else the environment's is not empty, and the client gets that
      key; otherwise they fail with their own "API key required". */
  lemma KeyResolution(providerType: string, modelName: Option<string>, temperature: real,
                      apiKey: Option<string>, env: map<string, string>)
    ensures var r := GetLlmProvider(providerType, modelName, temperature, apiKey, env);
      forall kind :: KindOf(Lower(providerType)) == Some(kind) ==>
        && (kind == Ollama ==> r.Ok?)
        && (kind != Ollama ==> (r.Ok? <==> Truthy(apiKey) || Truthy(GetEnv(env, KeyVariable(kind)))))
        && (kind != Ollama && r.Ok? ==>
              r.value.clientKey == (if Truthy(apiKey) then apiKey else GetEnv(env, KeyVariable(kind))))
        && (kind != Ollama && r.Err? ==> r.error == KeyRequired(kind))
  {
  }
}
