/** Configuration (src/config.py): the dataclass defaults, the model
    defaulting of `LLMConfig`, the provider override of `Config` and the
    validation of required API keys. Environment variables are a map passed
    in by the caller. */
module Settings {
  import opened Text

  const AnthropicModel: string := "claude-sonnet-4-20250514"
  const OpenAIModel: string := "gpt-4o"

  const TavilyKeyError: string := "TAVILY_API_KEY is required"
  const AnthropicKeyError: string := "ANTHROPIC_API_KEY is required when using Anthropic"
  const OpenAIKeyError: string := "OPENAI_API_KEY is required when using OpenAI"

  /** `os.getenv(key, default)`. */
  function GetEnv(env: map<string, string>, key: string, default: string): string {
    if key in env then env[key] else default
  }

  /** The model `LLMConfig.__post_init__` settles on: an explicit model is
      kept, an empty one becomes the provider's default. */
  function ResolveModel(provider: string, model: string): (r: string)
    ensures model != "" ==> r == model
    ensures model == "" && provider == "openai" ==> r == OpenAIModel
    ensures model == "" && provider != "openai" ==> r == AnthropicModel
    ensures r != ""
  {
    if model != "" then model
    else if provider == "openai" then OpenAIModel
    else AnthropicModel
  }

  datatype SearchDepth = Basic | Advanced

  datatype SearchConfig = SearchConfig(
    maxResultsPerQuery: int,
    searchDepth: SearchDepth,
    maxParallelSearches: int,
    retryAttempts: int,
    retryDelay: real)

  datatype QualityConfig = QualityConfig(
    minQualityScore: real,
    maxRefinementIterations: int,
    minSourcesPerTopic: int,
    enableFactChecking: bool)

  datatype CacheConfig = CacheConfig(enabled: bool, databasePath: string, ttlHours: int)

  /** `SearchConfig()`. */
  function DefaultSearchConfig(): (c: SearchConfig)
    ensures c.maxResultsPerQuery == 5 && c.searchDepth == Advanced
    ensures c.maxParallelSearches == 5 && c.retryAttempts == 3 && c.retryDelay == 1.0
  {
    SearchConfig(5, Advanced, 5, 3, 1.0)
  }

  /** `QualityConfig()`. */
  function DefaultQualityConfig(): (c: QualityConfig)
    ensures c.minQualityScore == 7.0 && c.maxRefinementIterations == 2
    ensures c.minSourcesPerTopic == 3 && c.enableFactChecking
  {
    QualityConfig(7.0, 2, 3, true)
  }

  /** `CacheConfig()`. */
  function DefaultCacheConfig(): (c: CacheConfig)
    ensures c.enabled && c.databasePath == "data/research_cache.db" && c.ttlHours == 24
  {
    CacheConfig(true, "data/research_cache.db", 24)
  }

  /** The errors `Config.validate` reports, in order. */
  function ValidationErrors(tavilyKey: string, provider: string, anthropicKey: string, openaiKey: string): (errs: seq<string>)
    ensures |errs| <= 2
    ensures tavilyKey == "" <==> errs != [] && errs[0] == TavilyKeyError
  {
    (if tavilyKey == "" then [TavilyKeyError] else [])
    + (if provider == "anthropic" && anthropicKey == "" then [AnthropicKeyError]
       else if provider == "openai" && openaiKey == "" then [OpenAIKeyError]
       else [])
  }

  /** Validation: the Tavily error appears exactly when its key is empty, at
      most one LLM error appears and only for a known provider whose key is
      empty, and the list is empty exactly when the required keys are set. */
  lemma ValidationErrorsSpec(tavilyKey: string, provider: string, anthropicKey: string, openaiKey: string)
    ensures var errs := ValidationErrors(tavilyKey, provider, anthropicKey, openaiKey);
      && |errs| <= 2
      && (TavilyKeyError in errs <==> tavilyKey == "")
      && (AnthropicKeyError in errs <==> provider == "anthropic" && anthropicKey == "")
      && (OpenAIKeyError in errs <==> provider == "openai" && openaiKey == "")
      && (provider != "anthropic" && provider != "openai" ==> errs == (if tavilyKey == "" then [TavilyKeyError] else []))
      && (errs == [] <==> tavilyKey != ""
                           && (provider == "anthropic" ==> anthropicKey != "")
                           && (provider == "openai" ==> openaiKey != ""))
  {
  }

  /** With every key empty the list is never empty, whatever the provider. */
  lemma AllKeysMissing(provider: string)
    ensures ValidationErrors("", provider, "", "") != []
  {
  }

  /** `LLMConfig`: the provider and model used to build the chat client. */
  class LLMConfig {
    var provider: string
    var model: string
    var temperature: real
    var maxTokens: int

    /** The dataclass constructor followed by `__post_init__`. */
    constructor (provider: string, model: string)
      ensures this.provider == provider && this.model == ResolveModel(provider, model)
      ensures temperature == 0.3 && maxTokens == 4096
    {
      this.provider := provider;
      this.model := model;
      temperature := 0.3;
      maxTokens := 4096;
      new;
      if this.model == "" {
        if this.provider == "openai" {
          this.model := OpenAIModel;
        } else {
          this.model := AnthropicModel;
        }
      }
    }
  }

  /** `Config`, built from the environment `env`. */
  class Config {
    var tavilyApiKey: string
    var anthropicApiKey: string
    var openaiApiKey: string
    var serperApiKey: string
    var llm: LLMConfig
    var search: SearchConfig
    var quality: QualityConfig
    var cache: CacheConfig
    var outputDir: string
    var citationStyle: string

    /** The default factories read the keys from the environment, the nested
        `LLMConfig()` resolves its model for the default provider, and then
        `__post_init__` overwrites only the provider. */
    constructor (env: map<string, string>)
      ensures tavilyApiKey == GetEnv(env, "TAVILY_API_KEY", "")
      ensures anthropicApiKey == GetEnv(env, "ANTHROPIC_API_KEY", "")
      ensures openaiApiKey == GetEnv(env, "OPENAI_API_KEY", "")
      ensures serperApiKey == GetEnv(env, "SERPER_API_KEY", "")
      ensures fresh(llm)
      ensures llm.provider == Lower(GetEnv(env, "LLM_PROVIDER", "anthropic"))
      ensures llm.model == AsWrittenModel(env)
      ensures search == DefaultSearchConfig() && quality == DefaultQualityConfig()
      ensures cache == DefaultCacheConfig()
      ensures outputDir == "reports" && citationStyle == "apa"
    {
      tavilyApiKey := GetEnv(env, "TAVILY_API_KEY", "");
      anthropicApiKey := GetEnv(env, "ANTHROPIC_API_KEY", "");
      openaiApiKey := GetEnv(env, "OPENAI_API_KEY", "");
      serperApiKey := GetEnv(env, "SERPER_API_KEY", "");
      var l := new LLMConfig("anthropic", "");
      llm := l;
      search := DefaultSearchConfig();
      quality := DefaultQualityConfig();
      cache := DefaultCacheConfig();
      outputDir := "reports";
      citationStyle := "apa";
      new;
      var provider := Lower(GetEnv(env, "LLM_PROVIDER", "anthropic"));
      l.provider := provider;
    }

    /** `Config.validate`. */
    method Validate() returns (errors: seq<string>)
      ensures errors == ValidationErrors(tavilyApiKey, llm.provider, anthropicApiKey, openaiApiKey)
    {
      errors := [];
      if tavilyApiKey == "" {
        errors := errors + [TavilyKeyError];
      }
      if llm.provider == "anthropic" && anthropicApiKey == "" {
        errors := errors + [AnthropicKeyError];
      } else if llm.provider == "openai" && openaiApiKey == "" {
        errors := errors + [OpenAIKeyError];
      }
    }
  }

  /** The model a `Config` ends up with as the code is written: the one
      resolved for the default provider, before the override. */
  function AsWrittenModel(env: map<string, string>): string {
    ResolveModel("anthropic", "")
  }

  /** The provider `Config.__post_init__` installs. */
  function EnvProvider(env: map<string, string>): string {
    Lower(GetEnv(env, "LLM_PROVIDER", "anthropic"))
  }

  /** With `LLM_PROVIDER=openai` the configuration pairs the OpenAI provider
      with the Anthropic model name, so the OpenAI client is asked for a
      model it does not serve. */
  lemma AsWrittenModelMismatch()
    ensures var env := map["LLM_PROVIDER" := "OpenAI"];
      EnvProvider(env) == "openai" && AsWrittenModel(env) == AnthropicModel
      && AsWrittenModel(env) != ResolveModel(EnvProvider(env), "")
  {
    var env := map["LLM_PROVIDER" := "OpenAI"];
    assert Lower("OpenAI") == "openai";
  }

  /** The model resolved after the provider override, as the defaulting rule
      of `LLMConfig` evidently intends. */
  function CorrectedModel(env: map<string, string>): (m: string)
    ensures EnvProvider(env) == "openai" ==> m == OpenAIModel
    ensures EnvProvider(env) != "openai" ==> m == AnthropicModel
  {
    ResolveModel(EnvProvider(env), "")
  }
}
