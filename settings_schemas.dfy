/** The request and response models of api/models/settings_schemas.py: the
  * literal provider and theme types, the category field bounds (as subset
  * types, so that a value that fails validation cannot be built), the
  * settings update and response records, and the `LLM_MODELS` table. */
module SettingsSchemas {
  import opened Wrappers

  /** `LLMProvider = Literal["gemini", "openai", "anthropic"]`. */
  datatype ProviderName = Gemini | OpenAI | Anthropic
  {
    function Name(): string
    {
      match this
      case Gemini => "gemini"
      case OpenAI => "openai"
      case Anthropic => "anthropic"
    }
  }

  /** Validation of a string against the provider literal. */
  function ParseProviderName(s: string): (r: Option<ProviderName>)
    ensures r.Some? <==> s in {"gemini", "openai", "anthropic"}
    ensures r.Some? ==> r.value.Name() == s
  {
    if s == "gemini" then Some(Gemini)
    else if s == "openai" then Some(OpenAI)
    else if s == "anthropic" then Some(Anthropic)
    else None
  }

  lemma ParseProviderNameOfName(p: ProviderName)
    ensures ParseProviderName(p.Name()) == Some(p)
  {
  }

  /** `Theme = Literal["light", "dark", "system"]`. */
  datatype Theme = Light | Dark | System
  {
    function Name(): string
    {
      match this
      case Light => "light"
      case Dark => "dark"
      case System => "system"
    }
  }

  function ParseTheme(s: string): (r: Option<Theme>)
    ensures r.Some? <==> s in {"light", "dark", "system"}
    ensures r.Some? ==> r.value.Name() == s
  {
    if s == "light" then Some(Light)
    else if s == "dark" then Some(Dark)
    else if s == "system" then Some(System)
    else None
  }

  /** `name: str = Field(..., min_length=1, max_length=100)`. */
  type CategoryName = s: string | 1 <= |s| <= 100 witness "x"

  /** `monthly_budget_limit: Optional[Decimal] = Field(None, ge=0)`. */
  type BudgetLimit = r: real | r >= 0.0

  datatype CategoryCreate = CategoryCreate(name: CategoryName, monthlyBudgetLimit: Option<BudgetLimit>)

  datatype CategoryUpdate = CategoryUpdate(name: Option<CategoryName>, monthlyBudgetLimit: Option<BudgetLimit>)

  // Setting keys, in the order `SettingsUpdate` declares its fields.
  const LLM_PROVIDER := "llm_provider"
  const LLM_MODEL := "llm_model"
  const THEME := "theme"
  const AWS_REGION := "aws_region"
  const AWS_ACCESS_KEY_ID := "aws_access_key_id"
  const AWS_SECRET_ACCESS_KEY := "aws_secret_access_key"
  const GOOGLE_API_KEY := "google_api_key"
  const OPENAI_API_KEY := "openai_api_key"
  const ANTHROPIC_API_KEY := "anthropic_api_key"

  const SETTINGS_UPDATE_FIELDS: seq<string> := [LLM_PROVIDER, LLM_MODEL, THEME, AWS_REGION,
    AWS_ACCESS_KEY_ID, AWS_SECRET_ACCESS_KEY, GOOGLE_API_KEY, OPENAI_API_KEY, ANTHROPIC_API_KEY]

  /** One `(key, str(value))` entry of `model_dump(exclude_none=True)`. */
  function Entry(key: string, value: Option<string>): seq<(string, string)>
  {
    if value.Some? then [(key, value.value)] else []
  }

  function NameOfProvider(p: Option<ProviderName>): Option<string>
  {
    if p.Some? then Some(p.value.Name()) else None
  }

  function NameOfTheme(t: Option<Theme>): Option<string>
  {
    if t.Some? then Some(t.value.Name()) else None
  }

  datatype SettingsUpdate = SettingsUpdate(
    llmProvider: Option<ProviderName>,
    llmModel: Option<string>,
    theme: Option<Theme>,
    awsRegion: Option<string>,
    awsAccessKeyId: Option<string>,
    awsSecretAccessKey: Option<string>,
    googleApiKey: Option<string>,
    openaiApiKey: Option<string>,
    anthropicApiKey: Option<string>)
  {
    /** `model_dump(exclude_none=True)` with every value as `str(value)`. */
    function Dumped(): seq<(string, string)>
    {
      Entry(LLM_PROVIDER, NameOfProvider(llmProvider)) + Entry(LLM_MODEL, llmModel)
      + Entry(THEME, NameOfTheme(theme)) + Entry(AWS_REGION, awsRegion)
      + Entry(AWS_ACCESS_KEY_ID, awsAccessKeyId) + Entry(AWS_SECRET_ACCESS_KEY, awsSecretAccessKey)
      + Entry(GOOGLE_API_KEY, googleApiKey) + Entry(OPENAI_API_KEY, openaiApiKey)
      + Entry(ANTHROPIC_API_KEY, anthropicApiKey)
    }
  }

  /** `SettingsResponse` with its defaults. */
  datatype SettingsResponse = SettingsResponse(
    llmProvider: string,
    llmModel: string,
    theme: string,
    awsRegion: string,
    awsAccessKeyConfigured: bool,
    awsSecretKeyConfigured: bool,
    googleApiKeyConfigured: bool,
    openaiApiKeyConfigured: bool,
    anthropicApiKeyConfigured: bool)

  const DEFAULT_LLM_PROVIDER := "gemini"
  const DEFAULT_LLM_MODEL := "gemini-2.0-flash"
  const DEFAULT_THEME := "system"
  const DEFAULT_AWS_REGION := "us-west-2"

  const DEFAULT_SETTINGS_RESPONSE: SettingsResponse :=
    SettingsResponse(DEFAULT_LLM_PROVIDER, DEFAULT_LLM_MODEL, DEFAULT_THEME, DEFAULT_AWS_REGION,
                     false, false, false, false, false)

  /** `APIKeyUpdate`. */
  datatype ApiKeyUpdate = ApiKeyUpdate(
    awsAccessKeyId: Option<string>,
    awsSecretAccessKey: Option<string>,
    awsRegion: Option<string>,
    googleApiKey: Option<string>,
    openaiApiKey: Option<string>,
    anthropicApiKey: Option<string>)
  {
    function Dumped(): seq<(string, string)>
    {
      Entry(AWS_ACCESS_KEY_ID, awsAccessKeyId) + Entry(AWS_SECRET_ACCESS_KEY, awsSecretAccessKey)
      + Entry(AWS_REGION, awsRegion) + Entry(GOOGLE_API_KEY, googleApiKey)
      + Entry(OPENAI_API_KEY, openaiApiKey) + Entry(ANTHROPIC_API_KEY, anthropicApiKey)
    }
  }

  /** The keyword argument named `key`, if it is passed. */
  function Keyword(kwargs: seq<(string, string)>, key: string): (r: Option<string>)
    ensures r.Some? ==> (key, r.value) in kwargs
    ensures r.None? ==> forall k :: 0 <= k < |kwargs| ==> kwargs[k].0 != key
  {
    if kwargs == [] then None
    else if kwargs[0].0 == key then Some(kwargs[0].1)
    else Keyword(kwargs[1..], key)
  }

  /** `SettingsUpdate(**kwargs)`: each field takes the keyword of its name;
    * keywords that name no field are ignored. The literal fields keep a
    * keyword only when it is a valid literal. */
  function SettingsUpdateFromKeywords(kwargs: seq<(string, string)>): SettingsUpdate
  {
    var provider := Keyword(kwargs, LLM_PROVIDER);
    var theme := Keyword(kwargs, THEME);
    SettingsUpdate(
      if provider.Some? then ParseProviderName(provider.value) else None,
      Keyword(kwargs, LLM_MODEL),
      if theme.Some? then ParseTheme(theme.value) else None,
      Keyword(kwargs, AWS_REGION),
      Keyword(kwargs, AWS_ACCESS_KEY_ID),
      Keyword(kwargs, AWS_SECRET_ACCESS_KEY),
      Keyword(kwargs, GOOGLE_API_KEY),
      Keyword(kwargs, OPENAI_API_KEY),
      Keyword(kwargs, ANTHROPIC_API_KEY))
  }

  /** `SettingsUpdate(**updates.model_dump(exclude_none=True))`. */
  function ApiKeysAsSettingsUpdate(a: ApiKeyUpdate): SettingsUpdate
  {
    SettingsUpdateFromKeywords(a.Dumped())
  }

  lemma {:induction false} KeywordAppend(x: seq<(string, string)>, y: seq<(string, string)>, key: string)
    ensures Keyword(x + y, key) == if Keyword(x, key).Some? then Keyword(x, key) else Keyword(y, key)
  {
    if x == [] {
      assert x + y == y;
    } else {
      assert (x + y)[1..] == x[1..] + y;
      KeywordAppend(x[1..], y, key);
    }
  }

  lemma KeywordEntry(k: string, v: Option<string>, key: string)
    ensures Keyword(Entry(k, v), key) == if k == key then v else None
  {
  }

  /** The keyword a dumped `APIKeyUpdate` passes for each setting key. */
  lemma ApiKeyKeyword(a: ApiKeyUpdate, key: string)
    ensures Keyword(a.Dumped(), key) ==
      if key == AWS_ACCESS_KEY_ID then a.awsAccessKeyId
      else if key == AWS_SECRET_ACCESS_KEY then a.awsSecretAccessKey
      else if key == AWS_REGION then a.awsRegion
      else if key == GOOGLE_API_KEY then a.googleApiKey
      else if key == OPENAI_API_KEY then a.openaiApiKey
      else if key == ANTHROPIC_API_KEY then a.anthropicApiKey
      else None
  {
    var e1, e2, e3 := Entry(AWS_ACCESS_KEY_ID, a.awsAccessKeyId), Entry(AWS_SECRET_ACCESS_KEY, a.awsSecretAccessKey), Entry(AWS_REGION, a.awsRegion);
    var e4, e5, e6 := Entry(GOOGLE_API_KEY, a.googleApiKey), Entry(OPENAI_API_KEY, a.openaiApiKey), Entry(ANTHROPIC_API_KEY, a.anthropicApiKey);
    KeywordAppend(e1 + e2 + e3 + e4 + e5, e6, key);
    KeywordAppend(e1 + e2 + e3 + e4, e5, key);
    KeywordAppend(e1 + e2 + e3, e4, key);
    KeywordAppend(e1 + e2, e3, key);
    KeywordAppend(e1, e2, key);
    KeywordEntry(AWS_ACCESS_KEY_ID, a.awsAccessKeyId, key);
    KeywordEntry(AWS_SECRET_ACCESS_KEY, a.awsSecretAccessKey, key);
    KeywordEntry(AWS_REGION, a.awsRegion, key);
    KeywordEntry(GOOGLE_API_KEY, a.googleApiKey, key);
    KeywordEntry(OPENAI_API_KEY, a.openaiApiKey, key);
    KeywordEntry(ANTHROPIC_API_KEY, a.anthropicApiKey, key);
  }

  /** Every field of `APIKeyUpdate` is also a field of `SettingsUpdate`, so
    * the conversion drops none of the given keys: it carries exactly the
    * six values across and sets nothing else. */
  lemma ApiKeysCarriedAcross(a: ApiKeyUpdate)
    ensures var u := ApiKeysAsSettingsUpdate(a);
      && u.llmProvider.None? && u.llmModel.None? && u.theme.None?
      && u.awsRegion == a.awsRegion && u.awsAccessKeyId == a.awsAccessKeyId
      && u.awsSecretAccessKey == a.awsSecretAccessKey && u.googleApiKey == a.googleApiKey
      && u.openaiApiKey == a.openaiApiKey && u.anthropicApiKey == a.anthropicApiKey
  {
    ApiKeyKeyword(a, LLM_PROVIDER);
    ApiKeyKeyword(a, LLM_MODEL);
    ApiKeyKeyword(a, THEME);
    ApiKeyKeyword(a, AWS_REGION);
    ApiKeyKeyword(a, AWS_ACCESS_KEY_ID);
    ApiKeyKeyword(a, AWS_SECRET_ACCESS_KEY);
    ApiKeyKeyword(a, GOOGLE_API_KEY);
    ApiKeyKeyword(a, OPENAI_API_KEY);
    ApiKeyKeyword(a, ANTHROPIC_API_KEY);
  }

  /** `LLMConfigUpdate`. */
  datatype LlmConfigUpdate = LlmConfigUpdate(provider: ProviderName, model: string)

  datatype ModelInfo = ModelInfo(id: string, name: string)

  /** The models offered per provider. */
  const LLM_MODELS: map<string, seq<ModelInfo>> := map[
    "gemini" := [ModelInfo("gemini-2.0-flash", "Gemini 2.0 Flash"),
                 ModelInfo("gemini-1.5-pro", "Gemini 1.5 Pro"),
                 ModelInfo("gemini-1.5-flash", "Gemini 1.5 Flash")],
    "openai" := [ModelInfo("gpt-4o", "GPT-4o"),
                 ModelInfo("gpt-4o-mini", "GPT-4o Mini"),
                 ModelInfo("gpt-4-turbo", "GPT-4 Turbo")],
    "anthropic" := [ModelInfo("claude-sonnet-4-20250514", "Claude Sonnet 4"),
                    ModelInfo("claude-3-5-haiku-20241022", "Claude 3.5 Haiku"),
                    ModelInfo("claude-3-5-sonnet-20241022", "Claude 3.5 Sonnet")]
  ]

  /** `[m["id"] for m in LLM_MODELS.get(provider, [])]`. */
  function ModelIds(provider: string): (ids: seq<string>)
    ensures provider !in LLM_MODELS ==> ids == []
    ensures provider in LLM_MODELS ==>
      |ids| == |LLM_MODELS[provider]| && forall k :: 0 <= k < |ids| ==> ids[k] == LLM_MODELS[provider][k].id
  {
    var models := if provider in LLM_MODELS then LLM_MODELS[provider] else [];
    seq(|models|, k requires 0 <= k < |models| => models[k].id)
  }

  /** Exactly the three provider literals have entries, each with three
    * distinct model ids. */
  lemma LlmModelsShape()
    ensures LLM_MODELS.Keys == {Gemini.Name(), OpenAI.Name(), Anthropic.Name()}
    ensures forall p :: p in LLM_MODELS ==>
      |ModelIds(p)| == 3 && ModelIds(p)[0] != ModelIds(p)[1] && ModelIds(p)[0] != ModelIds(p)[2] && ModelIds(p)[1] != ModelIds(p)[2]
  {
  }

  /** The default model is one of the default provider's models, and each
    * provider's constructor default is one of its own. */
  lemma DefaultModelsListed()
    ensures DEFAULT_LLM_MODEL in ModelIds(DEFAULT_LLM_PROVIDER)
    ensures "gpt-4o" in ModelIds("openai")
    ensures "claude-sonnet-4-20250514" in ModelIds("anthropic")
  {
    assert ModelIds(DEFAULT_LLM_PROVIDER)[0] == DEFAULT_LLM_MODEL;
    assert ModelIds("openai")[0] == "gpt-4o";
    assert ModelIds("anthropic")[0] == "claude-sonnet-4-20250514";
  }
}
