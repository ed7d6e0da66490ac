/** The language-model providers of api/services/llm_provider.py: the three
  * variants, their prompts, the factory that picks one and its credential,
  * and `extract_receipt_data`, with the vendor call and the JSON parser as
  * oracles. */
module LlmProvider {
  import opened Wrappers
  import opened Text
  import opened Schemas
  import Config

  datatype ProviderKind = GeminiProvider | OpenAIProvider | AnthropicProvider

  /** A constructed provider: the key its client was built with and its model. */
  datatype Provider = Provider(kind: ProviderKind, apiKey: string, model: string)

  /** The default of each constructor's `model` argument. */
  function DefaultModel(kind: ProviderKind): string
  {
    match kind
    case GeminiProvider => "gemini-2.0-flash"
    case OpenAIProvider => "gpt-4o"
    case AnthropicProvider => "claude-sonnet-4-20250514"
  }

  /** `GeminiProvider(api_key, model)` and its siblings; `model` is `None`
    * when the caller leaves the argument out. */
  function NewProvider(kind: ProviderKind, apiKey: string, model: Option<string>): (p: Provider)
    ensures p.kind == kind && p.apiKey == apiKey
    ensures model.Some? ==> p.model == model.value
    ensures model.None? ==> p.model == DefaultModel(kind)
  {
    Provider(kind, apiKey, model.GetOr(DefaultModel(kind)))
  }

  // ---------------------------------------------------------------------
  // Prompts.
  // ---------------------------------------------------------------------

  /** The closed set of categories every prompt offers. */
  const CATEGORIES: seq<string> := ["Groceries", "Dining", "Transportation", "Utilities",
    "Entertainment", "Healthcare", "Clothing", "Home & Garden", "Personal Care", "Shopping", "Other"]

  /** The category list as the prompts spell it out:
    * "Groceries, Dining, ..., Shopping, Other". */
  const CATEGORY_TEXT: string := Join(CATEGORIES, ", ")

  const INSTRUCTIONS: string :=
    "IMPORTANT INSTRUCTIONS:\n"
    + "1. Normalize merchant names (e.g., \"Wal-Mrt Super\" → \"Walmart\")\n"
    + "2. Convert dates to ISO 8601 format (YYYY-MM-DD)\n"
    + "3. Extract all line items with descriptions, categories, quantities, and prices\n"

  const INSTRUCTIONS_END: string :=
    "\n5. Ensure decimal precision for all monetary values\n"
    + "6. If quantities are not specified, assume 1\n\n"

  const JSON_STRUCTURE: string :=
    "{\n"
    + "  \"merchant_name\": \"string\",\n"
    + "  \"purchase_date\": \"YYYY-MM-DD\",\n"
    + "  \"total_amount\": number,\n"
    + "  \"tax_amount\": number,\n"
    + "  \"line_items\": [\n"
    + "    {\n"
    + "      \"description\": \"string\",\n"
    + "      \"category\": \"string\",\n"
    + "      \"quantity\": number,\n"
    + "      \"unit_price\": number,\n"
    + "      \"total_price\": number\n"
    + "    }\n"
    + "  ]\n"
    + "}\n\n"

  const EXTRACT_INTRO: string := "Extract structured information from this receipt OCR data.\n\n"

  const RECEIPT_MARKER: string := "RECEIPT DATA:\n"

  /** The prompt up to the category list. */
  function BeforeCategories(kind: ProviderKind): string
  {
    match kind
    case GeminiProvider =>
      "\nYou are a receipt data extraction expert. " + EXTRACT_INTRO + INSTRUCTIONS
      + "4. Categorize items appropriately: "
    case _ => EXTRACT_INTRO + INSTRUCTIONS + "4. Categorize items: "
  }

  /** The prompt between the category list and the "RECEIPT DATA:" line. */
  function AfterCategories(kind: ProviderKind): string
  {
    match kind
    case GeminiProvider => INSTRUCTIONS_END
    case OpenAIProvider =>
      INSTRUCTIONS_END + "Return a JSON object with this structure:\n" + JSON_STRUCTURE
    case AnthropicProvider =>
      INSTRUCTIONS_END + "Return ONLY a valid JSON object (no markdown, no explanation) with this structure:\n"
      + JSON_STRUCTURE
  }

  /** The part of the prompt after the OCR text. */
  function PromptTail(kind: ProviderKind): string
  {
    match kind
    case GeminiProvider => "\n\nExtract the complete structured data.\n"
    case OpenAIProvider => "\n"
    case AnthropicProvider => "\n"
  }

  /** `_build_prompt` of each variant. */
  function BuildPrompt(kind: ProviderKind, ocrText: string): string
  {
    BeforeCategories(kind) + CATEGORY_TEXT + AfterCategories(kind) + RECEIPT_MARKER + ocrText + PromptTail(kind)
  }

  /** Each prompt embeds the OCR text verbatim, immediately after its
    * "RECEIPT DATA:" line, and lists the eleven categories. */
  lemma PromptContents(kind: ProviderKind, ocrText: string)
    ensures Contains(BuildPrompt(kind, ocrText), RECEIPT_MARKER + ocrText)
    ensures Contains(BuildPrompt(kind, ocrText), CATEGORY_TEXT)
  {
    PromptShape(BeforeCategories(kind), CATEGORY_TEXT, AfterCategories(kind), RECEIPT_MARKER, ocrText, PromptTail(kind));
  }

  lemma PromptShape(pre: string, cats: string, post: string, marker: string, ocr: string, tail: string)
    ensures Contains(pre + cats + post + marker + ocr + tail, marker + ocr)
    ensures Contains(pre + cats + post + marker + ocr + tail, cats)
  {
    var prompt := pre + cats + post + marker + ocr + tail;
    assert prompt == (pre + cats + post) + (marker + ocr) + tail;
    ContainsMiddle(pre + cats + post, marker + ocr, tail);
    assert prompt == pre + cats + (post + marker + ocr + tail);
    ContainsMiddle(pre, cats, post + marker + ocr + tail);
  }

  // ---------------------------------------------------------------------
  // The Anthropic JSON slice: re.search(r'\{[\s\S]*\}', content).
  // ---------------------------------------------------------------------

  const NO_JSON_ERROR: string := "Could not extract JSON from Anthropic response"

  /** The index of the first `c` in `s`. */
  function FirstIndexOf(s: string, c: char): (r: Option<nat>)
    ensures r.Some? ==> r.value < |s| && s[r.value] == c && forall k :: 0 <= k < r.value ==> s[k] != c
    ensures r.None? ==> forall k :: 0 <= k < |s| ==> s[k] != c
  {
    if s == [] then None
    else if s[0] == c then Some(0)
    else match FirstIndexOf(s[1..], c)
      case None => None
      case Some(k) => Some(k + 1)
  }

  /** The index of the last `c` in `s`. */
  function LastIndexOf(s: string, c: char): (r: Option<nat>)
    ensures r.Some? ==> r.value < |s| && s[r.value] == c && forall k :: r.value < k < |s| ==> s[k] != c
    ensures r.None? ==> forall k :: 0 <= k < |s| ==> s[k] != c
  {
    if s == [] then None
    else if s[|s| - 1] == c then Some(|s| - 1)
    else LastIndexOf(s[..|s| - 1], c)
  }

  /** `s[i..j + 1]` runs from the first `{` of `s` to its last `}`. */
  predicate OuterBraces(s: string, i: nat, j: nat)
  {
    i < j < |s| && s[i] == '{' && s[j] == '}'
    && (forall k :: 0 <= k < i ==> s[k] != '{')
    && (forall k :: j < k < |s| ==> s[k] != '}')
  }

  /** The greedy match: from the first `{` to the last `}`, if some `}`
    * follows some `{`; otherwise the error the provider raises. */
  function ExtractJsonSlice(content: string): (r: Result<string, string>)
    ensures r.Success? <==> exists i, j :: 0 <= i < j < |content| && content[i] == '{' && content[j] == '}'
    ensures r.Success? ==> exists i: nat, j: nat :: OuterBraces(content, i, j) && r.value == content[i..j + 1]
    ensures r.Failure? ==> r.error == NO_JSON_ERROR
  {
    var first := FirstIndexOf(content, '{');
    var last := LastIndexOf(content, '}');
    if first.Some? && last.Some? && first.value < last.value then
      assert OuterBraces(content, first.value, last.value);
      Success(content[first.value..last.value + 1])
    else
      Failure(NO_JSON_ERROR)
  }

  lemma ExtractJsonSliceExample()
    ensures ExtractJsonSlice("x{}}y") == Success("{}}")
    ensures ExtractJsonSlice("}{") == Failure(NO_JSON_ERROR)
  {
    var s := "x{}}y";
    assert FirstIndexOf(s[1..], '{') == Some(0);
    assert LastIndexOf(s[..4], '}') == Some(3);
    assert s[1..4] == "{}}";
    var t := "}{";
    assert LastIndexOf(t[..1], '}') == Some(0);
  }

  // ---------------------------------------------------------------------
  // Extraction through a provider.
  // ---------------------------------------------------------------------

  /** What a vendor SDK is asked: a prompt for one model with one key. */
  datatype VendorRequest = VendorRequest(kind: ProviderKind, apiKey: string, model: string, prompt: string)

  /** `schema.model_validate_json(text)`: `parse` decodes the JSON into the
    * record (or fails with the validation message), and then the
    * `normalize_merchant` validator rewrites the merchant name. */
  function ModelValidateJson(parse: string -> Result<ReceiptExtraction, string>, text: string): (r: Result<ReceiptExtraction, string>)
    ensures r.Success? <==> parse(text).Success?
    ensures r.Failure? ==> r.error == parse(text).error
    ensures r.Success? ==> IsStripped(r.value.merchantName) && IsTitleCased(r.value.merchantName)
    ensures r.Success? ==> r.value.(merchantName := parse(text).value.merchantName) == parse(text).value
  {
    match parse(text)
    case Success(e) => Success(e.(merchantName := NormalizeMerchant(e.merchantName)))
    case Failure(m) => Failure(m)
  }

  /** `extract_receipt_data`: the vendor response text (or the error it
    * raised) is decoded; Anthropic's free text is first cut to its JSON
    * slice. */
  function ExtractReceiptData(p: Provider, ocrText: string,
                              vendor: VendorRequest -> Result<string, string>,
                              parse: string -> Result<ReceiptExtraction, string>): Result<ReceiptExtraction, string>
  {
    match vendor(VendorRequest(p.kind, p.apiKey, p.model, BuildPrompt(p.kind, ocrText)))
    case Failure(m) => Failure(m)
    case Success(text) =>
      if p.kind == AnthropicProvider then
        match ExtractJsonSlice(text)
        case Failure(m) => Failure(m)
        case Success(json) => ModelValidateJson(parse, json)
      else ModelValidateJson(parse, text)
  }

  /** A successful extraction asked the vendor with the provider's own model
    * and key about the prompt for this OCR text, and its merchant name is
    * normalised; the Anthropic variant decodes only the brace slice. */
  lemma ExtractReceiptDataFacts(p: Provider, ocrText: string,
                                vendor: VendorRequest -> Result<string, string>,
                                parse: string -> Result<ReceiptExtraction, string>)
    ensures var req := VendorRequest(p.kind, p.apiKey, p.model, BuildPrompt(p.kind, ocrText));
      var r := ExtractReceiptData(p, ocrText, vendor, parse);
      && (vendor(req).Failure? ==> r == Failure(vendor(req).error))
      && (r.Success? ==> vendor(req).Success? && IsStripped(r.value.merchantName) && IsTitleCased(r.value.merchantName))
      && (vendor(req).Success? && p.kind != AnthropicProvider ==> r == ModelValidateJson(parse, vendor(req).value))
      && (vendor(req).Success? && p.kind == AnthropicProvider && ExtractJsonSlice(vendor(req).value).Failure? ==>
            r == Failure(NO_JSON_ERROR))
      && (vendor(req).Success? && p.kind == AnthropicProvider && ExtractJsonSlice(vendor(req).value).Success? ==>
            r == ModelValidateJson(parse, ExtractJsonSlice(vendor(req).value).value))
  {
  }

  // ---------------------------------------------------------------------
  // The factory.
  // ---------------------------------------------------------------------

  /** `SettingsService.get_setting` over the values of the settings table. */
  function StoredSetting(settings: map<string, string>, key: string): Option<string>
  {
    if key in settings then Some(settings[key]) else None
  }

  /** The settings key the factory reads for a provider name, if any. */
  function CredentialKey(provider: string): Option<string>
  {
    if provider == "gemini" then Some("google_api_key")
    else if provider == "openai" then Some("openai_api_key")
    else if provider == "anthropic" then Some("anthropic_api_key")
    else None
  }

  /** `get_llm_provider`. */
  function GetLlmProvider(provider: string, model: string, settings: map<string, string>, env: Config.EnvSettings): (r: Result<Provider, string>)
    ensures r.Success? ==> r.value.model == model && CredentialKey(provider).Some? && r.value.apiKey != ""
  {
    if provider == "gemini" then
      var apiKey := Or(StoredSetting(settings, "google_api_key"), env.googleApiKey);
      if !Truthy(apiKey) then Failure("Google API key not configured")
      else Success(NewProvider(GeminiProvider, apiKey.value, Some(model)))
    else if provider == "openai" then
      var apiKey := StoredSetting(settings, "openai_api_key");
      if !Truthy(apiKey) then Failure("OpenAI API key not configured")
      else Success(NewProvider(OpenAIProvider, apiKey.value, Some(model)))
    else if provider == "anthropic" then
      var apiKey := StoredSetting(settings, "anthropic_api_key");
      if !Truthy(apiKey) then Failure("Anthropic API key not configured")
      else Success(NewProvider(AnthropicProvider, apiKey.value, Some(model)))
    else
      Failure("Unknown LLM provider: " + provider)
  }

  /** Gemini takes the stored key when it is non-empty, else the environment
    * key, and fails only when both are missing or empty. */
  lemma GeminiCredential(model: string, settings: map<string, string>, env: Config.EnvSettings)
    ensures var r := GetLlmProvider("gemini", model, settings, env);
      var stored := StoredSetting(settings, "google_api_key");
      && (Truthy(stored) ==> r == Success(Provider(GeminiProvider, stored.value, model)))
      && (!Truthy(stored) && Truthy(env.googleApiKey) ==> r == Success(Provider(GeminiProvider, env.googleApiKey.value, model)))
      && (!Truthy(stored) && !Truthy(env.googleApiKey) ==> r == Failure("Google API key not configured"))
  {
  }

  /** OpenAI and Anthropic have no fallback: a missing or empty stored key
    * fails whatever the environment holds; any other name is unknown. */
  lemma OtherCredentials(provider: string, model: string, settings: map<string, string>, env: Config.EnvSettings)
    ensures var r := GetLlmProvider(provider, model, settings, env);
      && (provider == "openai" ==>
            r == if Truthy(StoredSetting(settings, "openai_api_key"))
                 then Success(Provider(OpenAIProvider, settings["openai_api_key"], model))
                 else Failure("OpenAI API key not configured"))
      && (provider == "anthropic" ==>
            r == if Truthy(StoredSetting(settings, "anthropic_api_key"))
                 then Success(Provider(AnthropicProvider, settings["anthropic_api_key"], model))
                 else Failure("Anthropic API key not configured"))
      && (CredentialKey(provider).None? ==> r == Failure("Unknown LLM provider: " + provider))
  {
  }

  /** The factory reads exactly one settings key per provider: two settings
    * tables that agree on that key give the same result. */
  lemma FactoryReadsOneKey(provider: string, model: string, s1: map<string, string>, s2: map<string, string>, env: Config.EnvSettings)
    requires CredentialKey(provider).Some? ==>
      StoredSetting(s1, CredentialKey(provider).value) == StoredSetting(s2, CredentialKey(provider).value)
    ensures GetLlmProvider(provider, model, s1, env) == GetLlmProvider(provider, model, s2, env)
  {
  }
}
