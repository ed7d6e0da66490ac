/** The decision logic of the HTTP handlers in api/main.py: the upload
  * gates and what an accepted upload does, the background task's fallback,
  * the settings endpoints and the category endpoints. Each handler's reply
  * is a `Reply`: the body, an `HTTPException` it raises on purpose, or an
  * exception it lets escape (which FastAPI answers with a 500). */
module Handlers {
  import opened Wrappers
  import opened Uuids
  import opened Schemas
  import opened SettingsSchemas
  import opened Storage
  import opened DatabaseOps
  import opened WorkflowState
  import opened Nodes
  import opened Graph
  import opened Processor
  import opened SettingsOps

  /** An `HTTPException`: its status code and detail. */
  datatype HttpError = HttpError(status: nat, detail: string)

  datatype Reply<T> = Ok(body: T) | Rejected(error: HttpError) | Raised(message: string)

  // ---------------------------------------------------------------------
  // Upload.
  // ---------------------------------------------------------------------

  const ALLOWED_TYPES: seq<string> := ["image/jpeg", "image/png", "application/pdf"]

  const MAX_SIZE: nat := 10 * 1024 * 1024

  const UPLOAD_FAILED: string := "An unexpected error occurred while processing the upload."

  const UPLOAD_ACCEPTED: string := "Receipt uploaded successfully and is now being processed."

  /** How the f-string shows `file.content_type`, which may be `None`. */
  function ShowContentType(contentType: Option<string>): string
  {
    if contentType.Some? then contentType.value else "None"
  }

  /** The two checks before anything is written: the content type first,
    * then the size of the body read. */
  function UploadGate(contentType: Option<string>, size: nat): (r: Option<HttpError>)
    ensures r.None? <==> contentType.Some? && contentType.value in ALLOWED_TYPES && size <= MAX_SIZE
    ensures (contentType.None? || contentType.value !in ALLOWED_TYPES) ==>
      r == Some(HttpError(400, "File type " + ShowContentType(contentType) + " not supported. Please upload JPG, PNG or PDF."))
    ensures contentType.Some? && contentType.value in ALLOWED_TYPES && size > MAX_SIZE ==>
      r == Some(HttpError(413, "File size exceeds the 10MB limit."))
  {
    if contentType.None? || contentType.value !in ALLOWED_TYPES then
      Some(HttpError(400, "File type " + ShowContentType(contentType) + " not supported. Please upload JPG, PNG or PDF."))
    else if size > MAX_SIZE then
      Some(HttpError(413, "File size exceeds the 10MB limit."))
    else None
  }

  /** The limit is inclusive and an empty file passes; one byte more is
    * refused, and a refused type is reported even when the file is also
    * too large. */
  lemma UploadGateBoundaries()
    ensures UploadGate(Some("image/jpeg"), MAX_SIZE).None?
    ensures UploadGate(Some("application/pdf"), 0).None?
    ensures UploadGate(Some("image/png"), MAX_SIZE + 1) == Some(HttpError(413, "File size exceeds the 10MB limit."))
    ensures UploadGate(Some("text/plain"), MAX_SIZE + 1).value.status == 400
    ensures UploadGate(None, 0).value.status == 400
  {
  }

  /** `process_receipt_background` as handed to `add_task`. */
  datatype BackgroundTask = BackgroundTask(receiptId: Uuid, filePath: string)

  /** `upload_receipt` with `receiptId` as the generated `uuid4()`; writing
    * the file may fail (`saveFault`) and so may the insert
    * (`insertFault`), and either becomes the fixed 500 reply. */
  method UploadReceipt(tables: ReceiptTables, contentType: Option<string>, size: nat, receiptId: Uuid,
                       saveFault: Option<string>, insertFault: Option<string>)
    returns (r: Reply<UploadResponse>, task: Option<BackgroundTask>)
    modifies tables
    ensures UploadGate(contentType, size).Some? ==>
      r == Rejected(UploadGate(contentType, size).value) && task.None? && tables.Contents() == old(tables.Contents())
    ensures UploadGate(contentType, size).None? && (saveFault.Some? || insertFault.Some? || receiptId in old(tables.receipts)) ==>
      r == Rejected(HttpError(500, UPLOAD_FAILED)) && task.None? && tables.Contents() == old(tables.Contents())
    ensures UploadGate(contentType, size).None? && saveFault.None? && insertFault.None? && receiptId !in old(tables.receipts) ==>
      var path := SaveFile(receiptId, contentType.value);
      && r == Ok(UploadResponse(ToString(receiptId), "pending", UPLOAD_ACCEPTED))
      && task == Some(BackgroundTask(receiptId, path))
      && tables.Contents() == old(tables.Contents()).(receipts := old(tables.receipts)[receiptId := InitialReceipt(receiptId, GetRelativeUrl(path))])
    ensures old(tables.Valid()) ==> tables.Valid()
  {
    var rejection := UploadGate(contentType, size);
    if rejection.Some? {
      return Rejected(rejection.value), None;
    }
    if saveFault.Some? {
      return Rejected(HttpError(500, UPLOAD_FAILED)), None;
    }
    var filePath := SaveFile(receiptId, contentType.value);
    var imageUrl := GetRelativeUrl(filePath);
    var err := tables.CreateInitialReceipt(receiptId, imageUrl, insertFault);
    if err.Some? {
      return Rejected(HttpError(500, UPLOAD_FAILED)), None;
    }
    task := Some(BackgroundTask(receiptId, filePath));
    r := Ok(UploadResponse(ToString(receiptId), "pending", UPLOAD_ACCEPTED));
  }

  /** An accepted upload's row points at "/storage/receipts/<id><ext>" and
    * is pending, and the reply's id parses back to the row's key. */
  lemma AcceptedUploadRow(receiptId: Uuid, contentType: string)
    requires contentType in ALLOWED_TYPES
    ensures var row := InitialReceipt(receiptId, GetRelativeUrl(SaveFile(receiptId, contentType)));
      && row.imageUrl == RELATIVE_PREFIX + "/" + ToString(receiptId) + ExtensionFor(contentType)
      && row.status == Pending
      && Parse(ToString(receiptId)) == Some(receiptId)
  {
    ExtensionsHaveNoSlash(contentType);
    RelativeUrlOfFilePath(receiptId, ExtensionFor(contentType));
    ParseToString(receiptId);
  }

  /** The tables after the background task: the run, then, when it raised,
    * the manual_review update (unless that write fails too). */
  function Background(receiptId: Uuid, filePath: string, st: Store, c: Collaborators, f: RunFaults,
                      fallbackFault: Option<string>): Store
  {
    var out := Run(receiptId, filePath, st, c, f);
    if out.raised.Some? && fallbackFault.None? then WithReceiptStatus(out.store, receiptId, ManualReview)
    else out.store
  }

  /** `process_receipt_background`. */
  method ProcessReceiptBackground(processor: ReceiptProcessor, receiptId: Uuid, filePath: string, tables: ReceiptTables,
                                  c: Collaborators, f: RunFaults, fallbackFault: Option<string>)
    returns (err: Option<string>)
    requires processor.Valid()
    modifies tables
    ensures tables.Contents() == Background(receiptId, filePath, old(tables.Contents()), c, f, fallbackFault)
    ensures err == if Run(receiptId, filePath, old(tables.Contents()), c, f).raised.Some? then fallbackFault else None
    ensures old(tables.Valid()) ==> tables.Valid()
  {
    var r := processor.ProcessReceipt(receiptId, filePath, tables, c, f);
    if r.Failure? {
      err := tables.UpdateReceiptStatus(receiptId, ManualReview, fallbackFault);
    } else {
      err := None;
    }
  }

  /** Once the background task has finished, an uploaded receipt is never
    * left pending (except when even the fallback write fails): it is
    * complete exactly when the run completed, and otherwise in manual
    * review. */
  lemma BackgroundSettlesReceipt(receiptId: Uuid, filePath: string, st: Store, c: Collaborators, f: RunFaults)
    requires receiptId in st.receipts
    ensures var r := Background(receiptId, filePath, st, c, f, None);
      && receiptId in r.receipts
      && (r.receipts[receiptId].status == ReceiptStatus.Complete
          <==> Run(receiptId, filePath, st, c, f).job.status == JobStatus.Complete)
      && (r.receipts[receiptId].status != ReceiptStatus.Complete ==> r.receipts[receiptId].status == ManualReview)
  {
    var out := Run(receiptId, filePath, st, c, f);
    RunOutcome(receiptId, filePath, st, c, f);
    if out.raised.Some? {
      WithReceiptStatusFacts(st, receiptId, ManualReview);
    } else if out.job.status == JobStatus.Complete {
      SaveReceiptFacts(st, receiptId, out.job.cleanedJson.value);
    } else {
      WithReceiptStatusFacts(st, receiptId, ManualReview);
    }
  }

  // ---------------------------------------------------------------------
  // Settings endpoints.
  // ---------------------------------------------------------------------

  /** `update_settings`: the upserts, then the masked settings. */
  method UpdateSettingsEndpoint(table: SettingsTable, updates: SettingsUpdate, fault: Option<StatementFault>)
    returns (r: Reply<SettingsResponse>)
    modifies table
    ensures fault.Some? && fault.value.statement < |updates.Dumped()| ==>
      r == Raised(fault.value.message) && table.rows == old(table.rows)
    ensures !(fault.Some? && fault.value.statement < |updates.Dumped()|) ==>
      && table.rows == Upserted(old(table.rows), updates.Dumped())
      && r == Ok(GetAllSettings(ValuesOf(table.rows)))
  {
    var err := table.UpdateSettings(updates, fault);
    if err.Some? {
      return Raised(err.value);
    }
    r := Ok(GetAllSettings(ValuesOf(table.rows)));
  }

  /** `update_api_keys`: the keys converted to a `SettingsUpdate` and
    * written like any other settings. */
  method UpdateApiKeys(table: SettingsTable, updates: ApiKeyUpdate, fault: Option<StatementFault>)
    returns (r: Reply<SettingsResponse>)
    modifies table
    ensures fault.Some? && fault.value.statement < |ApiKeysAsSettingsUpdate(updates).Dumped()| ==>
      r == Raised(fault.value.message) && table.rows == old(table.rows)
    ensures !(fault.Some? && fault.value.statement < |ApiKeysAsSettingsUpdate(updates).Dumped()|) ==>
      && table.rows == Upserted(old(table.rows), ApiKeysAsSettingsUpdate(updates).Dumped())
      && r == Ok(GetAllSettings(ValuesOf(table.rows)))
  {
    var settingsUpdate := ApiKeysAsSettingsUpdate(updates);
    r := UpdateSettingsEndpoint(table, settingsUpdate, fault);
  }

  /** A stored API key shows as configured afterwards when it is not
    * empty, and never with its value; the provider, model and theme are
    * untouched by a key update. */
  lemma ApiKeyUpdateShowsConfigured(rows: map<string, SettingRow>, a: ApiKeyUpdate)
    ensures var resp := GetAllSettings(ValuesOf(Upserted(rows, ApiKeysAsSettingsUpdate(a).Dumped())));
      && (a.googleApiKey.Some? ==> (resp.googleApiKeyConfigured <==> a.googleApiKey.value != ""))
      && (a.openaiApiKey.Some? ==> (resp.openaiApiKeyConfigured <==> a.openaiApiKey.value != ""))
      && (a.anthropicApiKey.Some? ==> (resp.anthropicApiKeyConfigured <==> a.anthropicApiKey.value != ""))
      && (a.awsAccessKeyId.Some? ==> (resp.awsAccessKeyConfigured <==> a.awsAccessKeyId.value != ""))
      && (a.awsSecretAccessKey.Some? ==> (resp.awsSecretKeyConfigured <==> a.awsSecretAccessKey.value != ""))
      && resp.llmProvider == GetAllSettings(ValuesOf(rows)).llmProvider
      && resp.llmModel == GetAllSettings(ValuesOf(rows)).llmModel
      && resp.theme == GetAllSettings(ValuesOf(rows)).theme
  {
    ApiKeysCarriedAcross(a);
    ApiKeyFlags(rows, a);
    ApiKeyKeepsPreferences(rows, ApiKeysAsSettingsUpdate(a));
  }

  lemma ApiKeyFlags(rows: map<string, SettingRow>, a: ApiKeyUpdate)
    requires ApiKeysAsSettingsUpdate(a).googleApiKey == a.googleApiKey
    requires ApiKeysAsSettingsUpdate(a).openaiApiKey == a.openaiApiKey
    requires ApiKeysAsSettingsUpdate(a).anthropicApiKey == a.anthropicApiKey
    requires ApiKeysAsSettingsUpdate(a).awsAccessKeyId == a.awsAccessKeyId
    requires ApiKeysAsSettingsUpdate(a).awsSecretAccessKey == a.awsSecretAccessKey
    ensures var resp := GetAllSettings(ValuesOf(Upserted(rows, ApiKeysAsSettingsUpdate(a).Dumped())));
      && (a.googleApiKey.Some? ==> (resp.googleApiKeyConfigured <==> a.googleApiKey.value != ""))
      && (a.openaiApiKey.Some? ==> (resp.openaiApiKeyConfigured <==> a.openaiApiKey.value != ""))
      && (a.anthropicApiKey.Some? ==> (resp.anthropicApiKeyConfigured <==> a.anthropicApiKey.value != ""))
      && (a.awsAccessKeyId.Some? ==> (resp.awsAccessKeyConfigured <==> a.awsAccessKeyId.value != ""))
      && (a.awsSecretAccessKey.Some? ==> (resp.awsSecretKeyConfigured <==> a.awsSecretAccessKey.value != ""))
  {
    var u := ApiKeysAsSettingsUpdate(a);
    FieldValueOfKeys(u);
    UpdateSettingsEffect(rows, u, GOOGLE_API_KEY);
    UpdateSettingsEffect(rows, u, OPENAI_API_KEY);
    UpdateSettingsEffect(rows, u, ANTHROPIC_API_KEY);
    UpdateSettingsEffect(rows, u, AWS_ACCESS_KEY_ID);
    UpdateSettingsEffect(rows, u, AWS_SECRET_ACCESS_KEY);
  }

  lemma ApiKeyKeepsPreferences(rows: map<string, SettingRow>, u: SettingsUpdate)
    requires u.llmProvider.None? && u.llmModel.None? && u.theme.None?
    ensures var resp := GetAllSettings(ValuesOf(Upserted(rows, u.Dumped())));
      && resp.llmProvider == GetAllSettings(ValuesOf(rows)).llmProvider
      && resp.llmModel == GetAllSettings(ValuesOf(rows)).llmModel
      && resp.theme == GetAllSettings(ValuesOf(rows)).theme
  {
    UpdateSettingsEffect(rows, u, LLM_PROVIDER);
    UpdateSettingsEffect(rows, u, LLM_MODEL);
    UpdateSettingsEffect(rows, u, THEME);
  }

  /** The 400 reply for a model the provider does not offer. */
  function InvalidModel(config: LlmConfigUpdate): HttpError
  {
    HttpError(400, "Invalid model '" + config.model + "' for provider '" + config.provider.Name() + "'")
  }

  /** The update `update_llm_config` writes. */
  function LlmConfigSettings(config: LlmConfigUpdate): SettingsUpdate
  {
    SettingsUpdate(Some(config.provider), Some(config.model), None, None, None, None, None, None, None)
  }

  /** An accepted configuration writes exactly `llm_provider` and
    * `llm_model`, neither flagged encrypted, and the reply shows both. */
  lemma LlmConfigWritesExactlyTwo(rows: map<string, SettingRow>, config: LlmConfigUpdate)
    ensures Upserted(rows, LlmConfigSettings(config).Dumped())
         == rows[LLM_PROVIDER := SettingRow(config.provider.Name(), false)][LLM_MODEL := SettingRow(config.model, false)]
    ensures var resp := GetAllSettings(ValuesOf(Upserted(rows, LlmConfigSettings(config).Dumped())));
      resp.llmProvider == config.provider.Name() && resp.llmModel == config.model
  {
    var d := LlmConfigSettings(config).Dumped();
    var once := rows[LLM_PROVIDER := SettingRow(config.provider.Name(), false)];
    assert d == [(LLM_PROVIDER, config.provider.Name()), (LLM_MODEL, config.model)];
    assert d[..1] == [(LLM_PROVIDER, config.provider.Name())];
    assert d[..1][..0] == [];
    assert Upserted(rows, d[..1]) == once;
    var written := rows[LLM_PROVIDER := SettingRow(config.provider.Name(), false)][LLM_MODEL := SettingRow(config.model, false)];
    assert LLM_PROVIDER != LLM_MODEL;
    assert ValuesOf(written)[LLM_PROVIDER] == config.provider.Name();
    assert ValuesOf(written)[LLM_MODEL] == config.model;
  }

  /** `update_llm_config`: a model outside the provider's list is refused
    * before anything is written. */
  method UpdateLlmConfig(table: SettingsTable, config: LlmConfigUpdate, fault: Option<StatementFault>)
    returns (r: Reply<SettingsResponse>)
    modifies table
    ensures config.model !in ModelIds(config.provider.Name()) ==>
      r == Rejected(InvalidModel(config)) && table.rows == old(table.rows)
    ensures config.model in ModelIds(config.provider.Name()) && fault.Some? && fault.value.statement < 2 ==>
      r == Raised(fault.value.message) && table.rows == old(table.rows)
    ensures config.model in ModelIds(config.provider.Name()) && !(fault.Some? && fault.value.statement < 2) ==>
      && table.rows == old(table.rows)[LLM_PROVIDER := SettingRow(config.provider.Name(), false)]
                                      [LLM_MODEL := SettingRow(config.model, false)]
      && r == Ok(GetAllSettings(ValuesOf(table.rows)))
      && r.body.llmProvider == config.provider.Name() && r.body.llmModel == config.model
  {
    var validModels := ModelIds(config.provider.Name());
    if config.model !in validModels {
      return Rejected(InvalidModel(config));
    }
    var updates := LlmConfigSettings(config);
    LlmConfigWritesExactlyTwo(table.rows, config);
    assert |updates.Dumped()| == 2;
    r := UpdateSettingsEndpoint(table, updates, fault);
  }

  // ---------------------------------------------------------------------
  // Category endpoints.
  // ---------------------------------------------------------------------

  const CATEGORY_NOT_FOUND: HttpError := HttpError(404, "Category not found")

  function AlreadyExists(name: string): HttpError
  {
    HttpError(400, "Category '" + name + "' already exists")
  }

  /** `create_category`: a taken name is refused and nothing is created. */
  method CreateCategoryEndpoint(table: CategoryTable, category: CategoryCreate, categoryId: Uuid)
    returns (r: Reply<CategoryRow>)
    modifies table
    ensures CategoryExists(old(table.rows), category.name, None) ==>
      r == Rejected(AlreadyExists(category.name)) && table.rows == old(table.rows)
    ensures !CategoryExists(old(table.rows), category.name, None) && GetCategory(old(table.rows), categoryId).None? ==>
      r == Ok(CategoryRow(categoryId, category.name, category.monthlyBudgetLimit))
      && table.rows == old(table.rows) + [r.body]
    ensures !CategoryExists(old(table.rows), category.name, None) && GetCategory(old(table.rows), categoryId).Some? ==>
      r == Raised(CATEGORY_KEY_ERROR) && table.rows == old(table.rows)
    ensures old(table.Valid()) ==> table.Valid()
  {
    if CategoryExists(table.rows, category.name, None) {
      return Rejected(AlreadyExists(category.name));
    }
    var created := table.CreateCategory(categoryId, category);
    if created.Failure? {
      return Raised(created.error);
    }
    r := Ok(created.value);
  }

  /** `get_category`'s endpoint. */
  function GetCategoryEndpoint(rows: seq<CategoryRow>, categoryId: Uuid): (r: Reply<CategoryRow>)
    ensures r.Ok? || r == Rejected(CATEGORY_NOT_FOUND)
    ensures r.Ok? <==> exists k :: 0 <= k < |rows| && rows[k].id == categoryId
    ensures r.Ok? ==> r.body in rows && r.body.id == categoryId
  {
    var category := GetCategory(rows, categoryId);
    if category.None? then Rejected(CATEGORY_NOT_FOUND) else Ok(category.value)
  }

  /** After an UPDATE that maps each row with the id through `UpdatedCategory`,
    * looking the id up finds the updated form of the row found before. */
  lemma {:induction false} GetCategoryAfterUpdate(before: seq<CategoryRow>, after: seq<CategoryRow>, id: Uuid, u: CategoryUpdate)
    requires |after| == |before|
    requires forall k :: 0 <= k < |before| ==> after[k] == if before[k].id == id then UpdatedCategory(before[k], u) else before[k]
    ensures GetCategory(after, id) == if GetCategory(before, id).Some? then Some(UpdatedCategory(GetCategory(before, id).value, u)) else None
    decreases |before|
  {
    if before != [] && before[0].id != id {
      assert forall k :: 0 <= k < |before[1..]| ==> after[1..][k] == after[k + 1] && before[1..][k] == before[k + 1];
      GetCategoryAfterUpdate(before[1..], after[1..], id, u);
    }
  }

  /** The duplicate-name check of `update_category` runs only for a new,
    * different name, and never counts the category being renamed. */
  predicate NameTaken(rows: seq<CategoryRow>, existing: CategoryRow, categoryId: Uuid, updates: CategoryUpdate)
  {
    updates.name.Some? && updates.name.value != existing.name && CategoryExists(rows, updates.name.value, Some(categoryId))
  }

  /** `update_category`'s endpoint. */
  method UpdateCategoryEndpoint(table: CategoryTable, categoryId: Uuid, updates: CategoryUpdate)
    returns (r: Reply<CategoryRow>)
    modifies table
    ensures GetCategory(old(table.rows), categoryId).None? ==>
      r == Rejected(CATEGORY_NOT_FOUND) && table.rows == old(table.rows)
    ensures GetCategory(old(table.rows), categoryId).Some? && NameTaken(old(table.rows), GetCategory(old(table.rows), categoryId).value, categoryId, updates) ==>
      r == Rejected(AlreadyExists(updates.name.value)) && table.rows == old(table.rows)
    ensures GetCategory(old(table.rows), categoryId).Some? && !NameTaken(old(table.rows), GetCategory(old(table.rows), categoryId).value, categoryId, updates) ==>
      && r == Ok(UpdatedCategory(GetCategory(old(table.rows), categoryId).value, updates))
      && |table.rows| == |old(table.rows)|
      && (forall k :: 0 <= k < |table.rows| ==>
            table.rows[k] == if old(table.rows)[k].id == categoryId then UpdatedCategory(old(table.rows)[k], updates) else old(table.rows)[k])
    ensures old(table.Valid()) ==> table.Valid()
  {
    var existing := GetCategory(table.rows, categoryId);
    if existing.None? {
      return Rejected(CATEGORY_NOT_FOUND);
    }
    if updates.name.Some? && updates.name.value != existing.value.name {
      if CategoryExists(table.rows, updates.name.value, Some(categoryId)) {
        return Rejected(AlreadyExists(updates.name.value));
      }
    }
    ghost var before := table.rows;
    var result := table.UpdateCategory(categoryId, updates);
    if CategoryUpdateData(updates) != [] {
      GetCategoryAfterUpdate(before, table.rows, categoryId, updates);
    } else {
      assert forall k :: 0 <= k < |before| ==> before[k] == if before[k].id == categoryId then UpdatedCategory(before[k], updates) else before[k];
    }
    r := Ok(result.value);
  }

  /** `delete_category`'s endpoint: 404 when no row was deleted. */
  method DeleteCategoryEndpoint(table: CategoryTable, categoryId: Uuid) returns (r: Option<HttpError>)
    modifies table
    ensures table.rows == WithoutId(old(table.rows), categoryId)
    ensures r.None? || r == Some(CATEGORY_NOT_FOUND)
    ensures old(table.Valid()) ==> (r.None? <==> GetCategory(old(table.rows), categoryId).Some?)
    ensures old(table.Valid()) ==> table.Valid()
  {
    var deleted := table.DeleteCategory(categoryId);
    if !deleted {
      return Some(CATEGORY_NOT_FOUND);
    }
    r := None;
  }

  /** `get_categories`. */
  function GetCategoriesEndpoint(rows: seq<CategoryRow>): (r: seq<CategoryRow>)
    ensures SortedByName(r) && multiset(r) == multiset(rows)
  {
    GetAllCategories(rows)
  }
}
