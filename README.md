# Receipto core in Dafny

Receipto takes in photographed or scanned receipts and turns them into rows of
a receipts table and a line_items table. An upload is checked twice, once for
its content type and once for its size. It is then stored under the storage
directory and recorded as `pending`, and a background task runs it through a
four-stage workflow:

- **ocr**: AWS Textract AnalyzeExpense, with credentials from the settings
  table or the environment.
- **extraction**: one of three language-model providers (Gemini, OpenAI,
  Anthropic) turns the formatted OCR text into a `ReceiptExtraction`.
- **validation**: checks the required fields and that the line items plus
  tax are within 2% of the total.
- **persistence**: saves the extraction and its line items when validation
  passed. Otherwise it marks the receipt `manual_review`.

The OCR, extraction and validation stages catch their own failures. Each
appends a message to `validation_errors` and sets the status to
`review_required`, so later stages still run and report their own missing
input. Persistence catches a failed save the same way. Its
`manual_review` status write is outside any `try`, however, so an error
there escapes and ends the run. A settings service
keeps a key/value settings table, whose secrets are never read back, and a
categories table.

The model follows the program module by module:

- `Schemas`, `SettingsSchemas`, `Config` and `WorkflowState` hold the
  records.
- `Storage`, `TextractFormat`, `LlmProvider`, `DatabaseOps`, `Nodes`,
  `Graph`, `Processor` and `SettingsOps` hold the operations.
- `Handlers` holds the decisions of the HTTP endpoints.
- `Wrappers`, `Text` and `Uuids` are helpers. They provide Option/Result, a
  few string functions, and the `str(uuid)` / `uuid.UUID(...)` round trip.

State the program updates in place becomes a class:

- the workflow state dictionary (`ReceiptState`);
- the receipts and line_items tables (`ReceiptTables`);
- the settings and categories tables (`SettingsTable`, `CategoryTable`);
- the LangGraph builder (`StateGraph`).

Each method of these classes is proved equal to a function of the state
before it ran. The properties are then proved about those functions.
Whatever the program asks of the outside world is a parameter:

- Textract, the vendor SDKs and the pydantic JSON decoder are oracle
  functions.
- The environment is `Config.EnvSettings`.
- `uuid4()` is an id argument.
- In the receipt pipeline, the settings upserts and the LLM configuration
  write, a database statement that raises is named by a fault argument, so
  those error paths are explicit cases. The category operations and the
  setting delete take no fault argument (see "Left out").

The tables keep two invariants, both stated as `Valid()`:

- Line-item ids stay fresh and distinct. The constructor of `ReceiptTables`
  establishes this, and every operation and a whole run preserve it.
- Category ids stay distinct. The constructor of `CategoryTable`
  establishes this, and create, update and delete preserve it.

## Model

| member | source | states |
|---|---|---|
| Schemas.NormalizeMerchant | api/models/schemas.py:44-48 | `strip().title()` gives a stripped, title-cased name no longer than the input |
| Schemas.NormalizeMerchantIdempotent | api/models/schemas.py:44-48 | normalising a normalised merchant name changes nothing |
| Schemas.NormalizeMerchantKeepsLetters | api/models/schemas.py:44-48 | normalisation keeps the stripped name's characters, changing only their case |
| Schemas.TitleFacts | api/models/schemas.py:48 | `title` keeps letters and whitespace in place and yields a title-cased string |
| SettingsSchemas.ParseProviderName | api/models/settings_schemas.py:11 | a string is accepted as a provider exactly when it is one of the three literals, and the result names it |
| SettingsSchemas.ParseTheme | api/models/settings_schemas.py:12 | a string is accepted as a theme exactly when it is light, dark or system |
| SettingsSchemas.ApiKeysCarriedAcross | api/models/settings_schemas.py:44-54 | `SettingsUpdate(**APIKeyUpdate.model_dump(exclude_none=True))` carries all six key fields across and sets nothing else |
| SettingsSchemas.ModelIds | api/models/settings_schemas.py:88-104 | the model ids listed for a provider, in order; none for an unknown provider |
| SettingsSchemas.LlmModelsShape | api/models/settings_schemas.py:88-104 | exactly the three providers have entries, each with three distinct model ids |
| SettingsSchemas.DefaultModelsListed | api/models/settings_schemas.py:88-104 | the default model and each constructor's default model are listed for their provider |
| Storage.ExtensionFor | api/services/storage.py:42-47 | jpeg, png and pdf map to their extensions; every other type maps to ".bin" |
| Storage.GetFilePath | api/services/storage.py:19-22 | the path is the storage directory, a slash, the UUID's string form and the extension |
| Storage.SaveFile | api/services/storage.py:25-55 | `save_file` returns the path built from the id and the content type's extension |
| Storage.RelativeUrlOfFilePath | api/services/storage.py:58-60 | the stored URL of a saved file is "/storage/receipts/<id><ext>" |
| Storage.ReplaceAllAbsent | api/services/storage.py:60 | `replace` leaves a string without the pattern unchanged |
| Uuids.ParseToString | api/workflow/processor.py:33 | `uuid.UUID(str(u)) == u`, so the stages recover the receipt's id from the state |
| TextractFormat.FormatTextractForLlm | api/workflow/nodes.py:81-109 | the loop builds exactly the header followed by each document's summary fields and numbered line items |
| TextractFormat.SummaryFieldShown | api/workflow/nodes.py:94-97 | every summary field of every document appears in the text as "- Type: Value" |
| TextractFormat.LineItemFieldShown | api/workflow/nodes.py:101-107 | every field of every line item appears in the text as an indented "- Type: Value" line |
| TextractFormat.NoDocumentsGiveHeaderOnly | api/workflow/nodes.py:89-91 | with no ExpenseDocuments the text is the header alone |
| LlmProvider.NewProvider | api/services/llm_provider.py:27-30 | a constructed provider keeps its key, and its model is the argument or the constructor's default |
| LlmProvider.PromptContents | api/services/llm_provider.py:53-70 | every provider's prompt embeds the OCR text verbatim after "RECEIPT DATA:" and lists the eleven categories |
| LlmProvider.ExtractJsonSlice | api/services/llm_provider.py:163-169 | the greedy regex succeeds iff a '}' follows a '{', and then yields the text from the first '{' to the last '}' |
| LlmProvider.ExtractJsonSliceExample | api/services/llm_provider.py:164 | concrete cases: a trailing extra '}' is kept, and "}{" has no match |
| LlmProvider.ModelValidateJson | api/services/llm_provider.py:51 | `schema.model_validate_json` succeeds iff the decoder does and fails with its message; a decoded merchant name is stripped and title-cased, and every other field is the decoder's own |
| LlmProvider.ExtractReceiptDataFacts | api/services/llm_provider.py:32-169 | a vendor error propagates; a success asked the vendor for this prompt with the provider's model and key, and carries a normalised merchant name; Gemini and OpenAI decode the whole response; Anthropic decodes exactly the brace slice when there is one and fails with "Could not extract JSON" otherwise |
| LlmProvider.GetLlmProvider | api/services/llm_provider.py:204-245 | a provider built by the factory has the requested model and a non-empty key |
| LlmProvider.GeminiCredential | api/services/llm_provider.py:222-230 | Gemini uses the stored key when it is non-empty, else the environment key, and fails only when both are missing or empty |
| LlmProvider.OtherCredentials | api/services/llm_provider.py:232-245 | OpenAI and Anthropic have no fallback key; any other provider name fails as unknown |
| LlmProvider.FactoryReadsOneKey | api/services/llm_provider.py:204-245 | the factory depends only on the one settings key its provider reads |
| DatabaseOps.InitialReceipt | api/services/database_ops.py:15-28 | the inserted row is pending with the id and URL and no extracted fields |
| DatabaseOps.SaveReceiptFacts | api/services/database_ops.py:48-94 | a complete save fills the four fields, sets complete, keeps other receipts and appends one row per item in order, copying each item |
| DatabaseOps.AfterStatementsValid | api/services/database_ops.py:78-94 | every prefix of a save keeps line-item ids distinct and below the counter |
| DatabaseOps.WithReceiptStatusFacts | api/services/database_ops.py:31-45 | a status update changes only that row's status; a missing id changes nothing |
| DatabaseOps.ReceiptTables.constructor | api/services/database_ops.py:78-94 | tables loaded with fresh, distinct line-item ids satisfy the invariant |
| DatabaseOps.ReceiptTables.CreateInitialReceipt | api/services/database_ops.py:15-28 | inserts the pending row; a raised error or an id already taken leaves the tables as they were; the line-item invariant is kept |
| DatabaseOps.ReceiptTables.UpdateReceiptStatus | api/services/database_ops.py:31-45 | the tables become the status-updated store, or stay unchanged when the statement raises; the line-item invariant is kept |
| DatabaseOps.ReceiptTables.InsertLineItem | api/services/database_ops.py:78-94 | one INSERT appends the item's row under the next unused id and leaves the receipts alone |
| DatabaseOps.AfterNextStatement | api/services/database_ops.py:77-94 | statement i + 1 of a save appends item i with the next id |
| DatabaseOps.ReceiptTables.SaveReceiptData | api/services/database_ops.py:48-94 | without a fault the tables become the complete save; a fault at statement k leaves exactly the first k statements applied; each inserted item takes a fresh id either way |
| DatabaseOps.ReceiptTables.SaveReceiptDataInTransaction | api/workflow/nodes.py:230-238 | inside the transaction a failed save rolls back to the tables before it |
| Nodes.TextractClient | api/workflow/nodes.py:30-43 | each of key, secret and region is the stored value when it is non-empty and the environment's otherwise |
| Nodes.OcrNode | api/workflow/nodes.py:49-79 | the state after the node is the OCR stage of the state before |
| Nodes.OcrStageOutcome | api/workflow/nodes.py:57-79 | OCR stores the response and changes nothing else, or appends "OCR Error: …", sets review_required and keeps the payload |
| Nodes.ConfiguredModel | api/workflow/nodes.py:134-135 | a provider or model that is missing or empty falls back to gemini / gemini-2.0-flash |
| Nodes.ExtractionNode | api/workflow/nodes.py:115-157 | the state after the node is the extraction stage of the state before |
| Nodes.NoOcrDataSkipsProvider | api/workflow/nodes.py:123-126 | with no or empty OCR output, extraction appends "No OCR data available" and consults nothing else |
| Nodes.ExtractionStageOutcome | api/workflow/nodes.py:128-157 | with OCR output, extraction stores a result and changes nothing else, or appends one extraction error and sets review_required |
| Nodes.ExtractionUsesConfiguredProvider | api/workflow/nodes.py:130-149 | a stored extraction is the configured provider's result for the formatted text; with nothing configured that provider is Gemini 2.0 Flash |
| Nodes.Abs | api/workflow/nodes.py:190 | the absolute value is non-negative and equals x or -x |
| Nodes.ValidationErrors | api/workflow/nodes.py:175-195 | no errors iff the merchant name and items are present and the sum is within tolerance; each message is present iff its check fails; "Missing purchase date" never occurs; at most three, in check order |
| Nodes.LineItemsSum | api/workflow/nodes.py:186 | the loop's total is the sum of the item totals |
| Nodes.ValidationNode | api/workflow/nodes.py:159-205 | the state after the node is the validation stage of the state before |
| Nodes.ValidationStageOutcome | api/workflow/nodes.py:197-205 | with an extraction, validation ends complete iff every check passes, else review_required with the failing checks appended |
| Nodes.ValidationWithoutExtraction | api/workflow/nodes.py:169-172 | without an extraction, "No extracted data to validate" is appended and review_required set |
| Nodes.MarkForManualReview | api/workflow/nodes.py:219-228 | the manual_review update by the parsed id, raising what the write raises |
| Nodes.PersistenceNode | api/workflow/nodes.py:207-255 | the state, tables and raised error after the node are the persistence stage of those before |
| Nodes.PersistenceStageKeepsValid | api/services/database_ops.py:78-94 | persistence keeps the line-item ids fresh and distinct, whatever fails |
| Nodes.PersistenceOutcomes | api/workflow/nodes.py:219-255 | not complete: manual_review; complete and saved: the save; complete and failed: "Database Error: …", review_required and manual_review |
| Nodes.LineItemsOnlyFromCompleteSave | api/workflow/nodes.py:230-240 | line items change only through a complete, successful save |
| Nodes.OcrStageExtends | api/workflow/nodes.py:74-76 | the OCR stage only appends to the error list |
| Nodes.ExtractionStageExtends | api/workflow/nodes.py:123-156 | the extraction stage only appends to the error list |
| Nodes.ValidationStageExtends | api/workflow/nodes.py:169-199 | the validation stage only appends to the error list |
| Nodes.PersistenceStageExtends | api/workflow/nodes.py:242-245 | the persistence stage only appends to the error list |
| Graph.StateGraph.AddNode | api/workflow/graph.py:18-21 | adds one node to the end and changes nothing else |
| Graph.StateGraph.SetEntryPoint | api/workflow/graph.py:24 | sets the entry point and changes nothing else |
| Graph.StateGraph.AddEdge | api/workflow/graph.py:25-28 | sets one node's outgoing edge and changes nothing else |
| Graph.CreateReceiptWorkflow | api/workflow/graph.py:8-31 | the compiled graph has the four nodes, entry ocr and the linear edges, so a run visits ocr, extraction, validation, persistence |
| Graph.ReceiptRunIsComposition | api/workflow/graph.py:23-28 | running the four stages is the composition of the four stage functions |
| Graph.Step | api/workflow/graph.py:18-21 | running one node's method changes the state and tables as that node's stage function says |
| Graph.Invoke | api/workflow/processor.py:42 | running the compiled graph on the state and tables equals running its execution order |
| Processor.InitialStateFacts | api/workflow/processor.py:32-39 | the initial state carries the receipt id's string form, which parses back, and has no payload, no extraction, no errors and status processing |
| Processor.ReceiptProcessor.ProcessReceipt | api/workflow/processor.py:14-46 | the tables and final state (or raised error) are those of one run, and the line-item invariant is kept |
| Processor.ExtractedOnlyWhenClean | api/workflow/nodes.py:49-157 | after OCR and extraction, an extraction exists iff the error list is still empty and the status processing |
| Processor.RunKeepsValid | api/workflow/processor.py:42 | a whole run keeps the line-item ids fresh and distinct |
| Processor.RunOutcome | api/workflow/processor.py:14-46 | a run ends complete or review_required; complete means no errors, valid extraction and saved data; review_required means at least one error and, unless a status write raised, manual_review |
| Processor.OcrFailureCascades | api/workflow/nodes.py:74-172 | an OCR failure yields exactly the OCR error, "No OCR data available" and "No extracted data to validate" |
| Processor.MockGeminiExtractionValidates | api/tests/fixtures/mock_gemini.py:4-85 | the fixture's items sum to 42.25, which with 3.42 tax equals the 45.67 total, so validation passes |
| SettingsOps.GetAllSettings | api/services/settings_ops.py:28-44 | each plain setting is the stored value when the key exists and the default otherwise; each secret shows only whether a non-empty value is stored |
| SettingsOps.EmptyTableGivesDefaults | api/services/settings_ops.py:34-44 | an empty table reads as the response defaults |
| SettingsOps.SecretsMasked | api/services/settings_ops.py:39-43 | the response depends on a secret only through whether it is set |
| SettingsOps.GetSetting | api/services/settings_ops.py:47-56 | the stored value, or None exactly when there is no row |
| SettingsOps.UpsertedLookup | api/services/settings_ops.py:67-79 | after the upserts each written key holds its last value, encrypted iff sensitive, and every other row is kept |
| SettingsOps.DumpedValue | api/services/settings_ops.py:64 | the dumped update gives each set field once under its own name |
| SettingsOps.UpdateSettingsEffect | api/services/settings_ops.py:59-79 | only fields that are not None are written, each encrypted iff sensitive; all other rows are unchanged |
| SettingsOps.SettingsTable.UpdateSettings | api/services/settings_ops.py:59-79 | the table becomes the upserts of the dumped fields; a raising upsert rolls the transaction back |
| SettingsOps.SettingsTable.DeleteSetting | api/services/settings_ops.py:82-87 | exactly that key's row is removed |
| SettingsOps.GetCategory | api/services/settings_ops.py:108-121 | a row with that id, or None exactly when there is none |
| SettingsOps.CategoryExists | api/services/settings_ops.py:191-207 | true iff some row has the name and, when an id is excluded, a different id |
| SettingsOps.GetAllCategories | api/services/settings_ops.py:94-105 | the rows sorted by name, a permutation of the table |
| SettingsOps.HeadPrecedesTail | api/services/settings_ops.py:102 | in a list sorted by name the first name precedes every later one |
| SettingsOps.ConsSorted | api/services/settings_ops.py:102 | a row whose name precedes all names of a sorted list can head it |
| SettingsOps.InsertByName | api/services/settings_ops.py:102 | inserting into a sorted list keeps it sorted and adds exactly one row |
| SettingsOps.BuildUpdateQuery | api/services/settings_ops.py:157-171 | the k-th SET clause names the k-th field with `$k`; there are n+1 values, the last the id, bound to the WHERE's `$(n+1)` |
| SettingsOps.UpdateQueryMeaning | api/services/settings_ops.py:157-176 | executing a statement numbered this way updates the category with that id by the given fields and leaves every other row alone |
| SettingsOps.UpdatedCategory | api/models/settings_schemas.py:27-30 | each given field is replaced and the others kept |
| SettingsOps.DistinctTail | api/services/settings_ops.py:184-188 | below the first row of a table with distinct ids, ids stay distinct and none repeats the first |
| SettingsOps.WithoutIdKeepsDistinct | api/services/settings_ops.py:184-188 | deleting by id keeps the remaining category ids distinct |
| SettingsOps.WithoutIdRemovesOne | api/services/settings_ops.py:184-188 | with distinct ids, deleting by id removes one row if the category exists and none otherwise |
| SettingsOps.DeleteStatus | api/services/settings_ops.py:188 | the status tag is "DELETE 1" exactly when one row was deleted |
| SettingsOps.CategoryTable.constructor | api/services/settings_ops.py:124-141 | a table whose ids are distinct, as the primary key keeps them, satisfies the invariant |
| SettingsOps.CategoryTable.CreateCategory | api/services/settings_ops.py:124-141 | appends the new row; an id already in use raises and changes nothing; ids stay distinct |
| SettingsOps.CategoryTable.UpdateCategory | api/services/settings_ops.py:143-176 | with no fields, nothing is written and the current row is returned; otherwise the row with that id is updated and returned; ids stay distinct |
| SettingsOps.CategoryTable.DeleteCategory | api/services/settings_ops.py:178-188 | removes rows with the id and reports true iff exactly one went, that is, iff the category existed; ids stay distinct |
| Handlers.UploadGate | api/main.py:143-158 | the type check comes first (400 naming the type, "None" when absent), then the size check (413 above 10 MiB); both pass iff the type is allowed and the size at most 10 MiB |
| Handlers.UploadGateBoundaries | api/tests/test_upload.py:113-134 | exactly 10 MiB and an empty file are accepted; one byte more is 413; a bad type is 400 even when too large |
| Handlers.UploadReceipt | api/main.py:143-196 | gates first; a failing write or insert gives the fixed 500 and no change; otherwise a pending row with the relative URL, a scheduled task and a "pending" reply with the id; the line-item invariant is kept |
| Handlers.AcceptedUploadRow | api/main.py:160-189 | an accepted upload's row is pending with URL "/storage/receipts/<id><ext>", and the reply's id parses back to the row's key |
| Handlers.ProcessReceiptBackground | api/main.py:110-124 | a run, followed by a manual_review update only when the run raised; the line-item invariant is kept |
| Handlers.BackgroundSettlesReceipt | api/main.py:110-124 | after the task an uploaded receipt is complete iff its run completed, and is otherwise in manual review, never pending |
| Handlers.UpdateSettingsEndpoint | api/main.py:210-215 | upserts the update and returns the masked settings, or propagates a raised error with no change |
| Handlers.UpdateApiKeys | api/main.py:218-224 | writes the converted update like any other settings update |
| Handlers.ApiKeyUpdateShowsConfigured | api/main.py:218-224 | a written key shows as configured iff non-empty; provider, model and theme are unaffected |
| Handlers.ApiKeyFlags | api/main.py:218-224 | each written API key shows as configured iff it is non-empty |
| Handlers.ApiKeyKeepsPreferences | api/main.py:218-224 | an update that sets none of provider, model and theme leaves them unchanged in the response |
| Handlers.LlmConfigWritesExactlyTwo | api/main.py:238-241 | an accepted configuration writes exactly llm_provider and llm_model, unencrypted, and the reply shows them |
| Handlers.UpdateLlmConfig | api/main.py:227-241 | a model not listed for the provider gives 400 "Invalid model …" and no write; a raising upsert changes nothing; otherwise exactly the two keys are written and the reply is the masked settings of the new table |
| Handlers.CreateCategoryEndpoint | api/main.py:262-273 | a taken name gives 400 "Category '…' already exists" and creates nothing; otherwise the row is appended; category ids stay distinct |
| Handlers.GetCategoryEndpoint | api/main.py:276-286 | the row with that id, or 404 "Category not found" exactly when there is none |
| Handlers.GetCategoryAfterUpdate | api/services/settings_ops.py:168-176 | after the update, fetching by id returns the updated form of the row found before |
| Handlers.UpdateCategoryEndpoint | api/main.py:289-310 | a missing category gives 404; the duplicate check runs only for a new and different name and skips the category itself; otherwise the updated category is returned; category ids stay distinct |
| Handlers.DeleteCategoryEndpoint | api/main.py:313-322 | 404 exactly when no row was deleted, that is, when the category did not exist; category ids stay distinct |
| Handlers.GetCategoriesEndpoint | api/main.py:254-259 | all categories, sorted by name |

## Left out

- Retries (`tenacity` on `ocr_node` and `extraction_node`) are not modelled. Both nodes catch every exception, so a retry never fires.
- Reading the image file, writing the upload, creating the storage directory and the database pool are I/O. A failing read or write is a fault parameter.
- Timestamps (`created_at`, `updated_at`) and all `print` logging are not modelled.
- Textract, the vendor SDKs and pydantic JSON decoding are oracle parameters. Only `normalize_merchant` is modelled on top of the decoder.
- `str(Decimal)` depends on the exponent a value carries, which `real` does not record. The renderer in the sum message is a parameter of `ErrorMessage.Text`.
- `strip` and `title` are modelled on ASCII letters and whitespace. Unicode case mapping is not modelled.
- `uuid.UUID` parsing accepts only 32 hexadecimal digits with optional hyphens. Braces, the urn prefix and other accepted forms are not modelled.
- Background scheduling, concurrency between jobs, and LangGraph's own validation and parallel branches are not modelled.
- FastAPI routing, CORS, the lifespan hook, `/health` and request validation (422 replies) are not modelled.
- `LLMModelsResponse` and `get_llm_models` are only the `LLM_MODELS` constant.
- The Textract client that `WorkflowNodes.__init__` builds from the environment is never used by a stage. Only the per-call client is modelled.
- The line_items foreign key and the rest of the SQL schema are not part of this model. Inserts only fail where a fault argument says so.
- A duplicate receipt or category id is the only constraint the tables enforce. No unique index on category names is assumed, because the handler checks names itself.
- SettingsOps.GetAllCategories: names are compared code point by code point (C collation). The database's own collation, and the order of rows with equal names, may differ.
- SettingsOps.ExecuteUpdate: a SET clause whose placeholder is unbound or whose value has the wrong type leaves the column unchanged, where PostgreSQL would raise. The builder never produces such a clause.
- SettingsOps.CategoryTable.CreateCategory, UpdateCategory, DeleteCategory and SettingsOps.SettingsTable.DeleteSetting take no fault argument. A lost connection or another database error in their SQL is not modelled; only the duplicate category id is.
- Handlers.UploadReceipt: the uploaded bytes are represented only by their length.
