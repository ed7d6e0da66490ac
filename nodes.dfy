/** The four stages of `WorkflowNodes` in api/workflow/nodes.py. Each stage
  * is a function from the state before to the state after (`OcrStage`,
  * `ExtractionStage`, `ValidationStage`, `PersistenceStage`) and a method
  * that updates a `ReceiptState` in place and is proved to match it.
  * Textract, the language-model vendors and the JSON decoder are
  * parameters that either return a value or fail with a message; so is a
  * settings lookup, which may raise. */
module Nodes {
  import opened Wrappers
  import opened Text
  import opened Uuids
  import opened Schemas
  import opened SettingsSchemas
  import opened TextractFormat
  import opened LlmProvider
  import opened DatabaseOps
  import opened WorkflowState
  import Config

  /** The settings table as one stage reads it, or the message of the
    * exception the lookup raised. */
  type SettingsRead = Result<map<string, string>, string>

  /** `state` with one error appended and the status set to review_required. */
  function Fail(j: Job, m: ErrorMessage): Job
  {
    j.(validationErrors := j.validationErrors + [m], status := ReviewRequired)
  }

  // ---------------------------------------------------------------------
  // Stage 1: OCR.
  // ---------------------------------------------------------------------

  /** The arguments the Textract client is built with. */
  datatype TextractClientConfig = TextractClientConfig(accessKeyId: Option<string>, secretAccessKey: Option<string>, region: string)

  /** `_get_textract_client`: for each of the three settings, a non-empty
    * stored value wins over the environment. */
  function TextractClient(settings: map<string, string>, env: Config.EnvSettings): (c: TextractClientConfig)
    ensures Truthy(StoredSetting(settings, AWS_ACCESS_KEY_ID)) ==> c.accessKeyId == Some(settings[AWS_ACCESS_KEY_ID])
    ensures !Truthy(StoredSetting(settings, AWS_ACCESS_KEY_ID)) ==> c.accessKeyId == env.awsAccessKeyId
    ensures Truthy(StoredSetting(settings, AWS_SECRET_ACCESS_KEY)) ==> c.secretAccessKey == Some(settings[AWS_SECRET_ACCESS_KEY])
    ensures !Truthy(StoredSetting(settings, AWS_SECRET_ACCESS_KEY)) ==> c.secretAccessKey == env.awsSecretAccessKey
    ensures Truthy(StoredSetting(settings, AWS_REGION)) ==> c.region == settings[AWS_REGION]
    ensures !Truthy(StoredSetting(settings, AWS_REGION)) ==> c.region == env.awsRegion
  {
    TextractClientConfig(
      Or(StoredSetting(settings, AWS_ACCESS_KEY_ID), env.awsAccessKeyId),
      Or(StoredSetting(settings, AWS_SECRET_ACCESS_KEY), env.awsSecretAccessKey),
      OrElse(StoredSetting(settings, AWS_REGION), env.awsRegion))
  }

  /** AnalyzeExpense on the image at a path, with a client built from a
    * configuration: the response, or the message of what raised (including
    * a file that cannot be read). */
  type TextractService = (TextractClientConfig, string) -> Result<OcrPayload, string>

  /** `ocr_node`. */
  function OcrStage(j: Job, settings: SettingsRead, env: Config.EnvSettings, analyze: TextractService): Job
  {
    match settings
    case Failure(m) => Fail(j, OcrError(m))
    case Success(s) =>
      match analyze(TextractClient(s, env), j.imagePath)
      case Success(response) => j.(rawTextractOutput := Some(response))
      case Failure(m) => Fail(j, OcrError(m))
  }

  method OcrNode(state: ReceiptState, settings: SettingsRead, env: Config.EnvSettings, analyze: TextractService)
    modifies state
    ensures state.Snapshot() == OcrStage(old(state.Snapshot()), settings, env, analyze)
  {
    if settings.Failure? {
      state.validationErrors := state.validationErrors + [OcrError(settings.error)];
      state.status := ReviewRequired;
      return;
    }
    var textractClient := TextractClient(settings.value, env);
    var response := analyze(textractClient, state.imagePath);
    if response.Success? {
      state.rawTextractOutput := Some(response.value);
    } else {
      state.validationErrors := state.validationErrors + [OcrError(response.error)];
      state.status := ReviewRequired;
    }
  }

  /** The OCR stage either stores the response and changes nothing else, or
    * appends one OCR error, sets review_required and leaves the payload as
    * it was. */
  lemma OcrStageOutcome(j: Job, settings: SettingsRead, env: Config.EnvSettings, analyze: TextractService)
    ensures var r := OcrStage(j, settings, env, analyze);
      && r.receiptId == j.receiptId && r.imagePath == j.imagePath && r.cleanedJson == j.cleanedJson
      && (settings.Success? && analyze(TextractClient(settings.value, env), j.imagePath).Success? ==>
            && r.rawTextractOutput == Some(analyze(TextractClient(settings.value, env), j.imagePath).value)
            && r.validationErrors == j.validationErrors && r.status == j.status)
      && (settings.Failure? ==>
            && r.rawTextractOutput == j.rawTextractOutput
            && r.validationErrors == j.validationErrors + [OcrError(settings.error)] && r.status == ReviewRequired)
      && (settings.Success? && analyze(TextractClient(settings.value, env), j.imagePath).Failure? ==>
            && r.rawTextractOutput == j.rawTextractOutput
            && r.validationErrors == j.validationErrors + [OcrError(analyze(TextractClient(settings.value, env), j.imagePath).error)]
            && r.status == ReviewRequired)
  {
  }

  // ---------------------------------------------------------------------
  // Stage 2: extraction.
  // ---------------------------------------------------------------------

  /** The provider and model names read from the settings, with the stage's
    * own defaults for a missing or empty value. */
  function ConfiguredModel(settings: map<string, string>): (r: (string, string))
    ensures Truthy(StoredSetting(settings, LLM_PROVIDER)) ==> r.0 == settings[LLM_PROVIDER]
    ensures !Truthy(StoredSetting(settings, LLM_PROVIDER)) ==> r.0 == DEFAULT_LLM_PROVIDER
    ensures Truthy(StoredSetting(settings, LLM_MODEL)) ==> r.1 == settings[LLM_MODEL]
    ensures !Truthy(StoredSetting(settings, LLM_MODEL)) ==> r.1 == DEFAULT_LLM_MODEL
  {
    (OrElse(StoredSetting(settings, LLM_PROVIDER), DEFAULT_LLM_PROVIDER),
     OrElse(StoredSetting(settings, LLM_MODEL), DEFAULT_LLM_MODEL))
  }

  /** `extraction_node`. */
  function ExtractionStage(j: Job, settings: SettingsRead, env: Config.EnvSettings,
                           vendor: VendorRequest -> Result<string, string>,
                           parse: string -> Result<ReceiptExtraction, string>): Job
  {
    if !HasOcrData(j) then Fail(j, NoOcrData)
    else
      var ocrText := FormattedText(j.rawTextractOutput.value);
      match settings
      case Failure(m) => Fail(j, ExtractionError(m))
      case Success(s) =>
        var (providerName, modelName) := ConfiguredModel(s);
        match GetLlmProvider(providerName, modelName, s, env)
        case Failure(m) => Fail(j, ExtractionError(m))
        case Success(provider) =>
          match ExtractReceiptData(provider, ocrText, vendor, parse)
          case Failure(m) => Fail(j, ExtractionError(m))
          case Success(extraction) => j.(cleanedJson := Some(extraction))
  }

  method ExtractionNode(state: ReceiptState, settings: SettingsRead, env: Config.EnvSettings,
                        vendor: VendorRequest -> Result<string, string>,
                        parse: string -> Result<ReceiptExtraction, string>)
    modifies state
    ensures state.Snapshot() == ExtractionStage(old(state.Snapshot()), settings, env, vendor, parse)
  {
    if !HasOcrData(state.Snapshot()) {
      state.validationErrors := state.validationErrors + [NoOcrData];
      state.status := ReviewRequired;
      return;
    }
    var ocrText := FormatTextractForLlm(state.rawTextractOutput.value);
    if settings.Failure? {
      state.validationErrors := state.validationErrors + [ExtractionError(settings.error)];
      state.status := ReviewRequired;
      return;
    }
    var (providerName, modelName) := ConfiguredModel(settings.value);
    var llmProvider := GetLlmProvider(providerName, modelName, settings.value, env);
    if llmProvider.Failure? {
      state.validationErrors := state.validationErrors + [ExtractionError(llmProvider.error)];
      state.status := ReviewRequired;
      return;
    }
    var extractedData := ExtractReceiptData(llmProvider.value, ocrText, vendor, parse);
    if extractedData.Failure? {
      state.validationErrors := state.validationErrors + [ExtractionError(extractedData.error)];
      state.status := ReviewRequired;
      return;
    }
    state.cleanedJson := Some(extractedData.value);
  }

  /** A missing or empty OCR payload appends exactly "No OCR data available"
    * and sets review_required, whatever the settings and the vendors would
    * have answered: no provider is looked up. */
  lemma NoOcrDataSkipsProvider(j: Job, s1: SettingsRead, s2: SettingsRead, env1: Config.EnvSettings, env2: Config.EnvSettings,
                               v1: VendorRequest -> Result<string, string>, v2: VendorRequest -> Result<string, string>,
                               p1: string -> Result<ReceiptExtraction, string>, p2: string -> Result<ReceiptExtraction, string>)
    requires !HasOcrData(j)
    ensures ExtractionStage(j, s1, env1, v1, p1) == ExtractionStage(j, s2, env2, v2, p2)
    ensures var r := ExtractionStage(j, s1, env1, v1, p1);
      r.validationErrors == j.validationErrors + [NoOcrData] && r.status == ReviewRequired
      && r.cleanedJson == j.cleanedJson && r.rawTextractOutput == j.rawTextractOutput
  {
  }

  /** With an OCR payload, extraction either stores the extraction and
    * changes nothing else, or appends exactly one "Extraction Error" and
    * sets review_required. */
  lemma ExtractionStageOutcome(j: Job, settings: SettingsRead, env: Config.EnvSettings,
                               vendor: VendorRequest -> Result<string, string>,
                               parse: string -> Result<ReceiptExtraction, string>)
    requires HasOcrData(j)
    ensures var r := ExtractionStage(j, settings, env, vendor, parse);
      && r.receiptId == j.receiptId && r.imagePath == j.imagePath && r.rawTextractOutput == j.rawTextractOutput
      && (|| (r.cleanedJson.Some? && r.validationErrors == j.validationErrors && r.status == j.status)
          || (&& r.cleanedJson == j.cleanedJson && r.status == ReviewRequired
              && |r.validationErrors| == |j.validationErrors| + 1
              && r.validationErrors[..|j.validationErrors|] == j.validationErrors
              && r.validationErrors[|j.validationErrors|].ExtractionError?))
  {
  }

  /** A successful extraction is the one the configured provider returned
    * for the formatted OCR text; with nothing configured, that provider is
    * Gemini with model gemini-2.0-flash. */
  lemma ExtractionUsesConfiguredProvider(j: Job, s: map<string, string>, env: Config.EnvSettings,
                                         vendor: VendorRequest -> Result<string, string>,
                                         parse: string -> Result<ReceiptExtraction, string>)
    requires HasOcrData(j)
    requires j.cleanedJson.None? && ExtractionStage(j, Success(s), env, vendor, parse).cleanedJson.Some?
    ensures var (name, model) := ConfiguredModel(s);
      var provider := GetLlmProvider(name, model, s, env);
      && provider.Success? && provider.value.model == model
      && ExtractionStage(j, Success(s), env, vendor, parse).cleanedJson
         == Some(ExtractReceiptData(provider.value, FormattedText(j.rawTextractOutput.value), vendor, parse).value)
    ensures !Truthy(StoredSetting(s, LLM_PROVIDER)) && !Truthy(StoredSetting(s, LLM_MODEL)) ==>
      var provider := GetLlmProvider(ConfiguredModel(s).0, ConfiguredModel(s).1, s, env).value;
      provider.kind == GeminiProvider && provider.model == "gemini-2.0-flash"
  {
  }

  // ---------------------------------------------------------------------
  // Stage 3: validation.
  // ---------------------------------------------------------------------

  function Abs(x: real): (r: real)
    ensures r >= 0.0 && (r == x || r == -x)
  {
    if x < 0.0 then -x else x
  }

  /** `sum(item.total_price for item in line_items)`. */
  function SumTotals(items: seq<LineItemExtraction>): real
  {
    if items == [] then 0.0 else SumTotals(items[..|items| - 1]) + items[|items| - 1].totalPrice
  }

  /** The sum check passes: the line items plus tax are within two percent
    * of the total (equality at the bound passes). */
  predicate WithinTolerance(e: ReceiptExtraction)
  {
    Abs(SumTotals(e.lineItems) + e.taxAmount - e.totalAmount) <= e.totalAmount * Config.VALIDATION_TOLERANCE
  }

  /** The sum message for an extraction. */
  function SumMessage(e: ReceiptExtraction): ErrorMessage
  {
    var s := SumTotals(e.lineItems);
    SumMismatch(s, e.taxAmount, s + e.taxAmount, e.totalAmount)
  }

  /** The list `errors` that `validation_node` collects for an extraction. A
    * `date` is always truthy, so "Missing purchase date" is never among
    * them. */
  function ValidationErrors(e: ReceiptExtraction): (errs: seq<ErrorMessage>)
    ensures errs == [] <==> e.merchantName != "" && e.lineItems != [] && WithinTolerance(e)
    ensures MissingMerchantName in errs <==> e.merchantName == ""
    ensures NoLineItems in errs <==> e.lineItems == []
    ensures SumMessage(e) in errs <==> !WithinTolerance(e)
    ensures MissingPurchaseDate !in errs
    ensures |errs| <= 3
    ensures forall a, b :: 0 <= a < b < |errs| ==> Rank(errs[a]) < Rank(errs[b])
  {
    (if e.merchantName == "" then [MissingMerchantName] else [])
    + (if e.lineItems == [] then [NoLineItems] else [])
    + (if !WithinTolerance(e) then [SumMessage(e)] else [])
  }

  /** The position of each validation check in the order they run. */
  function Rank(m: ErrorMessage): nat
  {
    match m
    case MissingMerchantName => 0
    case MissingPurchaseDate => 1
    case NoLineItems => 2
    case _ => 3
  }

  /** `validation_node`. */
  function ValidationStage(j: Job): Job
  {
    match j.cleanedJson
    case None => Fail(j, NoExtractedData)
    case Some(e) =>
      var errs := ValidationErrors(e);
      if errs == [] then j.(status := JobStatus.Complete)
      else j.(validationErrors := j.validationErrors + errs, status := ReviewRequired)
  }

  /** The line-items sum, accumulated item by item. */
  method LineItemsSum(items: seq<LineItemExtraction>) returns (total: real)
    ensures total == SumTotals(items)
  {
    total := 0.0;
    var i := 0;
    while i < |items|
      invariant 0 <= i <= |items|
      invariant total == SumTotals(items[..i])
    {
      assert items[..i + 1][..i] == items[..i];
      total := total + items[i].totalPrice;
      i := i + 1;
    }
    assert items[..i] == items;
  }

  method ValidationNode(state: ReceiptState)
    modifies state
    ensures state.Snapshot() == ValidationStage(old(state.Snapshot()))
  {
    if state.cleanedJson.None? {
      state.validationErrors := state.validationErrors + [NoExtractedData];
      state.status := ReviewRequired;
      return;
    }
    var extraction := state.cleanedJson.value;
    var errors: seq<ErrorMessage> := [];
    if extraction.merchantName == "" {
      errors := errors + [MissingMerchantName];
    }
    ghost var first := errors;
    // `not extraction.purchase_date` is never true: a date is truthy.
    if extraction.lineItems == [] {
      errors := errors + [NoLineItems];
    }
    assert errors == first + (if extraction.lineItems == [] then [NoLineItems] else []);
    var lineItemsSum := LineItemsSum(extraction.lineItems);
    var expectedTotal := lineItemsSum + extraction.taxAmount;
    var tolerance := extraction.totalAmount * Config.VALIDATION_TOLERANCE;
    if Abs(expectedTotal - extraction.totalAmount) > tolerance {
      errors := errors + [SumMismatch(lineItemsSum, extraction.taxAmount, expectedTotal, extraction.totalAmount)];
    }
    assert errors == ValidationErrors(extraction);
    if errors != [] {
      state.validationErrors := state.validationErrors + errors;
      state.status := ReviewRequired;
    } else {
      state.status := JobStatus.Complete;
    }
  }

  /** Validation of a present extraction ends complete with the error list
    * unchanged exactly when the merchant name and the item list are
    * non-empty and the sum is within tolerance; otherwise it ends
    * review_required with the failing checks appended in order. */
  lemma ValidationStageOutcome(j: Job)
    requires j.cleanedJson.Some?
    ensures var r := ValidationStage(j);
      var e := j.cleanedJson.value;
      && r.cleanedJson == j.cleanedJson && r.rawTextractOutput == j.rawTextractOutput
      && (r.status == JobStatus.Complete <==> e.merchantName != "" && e.lineItems != [] && WithinTolerance(e))
      && (r.status == JobStatus.Complete ==> r.validationErrors == j.validationErrors)
      && (r.status != JobStatus.Complete ==> r.status == ReviewRequired && r.validationErrors == j.validationErrors + ValidationErrors(e))
  {
  }

  /** Without an extraction, validation appends "No extracted data to
    * validate" and sets review_required. */
  lemma ValidationWithoutExtraction(j: Job)
    requires j.cleanedJson.None?
    ensures ValidationStage(j).validationErrors == j.validationErrors + [NoExtractedData]
    ensures ValidationStage(j).status == ReviewRequired
  {
  }

  // ---------------------------------------------------------------------
  // Stage 4: persistence.
  // ---------------------------------------------------------------------

  /** The message `uuid.UUID` raises for a malformed string. */
  const BAD_UUID_ERROR: string := "badly formed hexadecimal UUID string"

  /** Which database writes of the persistence stage raise: the save (at one
    * of its statements) and the single status write that may follow. */
  datatype PersistenceFaults = PersistenceFaults(save: Option<StatementFault>, statusWrite: Option<string>)

  /** The state, the tables, and the message of an exception the stage let
    * escape (which ends the whole run). */
  datatype StageResult = StageResult(job: Job, store: Store, raised: Option<string>)

  /** `update_receipt_status(conn, uuid.UUID(state['receipt_id']), 'manual_review')`
    * outside any `try`. */
  function MarkManualReview(j: Job, st: Store, fault: Option<string>): StageResult
  {
    match Parse(j.receiptId)
    case None => StageResult(j, st, Some(BAD_UUID_ERROR))
    case Some(id) =>
      if fault.Some? then StageResult(j, st, fault)
      else StageResult(j, WithReceiptStatus(st, id, ManualReview), None)
  }

  /** The save raises at one of the statements it runs. */
  predicate SaveFails(e: ReceiptExtraction, fault: Option<StatementFault>)
  {
    fault.Some? && fault.value.statement <= |e.lineItems|
  }

  /** `persistence_node`. */
  function PersistenceStage(j: Job, st: Store, faults: PersistenceFaults): StageResult
  {
    if j.status != JobStatus.Complete || j.cleanedJson.None? then MarkManualReview(j, st, faults.statusWrite)
    else
      var e := j.cleanedJson.value;
      match Parse(j.receiptId)
      case None => MarkManualReview(Fail(j, DatabaseError(BAD_UUID_ERROR)), st, faults.statusWrite)
      case Some(id) =>
        if SaveFails(e, faults.save) then
          MarkManualReview(Fail(j, DatabaseError(faults.save.value.message)), st, faults.statusWrite)
        else StageResult(j, SaveReceipt(st, id, e), None)
  }

  method MarkForManualReview(state: ReceiptState, tables: ReceiptTables, fault: Option<string>) returns (raised: Option<string>)
    modifies tables
    ensures StageResult(state.Snapshot(), tables.Contents(), raised) == MarkManualReview(state.Snapshot(), old(tables.Contents()), fault)
  {
    var id := Parse(state.receiptId);
    if id.None? {
      return Some(BAD_UUID_ERROR);
    }
    raised := tables.UpdateReceiptStatus(id.value, ManualReview, fault);
  }

  method PersistenceNode(state: ReceiptState, tables: ReceiptTables, faults: PersistenceFaults) returns (raised: Option<string>)
    modifies state, tables
    ensures StageResult(state.Snapshot(), tables.Contents(), raised)
            == PersistenceStage(old(state.Snapshot()), old(tables.Contents()), faults)
    ensures old(tables.Valid()) ==> tables.Valid()
  {
    if tables.Valid() {
      PersistenceStageKeepsValid(state.Snapshot(), tables.Contents(), faults);
    }
    if state.status != JobStatus.Complete || state.cleanedJson.None? {
      raised := MarkForManualReview(state, tables, faults.statusWrite);
      return;
    }
    var id := Parse(state.receiptId);
    var err: Option<string>;
    if id.None? {
      err := Some(BAD_UUID_ERROR);
    } else {
      err := tables.SaveReceiptDataInTransaction(id.value, state.cleanedJson.value, faults.save);
    }
    if err.Some? {
      state.validationErrors := state.validationErrors + [DatabaseError(err.value)];
      state.status := ReviewRequired;
      raised := MarkForManualReview(state, tables, faults.statusWrite);
    } else {
      raised := None;
    }
  }

  /** Persistence keeps the line-item ids fresh and distinct: a status
    * write touches no line item, and a save numbers its rows from the
    * counter. */
  lemma PersistenceStageKeepsValid(j: Job, st: Store, faults: PersistenceFaults)
    requires ValidStore(st)
    ensures ValidStore(PersistenceStage(j, st, faults).store)
  {
    match Parse(j.receiptId)
    case None =>
    case Some(id) =>
      if j.cleanedJson.Some? {
        AfterStatementsValid(st, id, j.cleanedJson.value, |j.cleanedJson.value.lineItems| + 1);
      }
  }

  /** The three outcomes of persistence for a receipt id that parses. */
  lemma PersistenceOutcomes(j: Job, st: Store, faults: PersistenceFaults)
    requires Parse(j.receiptId).Some?
    ensures var r := PersistenceStage(j, st, faults);
      var id := Parse(j.receiptId).value;
      && (j.status != JobStatus.Complete || j.cleanedJson.None? ==>
            && r.job == j && r.raised == faults.statusWrite
            && r.store == (if faults.statusWrite.Some? then st else WithReceiptStatus(st, id, ManualReview)))
      && (j.status == JobStatus.Complete && j.cleanedJson.Some? && !SaveFails(j.cleanedJson.value, faults.save) ==>
            r == StageResult(j, SaveReceipt(st, id, j.cleanedJson.value), None))
      && (j.status == JobStatus.Complete && j.cleanedJson.Some? && SaveFails(j.cleanedJson.value, faults.save) ==>
            && r.job == Fail(j, DatabaseError(faults.save.value.message)) && r.raised == faults.statusWrite
            && r.store == (if faults.statusWrite.Some? then st else WithReceiptStatus(st, id, ManualReview)))
  {
  }

  /** Line items reach the table only through a complete save that
    * succeeded, which leaves the state untouched. */
  lemma {:induction false} LineItemsOnlyFromCompleteSave(j: Job, st: Store, faults: PersistenceFaults)
    ensures var r := PersistenceStage(j, st, faults);
      r.store.lineItems != st.lineItems ==>
        && j.status == JobStatus.Complete && j.cleanedJson.Some? && !SaveFails(j.cleanedJson.value, faults.save)
        && Parse(j.receiptId).Some? && r.job == j && r.raised.None?
        && r.store == SaveReceipt(st, Parse(j.receiptId).value, j.cleanedJson.value)
  {
    var r := PersistenceStage(j, st, faults);
    match Parse(j.receiptId)
    case None =>
    case Some(id) =>
      WithReceiptStatusFacts(st, id, ManualReview);
  }

  // ---------------------------------------------------------------------
  // Every stage only appends to validation_errors.
  // ---------------------------------------------------------------------

  lemma FailExtends(j: Job, m: ErrorMessage)
    ensures ErrorsExtend(j, Fail(j, m)) && Fail(j, m).validationErrors[|j.validationErrors|] == m
  {
    assert (j.validationErrors + [m])[..|j.validationErrors|] == j.validationErrors;
  }

  lemma OcrStageExtends(j: Job, settings: SettingsRead, env: Config.EnvSettings, analyze: TextractService)
    ensures ErrorsExtend(j, OcrStage(j, settings, env, analyze))
  {
    if settings.Failure? {
      FailExtends(j, OcrError(settings.error));
    } else {
      var response := analyze(TextractClient(settings.value, env), j.imagePath);
      if response.Failure? {
        FailExtends(j, OcrError(response.error));
      }
    }
  }

  lemma ExtractionStageExtends(j: Job, settings: SettingsRead, env: Config.EnvSettings,
                               vendor: VendorRequest -> Result<string, string>,
                               parse: string -> Result<ReceiptExtraction, string>)
    ensures ErrorsExtend(j, ExtractionStage(j, settings, env, vendor, parse))
  {
    var r := ExtractionStage(j, settings, env, vendor, parse);
    if !HasOcrData(j) {
      FailExtends(j, NoOcrData);
    } else if settings.Failure? {
      FailExtends(j, ExtractionError(settings.error));
    } else {
      var names := ConfiguredModel(settings.value);
      var provider := GetLlmProvider(names.0, names.1, settings.value, env);
      if provider.Failure? {
        assert r == Fail(j, ExtractionError(provider.error));
        FailExtends(j, ExtractionError(provider.error));
      } else {
        var extracted := ExtractReceiptData(provider.value, FormattedText(j.rawTextractOutput.value), vendor, parse);
        if extracted.Failure? {
          assert r == Fail(j, ExtractionError(extracted.error));
          FailExtends(j, ExtractionError(extracted.error));
        } else {
          assert r.validationErrors == j.validationErrors;
        }
      }
    }
  }

  lemma ValidationStageExtends(j: Job)
    ensures ErrorsExtend(j, ValidationStage(j))
  {
    if j.cleanedJson.None? {
      FailExtends(j, NoExtractedData);
    } else {
      var errs := ValidationErrors(j.cleanedJson.value);
      assert (j.validationErrors + errs)[..|j.validationErrors|] == j.validationErrors;
    }
  }

  lemma PersistenceStageExtends(j: Job, st: Store, faults: PersistenceFaults)
    ensures ErrorsExtend(j, PersistenceStage(j, st, faults).job)
  {
    FailExtends(j, DatabaseError(BAD_UUID_ERROR));
    if faults.save.Some? {
      FailExtends(j, DatabaseError(faults.save.value.message));
    }
  }
}
