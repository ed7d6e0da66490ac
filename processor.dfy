/** `ReceiptProcessor` of api/workflow/processor.py: the initial state for a
  * receipt and one run of the compiled workflow over it. The lemmas after
  * it state what a whole run guarantees. */
module Processor {
  import opened Wrappers
  import opened Uuids
  import opened Schemas
  import opened TextractFormat
  import opened DatabaseOps
  import opened WorkflowState
  import opened Nodes
  import opened Graph

  /** The state dictionary `process_receipt` starts from. */
  function InitialState(receiptId: Uuid, imagePath: string): Job
  {
    Job(ToString(receiptId), imagePath, None, None, [], Processing)
  }

  /** The initial state's id is the string form of the receipt's UUID, so
    * every `uuid.UUID(state['receipt_id'])` of the run gives that UUID back;
    * nothing has been read or extracted yet. */
  lemma InitialStateFacts(receiptId: Uuid, imagePath: string)
    ensures var j := InitialState(receiptId, imagePath);
      && Parse(j.receiptId) == Some(receiptId)
      && j.imagePath == imagePath
      && !HasOcrData(j) && j.cleanedJson.None?
      && j.validationErrors == [] && j.status == Processing
  {
    ParseToString(receiptId);
  }

  /** The outcome of processing one receipt. */
  function Run(receiptId: Uuid, imagePath: string, st: Store, c: Collaborators, f: RunFaults): StageResult
  {
    RunNodes(RECEIPT_STAGES, InitialState(receiptId, imagePath), st, c, f)
  }

  class ReceiptProcessor {
    const workflow: CompiledGraph

    predicate Valid()
    {
      ExecutionOrder(workflow) == Some(RECEIPT_STAGES)
    }

    constructor ()
      ensures Valid()
    {
      var w := CreateReceiptWorkflow();
      workflow := w;
    }

    /** `process_receipt`: the run's final state, or the exception that
      * ended it. */
    method ProcessReceipt(receiptId: Uuid, imagePath: string, tables: ReceiptTables, c: Collaborators, f: RunFaults)
      returns (r: Result<Job, string>)
      requires Valid()
      modifies tables
      ensures var out := Run(receiptId, imagePath, old(tables.Contents()), c, f);
        && tables.Contents() == out.store
        && r == (if out.raised.Some? then Failure(out.raised.value) else Success(out.job))
      ensures old(tables.Valid()) ==> tables.Valid()
    {
      if tables.Valid() {
        RunKeepsValid(receiptId, imagePath, tables.Contents(), c, f);
      }
      var initialState := new ReceiptState(InitialState(receiptId, imagePath));
      var raised := Invoke(workflow, initialState, tables, c, f);
      if raised.Some? {
        return Failure(raised.value);
      }
      return Success(initialState.Snapshot());
    }
  }

  // ---------------------------------------------------------------------
  // What a run guarantees.
  // ---------------------------------------------------------------------

  /** A run keeps the line-item ids fresh and distinct: only persistence
    * writes, and it keeps them so. */
  lemma RunKeepsValid(receiptId: Uuid, imagePath: string, st: Store, c: Collaborators, f: RunFaults)
    requires ValidStore(st)
    ensures ValidStore(Run(receiptId, imagePath, st, c, f).store)
  {
    var j := InitialState(receiptId, imagePath);
    ReceiptRunIsComposition(j, st, c, f);
    var j3 := ValidationStage(ExtractionStage(OcrStage(j, ReadSettings(c.settings, f.ocrSettings), c.env, c.analyze),
                                              ReadSettings(c.settings, f.extractionSettings), c.env, c.vendor, c.parse));
    PersistenceStageKeepsValid(j3, st, f.persistence);
  }

  /** An extraction survives the first two stages only when both succeeded,
    * so it arrives with no errors and the status still processing. */
  lemma {:induction false} ExtractedOnlyWhenClean(receiptId: Uuid, imagePath: string, c: Collaborators, f: RunFaults)
    ensures var j1 := OcrStage(InitialState(receiptId, imagePath), ReadSettings(c.settings, f.ocrSettings), c.env, c.analyze);
      var j2 := ExtractionStage(j1, ReadSettings(c.settings, f.extractionSettings), c.env, c.vendor, c.parse);
      && j2.receiptId == ToString(receiptId) && j2.imagePath == imagePath
      && (j2.cleanedJson.Some? ==> j2.validationErrors == [] && j2.status == Processing)
      && (j2.cleanedJson.None? ==> j2.validationErrors != [] && j2.status == ReviewRequired)
  {
    var j0 := InitialState(receiptId, imagePath);
    var s1 := ReadSettings(c.settings, f.ocrSettings);
    var s2 := ReadSettings(c.settings, f.extractionSettings);
    var j1 := OcrStage(j0, s1, c.env, c.analyze);
    OcrStageOutcome(j0, s1, c.env, c.analyze);
    if HasOcrData(j1) {
      assert j1.validationErrors == [] && j1.status == Processing;
      ExtractionStageOutcome(j1, s2, c.env, c.vendor, c.parse);
    }
  }

  /** Every run that returns ends in review_required or complete, never
    * processing (an exception, when there is one, comes from a status
    * write and leaves the tables as they were). A complete run has no
    * errors, passed every validation check and saved the extraction; a
    * run sent to review has at least one error and, when nothing raised,
    * its receipt marked manual_review. */
  lemma {:induction false} RunOutcome(receiptId: Uuid, imagePath: string, st: Store, c: Collaborators, f: RunFaults)
    ensures var out := Run(receiptId, imagePath, st, c, f);
      && out.job.receiptId == ToString(receiptId)
      && (out.job.status == JobStatus.Complete || out.job.status == ReviewRequired)
      && (out.raised.Some? ==> out.raised == f.persistence.statusWrite && out.store == st)
      && (out.job.status == JobStatus.Complete ==>
            && out.raised.None? && out.job.validationErrors == [] && out.job.cleanedJson.Some?
            && ValidationErrors(out.job.cleanedJson.value) == []
            && out.store == SaveReceipt(st, receiptId, out.job.cleanedJson.value))
      && (out.job.status == ReviewRequired ==>
            && out.job.validationErrors != []
            && (out.raised.None? ==> out.store == WithReceiptStatus(st, receiptId, ManualReview)))
  {
    var j0 := InitialState(receiptId, imagePath);
    InitialStateFacts(receiptId, imagePath);
    var j1 := OcrStage(j0, ReadSettings(c.settings, f.ocrSettings), c.env, c.analyze);
    var j2 := ExtractionStage(j1, ReadSettings(c.settings, f.extractionSettings), c.env, c.vendor, c.parse);
    var j3 := ValidationStage(j2);
    ReceiptRunIsComposition(j0, st, c, f);
    ExtractedOnlyWhenClean(receiptId, imagePath, c, f);
    OcrStageOutcome(j0, ReadSettings(c.settings, f.ocrSettings), c.env, c.analyze);
    if HasOcrData(j1) {
      ExtractionStageOutcome(j1, ReadSettings(c.settings, f.extractionSettings), c.env, c.vendor, c.parse);
    }
    if j2.cleanedJson.Some? {
      ValidationStageOutcome(j2);
    }
    assert j3.receiptId == ToString(receiptId);
    PersistenceOutcomes(j3, st, f.persistence);
  }

  /** When OCR fails, every later stage still runs and reports its own
    * missing input: the errors are exactly the OCR error, "No OCR data
    * available" and "No extracted data to validate". */
  lemma OcrFailureCascades(receiptId: Uuid, imagePath: string, st: Store, c: Collaborators, f: RunFaults, m: string)
    requires (f.ocrSettings == Some(m)) ||
             (f.ocrSettings.None? && c.analyze(TextractClient(c.settings, c.env), imagePath) == Failure(m))
    ensures var out := Run(receiptId, imagePath, st, c, f);
      && out.job.validationErrors == [OcrError(m), NoOcrData, NoExtractedData]
      && out.job.status == ReviewRequired
      && out.job.rawTextractOutput.None? && out.job.cleanedJson.None?
      && out.raised == f.persistence.statusWrite
  {
    var j0 := InitialState(receiptId, imagePath);
    InitialStateFacts(receiptId, imagePath);
    ReceiptRunIsComposition(j0, st, c, f);
    var j1 := OcrStage(j0, ReadSettings(c.settings, f.ocrSettings), c.env, c.analyze);
    assert j1 == Fail(j0, OcrError(m));
    var j2 := ExtractionStage(j1, ReadSettings(c.settings, f.extractionSettings), c.env, c.vendor, c.parse);
    assert j2 == Fail(j1, NoOcrData);
    var j3 := ValidationStage(j2);
    assert j3 == Fail(j2, NoExtractedData);
    PersistenceOutcomes(j3, st, f.persistence);
  }

  // ---------------------------------------------------------------------
  // The Gemini test fixture.
  // ---------------------------------------------------------------------

  function GroceryItem(description: string, quantity: Quantity, unitPrice: real, totalPrice: real): LineItemExtraction
  {
    LineItemExtraction(description, "Groceries", quantity, unitPrice, totalPrice)
  }

  /** The extraction of api/tests/fixtures/mock_gemini.py. */
  const MOCK_GEMINI_EXTRACTION: ReceiptExtraction := ReceiptExtraction(
    "Walmart", Date(2024, 1, 15), 45.67, 3.42,
    [GroceryItem("Bananas Organic", 1, 2.50, 2.50),
     GroceryItem("Milk 2% Gallon", 1, 4.99, 4.99),
     GroceryItem("Bread Whole Wheat", 1, 3.49, 3.49),
     GroceryItem("Eggs Organic Dozen", 1, 5.99, 5.99),
     GroceryItem("Orange Juice", 1, 4.29, 4.29),
     GroceryItem("Yogurt Greek", 2, 1.99, 3.98),
     GroceryItem("Apples Gala", 1, 5.49, 5.49),
     GroceryItem("Pasta Spaghetti", 1, 1.49, 1.49),
     GroceryItem("Tomato Sauce", 1, 2.79, 2.79),
     GroceryItem("Chicken Breast", 1, 7.24, 7.24)])

  /** The fixture's items sum to 42.25, which with 3.42 tax is exactly the
    * 45.67 total, so validation passes and leaves the errors untouched. */
  lemma MockGeminiExtractionValidates(j: Job)
    requires j.cleanedJson == Some(MOCK_GEMINI_EXTRACTION)
    ensures SumTotals(MOCK_GEMINI_EXTRACTION.lineItems) == 42.25
    ensures ValidationStage(j) == j.(status := JobStatus.Complete)
  {
    var items := MOCK_GEMINI_EXTRACTION.lineItems;
    assert SumTotals(items[..1]) == 2.50;
    assert items[..2][..1] == items[..1];
    assert SumTotals(items[..2]) == 7.49;
    assert items[..3][..2] == items[..2];
    assert SumTotals(items[..3]) == 10.98;
    assert items[..4][..3] == items[..3];
    assert SumTotals(items[..4]) == 16.97;
    assert items[..5][..4] == items[..4];
    assert SumTotals(items[..5]) == 21.26;
    assert items[..6][..5] == items[..5];
    assert SumTotals(items[..6]) == 25.24;
    assert items[..7][..6] == items[..6];
    assert SumTotals(items[..7]) == 30.73;
    assert items[..8][..7] == items[..7];
    assert SumTotals(items[..8]) == 32.22;
    assert items[..9][..8] == items[..8];
    assert SumTotals(items[..9]) == 35.01;
    assert items[..10][..9] == items[..9];
    assert items[..10] == items;
  }
}
