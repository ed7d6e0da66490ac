/** `ReceiptState` of api/workflow/state.py: the record the four workflow
  * stages share and update in place. `Job` is its value at one moment;
  * the class holds the fields the stages assign. */
module WorkflowState {
  import opened Wrappers
  import opened Text
  import opened Schemas
  import opened TextractFormat

  /** `status: Literal['processing', 'review_required', 'complete']`. */
  datatype JobStatus = Processing | ReviewRequired | Complete
  {
    function Name(): string
    {
      match this
      case Processing => "processing"
      case ReviewRequired => "review_required"
      case Complete => "complete"
    }
  }

  /** The entries a stage appends to `validation_errors`. The sum message
    * shows four decimals, whose text (`str(Decimal)`) depends on the
    * exponent each value carries; that rendering is the parameter of `Text`. */
  datatype ErrorMessage =
    | OcrError(detail: string)
    | NoOcrData
    | ExtractionError(detail: string)
    | NoExtractedData
    | MissingMerchantName
    | MissingPurchaseDate
    | NoLineItems
    | SumMismatch(lineItemsSum: real, tax: real, expected: real, total: real)
    | DatabaseError(detail: string)
  {
    function Text(showDecimal: real -> string): string
    {
      match this
      case OcrError(d) => "OCR Error: " + d
      case NoOcrData => "No OCR data available"
      case ExtractionError(d) => "Extraction Error: " + d
      case NoExtractedData => "No extracted data to validate"
      case MissingMerchantName => "Missing merchant name"
      case MissingPurchaseDate => "Missing purchase date"
      case NoLineItems => "No line items found"
      case SumMismatch(s, t, x, total) =>
        "Sum validation failed: Line items (" + showDecimal(s) + ") + Tax (" + showDecimal(t) + ") = "
        + showDecimal(x) + ", but total is " + showDecimal(total)
      case DatabaseError(d) => "Database Error: " + d
    }
  }

  /** The six fields of the state dictionary. */
  datatype Job = Job(
    receiptId: string,
    imagePath: string,
    rawTextractOutput: Option<OcrPayload>,
    cleanedJson: Option<ReceiptExtraction>,
    validationErrors: seq<ErrorMessage>,
    status: JobStatus)

  /** `state.get('raw_textract_output')` is truthy: present and not `{}`. */
  predicate HasOcrData(j: Job)
  {
    j.rawTextractOutput.Some? && !IsEmptyDict(j.rawTextractOutput.value)
  }

  /** `j` is `before` with zero or more error entries appended. */
  predicate ErrorsExtend(before: Job, j: Job)
  {
    |before.validationErrors| <= |j.validationErrors|
    && j.validationErrors[..|before.validationErrors|] == before.validationErrors
  }

  lemma ErrorsExtendTransitive(a: Job, b: Job, c: Job)
    requires ErrorsExtend(a, b) && ErrorsExtend(b, c)
    ensures ErrorsExtend(a, c)
  {
    assert c.validationErrors[..|a.validationErrors|] == c.validationErrors[..|b.validationErrors|][..|a.validationErrors|];
  }

  /** The state dictionary the stages mutate. */
  class ReceiptState {
    var receiptId: string
    var imagePath: string
    var rawTextractOutput: Option<OcrPayload>
    var cleanedJson: Option<ReceiptExtraction>
    var validationErrors: seq<ErrorMessage>
    var status: JobStatus

    function Snapshot(): Job
      reads this
    {
      Job(receiptId, imagePath, rawTextractOutput, cleanedJson, validationErrors, status)
    }

    constructor (j: Job)
      ensures Snapshot() == j
    {
      receiptId := j.receiptId;
      imagePath := j.imagePath;
      rawTextractOutput := j.rawTextractOutput;
      cleanedJson := j.cleanedJson;
      validationErrors := j.validationErrors;
      status := j.status;
    }
  }
}
