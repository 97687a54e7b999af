/** The entities of the document-processing engine: rows of the database
    tables, and the values that pass between the pipeline and its providers.

    A table is a sequence of rows and a row's identifier is its position, so
    identifiers grow with `created_at`. */
module Domain {
  import opened Prelude

  datatype Status =
    | Uploaded | Classified | Extracted | Validated
    | PendingReview | AutoProcessed | Reviewed | Failed

  datatype RunStatus = Running | Completed | RunFailed

  datatype Tool =
    | RunOcr | ClassifyDocument | ExtractFields | ValidateExtraction
    | CheckDuplicate | CalculateConfidence | FinalizeDocument

  datatype ToolStatus = Success | ToolFailed | ToolTimeout

  datatype ReviewReason = LowConfidence | ValidationFailed | Duplicate | UnknownType

  datatype ReviewStatus = Pending | Approved | Rejected | Corrected

  datatype FailReason =
    | LoadDocumentFailed | MaxIterationsExceeded
    | OcrFailed | OcrTimeout
    | ClassificationFailed | ClassificationTimeout | PersistClassificationFailed
    | LoadFieldSchemaFailed | ExtractionFailed | ExtractionTimeout
    | PersistExtractedFieldsFailed | PersistExtractedStatusFailed
    | PersistValidatedStatusFailed | DuplicateCheckFailed
    | LoadThresholdFailed | PersistAutoProcessedFailed

  /** A JSON value as a provider or a reviewer supplies it. */
  datatype Value = Null | Num(n: real) | Text(s: string) | Flag(b: bool) | Items(xs: seq<Value>)

  /** One field's extraction result; `Null` stands for "not found". */
  datatype Field = Field(value: Value, confidence: real)

  datatype Source = Extraction | ReviewCorrection

  /** The columns of `documents` the engine reads or writes. `is_duplicate` is
      true exactly when `duplicateOf` is set: one statement writes both. */
  datatype Document = Document(
    tenant: nat,
    contentHash: string,
    status: Status,
    docType: Option<string>,
    keyHash: Option<string>,
    classConf: Option<real>,
    overallConf: Option<real>,
    duplicateOf: Option<nat>)

  /** A row of `agent_runs`; `worker` says which worker opened it. */
  datatype Run = Run(doc: nat, worker: nat, status: RunStatus, iterations: nat)

  /** A row of `tool_executions`; `found` is the duplicate `check_duplicate` reports. */
  datatype ToolRow = ToolRow(run: nat, tool: Tool, status: ToolStatus, found: Option<nat>)

  /** A row of `extracted_fields`; rows of one batch share the stamp `at`. */
  datatype FieldRow = FieldRow(doc: nat, name: string, value: Value, confidence: real, source: Source, at: nat)

  datatype Task = Task(doc: nat, reason: ReviewReason, status: ReviewStatus)

  datatype Actor = Agent | User(id: nat)

  datatype Entity = OfDocument(id: nat) | OfRun(id: nat) | OfTask(id: nat)

  datatype Action =
    | DocClassified | DocExtracted | DocValidated | DocAutoProcessed
    | DocRouted(why: ReviewReason)
    | RunRetrying(cause: FailReason)
    | RunFailedFor(cause: FailReason)
    | ReviewApproved | ReviewRejected | ReviewCorrected

  /** A row of `audit_logs`; `run` is the `agent_run_id` of its metadata, if any. */
  datatype Entry = Entry(tenant: nat, actor: Actor, action: Action, entity: Entity, run: Option<nat>)

  datatype Db = Db(
    docs: seq<Document>,
    runs: seq<Run>,
    tools: seq<ToolRow>,
    fields: seq<FieldRow>,
    tasks: seq<Task>,
    audit: seq<Entry>)

  /** A document type's row: its field schema (name to type) and its threshold. */
  datatype DocType = DocType(schema: map<string, string>, threshold: real)

  /** What every worker is configured with. `render` formats a field value and
      `digest` is the hash function; nothing is assumed about either. */
  datatype Config = Config(
    maxIterations: int,
    maxRetries: int,
    types: map<string, DocType>,
    render: Value -> string,
    digest: string -> string)

  const UNKNOWN_TYPE: string := "unknown"

  /** How a call to an external provider ends. */
  datatype Call = Answered | Errored | TimedOut

  /** Everything the environment decides during one agent run: how each provider
      call ends and what it answers, which database calls fail, and the order in
      which Go's map iteration visits the extracted fields. */
  datatype Outcomes = Outcomes(
    loadOk: bool,
    ocr: Call,
    classify: Call, docType: string, confidence: real, classifiedOk: bool,
    schemaOk: bool,
    extract: Call, fields: map<string, Field>, order: seq<string>,
    insertOk: bool, extractedOk: bool,
    validatedOk: bool,
    contentLookupOk: bool, nearLookupOk: bool,
    thresholdOk: bool, autoOk: bool,
    countOk: bool)
}
