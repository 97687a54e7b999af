/** The agent's pipeline and the reviewer's Submit as control programs: where
    each stands between two database statements, which statement it issues
    next, and where it goes afterwards. Calls to providers touch no table and
    are folded into the statement that follows them. */
module Pipeline {
  import opened Prelude
  import opened Domain
  import opened Tables
  import Sorting
  import Validation
  import Confidence
  import KeyFields

  // ----- the agent -----

  /** The statement an agent run is about to issue. */
  datatype Pc =
    // load, run_ocr, classify_document
    | Load | RecordOcr | RecordClassify | PersistClassified | AuditClassified
    // extract_fields
    | LoadSchema | PersistFields | RecordExtractError(outcome: ToolStatus, why: FailReason)
    | RecordExtract | PersistExtracted | AuditExtracted | PersistHash
    // validate_extraction
    | RecordValidate | PersistValidated | AuditValidated
    // check_duplicate
    | LookupContent | LookupNear | RecordLookupError | RecordLookup(found: Option<nat>) | PersistDuplicate(original: nat)
    // calculate_confidence, finalize_document
    | LoadThreshold | RecordConfidence | PersistAuto | RecordFinalize | FinishAuto | AuditAuto
    // fail
    | FailFinish(its: nat, cause: FailReason, known: bool) | FailCount(cause: FailReason, known: bool)
    | Requeue(cause: FailReason, known: bool) | AuditRetry(cause: FailReason)
    | PersistFailed(cause: FailReason, known: bool) | AuditFailed(cause: FailReason)
    // routeToReview
    | OpenTask(its: nat, reason: ReviewReason) | PersistPending(its: nat, reason: ReviewReason)
    | FinishReview(its: nat, reason: ReviewReason) | AuditRouted(reason: ReviewReason)

  /** A worker between polls, or driving document `doc` in run `run`. */
  datatype Ctl = Idle | At(pc: Pc, doc: nat, run: nat, o: Outcomes)

  /** Extraction answers exactly the schema's fields, in some iteration order. */
  ghost predicate WellFormed(cfg: Config, o: Outcomes) {
    && Sorting.Enumerates(o.order, o.fields.Keys)
    && (o.docType in cfg.types ==> o.fields.Keys == cfg.types[o.docType].schema.Keys)
  }

  function Values(fields: map<string, Field>): map<string, Value> {
    map n | n in fields :: fields[n].value
  }

  ghost predicate Accepted(cfg: Config, o: Outcomes) {
    o.docType in cfg.types && Validation.Valid(cfg.types[o.docType].schema, Values(o.fields))
  }

  ghost function Overall(o: Outcomes): real {
    if forall n :: n in o.order ==> n in o.fields then Confidence.Mean(o.confidence, o.order, o.fields) else 0.0
  }

  function Threshold(cfg: Config, o: Outcomes): real {
    if o.docType in cfg.types then cfg.types[o.docType].threshold else 0.0
  }

  /** The INSERT on `documents.document_type_id` respects its foreign key. */
  predicate ClassificationPersists(cfg: Config, o: Outcomes) {
    o.classifiedOk && o.docType in cfg.types
  }

  /** An empty batch returns before it touches the database. */
  predicate FieldsPersist(o: Outcomes) {
    o.insertOk || |o.order| == 0
  }

  function Rows(d: nat, o: Outcomes, at: nat): seq<FieldRow> {
    seq(|o.order|, i requires 0 <= i < |o.order| =>
      var f := if o.order[i] in o.fields then o.fields[o.order[i]] else Field(Null, 0.0);
      FieldRow(d, o.order[i], f.value, f.confidence, Extraction, at))
  }

  /** toolFailure: a deadline is a TIMEOUT, any other error a failure. */
  function ToolFailure(call: Call, failed: FailReason, timeout: FailReason): (ToolStatus, FailReason) {
    if call == TimedOut then (ToolTimeout, timeout) else (ToolFailed, failed)
  }

  function CallStatus(call: Call): ToolStatus {
    match call
    case Answered => Success
    case Errored => ToolFailed
    case TimedOut => ToolTimeout
  }

  /** Counting one more iteration: the cap comes before the step. */
  function Enter(cfg: Config, its: nat, next: Pc): Pc {
    if its > cfg.maxIterations then FailFinish(its, MaxIterationsExceeded, true) else next
  }

  function TenantOf(db: Db, d: nat): nat {
    if d < |db.docs| then db.docs[d].tenant else 0
  }

  function ByAgent(db: Db, c: Ctl, action: Action, entity: Entity): Stmt
    requires c.At?
  {
    Audit(Entry(TenantOf(db, c.doc), Agent, action, entity, Some(c.run)))
  }

  function ClassConfWritten(reason: ReviewReason, o: Outcomes): Option<real> {
    if reason == UnknownType then Some(o.confidence) else None
  }

  ghost function OverallConfWritten(reason: ReviewReason, o: Outcomes): Option<real> {
    if reason == LowConfidence then Some(Overall(o)) else None
  }

  /** Inside `fail` or `routeToReview`. */
  predicate Tail(pc: Pc) {
    pc.FailFinish? || pc.FailCount? || pc.Requeue? || pc.AuditRetry? || pc.PersistFailed? || pc.AuditFailed?
    || pc.OpenTask? || pc.PersistPending? || pc.FinishReview? || pc.AuditRouted?
  }

  /** In the first three steps. */
  predicate Early(pc: Pc) {
    pc.Load? || pc.RecordOcr? || pc.RecordClassify? || pc.PersistClassified? || pc.AuditClassified? || pc.LoadSchema?
    || pc.PersistFields? || pc.RecordExtractError? || pc.RecordExtract? || pc.PersistExtracted? || pc.AuditExtracted? || pc.PersistHash?
  }

  // The program in three stretches: up to the extraction (steps 1 to 3), the gates
  // (steps 4 to 7), and the two ways out, `fail` and `routeToReview`.

  ghost function ExtractionIssue(cfg: Config, db: Db, c: Ctl): Stmt
    requires c.At?
  {
    var d, r, o := c.doc, c.run, c.o;
    match c.pc
    case Load => Query
    case RecordOcr => RecordTool(r, RunOcr, CallStatus(o.ocr), None)
    case RecordClassify => RecordTool(r, ClassifyDocument, CallStatus(o.classify), None)
    case PersistClassified => if ClassificationPersists(cfg, o) then MarkClassified(d, o.docType, o.confidence) else Query
    case AuditClassified => ByAgent(db, c, DocClassified, OfDocument(d))
    case LoadSchema => Query
    case PersistFields => if FieldsPersist(o) then InsertBatch(d, Rows(d, o, |db.fields|)) else Query
    case RecordExtractError(outcome, _) => RecordTool(r, ExtractFields, outcome, None)
    case RecordExtract => RecordTool(r, ExtractFields, Success, None)
    case PersistExtracted => if o.extractedOk then MarkExtracted(d) else Query
    case AuditExtracted => ByAgent(db, c, DocExtracted, OfDocument(d))
    case PersistHash =>
      var hash := KeyFields.KeyHash(cfg, o.fields);
      if hash.Some? then SetKeyFieldsHash(d, hash.value) else Query
    case _ => Query
  }

  ghost function GateIssue(cfg: Config, db: Db, c: Ctl): Stmt
    requires c.At?
  {
    var d, r, o := c.doc, c.run, c.o;
    match c.pc
    case RecordValidate => RecordTool(r, ValidateExtraction, Success, None)
    case PersistValidated => if o.validatedOk then MarkValidated(d) else Query
    case AuditValidated => ByAgent(db, c, DocValidated, OfDocument(d))
    case LookupContent => Query
    case LookupNear => Query
    case RecordLookupError => RecordTool(r, CheckDuplicate, ToolFailed, None)
    case RecordLookup(found) => RecordTool(r, CheckDuplicate, Success, found)
    case PersistDuplicate(e) => MarkDuplicateOf(d, e)
    case LoadThreshold => Query
    case RecordConfidence => RecordTool(r, CalculateConfidence, Success, None)
    case PersistAuto => if o.autoOk then MarkAutoProcessed(d, Overall(o)) else Query
    case RecordFinalize => RecordTool(r, FinalizeDocument, Success, None)
    case FinishAuto => Finish(r, Completed, 7)
    case AuditAuto => ByAgent(db, c, DocAutoProcessed, OfDocument(d))
    case _ => Query
  }

  ghost function EndingIssue(cfg: Config, db: Db, c: Ctl): Stmt
    requires c.At?
  {
    var d, r, o := c.doc, c.run, c.o;
    match c.pc
    case FailFinish(its, _, _) => Finish(r, RunFailed, its)
    case FailCount(_, _) => Query
    case Requeue(_, _) => MarkUploaded(d)
    case AuditRetry(cause) => ByAgent(db, c, RunRetrying(cause), OfRun(r))
    case PersistFailed(_, _) => MarkFailed(d)
    case AuditFailed(cause) => ByAgent(db, c, RunFailedFor(cause), OfRun(r))
    case OpenTask(_, reason) => CreateTask(d, reason)
    case PersistPending(_, reason) => MarkPendingReview(d, ClassConfWritten(reason, o), OverallConfWritten(reason, o))
    case FinishReview(its, _) => Finish(r, Completed, its)
    case AuditRouted(reason) => ByAgent(db, c, DocRouted(reason), OfDocument(d))
    case _ => Query
  }

  /** The statement issued here. */
  ghost function Issue(cfg: Config, db: Db, c: Ctl): Stmt
    requires c.At?
  {
    if Tail(c.pc) then EndingIssue(cfg, db, c) else if Early(c.pc) then ExtractionIssue(cfg, db, c) else GateIssue(cfg, db, c)
  }

  ghost function ExtractionGoto(cfg: Config, db: Db, c: Ctl): Option<Pc>
    requires c.At?
  {
    var d, o := c.doc, c.o;
    match c.pc
    case Load =>
      if o.loadOk && d < |db.docs| then Some(Enter(cfg, 1, RecordOcr))
      else Some(FailFinish(0, LoadDocumentFailed, false))
    case RecordOcr =>
      if o.ocr != Answered then Some(FailFinish(1, ToolFailure(o.ocr, OcrFailed, OcrTimeout).1, true))
      else Some(Enter(cfg, 2, RecordClassify))
    case RecordClassify =>
      if o.classify != Answered then Some(FailFinish(2, ToolFailure(o.classify, ClassificationFailed, ClassificationTimeout).1, true))
      else if o.docType == UNKNOWN_TYPE then Some(OpenTask(2, UnknownType))
      else Some(PersistClassified)
    case PersistClassified =>
      if ClassificationPersists(cfg, o) then Some(AuditClassified) else Some(FailFinish(2, PersistClassificationFailed, true))
    case AuditClassified => Some(Enter(cfg, 3, LoadSchema))
    case LoadSchema =>
      if !o.schemaOk then Some(FailFinish(3, LoadFieldSchemaFailed, true))
      else if o.extract != Answered then
        var (outcome, why) := ToolFailure(o.extract, ExtractionFailed, ExtractionTimeout);
        Some(RecordExtractError(outcome, why))
      else Some(PersistFields)
    case PersistFields =>
      if FieldsPersist(o) then Some(RecordExtract) else Some(RecordExtractError(ToolFailed, PersistExtractedFieldsFailed))
    case RecordExtractError(_, why) => Some(FailFinish(3, why, true))
    case RecordExtract => Some(PersistExtracted)
    case PersistExtracted => if o.extractedOk then Some(AuditExtracted) else Some(FailFinish(3, PersistExtractedStatusFailed, true))
    case AuditExtracted =>
      if KeyFields.KeyHash(cfg, o.fields).Some? then Some(PersistHash) else Some(Enter(cfg, 4, RecordValidate))
    case PersistHash => Some(Enter(cfg, 4, RecordValidate))
    case _ => None
  }

  ghost function GateGoto(cfg: Config, db: Db, c: Ctl): Option<Pc>
    requires c.At?
  {
    var d, o := c.doc, c.o;
    match c.pc
    case RecordValidate => if !Accepted(cfg, o) then Some(OpenTask(4, ValidationFailed)) else Some(PersistValidated)
    case PersistValidated => if o.validatedOk then Some(AuditValidated) else Some(FailFinish(4, PersistValidatedStatusFailed, true))
    case AuditValidated => Some(Enter(cfg, 5, LookupContent))
    case LookupContent =>
      if !o.contentLookupOk || d >= |db.docs| then Some(RecordLookupError)
      else
        var earliest := FindByContentHash(db, db.docs[d].tenant, db.docs[d].contentHash);
        if earliest.Some? && earliest.value != d then Some(RecordLookup(earliest))
        else if KeyFields.KeyHash(cfg, o.fields).Some? then Some(LookupNear)
        else Some(RecordLookup(None))
    case LookupNear =>
      var hash := KeyFields.KeyHash(cfg, o.fields);
      if !o.nearLookupOk || d >= |db.docs| || hash.None? then Some(RecordLookupError)
      else
        var near := FindByKeyFieldsHash(db, db.docs[d].tenant, o.docType, hash.value);
        if near.Some? && near.value != d then Some(RecordLookup(near)) else Some(RecordLookup(None))
    case RecordLookupError => Some(FailFinish(5, DuplicateCheckFailed, true))
    case RecordLookup(found) => if found.Some? then Some(PersistDuplicate(found.value)) else Some(Enter(cfg, 6, LoadThreshold))
    case PersistDuplicate(_) => Some(OpenTask(5, Duplicate))
    case LoadThreshold => if !o.thresholdOk then Some(FailFinish(6, LoadThresholdFailed, true)) else Some(RecordConfidence)
    case RecordConfidence =>
      if Overall(o) < Threshold(cfg, o) then Some(OpenTask(6, LowConfidence)) else Some(Enter(cfg, 7, PersistAuto))
    case PersistAuto => if o.autoOk then Some(RecordFinalize) else Some(FailFinish(7, PersistAutoProcessedFailed, true))
    case RecordFinalize => Some(FinishAuto)
    case FinishAuto => Some(AuditAuto)
    case AuditAuto => None
    case _ => None
  }

  ghost function EndingGoto(cfg: Config, db: Db, c: Ctl): Option<Pc>
    requires c.At?
  {
    var d, o := c.doc, c.o;
    match c.pc
    case FailFinish(_, cause, known) =>
      if cause != MaxIterationsExceeded then Some(FailCount(cause, known)) else Some(PersistFailed(cause, known))
    case FailCount(cause, known) =>
      if o.countOk && CountFailed(db, d) <= cfg.maxRetries then Some(Requeue(cause, known)) else Some(PersistFailed(cause, known))
    case Requeue(cause, known) => if known then Some(AuditRetry(cause)) else None
    case AuditRetry(_) => None
    case PersistFailed(cause, known) => if known then Some(AuditFailed(cause)) else None
    case AuditFailed(_) => None
    case OpenTask(its, reason) => Some(PersistPending(its, reason))
    case PersistPending(its, reason) => Some(FinishReview(its, reason))
    case FinishReview(_, reason) => Some(AuditRouted(reason))
    case AuditRouted(_) => None
    case _ => None
  }

  /** The next place in the program, or none when the run is over. */
  ghost function Goto(cfg: Config, db: Db, c: Ctl): Option<Pc>
    requires c.At?
  {
    if Tail(c.pc) then EndingGoto(cfg, db, c) else if Early(c.pc) then ExtractionGoto(cfg, db, c) else GateGoto(cfg, db, c)
  }

  ghost function After(cfg: Config, db: Db, c: Ctl): Ctl
    requires c.At?
  {
    var next := Goto(cfg, db, c);
    if next.None? then Idle else c.(pc := next.value)
  }

  /** How far from the end a program point is. */
  function Rank(pc: Pc): nat {
    match pc
    case Load => 36 case RecordOcr => 35 case RecordClassify => 34 case PersistClassified => 33 case AuditClassified => 32
    case LoadSchema => 31 case PersistFields => 30 case RecordExtract => 29 case PersistExtracted => 28 case AuditExtracted => 27
    case PersistHash => 26 case RecordValidate => 25 case PersistValidated => 24 case AuditValidated => 23
    case LookupContent => 22 case LookupNear => 21 case RecordLookup(_) => 20 case PersistDuplicate(_) => 19
    case LoadThreshold => 18 case RecordConfidence => 17 case PersistAuto => 16 case RecordFinalize => 15 case FinishAuto => 14 case AuditAuto => 13
    case RecordExtractError(_, _) => 12 case RecordLookupError => 12
    case OpenTask(_, _) => 11 case PersistPending(_, _) => 10 case FinishReview(_, _) => 9 case AuditRouted(_) => 8
    case FailFinish(_, _, _) => 7 case FailCount(_, _) => 6 case Requeue(_, _) => 5 case AuditRetry(_) => 4
    case PersistFailed(_, _) => 3 case AuditFailed(_) => 2
  }

  lemma EarlyRankFalls(cfg: Config, db: Db, c: Ctl)
    requires c.At? && Early(c.pc)
    ensures Goto(cfg, db, c).Some? ==> Rank(Goto(cfg, db, c).value) < Rank(c.pc)
  {
  }

  predicate LooksUp(pc: Pc) {
    pc.LookupContent? || pc.LookupNear?
  }

  lemma LookupRankFalls(cfg: Config, db: Db, c: Ctl)
    requires c.At? && LooksUp(c.pc)
    ensures Goto(cfg, db, c).Some? ==> Rank(Goto(cfg, db, c).value) < Rank(c.pc)
  {
  }

  lemma GateRankFalls(cfg: Config, db: Db, c: Ctl)
    requires c.At? && !Early(c.pc) && !Tail(c.pc) && !LooksUp(c.pc)
    ensures Goto(cfg, db, c).Some? ==> Rank(Goto(cfg, db, c).value) < Rank(c.pc)
  {
  }

  lemma EndingRankFalls(cfg: Config, db: Db, c: Ctl)
    requires c.At? && Tail(c.pc)
    ensures Goto(cfg, db, c).Some? ==> Rank(Goto(cfg, db, c).value) < Rank(c.pc)
  {
  }

  /** Every run ends: the program never goes back. */
  lemma {:induction false} RankFalls(cfg: Config, db: Db, c: Ctl)
    requires c.At?
    ensures Goto(cfg, db, c).Some? ==> Rank(Goto(cfg, db, c).value) < Rank(c.pc)
  {
    if Early(c.pc) {
      EarlyRankFalls(cfg, db, c);
    } else if Tail(c.pc) {
      EndingRankFalls(cfg, db, c);
    } else if LooksUp(c.pc) {
      LookupRankFalls(cfg, db, c);
    } else {
      GateRankFalls(cfg, db, c);
    }
  }

  /** What the rest of a run does to the tables when nothing else moves. */
  ghost function Solo(cfg: Config, db: Db, c: Ctl): Db
    decreases if c.At? then 1 + Rank(c.pc) else 0
  {
    if c.Idle? then db
    else
      RankFalls(cfg, db, c);
      Solo(cfg, Exec(db, Issue(cfg, db, c)), After(cfg, db, c))
  }

  // ----- the reviewer -----

  datatype Decision = Approve | Reject | Correct

  /** One POST /documents/{id}/review, with the database errors it will meet. */
  datatype Request = Request(
    tenant: nat, user: nat, doc: nat,
    decision: Decision, corrections: map<string, Value>, order: seq<string>,
    loadOk: bool, taskOk: bool, insertOk: bool, resolveOk: bool, markOk: bool)

  datatype DeskStep =
    | LoadDoc | LoadTask | SaveCorrections(task: nat) | ResolveTask(task: nat) | MarkDoc(task: nat) | AuditReview(task: nat)

  datatype Desk = Free | Busy(step: DeskStep, req: Request)

  ghost predicate GoodRequest(req: Request) {
    && Sorting.Enumerates(req.order, req.corrections.Keys)
    && (req.decision == Correct ==> req.corrections != map[])
  }

  function DecisionStatus(d: Decision): ReviewStatus {
    match d case Approve => Approved case Reject => Rejected case Correct => Corrected
  }

  function DecisionAction(d: Decision): Action {
    match d case Approve => ReviewApproved case Reject => ReviewRejected case Correct => ReviewCorrected
  }

  function CorrectionRows(req: Request, at: nat): seq<FieldRow> {
    seq(|req.order|, i requires 0 <= i < |req.order| =>
      FieldRow(req.doc, req.order[i], if req.order[i] in req.corrections then req.corrections[req.order[i]] else Null,
               1.0, ReviewCorrection, at))
  }

  function DeskIssue(db: Db, k: Desk): Stmt
    requires k.Busy?
  {
    var req := k.req;
    match k.step
    case LoadDoc => Query
    case LoadTask => Query
    case SaveCorrections(_) => if req.insertOk then InsertBatch(req.doc, CorrectionRows(req, |db.fields|)) else Query
    case ResolveTask(t) => if req.resolveOk then Resolve(t, DecisionStatus(req.decision)) else Query
    case MarkDoc(_) => if req.markOk then MarkReviewed(req.doc) else Query
    case AuditReview(t) => Audit(Entry(req.tenant, User(req.user), DecisionAction(req.decision), OfTask(t), None))
  }

  function DeskAfter(db: Db, k: Desk): Desk
    requires k.Busy?
  {
    var req := k.req;
    match k.step
    case LoadDoc =>
      if req.loadOk && req.doc < |db.docs| && db.docs[req.doc].tenant == req.tenant && db.docs[req.doc].status == PendingReview
      then k.(step := LoadTask) else Free
    case LoadTask =>
      var task := GetPendingByDocument(db, req.doc);
      if !req.taskOk || task.None? then Free
      else if req.decision == Correct then k.(step := SaveCorrections(task.value))
      else k.(step := ResolveTask(task.value))
    case SaveCorrections(t) => if req.insertOk then k.(step := ResolveTask(t)) else Free
    case ResolveTask(t) => if req.resolveOk then k.(step := MarkDoc(t)) else Free
    case MarkDoc(t) => if req.markOk then k.(step := AuditReview(t)) else Free
    case AuditReview(_) => Free
  }
}
