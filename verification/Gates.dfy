/** The pipeline as a sequence of seven gates. `Verdict` says, from what the
    environment answers alone, where a run stops and why; the control program
    reaches exactly that verdict under every interleaving. */
module Gates {
  import opened Prelude
  import opened Domain
  import opened Tables
  import opened Pipeline
  import opened Protocol
  import opened Ownership

  datatype Ending = AutoProcess | ToReview(reason: ReviewReason) | Fails(cause: FailReason)

  /** What check_duplicate learns from its lookups. */
  datatype Lookup = LookupError | Found(original: nat) | NoDuplicate

  /** Where a gate stops a run; `tool` is the status of the step's own tool row,
      if the step gets as far as recording one. */
  datatype Stop = Stop(ending: Ending, tool: Option<ToolStatus>)

  /** What, if anything, stops a run at step `k`, looked at on its own. */
  ghost function Gate(cfg: Config, o: Outcomes, l: Lookup, k: nat): Option<Stop> {
    if k > cfg.maxIterations then Some(Stop(Fails(MaxIterationsExceeded), None))
    else if k == 1 then
      if o.ocr == Answered then None
      else Some(Stop(Fails(if o.ocr == TimedOut then OcrTimeout else OcrFailed), Some(CallStatus(o.ocr))))
    else if k == 2 then
      if o.classify != Answered then
        Some(Stop(Fails(if o.classify == TimedOut then ClassificationTimeout else ClassificationFailed), Some(CallStatus(o.classify))))
      else if o.docType == UNKNOWN_TYPE then Some(Stop(ToReview(UnknownType), Some(Success)))
      else if !ClassificationPersists(cfg, o) then Some(Stop(Fails(PersistClassificationFailed), Some(Success)))
      else None
    else if k == 3 then
      if !o.schemaOk then Some(Stop(Fails(LoadFieldSchemaFailed), None))
      else if o.extract != Answered then
        Some(Stop(Fails(if o.extract == TimedOut then ExtractionTimeout else ExtractionFailed), Some(CallStatus(o.extract))))
      else if !FieldsPersist(o) then Some(Stop(Fails(PersistExtractedFieldsFailed), Some(ToolFailed)))
      else if !o.extractedOk then Some(Stop(Fails(PersistExtractedStatusFailed), Some(Success)))
      else None
    else if k == 4 then
      if !Accepted(cfg, o) then Some(Stop(ToReview(ValidationFailed), Some(Success)))
      else if !o.validatedOk then Some(Stop(Fails(PersistValidatedStatusFailed), Some(Success)))
      else None
    else if k == 5 then
      match l
      case LookupError => Some(Stop(Fails(DuplicateCheckFailed), Some(ToolFailed)))
      case Found(_) => Some(Stop(ToReview(Duplicate), Some(Success)))
      case NoDuplicate => None
    else if k == 6 then
      if !o.thresholdOk then Some(Stop(Fails(LoadThresholdFailed), None))
      else if Overall(o) < Threshold(cfg, o) then Some(Stop(ToReview(LowConfidence), Some(Success)))
      else None
    else
      if !o.autoOk then Some(Stop(Fails(PersistAutoProcessedFailed), None)) else None
  }

  datatype Verdict = Verdict(iterations: nat, ending: Ending, tool: Option<ToolStatus>)

  /** The first failing gate from `k` on decides. */
  ghost function FirstStop(cfg: Config, o: Outcomes, l: Lookup, k: nat): (v: Verdict)
    requires 1 <= k <= 8
    decreases 8 - k
  {
    if k == 8 then Verdict(7, AutoProcess, Some(Success))
    else
      var stop := Gate(cfg, o, l, k);
      if stop.Some? then Verdict(k, stop.value.ending, stop.value.tool) else FirstStop(cfg, o, l, k + 1)
  }

  ghost function VerdictOf(cfg: Config, o: Outcomes, l: Lookup): Verdict {
    if !o.loadOk then Verdict(0, Fails(LoadDocumentFailed), None) else FirstStop(cfg, o, l, 1)
  }

  /** None of the first `k` gates stops the run. */
  ghost predicate Passed(cfg: Config, o: Outcomes, l: Lookup, k: nat) {
    k == 0 || (Passed(cfg, o, l, k - 1) && Gate(cfg, o, l, k).None?)
  }

  lemma {:induction false} StopsAt(cfg: Config, o: Outcomes, l: Lookup, k: nat)
    requires k < 8 && Passed(cfg, o, l, k)
    ensures FirstStop(cfg, o, l, 1) == FirstStop(cfg, o, l, k + 1)
  {
    if k > 0 {
      StopsAt(cfg, o, l, k - 1);
    }
  }

  // ----- the tool trace -----

  function ToolAt(k: nat): Tool {
    if k == 1 then RunOcr else if k == 2 then ClassifyDocument else if k == 3 then ExtractFields
    else if k == 4 then ValidateExtraction else if k == 5 then CheckDuplicate else if k == 6 then CalculateConfidence
    else FinalizeDocument
  }

  function StepRow(r: nat, k: nat, status: ToolStatus, l: Lookup): ToolRow {
    ToolRow(r, ToolAt(k), status, if k == 5 && l.Found? then Some(l.original) else None)
  }

  /** The rows of the first `n` steps, all successful. */
  function Steps(r: nat, n: nat, l: Lookup): seq<ToolRow> {
    if n == 0 then [] else Steps(r, n - 1, l) + [StepRow(r, n, Success, l)]
  }

  function TraceOf(v: Verdict, r: nat, l: Lookup): seq<ToolRow> {
    if v.iterations == 0 then []
    else Steps(r, v.iterations - 1, l) + if v.tool.Some? then [StepRow(r, v.iterations, v.tool.value, l)] else []
  }

  /** The tool executions of one run, in order. */
  function RunTools(tools: seq<ToolRow>, r: nat): seq<ToolRow> {
    if tools == [] then []
    else RunTools(tools[..|tools| - 1], r) + if tools[|tools| - 1].run == r then [tools[|tools| - 1]] else []
  }

  /** The duplicate check's outcome as its tool row reports it. */
  function LookupIn(rows: seq<ToolRow>): Lookup {
    if |rows| < 5 then NoDuplicate
    else if rows[4].status != Success then LookupError
    else if rows[4].found.Some? then Found(rows[4].found.value)
    else NoDuplicate
  }

  lemma RunToolsAppend(tools: seq<ToolRow>, x: ToolRow, r: nat)
    ensures RunTools(tools + [x], r) == RunTools(tools, r) + if x.run == r then [x] else []
  {
    assert (tools + [x])[..|tools|] == tools;
  }

  lemma {:induction false} NoTools(tools: seq<ToolRow>, r: nat)
    requires forall i :: 0 <= i < |tools| ==> tools[i].run != r
    ensures RunTools(tools, r) == []
  {
    if tools != [] {
      NoTools(tools[..|tools| - 1], r);
    }
  }

  lemma {:induction false} StepsAre(r: nat, n: nat, l: Lookup)
    ensures |Steps(r, n, l)| == n && forall i :: 0 <= i < n ==> Steps(r, n, l)[i] == StepRow(r, i + 1, Success, l)
  {
    if n > 0 {
      StepsAre(r, n - 1, l);
    }
  }

  lemma {:induction false} EarlyStepsIgnoreLookup(r: nat, n: nat, l: Lookup, m: Lookup)
    requires n < 5
    ensures Steps(r, n, l) == Steps(r, n, m)
  {
    if n > 0 {
      EarlyStepsIgnoreLookup(r, n - 1, l, m);
    }
  }

  // ----- what each program point has established -----

  /** How many tool rows the run has recorded before the tail. */
  function Recorded(pc: Pc): nat {
    match pc
    case Load => 0 case RecordOcr => 0
    case RecordClassify => 1
    case PersistClassified => 2 case AuditClassified => 2 case LoadSchema => 2 case PersistFields => 2
    case RecordExtractError(_, _) => 2 case RecordExtract => 2
    case PersistExtracted => 3 case AuditExtracted => 3 case PersistHash => 3 case RecordValidate => 3
    case PersistValidated => 4 case AuditValidated => 4 case LookupContent => 4 case LookupNear => 4
    case RecordLookupError => 4 case RecordLookup(_) => 4
    case PersistDuplicate(_) => 5 case LoadThreshold => 5 case RecordConfidence => 5
    case PersistAuto => 6 case RecordFinalize => 6
    case _ => 7
  }

  /** What the run has got past. */
  ghost predicate GotPast(cfg: Config, o: Outcomes, pc: Pc) {
    var l := NoDuplicate;
    match pc
    case Load => Passed(cfg, o, l, 0)
    case RecordOcr => Passed(cfg, o, l, 0) && cfg.maxIterations >= 1
    case RecordClassify => Passed(cfg, o, l, 1) && cfg.maxIterations >= 2
    case PersistClassified => Passed(cfg, o, l, 1) && cfg.maxIterations >= 2 && o.classify == Answered && o.docType != UNKNOWN_TYPE
    case AuditClassified => Passed(cfg, o, l, 2)
    case LoadSchema => Passed(cfg, o, l, 2) && cfg.maxIterations >= 3
    case PersistFields => Passed(cfg, o, l, 2) && cfg.maxIterations >= 3 && o.schemaOk && o.extract == Answered
    case RecordExtractError(outcome, why) => Passed(cfg, o, l, 2) && Gate(cfg, o, l, 3) == Some(Stop(Fails(why), Some(outcome)))
    case RecordExtract => Passed(cfg, o, l, 2) && cfg.maxIterations >= 3 && o.schemaOk && o.extract == Answered && FieldsPersist(o)
    case PersistExtracted => Passed(cfg, o, l, 2) && cfg.maxIterations >= 3 && o.schemaOk && o.extract == Answered && FieldsPersist(o)
    case AuditExtracted => Passed(cfg, o, l, 3)
    case PersistHash => Passed(cfg, o, l, 3)
    case RecordValidate => Passed(cfg, o, l, 3) && cfg.maxIterations >= 4
    case PersistValidated => Passed(cfg, o, l, 3) && cfg.maxIterations >= 4 && Accepted(cfg, o)
    case AuditValidated => Passed(cfg, o, l, 4)
    case LookupContent => Passed(cfg, o, l, 4) && cfg.maxIterations >= 5
    case LookupNear => Passed(cfg, o, l, 4) && cfg.maxIterations >= 5
    case RecordLookupError => Passed(cfg, o, l, 4) && cfg.maxIterations >= 5
    case RecordLookup(_) => Passed(cfg, o, l, 4) && cfg.maxIterations >= 5
    case PersistDuplicate(_) => Passed(cfg, o, l, 4) && cfg.maxIterations >= 5
    case LoadThreshold => Passed(cfg, o, l, 5) && cfg.maxIterations >= 6
    case RecordConfidence => Passed(cfg, o, l, 5) && cfg.maxIterations >= 6 && o.thresholdOk
    case PersistAuto => Passed(cfg, o, l, 6) && cfg.maxIterations >= 7
    case _ => Passed(cfg, o, l, 7)
  }

  function LookupAt(pc: Pc): Lookup {
    if pc.PersistDuplicate? then Found(pc.original) else NoDuplicate
  }

  function EndingAt(pc: Pc): Ending {
    match pc
    case FailFinish(_, cause, _) => Fails(cause) case FailCount(cause, _) => Fails(cause) case Requeue(cause, _) => Fails(cause)
    case AuditRetry(cause) => Fails(cause) case PersistFailed(cause, _) => Fails(cause) case AuditFailed(cause) => Fails(cause)
    case OpenTask(_, reason) => ToReview(reason) case PersistPending(_, reason) => ToReview(reason)
    case FinishReview(_, reason) => ToReview(reason) case AuditRouted(reason) => ToReview(reason)
    case _ => AutoProcess
  }

  /** Rows and ending are the verdict's. */
  ghost predicate Judged(cfg: Config, o: Outcomes, rows: seq<ToolRow>, r: nat, ending: Ending) {
    var v := VerdictOf(cfg, o, LookupIn(rows));
    v.ending == ending && rows == TraceOf(v, r, LookupIn(rows))
  }

  ghost predicate OnCourse(cfg: Config, s: Sys, w: nat)
    requires w < |s.workers|
  {
    var c := s.workers[w];
    c.At? ==>
      var rows := RunTools(s.db.tools, c.run);
      && (!Tail(c.pc) && c.pc != Load ==> c.o.loadOk)
      && (!Tail(c.pc) ==> GotPast(cfg, c.o, c.pc) && rows == Steps(c.run, Recorded(c.pc), LookupAt(c.pc)))
      && (Tail(c.pc) ==> Judged(cfg, c.o, rows, c.run, EndingAt(c.pc)))
      && ((c.pc.FailFinish? || c.pc.OpenTask? || c.pc.PersistPending? || c.pc.FinishReview?) ==>
            c.pc.its == VerdictOf(cfg, c.o, LookupIn(rows)).iterations)
  }

  /** A run that is over followed its verdict. */
  ghost predicate Concluded(cfg: Config, s: Sys, r: nat)
    requires r < |s.db.runs| && r < |s.plan|
  {
    var run, rows := s.db.runs[r], RunTools(s.db.tools, r);
    var v := VerdictOf(cfg, s.plan[r], LookupIn(rows));
    run.status != Running ==>
      && rows == TraceOf(v, r, LookupIn(rows))
      && run.iterations == v.iterations
      && (run.status == RunFailed <==> v.ending.Fails?)
  }

  ghost predicate TracesFollowVerdicts(cfg: Config, s: Sys) {
    && |s.plan| == |s.db.runs|
    && (forall w :: 0 <= w < |s.workers| ==> OnCourse(cfg, s, w))
    && (forall r :: 0 <= r < |s.db.runs| ==> Concluded(cfg, s, r))
    && (forall i :: 0 <= i < |s.db.tools| ==> s.db.tools[i].run < |s.db.runs|)
  }

  lemma GateIgnoresLookup(cfg: Config, o: Outcomes, l: Lookup, m: Lookup, k: nat)
    requires k != 5
    ensures Gate(cfg, o, l, k) == Gate(cfg, o, m, k)
  {
  }

  /** The lookup a stop at step `k` was decided with. */
  function StopLookup(pc: Pc): Lookup {
    if pc.RecordLookupError? then LookupError else LookupAt(pc)
  }

  // ----- one step of the control program -----

  lemma AdvancesEarly(cfg: Config, db: Db, c: Ctl, next: Pc)
    requires c.At? && Goto(cfg, db, c) == Some(next) && !Tail(next) && Early(c.pc)
    requires c.doc < |db.docs| && GotPast(cfg, c.o, c.pc)
    ensures GotPast(cfg, c.o, next)
  {
  }

  lemma AdvancesLate(cfg: Config, db: Db, c: Ctl, next: Pc)
    requires c.At? && Goto(cfg, db, c) == Some(next) && !Tail(next) && !Tail(c.pc) && !Early(c.pc)
    requires c.doc < |db.docs| && GotPast(cfg, c.o, c.pc)
    ensures GotPast(cfg, c.o, next)
  {
  }

  lemma AdvancesOnCourse(cfg: Config, db: Db, c: Ctl, next: Pc)
    requires c.At? && Goto(cfg, db, c) == Some(next) && !Tail(next) && !Tail(c.pc)
    requires c.doc < |db.docs| && GotPast(cfg, c.o, c.pc)
    ensures GotPast(cfg, c.o, next)
  {
    if Early(c.pc) {
      AdvancesEarly(cfg, db, c, next);
    } else {
      AdvancesLate(cfg, db, c, next);
    }
  }

  /** In the first two steps. */
  predicate Opening(pc: Pc) {
    pc.Load? || pc.RecordOcr? || pc.RecordClassify? || pc.PersistClassified? || pc.AuditClassified?
  }

  /** In the fourth. */
  predicate Validates(pc: Pc) {
    pc.RecordValidate? || pc.PersistValidated? || pc.AuditValidated?
  }

  /** The statement records the next row of the trace, or none. */
  ghost predicate InOrder(cfg: Config, db: Db, c: Ctl, next: Pc)
    requires c.At?
  {
    var stmt := Issue(cfg, db, c);
    && (stmt.RecordTool? ==>
          && Recorded(next) == Recorded(c.pc) + 1
          && ToolRow(stmt.run, stmt.tool, stmt.outcome, stmt.found) == StepRow(c.run, Recorded(next), Success, LookupAt(next)))
    && (!stmt.RecordTool? ==> Recorded(next) == Recorded(c.pc))
    && (LookupAt(next) != LookupAt(c.pc) ==> stmt.RecordTool? && Recorded(next) == 5)
  }

  lemma OpeningRecords(cfg: Config, db: Db, c: Ctl, next: Pc)
    requires c.At? && Goto(cfg, db, c) == Some(next) && !Tail(next) && Opening(c.pc)
    ensures InOrder(cfg, db, c, next)
  {
  }

  lemma ExtractionRecords(cfg: Config, db: Db, c: Ctl, next: Pc)
    requires c.At? && Goto(cfg, db, c) == Some(next) && !Tail(next) && Early(c.pc) && !Opening(c.pc)
    ensures InOrder(cfg, db, c, next)
  {
  }

  lemma LookupsRecord(cfg: Config, db: Db, c: Ctl, next: Pc)
    requires c.At? && Goto(cfg, db, c) == Some(next) && LooksUp(c.pc)
    ensures InOrder(cfg, db, c, next)
  {
  }

  lemma ValidationRecords(cfg: Config, db: Db, c: Ctl, next: Pc)
    requires c.At? && Goto(cfg, db, c) == Some(next) && !Tail(next) && Validates(c.pc)
    ensures InOrder(cfg, db, c, next)
  {
  }

  lemma GatesRecord(cfg: Config, db: Db, c: Ctl, next: Pc)
    requires c.At? && Goto(cfg, db, c) == Some(next) && !Tail(next) && !Tail(c.pc) && !Early(c.pc) && !LooksUp(c.pc) && !Validates(c.pc)
    ensures InOrder(cfg, db, c, next)
  {
  }

  lemma RecordsInOrder(cfg: Config, db: Db, c: Ctl, next: Pc)
    requires c.At? && Goto(cfg, db, c) == Some(next) && !Tail(next) && !Tail(c.pc)
    ensures InOrder(cfg, db, c, next)
  {
    if Opening(c.pc) {
      OpeningRecords(cfg, db, c, next);
    } else if Early(c.pc) {
      ExtractionRecords(cfg, db, c, next);
    } else if Validates(c.pc) {
      ValidationRecords(cfg, db, c, next);
    } else if LooksUp(c.pc) {
      LookupsRecord(cfg, db, c, next);
    } else {
      GatesRecord(cfg, db, c, next);
    }
  }

  /** Entering `fail` or `routeToReview` from the pipeline: the gate of the
      current step is the one that stops the run, and the rows recorded so far
      are those of a run stopped there. */
  ghost predicate GateStops(cfg: Config, db: Db, c: Ctl, next: Pc)
    requires c.At?
  {
    && (next.FailFinish? || next.OpenTask?)
    && 1 <= next.its <= 7 && Passed(cfg, c.o, NoDuplicate, next.its - 1)
    && var l := StopLookup(c.pc);
    var stop := Gate(cfg, c.o, l, next.its);
    && stop.Some? && stop.value.ending == EndingAt(next)
    && RowsAfter(cfg, db, c) == TraceOf(Verdict(next.its, EndingAt(next), stop.value.tool), c.run, l)
    && (l.LookupError? ==> next.its == 5 && stop.value.tool == Some(ToolFailed))
    && (l.Found? ==> next.its == 5 && stop.value.tool == Some(Success))
  }

  lemma OpeningStops(cfg: Config, db: Db, c: Ctl, next: Pc)
    requires c.At? && Goto(cfg, db, c) == Some(next) && Tail(next) && Opening(c.pc) && c.pc != Load
    requires GotPast(cfg, c.o, c.pc)
    ensures GateStops(cfg, db, c, next)
  {
  }

  /** The extraction has answered and its rows are stored. */
  predicate Stored(pc: Pc) {
    pc.RecordExtract? || pc.PersistExtracted? || pc.AuditExtracted? || pc.PersistHash?
  }

  lemma ExtractionStops(cfg: Config, db: Db, c: Ctl, next: Pc)
    requires c.At? && Goto(cfg, db, c) == Some(next) && Tail(next) && Early(c.pc) && !Opening(c.pc) && !Stored(c.pc)
    requires GotPast(cfg, c.o, c.pc)
    ensures GateStops(cfg, db, c, next)
  {
  }

  lemma StoredStops(cfg: Config, db: Db, c: Ctl, next: Pc)
    requires c.At? && Goto(cfg, db, c) == Some(next) && Tail(next) && Stored(c.pc)
    requires GotPast(cfg, c.o, c.pc)
    ensures GateStops(cfg, db, c, next)
  {
  }

  lemma ValidationStops(cfg: Config, db: Db, c: Ctl, next: Pc)
    requires c.At? && Goto(cfg, db, c) == Some(next) && Tail(next) && Validates(c.pc)
    requires GotPast(cfg, c.o, c.pc)
    ensures GateStops(cfg, db, c, next)
  {
  }

  /** The lookups have an answer. */
  predicate LookedUp(pc: Pc) {
    pc.RecordLookupError? || pc.RecordLookup? || pc.PersistDuplicate?
  }

  lemma LookupsStop(cfg: Config, db: Db, c: Ctl, next: Pc)
    requires c.At? && Goto(cfg, db, c) == Some(next) && Tail(next) && LookedUp(c.pc)
    requires GotPast(cfg, c.o, c.pc)
    ensures GateStops(cfg, db, c, next)
  {
    EarlyStepsIgnoreLookup(c.run, 4, LookupError, NoDuplicate);
  }

  lemma LookupsGoOn(cfg: Config, db: Db, c: Ctl, next: Pc)
    requires c.At? && Goto(cfg, db, c) == Some(next) && LooksUp(c.pc)
    ensures !Tail(next)
  {
  }

  lemma GatesStop(cfg: Config, db: Db, c: Ctl, next: Pc)
    requires c.At? && Goto(cfg, db, c) == Some(next) && Tail(next) && !Tail(c.pc) && !Early(c.pc) && !Validates(c.pc)
    requires !LooksUp(c.pc) && !LookedUp(c.pc)
    requires GotPast(cfg, c.o, c.pc)
    ensures GateStops(cfg, db, c, next)
  {
  }

  lemma StopIsGate(cfg: Config, db: Db, c: Ctl, next: Pc)
    requires c.At? && Goto(cfg, db, c) == Some(next) && Tail(next) && !Tail(c.pc) && c.pc != Load
    requires GotPast(cfg, c.o, c.pc)
    ensures GateStops(cfg, db, c, next)
  {
    if Opening(c.pc) {
      OpeningStops(cfg, db, c, next);
    } else if Stored(c.pc) {
      StoredStops(cfg, db, c, next);
    } else if Early(c.pc) {
      ExtractionStops(cfg, db, c, next);
    } else if Validates(c.pc) {
      ValidationStops(cfg, db, c, next);
    } else if LookedUp(c.pc) {
      LookupsStop(cfg, db, c, next);
    } else if LooksUp(c.pc) {
      LookupsGoOn(cfg, db, c, next);
    } else {
      GatesStop(cfg, db, c, next);
    }
  }

  /** The run's tool rows after this statement, for a worker still on course. */
  ghost function RowsAfter(cfg: Config, db: Db, c: Ctl): seq<ToolRow>
    requires c.At?
  {
    var stmt := Issue(cfg, db, c);
    Steps(c.run, Recorded(c.pc), LookupAt(c.pc))
    + if stmt.RecordTool? then [ToolRow(stmt.run, stmt.tool, stmt.outcome, stmt.found)] else []
  }

  lemma {:induction false} PassedIgnoresLookup(cfg: Config, o: Outcomes, l: Lookup, m: Lookup, k: nat)
    requires k < 5
    ensures Passed(cfg, o, l, k) == Passed(cfg, o, m, k)
  {
    if k > 0 {
      GateIgnoresLookup(cfg, o, l, m, k);
      PassedIgnoresLookup(cfg, o, l, m, k - 1);
    }
  }

  /** A trace reports the lookup it was made with. */
  lemma TraceReportsLookup(v: Verdict, r: nat, l: Lookup)
    requires v.iterations <= 7
    requires !l.NoDuplicate? ==> v.iterations == 5 && v.tool == Some(if l.Found? then Success else ToolFailed)
    requires l.NoDuplicate? && v.iterations == 5 ==> v.tool.None?
    ensures LookupIn(TraceOf(v, r, l)) == l
  {
    if v.iterations > 0 {
      StepsAre(r, v.iterations - 1, l);
    }
  }

  lemma EntersTailJudged(cfg: Config, db: Db, c: Ctl, next: Pc)
    requires c.At? && Goto(cfg, db, c) == Some(next) && Tail(next) && !Tail(c.pc)
    requires c.doc < |db.docs| && GotPast(cfg, c.o, c.pc) && (c.pc != Load ==> c.o.loadOk)
    ensures next.FailFinish? || next.OpenTask?
    ensures Judged(cfg, c.o, RowsAfter(cfg, db, c), c.run, EndingAt(next))
    ensures next.its == VerdictOf(cfg, c.o, LookupIn(RowsAfter(cfg, db, c))).iterations
  {
    if c.pc == Load {
      assert RowsAfter(cfg, db, c) == [];
      if c.o.loadOk {
        assert Gate(cfg, c.o, NoDuplicate, 1) == Some(Stop(Fails(MaxIterationsExceeded), None));
        assert FirstStop(cfg, c.o, NoDuplicate, 1) == Verdict(1, Fails(MaxIterationsExceeded), None);
      }
    } else {
      StopIsGate(cfg, db, c, next);
      var l := StopLookup(c.pc);
      var stop := Gate(cfg, c.o, l, next.its).value;
      var v := Verdict(next.its, stop.ending, stop.tool);
      if l != NoDuplicate {
        PassedIgnoresLookup(cfg, c.o, l, NoDuplicate, next.its - 1);
      }
      StopsAt(cfg, c.o, l, next.its - 1);
      TraceReportsLookup(v, c.run, l);
    }
  }

  lemma StaysInTail(cfg: Config, db: Db, c: Ctl)
    requires c.At? && Tail(c.pc)
    ensures var next, stmt := Goto(cfg, db, c), Issue(cfg, db, c);
      && !stmt.RecordTool?
      && (stmt.Finish? ==> (c.pc.FailFinish? || c.pc.FinishReview?) && stmt.iterations == c.pc.its)
      && (next.Some? ==> Tail(next.value) && EndingAt(next.value) == EndingAt(c.pc))
      && (next.Some? && (next.value.FailFinish? || next.value.OpenTask? || next.value.PersistPending? || next.value.FinishReview?) ==>
            (c.pc.OpenTask? || c.pc.PersistPending?) && next.value.its == c.pc.its)
      && ((c.pc.FailFinish? || c.pc.FailCount? || c.pc.Requeue? || c.pc.AuditRetry? || c.pc.PersistFailed? || c.pc.AuditFailed?) <==> EndingAt(c.pc).Fails?)
  {
  }

  lemma MoverOnCourse(cfg: Config, s: Sys, w: nat)
    requires Owned(cfg, s) && w < |s.workers| && s.workers[w].At? && OnCourse(cfg, s, w)
    ensures OnCourse(cfg, DoAdvance(cfg, s, w), w)
  {
    var c := s.workers[w];
    var stmt, next := Issue(cfg, s.db, c), Goto(cfg, s.db, c);
    assert Owns(cfg, s, w);
    OwnStatement(cfg, s.db, c);
    ExecFrame(s.db, stmt);
    if stmt.RecordTool? {
      RunToolsAppend(s.db.tools, ToolRow(stmt.run, stmt.tool, stmt.outcome, stmt.found), c.run);
    }
    if next.Some? {
      if Tail(c.pc) {
        StaysInTail(cfg, s.db, c);
      } else {
        assert RunTools(Exec(s.db, stmt).tools, c.run) == RowsAfter(cfg, s.db, c);
        if Tail(next.value) {
          EntersTailJudged(cfg, s.db, c, next.value);
        } else {
          StraightOn(cfg, s.db, c, next.value);
        }
      }
    }
  }

  lemma StraightOn(cfg: Config, db: Db, c: Ctl, next: Pc)
    requires c.At? && Goto(cfg, db, c) == Some(next) && !Tail(next) && !Tail(c.pc)
    requires c.doc < |db.docs| && GotPast(cfg, c.o, c.pc) && (c.pc != Load ==> c.o.loadOk)
    ensures GotPast(cfg, c.o, next) && c.o.loadOk
    ensures RowsAfter(cfg, db, c) == Steps(c.run, Recorded(next), LookupAt(next))
  {
    AdvancesOnCourse(cfg, db, c, next);
    RecordsInOrder(cfg, db, c, next);
    if LookupAt(next) != LookupAt(c.pc) {
      EarlyStepsIgnoreLookup(c.run, 4, LookupAt(next), LookupAt(c.pc));
    }
  }

  lemma OthersOnCourse(cfg: Config, s: Sys, w: nat, v: nat)
    requires Owned(cfg, s) && w < |s.workers| && s.workers[w].At? && v < |s.workers| && v != w && OnCourse(cfg, s, v)
    ensures OnCourse(cfg, DoAdvance(cfg, s, w), v)
  {
    var stmt := Issue(cfg, s.db, s.workers[w]);
    assert Owns(cfg, s, w) && Owns(cfg, s, v);
    OwnStatement(cfg, s.db, s.workers[w]);
    ExecFrame(s.db, stmt);
    if stmt.RecordTool? && s.workers[v].At? {
      RunToolsAppend(s.db.tools, ToolRow(stmt.run, stmt.tool, stmt.outcome, stmt.found), s.workers[v].run);
    }
  }

  lemma ConclusionKept(cfg: Config, s: Sys, w: nat, r: nat)
    requires Owned(cfg, s) && w < |s.workers| && s.workers[w].At?
    requires r < |s.db.runs| && Concluded(cfg, s, r)
    requires !(Issue(cfg, s.db, s.workers[w]).Finish? && s.workers[w].run == r)
    ensures |DoAdvance(cfg, s, w).db.runs| == |s.db.runs|
    ensures Concluded(cfg, DoAdvance(cfg, s, w), r)
  {
    var c := s.workers[w];
    var stmt := Issue(cfg, s.db, c);
    assert Owns(cfg, s, w);
    OwnStatement(cfg, s.db, c);
    ExecFrame(s.db, stmt);
    if stmt.RecordTool? {
      RunToolsAppend(s.db.tools, ToolRow(stmt.run, stmt.tool, stmt.outcome, stmt.found), r);
      RecordsWhileLive(cfg, s.db, c);
    }
  }

  /** Finishing a run writes its verdict. */
  lemma FinishWritesVerdict(cfg: Config, s: Sys, w: nat)
    requires Owned(cfg, s) && w < |s.workers| && s.workers[w].At? && OnCourse(cfg, s, w)
    requires Issue(cfg, s.db, s.workers[w]).Finish?
    ensures var c := s.workers[w];
      var stmt, rows := Issue(cfg, s.db, c), RunTools(s.db.tools, c.run);
      var v := VerdictOf(cfg, c.o, LookupIn(rows));
      && stmt.run == c.run && rows == TraceOf(v, c.run, LookupIn(rows)) && stmt.iterations == v.iterations
      && stmt.result != Running && (stmt.result == RunFailed <==> v.ending.Fails?)
  {
    var c := s.workers[w];
    OwnStatement(cfg, s.db, c);
    FinishEndsLife(cfg, s.db, c);
    if Tail(c.pc) {
      StaysInTail(cfg, s.db, c);
    } else {
      FinishesAuto(cfg, s, w);
    }
  }

  lemma RunsConclude(cfg: Config, s: Sys, w: nat, r: nat)
    requires Owned(cfg, s) && w < |s.workers| && s.workers[w].At? && OnCourse(cfg, s, w)
    requires r < |s.db.runs| && Concluded(cfg, s, r)
    ensures |DoAdvance(cfg, s, w).db.runs| == |s.db.runs|
    ensures Concluded(cfg, DoAdvance(cfg, s, w), r)
  {
    if Issue(cfg, s.db, s.workers[w]).Finish? && s.workers[w].run == r {
      assert Owns(cfg, s, w);
      ExecFrame(s.db, Issue(cfg, s.db, s.workers[w]));
      FinishWritesVerdict(cfg, s, w);
    } else {
      ConclusionKept(cfg, s, w, r);
    }
  }

  lemma RecordsWhileLive(cfg: Config, db: Db, c: Ctl)
    requires c.At? && Issue(cfg, db, c).RecordTool?
    ensures Live(c.pc)
  {
  }

  lemma FinishesAuto(cfg: Config, s: Sys, w: nat)
    requires w < |s.workers| && s.workers[w].At? && OnCourse(cfg, s, w)
    requires !Tail(s.workers[w].pc) && Issue(cfg, s.db, s.workers[w]).Finish?
    ensures var c := s.workers[w];
      var rows := RunTools(s.db.tools, c.run);
      && Issue(cfg, s.db, c) == Finish(c.run, Completed, 7)
      && VerdictOf(cfg, c.o, LookupIn(rows)) == Verdict(7, AutoProcess, Some(Success))
      && rows == TraceOf(Verdict(7, AutoProcess, Some(Success)), c.run, LookupIn(rows))
  {
    var c := s.workers[w];
    assert c.pc == FinishAuto;
    StepsAre(c.run, 7, NoDuplicate);
    StopsAt(cfg, c.o, NoDuplicate, 7);
  }

  lemma TracesAfterClaim(cfg: Config, s: Sys, w: nat, o: Outcomes)
    requires Owned(cfg, s) && TracesFollowVerdicts(cfg, s) && Enabled(cfg, s, Claim(w, o))
    ensures TracesFollowVerdicts(cfg, DoClaim(s, w, o, Claimed(s)))
  {
    var s' := DoClaim(s, w, o, Claimed(s));
    NoTools(s.db.tools, |s.db.runs|);
    assert Steps(|s.db.runs|, 0, NoDuplicate) == [];
    forall v | 0 <= v < |s'.workers| ensures OnCourse(cfg, s', v) {
      assert OnCourse(cfg, s, v);
    }
    forall r | 0 <= r < |s'.db.runs| ensures Concluded(cfg, s', r) {
      if r < |s.db.runs| { assert Concluded(cfg, s, r); }
    }
  }

  lemma {:induction false} TracesAfter(cfg: Config, s: Sys, a: Act)
    requires Owned(cfg, s) && TracesFollowVerdicts(cfg, s)
    ensures TracesFollowVerdicts(cfg, Next(cfg, s, a))
  {
    if Enabled(cfg, s, a) {
      var s' := Next(cfg, s, a);
      match a
      case Upload(_, _) => TracesFramed(cfg, s, s');
      case Claim(w, o) => TracesAfterClaim(cfg, s, w, o);
      case Advance(w) =>
        assert OnCourse(cfg, s, w) && Owns(cfg, s, w);
        ExecFrame(s.db, Issue(cfg, s.db, s.workers[w]));
        OwnStatement(cfg, s.db, s.workers[w]);
        MoverOnCourse(cfg, s, w);
        forall v | 0 <= v < |s'.workers| ensures OnCourse(cfg, s', v) {
          assert OnCourse(cfg, s, v);
          if v != w { OthersOnCourse(cfg, s, w, v); }
        }
        forall r | 0 <= r < |s'.db.runs| ensures Concluded(cfg, s', r) {
          assert Concluded(cfg, s, r);
          RunsConclude(cfg, s, w, r);
        }
      case OpenReview(_, _) => TracesFramed(cfg, s, s');
      case Review(i) => DeskFrame(s, i); TracesFramed(cfg, s, s');
    }
  }

  lemma TracesFramed(cfg: Config, s: Sys, s': Sys)
    requires TracesFollowVerdicts(cfg, s)
    requires s'.workers == s.workers && s'.plan == s.plan && s'.db.runs == s.db.runs && s'.db.tools == s.db.tools
    ensures TracesFollowVerdicts(cfg, s')
  {
    forall v | 0 <= v < |s'.workers| ensures OnCourse(cfg, s', v) {
      assert OnCourse(cfg, s, v);
    }
    forall r | 0 <= r < |s'.db.runs| ensures Concluded(cfg, s', r) {
      assert Concluded(cfg, s, r);
    }
  }

  // ----- the audit log names the same verdict -----

  /** The ending an audit entry reports, for the entries that conclude a run. */
  function EndingReported(a: Action): Option<Ending> {
    match a
    case DocAutoProcessed => Some(AutoProcess)
    case DocRouted(why) => Some(ToReview(why))
    case RunRetrying(cause) => Some(Fails(cause))
    case RunFailedFor(cause) => Some(Fails(cause))
    case _ => None
  }

  ghost predicate EntryFollowsVerdict(cfg: Config, s: Sys, e: Entry) {
    e.run.Some? && EndingReported(e.action).Some? ==>
      && e.run.value < |s.db.runs| && e.run.value < |s.plan|
      && s.db.runs[e.run.value].status != Running
      && Some(VerdictOf(cfg, s.plan[e.run.value], LookupIn(RunTools(s.db.tools, e.run.value))).ending) == EndingReported(e.action)
  }

  ghost predicate AuditFollowsVerdicts(cfg: Config, s: Sys) {
    forall i :: 0 <= i < |s.db.audit| ==> EntryFollowsVerdict(cfg, s, s.db.audit[i])
  }

  lemma EntryWritten(cfg: Config, s: Sys, w: nat)
    requires Owned(cfg, s) && w < |s.workers| && s.workers[w].At? && OnCourse(cfg, s, w)
    requires Issue(cfg, s.db, s.workers[w]).Audit?
    ensures EntryFollowsVerdict(cfg, s, Issue(cfg, s.db, s.workers[w]).entry)
  {
    var c := s.workers[w];
    assert Owns(cfg, s, w);
    if c.pc.AuditAuto? {
      StepsAre(c.run, 7, NoDuplicate);
      StopsAt(cfg, c.o, NoDuplicate, 7);
    }
  }

  lemma EntryKept(cfg: Config, s: Sys, s': Sys, e: Entry)
    requires EntryFollowsVerdict(cfg, s, e)
    requires |s.db.runs| <= |s'.db.runs| && s.plan <= s'.plan
    requires forall r :: 0 <= r < |s.db.runs| && s.db.runs[r].status != Running ==>
      s'.db.runs[r] == s.db.runs[r] && RunTools(s'.db.tools, r) == RunTools(s.db.tools, r)
    ensures EntryFollowsVerdict(cfg, s', e)
  {
  }

  /** A finished run's row and tool rows never change again. */
  lemma FinishedRunsFrozen(cfg: Config, s: Sys, w: nat, r: nat)
    requires Owned(cfg, s) && w < |s.workers| && s.workers[w].At?
    requires r < |s.db.runs| && s.db.runs[r].status != Running
    ensures var s' := DoAdvance(cfg, s, w);
      && |s'.db.runs| == |s.db.runs|
      && s'.db.runs[r] == s.db.runs[r] && RunTools(s'.db.tools, r) == RunTools(s.db.tools, r)
  {
    var c := s.workers[w];
    var stmt := Issue(cfg, s.db, c);
    assert Owns(cfg, s, w);
    OwnStatement(cfg, s.db, c);
    FinishEndsLife(cfg, s.db, c);
    ExecFrame(s.db, stmt);
    if stmt.RecordTool? {
      RunToolsAppend(s.db.tools, ToolRow(stmt.run, stmt.tool, stmt.outcome, stmt.found), r);
      RecordsWhileLive(cfg, s.db, c);
    }
  }

  lemma {:induction false} AuditAfter(cfg: Config, s: Sys, a: Act)
    requires Owned(cfg, s) && TracesFollowVerdicts(cfg, s) && AuditFollowsVerdicts(cfg, s)
    ensures AuditFollowsVerdicts(cfg, Next(cfg, s, a))
  {
    if Enabled(cfg, s, a) {
      var s' := Next(cfg, s, a);
      if a.Advance? {
        assert Owns(cfg, s, a.w) && OnCourse(cfg, s, a.w);
        ExecFrame(s.db, Issue(cfg, s.db, s.workers[a.w]));
        forall r | 0 <= r < |s.db.runs| && s.db.runs[r].status != Running
          ensures s'.db.runs[r] == s.db.runs[r] && RunTools(s'.db.tools, r) == RunTools(s.db.tools, r)
        {
          FinishedRunsFrozen(cfg, s, a.w, r);
        }
        if Issue(cfg, s.db, s.workers[a.w]).Audit? {
          EntryWritten(cfg, s, a.w);
        }
      }
      if a.Review? {
        DeskFrame(s, a.i);
      }
      forall i | 0 <= i < |s'.db.audit| ensures EntryFollowsVerdict(cfg, s', s'.db.audit[i]) {
        if i < |s.db.audit| {
          assert s'.db.audit[i] == s.db.audit[i];
          EntryKept(cfg, s, s', s.db.audit[i]);
        } else if a.Advance? {
          EntryKept(cfg, s, s', Issue(cfg, s.db, s.workers[a.w]).entry);
        }
      }
    }
  }

  // ----- what auto-processing takes -----

  /** Some classification can be stored: there is a type other than "unknown". */
  ghost predicate KnowsTypes(cfg: Config) {
    exists t :: t in cfg.types && t != UNKNOWN_TYPE
  }

  /** Some run can get past the classification, and the cap lets it finish. */
  ghost predicate AutoProcesses(cfg: Config) {
    cfg.maxIterations >= 7 && KnowsTypes(cfg)
  }

  ghost predicate AutoOnlyIfPossible(cfg: Config, s: Sys) {
    forall d :: 0 <= d < |s.db.docs| && s.db.docs[d].status == AutoProcessed ==> AutoProcesses(cfg)
  }

  lemma MarksAutoOnCourse(cfg: Config, s: Sys, w: nat)
    requires w < |s.workers| && s.workers[w].At? && OnCourse(cfg, s, w)
    ensures var stmt := Issue(cfg, s.db, s.workers[w]);
      SetsStatus(stmt) && StatusWritten(stmt) == AutoProcessed ==> AutoProcesses(cfg)
  {
    var c := s.workers[w];
    MarksAuto(cfg, s.db, c);
    if c.pc.PersistAuto? {
      var l := NoDuplicate;
      assert Passed(cfg, c.o, l, 6) && Passed(cfg, c.o, l, 5) && Passed(cfg, c.o, l, 4) && Passed(cfg, c.o, l, 3) && Passed(cfg, c.o, l, 2);
      assert Gate(cfg, c.o, l, 2).None?;
    }
  }

  lemma MarksAuto(cfg: Config, db: Db, c: Ctl)
    requires c.At?
    ensures var stmt := Issue(cfg, db, c); SetsStatus(stmt) && StatusWritten(stmt) == AutoProcessed ==> c.pc.PersistAuto?
  {
  }

  lemma {:induction false} AutoOnlyIfPossibleAfter(cfg: Config, s: Sys, a: Act)
    requires Owned(cfg, s) && TracesFollowVerdicts(cfg, s) && AutoOnlyIfPossible(cfg, s)
    ensures AutoOnlyIfPossible(cfg, Next(cfg, s, a))
  {
    if Enabled(cfg, s, a) {
      if a.Advance? {
        assert OnCourse(cfg, s, a.w);
        MarksAutoOnCourse(cfg, s, a.w);
        ExecFrame(s.db, Issue(cfg, s.db, s.workers[a.w]));
      } else if a.Review? {
        DeskFrame(s, a.i);
      }
    }
  }

  // ----- what a verdict is like -----

  lemma {:induction false} FirstStopWithin(cfg: Config, o: Outcomes, l: Lookup, k: nat)
    requires 1 <= k <= 8 && Max(cfg.maxIterations, 0) + 1 >= k
    ensures var v := FirstStop(cfg, o, l, k);
      && k <= v.iterations + (if k == 8 then 1 else 0) && v.iterations <= Min(7, Max(cfg.maxIterations, 0) + 1)
      && (v.ending == AutoProcess ==> cfg.maxIterations >= 7)
      && (v.ending == Fails(MaxIterationsExceeded) <==> v.iterations > cfg.maxIterations)
    decreases 8 - k
  {
    if k < 8 && Gate(cfg, o, l, k).None? {
      FirstStopWithin(cfg, o, l, k + 1);
    }
  }

  /** The iteration cap: a run counts at most min(7, max(MaxIterations, 0) + 1)
      iterations; below 7 it never auto-processes, from 7 on the cap never stops it. */
  lemma {:induction false} CapLaw(cfg: Config, o: Outcomes, l: Lookup)
    ensures var v := VerdictOf(cfg, o, l);
      && v.iterations <= Min(7, Max(cfg.maxIterations, 0) + 1)
      && (v.ending == AutoProcess ==> cfg.maxIterations >= 7)
      && (v.ending == Fails(MaxIterationsExceeded) <==> o.loadOk && v.iterations > cfg.maxIterations)
      && (cfg.maxIterations >= 7 ==> v.ending != Fails(MaxIterationsExceeded))
  {
    FirstStopWithin(cfg, o, l, 1);
  }

  /** The tool trace is a prefix of the seven tools in order, as long as the
      iteration count or one shorter, and all but its last row succeeded. */
  lemma {:induction false} TraceLaw(cfg: Config, o: Outcomes, l: Lookup, r: nat)
    ensures var v := VerdictOf(cfg, o, l);
      var t := TraceOf(v, r, l);
      && (|t| == v.iterations || |t| == v.iterations - 1) && |t| <= 7
      && (forall i :: 0 <= i < |t| ==> t[i].run == r && t[i].tool == ToolAt(i + 1))
      && (forall i :: 0 <= i < |t| - 1 ==> t[i].status == Success)
      && (v.ending == AutoProcess ==> |t| == 7 && t[6].status == Success)
  {
    var v := VerdictOf(cfg, o, l);
    CapLaw(cfg, o, l);
    if v.iterations > 0 {
      StepsAre(r, v.iterations - 1, l);
    }
    if v.ending == AutoProcess {
      AutoIsSeven(cfg, o, l, 1);
    }
  }

  lemma {:induction false} AutoIsSeven(cfg: Config, o: Outcomes, l: Lookup, k: nat)
    requires 1 <= k <= 8 && FirstStop(cfg, o, l, k).ending == AutoProcess
    ensures FirstStop(cfg, o, l, k) == Verdict(7, AutoProcess, Some(Success))
    decreases 8 - k
  {
    if k < 8 {
      AutoIsSeven(cfg, o, l, k + 1);
    }
  }
}
