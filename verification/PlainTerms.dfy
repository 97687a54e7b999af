/** One run of the pipeline in plain terms, step by step and column by column. */
module PlainTerms {
  import opened Prelude
  import opened Domain
  import opened Tables
  import opened Pipeline
  import opened SoloRun
  import Confidence
  import Gates
  import KeyFields
  import Outcome
  import Sorting
  import Validation

  // ----- what the steps ask -----

  /** Every field of the type's schema has a value its schema type accepts. */
  ghost predicate Fits(ty: DocType, fields: map<string, Field>) {
    forall n :: n in ty.schema ==> n in fields && FitsType(ty.schema[n], fields[n].value)
  }

  ghost predicate FitsType(fieldType: string, v: Value) {
    && v != Null
    && (fieldType == "number" ==> v.Num? && v.n >= 0.0)
    && (fieldType == "date" ==>
          v.Text? && |v.s| == 10 && forall k :: 0 <= k < 10 ==> if k == 4 || k == 7 then v.s[k] == '-' else '0' <= v.s[k] <= '9')
  }

  /** The mean confidence is below the threshold of the document's own type. */
  ghost predicate Low(cfg: Config, o: Outcomes) {
    && o.docType in cfg.types && (forall n :: n in o.order ==> n in o.fields)
    && Confidence.Mean(o.confidence, o.order, o.fields) < cfg.types[o.docType].threshold
  }

  /** The document was loaded and the first `k` steps went through. */
  ghost predicate Clears(cfg: Config, o: Outcomes, l: Gates.Lookup, k: nat) {
    && o.loadOk && (k >= 1 ==> k <= cfg.maxIterations)
    && (k >= 1 ==> o.ocr == Answered)
    && (k >= 2 ==> o.classify == Answered && o.docType != "unknown" && o.docType in cfg.types && o.classifiedOk)
    && (k >= 3 ==> o.schemaOk && o.extract == Answered && (o.insertOk || o.order == []) && o.extractedOk)
    && (k >= 4 ==> Fits(cfg.types[o.docType], o.fields) && o.validatedOk)
    && (k >= 5 ==> l.NoDuplicate?)
    && (k >= 6 ==> o.thresholdOk && !Low(cfg, o))
    && (k >= 7 ==> o.autoOk)
  }

  /** The run comes to step `k`. */
  ghost predicate Enters(cfg: Config, o: Outcomes, l: Gates.Lookup, k: nat) {
    1 <= k <= cfg.maxIterations && Clears(cfg, o, l, k - 1)
  }

  ghost predicate SentFor(cfg: Config, o: Outcomes, l: Gates.Lookup, reason: ReviewReason) {
    match reason
    case UnknownType => Enters(cfg, o, l, 2) && o.classify == Answered && o.docType == "unknown"
    case ValidationFailed => Enters(cfg, o, l, 4) && !Fits(cfg.types[o.docType], o.fields)
    case Duplicate => Enters(cfg, o, l, 5) && l.Found?
    case LowConfidence => Enters(cfg, o, l, 6) && o.thresholdOk && Low(cfg, o)
  }

  ghost predicate FailsFor(cfg: Config, o: Outcomes, l: Gates.Lookup, cause: FailReason) {
    match cause
    case LoadDocumentFailed => !o.loadOk
    case MaxIterationsExceeded => exists k: nat :: k < 7 && cfg.maxIterations < k + 1 && Clears(cfg, o, l, k)
    case OcrFailed => Enters(cfg, o, l, 1) && o.ocr == Errored
    case OcrTimeout => Enters(cfg, o, l, 1) && o.ocr == TimedOut
    case ClassificationFailed => Enters(cfg, o, l, 2) && o.classify == Errored
    case ClassificationTimeout => Enters(cfg, o, l, 2) && o.classify == TimedOut
    case PersistClassificationFailed =>
      Enters(cfg, o, l, 2) && o.classify == Answered && o.docType != "unknown" && (o.docType !in cfg.types || !o.classifiedOk)
    case LoadFieldSchemaFailed => Enters(cfg, o, l, 3) && !o.schemaOk
    case ExtractionFailed => Enters(cfg, o, l, 3) && o.schemaOk && o.extract == Errored
    case ExtractionTimeout => Enters(cfg, o, l, 3) && o.schemaOk && o.extract == TimedOut
    case PersistExtractedFieldsFailed => Enters(cfg, o, l, 3) && o.schemaOk && o.extract == Answered && !o.insertOk && o.order != []
    case PersistExtractedStatusFailed => Enters(cfg, o, l, 3) && RowsStored(o) && !o.extractedOk
    case PersistValidatedStatusFailed => Enters(cfg, o, l, 4) && Fits(cfg.types[o.docType], o.fields) && !o.validatedOk
    case DuplicateCheckFailed => Enters(cfg, o, l, 5) && l.LookupError?
    case LoadThresholdFailed => Enters(cfg, o, l, 6) && !o.thresholdOk
    case PersistAutoProcessedFailed => Enters(cfg, o, l, 7) && !o.autoOk
  }

  /** Step 3 gets as far as storing the field rows. */
  ghost predicate RowsStored(o: Outcomes) {
    o.schemaOk && o.extract == Answered && (o.insertOk || o.order == [])
  }

  ghost predicate EndsAs(cfg: Config, o: Outcomes, l: Gates.Lookup, e: Gates.Ending) {
    match e
    case AutoProcess => Clears(cfg, o, l, 7)
    case ToReview(reason) => SentFor(cfg, o, l, reason)
    case Fails(cause) => FailsFor(cfg, o, l, cause)
  }

  /** The iteration count: the step that did not go through. */
  ghost predicate Counts(cfg: Config, o: Outcomes, l: Gates.Lookup, its: nat) {
    if !o.loadOk then its == 0
    else if Clears(cfg, o, l, 7) then its == 7
    else its >= 1 && Clears(cfg, o, l, its - 1) && !Clears(cfg, o, l, its)
  }

  // ----- that this is what the gates decide -----

  lemma AcceptedMeans(cfg: Config, o: Outcomes)
    ensures Accepted(cfg, o) <==> o.docType in cfg.types && Fits(cfg.types[o.docType], o.fields)
  {
    if o.docType in cfg.types {
      var schema := cfg.types[o.docType].schema;
      forall n | n in schema
        ensures n in o.fields ==> (Validation.Accepts(schema[n], o.fields[n].value) <==> FitsType(schema[n], o.fields[n].value))
      {
      }
    }
  }

  lemma OrderIsNamed(cfg: Config, o: Outcomes)
    requires WellFormed(cfg, o)
    ensures forall n :: n in o.order ==> n in o.fields
  {
    forall n | n in o.order ensures n in o.fields {
      assert n in Sorting.Names(o.order);
    }
  }

  lemma LowMeans(cfg: Config, o: Outcomes)
    requires WellFormed(cfg, o) && o.docType in cfg.types
    ensures Low(cfg, o) <==> Overall(o) < Threshold(cfg, o)
  {
    OrderIsNamed(cfg, o);
  }

  /** One step, given that the ones before it went through. */
  lemma StepMeans(cfg: Config, o: Outcomes, l: Gates.Lookup, k: nat)
    requires WellFormed(cfg, o) && 1 <= k <= 7 && Clears(cfg, o, l, k - 1)
    ensures Clears(cfg, o, l, k) <==> Gates.Gate(cfg, o, l, k).None?
  {
    AcceptedMeans(cfg, o);
    if k >= 3 {
      LowMeans(cfg, o);
    }
  }

  lemma {:induction false} ClearsMeans(cfg: Config, o: Outcomes, l: Gates.Lookup, k: nat)
    requires WellFormed(cfg, o) && k <= 7
    ensures Clears(cfg, o, l, k) <==> o.loadOk && Gates.Passed(cfg, o, l, k)
  {
    if k > 0 {
      ClearsMeans(cfg, o, l, k - 1);
      if Clears(cfg, o, l, k - 1) {
        StepMeans(cfg, o, l, k);
      }
    }
  }

  /** The step that stops the run decides how it ends. */
  lemma StopMeans(cfg: Config, o: Outcomes, l: Gates.Lookup, k: nat)
    requires WellFormed(cfg, o) && 1 <= k <= 7 && Clears(cfg, o, l, k - 1) && !Clears(cfg, o, l, k)
    ensures var stop := Gates.Gate(cfg, o, l, k); stop.Some? && EndsAs(cfg, o, l, stop.value.ending)
  {
    StepMeans(cfg, o, l, k);
    if k > cfg.maxIterations {
      assert Clears(cfg, o, l, k - 1) && cfg.maxIterations < (k - 1) + 1;
    } else if k <= 3 {
      EarlyStopMeans(cfg, o, l, k);
    } else {
      LateStopMeans(cfg, o, l, k);
    }
  }

  lemma EarlyStopMeans(cfg: Config, o: Outcomes, l: Gates.Lookup, k: nat)
    requires 1 <= k <= 3 && k <= cfg.maxIterations && Clears(cfg, o, l, k - 1) && Gates.Gate(cfg, o, l, k).Some?
    ensures EndsAs(cfg, o, l, Gates.Gate(cfg, o, l, k).value.ending)
  {
  }

  lemma LateStopMeans(cfg: Config, o: Outcomes, l: Gates.Lookup, k: nat)
    requires WellFormed(cfg, o) && 4 <= k <= 7 && k <= cfg.maxIterations && Clears(cfg, o, l, k - 1) && Gates.Gate(cfg, o, l, k).Some?
    ensures EndsAs(cfg, o, l, Gates.Gate(cfg, o, l, k).value.ending)
  {
    AcceptedMeans(cfg, o);
    LowMeans(cfg, o);
  }

  /** The step at which a run that ends like this stops, if it is fixed. */
  function StepOf(e: Gates.Ending): nat {
    match e
    case AutoProcess => 8
    case ToReview(reason) => (match reason case UnknownType => 2 case ValidationFailed => 4 case Duplicate => 5 case LowConfidence => 6)
    case Fails(cause) =>
      match cause
      case LoadDocumentFailed => 0 case MaxIterationsExceeded => 0
      case OcrFailed => 1 case OcrTimeout => 1
      case ClassificationFailed => 2 case ClassificationTimeout => 2 case PersistClassificationFailed => 2
      case LoadFieldSchemaFailed => 3 case ExtractionFailed => 3 case ExtractionTimeout => 3
      case PersistExtractedFieldsFailed => 3 case PersistExtractedStatusFailed => 3
      case PersistValidatedStatusFailed => 4 case DuplicateCheckFailed => 5
      case LoadThresholdFailed => 6 case PersistAutoProcessedFailed => 7
  }

  predicate Fixed(e: Gates.Ending) {
    e != Gates.Fails(LoadDocumentFailed) && e != Gates.Fails(MaxIterationsExceeded)
  }

  /** It gets exactly as far as that step. */
  lemma StopsThere(cfg: Config, o: Outcomes, l: Gates.Lookup, e: Gates.Ending)
    requires EndsAs(cfg, o, l, e) && Fixed(e)
    ensures var k := StepOf(e);
      1 <= k <= 8 && Clears(cfg, o, l, k - 1) && (k <= 7 ==> k <= cfg.maxIterations && !Clears(cfg, o, l, k))
  {
  }

  lemma OneEndingPerStep(cfg: Config, o: Outcomes, l: Gates.Lookup, e: Gates.Ending, f: Gates.Ending)
    requires EndsAs(cfg, o, l, e) && EndsAs(cfg, o, l, f) && Fixed(e) && Fixed(f) && StepOf(e) == StepOf(f)
    ensures e == f
  {
  }

  lemma OneFixedEnding(cfg: Config, o: Outcomes, l: Gates.Lookup, e: Gates.Ending, f: Gates.Ending)
    requires EndsAs(cfg, o, l, e) && EndsAs(cfg, o, l, f) && Fixed(e) && Fixed(f)
    ensures e == f
  {
    StopsThere(cfg, o, l, e);
    StopsThere(cfg, o, l, f);
    if StepOf(e) == StepOf(f) {
      OneEndingPerStep(cfg, o, l, e, f);
    }
  }

  lemma NoOtherEnding(cfg: Config, o: Outcomes, l: Gates.Lookup, e: Gates.Ending, f: Gates.Ending)
    requires EndsAs(cfg, o, l, e) && Fixed(e) && !Fixed(f)
    ensures !EndsAs(cfg, o, l, f)
  {
    StopsThere(cfg, o, l, e);
  }

  /** No run ends in two ways. */
  lemma OneEnding(cfg: Config, o: Outcomes, l: Gates.Lookup, e: Gates.Ending, f: Gates.Ending)
    requires EndsAs(cfg, o, l, e) && EndsAs(cfg, o, l, f)
    ensures e == f
  {
    if Fixed(e) && Fixed(f) {
      OneFixedEnding(cfg, o, l, e, f);
    } else if Fixed(e) {
      NoOtherEnding(cfg, o, l, e, f);
    } else if Fixed(f) {
      NoOtherEnding(cfg, o, l, f, e);
    }
  }

  lemma StopCounts(cfg: Config, o: Outcomes, l: Gates.Lookup, k: nat)
    requires 1 <= k <= 7 && Clears(cfg, o, l, k - 1) && !Clears(cfg, o, l, k)
    ensures Counts(cfg, o, l, k)
  {
  }

  lemma {:induction false} FirstStopMeans(cfg: Config, o: Outcomes, l: Gates.Lookup, k: nat)
    requires WellFormed(cfg, o) && 1 <= k <= 8 && Clears(cfg, o, l, k - 1)
    ensures var v := Gates.FirstStop(cfg, o, l, k); EndsAs(cfg, o, l, v.ending) && Counts(cfg, o, l, v.iterations)
    decreases 8 - k
  {
    if k < 8 {
      if Clears(cfg, o, l, k) {
        StepMeans(cfg, o, l, k);
        FirstStopMeans(cfg, o, l, k + 1);
      } else {
        StopMeans(cfg, o, l, k);
        StopCounts(cfg, o, l, k);
      }
    }
  }

  /** How a run ends, and after how many iterations, in plain terms: each ending is
      reached exactly under its own condition. */
  lemma {:induction false} VerdictMeans(cfg: Config, o: Outcomes, l: Gates.Lookup)
    requires WellFormed(cfg, o)
    ensures var v := Gates.VerdictOf(cfg, o, l);
      (forall e :: v.ending == e <==> EndsAs(cfg, o, l, e)) && Counts(cfg, o, l, v.iterations)
  {
    var v := Gates.VerdictOf(cfg, o, l);
    if o.loadOk {
      FirstStopMeans(cfg, o, l, 1);
    }
    forall e ensures v.ending == e <==> EndsAs(cfg, o, l, e) {
      if EndsAs(cfg, o, l, e) {
        OneEnding(cfg, o, l, v.ending, e);
      }
    }
  }

  /** A run that got past the first five gates is sent to review for its confidence
      exactly when the mean is below the threshold of its own type. */
  lemma {:induction false} LowConfidenceIff(cfg: Config, o: Outcomes, l: Gates.Lookup)
    requires WellFormed(cfg, o) && o.loadOk && Gates.Passed(cfg, o, l, 5) && cfg.maxIterations >= 6 && o.thresholdOk
    ensures o.docType in cfg.types && forall n :: n in o.order ==> n in o.fields
    ensures Gates.VerdictOf(cfg, o, l).ending == Gates.ToReview(LowConfidence) <==>
      Confidence.Mean(o.confidence, o.order, o.fields) < cfg.types[o.docType].threshold
  {
    ClearsMeans(cfg, o, l, 5);
    OrderIsNamed(cfg, o);
    VerdictMeans(cfg, o, l);
    assert EndsAs(cfg, o, l, Gates.ToReview(LowConfidence)) <==> Low(cfg, o);
  }

  /** What is left after the duplicate check. */
  lemma AfterFive(cfg: Config, o: Outcomes, l: Gates.Lookup, e: Gates.Ending, its: nat)
    requires EndsAs(cfg, o, l, e) && Counts(cfg, o, l, its) && Clears(cfg, o, l, 5) && cfg.maxIterations >= 6 && o.thresholdOk
    ensures !e.Fails? && its == 6 <==> Low(cfg, o)
    ensures !e.Fails? && its == 7 <==> !Low(cfg, o) && cfg.maxIterations >= 7 && o.autoOk
  {
  }

  // ----- the tool executions -----

  ghost function CallSaid(call: Call): ToolStatus {
    if call == Answered then Success else if call == TimedOut then ToolTimeout else ToolFailed
  }

  /** What step `k` records, if it gets as far as recording. */
  ghost function Row(cfg: Config, o: Outcomes, l: Gates.Lookup, r: nat, k: nat): seq<ToolRow> {
    if !Enters(cfg, o, l, k) then []
    else if k == 1 then [ToolRow(r, RunOcr, CallSaid(o.ocr), None)]
    else if k == 2 then [ToolRow(r, ClassifyDocument, CallSaid(o.classify), None)]
    else if k == 3 then
      if o.schemaOk then [ToolRow(r, ExtractFields, if o.extract == TimedOut then ToolTimeout else if RowsStored(o) then Success else ToolFailed, None)]
      else []
    else if k == 4 then [ToolRow(r, ValidateExtraction, Success, None)]
    else if k == 5 then
      [ToolRow(r, CheckDuplicate, if l.LookupError? then ToolFailed else Success, if l.Found? then Some(l.original) else None)]
    else if k == 6 then if o.thresholdOk then [ToolRow(r, CalculateConfidence, Success, None)] else []
    else if o.autoOk then [ToolRow(r, FinalizeDocument, Success, None)]
    else []
  }

  /** What the first `k` steps record. */
  ghost function Trace(cfg: Config, o: Outcomes, l: Gates.Lookup, r: nat, k: nat): seq<ToolRow> {
    if k == 0 then [] else Trace(cfg, o, l, r, k - 1) + Row(cfg, o, l, r, k)
  }

  lemma {:induction false} ClearedTrace(cfg: Config, o: Outcomes, l: Gates.Lookup, r: nat, k: nat)
    requires k <= 7 && Clears(cfg, o, l, k)
    ensures Trace(cfg, o, l, r, k) == Gates.Steps(r, k, l)
  {
    if k > 0 {
      ClearedTrace(cfg, o, l, r, k - 1);
      assert Row(cfg, o, l, r, k) == [Gates.StepRow(r, k, Success, l)];
    }
  }

  lemma StoppedRow(cfg: Config, o: Outcomes, l: Gates.Lookup, r: nat, k: nat)
    requires WellFormed(cfg, o) && 1 <= k <= 7 && Clears(cfg, o, l, k - 1) && Gates.Gate(cfg, o, l, k).Some?
    ensures var tool := Gates.Gate(cfg, o, l, k).value.tool;
      Row(cfg, o, l, r, k) == if tool.Some? then [Gates.StepRow(r, k, tool.value, l)] else []
  {
  }

  lemma {:induction false} NothingFollows(cfg: Config, o: Outcomes, l: Gates.Lookup, r: nat, j: nat, k: nat)
    requires j <= k && !Clears(cfg, o, l, j)
    ensures Trace(cfg, o, l, r, k) == Trace(cfg, o, l, r, j)
    decreases k
  {
    if j < k {
      NothingFollows(cfg, o, l, r, j, k - 1);
    }
  }

  lemma {:induction false} TraceFrom(cfg: Config, o: Outcomes, l: Gates.Lookup, r: nat, k: nat)
    requires WellFormed(cfg, o) && 1 <= k <= 8 && Clears(cfg, o, l, k - 1)
    ensures Gates.TraceOf(Gates.FirstStop(cfg, o, l, k), r, l) == Trace(cfg, o, l, r, 7)
    decreases 8 - k
  {
    ClearedTrace(cfg, o, l, r, k - 1);
    if k < 8 {
      StepMeans(cfg, o, l, k);
      if Clears(cfg, o, l, k) {
        TraceFrom(cfg, o, l, r, k + 1);
      } else {
        StoppedRow(cfg, o, l, r, k);
        NothingFollows(cfg, o, l, r, k, 7);
      }
    }
  }

  /** Which tools a run records, with which status. */
  lemma {:induction false} TraceMeans(cfg: Config, o: Outcomes, l: Gates.Lookup, r: nat)
    requires WellFormed(cfg, o)
    ensures Gates.TraceOf(Gates.VerdictOf(cfg, o, l), r, l) == Trace(cfg, o, l, r, 7)
  {
    if o.loadOk {
      TraceFrom(cfg, o, l, r, 1);
    } else {
      NothingFollows(cfg, o, l, r, 0, 7);
    }
  }

  // ----- the tables -----

  /** The document's FAILED runs. */
  function FailedRuns(db: Db, d: nat): set<nat> {
    set r: nat | r < |db.runs| && db.runs[r].doc == d && db.runs[r].status == RunFailed
  }

  lemma OneMoreRun(runs: seq<Run>, run: Run, d: nat, db: Db)
    requires db.runs == runs + [run]
    ensures var less := FailedRuns(db.(runs := runs), d);
      |runs| !in less && FailedRuns(db, d) == less + if run.doc == d && run.status == RunFailed then {|runs|} else {}
  {
  }

  lemma {:induction false} CountsFailedRuns(db: Db, d: nat)
    ensures CountFailed(db, d) == |FailedRuns(db, d)|
    decreases |db.runs|
  {
    if db.runs != [] {
      var n := |db.runs| - 1;
      var less := db.(runs := db.runs[..n]);
      CountsFailedRuns(less, d);
      assert db.runs == db.runs[..n] + [db.runs[n]];
      OneMoreRun(db.runs[..n], db.runs[n], d, db);
    }
  }

  /** What the duplicate check learns: the oldest document of the tenant with the
      same content or, failing that, with the same type and key fields. */
  ghost predicate Learns(cfg: Config, docs: seq<Document>, d: nat, o: Outcomes, l: Gates.Lookup) {
    && d < |docs|
    && var hash := KeyFields.KeyHash(cfg, o.fields);
    match l
    case LookupError => !o.contentLookupOk || (NoCopy(docs, d, d) && hash.Some? && !o.nearLookupOk)
    case Found(e) =>
      e < d && o.contentLookupOk
      && ((Copies(docs, e, d) && NoCopy(docs, d, e))
          || (NoCopy(docs, d, d) && o.nearLookupOk && hash.Some? && Resembles(docs, e, d, o, hash.value) && NoneLike(docs, d, e, o, hash.value)))
    case NoDuplicate =>
      o.contentLookupOk && NoCopy(docs, d, d) && (hash.Some? ==> o.nearLookupOk && NoneLike(docs, d, d, o, hash.value))
  }

  ghost predicate Copies(docs: seq<Document>, e: nat, d: nat)
    requires e < |docs| && d < |docs|
  {
    docs[e].tenant == docs[d].tenant && docs[e].contentHash == docs[d].contentHash
  }

  ghost predicate Resembles(docs: seq<Document>, e: nat, d: nat, o: Outcomes, hash: string)
    requires e < |docs| && d < |docs|
  {
    docs[e].tenant == docs[d].tenant && docs[e].docType == Some(o.docType) && docs[e].keyHash == Some(hash)
  }

  /** None of the first `n` documents is a copy. */
  ghost predicate NoCopy(docs: seq<Document>, d: nat, n: nat)
    requires n <= d < |docs|
  {
    forall e :: 0 <= e < n ==> !Copies(docs, e, d)
  }

  ghost predicate NoneLike(docs: seq<Document>, d: nat, n: nat, o: Outcomes, hash: string)
    requires n <= d < |docs|
  {
    forall e :: 0 <= e < n ==> !Resembles(docs, e, d, o, hash)
  }

  lemma LookupMeans(cfg: Config, docs: seq<Document>, d: nat, o: Outcomes)
    requires d < |docs|
    ensures Learns(cfg, docs, d, o, Outcome.LookupOf(cfg, docs, d, o))
  {
    CopyMeans(docs, d);
    var hash := KeyFields.KeyHash(cfg, o.fields);
    if hash.Some? {
      NearMeans(docs, d, o, hash.value);
    }
  }

  lemma CopyMeans(docs: seq<Document>, d: nat)
    requires d < |docs|
    ensures var copy := FirstDoc(docs[..d], SameContent(docs[d].tenant, docs[d].contentHash), 0);
      if copy.Some? then copy.value < d && Copies(docs, copy.value, d) && NoCopy(docs, d, copy.value) else NoCopy(docs, d, d)
  {
    var p := SameContent(docs[d].tenant, docs[d].contentHash);
    FirstDocIsEarliest(docs[..d], p, 0);
    forall e | 0 <= e < d ensures p(docs[..d][e]) <==> Copies(docs, e, d) {
    }
  }

  lemma NearMeans(docs: seq<Document>, d: nat, o: Outcomes, hash: string)
    requires d < |docs|
    ensures var near := FirstDoc(docs[..d], SameKeyFields(docs[d].tenant, o.docType, hash), 0);
      if near.Some? then near.value < d && Resembles(docs, near.value, d, o, hash) && NoneLike(docs, d, near.value, o, hash)
      else NoneLike(docs, d, d, o, hash)
  {
    var p := SameKeyFields(docs[d].tenant, o.docType, hash);
    FirstDocIsEarliest(docs[..d], p, 0);
    forall e | 0 <= e < d ensures p(docs[..d][e]) <==> Resembles(docs, e, d, o, hash) {
    }
  }

  /** The failure can be retried and the document has failed, this time included, at
      most MaxRetries times. */
  ghost predicate Again(cfg: Config, db: Db, d: nat, o: Outcomes, cause: FailReason) {
    cause != MaxIterationsExceeded && o.countOk && |FailedRuns(db, d)| + 1 <= cfg.maxRetries
  }

  /** The document's row. */
  ghost predicate DocLeft(cfg: Config, db: Db, after: Document, d: nat, o: Outcomes, l: Gates.Lookup, e: Gates.Ending)
    requires d < |db.docs|
  {
    var before := db.docs[d];
    && after.tenant == before.tenant && after.contentHash == before.contentHash
    && after.status ==
         (match e
          case AutoProcess => AutoProcessed
          case ToReview(_) => PendingReview
          case Fails(cause) => if Again(cfg, db, d, o, cause) then Uploaded else Failed)
    && after.docType == (if Clears(cfg, o, l, 2) then Some(o.docType) else before.docType)
    && after.classConf == (if Clears(cfg, o, l, 2) || e == Gates.ToReview(UnknownType) then Some(o.confidence) else before.classConf)
    && after.keyHash ==
         (if Clears(cfg, o, l, 3) && KeyFields.KeyHash(cfg, o.fields).Some? then KeyFields.KeyHash(cfg, o.fields) else before.keyHash)
    && after.overallConf ==
         (if (e == Gates.AutoProcess || e == Gates.ToReview(LowConfidence)) && forall n :: n in o.order ==> n in o.fields
          then Some(Confidence.Mean(o.confidence, o.order, o.fields)) else before.overallConf)
    && after.duplicateOf == (if e == Gates.ToReview(Duplicate) && l.Found? then Some(l.original) else before.duplicateOf)
  }

  /** The audit entries, in order. */
  ghost function Entries(cfg: Config, db: Db, d: nat, r: nat, o: Outcomes, l: Gates.Lookup, e: Gates.Ending): seq<Entry>
    requires d < |db.docs|
  {
    var tenant := db.docs[d].tenant;
    (if Clears(cfg, o, l, 2) then [Entry(tenant, Agent, DocClassified, OfDocument(d), Some(r))] else [])
    + (if Clears(cfg, o, l, 3) then [Entry(tenant, Agent, DocExtracted, OfDocument(d), Some(r))] else [])
    + (if Clears(cfg, o, l, 4) then [Entry(tenant, Agent, DocValidated, OfDocument(d), Some(r))] else [])
    + (match e
       case AutoProcess => [Entry(tenant, Agent, DocAutoProcessed, OfDocument(d), Some(r))]
       case ToReview(reason) => [Entry(tenant, Agent, DocRouted(reason), OfDocument(d), Some(r))]
       case Fails(cause) =>
         if cause == LoadDocumentFailed then []
         else [Entry(tenant, Agent, if Again(cfg, db, d, o, cause) then RunRetrying(cause) else RunFailedFor(cause), OfRun(r), Some(r))])
  }

  /** The field rows added: one per extracted field. */
  ghost predicate FieldsLeft(rows: seq<FieldRow>, d: nat, o: Outcomes, at: nat) {
    && |rows| == |o.order|
    && forall i :: 0 <= i < |rows| && o.order[i] in o.fields ==>
         rows[i] == FieldRow(d, o.order[i], o.fields[o.order[i]].value, o.fields[o.order[i]].confidence, Extraction, at)
  }

  /** All six tables after a run that ends like this. */
  ghost predicate TablesLeft(cfg: Config, db: Db, after: Db, d: nat, r: nat, o: Outcomes, l: Gates.Lookup, e: Gates.Ending) {
    && d < |db.docs| == |after.docs| && r < |db.runs| == |after.runs|
    && (forall c :: 0 <= c < |db.docs| && c != d ==> after.docs[c] == db.docs[c])
    && DocLeft(cfg, db, after.docs[d], d, o, l, e)
    && (forall q :: 0 <= q < |db.runs| && q != r ==> after.runs[q] == db.runs[q])
    && after.runs[r] == db.runs[r].(status := if e.Fails? then RunFailed else Completed, iterations := after.runs[r].iterations)
    && Counts(cfg, o, l, after.runs[r].iterations)
    && after.tasks == db.tasks + (match e case ToReview(reason) => [Task(d, reason, Pending)] case _ => [])
    && after.tools == db.tools + Trace(cfg, o, l, r, 7)
    && |after.fields| >= |db.fields| && after.fields[..|db.fields|] == db.fields
    && (if Enters(cfg, o, l, 3) && RowsStored(o) then FieldsLeft(after.fields[|db.fields|..], d, o, |db.fields|) else after.fields == db.fields)
    && after.audit == db.audit + Entries(cfg, db, d, r, o, l, e)
  }

  /** What an uninterrupted run leaves: what the duplicate check learns and how the
      run ends decide the tables. */
  ghost predicate RunLeaves(cfg: Config, db: Db, after: Db, d: nat, r: nat, o: Outcomes) {
    exists l, e :: Learns(cfg, db.docs, d, o, l) && EndsAs(cfg, o, l, e) && TablesLeft(cfg, db, after, d, r, o, l, e)
  }

  /** How many steps went through, from where the verdict stopped. */
  lemma PassedMeans(cfg: Config, o: Outcomes, l: Gates.Lookup, k: nat)
    requires WellFormed(cfg, o) && 1 <= k <= 7
    ensures Clears(cfg, o, l, k) <==> Outcome.GatesPassed(Gates.VerdictOf(cfg, o, l)) >= k
  {
    VerdictMeans(cfg, o, l);
  }

  lemma DocMeans(cfg: Config, db: Db, after: Document, d: nat, o: Outcomes, l: Gates.Lookup)
    requires WellFormed(cfg, o) && d < |db.docs|
    requires Outcome.RowFollows(cfg, db.docs[d], after, CountFailed(db, d), o, l, Gates.VerdictOf(cfg, o, l))
    ensures DocLeft(cfg, db, after, d, o, l, Gates.VerdictOf(cfg, o, l).ending)
  {
    PassedMeans(cfg, o, l, 2);
    PassedMeans(cfg, o, l, 3);
    CountsFailedRuns(db, d);
    OrderIsNamed(cfg, o);
  }

  lemma EntriesMean(cfg: Config, db: Db, d: nat, r: nat, o: Outcomes, l: Gates.Lookup)
    requires WellFormed(cfg, o) && d < |db.docs|
    ensures var v := Gates.VerdictOf(cfg, o, l);
      Outcome.EntriesFor(cfg, db.docs[d].tenant, d, r, CountFailed(db, d), o, v) == Entries(cfg, db, d, r, o, l, v.ending)
  {
    PassedMeans(cfg, o, l, 2);
    PassedMeans(cfg, o, l, 3);
    PassedMeans(cfg, o, l, 4);
    CountsFailedRuns(db, d);
    VerdictMeans(cfg, o, l);
    assert EndsAs(cfg, o, l, Gates.Fails(LoadDocumentFailed)) <==> !o.loadOk;
  }

  lemma StoresMeans(cfg: Config, o: Outcomes, l: Gates.Lookup)
    requires WellFormed(cfg, o)
    ensures Outcome.StoresRows(Gates.VerdictOf(cfg, o, l)) <==> Enters(cfg, o, l, 3) && RowsStored(o)
  {
    PassedMeans(cfg, o, l, 3);
    VerdictMeans(cfg, o, l);
    assert EndsAs(cfg, o, l, Gates.Fails(PersistExtractedStatusFailed)) <==> Enters(cfg, o, l, 3) && RowsStored(o) && !o.extractedOk;
  }

  lemma FieldsMean(cfg: Config, before: seq<FieldRow>, after: seq<FieldRow>, d: nat, o: Outcomes, l: Gates.Lookup)
    requires WellFormed(cfg, o)
    requires after == before + (if Outcome.StoresRows(Gates.VerdictOf(cfg, o, l)) then Rows(d, o, |before|) else [])
    ensures |after| >= |before| && after[..|before|] == before
    ensures if Enters(cfg, o, l, 3) && RowsStored(o) then FieldsLeft(after[|before|..], d, o, |before|) else after == before
  {
    StoresMeans(cfg, o, l);
    assert Enters(cfg, o, l, 3) && RowsStored(o) ==> after[|before|..] == Rows(d, o, |before|);
  }

  lemma TablesMean(cfg: Config, db: Db, after: Db, d: nat, r: nat, o: Outcomes, l: Gates.Lookup)
    requires WellFormed(cfg, o) && Outcome.Follows(cfg, db, after, d, r, o, l, Gates.VerdictOf(cfg, o, l))
    ensures TablesLeft(cfg, db, after, d, r, o, l, Gates.VerdictOf(cfg, o, l).ending)
  {
    DocMeans(cfg, db, after.docs[d], d, o, l);
    EntriesMean(cfg, db, d, r, o, l);
    FieldsMean(cfg, db.fields, after.fields, d, o, l);
    TraceMeans(cfg, o, l, r);
    VerdictMeans(cfg, o, l);
  }

  lemma OneLookup(cfg: Config, docs: seq<Document>, d: nat, o: Outcomes, l: Gates.Lookup, m: Gates.Lookup)
    requires Learns(cfg, docs, d, o, l) && Learns(cfg, docs, d, o, m)
    ensures l == m
  {
    if l.Found? && m.Found? {
      FoundOnce(cfg, docs, d, o, l.original, m.original);
    }
  }

  lemma FoundOnce(cfg: Config, docs: seq<Document>, d: nat, o: Outcomes, e: nat, f: nat)
    requires Learns(cfg, docs, d, o, Gates.Found(e)) && Learns(cfg, docs, d, o, Gates.Found(f))
    ensures e == f
  {
    assert Copies(docs, e, d) <==> Copies(docs, f, d);
  }

  lemma CountsOnce(cfg: Config, o: Outcomes, l: Gates.Lookup, m: nat, n: nat)
    requires Counts(cfg, o, l, m) && Counts(cfg, o, l, n)
    ensures m == n
  {
  }

  lemma DocOnce(cfg: Config, db: Db, a: Document, b: Document, d: nat, o: Outcomes, l: Gates.Lookup, e: Gates.Ending)
    requires d < |db.docs| && DocLeft(cfg, db, a, d, o, l, e) && DocLeft(cfg, db, b, d, o, l, e)
    ensures a == b
  {
  }

  lemma FieldsOnce(a: seq<FieldRow>, b: seq<FieldRow>, before: seq<FieldRow>, d: nat, o: Outcomes)
    requires |a| >= |before| && a[..|before|] == before && FieldsLeft(a[|before|..], d, o, |before|)
    requires |b| >= |before| && b[..|before|] == before && FieldsLeft(b[|before|..], d, o, |before|)
    requires forall n :: n in o.order ==> n in o.fields
    ensures a == b
  {
    assert a[|before|..] == b[|before|..];
    assert a == a[..|before|] + a[|before|..] && b == b[..|before|] + b[|before|..];
  }

  lemma TablesOnce(cfg: Config, db: Db, a: Db, b: Db, d: nat, r: nat, o: Outcomes, l: Gates.Lookup, e: Gates.Ending)
    requires WellFormed(cfg, o) && TablesLeft(cfg, db, a, d, r, o, l, e) && TablesLeft(cfg, db, b, d, r, o, l, e)
    ensures a == b
  {
    DocOnce(cfg, db, a.docs[d], b.docs[d], d, o, l, e);
    CountsOnce(cfg, o, l, a.runs[r].iterations, b.runs[r].iterations);
    assert a.docs == b.docs && a.runs == b.runs;
    OrderIsNamed(cfg, o);
    if Enters(cfg, o, l, 3) && RowsStored(o) {
      FieldsOnce(a.fields, b.fields, db.fields, d, o);
    }
  }

  /** The description leaves nothing open. */
  lemma LeavesOnce(cfg: Config, db: Db, a: Db, b: Db, d: nat, r: nat, o: Outcomes)
    requires WellFormed(cfg, o) && RunLeaves(cfg, db, a, d, r, o) && RunLeaves(cfg, db, b, d, r, o)
    ensures a == b
  {
    var l, e :| Learns(cfg, db.docs, d, o, l) && EndsAs(cfg, o, l, e) && TablesLeft(cfg, db, a, d, r, o, l, e);
    var m, f :| Learns(cfg, db.docs, d, o, m) && EndsAs(cfg, o, m, f) && TablesLeft(cfg, db, b, d, r, o, m, f);
    OneLookup(cfg, db.docs, d, o, l, m);
    OneEnding(cfg, o, l, e, f);
    TablesOnce(cfg, db, a, b, d, r, o, l, e);
  }

  /** An uninterrupted run leaves the tables described, and no other tables fit the
      description. */
  lemma {:induction false} RunInPlainTerms(cfg: Config, db: Db, d: nat, r: nat, o: Outcomes)
    requires WellFormed(cfg, o) && Outcome.InHand(db, d, r)
    ensures forall after :: RunLeaves(cfg, db, after, d, r, o) <==> after == Solo(cfg, db, At(Load, d, r, o))
  {
    var l, after := Outcome.LookupOf(cfg, db.docs, d, o), Solo(cfg, db, At(Load, d, r, o));
    Outcome.OutcomeFollowsVerdict(cfg, db, d, r, o);
    LookupMeans(cfg, db.docs, d, o);
    VerdictMeans(cfg, o, l);
    TablesMean(cfg, db, after, d, r, o, l);
    assert EndsAs(cfg, o, l, Gates.VerdictOf(cfg, o, l).ending);
    forall b | RunLeaves(cfg, db, b, d, r, o) ensures b == after {
      LeavesOnce(cfg, db, b, after, d, r, o);
    }
  }

  // ----- step 6 on its own -----

  /** The score is recorded; below the type's threshold the document is sent to
      review, otherwise the run goes on to step 7. */
  ghost predicate Scored(cfg: Config, db: Db, after: Db, d: nat, r: nat, o: Outcomes)
    requires Outcome.InHand(db, d, r)
  {
    var at := db.(tools := db.tools + [ToolRow(r, CalculateConfidence, Success, None)]);
    if Low(cfg, o) then after == AfterRoute(at, d, r, 6, LowConfidence, o)
    else after == Solo(cfg, at, At(Enter(cfg, 7, PersistAuto), d, r, o))
  }

  lemma ScoresInPlainTerms(cfg: Config, db: Db, d: nat, r: nat, o: Outcomes)
    requires WellFormed(cfg, o) && Outcome.InHand(db, d, r) && o.docType in cfg.types && o.thresholdOk
    ensures Scored(cfg, db, Solo(cfg, db, At(LoadThreshold, d, r, o)), d, r, o)
  {
    var c := At(LoadThreshold, d, r, o);
    var at := db.(tools := db.tools + [ToolRow(r, CalculateConfidence, Success, None)]);
    LowMeans(cfg, o);
    Moves(cfg, db, c, Query, RecordConfidence);
    if Low(cfg, o) {
      Moves(cfg, db, c.(pc := RecordConfidence), RecordTool(r, CalculateConfidence, Success, None), OpenTask(6, LowConfidence));
      RunIsRouted(cfg, at, c.(pc := OpenTask(6, LowConfidence)));
    } else {
      Moves(cfg, db, c.(pc := RecordConfidence), RecordTool(r, CalculateConfidence, Success, None), Enter(cfg, 7, PersistAuto));
    }
  }
}
