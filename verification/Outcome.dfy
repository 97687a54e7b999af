/** What one run of the pipeline leaves behind when nothing interrupts it, as a
    function of the gates: the tables after the first gates have let it pass, and
    what the gate that stops it adds.

    The statements of a run are followed one stretch at a time: from gate to gate
    while they let it pass, from the gate that stops it to `fail` or
    `routeToReview`, and through those to the end. From that, all six tables are
    read off the verdict. */
module Outcome {
  import opened Prelude
  import opened Domain
  import opened Tables
  import opened Pipeline
  import opened Protocol
  import opened SoloRun
  import Gates
  import KeyFields

  // ----- the description -----

  /** What the duplicate check learns: an older document of the tenant with the same
      content, or else one with the same type and key fields. */
  ghost function LookupOf(cfg: Config, docs: seq<Document>, d: nat, o: Outcomes): Gates.Lookup
    requires d < |docs|
  {
    var copy := FirstDoc(docs[..d], SameContent(docs[d].tenant, docs[d].contentHash), 0);
    var hash := KeyFields.KeyHash(cfg, o.fields);
    if !o.contentLookupOk then Gates.LookupError
    else if copy.Some? then Gates.Found(copy.value)
    else if hash.None? then Gates.NoDuplicate
    else
      var near := FirstDoc(docs[..d], SameKeyFields(docs[d].tenant, o.docType, hash.value), 0);
      if !o.nearLookupOk then Gates.LookupError
      else if near.Some? then Gates.Found(near.value)
      else Gates.NoDuplicate
  }

  /** The document once the first `k` gates have let it pass. */
  ghost function StagedDoc(cfg: Config, doc: Document, o: Outcomes, k: nat): Document {
    var hash := KeyFields.KeyHash(cfg, o.fields);
    doc.(status := if k >= 4 then Validated else if k >= 3 then Extracted else if k >= 2 then Classified else doc.status,
         docType := if k >= 2 then Some(o.docType) else doc.docType,
         classConf := if k >= 2 then Some(o.confidence) else doc.classConf,
         keyHash := if k >= 3 && hash.Some? then hash else doc.keyHash)
  }

  function StagedEntries(tenant: nat, d: nat, r: nat, k: nat): seq<Entry> {
    (if k >= 2 then [EntryOfRun(tenant, DocClassified, OfDocument(d), r)] else [])
    + (if k >= 3 then [EntryOfRun(tenant, DocExtracted, OfDocument(d), r)] else [])
    + (if k >= 4 then [EntryOfRun(tenant, DocValidated, OfDocument(d), r)] else [])
  }

  /** The tables once the first `k` gates have let the run pass. */
  ghost function Staged(cfg: Config, db: Db, d: nat, r: nat, o: Outcomes, k: nat): Db
    requires d < |db.docs|
  {
    db.(docs := db.docs[d := StagedDoc(cfg, db.docs[d], o, k)],
        fields := if k >= 3 then db.fields + Rows(d, o, |db.fields|) else db.fields,
        tools := db.tools + Gates.Steps(r, k, Gates.NoDuplicate),
        audit := db.audit + StagedEntries(db.docs[d].tenant, d, r, k))
  }

  /** What a stop at gate `k + 1` adds before the run is ended: the step's own tool
      row, the rows of an extraction whose status could not be stored, the link of
      a duplicate. */
  ghost function Halted(cfg: Config, db: Db, d: nat, r: nat, o: Outcomes, l: Gates.Lookup, k: nat, stop: Gates.Stop): Db
    requires d < |db.docs|
  {
    var at := Staged(cfg, db, d, r, o, k);
    at.(tools := at.tools + if stop.tool.Some? then [Gates.StepRow(r, k + 1, stop.tool.value, l)] else [],
        fields := at.fields + if stop.ending == Gates.Fails(PersistExtractedStatusFailed) then Rows(d, o, |at.fields|) else [],
        docs := if stop.ending == Gates.ToReview(Duplicate) && l.Found?
                then at.docs[d := at.docs[d].(duplicateOf := Some(l.original))] else at.docs)
  }

  ghost function Stopped(cfg: Config, db: Db, d: nat, r: nat, o: Outcomes, l: Gates.Lookup, k: nat, stop: Gates.Stop): Db
    requires d < |db.docs| && r < |db.runs|
  {
    var at := Halted(cfg, db, d, r, o, l, k, stop);
    match stop.ending
    case Fails(cause) => AfterFail(cfg, at, d, r, k + 1, cause, true, o)
    case ToReview(reason) => AfterRoute(at, d, r, k + 1, reason, o)
    case AutoProcess => at
  }

  /** All gates passed. */
  ghost function Finalized(cfg: Config, db: Db, d: nat, r: nat, o: Outcomes): Db
    requires d < |db.docs| && r < |db.runs|
  {
    var at := Staged(cfg, db, d, r, o, 6);
    at.(docs := at.docs[d := at.docs[d].(status := AutoProcessed, overallConf := Some(Overall(o)))],
        tools := at.tools + [Gates.StepRow(r, 7, Success, Gates.NoDuplicate)],
        runs := at.runs[r := at.runs[r].(status := Completed, iterations := 7)],
        audit := at.audit + [EntryOfRun(db.docs[d].tenant, DocAutoProcessed, OfDocument(d), r)])
  }

  /** The tables after a whole run: the first gate that does not let it pass decides. */
  ghost function Outcome(cfg: Config, db: Db, d: nat, r: nat, o: Outcomes): Db
    requires d < |db.docs| && r < |db.runs|
  {
    if !o.loadOk then AfterFail(cfg, db, d, r, 0, LoadDocumentFailed, false, o)
    else OutcomeFrom(cfg, db, d, r, o, LookupOf(cfg, db.docs, d, o), 0)
  }

  ghost function OutcomeFrom(cfg: Config, db: Db, d: nat, r: nat, o: Outcomes, l: Gates.Lookup, k: nat): Db
    requires d < |db.docs| && r < |db.runs| && k <= 7
    decreases 7 - k
  {
    if k == 7 then Finalized(cfg, db, d, r, o)
    else
      var stop := Gates.Gate(cfg, o, l, k + 1);
      if stop.Some? then Stopped(cfg, db, d, r, o, l, k, stop.value) else OutcomeFrom(cfg, db, d, r, o, l, k + 1)
  }

  // ----- one gate at a time -----

  /** Where the program stands when it comes to gate `k + 1`. */
  function GatePc(k: nat): Pc {
    if k == 0 then RecordOcr else if k == 1 then RecordClassify else if k == 2 then LoadSchema else if k == 3 then RecordValidate
    else if k == 4 then LookupContent else if k == 5 then LoadThreshold else PersistAuto
  }

  /** The run, come to gate `k + 1`. */
  ghost function AtGate(cfg: Config, db: Db, d: nat, r: nat, o: Outcomes, k: nat): Db
    requires d < |db.docs|
  {
    Solo(cfg, Staged(cfg, db, d, r, o, k), At(Enter(cfg, k + 1, GatePc(k)), d, r, o))
  }

  lemma StepsGrow(r: nat, k: nat, tools: seq<ToolRow>)
    ensures tools + Gates.Steps(r, k, Gates.NoDuplicate) + [Gates.StepRow(r, k + 1, Success, Gates.NoDuplicate)]
      == tools + Gates.Steps(r, k + 1, Gates.NoDuplicate)
  {
  }

  /** A gate that lets the run pass takes it to the next one. */
  ghost predicate Passes(cfg: Config, db: Db, d: nat, r: nat, o: Outcomes, k: nat)
    requires d < |db.docs|
  {
    AtGate(cfg, db, d, r, o, k) == AtGate(cfg, db, d, r, o, k + 1)
  }

  // Each gate in two parts: the statements the program issues, from any tables, and
  // that they lead from one stage to the next.

  /** The program issues `stmt` here and goes on to `next`. */
  ghost predicate Takes(cfg: Config, db: Db, c: Ctl, stmt: Stmt, next: Pc) {
    c.At? && Issue(cfg, db, c) == stmt && Goto(cfg, db, c) == Some(next)
  }

  lemma Once(cfg: Config, db: Db, c: Ctl, stmt: Stmt, next: Pc, db': Db)
    requires Takes(cfg, db, c, stmt, next) && db' == Exec(db, stmt)
    ensures Solo(cfg, db, c) == Solo(cfg, db', c.(pc := next))
  {
    SoloStep(cfg, db, c);
  }

  lemma Twice(cfg: Config, db: Db, c: Ctl, s1: Stmt, p1: Pc, s2: Stmt, p2: Pc, db': Db)
    requires Takes(cfg, db, c, s1, p1) && Takes(cfg, Exec(db, s1), c.(pc := p1), s2, p2) && db' == Exec(Exec(db, s1), s2)
    ensures Solo(cfg, db, c) == Solo(cfg, db', c.(pc := p2))
  {
    Once(cfg, db, c, s1, p1, Exec(db, s1));
    Once(cfg, Exec(db, s1), c.(pc := p1), s2, p2, db');
  }

  lemma PassesFirst(cfg: Config, db: Db, d: nat, r: nat, o: Outcomes, l: Gates.Lookup)
    requires d < |db.docs| && Gates.Gate(cfg, o, l, 1).None?
    ensures Passes(cfg, db, d, r, o, 0)
  {
    StepsGrow(r, 0, db.tools);
    Once(cfg, Staged(cfg, db, d, r, o, 0), At(RecordOcr, d, r, o), RecordTool(r, RunOcr, Success, None), Enter(cfg, 2, RecordClassify),
         Staged(cfg, db, d, r, o, 1));
  }

  /** Classified, but not yet noted. */
  ghost function MarkedSecond(cfg: Config, db: Db, d: nat, r: nat, o: Outcomes): Db
    requires d < |db.docs|
  {
    Exec(Exec(Staged(cfg, db, d, r, o, 1), RecordTool(r, ClassifyDocument, Success, None)), MarkClassified(d, o.docType, o.confidence))
  }

  lemma SecondStage(cfg: Config, db: Db, d: nat, r: nat, o: Outcomes)
    requires d < |db.docs|
    ensures Exec(MarkedSecond(cfg, db, d, r, o), Audit(EntryOfRun(db.docs[d].tenant, DocClassified, OfDocument(d), r))) == Staged(cfg, db, d, r, o, 2)
    ensures TenantOf(MarkedSecond(cfg, db, d, r, o), d) == db.docs[d].tenant
  {
    StepsGrow(r, 1, db.tools);
  }

  lemma Classifies(cfg: Config, db: Db, d: nat, r: nat, o: Outcomes)
    requires o.classify == Answered && o.docType != UNKNOWN_TYPE && ClassificationPersists(cfg, o)
    ensures Takes(cfg, db, At(RecordClassify, d, r, o), RecordTool(r, ClassifyDocument, Success, None), PersistClassified)
    ensures Takes(cfg, db, At(PersistClassified, d, r, o), MarkClassified(d, o.docType, o.confidence), AuditClassified)
  {
  }

  lemma Notes(cfg: Config, db: Db, d: nat, r: nat, o: Outcomes)
    ensures Takes(cfg, db, At(AuditClassified, d, r, o), Audit(EntryOfRun(TenantOf(db, d), DocClassified, OfDocument(d), r)), Enter(cfg, 3, LoadSchema))
    ensures Takes(cfg, db, At(AuditValidated, d, r, o), Audit(EntryOfRun(TenantOf(db, d), DocValidated, OfDocument(d), r)), Enter(cfg, 5, LookupContent))
  {
  }

  lemma PassesSecond(cfg: Config, db: Db, d: nat, r: nat, o: Outcomes, l: Gates.Lookup)
    requires d < |db.docs| && Gates.Gate(cfg, o, l, 2).None?
    ensures Passes(cfg, db, d, r, o, 1)
  {
    var at, marked := Staged(cfg, db, d, r, o, 1), MarkedSecond(cfg, db, d, r, o);
    var tool, mark := RecordTool(r, ClassifyDocument, Success, None), MarkClassified(d, o.docType, o.confidence);
    Classifies(cfg, at, d, r, o);
    Classifies(cfg, Exec(at, tool), d, r, o);
    Twice(cfg, at, At(RecordClassify, d, r, o), tool, PersistClassified, mark, AuditClassified, marked);
    Notes(cfg, marked, d, r, o);
    SecondStage(cfg, db, d, r, o);
    Once(cfg, marked, At(AuditClassified, d, r, o), Audit(EntryOfRun(db.docs[d].tenant, DocClassified, OfDocument(d), r)), Enter(cfg, 3, LoadSchema),
         Staged(cfg, db, d, r, o, 2));
  }

  lemma Extracts(cfg: Config, db: Db, d: nat, r: nat, o: Outcomes)
    requires o.schemaOk && o.extract == Answered && FieldsPersist(o)
    ensures Takes(cfg, db, At(LoadSchema, d, r, o), Query, PersistFields)
    ensures Takes(cfg, db, At(PersistFields, d, r, o), InsertBatch(d, Rows(d, o, |db.fields|)), RecordExtract)
    ensures Takes(cfg, db, At(RecordExtract, d, r, o), RecordTool(r, ExtractFields, Success, None), PersistExtracted)
  {
  }

  lemma NotesExtraction(cfg: Config, db: Db, d: nat, r: nat, o: Outcomes)
    ensures var hash := KeyFields.KeyHash(cfg, o.fields);
      && Takes(cfg, db, At(AuditExtracted, d, r, o), Audit(EntryOfRun(TenantOf(db, d), DocExtracted, OfDocument(d), r)),
               if hash.Some? then PersistHash else Enter(cfg, 4, RecordValidate))
      && (hash.Some? ==> Takes(cfg, db, At(PersistHash, d, r, o), SetKeyFieldsHash(d, hash.value), Enter(cfg, 4, RecordValidate)))
      && (o.extractedOk ==> Takes(cfg, db, At(PersistExtracted, d, r, o), MarkExtracted(d), AuditExtracted))
  {
  }

  /** The extraction and its tool row are stored. */
  ghost function StoredThird(cfg: Config, db: Db, d: nat, r: nat, o: Outcomes): Db
    requires d < |db.docs|
  {
    Exec(Exec(Staged(cfg, db, d, r, o, 2), InsertBatch(d, Rows(d, o, |db.fields|))), RecordTool(r, ExtractFields, Success, None))
  }

  /** So are the status and the entry. */
  ghost function NotedThird(cfg: Config, db: Db, d: nat, r: nat, o: Outcomes): Db
    requires d < |db.docs|
  {
    Exec(Exec(StoredThird(cfg, db, d, r, o), MarkExtracted(d)), Audit(EntryOfRun(db.docs[d].tenant, DocExtracted, OfDocument(d), r)))
  }

  lemma ThirdRow(cfg: Config, db: Db, d: nat, r: nat, o: Outcomes)
    requires d < |db.docs|
    ensures var hash, noted := KeyFields.KeyHash(cfg, o.fields), NotedThird(cfg, db, d, r, o);
      (if hash.Some? then Exec(noted, SetKeyFieldsHash(d, hash.value)) else noted).docs == Staged(cfg, db, d, r, o, 3).docs
  {
  }

  lemma ThirdStage(cfg: Config, db: Db, d: nat, r: nat, o: Outcomes)
    requires d < |db.docs|
    ensures var hash, noted := KeyFields.KeyHash(cfg, o.fields), NotedThird(cfg, db, d, r, o);
      (if hash.Some? then Exec(noted, SetKeyFieldsHash(d, hash.value)) else noted) == Staged(cfg, db, d, r, o, 3)
  {
    StepsGrow(r, 2, db.tools);
    ThirdRow(cfg, db, d, r, o);
  }

  lemma ThirdTenant(cfg: Config, db: Db, d: nat, r: nat, o: Outcomes)
    requires d < |db.docs|
    ensures TenantOf(Exec(StoredThird(cfg, db, d, r, o), MarkExtracted(d)), d) == db.docs[d].tenant
  {
  }

  lemma ReachesStored(cfg: Config, db: Db, d: nat, r: nat, o: Outcomes)
    requires d < |db.docs| && o.schemaOk && o.extract == Answered && FieldsPersist(o)
    ensures Solo(cfg, Staged(cfg, db, d, r, o, 2), At(LoadSchema, d, r, o)) == Solo(cfg, StoredThird(cfg, db, d, r, o), At(PersistExtracted, d, r, o))
  {
    var at, c, batch := Staged(cfg, db, d, r, o, 2), At(LoadSchema, d, r, o), InsertBatch(d, Rows(d, o, |db.fields|));
    Extracts(cfg, at, d, r, o);
    Extracts(cfg, Exec(at, batch), d, r, o);
    Twice(cfg, at, c, Query, PersistFields, batch, RecordExtract, Exec(at, batch));
    Once(cfg, Exec(at, batch), c.(pc := RecordExtract), RecordTool(r, ExtractFields, Success, None), PersistExtracted, StoredThird(cfg, db, d, r, o));
  }

  lemma PassesThird(cfg: Config, db: Db, d: nat, r: nat, o: Outcomes, l: Gates.Lookup)
    requires d < |db.docs| && Gates.Gate(cfg, o, l, 3).None?
    ensures Passes(cfg, db, d, r, o, 2)
  {
    var stored, noted, c := StoredThird(cfg, db, d, r, o), NotedThird(cfg, db, d, r, o), At(PersistExtracted, d, r, o);
    var marked, note := Exec(stored, MarkExtracted(d)), Audit(EntryOfRun(db.docs[d].tenant, DocExtracted, OfDocument(d), r));
    var hash, next := KeyFields.KeyHash(cfg, o.fields), Enter(cfg, 4, RecordValidate);
    ReachesStored(cfg, db, d, r, o);
    ThirdStage(cfg, db, d, r, o);
    ThirdTenant(cfg, db, d, r, o);
    NotesExtraction(cfg, stored, d, r, o);
    NotesExtraction(cfg, marked, d, r, o);
    NotesExtraction(cfg, noted, d, r, o);
    Twice(cfg, stored, c, MarkExtracted(d), AuditExtracted, note, if hash.Some? then PersistHash else next, noted);
    if hash.Some? {
      Once(cfg, noted, c.(pc := PersistHash), SetKeyFieldsHash(d, hash.value), next, Staged(cfg, db, d, r, o, 3));
    }
  }

  lemma Validates(cfg: Config, db: Db, d: nat, r: nat, o: Outcomes)
    requires Accepted(cfg, o)
    ensures Takes(cfg, db, At(RecordValidate, d, r, o), RecordTool(r, ValidateExtraction, Success, None), PersistValidated)
    ensures o.validatedOk ==> Takes(cfg, db, At(PersistValidated, d, r, o), MarkValidated(d), AuditValidated)
  {
  }

  ghost function MarkedFourth(cfg: Config, db: Db, d: nat, r: nat, o: Outcomes): Db
    requires d < |db.docs|
  {
    Exec(Exec(Staged(cfg, db, d, r, o, 3), RecordTool(r, ValidateExtraction, Success, None)), MarkValidated(d))
  }

  lemma FourthStage(cfg: Config, db: Db, d: nat, r: nat, o: Outcomes)
    requires d < |db.docs|
    ensures Exec(MarkedFourth(cfg, db, d, r, o), Audit(EntryOfRun(db.docs[d].tenant, DocValidated, OfDocument(d), r))) == Staged(cfg, db, d, r, o, 4)
    ensures TenantOf(MarkedFourth(cfg, db, d, r, o), d) == db.docs[d].tenant
  {
    StepsGrow(r, 3, db.tools);
  }

  lemma PassesFourth(cfg: Config, db: Db, d: nat, r: nat, o: Outcomes, l: Gates.Lookup)
    requires d < |db.docs| && Gates.Gate(cfg, o, l, 4).None?
    ensures Passes(cfg, db, d, r, o, 3)
  {
    var at, marked := Staged(cfg, db, d, r, o, 3), MarkedFourth(cfg, db, d, r, o);
    var tool := RecordTool(r, ValidateExtraction, Success, None);
    Validates(cfg, at, d, r, o);
    Validates(cfg, Exec(at, tool), d, r, o);
    Twice(cfg, at, At(RecordValidate, d, r, o), tool, PersistValidated, MarkValidated(d), AuditValidated, marked);
    Notes(cfg, marked, d, r, o);
    FourthStage(cfg, db, d, r, o);
    Once(cfg, marked, At(AuditValidated, d, r, o), Audit(EntryOfRun(db.docs[d].tenant, DocValidated, OfDocument(d), r)), Enter(cfg, 5, LookupContent),
         Staged(cfg, db, d, r, o, 4));
  }

  /** A lookup that the document itself satisfies finds an older one, or it. */
  lemma FirstAmongOlder(docs: seq<Document>, d: nat, p: Document -> bool)
    requires d < |docs| && p(docs[d])
    ensures FirstDoc(docs, p, 0) == (if FirstDoc(docs[..d], p, 0).Some? then FirstDoc(docs[..d], p, 0) else Some(d))
  {
    FirstDocIsEarliest(docs, p, 0);
    FirstDocIsEarliest(docs[..d], p, 0);
    var found, older := FirstDoc(docs, p, 0), FirstDoc(docs[..d], p, 0);
    if older.Some? {
      assert docs[..d][older.value] == docs[older.value];
      assert found.value >= older.value ==> found == older;
    }
    if found.Some? && found.value < d {
      assert docs[..d][found.value] == docs[found.value];
    }
  }

  /** Where the duplicate check leads, as a function of what it learns. */
  function LookupPc(l: Gates.Lookup): Pc {
    match l
    case LookupError => RecordLookupError
    case Found(e) => RecordLookup(Some(e))
    case NoDuplicate => RecordLookup(None)
  }

  /** The document as it is when its duplicates are looked up. */
  ghost predicate ReadyForLookup(cfg: Config, docs: seq<Document>, before: seq<Document>, d: nat, o: Outcomes) {
    && d < |docs| == |before| && docs[..d] == before[..d] && SameOrigin(docs[d], before[d])
    && docs[d].docType == Some(o.docType)
    && (KeyFields.KeyHash(cfg, o.fields).Some? ==> docs[d].keyHash == KeyFields.KeyHash(cfg, o.fields))
  }

  lemma ContentLookup(cfg: Config, db: Db, before: seq<Document>, d: nat, r: nat, o: Outcomes)
    requires ReadyForLookup(cfg, db.docs, before, d, o)
    ensures var copy := FirstDoc(before[..d], SameContent(before[d].tenant, before[d].contentHash), 0);
      Goto(cfg, db, At(LookupContent, d, r, o)) == Some(
        if !o.contentLookupOk then RecordLookupError
        else if copy.Some? then RecordLookup(copy)
        else if KeyFields.KeyHash(cfg, o.fields).Some? then LookupNear
        else RecordLookup(None))
  {
    FirstAmongOlder(db.docs, d, SameContent(before[d].tenant, before[d].contentHash));
    FirstDocIsEarliest(before[..d], SameContent(before[d].tenant, before[d].contentHash), 0);
  }

  lemma NearLookup(cfg: Config, db: Db, before: seq<Document>, d: nat, r: nat, o: Outcomes)
    requires ReadyForLookup(cfg, db.docs, before, d, o) && KeyFields.KeyHash(cfg, o.fields).Some?
    ensures var near := FirstDoc(before[..d], SameKeyFields(before[d].tenant, o.docType, KeyFields.KeyHash(cfg, o.fields).value), 0);
      Goto(cfg, db, At(LookupNear, d, r, o)) == Some(
        if !o.nearLookupOk then RecordLookupError else if near.Some? then RecordLookup(near) else RecordLookup(None))
  {
    var p := SameKeyFields(before[d].tenant, o.docType, KeyFields.KeyHash(cfg, o.fields).value);
    FirstAmongOlder(db.docs, d, p);
    FirstDocIsEarliest(before[..d], p, 0);
  }

  lemma LookupsQuery(cfg: Config, db: Db, d: nat, r: nat, o: Outcomes)
    ensures Issue(cfg, db, At(LookupContent, d, r, o)) == Query && Issue(cfg, db, At(LookupNear, d, r, o)) == Query
  {
  }

  /** The lookups come to what the description says, and touch no table. */
  lemma LookupLeads(cfg: Config, db: Db, before: seq<Document>, d: nat, r: nat, o: Outcomes)
    requires ReadyForLookup(cfg, db.docs, before, d, o)
    ensures Solo(cfg, db, At(LookupContent, d, r, o)) == Solo(cfg, db, At(LookupPc(LookupOf(cfg, before, d, o)), d, r, o))
  {
    var c := At(LookupContent, d, r, o);
    LookupsQuery(cfg, db, d, r, o);
    ContentLookup(cfg, db, before, d, r, o);
    var next := Goto(cfg, db, c).value;
    Once(cfg, db, c, Query, next, db);
    if next == LookupNear {
      NearLookup(cfg, db, before, d, r, o);
      Once(cfg, db, c.(pc := LookupNear), Query, Goto(cfg, db, c.(pc := LookupNear)).value, db);
    }
  }

  lemma StagedIsReady(cfg: Config, db: Db, d: nat, r: nat, o: Outcomes)
    requires d < |db.docs|
    ensures ReadyForLookup(cfg, Staged(cfg, db, d, r, o, 4).docs, db.docs, d, o)
  {
  }

  lemma Clears(cfg: Config, db: Db, d: nat, r: nat, o: Outcomes)
    ensures Takes(cfg, db, At(RecordLookup(None), d, r, o), RecordTool(r, CheckDuplicate, Success, None), Enter(cfg, 6, LoadThreshold))
  {
  }

  lemma Scores(cfg: Config, db: Db, d: nat, r: nat, o: Outcomes)
    ensures o.thresholdOk ==> Takes(cfg, db, At(LoadThreshold, d, r, o), Query, RecordConfidence)
    ensures Overall(o) >= Threshold(cfg, o) ==>
      Takes(cfg, db, At(RecordConfidence, d, r, o), RecordTool(r, CalculateConfidence, Success, None), Enter(cfg, 7, PersistAuto))
  {
  }

  /** The duplicate check of a run that has come that far leads to `l`. */
  ghost predicate Learns(cfg: Config, db: Db, d: nat, r: nat, o: Outcomes, l: Gates.Lookup)
    requires d < |db.docs|
  {
    var at := Staged(cfg, db, d, r, o, 4);
    Solo(cfg, at, At(LookupContent, d, r, o)) == Solo(cfg, at, At(LookupPc(l), d, r, o))
  }

  lemma LearnsLookup(cfg: Config, db: Db, d: nat, r: nat, o: Outcomes)
    requires d < |db.docs|
    ensures Learns(cfg, db, d, r, o, LookupOf(cfg, db.docs, d, o))
  {
    StagedIsReady(cfg, db, d, r, o);
    LookupLeads(cfg, Staged(cfg, db, d, r, o, 4), db.docs, d, r, o);
  }

  lemma PassesFifth(cfg: Config, db: Db, d: nat, r: nat, o: Outcomes, l: Gates.Lookup)
    requires d < |db.docs| && Learns(cfg, db, d, r, o, l) && l == Gates.NoDuplicate && 5 <= cfg.maxIterations
    ensures Passes(cfg, db, d, r, o, 4)
  {
    var at := Staged(cfg, db, d, r, o, 4);
    StepsGrow(r, 4, db.tools);
    Clears(cfg, at, d, r, o);
    Once(cfg, at, At(RecordLookup(None), d, r, o), RecordTool(r, CheckDuplicate, Success, None), Enter(cfg, 6, LoadThreshold), Staged(cfg, db, d, r, o, 5));
  }

  lemma SixthStage(cfg: Config, db: Db, d: nat, r: nat, o: Outcomes)
    requires d < |db.docs|
    ensures Exec(Staged(cfg, db, d, r, o, 5), RecordTool(r, CalculateConfidence, Success, None)) == Staged(cfg, db, d, r, o, 6)
  {
    StepsGrow(r, 5, db.tools);
  }

  lemma PassesSixth(cfg: Config, db: Db, d: nat, r: nat, o: Outcomes, l: Gates.Lookup)
    requires d < |db.docs| && Gates.Gate(cfg, o, l, 6).None?
    ensures Passes(cfg, db, d, r, o, 5)
  {
    var at := Staged(cfg, db, d, r, o, 5);
    SixthStage(cfg, db, d, r, o);
    Scores(cfg, at, d, r, o);
    Once(cfg, at, At(LoadThreshold, d, r, o), Query, RecordConfidence, at);
    Once(cfg, at, At(RecordConfidence, d, r, o), RecordTool(r, CalculateConfidence, Success, None), Enter(cfg, 7, PersistAuto),
         Staged(cfg, db, d, r, o, 6));
  }

  lemma Finishes(cfg: Config, db: Db, d: nat, r: nat, o: Outcomes)
    ensures o.autoOk ==> Takes(cfg, db, At(PersistAuto, d, r, o), MarkAutoProcessed(d, Overall(o)), RecordFinalize)
    ensures Takes(cfg, db, At(RecordFinalize, d, r, o), RecordTool(r, FinalizeDocument, Success, None), FinishAuto)
    ensures Takes(cfg, db, At(FinishAuto, d, r, o), Finish(r, Completed, 7), AuditAuto)
    ensures Issue(cfg, db, At(AuditAuto, d, r, o)) == Audit(EntryOfRun(TenantOf(db, d), DocAutoProcessed, OfDocument(d), r))
    ensures Goto(cfg, db, At(AuditAuto, d, r, o)) == None
  {
  }

  ghost function ToldLast(cfg: Config, db: Db, d: nat, r: nat, o: Outcomes): Db
    requires d < |db.docs|
  {
    Exec(Exec(Staged(cfg, db, d, r, o, 6), MarkAutoProcessed(d, Overall(o))), RecordTool(r, FinalizeDocument, Success, None))
  }

  ghost function FinishedLast(cfg: Config, db: Db, d: nat, r: nat, o: Outcomes): Db
    requires d < |db.docs|
  {
    Exec(ToldLast(cfg, db, d, r, o), Finish(r, Completed, 7))
  }

  lemma ReachesFinish(cfg: Config, db: Db, d: nat, r: nat, o: Outcomes)
    requires d < |db.docs| && o.autoOk
    ensures Solo(cfg, Staged(cfg, db, d, r, o, 6), At(PersistAuto, d, r, o)) == Solo(cfg, ToldLast(cfg, db, d, r, o), At(FinishAuto, d, r, o))
  {
    var at, mark := Staged(cfg, db, d, r, o, 6), MarkAutoProcessed(d, Overall(o));
    Finishes(cfg, at, d, r, o);
    Finishes(cfg, Exec(at, mark), d, r, o);
    Twice(cfg, at, At(PersistAuto, d, r, o), mark, RecordFinalize, RecordTool(r, FinalizeDocument, Success, None), FinishAuto, ToldLast(cfg, db, d, r, o));
  }

  lemma EndsFinished(cfg: Config, db: Db, d: nat, r: nat, o: Outcomes)
    requires d < |db.docs| && r < |db.runs|
    ensures Solo(cfg, ToldLast(cfg, db, d, r, o), At(FinishAuto, d, r, o)) == Finalized(cfg, db, d, r, o)
  {
    var told, last, c := ToldLast(cfg, db, d, r, o), FinishedLast(cfg, db, d, r, o), At(FinishAuto, d, r, o);
    Finishes(cfg, told, d, r, o);
    Finishes(cfg, last, d, r, o);
    LastStage(cfg, db, d, r, o);
    Once(cfg, told, c, Finish(r, Completed, 7), AuditAuto, last);
    Ends(cfg, last, c.(pc := AuditAuto), Audit(EntryOfRun(db.docs[d].tenant, DocAutoProcessed, OfDocument(d), r)));
  }

  lemma LastStage(cfg: Config, db: Db, d: nat, r: nat, o: Outcomes)
    requires d < |db.docs| && r < |db.runs|
    ensures Exec(FinishedLast(cfg, db, d, r, o), Audit(EntryOfRun(db.docs[d].tenant, DocAutoProcessed, OfDocument(d), r))) == Finalized(cfg, db, d, r, o)
    ensures TenantOf(FinishedLast(cfg, db, d, r, o), d) == db.docs[d].tenant
  {
  }

  lemma PassesLast(cfg: Config, db: Db, d: nat, r: nat, o: Outcomes, l: Gates.Lookup)
    requires d < |db.docs| && r < |db.runs| && Gates.Gate(cfg, o, l, 7).None?
    ensures AtGate(cfg, db, d, r, o, 6) == Finalized(cfg, db, d, r, o)
  {
    ReachesFinish(cfg, db, d, r, o);
    EndsFinished(cfg, db, d, r, o);
  }

  // ----- where a gate stops the run -----

  /** Where a run goes that stops at gate `k + 1`. */
  function EndPc(k: nat, ending: Gates.Ending): Pc {
    match ending
    case Fails(cause) => FailFinish(k + 1, cause, true)
    case ToReview(reason) => OpenTask(k + 1, reason)
    case AutoProcess => FinishAuto
  }

  /** A gate that stops the run takes it to `fail` or `routeToReview`, with what the
      stop adds in the tables. */
  ghost predicate Halts(cfg: Config, db: Db, d: nat, r: nat, o: Outcomes, l: Gates.Lookup, k: nat, stop: Gates.Stop)
    requires d < |db.docs|
  {
    AtGate(cfg, db, d, r, o, k) == Solo(cfg, Halted(cfg, db, d, r, o, l, k, stop), At(EndPc(k, stop.ending), d, r, o))
  }

  /** Nothing is added but, at most, the step's own row. */
  lemma PlainHalt(cfg: Config, db: Db, d: nat, r: nat, o: Outcomes, l: Gates.Lookup, k: nat, stop: Gates.Stop)
    requires d < |db.docs| && stop.ending != Gates.Fails(PersistExtractedStatusFailed) && stop.ending != Gates.ToReview(Duplicate)
    ensures var at := Staged(cfg, db, d, r, o, k);
      Halted(cfg, db, d, r, o, l, k, stop) == match stop.tool
        case None => at
        case Some(status) => Exec(at, RecordTool(r, Gates.ToolAt(k + 1), status, Gates.StepRow(r, k + 1, status, l).found))
  {
    var at := Staged(cfg, db, d, r, o, k);
    assert at.tools + [] == at.tools && at.fields + [] == at.fields;
  }

  lemma CapHalts(cfg: Config, db: Db, d: nat, r: nat, o: Outcomes, l: Gates.Lookup, k: nat, stop: Gates.Stop)
    requires d < |db.docs| && k + 1 > cfg.maxIterations && Gates.Gate(cfg, o, l, k + 1) == Some(stop)
    ensures Halts(cfg, db, d, r, o, l, k, stop)
  {
    PlainHalt(cfg, db, d, r, o, l, k, stop);
  }

  lemma OcrStops(cfg: Config, db: Db, d: nat, r: nat, o: Outcomes)
    requires o.ocr != Answered
    ensures Takes(cfg, db, At(RecordOcr, d, r, o), RecordTool(r, RunOcr, CallStatus(o.ocr), None),
                  FailFinish(1, if o.ocr == TimedOut then OcrTimeout else OcrFailed, true))
  {
  }

  lemma HaltsFirst(cfg: Config, db: Db, d: nat, r: nat, o: Outcomes, l: Gates.Lookup, stop: Gates.Stop)
    requires d < |db.docs| && 1 <= cfg.maxIterations && Gates.Gate(cfg, o, l, 1) == Some(stop)
    ensures Halts(cfg, db, d, r, o, l, 0, stop)
  {
    var at := Staged(cfg, db, d, r, o, 0);
    PlainHalt(cfg, db, d, r, o, l, 0, stop);
    OcrStops(cfg, at, d, r, o);
    Once(cfg, at, At(RecordOcr, d, r, o), RecordTool(r, RunOcr, CallStatus(o.ocr), None), EndPc(0, stop.ending), Halted(cfg, db, d, r, o, l, 0, stop));
  }

  lemma ClassifyStops(cfg: Config, db: Db, d: nat, r: nat, o: Outcomes)
    ensures o.classify != Answered ==>
      Takes(cfg, db, At(RecordClassify, d, r, o), RecordTool(r, ClassifyDocument, CallStatus(o.classify), None),
            FailFinish(2, if o.classify == TimedOut then ClassificationTimeout else ClassificationFailed, true))
    ensures o.classify == Answered ==>
      Takes(cfg, db, At(RecordClassify, d, r, o), RecordTool(r, ClassifyDocument, Success, None),
            if o.docType == UNKNOWN_TYPE then OpenTask(2, UnknownType) else PersistClassified)
    ensures !ClassificationPersists(cfg, o) ==>
      Takes(cfg, db, At(PersistClassified, d, r, o), Query, FailFinish(2, PersistClassificationFailed, true))
  {
  }

  lemma ClassifyHalt(cfg: Config, db: Db, d: nat, r: nat, o: Outcomes, l: Gates.Lookup, stop: Gates.Stop)
    requires d < |db.docs| && 2 <= cfg.maxIterations && Gates.Gate(cfg, o, l, 2) == Some(stop)
    ensures Halted(cfg, db, d, r, o, l, 1, stop) == Exec(Staged(cfg, db, d, r, o, 1), RecordTool(r, ClassifyDocument, CallStatus(o.classify), None))
  {
    PlainHalt(cfg, db, d, r, o, l, 1, stop);
  }

  lemma HaltsSecond(cfg: Config, db: Db, d: nat, r: nat, o: Outcomes, l: Gates.Lookup, stop: Gates.Stop)
    requires d < |db.docs| && 2 <= cfg.maxIterations && Gates.Gate(cfg, o, l, 2) == Some(stop)
    ensures Halts(cfg, db, d, r, o, l, 1, stop)
  {
    var at, c, halted := Staged(cfg, db, d, r, o, 1), At(RecordClassify, d, r, o), Halted(cfg, db, d, r, o, l, 1, stop);
    var tool := RecordTool(r, ClassifyDocument, CallStatus(o.classify), None);
    ClassifyHalt(cfg, db, d, r, o, l, stop);
    ClassifyStops(cfg, at, d, r, o);
    ClassifyStops(cfg, halted, d, r, o);
    if o.classify != Answered || o.docType == UNKNOWN_TYPE {
      Once(cfg, at, c, tool, EndPc(1, stop.ending), halted);
    } else {
      Twice(cfg, at, c, tool, PersistClassified, Query, EndPc(1, stop.ending), halted);
    }
  }

  lemma SchemaStops(cfg: Config, db: Db, d: nat, r: nat, o: Outcomes)
    ensures !o.schemaOk ==> Takes(cfg, db, At(LoadSchema, d, r, o), Query, FailFinish(3, LoadFieldSchemaFailed, true))
    ensures o.schemaOk && o.extract != Answered ==>
      Takes(cfg, db, At(LoadSchema, d, r, o), Query,
            RecordExtractError(CallStatus(o.extract), if o.extract == TimedOut then ExtractionTimeout else ExtractionFailed))
    ensures o.schemaOk && o.extract == Answered ==> Takes(cfg, db, At(LoadSchema, d, r, o), Query, PersistFields)
    ensures !FieldsPersist(o) ==>
      Takes(cfg, db, At(PersistFields, d, r, o), Query, RecordExtractError(ToolFailed, PersistExtractedFieldsFailed))
  {
  }

  lemma ExtractionStops(cfg: Config, db: Db, d: nat, r: nat, o: Outcomes, outcome: ToolStatus, why: FailReason)
    ensures Takes(cfg, db, At(RecordExtractError(outcome, why), d, r, o), RecordTool(r, ExtractFields, outcome, None), FailFinish(3, why, true))
    ensures !o.extractedOk ==> Takes(cfg, db, At(PersistExtracted, d, r, o), Query, FailFinish(3, PersistExtractedStatusFailed, true))
  {
  }

  lemma StoredHalt(cfg: Config, db: Db, d: nat, r: nat, o: Outcomes, l: Gates.Lookup, stop: Gates.Stop)
    requires d < |db.docs| && stop == Gates.Stop(Gates.Fails(PersistExtractedStatusFailed), Some(Success))
    ensures Halted(cfg, db, d, r, o, l, 2, stop) == StoredThird(cfg, db, d, r, o)
  {
  }

  lemma HaltsThird(cfg: Config, db: Db, d: nat, r: nat, o: Outcomes, l: Gates.Lookup, stop: Gates.Stop)
    requires d < |db.docs| && 3 <= cfg.maxIterations && Gates.Gate(cfg, o, l, 3) == Some(stop)
    ensures Halts(cfg, db, d, r, o, l, 2, stop)
  {
    var at, c, halted := Staged(cfg, db, d, r, o, 2), At(LoadSchema, d, r, o), Halted(cfg, db, d, r, o, l, 2, stop);
    SchemaStops(cfg, at, d, r, o);
    if o.schemaOk && o.extract == Answered && FieldsPersist(o) {
      ReachesStored(cfg, db, d, r, o);
      StoredHalt(cfg, db, d, r, o, l, stop);
      ExtractionStops(cfg, halted, d, r, o, Success, PersistExtractedStatusFailed);
      Once(cfg, halted, c.(pc := PersistExtracted), Query, EndPc(2, stop.ending), halted);
    } else {
      PlainHalt(cfg, db, d, r, o, l, 2, stop);
      if !o.schemaOk {
        Once(cfg, at, c, Query, EndPc(2, stop.ending), halted);
      } else {
        HaltsWithError(cfg, db, d, r, o, l, stop.tool.value, stop.ending.cause);
      }
    }
  }

  /** The extraction did not answer, or its rows could not be stored. */
  predicate ExtractionErrs(o: Outcomes, outcome: ToolStatus, why: FailReason) {
    && o.schemaOk
    && if o.extract == Answered then !FieldsPersist(o) && outcome == ToolFailed && why == PersistExtractedFieldsFailed
       else outcome == CallStatus(o.extract) && why == if o.extract == TimedOut then ExtractionTimeout else ExtractionFailed
  }

  lemma ReachesError(cfg: Config, db: Db, d: nat, r: nat, o: Outcomes, outcome: ToolStatus, why: FailReason)
    requires ExtractionErrs(o, outcome, why)
    ensures Solo(cfg, db, At(LoadSchema, d, r, o)) == Solo(cfg, db, At(RecordExtractError(outcome, why), d, r, o))
  {
    var c := At(LoadSchema, d, r, o);
    SchemaStops(cfg, db, d, r, o);
    if o.extract != Answered {
      Once(cfg, db, c, Query, RecordExtractError(outcome, why), db);
    } else {
      Twice(cfg, db, c, Query, PersistFields, Query, RecordExtractError(outcome, why), db);
    }
  }

  lemma ErrorHalt(cfg: Config, db: Db, d: nat, r: nat, o: Outcomes, l: Gates.Lookup, outcome: ToolStatus, why: FailReason)
    requires d < |db.docs| && why != PersistExtractedStatusFailed
    ensures Halted(cfg, db, d, r, o, l, 2, Gates.Stop(Gates.Fails(why), Some(outcome))) ==
            Exec(Staged(cfg, db, d, r, o, 2), RecordTool(r, ExtractFields, outcome, None))
  {
    PlainHalt(cfg, db, d, r, o, l, 2, Gates.Stop(Gates.Fails(why), Some(outcome)));
  }

  lemma RecordsError(cfg: Config, db: Db, d: nat, r: nat, o: Outcomes, outcome: ToolStatus, why: FailReason)
    ensures Solo(cfg, db, At(RecordExtractError(outcome, why), d, r, o)) ==
            Solo(cfg, Exec(db, RecordTool(r, ExtractFields, outcome, None)), At(FailFinish(3, why, true), d, r, o))
  {
    var tool := RecordTool(r, ExtractFields, outcome, None);
    ExtractionStops(cfg, db, d, r, o, outcome, why);
    Once(cfg, db, At(RecordExtractError(outcome, why), d, r, o), tool, FailFinish(3, why, true), Exec(db, tool));
  }

  lemma HaltsWithError(cfg: Config, db: Db, d: nat, r: nat, o: Outcomes, l: Gates.Lookup, outcome: ToolStatus, why: FailReason)
    requires d < |db.docs| && 3 <= cfg.maxIterations && ExtractionErrs(o, outcome, why)
    ensures Halts(cfg, db, d, r, o, l, 2, Gates.Stop(Gates.Fails(why), Some(outcome)))
  {
    ErrorHalt(cfg, db, d, r, o, l, outcome, why);
    ReachesError(cfg, Staged(cfg, db, d, r, o, 2), d, r, o, outcome, why);
    RecordsError(cfg, Staged(cfg, db, d, r, o, 2), d, r, o, outcome, why);
  }

  lemma ValidationStops(cfg: Config, db: Db, d: nat, r: nat, o: Outcomes)
    ensures Takes(cfg, db, At(RecordValidate, d, r, o), RecordTool(r, ValidateExtraction, Success, None),
                  if Accepted(cfg, o) then PersistValidated else OpenTask(4, ValidationFailed))
    ensures !o.validatedOk ==> Takes(cfg, db, At(PersistValidated, d, r, o), Query, FailFinish(4, PersistValidatedStatusFailed, true))
  {
  }

  lemma ValidationHalt(cfg: Config, db: Db, d: nat, r: nat, o: Outcomes, l: Gates.Lookup, stop: Gates.Stop)
    requires d < |db.docs| && stop.tool == Some(Success)
    requires stop.ending == Gates.ToReview(ValidationFailed) || stop.ending == Gates.Fails(PersistValidatedStatusFailed)
    ensures Halted(cfg, db, d, r, o, l, 3, stop) == Exec(Staged(cfg, db, d, r, o, 3), RecordTool(r, ValidateExtraction, Success, None))
  {
    PlainHalt(cfg, db, d, r, o, l, 3, stop);
  }

  lemma HaltsFourth(cfg: Config, db: Db, d: nat, r: nat, o: Outcomes, l: Gates.Lookup, stop: Gates.Stop)
    requires d < |db.docs| && 4 <= cfg.maxIterations && Gates.Gate(cfg, o, l, 4) == Some(stop)
    ensures Halts(cfg, db, d, r, o, l, 3, stop)
  {
    var at, c, halted := Staged(cfg, db, d, r, o, 3), At(RecordValidate, d, r, o), Halted(cfg, db, d, r, o, l, 3, stop);
    var tool := RecordTool(r, ValidateExtraction, Success, None);
    ValidationHalt(cfg, db, d, r, o, l, stop);
    ValidationStops(cfg, at, d, r, o);
    if !Accepted(cfg, o) {
      Once(cfg, at, c, tool, EndPc(3, stop.ending), halted);
    } else {
      ValidationStops(cfg, halted, d, r, o);
      Twice(cfg, at, c, tool, PersistValidated, Query, EndPc(3, stop.ending), halted);
    }
  }

  lemma LookupStops(cfg: Config, db: Db, d: nat, r: nat, o: Outcomes)
    ensures Takes(cfg, db, At(RecordLookupError, d, r, o), RecordTool(r, CheckDuplicate, ToolFailed, None), FailFinish(5, DuplicateCheckFailed, true))
  {
  }

  lemma DuplicateStops(cfg: Config, db: Db, d: nat, r: nat, o: Outcomes, e: nat)
    ensures Takes(cfg, db, At(RecordLookup(Some(e)), d, r, o), RecordTool(r, CheckDuplicate, Success, Some(e)), PersistDuplicate(e))
    ensures Takes(cfg, db, At(PersistDuplicate(e), d, r, o), MarkDuplicateOf(d, e), OpenTask(5, Duplicate))
  {
  }

  lemma LinkedHalt(cfg: Config, db: Db, d: nat, r: nat, o: Outcomes, e: nat, stop: Gates.Stop)
    requires d < |db.docs| && stop == Gates.Stop(Gates.ToReview(Duplicate), Some(Success))
    ensures Halted(cfg, db, d, r, o, Gates.Found(e), 4, stop)
      == Exec(Exec(Staged(cfg, db, d, r, o, 4), RecordTool(r, CheckDuplicate, Success, Some(e))), MarkDuplicateOf(d, e))
  {
  }

  lemma HaltsOnDuplicate(cfg: Config, db: Db, d: nat, r: nat, o: Outcomes, e: nat, stop: Gates.Stop)
    requires d < |db.docs| && 5 <= cfg.maxIterations && Learns(cfg, db, d, r, o, Gates.Found(e))
    requires stop == Gates.Stop(Gates.ToReview(Duplicate), Some(Success))
    ensures Halts(cfg, db, d, r, o, Gates.Found(e), 4, stop)
  {
    var at, tool := Staged(cfg, db, d, r, o, 4), RecordTool(r, CheckDuplicate, Success, Some(e));
    DuplicateStops(cfg, at, d, r, o, e);
    DuplicateStops(cfg, Exec(at, tool), d, r, o, e);
    LinkedHalt(cfg, db, d, r, o, e, stop);
    Twice(cfg, at, At(RecordLookup(Some(e)), d, r, o), tool, PersistDuplicate(e), MarkDuplicateOf(d, e), OpenTask(5, Duplicate),
          Halted(cfg, db, d, r, o, Gates.Found(e), 4, stop));
  }

  lemma HaltsOnError(cfg: Config, db: Db, d: nat, r: nat, o: Outcomes, stop: Gates.Stop)
    requires d < |db.docs| && 5 <= cfg.maxIterations && Learns(cfg, db, d, r, o, Gates.LookupError)
    requires stop == Gates.Stop(Gates.Fails(DuplicateCheckFailed), Some(ToolFailed))
    ensures Halts(cfg, db, d, r, o, Gates.LookupError, 4, stop)
  {
    FailsOnLookup(cfg, db, d, r, o, stop);
  }

  lemma FailsOnLookup(cfg: Config, db: Db, d: nat, r: nat, o: Outcomes, stop: Gates.Stop)
    requires d < |db.docs| && stop == Gates.Stop(Gates.Fails(DuplicateCheckFailed), Some(ToolFailed))
    ensures Solo(cfg, Staged(cfg, db, d, r, o, 4), At(RecordLookupError, d, r, o))
      == Solo(cfg, Halted(cfg, db, d, r, o, Gates.LookupError, 4, stop), At(FailFinish(5, DuplicateCheckFailed, true), d, r, o))
  {
    var at := Staged(cfg, db, d, r, o, 4);
    LookupStops(cfg, at, d, r, o);
    PlainHalt(cfg, db, d, r, o, Gates.LookupError, 4, stop);
    Once(cfg, at, At(RecordLookupError, d, r, o), RecordTool(r, CheckDuplicate, ToolFailed, None), FailFinish(5, DuplicateCheckFailed, true),
         Halted(cfg, db, d, r, o, Gates.LookupError, 4, stop));
  }

  lemma HaltsFifth(cfg: Config, db: Db, d: nat, r: nat, o: Outcomes, l: Gates.Lookup, stop: Gates.Stop)
    requires d < |db.docs| && 5 <= cfg.maxIterations && Learns(cfg, db, d, r, o, l) && Gates.Gate(cfg, o, l, 5) == Some(stop)
    ensures Halts(cfg, db, d, r, o, l, 4, stop)
  {
    if l.Found? {
      HaltsOnDuplicate(cfg, db, d, r, o, l.original, stop);
    } else {
      HaltsOnError(cfg, db, d, r, o, stop);
    }
  }

  lemma ConfidenceStops(cfg: Config, db: Db, d: nat, r: nat, o: Outcomes)
    ensures Takes(cfg, db, At(LoadThreshold, d, r, o), Query, if o.thresholdOk then RecordConfidence else FailFinish(6, LoadThresholdFailed, true))
    ensures Overall(o) < Threshold(cfg, o) ==>
      Takes(cfg, db, At(RecordConfidence, d, r, o), RecordTool(r, CalculateConfidence, Success, None), OpenTask(6, LowConfidence))
    ensures !o.autoOk ==> Takes(cfg, db, At(PersistAuto, d, r, o), Query, FailFinish(7, PersistAutoProcessedFailed, true))
  {
  }

  lemma HaltsSixth(cfg: Config, db: Db, d: nat, r: nat, o: Outcomes, l: Gates.Lookup, stop: Gates.Stop)
    requires d < |db.docs| && 6 <= cfg.maxIterations && Gates.Gate(cfg, o, l, 6) == Some(stop)
    ensures Halts(cfg, db, d, r, o, l, 5, stop)
  {
    var at, c, halted := Staged(cfg, db, d, r, o, 5), At(LoadThreshold, d, r, o), Halted(cfg, db, d, r, o, l, 5, stop);
    PlainHalt(cfg, db, d, r, o, l, 5, stop);
    ConfidenceStops(cfg, at, d, r, o);
    if !o.thresholdOk {
      Once(cfg, at, c, Query, EndPc(5, stop.ending), halted);
    } else {
      Twice(cfg, at, c, Query, RecordConfidence, RecordTool(r, CalculateConfidence, Success, None), EndPc(5, stop.ending), halted);
    }
  }

  lemma HaltsLast(cfg: Config, db: Db, d: nat, r: nat, o: Outcomes, l: Gates.Lookup, stop: Gates.Stop)
    requires d < |db.docs| && 7 <= cfg.maxIterations && Gates.Gate(cfg, o, l, 7) == Some(stop)
    ensures Halts(cfg, db, d, r, o, l, 6, stop)
  {
    var at := Staged(cfg, db, d, r, o, 6);
    PlainHalt(cfg, db, d, r, o, l, 6, stop);
    ConfidenceStops(cfg, at, d, r, o);
    Once(cfg, at, At(PersistAuto, d, r, o), Query, EndPc(6, stop.ending), Halted(cfg, db, d, r, o, l, 6, stop));
  }

  // ----- the whole run -----

  /** Run `r` is driving document `d`. */
  ghost predicate InHand(db: Db, d: nat, r: nat) {
    d < |db.docs| && r < |db.runs| && db.runs[r].doc == d && db.runs[r].status == Running
  }

  /** `fail` and `routeToReview` end a halted run as described. */
  lemma HaltedEnds(cfg: Config, db: Db, d: nat, r: nat, o: Outcomes, l: Gates.Lookup, k: nat, stop: Gates.Stop)
    requires InHand(db, d, r) && !stop.ending.AutoProcess?
    ensures Solo(cfg, Halted(cfg, db, d, r, o, l, k, stop), At(EndPc(k, stop.ending), d, r, o)) == Stopped(cfg, db, d, r, o, l, k, stop)
  {
    var at, c := Halted(cfg, db, d, r, o, l, k, stop), At(EndPc(k, stop.ending), d, r, o);
    assert at.runs == db.runs && |at.docs| == |db.docs|;
    if stop.ending.Fails? {
      RunFails(cfg, at, c);
    } else {
      RunIsRouted(cfg, at, c);
    }
  }

  lemma GateHalts(cfg: Config, db: Db, d: nat, r: nat, o: Outcomes, l: Gates.Lookup, k: nat, stop: Gates.Stop)
    requires d < |db.docs| && k < 7 && Learns(cfg, db, d, r, o, l) && Gates.Gate(cfg, o, l, k + 1) == Some(stop)
    ensures Halts(cfg, db, d, r, o, l, k, stop)
  {
    if k + 1 > cfg.maxIterations { CapHalts(cfg, db, d, r, o, l, k, stop); }
    else if k == 0 { HaltsFirst(cfg, db, d, r, o, l, stop); }
    else if k == 1 { HaltsSecond(cfg, db, d, r, o, l, stop); }
    else if k == 2 { HaltsThird(cfg, db, d, r, o, l, stop); }
    else if k == 3 { HaltsFourth(cfg, db, d, r, o, l, stop); }
    else if k == 4 { HaltsFifth(cfg, db, d, r, o, l, stop); }
    else if k == 5 { HaltsSixth(cfg, db, d, r, o, l, stop); }
    else { HaltsLast(cfg, db, d, r, o, l, stop); }
  }

  lemma StopsShort(cfg: Config, o: Outcomes, l: Gates.Lookup, k: nat)
    ensures var stop := Gates.Gate(cfg, o, l, k); stop.Some? ==> !stop.value.ending.AutoProcess?
  {
  }

  lemma GatePasses(cfg: Config, db: Db, d: nat, r: nat, o: Outcomes, l: Gates.Lookup, k: nat)
    requires d < |db.docs| && k < 6 && Learns(cfg, db, d, r, o, l) && Gates.Gate(cfg, o, l, k + 1).None?
    ensures Passes(cfg, db, d, r, o, k)
  {
    if k == 0 { PassesFirst(cfg, db, d, r, o, l); }
    else if k == 1 { PassesSecond(cfg, db, d, r, o, l); }
    else if k == 2 { PassesThird(cfg, db, d, r, o, l); }
    else if k == 3 { PassesFourth(cfg, db, d, r, o, l); }
    else if k == 4 { PassesFifth(cfg, db, d, r, o, l); }
    else { PassesSixth(cfg, db, d, r, o, l); }
  }

  lemma {:induction false} RunsFromGate(cfg: Config, db: Db, d: nat, r: nat, o: Outcomes, l: Gates.Lookup, k: nat)
    requires InHand(db, d, r) && k < 7 && Learns(cfg, db, d, r, o, l)
    ensures AtGate(cfg, db, d, r, o, k) == OutcomeFrom(cfg, db, d, r, o, l, k)
    decreases 7 - k
  {
    var stop := Gates.Gate(cfg, o, l, k + 1);
    if stop.Some? {
      GateHalts(cfg, db, d, r, o, l, k, stop.value);
      StopsShort(cfg, o, l, k + 1);
      HaltedEnds(cfg, db, d, r, o, l, k, stop.value);
    } else if k == 6 {
      PassesLast(cfg, db, d, r, o, l);
    } else {
      GatePasses(cfg, db, d, r, o, l, k);
      RunsFromGate(cfg, db, d, r, o, l, k + 1);
    }
  }

  lemma Loads(cfg: Config, db: Db, d: nat, r: nat, o: Outcomes)
    requires d < |db.docs|
    ensures Takes(cfg, db, At(Load, d, r, o), Query, if o.loadOk then Enter(cfg, 1, RecordOcr) else FailFinish(0, LoadDocumentFailed, false))
  {
  }

  lemma StagedNothing(cfg: Config, db: Db, d: nat, r: nat, o: Outcomes)
    requires d < |db.docs|
    ensures Staged(cfg, db, d, r, o, 0) == db
  {
    assert db.tools + [] == db.tools && db.audit + [] == db.audit;
    assert db.docs[d := db.docs[d]] == db.docs;
  }

  /** An uninterrupted run leaves exactly the tables its first failing gate says. */
  lemma {:induction false} RunHasOutcome(cfg: Config, db: Db, d: nat, r: nat, o: Outcomes)
    requires InHand(db, d, r)
    ensures Solo(cfg, db, At(Load, d, r, o)) == Outcome(cfg, db, d, r, o)
  {
    Loads(cfg, db, d, r, o);
    if o.loadOk {
      StagedNothing(cfg, db, d, r, o);
      LearnsLookup(cfg, db, d, r, o);
      Once(cfg, db, At(Load, d, r, o), Query, Enter(cfg, 1, RecordOcr), db);
      RunsFromGate(cfg, db, d, r, o, LookupOf(cfg, db.docs, d, o), 0);
    } else {
      Once(cfg, db, At(Load, d, r, o), Query, FailFinish(0, LoadDocumentFailed, false), db);
      RunFails(cfg, db, At(FailFinish(0, LoadDocumentFailed, false), d, r, o));
    }
  }

  // ----- as a function of the verdict -----

  /** How many gates a run with this verdict got past. */
  function GatesPassed(v: Gates.Verdict): nat {
    if v.ending.AutoProcess? then 7 else if v.iterations == 0 then 0 else v.iterations - 1
  }

  /** The status the verdict leaves the document with; `failures` counts its failed
      runs before this one. */
  function StatusFor(cfg: Config, v: Gates.Verdict, failures: nat, o: Outcomes): Status {
    match v.ending
    case AutoProcess => AutoProcessed
    case ToReview(_) => PendingReview
    case Fails(cause) => if TriesAgain(cfg, failures + 1, cause, o) then Uploaded else Failed
  }

  /** The document's row as the verdict leaves it. */
  ghost predicate RowFollows(cfg: Config, before: Document, after: Document, failures: nat, o: Outcomes, l: Gates.Lookup, v: Gates.Verdict) {
    var p, hash := GatesPassed(v), KeyFields.KeyHash(cfg, o.fields);
    && SameOrigin(after, before)
    && after.status == StatusFor(cfg, v, failures, o)
    && after.docType == (if p >= 2 then Some(o.docType) else before.docType)
    && after.classConf == (if p >= 2 || v.ending == Gates.ToReview(UnknownType) then Some(o.confidence) else before.classConf)
    && after.keyHash == (if p >= 3 && hash.Some? then hash else before.keyHash)
    && after.overallConf ==
         (if v.ending == Gates.AutoProcess || v.ending == Gates.ToReview(LowConfidence) then Some(Overall(o)) else before.overallConf)
    && after.duplicateOf == (if v.ending == Gates.ToReview(Duplicate) && l.Found? then Some(l.original) else before.duplicateOf)
  }

  /** The audit entries a run with this verdict writes, in order. */
  function EntriesFor(cfg: Config, tenant: nat, d: nat, r: nat, failures: nat, o: Outcomes, v: Gates.Verdict): seq<Entry> {
    StagedEntries(tenant, d, r, GatesPassed(v)) +
    match v.ending
    case AutoProcess => [EntryOfRun(tenant, DocAutoProcessed, OfDocument(d), r)]
    case ToReview(reason) => [EntryOfRun(tenant, DocRouted(reason), OfDocument(d), r)]
    case Fails(cause) =>
      if !o.loadOk then []
      else [EntryOfRun(tenant, if TriesAgain(cfg, failures + 1, cause, o) then RunRetrying(cause) else RunFailedFor(cause), OfRun(r), r)]
  }

  /** The field rows are stored with the third gate, or when only the status after
      them could not be. */
  function StoresRows(v: Gates.Verdict): bool {
    GatesPassed(v) >= 3 || v.ending == Gates.Fails(PersistExtractedStatusFailed)
  }

  /** All six tables as the verdict leaves them. */
  ghost predicate Follows(cfg: Config, db: Db, after: Db, d: nat, r: nat, o: Outcomes, l: Gates.Lookup, v: Gates.Verdict) {
    && d < |db.docs| == |after.docs| && r < |db.runs|
    && (forall e :: 0 <= e < |db.docs| && e != d ==> after.docs[e] == db.docs[e])
    && RowFollows(cfg, db.docs[d], after.docs[d], CountFailed(db, d), o, l, v)
    && after.runs == db.runs[r := db.runs[r].(status := if v.ending.Fails? then RunFailed else Completed, iterations := v.iterations)]
    && after.tasks == db.tasks + (if v.ending.ToReview? then [Task(d, v.ending.reason, Pending)] else [])
    && after.tools == db.tools + Gates.TraceOf(v, r, l)
    && after.fields == db.fields + (if StoresRows(v) then Rows(d, o, |db.fields|) else [])
    && after.audit == db.audit + EntriesFor(cfg, db.docs[d].tenant, d, r, CountFailed(db, d), o, v)
  }

  lemma TraceOfStop(r: nat, k: nat, l: Gates.Lookup, v: Gates.Verdict)
    requires v.iterations == k + 1 && (k >= 5 ==> l.NoDuplicate?)
    ensures Gates.TraceOf(v, r, l) ==
      Gates.Steps(r, k, Gates.NoDuplicate) + if v.tool.Some? then [Gates.StepRow(r, k + 1, v.tool.value, l)] else []
  {
    if k < 5 {
      Gates.EarlyStepsIgnoreLookup(r, k, l, Gates.NoDuplicate);
    }
  }

  lemma HaltedRow(cfg: Config, db: Db, d: nat, r: nat, o: Outcomes, l: Gates.Lookup, k: nat, stop: Gates.Stop)
    requires d < |db.docs|
    ensures var at := Halted(cfg, db, d, r, o, l, k, stop);
      && |at.docs| == |db.docs| && at.runs == db.runs && at.tasks == db.tasks
      && (forall e :: 0 <= e < |db.docs| && e != d ==> at.docs[e] == db.docs[e])
      && at.docs[d] == StagedDoc(cfg, db.docs[d], o, k).(
           duplicateOf := if stop.ending == Gates.ToReview(Duplicate) && l.Found? then Some(l.original) else db.docs[d].duplicateOf)
      && at.tools == db.tools + (Gates.Steps(r, k, Gates.NoDuplicate) + if stop.tool.Some? then [Gates.StepRow(r, k + 1, stop.tool.value, l)] else [])
  {
  }

  lemma StoppedFollows(cfg: Config, db: Db, d: nat, r: nat, o: Outcomes, l: Gates.Lookup, k: nat, stop: Gates.Stop)
    requires d < |db.docs| && r < |db.runs| && !stop.ending.AutoProcess? && (k >= 5 ==> l.NoDuplicate?)
    requires stop.ending.ToReview? && stop.ending.reason == UnknownType ==> k == 1
    requires stop.ending == Gates.Fails(PersistExtractedStatusFailed) ==> k == 2
    requires o.loadOk
    ensures Follows(cfg, db, Stopped(cfg, db, d, r, o, l, k, stop), d, r, o, l, Gates.Verdict(k + 1, stop.ending, stop.tool))
  {
    if stop.ending.Fails? {
      FailedFollows(cfg, db, d, r, o, l, k, stop);
    } else {
      RoutedFollows(cfg, db, d, r, o, l, k, stop);
    }
  }

  lemma FailedFollows(cfg: Config, db: Db, d: nat, r: nat, o: Outcomes, l: Gates.Lookup, k: nat, stop: Gates.Stop)
    requires d < |db.docs| && r < |db.runs| && stop.ending.Fails? && (k >= 5 ==> l.NoDuplicate?) && o.loadOk
    requires stop.ending == Gates.Fails(PersistExtractedStatusFailed) ==> k == 2
    ensures Follows(cfg, db, Stopped(cfg, db, d, r, o, l, k, stop), d, r, o, l, Gates.Verdict(k + 1, stop.ending, stop.tool))
  {
    HaltedRow(cfg, db, d, r, o, l, k, stop);
    TraceOfStop(r, k, l, Gates.Verdict(k + 1, stop.ending, stop.tool));
    assert db.tasks + [] == db.tasks;
    HaltedRest(cfg, db, d, r, o, l, k, stop);
  }

  lemma RoutedFollows(cfg: Config, db: Db, d: nat, r: nat, o: Outcomes, l: Gates.Lookup, k: nat, stop: Gates.Stop)
    requires d < |db.docs| && r < |db.runs| && stop.ending.ToReview? && (k >= 5 ==> l.NoDuplicate?) && o.loadOk
    requires stop.ending.reason == UnknownType ==> k == 1
    ensures Follows(cfg, db, Stopped(cfg, db, d, r, o, l, k, stop), d, r, o, l, Gates.Verdict(k + 1, stop.ending, stop.tool))
  {
    HaltedRow(cfg, db, d, r, o, l, k, stop);
    TraceOfStop(r, k, l, Gates.Verdict(k + 1, stop.ending, stop.tool));
    HaltedRest(cfg, db, d, r, o, l, k, stop);
  }

  lemma HaltedRest(cfg: Config, db: Db, d: nat, r: nat, o: Outcomes, l: Gates.Lookup, k: nat, stop: Gates.Stop)
    requires d < |db.docs| && (stop.ending == Gates.Fails(PersistExtractedStatusFailed) ==> k == 2)
    ensures var at := Halted(cfg, db, d, r, o, l, k, stop);
      && at.fields == db.fields + (if k >= 3 || stop.ending == Gates.Fails(PersistExtractedStatusFailed) then Rows(d, o, |db.fields|) else [])
      && at.audit == db.audit + StagedEntries(db.docs[d].tenant, d, r, k)
  {
  }

  lemma FinalizedFollows(cfg: Config, db: Db, d: nat, r: nat, o: Outcomes)
    requires d < |db.docs| && r < |db.runs|
    ensures Follows(cfg, db, Finalized(cfg, db, d, r, o), d, r, o, Gates.NoDuplicate, Gates.Verdict(7, Gates.AutoProcess, Some(Success)))
  {
    assert db.tasks + [] == db.tasks;
    var at := Staged(cfg, db, d, r, o, 6);
    assert at.tools + [Gates.StepRow(r, 7, Success, Gates.NoDuplicate)]
      == db.tools + (Gates.Steps(r, 6, Gates.NoDuplicate) + [Gates.StepRow(r, 7, Success, Gates.NoDuplicate)]);
  }

  lemma StopsByStep(cfg: Config, o: Outcomes, l: Gates.Lookup, k: nat)
    ensures var stop := Gates.Gate(cfg, o, l, k);
      && (stop.Some? && stop.value.ending == Gates.ToReview(UnknownType) ==> k == 2)
      && (stop.Some? && stop.value.ending == Gates.Fails(PersistExtractedStatusFailed) ==> k == 3)
      && (stop.None? && k == 5 ==> l.NoDuplicate?)
  {
  }

  lemma StopFollows(cfg: Config, db: Db, d: nat, r: nat, o: Outcomes, l: Gates.Lookup, k: nat, stop: Gates.Stop)
    requires d < |db.docs| && r < |db.runs| && k < 7 && (k >= 5 ==> l.NoDuplicate?) && o.loadOk && Gates.Gate(cfg, o, l, k + 1) == Some(stop)
    ensures Follows(cfg, db, Stopped(cfg, db, d, r, o, l, k, stop), d, r, o, l, Gates.Verdict(k + 1, stop.ending, stop.tool))
  {
    StopsShort(cfg, o, l, k + 1);
    StopsByStep(cfg, o, l, k + 1);
    StoppedFollows(cfg, db, d, r, o, l, k, stop);
  }

  /** The description and the verdict go through the gates in step. */
  lemma GateByGate(cfg: Config, db: Db, d: nat, r: nat, o: Outcomes, l: Gates.Lookup, k: nat)
    requires d < |db.docs| && r < |db.runs| && k < 7
    ensures var stop := Gates.Gate(cfg, o, l, k + 1);
      && OutcomeFrom(cfg, db, d, r, o, l, k) ==
           (if stop.Some? then Stopped(cfg, db, d, r, o, l, k, stop.value) else OutcomeFrom(cfg, db, d, r, o, l, k + 1))
      && Gates.FirstStop(cfg, o, l, k + 1) ==
           (if stop.Some? then Gates.Verdict(k + 1, stop.value.ending, stop.value.tool) else Gates.FirstStop(cfg, o, l, k + 2))
      && (stop.None? && k == 4 ==> l.NoDuplicate?)
  {
    StopsByStep(cfg, o, l, k + 1);
  }

  lemma {:induction false} OutcomeFromFollows(cfg: Config, db: Db, d: nat, r: nat, o: Outcomes, l: Gates.Lookup, k: nat)
    requires d < |db.docs| && r < |db.runs| && k <= 7 && (k >= 5 ==> l.NoDuplicate?) && o.loadOk
    ensures Follows(cfg, db, OutcomeFrom(cfg, db, d, r, o, l, k), d, r, o, l, Gates.FirstStop(cfg, o, l, k + 1))
    decreases 7 - k
  {
    if k == 7 {
      FinalizedFollows(cfg, db, d, r, o);
    } else {
      var stop := Gates.Gate(cfg, o, l, k + 1);
      GateByGate(cfg, db, d, r, o, l, k);
      if stop.Some? {
        StopFollows(cfg, db, d, r, o, l, k, stop.value);
      } else {
        OutcomeFromFollows(cfg, db, d, r, o, l, k + 1);
      }
    }
  }

  /** Everything an uninterrupted run leaves behind is a function of its verdict:
      status, review task, confidences, type, hash, link, run, tool executions,
      field rows and audit entries. */
  lemma {:induction false} OutcomeFollowsVerdict(cfg: Config, db: Db, d: nat, r: nat, o: Outcomes)
    requires InHand(db, d, r)
    ensures var l := LookupOf(cfg, db.docs, d, o);
      Follows(cfg, db, Solo(cfg, db, At(Load, d, r, o)), d, r, o, l, Gates.VerdictOf(cfg, o, l))
  {
    RunHasOutcome(cfg, db, d, r, o);
    if o.loadOk {
      OutcomeFromFollows(cfg, db, d, r, o, LookupOf(cfg, db.docs, d, o), 0);
    } else {
      assert db.tasks + [] == db.tasks && db.tools + [] == db.tools && db.fields + [] == db.fields && db.audit + [] == db.audit;
    }
  }
}
