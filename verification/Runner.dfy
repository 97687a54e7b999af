/** The agent's runner as it is written: early returns, tables changed in place.
    Each method is proved to leave exactly the tables that the control program of
    module Pipeline leaves when it runs without interruption. `process` is cut at
    its steps into methods that continue with one another. */
module Agent {
  import opened Prelude
  import opened Domain
  import opened Tables
  import opened Pipeline
  import opened Protocol
  import opened Repositories
  import opened SoloRun
  import Confidence
  import KeyFields
  import Outcome
  import PlainTerms
  import Queue
  import Sorting
  import Validation

  /** The document row loaded at the start still has its tenant and content. */
  ghost predicate Loaded(db: Db, d: nat, doc: Document) {
    d < |db.docs| && SameOrigin(db.docs[d], doc)
  }

  /** The INSERT behind `Audit.Record` for one of the agent's entries. */
  function Noted(tenant: nat, action: Action, entity: Entity, r: nat): Stmt {
    Audit(Entry(tenant, Domain.Agent, action, entity, Some(r)))
  }

  /** How far draining has got with document `d`. */
  ghost predicate Drained(start: Db, db: Db, d: nat)
    requires d < |start.docs| && |db.docs| == |start.docs|
  {
    if Claimable(start, d) then Settled(db.docs[d].status) || Claimable(db, d)
    else db.docs[d] == start.docs[d] && !Claimable(db, d)
  }

  /** If any document is claimable, the oldest such is the next claim. */
  lemma {:induction false} OldestClaimable(db: Db, d: nat)
    requires Claimable(db, d)
    ensures CanClaim(db)
    decreases d
  {
    if !IsNextClaim(db, d) {
      var e :| 0 <= e < d && Claimable(db, e);
      OldestClaimable(db, e);
    }
  }

  /** With nothing left to claim, every document that was waiting is settled. */
  lemma EverythingDrained(start: Db, db: Db)
    requires |db.docs| == |start.docs| && !CanClaim(db) && forall d :: 0 <= d < |db.docs| ==> Drained(start, db, d)
    ensures forall d :: 0 <= d < |db.docs| ==> if Claimable(start, d) then Settled(db.docs[d].status) else db.docs[d] == start.docs[d]
  {
    forall d | 0 <= d < |db.docs|
      ensures if Claimable(start, d) then Settled(db.docs[d].status) else db.docs[d] == start.docs[d]
    {
      assert Drained(start, db, d);
      if Claimable(db, d) {
        OldestClaimable(db, d);
      }
    }
  }

  /** A poll brings the queue closer to empty. */
  lemma DrainsOn(cfg: Config, start: Db, db: Db, d: nat, worker: nat, o: Outcomes)
    requires IsNextClaim(db, d) && |db.docs| == |start.docs| && forall e :: 0 <= e < |db.docs| ==> Drained(start, db, e)
    ensures var db', n := Queue.Polled(cfg, db, d, worker, o), |db.docs|;
      && |db'.docs| == n && |db'.runs| == |db.runs| + 1 && Queue.Budget(cfg, db', n) < Queue.Budget(cfg, db, n)
      && forall e :: 0 <= e < n ==> Drained(start, db', e)
  {
    var db' := Queue.Polled(cfg, db, d, worker, o);
    Queue.PollSpendsOne(cfg, db, d, worker, o);
    Queue.BudgetFalls(cfg, db, db', |db.docs|, d);
    forall e | 0 <= e < |db.docs| ensures Drained(start, db', e) {
      assert Drained(start, db, e);
    }
  }

  class Runner {
    const cfg: Config
    const worker: nat
    const store: Store

    constructor (cfg: Config, worker: nat, store: Store)
      ensures this.cfg == cfg && this.worker == worker && this.store == store
    {
      this.cfg, this.worker, this.store := cfg, worker, store;
    }

    /** `fail`: finish the run as FAILED, then requeue the document or give up.
        `tenant` is absent when the document's row could not be loaded. */
    method Fail(tenant: Option<nat>, d: nat, r: nat, its: nat, cause: FailReason, o: Outcomes)
      requires tenant.Some? ==> tenant.value == TenantOf(store.Snapshot(), d)
      modifies store
      ensures store.Snapshot() == Solo(cfg, old(store.Snapshot()), At(FailFinish(its, cause, tenant.Some?), d, r, o))
      ensures Outcome.InHand(old(store.Snapshot()), d, r) ==>
        store.Snapshot() == AfterFail(cfg, old(store.Snapshot()), d, r, its, cause, tenant.Some?, o)
    {
      ghost var known := tenant.Some?;
      ghost var c := At(FailFinish(its, cause, known), d, r, o);
      if Outcome.InHand(store.Snapshot(), d, r) {
        RunFails(cfg, store.Snapshot(), c);
      }
      if cause == MaxIterationsExceeded {
        Moves(cfg, store.Snapshot(), c, Finish(r, RunFailed, its), PersistFailed(cause, known));
        store.Finish(r, RunFailed, its);
        GiveUp(tenant, d, r, cause, o);
        return;
      }
      Moves(cfg, store.Snapshot(), c, Finish(r, RunFailed, its), FailCount(cause, known));
      store.Finish(r, RunFailed, its);
      CountAndDecide(tenant, d, r, cause, o);
    }

    /** The retry budget is compared after this run's own failure is on record. */
    method CountAndDecide(tenant: Option<nat>, d: nat, r: nat, cause: FailReason, o: Outcomes)
      requires tenant.Some? ==> tenant.value == TenantOf(store.Snapshot(), d)
      modifies store
      ensures store.Snapshot() == Solo(cfg, old(store.Snapshot()), At(FailCount(cause, tenant.Some?), d, r, o))
    {
      ghost var c := At(FailCount(cause, tenant.Some?), d, r, o);
      var attempts := store.CountFailed(d);
      if o.countOk && attempts <= cfg.maxRetries {
        Moves(cfg, store.Snapshot(), c, Query, Requeue(cause, tenant.Some?));
        Retry(tenant, d, r, cause, o);
      } else {
        Moves(cfg, store.Snapshot(), c, Query, PersistFailed(cause, tenant.Some?));
        GiveUp(tenant, d, r, cause, o);
      }
    }

    method Retry(tenant: Option<nat>, d: nat, r: nat, cause: FailReason, ghost o: Outcomes)
      requires tenant.Some? ==> tenant.value == TenantOf(store.Snapshot(), d)
      modifies store
      ensures store.Snapshot() == Solo(cfg, old(store.Snapshot()), At(Requeue(cause, tenant.Some?), d, r, o))
    {
      ghost var c := At(Requeue(cause, tenant.Some?), d, r, o);
      if tenant.Some? {
        Moves(cfg, store.Snapshot(), c, MarkUploaded(d), AuditRetry(cause));
        store.MarkUploaded(d);
        Ends(cfg, store.Snapshot(), c.(pc := AuditRetry(cause)), Noted(tenant.value, RunRetrying(cause), OfRun(r), r));
        store.Record(tenant.value, Domain.Agent, RunRetrying(cause), OfRun(r), Some(r));
      } else {
        Ends(cfg, store.Snapshot(), c, MarkUploaded(d));
        store.MarkUploaded(d);
      }
    }

    method GiveUp(tenant: Option<nat>, d: nat, r: nat, cause: FailReason, ghost o: Outcomes)
      requires tenant.Some? ==> tenant.value == TenantOf(store.Snapshot(), d)
      modifies store
      ensures store.Snapshot() == Solo(cfg, old(store.Snapshot()), At(PersistFailed(cause, tenant.Some?), d, r, o))
    {
      ghost var c := At(PersistFailed(cause, tenant.Some?), d, r, o);
      if tenant.Some? {
        Moves(cfg, store.Snapshot(), c, MarkFailed(d), AuditFailed(cause));
        store.MarkFailed(d);
        Ends(cfg, store.Snapshot(), c.(pc := AuditFailed(cause)), Noted(tenant.value, RunFailedFor(cause), OfRun(r), r));
        store.Record(tenant.value, Domain.Agent, RunFailedFor(cause), OfRun(r), Some(r));
      } else {
        Ends(cfg, store.Snapshot(), c, MarkFailed(d));
        store.MarkFailed(d);
      }
    }

    /** `routeToReview`: open a task, mark the document, complete the run. */
    method RouteToReview(tenant: nat, d: nat, r: nat, its: nat, reason: ReviewReason,
                         classConf: Option<real>, overallConf: Option<real>, ghost o: Outcomes)
      requires tenant == TenantOf(store.Snapshot(), d)
      requires classConf == ClassConfWritten(reason, o) && overallConf == OverallConfWritten(reason, o)
      modifies store
      ensures store.Snapshot() == Solo(cfg, old(store.Snapshot()), At(OpenTask(its, reason), d, r, o))
      ensures Outcome.InHand(old(store.Snapshot()), d, r) ==> store.Snapshot() == AfterRoute(old(store.Snapshot()), d, r, its, reason, o)
    {
      ghost var c := At(OpenTask(its, reason), d, r, o);
      if Outcome.InHand(store.Snapshot(), d, r) {
        RunIsRouted(cfg, store.Snapshot(), c);
      }
      Moves(cfg, store.Snapshot(), c, CreateTask(d, reason), PersistPending(its, reason));
      store.CreateTask(d, reason);
      MarkRouted(tenant, d, r, its, reason, classConf, overallConf, o);
    }

    method MarkRouted(tenant: nat, d: nat, r: nat, its: nat, reason: ReviewReason,
                      classConf: Option<real>, overallConf: Option<real>, ghost o: Outcomes)
      requires tenant == TenantOf(store.Snapshot(), d)
      requires classConf == ClassConfWritten(reason, o) && overallConf == OverallConfWritten(reason, o)
      modifies store
      ensures store.Snapshot() == Solo(cfg, old(store.Snapshot()), At(PersistPending(its, reason), d, r, o))
    {
      ghost var c := At(PersistPending(its, reason), d, r, o);
      Moves(cfg, store.Snapshot(), c, MarkPendingReview(d, classConf, overallConf), FinishReview(its, reason));
      store.MarkPendingReview(d, classConf, overallConf);
      CloseRouted(tenant, d, r, its, reason, o);
    }

    method CloseRouted(tenant: nat, d: nat, r: nat, its: nat, reason: ReviewReason, ghost o: Outcomes)
      requires tenant == TenantOf(store.Snapshot(), d)
      modifies store
      ensures store.Snapshot() == Solo(cfg, old(store.Snapshot()), At(FinishReview(its, reason), d, r, o))
    {
      ghost var c := At(FinishReview(its, reason), d, r, o);
      Moves(cfg, store.Snapshot(), c, Finish(r, Completed, its), AuditRouted(reason));
      store.Finish(r, Completed, its);
      Ends(cfg, store.Snapshot(), c.(pc := AuditRouted(reason)), Noted(tenant, DocRouted(reason), OfDocument(d), r));
      store.Record(tenant, Domain.Agent, DocRouted(reason), OfDocument(d), Some(r));
    }

    /** `process`: load the document, then seven steps, each one counted. */
    method Process(d: nat, r: nat, o: Outcomes)
      requires WellFormed(cfg, o)
      modifies store
      ensures store.Snapshot() == Solo(cfg, old(store.Snapshot()), At(Load, d, r, o))
      ensures Outcome.InHand(old(store.Snapshot()), d, r) ==> store.Snapshot() == Outcome.Outcome(cfg, old(store.Snapshot()), d, r, o)
      ensures Outcome.InHand(old(store.Snapshot()), d, r) ==> PlainTerms.RunLeaves(cfg, old(store.Snapshot()), store.Snapshot(), d, r, o)
    {
      ghost var c := At(Load, d, r, o);
      if Outcome.InHand(store.Snapshot(), d, r) {
        Outcome.RunHasOutcome(cfg, store.Snapshot(), d, r, o);
        PlainTerms.RunInPlainTerms(cfg, store.Snapshot(), d, r, o);
      }
      var row := store.GetByID(d);
      if !o.loadOk || row.None? {
        Moves(cfg, store.Snapshot(), c, Query, FailFinish(0, LoadDocumentFailed, false));
        Fail(None, d, r, 0, LoadDocumentFailed, o);
        return;
      }
      var doc := row.value;
      var iterations := 1;
      if iterations > cfg.maxIterations {
        Moves(cfg, store.Snapshot(), c, Query, FailFinish(1, MaxIterationsExceeded, true));
        Fail(Some(doc.tenant), d, r, iterations, MaxIterationsExceeded, o);
        return;
      }
      Moves(cfg, store.Snapshot(), c, Query, RecordOcr);
      RunOcr(doc, d, r, iterations, o);
    }

    /** Step 1. */
    method RunOcr(doc: Document, d: nat, r: nat, its: nat, o: Outcomes)
      requires WellFormed(cfg, o) && Loaded(store.Snapshot(), d, doc) && its == 1
      modifies store
      ensures store.Snapshot() == Solo(cfg, old(store.Snapshot()), At(RecordOcr, d, r, o))
    {
      ghost var c := At(RecordOcr, d, r, o);
      if o.ocr != Answered {
        var (status, reason) := ToolFailure(o.ocr, OcrFailed, OcrTimeout);
        Moves(cfg, store.Snapshot(), c, RecordTool(r, Tool.RunOcr, status, None), FailFinish(1, reason, true));
        store.RecordTool(r, Tool.RunOcr, status, None);
        Fail(Some(doc.tenant), d, r, its, reason, o);
        return;
      }
      var iterations := its + 1;
      Moves(cfg, store.Snapshot(), c, RecordTool(r, Tool.RunOcr, Success, None), Enter(cfg, 2, RecordClassify));
      store.RecordTool(r, Tool.RunOcr, Success, None);
      if iterations > cfg.maxIterations {
        Fail(Some(doc.tenant), d, r, iterations, MaxIterationsExceeded, o);
        return;
      }
      ClassifyDocument(doc, d, r, iterations, o);
    }

    /** Step 2. */
    method ClassifyDocument(doc: Document, d: nat, r: nat, its: nat, o: Outcomes)
      requires WellFormed(cfg, o) && Loaded(store.Snapshot(), d, doc) && its == 2
      modifies store
      ensures store.Snapshot() == Solo(cfg, old(store.Snapshot()), At(RecordClassify, d, r, o))
    {
      ghost var c := At(RecordClassify, d, r, o);
      if o.classify != Answered {
        var (status, reason) := ToolFailure(o.classify, ClassificationFailed, ClassificationTimeout);
        Moves(cfg, store.Snapshot(), c, RecordTool(r, Tool.ClassifyDocument, status, None), FailFinish(2, reason, true));
        store.RecordTool(r, Tool.ClassifyDocument, status, None);
        Fail(Some(doc.tenant), d, r, its, reason, o);
        return;
      }
      if o.docType == UNKNOWN_TYPE {
        Moves(cfg, store.Snapshot(), c, RecordTool(r, Tool.ClassifyDocument, Success, None), OpenTask(2, UnknownType));
        store.RecordTool(r, Tool.ClassifyDocument, Success, None);
        RouteToReview(doc.tenant, d, r, its, UnknownType, Some(o.confidence), None, o);
        return;
      }
      Moves(cfg, store.Snapshot(), c, RecordTool(r, Tool.ClassifyDocument, Success, None), PersistClassified);
      store.RecordTool(r, Tool.ClassifyDocument, Success, None);
      PersistClassification(doc, d, r, its, o);
    }

    method PersistClassification(doc: Document, d: nat, r: nat, its: nat, o: Outcomes)
      requires WellFormed(cfg, o) && Loaded(store.Snapshot(), d, doc) && its == 2
      modifies store
      ensures store.Snapshot() == Solo(cfg, old(store.Snapshot()), At(PersistClassified, d, r, o))
    {
      ghost var c := At(PersistClassified, d, r, o);
      var iterations := its;
      if ClassificationPersists(cfg, o) {
        Moves(cfg, store.Snapshot(), c, MarkClassified(d, o.docType, o.confidence), AuditClassified);
      } else {
        Moves(cfg, store.Snapshot(), c, Query, FailFinish(2, PersistClassificationFailed, true));
      }
      var err := store.MarkClassified(d, o.docType, o.confidence, cfg.types, !o.classifiedOk);
      if err {
        Fail(Some(doc.tenant), d, r, iterations, PersistClassificationFailed, o);
        return;
      }
      iterations := iterations + 1;
      Moves(cfg, store.Snapshot(), c.(pc := AuditClassified), Noted(doc.tenant, DocClassified, OfDocument(d), r), Enter(cfg, 3, LoadSchema));
      store.Record(doc.tenant, Domain.Agent, DocClassified, OfDocument(d), Some(r));
      if iterations > cfg.maxIterations {
        Fail(Some(doc.tenant), d, r, iterations, MaxIterationsExceeded, o);
        return;
      }
      ExtractFields(doc, d, r, iterations, o);
    }

    /** Step 3: the provider call and the batch insert. */
    method ExtractFields(doc: Document, d: nat, r: nat, its: nat, o: Outcomes)
      requires WellFormed(cfg, o) && Loaded(store.Snapshot(), d, doc) && its == 3
      modifies store
      ensures store.Snapshot() == Solo(cfg, old(store.Snapshot()), At(LoadSchema, d, r, o))
    {
      ghost var c := At(LoadSchema, d, r, o);
      if !o.schemaOk {
        Moves(cfg, store.Snapshot(), c, Query, FailFinish(3, LoadFieldSchemaFailed, true));
        Fail(Some(doc.tenant), d, r, its, LoadFieldSchemaFailed, o);
        return;
      }
      if o.extract != Answered {
        var (status, reason) := ToolFailure(o.extract, ExtractionFailed, ExtractionTimeout);
        Moves(cfg, store.Snapshot(), c, Query, RecordExtractError(status, reason));
        ExtractError(doc, d, r, its, status, reason, o);
        return;
      }
      Moves(cfg, store.Snapshot(), c, Query, PersistFields);
      StoreFields(doc, d, r, its, o);
    }

    method StoreFields(doc: Document, d: nat, r: nat, its: nat, o: Outcomes)
      requires WellFormed(cfg, o) && Loaded(store.Snapshot(), d, doc) && its == 3
      modifies store
      ensures store.Snapshot() == Solo(cfg, old(store.Snapshot()), At(PersistFields, d, r, o))
    {
      ghost var c := At(PersistFields, d, r, o);
      var rows := CollectRows(d, o);
      if FieldsPersist(o) {
        Moves(cfg, store.Snapshot(), c, InsertBatch(d, rows), RecordExtract);
      } else {
        Moves(cfg, store.Snapshot(), c, Query, RecordExtractError(ToolFailed, PersistExtractedFieldsFailed));
      }
      var err := store.InsertBatch(d, rows, !o.insertOk);
      if err {
        ExtractError(doc, d, r, its, ToolFailed, PersistExtractedFieldsFailed, o);
        return;
      }
      PersistExtraction(doc, d, r, its, o);
    }

    method ExtractError(doc: Document, d: nat, r: nat, its: nat, status: ToolStatus, reason: FailReason, o: Outcomes)
      requires Loaded(store.Snapshot(), d, doc) && its == 3
      modifies store
      ensures store.Snapshot() == Solo(cfg, old(store.Snapshot()), At(RecordExtractError(status, reason), d, r, o))
    {
      ghost var c := At(RecordExtractError(status, reason), d, r, o);
      Moves(cfg, store.Snapshot(), c, RecordTool(r, Tool.ExtractFields, status, None), FailFinish(3, reason, true));
      store.RecordTool(r, Tool.ExtractFields, status, None);
      Fail(Some(doc.tenant), d, r, its, reason, o);
    }

    /** One row per extracted field, in the order map iteration visits them. */
    method CollectRows(d: nat, o: Outcomes) returns (rows: seq<FieldRow>)
      requires WellFormed(cfg, o)
      ensures rows == Rows(d, o, |store.fields|)
    {
      rows := [];
      var i := 0;
      while i < |o.order|
        invariant 0 <= i <= |o.order|
        invariant rows == Rows(d, o, |store.fields|)[..i]
      {
        var name := o.order[i];
        assert name in Sorting.Names(o.order);
        var field := o.fields[name];
        rows := rows + [FieldRow(d, name, field.value, field.confidence, Extraction, |store.fields|)];
        i := i + 1;
      }
    }

    method PersistExtraction(doc: Document, d: nat, r: nat, its: nat, o: Outcomes)
      requires WellFormed(cfg, o) && Loaded(store.Snapshot(), d, doc) && its == 3
      modifies store
      ensures store.Snapshot() == Solo(cfg, old(store.Snapshot()), At(RecordExtract, d, r, o))
    {
      ghost var c := At(RecordExtract, d, r, o);
      Moves(cfg, store.Snapshot(), c, RecordTool(r, Tool.ExtractFields, Success, None), PersistExtracted);
      store.RecordTool(r, Tool.ExtractFields, Success, None);
      if o.extractedOk {
        Moves(cfg, store.Snapshot(), c.(pc := PersistExtracted), MarkExtracted(d), AuditExtracted);
      } else {
        Moves(cfg, store.Snapshot(), c.(pc := PersistExtracted), Query, FailFinish(3, PersistExtractedStatusFailed, true));
      }
      var err := store.MarkExtracted(d, !o.extractedOk);
      if err {
        Fail(Some(doc.tenant), d, r, its, PersistExtractedStatusFailed, o);
        return;
      }
      HashAndContinue(doc, d, r, its, o);
    }

    method HashAndContinue(doc: Document, d: nat, r: nat, its: nat, o: Outcomes)
      requires WellFormed(cfg, o) && Loaded(store.Snapshot(), d, doc) && its == 3
      modifies store
      ensures store.Snapshot() == Solo(cfg, old(store.Snapshot()), At(AuditExtracted, d, r, o))
    {
      ghost var c := At(AuditExtracted, d, r, o);
      ghost var entry := Noted(doc.tenant, DocExtracted, OfDocument(d), r);
      var iterations := its;
      var hash, ok := KeyFields.KeyFieldsHash(cfg, o.fields);
      if ok {
        Moves(cfg, store.Snapshot(), c, entry, PersistHash);
      } else {
        Moves(cfg, store.Snapshot(), c, entry, Enter(cfg, 4, RecordValidate));
      }
      store.Record(doc.tenant, Domain.Agent, DocExtracted, OfDocument(d), Some(r));
      if ok {
        Moves(cfg, store.Snapshot(), c.(pc := PersistHash), SetKeyFieldsHash(d, hash), Enter(cfg, 4, RecordValidate));
        store.SetKeyFieldsHash(d, hash);
      }
      iterations := iterations + 1;
      if iterations > cfg.maxIterations {
        Fail(Some(doc.tenant), d, r, iterations, MaxIterationsExceeded, o);
        return;
      }
      ValidateExtraction(doc, d, r, iterations, o);
    }

    /** Step 4. */
    method ValidateExtraction(doc: Document, d: nat, r: nat, its: nat, o: Outcomes)
      requires WellFormed(cfg, o) && Loaded(store.Snapshot(), d, doc) && its == 4
      modifies store
      ensures store.Snapshot() == Solo(cfg, old(store.Snapshot()), At(RecordValidate, d, r, o))
    {
      ghost var c := At(RecordValidate, d, r, o);
      var valid := Check(o);
      if !valid {
        Moves(cfg, store.Snapshot(), c, RecordTool(r, Tool.ValidateExtraction, Success, None), OpenTask(4, ValidationFailed));
        store.RecordTool(r, Tool.ValidateExtraction, Success, None);
        RouteToReview(doc.tenant, d, r, its, ValidationFailed, None, None, o);
        return;
      }
      Moves(cfg, store.Snapshot(), c, RecordTool(r, Tool.ValidateExtraction, Success, None), PersistValidated);
      store.RecordTool(r, Tool.ValidateExtraction, Success, None);
      PersistValidation(doc, d, r, its, o);
    }

    method PersistValidation(doc: Document, d: nat, r: nat, its: nat, o: Outcomes)
      requires WellFormed(cfg, o) && Loaded(store.Snapshot(), d, doc) && its == 4
      modifies store
      ensures store.Snapshot() == Solo(cfg, old(store.Snapshot()), At(PersistValidated, d, r, o))
    {
      ghost var c := At(PersistValidated, d, r, o);
      var iterations := its;
      if o.validatedOk {
        Moves(cfg, store.Snapshot(), c, MarkValidated(d), AuditValidated);
      } else {
        Moves(cfg, store.Snapshot(), c, Query, FailFinish(4, PersistValidatedStatusFailed, true));
      }
      var err := store.MarkValidated(d, !o.validatedOk);
      if err {
        Fail(Some(doc.tenant), d, r, iterations, PersistValidatedStatusFailed, o);
        return;
      }
      iterations := iterations + 1;
      Moves(cfg, store.Snapshot(), c.(pc := AuditValidated), Noted(doc.tenant, DocValidated, OfDocument(d), r), Enter(cfg, 5, LookupContent));
      store.Record(doc.tenant, Domain.Agent, DocValidated, OfDocument(d), Some(r));
      if iterations > cfg.maxIterations {
        Fail(Some(doc.tenant), d, r, iterations, MaxIterationsExceeded, o);
        return;
      }
      CheckDuplicate(doc, d, r, iterations, o);
    }

    /** Builds the value map and validates it. */
    method Check(o: Outcomes) returns (valid: bool)
      ensures valid <==> Accepted(cfg, o)
    {
      var values: map<string, Value> := map[];
      var rest := o.fields.Keys;
      while rest != {}
        invariant rest <= o.fields.Keys
        invariant values == map n | n in o.fields && n !in rest :: o.fields[n].value
        decreases |rest|
      {
        var name :| name in rest;
        values := values[name := o.fields[name].value];
        rest := rest - {name};
      }
      assert values == Values(o.fields);
      if o.docType !in cfg.types {
        return false;
      }
      var violations := Validation.Validate(cfg.types[o.docType].schema, values);
      valid := violations == [];
    }

    /** Step 5: exact copies first, key fields only when there is none. */
    method CheckDuplicate(doc: Document, d: nat, r: nat, its: nat, o: Outcomes)
      requires WellFormed(cfg, o) && Loaded(store.Snapshot(), d, doc) && its == 5
      modifies store
      ensures store.Snapshot() == Solo(cfg, old(store.Snapshot()), At(LookupContent, d, r, o))
    {
      ghost var c := At(LookupContent, d, r, o);
      var earliest := store.FindByContentHash(doc.tenant, doc.contentHash);
      if !o.contentLookupOk {
        Moves(cfg, store.Snapshot(), c, Query, RecordLookupError);
        LookupFailed(doc, d, r, its, o);
        return;
      }
      var isDuplicate := earliest.Some? && earliest.value != d;
      if isDuplicate {
        Moves(cfg, store.Snapshot(), c, Query, RecordLookup(earliest));
        DuplicateChecked(doc, d, r, its, earliest, o);
        return;
      }
      var hash, ok := KeyFields.KeyFieldsHash(cfg, o.fields);
      if !ok {
        Moves(cfg, store.Snapshot(), c, Query, RecordLookup(None));
        DuplicateChecked(doc, d, r, its, None, o);
        return;
      }
      Moves(cfg, store.Snapshot(), c, Query, LookupNear);
      CheckNearDuplicate(doc, d, r, its, hash, o);
    }

    method CheckNearDuplicate(doc: Document, d: nat, r: nat, its: nat, hash: string, o: Outcomes)
      requires Loaded(store.Snapshot(), d, doc) && its == 5 && KeyFields.KeyHash(cfg, o.fields) == Some(hash)
      requires WellFormed(cfg, o)
      modifies store
      ensures store.Snapshot() == Solo(cfg, old(store.Snapshot()), At(LookupNear, d, r, o))
    {
      ghost var c := At(LookupNear, d, r, o);
      var near := store.FindByKeyFieldsHash(doc.tenant, o.docType, hash);
      if !o.nearLookupOk {
        Moves(cfg, store.Snapshot(), c, Query, RecordLookupError);
        LookupFailed(doc, d, r, its, o);
      } else if near.Some? && near.value != d {
        Moves(cfg, store.Snapshot(), c, Query, RecordLookup(near));
        DuplicateChecked(doc, d, r, its, near, o);
      } else {
        Moves(cfg, store.Snapshot(), c, Query, RecordLookup(None));
        DuplicateChecked(doc, d, r, its, None, o);
      }
    }

    method LookupFailed(doc: Document, d: nat, r: nat, its: nat, o: Outcomes)
      requires Loaded(store.Snapshot(), d, doc) && its == 5
      modifies store
      ensures store.Snapshot() == Solo(cfg, old(store.Snapshot()), At(RecordLookupError, d, r, o))
    {
      ghost var c := At(RecordLookupError, d, r, o);
      Moves(cfg, store.Snapshot(), c, RecordTool(r, Tool.CheckDuplicate, ToolFailed, None), FailFinish(5, DuplicateCheckFailed, true));
      store.RecordTool(r, Tool.CheckDuplicate, ToolFailed, None);
      Fail(Some(doc.tenant), d, r, its, DuplicateCheckFailed, o);
    }

    method DuplicateChecked(doc: Document, d: nat, r: nat, its: nat, found: Option<nat>, o: Outcomes)
      requires WellFormed(cfg, o) && Loaded(store.Snapshot(), d, doc) && its == 5
      modifies store
      ensures store.Snapshot() == Solo(cfg, old(store.Snapshot()), At(RecordLookup(found), d, r, o))
    {
      ghost var c := At(RecordLookup(found), d, r, o);
      if found.Some? {
        Moves(cfg, store.Snapshot(), c, RecordTool(r, Tool.CheckDuplicate, Success, found), PersistDuplicate(found.value));
        store.RecordTool(r, Tool.CheckDuplicate, Success, found);
        Moves(cfg, store.Snapshot(), c.(pc := PersistDuplicate(found.value)), MarkDuplicateOf(d, found.value), OpenTask(5, Duplicate));
        store.MarkDuplicateOf(d, found.value);
        RouteToReview(doc.tenant, d, r, its, Duplicate, None, None, o);
        return;
      }
      var iterations := its + 1;
      Moves(cfg, store.Snapshot(), c, RecordTool(r, Tool.CheckDuplicate, Success, found), Enter(cfg, 6, LoadThreshold));
      store.RecordTool(r, Tool.CheckDuplicate, Success, found);
      if iterations > cfg.maxIterations {
        Fail(Some(doc.tenant), d, r, iterations, MaxIterationsExceeded, o);
        return;
      }
      CalculateConfidence(doc, d, r, iterations, o);
    }

    /** Step 6. */
    method CalculateConfidence(doc: Document, d: nat, r: nat, its: nat, o: Outcomes)
      requires WellFormed(cfg, o) && Loaded(store.Snapshot(), d, doc) && its == 6
      modifies store
      ensures store.Snapshot() == Solo(cfg, old(store.Snapshot()), At(LoadThreshold, d, r, o))
      ensures Outcome.InHand(old(store.Snapshot()), d, r) && o.docType in cfg.types && o.thresholdOk ==>
        PlainTerms.Scored(cfg, old(store.Snapshot()), store.Snapshot(), d, r, o)
    {
      ghost var c := At(LoadThreshold, d, r, o);
      if Outcome.InHand(store.Snapshot(), d, r) && o.docType in cfg.types && o.thresholdOk {
        PlainTerms.ScoresInPlainTerms(cfg, store.Snapshot(), d, r, o);
      }
      if !o.thresholdOk {
        Moves(cfg, store.Snapshot(), c, Query, FailFinish(6, LoadThresholdFailed, true));
        Fail(Some(doc.tenant), d, r, its, LoadThresholdFailed, o);
        return;
      }
      Moves(cfg, store.Snapshot(), c, Query, RecordConfidence);
      var threshold := Threshold(cfg, o);
      var overall := Score(o);
      if overall < threshold {
        Moves(cfg, store.Snapshot(), c.(pc := RecordConfidence), RecordTool(r, Tool.CalculateConfidence, Success, None), OpenTask(6, LowConfidence));
        store.RecordTool(r, Tool.CalculateConfidence, Success, None);
        RouteToReview(doc.tenant, d, r, its, LowConfidence, None, Some(overall), o);
        return;
      }
      var iterations := its + 1;
      Moves(cfg, store.Snapshot(), c.(pc := RecordConfidence), RecordTool(r, Tool.CalculateConfidence, Success, None), Enter(cfg, 7, PersistAuto));
      store.RecordTool(r, Tool.CalculateConfidence, Success, None);
      if iterations > cfg.maxIterations {
        Fail(Some(doc.tenant), d, r, iterations, MaxIterationsExceeded, o);
        return;
      }
      FinalizeDocument(doc, d, r, iterations, overall, o);
    }

    method Score(o: Outcomes) returns (overall: real)
      requires WellFormed(cfg, o)
      ensures overall == Overall(o)
    {
      forall n | n in o.order ensures n in o.fields {
        assert n in Sorting.Names(o.order);
      }
      overall := Confidence.CalculateConfidence(o.confidence, o.fields, o.order);
    }

    /** Step 7. */
    method FinalizeDocument(doc: Document, d: nat, r: nat, its: nat, overall: real, o: Outcomes)
      requires Loaded(store.Snapshot(), d, doc) && its == 7 && overall == Overall(o)
      modifies store
      ensures store.Snapshot() == Solo(cfg, old(store.Snapshot()), At(PersistAuto, d, r, o))
    {
      ghost var c := At(PersistAuto, d, r, o);
      if o.autoOk {
        Moves(cfg, store.Snapshot(), c, MarkAutoProcessed(d, overall), RecordFinalize);
      } else {
        Moves(cfg, store.Snapshot(), c, Query, FailFinish(7, PersistAutoProcessedFailed, true));
      }
      var err := store.MarkAutoProcessed(d, overall, !o.autoOk);
      if err {
        Fail(Some(doc.tenant), d, r, its, PersistAutoProcessedFailed, o);
        return;
      }
      Moves(cfg, store.Snapshot(), c.(pc := RecordFinalize), RecordTool(r, Tool.FinalizeDocument, Success, None), FinishAuto);
      store.RecordTool(r, Tool.FinalizeDocument, Success, None);
      CloseFinalized(doc.tenant, d, r, its, o);
    }

    method CloseFinalized(tenant: nat, d: nat, r: nat, its: nat, ghost o: Outcomes)
      requires tenant == TenantOf(store.Snapshot(), d) && its == 7
      modifies store
      ensures store.Snapshot() == Solo(cfg, old(store.Snapshot()), At(FinishAuto, d, r, o))
    {
      ghost var c := At(FinishAuto, d, r, o);
      Moves(cfg, store.Snapshot(), c, Finish(r, Completed, 7), AuditAuto);
      store.Finish(r, Completed, its);
      Ends(cfg, store.Snapshot(), c.(pc := AuditAuto), Noted(tenant, DocAutoProcessed, OfDocument(d), r));
      store.Record(tenant, Domain.Agent, DocAutoProcessed, OfDocument(d), Some(r));
    }

    // ----- polling -----

    /** `PollOnce`: claim the next document, if there is one, and process it. */
    method PollOnce(o: Outcomes, claimFails: bool) returns (processed: bool, err: bool)
      requires WellFormed(cfg, o)
      modifies store
      ensures err == claimFails && processed == (!claimFails && CanClaim(old(store.Snapshot())))
      ensures processed ==>
        exists d :: (IsNextClaim(old(store.Snapshot()), d) && store.Snapshot() == Queue.Polled(cfg, old(store.Snapshot()), d, worker, o))
      ensures processed ==>
        exists d :: (IsNextClaim(old(store.Snapshot()), d)
          && PlainTerms.RunLeaves(cfg, OpenRun(old(store.Snapshot()), d, worker), store.Snapshot(), d, |old(store.runs)|, o))
      ensures !processed ==> store.Snapshot() == old(store.Snapshot())
    {
      if claimFails {
        return false, true;
      }
      var claimed := store.ClaimNextUploaded(worker);
      if claimed.None? {
        return false, false;
      }
      Process(claimed.value.0, claimed.value.1, o);
      return true, false;
    }

    /** The worker's loop until a poll comes back empty-handed; `env` is what the
        environment decides for each run and `outage` the claims that fail. The
        loop ends within the queue's budget of attempts, and unless a claim failed
        every document that was waiting is settled. */
    method Drain(env: nat -> Outcomes, outage: nat -> bool) returns (claims: nat, err: bool)
      requires forall r :: WellFormed(cfg, env(r))
      modifies store
      ensures claims <= Queue.Budget(cfg, old(store.Snapshot()), |old(store.docs)|)
      ensures claims <= |old(store.docs)| * (Max(cfg.maxRetries, 0) + 1)
      ensures |store.docs| == |old(store.docs)| && |store.runs| == |old(store.runs)| + claims
      ensures forall d :: 0 <= d < |store.docs| ==> Drained(old(store.Snapshot()), store.Snapshot(), d)
      ensures err ==> outage(|store.runs|)
      ensures !err ==> !CanClaim(store.Snapshot())
      ensures !err ==> forall d :: 0 <= d < |store.docs| ==>
        if Claimable(old(store.Snapshot()), d) then Settled(store.docs[d].status) else store.docs[d] == old(store.docs[d])
    {
      claims, err := 0, false;
      ghost var n, start := |store.docs|, store.Snapshot();
      var processed := true;
      while processed
        invariant |store.docs| == n && |store.runs| == |start.runs| + claims
        invariant claims + Queue.Budget(cfg, store.Snapshot(), n) <= Queue.Budget(cfg, start, n)
        invariant forall d :: 0 <= d < n ==> Drained(start, store.Snapshot(), d)
        invariant err ==> !processed && outage(|store.runs|)
        invariant !processed && !err ==> !CanClaim(store.Snapshot())
        decreases Queue.Budget(cfg, store.Snapshot(), n), processed
      {
        ghost var db := store.Snapshot();
        processed, err := PollOnce(env(|store.runs|), outage(|store.runs|));
        if processed {
          claims := claims + 1;
          ghost var d :| IsNextClaim(db, d) && store.Snapshot() == Queue.Polled(cfg, db, d, worker, env(|db.runs|));
          DrainsOn(cfg, start, db, d, worker, env(|db.runs|));
        }
      }
      Queue.BudgetBound(cfg, start, n);
      if err {
        return;
      }
      EverythingDrained(start, store.Snapshot());
    }
  }
}
