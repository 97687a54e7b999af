/** Data integrity on call-level schedules: everything an AUTO_PROCESSED document
    shows comes from the one run of it that did not fail, and passes that run's
    gates. The invariant says what a worker's position carries: the classification
    stored, the rows of this run's extraction in place, the gates passed and the
    document marked, and every other run of the document FAILED. */
module Integrity {
  import opened Prelude
  import opened Domain
  import opened Tables
  import opened Pipeline
  import opened Protocol
  import opened Ownership
  import opened CallLevel
  import Duplicates
  import FieldView
  import Gates
  import KeyFields
  import Sorting

  // ----- field rows -----

  ghost predicate GoodDesks(s: Sys) {
    forall i :: 0 <= i < |s.desks| && s.desks[i].Busy? ==> GoodRequest(s.desks[i].req)
  }

  lemma RowsAreABatch(cfg: Config, d: nat, o: Outcomes, at: nat)
    requires WellFormed(cfg, o)
    ensures FieldView.Batch(Rows(d, o, at), d, at)
  {
  }

  lemma CorrectionsAreABatch(req: Request, at: nat)
    requires GoodRequest(req)
    ensures FieldView.Batch(CorrectionRows(req, at), req.doc, at)
  {
  }

  lemma WorkerInserts(cfg: Config, s: Sys, w: nat)
    requires Owned(cfg, s) && w < |s.workers| && s.workers[w].At?
    ensures var stmt, c := Issue(cfg, s.db, s.workers[w]), s.workers[w];
      && (stmt.InsertBatch? ==> c.pc.PersistFields? && stmt.rows == Rows(c.doc, c.o, |s.db.fields|)
                                && FieldView.Batch(stmt.rows, c.doc, |s.db.fields|))
  {
    assert Owns(cfg, s, w);
    RowsAreABatch(cfg, s.workers[w].doc, s.workers[w].o, |s.db.fields|);
  }

  /** Under every interleaving the table is well stamped. */
  lemma StampedAfter(cfg: Config, s: Sys, a: Act)
    requires Owned(cfg, s) && GoodDesks(s) && FieldView.Stamped(s.db.fields)
    ensures GoodDesks(Next(cfg, s, a)) && FieldView.Stamped(Next(cfg, s, a).db.fields)
  {
    if Enabled(cfg, s, a) {
      if a.Advance? {
        var stmt := Issue(cfg, s.db, s.workers[a.w]);
        ExecFrame(s.db, stmt);
        if stmt.InsertBatch? {
          WorkerInserts(cfg, s, a.w);
          FieldView.StampedAppend(s.db.fields, stmt.rows, s.workers[a.w].doc);
        }
      } else if a.Review? {
        var k := s.desks[a.i];
        var stmt := DeskIssue(s.db, k);
        ExecFrame(s.db, stmt);
        if stmt.InsertBatch? {
          CorrectionsAreABatch(k.req, |s.db.fields|);
          FieldView.StampedAppend(s.db.fields, stmt.rows, k.req.doc);
        }
      }
    }
  }

  /** The document's current fields are what this run extracted. */
  ghost predicate Shows(fields: seq<FieldRow>, d: nat, o: Outcomes) {
    var view := FieldView.View(fields, d);
    forall n :: n in o.fields ==> n in view && view[n].value == o.fields[n].value && view[n].confidence == o.fields[n].confidence
  }

  lemma RowsShow(cfg: Config, fields: seq<FieldRow>, d: nat, o: Outcomes)
    requires WellFormed(cfg, o)
    ensures Shows(fields + Rows(d, o, |fields|), d, o)
  {
    var rows := Rows(d, o, |fields|);
    RowsAreABatch(cfg, d, o, |fields|);
    FieldView.BatchOverwrites(fields, rows, d, |fields|, d);
    forall n | n in o.fields
      ensures n in FieldView.View(fields + rows, d)
      ensures FieldView.View(fields + rows, d)[n].value == o.fields[n].value && FieldView.View(fields + rows, d)[n].confidence == o.fields[n].confidence
    {
      assert n in Sorting.Names(o.order);
      var i :| 0 <= i < |o.order| && o.order[i] == n;
      FieldView.AsMapFinds(rows, i);
    }
  }

  // ----- what a position carries -----

  /** The rows of this run's extraction are in place. */
  predicate FieldsStored(pc: Pc) {
    pc.RecordExtract? || pc.PersistExtracted? || pc.AuditExtracted? || pc.PersistHash? || pc.RecordValidate? || pc.PersistValidated?
    || pc.AuditValidated? || pc.LookupContent? || pc.LookupNear? || pc.RecordLookup? || pc.LoadThreshold? || pc.RecordConfidence?
    || pc.PersistAuto? || Decided(pc)
  }

  /** MarkAutoProcessed has been executed. */
  predicate Decided(pc: Pc) {
    pc.RecordFinalize? || pc.FinishAuto? || pc.AuditAuto?
  }

  predicate Classed(pc: Pc) {
    pc.AuditClassified? || pc.LoadSchema? || pc.PersistFields? || FieldsStored(pc)
  }

  ghost predicate Carries(cfg: Config, s: Sys, w: nat)
    requires w < |s.workers|
  {
    var c := s.workers[w];
    c.At? ==>
      && c.doc < |s.db.docs|
      && (Classed(c.pc) ==> s.db.docs[c.doc].classConf == Some(c.o.confidence) && s.db.docs[c.doc].docType == Some(c.o.docType))
      && (FieldsStored(c.pc) ==> Shows(s.db.fields, c.doc, c.o))
      && (Decided(c.pc) ==> Proven(cfg, s, c.doc, c.run))
      && (forall q :: 0 <= q < |s.db.runs| && q != c.run && s.db.runs[q].doc == c.doc ==> s.db.runs[q].status == RunFailed)
      && (EndsFailed(c.pc) ==> c.run < |s.db.runs| && s.db.runs[c.run].status == RunFailed)
      && (c.pc.AuditAuto? ==> c.run < |s.db.runs| && s.db.runs[c.run].status == Completed)
  }

  /** Everything the document shows is run `r`'s, and run `r` passed its gates. */
  ghost predicate Proven(cfg: Config, s: Sys, d: nat, r: nat) {
    && d < |s.db.docs| && r < |s.plan|
    && var doc, o := s.db.docs[d], s.plan[r];
    && doc.docType == Some(o.docType) && doc.classConf == Some(o.confidence) && doc.overallConf == Some(Overall(o))
    && KeyFields.KeyHash(cfg, o.fields).Some? && doc.keyHash == KeyFields.KeyHash(cfg, o.fields)
    && Shows(s.db.fields, d, o)
    && Accepted(cfg, o) && Overall(o) >= Threshold(cfg, o) && WellFormed(cfg, o)
  }

  /** Run `r` is the document's one run that did not fail. */
  ghost predicate OnlySuccess(s: Sys, d: nat, r: nat) {
    && r < |s.db.runs| && s.db.runs[r].doc == d && s.db.runs[r].status == Completed
    && forall q :: 0 <= q < |s.db.runs| && q != r && s.db.runs[q].doc == d ==> s.db.runs[q].status == RunFailed
  }

  ghost predicate DocSound(cfg: Config, s: Sys, d: nat)
    requires d < |s.db.docs|
  {
    !Held(s, d) ==>
      && (s.db.docs[d].status == AutoProcessed ==> exists r :: OnlySuccess(s, d, r) && Proven(cfg, s, d, r))
      && (s.db.docs[d].status == Uploaded || s.db.docs[d].status == Failed ==>
            forall q :: 0 <= q < |s.db.runs| && s.db.runs[q].doc == d ==> s.db.runs[q].status == RunFailed)
  }

  ghost predicate DataSound(cfg: Config, s: Sys) {
    && GoodDesks(s)
    && (forall w :: 0 <= w < |s.workers| ==> Carries(cfg, s, w))
    && (forall d :: 0 <= d < |s.db.docs| ==> DocSound(cfg, s, d))
  }

  // ----- one step of a worker -----

  lemma StoresFields(cfg: Config, db: Db, c: Ctl, next: Pc)
    requires c.At? && Goto(cfg, db, c) == Some(next) && FieldsStored(next)
    ensures FieldsStored(c.pc) || (c.pc.PersistFields? && FieldsPersist(c.o))
    ensures FieldsStored(c.pc) ==> !Issue(cfg, db, c).InsertBatch?
  {
  }

  lemma WayToClassed(cfg: Config, db: Db, c: Ctl, next: Pc)
    requires c.At? && Goto(cfg, db, c) == Some(next) && Classed(next)
    ensures c.pc.PersistClassified? || Classed(c.pc)
  {
  }

  lemma Classes(cfg: Config, db: Db, c: Ctl, next: Pc)
    requires c.At? && Goto(cfg, db, c) == Some(next) && Classed(next)
    ensures Issue(cfg, db, c) == MarkClassified(c.doc, c.o.docType, c.o.confidence)
         || (Classed(c.pc) && !Issue(cfg, db, c).MarkClassified? && !Issue(cfg, db, c).MarkPendingReview?)
  {
    WayToClassed(cfg, db, c, next);
  }

  lemma Decides(cfg: Config, db: Db, c: Ctl, next: Pc)
    requires c.At? && Goto(cfg, db, c) == Some(next)
    ensures Decided(next) ==>
      (c.pc.PersistAuto? && Issue(cfg, db, c) == MarkAutoProcessed(c.doc, Overall(c.o))) || (Decided(c.pc) && !TouchesDoc(Issue(cfg, db, c)))
    ensures next.AuditAuto? ==> c.pc.FinishAuto?
  {
  }

  lemma EntersFailure(cfg: Config, db: Db, c: Ctl, next: Pc)
    requires c.At? && Goto(cfg, db, c) == Some(next)
    ensures EndsFailed(next) ==> EndsFailed(c.pc) || c.pc.FailFinish?
  {
  }

  /** The confidence columns after a statement. */
  lemma ConfidenceFrame(db: Db, stmt: Stmt, d: nat)
    requires d < |db.docs|
    ensures |Exec(db, stmt).docs| == |db.docs|
    ensures !stmt.MarkClassified? && !stmt.MarkPendingReview? ==> Exec(db, stmt).docs[d].classConf == db.docs[d].classConf
    ensures stmt.MarkClassified? && stmt.doc == d ==> Exec(db, stmt).docs[d].classConf == Some(stmt.confidence)
    ensures stmt.MarkAutoProcessed? && stmt.doc == d ==> Exec(db, stmt).docs[d].overallConf == Some(stmt.overall)
  {
  }

  /** An accepted extraction is complete, so its hash was computed and stored. */
  lemma {:induction false} AcceptedIsComplete(cfg: Config, o: Outcomes)
    requires WellFormed(cfg, o) && Accepted(cfg, o)
    ensures KeyFields.KeyHash(cfg, o.fields).Some?
  {
    forall n | n in o.fields ensures o.fields[n].value != Null {
      assert n in cfg.types[o.docType].schema;
      assert Values(o.fields)[n] == o.fields[n].value;
    }
  }

  /** What the gates have established when MarkAutoProcessed is issued. */
  lemma GatesPassed(cfg: Config, s: Sys, w: nat)
    requires Owned(cfg, s) && w < |s.workers| && s.workers[w].At? && s.workers[w].pc.PersistAuto? && Gates.OnCourse(cfg, s, w)
    ensures Accepted(cfg, s.workers[w].o) && Overall(s.workers[w].o) >= Threshold(cfg, s.workers[w].o)
  {
    var o := s.workers[w].o;
    var l := Gates.NoDuplicate;
    assert Gates.Passed(cfg, o, l, 6);
    assert Gates.Gate(cfg, o, l, 6).None?;
    assert Gates.Passed(cfg, o, l, 5) && Gates.Passed(cfg, o, l, 4);
    assert Gates.Gate(cfg, o, l, 4).None?;
  }

  /** All the facts a worker's statement may rely on. */
  ghost predicate Base(cfg: Config, s: Sys) {
    Owned(cfg, s) && Consistent(s) && Duplicates.DuplicatesSound(cfg, s) && Gates.TracesFollowVerdicts(cfg, s)
  }

  /** The runs of a document are left as they are by its worker's statement, its
      own run apart. */
  lemma OtherRunsKept(cfg: Config, s: Sys, w: nat)
    requires Owned(cfg, s) && w < |s.workers| && s.workers[w].At?
    ensures var s', c := DoAdvance(cfg, s, w), s.workers[w];
      && |s'.db.runs| == |s.db.runs| && c.run < |s.db.runs|
      && (forall q :: 0 <= q < |s.db.runs| && q != c.run ==> s'.db.runs[q] == s.db.runs[q])
      && s'.db.runs[c.run].doc == s.db.runs[c.run].doc == c.doc
  {
    var c := s.workers[w];
    assert Owns(cfg, s, w);
    ExecFrame(s.db, Issue(cfg, s.db, c));
    OwnStatement(cfg, s.db, c);
  }

  /** How the own run's status follows the statement. */
  lemma OwnRunStatus(cfg: Config, s: Sys, w: nat)
    requires Owned(cfg, s) && w < |s.workers| && s.workers[w].At? && Carries(cfg, s, w)
    ensures var s', c := DoAdvance(cfg, s, w), s.workers[w];
      && c.run < |s'.db.runs|
      && (EndsFailed(c.pc) || c.pc.FailFinish? ==> s'.db.runs[c.run].status == RunFailed)
      && (c.pc.FinishAuto? || c.pc.AuditAuto? ==> s'.db.runs[c.run].status == Completed)
  {
    var c := s.workers[w];
    assert Owns(cfg, s, w);
    ExecFrame(s.db, Issue(cfg, s.db, c));
  }

  /** The run statuses of a document after its worker's statement. */
  lemma OtherRunsFailed(cfg: Config, s: Sys, w: nat)
    requires Base(cfg, s) && w < |s.workers| && s.workers[w].At? && Carries(cfg, s, w)
    ensures var s', c := DoAdvance(cfg, s, w), s.workers[w];
      && |s'.db.runs| == |s.db.runs| && c.run < |s.db.runs|
      && (forall q :: 0 <= q < |s.db.runs| && q != c.run && s.db.runs[q].doc == c.doc ==> s'.db.runs[q].status == RunFailed)
      && (forall q :: 0 <= q < |s.db.runs| ==> s'.db.runs[q].doc == s.db.runs[q].doc)
      && (forall q :: 0 <= q < |s.db.runs| && s.db.runs[q].doc != c.doc ==> s'.db.runs[q] == s.db.runs[q])
      && (EndsFailed(c.pc) || c.pc.FailFinish? ==> s'.db.runs[c.run].status == RunFailed)
      && (c.pc.FinishAuto? || c.pc.AuditAuto? ==> s'.db.runs[c.run].status == Completed)
  {
    OtherRunsKept(cfg, s, w);
    OwnRunStatus(cfg, s, w);
  }

  lemma ViewAfterAdvance(cfg: Config, s: Sys, w: nat, d: nat, o: Outcomes)
    requires Owned(cfg, s) && w < |s.workers| && s.workers[w].At?
    requires Shows(s.db.fields, d, o)
    requires d == s.workers[w].doc ==> !Issue(cfg, s.db, s.workers[w]).InsertBatch?
    ensures Shows(DoAdvance(cfg, s, w).db.fields, d, o)
  {
    var c := s.workers[w];
    var stmt := Issue(cfg, s.db, c);
    ExecFrame(s.db, stmt);
    if stmt.InsertBatch? {
      WorkerInserts(cfg, s, w);
      FieldView.BatchOverwrites(s.db.fields, stmt.rows, c.doc, |s.db.fields|, d);
    }
  }

  lemma MoverShows(cfg: Config, s: Sys, w: nat, next: Pc)
    requires Base(cfg, s) && w < |s.workers| && s.workers[w].At? && Carries(cfg, s, w)
    requires Goto(cfg, s.db, s.workers[w]) == Some(next) && FieldsStored(next)
    ensures Shows(DoAdvance(cfg, s, w).db.fields, s.workers[w].doc, s.workers[w].o)
  {
    var c := s.workers[w];
    assert Owns(cfg, s, w);
    StoresFields(cfg, s.db, c, next);
    if FieldsStored(c.pc) {
      ViewAfterAdvance(cfg, s, w, c.doc, c.o);
    } else {
      FieldsGoIn(cfg, s, w);
    }
  }

  lemma FieldsGoIn(cfg: Config, s: Sys, w: nat)
    requires Owned(cfg, s) && w < |s.workers| && s.workers[w].At? && s.workers[w].pc.PersistFields? && FieldsPersist(s.workers[w].o)
    ensures Shows(DoAdvance(cfg, s, w).db.fields, s.workers[w].doc, s.workers[w].o)
  {
    var c := s.workers[w];
    assert Owns(cfg, s, w);
    var rows := Rows(c.doc, c.o, |s.db.fields|);
    assert Issue(cfg, s.db, c) == InsertBatch(c.doc, rows);
    assert DoAdvance(cfg, s, w).db.fields == s.db.fields + rows;
    RowsShow(cfg, s.db.fields, c.doc, c.o);
  }

  lemma ProvenByMarking(cfg: Config, s: Sys, w: nat)
    requires Base(cfg, s) && w < |s.workers| && s.workers[w].At? && Carries(cfg, s, w)
    requires s.workers[w].pc.PersistAuto? && s.workers[w].o.autoOk
    ensures Proven(cfg, DoAdvance(cfg, s, w), s.workers[w].doc, s.workers[w].run)
  {
    var c := s.workers[w];
    assert Owns(cfg, s, w) && Duplicates.Grounded(cfg, s, w) && Gates.OnCourse(cfg, s, w);
    GatesPassed(cfg, s, w);
    AcceptedIsComplete(cfg, c.o);
    ConfidenceFrame(s.db, Issue(cfg, s.db, c), c.doc);
    ExecFrame(s.db, Issue(cfg, s.db, c));
    ViewAfterAdvance(cfg, s, w, c.doc, c.o);
  }

  lemma ProvenKept(cfg: Config, s: Sys, s': Sys, d: nat, r: nat)
    requires Proven(cfg, s, d, r) && s.plan <= s'.plan && d < |s'.db.docs| && s'.db.docs[d] == s.db.docs[d]
    requires FieldView.View(s'.db.fields, d) == FieldView.View(s.db.fields, d)
    ensures Proven(cfg, s', d, r)
  {
  }

  lemma ViewUntouched(cfg: Config, s: Sys, w: nat, d: nat)
    requires Owned(cfg, s) && w < |s.workers| && s.workers[w].At?
    requires d == s.workers[w].doc ==> !Issue(cfg, s.db, s.workers[w]).InsertBatch?
    ensures FieldView.View(DoAdvance(cfg, s, w).db.fields, d) == FieldView.View(s.db.fields, d)
  {
    var stmt := Issue(cfg, s.db, s.workers[w]);
    ExecFrame(s.db, stmt);
    if stmt.InsertBatch? {
      WorkerInserts(cfg, s, w);
      FieldView.BatchOverwrites(s.db.fields, stmt.rows, s.workers[w].doc, |s.db.fields|, d);
    }
  }

  lemma DecidedWritesNothing(cfg: Config, db: Db, c: Ctl)
    requires c.At? && Decided(c.pc)
    ensures !TouchesDoc(Issue(cfg, db, c)) && !Issue(cfg, db, c).InsertBatch?
  {
  }

  lemma MoverProven(cfg: Config, s: Sys, w: nat, next: Pc)
    requires Base(cfg, s) && w < |s.workers| && s.workers[w].At? && Carries(cfg, s, w)
    requires Goto(cfg, s.db, s.workers[w]) == Some(next) && Decided(next)
    ensures Proven(cfg, DoAdvance(cfg, s, w), s.workers[w].doc, s.workers[w].run)
  {
    var c := s.workers[w];
    assert Owns(cfg, s, w);
    Decides(cfg, s.db, c, next);
    if Decided(c.pc) {
      DecidedWritesNothing(cfg, s.db, c);
      ExecFrame(s.db, Issue(cfg, s.db, c));
      ViewUntouched(cfg, s, w, c.doc);
      ProvenKept(cfg, s, DoAdvance(cfg, s, w), c.doc, c.run);
    } else {
      ProvenByMarking(cfg, s, w);
    }
  }

  lemma MoverCarries(cfg: Config, s: Sys, w: nat)
    requires Base(cfg, s) && w < |s.workers| && s.workers[w].At? && Carries(cfg, s, w)
    ensures Carries(cfg, DoAdvance(cfg, s, w), w)
  {
    var c := s.workers[w];
    var stmt, next := Issue(cfg, s.db, c), Goto(cfg, s.db, c);
    assert Owns(cfg, s, w);
    if next.Some? {
      ExecFrame(s.db, stmt);
      OwnStatement(cfg, s.db, c);
      ConfidenceFrame(s.db, stmt, c.doc);
      OtherRunsFailed(cfg, s, w);
      Decides(cfg, s.db, c, next.value);
      EntersFailure(cfg, s.db, c, next.value);
      if Classed(next.value) { Classes(cfg, s.db, c, next.value); }
      if FieldsStored(next.value) { MoverShows(cfg, s, w, next.value); }
      if Decided(next.value) { MoverProven(cfg, s, w, next.value); }
    }
  }

  lemma OthersCarry(cfg: Config, s: Sys, w: nat, v: nat)
    requires Base(cfg, s) && DataSound(cfg, s) && w < |s.workers| && s.workers[w].At? && v < |s.workers| && v != w
    ensures Carries(cfg, DoAdvance(cfg, s, w), v)
  {
    var c, s' := s.workers[w], DoAdvance(cfg, s, w);
    assert Owns(cfg, s, w) && Owns(cfg, s, v) && Carries(cfg, s, v) && Carries(cfg, s, w);
    if s.workers[v].At? {
      var d := s.workers[v].doc;
      assert d != c.doc by {
        if v < w { assert s.workers[v].doc != s.workers[w].doc; } else { assert s.workers[w].doc != s.workers[v].doc; }
      }
      ExecFrame(s.db, Issue(cfg, s.db, c));
      OwnStatement(cfg, s.db, c);
      OtherRunsFailed(cfg, s, w);
      ViewUntouched(cfg, s, w, d);
      if Decided(s.workers[v].pc) {
        ProvenKept(cfg, s, s', d, s.workers[v].run);
      }
    }
  }

  lemma DocAfterAdvance(cfg: Config, s: Sys, w: nat, d: nat)
    requires Base(cfg, s) && DataSound(cfg, s) && w < |s.workers| && s.workers[w].At? && d < |s.db.docs| && d != s.workers[w].doc
    ensures |DoAdvance(cfg, s, w).db.docs| == |s.db.docs|
    ensures DocSound(cfg, DoAdvance(cfg, s, w), d)
  {
    var c, s' := s.workers[w], DoAdvance(cfg, s, w);
    assert DocSound(cfg, s, d) && Carries(cfg, s, w) && Owns(cfg, s, w);
    ExecFrame(s.db, Issue(cfg, s.db, c));
    OwnStatement(cfg, s.db, c);
    OtherRunsFailed(cfg, s, w);
    HeldKept(s, s', d);
    if !Held(s, d) && s.db.docs[d].status == AutoProcessed {
      var r :| OnlySuccess(s, d, r) && Proven(cfg, s, d, r);
      ViewUntouched(cfg, s, w, d);
      ProvenKept(cfg, s, s', d, r);
      assert OnlySuccess(s', d, r);
    }
  }

  /** The mover's document, once the mover lets go of it. */
  lemma MoverLeaves(cfg: Config, s: Sys, w: nat)
    requires Base(cfg, s) && DataSound(cfg, s) && w < |s.workers| && s.workers[w].At?
    ensures s.workers[w].doc < |s.db.docs| == |DoAdvance(cfg, s, w).db.docs|
    ensures DocSound(cfg, DoAdvance(cfg, s, w), s.workers[w].doc)
  {
    var c, s' := s.workers[w], DoAdvance(cfg, s, w);
    var d := c.doc;
    assert Carries(cfg, s, w) && Fits(s, w) && Owns(cfg, s, w);
    ExecFrame(s.db, Issue(cfg, s.db, c));
    HeldWhileAt(s', w);
    if s'.workers[w].Idle? {
      OtherRunsFailed(cfg, s, w);
      WaysOut(cfg, s.db, c, s.db.docs[d].status);
      if c.pc.AuditAuto? {
        ViewUntouched(cfg, s, w, d);
        ProvenKept(cfg, s, s', d, c.run);
        assert OnlySuccess(s', d, c.run);
      }
    }
  }

  /** How a worker lets go of a document. */
  lemma WaysOut(cfg: Config, db: Db, c: Ctl, st: Status)
    requires c.At? && StatusFits(c.pc, st) && Goto(cfg, db, c).None?
    ensures c.pc.AuditAuto? || EndsFailed(c.pc) || (c.pc.AuditRouted? && NewStatus(Issue(cfg, db, c), st) == PendingReview)
    ensures c.pc.AuditAuto? ==> !TouchesDoc(Issue(cfg, db, c)) && !Issue(cfg, db, c).InsertBatch? && st == AutoProcessed
    ensures EndsFailed(c.pc) ==> NewStatus(Issue(cfg, db, c), st) != AutoProcessed
  {
  }

  lemma DataAfterAdvance(cfg: Config, s: Sys, w: nat)
    requires Base(cfg, s) && DataSound(cfg, s) && w < |s.workers| && s.workers[w].At?
    ensures DataSound(cfg, DoAdvance(cfg, s, w))
  {
    var s' := DoAdvance(cfg, s, w);
    ExecFrame(s.db, Issue(cfg, s.db, s.workers[w]));
    assert Carries(cfg, s, w);
    MoverCarries(cfg, s, w);
    forall v | 0 <= v < |s'.workers| ensures Carries(cfg, s', v) {
      if v != w { OthersCarry(cfg, s, w, v); }
    }
    forall d | 0 <= d < |s'.db.docs| ensures DocSound(cfg, s', d) {
      if d != s.workers[w].doc { DocAfterAdvance(cfg, s, w, d); } else { MoverLeaves(cfg, s, w); }
    }
  }

  // ----- the other steps -----

  lemma CarriesAfterClaim(cfg: Config, s: Sys, w: nat, o: Outcomes, v: nat)
    requires Base(cfg, s) && DataSound(cfg, s) && Atomic(s, Claim(w, o)) && Enabled(cfg, s, Claim(w, o)) && v < |s.workers|
    ensures Carries(cfg, Next(cfg, s, Claim(w, o)), v)
  {
    var s', d0 := Next(cfg, s, Claim(w, o)), Claimed(s);
    ClaimedIsFree(cfg, s, w, o);
    assert DocSound(cfg, s, d0) && Carries(cfg, s, v);
    if v != w && s.workers[v].At? {
      assert s.workers[v].doc != d0;
      if Decided(s.workers[v].pc) {
        ProvenKept(cfg, s, s', s.workers[v].doc, s.workers[v].run);
      }
    }
  }

  lemma DocAfterClaim(cfg: Config, s: Sys, w: nat, o: Outcomes, d: nat)
    requires Base(cfg, s) && DataSound(cfg, s) && Atomic(s, Claim(w, o)) && Enabled(cfg, s, Claim(w, o)) && d < |s.db.docs|
    ensures Next(cfg, s, Claim(w, o)).db.docs == s.db.docs
    ensures DocSound(cfg, Next(cfg, s, Claim(w, o)), d)
  {
    var s' := Next(cfg, s, Claim(w, o));
    assert DocSound(cfg, s, d);
    HeldKept(s, s', d);
    HeldWhileAt(s', w);
    if !Held(s', d) && s.db.docs[d].status == AutoProcessed {
      ProcessedAfterClaim(cfg, s, w, o, d);
    }
  }

  lemma ProcessedAfterClaim(cfg: Config, s: Sys, w: nat, o: Outcomes, d: nat)
    requires Enabled(cfg, s, Claim(w, o)) && d < |s.db.docs| && d != Claimed(s) && exists r :: OnlySuccess(s, d, r) && Proven(cfg, s, d, r)
    ensures var s' := Next(cfg, s, Claim(w, o)); exists r :: OnlySuccess(s', d, r) && Proven(cfg, s', d, r)
  {
    var s' := Next(cfg, s, Claim(w, o));
    var r :| OnlySuccess(s, d, r) && Proven(cfg, s, d, r);
    ProvenKept(cfg, s, s', d, r);
    assert OnlySuccess(s', d, r);
  }

  lemma DataAfterClaim(cfg: Config, s: Sys, w: nat, o: Outcomes)
    requires Base(cfg, s) && DataSound(cfg, s) && Atomic(s, Claim(w, o)) && Enabled(cfg, s, Claim(w, o))
    ensures DataSound(cfg, Next(cfg, s, Claim(w, o)))
  {
    var s' := Next(cfg, s, Claim(w, o));
    forall v | 0 <= v < |s'.workers| ensures Carries(cfg, s', v) {
      CarriesAfterClaim(cfg, s, w, o, v);
    }
    forall d | 0 <= d < |s'.db.docs| ensures DocSound(cfg, s', d) {
      DocAfterClaim(cfg, s, w, o, d);
    }
  }

  /** What a reviewer's statement may do to a document: nothing, or something to
      one that waits for review and that no worker holds. */
  ghost predicate LeftAlone(s: Sys, s': Sys, d: nat)
    requires d < |s.db.docs| && d < |s'.db.docs|
  {
    || (s'.db.docs[d] == s.db.docs[d] && FieldView.View(s'.db.fields, d) == FieldView.View(s.db.fields, d))
    || (!Held(s, d) && s.db.docs[d].status == PendingReview && (s'.db.docs[d].status == PendingReview || s'.db.docs[d].status == Reviewed))
  }

  lemma CarriesFramed(cfg: Config, s: Sys, s': Sys, v: nat)
    requires v < |s.workers| && Carries(cfg, s, v) && s'.workers == s.workers && s'.plan == s.plan && s'.db.runs == s.db.runs
    requires |s.db.docs| <= |s'.db.docs| && forall d :: 0 <= d < |s.db.docs| ==> LeftAlone(s, s', d)
    ensures Carries(cfg, s', v)
  {
    HeldWhileAt(s, v);
    var c := s.workers[v];
    if c.At? {
      assert LeftAlone(s, s', c.doc);
      if Decided(c.pc) {
        ProvenKept(cfg, s, s', c.doc, c.run);
      }
    }
  }

  lemma DocFramed(cfg: Config, s: Sys, s': Sys, d: nat)
    requires d < |s.db.docs| <= |s'.db.docs| && DocSound(cfg, s, d) && LeftAlone(s, s', d)
    requires s'.workers == s.workers && s'.plan == s.plan && s'.db.runs == s.db.runs
    ensures DocSound(cfg, s', d)
  {
    HeldKept(s, s', d);
    if !Held(s', d) && s'.db.docs[d].status == AutoProcessed {
      var r :| OnlySuccess(s, d, r) && Proven(cfg, s, d, r);
      ProvenKept(cfg, s, s', d, r);
      assert OnlySuccess(s', d, r);
    }
  }

  lemma DataFramed(cfg: Config, s: Sys, s': Sys)
    requires Base(cfg, s) && DataSound(cfg, s) && GoodDesks(s')
    requires s'.workers == s.workers && s'.plan == s.plan && s'.db.runs == s.db.runs && |s.db.docs| <= |s'.db.docs|
    requires forall d :: |s.db.docs| <= d < |s'.db.docs| ==> s'.db.docs[d].status == Uploaded
    requires forall d :: 0 <= d < |s.db.docs| ==> LeftAlone(s, s', d)
    ensures DataSound(cfg, s')
  {
    forall v | 0 <= v < |s'.workers| ensures Carries(cfg, s', v) {
      assert Carries(cfg, s, v);
      CarriesFramed(cfg, s, s', v);
    }
    forall d | 0 <= d < |s'.db.docs| ensures DocSound(cfg, s', d) {
      if d < |s.db.docs| {
        assert DocSound(cfg, s, d);
        DocFramed(cfg, s, s', d);
      } else {
        forall q | 0 <= q < |s'.db.runs| ensures s'.db.runs[q].doc != d {
          assert Driven(s, q);
        }
      }
    }
  }

  lemma CorrectionsStayLocal(s: Sys, i: nat, d: nat)
    requires GoodDesks(s) && i < |s.desks| && s.desks[i].Busy? && d != s.desks[i].req.doc
    ensures FieldView.View(DoReview(s, i).db.fields, d) == FieldView.View(s.db.fields, d)
  {
    var k := s.desks[i];
    var stmt := DeskIssue(s.db, k);
    ExecFrame(s.db, stmt);
    if stmt.InsertBatch? {
      CorrectionsAreABatch(k.req, |s.db.fields|);
      FieldView.BatchOverwrites(s.db.fields, stmt.rows, k.req.doc, |s.db.fields|, d);
    }
  }

  lemma DeskLeavesOthers(s: Sys, i: nat, d: nat)
    requires Consistent(s) && GoodDesks(s) && Atomic(s, Review(i)) && i < |s.desks| && s.desks[i].Busy? && d < |s.db.docs|
    ensures |DoReview(s, i).db.docs| == |s.db.docs|
    ensures LeftAlone(s, DoReview(s, i), d)
  {
    var k := s.desks[i];
    DeskFrame(s, i);
    assert DeskFits(s, i);
    if d != k.req.doc {
      CorrectionsStayLocal(s, i, d);
    }
    if s.db.docs[d].status == PendingReview {
      forall v | 0 <= v < |s.workers| && s.workers[v].At? ensures s.workers[v].doc != d {
        assert Fits(s, v) && !InTail(s.workers[v]);
      }
    }
  }

  lemma {:induction false} DataAfter(cfg: Config, s: Sys, a: Act)
    requires Base(cfg, s) && DataSound(cfg, s) && Atomic(s, a)
    ensures DataSound(cfg, Next(cfg, s, a))
  {
    if Enabled(cfg, s, a) {
      match a
      case Upload(_, _) =>
        assert forall d :: 0 <= d < |s.db.docs| ==> LeftAlone(s, Next(cfg, s, a), d);
        DataFramed(cfg, s, Next(cfg, s, a));
      case Claim(w, o) => DataAfterClaim(cfg, s, w, o);
      case Advance(w) => DataAfterAdvance(cfg, s, w);
      case OpenReview(_, _) =>
        assert forall d :: 0 <= d < |s.db.docs| ==> LeftAlone(s, Next(cfg, s, a), d);
        DataFramed(cfg, s, Next(cfg, s, a));
      case Review(i) =>
        DeskFrame(s, i);
        forall d | 0 <= d < |s.db.docs| ensures LeftAlone(s, DoReview(s, i), d) {
          DeskLeavesOthers(s, i, d);
        }
        DataFramed(cfg, s, DoReview(s, i));
    }
  }
}
