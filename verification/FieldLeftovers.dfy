/** What a retried document keeps of its earlier runs: their field rows. When it
    can show fields its type does not have. */
module FieldLeftovers {
  import opened Prelude
  import opened Domain
  import opened Tables
  import opened Pipeline
  import opened Protocol
  import opened Ownership
  import opened CallLevel
  import Attempts
  import FieldView
  import Gates
  import Integrity
  import Leftovers
  import Limits
  import Outcome
  import Retries
  import SoloRun
  import Sorting
  import Theorems

  ghost predicate Known(cfg: Config, t: string) {
    t in cfg.types && t != UNKNOWN_TYPE
  }

  /** All types that can be stored have the same fields. */
  ghost predicate SameFields(cfg: Config) {
    forall t, u :: Known(cfg, t) && Known(cfg, u) ==> cfg.types[t].schema.Keys <= cfg.types[u].schema.Keys
  }

  /** A run can store fields and still fail, and another one may be of another type. */
  ghost predicate FieldsCarryOver(cfg: Config) {
    cfg.maxRetries >= 1 && cfg.maxIterations >= 3 && !SameFields(cfg)
  }

  // ----- where rows come from -----

  /** Run `r` of the document is past its classification. */
  ghost predicate PastOpening(s: Sys, r: nat, d: nat) {
    && r < |s.db.runs| && s.db.runs[r].doc == d
    && forall v :: 0 <= v < |s.workers| && s.workers[v].At? && s.workers[v].run == r ==> !Gates.Opening(s.workers[v].pc)
  }

  ghost predicate FieldOf(cfg: Config, doc: Document, name: string) {
    doc.docType.Some? && Known(cfg, doc.docType.value) && name in cfg.types[doc.docType.value].schema
  }

  /** An extracted row is one of the document's type; a corrected one belongs to a
      document in review. */
  ghost predicate RowFits(cfg: Config, s: Sys, i: nat)
    requires i < |s.db.fields|
  {
    var row := s.db.fields[i];
    && row.doc < |s.db.docs|
    && (row.source == Extraction ==>
          cfg.maxIterations >= 3 && FieldOf(cfg, s.db.docs[row.doc], row.name) && exists r: nat :: PastOpening(s, r, row.doc))
    && (row.source == ReviewCorrection ==> s.db.docs[row.doc].status == PendingReview || s.db.docs[row.doc].status == Reviewed)
  }

  ghost predicate RowsFit(cfg: Config, s: Sys) {
    forall i :: 0 <= i < |s.db.fields| ==> RowFits(cfg, s, i)
  }

  lemma {:induction false} TwoAreTwo<T>(s: seq<T>, i: nat, j: nat, p: T -> bool)
    requires i < j < |s| && p(s[i]) && p(s[j])
    ensures Count(s, p) >= 2
  {
    var n := |s| - 1;
    if j < n {
      TwoAreTwo(s[..n], i, j, p);
    } else {
      CountIsPositive(s[..n], i, p);
    }
  }

  // ----- one step of a worker -----

  lemma NeverBackToOpening(cfg: Config, db: Db, c: Ctl)
    requires c.At? && !Gates.Opening(c.pc)
    ensures var next := Goto(cfg, db, c); next.Some? ==> !Gates.Opening(next.value)
  {
  }

  lemma PastOpeningKept(cfg: Config, s: Sys, w: nat, r: nat, d: nat)
    requires Owned(cfg, s) && w < |s.workers| && s.workers[w].At? && PastOpening(s, r, d)
    ensures PastOpening(DoAdvance(cfg, s, w), r, d)
  {
    assert Owns(cfg, s, w);
    ExecFrame(s.db, Issue(cfg, s.db, s.workers[w]));
    if s.workers[w].run == r {
      NeverBackToOpening(cfg, s.db, s.workers[w]);
    }
  }

  lemma ClassifiesWhileOpening(cfg: Config, db: Db, c: Ctl)
    requires c.At? && Issue(cfg, db, c).MarkClassified?
    ensures c.pc.PersistClassified? && ClassificationPersists(cfg, c.o) && Issue(cfg, db, c).docType == c.o.docType
  {
  }

  /** Without retries a document has one run. */
  lemma OnlyRun(cfg: Config, s: Sys, d: nat, q: nat, r: nat)
    requires Theorems.CallInv(cfg, s) && cfg.maxRetries <= 0 && d < |s.db.docs|
    requires q < |s.db.runs| && r < |s.db.runs| && s.db.runs[q].doc == d && s.db.runs[r].doc == d
    ensures q == r
  {
    assert Attempts.Tried(s, d) && Retries.Backed(cfg, s, d);
    if q < r {
      TwoAreTwo(s.db.runs, q, r, Retries.RunOf(d));
    } else if r < q {
      TwoAreTwo(s.db.runs, r, q, Retries.RunOf(d));
    }
  }

  /** Where fields do not carry over, a document that has some is either not
      classified again, or to no effect on its fields. */
  lemma ClassifiedAgain(cfg: Config, s: Sys, w: nat, i: nat)
    requires Theorems.CallInv(cfg, s) && !FieldsCarryOver(cfg) && w < |s.workers| && s.workers[w].At?
    requires i < |s.db.fields| && RowFits(cfg, s, i) && s.db.fields[i].source == Extraction
    requires Issue(cfg, s.db, s.workers[w]).MarkClassified? && s.db.fields[i].doc == s.workers[w].doc
    ensures Known(cfg, s.workers[w].o.docType) && s.db.fields[i].name in cfg.types[s.workers[w].o.docType].schema
  {
    var c, d := s.workers[w], s.db.fields[i].doc;
    ClassifiesWhileOpening(cfg, s.db, c);
    assert Gates.OnCourse(cfg, s, w) && Owns(cfg, s, w);
    assert SameFields(cfg) by {
      if cfg.maxRetries <= 0 {
        var r: nat :| PastOpening(s, r, d);
        OnlyRun(cfg, s, d, r, c.run);
      }
    }
    assert s.db.fields[i].name in cfg.types[s.db.docs[d].docType.value].schema.Keys;
  }

  lemma OldRowFits(cfg: Config, s: Sys, w: nat, i: nat)
    requires Theorems.CallInv(cfg, s) && !FieldsCarryOver(cfg) && Atomic(s, Advance(w)) && w < |s.workers| && s.workers[w].At?
    requires i < |s.db.fields| && RowFits(cfg, s, i)
    ensures i < |DoAdvance(cfg, s, w).db.fields| && RowFits(cfg, DoAdvance(cfg, s, w), i)
  {
    var c, s', row := s.workers[w], DoAdvance(cfg, s, w), s.db.fields[i];
    var stmt := Issue(cfg, s.db, c);
    ExecFrame(s.db, stmt);
    OwnStatement(cfg, s.db, c);
    assert s'.db.fields[i] == row;
    if row.source == Extraction {
      var r: nat :| PastOpening(s, r, row.doc);
      PastOpeningKept(cfg, s, w, r, row.doc);
      if stmt.MarkClassified? && row.doc == c.doc {
        ClassifiedAgain(cfg, s, w, i);
        ClassifiesWhileOpening(cfg, s.db, c);
      }
    } else {
      assert Next(cfg, s, Advance(w)) == s';
      SettledStaysSettled(cfg, s, Advance(w), row.doc);
    }
  }

  /** A run that stores fields is past its classification. */
  lemma StoresPastOpening(cfg: Config, s: Sys, w: nat)
    requires Theorems.CallInv(cfg, s) && w < |s.workers| && s.workers[w].At? && s.workers[w].pc.PersistFields?
    ensures var c, s' := s.workers[w], DoAdvance(cfg, s, w);
      && PastOpening(s', c.run, c.doc) && cfg.maxIterations >= 3 && Known(cfg, c.o.docType)
      && c.doc < |s.db.docs| && s.db.docs[c.doc].docType == Some(c.o.docType)
  {
    var c := s.workers[w];
    assert Owns(cfg, s, w) && Gates.OnCourse(cfg, s, w) && Integrity.Carries(cfg, s, w);
    assert Gates.Gate(cfg, c.o, Gates.NoDuplicate, 2).None?;
    NeverBackToOpening(cfg, s.db, c);
    ExecFrame(s.db, Issue(cfg, s.db, c));
    forall v | 0 <= v < |s.workers| && v != w && s.workers[v].At? ensures s.workers[v].run != c.run {
      assert Owns(cfg, s, v);
    }
  }

  lemma NewRowFits(cfg: Config, s: Sys, w: nat, i: nat)
    requires Theorems.CallInv(cfg, s) && w < |s.workers| && s.workers[w].At?
    requires |s.db.fields| <= i < |DoAdvance(cfg, s, w).db.fields|
    ensures RowFits(cfg, DoAdvance(cfg, s, w), i)
  {
    var c, s' := s.workers[w], DoAdvance(cfg, s, w);
    var stmt := Issue(cfg, s.db, c);
    assert Owns(cfg, s, w);
    ExecFrame(s.db, stmt);
    Integrity.WorkerInserts(cfg, s, w);
    StoresPastOpening(cfg, s, w);
    var j := i - |s.db.fields|;
    assert s'.db.fields[i] == stmt.rows[j];
    assert c.o.order[j] in Sorting.Names(c.o.order);
    assert c.o.order[j] in c.o.fields.Keys;
  }

  // ----- every step -----

  lemma RowFramed(cfg: Config, s: Sys, s': Sys, i: nat)
    requires i < |s.db.fields| && RowFits(cfg, s, i) && s.db.fields <= s'.db.fields && |s.db.docs| <= |s'.db.docs| && s.db.runs <= s'.db.runs
    requires forall v :: 0 <= v < |s'.workers| && s'.workers[v].At? ==>
      s'.workers[v].run >= |s.db.runs| || (v < |s.workers| && s'.workers[v] == s.workers[v])
    requires forall d :: 0 <= d < |s.db.docs| ==>
      s'.db.docs[d].docType == s.db.docs[d].docType && (s'.db.docs[d].status == s.db.docs[d].status || s'.db.docs[d].status == Reviewed)
    ensures RowFits(cfg, s', i)
  {
    var row := s.db.fields[i];
    assert s'.db.fields[i] == row;
    if row.source == Extraction {
      var r: nat :| PastOpening(s, r, row.doc);
      assert PastOpening(s', r, row.doc);
    }
  }

  /** Corrections go to a document in review. */
  lemma CorrectionFits(cfg: Config, s: Sys, k: nat, i: nat)
    requires Consistent(s) && k < |s.desks| && s.desks[k].Busy?
    requires |s.db.fields| <= i < |DoReview(s, k).db.fields|
    ensures RowFits(cfg, DoReview(s, k), i)
  {
    var stmt := DeskIssue(s.db, s.desks[k]);
    assert DeskFits(s, k);
    DeskFrame(s, k);
    assert DoReview(s, k).db.fields == s.db.fields + stmt.rows;
    assert DoReview(s, k).db.fields[i] == stmt.rows[i - |s.db.fields|];
  }

  lemma {:induction false} RowsAfter(cfg: Config, s: Sys, a: Act)
    requires Theorems.CallInv(cfg, s) && RowsFit(cfg, s) && Atomic(s, a) && !FieldsCarryOver(cfg)
    ensures RowsFit(cfg, Next(cfg, s, a))
  {
    if Enabled(cfg, s, a) {
      var s' := Next(cfg, s, a);
      forall i | 0 <= i < |s'.db.fields| ensures RowFits(cfg, s', i) {
        match a
        case Advance(w) =>
          if i < |s.db.fields| {
            OldRowFits(cfg, s, w, i);
          } else {
            NewRowFits(cfg, s, w, i);
          }
        case Review(k) => RowAfterReview(cfg, s, k, i);
        case _ => RowFramed(cfg, s, s', i);
      }
    }
  }

  lemma RowAfterReview(cfg: Config, s: Sys, k: nat, i: nat)
    requires Consistent(s) && RowsFit(cfg, s) && k < |s.desks| && s.desks[k].Busy?
    requires i < |DoReview(s, k).db.fields|
    ensures RowFits(cfg, DoReview(s, k), i)
  {
    if i < |s.db.fields| {
      DeskFrame(s, k);
      ExecFrame(s.db, DeskIssue(s.db, s.desks[k]));
      RowFramed(cfg, s, DoReview(s, k), i);
    } else {
      CorrectionFits(cfg, s, k, i);
    }
  }

  lemma {:induction false} FittingRuns(cfg: Config, w: nat, k: nat, acts: seq<Act>)
    requires AtomicRun(cfg, Start(w, k), acts) && !FieldsCarryOver(cfg)
    ensures RowsFit(cfg, Execute(cfg, Start(w, k), acts))
  {
    if acts != [] {
      var n := |acts| - 1;
      FittingRuns(cfg, w, k, acts[..n]);
      Theorems.CallInvariants(cfg, w, k, acts[..n]);
      RowsAfter(cfg, Execute(cfg, Start(w, k), acts[..n]), acts[n]);
    }
  }

  // ----- when, and how -----

  /** Every extracted field a document shows is one of the type it carries. */
  ghost predicate ShowsOwnFields(cfg: Config, s: Sys) {
    forall d, name :: 0 <= d < |s.db.docs| && name in FieldView.View(s.db.fields, d) && FieldView.View(s.db.fields, d)[name].source == Extraction ==>
      FieldOf(cfg, s.db.docs[d], name)
  }

  /** An AUTO_PROCESSED document shows exactly the fields of its type. */
  ghost predicate ProcessedShowSchema(cfg: Config, s: Sys) {
    forall d :: 0 <= d < |s.db.docs| && s.db.docs[d].status == AutoProcessed ==> ShowsSchema(cfg, s.db, d)
  }

  ghost predicate ShowsSchema(cfg: Config, db: Db, d: nat)
    requires d < |db.docs|
  {
    db.docs[d].docType.Some? && db.docs[d].docType.value in cfg.types
    && FieldView.View(db.fields, d).Keys == cfg.types[db.docs[d].docType.value].schema.Keys
  }

  /** A run of type `t` that stores its fields and cannot store the status. */
  ghost function StatusLost(cfg: Config, t: string): Outcomes
    requires t in cfg.types
  {
    Limits.Sampled(cfg, t).(extractedOk := false)
  }

  lemma StatusLostFails(cfg: Config, t: string)
    requires cfg.maxRetries >= 1 && cfg.maxIterations >= 3 && Known(cfg, t)
    ensures var o := StatusLost(cfg, t); Leftovers.FailsTyped(cfg, o) && Leftovers.StoredRows(cfg, o) == Rows(0, o, 0)
  {
    var o, l := StatusLost(cfg, t), Gates.NoDuplicate;
    Limits.SampledIsAccepted(cfg, t);
    assert Gates.Passed(cfg, o, l, 0) && Gates.Passed(cfg, o, l, 1) && Gates.Passed(cfg, o, l, 2);
    Gates.StopsAt(cfg, o, l, 2);
  }

  /** Stored rows are shown, whatever is stored later. */
  lemma StoredAreShown(cfg: Config, o: Outcomes, name: string, rest: seq<FieldRow>, at: nat)
    requires WellFormed(cfg, o) && name in o.fields && FieldView.Batch(rest, 0, at)
    ensures name in FieldView.View(Rows(0, o, 0) + rest, 0)
  {
    Integrity.RowsShow(cfg, [], 0, o);
    assert [] + Rows(0, o, 0) == Rows(0, o, 0);
    FieldView.BatchOverwrites(Rows(0, o, 0), rest, 0, at, 0);
  }

  lemma {:induction false} ViewKeepsSource(rows: seq<FieldRow>, d: nat)
    requires forall i :: 0 <= i < |rows| ==> rows[i].source == Extraction
    ensures forall name :: name in FieldView.View(rows, d) ==> FieldView.View(rows, d)[name].source == Extraction
  {
    if rows != [] {
      ViewKeepsSource(rows[..|rows| - 1], d);
    }
  }

  /** The first document shows these extracted fields, and maybe others. */
  ghost predicate ShowsFields(db: Db, names: set<string>) {
    var view := FieldView.View(db.fields, 0);
    names <= view.Keys && forall name :: name in view ==> view[name].source == Extraction
  }

  lemma BothBatchesShown(cfg: Config, o1: Outcomes, o: Outcomes, stored: bool, db: Db)
    requires WellFormed(cfg, o1) && WellFormed(cfg, o)
    requires db.fields == Rows(0, o1, 0) + if stored then Rows(0, o, |Rows(0, o1, 0)|) else []
    ensures ShowsFields(db, o1.fields.Keys)
  {
    var rows := Rows(0, o1, 0);
    var rest := if stored then Rows(0, o, |rows|) else [];
    Integrity.RowsAreABatch(cfg, 0, o, |rows|);
    forall name | name in o1.fields.Keys ensures name in FieldView.View(rows + rest, 0) {
      StoredAreShown(cfg, o1, name, rest, |rows|);
    }
    ViewKeepsSource(rows + rest, 0);
  }

  /** A document that has stored a first run's fields meets a second run. */
  lemma SecondTry(cfg: Config, w: nat, k: nat, t: string, o: Outcomes) returns (acts: seq<Act>)
    requires w >= 1 && cfg.maxRetries >= 1 && cfg.maxIterations >= 3 && Known(cfg, t)
    requires WellFormed(cfg, o) && o.contentLookupOk && o.nearLookupOk
    ensures AtomicRun(cfg, Start(w, k), acts)
    ensures var db, v := Execute(cfg, Start(w, k), acts).db, Gates.VerdictOf(cfg, o, Gates.NoDuplicate);
      && |db.docs| == 1 && ShowsFields(db, cfg.types[t].schema.Keys)
      && (Outcome.GatesPassed(v) >= 2 ==> db.docs[0].docType == Some(o.docType))
      && (v.ending == Gates.AutoProcess ==> db.docs[0].status == AutoProcessed)
  {
    var o1 := StatusLost(cfg, t);
    StatusLostFails(cfg, t);
    var first := Leftovers.FirstTry(cfg, w, k, o1);
    var s := Execute(cfg, Start(w, k), first);
    var second := Leftovers.Polls(cfg, s, o);
    SoloRun.ExecuteConcat(cfg, Start(w, k), first, second);
    acts := first + second;
    BothBatchesShown(cfg, o1, o, Outcome.StoresRows(Gates.VerdictOf(cfg, o, Gates.NoDuplicate)), Execute(cfg, s, second).db);
    assert o1.fields.Keys == cfg.types[t].schema.Keys;
  }

  lemma ForeignField(cfg: Config, s: Sys, names: set<string>, u: string)
    requires |s.db.docs| == 1 && s.db.docs[0].docType == Some(u) && u in cfg.types && ShowsFields(s.db, names)
    requires !(names <= cfg.types[u].schema.Keys)
    ensures !ShowsOwnFields(cfg, s) && !ShowsSchema(cfg, s.db, 0)
  {
    var name :| name in names && name !in cfg.types[u].schema.Keys;
    assert name in FieldView.View(s.db.fields, 0);
  }

  /** The schedule: one worker stores the fields of one type, fails and sets the
      document back; its next run gives it another type. */
  lemma {:induction false} ForeignFieldShown(cfg: Config, w: nat, k: nat) returns (acts: seq<Act>)
    requires w >= 1 && FieldsCarryOver(cfg)
    ensures AtomicRun(cfg, Start(w, k), acts) && !ShowsOwnFields(cfg, Execute(cfg, Start(w, k), acts))
  {
    var t, u :| Known(cfg, t) && Known(cfg, u) && !(cfg.types[t].schema.Keys <= cfg.types[u].schema.Keys);
    Leftovers.SchemaLostFails(cfg, u);
    acts := SecondTry(cfg, w, k, t, Leftovers.SchemaLost(cfg, u));
    ForeignField(cfg, Execute(cfg, Start(w, k), acts), cfg.types[t].schema.Keys, u);
  }

  /** The same, and the next run is auto-processed. */
  lemma {:induction false} ForeignFieldProcessed(cfg: Config, w: nat, k: nat) returns (acts: seq<Act>)
    requires w >= 1 && FieldsCarryOver(cfg) && cfg.maxIterations >= 7
    ensures AtomicRun(cfg, Start(w, k), acts) && !ProcessedShowSchema(cfg, Execute(cfg, Start(w, k), acts))
  {
    var t, u :| Known(cfg, t) && Known(cfg, u) && !(cfg.types[t].schema.Keys <= cfg.types[u].schema.Keys);
    var o := Limits.Sampled(cfg, u);
    Limits.SampledIsSmooth(cfg, u);
    Gates.StopsAt(cfg, o, Gates.NoDuplicate, 7);
    acts := SecondTry(cfg, w, k, t, o);
    ForeignField(cfg, Execute(cfg, Start(w, k), acts), cfg.types[t].schema.Keys, u);
  }

  lemma OwnFieldsShown(cfg: Config, w: nat, k: nat, acts: seq<Act>)
    requires AtomicRun(cfg, Start(w, k), acts) && !FieldsCarryOver(cfg)
    ensures ShowsOwnFields(cfg, Execute(cfg, Start(w, k), acts))
  {
    var s := Execute(cfg, Start(w, k), acts);
    FittingRuns(cfg, w, k, acts);
    Theorems.CallInvariants(cfg, w, k, acts);
    forall d, name | 0 <= d < |s.db.docs| && name in FieldView.View(s.db.fields, d) && FieldView.View(s.db.fields, d)[name].source == Extraction
      ensures FieldOf(cfg, s.db.docs[d], name)
    {
      var i := FieldView.ViewEntriesAreSelected(s.db.fields, d, name);
      assert RowFits(cfg, s, i);
    }
  }

  /** That extracted fields are shown under their own type only is a guarantee, over
      call-level schedules, exactly when there are no retries, or the cap stops
      every run before it extracts, or all types have the same fields. */
  lemma {:induction false} OwnFieldsIff(cfg: Config, w: nat, k: nat)
    requires w >= 1
    ensures cfg.maxRetries <= 0 || cfg.maxIterations < 3 || SameFields(cfg) <==>
      forall acts :: AtomicRun(cfg, Start(w, k), acts) ==> ShowsOwnFields(cfg, Execute(cfg, Start(w, k), acts))
  {
    if FieldsCarryOver(cfg) {
      var acts := ForeignFieldShown(cfg, w, k);
    } else {
      forall acts | AtomicRun(cfg, Start(w, k), acts) ensures ShowsOwnFields(cfg, Execute(cfg, Start(w, k), acts)) {
        OwnFieldsShown(cfg, w, k, acts);
      }
    }
  }

  /** An AUTO_PROCESSED document has no corrections, and shows its whole schema. */
  lemma SchemaShown(cfg: Config, w: nat, k: nat, acts: seq<Act>, d: nat)
    requires AtomicRun(cfg, Start(w, k), acts) && !FieldsCarryOver(cfg)
    requires var s := Execute(cfg, Start(w, k), acts); d < |s.db.docs| && s.db.docs[d].status == AutoProcessed
    ensures ShowsSchema(cfg, Execute(cfg, Start(w, k), acts).db, d)
  {
    var s := Execute(cfg, Start(w, k), acts);
    FittingRuns(cfg, w, k, acts);
    Theorems.CallInvariants(cfg, w, k, acts);
    var r := Theorems.MakerOf(cfg, s, d);
    var view, ty := FieldView.View(s.db.fields, d), cfg.types[s.plan[r].docType];
    forall name ensures name in view.Keys <==> name in ty.schema.Keys {
      if name in view {
        var i := FieldView.ViewEntriesAreSelected(s.db.fields, d, name);
        assert RowFits(cfg, s, i);
      }
      if name in ty.schema.Keys {
        assert name in s.plan[r].fields;
      }
    }
  }

  /** That an AUTO_PROCESSED document shows exactly its type's fields is a guarantee,
      over call-level schedules, exactly when there are no retries, or nothing is
      ever auto-processed because of the cap, or all types have the same fields. */
  lemma {:induction false} ProcessedFieldsIff(cfg: Config, w: nat, k: nat)
    requires w >= 1
    ensures cfg.maxRetries <= 0 || cfg.maxIterations < 7 || SameFields(cfg) <==>
      forall acts :: AtomicRun(cfg, Start(w, k), acts) ==> ProcessedShowSchema(cfg, Execute(cfg, Start(w, k), acts))
  {
    if FieldsCarryOver(cfg) && cfg.maxIterations >= 7 {
      var acts := ForeignFieldProcessed(cfg, w, k);
    } else {
      forall acts | AtomicRun(cfg, Start(w, k), acts) ensures ProcessedShowSchema(cfg, Execute(cfg, Start(w, k), acts)) {
        var s := Execute(cfg, Start(w, k), acts);
        forall d | 0 <= d < |s.db.docs| && s.db.docs[d].status == AutoProcessed ensures ShowsSchema(cfg, s.db, d) {
          if FieldsCarryOver(cfg) {
            Theorems.Invariants(cfg, w, k, acts);
          } else {
            SchemaShown(cfg, w, k, acts, d);
          }
        }
      }
    }
  }
}
