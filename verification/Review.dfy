/** The reviewer's side: `Submit` as it is written, the control program it is
    proved equal to, and what one call changes. */
module Reviewing {
  import opened Prelude
  import opened Domain
  import opened Tables
  import opened Pipeline
  import opened Protocol
  import opened CallLevel
  import opened Repositories
  import FieldView
  import SoloRun
  import Sorting

  datatype Response = Done | MissingCorrections | NotFound | NotReviewable | DbError

  function StepsLeft(k: Desk): nat {
    if k.Free? then 0
    else
      match k.step
      case LoadDoc => 6 case LoadTask => 5 case SaveCorrections(_) => 4
      case ResolveTask(_) => 3 case MarkDoc(_) => 2 case AuditReview(_) => 1
  }

  /** What the rest of a Submit does to the tables when nothing else moves. */
  function DeskRun(db: Db, k: Desk): Db
    decreases StepsLeft(k)
  {
    if k.Free? then db else DeskRun(Exec(db, DeskIssue(db, k)), DeskAfter(db, k))
  }

  // ----- what one call comes to -----

  predicate Missing(req: Request) {
    req.decision == Correct && req.corrections == map[]
  }

  predicate Owns(db: Db, req: Request) {
    req.doc < |db.docs| && db.docs[req.doc].tenant == req.tenant
  }

  /** The document is there, waits for review and has an open task. */
  predicate Reviewable(db: Db, req: Request) {
    && req.loadOk && req.taskOk && Owns(db, req) && db.docs[req.doc].status == PendingReview
    && GetPendingByDocument(db, req.doc).Some?
  }

  predicate Saved(req: Request) {
    req.decision == Correct ==> req.insertOk
  }

  /** The tables after one Submit, table by table: each write happens exactly when
      everything before it succeeded, and nothing is undone. */
  function Submitted(db: Db, req: Request): Db {
    if Missing(req) || !Reviewable(db, req) then db
    else
      var t := GetPendingByDocument(db, req.doc).value;
      db.(fields := if req.decision == Correct && req.insertOk then db.fields + CorrectionRows(req, |db.fields|) else db.fields,
          tasks := if Saved(req) && req.resolveOk then db.tasks[t := db.tasks[t].(status := DecisionStatus(req.decision))] else db.tasks,
          docs := if Saved(req) && req.resolveOk && req.markOk then db.docs[req.doc := db.docs[req.doc].(status := Reviewed)] else db.docs,
          audit := if Saved(req) && req.resolveOk && req.markOk
                   then db.audit + [Entry(req.tenant, User(req.user), DecisionAction(req.decision), OfTask(t), None)] else db.audit)
  }

  function Answer(db: Db, req: Request): Response {
    if Missing(req) then MissingCorrections
    else if !req.loadOk then DbError
    else if !Owns(db, req) then NotFound
    else if db.docs[req.doc].status != PendingReview then NotReviewable
    else if !req.taskOk then DbError
    else if GetPendingByDocument(db, req.doc).None? then NotReviewable
    else if Saved(req) && req.resolveOk && req.markOk then Done
    else DbError
  }

  // ----- the same in plain terms -----

  /** `t` is the newest open task of the request's document. */
  ghost predicate NewestOpen(db: Db, req: Request, t: nat) {
    && t < |db.tasks| && db.tasks[t].doc == req.doc && db.tasks[t].status == Pending
    && forall i :: t < i < |db.tasks| ==> !(db.tasks[i].doc == req.doc && db.tasks[i].status == Pending)
  }

  ghost predicate NoneOpen(db: Db, req: Request) {
    forall i :: 0 <= i < |db.tasks| ==> !(db.tasks[i].doc == req.doc && db.tasks[i].status == Pending)
  }

  /** Every answer and the condition under which it is given, earlier ones first. */
  ghost predicate Answers(db: Db, req: Request, resp: Response) {
    if req.decision == Correct && req.corrections == map[] then resp == MissingCorrections
    else if !req.loadOk then resp == DbError
    else if !(req.doc < |db.docs| && db.docs[req.doc].tenant == req.tenant) then resp == NotFound
    else if db.docs[req.doc].status != PendingReview then resp == NotReviewable
    else if !req.taskOk then resp == DbError
    else if NoneOpen(db, req) then resp == NotReviewable
    else resp == if (req.decision == Correct ==> req.insertOk) && req.resolveOk && req.markOk then Done else DbError
  }

  /** The request is refused, or an error comes before the first write. */
  ghost predicate Refuses(db: Db, req: Request) {
    || (req.decision == Correct && req.corrections == map[]) || !req.loadOk || !req.taskOk
    || !(req.doc < |db.docs| && db.docs[req.doc].tenant == req.tenant && db.docs[req.doc].status == PendingReview)
    || NoneOpen(db, req)
  }

  /** What a decision writes: the newest open task decided, the document reviewed
      and one entry that says the same, each only if nothing before it failed. */
  ghost predicate Decides(db: Db, db': Db, req: Request, status: ReviewStatus, action: Action) {
    var resolved := (req.decision == Correct ==> req.insertOk) && req.resolveOk;
    exists t: nat :: NewestOpen(db, req, t) && req.doc < |db.docs|
      && db'.tasks == (if resolved then db.tasks[t := Task(req.doc, db.tasks[t].reason, status)] else db.tasks)
      && db'.docs == (if resolved && req.markOk then db.docs[req.doc := db.docs[req.doc].(status := Reviewed)] else db.docs)
      && db'.audit == db.audit + (if resolved && req.markOk then [Entry(req.tenant, User(req.user), action, OfTask(t), None)] else [])
  }

  /** Each decision is stored and logged as what it is. */
  ghost predicate AsDecided(db: Db, db': Db, req: Request) {
    match req.decision
    case Approve => Decides(db, db', req, Approved, ReviewApproved) && db'.fields == db.fields
    case Reject => Decides(db, db', req, Rejected, ReviewRejected) && db'.fields == db.fields
    case Correct => Decides(db, db', req, Corrected, ReviewCorrected) && db.fields <= db'.fields
  }

  /** The answers are exactly these, a refusal leaves every table as it was, and
      whatever is not refused is stored as it was decided. */
  lemma {:induction false} DecisionsAreStored(db: Db, req: Request)
    ensures Answers(db, req, Answer(db, req))
    ensures Refuses(db, req) ==> Submitted(db, req) == db
    ensures !Refuses(db, req) ==> AsDecided(db, Submitted(db, req), req)
  {
    var t := GetPendingByDocument(db, req.doc);
    if t.Some? {
      assert PendingTaskOf(req.doc)(db.tasks[t.value]);
      assert forall i :: t.value < i < |db.tasks| ==> !PendingTaskOf(req.doc)(db.tasks[i]);
      assert NewestOpen(db, req, t.value);
    } else {
      assert forall i :: 0 <= i < |db.tasks| ==> !PendingTaskOf(req.doc)(db.tasks[i]);
    }
  }

  /** The step-by-step program does what the table-by-table description says. */
  lemma {:induction false} DeskRunSubmits(db: Db, req: Request)
    requires GoodRequest(req)
    ensures DeskRun(db, Busy(LoadDoc, req)) == Submitted(db, req)
  {
    var k := Busy(LoadDoc, req);
    DeskStep(db, k);
    if DeskAfter(db, k).Busy? {
      var k1 := k.(step := LoadTask);
      DeskStep(db, k1);
      var task := GetPendingByDocument(db, req.doc);
      if DeskAfter(db, k1).Busy? {
        var mid := if req.decision == Correct && req.insertOk then Exec(db, InsertBatch(req.doc, CorrectionRows(req, |db.fields|))) else db;
        if req.decision == Correct {
          DeskStep(db, k.(step := SaveCorrections(task.value)));
        }
        if Saved(req) {
          ResolveRun(mid, req, task.value);
        }
      }
    }
  }

  lemma DeskStep(db: Db, k: Desk)
    requires k.Busy?
    ensures DeskRun(db, k) == DeskRun(Exec(db, DeskIssue(db, k)), DeskAfter(db, k))
  {
  }

  /** What follows the corrections: resolve, mark, audit, as far as it gets. */
  function Resolved(db: Db, req: Request, t: nat): Db
    requires t < |db.tasks| && req.doc < |db.docs|
  {
    db.(tasks := if req.resolveOk then db.tasks[t := db.tasks[t].(status := DecisionStatus(req.decision))] else db.tasks,
        docs := if req.resolveOk && req.markOk then db.docs[req.doc := db.docs[req.doc].(status := Reviewed)] else db.docs,
        audit := if req.resolveOk && req.markOk
                 then db.audit + [Entry(req.tenant, User(req.user), DecisionAction(req.decision), OfTask(t), None)] else db.audit)
  }

  lemma {:induction false} ResolveRun(db: Db, req: Request, t: nat)
    requires t < |db.tasks| && req.doc < |db.docs|
    ensures DeskRun(db, Busy(ResolveTask(t), req)) == Resolved(db, req, t)
  {
    var k := Busy(ResolveTask(t), req);
    DeskStep(db, k);
    if req.resolveOk {
      var db1, k1 := Exec(db, DeskIssue(db, k)), k.(step := MarkDoc(t));
      DeskStep(db1, k1);
      if req.markOk {
        DeskStep(Exec(db1, DeskIssue(db1, k1)), k.(step := AuditReview(t)));
      }
    }
  }

  // ----- a Submit is a call-level run -----

  /** Desk `i` is the only party inside an atomic call. */
  ghost predicate DeskAlone(s: Sys, i: nat) {
    && (forall w :: 0 <= w < |s.workers| ==> !InTail(s.workers[w]))
    && (forall j :: 0 <= j < |s.desks| && j != i ==> s.desks[j].Free?)
  }

  /** An uninterrupted Submit is a call-level run of the protocol: it ends with
      the tables `DeskRun` computes and the desk free again. */
  lemma {:induction false} SubmitIsAtomicRun(cfg: Config, s: Sys, i: nat) returns (acts: seq<Act>)
    requires i < |s.desks| && DeskAlone(s, i)
    ensures AtomicRun(cfg, s, acts)
    ensures var s' := Execute(cfg, s, acts);
      s'.db == DeskRun(s.db, s.desks[i]) && s'.desks == s.desks[i := Free] && s'.workers == s.workers
    decreases StepsLeft(s.desks[i])
  {
    if s.desks[i].Free? {
      acts := [];
      assert s.desks[i := Free] == s.desks;
    } else {
      var s' := DoReview(s, i);
      DeskStep(s.db, s.desks[i]);
      var rest := SubmitIsAtomicRun(cfg, s', i);
      var one := [Review(i)];
      assert one[..0] == [];
      assert Execute(cfg, s, one[..0]) == s && AtomicRun(cfg, s, one[..0]);
      assert Next(cfg, s, Review(i)) == s';
      SoloRun.ExecuteConcat(cfg, s, one, rest);
      acts := one + rest;
      assert s'.desks[i := Free] == s.desks[i := Free];
    }
  }

  // ----- consequences -----

  /** An accepted correction shadows what was extracted, name by name, and touches
      no other document's fields. */
  lemma {:induction false} CorrectionsShadow(db: Db, req: Request, e: nat)
    requires GoodRequest(req) && Answer(db, req) == Done && req.decision == Correct
    ensures var before, after := FieldView.View(db.fields, e), FieldView.View(Submitted(db, req).fields, e);
      && (e != req.doc ==> after == before)
      && (e == req.doc ==> after.Keys == before.Keys + req.corrections.Keys)
      && (e == req.doc ==> forall n :: n in after ==>
            if n in req.corrections then after[n].value == req.corrections[n] && after[n].confidence == 1.0 && after[n].source == ReviewCorrection
            else after[n] == before[n])
  {
    var rows := CorrectionRows(req, |db.fields|);
    FieldView.BatchOverwrites(db.fields, rows, req.doc, |db.fields|, e);
    forall n ensures n in FieldView.AsMap(rows) <==> n in req.corrections
             ensures n in req.corrections ==>
               (var row := FieldView.AsMap(rows)[n];
                row.value == req.corrections[n] && row.confidence == 1.0 && row.source == ReviewCorrection)
    {
      if n in FieldView.AsMap(rows) {
        var i := FieldView.AsMapNames(rows, n);
        assert req.order[i] in Sorting.Names(req.order);
      }
      if n in req.corrections {
        assert n in Sorting.Names(req.order);
        var i :| 0 <= i < |req.order| && req.order[i] == n;
        FieldView.AsMapFinds(rows, i);
      }
    }
  }

  /** A document is reviewed once: after an accepted Submit no request for it is
      accepted again, and none changes anything. */
  lemma {:induction false} ReviewedOnce(db: Db, first: Request, second: Request)
    requires Answer(db, first) == Done && second.doc == first.doc
    ensures Answer(Submitted(db, first), second) != Done
    ensures Submitted(Submitted(db, first), second) == Submitted(db, first)
  {
  }

  /** The same request, with a database that fails nowhere. */
  function Retried(req: Request): Request {
    req.(loadOk := true, taskOk := true, insertOk := true, resolveOk := true, markOk := true)
  }

  /** The document's update failed after its review task had been resolved. */
  predicate HalfDone(req: Request) {
    Saved(req) && req.resolveOk && !req.markOk
  }

  lemma PendingFound(db: Db, d: nat)
    ensures GetPendingByDocument(db, d).Some? <==> Count(db.tasks, PendingTaskOf(d)) > 0
  {
    var found := GetPendingByDocument(db, d);
    if found.Some? {
      CountIsPositive(db.tasks, found.value, PendingTaskOf(d));
    } else {
      CountIsZero(db.tasks, PendingTaskOf(d));
    }
  }

  /** A Submit that hit a database error can be sent again, with exactly one
      exception: when only the document's update failed and no second task is
      open, no request can finish the review any more. */
  lemma {:induction false} RetryWorksUnlessTorn(db: Db, req: Request)
    requires Reviewable(db, req) && Answer(db, req) == DbError
    ensures var db', open := Submitted(db, req), Count(db.tasks, PendingTaskOf(req.doc));
      && (Answer(db', Retried(req)) == Done <==> !(HalfDone(req) && open == 1))
      && (HalfDone(req) && open == 1 ==>
            forall again: Request :: again.doc == req.doc ==> Answer(db', again) != Done && Submitted(db', again) == db')
  {
    var t := GetPendingByDocument(db, req.doc).value;
    var db' := Submitted(db, req);
    PendingFound(db, req.doc);
    if HalfDone(req) {
      CountUpdate(db.tasks, t, db.tasks[t].(status := DecisionStatus(req.decision)), PendingTaskOf(req.doc));
      PendingFound(db', req.doc);
    }
  }

  // ----- the handler -----

  class ReviewHandler {
    const store: Store

    constructor (store: Store)
      ensures this.store == store
    {
      this.store := store;
    }

    /** POST /documents/{id}/review, after the request has been decoded. */
    method Submit(req: Request) returns (resp: Response)
      requires Sorting.Enumerates(req.order, req.corrections.Keys)
      modifies store
      ensures resp == Answer(old(store.Snapshot()), req)
      ensures store.Snapshot() == Submitted(old(store.Snapshot()), req)
      ensures Answers(old(store.Snapshot()), req, resp)
      ensures if Refuses(old(store.Snapshot()), req) then store.Snapshot() == old(store.Snapshot())
              else AsDecided(old(store.Snapshot()), store.Snapshot(), req)
      ensures resp != MissingCorrections ==> store.Snapshot() == DeskRun(old(store.Snapshot()), Busy(LoadDoc, req))
    {
      ghost var db := store.Snapshot();
      DecisionsAreStored(db, req);
      if req.decision == Correct && req.corrections == map[] {
        return MissingCorrections;
      }
      DeskRunSubmits(db, req);
      var row := store.GetByID(req.doc);
      if !req.loadOk {
        return DbError;
      }
      if row.None? || row.value.tenant != req.tenant {
        return NotFound;
      }
      if row.value.status != PendingReview {
        return NotReviewable;
      }
      var task := store.GetPendingByDocument(req.doc);
      if !req.taskOk {
        return DbError;
      }
      if task.None? {
        return NotReviewable;
      }
      if req.decision == Correct {
        var err := SaveCorrections(req);
        if err {
          return DbError;
        }
      }
      resp := Close(req, task.value);
    }

    method Close(req: Request, task: nat) returns (resp: Response)
      requires task < |store.tasks| && req.doc < |store.docs|
      modifies store
      ensures resp == if req.resolveOk && req.markOk then Done else DbError
      ensures store.Snapshot() == Resolved(old(store.Snapshot()), req, task)
    {
      var err := store.Resolve(task, DecisionStatus(req.decision), !req.resolveOk);
      if err {
        return DbError;
      }
      err := store.MarkReviewed(req.doc, !req.markOk);
      if err {
        return DbError;
      }
      store.Record(req.tenant, User(req.user), DecisionAction(req.decision), OfTask(task), None);
      return Done;
    }

    /** One correction row per field, with full confidence, in one batch. */
    method SaveCorrections(req: Request) returns (err: bool)
      requires GoodRequest(req) && req.decision == Correct
      modifies store`fields
      ensures err == !req.insertOk
      ensures store.Snapshot() == Exec(old(store.Snapshot()), if err then Query else InsertBatch(req.doc, CorrectionRows(req, |old(store.fields)|)))
    {
      var rows := [];
      var i := 0;
      while i < |req.order|
        invariant 0 <= i <= |req.order|
        invariant rows == CorrectionRows(req, |store.fields|)[..i]
      {
        var name := req.order[i];
        assert name in Sorting.Names(req.order);
        rows := rows + [FieldRow(req.doc, name, req.corrections[name], 1.0, ReviewCorrection, |store.fields|)];
        i := i + 1;
      }
      err := store.InsertBatch(req.doc, rows, !req.insertOk);
    }
  }
}
