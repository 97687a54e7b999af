/** With one worker documents leave the agent in upload order, and near-duplicates
    cannot both be auto-processed. */
module SingleWorker {
  import opened Prelude
  import opened Domain
  import opened Tables
  import opened Pipeline
  import opened Protocol
  import opened Ownership
  import Duplicates
  import Gates
  import Integrity
  import KeyFields

  /** Untouched since its upload. */
  predicate Fresh(doc: Document) {
    doc.status == Uploaded && doc.docType.None? && doc.keyHash.None?
  }

  predicate SameKey(a: Document, b: Document) {
    a.tenant == b.tenant && a.docType == b.docType && a.keyHash == b.keyHash
  }

  /** No older document of the tenant has the same type and key fields. */
  ghost predicate FirstOfItsKind(docs: seq<Document>, d: nat)
    requires d < |docs|
  {
    docs[d].keyHash.Some? && docs[d].docType.Some? && forall e :: 0 <= e < d ==> !SameKey(docs[e], docs[d])
  }

  /** The near-duplicate lookup found nothing older. */
  predicate NearCleared(pc: Pc) {
    (pc.RecordLookup? && pc.found.None?) || pc.LoadThreshold? || pc.RecordConfidence? || pc.PersistAuto?
  }

  /** The worker stands where its document does: at the frontier while undecided,
      just behind it once the document has left. */
  ghost predicate AtFrontier(s: Sys)
    requires |s.workers| == 1
  {
    var c := s.workers[0];
    && Stands(s)
    && (c.At? && NearCleared(c.pc) ==> c.doc < |s.db.docs| && FirstOfItsKind(s.db.docs, c.doc))
  }

  ghost predicate Stands(s: Sys)
    requires |s.workers| == 1
  {
    var c, k := s.workers[0], |s.left|;
    && (c.At? && Undecided(c.pc) ==> c.doc == k < |s.db.docs|)
    && (c.At? && c.pc.AuditRetry? ==> c.doc == k < |s.db.docs| && s.db.docs[k].status == Uploaded)
    && (c.At? && !Undecided(c.pc) && !c.pc.AuditRetry? ==> c.doc < k)
    && (!(c.At? && Undecided(c.pc)) && k < |s.db.docs| ==> s.db.docs[k].status == Uploaded)
  }

  ghost predicate InOrder(s: Sys) {
    && |s.workers| == 1
    && |s.left| <= |s.db.docs|
    && (forall i :: 0 <= i < |s.left| ==> s.left[i] == i)
    && AtFrontier(s)
    && (forall d :: 0 <= d < |s.left| ==> Settled(s.db.docs[d].status))
    && (|s.left| < |s.db.docs| ==> !Settled(s.db.docs[|s.left|].status))
    && (forall d :: |s.left| < d < |s.db.docs| ==> Fresh(s.db.docs[d]))
    && (forall d :: 0 <= d < |s.left| && s.db.docs[d].status == AutoProcessed ==> FirstOfItsKind(s.db.docs, d))
    && (forall i :: 0 <= i < |s.desks| ==> OnLeft(s, i))
  }

  /** A reviewer past the first check is on a document the agent let go of, and
      which waits for review or has been reviewed. */
  ghost predicate OnLeft(s: Sys, i: nat)
    requires i < |s.desks|
  {
    var k := s.desks[i];
    k.Busy? && !k.step.LoadDoc? ==>
      && k.req.doc < |s.left| && k.req.doc < |s.db.docs|
      && (s.db.docs[k.req.doc].status == PendingReview || s.db.docs[k.req.doc].status == Reviewed)
  }

  ghost predicate Base(cfg: Config, s: Sys) {
    Owned(cfg, s) && Duplicates.DuplicatesSound(cfg, s) && Gates.TracesFollowVerdicts(cfg, s)
  }

  /** With the only worker idle, the next claim is the document at the frontier. */
  lemma {:induction false} ClaimsFrontier(cfg: Config, s: Sys)
    requires Base(cfg, s) && InOrder(s) && s.workers[0].Idle? && CanClaim(s.db)
    ensures Claimed(s) == |s.left|
  {
    var d := Claimed(s);
    forall r | 0 <= r < |s.db.runs| ensures s.db.runs[r].status != Running {
      assert Driven(s, r);
    }
    assert forall e :: 0 <= e < |s.db.docs| && s.db.docs[e].status == Uploaded ==> Claimable(s.db, e);
  }

  lemma MoveKinds(cfg: Config, db: Db, c: Ctl)
    requires c.At?
    ensures var stmt, next := Issue(cfg, db, c), Goto(cfg, db, c);
      && (next.Some? && next.value.AuditRetry? ==> c.pc.Requeue?)
      && (c.pc.Requeue? && next.Some? ==> next.value.AuditRetry?)
      && (c.pc.AuditRetry? ==> next.None? && !TouchesDoc(stmt))
      && (next.Some? && NearCleared(next.value) ==> (NearCleared(c.pc) && !TouchesDoc(stmt)) || c.pc.LookupContent? || c.pc.LookupNear?)
      && (stmt.MarkAutoProcessed? ==> c.pc.PersistAuto?)
      && (SetsStatus(stmt) && StatusWritten(stmt) == AutoProcessed ==> stmt.MarkAutoProcessed?)
      && !stmt.MarkReviewed?
  {
  }

  /** Nothing younger is in the way: a lookup that comes back with the document
      itself, or with nothing, makes it the first of its kind. */
  lemma {:induction false} NearLookupClears(cfg: Config, s: Sys)
    requires Base(cfg, s) && |s.workers| == 1 && s.workers[0].At?
    requires s.workers[0].pc.LookupContent? || s.workers[0].pc.LookupNear?
    ensures var next := Goto(cfg, s.db, s.workers[0]);
      next.Some? && NearCleared(next.value) ==> s.workers[0].doc < |s.db.docs| && FirstOfItsKind(s.db.docs, s.workers[0].doc)
  {
    var c := s.workers[0];
    assert Duplicates.Grounded(cfg, s, 0) && Gates.OnCourse(cfg, s, 0) && Owns(cfg, s, 0);
    var l := Gates.NoDuplicate;
    assert Gates.Passed(cfg, c.o, l, 4) && Gates.Gate(cfg, c.o, l, 4).None?;
    Integrity.AcceptedIsComplete(cfg, c.o);
    var hash := KeyFields.KeyHash(cfg, c.o.fields);
    var me := s.db.docs[c.doc];
    var next := Goto(cfg, s.db, c);
    if next.Some? && NearCleared(next.value) {
      assert c.pc.LookupNear?;
      FirstDocIsEarliest(s.db.docs, SameKeyFields(me.tenant, c.o.docType, hash.value), 0);
      assert SameKeyFields(me.tenant, c.o.docType, hash.value)(me);
      var near := FindByKeyFieldsHash(s.db, me.tenant, c.o.docType, hash.value);
      assert near == Some(c.doc);
      forall e | 0 <= e < c.doc ensures !SameKey(s.db.docs[e], me) {
        assert !SameKeyFields(me.tenant, c.o.docType, hash.value)(s.db.docs[e]);
      }
    }
  }

  lemma KindKept(docs: seq<Document>, docs': seq<Document>, d: nat)
    requires d < |docs| && d < |docs'| && FirstOfItsKind(docs, d)
    requires forall e :: 0 <= e <= d ==> SameKey(docs'[e], docs[e])
    ensures FirstOfItsKind(docs', d)
  {
    forall e | 0 <= e < d ensures !SameKey(docs'[e], docs'[d]) {
      assert !SameKey(docs[e], docs[d]);
    }
  }

  /** A worker the near-duplicate lookup has cleared stays cleared. */
  lemma ClearedMoves(cfg: Config, s: Sys)
    requires Base(cfg, s) && InOrder(s) && s.workers[0].At?
    ensures var c, s' := s.workers[0], DoAdvance(cfg, s, 0);
      var next := Goto(cfg, s.db, c);
      next.Some? && NearCleared(next.value) ==> c.doc < |s'.db.docs| && FirstOfItsKind(s'.db.docs, c.doc)
  {
    var c, s' := s.workers[0], DoAdvance(cfg, s, 0);
    var stmt, next := Issue(cfg, s.db, c), Goto(cfg, s.db, c);
    ExecFrame(s.db, stmt);
    MoveKinds(cfg, s.db, c);
    if next.Some? && NearCleared(next.value) {
      if NearCleared(c.pc) {
        KindKept(s.db.docs, s'.db.docs, c.doc);
      } else {
        NearLookupClears(cfg, s);
        assert stmt == Query;
      }
    }
  }

  /** Where the only worker's statement leaves it. */
  lemma FrontierMoves(cfg: Config, s: Sys)
    requires Base(cfg, s) && InOrder(s) && s.workers[0].At?
    ensures AtFrontier(DoAdvance(cfg, s, 0))
  {
    StandsAtFrontier(cfg, s);
    ClearedMoves(cfg, s);
  }

  /** The frontier is where it was, or the document has just left. */
  lemma StandsAtFrontier(cfg: Config, s: Sys)
    requires |s.workers| == 1 && s.workers[0].At? && Stands(s) && |s.left| <= |s.db.docs|
    requires forall d :: |s.left| < d < |s.db.docs| ==> Fresh(s.db.docs[d])
    ensures Stands(DoAdvance(cfg, s, 0))
  {
    var c := s.workers[0];
    ExecFrame(s.db, Issue(cfg, s.db, c));
    OwnStatement(cfg, s.db, c);
    LeavesFrontier(cfg, s.db, c);
  }

  predicate WritesSettled(stmt: Stmt) {
    SetsStatus(stmt) && Settled(StatusWritten(stmt))
  }

  /** A worker decides by writing a settled status, or by setting the document back. */
  lemma LeavesFrontier(cfg: Config, db: Db, c: Ctl)
    requires c.At?
    ensures var stmt, c' := Issue(cfg, db, c), After(cfg, db, c);
      && (Undecided(c.pc) <==> WritesSettled(stmt) || c.pc.Requeue? || (c'.At? && Undecided(c'.pc)))
      && (c'.At? && Undecided(c'.pc) ==> !WritesSettled(stmt) && !c.pc.Requeue?)
      && (c'.At? && c'.pc.AuditRetry? ==> c.pc.Requeue?)
      && (c.pc.Requeue? ==> stmt == MarkUploaded(c.doc) && (c'.At? ==> c'.pc.AuditRetry?))
      && (c.pc.AuditRetry? ==> c'.Idle? && !TouchesDoc(stmt))
  {
    StatusWrites(cfg, db, c);
    MoveKinds(cfg, db, c);
  }

  /** What the worker has let go of stays the first of its kind. */
  lemma KindsStay(cfg: Config, s: Sys)
    requires Base(cfg, s) && InOrder(s) && s.workers[0].At?
    ensures var s' := DoAdvance(cfg, s, 0);
      forall d :: 0 <= d < |s'.left| && d < |s'.db.docs| && s'.db.docs[d].status == AutoProcessed ==> FirstOfItsKind(s'.db.docs, d)
  {
    var c, s' := s.workers[0], DoAdvance(cfg, s, 0);
    ExecFrame(s.db, Issue(cfg, s.db, c));
    OwnStatement(cfg, s.db, c);
    MoveKinds(cfg, s.db, c);
    WritesAtFrontier(cfg, s);
    forall d | 0 <= d < |s'.left| && d < |s'.db.docs| && s'.db.docs[d].status == AutoProcessed ensures FirstOfItsKind(s'.db.docs, d) {
      KindKept(s.db.docs, s'.db.docs, d);
    }
  }

  lemma OrderAfterAdvance(cfg: Config, s: Sys)
    requires Base(cfg, s) && InOrder(s) && s.workers[0].At?
    ensures InOrder(DoAdvance(cfg, s, 0))
  {
    var c, s' := s.workers[0], DoAdvance(cfg, s, 0);
    var stmt := Issue(cfg, s.db, c);
    ExecFrame(s.db, stmt);
    OwnStatement(cfg, s.db, c);
    StatusWrites(cfg, s.db, c);
    MoveKinds(cfg, s.db, c);
    FrontierMoves(cfg, s);
    WritesAtFrontier(cfg, s);
    KindsStay(cfg, s);
    forall j | 0 <= j < |s.desks| ensures OnLeft(s', j) {
      assert OnLeft(s, j);
    }
  }

  /** The only worker writes documents at the frontier only. */
  lemma WritesAtFrontier(cfg: Config, s: Sys)
    requires Base(cfg, s) && InOrder(s) && s.workers[0].At?
    ensures var c, s' := s.workers[0], DoAdvance(cfg, s, 0);
      && (TouchesDoc(Issue(cfg, s.db, c)) ==> c.doc == |s.left|)
      && (forall d :: 0 <= d < |s.left| ==> s'.db.docs[d] == s.db.docs[d])
      && (SetsStatus(Issue(cfg, s.db, c)) && StatusWritten(Issue(cfg, s.db, c)) == AutoProcessed ==>
            forall d :: 0 <= d <= |s.left| && d < |s.db.docs| ==> SameKey(s'.db.docs[d], s.db.docs[d]))
  {
    var c := s.workers[0];
    ExecFrame(s.db, Issue(cfg, s.db, c));
    OwnStatement(cfg, s.db, c);
    MoveKinds(cfg, s.db, c);
    LinkBeforeDecision(cfg, s.db, c);
  }

  lemma LinkBeforeDecision(cfg: Config, db: Db, c: Ctl)
    requires c.At?
    ensures TouchesDoc(Issue(cfg, db, c)) ==> Undecided(c.pc)
  {
  }

  lemma OrderAfterClaim(cfg: Config, s: Sys, o: Outcomes)
    requires Base(cfg, s) && InOrder(s) && s.workers[0].Idle? && CanClaim(s.db)
    ensures InOrder(DoClaim(s, 0, o, Claimed(s)))
  {
    ClaimsFrontier(cfg, s);
    forall j | 0 <= j < |s.desks| ensures OnLeft(DoClaim(s, 0, o, Claimed(s)), j) {
      assert OnLeft(s, j);
    }
  }

  lemma OrderAfterReview(cfg: Config, s: Sys, i: nat)
    requires Base(cfg, s) && InOrder(s) && i < |s.desks| && s.desks[i].Busy?
    ensures InOrder(DoReview(s, i))
  {
    DeskFrame(s, i);
    forall j | 0 <= j < |s.desks| ensures OnLeft(DoReview(s, i), j) {
      assert OnLeft(s, i) && OnLeft(s, j);
    }
    OrderFramed(s, DoReview(s, i));
  }

  lemma {:induction false} OrderAfter(cfg: Config, s: Sys, a: Act)
    requires Base(cfg, s) && InOrder(s)
    ensures InOrder(Next(cfg, s, a))
  {
    if Enabled(cfg, s, a) {
      match a
      case Upload(_, _) =>
        forall j | 0 <= j < |s.desks| ensures OnLeft(Next(cfg, s, a), j) { assert OnLeft(s, j); }
        OrderFramed(s, Next(cfg, s, a));
      case Claim(w, o) => OrderAfterClaim(cfg, s, o);
      case Advance(w) => OrderAfterAdvance(cfg, s);
      case OpenReview(_, _) =>
        forall j | 0 <= j < |s.desks| ensures OnLeft(Next(cfg, s, a), j) { assert OnLeft(s, j); }
        OrderFramed(s, Next(cfg, s, a));
      case Review(i) => OrderAfterReview(cfg, s, i);
    }
  }

  lemma OrderFramed(s: Sys, s': Sys)
    requires InOrder(s) && s'.workers == s.workers && s'.left == s.left && |s.db.docs| <= |s'.db.docs|
    requires forall d :: |s.db.docs| <= d < |s'.db.docs| ==> Fresh(s'.db.docs[d])
    requires forall d :: 0 <= d < |s.db.docs| ==>
      s'.db.docs[d] == s.db.docs[d] || (d < |s.left| && s'.db.docs[d] == s.db.docs[d].(status := Reviewed))
    requires forall i :: 0 <= i < |s'.desks| ==> OnLeft(s', i)
    ensures InOrder(s')
  {
    if s.workers[0].At? && NearCleared(s.workers[0].pc) {
      KindKept(s.db.docs, s'.db.docs, s.workers[0].doc);
    }
    forall d | 0 <= d < |s'.left| && s'.db.docs[d].status == AutoProcessed ensures FirstOfItsKind(s'.db.docs, d) {
      KindKept(s.db.docs, s'.db.docs, d);
    }
  }

  /** An AUTO_PROCESSED document has left the agent, and no reviewer is past its
      first check on it. */
  lemma ProcessedHasLeft(s: Sys, d: nat)
    requires InOrder(s) && d < |s.db.docs| && s.db.docs[d].status == AutoProcessed
    ensures d < |s.left|
    ensures forall i :: 0 <= i < |s.desks| && s.desks[i].Busy? && !s.desks[i].step.LoadDoc? ==> s.desks[i].req.doc != d
  {
    forall i | 0 <= i < |s.desks| && s.desks[i].Busy? && !s.desks[i].step.LoadDoc? ensures s.desks[i].req.doc != d {
      assert OnLeft(s, i);
    }
  }

  lemma AdvanceSpares(cfg: Config, s: Sys, d: nat)
    requires Base(cfg, s) && InOrder(s) && s.workers[0].At? && d < |s.left|
    ensures d < |DoAdvance(cfg, s, 0).db.docs| && DoAdvance(cfg, s, 0).db.docs[d] == s.db.docs[d]
  {
    WritesAtFrontier(cfg, s);
    ExecFrame(s.db, Issue(cfg, s.db, s.workers[0]));
  }

  lemma ReviewSpares(s: Sys, i: nat, d: nat)
    requires i < |s.desks| && s.desks[i].Busy? && d < |s.db.docs| && (s.desks[i].step.LoadDoc? || s.desks[i].req.doc != d)
    ensures d < |DoReview(s, i).db.docs| && DoReview(s, i).db.docs[d] == s.db.docs[d]
  {
    DeskFrame(s, i);
  }

  /** With one worker no statement of anybody touches an AUTO_PROCESSED row. */
  lemma {:induction false} AutoProcessedStays(cfg: Config, s: Sys, a: Act, d: nat)
    requires Base(cfg, s) && InOrder(s) && d < |s.db.docs| && s.db.docs[d].status == AutoProcessed
    ensures d < |Next(cfg, s, a).db.docs| && Next(cfg, s, a).db.docs[d] == s.db.docs[d]
  {
    if Enabled(cfg, s, a) {
      ProcessedHasLeft(s, d);
      if a.Advance? {
        AdvanceSpares(cfg, s, d);
      } else if a.Review? {
        ReviewSpares(s, a.i, d);
      }
    }
  }

  /** No two auto-processed documents of a tenant share type and key fields. */
  lemma NoTwoOfAKind(cfg: Config, s: Sys, d: nat, e: nat)
    requires InOrder(s) && d < |s.db.docs| && e < |s.db.docs| && d != e
    requires s.db.docs[d].status == AutoProcessed && s.db.docs[e].status == AutoProcessed
    ensures s.db.docs[d].docType.Some? && s.db.docs[d].keyHash.Some? && !SameKey(s.db.docs[d], s.db.docs[e])
  {
    assert FirstOfItsKind(s.db.docs, d) && FirstOfItsKind(s.db.docs, e);
  }
}
