/** Call-level schedules: `fail`, `routeToReview` and Submit run without
    interruption. On them a document's status and its runs always agree. */
module CallLevel {
  import opened Prelude
  import opened Domain
  import opened Tables
  import opened Pipeline
  import opened Protocol
  import opened Ownership

  predicate InTail(c: Ctl) {
    c.At? && Tail(c.pc)
  }

  /** Whoever is inside one of the atomic calls is the one that moves. */
  ghost predicate Atomic(s: Sys, a: Act) {
    && (forall w :: 0 <= w < |s.workers| && InTail(s.workers[w]) ==> a == Advance(w))
    && (forall i :: 0 <= i < |s.desks| && s.desks[i].Busy? ==> a == Review(i))
  }

  /** A run of the system under a call-level schedule. */
  ghost predicate AtomicRun(cfg: Config, s: Sys, acts: seq<Act>) {
    acts == [] ||
    (AtomicRun(cfg, s, acts[..|acts| - 1]) && Atomic(Execute(cfg, s, acts[..|acts| - 1]), acts[|acts| - 1]))
  }

  /** Nobody is inside an atomic call. */
  ghost predicate AtBoundary(s: Sys) {
    && (forall w :: 0 <= w < |s.workers| ==> !InTail(s.workers[w]))
    && (forall i :: 0 <= i < |s.desks| ==> s.desks[i].Free?)
  }

  // ----- the status a position implies -----

  predicate InPipeline(st: Status) {
    st == Uploaded || st == Classified || st == Extracted || st == Validated
  }

  /** The status a document has while its run stands at a pipeline statement. */
  function StatusAt(pc: Pc): Status
    requires !Tail(pc)
  {
    match pc
    case Load => Uploaded case RecordOcr => Uploaded case RecordClassify => Uploaded case PersistClassified => Uploaded
    case AuditClassified => Classified case LoadSchema => Classified case PersistFields => Classified
    case RecordExtractError(_, _) => Classified case RecordExtract => Classified case PersistExtracted => Classified
    case AuditExtracted => Extracted case PersistHash => Extracted case RecordValidate => Extracted case PersistValidated => Extracted
    case RecordFinalize => AutoProcessed case FinishAuto => AutoProcessed case AuditAuto => AutoProcessed
    case _ => Validated
  }

  predicate StatusFits(pc: Pc, st: Status) {
    match pc
    case FailFinish(_, _, known) => InPipeline(st) && (!known ==> st == Uploaded)
    case FailCount(_, known) => InPipeline(st) && (!known ==> st == Uploaded)
    case Requeue(_, known) => InPipeline(st) && (!known ==> st == Uploaded)
    case PersistFailed(_, known) => InPipeline(st) && (!known ==> st == Uploaded)
    case AuditRetry(_) => st == Uploaded
    case AuditFailed(_) => st == Failed
    case OpenTask(_, reason) => StopsFrom(reason, st)
    case PersistPending(_, reason) => StopsFrom(reason, st)
    case FinishReview(_, _) => st == PendingReview
    case AuditRouted(_) => st == PendingReview
    case _ => st == StatusAt(pc)
  }

  /** The status a document has when it is routed for the given reason. */
  predicate StopsFrom(reason: ReviewReason, st: Status) {
    match reason
    case UnknownType => st == Uploaded
    case ValidationFailed => st == Extracted
    case Duplicate => st == Validated
    case LowConfidence => st == Validated
  }

  ghost predicate Held(s: Sys, d: nat) {
    exists w :: 0 <= w < |s.workers| && s.workers[w].At? && s.workers[w].doc == d
  }

  ghost predicate Fits(s: Sys, w: nat)
    requires w < |s.workers|
  {
    s.workers[w].At? ==> s.workers[w].doc < |s.db.docs| && StatusFits(s.workers[w].pc, s.db.docs[s.workers[w].doc].status)
  }

  ghost predicate DeskFits(s: Sys, i: nat)
    requires i < |s.desks|
  {
    var k := s.desks[i];
    k.Busy? && !k.step.LoadDoc? ==>
      && k.req.doc < |s.db.docs| && s.db.docs[k.req.doc].tenant == k.req.tenant
      && s.db.docs[k.req.doc].status == (if k.step.AuditReview? then Reviewed else PendingReview)
      && (k.step.LoadTask? || (DeskTask(k) < |s.db.tasks| && s.db.tasks[DeskTask(k)].doc == k.req.doc))
  }

  function DeskTask(k: Desk): nat
    requires k.Busy? && !k.step.LoadDoc? && !k.step.LoadTask?
  {
    k.step.task
  }

  ghost predicate Apart(s: Sys) {
    forall v, w :: 0 <= v < w < |s.workers| && s.workers[v].At? && s.workers[w].At? ==> s.workers[v].doc != s.workers[w].doc
  }

  /** At most one party is inside an atomic call. */
  ghost predicate OneInside(s: Sys) {
    && (forall v, w :: 0 <= v < w < |s.workers| ==> !InTail(s.workers[v]) || !InTail(s.workers[w]))
    && (forall i, j :: 0 <= i < j < |s.desks| ==> s.desks[i].Free? || s.desks[j].Free?)
    && (forall w, i :: 0 <= w < |s.workers| && 0 <= i < |s.desks| ==> !InTail(s.workers[w]) || s.desks[i].Free?)
  }

  ghost predicate Consistent(s: Sys) {
    && Apart(s) && OneInside(s)
    && (forall w :: 0 <= w < |s.workers| ==> Fits(s, w))
    && (forall i :: 0 <= i < |s.desks| ==> DeskFits(s, i))
    && (forall t :: 0 <= t < |s.db.tasks| ==> s.db.tasks[t].doc < |s.db.docs|)
    && (forall d :: 0 <= d < |s.db.docs| && !Held(s, d) ==> s.db.docs[d].status == Uploaded || Settled(s.db.docs[d].status))
  }

  // ----- preservation -----

  function NewStatus(stmt: Stmt, st: Status): Status {
    if SetsStatus(stmt) then StatusWritten(stmt) else st
  }

  lemma ExtractionFits(cfg: Config, db: Db, c: Ctl, next: Pc)
    requires c.At? && c.doc < |db.docs| && Goto(cfg, db, c) == Some(next) && Early(c.pc) && !Tail(next)
    ensures NewStatus(Issue(cfg, db, c), StatusAt(c.pc)) == StatusAt(next)
  {
  }

  lemma GatesFit(cfg: Config, db: Db, c: Ctl, next: Pc)
    requires c.At? && c.doc < |db.docs| && Goto(cfg, db, c) == Some(next) && !Early(c.pc) && !Tail(c.pc) && !Tail(next)
    ensures NewStatus(Issue(cfg, db, c), StatusAt(c.pc)) == StatusAt(next)
  {
  }

  lemma TailEntryFits(cfg: Config, db: Db, c: Ctl, next: Pc)
    requires c.At? && c.doc < |db.docs| && Goto(cfg, db, c) == Some(next) && !Tail(c.pc) && Tail(next)
    ensures !SetsStatus(Issue(cfg, db, c)) && StatusFits(next, StatusAt(c.pc))
  {
  }

  /** Inside `routeToReview`. */
  predicate Routing(pc: Pc) {
    pc.OpenTask? || pc.PersistPending? || pc.FinishReview? || pc.AuditRouted?
  }

  lemma RoutingFits(cfg: Config, db: Db, c: Ctl, next: Pc, st: Status)
    requires c.At? && Goto(cfg, db, c) == Some(next) && Routing(c.pc) && StatusFits(c.pc, st)
    ensures Tail(next) && StatusFits(next, NewStatus(Issue(cfg, db, c), st))
  {
  }

  /** `fail` before it writes a status. */
  lemma FailingFits(cfg: Config, db: Db, c: Ctl, next: Pc, st: Status)
    requires c.At? && Goto(cfg, db, c) == Some(next) && (c.pc.FailFinish? || c.pc.FailCount?) && StatusFits(c.pc, st)
    ensures Tail(next) && StatusFits(next, NewStatus(Issue(cfg, db, c), st))
  {
  }

  /** `fail` when it writes one. */
  lemma FailedFits(cfg: Config, db: Db, c: Ctl, next: Pc, st: Status)
    requires c.At? && Goto(cfg, db, c) == Some(next) && (c.pc.Requeue? || c.pc.PersistFailed?)
    ensures Tail(next) && StatusFits(next, NewStatus(Issue(cfg, db, c), st))
  {
  }

  lemma LastEntries(cfg: Config, db: Db, c: Ctl)
    requires c.At? && (c.pc.AuditRetry? || c.pc.AuditFailed?)
    ensures Goto(cfg, db, c).None?
  {
  }

  lemma StepFits(cfg: Config, db: Db, c: Ctl, st: Status, next: Pc)
    requires c.At? && c.doc < |db.docs| && StatusFits(c.pc, st) && Goto(cfg, db, c) == Some(next)
    ensures StatusFits(next, NewStatus(Issue(cfg, db, c), st))
  {
    if Routing(c.pc) {
      RoutingFits(cfg, db, c, next, st);
    } else if c.pc.FailFinish? || c.pc.FailCount? {
      FailingFits(cfg, db, c, next, st);
    } else if c.pc.Requeue? || c.pc.PersistFailed? {
      FailedFits(cfg, db, c, next, st);
    } else if Tail(c.pc) {
      LastEntries(cfg, db, c);
    } else if Tail(next) {
      TailEntryFits(cfg, db, c, next);
    } else if Early(c.pc) {
      ExtractionFits(cfg, db, c, next);
    } else {
      GatesFit(cfg, db, c, next);
    }
  }

  lemma LeavesDecided(cfg: Config, db: Db, c: Ctl, st: Status)
    requires c.At? && StatusFits(c.pc, st) && Goto(cfg, db, c).None?
    ensures NewStatus(Issue(cfg, db, c), st) == Uploaded || Settled(NewStatus(Issue(cfg, db, c), st))
  {
  }

  lemma HeldWhileAt(s: Sys, w: nat)
    requires w < |s.workers|
    ensures s.workers[w].At? ==> Held(s, s.workers[w].doc)
  {
  }

  lemma HeldKept(s: Sys, s': Sys, d: nat)
    requires |s'.workers| >= |s.workers|
    requires forall v :: 0 <= v < |s.workers| && s.workers[v].At? && s.workers[v].doc == d ==> s'.workers[v].At? && s'.workers[v].doc == d
    ensures Held(s, d) ==> Held(s', d)
  {
    if Held(s, d) {
      var v :| 0 <= v < |s.workers| && s.workers[v].At? && s.workers[v].doc == d;
      assert s'.workers[v].At? && s'.workers[v].doc == d;
    }
  }

  lemma MoverFits(cfg: Config, s: Sys, w: nat)
    requires Owned(cfg, s) && w < |s.workers| && s.workers[w].At? && Fits(s, w)
    ensures var s', c := DoAdvance(cfg, s, w), s.workers[w];
      && |s'.db.docs| == |s.db.docs| && c.doc < |s.db.docs|
      && Fits(s', w)
      && (s'.db.tasks == s.db.tasks || (exists reason :: s'.db.tasks == s.db.tasks + [Task(c.doc, reason, Pending)]))
      && (s'.workers[w].Idle? ==> s'.db.docs[c.doc].status == Uploaded || Settled(s'.db.docs[c.doc].status))
      && (forall d :: 0 <= d < |s.db.docs| && d != c.doc ==> s'.db.docs[d] == s.db.docs[d])
  {
    var c := s.workers[w];
    var st := s.db.docs[c.doc].status;
    var stmt, next := Issue(cfg, s.db, c), Goto(cfg, s.db, c);
    OwnStatement(cfg, s.db, c);
    ExecFrame(s.db, stmt);
    assert Exec(s.db, stmt).docs[c.doc].status == NewStatus(stmt, st);
    if next.Some? {
      StepFits(cfg, s.db, c, st, next.value);
    } else {
      LeavesDecided(cfg, s.db, c, st);
    }
  }

  lemma ConsistentAfterAdvance(cfg: Config, s: Sys, w: nat)
    requires Owned(cfg, s) && Consistent(s) && Atomic(s, Advance(w)) && w < |s.workers| && s.workers[w].At?
    ensures Consistent(DoAdvance(cfg, s, w))
  {
    var c := s.workers[w];
    var s' := DoAdvance(cfg, s, w);
    assert Fits(s, w);
    MoverFits(cfg, s, w);
    HeldWhileAt(s', w);
    forall v | 0 <= v < |s'.workers| ensures Fits(s', v) {
      assert Fits(s, v);
    }
    forall d | 0 <= d < |s'.db.docs| && !Held(s', d)
      ensures s'.db.docs[d].status == Uploaded || Settled(s'.db.docs[d].status)
    {
      if d != c.doc {
        HeldKept(s, s', d);
      }
    }
  }

  /** The document a claim takes is in nobody's hands. */
  lemma ClaimedIsFree(cfg: Config, s: Sys, w: nat, o: Outcomes)
    requires Owned(cfg, s) && Consistent(s) && Atomic(s, Claim(w, o)) && CanClaim(s.db)
    ensures !Held(s, Claimed(s))
  {
    var d := Claimed(s);
    forall v | 0 <= v < |s.workers| && s.workers[v].At? ensures s.workers[v].doc != d {
      assert Owns(cfg, s, v) && Fits(s, v) && !InTail(s.workers[v]);
      if Live(s.workers[v].pc) {
        assert s.db.runs[s.workers[v].run].status == Running;
      }
    }
  }

  lemma ConsistentAfterClaim(cfg: Config, s: Sys, w: nat, o: Outcomes)
    requires Owned(cfg, s) && Consistent(s) && Atomic(s, Claim(w, o)) && Enabled(cfg, s, Claim(w, o))
    ensures Consistent(Next(cfg, s, Claim(w, o)))
  {
    var s' := Next(cfg, s, Claim(w, o));
    ClaimedIsFree(cfg, s, w, o);
    forall v | 0 <= v < |s'.workers| ensures Fits(s', v) {
      assert Fits(s, v);
    }
    forall i | 0 <= i < |s'.desks| ensures DeskFits(s', i) {
      assert DeskFits(s, i);
    }
    forall d | 0 <= d < |s'.db.docs| && !Held(s', d)
      ensures s'.db.docs[d].status == Uploaded || Settled(s'.db.docs[d].status)
    {
      HeldKept(s, s', d);
    }
  }

  lemma ConsistentAfterReview(cfg: Config, s: Sys, i: nat)
    requires Owned(cfg, s) && Consistent(s) && Atomic(s, Review(i)) && i < |s.desks| && s.desks[i].Busy?
    ensures Consistent(DoReview(s, i))
  {
    var s' := DoReview(s, i);
    var k := s.desks[i];
    DeskFrame(s, i);
    assert DeskFits(s, i);
    forall v | 0 <= v < |s'.workers| ensures Fits(s', v) {
      assert Fits(s, v) && !InTail(s.workers[v]);
    }
    forall j | 0 <= j < |s'.desks| ensures DeskFits(s', j) {
      assert DeskFits(s, j);
    }
    forall d | 0 <= d < |s'.db.docs| && !Held(s', d)
      ensures s'.db.docs[d].status == Uploaded || Settled(s'.db.docs[d].status)
    {
      HeldKept(s, s', d);
    }
  }

  lemma ConsistentFramed(s: Sys, s': Sys)
    requires Consistent(s) && s'.workers == s.workers
    requires s'.db.tasks == s.db.tasks && s.db.docs <= s'.db.docs
    requires forall d :: |s.db.docs| <= d < |s'.db.docs| ==> s'.db.docs[d].status == Uploaded
    requires OneInside(s') && forall i :: 0 <= i < |s'.desks| ==> DeskFits(s', i)
    ensures Consistent(s')
  {
    forall v | 0 <= v < |s'.workers| ensures Fits(s', v) {
      assert Fits(s, v);
    }
    forall d | 0 <= d < |s'.db.docs| && !Held(s', d)
      ensures s'.db.docs[d].status == Uploaded || Settled(s'.db.docs[d].status)
    {
      HeldKept(s, s', d);
    }
  }

  lemma {:induction false} ConsistentAfter(cfg: Config, s: Sys, a: Act)
    requires Owned(cfg, s) && Consistent(s) && Atomic(s, a)
    ensures Consistent(Next(cfg, s, a))
  {
    if Enabled(cfg, s, a) {
      var s' := Next(cfg, s, a);
      match a
      case Upload(_, _) =>
        forall i | 0 <= i < |s'.desks| ensures DeskFits(s', i) {
          assert DeskFits(s, i);
        }
        ConsistentFramed(s, s');
      case Claim(w, o) => ConsistentAfterClaim(cfg, s, w, o);
      case Advance(w) => ConsistentAfterAdvance(cfg, s, w);
      case OpenReview(i, req) =>
        forall j | 0 <= j < |s'.desks| ensures DeskFits(s', j) {
          assert DeskFits(s, j);
        }
        ConsistentFramed(s, s');
      case Review(i) => ConsistentAfterReview(cfg, s, i);
    }
  }

  // ----- what follows -----

  /** Every statement of a call-level schedule keeps finished documents finished:
      AUTO_PROCESSED, REVIEWED and FAILED rows are never written again, and a
      PENDING_REVIEW document can only become REVIEWED. */
  lemma {:induction false} SettledStaysSettled(cfg: Config, s: Sys, a: Act, d: nat)
    requires Owned(cfg, s) && Consistent(s) && Atomic(s, a) && d < |s.db.docs|
    ensures |Next(cfg, s, a).db.docs| >= |s.db.docs|
    ensures var before, after := s.db.docs[d], Next(cfg, s, a).db.docs[d];
      && (before.status == AutoProcessed || before.status == Reviewed || before.status == Failed ==> after == before)
      && (before.status == PendingReview ==> after == before || after == before.(status := Reviewed))
  {
    if Enabled(cfg, s, a) {
      if a.Advance? {
        var c := s.workers[a.w];
        assert Owns(cfg, s, a.w) && Fits(s, a.w);
        ExecFrame(s.db, Issue(cfg, s.db, c));
        OwnStatement(cfg, s.db, c);
        if Settled(s.db.docs[c.doc].status) {
          SettledDocsUnwritten(cfg, s.db, c);
        }
      } else if a.Review? {
        assert DeskFits(s, a.i);
        DeskFrame(s, a.i);
      }
    }
  }

  lemma SettledDocsUnwritten(cfg: Config, db: Db, c: Ctl)
    requires c.At? && c.doc < |db.docs| && StatusFits(c.pc, db.docs[c.doc].status) && Settled(db.docs[c.doc].status)
    ensures !TouchesDoc(Issue(cfg, db, c))
  {
  }

  /** Worker `v` is inside a live run of document `d`. */
  ghost predicate Drives(s: Sys, v: nat, d: nat) {
    v < |s.workers| && s.workers[v].At? && s.workers[v].doc == d && Live(s.workers[v].pc)
  }

  ghost predicate Finalizes(s: Sys, v: nat, d: nat) {
    Drives(s, v, d) && (s.workers[v].pc.RecordFinalize? || s.workers[v].pc.FinishAuto?)
  }

  /** A RUNNING row means a worker in a live run, and the other way round. */
  lemma {:induction false} RunningMeansDriven(cfg: Config, s: Sys, d: nat)
    requires Owned(cfg, s)
    ensures HasRunning(s.db, d) <==> exists v: nat :: Drives(s, v, d)
  {
    if HasRunning(s.db, d) {
      var r :| 0 <= r < |s.db.runs| && s.db.runs[r].doc == d && s.db.runs[r].status == Running;
      assert Driven(s, r) && Owns(cfg, s, s.db.runs[r].worker);
      assert Drives(s, s.db.runs[r].worker, d);
    }
    if v: nat :| Drives(s, v, d) {
      assert Owns(cfg, s, v);
      assert s.db.runs[s.workers[v].run].doc == d;
    }
  }

  /** Whoever holds a document stands at a step of its status. */
  lemma HoldersFit(s: Sys, d: nat)
    requires Consistent(s) && AtBoundary(s) && d < |s.db.docs|
    ensures forall v :: 0 <= v < |s.workers| && s.workers[v].At? && s.workers[v].doc == d ==> StatusAt(s.workers[v].pc) == s.db.docs[d].status
    ensures !Held(s, d) ==> s.db.docs[d].status == Uploaded || Settled(s.db.docs[d].status)
  {
    forall v | 0 <= v < |s.workers| && s.workers[v].At? && s.workers[v].doc == d
      ensures StatusAt(s.workers[v].pc) == s.db.docs[d].status
    {
      assert Fits(s, v);
    }
  }

  lemma StatusOfLive(pc: Pc)
    requires !Tail(pc)
    ensures Live(pc) || pc.AuditAuto?
    ensures StatusAt(pc) == AutoProcessed <==> pc.RecordFinalize? || pc.FinishAuto? || pc.AuditAuto?
    ensures StatusAt(pc) != PendingReview && StatusAt(pc) != Reviewed && StatusAt(pc) != Failed
  {
  }

  /** Status and runs agree: an intermediate status means a RUNNING run, standing at
      a step of that status; a document without one is settled or waits to be
      claimed; and a settled one has none, except that an AUTO_PROCESSED document's
      run is still to be finished. Nothing is ever stranded. */
  lemma {:induction false} StatusMatchesRuns(cfg: Config, s: Sys, d: nat)
    requires Owned(cfg, s) && Consistent(s) && AtBoundary(s) && d < |s.db.docs|
    ensures HasRunning(s.db, d) <==> exists v: nat :: Drives(s, v, d)
    ensures forall v :: 0 <= v < |s.workers| && s.workers[v].At? && s.workers[v].doc == d ==> StatusAt(s.workers[v].pc) == s.db.docs[d].status
    ensures var st := s.db.docs[d].status;
      && (st == Uploaded ==> Claimable(s.db, d) || HasRunning(s.db, d))
      && (st == Classified || st == Extracted || st == Validated ==> HasRunning(s.db, d))
      && (st == PendingReview || st == Reviewed || st == Failed ==> !HasRunning(s.db, d))
      && (st == AutoProcessed && HasRunning(s.db, d) ==> exists v: nat :: Finalizes(s, v, d))
  {
    RunningMeansDriven(cfg, s, d);
    HoldersFit(s, d);
    if v: nat :| Drives(s, v, d) {
      StatusOfLive(s.workers[v].pc);
      assert s.db.docs[d].status == AutoProcessed ==> Finalizes(s, v, d);
    } else if Held(s, d) {
      var v :| 0 <= v < |s.workers| && s.workers[v].At? && s.workers[v].doc == d;
      assert !Drives(s, v, d);
      StatusOfLive(s.workers[v].pc);
    }
  }
}
