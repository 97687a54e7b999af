/** What a retried document keeps of its earlier runs: its type. When one routed as
    unrecognised can carry it. */
module Leftovers {
  import opened Prelude
  import opened Domain
  import opened Tables
  import opened Pipeline
  import opened Protocol
  import opened Ownership
  import opened CallLevel
  import Gates
  import Limits
  import Outcome
  import Queue
  import Retries
  import ReviewQueue
  import SoloRun
  import Theorems

  // ----- the type of an unrecognised document -----

  /** A run can store a type and still fail, and another one is allowed. */
  ghost predicate TypeCarriesOver(cfg: Config) {
    cfg.maxRetries >= 1 && cfg.maxIterations >= 3 && Gates.KnowsTypes(cfg)
  }

  /** Positions at which the document has no type, if types do not carry over. */
  ghost predicate Typeless(cfg: Config, pc: Pc) {
    || !Gates.KnowsTypes(cfg)
    || pc.Load? || pc.RecordOcr? || pc.RecordClassify? || pc.PersistClassified?
    || (Routing(pc) && pc.reason == UnknownType)
    || (cfg.maxRetries >= 1 && ((pc.FailFinish? && pc.cause != MaxIterationsExceeded) || pc.FailCount?))
    || pc.Requeue? || pc.AuditRetry?
  }

  /** Past the third check of the cap. */
  lemma ThirdStepMeansCap(cfg: Config, o: Outcomes, pc: Pc)
    requires !Tail(pc) && !Gates.Opening(pc) && Gates.GotPast(cfg, o, pc)
    ensures cfg.maxIterations >= 3 || (pc.RecordExtractError? && pc.why == MaxIterationsExceeded)
  {
    var l := Gates.NoDuplicate;
    assert forall k: nat :: Gates.Passed(cfg, o, l, k) && k >= 3 ==> Gates.Gate(cfg, o, l, k).None?;
  }

  lemma OpeningKeepsTypeless(cfg: Config, db: Db, c: Ctl, next: Pc)
    requires c.At? && Goto(cfg, db, c) == Some(next) && Gates.Opening(c.pc) && Gates.GotPast(cfg, c.o, c.pc)
    requires !TypeCarriesOver(cfg) && Typeless(cfg, next)
    ensures Typeless(cfg, c.pc) && !Issue(cfg, db, c).MarkClassified?
  {
  }

  lemma StepsKeepTypeless(cfg: Config, db: Db, c: Ctl, next: Pc)
    requires c.At? && Goto(cfg, db, c) == Some(next) && !Tail(c.pc) && !Gates.Opening(c.pc) && Gates.GotPast(cfg, c.o, c.pc)
    requires !TypeCarriesOver(cfg) && Typeless(cfg, next)
    ensures Typeless(cfg, c.pc) && !Issue(cfg, db, c).MarkClassified?
  {
    ThirdStepMeansCap(cfg, c.o, c.pc);
  }

  lemma EndingsKeepTypeless(cfg: Config, db: Db, c: Ctl, next: Pc)
    requires c.At? && Goto(cfg, db, c) == Some(next) && Tail(c.pc) && (c.pc.FailCount? ==> CountFailed(db, c.doc) >= 1)
    requires Typeless(cfg, next)
    ensures Typeless(cfg, c.pc) && !Issue(cfg, db, c).MarkClassified?
  {
  }

  /** A worker that lets go of a waiting document leaves from such a position. */
  lemma LeavesTypeless(cfg: Config, db: Db, c: Ctl, st: Status)
    requires c.At? && StatusFits(c.pc, st) && Goto(cfg, db, c).None?
    ensures NewStatus(Issue(cfg, db, c), st) == Uploaded ==> Typeless(cfg, c.pc)
    ensures !Issue(cfg, db, c).MarkClassified?
  {
  }

  ghost predicate WorkerBlank(cfg: Config, s: Sys, w: nat)
    requires w < |s.workers|
  {
    var c := s.workers[w];
    c.At? ==> c.doc < |s.db.docs| && (Typeless(cfg, c.pc) ==> s.db.docs[c.doc].docType.None?)
  }

  ghost predicate DocBlank(cfg: Config, s: Sys, d: nat)
    requires d < |s.db.docs|
  {
    !Held(s, d) && (s.db.docs[d].status == Uploaded || !Gates.KnowsTypes(cfg)) ==> s.db.docs[d].docType.None?
  }

  /** The document was routed as unrecognised, and nothing can classify it again. */
  ghost predicate TaskBlank(s: Sys, t: nat)
    requires t < |s.db.tasks|
  {
    var d := s.db.tasks[t].doc;
    s.db.tasks[t].reason == UnknownType ==>
      && d < |s.db.docs| && s.db.docs[d].docType.None?
      && (ReviewQueue.TaskOpened(s, d) || s.db.docs[d].status == PendingReview || s.db.docs[d].status == Reviewed)
  }

  ghost predicate AllBlank(cfg: Config, s: Sys) {
    && (forall w :: 0 <= w < |s.workers| ==> WorkerBlank(cfg, s, w))
    && (forall d :: 0 <= d < |s.db.docs| ==> DocBlank(cfg, s, d))
    && (forall t :: 0 <= t < |s.db.tasks| ==> TaskBlank(s, t))
  }

  /** The failure a worker is about to count is on record. */
  lemma CountsItsOwn(cfg: Config, s: Sys, w: nat)
    requires Owned(cfg, s) && Retries.RetriesBounded(cfg, s) && w < |s.workers| && s.workers[w].At? && s.workers[w].pc.FailCount?
    ensures CountFailed(s.db, s.workers[w].doc) >= 1
  {
    var d := s.workers[w].doc;
    assert Owns(cfg, s, w);
    assert Retries.Backed(cfg, s, d);
    CountIsPositive(s.workers, w, Retries.Counting(d));
  }

  lemma MoverBlank(cfg: Config, s: Sys, w: nat)
    requires Theorems.CallInv(cfg, s) && !TypeCarriesOver(cfg) && w < |s.workers| && s.workers[w].At? && WorkerBlank(cfg, s, w)
    ensures var c, s' := s.workers[w], DoAdvance(cfg, s, w);
      && WorkerBlank(cfg, s', w)
      && c.doc < |s.db.docs| == |s'.db.docs|
      && (s'.workers[w].Idle? && (s'.db.docs[c.doc].status == Uploaded || !Gates.KnowsTypes(cfg)) ==> s'.db.docs[c.doc].docType.None?)
  {
    var c := s.workers[w];
    assert Owns(cfg, s, w) && Gates.OnCourse(cfg, s, w) && Fits(s, w);
    ExecFrame(s.db, Issue(cfg, s.db, c));
    OwnStatement(cfg, s.db, c);
    var next := Goto(cfg, s.db, c);
    if next.None? {
      LeavesTypeless(cfg, s.db, c, s.db.docs[c.doc].status);
    } else if Typeless(cfg, next.value) {
      if Tail(c.pc) {
        if c.pc.FailCount? { CountsItsOwn(cfg, s, w); }
        EndingsKeepTypeless(cfg, s.db, c, next.value);
      } else if Gates.Opening(c.pc) {
        OpeningKeepsTypeless(cfg, s.db, c, next.value);
      } else {
        StepsKeepTypeless(cfg, s.db, c, next.value);
      }
    }
  }

  /** Nobody classifies a document routed as unrecognised. */
  lemma TaskedNotClassified(cfg: Config, s: Sys, w: nat, t: nat)
    requires Consistent(s) && w < |s.workers| && s.workers[w].At? && t < |s.db.tasks| && TaskBlank(s, t)
    requires s.db.tasks[t].reason == UnknownType && s.db.tasks[t].doc == s.workers[w].doc
    ensures !Issue(cfg, s.db, s.workers[w]).MarkClassified?
  {
    assert Fits(s, w);
    if ReviewQueue.TaskOpened(s, s.workers[w].doc) {
      ReviewQueue.OpenerIsMover(cfg, s, w);
    }
  }

  lemma TaskBlankKept(cfg: Config, s: Sys, w: nat, t: nat)
    requires Theorems.CallInv(cfg, s) && Atomic(s, Advance(w)) && w < |s.workers| && s.workers[w].At?
    requires t < |s.db.tasks| && TaskBlank(s, t)
    ensures t < |DoAdvance(cfg, s, w).db.tasks| && TaskBlank(DoAdvance(cfg, s, w), t)
  {
    var c, s', d := s.workers[w], DoAdvance(cfg, s, w), s.db.tasks[t].doc;
    assert Owns(cfg, s, w);
    ExecFrame(s.db, Issue(cfg, s.db, c));
    OwnStatement(cfg, s.db, c);
    if s.db.tasks[t].reason == UnknownType {
      ReviewQueue.OpenersAfterAdvance(cfg, s, w, d);
      ReviewQueue.TaskStatements(cfg, s.db, c);
      assert Next(cfg, s, Advance(w)) == s';
      SettledStaysSettled(cfg, s, Advance(w), d);
      if d == c.doc {
        TaskedNotClassified(cfg, s, w, t);
      }
    }
  }

  lemma NewTaskBlank(cfg: Config, s: Sys, w: nat)
    requires Owned(cfg, s) && w < |s.workers| && s.workers[w].At? && WorkerBlank(cfg, s, w) && s.workers[w].pc.OpenTask?
    ensures DoAdvance(cfg, s, w).db.tasks == s.db.tasks + [Task(s.workers[w].doc, s.workers[w].pc.reason, Pending)]
    ensures TaskBlank(DoAdvance(cfg, s, w), |s.db.tasks|)
  {
    var s' := DoAdvance(cfg, s, w);
    OpensTask(cfg, s.db, s.workers[w]);
    ReviewQueue.OpenerCounts(s', w);
  }

  lemma OpensTask(cfg: Config, db: Db, c: Ctl)
    requires c.At? && c.pc.OpenTask?
    ensures Issue(cfg, db, c) == CreateTask(c.doc, c.pc.reason) && Goto(cfg, db, c) == Some(PersistPending(c.pc.its, c.pc.reason))
  {
  }

  lemma TasksBlankAfterAdvance(cfg: Config, s: Sys, w: nat)
    requires Theorems.CallInv(cfg, s) && AllBlank(cfg, s) && Atomic(s, Advance(w)) && w < |s.workers| && s.workers[w].At?
    ensures var s' := DoAdvance(cfg, s, w); forall t :: 0 <= t < |s'.db.tasks| ==> TaskBlank(s', t)
  {
    var s' := DoAdvance(cfg, s, w);
    assert WorkerBlank(cfg, s, w);
    ExecFrame(s.db, Issue(cfg, s.db, s.workers[w]));
    OwnStatement(cfg, s.db, s.workers[w]);
    ReviewQueue.TaskStatements(cfg, s.db, s.workers[w]);
    forall t | 0 <= t < |s'.db.tasks| ensures TaskBlank(s', t) {
      if t < |s.db.tasks| {
        assert TaskBlank(s, t);
        TaskBlankKept(cfg, s, w, t);
      } else {
        NewTaskBlank(cfg, s, w);
      }
    }
  }

  lemma BlankAfterAdvance(cfg: Config, s: Sys, w: nat)
    requires Theorems.CallInv(cfg, s) && AllBlank(cfg, s) && !TypeCarriesOver(cfg)
    requires Atomic(s, Advance(w)) && w < |s.workers| && s.workers[w].At?
    ensures AllBlank(cfg, DoAdvance(cfg, s, w))
  {
    var c, s' := s.workers[w], DoAdvance(cfg, s, w);
    assert WorkerBlank(cfg, s, w);
    ExecFrame(s.db, Issue(cfg, s.db, c));
    OwnStatement(cfg, s.db, c);
    MoverBlank(cfg, s, w);
    HeldWhileAt(s', w);
    forall v | 0 <= v < |s'.workers| ensures WorkerBlank(cfg, s', v) {
      assert WorkerBlank(cfg, s, v);
      if v < w { assert s.workers[v].At? ==> s.workers[v].doc != c.doc; }
      if w < v { assert s.workers[v].At? ==> s.workers[w].doc != s.workers[v].doc; }
    }
    forall d | 0 <= d < |s'.db.docs| ensures DocBlank(cfg, s', d) {
      assert DocBlank(cfg, s, d);
      if d != c.doc { HeldKept(s, s', d); }
    }
    TasksBlankAfterAdvance(cfg, s, w);
  }

  lemma BlankAfterClaim(cfg: Config, s: Sys, w: nat, o: Outcomes)
    requires Theorems.CallInv(cfg, s) && AllBlank(cfg, s) && Atomic(s, Claim(w, o)) && Enabled(cfg, s, Claim(w, o))
    ensures AllBlank(cfg, DoClaim(s, w, o, Claimed(s)))
  {
    var s', d0 := DoClaim(s, w, o, Claimed(s)), Claimed(s);
    ClaimedIsFree(cfg, s, w, o);
    assert DocBlank(cfg, s, d0);
    forall v | 0 <= v < |s'.workers| ensures WorkerBlank(cfg, s', v) {
      assert WorkerBlank(cfg, s, v);
    }
    forall d | 0 <= d < |s'.db.docs| ensures DocBlank(cfg, s', d) {
      assert DocBlank(cfg, s, d);
      HeldKept(s, s', d);
    }
    forall t | 0 <= t < |s'.db.tasks| ensures TaskBlank(s', t) {
      assert TaskBlank(s, t);
      OpenedStays(s, s', s.db.tasks[t].doc);
    }
  }

  lemma OpenedStays(s: Sys, s': Sys, d: nat)
    requires |s'.workers| == |s.workers| && forall v :: 0 <= v < |s.workers| && s.workers[v].At? ==> s'.workers[v] == s.workers[v]
    ensures ReviewQueue.TaskOpened(s, d) ==> ReviewQueue.TaskOpened(s', d)
  {
    if ReviewQueue.TaskOpened(s, d) {
      var v :| 0 <= v < |s.workers| && s.workers[v].At? && s.workers[v].pc.PersistPending? && s.workers[v].doc == d;
      assert s'.workers[v] == s.workers[v];
    }
  }

  /** What an upload or a reviewer may change. */
  lemma BlankFramed(cfg: Config, s: Sys, s': Sys)
    requires AllBlank(cfg, s) && s'.workers == s.workers && |s.db.docs| <= |s'.db.docs| && |s'.db.tasks| == |s.db.tasks|
    requires forall d :: 0 <= d < |s.db.docs| ==>
      s'.db.docs[d].docType == s.db.docs[d].docType && (s'.db.docs[d].status == s.db.docs[d].status || s'.db.docs[d].status == Reviewed)
    requires forall d :: |s.db.docs| <= d < |s'.db.docs| ==> s'.db.docs[d].docType.None?
    requires forall t :: 0 <= t < |s.db.tasks| ==> s'.db.tasks[t].doc == s.db.tasks[t].doc && s'.db.tasks[t].reason == s.db.tasks[t].reason
    ensures AllBlank(cfg, s')
  {
    forall v | 0 <= v < |s'.workers| ensures WorkerBlank(cfg, s', v) {
      assert WorkerBlank(cfg, s, v);
    }
    forall d | 0 <= d < |s'.db.docs| ensures DocBlank(cfg, s', d) {
      if d < |s.db.docs| {
        assert DocBlank(cfg, s, d);
        HeldKept(s, s', d);
      }
    }
    forall t | 0 <= t < |s'.db.tasks| ensures TaskBlank(s', t) {
      assert TaskBlank(s, t);
      OpenedStays(s, s', s.db.tasks[t].doc);
    }
  }

  lemma BlankAfterReview(cfg: Config, s: Sys, i: nat)
    requires AllBlank(cfg, s) && i < |s.desks| && s.desks[i].Busy?
    ensures AllBlank(cfg, DoReview(s, i))
  {
    DeskFrame(s, i);
    BlankFramed(cfg, s, DoReview(s, i));
  }

  lemma {:induction false} BlankAfter(cfg: Config, s: Sys, a: Act)
    requires Theorems.CallInv(cfg, s) && AllBlank(cfg, s) && Atomic(s, a) && !TypeCarriesOver(cfg)
    ensures AllBlank(cfg, Next(cfg, s, a))
  {
    if Enabled(cfg, s, a) {
      match a
      case Claim(w, o) => BlankAfterClaim(cfg, s, w, o);
      case Advance(w) => BlankAfterAdvance(cfg, s, w);
      case Review(i) => BlankAfterReview(cfg, s, i);
      case _ => BlankFramed(cfg, s, Next(cfg, s, a));
    }
  }

  lemma {:induction false} BlankRuns(cfg: Config, w: nat, k: nat, acts: seq<Act>)
    requires AtomicRun(cfg, Start(w, k), acts) && !TypeCarriesOver(cfg)
    ensures AllBlank(cfg, Execute(cfg, Start(w, k), acts))
  {
    if acts != [] {
      var n := |acts| - 1;
      BlankRuns(cfg, w, k, acts[..n]);
      Theorems.CallInvariants(cfg, w, k, acts[..n]);
      BlankAfter(cfg, Execute(cfg, Start(w, k), acts[..n]), acts[n]);
    }
  }

  // ----- two polls of one document -----

  /** A lone document finds no duplicate. */
  lemma LoneLookup(cfg: Config, docs: seq<Document>, o: Outcomes)
    requires |docs| == 1 && o.contentLookupOk && o.nearLookupOk
    ensures Outcome.LookupOf(cfg, docs, 0, o) == Gates.NoDuplicate
  {
    assert docs[..0] == [];
  }

  /** Worker 0 polls while nobody else does anything, and there is one document. */
  lemma Polls(cfg: Config, s: Sys, o: Outcomes) returns (acts: seq<Act>)
    requires |s.workers| >= 1 && s.workers[0].Idle? && SoloRun.OthersOutside(s, 0) && |s.db.docs| == 1 && Claimable(s.db, 0)
    requires WellFormed(cfg, o) && o.contentLookupOk && o.nearLookupOk
    ensures AtomicRun(cfg, s, acts)
    ensures var s' := Execute(cfg, s, acts);
      && s'.workers == s.workers && s'.desks == s.desks
      && Outcome.Follows(cfg, OpenRun(s.db, 0, 0), s'.db, 0, |s.db.runs|, o, Gates.NoDuplicate, Gates.VerdictOf(cfg, o, Gates.NoDuplicate))
  {
    assert IsNextClaim(s.db, 0);
    acts := Queue.PollIsAtomicRun(cfg, s, 0, o);
    LoneLookup(cfg, s.db.docs, o);
    Outcome.OutcomeFollowsVerdict(cfg, OpenRun(s.db, 0, 0), 0, |s.db.runs|, o);
  }

  /** One document, tried once, waiting to be tried again. */
  ghost predicate Retried(s: Sys, docType: string, fields: seq<FieldRow>) {
    && |s.workers| >= 1 && s.workers[0].Idle? && SoloRun.OthersOutside(s, 0)
    && |s.db.docs| == 1 && Claimable(s.db, 0) && s.db.docs[0].docType == Some(docType)
    && |s.db.runs| == 1 && s.db.tasks == [] && s.db.fields == fields
  }

  /** The run stores its type and then fails in a way that can be retried. */
  ghost predicate FailsTyped(cfg: Config, o: Outcomes) {
    var v := Gates.VerdictOf(cfg, o, Gates.NoDuplicate);
    && WellFormed(cfg, o) && o.contentLookupOk && o.nearLookupOk
    && v.iterations >= 3 && v.ending.Fails? && SoloRun.TriesAgain(cfg, 1, v.ending.cause, o)
  }

  /** One new document and nothing else. */
  ghost predicate Fresh(db: Db) {
    |db.docs| == 1 && db.docs[0].status == Uploaded && db.runs == [] && db.tasks == [] && db.fields == []
  }

  lemma StartsFresh(cfg: Config, w: nat, k: nat) returns (acts: seq<Act>)
    requires w >= 1
    ensures AtomicRun(cfg, Start(w, k), acts)
    ensures var s := Execute(cfg, Start(w, k), acts);
      |s.workers| == w && s.workers[0].Idle? && SoloRun.OthersOutside(s, 0) && Fresh(s.db)
  {
    acts := Limits.Uploads(cfg, w, k);
  }

  ghost function StoredRows(cfg: Config, o: Outcomes): seq<FieldRow> {
    if Outcome.StoresRows(Gates.VerdictOf(cfg, o, Gates.NoDuplicate)) then Rows(0, o, 0) else []
  }

  /** The tables after the first run. */
  lemma FailsOnceTyped(cfg: Config, db: Db, db': Db, o: Outcomes)
    requires Fresh(db) && FailsTyped(cfg, o)
    requires Outcome.Follows(cfg, OpenRun(db, 0, 0), db', 0, 0, o, Gates.NoDuplicate, Gates.VerdictOf(cfg, o, Gates.NoDuplicate))
    ensures |db'.docs| == 1 && Claimable(db', 0) && db'.docs[0].docType == Some(o.docType)
    ensures |db'.runs| == 1 && db'.tasks == [] && db'.fields == StoredRows(cfg, o)
  {
    var claimed := OpenRun(db, 0, 0);
    CountIsZero(claimed.runs, FailedRunOf(0));
    assert db'.runs[0].status == RunFailed;
  }

  lemma FirstTry(cfg: Config, w: nat, k: nat, o: Outcomes) returns (acts: seq<Act>)
    requires w >= 1 && FailsTyped(cfg, o)
    ensures AtomicRun(cfg, Start(w, k), acts)
    ensures Retried(Execute(cfg, Start(w, k), acts), o.docType, StoredRows(cfg, o))
  {
    var up := StartsFresh(cfg, w, k);
    var s := Execute(cfg, Start(w, k), up);
    assert !HasRunning(s.db, 0);
    var poll := Polls(cfg, s, o);
    SoloRun.ExecuteConcat(cfg, Start(w, k), up, poll);
    acts := up + poll;
    FailsOnceTyped(cfg, s.db, Execute(cfg, s, poll).db, o);
  }

  // ----- the type: when, and how -----

  /** Documents routed as unrecognised have no type. */
  ghost predicate UnrecognisedUntyped(s: Sys) {
    forall t :: 0 <= t < |s.db.tasks| && s.db.tasks[t].reason == UnknownType && s.db.tasks[t].doc < |s.db.docs| ==>
      s.db.docs[s.db.tasks[t].doc].docType.None?
  }

  /** A run of type `t` that cannot load its schema. */
  ghost function SchemaLost(cfg: Config, t: string): Outcomes
    requires t in cfg.types
  {
    Limits.Sampled(cfg, t).(schemaOk := false)
  }

  lemma SchemaLostFails(cfg: Config, t: string)
    requires TypeCarriesOver(cfg) && t in cfg.types && t != UNKNOWN_TYPE
    ensures FailsTyped(cfg, SchemaLost(cfg, t))
  {
    var o, l := SchemaLost(cfg, t), Gates.NoDuplicate;
    Limits.SampledIsAccepted(cfg, t);
    assert Gates.Passed(cfg, o, l, 0) && Gates.Passed(cfg, o, l, 1) && Gates.Passed(cfg, o, l, 2);
    Gates.StopsAt(cfg, o, l, 2);
  }

  /** The schedule: one worker classifies the document, cannot load the schema and
      sets it back; its next run does not recognise the document. */
  lemma {:induction false} UnrecognisedWithType(cfg: Config, w: nat, k: nat) returns (acts: seq<Act>)
    requires w >= 1 && TypeCarriesOver(cfg)
    ensures AtomicRun(cfg, Start(w, k), acts)
    ensures var db := Execute(cfg, Start(w, k), acts).db;
      && |db.docs| == 1 && db.docs[0].status == PendingReview && db.docs[0].docType.Some?
      && db.tasks == [Task(0, UnknownType, Pending)]
  {
    var t :| t in cfg.types && t != UNKNOWN_TYPE;
    SchemaLostFails(cfg, t);
    var first := FirstTry(cfg, w, k, SchemaLost(cfg, t));
    var s := Execute(cfg, Start(w, k), first);
    Limits.UnrecognisedIsRouted(cfg, Gates.NoDuplicate);
    var second := Polls(cfg, s, Limits.Classifying(cfg, UNKNOWN_TYPE));
    SoloRun.ExecuteConcat(cfg, Start(w, k), first, second);
    acts := first + second;
  }

  /** That a document routed as unrecognised has no type is a guarantee, over
      call-level schedules, exactly when there are no retries, or the cap stops
      every run before the third step, or there is no type but "unknown". */
  lemma {:induction false} UnrecognisedUntypedIff(cfg: Config, w: nat, k: nat)
    requires w >= 1
    ensures cfg.maxRetries <= 0 || cfg.maxIterations < 3 || !Gates.KnowsTypes(cfg) <==>
      forall acts :: AtomicRun(cfg, Start(w, k), acts) ==> UnrecognisedUntyped(Execute(cfg, Start(w, k), acts))
  {
    if TypeCarriesOver(cfg) {
      var acts := UnrecognisedWithType(cfg, w, k);
      assert Execute(cfg, Start(w, k), acts).db.tasks[0].reason == UnknownType;
      assert !UnrecognisedUntyped(Execute(cfg, Start(w, k), acts));
    } else {
      forall acts | AtomicRun(cfg, Start(w, k), acts) ensures UnrecognisedUntyped(Execute(cfg, Start(w, k), acts)) {
        var s := Execute(cfg, Start(w, k), acts);
        BlankRuns(cfg, w, k, acts);
        forall t | 0 <= t < |s.db.tasks| && s.db.tasks[t].reason == UnknownType
          ensures s.db.tasks[t].doc < |s.db.docs| && s.db.docs[s.db.tasks[t].doc].docType.None?
        {
          assert TaskBlank(s, t);
        }
      }
    }
  }
}
