/** Review tasks and the audit log: whether they can disagree about a decision. */
module Decisions {
  import opened Prelude
  import opened Domain
  import opened Tables
  import opened Pipeline
  import opened Protocol
  import opened Ownership
  import opened CallLevel
  import Ceiling
  import Gates
  import Leftovers
  import Limits
  import Outcome
  import SoloRun
  import Sorting
  import Theorems

  /** The decision an audit entry reports, as the status of the review task. */
  function StatusSaid(a: Action): Option<ReviewStatus> {
    match a
    case ReviewApproved => Some(Approved)
    case ReviewRejected => Some(Rejected)
    case ReviewCorrected => Some(Corrected)
    case _ => None
  }

  /** The entry says of a review task what was decided. */
  ghost predicate Says(e: Entry, t: nat, st: ReviewStatus) {
    e.entity == OfTask(t) && StatusSaid(e.action) == Some(st)
  }

  /** Whatever the log says was decided on a review task stands there. */
  ghost predicate LogAgrees(s: Sys) {
    forall i :: 0 <= i < |s.db.audit| ==> EntryAgrees(s.db, s.db.audit[i])
  }

  ghost predicate EntryAgrees(db: Db, e: Entry) {
    e.entity.OfTask? && StatusSaid(e.action).Some? ==>
      e.entity.id < |db.tasks| && db.tasks[e.entity.id].status == StatusSaid(e.action).value
  }

  // ----- the invariant, while one reviewer at a time submits -----

  function Wanted(d: Pipeline.Decision): ReviewStatus {
    match d case Approve => Approved case Reject => Rejected case Correct => Corrected
  }

  /** A review task somebody works on: open until it is resolved, as decided afterwards. */
  ghost predicate DeskAgrees(db: Db, k: Desk) {
    k.Busy? && !k.step.LoadDoc? && !k.step.LoadTask? ==>
      && k.step.task < |db.tasks| && db.tasks[k.step.task].doc == k.req.doc
      && db.tasks[k.step.task].status == (if k.step.SaveCorrections? || k.step.ResolveTask? then Pending else Wanted(k.req.decision))
  }

  ghost predicate Said(db: Db, t: nat) {
    t < |db.tasks| && exists i :: 0 <= i < |db.audit| && Says(db.audit[i], t, db.tasks[t].status)
  }

  ghost predicate BeingClosed(s: Sys, t: nat) {
    exists i :: 0 <= i < |s.desks| && s.desks[i].Busy? && (s.desks[i].step.MarkDoc? || s.desks[i].step.AuditReview?) && s.desks[i].step.task == t
  }

  /** A decision is on record, or about to be, or its review stopped half-way. */
  ghost predicate TaskLogged(s: Sys, t: nat)
    requires t < |s.db.tasks|
  {
    s.db.tasks[t].status == Pending || s.db.tasks[t].doc in s.torn || Said(s.db, t) || BeingClosed(s, t)
  }

  ghost predicate Agreeing(s: Sys) {
    && LogAgrees(s)
    && (forall i :: 0 <= i < |s.desks| ==> DeskAgrees(s.db, s.desks[i]))
    && (forall t :: 0 <= t < |s.db.tasks| ==> TaskLogged(s, t))
  }

  /** The log and the tasks grow, and what is in them stays. */
  ghost predicate Grown(db: Db, db': Db) {
    && |db.tasks| <= |db'.tasks| && db'.tasks[..|db.tasks|] == db.tasks
    && (forall t :: |db.tasks| <= t < |db'.tasks| ==> db'.tasks[t].status == Pending)
    && |db.audit| <= |db'.audit| && db'.audit[..|db.audit|] == db.audit
    && (forall i :: |db.audit| <= i < |db'.audit| ==> StatusSaid(db'.audit[i].action).None?)
  }

  lemma GrownTask(db: Db, db': Db, t: nat)
    requires Grown(db, db') && t < |db.tasks|
    ensures db'.tasks[t] == db.tasks[t]
  {
    assert db'.tasks[..|db.tasks|][t] == db.tasks[t];
  }

  lemma GrownEntry(db: Db, db': Db, i: nat)
    requires Grown(db, db') && i < |db.audit|
    ensures db'.audit[i] == db.audit[i]
  {
    assert db'.audit[..|db.audit|][i] == db.audit[i];
  }

  lemma SaidGrown(db: Db, db': Db, t: nat)
    requires Grown(db, db') && Said(db, t)
    ensures Said(db', t)
  {
    GrownTask(db, db', t);
    var i :| 0 <= i < |db.audit| && Says(db.audit[i], t, db.tasks[t].status);
    GrownEntry(db, db', i);
    assert Says(db'.audit[i], t, db'.tasks[t].status);
  }

  lemma EntriesGrown(s: Sys, s': Sys)
    requires LogAgrees(s) && Grown(s.db, s'.db)
    ensures LogAgrees(s')
  {
    forall i | 0 <= i < |s'.db.audit| ensures EntryAgrees(s'.db, s'.db.audit[i]) {
      if i < |s.db.audit| {
        GrownEntry(s.db, s'.db, i);
        var e := s.db.audit[i];
        assert EntryAgrees(s.db, e);
        if e.entity.OfTask? && e.entity.id < |s.db.tasks| { GrownTask(s.db, s'.db, e.entity.id); }
      }
    }
  }

  /** What a worker, an upload or the opening of a review leaves. */
  lemma AgreeingGrown(s: Sys, s': Sys)
    requires Agreeing(s) && Grown(s.db, s'.db) && |s'.desks| == |s.desks| && s'.torn == s.torn
    requires forall i :: 0 <= i < |s.desks| ==> s'.desks[i] == s.desks[i] || (s.desks[i].Free? && s'.desks[i].Busy? && s'.desks[i].step.LoadDoc?)
    ensures Agreeing(s')
  {
    EntriesGrown(s, s');
    forall i | 0 <= i < |s'.desks| ensures DeskAgrees(s'.db, s'.desks[i]) {
      assert DeskAgrees(s.db, s.desks[i]);
      if s'.desks[i].Busy? && !s'.desks[i].step.LoadDoc? && !s'.desks[i].step.LoadTask? { GrownTask(s.db, s'.db, s.desks[i].step.task); }
    }
    forall t | 0 <= t < |s'.db.tasks| ensures TaskLogged(s', t) {
      if t < |s.db.tasks| {
        assert TaskLogged(s, t);
        GrownTask(s.db, s'.db, t);
        if Said(s.db, t) { SaidGrown(s.db, s'.db, t); }
        if BeingClosed(s, t) { ClosedGrown(s, s', t); }
      }
    }
  }

  lemma ClosedGrown(s: Sys, s': Sys, t: nat)
    requires BeingClosed(s, t) && |s'.desks| == |s.desks|
    requires forall i :: 0 <= i < |s.desks| && s.desks[i].Busy? ==> s'.desks[i] == s.desks[i]
    ensures BeingClosed(s', t)
  {
    var i :| 0 <= i < |s.desks| && s.desks[i].Busy? && (s.desks[i].step.MarkDoc? || s.desks[i].step.AuditReview?) && s.desks[i].step.task == t;
    assert s'.desks[i] == s.desks[i];
  }

  lemma WorkerGrows(cfg: Config, db: Db, c: Ctl)
    requires c.At?
    ensures Grown(db, Exec(db, Issue(cfg, db, c)))
  {
    var stmt := Issue(cfg, db, c);
    ExecFrame(db, stmt);
    OwnStatement(cfg, db, c);
    if stmt.Audit? {
      WorkerSaysNothing(cfg, db, c);
    }
  }

  lemma WorkerSaysNothing(cfg: Config, db: Db, c: Ctl)
    requires c.At? && Issue(cfg, db, c).Audit?
    ensures StatusSaid(Issue(cfg, db, c).entry.action).None?
  {
  }

  /** No other reviewer is at work. */
  ghost predicate Alone(s: Sys, i: nat) {
    forall j :: 0 <= j < |s.desks| && j != i ==> s.desks[j].Free?
  }

  lemma FindsOpenTask(db: Db, d: nat)
    ensures var t := GetPendingByDocument(db, d);
      t.Some? ==> t.value < |db.tasks| && db.tasks[t.value].doc == d && db.tasks[t.value].status == Pending
  {
  }

  /** A step that changes neither tasks nor log. */
  lemma AgreeingAfterReading(s: Sys, i: nat)
    requires Agreeing(s) && i < |s.desks| && s.desks[i].Busy? && Alone(s, i)
    requires s.desks[i].step.LoadDoc? || s.desks[i].step.LoadTask? || s.desks[i].step.SaveCorrections?
    ensures Agreeing(DoReview(s, i))
  {
    var k, s' := s.desks[i], DoReview(s, i);
    assert DeskAgrees(s.db, k);
    assert s'.db.tasks == s.db.tasks && s'.db.audit == s.db.audit;
    FindsOpenTask(s.db, k.req.doc);
    assert s.db.tasks[..|s.db.tasks|] == s.db.tasks && s.db.audit[..|s.db.audit|] == s.db.audit;
    EntriesGrown(s, s');
    forall t | 0 <= t < |s'.db.tasks| ensures TaskLogged(s', t) {
      assert TaskLogged(s, t);
      if Said(s.db, t) { SaidGrown(s.db, s'.db, t); }
    }
  }

  /** Nothing has been said of an open task. */
  lemma OpenTaskUnsaid(s: Sys, t: nat, i: nat)
    requires LogAgrees(s) && t < |s.db.tasks| && s.db.tasks[t].status == Pending && i < |s.db.audit|
    ensures s.db.audit[i].entity == OfTask(t) ==> StatusSaid(s.db.audit[i].action).None?
  {
    assert EntryAgrees(s.db, s.db.audit[i]);
  }

  lemma AgreeingAfterResolve(s: Sys, i: nat)
    requires Agreeing(s) && i < |s.desks| && s.desks[i].Busy? && Alone(s, i) && s.desks[i].step.ResolveTask?
    ensures Agreeing(DoReview(s, i))
  {
    var k, s' := s.desks[i], DoReview(s, i);
    var t0 := k.step.task;
    assert DeskAgrees(s.db, k);
    forall j | 0 <= j < |s'.db.audit| ensures EntryAgrees(s'.db, s'.db.audit[j]) {
      assert EntryAgrees(s.db, s.db.audit[j]);
      OpenTaskUnsaid(s, t0, j);
    }
    if k.req.resolveOk {
      assert s'.desks[i] == k.(step := MarkDoc(t0));
      assert BeingClosed(s', t0);
    }
    forall t | 0 <= t < |s'.db.tasks| ensures TaskLogged(s', t) {
      assert TaskLogged(s, t);
      if t != t0 { SaidStays(s.db, s'.db, t); }
    }
  }

  lemma SaidStays(db: Db, db': Db, t: nat)
    requires t < |db.tasks| && t < |db'.tasks| && db'.tasks[t] == db.tasks[t] && db.audit <= db'.audit
    ensures Said(db, t) ==> Said(db', t)
  {
    if Said(db, t) {
      var i :| 0 <= i < |db.audit| && Says(db.audit[i], t, db.tasks[t].status);
      assert Says(db'.audit[i], t, db'.tasks[t].status);
    }
  }

  lemma AgreeingAfterMark(s: Sys, i: nat)
    requires Agreeing(s) && i < |s.desks| && s.desks[i].Busy? && Alone(s, i) && s.desks[i].step.MarkDoc?
    ensures Agreeing(DoReview(s, i))
  {
    var k, s' := s.desks[i], DoReview(s, i);
    var t0 := k.step.task;
    assert DeskAgrees(s.db, k);
    assert s'.db.tasks == s.db.tasks && s'.db.audit == s.db.audit;
    forall j | 0 <= j < |s'.db.audit| ensures EntryAgrees(s'.db, s'.db.audit[j]) {
      assert EntryAgrees(s.db, s.db.audit[j]);
    }
    if k.req.markOk {
      assert s'.desks[i] == k.(step := AuditReview(t0));
      assert BeingClosed(s', t0);
    }
    forall t | 0 <= t < |s'.db.tasks| ensures TaskLogged(s', t) {
      assert TaskLogged(s, t);
      SaidStays(s.db, s'.db, t);
    }
  }

  lemma AgreeingAfterAudit(s: Sys, i: nat)
    requires Agreeing(s) && i < |s.desks| && s.desks[i].Busy? && Alone(s, i) && s.desks[i].step.AuditReview?
    ensures Agreeing(DoReview(s, i))
  {
    var k, s' := s.desks[i], DoReview(s, i);
    var t0, n := k.step.task, |s.db.audit|;
    assert DeskAgrees(s.db, k);
    assert s'.db.tasks == s.db.tasks && Says(s'.db.audit[n], t0, s'.db.tasks[t0].status);
    forall j | 0 <= j < |s'.db.audit| ensures EntryAgrees(s'.db, s'.db.audit[j]) {
      if j < n { assert EntryAgrees(s.db, s.db.audit[j]); }
    }
    forall t | 0 <= t < |s'.db.tasks| ensures TaskLogged(s', t) {
      assert TaskLogged(s, t);
      SaidStays(s.db, s'.db, t);
    }
  }

  lemma {:induction false} AgreeingAfter(cfg: Config, s: Sys, a: Act)
    requires Agreeing(s) && (Enabled(cfg, s, a) && a.Review? ==> Alone(s, a.i))
    ensures Agreeing(Next(cfg, s, a))
  {
    if Enabled(cfg, s, a) {
      match a
      case Advance(w) =>
        WorkerGrows(cfg, s.db, s.workers[w]);
        AgreeingGrown(s, DoAdvance(cfg, s, w));
      case Review(i) =>
        if s.desks[i].step.ResolveTask? {
          AgreeingAfterResolve(s, i);
        } else if s.desks[i].step.MarkDoc? {
          AgreeingAfterMark(s, i);
        } else if s.desks[i].step.AuditReview? {
          AgreeingAfterAudit(s, i);
        } else {
          AgreeingAfterReading(s, i);
        }
      case _ =>
        assert s.db.tasks[..|s.db.tasks|] == s.db.tasks && s.db.audit[..|s.db.audit|] == s.db.audit;
        AgreeingGrown(s, Next(cfg, s, a));
    }
  }

  lemma {:induction false} AgreeingRuns(cfg: Config, w: nat, k: nat, acts: seq<Act>)
    requires k <= 1 || AtomicRun(cfg, Start(w, k), acts)
    ensures Agreeing(Execute(cfg, Start(w, k), acts)) && |Execute(cfg, Start(w, k), acts).desks| == k
  {
    if acts != [] {
      var n := |acts| - 1;
      var s, a := Execute(cfg, Start(w, k), acts[..n]), acts[n];
      AgreeingRuns(cfg, w, k, acts[..n]);
      if Enabled(cfg, s, a) && a.Review? && k > 1 {
        assert Atomic(s, a);
      }
      AgreeingAfter(cfg, s, a);
    }
  }

  /** On call-level schedules log and tasks say the same: what an entry says was
      decided stands in its task, and between calls every decision that stands in a
      task is in the log, unless its review stopped half-way. */
  lemma {:induction false} LogMatchesTasks(cfg: Config, w: nat, k: nat, s: Sys)
    requires Theorems.CallReachable(cfg, w, k, s)
    ensures forall i, t: nat, st :: 0 <= i < |s.db.audit| && Says(s.db.audit[i], t, st) ==> t < |s.db.tasks| && s.db.tasks[t].status == st
    ensures AtBoundary(s) ==> forall t :: 0 <= t < |s.db.tasks| && s.db.tasks[t].status != Pending && s.db.tasks[t].doc !in s.torn ==>
      exists i :: 0 <= i < |s.db.audit| && Says(s.db.audit[i], t, s.db.tasks[t].status)
  {
    var acts :| AtomicRun(cfg, Start(w, k), acts) && s == Execute(cfg, Start(w, k), acts);
    AgreeingRuns(cfg, w, k, acts);
    forall i, t: nat, st | 0 <= i < |s.db.audit| && Says(s.db.audit[i], t, st) ensures t < |s.db.tasks| && s.db.tasks[t].status == st {
      assert EntryAgrees(s.db, s.db.audit[i]);
    }
    if AtBoundary(s) {
      forall t | 0 <= t < |s.db.tasks| && s.db.tasks[t].status != Pending && s.db.tasks[t].doc !in s.torn
        ensures exists i :: 0 <= i < |s.db.audit| && Says(s.db.audit[i], t, s.db.tasks[t].status)
      {
        assert TaskLogged(s, t);
      }
    }
  }

  // ----- nothing to review at all -----

  ghost predicate NothingReviewed(s: Sys) {
    && s.db.tasks == []
    && (forall i :: 0 <= i < |s.desks| && s.desks[i].Busy? ==> s.desks[i].step.LoadDoc? || s.desks[i].step.LoadTask?)
    && (forall i :: 0 <= i < |s.db.audit| ==> StatusSaid(s.db.audit[i].action).None?)
  }

  lemma OpensNoTask(cfg: Config, s: Sys, w: nat)
    requires cfg.maxIterations < 2 && w < |s.workers| && s.workers[w].At? && Gates.OnCourse(cfg, s, w)
    ensures !Issue(cfg, s.db, s.workers[w]).CreateTask?
  {
    var c := s.workers[w];
    Ceiling.StopsAtTwo(cfg, c.o, Gates.LookupIn(Gates.RunTools(s.db.tools, c.run)));
  }

  lemma {:induction false} NothingToReview(cfg: Config, w: nat, k: nat, acts: seq<Act>)
    requires w == 0 || cfg.maxIterations < 2
    ensures NothingReviewed(Execute(cfg, Start(w, k), acts))
  {
    if acts != [] {
      var n := |acts| - 1;
      var s, a := Execute(cfg, Start(w, k), acts[..n]), acts[n];
      NothingToReview(cfg, w, k, acts[..n]);
      Theorems.Invariants(cfg, w, k, acts[..n]);
      if Enabled(cfg, s, a) {
        match a
        case Advance(v) =>
          assert Gates.OnCourse(cfg, s, v);
          OpensNoTask(cfg, s, v);
          NothingAdvances(cfg, s, v);
        case Review(i) =>
          NothingDecided(s, i);
        case _ =>
      }
    }
  }

  lemma NothingDecided(s: Sys, i: nat)
    requires NothingReviewed(s) && i < |s.desks| && s.desks[i].Busy?
    ensures NothingReviewed(DoReview(s, i))
  {
  }

  lemma NothingAdvances(cfg: Config, s: Sys, w: nat)
    requires NothingReviewed(s) && w < |s.workers| && s.workers[w].At? && !Issue(cfg, s.db, s.workers[w]).CreateTask?
    ensures NothingReviewed(DoAdvance(cfg, s, w))
  {
    ExecFrame(s.db, Issue(cfg, s.db, s.workers[w]));
    OwnStatement(cfg, s.db, s.workers[w]);
    if Issue(cfg, s.db, s.workers[w]).Audit? {
      WorkerSaysNothing(cfg, s.db, s.workers[w]);
    }
  }

  // ----- two reviewers at once -----

  /** Approve or reject document 0, with a database that fails nowhere. */
  function Posted(decision: Pipeline.Decision): Request {
    Request(0, 0, 0, decision, map[], [], true, true, true, true, true)
  }

  /** Document 0 waits for review with its one open task. */
  ghost predicate Waiting(db: Db) {
    && |db.docs| == 1 && db.docs[0].tenant == 0 && db.docs[0].status == PendingReview
    && |db.tasks| == 1 && db.tasks[0].doc == 0 && db.tasks[0].status == Pending
  }

  lemma OneDesk(cfg: Config, s: Sys, acts: seq<Act>, i: nat)
    requires var t := Execute(cfg, s, acts); i < |t.desks| && t.desks[i].Busy?
    ensures Execute(cfg, s, acts + [Review(i)]) == DoReview(Execute(cfg, s, acts), i)
  {
    Limits.OneMore(cfg, s, acts, Review(i));
  }

  lemma FindsIt(db: Db)
    requires Waiting(db)
    ensures GetPendingByDocument(db, 0) == Some(0)
  {
    assert PendingTaskOf(0)(db.tasks[0]);
  }

  /** A reviewer reads the document and its task. */
  lemma ReadsTask(cfg: Config, s: Sys, i: nat, decision: Pipeline.Decision) returns (acts: seq<Act>)
    requires Waiting(s.db) && i < |s.desks| && s.desks[i].Free? && decision != Correct
    ensures Execute(cfg, s, acts) == s.(desks := s.desks[i := Busy(ResolveTask(0), Posted(decision))])
  {
    var req := Posted(decision);
    FindsIt(s.db);
    assert Sorting.Names([]) == {};
    Limits.OneMore(cfg, s, [], OpenReview(i, req));
    acts := [] + [OpenReview(i, req)];
    assert Execute(cfg, s, []) == s;
    var s1 := DoOpen(s, i, req);
    assert Execute(cfg, s, acts) == s1;
    OneDesk(cfg, s, acts, i);
    acts := acts + [Review(i)];
    var s2 := DoReview(s1, i);
    assert s2 == s.(desks := s.desks[i := Busy(LoadTask, req)]);
    OneDesk(cfg, s, acts, i);
    acts := acts + [Review(i)];
    assert DoReview(s2, i) == s.(desks := s.desks[i := Busy(ResolveTask(0), req)]);
  }

  /** Both have read the same review task: one approves, the other rejects. */
  ghost predicate BothRead(s: Sys) {
    && Waiting(s.db) && |s.desks| >= 2
    && s.desks[0] == Busy(ResolveTask(0), Posted(Approve)) && s.desks[1] == Busy(ResolveTask(0), Posted(Reject))
  }

  /** The review task holds the second decision, and the first one is still to be logged. */
  ghost predicate Overruled(s: Sys, step: DeskStep) {
    && |s.db.docs| == 1 && |s.db.tasks| == 1 && s.db.tasks[0].status == Rejected
    && |s.desks| >= 2 && s.desks[0] == Busy(step, Posted(Approve))
  }

  lemma BothResolve(s: Sys)
    requires BothRead(s)
    ensures var s1 := DoReview(s, 0); |s1.desks| >= 2 && s1.desks[1].Busy? && Overruled(DoReview(s1, 1), MarkDoc(0))
  {
    var s1 := DoReview(s, 0);
    assert s1.desks[1] == s.desks[1] && s1.desks[0] == Busy(MarkDoc(0), Posted(Approve));
    assert s1.db.docs == s.db.docs && |s1.db.tasks| == 1;
  }

  lemma FirstMarks(s: Sys)
    requires Overruled(s, MarkDoc(0))
    ensures Overruled(DoReview(s, 0), AuditReview(0))
  {
  }

  lemma FirstIsLogged(s: Sys)
    requires Overruled(s, AuditReview(0))
    ensures !LogAgrees(DoReview(s, 0))
  {
    var s' := DoReview(s, 0);
    assert !EntryAgrees(s'.db, s'.db.audit[|s.db.audit|]);
  }

  lemma BothDecide(cfg: Config, s: Sys) returns (acts: seq<Act>)
    requires BothRead(s)
    ensures !LogAgrees(Execute(cfg, s, acts))
  {
    var s1 := DoReview(s, 0);
    var s2 := DoReview(s1, 1);
    BothResolve(s);
    FirstMarks(s2);
    FirstIsLogged(DoReview(s2, 0));
    assert Execute(cfg, s, []) == s;
    OneDesk(cfg, s, [], 0);
    OneDesk(cfg, s, [] + [Review(0)], 1);
    OneDesk(cfg, s, [] + [Review(0)] + [Review(1)], 0);
    OneDesk(cfg, s, [] + [Review(0)] + [Review(1)] + [Review(0)], 0);
    acts := [] + [Review(0)] + [Review(1)] + [Review(0)] + [Review(0)];
  }

  lemma RoutedWaits(cfg: Config, s: Sys, db': Db, o: Outcomes)
    requires Leftovers.Fresh(s.db) && s.db.docs[0].tenant == 0 && cfg.maxIterations >= 2 && o == Limits.Classifying(cfg, UNKNOWN_TYPE)
    requires Outcome.Follows(cfg, OpenRun(s.db, 0, 0), db', 0, 0, o, Gates.NoDuplicate, Gates.VerdictOf(cfg, o, Gates.NoDuplicate))
    ensures Waiting(db')
  {
    Limits.UnrecognisedIsRouted(cfg, Gates.NoDuplicate);
  }

  lemma GetsRouted(cfg: Config, w: nat, k: nat) returns (acts: seq<Act>)
    requires w >= 1 && cfg.maxIterations >= 2
    ensures var s := Execute(cfg, Start(w, k), acts); Waiting(s.db) && s.desks == Start(w, k).desks
  {
    var o := Limits.Classifying(cfg, UNKNOWN_TYPE);
    var up := StartsUploaded(cfg, w, k);
    var s := Execute(cfg, Start(w, k), up);
    var poll := Leftovers.Polls(cfg, s, o);
    RoutedWaits(cfg, s, Execute(cfg, s, poll).db, o);
    SoloRun.ExecuteConcat(cfg, Start(w, k), up, poll);
    acts := up + poll;
  }

  lemma StartsUploaded(cfg: Config, w: nat, k: nat) returns (acts: seq<Act>)
    requires w >= 1
    ensures var s := Execute(cfg, Start(w, k), acts);
      && |s.workers| == w && s.workers[0].Idle? && SoloRun.OthersOutside(s, 0) && s.desks == Start(w, k).desks
      && Leftovers.Fresh(s.db) && s.db.docs[0].tenant == 0 && Claimable(s.db, 0)
  {
    acts := Limits.Uploads(cfg, w, k);
    assert !HasRunning(Execute(cfg, Start(w, k), acts).db, 0);
  }

  /** The schedule: both reviewers read the open task before either decides. */
  lemma {:induction false} LogContradictsTask(cfg: Config, w: nat, k: nat) returns (acts: seq<Act>)
    requires k >= 2 && w >= 1 && cfg.maxIterations >= 2
    ensures !LogAgrees(Execute(cfg, Start(w, k), acts))
  {
    var s0 := Start(w, k);
    var a := GetsRouted(cfg, w, k);
    var s1 := Execute(cfg, s0, a);
    var b := ReadsTask(cfg, s1, 0, Approve);
    var s2 := Execute(cfg, s1, b);
    var c := ReadsTask(cfg, s2, 1, Reject);
    var s3 := Execute(cfg, s2, c);
    assert BothRead(s3);
    var e := BothDecide(cfg, s3);
    SoloRun.ExecuteConcat(cfg, s0, a, b);
    SoloRun.ExecuteConcat(cfg, s0, a + b, c);
    SoloRun.ExecuteConcat(cfg, s0, a + b + c, e);
    acts := a + b + c + e;
  }

  /** That a task stands as the log says it was decided is a guarantee, over all
      interleavings of statements, exactly when no two reviewers submit at once or
      nothing is ever sent to review. */
  lemma {:induction false} LogAgreesIff(cfg: Config, w: nat, k: nat)
    ensures k <= 1 || w == 0 || cfg.maxIterations < 2 <==> forall acts :: LogAgrees(Execute(cfg, Start(w, k), acts))
  {
    if k <= 1 {
      forall acts ensures LogAgrees(Execute(cfg, Start(w, k), acts)) {
        AgreeingRuns(cfg, w, k, acts);
      }
    } else if w == 0 || cfg.maxIterations < 2 {
      forall acts ensures LogAgrees(Execute(cfg, Start(w, k), acts)) {
        NothingToReview(cfg, w, k, acts);
      }
    } else {
      var acts := LogContradictsTask(cfg, w, k);
    }
  }
}
