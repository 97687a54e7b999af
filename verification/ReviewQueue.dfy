/** Review tasks on call-level schedules: a document has an open task exactly
    while it is PENDING_REVIEW, unless a Submit stopped after resolving it and
    before marking the document. */
module ReviewQueue {
  import opened Prelude
  import opened Domain
  import opened Tables
  import opened Pipeline
  import opened Protocol
  import opened Ownership
  import opened CallLevel

  ghost function OpenTasks(db: Db, d: nat): nat {
    Count(db.tasks, PendingTaskOf(d))
  }

  ghost predicate TaskOpened(s: Sys, d: nat) {
    exists w :: 0 <= w < |s.workers| && s.workers[w].At? && s.workers[w].pc.PersistPending? && s.workers[w].doc == d
  }

  ghost predicate TaskResolved(s: Sys, d: nat) {
    exists i :: 0 <= i < |s.desks| && s.desks[i].Busy? && s.desks[i].step.MarkDoc? && s.desks[i].req.doc == d
  }

  /** How many open tasks a document should have. */
  ghost function Due(s: Sys, d: nat): nat
    requires d < |s.db.docs|
  {
    if TaskOpened(s, d) then 1
    else if TaskResolved(s, d) then 0
    else if s.db.docs[d].status == PendingReview && d !in s.torn then 1
    else 0
  }

  ghost predicate HasTask(s: Sys, i: nat)
    requires i < |s.desks|
  {
    var k := s.desks[i];
    && (k.Busy? && (k.step.SaveCorrections? || k.step.ResolveTask?) ==>
          k.step.task < |s.db.tasks| && s.db.tasks[k.step.task].doc == k.req.doc && s.db.tasks[k.step.task].status == Pending)
    && (k.Busy? && !k.step.LoadDoc? && !k.step.LoadTask? ==> k.req.doc !in s.torn)
  }

  ghost predicate QueueSound(s: Sys) {
    && (forall d :: 0 <= d < |s.db.docs| ==> OpenTasks(s.db, d) == Due(s, d))
    && (forall i :: 0 <= i < |s.desks| ==> HasTask(s, i))
    && (forall d :: d in s.torn ==> d < |s.db.docs| && s.db.docs[d].status == PendingReview)
  }

  /** What a worker's statement does to the open tasks. */
  lemma TaskStatements(cfg: Config, db: Db, c: Ctl)
    requires c.At?
    ensures var stmt, next := Issue(cfg, db, c), Goto(cfg, db, c);
      && (stmt.CreateTask? <==> c.pc.OpenTask?)
      && (next.Some? && next.value.PersistPending? <==> c.pc.OpenTask?)
      && (c.pc.PersistPending? ==> stmt.MarkPendingReview?)
      && (SetsStatus(stmt) && StatusWritten(stmt) == PendingReview ==> c.pc.PersistPending?)
  {
  }

  lemma OpenersKept(s: Sys, s': Sys, w: nat, d: nat)
    requires |s'.workers| == |s.workers| && w < |s.workers| && (forall v :: 0 <= v < |s.workers| && v != w ==> s'.workers[v] == s.workers[v])
    requires s.workers[w].At? && s.workers[w].pc.PersistPending? ==> s.workers[w].doc != d
    requires s'.workers[w].At? && s'.workers[w].pc.PersistPending? ==> s'.workers[w].doc != d
    ensures TaskOpened(s', d) == TaskOpened(s, d)
  {
    if TaskOpened(s, d) {
      var v :| 0 <= v < |s.workers| && s.workers[v].At? && s.workers[v].pc.PersistPending? && s.workers[v].doc == d;
      assert s'.workers[v] == s.workers[v];
    }
  }

  lemma OpenerCounts(s: Sys, w: nat)
    requires w < |s.workers|
    ensures s.workers[w].At? && s.workers[w].pc.PersistPending? ==> TaskOpened(s, s.workers[w].doc)
  {
  }

  /** A document has at most one opener, so it is the one we know. */
  lemma OpenerIsMover(cfg: Config, s: Sys, w: nat)
    requires Consistent(s) && w < |s.workers| && s.workers[w].At? && TaskOpened(s, s.workers[w].doc)
    ensures s.workers[w].pc.PersistPending?
  {
    var v :| 0 <= v < |s.workers| && s.workers[v].At? && s.workers[v].pc.PersistPending? && s.workers[v].doc == s.workers[w].doc;
    assert !(v < w) && !(w < v);
  }

  /** The openers of a document after a worker's statement. */
  lemma OpenersAfterAdvance(cfg: Config, s: Sys, w: nat, d: nat)
    requires Owned(cfg, s) && Consistent(s) && w < |s.workers| && s.workers[w].At? && s.workers[w].doc < |s.db.docs|
    ensures var c, s' := s.workers[w], DoAdvance(cfg, s, w);
      && (d != c.doc ==> TaskOpened(s', d) == TaskOpened(s, d))
      && (d == c.doc ==> TaskOpened(s, d) == c.pc.PersistPending? && TaskOpened(s', d) == c.pc.OpenTask?)
      && (d == c.doc && c.pc.OpenTask? ==> s.db.docs[d].status != PendingReview)
  {
    var c, s' := s.workers[w], DoAdvance(cfg, s, w);
    OpenerCounts(s, w);
    OpenerCounts(s', w);
    if d != c.doc {
      OpenersKept(s, s', w, d);
    } else if TaskOpened(s, d) {
      OpenerIsMover(cfg, s, w);
      StillOneOpener(cfg, s, w);
    } else {
      MoverTask(cfg, s, w);
    }
  }

  lemma DueAfterAdvance(cfg: Config, s: Sys, w: nat, d: nat)
    requires Owned(cfg, s) && Consistent(s) && QueueSound(s) && Atomic(s, Advance(w)) && w < |s.workers| && s.workers[w].At? && d < |s.db.docs|
    ensures |DoAdvance(cfg, s, w).db.docs| == |s.db.docs|
    ensures OpenTasks(DoAdvance(cfg, s, w).db, d) == Due(DoAdvance(cfg, s, w), d)
  {
    var c, s' := s.workers[w], DoAdvance(cfg, s, w);
    var stmt := Issue(cfg, s.db, c);
    assert Fits(s, w) && Owns(cfg, s, w);
    ExecFrame(s.db, stmt);
    OwnStatement(cfg, s.db, c);
    TaskStatements(cfg, s.db, c);
    assert !TaskResolved(s, d) && !TaskResolved(s', d);
    assert OpenTasks(s.db, d) == Due(s, d);
    OpenersAfterAdvance(cfg, s, w, d);
    if stmt.CreateTask? {
      CountAppend(s.db.tasks, Task(stmt.doc, stmt.reason, Pending), PendingTaskOf(d));
    }
  }

  /** Marking the document PENDING_REVIEW takes over from the open statement. */
  lemma StillOneOpener(cfg: Config, s: Sys, w: nat)
    requires Owned(cfg, s) && Consistent(s) && w < |s.workers| && s.workers[w].At? && s.workers[w].pc.PersistPending?
    ensures !TaskOpened(DoAdvance(cfg, s, w), s.workers[w].doc)
  {
    var c := s.workers[w];
    TaskStatements(cfg, s.db, c);
    forall v | 0 <= v < |s.workers| && v != w && s.workers[v].At? ensures s.workers[v].doc != c.doc {
      if v < w { assert s.workers[v].doc != s.workers[w].doc; } else { assert s.workers[w].doc != s.workers[v].doc; }
    }
  }

  lemma MoverTask(cfg: Config, s: Sys, w: nat)
    requires Owned(cfg, s) && Consistent(s) && w < |s.workers| && s.workers[w].At? && !TaskOpened(s, s.workers[w].doc)
    requires s.workers[w].doc < |s.db.docs|
    ensures !s.workers[w].pc.PersistPending?
    ensures TaskOpened(DoAdvance(cfg, s, w), s.workers[w].doc) == s.workers[w].pc.OpenTask?
    ensures s.workers[w].pc.OpenTask? ==> s.db.docs[s.workers[w].doc].status != PendingReview
  {
    var c, s' := s.workers[w], DoAdvance(cfg, s, w);
    assert Fits(s, w);
    OpenerCounts(s, w);
    OpenerCounts(s', w);
    TaskStatements(cfg, s.db, c);
    forall v | 0 <= v < |s.workers| && v != w ensures s'.workers[v] == s.workers[v] {}
    if TaskOpened(s', c.doc) && !c.pc.OpenTask? {
      OpenersKept(s, s', w, c.doc);
    }
  }

  /** A torn document is PENDING_REVIEW, and workers leave such documents alone. */
  lemma TornKept(cfg: Config, s: Sys, w: nat, d: nat)
    requires Owned(cfg, s) && Consistent(s) && w < |s.workers| && s.workers[w].At? && d < |s.db.docs| && s.db.docs[d].status == PendingReview
    ensures |DoAdvance(cfg, s, w).db.docs| == |s.db.docs| && DoAdvance(cfg, s, w).db.docs[d].status == PendingReview
  {
    var c := s.workers[w];
    assert Fits(s, w) && Owns(cfg, s, w);
    ExecFrame(s.db, Issue(cfg, s.db, c));
    OwnStatement(cfg, s.db, c);
    if c.doc == d {
      SettledDocsUnwritten(cfg, s.db, c);
    }
  }

  lemma QueueAfterAdvance(cfg: Config, s: Sys, w: nat)
    requires Owned(cfg, s) && Consistent(s) && QueueSound(s) && Atomic(s, Advance(w)) && w < |s.workers| && s.workers[w].At?
    ensures QueueSound(DoAdvance(cfg, s, w))
  {
    var s' := DoAdvance(cfg, s, w);
    ExecFrame(s.db, Issue(cfg, s.db, s.workers[w]));
    forall d | 0 <= d < |s'.db.docs| ensures OpenTasks(s'.db, d) == Due(s', d) {
      DueAfterAdvance(cfg, s, w, d);
    }
    forall d | d in s'.torn ensures d < |s'.db.docs| && s'.db.docs[d].status == PendingReview {
      TornKept(cfg, s, w, d);
    }
  }

  // ----- the reviewer -----

  lemma OpenTaskFound(s: Sys, i: nat)
    requires QueueSound(s) && i < |s.desks| && s.desks[i].Busy? && s.desks[i].step.LoadTask?
    ensures var found := GetPendingByDocument(s.db, s.desks[i].req.doc);
      found.Some? ==> found.value < |s.db.tasks| && s.db.tasks[found.value].doc == s.desks[i].req.doc && s.db.tasks[found.value].status == Pending
  {
  }

  /** While one desk is busy it is the only one, and no worker is opening a task. */
  lemma OnlyThisDesk(s: Sys, i: nat, d: nat)
    requires Consistent(s) && Atomic(s, Review(i)) && i < |s.desks| && s.desks[i].Busy?
    ensures !TaskOpened(s, d) && !TaskOpened(DoReview(s, i), d)
    ensures TaskResolved(s, d) == (s.desks[i].step.MarkDoc? && s.desks[i].req.doc == d)
    ensures TaskResolved(DoReview(s, i), d) == (DoReview(s, i).desks[i].Busy? && DoReview(s, i).desks[i].step.MarkDoc? && s.desks[i].req.doc == d)
  {
    var s' := DoReview(s, i);
    assert forall j :: 0 <= j < |s.desks| && j != i ==> s.desks[j].Free? && s'.desks[j] == s.desks[j];
    assert s'.desks[i].Busy? ==> s'.desks[i].req == s.desks[i].req;
    forall v | 0 <= v < |s.workers| ensures !InTail(s.workers[v]) {}
    if s.desks[i].step.MarkDoc? && s.desks[i].req.doc == d { assert TaskResolved(s, d); }
    if s'.desks[i].Busy? && s'.desks[i].step.MarkDoc? && s.desks[i].req.doc == d { assert TaskResolved(s', d); }
  }

  lemma DueAfterReview(cfg: Config, s: Sys, i: nat, d: nat)
    requires Consistent(s) && QueueSound(s) && Atomic(s, Review(i)) && i < |s.desks| && s.desks[i].Busy? && d < |s.db.docs|
    ensures |DoReview(s, i).db.docs| == |s.db.docs|
    ensures OpenTasks(DoReview(s, i).db, d) == Due(DoReview(s, i), d)
  {
    var s', k := DoReview(s, i), s.desks[i];
    DeskFrame(s, i);
    assert DeskFits(s, i) && HasTask(s, i);
    OnlyThisDesk(s, i, d);
    assert OpenTasks(s.db, d) == Due(s, d);
    if k.step.ResolveTask? && k.req.resolveOk {
      var t := k.step.task;
      CountUpdate(s.db.tasks, t, s.db.tasks[t].(status := DecisionStatus(k.req.decision)), PendingTaskOf(d));
      CountIsPositive(s.db.tasks, t, PendingTaskOf(k.req.doc));
    }
  }

  lemma {:induction false} QueueAfter(cfg: Config, s: Sys, a: Act)
    requires Owned(cfg, s) && Consistent(s) && QueueSound(s) && Atomic(s, a)
    ensures QueueSound(Next(cfg, s, a))
  {
    if Enabled(cfg, s, a) {
      var s' := Next(cfg, s, a);
      match a
      case Upload(_, _) =>
        forall d | 0 <= d < |s'.db.docs| ensures OpenTasks(s'.db, d) == Due(s', d) {
          SameCrew(s, s', d);
          if d == |s.db.docs| {
            NobodyYet(cfg, s, d);
          } else {
            assert OpenTasks(s.db, d) == Due(s, d);
          }
        }
        forall i | 0 <= i < |s'.desks| ensures HasTask(s', i) { assert HasTask(s, i); }
      case Claim(w, o) =>
        forall d | 0 <= d < |s'.db.docs| ensures OpenTasks(s'.db, d) == Due(s', d) {
          OpenersKept(s, s', w, d);
          assert TaskResolved(s', d) == TaskResolved(s, d);
          assert OpenTasks(s.db, d) == Due(s, d);
        }
        forall i | 0 <= i < |s'.desks| ensures HasTask(s', i) { assert HasTask(s, i); }
      case Advance(w) => QueueAfterAdvance(cfg, s, w);
      case OpenReview(i, _) =>
        forall d | 0 <= d < |s'.db.docs| ensures OpenTasks(s'.db, d) == Due(s', d) {
          assert TaskOpened(s', d) == TaskOpened(s, d);
          assert !TaskResolved(s, d);
          assert OpenTasks(s.db, d) == Due(s, d);
        }
        forall j | 0 <= j < |s'.desks| ensures HasTask(s', j) { assert HasTask(s, j); }
      case Review(i) =>
        DeskFrame(s, i);
        assert DeskFits(s, i) && HasTask(s, i);
        forall d | 0 <= d < |s'.db.docs| ensures OpenTasks(s'.db, d) == Due(s', d) {
          DueAfterReview(cfg, s, i, d);
        }
        forall j | 0 <= j < |s'.desks| ensures HasTask(s', j) {
          if j == i && s.desks[i].step.LoadTask? {
            OpenTaskFound(s, i);
            FoundTaskMeansWhole(s, i);
          }
        }
        forall d | d in s'.torn ensures d < |s'.db.docs| && s'.db.docs[d].status == PendingReview {
          TornAfterReview(s, i, d);
        }
    }
  }

  lemma SameCrew(s: Sys, s': Sys, d: nat)
    requires s'.workers == s.workers && s'.desks == s.desks
    ensures TaskOpened(s', d) == TaskOpened(s, d) && TaskResolved(s', d) == TaskResolved(s, d)
  {
  }

  lemma NobodyYet(cfg: Config, s: Sys, d: nat)
    requires Owned(cfg, s) && Consistent(s) && d == |s.db.docs|
    ensures OpenTasks(s.db, d) == 0 && !TaskOpened(s, d) && !TaskResolved(s, d)
  {
    CountIsZero(s.db.tasks, PendingTaskOf(d));
    forall w | 0 <= w < |s.workers| && s.workers[w].At? ensures s.workers[w].doc != d {
      assert Fits(s, w);
    }
    forall i | 0 <= i < |s.desks| && s.desks[i].Busy? && s.desks[i].step.MarkDoc? ensures s.desks[i].req.doc != d {
      assert DeskFits(s, i);
    }
  }

  /** A torn document has no open task, so no later Submit gets past the check. */
  lemma TornAfterReview(s: Sys, i: nat, d: nat)
    requires Consistent(s) && QueueSound(s) && Atomic(s, Review(i)) && i < |s.desks| && s.desks[i].Busy? && d in DoReview(s, i).torn
    ensures d < |DoReview(s, i).db.docs| && DoReview(s, i).db.docs[d].status == PendingReview
  {
    var k := s.desks[i];
    DeskFrame(s, i);
    assert DeskFits(s, i) && HasTask(s, i);
  }

  lemma FoundTaskMeansWhole(s: Sys, i: nat)
    requires Consistent(s) && QueueSound(s) && Atomic(s, Review(i)) && i < |s.desks| && s.desks[i].Busy? && s.desks[i].step.LoadTask?
    ensures GetPendingByDocument(s.db, s.desks[i].req.doc).Some? ==> s.desks[i].req.doc !in s.torn
  {
    var d := s.desks[i].req.doc;
    var found := GetPendingByDocument(s.db, d);
    assert DeskFits(s, i);
    if found.Some? {
      CountIsPositive(s.db.tasks, found.value, PendingTaskOf(d));
      OnlyThisDesk(s, i, d);
      assert OpenTasks(s.db, d) == Due(s, d);
    }
  }

  // ----- the tenant's queue -----

  predicate InQueue(db: Db, tenant: nat, t: nat) {
    t < |db.tasks| && db.tasks[t].status == Pending && db.tasks[t].doc < |db.docs| && db.docs[db.tasks[t].doc].tenant == tenant
  }

  /** `ListPendingByTenant`: open tasks of the tenant's documents among the first
      `n`, oldest first. */
  function QueueOf(db: Db, tenant: nat, n: nat): (q: seq<nat>)
    ensures forall i :: 0 <= i < |q| ==> q[i] < n && InQueue(db, tenant, q[i])
    ensures forall i, j :: 0 <= i < j < |q| ==> q[i] < q[j]
    ensures forall t :: 0 <= t < n && InQueue(db, tenant, t) ==> t in q
  {
    if n == 0 then []
    else if InQueue(db, tenant, n - 1) then QueueOf(db, tenant, n - 1) + [n - 1]
    else QueueOf(db, tenant, n - 1)
  }

  lemma {:induction false} TwoCount(tasks: seq<Task>, i: nat, j: nat, p: Task -> bool)
    requires i < j < |tasks| && p(tasks[i]) && p(tasks[j])
    ensures Count(tasks, p) >= 2
  {
    var n := |tasks| - 1;
    if j == n {
      CountIsPositive(tasks[..n], i, p);
    } else {
      TwoCount(tasks[..n], i, j, p);
    }
  }

  lemma {:induction false} CountFinds(tasks: seq<Task>, p: Task -> bool) returns (i: nat)
    requires Count(tasks, p) > 0
    ensures i < |tasks| && p(tasks[i])
  {
    if p(tasks[|tasks| - 1]) {
      i := |tasks| - 1;
    } else {
      i := CountFinds(tasks[..|tasks| - 1], p);
    }
  }

  /** One open task per listed document. */
  lemma QueueHasNoRepeats(db: Db, tenant: nat)
    requires forall d :: 0 <= d < |db.docs| ==> OpenTasks(db, d) <= 1
    ensures var q := QueueOf(db, tenant, |db.tasks|);
      forall i, j :: 0 <= i < j < |q| ==> q[i] < q[j] && db.tasks[q[i]].doc != db.tasks[q[j]].doc
  {
    var q := QueueOf(db, tenant, |db.tasks|);
    forall i, j | 0 <= i < j < |q| ensures q[i] < q[j] && db.tasks[q[i]].doc != db.tasks[q[j]].doc {
      var d := db.tasks[q[i]].doc;
      assert InQueue(db, tenant, q[i]) && InQueue(db, tenant, q[j]) && OpenTasks(db, d) <= 1;
      if db.tasks[q[j]].doc == d {
        TwoCount(db.tasks, q[i], q[j], PendingTaskOf(d));
      }
    }
  }

  ghost predicate Lists(db: Db, q: seq<nat>, d: nat) {
    exists i :: 0 <= i < |q| && q[i] < |db.tasks| && db.tasks[q[i]].doc == d
  }

  /** A document is listed exactly when it has an open task. */
  lemma ListedIffOpen(db: Db, tenant: nat, d: nat)
    requires d < |db.docs| && db.docs[d].tenant == tenant
    ensures Lists(db, QueueOf(db, tenant, |db.tasks|), d) <==> OpenTasks(db, d) > 0
  {
    var q := QueueOf(db, tenant, |db.tasks|);
    if OpenTasks(db, d) > 0 {
      var t := CountFinds(db.tasks, PendingTaskOf(d));
      assert InQueue(db, tenant, t);
      var i :| 0 <= i < |q| && q[i] == t;
      assert Lists(db, q, d);
    }
    if Lists(db, q, d) {
      var i :| 0 <= i < |q| && q[i] < |db.tasks| && db.tasks[q[i]].doc == d;
      assert InQueue(db, tenant, q[i]);
      CountIsPositive(db.tasks, q[i], PendingTaskOf(d));
    }
  }

  /** The review queue lists exactly the tenant's PENDING_REVIEW documents that
      are not torn, each once, in the order they were routed. */
  lemma {:induction false} QueueListsPending(cfg: Config, s: Sys, tenant: nat)
    requires Consistent(s) && QueueSound(s) && AtBoundary(s)
    ensures var q := QueueOf(s.db, tenant, |s.db.tasks|);
      && (forall i, j :: 0 <= i < j < |q| ==> q[i] < q[j] && s.db.tasks[q[i]].doc != s.db.tasks[q[j]].doc)
      && (forall t :: t in q ==> t < |s.db.tasks| && s.db.tasks[t].doc < |s.db.docs| && s.db.docs[s.db.tasks[t].doc].tenant == tenant)
      && (forall d :: 0 <= d < |s.db.docs| && s.db.docs[d].tenant == tenant ==>
            (Lists(s.db, q, d) <==> s.db.docs[d].status == PendingReview && d !in s.torn))
  {
    var q := QueueOf(s.db, tenant, |s.db.tasks|);
    forall d | 0 <= d < |s.db.docs| ensures OpenTasks(s.db, d) == if s.db.docs[d].status == PendingReview && d !in s.torn then 1 else 0 {
      assert OpenTasks(s.db, d) == Due(s, d);
      assert !TaskOpened(s, d) && !TaskResolved(s, d);
    }
    QueueHasNoRepeats(s.db, tenant);
    forall d | 0 <= d < |s.db.docs| && s.db.docs[d].tenant == tenant
      ensures Lists(s.db, q, d) <==> s.db.docs[d].status == PendingReview && d !in s.torn
    {
      ListedIffOpen(s.db, tenant, d);
    }
  }
}
