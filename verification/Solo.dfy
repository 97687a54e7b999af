/** One agent run executed without interruption: it is a call-level run of the
    protocol, and what it leaves behind. */
module SoloRun {
  import opened Prelude
  import opened Domain
  import opened Tables
  import opened Pipeline
  import opened Protocol
  import opened CallLevel

  lemma SoloStep(cfg: Config, db: Db, c: Ctl)
    requires c.At?
    ensures Solo(cfg, db, c) == Solo(cfg, Exec(db, Issue(cfg, db, c)), After(cfg, db, c))
  {
  }

  /** The control program issues `stmt` here and goes on to `next`. */
  lemma Moves(cfg: Config, db: Db, c: Ctl, stmt: Stmt, next: Pc)
    requires c.At? && Issue(cfg, db, c) == stmt && Goto(cfg, db, c) == Some(next)
    ensures Solo(cfg, db, c) == Solo(cfg, Exec(db, stmt), c.(pc := next))
    ensures c.doc < |db.docs| ==> c.doc < |Exec(db, stmt).docs| && SameOrigin(Exec(db, stmt).docs[c.doc], db.docs[c.doc])
    ensures TenantOf(Exec(db, stmt), c.doc) == TenantOf(db, c.doc)
  {
    SoloStep(cfg, db, c);
    ExecFrame(db, stmt);
  }

  /** `stmt` is the run's last statement. */
  lemma Ends(cfg: Config, db: Db, c: Ctl, stmt: Stmt)
    requires c.At? && Issue(cfg, db, c) == stmt && Goto(cfg, db, c) == None
    ensures Solo(cfg, db, c) == Exec(db, stmt)
  {
    SoloStep(cfg, db, c);
  }

  /** Worker `w` drives its run to the end while everyone else waits. */
  ghost function Drive(cfg: Config, s: Sys, w: nat): Sys
    requires w < |s.workers|
    decreases if s.workers[w].At? then 1 + Rank(s.workers[w].pc) else 0
  {
    if s.workers[w].Idle? then s
    else
      RankFalls(cfg, s.db, s.workers[w]);
      Drive(cfg, DoAdvance(cfg, s, w), w)
  }

  lemma {:induction false} ExecuteConcat(cfg: Config, s: Sys, a: seq<Act>, b: seq<Act>)
    ensures Execute(cfg, s, a + b) == Execute(cfg, Execute(cfg, s, a), b)
    ensures AtomicRun(cfg, s, a) && AtomicRun(cfg, Execute(cfg, s, a), b) ==> AtomicRun(cfg, s, a + b)
  {
    if b == [] {
      assert a + b == a;
    } else {
      var n := |b| - 1;
      assert (a + b)[..|a + b| - 1] == a + b[..n];
      ExecuteConcat(cfg, s, a, b[..n]);
    }
  }

  ghost predicate OthersOutside(s: Sys, w: nat) {
    && (forall v :: 0 <= v < |s.workers| && v != w ==> !InTail(s.workers[v]))
    && (forall i :: 0 <= i < |s.desks| ==> s.desks[i].Free?)
  }

  /** An uninterrupted run is a run of the protocol, a call-level one if nobody else
      is inside an atomic call: `Solo` computes exactly the tables it reaches. */
  lemma {:induction false} DriveIsAtomicRun(cfg: Config, s: Sys, w: nat) returns (acts: seq<Act>)
    requires w < |s.workers|
    ensures Execute(cfg, s, acts) == Drive(cfg, s, w)
    ensures OthersOutside(s, w) ==> AtomicRun(cfg, s, acts)
    ensures Drive(cfg, s, w).db == Solo(cfg, s.db, s.workers[w])
    ensures Drive(cfg, s, w).workers == s.workers[w := Idle] && Drive(cfg, s, w).desks == s.desks
    decreases if s.workers[w].At? then 1 + Rank(s.workers[w].pc) else 0
  {
    if s.workers[w].Idle? {
      acts := [];
      assert s.workers[w := Idle] == s.workers;
    } else {
      var s' := DoAdvance(cfg, s, w);
      RankFalls(cfg, s.db, s.workers[w]);
      SoloStep(cfg, s.db, s.workers[w]);
      var rest := DriveIsAtomicRun(cfg, s', w);
      OneAdvance(cfg, s, w);
      ExecuteConcat(cfg, s, [Advance(w)], rest);
      acts := [Advance(w)] + rest;
      assert s'.workers[w := Idle] == s.workers[w := Idle];
    }
  }

  lemma OneAdvance(cfg: Config, s: Sys, w: nat)
    requires w < |s.workers| && s.workers[w].At?
    ensures Execute(cfg, s, [Advance(w)]) == DoAdvance(cfg, s, w)
    ensures OthersOutside(s, w) ==> AtomicRun(cfg, s, [Advance(w)])
  {
    var one := [Advance(w)];
    assert one[..0] == [];
    assert Execute(cfg, s, one[..0]) == s && AtomicRun(cfg, s, one[..0]);
    assert Next(cfg, s, Advance(w)) == DoAdvance(cfg, s, w);
  }

  // ----- what a run leaves behind -----

  /** Where the run and its document stand; `f` counts the earlier failures. */
  ghost predicate Underway(cfg: Config, db: Db, c: Ctl, f: nat) {
    c.At? ==>
      && c.doc < |db.docs| && c.run < |db.runs| && db.runs[c.run].doc == c.doc
      && (Live(c.pc) <==> db.runs[c.run].status == Running)
      && CountFailed(db, c.doc) == f + (if EndsFailed(c.pc) then 1 else 0)
      && ((c.pc.Requeue? || c.pc.AuditRetry?) ==> CountFailed(db, c.doc) <= cfg.maxRetries)
      && (c.pc.AuditRetry? ==> db.docs[c.doc].status == Uploaded)
      && (!Undecided(c.pc) && !c.pc.AuditRetry? ==> Settled(db.docs[c.doc].status))
  }

  /** Either the document is settled, or it waits for another of its attempts. */
  ghost predicate Attempted(cfg: Config, db: Db, db': Db, d: nat, r: nat, f: nat) {
    && |db'.docs| == |db.docs| && |db'.runs| == |db.runs| && d < |db.docs| && r < |db.runs|
    && (forall e :: 0 <= e < |db.docs| && e != d ==> db'.docs[e] == db.docs[e])
    && (forall q :: 0 <= q < |db.runs| && q != r ==> db'.runs[q] == db.runs[q])
    && db'.runs[r].doc == db.runs[r].doc && db'.runs[r].status != Running
    && (Settled(db'.docs[d].status) || (db'.docs[d].status == Uploaded && CountFailed(db', d) == f + 1 <= cfg.maxRetries))
  }

  lemma FailingSteps(cfg: Config, db: Db, c: Ctl)
    requires c.At?
    ensures var stmt, next := Issue(cfg, db, c), Goto(cfg, db, c);
      && (next.Some? && EndsFailed(next.value) ==> EndsFailed(c.pc) || (c.pc.FailFinish? && stmt.Finish?))
      && (EndsFailed(c.pc) && next.Some? ==> EndsFailed(next.value) && !stmt.Finish?)
      && (stmt.Finish? && !c.pc.FailFinish? ==> stmt.result == Completed)
  {
  }

  lemma DecidingSteps(cfg: Config, db: Db, c: Ctl, next: Pc)
    requires c.At? && Goto(cfg, db, c) == Some(next) && !Undecided(next)
    ensures var stmt := Issue(cfg, db, c);
      if next.AuditRetry? then c.pc.Requeue?
      else (SetsStatus(stmt) && Settled(StatusWritten(stmt))) || (!Undecided(c.pc) && !c.pc.AuditRetry? && !TouchesDoc(stmt))
  {
  }

  lemma StaysUnderway(cfg: Config, db: Db, c: Ctl, f: nat)
    requires c.At? && Underway(cfg, db, c, f)
    ensures Underway(cfg, Exec(db, Issue(cfg, db, c)), After(cfg, db, c), f)
  {
    var stmt := Issue(cfg, db, c);
    ExecFrame(db, stmt);
    OwnStatement(cfg, db, c);
    FinishEndsLife(cfg, db, c);
    StatusWrites(cfg, db, c);
    EntersFail(cfg, db, c);
    FailingSteps(cfg, db, c);
    var next := Goto(cfg, db, c);
    if next.Some? && !Undecided(next.value) {
      DecidingSteps(cfg, db, c, next.value);
    }
    if stmt.Finish? {
      CountUpdate(db.runs, c.run, db.runs[c.run].(status := stmt.result, iterations := stmt.iterations), FailedRunOf(c.doc));
    }
  }

  lemma EndsAttempted(cfg: Config, db: Db, c: Ctl, f: nat)
    requires c.At? && Underway(cfg, db, c, f) && Goto(cfg, db, c).None?
    ensures Attempted(cfg, db, Exec(db, Issue(cfg, db, c)), c.doc, c.run, f)
  {
    ExecFrame(db, Issue(cfg, db, c));
    OwnStatement(cfg, db, c);
    FinishEndsLife(cfg, db, c);
    LastStatements(cfg, db, c);
  }

  lemma LastStatements(cfg: Config, db: Db, c: Ctl)
    requires c.At? && Goto(cfg, db, c).None?
    ensures (!Undecided(c.pc) && !TouchesDoc(Issue(cfg, db, c))) || c.pc.Requeue? || (c.pc.PersistFailed? && Issue(cfg, db, c).MarkFailed?)
    ensures c.pc.AuditRetry? ==> EndsFailed(c.pc)
  {
  }

  lemma AttemptedBefore(cfg: Config, db: Db, mid: Db, db': Db, d: nat, r: nat, f: nat)
    requires Attempted(cfg, mid, db', d, r, f)
    requires |mid.docs| == |db.docs| && |mid.runs| == |db.runs|
    requires forall e :: 0 <= e < |db.docs| && e != d ==> mid.docs[e] == db.docs[e]
    requires forall q :: 0 <= q < |db.runs| && q != r ==> mid.runs[q] == db.runs[q]
    requires mid.runs[r].doc == db.runs[r].doc
    ensures Attempted(cfg, db, db', d, r, f)
  {
  }

  /** Every run ends, and ends one way or the other. */
  lemma {:induction false} SoloAttempts(cfg: Config, db: Db, c: Ctl, f: nat)
    requires c.At? && Underway(cfg, db, c, f)
    ensures Attempted(cfg, db, Solo(cfg, db, c), c.doc, c.run, f)
    decreases Rank(c.pc)
  {
    var mid, c' := Exec(db, Issue(cfg, db, c)), After(cfg, db, c);
    SoloStep(cfg, db, c);
    RankFalls(cfg, db, c);
    if c'.Idle? {
      EndsAttempted(cfg, db, c, f);
    } else {
      StaysUnderway(cfg, db, c, f);
      SoloAttempts(cfg, mid, c', f);
      ExecFrame(db, Issue(cfg, db, c));
      OwnStatement(cfg, db, c);
      AttemptedBefore(cfg, db, mid, Solo(cfg, db, c), c.doc, c.run, f);
    }
  }

  // ----- the two ways out, table by table -----

  /** The document goes back to the queue: the failure can be retried, and this one
      included the document has failed no more than MaxRetries times. */
  predicate TriesAgain(cfg: Config, failures: nat, cause: FailReason, o: Outcomes) {
    cause != MaxIterationsExceeded && o.countOk && failures <= cfg.maxRetries
  }

  function EntryOfRun(tenant: nat, action: Action, entity: Entity, r: nat): Entry {
    Entry(tenant, Agent, action, entity, Some(r))
  }

  /** `fail` as a whole: the run is FAILED, the document waits again or is FAILED
      too, and one entry says which, unless the tenant is unknown. */
  function AfterFail(cfg: Config, db: Db, d: nat, r: nat, its: nat, cause: FailReason, known: bool, o: Outcomes): Db
    requires d < |db.docs| && r < |db.runs|
  {
    var again := TriesAgain(cfg, CountFailed(db, d) + 1, cause, o);
    var action := if again then RunRetrying(cause) else RunFailedFor(cause);
    db.(runs := db.runs[r := db.runs[r].(status := RunFailed, iterations := its)],
        docs := db.docs[d := db.docs[d].(status := if again then Uploaded else Failed)],
        audit := if known then db.audit + [EntryOfRun(db.docs[d].tenant, action, OfRun(r), r)] else db.audit)
  }

  /** `routeToReview` as a whole: an open task, the document PENDING_REVIEW with the
      confidence its reason calls for, the run COMPLETED, one entry. */
  ghost function AfterRoute(db: Db, d: nat, r: nat, its: nat, reason: ReviewReason, o: Outcomes): Db
    requires d < |db.docs| && r < |db.runs|
  {
    var doc := db.docs[d];
    db.(runs := db.runs[r := db.runs[r].(status := Completed, iterations := its)],
        docs := db.docs[d := doc.(status := PendingReview,
                                  classConf := if reason == UnknownType then Some(o.confidence) else doc.classConf,
                                  overallConf := if reason == LowConfidence then Some(Overall(o)) else doc.overallConf)],
        tasks := db.tasks + [Task(d, reason, Pending)],
        audit := db.audit + [EntryOfRun(doc.tenant, DocRouted(reason), OfDocument(d), r)])
  }

  lemma {:induction false} RunFails(cfg: Config, db: Db, c: Ctl)
    requires c.At? && c.pc.FailFinish? && c.doc < |db.docs| && c.run < |db.runs|
    requires db.runs[c.run].doc == c.doc && db.runs[c.run].status == Running
    ensures Solo(cfg, db, c) == AfterFail(cfg, db, c.doc, c.run, c.pc.its, c.pc.cause, c.pc.known, c.o)
  {
    var cause, known := c.pc.cause, c.pc.known;
    var finished := db.runs[c.run].(status := RunFailed, iterations := c.pc.its);
    var done := db.(runs := db.runs[c.run := finished]);
    CountUpdate(db.runs, c.run, finished, FailedRunOf(c.doc));
    SoloStep(cfg, db, c);
    assert Exec(db, Issue(cfg, db, c)) == done;
    if cause == MaxIterationsExceeded {
      GivesUp(cfg, done, c.(pc := PersistFailed(cause, known)));
    } else {
      CountsFailures(cfg, done, c.(pc := FailCount(cause, known)));
    }
  }

  lemma {:induction false} CountsFailures(cfg: Config, db: Db, c: Ctl)
    requires c.At? && c.pc.FailCount? && c.pc.cause != MaxIterationsExceeded && c.doc < |db.docs|
    ensures var again := TriesAgain(cfg, CountFailed(db, c.doc), c.pc.cause, c.o);
      var marked := db.(docs := db.docs[c.doc := db.docs[c.doc].(status := if again then Uploaded else Failed)]);
      var action := if again then RunRetrying(c.pc.cause) else RunFailedFor(c.pc.cause);
      Solo(cfg, db, c) ==
        marked.(audit := if c.pc.known then db.audit + [EntryOfRun(db.docs[c.doc].tenant, action, OfRun(c.run), c.run)] else db.audit)
  {
    SoloStep(cfg, db, c);
    if TriesAgain(cfg, CountFailed(db, c.doc), c.pc.cause, c.o) {
      Requeues(cfg, db, c.(pc := Requeue(c.pc.cause, c.pc.known)));
    } else {
      GivesUp(cfg, db, c.(pc := PersistFailed(c.pc.cause, c.pc.known)));
    }
  }

  lemma {:induction false} GivesUp(cfg: Config, db: Db, c: Ctl)
    requires c.At? && c.pc.PersistFailed? && c.doc < |db.docs|
    ensures var marked := db.(docs := db.docs[c.doc := db.docs[c.doc].(status := Failed)]);
      var entry := EntryOfRun(db.docs[c.doc].tenant, RunFailedFor(c.pc.cause), OfRun(c.run), c.run);
      Solo(cfg, db, c) == marked.(audit := if c.pc.known then db.audit + [entry] else db.audit)
  {
    SoloStep(cfg, db, c);
    if c.pc.known {
      SoloStep(cfg, Exec(db, Issue(cfg, db, c)), c.(pc := AuditFailed(c.pc.cause)));
    }
  }

  lemma {:induction false} Requeues(cfg: Config, db: Db, c: Ctl)
    requires c.At? && c.pc.Requeue? && c.doc < |db.docs|
    ensures var marked := db.(docs := db.docs[c.doc := db.docs[c.doc].(status := Uploaded)]);
      var entry := EntryOfRun(db.docs[c.doc].tenant, RunRetrying(c.pc.cause), OfRun(c.run), c.run);
      Solo(cfg, db, c) == marked.(audit := if c.pc.known then db.audit + [entry] else db.audit)
  {
    SoloStep(cfg, db, c);
    if c.pc.known {
      SoloStep(cfg, Exec(db, Issue(cfg, db, c)), c.(pc := AuditRetry(c.pc.cause)));
    }
  }

  lemma {:induction false} RunIsRouted(cfg: Config, db: Db, c: Ctl)
    requires c.At? && c.pc.OpenTask? && c.doc < |db.docs| && c.run < |db.runs|
    ensures Solo(cfg, db, c) == AfterRoute(db, c.doc, c.run, c.pc.its, c.pc.reason, c.o)
  {
    var pending := c.(pc := PersistPending(c.pc.its, c.pc.reason));
    SoloStep(cfg, db, c);
    var db1 := Exec(db, Issue(cfg, db, c));
    SoloStep(cfg, db1, pending);
    RouteCloses(cfg, Exec(db1, Issue(cfg, db1, pending)), c.(pc := FinishReview(c.pc.its, c.pc.reason)));
  }

  lemma {:induction false} RouteCloses(cfg: Config, db: Db, c: Ctl)
    requires c.At? && c.pc.FinishReview? && c.doc < |db.docs| && c.run < |db.runs|
    ensures Solo(cfg, db, c) ==
      db.(runs := db.runs[c.run := db.runs[c.run].(status := Completed, iterations := c.pc.its)],
          audit := db.audit + [EntryOfRun(db.docs[c.doc].tenant, DocRouted(c.pc.reason), OfDocument(c.doc), c.run)])
  {
    SoloStep(cfg, db, c);
    SoloStep(cfg, Exec(db, Issue(cfg, db, c)), c.(pc := AuditRouted(c.pc.reason)));
  }
}
