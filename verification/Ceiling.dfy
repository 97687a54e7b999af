/** The most runs a document can consume, under every interleaving of statements:
    an upper bound for any number of workers. */
module Ceiling {
  import opened Prelude
  import opened Domain
  import opened Tables
  import opened Pipeline
  import opened Protocol
  import opened Ownership
  import opened Retries
  import Gates
  import Theorems

  // ----- the number -----

  /** How many runs a requeue is good for that is carried out before the next one is
      granted: its own failed run, and one that ends without a failure while the
      requeue is held back, if a run can end so and somebody is there to make it. */
  function Worth(cfg: Config, w: nat): nat {
    if w >= 2 && cfg.maxIterations >= 2 then 2 else 1
  }

  /** What `r` requeues add to the runs: the one carried out while `t` others are held
      back opens a window for the other `w - t` workers. */
  function Added(w: nat, worth: nat, r: nat): nat {
    if r == 0 then 0 else Added(w, worth, r - 1) + Max(w - (r - 1), worth)
  }

  function MostRuns(cfg: Config, w: nat): nat {
    w + Added(w, Worth(cfg, w), Max(cfg.maxRetries, 0))
  }

  /** The runs that `h` requeues held back at the same time still make possible. */
  function Windows(w: nat, h: nat): int {
    if h == 0 then 0 else Windows(w, h - 1) + w - (h - 1)
  }

  lemma {:induction false} AddedCoversWindows(w: nat, worth: nat, r: nat, h: nat)
    requires h <= r
    ensures Added(w, worth, r) >= Windows(w, h) + worth * (r - h)
  {
    if h < r {
      AddedCoversWindows(w, worth, r - 1, h);
      assert worth * (r - h) == worth * (r - 1 - h) + worth;
    } else if r > 0 {
      AddedCoversWindows(w, worth, r - 1, h - 1);
    }
  }

  lemma {:induction false} WindowsAreNatural(w: nat, h: nat)
    requires h <= w
    ensures Windows(w, h) >= 0
  {
    if h > 0 {
      WindowsAreNatural(w, h - 1);
    }
  }

  // ----- runs that do not fail -----

  /** The worker is in a run of the document that can still end either way. */
  predicate Chooses(c: Ctl, d: nat) {
    c.At? && c.doc == d && Live(c.pc) && Undecided(c.pc)
  }

  ghost predicate Choosing(s: Sys, d: nat) {
    exists v :: 0 <= v < |s.workers| && Chooses(s.workers[v], d)
  }

  ghost function Runs(s: Sys, d: nat): nat {
    Count(s.db.runs, RunOf(d))
  }

  /** How many runs may have ended without a failure: one per window, if any can. */
  ghost function Spare(cfg: Config, s: Sys, d: nat): nat
    requires d < |s.requeues|
  {
    if cfg.maxIterations >= 2 then s.requeues[d] else 0
  }

  /** Runs that have not failed: at most one for every requeue, and one more. */
  ghost predicate FewSucceed(cfg: Config, s: Sys, d: nat)
    requires d < |s.db.docs| == |s.requeues|
  {
    var z := Runs(s, d) - CountFailed(s.db, d);
    && z <= Spare(cfg, s, d) + 1
    && (!Choosing(s, d) && (s.db.docs[d].status == Uploaded || cfg.maxIterations < 2) ==> z <= Spare(cfg, s, d))
  }

  // ----- runs that are left -----

  function DecidingOn(d: nat): Ctl -> bool {
    (c: Ctl) => Deciding(c, d)
  }

  /** No further requeue will be granted. */
  predicate Exhausted(cfg: Config, db: Db, d: nat) {
    CountFailed(db, d) > cfg.maxRetries
  }

  /** The workers that may still claim the document before anything else happens to it. */
  ghost function Claimers(s: Sys, d: nat): int
    requires d < |s.db.docs|
  {
    if s.db.docs[d].status == Uploaded then |s.workers| - Count(s.workers, DecidingOn(d)) else 0
  }

  ghost function Ceiling(cfg: Config, w: nat): nat {
    w + Added(w, if cfg.maxIterations >= 2 then 2 else 1, Max(cfg.maxRetries, 0))
  }

  /** Once no requeue is granted any more, those held back bound what is left. */
  ghost predicate FewLeft(cfg: Config, s: Sys, d: nat)
    requires d < |s.db.docs|
  {
    Exhausted(cfg, s.db, d) ==>
      Runs(s, d) + Claimers(s, d) + Windows(|s.workers|, Count(s.workers, Requeueing(d))) <= Ceiling(cfg, |s.workers|)
  }

  ghost predicate UnderCeiling(cfg: Config, s: Sys) {
    |s.requeues| == |s.db.docs| && forall d :: 0 <= d < |s.db.docs| ==> FewSucceed(cfg, s, d) && FewLeft(cfg, s, d)
  }

  // ----- one step of a worker -----

  lemma StopsAtTwo(cfg: Config, o: Outcomes, l: Gates.Lookup)
    requires cfg.maxIterations < 2
    ensures Gates.VerdictOf(cfg, o, l).ending.Fails?
  {
  }

  /** Below a cap of 2 every run fails. */
  lemma NoSuccessBelowTwo(cfg: Config, s: Sys, w: nat)
    requires w < |s.workers| && s.workers[w].At? && Gates.OnCourse(cfg, s, w) && cfg.maxIterations < 2
    requires var stmt := Issue(cfg, s.db, s.workers[w]); SetsStatus(stmt) && Settled(StatusWritten(stmt))
    ensures s.workers[w].pc.PersistFailed?
  {
    var c := s.workers[w];
    WritesSettled(cfg, s.db, c);
    StopsAtTwo(cfg, c.o, Gates.LookupIn(Gates.RunTools(s.db.tools, c.run)));
  }

  lemma WritesSettled(cfg: Config, db: Db, c: Ctl)
    requires c.At? && SetsStatus(Issue(cfg, db, c)) && Settled(StatusWritten(Issue(cfg, db, c)))
    ensures c.pc.PersistFailed? || c.pc.PersistPending? || c.pc.PersistAuto?
  {
  }

  /** How a worker stops choosing. */
  lemma StopsChoosing(cfg: Config, s: Sys, w: nat)
    requires w < |s.workers| && s.workers[w].At? && Gates.OnCourse(cfg, s, w) && Chooses(s.workers[w], s.workers[w].doc)
    ensures var c := s.workers[w];
      var stmt, c' := Issue(cfg, s.db, c), After(cfg, s.db, c);
      Chooses(c', c.doc) || c.pc.FailFinish? || (SetsStatus(stmt) && StatusWritten(stmt) != Uploaded && cfg.maxIterations >= 2)
  {
    var c := s.workers[w];
    var stmt := Issue(cfg, s.db, c);
    StatusWrites(cfg, s.db, c);
    FinishEndsLife(cfg, s.db, c);
    FinishesUndecided(cfg, s.db, c);
    if SetsStatus(stmt) && Settled(StatusWritten(stmt)) && cfg.maxIterations < 2 {
      NoSuccessBelowTwo(cfg, s, w);
    }
  }

  lemma FinishesUndecided(cfg: Config, db: Db, c: Ctl)
    requires c.At?
    ensures Issue(cfg, db, c).Finish? && Undecided(c.pc) ==> c.pc.FailFinish?
    ensures c.pc.FailFinish? ==> Issue(cfg, db, c).Finish? && Issue(cfg, db, c).result == RunFailed
    ensures Issue(cfg, db, c).Finish? && Issue(cfg, db, c).result == RunFailed ==> c.pc.FailFinish?
  {
  }

  /** The runs and failures of a document after a worker's statement. */
  lemma RunsAfterAdvance(cfg: Config, s: Sys, w: nat, d: nat)
    requires Owned(cfg, s) && w < |s.workers| && s.workers[w].At?
    ensures var s', c := DoAdvance(cfg, s, w), s.workers[w];
      && Runs(s', d) == Runs(s, d)
      && CountFailed(s'.db, d) == CountFailed(s.db, d) + if c.pc.FailFinish? && c.doc == d then 1 else 0
  {
    var c := s.workers[w];
    var stmt := Issue(cfg, s.db, c);
    assert Owns(cfg, s, w);
    ExecFrame(s.db, stmt);
    OwnStatement(cfg, s.db, c);
    FinishesUndecided(cfg, s.db, c);
    FinishEndsLife(cfg, s.db, c);
    if stmt.Finish? {
      var run := s.db.runs[c.run].(status := stmt.result, iterations := stmt.iterations);
      CountUpdate(s.db.runs, c.run, run, RunOf(d));
      CountUpdate(s.db.runs, c.run, run, FailedRunOf(d));
    }
  }

  lemma ChoosersKept(s: Sys, s': Sys, w: nat, d: nat)
    requires |s'.workers| == |s.workers| && w < |s.workers| && (forall v :: 0 <= v < |s.workers| && v != w ==> s'.workers[v] == s.workers[v])
    ensures Choosing(s, d) ==> Choosing(s', d) || Chooses(s.workers[w], d)
    ensures Chooses(s'.workers[w], d) ==> Choosing(s', d)
  {
    if Choosing(s, d) && !Chooses(s.workers[w], d) {
      var v :| 0 <= v < |s.workers| && Chooses(s.workers[v], d);
      assert Chooses(s'.workers[v], d);
    }
  }

  lemma FewSucceedAfterAdvance(cfg: Config, s: Sys, w: nat, d: nat)
    requires Owned(cfg, s) && w < |s.workers| && s.workers[w].At? && Gates.OnCourse(cfg, s, w)
    requires d < |s.db.docs| && FewSucceed(cfg, s, d)
    ensures |DoAdvance(cfg, s, w).db.docs| == |DoAdvance(cfg, s, w).requeues| == |s.db.docs|
    ensures FewSucceed(cfg, DoAdvance(cfg, s, w), d)
  {
    var c, s' := s.workers[w], DoAdvance(cfg, s, w);
    assert Owns(cfg, s, w);
    RunsAfterAdvance(cfg, s, w, d);
    ExecFrame(s.db, Issue(cfg, s.db, c));
    OwnStatement(cfg, s.db, c);
    StatusWrites(cfg, s.db, c);
    ChoosersKept(s, s', w, d);
    if Chooses(c, d) {
      StopsChoosing(cfg, s, w);
    }
  }

  /** The workers deciding on a document, and those holding back its requeue. */
  lemma DecidersAfterAdvance(cfg: Config, s: Sys, w: nat, d: nat)
    requires Owned(cfg, s) && w < |s.workers| && s.workers[w].At? && d < |s.db.docs|
    ensures var s', c := DoAdvance(cfg, s, w), s.workers[w];
      var deciding, deciding' := Count(s.workers, DecidingOn(d)), Count(s'.workers, DecidingOn(d));
      var held, held' := Count(s.workers, Requeueing(d)), Count(s'.workers, Requeueing(d));
      && |s'.db.docs| == |s.db.docs|
      && (c.pc.Requeue? && c.doc == d ==> deciding' == deciding - 1 && held' == held - 1 && s'.db.docs[d].status == Uploaded)
      && (!(c.pc.Requeue? && c.doc == d) && s'.db.docs[d].status == Uploaded ==> deciding' == deciding && s.db.docs[d].status == Uploaded)
      && (!(c.pc.Requeue? && c.doc == d) && Exhausted(cfg, s.db, d) ==> held' == held)
      && (c.pc.FailFinish? && c.doc == d ==> held' == held && deciding' == deciding)
  {
    var c, c' := s.workers[w], After(cfg, s.db, s.workers[w]);
    assert Owns(cfg, s, w);
    ExecFrame(s.db, Issue(cfg, s.db, c));
    OwnStatement(cfg, s.db, c);
    StatusWrites(cfg, s.db, c);
    EntersFail(cfg, s.db, c);
    LeavesRequeue(cfg, s.db, c);
    CountUpdate(s.workers, w, c', DecidingOn(d));
    CountUpdate(s.workers, w, c', Requeueing(d));
  }

  lemma LeavesRequeue(cfg: Config, db: Db, c: Ctl)
    requires c.At?
    ensures var next := Goto(cfg, db, c);
      && (c.pc.Requeue? ==> Undecided(c.pc) && !(next.Some? && (Undecided(next.value) || next.value.Requeue?)))
      && (c.pc.FailFinish? ==> Undecided(c.pc) && next.Some? && Undecided(next.value) && !next.value.Requeue?)
  {
  }

  lemma {:induction false} FewerOf<T>(s: seq<T>, p: T -> bool, q: T -> bool)
    requires forall i :: 0 <= i < |s| && p(s[i]) ==> q(s[i])
    ensures Count(s, p) <= Count(s, q) <= |s|
  {
    if s != [] {
      FewerOf(s[..|s| - 1], p, q);
    }
  }

  lemma {:induction false} StrictlyFewerOf<T>(s: seq<T>, p: T -> bool, q: T -> bool, i: nat)
    requires i < |s| && q(s[i]) && !p(s[i]) && forall j :: 0 <= j < |s| && p(s[j]) ==> q(s[j])
    ensures Count(s, p) < Count(s, q)
  {
    if i < |s| - 1 {
      StrictlyFewerOf(s[..|s| - 1], p, q, i);
    } else {
      FewerOf(s[..|s| - 1], p, q);
    }
  }

  /** The failure that exhausts the budget: what has been granted and not yet carried
      out is all that is left. */
  lemma Exhausts(cfg: Config, s: Sys, w: nat, d: nat)
    requires Owned(cfg, s) && RetriesBounded(cfg, s) && w < |s.workers| && s.workers[w].At? && d < |s.db.docs|
    requires s.workers[w].pc.FailFinish? && s.workers[w].doc == d && FewSucceed(cfg, s, d)
    requires CountFailed(s.db, d) == cfg.maxRetries
    ensures var held, deciding := Count(s.workers, Requeueing(d)), Count(s.workers, DecidingOn(d));
      Runs(s, d) + |s.workers| - deciding + Windows(|s.workers|, held) <= Ceiling(cfg, |s.workers|) && deciding <= |s.workers|
  {
    var held, r := Count(s.workers, Requeueing(d)), cfg.maxRetries;
    assert Backed(cfg, s, d);
    StrictlyFewerOf(s.workers, Requeueing(d), DecidingOn(d), w);
    FewerOf(s.workers, DecidingOn(d), DecidingOn(d));
    AddedCoversWindows(|s.workers|, if cfg.maxIterations >= 2 then 2 else 1, r, held);
  }

  lemma FewLeftAfterAdvance(cfg: Config, s: Sys, w: nat, d: nat)
    requires Owned(cfg, s) && RetriesBounded(cfg, s) && w < |s.workers| && s.workers[w].At? && d < |s.db.docs|
    requires FewSucceed(cfg, s, d) && FewLeft(cfg, s, d)
    ensures |DoAdvance(cfg, s, w).db.docs| == |s.db.docs|
    ensures FewLeft(cfg, DoAdvance(cfg, s, w), d)
  {
    var c, s' := s.workers[w], DoAdvance(cfg, s, w);
    RunsAfterAdvance(cfg, s, w, d);
    DecidersAfterAdvance(cfg, s, w, d);
    FewerOf(s.workers, Requeueing(d), DecidingOn(d));
    if !Exhausted(cfg, s.db, d) && Exhausted(cfg, s'.db, d) {
      Exhausts(cfg, s, w, d);
    }
  }

  // ----- the other steps -----

  lemma UnderCeilingAfterClaim(cfg: Config, s: Sys, w: nat, o: Outcomes, d: nat)
    requires Owned(cfg, s) && w < |s.workers| && s.workers[w].Idle? && CanClaim(s.db) && d < |s.db.docs|
    requires FewSucceed(cfg, s, d) && FewLeft(cfg, s, d)
    ensures FewSucceed(cfg, DoClaim(s, w, o, Claimed(s)), d) && FewLeft(cfg, DoClaim(s, w, o, Claimed(s)), d)
  {
    var s' := DoClaim(s, w, o, Claimed(s));
    var run := Run(Claimed(s), w, Running, 0);
    CountAppend(s.db.runs, run, RunOf(d));
    CountAppend(s.db.runs, run, FailedRunOf(d));
    CountUpdate(s.workers, w, s'.workers[w], DecidingOn(d));
    CountUpdate(s.workers, w, s'.workers[w], Requeueing(d));
    ChoosersKept(s, s', w, d);
    if d == Claimed(s) && Choosing(s, d) {
      var v :| 0 <= v < |s.workers| && Chooses(s.workers[v], d);
      assert Owns(cfg, s, v);
      assert HasRunning(s.db, d);
    }
  }

  lemma NewUnderCeiling(cfg: Config, s: Sys, tenant: nat, contentHash: string)
    requires Owned(cfg, s)
    ensures var s', d := DoUpload(s, tenant, contentHash), |s.db.docs|;
      |s'.requeues| == |s'.db.docs| == d + 1 && FewSucceed(cfg, s', d) && FewLeft(cfg, s', d)
  {
    var s', d := DoUpload(s, tenant, contentHash), |s.db.docs|;
    forall r | 0 <= r < |s.db.runs| ensures !RunOf(d)(s.db.runs[r]) && !FailedRunOf(d)(s.db.runs[r]) {
      assert Driven(s, r);
    }
    CountIsZero(s.db.runs, RunOf(d));
    CountIsZero(s.db.runs, FailedRunOf(d));
    forall v | 0 <= v < |s.workers| ensures !Requeueing(d)(s.workers[v]) {
      assert Owns(cfg, s, v);
    }
    CountIsZero(s.workers, Requeueing(d));
  }

  /** An upload or a reviewer changes nothing that counts here. */
  lemma CeilingFramed(cfg: Config, s: Sys, s': Sys, d: nat)
    requires d < |s.db.docs| == |s.requeues| && FewSucceed(cfg, s, d) && FewLeft(cfg, s, d)
    requires s'.workers == s.workers && s'.db.runs == s.db.runs && |s.db.docs| <= |s'.db.docs| == |s'.requeues|
    requires s'.requeues[d] == s.requeues[d] && (s'.db.docs[d].status == s.db.docs[d].status || s'.db.docs[d].status == Reviewed)
    ensures FewSucceed(cfg, s', d) && FewLeft(cfg, s', d)
  {
    assert Choosing(s', d) == Choosing(s, d);
    FewerOf(s.workers, DecidingOn(d), DecidingOn(d));
  }

  lemma {:induction false} CeilingAfter(cfg: Config, s: Sys, a: Act)
    requires Owned(cfg, s) && RetriesBounded(cfg, s) && Gates.TracesFollowVerdicts(cfg, s) && UnderCeiling(cfg, s)
    ensures UnderCeiling(cfg, Next(cfg, s, a))
  {
    if Enabled(cfg, s, a) {
      var s' := Next(cfg, s, a);
      if a.Advance? {
        ExecFrame(s.db, Issue(cfg, s.db, s.workers[a.w]));
        assert Gates.OnCourse(cfg, s, a.w);
      } else if a.Review? {
        DeskFrame(s, a.i);
      } else if a.Upload? {
        NewUnderCeiling(cfg, s, a.tenant, a.contentHash);
      }
      forall d | 0 <= d < |s.db.docs| ensures FewSucceed(cfg, s', d) && FewLeft(cfg, s', d) {
        match a
        case Advance(w) =>
          FewSucceedAfterAdvance(cfg, s, w, d);
          FewLeftAfterAdvance(cfg, s, w, d);
        case Claim(w, o) => UnderCeilingAfterClaim(cfg, s, w, o, d);
        case _ => CeilingFramed(cfg, s, s', d);
      }
    }
  }

  lemma {:induction false} CeilingHolds(cfg: Config, w: nat, k: nat, acts: seq<Act>)
    ensures UnderCeiling(cfg, Execute(cfg, Start(w, k), acts))
  {
    if acts != [] {
      var n := |acts| - 1;
      CeilingHolds(cfg, w, k, acts[..n]);
      Theorems.Invariants(cfg, w, k, acts[..n]);
      CeilingAfter(cfg, Execute(cfg, Start(w, k), acts[..n]), acts[n]);
    }
  }

  // ----- the bound -----

  lemma UnderCeilingMeans(cfg: Config, s: Sys, d: nat)
    requires RetriesBounded(cfg, s) && UnderCeiling(cfg, s) && d < |s.db.docs| && |s.workers| >= 1
    ensures Runs(s, d) <= Ceiling(cfg, |s.workers|)
  {
    var held, worth := Count(s.workers, Requeueing(d)), if cfg.maxIterations >= 2 then 2 else 1;
    assert FewSucceed(cfg, s, d) && FewLeft(cfg, s, d) && Backed(cfg, s, d);
    FewerOf(s.workers, Requeueing(d), DecidingOn(d));
    WindowsAreNatural(|s.workers|, held);
    AddedCoversWindows(|s.workers|, worth, Max(cfg.maxRetries, 0), 0);
  }

  /** W workers open at most `MostRuns` runs for a document, whatever happens. */
  lemma {:induction false} RunsAreAtMost(cfg: Config, w: nat, k: nat, s: Sys, d: nat)
    requires w >= 1 && Theorems.Reachable(cfg, w, k, s) && d < |s.db.docs|
    ensures Count(s.db.runs, RunOf(d)) <= MostRuns(cfg, w)
  {
    var acts :| s == Execute(cfg, Start(w, k), acts);
    Theorems.ReachableStates(cfg, w, k, s);
    if w == 1 {
      Theorems.RetriesAreBounded(cfg, w, k, s, d);
      AddedCoversWindows(w, 1, Max(cfg.maxRetries, 0), 0);
    } else {
      CeilingHolds(cfg, w, k, acts);
      UnderCeilingMeans(cfg, s, d);
    }
  }
}
