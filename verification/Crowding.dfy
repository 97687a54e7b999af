/** The bound on the runs of one document is reached, in every configuration. */
module Crowding {
  import opened Prelude
  import opened Domain
  import opened Tables
  import opened Pipeline
  import opened Protocol
  import opened Ceiling
  import opened Limits
  import opened SoloRun
  import Outcome
  import Retries
  import Theorems

  /** About to set the document back. */
  ghost predicate HoldsBack(cfg: Config, c: Ctl) {
    c.At? && c == At(Requeue(LoadDocumentFailed, false), 0, c.run, Outage(cfg))
  }

  /** About to mark it FAILED. */
  ghost predicate GivesUp(cfg: Config, c: Ctl) {
    c.At? && c == At(PersistFailed(LoadDocumentFailed, false), 0, c.run, Outage(cfg))
  }

  lemma Joins(cfg: Config, s: Sys, a: seq<Act>, b: seq<Act>)
    ensures Execute(cfg, s, a + b) == Execute(cfg, Execute(cfg, s, a), b)
  {
    ExecuteConcat(cfg, s, a, b);
  }

  // ----- what workers do -----

  lemma FailsAndCounts(cfg: Config, s: Sys, v: nat, n: nat, f: nat) returns (acts: seq<Act>)
    requires Failing(s, n, f, Uploaded) && v < |s.workers| && s.workers[v].Idle?
    ensures var s' := Execute(cfg, s, acts);
      Failing(s', n + 1, f + 1, Uploaded) && s'.workers == s.workers[v := At(WriteDue(cfg, f + 1), 0, n, Outage(cfg))]
  {
    var a := FailsOnce(cfg, s, v, n, f);
    var s1 := Execute(cfg, s, a);
    Counts(cfg, s1, v, n + 1, f + 1, n, Uploaded);
    Joins(cfg, s, a, [Advance(v)]);
    acts := a + [Advance(v)];
    assert s.workers[v := BeforeCount(cfg, n)][v := At(WriteDue(cfg, f + 1), 0, n, Outage(cfg))]
        == s.workers[v := At(WriteDue(cfg, f + 1), 0, n, Outage(cfg))];
  }

  /** What is held back is carried out. */
  lemma SetsBack(cfg: Config, s: Sys, v: nat, n: nat, f: nat, st: Status)
    requires Failing(s, n, f, st) && v < |s.workers| && HoldsBack(cfg, s.workers[v]) && cfg.maxRetries >= 1
    ensures var s' := Execute(cfg, s, [Advance(v)]);
      Failing(s', n, f, Uploaded) && s'.workers == s.workers[v := Idle]
  {
    Writes(cfg, s, v, n, f, 1, s.workers[v].run, st);
  }

  lemma MarksFailed(cfg: Config, s: Sys, v: nat, n: nat, f: nat, st: Status)
    requires Failing(s, n, f, st) && v < |s.workers| && GivesUp(cfg, s.workers[v])
    ensures var s' := Execute(cfg, s, [Advance(v)]);
      Failing(s', n, f, Failed) && s'.workers == s.workers[v := Idle]
  {
    Writes(cfg, s, v, n, f, Max(cfg.maxRetries, 0) + 1, s.workers[v].run, st);
  }

  /** The workers from `a` to `b` fail the document one after the other, and none of
      them writes anything. */
  lemma {:induction false} Rush(cfg: Config, s: Sys, n: nat, f: nat, a: nat, b: nat) returns (acts: seq<Act>)
    requires Failing(s, n, f, Uploaded) && a <= b <= |s.workers| && forall v :: a <= v < b ==> s.workers[v].Idle?
    ensures var s' := Execute(cfg, s, acts);
      && Failing(s', n + (b - a), f + (b - a), Uploaded) && |s'.workers| == |s.workers|
      && (forall v :: 0 <= v < |s.workers| && !(a <= v < b) ==> s'.workers[v] == s.workers[v])
      && (forall v :: a <= v < b ==> if f + 1 + (v - a) <= cfg.maxRetries then HoldsBack(cfg, s'.workers[v]) else GivesUp(cfg, s'.workers[v]))
    decreases b - a
  {
    if a == b {
      acts := [];
    } else {
      var one := FailsAndCounts(cfg, s, a, n, f);
      var s1 := Execute(cfg, s, one);
      var rest := Rush(cfg, s1, n + 1, f + 1, a + 1, b);
      Joins(cfg, s, one, rest);
      acts := one + rest;
      assert s1.workers[a] == At(WriteDue(cfg, f + 1), 0, n, Outage(cfg));
    }
  }

  /** The workers from `a` on give up and are idle again. */
  lemma {:induction false} Clear(cfg: Config, s: Sys, n: nat, f: nat, a: nat, st: Status) returns (acts: seq<Act>, st': Status)
    requires Failing(s, n, f, st) && a <= |s.workers| && forall v :: a <= v < |s.workers| ==> GivesUp(cfg, s.workers[v])
    ensures var s' := Execute(cfg, s, acts);
      && Failing(s', n, f, st') && |s'.workers| == |s.workers|
      && (forall v :: 0 <= v < a ==> s'.workers[v] == s.workers[v]) && (forall v :: a <= v < |s.workers| ==> s'.workers[v].Idle?)
    decreases |s.workers| - a
  {
    if a == |s.workers| {
      acts, st' := [], st;
    } else {
      MarksFailed(cfg, s, a, n, f, st);
      var one, rest := [Advance(a)], [];
      rest, st' := Clear(cfg, Execute(cfg, s, one), n, f, a + 1, Failed);
      Joins(cfg, s, one, rest);
      acts := one + rest;
    }
  }

  /** The first `j` workers hold back a requeue and the others are about to give up. */
  ghost predicate HeldBack(cfg: Config, s: Sys, j: nat) {
    && j <= |s.workers|
    && (forall v :: 0 <= v < j ==> HoldsBack(cfg, s.workers[v])) && (forall v :: j <= v < |s.workers| ==> GivesUp(cfg, s.workers[v]))
  }

  /** One requeue carried out: the worker it frees and all those who gave up fail
      the document again. */
  lemma Reopens(cfg: Config, s: Sys, n: nat, f: nat, j: nat, st: Status) returns (acts: seq<Act>)
    requires Failing(s, n, f, st) && f > cfg.maxRetries >= 1 && j >= 1 && HeldBack(cfg, s, j)
    ensures var s' := Execute(cfg, s, acts);
      && |s'.workers| == |s.workers| && HeldBack(cfg, s', j - 1)
      && Failing(s', n + (|s.workers| - j + 1), f + (|s.workers| - j + 1), Uploaded)
  {
    var a, st' := Clear(cfg, s, n, f, j, st);
    var s1 := Execute(cfg, s, a);
    SetsBack(cfg, s1, j - 1, n, f, st');
    var b := [Advance(j - 1)];
    var c := Rush(cfg, Execute(cfg, s1, b), n, f, j - 1, |s.workers|);
    Joins(cfg, s, a, b);
    Joins(cfg, s, a + b, c);
    acts := a + b + c;
  }

  /** One document, and `n` runs, all of it. */
  ghost predicate AllOfOne(s: Sys, n: int) {
    |s.db.docs| == 1 && |s.db.runs| == n && forall r :: 0 <= r < n ==> s.db.runs[r].doc == 0
  }

  /** All requeues held back are carried out, the last one granted first. */
  lemma {:induction false} Unwinds(cfg: Config, s: Sys, n: nat, f: nat, j: nat, st: Status) returns (acts: seq<Act>)
    requires Failing(s, n, f, st) && f > cfg.maxRetries && (j >= 1 ==> cfg.maxRetries >= 1) && HeldBack(cfg, s, j)
    ensures AllOfOne(Execute(cfg, s, acts), n + Windows(|s.workers|, j))
    decreases j
  {
    if j == 0 {
      acts := [];
    } else {
      var more := |s.workers| - j + 1;
      var a := Reopens(cfg, s, n, f, j, st);
      var b := Unwinds(cfg, Execute(cfg, s, a), n + more, f + more, j - 1, Uploaded);
      Joins(cfg, s, a, b);
      acts := a + b;
    }
  }

  // ----- one requeue at a time -----

  /** One worker fails the document and sets it back. */
  lemma PlainRound(cfg: Config, s: Sys, n: nat, f: nat) returns (acts: seq<Act>)
    requires Failing(s, n, f, Uploaded) && |s.workers| >= 1 && s.workers[0].Idle? && f + 1 <= cfg.maxRetries
    ensures var s' := Execute(cfg, s, acts);
      Failing(s', n + 1, f + 1, Uploaded) && s'.workers == s.workers
  {
    var a := FailsAndCounts(cfg, s, 0, n, f);
    var s1 := Execute(cfg, s, a);
    SetsBack(cfg, s1, 0, n + 1, f + 1, Uploaded);
    Joins(cfg, s, a, [Advance(0)]);
    acts := a + [Advance(0)];
    assert s1.workers[0 := Idle] == s.workers;
  }

  /** A worker that does not recognise the document sends it to review. */
  lemma RoutesIt(cfg: Config, s: Sys, v: nat, n: nat, f: nat) returns (acts: seq<Act>)
    requires Failing(s, n, f, Uploaded) && v < |s.workers| && s.workers[v].Idle? && cfg.maxIterations >= 2
    ensures var s' := Execute(cfg, s, acts);
      Failing(s', n + 1, f, PendingReview) && s'.workers == s.workers
  {
    var o := Classifying(cfg, UNKNOWN_TYPE);
    ClaimsIt(cfg, s, v, n, f, o);
    OneAct(cfg, s, Claim(v, o));
    var s1 := DoClaim(s, v, o, 0);
    var drive := DriveIsAtomicRun(cfg, s1, v);
    Joins(cfg, s, [Claim(v, o)], drive);
    acts := [Claim(v, o)] + drive;
    assert s1.workers[v := Idle] == s.workers;
    RoutedTables(cfg, s, s1, v, n, f);
  }

  lemma RoutedTables(cfg: Config, s: Sys, s1: Sys, v: nat, n: nat, f: nat)
    requires Failing(s, n, f, Uploaded) && cfg.maxIterations >= 2
    requires s1.db == OpenRun(s.db, 0, v)
    ensures var db := Solo(cfg, s1.db, At(Load, 0, n, Classifying(cfg, UNKNOWN_TYPE)));
      && |db.docs| == 1 && db.docs[0].status == PendingReview && |db.runs| == n + 1 && CountFailed(db, 0) == f
      && forall r :: 0 <= r < n + 1 ==> db.runs[r].doc == 0 && db.runs[r].status != Running
  {
    RoutedRow(cfg, s1.db, n);
    var run := Run(0, v, Running, 0);
    CountAppend(s.db.runs, run, FailedRunOf(0));
    CountUpdate(s.db.runs + [run], n, run.(status := Completed, iterations := 2), FailedRunOf(0));
  }

  lemma RoutedRow(cfg: Config, db: Db, r: nat)
    requires Outcome.InHand(db, 0, r) && |db.docs| == 1 && cfg.maxIterations >= 2
    ensures var after := Solo(cfg, db, At(Load, 0, r, Classifying(cfg, UNKNOWN_TYPE)));
      && |after.docs| == 1 && after.docs[0].status == PendingReview
      && after.runs == db.runs[r := db.runs[r].(status := Completed, iterations := 2)]
  {
    var o := Classifying(cfg, UNKNOWN_TYPE);
    Outcome.OutcomeFollowsVerdict(cfg, db, 0, r, o);
    UnrecognisedIsRouted(cfg, Outcome.LookupOf(cfg, db.docs, 0, o));
  }

  /** While one worker holds back its requeue, another completes a run. */
  lemma DoubleRound(cfg: Config, s: Sys, n: nat, f: nat) returns (acts: seq<Act>)
    requires Failing(s, n, f, Uploaded) && |s.workers| >= 2 && s.workers[0].Idle? && s.workers[1].Idle? && f + 1 <= cfg.maxRetries
    requires cfg.maxIterations >= 2
    ensures var s' := Execute(cfg, s, acts);
      Failing(s', n + 2, f + 1, Uploaded) && s'.workers == s.workers
  {
    var a := FailsAndCounts(cfg, s, 0, n, f);
    var s1 := Execute(cfg, s, a);
    var b := RoutesIt(cfg, s1, 1, n + 1, f + 1);
    var s2 := Execute(cfg, s1, b);
    SetsBack(cfg, s2, 0, n + 2, f + 1, PendingReview);
    Joins(cfg, s, a, b);
    Joins(cfg, s, a + b, [Advance(0)]);
    acts := a + b + [Advance(0)];
    assert s2.workers[0 := Idle] == s.workers;
  }

  /** One requeue granted, put to use and carried out. */
  lemma Round(cfg: Config, s: Sys, n: nat, f: nat) returns (acts: seq<Act>)
    requires Failing(s, n, f, Uploaded) && |s.workers| >= 1 && (forall v :: 0 <= v < |s.workers| ==> s.workers[v].Idle?)
    requires f + 1 <= cfg.maxRetries
    ensures var s' := Execute(cfg, s, acts);
      Failing(s', n + Worth(cfg, |s.workers|), f + 1, Uploaded) && s'.workers == s.workers
  {
    if Worth(cfg, |s.workers|) == 2 {
      acts := DoubleRound(cfg, s, n, f);
    } else {
      acts := PlainRound(cfg, s, n, f);
    }
  }

  /** The runs that `m` such rounds make. */
  function Spent(cfg: Config, w: nat, m: nat): nat {
    if Worth(cfg, w) == 2 then 2 * m else m
  }

  lemma {:induction false} Rounds(cfg: Config, s: Sys, n: nat, f: nat, m: nat) returns (acts: seq<Act>)
    requires Failing(s, n, f, Uploaded) && |s.workers| >= 1 && (forall v :: 0 <= v < |s.workers| ==> s.workers[v].Idle?)
    requires f + m <= Max(cfg.maxRetries, 0)
    ensures var s' := Execute(cfg, s, acts);
      Failing(s', n + Spent(cfg, |s.workers|, m), f + m, Uploaded) && s'.workers == s.workers
    decreases m
  {
    if m == 0 {
      acts := [];
    } else {
      var one := Round(cfg, s, n, f);
      var rest := Rounds(cfg, Execute(cfg, s, one), n + Worth(cfg, |s.workers|), f + 1, m - 1);
      Joins(cfg, s, one, rest);
      acts := one + rest;
    }
  }

  // ----- the whole schedule -----

  /** Of `r` requeues, as many as there are other workers are worth holding back. */
  lemma {:induction false} AddedIsWindows(w: nat, worth: nat, r: nat)
    requires w >= 1 && 1 <= worth <= 2 && (worth == 2 ==> w >= 2)
    ensures var h := Min(r, w - 1); Added(w, worth, r) == Windows(w, h) + worth * (r - h)
  {
    if r > 0 {
      AddedIsWindows(w, worth, r - 1);
      var h := Min(r - 1, w - 1);
      assert worth * (r - h) == worth * (r - 1 - h) + worth;
    }
  }

  /** The document has used up the requeues that cannot be held back, and then all
      workers have failed it at once. */
  lemma AllAtOnce(cfg: Config, w: nat, k: nat, r: nat, h: nat) returns (acts: seq<Act>)
    requires w >= 1 && r == Max(cfg.maxRetries, 0) && h == Min(r, w - 1)
    ensures var s, n := Execute(cfg, Start(w, k), acts), Spent(cfg, w, r - h);
      |s.workers| == w && Failing(s, n + w, r - h + w, Uploaded) && HeldBack(cfg, s, h)
  {
    var s0, n := Start(w, k), Spent(cfg, w, r - h);
    var a := Uploads(cfg, w, k);
    var s1 := Execute(cfg, s0, a);
    var b := Rounds(cfg, s1, 0, 0, r - h);
    var c := Rush(cfg, Execute(cfg, s1, b), n, r - h, 0, w);
    Joins(cfg, s0, a, b);
    Joins(cfg, s0, a + b, c);
    acts := a + b + c;
  }

  /** However many workers and however many retries, the bound is reached. First the
      requeues that cannot be held back are used up one at a time; then all workers
      fail the document at once and hold back what they are granted; then the
      requeues held back are carried out one by one, each giving the workers that
      are idle another go. */
  lemma {:induction false} MostRunsReached(cfg: Config, w: nat, k: nat) returns (acts: seq<Act>)
    requires w >= 1
    ensures var s := Execute(cfg, Start(w, k), acts);
      |s.db.docs| == 1 && Count(s.db.runs, Retries.RunOf(0)) == MostRuns(cfg, w)
  {
    var worth, r := Worth(cfg, w), Max(cfg.maxRetries, 0);
    var h := Min(r, w - 1);
    var n := Spent(cfg, w, r - h);
    var a := AllAtOnce(cfg, w, k, r, h);
    var s := Execute(cfg, Start(w, k), a);
    var b := Unwinds(cfg, s, n + w, r - h + w, h, Uploaded);
    Joins(cfg, Start(w, k), a, b);
    acts := a + b;
    AddedIsWindows(w, worth, r);
    AllCounted(Execute(cfg, s, b).db.runs);
  }

  /** The most runs a document can consume is exactly `MostRuns`: no schedule exceeds
      it and one reaches it. */
  lemma {:induction false} MostRunsIsExact(cfg: Config, w: nat, k: nat, m: nat)
    requires w >= 1
    ensures m >= MostRuns(cfg, w) <==>
      forall s, d :: Theorems.Reachable(cfg, w, k, s) && 0 <= d < |s.db.docs| ==> Count(s.db.runs, Retries.RunOf(d)) <= m
  {
    if m >= MostRuns(cfg, w) {
      forall s, d | Theorems.Reachable(cfg, w, k, s) && 0 <= d < |s.db.docs| ensures Count(s.db.runs, Retries.RunOf(d)) <= m {
        RunsAreAtMost(cfg, w, k, s, d);
      }
    } else {
      var acts := MostRunsReached(cfg, w, k);
      assert Theorems.Reachable(cfg, w, k, Execute(cfg, Start(w, k), acts));
    }
  }

  ghost predicate WithinBudget(cfg: Config, s: Sys) {
    forall d :: 0 <= d < |s.db.docs| ==> Count(s.db.runs, Retries.RunOf(d)) <= Max(cfg.maxRetries, 0) + 1
  }

  /** With two workers the bound is beyond the documented total. */
  lemma MoreThanTheBudget(cfg: Config, w: nat)
    requires w >= 2
    ensures MostRuns(cfg, w) >= Max(cfg.maxRetries, 0) + 2
  {
    AddedCoversWindows(w, Worth(cfg, w), Max(cfg.maxRetries, 0), 0);
  }

  /** "MaxRetries + 1 attempts in all" is a guarantee, over all interleavings of
      statements, exactly when there is one worker. */
  lemma {:induction false} BudgetHoldsIffOneWorker(cfg: Config, w: nat, k: nat)
    requires w >= 1
    ensures w == 1 <==> forall acts :: WithinBudget(cfg, Execute(cfg, Start(w, k), acts))
  {
    if w == 1 {
      forall acts ensures WithinBudget(cfg, Execute(cfg, Start(1, k), acts)) {
        Theorems.OneWorkerKeepsOrder(cfg, k, Execute(cfg, Start(1, k), acts));
      }
    } else {
      var acts := MostRunsReached(cfg, w, k);
      MoreThanTheBudget(cfg, w);
      assert !WithinBudget(cfg, Execute(cfg, Start(w, k), acts));
    }
  }
}
