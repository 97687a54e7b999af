/** The bounded-retry policy, under every interleaving of statements: how often
    a document can be set back to UPLOADED and how many runs it can consume. */
module Retries {
  import opened Prelude
  import opened Domain
  import opened Tables
  import opened Pipeline
  import opened Protocol
  import opened Ownership

  // ----- requeues -----

  function Counting(d: nat): Ctl -> bool {
    (c: Ctl) => c.At? && c.pc.FailCount? && c.doc == d
  }

  function Requeueing(d: nat): Ctl -> bool {
    (c: Ctl) => c.At? && c.pc.Requeue? && c.doc == d
  }

  /** Requeues granted so far: those carried out and those about to be. */
  ghost function Licensed(s: Sys, d: nat): nat
    requires d < |s.requeues|
  {
    s.requeues[d] + Count(s.workers, Requeueing(d))
  }

  /** Every licence and every failure still to be counted is backed by a FAILED
      run, because the run is finished before the failures are counted. */
  ghost predicate Backed(cfg: Config, s: Sys, d: nat)
    requires d < |s.requeues|
  {
    && Licensed(s, d) + Count(s.workers, Counting(d)) <= CountFailed(s.db, d)
    && Licensed(s, d) <= Max(cfg.maxRetries, 0)
  }

  ghost predicate RetriesBounded(cfg: Config, s: Sys) {
    |s.requeues| == |s.db.docs| && forall d :: 0 <= d < |s.requeues| ==> Backed(cfg, s, d)
  }

  lemma BackedAfterAdvance(cfg: Config, s: Sys, w: nat, d: nat)
    requires Owned(cfg, s) && w < |s.workers| && s.workers[w].At?
    requires d < |s.requeues| && Backed(cfg, s, d)
    ensures Backed(cfg, DoAdvance(cfg, s, w), d)
  {
    var c, c' := s.workers[w], After(cfg, s.db, s.workers[w]);
    assert Owns(cfg, s, w);
    EntersFail(cfg, s.db, c);
    StatusWrites(cfg, s.db, c);
    FinishEndsLife(cfg, s.db, c);
    OwnStatement(cfg, s.db, c);
    ExecFrame(s.db, Issue(cfg, s.db, c));
    CountUpdate(s.workers, w, c', Counting(d));
    CountUpdate(s.workers, w, c', Requeueing(d));
    if Issue(cfg, s.db, c).Finish? {
      CountUpdate(s.db.runs, c.run, s.db.runs[c.run].(status := Issue(cfg, s.db, c).result, iterations := Issue(cfg, s.db, c).iterations), FailedRunOf(d));
    }
  }

  lemma {:induction false} RetriesBoundedAfter(cfg: Config, s: Sys, a: Act)
    requires Owned(cfg, s) && RetriesBounded(cfg, s)
    ensures RetriesBounded(cfg, Next(cfg, s, a))
  {
    if Enabled(cfg, s, a) {
      var s' := Next(cfg, s, a);
      match a
      case Upload(_, _) =>
        forall d | 0 <= d < |s'.requeues| ensures Backed(cfg, s', d) {
          if d < |s.requeues| {
            assert Backed(cfg, s, d);
          } else {
            forall w | 0 <= w < |s.workers| ensures !Counting(d)(s.workers[w]) && !Requeueing(d)(s.workers[w]) {
              assert Owns(cfg, s, w);
            }
            CountIsZero(s.workers, Counting(d));
            CountIsZero(s.workers, Requeueing(d));
          }
        }
      case Claim(w, o) =>
        forall d | 0 <= d < |s'.requeues| ensures Backed(cfg, s', d) {
          assert Backed(cfg, s, d);
          CountUpdate(s.workers, w, s'.workers[w], Counting(d));
          CountUpdate(s.workers, w, s'.workers[w], Requeueing(d));
          CountAppend(s.db.runs, Run(Claimed(s), w, Running, 0), FailedRunOf(d));
        }
      case Advance(w) =>
        ExecFrame(s.db, Issue(cfg, s.db, s.workers[w]));
        forall d | 0 <= d < |s'.requeues| ensures Backed(cfg, s', d) {
          assert Backed(cfg, s, d);
          BackedAfterAdvance(cfg, s, w, d);
        }
      case OpenReview(_, _) =>
        forall d | 0 <= d < |s'.requeues| ensures Backed(cfg, s', d) {
          assert Backed(cfg, s, d);
        }
      case Review(i) =>
        DeskFrame(s, i);
        forall d | 0 <= d < |s'.requeues| ensures Backed(cfg, s', d) {
          assert Backed(cfg, s, d);
        }
    }
  }

  // ----- runs -----

  function OpenedBy(w: nat, d: nat): Run -> bool {
    (x: Run) => x.doc == d && x.worker == w
  }

  function RunOf(d: nat): Run -> bool {
    (x: Run) => x.doc == d
  }

  predicate Deciding(c: Ctl, d: nat) {
    c.At? && c.doc == d && Undecided(c.pc)
  }

  /** Requeues cut a document's history into windows. A worker claims it at most
      once per window; if it could claim it now, it has not done so in this one. */
  ghost predicate OncePerWindow(s: Sys, w: nat, d: nat)
    requires w < |s.workers| && d < |s.db.docs| && |s.requeues| == |s.db.docs|
  {
    var claims := Count(s.db.runs, OpenedBy(w, d));
    && claims <= s.requeues[d] + 1
    && (s.db.docs[d].status == Uploaded && !Deciding(s.workers[w], d) ==> claims <= s.requeues[d])
  }

  ghost predicate RunsBounded(s: Sys) {
    |s.requeues| == |s.db.docs| && forall w, d :: 0 <= w < |s.workers| && 0 <= d < |s.db.docs| ==> OncePerWindow(s, w, d)
  }

  lemma OnceAfterAdvance(cfg: Config, s: Sys, v: nat, w: nat, d: nat)
    requires Owned(cfg, s) && v < |s.workers| && s.workers[v].At? && w < |s.workers| && d < |s.db.docs|
    requires OncePerWindow(s, w, d)
    ensures |DoAdvance(cfg, s, v).requeues| == |DoAdvance(cfg, s, v).db.docs| == |s.db.docs|
    ensures OncePerWindow(DoAdvance(cfg, s, v), w, d)
  {
    var c := s.workers[v];
    var stmt := Issue(cfg, s.db, c);
    assert Owns(cfg, s, v);
    StatusWrites(cfg, s.db, c);
    OwnStatement(cfg, s.db, c);
    ExecFrame(s.db, stmt);
    if stmt.Finish? {
      CountUpdate(s.db.runs, c.run, s.db.runs[c.run].(status := stmt.result, iterations := stmt.iterations), OpenedBy(w, d));
    }
  }

  lemma OnceAfterUpload(cfg: Config, s: Sys, tenant: nat, contentHash: string, w: nat, d: nat)
    requires Owned(cfg, s) && RunsBounded(s) && w < |s.workers| && d <= |s.db.docs|
    ensures OncePerWindow(DoUpload(s, tenant, contentHash), w, d)
  {
    if d < |s.db.docs| {
      assert OncePerWindow(s, w, d);
    } else {
      forall r | 0 <= r < |s.db.runs| ensures !OpenedBy(w, d)(s.db.runs[r]) {
        assert Driven(s, r);
      }
      CountIsZero(s.db.runs, OpenedBy(w, d));
    }
  }

  lemma OnceAfterClaim(cfg: Config, s: Sys, v: nat, o: Outcomes, w: nat, d: nat)
    requires v < |s.workers| && s.workers[v].Idle? && CanClaim(s.db) && w < |s.workers| && d < |s.db.docs| == |s.requeues|
    requires OncePerWindow(s, w, d)
    ensures OncePerWindow(DoClaim(s, v, o, Claimed(s)), w, d)
  {
    CountAppend(s.db.runs, Run(Claimed(s), v, Running, 0), OpenedBy(w, d));
  }

  lemma {:induction false} RunsBoundedAfter(cfg: Config, s: Sys, a: Act)
    requires Owned(cfg, s) && RunsBounded(s)
    ensures RunsBounded(Next(cfg, s, a))
  {
    if Enabled(cfg, s, a) {
      var s' := Next(cfg, s, a);
      if a.Advance? {
        ExecFrame(s.db, Issue(cfg, s.db, s.workers[a.w]));
      } else if a.Review? {
        DeskFrame(s, a.i);
      }
      forall w, d | 0 <= w < |s'.workers| && 0 <= d < |s'.db.docs| ensures OncePerWindow(s', w, d) {
        if a.Upload? {
          OnceAfterUpload(cfg, s, a.tenant, a.contentHash, w, d);
        } else {
          assert OncePerWindow(s, w, d);
          if a.Advance? { OnceAfterAdvance(cfg, s, a.w, w, d); }
          if a.Claim? { OnceAfterClaim(cfg, s, a.w, a.o, w, d); }
        }
      }
    }
  }

  function OpenedBelow(n: nat, d: nat): Run -> bool {
    (x: Run) => x.doc == d && x.worker < n
  }

  lemma {:induction false} SplitByWorker(runs: seq<Run>, n: nat, d: nat)
    ensures Count(runs, OpenedBelow(n + 1, d)) == Count(runs, OpenedBelow(n, d)) + Count(runs, OpenedBy(n, d))
  {
    if runs != [] {
      SplitByWorker(runs[..|runs| - 1], n, d);
    }
  }

  lemma {:induction false} SumOverWorkers(runs: seq<Run>, n: nat, d: nat, k: nat)
    requires forall w :: 0 <= w < n ==> Count(runs, OpenedBy(w, d)) <= k
    ensures Count(runs, OpenedBelow(n, d)) <= n * k
  {
    if n == 0 {
      CountIsZero(runs, OpenedBelow(0, d));
    } else {
      SumOverWorkers(runs, n - 1, d, k);
      SplitByWorker(runs, n - 1, d);
      assert n * k == (n - 1) * k + k;
    }
  }

  lemma {:induction false} CountSame<T>(s: seq<T>, p: T -> bool, q: T -> bool)
    requires forall i :: 0 <= i < |s| ==> p(s[i]) == q(s[i])
    ensures Count(s, p) == Count(s, q)
  {
    if s != [] {
      CountSame(s[..|s| - 1], p, q);
    }
  }

  /** The two bounds together. */
  lemma RunBound(cfg: Config, s: Sys, d: nat)
    requires Owned(cfg, s) && RetriesBounded(cfg, s) && RunsBounded(s) && d < |s.db.docs|
    ensures s.requeues[d] <= Max(cfg.maxRetries, 0)
    ensures Count(s.db.runs, RunOf(d)) <= |s.workers| * (Max(cfg.maxRetries, 0) + 1)
  {
    assert Backed(cfg, s, d);
    var k := Max(cfg.maxRetries, 0) + 1;
    forall w | 0 <= w < |s.workers| ensures Count(s.db.runs, OpenedBy(w, d)) <= k {
      assert OncePerWindow(s, w, d);
    }
    SumOverWorkers(s.db.runs, |s.workers|, d, k);
    forall r | 0 <= r < |s.db.runs| ensures RunOf(d)(s.db.runs[r]) == OpenedBelow(|s.workers|, d)(s.db.runs[r]) {
      assert Driven(s, r);
    }
    CountSame(s.db.runs, RunOf(d), OpenedBelow(|s.workers|, d));
  }
}
