/** How much work is left in the queue: the attempts every waiting document may
    still use. Each claim spends one, so a queue that receives no uploads runs
    empty after finitely many claims. */
module Queue {
  import opened Prelude
  import opened Domain
  import opened Tables
  import opened Pipeline
  import opened CallLevel
  import opened Protocol
  import opened SoloRun

  /** The attempts document `d` has left: none unless it waits to be claimed. */
  ghost function Remaining(cfg: Config, db: Db, d: nat): nat {
    if Claimable(db, d) then Max(1, cfg.maxRetries + 1 - CountFailed(db, d)) else 0
  }

  /** The attempts left to the first `n` documents. */
  ghost function Budget(cfg: Config, db: Db, n: nat): nat {
    if n == 0 then 0 else Budget(cfg, db, n - 1) + Remaining(cfg, db, n - 1)
  }

  /** Never more than MaxRetries + 1 attempts for every document. */
  lemma {:induction false} BudgetBound(cfg: Config, db: Db, n: nat)
    ensures Budget(cfg, db, n) <= n * (Max(cfg.maxRetries, 0) + 1)
  {
    if n > 0 {
      BudgetBound(cfg, db, n - 1);
      assert n * (Max(cfg.maxRetries, 0) + 1) == (n - 1) * (Max(cfg.maxRetries, 0) + 1) + (Max(cfg.maxRetries, 0) + 1);
    }
  }

  lemma {:induction false} BudgetFalls(cfg: Config, db: Db, db': Db, n: nat, d: nat)
    requires forall e :: 0 <= e < n && e != d ==> Remaining(cfg, db', e) == Remaining(cfg, db, e)
    requires d < n ==> Remaining(cfg, db', d) < Remaining(cfg, db, d)
    ensures Budget(cfg, db', n) <= Budget(cfg, db, n)
    ensures d < n ==> Budget(cfg, db', n) < Budget(cfg, db, n)
  {
    if n > 0 {
      BudgetFalls(cfg, db, db', n - 1, d);
    }
  }

  /** What a poll that claims `d` leaves behind. */
  ghost function Polled(cfg: Config, db: Db, d: nat, worker: nat, o: Outcomes): Db {
    Solo(cfg, OpenRun(db, d, worker), At(Load, d, |db.runs|, o))
  }

  /** A poll settles the document it claims or leaves it waiting with one attempt
      fewer, and nobody else's chances change. */
  lemma {:induction false} PollSpendsOne(cfg: Config, db: Db, d: nat, worker: nat, o: Outcomes)
    requires Claimable(db, d)
    ensures var db' := Polled(cfg, db, d, worker, o);
      && |db'.docs| == |db.docs| && |db'.runs| == |db.runs| + 1
      && (forall e :: 0 <= e < |db.docs| && e != d ==> db'.docs[e] == db.docs[e])
      && (forall e :: 0 <= e < |db.docs| && e != d ==> Remaining(cfg, db', e) == Remaining(cfg, db, e) && (Claimable(db', e) <==> Claimable(db, e)))
      && Remaining(cfg, db', d) < Remaining(cfg, db, d)
      && (Settled(db'.docs[d].status) || Claimable(db', d))
  {
    var mid, r, db' := OpenRun(db, d, worker), |db.runs|, Polled(cfg, db, d, worker, o);
    CountAppend(db.runs, mid.runs[r], FailedRunOf(d));
    SoloAttempts(cfg, mid, At(Load, d, r, o), CountFailed(db, d));
    var last := db'.runs[r];
    assert db'.runs == db.runs + [last];
    forall e | 0 <= e < |db.docs|
      ensures HasRunning(db', e) <==> HasRunning(db, e)
      ensures e != d ==> CountFailed(db', e) == CountFailed(db, e)
    {
      FinishedRunAdded(db, db', last, e);
    }
  }

  /** A finished run of one document is nothing to the others. */
  lemma FinishedRunAdded(db: Db, db': Db, last: Run, e: nat)
    requires db'.runs == db.runs + [last] && last.status != Running
    ensures HasRunning(db', e) <==> HasRunning(db, e)
    ensures e != last.doc ==> CountFailed(db', e) == CountFailed(db, e)
  {
    CountAppend(db.runs, last, FailedRunOf(e));
    if HasRunning(db, e) {
      var q :| 0 <= q < |db.runs| && db.runs[q].doc == e && db.runs[q].status == Running;
      assert db'.runs[q] == db.runs[q];
    }
  }

  /** A poll is a call-level run of the protocol: worker `w` claims and then drives
      its run to the end, and the tables it reaches are those of `Polled`. */
  lemma {:induction false} PollIsAtomicRun(cfg: Config, s: Sys, w: nat, o: Outcomes) returns (acts: seq<Act>)
    requires w < |s.workers| && s.workers[w].Idle? && WellFormed(cfg, o) && CanClaim(s.db) && OthersOutside(s, w)
    ensures AtomicRun(cfg, s, acts)
    ensures var s' := Execute(cfg, s, acts);
      s'.db == Polled(cfg, s.db, Claimed(s), w, o) && s'.workers == s.workers && s'.desks == s.desks
  {
    ClaimIsAtomic(cfg, s, w, o);
    var s' := DoClaim(s, w, o, Claimed(s));
    var rest := DriveIsAtomicRun(cfg, s', w);
    ExecuteConcat(cfg, s, [Claim(w, o)], rest);
    acts := [Claim(w, o)] + rest;
    assert s'.workers[w := Idle] == s.workers;
  }

  lemma ClaimIsAtomic(cfg: Config, s: Sys, w: nat, o: Outcomes)
    requires w < |s.workers| && s.workers[w].Idle? && WellFormed(cfg, o) && CanClaim(s.db) && OthersOutside(s, w)
    ensures var s' := DoClaim(s, w, o, Claimed(s));
      Execute(cfg, s, [Claim(w, o)]) == s' && AtomicRun(cfg, s, [Claim(w, o)]) && OthersOutside(s', w)
  {
    var one := [Claim(w, o)];
    assert one[..0] == [];
    assert Execute(cfg, s, one[..0]) == s && AtomicRun(cfg, s, one[..0]);
    assert Next(cfg, s, Claim(w, o)) == DoClaim(s, w, o, Claimed(s));
  }
}
