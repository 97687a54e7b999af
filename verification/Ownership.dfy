/** At most one RUNNING agent run per document, under every interleaving of
    statements. */
module Ownership {
  import opened Prelude
  import opened Domain
  import opened Tables
  import opened Pipeline
  import opened Protocol

  /** Worker `w` stands in a run it opened itself, and the run is RUNNING for as
      long as the worker has not finished it. */
  ghost predicate Owns(cfg: Config, s: Sys, w: nat)
    requires w < |s.workers|
  {
    var c := s.workers[w];
    c.At? ==>
      && c.doc < |s.db.docs| && c.run < |s.db.runs| && |s.plan| == |s.db.runs|
      && s.db.runs[c.run].doc == c.doc && s.db.runs[c.run].worker == w
      && s.plan[c.run] == c.o && WellFormed(cfg, c.o)
      && (Live(c.pc) <==> s.db.runs[c.run].status == Running)
  }

  /** A RUNNING row belongs to a worker that is still inside that run. */
  ghost predicate Driven(s: Sys, r: nat)
    requires r < |s.db.runs|
  {
    var run := s.db.runs[r];
    && run.doc < |s.db.docs| && run.worker < |s.workers|
    && (run.status == Running ==>
          s.workers[run.worker].At? && s.workers[run.worker].run == r)
  }

  ghost predicate OneRunning(db: Db) {
    forall q, r :: 0 <= q < r < |db.runs| && db.runs[q].status == Running && db.runs[r].status == Running
      ==> db.runs[q].doc != db.runs[r].doc
  }

  ghost predicate Owned(cfg: Config, s: Sys) {
    && |s.plan| == |s.db.runs| && |s.requeues| == |s.db.docs|
    && (forall w :: 0 <= w < |s.workers| ==> Owns(cfg, s, w))
    && (forall r :: 0 <= r < |s.db.runs| ==> Driven(s, r))
    && OneRunning(s.db)
  }

  lemma OwnedAfterAdvance(cfg: Config, s: Sys, w: nat)
    requires Owned(cfg, s) && w < |s.workers| && s.workers[w].At?
    ensures Owned(cfg, DoAdvance(cfg, s, w))
  {
    var c := s.workers[w];
    var s' := DoAdvance(cfg, s, w);
    var stmt := Issue(cfg, s.db, c);
    assert Owns(cfg, s, w);
    ExecFrame(s.db, stmt);
    OwnStatement(cfg, s.db, c);
    FinishEndsLife(cfg, s.db, c);
    forall v | 0 <= v < |s'.workers| ensures Owns(cfg, s', v) {
      assert Owns(cfg, s, v);
    }
    forall r | 0 <= r < |s'.db.runs| ensures Driven(s', r) {
      assert Driven(s, r);
    }
  }

  lemma OwnedAfterClaim(cfg: Config, s: Sys, w: nat, o: Outcomes, d: nat)
    requires Owned(cfg, s) && w < |s.workers| && s.workers[w].Idle? && WellFormed(cfg, o) && IsNextClaim(s.db, d)
    ensures Owned(cfg, DoClaim(s, w, o, d))
  {
    var s' := DoClaim(s, w, o, d);
    var n := |s.db.runs|;
    forall v | 0 <= v < |s'.workers| ensures Owns(cfg, s', v) {
      assert Owns(cfg, s, v);
    }
    forall r | 0 <= r < |s'.db.runs| ensures Driven(s', r) {
      if r < n { assert Driven(s, r); }
    }
    forall q | 0 <= q < n && s.db.runs[q].status == Running ensures s.db.runs[q].doc != d {
      assert Claimable(s.db, d);
    }
  }

  lemma OwnedAfterUpload(cfg: Config, s: Sys, tenant: nat, contentHash: string)
    requires Owned(cfg, s)
    ensures Owned(cfg, DoUpload(s, tenant, contentHash))
  {
    var s' := DoUpload(s, tenant, contentHash);
    forall v | 0 <= v < |s'.workers| ensures Owns(cfg, s', v) {
      assert Owns(cfg, s, v);
    }
    forall r | 0 <= r < |s'.db.runs| ensures Driven(s', r) {
      assert Driven(s, r);
    }
  }

  /** A reviewer's statement leaves the agent's tables alone. */
  lemma DeskFrame(s: Sys, i: nat)
    requires i < |s.desks| && s.desks[i].Busy?
    ensures var s' := DoReview(s, i);
      && s'.db.runs == s.db.runs && s'.db.tools == s.db.tools && |s'.db.docs| == |s.db.docs|
      && s'.workers == s.workers && s'.plan == s.plan && s'.requeues == s.requeues && s'.left == s.left && s'.silent == s.silent
      && (forall d :: 0 <= d < |s.db.docs| ==>
            s'.db.docs[d] == s.db.docs[d] || (s.desks[i].req.doc == d && s.desks[i].step.MarkDoc? && s'.db.docs[d] == s.db.docs[d].(status := Reviewed)))
  {
  }

  lemma OwnedAfterReview(cfg: Config, s: Sys, i: nat)
    requires Owned(cfg, s) && i < |s.desks| && s.desks[i].Busy?
    ensures Owned(cfg, DoReview(s, i))
  {
    var s' := DoReview(s, i);
    DeskFrame(s, i);
    forall v | 0 <= v < |s'.workers| ensures Owns(cfg, s', v) {
      assert Owns(cfg, s, v);
    }
    forall r | 0 <= r < |s'.db.runs| ensures Driven(s', r) {
      assert Driven(s, r);
    }
  }

  lemma OwnedAfterOpen(cfg: Config, s: Sys, i: nat, req: Request)
    requires Owned(cfg, s) && i < |s.desks|
    ensures Owned(cfg, DoOpen(s, i, req))
  {
    var s' := DoOpen(s, i, req);
    forall v | 0 <= v < |s'.workers| ensures Owns(cfg, s', v) {
      assert Owns(cfg, s, v);
    }
    forall r | 0 <= r < |s'.db.runs| ensures Driven(s', r) {
      assert Driven(s, r);
    }
  }

  lemma {:induction false} OwnedAfter(cfg: Config, s: Sys, a: Act)
    requires Owned(cfg, s)
    ensures Owned(cfg, Next(cfg, s, a))
  {
    if Enabled(cfg, s, a) {
      match a
      case Upload(tenant, contentHash) => OwnedAfterUpload(cfg, s, tenant, contentHash);
      case Claim(w, o) => OwnedAfterClaim(cfg, s, w, o, Claimed(s));
      case Advance(w) => OwnedAfterAdvance(cfg, s, w);
      case OpenReview(i, req) => OwnedAfterOpen(cfg, s, i, req);
      case Review(i) => OwnedAfterReview(cfg, s, i);
    }
  }
}
