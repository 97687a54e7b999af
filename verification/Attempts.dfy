/** On call-level schedules a document gets at most MaxRetries + 1 attempts,
    however many workers there are. */
module Attempts {
  import opened Prelude
  import opened Domain
  import opened Tables
  import opened Pipeline
  import opened Protocol
  import opened Ownership
  import opened Retries
  import opened CallLevel

  ghost predicate BeingDecided(s: Sys, d: nat) {
    exists w :: 0 <= w < |s.workers| && Deciding(s.workers[w], d)
  }

  ghost predicate Tried(s: Sys, d: nat)
    requires d < |s.db.docs| && |s.requeues| == |s.db.docs|
  {
    var n := Count(s.db.runs, RunOf(d));
    && n <= s.requeues[d] + 1
    && (s.db.docs[d].status == Uploaded && !BeingDecided(s, d) ==> n <= s.requeues[d])
  }

  ghost predicate AttemptsBounded(s: Sys) {
    |s.requeues| == |s.db.docs| && forall d :: 0 <= d < |s.db.docs| ==> Tried(s, d)
  }

  lemma DecidersKept(s: Sys, s': Sys, w: nat, d: nat)
    requires |s'.workers| == |s.workers| && w < |s.workers| && (forall v :: 0 <= v < |s.workers| && v != w ==> s'.workers[v] == s.workers[v])
    ensures Deciding(s.workers[w], d) || BeingDecided(s, d) ==> BeingDecided(s, d)
    ensures BeingDecided(s, d) ==> BeingDecided(s', d) || Deciding(s.workers[w], d)
    ensures Deciding(s'.workers[w], d) ==> BeingDecided(s', d)
  {
    if BeingDecided(s, d) && !Deciding(s.workers[w], d) {
      var v :| 0 <= v < |s.workers| && Deciding(s.workers[v], d);
      assert Deciding(s'.workers[v], d);
    }
  }

  lemma TriedAfterAdvance(cfg: Config, s: Sys, w: nat, d: nat)
    requires Owned(cfg, s) && w < |s.workers| && s.workers[w].At? && d < |s.db.docs| && Tried(s, d)
    ensures |DoAdvance(cfg, s, w).requeues| == |DoAdvance(cfg, s, w).db.docs| == |s.db.docs|
    ensures Tried(DoAdvance(cfg, s, w), d)
  {
    var c := s.workers[w];
    var stmt := Issue(cfg, s.db, c);
    assert Owns(cfg, s, w);
    StatusWrites(cfg, s.db, c);
    OwnStatement(cfg, s.db, c);
    ExecFrame(s.db, stmt);
    DecidersKept(s, DoAdvance(cfg, s, w), w, d);
    if stmt.Finish? {
      CountUpdate(s.db.runs, c.run, s.db.runs[c.run].(status := stmt.result, iterations := stmt.iterations), RunOf(d));
    }
  }

  lemma TriedAfterUpload(cfg: Config, s: Sys, tenant: nat, contentHash: string, d: nat)
    requires Owned(cfg, s) && AttemptsBounded(s) && d <= |s.db.docs|
    ensures |DoUpload(s, tenant, contentHash).requeues| == |DoUpload(s, tenant, contentHash).db.docs| == |s.db.docs| + 1
    ensures Tried(DoUpload(s, tenant, contentHash), d)
  {
    if d < |s.db.docs| {
      assert Tried(s, d);
    } else {
      forall r | 0 <= r < |s.db.runs| ensures !RunOf(d)(s.db.runs[r]) {
        assert Driven(s, r);
      }
      CountIsZero(s.db.runs, RunOf(d));
    }
  }

  lemma TriedAfterClaim(cfg: Config, s: Sys, w: nat, o: Outcomes, d: nat)
    requires Owned(cfg, s) && Consistent(s) && AttemptsBounded(s) && Atomic(s, Claim(w, o)) && Enabled(cfg, s, Claim(w, o)) && d < |s.db.docs|
    ensures Tried(DoClaim(s, w, o, Claimed(s)), d)
  {
    ClaimedIsFree(cfg, s, w, o);
    assert Tried(s, d);
    CountAppend(s.db.runs, Run(Claimed(s), w, Running, 0), RunOf(d));
    DecidersKept(s, DoClaim(s, w, o, Claimed(s)), w, d);
    assert d == Claimed(s) ==> !BeingDecided(s, d);
  }

  lemma {:induction false} AttemptsAfter(cfg: Config, s: Sys, a: Act)
    requires Owned(cfg, s) && Consistent(s) && AttemptsBounded(s) && Atomic(s, a)
    ensures AttemptsBounded(Next(cfg, s, a))
  {
    if Enabled(cfg, s, a) {
      var s' := Next(cfg, s, a);
      if a.Advance? {
        ExecFrame(s.db, Issue(cfg, s.db, s.workers[a.w]));
      } else if a.Review? {
        DeskFrame(s, a.i);
      }
      forall d | 0 <= d < |s'.db.docs| ensures Tried(s', d) {
        match a
        case Upload(tenant, contentHash) => TriedAfterUpload(cfg, s, tenant, contentHash, d);
        case Claim(w, o) => TriedAfterClaim(cfg, s, w, o, d);
        case Advance(w) =>
          assert Tried(s, d);
          TriedAfterAdvance(cfg, s, w, d);
        case OpenReview(_, _) => assert Tried(s, d);
        case Review(_) => assert Tried(s, d);
      }
    }
  }
}
