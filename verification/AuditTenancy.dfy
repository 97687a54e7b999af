/** Whose audit entries a tenant can list, under every interleaving of statements:
    all those about its own documents and none about anybody else's. */
module AuditTenancy {
  import opened Prelude
  import opened Domain
  import opened Tables
  import opened Pipeline
  import opened Protocol
  import opened Ownership
  import AuditTrail
  import Theorems

  /** The entry is about one document, and belongs to its tenant. */
  ghost predicate EntryOwned(db: Db, e: Entry) {
    exists d :: 0 <= d < |db.docs| && AuditTrail.About(db, e, d) && e.tenant == db.docs[d].tenant
  }

  /** A review past its first statement is of the tenant's own document and task. */
  ghost predicate DeskOwned(db: Db, k: Desk) {
    k.Busy? && !k.step.LoadDoc? ==>
      && k.req.doc < |db.docs| && db.docs[k.req.doc].tenant == k.req.tenant
      && (!k.step.LoadTask? ==> k.step.task < |db.tasks| && db.tasks[k.step.task].doc == k.req.doc)
  }

  ghost predicate AuditOwned(s: Sys) {
    && (forall i :: 0 <= i < |s.db.audit| ==> EntryOwned(s.db, s.db.audit[i]))
    && (forall i :: 0 <= i < |s.desks| ==> DeskOwned(s.db, s.desks[i]))
  }

  lemma EntryStaysOwned(db: Db, db': Db, e: Entry)
    requires AuditTrail.Extends(db, db') && EntryOwned(db, e)
    ensures EntryOwned(db', e)
  {
    var d :| 0 <= d < |db.docs| && AuditTrail.About(db, e, d) && e.tenant == db.docs[d].tenant;
    assert AuditTrail.About(db', e, d);
  }

  lemma AgentEntryOwned(cfg: Config, s: Sys, w: nat)
    requires Owned(cfg, s) && w < |s.workers| && s.workers[w].At? && Issue(cfg, s.db, s.workers[w]).Audit?
    ensures EntryOwned(s.db, Issue(cfg, s.db, s.workers[w]).entry)
  {
    assert Owns(cfg, s, w);
    assert AuditTrail.About(s.db, Issue(cfg, s.db, s.workers[w]).entry, s.workers[w].doc);
  }

  lemma DeskEntryOwned(s: Sys, i: nat)
    requires i < |s.desks| && s.desks[i].Busy? && DeskOwned(s.db, s.desks[i]) && DeskIssue(s.db, s.desks[i]).Audit?
    ensures EntryOwned(s.db, DeskIssue(s.db, s.desks[i]).entry)
  {
    assert AuditTrail.About(s.db, DeskIssue(s.db, s.desks[i]).entry, s.desks[i].req.doc);
  }

  /** The entries after a step that adds at most one. */
  lemma EntriesStayOwned(s: Sys, s': Sys, e: Option<Entry>)
    requires AuditOwned(s) && AuditTrail.Extends(s.db, s'.db)
    requires s'.db.audit == (if e.Some? then s.db.audit + [e.value] else s.db.audit)
    requires e.Some? ==> EntryOwned(s.db, e.value)
    ensures forall i :: 0 <= i < |s'.db.audit| ==> EntryOwned(s'.db, s'.db.audit[i])
  {
    forall i | 0 <= i < |s'.db.audit| ensures EntryOwned(s'.db, s'.db.audit[i]) {
      EntryStaysOwned(s.db, s'.db, s'.db.audit[i]);
    }
  }

  lemma DeskMoves(s: Sys, i: nat)
    requires i < |s.desks| && s.desks[i].Busy? && DeskOwned(s.db, s.desks[i])
    ensures DeskOwned(DoReview(s, i).db, DoReview(s, i).desks[i])
  {
  }

  lemma DesksStayOwned(s: Sys, s': Sys)
    requires AuditOwned(s) && AuditTrail.Extends(s.db, s'.db) && |s'.desks| == |s.desks|
    requires forall j :: 0 <= j < |s.desks| ==> s'.desks[j] == s.desks[j] || DeskOwned(s'.db, s'.desks[j])
    ensures forall j :: 0 <= j < |s'.desks| ==> DeskOwned(s'.db, s'.desks[j])
  {
    forall j | 0 <= j < |s'.desks| ensures DeskOwned(s'.db, s'.desks[j]) {
      assert DeskOwned(s.db, s.desks[j]);
    }
  }

  lemma OwnedAfterAdvance(cfg: Config, s: Sys, w: nat)
    requires Owned(cfg, s) && AuditOwned(s) && w < |s.workers| && s.workers[w].At?
    ensures AuditOwned(DoAdvance(cfg, s, w))
  {
    var stmt := Issue(cfg, s.db, s.workers[w]);
    AuditTrail.ExecExtends(s.db, stmt);
    if stmt.Audit? { AgentEntryOwned(cfg, s, w); }
    EntriesStayOwned(s, DoAdvance(cfg, s, w), AuditTrail.EntryOf(stmt));
    DesksStayOwned(s, DoAdvance(cfg, s, w));
  }

  lemma OwnedAfterReview(s: Sys, i: nat)
    requires AuditOwned(s) && i < |s.desks| && s.desks[i].Busy?
    ensures AuditOwned(DoReview(s, i))
  {
    var stmt := DeskIssue(s.db, s.desks[i]);
    AuditTrail.ExecExtends(s.db, stmt);
    assert DeskOwned(s.db, s.desks[i]);
    if stmt.Audit? { DeskEntryOwned(s, i); }
    EntriesStayOwned(s, DoReview(s, i), AuditTrail.EntryOf(stmt));
    DeskMoves(s, i);
    DesksStayOwned(s, DoReview(s, i));
  }

  lemma {:induction false} OwnedEntriesAfter(cfg: Config, s: Sys, a: Act)
    requires Owned(cfg, s) && AuditOwned(s)
    ensures AuditOwned(Next(cfg, s, a))
  {
    if Enabled(cfg, s, a) {
      match a
      case Advance(w) => OwnedAfterAdvance(cfg, s, w);
      case Review(i) => OwnedAfterReview(s, i);
      case _ =>
        EntriesStayOwned(s, Next(cfg, s, a), None);
        DesksStayOwned(s, Next(cfg, s, a));
    }
  }

  lemma {:induction false} OwnedEntries(cfg: Config, w: nat, k: nat, acts: seq<Act>)
    ensures AuditOwned(Execute(cfg, Start(w, k), acts))
  {
    if acts != [] {
      var n := |acts| - 1;
      OwnedEntries(cfg, w, k, acts[..n]);
      Theorems.Invariants(cfg, w, k, acts[..n]);
      OwnedEntriesAfter(cfg, Execute(cfg, Start(w, k), acts[..n]), acts[n]);
    }
  }

  lemma {:induction false} SelectsAll(db: Db, log: seq<Entry>, d: nat, tenant: nat, i: nat)
    requires i < |log| && AuditTrail.About(db, log[i], d) && log[i].tenant == tenant
    ensures log[i] in AuditTrail.Selected(db, log, tenant, d)
  {
    if i < |log| - 1 {
      SelectsAll(db, log[..|log| - 1], d, tenant, i);
    }
  }

  lemma {:induction false} SelectsNone(db: Db, log: seq<Entry>, d: nat, tenant: nat)
    requires forall i :: 0 <= i < |log| && AuditTrail.About(db, log[i], d) ==> log[i].tenant != tenant
    ensures AuditTrail.Selected(db, log, tenant, d) == []
  {
    if log != [] {
      SelectsNone(db, log[..|log| - 1], d, tenant);
    }
  }

  /** A document's tenant lists every entry about it, and other tenants none. */
  lemma {:induction false} TrailIsTheTenants(cfg: Config, w: nat, k: nat, s: Sys, d: nat, tenant: nat)
    requires Theorems.Reachable(cfg, w, k, s) && d < |s.db.docs|
    ensures tenant == s.db.docs[d].tenant ==>
      forall i :: 0 <= i < |s.db.audit| && AuditTrail.About(s.db, s.db.audit[i], d) ==>
        s.db.audit[i] in AuditTrail.Selected(s.db, s.db.audit, tenant, d)
    ensures tenant != s.db.docs[d].tenant ==> AuditTrail.Selected(s.db, s.db.audit, tenant, d) == []
  {
    var acts :| s == Execute(cfg, Start(w, k), acts);
    OwnedEntries(cfg, w, k, acts);
    forall i | 0 <= i < |s.db.audit| && AuditTrail.About(s.db, s.db.audit[i], d)
      ensures s.db.audit[i].tenant == s.db.docs[d].tenant
    {
      assert EntryOwned(s.db, s.db.audit[i]);
    }
    if tenant == s.db.docs[d].tenant {
      forall i | 0 <= i < |s.db.audit| && AuditTrail.About(s.db, s.db.audit[i], d)
        ensures s.db.audit[i] in AuditTrail.Selected(s.db, s.db.audit, tenant, d)
      {
        SelectsAll(s.db, s.db.audit, d, tenant, i);
      }
    } else {
      SelectsNone(s.db, s.db.audit, d, tenant);
    }
  }
}
