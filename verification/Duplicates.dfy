/** Duplicate detection under every interleaving of statements: what the two
    lookups guarantee about AUTO_PROCESSED documents and about `duplicate_of`. */
module Duplicates {
  import opened Prelude
  import opened Domain
  import opened Tables
  import opened Pipeline
  import opened Protocol
  import opened Ownership
  import KeyFields

  /** No older document of the tenant has the same content. */
  ghost predicate Earliest(docs: seq<Document>, d: nat)
    requires d < |docs|
  {
    forall e :: 0 <= e < d ==> !SameOrigin(docs[e], docs[d])
  }

  ghost predicate PointsBack(docs: seq<Document>, d: nat, e: nat)
    requires d < |docs|
  {
    e < d && docs[e].tenant == docs[d].tenant
  }

  /** The document carries this run's type. */
  predicate Typed(pc: Pc) {
    pc.AuditClassified? || pc.LoadSchema? || pc.PersistFields? || pc.RecordExtract? || pc.PersistExtracted?
    || pc.AuditExtracted? || pc.PersistHash? || Hashed(pc)
  }

  /** The document carries this run's key-fields hash, if it has one. */
  predicate Hashed(pc: Pc) {
    pc.RecordValidate? || pc.PersistValidated? || pc.AuditValidated? || pc.LookupContent? || pc.LookupNear? || Cleared(pc)
    || pc.RecordFinalize?
  }

  /** The content lookup has found no older copy. */
  predicate Cleared(pc: Pc) {
    pc.LookupNear? || (pc.RecordLookup? && pc.found.None?) || pc.LoadThreshold? || pc.RecordConfidence? || pc.PersistAuto?
  }

  /** What a worker's position says about its document. */
  ghost predicate Grounded(cfg: Config, s: Sys, w: nat)
    requires w < |s.workers|
  {
    var c := s.workers[w];
    c.At? ==>
      && c.doc < |s.db.docs|
      && (Typed(c.pc) ==> s.db.docs[c.doc].docType == Some(c.o.docType))
      && (Hashed(c.pc) && KeyFields.KeyHash(cfg, c.o.fields).Some? ==> s.db.docs[c.doc].keyHash == KeyFields.KeyHash(cfg, c.o.fields))
      && (Cleared(c.pc) ==> Earliest(s.db.docs, c.doc))
      && (c.pc.RecordLookup? && c.pc.found.Some? ==> PointsBack(s.db.docs, c.doc, c.pc.found.value))
      && (c.pc.PersistDuplicate? ==> PointsBack(s.db.docs, c.doc, c.pc.original))
  }

  ghost predicate DocGrounded(docs: seq<Document>, d: nat)
    requires d < |docs|
  {
    && (docs[d].status == AutoProcessed ==> Earliest(docs, d))
    && (docs[d].duplicateOf.Some? ==> PointsBack(docs, d, docs[d].duplicateOf.value))
  }

  ghost predicate DuplicatesSound(cfg: Config, s: Sys) {
    && (forall w :: 0 <= w < |s.workers| ==> Grounded(cfg, s, w))
    && (forall d :: 0 <= d < |s.db.docs| ==> DocGrounded(s.db.docs, d))
  }

  /** Two workers inside live runs are on different documents. */
  lemma LiveWorkersApart(cfg: Config, s: Sys, v: nat, w: nat)
    requires Owned(cfg, s) && v < |s.workers| && w < |s.workers| && v != w
    requires s.workers[v].At? && s.workers[w].At? && Live(s.workers[v].pc) && Live(s.workers[w].pc)
    ensures s.workers[v].doc != s.workers[w].doc
  {
    assert Owns(cfg, s, v) && Owns(cfg, s, w);
    var q, r := s.workers[v].run, s.workers[w].run;
    assert q != r;
    if q < r {
      assert s.db.runs[q].doc != s.db.runs[r].doc;
    } else {
      assert s.db.runs[r].doc != s.db.runs[q].doc;
    }
  }

  /** Only a live run writes a document's type, hash or link. */
  lemma DeadRunsWriteStatusOnly(cfg: Config, db: Db, c: Ctl)
    requires c.At? && !Live(c.pc)
    ensures var stmt := Issue(cfg, db, c);
      !stmt.MarkClassified? && !stmt.SetKeyFieldsHash? && !stmt.MarkDuplicateOf? && !stmt.InsertBatch? && !stmt.RecordTool? && !stmt.MarkAutoProcessed?
  {
  }

  lemma StaysGrounded(cfg: Config, s: Sys, s': Sys, w: nat)
    requires w < |s.workers| && |s'.workers| == |s.workers| && s'.workers[w] == s.workers[w] && Grounded(cfg, s, w)
    requires |s.db.docs| <= |s'.db.docs| && forall d :: 0 <= d < |s.db.docs| ==> SameOrigin(s'.db.docs[d], s.db.docs[d])
    requires s.workers[w].At? ==>
      var d := s.workers[w].doc;
      d < |s.db.docs| && (Typed(s.workers[w].pc) ==> s'.db.docs[d].docType == s.db.docs[d].docType && s'.db.docs[d].keyHash == s.db.docs[d].keyHash)
    ensures Grounded(cfg, s', w)
  {
  }

  /** The lookups consider the document itself, so what they find is never younger. */
  lemma {:induction false} LookupsLookBack(cfg: Config, s: Sys, w: nat)
    requires w < |s.workers| && s.workers[w].At? && Grounded(cfg, s, w)
    requires s.workers[w].pc.LookupContent? || s.workers[w].pc.LookupNear?
    ensures var next := Goto(cfg, s.db, s.workers[w]);
      && (next.Some? && next.value.RecordLookup? && next.value.found.Some? ==> PointsBack(s.db.docs, s.workers[w].doc, next.value.found.value))
      && (next.Some? && Cleared(next.value) ==> Earliest(s.db.docs, s.workers[w].doc))
  {
    var c := s.workers[w];
    var me := s.db.docs[c.doc];
    if c.pc.LookupContent? {
      var found := FindByContentHash(s.db, me.tenant, me.contentHash);
      FirstDocIsEarliest(s.db.docs, SameContent(me.tenant, me.contentHash), 0);
      assert SameContent(me.tenant, me.contentHash)(me);
      assert found.Some? && found.value <= c.doc;
    } else {
      var hash := KeyFields.KeyHash(cfg, c.o.fields);
      if hash.Some? {
        var found := FindByKeyFieldsHash(s.db, me.tenant, c.o.docType, hash.value);
        FirstDocIsEarliest(s.db.docs, SameKeyFields(me.tenant, c.o.docType, hash.value), 0);
        assert SameKeyFields(me.tenant, c.o.docType, hash.value)(me);
        assert found.Some? && found.value <= c.doc;
      }
    }
  }

  // How each fact comes to hold: it did before, or this statement made it so.

  lemma WayToTyped(cfg: Config, db: Db, c: Ctl, next: Pc)
    requires c.At? && Goto(cfg, db, c) == Some(next) && Typed(next)
    ensures c.pc.PersistClassified? || Typed(c.pc)
  {
  }

  lemma TypeIsEarned(cfg: Config, db: Db, c: Ctl, next: Pc)
    requires c.At? && Goto(cfg, db, c) == Some(next) && Typed(next)
    ensures Issue(cfg, db, c) == MarkClassified(c.doc, c.o.docType, c.o.confidence)
         || (Typed(c.pc) && !Issue(cfg, db, c).MarkClassified?)
  {
    WayToTyped(cfg, db, c, next);
  }

  lemma WayToHashed(cfg: Config, db: Db, c: Ctl, next: Pc)
    requires c.At? && Goto(cfg, db, c) == Some(next) && Hashed(next)
    ensures c.pc.PersistHash? || (c.pc.AuditExtracted? && KeyFields.KeyHash(cfg, c.o.fields).None?) || Hashed(c.pc)
  {
  }

  lemma HashIssuedOnce(cfg: Config, db: Db, c: Ctl)
    requires c.At? && Issue(cfg, db, c).SetKeyFieldsHash?
    ensures c.pc.PersistHash?
  {
  }

  lemma HashIssued(cfg: Config, db: Db, c: Ctl)
    requires c.At?
    ensures c.pc.PersistHash? && KeyFields.KeyHash(cfg, c.o.fields).Some? ==>
      Issue(cfg, db, c) == SetKeyFieldsHash(c.doc, KeyFields.KeyHash(cfg, c.o.fields).value)
  {
  }

  lemma HashIsEarned(cfg: Config, db: Db, c: Ctl, next: Pc)
    requires c.At? && Goto(cfg, db, c) == Some(next) && Hashed(next)
    ensures var hash := KeyFields.KeyHash(cfg, c.o.fields);
      hash.None? || Issue(cfg, db, c) == SetKeyFieldsHash(c.doc, hash.value) || (Hashed(c.pc) && !Issue(cfg, db, c).SetKeyFieldsHash?)
  {
    WayToHashed(cfg, db, c, next);
    HashIssued(cfg, db, c);
    if Issue(cfg, db, c).SetKeyFieldsHash? { HashIssuedOnce(cfg, db, c); }
  }

  lemma ClearanceIsEarned(cfg: Config, db: Db, c: Ctl, next: Pc)
    requires c.At? && Goto(cfg, db, c) == Some(next)
    ensures Cleared(next) ==> Cleared(c.pc) || c.pc.LookupContent?
    ensures next.RecordLookup? ==> c.pc.LookupContent? || c.pc.LookupNear?
    ensures next.PersistDuplicate? ==> c.pc == RecordLookup(Some(next.original))
  {
  }

  lemma EarliestKept(docs: seq<Document>, docs': seq<Document>, d: nat)
    requires d < |docs| <= |docs'| && forall e :: 0 <= e < |docs| ==> SameOrigin(docs'[e], docs[e])
    ensures Earliest(docs, d) ==> Earliest(docs', d)
    ensures forall e :: PointsBack(docs, d, e) ==> PointsBack(docs', d, e)
  {
    if Earliest(docs, d) {
      forall e | 0 <= e < d ensures !SameOrigin(docs'[e], docs'[d]) {
        assert !SameOrigin(docs[e], docs[d]);
      }
    }
  }

  lemma MoverGrounded(cfg: Config, s: Sys, w: nat, next: Pc, db': Db)
    requires w < |s.workers| && Grounded(cfg, s, w) && s.workers[w].At? && Goto(cfg, s.db, s.workers[w]) == Some(next)
    requires db' == Exec(s.db, Issue(cfg, s.db, s.workers[w]))
    ensures Grounded(cfg, s.(db := db', workers := s.workers[w := s.workers[w].(pc := next)]), w)
  {
    var c := s.workers[w];
    ExecFrame(s.db, Issue(cfg, s.db, c));
    OwnStatement(cfg, s.db, c);
    if Typed(next) { TypeIsEarned(cfg, s.db, c, next); }
    if Hashed(next) { HashIsEarned(cfg, s.db, c, next); }
    ClearanceIsEarned(cfg, s.db, c, next);
    EarliestKept(s.db.docs, db'.docs, c.doc);
    if c.pc.LookupContent? || c.pc.LookupNear? {
      LookupsLookBack(cfg, s, w);
    }
  }

  lemma OthersGrounded(cfg: Config, s: Sys, w: nat, v: nat)
    requires Owned(cfg, s) && DuplicatesSound(cfg, s) && w < |s.workers| && s.workers[w].At? && v < |s.workers| && v != w
    ensures Grounded(cfg, DoAdvance(cfg, s, w), v)
  {
    var c := s.workers[w];
    var s' := DoAdvance(cfg, s, w);
    assert Owns(cfg, s, v) && Grounded(cfg, s, v);
    ExecFrame(s.db, Issue(cfg, s.db, c));
    OwnStatement(cfg, s.db, c);
    if s.workers[v].At? && Live(s.workers[v].pc) {
      if Live(c.pc) {
        LiveWorkersApart(cfg, s, v, w);
      } else {
        DeadRunsWriteStatusOnly(cfg, s.db, c);
      }
    }
    if s.workers[v].At? {
      EarliestKept(s.db.docs, s'.db.docs, s.workers[v].doc);
    }
  }

  lemma DocsGrounded(cfg: Config, s: Sys, w: nat, d: nat)
    requires Owned(cfg, s) && DuplicatesSound(cfg, s) && w < |s.workers| && s.workers[w].At? && d < |s.db.docs|
    ensures |DoAdvance(cfg, s, w).db.docs| == |s.db.docs|
    ensures DocGrounded(DoAdvance(cfg, s, w).db.docs, d)
  {
    var c := s.workers[w];
    var stmt, docs' := Issue(cfg, s.db, c), DoAdvance(cfg, s, w).db.docs;
    assert Grounded(cfg, s, w) && DocGrounded(s.db.docs, d);
    ExecFrame(s.db, stmt);
    OwnStatement(cfg, s.db, c);
    AutoAndLinkWrites(cfg, s.db, c);
    EarliestKept(s.db.docs, docs', d);
  }

  lemma AutoAndLinkWrites(cfg: Config, db: Db, c: Ctl)
    requires c.At?
    ensures var stmt := Issue(cfg, db, c);
      && (stmt.MarkAutoProcessed? ==> c.pc.PersistAuto?)
      && (SetsStatus(stmt) && StatusWritten(stmt) == AutoProcessed ==> stmt.MarkAutoProcessed?)
      && (stmt.MarkDuplicateOf? ==> c.pc == PersistDuplicate(stmt.original))
  {
  }

  lemma SoundAfterAdvance(cfg: Config, s: Sys, w: nat)
    requires Owned(cfg, s) && DuplicatesSound(cfg, s) && w < |s.workers| && s.workers[w].At?
    ensures DuplicatesSound(cfg, DoAdvance(cfg, s, w))
  {
    var c := s.workers[w];
    var s' := DoAdvance(cfg, s, w);
    ExecFrame(s.db, Issue(cfg, s.db, c));
    var next := Goto(cfg, s.db, c);
    if next.Some? {
      assert Grounded(cfg, s, w);
      MoverGrounded(cfg, s, w, next.value, s'.db);
    }
    forall v | 0 <= v < |s'.workers| ensures Grounded(cfg, s', v) {
      if v != w {
        OthersGrounded(cfg, s, w, v);
      }
    }
    forall d | 0 <= d < |s'.db.docs| ensures DocGrounded(s'.db.docs, d) {
      DocsGrounded(cfg, s, w, d);
    }
  }

  lemma {:induction false} SoundAfter(cfg: Config, s: Sys, a: Act)
    requires Owned(cfg, s) && DuplicatesSound(cfg, s)
    ensures DuplicatesSound(cfg, Next(cfg, s, a))
  {
    if Enabled(cfg, s, a) {
      var s' := Next(cfg, s, a);
      match a
      case Upload(_, _) =>
        forall v | 0 <= v < |s'.workers| ensures Grounded(cfg, s', v) {
          assert Grounded(cfg, s, v);
          StaysGrounded(cfg, s, s', v);
        }
        forall d | 0 <= d < |s'.db.docs| ensures DocGrounded(s'.db.docs, d) {
          if d < |s.db.docs| { assert DocGrounded(s.db.docs, d); }
        }
      case Claim(w, o) =>
        forall v | 0 <= v < |s'.workers| ensures Grounded(cfg, s', v) {
          assert Grounded(cfg, s, v);
        }
      case Advance(w) => SoundAfterAdvance(cfg, s, w);
      case OpenReview(_, _) =>
        forall v | 0 <= v < |s'.workers| ensures Grounded(cfg, s', v) {
          assert Grounded(cfg, s, v);
        }
      case Review(i) =>
        DeskFrame(s, i);
        forall v | 0 <= v < |s'.workers| ensures Grounded(cfg, s', v) {
          assert Grounded(cfg, s, v);
          StaysGrounded(cfg, s, s', v);
        }
        forall d | 0 <= d < |s'.db.docs| ensures DocGrounded(s'.db.docs, d) {
          assert DocGrounded(s.db.docs, d);
        }
    }
  }

  // ----- what follows -----

  /** A chain of `duplicate_of` links. */
  ghost predicate Chain(docs: seq<Document>, path: seq<nat>) {
    && (forall i :: 0 <= i < |path| ==> path[i] < |docs|)
    && (forall i :: 0 <= i < |path| - 1 ==> docs[path[i]].duplicateOf == Some(path[i + 1]))
  }

  /** Links lead to strictly older documents of the same tenant, so following
      them never comes back. */
  lemma {:induction false} ChainsDescend(cfg: Config, s: Sys, path: seq<nat>)
    requires DuplicatesSound(cfg, s) && Chain(s.db.docs, path) && |path| >= 2
    ensures path[|path| - 1] < path[0]
    ensures s.db.docs[path[|path| - 1]].tenant == s.db.docs[path[0]].tenant
  {
    assert DocGrounded(s.db.docs, path[0]);
    assert s.db.docs[path[0]].duplicateOf == Some(path[1]);
    if |path| > 2 {
      var rest := path[1..];
      forall i | 0 <= i < |rest| - 1 ensures s.db.docs[rest[i]].duplicateOf == Some(rest[i + 1]) {
        assert rest[i] == path[i + 1] && rest[i + 1] == path[i + 1 + 1];
      }
      ChainsDescend(cfg, s, rest);
    }
  }

  lemma NoTwoCopiesProcessed(cfg: Config, s: Sys, d: nat, e: nat)
    requires DuplicatesSound(cfg, s) && d < |s.db.docs| && e < |s.db.docs| && d != e
    requires s.db.docs[d].status == AutoProcessed && s.db.docs[e].status == AutoProcessed
    ensures !SameOrigin(s.db.docs[d], s.db.docs[e])
  {
    assert DocGrounded(s.db.docs, d) && DocGrounded(s.db.docs, e);
  }
}
