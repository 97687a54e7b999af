/** Guarantees that two workers break: when exactly they hold, and the schedules
    on which they do not. */
module Limits {
  import opened Prelude
  import opened Domain
  import opened Tables
  import opened Pipeline
  import opened Protocol
  import opened CallLevel
  import opened SoloRun
  import Confidence
  import Duplicates
  import Gates
  import Integrity
  import KeyFields
  import Retries
  import SingleWorker
  import Sorting
  import Theorems
  import Validation

  // ----- runs that fail at once -----

  /** An environment in which nothing fails and the document is given this type,
      known or not. */
  ghost function Classifying(cfg: Config, t: string): (o: Outcomes)
    ensures WellFormed(cfg, o) && o.docType == t && o.loadOk && o.contentLookupOk && o.nearLookupOk
  {
    var names := if t in cfg.types then cfg.types[t].schema.Keys else {};
    var fields := map n | n in names :: Field(Null, 0.0);
    assert fields.Keys == names;
    Outcomes(true, Answered, Answered, t, 0.0, true, true, Answered, fields, KeyFields.Listing(names),
             true, true, true, true, true, true, true, true)
  }

  /** An environment that cannot even load the document's row. */
  ghost function Outage(cfg: Config): (o: Outcomes)
    ensures WellFormed(cfg, o) && !o.loadOk
  {
    Classifying(cfg, "").(loadOk := false)
  }

  /** A document that is not recognised goes to review at the second step. */
  lemma UnrecognisedIsRouted(cfg: Config, l: Gates.Lookup)
    requires cfg.maxIterations >= 2
    ensures Gates.VerdictOf(cfg, Classifying(cfg, UNKNOWN_TYPE), l) == Gates.Verdict(2, Gates.ToReview(UnknownType), Some(Success))
  {
    var o := Classifying(cfg, UNKNOWN_TYPE);
    assert Gates.Passed(cfg, o, l, 0) && Gates.Passed(cfg, o, l, 1);
    Gates.StopsAt(cfg, o, l, 1);
  }

  /** One document with status `st` and `n` finished runs, `f` of them FAILED. */
  ghost predicate Failing(s: Sys, n: nat, f: nat, st: Status) {
    && |s.db.docs| == 1 && s.db.docs[0].status == st && |s.db.runs| == n && CountFailed(s.db, 0) == f
    && forall r :: 0 <= r < n ==> s.db.runs[r].doc == 0 && s.db.runs[r].status != Running
  }

  lemma {:induction false} AllCounted(runs: seq<Run>)
    requires forall r :: 0 <= r < |runs| ==> runs[r].doc == 0
    ensures Count(runs, Retries.RunOf(0)) == |runs|
  {
    if runs != [] {
      AllCounted(runs[..|runs| - 1]);
    }
  }

  /** Where a failing run stands before it counts the failures. */
  ghost function BeforeCount(cfg: Config, n: nat): Ctl {
    At(FailCount(LoadDocumentFailed, false), 0, n, Outage(cfg))
  }

  lemma ThreeActs(cfg: Config, s: Sys, a: Act, b: Act, c: Act)
    ensures Execute(cfg, s, [a, b, c]) == Next(cfg, Next(cfg, Next(cfg, s, a), b), c)
  {
    assert [a, b, c][..2] == [a, b] && [a, b][..1] == [a] && [a][..0] == [];
    assert Execute(cfg, s, [a]) == Next(cfg, Execute(cfg, s, []), a);
    assert Execute(cfg, s, [a, b]) == Next(cfg, Execute(cfg, s, [a]), b);
  }

  /** The oldest document is there to be claimed. */
  lemma ClaimsIt(cfg: Config, s: Sys, w: nat, n: nat, f: nat, o: Outcomes)
    requires Failing(s, n, f, Uploaded) && w < |s.workers| && s.workers[w].Idle? && WellFormed(cfg, o)
    ensures Next(cfg, s, Claim(w, o)) == DoClaim(s, w, o, 0)
  {
    assert !HasRunning(s.db, 0);
    assert IsNextClaim(s.db, 0);
  }

  /** A worker claims the document, fails, and has not counted yet. */
  lemma FailsOnce(cfg: Config, s: Sys, w: nat, n: nat, f: nat) returns (acts: seq<Act>)
    requires Failing(s, n, f, Uploaded) && w < |s.workers| && s.workers[w].Idle?
    ensures var s' := Execute(cfg, s, acts);
      Failing(s', n + 1, f + 1, Uploaded) && s'.workers == s.workers[w := BeforeCount(cfg, n)]
  {
    var o := Outage(cfg);
    acts := [Claim(w, o), Advance(w), Advance(w)];
    ThreeActs(cfg, s, acts[0], acts[1], acts[2]);
    ClaimsIt(cfg, s, w, n, f, o);
    FailsToLoad(cfg, DoClaim(s, w, o, 0), w, n);
    FailingAgain(s, Execute(cfg, s, acts), w, n, f);
    assert s.workers[w := At(Load, 0, n, o)][w := BeforeCount(cfg, n)] == s.workers[w := BeforeCount(cfg, n)];
  }

  lemma OneMoreFailed(runs: seq<Run>, run: Run, n: nat)
    requires n == |runs| && run.doc == 0 && run.status == Running
    ensures Count((runs + [run])[n := run.(status := RunFailed, iterations := 0)], FailedRunOf(0)) == Count(runs, FailedRunOf(0)) + 1
  {
    CountAppend(runs, run, FailedRunOf(0));
    CountUpdate(runs + [run], n, run.(status := RunFailed, iterations := 0), FailedRunOf(0));
  }

  lemma FailingAgain(s: Sys, s': Sys, w: nat, n: nat, f: nat)
    requires Failing(s, n, f, Uploaded) && s'.db.docs == s.db.docs
    requires var run := Run(0, w, Running, 0); s'.db.runs == (s.db.runs + [run])[n := run.(status := RunFailed, iterations := 0)]
    ensures Failing(s', n + 1, f + 1, Uploaded)
  {
    OneMoreFailed(s.db.runs, Run(0, w, Running, 0), n);
  }

  lemma FailsToLoad(cfg: Config, s: Sys, w: nat, n: nat)
    requires |s.db.docs| == 1 && |s.db.runs| == n + 1 && w < |s.workers| && s.workers[w] == At(Load, 0, n, Outage(cfg))
    ensures var s' := Next(cfg, Next(cfg, s, Advance(w)), Advance(w));
      && s'.db.docs == s.db.docs && s'.db.runs == s.db.runs[n := s.db.runs[n].(status := RunFailed, iterations := 0)]
      && s'.workers == s.workers[w := BeforeCount(cfg, n)]
  {
    CannotLoad(cfg, s.db, n);
    FailsUnloaded(cfg, s.db, n);
    assert s.workers[w := At(FailFinish(0, LoadDocumentFailed, false), 0, n, Outage(cfg))][w := BeforeCount(cfg, n)]
        == s.workers[w := BeforeCount(cfg, n)];
  }

  lemma CannotLoad(cfg: Config, db: Db, n: nat)
    ensures var c := At(Load, 0, n, Outage(cfg));
      Issue(cfg, db, c) == Query && Goto(cfg, db, c) == Some(FailFinish(0, LoadDocumentFailed, false))
  {
  }

  lemma FailsUnloaded(cfg: Config, db: Db, n: nat)
    ensures var c := At(FailFinish(0, LoadDocumentFailed, false), 0, n, Outage(cfg));
      Issue(cfg, db, c) == Finish(n, RunFailed, 0) && Goto(cfg, db, c) == Some(FailCount(LoadDocumentFailed, false))
  {
  }

  /** One document is there and nothing has happened to it. */
  lemma Uploads(cfg: Config, w: nat, k: nat) returns (acts: seq<Act>)
    ensures AtomicRun(cfg, Start(w, k), acts) && Execute(cfg, Start(w, k), acts) == DoUpload(Start(w, k), 0, "")
    ensures Failing(Execute(cfg, Start(w, k), acts), 0, 0, Uploaded)
  {
    OneMore(cfg, Start(w, k), [], Upload(0, ""));
    acts := [] + [Upload(0, "")];
    assert Execute(cfg, Start(w, k), acts) == DoUpload(Start(w, k), 0, "");
  }

  lemma OneAct(cfg: Config, s: Sys, a: Act)
    ensures Execute(cfg, s, [a]) == Next(cfg, s, a)
  {
    assert [a][..0] == [];
    assert Execute(cfg, s, [a]) == Next(cfg, Execute(cfg, s, []), a);
  }

  ghost function WriteDue(cfg: Config, n: nat): Pc {
    if n <= cfg.maxRetries then Requeue(LoadDocumentFailed, false) else PersistFailed(LoadDocumentFailed, false)
  }

  /** Counting grants a requeue while the budget lasts. */
  lemma Counts(cfg: Config, s: Sys, w: nat, n: nat, f: nat, r: nat, st: Status)
    requires Failing(s, n, f, st) && w < |s.workers| && s.workers[w] == BeforeCount(cfg, r)
    ensures var s' := Execute(cfg, s, [Advance(w)]);
      Failing(s', n, f, st) && s'.workers == s.workers[w := s.workers[w].(pc := WriteDue(cfg, f))]
  {
    OneAct(cfg, s, Advance(w));
  }

  /** What was granted or refused is written, whatever happened in between. */
  lemma Writes(cfg: Config, s: Sys, w: nat, n: nat, f: nat, m: nat, r: nat, st: Status)
    requires Failing(s, n, f, st) && w < |s.workers| && s.workers[w] == At(WriteDue(cfg, m), 0, r, Outage(cfg))
    ensures var s' := Execute(cfg, s, [Advance(w)]);
      Failing(s', n, f, if m <= cfg.maxRetries then Uploaded else Failed) && s'.workers == s.workers[w := Idle]
  {
    OneAct(cfg, s, Advance(w));
  }

  // ----- runs that succeed -----

  /** An environment in which nothing stops a run but a duplicate. */
  ghost predicate Smooth(cfg: Config, o: Outcomes) {
    WellFormed(cfg, o) && o.loadOk && o.contentLookupOk && o.nearLookupOk && Gates.Passed(cfg, o, Gates.NoDuplicate, 7)
  }

  /** The same, answer by answer. */
  ghost predicate Favourable(cfg: Config, o: Outcomes) {
    && cfg.maxIterations >= 7 && o.loadOk && o.contentLookupOk && o.nearLookupOk
    && o.ocr == Answered && o.classify == Answered && o.docType != UNKNOWN_TYPE && ClassificationPersists(cfg, o)
    && o.schemaOk && o.extract == Answered && FieldsPersist(o) && o.extractedOk
    && Accepted(cfg, o) && o.validatedOk && o.thresholdOk && Overall(o) >= Threshold(cfg, o) && o.autoOk
    && Hash(cfg, o).Some?
  }

  ghost function Hash(cfg: Config, o: Outcomes): Option<string> {
    KeyFields.KeyHash(cfg, o.fields)
  }

  lemma SmoothMeans(cfg: Config, o: Outcomes)
    requires Smooth(cfg, o)
    ensures Favourable(cfg, o)
  {
    var l := Gates.NoDuplicate;
    assert Gates.Passed(cfg, o, l, 6) && Gates.Passed(cfg, o, l, 5) && Gates.Passed(cfg, o, l, 4) && Gates.Passed(cfg, o, l, 3);
    assert Gates.Passed(cfg, o, l, 2) && Gates.Passed(cfg, o, l, 1);
    Integrity.AcceptedIsComplete(cfg, o);
  }

  /** The stretch of the program a smooth run stays on. */
  predicate OnTrack(pc: Pc) {
    !Tail(pc) && !pc.RecordExtractError? && !pc.RecordLookupError? && !pc.PersistDuplicate? && (pc.RecordLookup? ==> pc.found.None?)
  }

  /** No older document of the tenant has the same content, or the run's type and
      key fields. */
  ghost predicate Unrivalled(cfg: Config, docs: seq<Document>, d: nat, o: Outcomes)
    requires d < |docs|
  {
    forall e :: 0 <= e < d && docs[e].tenant == docs[d].tenant ==>
      docs[e].contentHash != docs[d].contentHash && !(docs[e].docType == Some(o.docType) && docs[e].keyHash == Hash(cfg, o))
  }

  /** Where a smooth run stands and what it has written. */
  ghost predicate Gliding(cfg: Config, db: Db, c: Ctl) {
    && c.At? && OnTrack(c.pc) && Favourable(cfg, c.o) && c.doc < |db.docs| && Unrivalled(cfg, db.docs, c.doc, c.o)
    && (HasType(c.pc) ==> db.docs[c.doc].docType == Some(c.o.docType))
    && (HasHash(c.pc) ==> db.docs[c.doc].keyHash == Hash(cfg, c.o))
    && (Integrity.Decided(c.pc) ==> db.docs[c.doc].status == AutoProcessed)
  }

  lemma EarlyTrack(cfg: Config, db: Db, c: Ctl)
    requires c.At? && OnTrack(c.pc) && !HasHash(c.pc) && Favourable(cfg, c.o) && c.doc < |db.docs|
    ensures var next := Goto(cfg, db, c); next.Some? && OnTrack(next.value)
  {
  }

  lemma LateTrack(cfg: Config, db: Db, c: Ctl)
    requires c.At? && OnTrack(c.pc) && HasHash(c.pc) && Favourable(cfg, c.o) && !c.pc.LookupContent? && !c.pc.LookupNear?
    ensures var next := Goto(cfg, db, c); if next.Some? then OnTrack(next.value) else c.pc.AuditAuto?
  {
  }

  /** A smooth run stays on the track to its end. */
  lemma StaysOnTrack(cfg: Config, db: Db, c: Ctl)
    requires Gliding(cfg, db, c)
    ensures var next := Goto(cfg, db, c); if next.Some? then OnTrack(next.value) else c.pc.AuditAuto?
  {
    if c.pc.LookupContent? || c.pc.LookupNear? {
      OwnCandidate(cfg, db.docs, c.doc, c.o);
      LookupGoto(cfg, db, c);
    } else if HasHash(c.pc) {
      LateTrack(cfg, db, c);
    } else {
      EarlyTrack(cfg, db, c);
    }
  }

  lemma FirstIsItself(docs: seq<Document>, p: Document -> bool, d: nat)
    requires d < |docs| && p(docs[d]) && forall e :: 0 <= e < d ==> !p(docs[e])
    ensures FirstDoc(docs, p, 0) == Some(d)
  {
    FirstDocIsEarliest(docs, p, 0);
  }

  /** The document is a candidate of its own lookups. */
  lemma OwnCandidate(cfg: Config, docs: seq<Document>, d: nat, o: Outcomes)
    requires d < |docs| && Unrivalled(cfg, docs, d, o)
    ensures FirstDoc(docs, SameContent(docs[d].tenant, docs[d].contentHash), 0) == Some(d)
    ensures Hash(cfg, o).Some? && docs[d].docType == Some(o.docType) && docs[d].keyHash == Hash(cfg, o) ==>
      FirstDoc(docs, SameKeyFields(docs[d].tenant, o.docType, Hash(cfg, o).value), 0) == Some(d)
  {
    FirstIsItself(docs, SameContent(docs[d].tenant, docs[d].contentHash), d);
    if Hash(cfg, o).Some? && docs[d].docType == Some(o.docType) && docs[d].keyHash == Hash(cfg, o) {
      FirstIsItself(docs, SameKeyFields(docs[d].tenant, o.docType, Hash(cfg, o).value), d);
    }
  }

  lemma LookupGoto(cfg: Config, db: Db, c: Ctl)
    requires c.At? && c.doc < |db.docs| && (c.pc.LookupContent? || c.pc.LookupNear?)
    requires c.o.contentLookupOk && c.o.nearLookupOk && Hash(cfg, c.o).Some?
    ensures c.pc.LookupContent? && FindByContentHash(db, db.docs[c.doc].tenant, db.docs[c.doc].contentHash) == Some(c.doc) ==>
      Goto(cfg, db, c) == Some(LookupNear)
    ensures c.pc.LookupNear? && FindByKeyFieldsHash(db, db.docs[c.doc].tenant, c.o.docType, Hash(cfg, c.o).value) == Some(c.doc) ==>
      Goto(cfg, db, c) == Some(RecordLookup(None))
  {
  }

  /** The document carries the run's type. */
  predicate HasType(pc: Pc) {
    Duplicates.Typed(pc) || Integrity.Decided(pc)
  }

  predicate HasHash(pc: Pc) {
    Duplicates.Hashed(pc) || Integrity.Decided(pc)
  }

  lemma TrackWritesType(cfg: Config, db: Db, c: Ctl, next: Pc)
    requires c.At? && OnTrack(c.pc) && OnTrack(next) && HasType(next) && Goto(cfg, db, c) == Some(next)
    ensures var stmt := Issue(cfg, db, c);
      (stmt.MarkClassified? && stmt.docType == c.o.docType) || (HasType(c.pc) && !stmt.MarkClassified?)
  {
  }

  lemma TrackWritesHash(cfg: Config, db: Db, c: Ctl, next: Pc)
    requires c.At? && OnTrack(c.pc) && OnTrack(next) && HasHash(next) && Hash(cfg, c.o).Some? && Goto(cfg, db, c) == Some(next)
    ensures var stmt := Issue(cfg, db, c);
      (stmt.SetKeyFieldsHash? && Some(stmt.hash) == Hash(cfg, c.o)) || (HasHash(c.pc) && !stmt.SetKeyFieldsHash?)
  {
  }

  lemma TrackWritesStatus(cfg: Config, db: Db, c: Ctl, next: Pc)
    requires c.At? && OnTrack(c.pc) && Integrity.Decided(next) && Goto(cfg, db, c) == Some(next)
    ensures var stmt := Issue(cfg, db, c);
      (stmt.MarkAutoProcessed? && c.pc.PersistAuto? && HasHash(c.pc)) || (Integrity.Decided(c.pc) && !TouchesDoc(stmt))
  {
  }

  lemma KeepsGliding(cfg: Config, db: Db, c: Ctl)
    requires Gliding(cfg, db, c)
    ensures var db', next := Exec(db, Issue(cfg, db, c)), Goto(cfg, db, c);
      && (if next.Some? then Gliding(cfg, db', c.(pc := next.value)) else c.pc.AuditAuto?)
      && |db'.docs| == |db.docs| && (forall e :: 0 <= e < |db.docs| && e != c.doc ==> db'.docs[e] == db.docs[e])
      && SameOrigin(db'.docs[c.doc], db.docs[c.doc])
      && (next.None? ==> db'.docs == db.docs)
  {
    var stmt, next := Issue(cfg, db, c), Goto(cfg, db, c);
    ExecFrame(db, stmt);
    OwnStatement(cfg, db, c);
    StaysOnTrack(cfg, db, c);
    if next.Some? && HasType(next.value) {
      TrackWritesType(cfg, db, c, next.value);
    }
    if next.Some? && HasHash(next.value) {
      TrackWritesHash(cfg, db, c, next.value);
    }
    if next.Some? && Integrity.Decided(next.value) {
      TrackWritesStatus(cfg, db, c, next.value);
    }
  }

  /** A smooth run on an unrivalled document auto-processes it. */
  lemma {:induction false} Glides(cfg: Config, db: Db, c: Ctl)
    requires Gliding(cfg, db, c)
    ensures var db' := Solo(cfg, db, c);
      && |db'.docs| == |db.docs| && (forall e :: 0 <= e < |db.docs| && e != c.doc ==> db'.docs[e] == db.docs[e])
      && SameOrigin(db'.docs[c.doc], db.docs[c.doc])
      && db'.docs[c.doc].status == AutoProcessed && db'.docs[c.doc].docType == Some(c.o.docType) && db'.docs[c.doc].keyHash == Hash(cfg, c.o)
    decreases Rank(c.pc)
  {
    SoloStep(cfg, db, c);
    RankFalls(cfg, db, c);
    KeepsGliding(cfg, db, c);
    var next := Goto(cfg, db, c);
    if next.Some? {
      Glides(cfg, Exec(db, Issue(cfg, db, c)), c.(pc := next.value));
    }
  }

  // ----- near-duplicates on two workers -----

  lemma OneMore(cfg: Config, s: Sys, acts: seq<Act>, a: Act)
    ensures Execute(cfg, s, acts + [a]) == Next(cfg, Execute(cfg, s, acts), a)
    ensures AtomicRun(cfg, s, acts) && Atomic(Execute(cfg, s, acts), a) ==> AtomicRun(cfg, s, acts + [a])
  {
    assert (acts + [a])[..|acts|] == acts;
  }

  /** Two documents uploaded and both claimed, nothing else done yet. */
  ghost function BothClaimed(o: Outcomes, w: nat, k: nat, tenant: nat, a: string, b: string): Sys
    requires w >= 2
  {
    var s := DoUpload(DoUpload(Start(w, k), tenant, a), tenant, b);
    DoClaim(DoClaim(s, 0, o, 0), 1, o, 1)
  }

  lemma BothUploaded(cfg: Config, w: nat, k: nat, tenant: nat, a: string, b: string) returns (acts: seq<Act>)
    ensures AtomicRun(cfg, Start(w, k), acts)
    ensures Execute(cfg, Start(w, k), acts) == DoUpload(DoUpload(Start(w, k), tenant, a), tenant, b)
  {
    OneMore(cfg, Start(w, k), [], Upload(tenant, a));
    var one := [] + [Upload(tenant, a)];
    OneMore(cfg, Start(w, k), one, Upload(tenant, b));
    acts := one + [Upload(tenant, b)];
  }

  lemma OneClaimed(cfg: Config, o: Outcomes, w: nat, k: nat, tenant: nat, a: string, b: string) returns (acts: seq<Act>)
    requires WellFormed(cfg, o) && w >= 2
    ensures AtomicRun(cfg, Start(w, k), acts)
    ensures Execute(cfg, Start(w, k), acts) == DoClaim(DoUpload(DoUpload(Start(w, k), tenant, a), tenant, b), 0, o, 0)
  {
    var up := BothUploaded(cfg, w, k, tenant, a, b);
    assert IsNextClaim(Execute(cfg, Start(w, k), up).db, 0);
    OneMore(cfg, Start(w, k), up, Claim(0, o));
    acts := up + [Claim(0, o)];
  }

  lemma BothClaimedIsReached(cfg: Config, o: Outcomes, w: nat, k: nat, tenant: nat, a: string, b: string) returns (acts: seq<Act>)
    requires WellFormed(cfg, o) && w >= 2
    ensures AtomicRun(cfg, Start(w, k), acts) && Execute(cfg, Start(w, k), acts) == BothClaimed(o, w, k, tenant, a, b)
  {
    var one := OneClaimed(cfg, o, w, k, tenant, a, b);
    SecondClaim(cfg, DoUpload(DoUpload(Start(w, k), tenant, a), tenant, b), o);
    OneMore(cfg, Start(w, k), one, Claim(1, o));
    acts := one + [Claim(1, o)];
  }

  lemma SecondClaim(cfg: Config, s: Sys, o: Outcomes)
    requires WellFormed(cfg, o) && |s.workers| >= 2 && s.workers[1].Idle? && |s.db.docs| == 2 && s.db.runs == []
    requires s.db.docs[0].status == Uploaded && s.db.docs[1].status == Uploaded
    ensures Next(cfg, DoClaim(s, 0, o, 0), Claim(1, o)) == DoClaim(DoClaim(s, 0, o, 0), 1, o, 1)
  {
    var s1 := DoClaim(s, 0, o, 0);
    assert s1.db.runs[0] == Run(0, 0, Running, 0);
    assert IsNextClaim(s1.db, 1);
  }

  /** Whenever anything can be auto-processed at all, two workers can auto-process
      two documents of one tenant with the same type and the same key fields, even
      on a call-level schedule: the younger document is looked up before the older
      one has stored its hash, and the older one finds itself first. */
  lemma {:induction false} TwoWorkersMissNearCopies(cfg: Config, o: Outcomes, w: nat, k: nat, tenant: nat, a: string, b: string) returns (acts: seq<Act>)
    requires Smooth(cfg, o) && w >= 2 && a != b
    ensures AtomicRun(cfg, Start(w, k), acts)
    ensures var docs := Execute(cfg, Start(w, k), acts).db.docs;
      && |docs| == 2 && docs[0].status == AutoProcessed && docs[1].status == AutoProcessed
      && docs[0].tenant == docs[1].tenant && docs[0].docType == docs[1].docType && docs[0].keyHash == docs[1].keyHash && docs[0].keyHash.Some?
  {
    var before := BothClaimedIsReached(cfg, o, w, k, tenant, a, b);
    var s := BothClaimed(o, w, k, tenant, a, b);
    var young := DrivesAlone(cfg, s, 1, o);
    var s1 := Execute(cfg, s, young);
    var elder := DrivesAlone(cfg, s1, 0, o);
    ExecuteConcat(cfg, Start(w, k), before, young);
    ExecuteConcat(cfg, Start(w, k), before + young, elder);
    acts := before + young + elder;
  }

  /** A smooth run on an unrivalled document, driven to its end. */
  lemma DrivesAlone(cfg: Config, s: Sys, v: nat, o: Outcomes) returns (acts: seq<Act>)
    requires Smooth(cfg, o) && v < |s.workers| && OthersOutside(s, v)
    requires s.workers[v].At? && s.workers[v].pc == Load && s.workers[v].o == o
    requires s.workers[v].doc < |s.db.docs| && Unrivalled(cfg, s.db.docs, s.workers[v].doc, o)
    ensures AtomicRun(cfg, s, acts)
    ensures var s', d := Execute(cfg, s, acts), s.workers[v].doc;
      && s'.workers == s.workers[v := Idle] && s'.desks == s.desks && |s'.db.docs| == |s.db.docs|
      && (forall e :: 0 <= e < |s.db.docs| && e != d ==> s'.db.docs[e] == s.db.docs[e])
      && SameOrigin(s'.db.docs[d], s.db.docs[d]) && s'.db.docs[d].status == AutoProcessed
      && s'.db.docs[d].docType == Some(o.docType) && s'.db.docs[d].keyHash == Hash(cfg, o) && Hash(cfg, o).Some?
  {
    SmoothMeans(cfg, o);
    Glides(cfg, s.db, s.workers[v]);
    acts := DriveIsAtomicRun(cfg, s, v);
  }

  // ----- a finished document written again -----

  /** Worker 0 has failed the document and decided what to write; worker 1 has
      claimed it again. */
  lemma ClaimedMeanwhile(cfg: Config, o: Outcomes, w: nat, k: nat) returns (acts: seq<Act>)
    requires WellFormed(cfg, o) && w >= 2
    ensures var s := Execute(cfg, Start(w, k), acts);
      && |s.db.docs| == 1 && |s.workers| == w
      && s.workers[0] == At(WriteDue(cfg, 1), 0, 0, Outage(cfg)) && s.workers[1] == At(Load, 0, 1, o)
  {
    var s0 := Start(w, k);
    var up := Uploads(cfg, w, k);
    var fail := FailsOnce(cfg, Execute(cfg, s0, up), 0, 0, 0);
    ExecuteConcat(cfg, s0, up, fail);
    var a := up + fail;
    Counts(cfg, Execute(cfg, s0, a), 0, 1, 1, 0, Uploaded);
    ExecuteConcat(cfg, s0, a, [Advance(0)]);
    var b := a + [Advance(0)];
    var s := Execute(cfg, s0, b);
    ClaimsIt(cfg, s, 1, 1, 1, o);
    OneMore(cfg, s0, b, Claim(1, o));
    acts := b + [Claim(1, o)];
    assert Execute(cfg, s0, acts) == DoClaim(s, 1, o, 0);
  }

  lemma ProcessesMeanwhile(cfg: Config, s: Sys, o: Outcomes) returns (drive: seq<Act>)
    requires Smooth(cfg, o) && |s.db.docs| == 1 && |s.workers| >= 2 && s.workers[1] == At(Load, 0, 1, o)
    ensures var s' := Execute(cfg, s, drive);
      |s'.db.docs| == 1 && s'.db.docs[0].status == AutoProcessed && s'.workers == s.workers[1 := Idle]
  {
    SmoothMeans(cfg, o);
    assert Gliding(cfg, s.db, s.workers[1]);
    Glides(cfg, s.db, s.workers[1]);
    drive := DriveIsAtomicRun(cfg, s, 1);
  }

  /** At statement level even AUTO_PROCESSED is not final: a worker that has failed
      the document, but has not yet written what it decided, writes it over the
      result of the worker that claimed the document in between. */
  lemma {:induction false} FinishedDocumentIsOverwritten(cfg: Config, o: Outcomes, w: nat, k: nat) returns (acts: seq<Act>, n: nat)
    requires Smooth(cfg, o) && w >= 2
    ensures n <= |acts|
    ensures var mid, end := Execute(cfg, Start(w, k), acts[..n]), Execute(cfg, Start(w, k), acts);
      && |mid.db.docs| == 1 && mid.db.docs[0].status == AutoProcessed
      && |end.db.docs| == 1 && end.db.docs[0].status == if cfg.maxRetries >= 1 then Uploaded else Failed
  {
    var s0 := Start(w, k);
    var before := ClaimedMeanwhile(cfg, o, w, k);
    var drive := ProcessesMeanwhile(cfg, Execute(cfg, s0, before), o);
    ExecuteConcat(cfg, s0, before, drive);
    n := |before + drive|;
    acts := before + drive + [Advance(0)];
    assert acts[..n] == before + drive;
    OneMore(cfg, s0, before + drive, Advance(0));
    WritesAnyway(cfg, Execute(cfg, s0, before + drive), 0, 0);
  }

  lemma WritesAnyway(cfg: Config, s: Sys, w: nat, r: nat)
    requires |s.db.docs| == 1 && w < |s.workers| && s.workers[w] == At(WriteDue(cfg, 1), 0, r, Outage(cfg))
    ensures var s' := Next(cfg, s, Advance(w));
      |s'.db.docs| == 1 && s'.db.docs[0].status == if cfg.maxRetries >= 1 then Uploaded else Failed
  {
  }

  // ----- when anything is auto-processed at all -----

  /** A value every schema type accepts for its fields. */
  function Sample(ty: string): Value {
    if ty == "number" then Num(0.0) else if ty == "date" then Text("2000-01-01") else Text("x")
  }

  /** A run of the given type whose fields are all present and all score exactly the
      type's threshold. */
  ghost function Sampled(cfg: Config, t: string): Outcomes
    requires t in cfg.types
  {
    var ty := cfg.types[t];
    Outcomes(true, Answered, Answered, t, ty.threshold, true, true, Answered,
             map n | n in ty.schema :: Field(Sample(ty.schema[n]), ty.threshold), KeyFields.Listing(ty.schema.Keys),
             true, true, true, true, true, true, true, true)
  }

  lemma SampledIsAccepted(cfg: Config, t: string)
    requires t in cfg.types
    ensures WellFormed(cfg, Sampled(cfg, t)) && Accepted(cfg, Sampled(cfg, t))
    ensures Overall(Sampled(cfg, t)) == cfg.types[t].threshold
  {
    var o, ty := Sampled(cfg, t), cfg.types[t];
    assert o.fields.Keys == ty.schema.Keys;
    forall n | n in ty.schema ensures n in Values(o.fields) && Validation.Accepts(ty.schema[n], Values(o.fields)[n]) {
      assert Validation.IsDate("2000-01-01");
    }
    forall n | n in o.order ensures n in o.fields {
      assert n in Sorting.Names(o.order);
    }
    Confidence.MeanStaysWithinScores(o.confidence, o.order, o.fields, ty.threshold, ty.threshold);
  }

  lemma SampledIsSmooth(cfg: Config, t: string)
    requires cfg.maxIterations >= 7 && t in cfg.types && t != UNKNOWN_TYPE
    ensures Smooth(cfg, Sampled(cfg, t))
  {
    var o, l := Sampled(cfg, t), Gates.NoDuplicate;
    SampledIsAccepted(cfg, t);
    assert Gates.Passed(cfg, o, l, 0) && Gates.Passed(cfg, o, l, 1) && Gates.Passed(cfg, o, l, 2) && Gates.Passed(cfg, o, l, 3);
    assert Gates.Passed(cfg, o, l, 4) && Gates.Passed(cfg, o, l, 5) && Gates.Passed(cfg, o, l, 6);
  }

  /** A smooth environment exists exactly when the cap is at least 7 and there is a
      type other than "unknown", whatever its schema and threshold. */
  lemma {:induction false} SmoothExistsIff(cfg: Config)
    ensures (exists o :: Smooth(cfg, o)) <==> Gates.AutoProcesses(cfg)
  {
    if o :| Smooth(cfg, o) {
      SmoothMeans(cfg, o);
    }
    if Gates.AutoProcesses(cfg) {
      var t :| t in cfg.types && t != UNKNOWN_TYPE;
      SampledIsSmooth(cfg, t);
    }
  }

  /** A run that can be auto-processed. */
  ghost function SomeSmooth(cfg: Config): (o: Outcomes)
    requires Gates.AutoProcesses(cfg)
    ensures Smooth(cfg, o)
  {
    SmoothExistsIff(cfg);
    var o :| Smooth(cfg, o);
    o
  }

  /** Where a document has been auto-processed, a smooth environment exists. */
  lemma {:induction false} ProcessedMeansSmoothExists(cfg: Config, w: nat, k: nat, s: Sys, d: nat)
    requires Theorems.Reachable(cfg, w, k, s) && d < |s.db.docs| && s.db.docs[d].status == AutoProcessed
    ensures exists o :: Smooth(cfg, o)
  {
    Theorems.ReachableStates(cfg, w, k, s);
    SmoothExistsIff(cfg);
  }

  // ----- exactly one worker -----

  ghost predicate NoNearCopies(s: Sys) {
    forall d, e :: 0 <= d < e < |s.db.docs| && s.db.docs[d].status == AutoProcessed && s.db.docs[e].status == AutoProcessed ==>
      !SingleWorker.SameKey(s.db.docs[d], s.db.docs[e])
  }

  /** What was AUTO_PROCESSED still is. */
  ghost predicate StillProcessed(s: Sys, s': Sys) {
    forall d :: 0 <= d < |s.db.docs| && s.db.docs[d].status == AutoProcessed ==>
      d < |s'.db.docs| && s'.db.docs[d].status == AutoProcessed
  }

  /** No AUTO_PROCESSED document can come to exist. */
  lemma NothingProcessed(cfg: Config, w: nat, k: nat, s: Sys)
    requires Theorems.Reachable(cfg, w, k, s) && !Gates.AutoProcesses(cfg)
    ensures forall d :: 0 <= d < |s.db.docs| ==> s.db.docs[d].status != AutoProcessed
  {
    Theorems.ReachableStates(cfg, w, k, s);
  }

  /** That no two AUTO_PROCESSED documents of a tenant share type and key fields is
      a guarantee, even over call-level schedules only, exactly when there is one
      worker or nothing is ever auto-processed. */
  lemma {:induction false} NearCopiesExcludedIffOneWorker(cfg: Config, w: nat, k: nat)
    requires w >= 1
    ensures w == 1 || !Gates.AutoProcesses(cfg) <==>
      forall acts :: AtomicRun(cfg, Start(w, k), acts) ==> NoNearCopies(Execute(cfg, Start(w, k), acts))
  {
    if w == 1 {
      forall acts ensures NoNearCopies(Execute(cfg, Start(1, k), acts)) {
        var s := Execute(cfg, Start(1, k), acts);
        forall d, e | 0 <= d < e < |s.db.docs| && s.db.docs[d].status == AutoProcessed && s.db.docs[e].status == AutoProcessed
          ensures !SingleWorker.SameKey(s.db.docs[d], s.db.docs[e])
        {
          Theorems.OneWorkerNoNearCopies(cfg, k, s, d, e);
        }
      }
    } else if Gates.AutoProcesses(cfg) {
      var acts := TwoWorkersMissNearCopies(cfg, SomeSmooth(cfg), w, k, 0, "a", "b");
      var docs := Execute(cfg, Start(w, k), acts).db.docs;
      assert SingleWorker.SameKey(docs[0], docs[1]);
      assert !NoNearCopies(Execute(cfg, Start(w, k), acts));
    } else {
      forall acts ensures NoNearCopies(Execute(cfg, Start(w, k), acts)) {
        NothingProcessed(cfg, w, k, Execute(cfg, Start(w, k), acts));
      }
    }
  }

  /** That AUTO_PROCESSED is final is a guarantee, over all interleavings of
      statements, exactly when there is one worker or nothing is ever
      auto-processed. */
  lemma {:induction false} ProcessedIsFinalIffOneWorker(cfg: Config, w: nat, k: nat)
    requires w >= 1
    ensures w == 1 || !Gates.AutoProcesses(cfg) <==>
      forall acts, n: nat :: n <= |acts| ==> StillProcessed(Execute(cfg, Start(w, k), acts[..n]), Execute(cfg, Start(w, k), acts))
  {
    if w == 1 {
      forall acts, n: nat | n <= |acts| ensures StillProcessed(Execute(cfg, Start(1, k), acts[..n]), Execute(cfg, Start(1, k), acts)) {
        ProcessedStays(cfg, k, acts, n);
      }
    } else if Gates.AutoProcesses(cfg) {
      var acts, n := FinishedDocumentIsOverwritten(cfg, SomeSmooth(cfg), w, k);
      assert !StillProcessed(Execute(cfg, Start(w, k), acts[..n]), Execute(cfg, Start(w, k), acts));
    } else {
      forall acts, n: nat | n <= |acts| ensures StillProcessed(Execute(cfg, Start(w, k), acts[..n]), Execute(cfg, Start(w, k), acts)) {
        NothingProcessed(cfg, w, k, Execute(cfg, Start(w, k), acts[..n]));
      }
    }
  }

  lemma ProcessedStays(cfg: Config, k: nat, acts: seq<Act>, n: nat)
    requires n <= |acts|
    ensures StillProcessed(Execute(cfg, Start(1, k), acts[..n]), Execute(cfg, Start(1, k), acts))
  {
    var s := Execute(cfg, Start(1, k), acts[..n]);
    assert acts[..n] + acts[n..] == acts;
    ExecuteConcat(cfg, Start(1, k), acts[..n], acts[n..]);
    forall d | 0 <= d < |s.db.docs| && s.db.docs[d].status == AutoProcessed
      ensures d < |Execute(cfg, s, acts[n..]).db.docs| && Execute(cfg, s, acts[n..]).db.docs[d] == s.db.docs[d]
    {
      Theorems.OneWorkerFinality(cfg, k, s, acts[n..], d);
    }
  }
}
