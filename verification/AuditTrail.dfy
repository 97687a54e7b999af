/** The audit history of a document, as `AuditLogRepo.ListByDocument` selects it,
    replays to the document's status on every call-level schedule. */
module AuditTrail {
  import opened Prelude
  import opened Domain
  import opened Tables
  import opened Pipeline
  import opened Protocol
  import opened Ownership
  import opened CallLevel

  // ----- the query -----

  /** An entry about the document, one of its runs or one of its review tasks. */
  predicate About(db: Db, e: Entry, d: nat) {
    match e.entity
    case OfDocument(x) => x == d
    case OfRun(r) => r < |db.runs| && db.runs[r].doc == d
    case OfTask(t) => t < |db.tasks| && db.tasks[t].doc == d
  }

  /** The rows of `log` the query returns for a tenant and a document, in order. */
  function Selected(db: Db, log: seq<Entry>, tenant: nat, d: nat): seq<Entry> {
    if log == [] then []
    else
      var last := log[|log| - 1];
      Selected(db, log[..|log| - 1], tenant, d) + if last.tenant == tenant && About(db, last, d) then [last] else []
  }

  /** The query's WHERE clause, asked by the document's own tenant. */
  predicate Concerns(db: Db, e: Entry, d: nat) {
    e.tenant == TenantOf(db, d) && About(db, e, d)
  }

  /** The actions of those rows, in order. */
  function HistoryIn(db: Db, log: seq<Entry>, d: nat): seq<Action> {
    if log == [] then []
    else HistoryIn(db, log[..|log| - 1], d) + if Concerns(db, log[|log| - 1], d) then [log[|log| - 1].action] else []
  }

  function History(db: Db, d: nat): seq<Action> {
    HistoryIn(db, db.audit, d)
  }

  /** The entry is the tenant's, and about the document, one of its runs or one of its
      review tasks. */
  ghost predicate Wanted(db: Db, e: Entry, tenant: nat, d: nat) {
    && e.tenant == tenant
    && (e.entity == OfDocument(d)
        || (e.entity.OfRun? && e.entity.id < |db.runs| && db.runs[e.entity.id].doc == d)
        || (e.entity.OfTask? && e.entity.id < |db.tasks| && db.tasks[e.entity.id].doc == d))
  }

  /** Each wanted row is returned as often as it is in the log, and no other row. */
  lemma {:induction false} SelectedAreWanted(db: Db, log: seq<Entry>, tenant: nat, d: nat)
    ensures forall e :: multiset(Selected(db, log, tenant, d))[e] == if Wanted(db, e, tenant, d) then multiset(log)[e] else 0
  {
    if log != [] {
      var n := |log| - 1;
      SelectedAreWanted(db, log[..n], tenant, d);
      assert log == log[..n] + [log[n]];
    }
  }

  /** A document's history is what the query returns to its own tenant. */
  lemma {:induction false} HistoryIsSelection(db: Db, log: seq<Entry>, d: nat)
    ensures var rows := Selected(db, log, TenantOf(db, d), d);
      |HistoryIn(db, log, d)| == |rows| && forall i :: 0 <= i < |rows| ==> HistoryIn(db, log, d)[i] == rows[i].action
  {
    if log != [] {
      HistoryIsSelection(db, log[..|log| - 1], d);
    }
  }

  // ----- the automaton -----

  /** One entry read by the pipeline automaton; none when it does not fit. */
  function Delta(st: Status, a: Action): Option<Status> {
    match a
    case DocClassified => if st == Uploaded then Some(Classified) else None
    case DocExtracted => if st == Classified then Some(Extracted) else None
    case DocValidated => if st == Extracted then Some(Validated) else None
    case DocAutoProcessed => if st == Validated then Some(AutoProcessed) else None
    case DocRouted(why) => if StopsFrom(why, st) then Some(PendingReview) else None
    case RunRetrying(_) => if InPipeline(st) then Some(Uploaded) else None
    case RunFailedFor(_) => if InPipeline(st) then Some(Failed) else None
    case _ => if st == PendingReview then Some(Reviewed) else None
  }

  /** The automaton's state after a whole history, starting at UPLOADED. */
  function Replay(h: seq<Action>): Option<Status> {
    if h == [] then Some(Uploaded)
    else
      var before := Replay(h[..|h| - 1]);
      if before.None? then None else Delta(before.value, h[|h| - 1])
  }

  lemma ReplayAppend(h: seq<Action>, a: Action)
    ensures Replay(h + [a]) == if Replay(h).None? then None else Delta(Replay(h).value, a)
  {
    assert (h + [a])[..|h|] == h;
  }

  /** The entries that end the agent's work on a document. */
  predicate Concludes(a: Action) {
    a.DocAutoProcessed? || a.DocRouted? || a.RunFailedFor?
  }

  predicate Reviews(a: Action) {
    a.ReviewApproved? || a.ReviewRejected? || a.ReviewCorrected?
  }

  lemma {:induction false} SettledMeansConcluded(h: seq<Action>)
    requires Replay(h).Some?
    ensures Settled(Replay(h).value) <==> h != [] && (Concludes(h[|h| - 1]) || Reviews(h[|h| - 1]))
    ensures Replay(h).value == PendingReview <==> h != [] && h[|h| - 1].DocRouted?
  {
    if h != [] {
      SettledMeansConcluded(h[..|h| - 1]);
    }
  }

  /** The shape of every word of the automaton: any number of retried runs, then
      at most one concluding entry, then, if that routed the document to review,
      at most one review entry. */
  lemma {:induction false} WordsConcludeOnce(h: seq<Action>, i: nat)
    requires Replay(h).Some? && i < |h|
    ensures Concludes(h[i]) ==> i == |h| - 1 || (i == |h| - 2 && h[i].DocRouted? && Reviews(h[i + 1]))
    ensures Reviews(h[i]) ==> i == |h| - 1 && i >= 1 && h[i - 1].DocRouted?
  {
    var n := |h| - 1;
    SettledMeansConcluded(h[..n]);
    if i < n {
      WordsConcludeOnce(h[..n], i);
    }
  }

  // ----- the invariant -----

  /** The entry a position still owes for a status it has already written. */
  function Owed(pc: Pc): Option<Action> {
    match pc
    case AuditClassified => Some(DocClassified)
    case AuditExtracted => Some(DocExtracted)
    case AuditValidated => Some(DocValidated)
    case RecordFinalize => Some(DocAutoProcessed)
    case FinishAuto => Some(DocAutoProcessed)
    case AuditAuto => Some(DocAutoProcessed)
    case AuditRetry(cause) => Some(RunRetrying(cause))
    case AuditFailed(cause) => Some(RunFailedFor(cause))
    case FinishReview(_, reason) => Some(DocRouted(reason))
    case AuditRouted(reason) => Some(DocRouted(reason))
    case _ => None
  }

  predicate Agrees(h: seq<Action>, owed: Option<Action>, st: Status) {
    Replay(if owed.Some? then h + [owed.value] else h) == Some(st)
  }

  function DeskOwes(k: Desk): Option<Action>
    requires k.Busy?
  {
    if k.step.AuditReview? then Some(DecisionAction(k.req.decision)) else None
  }

  ghost predicate Documented(s: Sys, w: nat)
    requires w < |s.workers|
  {
    var c := s.workers[w];
    c.At? ==> c.doc < |s.db.docs| && Agrees(History(s.db, c.doc), Owed(c.pc), s.db.docs[c.doc].status)
  }

  ghost predicate DeskDocumented(s: Sys, i: nat)
    requires i < |s.desks|
  {
    var k := s.desks[i];
    k.Busy? && !k.step.LoadDoc? ==>
      k.req.doc < |s.db.docs| && Agrees(History(s.db, k.req.doc), DeskOwes(k), s.db.docs[k.req.doc].status)
  }

  /** A document nobody is working on: its history replays to its status, except
      that a run which could not even load the row fails without an entry. */
  ghost predicate DocDocumented(s: Sys, d: nat)
    requires d < |s.db.docs|
  {
    if d in s.silent then s.db.docs[d].status == Failed && Replay(History(s.db, d)) == Some(Uploaded)
    else Replay(History(s.db, d)) == Some(s.db.docs[d].status)
  }

  ghost predicate Reviewing(s: Sys, d: nat) {
    exists i :: 0 <= i < |s.desks| && s.desks[i].Busy? && s.desks[i].step.AuditReview? && s.desks[i].req.doc == d
  }

  ghost predicate EntryValid(db: Db, e: Entry) {
    match e.entity
    case OfDocument(x) => x < |db.docs|
    case OfRun(r) => r < |db.runs|
    case OfTask(t) => t < |db.tasks|
  }

  ghost predicate AllDocumented(s: Sys) {
    && (forall i :: 0 <= i < |s.db.audit| ==> EntryValid(s.db, s.db.audit[i]))
    && (forall w :: 0 <= w < |s.workers| ==> Documented(s, w))
    && (forall i :: 0 <= i < |s.desks| ==> DeskDocumented(s, i))
    && (forall d :: 0 <= d < |s.db.docs| && !Held(s, d) && !Reviewing(s, d) ==> DocDocumented(s, d))
    && (forall d :: d in s.silent ==> d < |s.db.docs| && s.db.docs[d].status == Failed && !Held(s, d))
  }

  // ----- how histories change -----

  /** The tables a history looks at only ever grow, and keep what it reads. */
  ghost predicate Extends(db: Db, db': Db) {
    && |db.docs| <= |db'.docs| && |db.runs| <= |db'.runs| && |db.tasks| <= |db'.tasks|
    && (forall d :: 0 <= d < |db.docs| ==> db'.docs[d].tenant == db.docs[d].tenant)
    && (forall r :: 0 <= r < |db.runs| ==> db'.runs[r].doc == db.runs[r].doc)
    && (forall t :: 0 <= t < |db.tasks| ==> db'.tasks[t].doc == db.tasks[t].doc)
  }

  lemma {:induction false} HistoryKept(db: Db, db': Db, log: seq<Entry>, d: nat)
    requires Extends(db, db') && d < |db.docs|
    requires forall i :: 0 <= i < |log| ==> EntryValid(db, log[i])
    ensures HistoryIn(db', log, d) == HistoryIn(db, log, d)
  {
    if log != [] {
      HistoryKept(db, db', log[..|log| - 1], d);
    }
  }

  /** What happens to the history of a document when at most one entry is added. */
  lemma HistoryGrows(db: Db, db': Db, e: Option<Entry>, d: nat)
    requires Extends(db, db') && d < |db.docs|
    requires forall i :: 0 <= i < |db.audit| ==> EntryValid(db, db.audit[i])
    requires db'.audit == (if e.Some? then db.audit + [e.value] else db.audit)
    ensures History(db', d) == History(db, d) + if e.Some? && Concerns(db', e.value, d) then [e.value.action] else []
  {
    HistoryKept(db, db', db.audit, d);
    if e.Some? {
      assert db'.audit[..|db.audit|] == db.audit;
    }
  }

  function EntryOf(stmt: Stmt): Option<Entry> {
    if stmt.Audit? then Some(stmt.entry) else None
  }

  lemma ExecExtends(db: Db, stmt: Stmt)
    ensures Extends(db, Exec(db, stmt))
    ensures Exec(db, stmt).audit == if stmt.Audit? then db.audit + [stmt.entry] else db.audit
  {
    ExecFrame(db, stmt);
  }

  /** An agent's entry is about its own document only. */
  lemma AgentEntryConcerns(cfg: Config, s: Sys, w: nat, d: nat)
    requires Owned(cfg, s) && w < |s.workers| && s.workers[w].At? && Issue(cfg, s.db, s.workers[w]).Audit? && d < |s.db.docs|
    ensures var e := Issue(cfg, s.db, s.workers[w]).entry;
      && EntryValid(s.db, e)
      && Concerns(Exec(s.db, Issue(cfg, s.db, s.workers[w])), e, d) == (d == s.workers[w].doc)
      && Owed(s.workers[w].pc) == Some(e.action)
  {
    assert Owns(cfg, s, w);
  }

  // ----- the automaton follows the program -----

  // A statement that writes a status owes the entry that takes the automaton
  // there, unless its run never loaded the document.

  /** The statement of a position without debts. */
  ghost predicate Incurs(cfg: Config, db: Db, c: Ctl)
    requires c.At? && !Tail(c.pc)
  {
    var stmt, next, st := Issue(cfg, db, c), Goto(cfg, db, c), StatusAt(c.pc);
    && !stmt.Audit? && next.Some?
    && (Owed(next.value).None? ==> NewStatus(stmt, st) == st)
    && (Owed(next.value).Some? ==> Delta(st, Owed(next.value).value) == Some(NewStatus(stmt, st)))
  }

  lemma ExtractionIncurs(cfg: Config, db: Db, c: Ctl)
    requires c.At? && c.doc < |db.docs| && Early(c.pc) && Owed(c.pc).None?
    ensures Incurs(cfg, db, c)
  {
  }

  lemma LookupsIncur(cfg: Config, db: Db, c: Ctl)
    requires c.At? && c.doc < |db.docs| && LooksUp(c.pc)
    ensures Incurs(cfg, db, c)
  {
  }

  lemma GatesIncur(cfg: Config, db: Db, c: Ctl)
    requires c.At? && c.doc < |db.docs| && !Early(c.pc) && !Tail(c.pc) && !LooksUp(c.pc) && Owed(c.pc).None?
    ensures Incurs(cfg, db, c)
  {
  }

  lemma TailIncurs(cfg: Config, db: Db, c: Ctl, st: Status)
    requires c.At? && Tail(c.pc) && StatusFits(c.pc, st) && Owed(c.pc).None?
    ensures var stmt, next := Issue(cfg, db, c), Goto(cfg, db, c);
      && !stmt.Audit?
      && (next.Some? && Owed(next.value).None? ==> NewStatus(stmt, st) == st)
      && (next.Some? && Owed(next.value).Some? ==> Delta(st, Owed(next.value).value) == Some(NewStatus(stmt, st)))
      && (next.None? ==> st == Uploaded && (NewStatus(stmt, st) == Uploaded || (c.pc.PersistFailed? && !c.pc.known && NewStatus(stmt, st) == Failed)))
      && (c.pc.PersistFailed? && !c.pc.known ==> next.None? && NewStatus(stmt, st) == Failed)
  {
  }

  lemma DebtsArePaid(cfg: Config, db: Db, c: Ctl)
    requires c.At? && Owed(c.pc).Some?
    ensures var stmt, next := Issue(cfg, db, c), Goto(cfg, db, c);
      && !SetsStatus(stmt) && !c.pc.PersistFailed?
      && (stmt.Audit? ==> Owed(c.pc) == Some(stmt.entry.action) && (next.Some? ==> Owed(next.value).None?))
      && (!stmt.Audit? ==> next.Some? && Owed(next.value) == Owed(c.pc))
  {
  }

  lemma StepAgrees(cfg: Config, db: Db, c: Ctl, st: Status, h: seq<Action>)
    requires c.At? && c.doc < |db.docs| && StatusFits(c.pc, st) && Agrees(h, Owed(c.pc), st)
    ensures var stmt, next := Issue(cfg, db, c), Goto(cfg, db, c);
      var h' := h + if stmt.Audit? then [stmt.entry.action] else [];
      var st' := NewStatus(stmt, st);
      if c.pc.PersistFailed? && !c.pc.known then next.None? && st' == Failed && Replay(h') == Some(Uploaded)
      else Agrees(h', if next.Some? then Owed(next.value) else None, st')
  {
    var stmt, next := Issue(cfg, db, c), Goto(cfg, db, c);
    assert h + [] == h;
    if Owed(c.pc).Some? {
      DebtsArePaid(cfg, db, c);
    } else {
      if Tail(c.pc) { TailIncurs(cfg, db, c, st); } else if Early(c.pc) { ExtractionIncurs(cfg, db, c); }
      else if LooksUp(c.pc) { LookupsIncur(cfg, db, c); } else { GatesIncur(cfg, db, c); }
      if next.Some? && Owed(next.value).Some? {
        ReplayAppend(h, Owed(next.value).value);
      }
    }
  }

  // ----- preservation -----

  /** Documents, workers and desks that a step leaves alone stay documented. */
  lemma Undisturbed(s: Sys, s': Sys, e: Option<Entry>, d: nat)
    requires Extends(s.db, s'.db) && d < |s.db.docs| && s'.db.docs[d].status == s.db.docs[d].status
    requires forall i :: 0 <= i < |s.db.audit| ==> EntryValid(s.db, s.db.audit[i])
    requires s'.db.audit == (if e.Some? then s.db.audit + [e.value] else s.db.audit)
    requires e.Some? ==> !Concerns(s'.db, e.value, d)
    ensures History(s'.db, d) == History(s.db, d)
  {
    HistoryGrows(s.db, s'.db, e, d);
    assert History(s.db, d) + [] == History(s.db, d);
  }

  lemma EntriesStayValid(db: Db, db': Db)
    requires Extends(db, db') && forall i :: 0 <= i < |db.audit| ==> EntryValid(db, db.audit[i])
    requires db'.audit == db.audit || (|db'.audit| == |db.audit| + 1 && db'.audit[..|db.audit|] == db.audit && EntryValid(db', db'.audit[|db.audit|]))
    ensures forall i :: 0 <= i < |db'.audit| ==> EntryValid(db', db'.audit[i])
  {
    forall i | 0 <= i < |db'.audit| ensures EntryValid(db', db'.audit[i]) {
      if i < |db.audit| {
        assert db'.audit[i] == db'.audit[..|db.audit|][i] == db.audit[i];
        assert EntryValid(db, db.audit[i]);
      }
    }
  }

  /** The mover's own document, after its statement. */
  lemma MoverDocumented(cfg: Config, s: Sys, w: nat)
    requires Owned(cfg, s) && w < |s.workers| && s.workers[w].At? && Fits(s, w) && Documented(s, w)
    requires forall i :: 0 <= i < |s.db.audit| ==> EntryValid(s.db, s.db.audit[i])
    ensures var s', c := DoAdvance(cfg, s, w), s.workers[w];
      && |s'.db.docs| == |s.db.docs| && c.doc < |s.db.docs|
      && Documented(s', w)
      && (s'.workers[w].Idle? ==>
            if c.pc.PersistFailed? && !c.pc.known then s'.db.docs[c.doc].status == Failed && Replay(History(s'.db, c.doc)) == Some(Uploaded)
            else Replay(History(s'.db, c.doc)) == Some(s'.db.docs[c.doc].status))
      && (c.pc.PersistFailed? && !c.pc.known ==> s'.workers[w].Idle?)
  {
    var c := s.workers[w];
    var stmt, st := Issue(cfg, s.db, c), s.db.docs[c.doc].status;
    var h := History(s.db, c.doc);
    OwnStatement(cfg, s.db, c);
    ExecFrame(s.db, stmt);
    ExecExtends(s.db, stmt);
    assert Exec(s.db, stmt).docs[c.doc].status == NewStatus(stmt, st);
    StepAgrees(cfg, s.db, c, st, h);
    if stmt.Audit? {
      AgentEntryConcerns(cfg, s, w, c.doc);
    }
    HistoryGrows(s.db, Exec(s.db, stmt), EntryOf(stmt), c.doc);
  }

  lemma EntriesAfterAdvance(cfg: Config, s: Sys, w: nat)
    requires Owned(cfg, s) && AllDocumented(s) && w < |s.workers| && s.workers[w].At?
    ensures var s' := DoAdvance(cfg, s, w);
      Extends(s.db, s'.db) && forall i :: 0 <= i < |s'.db.audit| ==> EntryValid(s'.db, s'.db.audit[i])
  {
    var c, s' := s.workers[w], DoAdvance(cfg, s, w);
    var stmt := Issue(cfg, s.db, c);
    assert Owns(cfg, s, w);
    ExecExtends(s.db, stmt);
    if stmt.Audit? {
      AgentEntryConcerns(cfg, s, w, c.doc);
    }
    EntriesStayValid(s.db, s'.db);
  }

  /** The history of a document the mover does not hold. */
  lemma OtherUndisturbed(cfg: Config, s: Sys, w: nat, d: nat)
    requires Owned(cfg, s) && AllDocumented(s) && w < |s.workers| && s.workers[w].At? && d < |s.db.docs| && d != s.workers[w].doc
    ensures History(DoAdvance(cfg, s, w).db, d) == History(s.db, d)
  {
    var c, s' := s.workers[w], DoAdvance(cfg, s, w);
    var stmt := Issue(cfg, s.db, c);
    ExecExtends(s.db, stmt);
    ExecFrame(s.db, stmt);
    OwnStatement(cfg, s.db, c);
    if stmt.Audit? { AgentEntryConcerns(cfg, s, w, d); }
    HistoryGrows(s.db, s'.db, EntryOf(stmt), d);
    assert History(s.db, d) + [] == History(s.db, d);
  }

  lemma WorkersStayDocumented(cfg: Config, s: Sys, w: nat, v: nat)
    requires Owned(cfg, s) && Consistent(s) && AllDocumented(s) && w < |s.workers| && s.workers[w].At? && v < |s.workers| && v != w
    ensures Documented(DoAdvance(cfg, s, w), v)
  {
    assert Fits(s, w) && Documented(s, v) && Fits(s, v);
    if s.workers[v].At? {
      assert v < w ==> s.workers[v].doc != s.workers[w].doc;
      MoverFits(cfg, s, w);
      OtherUndisturbed(cfg, s, w, s.workers[v].doc);
    }
  }

  lemma DocumentedAfterAdvance(cfg: Config, s: Sys, w: nat)
    requires Owned(cfg, s) && Consistent(s) && AllDocumented(s) && Atomic(s, Advance(w)) && w < |s.workers| && s.workers[w].At?
    ensures AllDocumented(DoAdvance(cfg, s, w))
  {
    var c := s.workers[w];
    var s' := DoAdvance(cfg, s, w);
    assert Fits(s, w) && Documented(s, w);
    MoverFits(cfg, s, w);
    MoverDocumented(cfg, s, w);
    EntriesAfterAdvance(cfg, s, w);
    HeldWhileAt(s, w);
    HeldWhileAt(s', w);
    forall v | 0 <= v < |s'.workers| ensures Documented(s', v) {
      if v != w { WorkersStayDocumented(cfg, s, w, v); }
    }
    forall d | 0 <= d < |s'.db.docs| && !Held(s', d) && !Reviewing(s', d) ensures DocDocumented(s', d) {
      if d != c.doc { DocsStayDocumented(cfg, s, w, d); }
    }
    forall d | d in s'.silent ensures d < |s'.db.docs| && s'.db.docs[d].status == Failed && !Held(s', d) {
      if d != c.doc {
        NotHeldAfter(s, s', w, d);
      } else {
        NotHeldAfterLeaving(cfg, s, w);
      }
    }
  }

  lemma DocsStayDocumented(cfg: Config, s: Sys, w: nat, d: nat)
    requires Owned(cfg, s) && Consistent(s) && AllDocumented(s) && w < |s.workers| && s.workers[w].At?
    requires d < |s.db.docs| && d != s.workers[w].doc && !Held(DoAdvance(cfg, s, w), d) && !Reviewing(DoAdvance(cfg, s, w), d)
    ensures |DoAdvance(cfg, s, w).db.docs| == |s.db.docs| && DocDocumented(DoAdvance(cfg, s, w), d)
  {
    assert Fits(s, w);
    MoverFits(cfg, s, w);
    OtherUndisturbed(cfg, s, w, d);
    HeldKept(s, DoAdvance(cfg, s, w), d);
    assert DocDocumented(s, d);
  }

  lemma NotHeldAfter(s: Sys, s': Sys, w: nat, d: nat)
    requires |s'.workers| == |s.workers| && w < |s.workers| && (forall v :: 0 <= v < |s.workers| && v != w ==> s'.workers[v] == s.workers[v])
    requires s'.workers[w].At? ==> s'.workers[w].doc != d
    requires !Held(s, d)
    ensures !Held(s', d)
  {
  }

  lemma NotHeldAfterLeaving(cfg: Config, s: Sys, w: nat)
    requires w < |s.workers| && s.workers[w].At? && Apart(s) && DoAdvance(cfg, s, w).workers[w].Idle?
    ensures !Held(DoAdvance(cfg, s, w), s.workers[w].doc)
  {
    forall v | 0 <= v < |s.workers| && v != w && s.workers[v].At? ensures s.workers[v].doc != s.workers[w].doc {
      if v < w { assert s.workers[v].doc != s.workers[w].doc; }
    }
  }

  lemma DocumentedAfterClaim(cfg: Config, s: Sys, w: nat, o: Outcomes)
    requires Owned(cfg, s) && Consistent(s) && AllDocumented(s) && Atomic(s, Claim(w, o)) && Enabled(cfg, s, Claim(w, o))
    ensures AllDocumented(Next(cfg, s, Claim(w, o)))
  {
    var d0 := Claimed(s);
    var s' := Next(cfg, s, Claim(w, o));
    ClaimedIsFree(cfg, s, w, o);
    EntriesStayValid(s.db, s'.db);
    forall d | 0 <= d < |s.db.docs| ensures History(s'.db, d) == History(s.db, d) {
      Undisturbed(s, s', None, d);
    }
    assert !Reviewing(s, d0);
    assert DocDocumented(s, d0);
    forall v | 0 <= v < |s'.workers| ensures Documented(s', v) {
      assert Documented(s, v);
    }
    forall i | 0 <= i < |s'.desks| ensures DeskDocumented(s', i) {
      assert DeskDocumented(s, i);
    }
    forall d | 0 <= d < |s'.db.docs| && !Held(s', d) && !Reviewing(s', d) ensures DocDocumented(s', d) {
      HeldKept(s, s', d);
      assert !Reviewing(s, d);
      assert DocDocumented(s, d);
    }
    forall d | d in s'.silent ensures d < |s'.db.docs| && s'.db.docs[d].status == Failed && !Held(s', d) {
      NotHeldAfter(s, s', w, d);
    }
  }

  lemma HistoryAfterReview(s: Sys, i: nat, d: nat)
    requires Consistent(s) && AllDocumented(s) && i < |s.desks| && s.desks[i].Busy? && d < |s.db.docs|
    ensures var s', k := DoReview(s, i), s.desks[i];
      && Extends(s.db, s'.db)
      && History(s'.db, d) == History(s.db, d) + if k.step.AuditReview? && d == k.req.doc then [DecisionAction(k.req.decision)] else []
  {
    var s', k := DoReview(s, i), s.desks[i];
    assert DeskFits(s, i);
    ExecExtends(s.db, DeskIssue(s.db, k));
    HistoryGrows(s.db, s'.db, EntryOf(DeskIssue(s.db, k)), d);
  }

  lemma ReviewedBy(s: Sys, i: nat)
    requires i < |s.desks|
    ensures s.desks[i].Busy? && s.desks[i].step.AuditReview? ==> Reviewing(s, s.desks[i].req.doc)
  {
  }

  lemma OnlyDeskBusy(s: Sys, i: nat, d: nat)
    requires Atomic(s, Review(i)) && i < |s.desks| && s.desks[i].Busy? && Reviewing(s, d)
    ensures s.desks[i].step.AuditReview? && s.desks[i].req.doc == d
  {
  }

  lemma NobodyHoldsPending(s: Sys, d: nat, i: nat)
    requires Consistent(s) && Atomic(s, Review(i)) && d < |s.db.docs| && s.db.docs[d].status == PendingReview && i < |s.desks|
    requires s.desks[i].Busy? && s.desks[i].step.LoadDoc?
    ensures !Held(s, d) && !Reviewing(s, d)
  {
    forall v | 0 <= v < |s.workers| && s.workers[v].At? ensures s.workers[v].doc != d {
      assert Fits(s, v) && !InTail(s.workers[v]);
    }
  }

  lemma DeskAfterReview(s: Sys, i: nat)
    requires Consistent(s) && AllDocumented(s) && Atomic(s, Review(i)) && i < |s.desks| && s.desks[i].Busy?
    ensures DeskDocumented(DoReview(s, i), i)
  {
    var k := s.desks[i];
    assert DeskFits(s, i) && DeskDocumented(s, i);
    DeskFrame(s, i);
    if DeskAfter(s.db, k).Busy? {
      var h := History(s.db, k.req.doc);
      assert h + [] == h;
      HistoryAfterReview(s, i, k.req.doc);
      if k.step.LoadDoc? {
        NobodyHoldsPending(s, k.req.doc, i);
        assert DocDocumented(s, k.req.doc);
      } else {
        ReplayAppend(h, DecisionAction(k.req.decision));
      }
    }
  }

  lemma DocAfterReview(s: Sys, i: nat, d: nat)
    requires Consistent(s) && AllDocumented(s) && Atomic(s, Review(i)) && i < |s.desks| && s.desks[i].Busy? && d < |s.db.docs|
    requires !Held(s, d) && !Reviewing(DoReview(s, i), d)
    ensures |DoReview(s, i).db.docs| == |s.db.docs|
    ensures DocDocumented(DoReview(s, i), d)
  {
    var s', k := DoReview(s, i), s.desks[i];
    DeskFrame(s, i);
    assert DeskFits(s, i) && DeskDocumented(s, i);
    HistoryAfterReview(s, i, d);
    var h := History(s.db, d);
    assert h + [] == h;
    ReviewedBy(s', i);
    ReviewedBy(s, i);
    if Reviewing(s, d) {
      OnlyDeskBusy(s, i, d);
    } else {
      assert DocDocumented(s, d);
    }
  }

  lemma WorkerAfterReview(s: Sys, i: nat, v: nat)
    requires Consistent(s) && AllDocumented(s) && Atomic(s, Review(i)) && i < |s.desks| && s.desks[i].Busy? && v < |s.workers|
    ensures Documented(DoReview(s, i), v)
  {
    DeskFrame(s, i);
    assert DeskFits(s, i) && Documented(s, v) && Fits(s, v) && !InTail(s.workers[v]);
    if s.workers[v].At? {
      HistoryAfterReview(s, i, s.workers[v].doc);
      assert History(s.db, s.workers[v].doc) + [] == History(s.db, s.workers[v].doc);
    }
  }

  lemma DocumentedAfterReview(cfg: Config, s: Sys, i: nat)
    requires Owned(cfg, s) && Consistent(s) && AllDocumented(s) && Atomic(s, Review(i)) && i < |s.desks| && s.desks[i].Busy?
    ensures AllDocumented(DoReview(s, i))
  {
    var s', k := DoReview(s, i), s.desks[i];
    assert DeskFits(s, i);
    DeskFrame(s, i);
    ExecExtends(s.db, DeskIssue(s.db, k));
    EntriesStayValid(s.db, s'.db);
    forall v | 0 <= v < |s'.workers| ensures Documented(s', v) {
      WorkerAfterReview(s, i, v);
    }
    DeskAfterReview(s, i);
    forall j | 0 <= j < |s'.desks| ensures DeskDocumented(s', j) {
      assert j != i ==> s'.desks[j].Free?;
    }
    forall d | 0 <= d < |s'.db.docs| && !Held(s', d) && !Reviewing(s', d) ensures DocDocumented(s', d) {
      HeldKept(s, s', d);
      DocAfterReview(s, i, d);
    }
    forall d | d in s'.silent ensures d < |s'.db.docs| && s'.db.docs[d].status == Failed && !Held(s', d) {
      HeldKept(s', s, d);
    }
  }

  lemma {:induction false} DocumentedAfter(cfg: Config, s: Sys, a: Act)
    requires Owned(cfg, s) && Consistent(s) && AllDocumented(s) && Atomic(s, a)
    ensures AllDocumented(Next(cfg, s, a))
  {
    if Enabled(cfg, s, a) {
      match a
      case Upload(_, _) => DocumentedFramed(cfg, s, a);
      case Claim(w, o) => DocumentedAfterClaim(cfg, s, w, o);
      case Advance(w) => DocumentedAfterAdvance(cfg, s, w);
      case OpenReview(_, _) => DocumentedFramed(cfg, s, a);
      case Review(i) => DocumentedAfterReview(cfg, s, i);
    }
  }

  lemma DocumentedFramed(cfg: Config, s: Sys, a: Act)
    requires Owned(cfg, s) && Consistent(s) && AllDocumented(s) && Atomic(s, a) && Enabled(cfg, s, a) && (a.Upload? || a.OpenReview?)
    ensures AllDocumented(Next(cfg, s, a))
  {
    var s' := Next(cfg, s, a);
    EntriesStayValid(s.db, s'.db);
    forall d | 0 <= d < |s.db.docs| ensures History(s'.db, d) == History(s.db, d) {
      Undisturbed(s, s', None, d);
    }
    forall v | 0 <= v < |s'.workers| ensures Documented(s', v) {
      assert Documented(s, v);
    }
    forall j | 0 <= j < |s'.desks| ensures DeskDocumented(s', j) {
      assert DeskDocumented(s, j);
    }
    forall d | 0 <= d < |s'.db.docs| && !Held(s', d) && !Reviewing(s', d) ensures DocDocumented(s', d) {
      if d < |s.db.docs| {
        HeldKept(s, s', d);
        assert !Reviewing(s, d);
        assert DocDocumented(s, d);
      } else {
        forall r | 0 <= r < |s.db.runs| ensures s.db.runs[r].doc < d {
          assert Driven(s, r);
        }
        NothingBefore(s, s', d);
      }
    }
    forall d | d in s'.silent ensures d < |s'.db.docs| && s'.db.docs[d].status == Failed && !Held(s', d) {
      assert !Held(s, d);
    }
  }

  /** A freshly uploaded document has no history. */
  lemma NothingBefore(s: Sys, s': Sys, d: nat)
    requires d == |s.db.docs| < |s'.db.docs| && s'.db.docs[d].status == Uploaded
    requires s'.db.audit == s.db.audit && s'.db.runs == s.db.runs && s'.db.tasks == s.db.tasks && s'.silent == s.silent
    requires forall i :: 0 <= i < |s.db.audit| ==> EntryValid(s.db, s.db.audit[i])
    requires (forall r :: 0 <= r < |s.db.runs| ==> s.db.runs[r].doc < d) && (forall t :: 0 <= t < |s.db.tasks| ==> s.db.tasks[t].doc < d)
    requires d !in s.silent
    ensures DocDocumented(s', d)
  {
    NoHistory(s'.db, s'.db.audit, d);
  }

  lemma {:induction false} NoHistory(db: Db, log: seq<Entry>, d: nat)
    requires forall i :: 0 <= i < |log| ==> !Concerns(db, log[i], d)
    ensures HistoryIn(db, log, d) == []
  {
    if log != [] {
      NoHistory(db, log[..|log| - 1], d);
    }
  }
}
