/** The whole system: any number of workers and reviewers around one database,
    every database statement one step, in any interleaving. */
module Protocol {
  import opened Prelude
  import opened Domain
  import opened Tables
  import opened Pipeline

  /** The database, where everyone stands, and history that no code reads:
      `plan[r]` is what the environment decided for run `r`, `requeues[d]` counts
      the times `d` was set back to UPLOADED, `left` lists the documents in the
      order the agent let go of them, `silent` holds the documents that failed
      without an audit entry and `torn` those whose review stopped half-way. */
  datatype Sys = Sys(
    db: Db, workers: seq<Ctl>, desks: seq<Desk>,
    plan: seq<Outcomes>, requeues: seq<nat>, left: seq<nat>, silent: set<nat>, torn: set<nat>)

  datatype Act =
    | Upload(tenant: nat, contentHash: string)
    | Claim(w: nat, o: Outcomes)
    | Advance(w: nat)
    | OpenReview(i: nat, req: Request)
    | Review(i: nat)

  ghost function Start(workers: nat, desks: nat): Sys {
    Sys(Db([], [], [], [], [], []), seq(workers, _ => Idle), seq(desks, _ => Free), [], [], [], {}, {})
  }

  predicate Settled(st: Status) {
    st == PendingReview || st == AutoProcessed || st == Reviewed || st == Failed
  }

  ghost predicate Enabled(cfg: Config, s: Sys, a: Act) {
    match a
    case Upload(_, _) => true
    case Claim(w, o) => w < |s.workers| && s.workers[w].Idle? && WellFormed(cfg, o) && CanClaim(s.db)
    case Advance(w) => w < |s.workers| && s.workers[w].At?
    case OpenReview(i, req) => i < |s.desks| && s.desks[i].Free? && GoodRequest(req)
    case Review(i) => i < |s.desks| && s.desks[i].Busy?
  }

  ghost function DoUpload(s: Sys, tenant: nat, contentHash: string): Sys {
    s.(db := Create(s.db, tenant, contentHash), requeues := s.requeues + [0])
  }

  ghost function DoClaim(s: Sys, w: nat, o: Outcomes, d: nat): Sys
    requires w < |s.workers|
  {
    s.(db := OpenRun(s.db, d, w),
       workers := s.workers[w := At(Load, d, |s.db.runs|, o)],
       plan := s.plan + [o])
  }

  ghost function DoAdvance(cfg: Config, s: Sys, w: nat): Sys
    requires w < |s.workers| && s.workers[w].At?
  {
    var c := s.workers[w];
    var stmt := Issue(cfg, s.db, c);
    s.(db := Exec(s.db, stmt),
       workers := s.workers[w := After(cfg, s.db, c)],
       requeues := if stmt.MarkUploaded? && c.doc < |s.requeues| then s.requeues[c.doc := s.requeues[c.doc] + 1] else s.requeues,
       left := if SetsStatus(stmt) && Settled(StatusWritten(stmt)) then s.left + [c.doc] else s.left,
       silent := if c.pc.PersistFailed? && !c.pc.known then s.silent + {c.doc} else s.silent)
  }

  ghost function DoReview(s: Sys, i: nat): Sys
    requires i < |s.desks| && s.desks[i].Busy?
  {
    var k := s.desks[i];
    s.(db := Exec(s.db, DeskIssue(s.db, k)),
       desks := s.desks[i := DeskAfter(s.db, k)],
       torn := if k.step.MarkDoc? && !k.req.markOk then s.torn + {k.req.doc} else s.torn)
  }

  ghost function DoOpen(s: Sys, i: nat, req: Request): Sys
    requires i < |s.desks|
  {
    s.(desks := s.desks[i := Busy(LoadDoc, req)])
  }

  ghost predicate CanClaim(db: Db) {
    exists d :: 0 <= d < |db.docs| && IsNextClaim(db, d)
  }

  /** The document a claim would take: there is at most one candidate. */
  ghost function Claimed(s: Sys): (d: nat)
    requires CanClaim(s.db)
    ensures IsNextClaim(s.db, d)
  {
    var d :| 0 <= d < |s.db.docs| && IsNextClaim(s.db, d);
    d
  }

  /** One step. An act that is not enabled changes nothing. */
  ghost function Next(cfg: Config, s: Sys, a: Act): Sys {
    if !Enabled(cfg, s, a) then s
    else
      match a
      case Upload(tenant, contentHash) => DoUpload(s, tenant, contentHash)
      case Claim(w, o) => DoClaim(s, w, o, Claimed(s))
      case Advance(w) => DoAdvance(cfg, s, w)
      case OpenReview(i, req) => DoOpen(s, i, req)
      case Review(i) => DoReview(s, i)
  }

  ghost function Execute(cfg: Config, s: Sys, acts: seq<Act>): Sys {
    if acts == [] then s else Next(cfg, Execute(cfg, s, acts[..|acts| - 1]), acts[|acts| - 1])
  }

  // ----- the shape of the control program -----

  /** The run is still RUNNING when the worker is about to issue this statement. */
  predicate Live(pc: Pc) {
    !(pc.AuditAuto? || pc.FailCount? || pc.Requeue? || pc.AuditRetry? || pc.PersistFailed? || pc.AuditFailed? || pc.AuditRouted?)
  }

  /** The worker has not yet written the status its run ends with. */
  predicate Undecided(pc: Pc) {
    !(pc.RecordFinalize? || pc.FinishAuto? || pc.AuditAuto? || pc.AuditRetry? || pc.AuditFailed? || pc.FinishReview? || pc.AuditRouted?)
  }

  /** The run has been finished as FAILED. */
  predicate EndsFailed(pc: Pc) {
    pc.FailCount? || pc.Requeue? || pc.AuditRetry? || pc.PersistFailed? || pc.AuditFailed?
  }

  /** A statement concerns only the worker's own document and run. */
  lemma OwnStatement(cfg: Config, db: Db, c: Ctl)
    requires c.At?
    ensures var stmt := Issue(cfg, db, c);
      && (TouchesDoc(stmt) ==> stmt.doc == c.doc)
      && (stmt.Finish? ==> stmt.run == c.run)
      && (stmt.RecordTool? ==> stmt.run == c.run)
      && (stmt.InsertBatch? ==> forall i :: 0 <= i < |stmt.rows| ==> stmt.rows[i].doc == c.doc)
      && (stmt.CreateTask? ==> stmt.doc == c.doc)
      && !stmt.Resolve? && !stmt.MarkReviewed?
  {
  }

  /** A run is finished by the one Finish that ends the live part of the program. */
  lemma FinishEndsLife(cfg: Config, db: Db, c: Ctl)
    requires c.At?
    ensures var stmt, next := Issue(cfg, db, c), Goto(cfg, db, c);
      && (stmt.Finish? ==> Live(c.pc) && next.Some? && !Live(next.value) && stmt.result == (if c.pc.FailFinish? then RunFailed else Completed))
      && (Live(c.pc) && !stmt.Finish? ==> next.Some? && Live(next.value))
      && (!Live(c.pc) && next.Some? ==> !Live(next.value))
  {
  }

  lemma StatusWrites(cfg: Config, db: Db, c: Ctl)
    requires c.At?
    ensures var stmt, next := Issue(cfg, db, c), Goto(cfg, db, c);
      && (stmt.MarkUploaded? <==> c.pc.Requeue?)
      && (Undecided(c.pc) && !(SetsStatus(stmt) && Settled(StatusWritten(stmt))) ==>
            (next.Some? && Undecided(next.value)) || c.pc.Requeue?)
      && (next.Some? && Undecided(next.value) ==> Undecided(c.pc))
      && (SetsStatus(stmt) ==> Undecided(c.pc))
  {
  }

  lemma EntersFail(cfg: Config, db: Db, c: Ctl)
    requires c.At?
    ensures var next := Goto(cfg, db, c);
      && (next.Some? && next.value.FailCount? ==> c.pc.FailFinish?)
      && (next.Some? && next.value.Requeue? ==> c.pc.FailCount? && CountFailed(db, c.doc) <= cfg.maxRetries)
      && (c.pc.FailFinish? ==> Issue(cfg, db, c).Finish?)
  {
  }
}
