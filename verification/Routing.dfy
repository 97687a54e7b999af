/** Review tasks follow verdicts, under every interleaving: one for every run
    that was sent to review and has opened it, and no other. */
module Routing {
  import opened Prelude
  import opened Domain
  import opened Tables
  import opened Pipeline
  import opened Protocol
  import opened Ownership
  import Gates

  function TaskFor(d: nat, reason: ReviewReason): Task -> bool {
    (t: Task) => t.doc == d && t.reason == reason
  }

  /** The verdict of run `r`, as its tool rows report the lookups. */
  ghost function VerdictOfRun(cfg: Config, s: Sys, r: nat): Gates.Verdict
    requires r < |s.plan|
  {
    Gates.VerdictOf(cfg, s.plan[r], Gates.LookupIn(Gates.RunTools(s.db.tools, r)))
  }

  /** The worker has opened the review task of run `r` and not finished the run. */
  ghost predicate MidRoute(s: Sys, v: nat, r: nat) {
    v < |s.workers| && s.workers[v].At? && s.workers[v].run == r && (s.workers[v].pc.PersistPending? || s.workers[v].pc.FinishReview?)
  }

  /** Run `r` of the document was sent to review for this reason, and its task has
      been opened. */
  ghost predicate Routed(cfg: Config, s: Sys, r: nat, d: nat, reason: ReviewReason) {
    && r < |s.db.runs| && r < |s.plan| && s.db.runs[r].doc == d
    && VerdictOfRun(cfg, s, r).ending == Gates.ToReview(reason)
    && (s.db.runs[r].status == Completed || MidRoute(s, s.db.runs[r].worker, r))
  }

  /** How many of the first `n` runs were. */
  ghost function RoutedRuns(cfg: Config, s: Sys, d: nat, reason: ReviewReason, n: nat): nat {
    if n == 0 then 0 else RoutedRuns(cfg, s, d, reason, n - 1) + if Routed(cfg, s, n - 1, d, reason) then 1 else 0
  }

  ghost predicate TasksMatch(cfg: Config, s: Sys, d: nat, reason: ReviewReason) {
    Count(s.db.tasks, TaskFor(d, reason)) == RoutedRuns(cfg, s, d, reason, |s.db.runs|)
  }

  ghost predicate TasksFollowVerdicts(cfg: Config, s: Sys) {
    forall d: nat, reason :: TasksMatch(cfg, s, d, reason)
  }

  /** Routing is over when the run is. */
  lemma FinishedIsNotMidRoute(cfg: Config, s: Sys, r: nat)
    requires Owned(cfg, s) && r < |s.db.runs| && s.db.runs[r].status != Running
    ensures !MidRoute(s, s.db.runs[r].worker, r)
  {
    assert Driven(s, r) && Owns(cfg, s, s.db.runs[r].worker);
  }

  // ----- counting -----

  lemma {:induction false} RoutedSame(cfg: Config, s: Sys, s': Sys, d: nat, reason: ReviewReason, n: nat)
    requires forall r :: 0 <= r < n ==> Routed(cfg, s', r, d, reason) == Routed(cfg, s, r, d, reason)
    ensures RoutedRuns(cfg, s', d, reason, n) == RoutedRuns(cfg, s, d, reason, n)
  {
    if n > 0 {
      RoutedSame(cfg, s, s', d, reason, n - 1);
    }
  }

  lemma {:induction false} RoutedOneMore(cfg: Config, s: Sys, s': Sys, d: nat, reason: ReviewReason, n: nat, i: nat)
    requires i < n && !Routed(cfg, s, i, d, reason) && Routed(cfg, s', i, d, reason)
    requires forall r :: 0 <= r < n && r != i ==> Routed(cfg, s', r, d, reason) == Routed(cfg, s, r, d, reason)
    ensures RoutedRuns(cfg, s', d, reason, n) == RoutedRuns(cfg, s, d, reason, n) + 1
  {
    if i == n - 1 {
      RoutedSame(cfg, s, s', d, reason, n - 1);
    } else {
      RoutedOneMore(cfg, s, s', d, reason, n - 1, i);
    }
  }

  lemma {:induction false} TaskForKept(tasks: seq<Task>, t: nat, decision: ReviewStatus, d: nat, reason: ReviewReason)
    requires t < |tasks|
    ensures Count(tasks[t := tasks[t].(status := decision)], TaskFor(d, reason)) == Count(tasks, TaskFor(d, reason))
  {
    CountUpdate(tasks, t, tasks[t].(status := decision), TaskFor(d, reason));
  }

  // ----- one step of a worker -----

  /** What a statement means for the routing of its own run. */
  lemma RoutingSteps(cfg: Config, db: Db, c: Ctl)
    requires c.At?
    ensures var stmt, next := Issue(cfg, db, c), Goto(cfg, db, c);
      && (stmt.CreateTask? <==> c.pc.OpenTask?) && (c.pc.OpenTask? ==> stmt.doc == c.doc && stmt.reason == c.pc.reason)
      && (c.pc.OpenTask? ==> next.Some? && next.value.PersistPending?)
      && (c.pc.PersistPending? ==> next.Some? && next.value.FinishReview? && !stmt.Finish? && !stmt.RecordTool?)
      && (c.pc.FinishReview? ==> stmt.Finish? && stmt.result == Completed)
      && (next.Some? && (next.value.PersistPending? || next.value.FinishReview?) ==> c.pc.OpenTask? || c.pc.PersistPending?)
      && (stmt.Finish? && stmt.result == Completed ==> c.pc.FinishReview? || c.pc.FinishAuto?)
      && (stmt.RecordTool? ==> !Tail(c.pc) && Live(c.pc))
  {
  }

  /** The rows of another run are not the worker's to add. */
  lemma OtherVerdictsKept(cfg: Config, s: Sys, w: nat, r: nat)
    requires w < |s.workers| && s.workers[w].At? && r < |s.plan| && r != s.workers[w].run
    ensures VerdictOfRun(cfg, DoAdvance(cfg, s, w), r) == VerdictOfRun(cfg, s, r)
  {
    var stmt := Issue(cfg, s.db, s.workers[w]);
    ExecFrame(s.db, stmt);
    OwnStatement(cfg, s.db, s.workers[w]);
    if stmt.RecordTool? {
      Gates.RunToolsAppend(s.db.tools, ToolRow(stmt.run, stmt.tool, stmt.outcome, stmt.found), r);
    }
  }

  lemma OtherRunsRouted(cfg: Config, s: Sys, w: nat, r: nat, d: nat, reason: ReviewReason)
    requires Owned(cfg, s) && w < |s.workers| && s.workers[w].At? && r < |s.db.runs| && r != s.workers[w].run
    ensures Routed(cfg, DoAdvance(cfg, s, w), r, d, reason) == Routed(cfg, s, r, d, reason)
  {
    var c := s.workers[w];
    var stmt := Issue(cfg, s.db, c);
    assert Owns(cfg, s, w) && Driven(s, r);
    ExecFrame(s.db, stmt);
    OwnStatement(cfg, s.db, c);
    OtherVerdictsKept(cfg, s, w, r);
  }

  /** A run that is being routed has the verdict its position says. */
  lemma RouteIsJudged(cfg: Config, s: Sys, w: nat)
    requires w < |s.workers| && s.workers[w].At? && s.workers[w].run < |s.plan| && s.plan[s.workers[w].run] == s.workers[w].o
    requires Gates.OnCourse(cfg, s, w)
    ensures var c := s.workers[w];
      && (c.pc.OpenTask? || c.pc.PersistPending? || c.pc.FinishReview? ==> VerdictOfRun(cfg, s, c.run).ending == Gates.ToReview(c.pc.reason))
      && (c.pc.FinishAuto? ==> VerdictOfRun(cfg, s, c.run).ending == Gates.AutoProcess)
  {
    var c := s.workers[w];
    if c.pc.FinishAuto? {
      Gates.StepsAre(c.run, 7, Gates.NoDuplicate);
      Gates.StopsAt(cfg, c.o, Gates.NoDuplicate, 7);
    }
  }

  /** The mover's own run becomes routed exactly by opening its task. */
  lemma OwnRunRouted(cfg: Config, s: Sys, w: nat, d: nat, reason: ReviewReason)
    requires Owned(cfg, s) && w < |s.workers| && s.workers[w].At? && Gates.OnCourse(cfg, s, w)
    ensures var c, s' := s.workers[w], DoAdvance(cfg, s, w);
      if c.pc.OpenTask? && c.doc == d && c.pc.reason == reason
      then !Routed(cfg, s, c.run, d, reason) && Routed(cfg, s', c.run, d, reason)
      else Routed(cfg, s', c.run, d, reason) == Routed(cfg, s, c.run, d, reason)
  {
    var c, s' := s.workers[w], DoAdvance(cfg, s, w);
    var stmt := Issue(cfg, s.db, c);
    assert Owns(cfg, s, w);
    ExecFrame(s.db, stmt);
    OwnStatement(cfg, s.db, c);
    RoutingSteps(cfg, s.db, c);
    RouteIsJudged(cfg, s, w);
    if !stmt.RecordTool? {
      assert s'.db.tools == s.db.tools;
    }
  }

  lemma TasksAfterAdvance(cfg: Config, s: Sys, w: nat, d: nat, reason: ReviewReason)
    requires Owned(cfg, s) && w < |s.workers| && s.workers[w].At? && Gates.OnCourse(cfg, s, w) && TasksMatch(cfg, s, d, reason)
    ensures TasksMatch(cfg, DoAdvance(cfg, s, w), d, reason)
  {
    var c, s' := s.workers[w], DoAdvance(cfg, s, w);
    var stmt, n := Issue(cfg, s.db, c), |s.db.runs|;
    assert Owns(cfg, s, w);
    ExecFrame(s.db, stmt);
    OwnStatement(cfg, s.db, c);
    RoutingSteps(cfg, s.db, c);
    forall r | 0 <= r < n && r != c.run ensures Routed(cfg, s', r, d, reason) == Routed(cfg, s, r, d, reason) {
      OtherRunsRouted(cfg, s, w, r, d, reason);
    }
    OwnRunRouted(cfg, s, w, d, reason);
    if stmt.CreateTask? {
      CountAppend(s.db.tasks, Task(stmt.doc, stmt.reason, Pending), TaskFor(d, reason));
    }
    if c.pc.OpenTask? && c.doc == d && c.pc.reason == reason {
      RoutedOneMore(cfg, s, s', d, reason, n, c.run);
    } else {
      RoutedSame(cfg, s, s', d, reason, n);
    }
  }

  // ----- the other steps -----

  lemma TasksAfterClaim(cfg: Config, s: Sys, w: nat, o: Outcomes, d: nat, reason: ReviewReason)
    requires Owned(cfg, s) && w < |s.workers| && s.workers[w].Idle? && CanClaim(s.db) && TasksMatch(cfg, s, d, reason)
    ensures TasksMatch(cfg, DoClaim(s, w, o, Claimed(s)), d, reason)
  {
    var s', n := DoClaim(s, w, o, Claimed(s)), |s.db.runs|;
    forall r | 0 <= r < n ensures Routed(cfg, s', r, d, reason) == Routed(cfg, s, r, d, reason) {
      assert Driven(s, r);
    }
    RoutedSame(cfg, s, s', d, reason, n);
    assert !Routed(cfg, s', n, d, reason);
  }

  lemma TasksAfterReview(cfg: Config, s: Sys, i: nat, d: nat, reason: ReviewReason)
    requires i < |s.desks| && s.desks[i].Busy? && TasksMatch(cfg, s, d, reason)
    ensures TasksMatch(cfg, DoReview(s, i), d, reason)
  {
    var s', stmt := DoReview(s, i), DeskIssue(s.db, s.desks[i]);
    DeskFrame(s, i);
    forall r | 0 <= r < |s.db.runs| ensures Routed(cfg, s', r, d, reason) == Routed(cfg, s, r, d, reason) {
    }
    RoutedSame(cfg, s, s', d, reason, |s.db.runs|);
    if stmt.Resolve? && stmt.task < |s.db.tasks| {
      TaskForKept(s.db.tasks, stmt.task, stmt.decision, d, reason);
    }
  }

  lemma {:induction false} TasksAfter(cfg: Config, s: Sys, a: Act)
    requires Owned(cfg, s) && Gates.TracesFollowVerdicts(cfg, s) && TasksFollowVerdicts(cfg, s)
    ensures TasksFollowVerdicts(cfg, Next(cfg, s, a))
  {
    forall d: nat, reason ensures TasksMatch(cfg, Next(cfg, s, a), d, reason) {
      assert TasksMatch(cfg, s, d, reason);
      if Enabled(cfg, s, a) {
        match a
        case Claim(w, o) => TasksAfterClaim(cfg, s, w, o, d, reason);
        case Advance(w) =>
          assert Gates.OnCourse(cfg, s, w);
          TasksAfterAdvance(cfg, s, w, d, reason);
        case Review(i) => TasksAfterReview(cfg, s, i, d, reason);
        case _ => RoutedSame(cfg, s, Next(cfg, s, a), d, reason, |s.db.runs|);
      }
    }
  }
}
