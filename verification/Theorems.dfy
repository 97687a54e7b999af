/** The main results, each for every configuration, any number of workers and
    reviewers, and every sequence of steps. */
module Theorems {
  import opened Prelude
  import opened Domain
  import opened Tables
  import opened Pipeline
  import opened Protocol
  import opened Ownership
  import Attempts
  import AuditTrail
  import CallLevel
  import Confidence
  import Duplicates
  import FieldView
  import Gates
  import Integrity
  import PlainTerms
  import Retries
  import ReviewQueue
  import Routing
  import SingleWorker
  import SoloRun
  import Sorting
  import Validation

  // ----- reachable states -----

  ghost predicate StatementInv(cfg: Config, s: Sys) {
    && Owned(cfg, s) && Retries.RetriesBounded(cfg, s) && Retries.RunsBounded(s)
    && Duplicates.DuplicatesSound(cfg, s) && Gates.TracesFollowVerdicts(cfg, s) && Gates.AuditFollowsVerdicts(cfg, s)
    && Integrity.GoodDesks(s) && FieldView.Stamped(s.db.fields) && Gates.AutoOnlyIfPossible(cfg, s)
    && Routing.TasksFollowVerdicts(cfg, s)
  }

  ghost predicate CallInv(cfg: Config, s: Sys) {
    && StatementInv(cfg, s) && CallLevel.Consistent(s)
    && AuditTrail.AllDocumented(s) && ReviewQueue.QueueSound(s) && Integrity.DataSound(cfg, s) && Attempts.AttemptsBounded(s)
  }

  lemma {:induction false} StartHolds(cfg: Config, w: nat, k: nat)
    ensures StatementInv(cfg, Start(w, k)) && CallInv(cfg, Start(w, k))
    ensures w == 1 ==> SingleWorker.InOrder(Start(w, k))
  {
    assert forall d: nat, reason :: Routing.TasksMatch(cfg, Start(w, k), d, reason);
  }

  lemma {:induction false} StatementInvAfter(cfg: Config, s: Sys, a: Act)
    requires StatementInv(cfg, s)
    ensures StatementInv(cfg, Next(cfg, s, a))
  {
    OwnedAfter(cfg, s, a);
    Retries.RetriesBoundedAfter(cfg, s, a);
    Retries.RunsBoundedAfter(cfg, s, a);
    Duplicates.SoundAfter(cfg, s, a);
    Gates.TracesAfter(cfg, s, a);
    Gates.AuditAfter(cfg, s, a);
    Integrity.StampedAfter(cfg, s, a);
    Gates.AutoOnlyIfPossibleAfter(cfg, s, a);
    Routing.TasksAfter(cfg, s, a);
  }

  lemma {:induction false} CallInvAfter(cfg: Config, s: Sys, a: Act)
    requires CallInv(cfg, s) && CallLevel.Atomic(s, a)
    ensures CallInv(cfg, Next(cfg, s, a))
  {
    StatementInvAfter(cfg, s, a);
    CallLevel.ConsistentAfter(cfg, s, a);
    AuditTrail.DocumentedAfter(cfg, s, a);
    ReviewQueue.QueueAfter(cfg, s, a);
    Integrity.DataAfter(cfg, s, a);
    Attempts.AttemptsAfter(cfg, s, a);
  }

  lemma {:induction false} Invariants(cfg: Config, w: nat, k: nat, acts: seq<Act>)
    ensures var s := Execute(cfg, Start(w, k), acts);
      StatementInv(cfg, s) && |s.workers| == w && (w == 1 ==> SingleWorker.InOrder(s))
  {
    if acts == [] {
      StartHolds(cfg, w, k);
    } else {
      var n := |acts| - 1;
      var s := Execute(cfg, Start(w, k), acts[..n]);
      Invariants(cfg, w, k, acts[..n]);
      StatementInvAfter(cfg, s, acts[n]);
      if w == 1 {
        SingleWorker.OrderAfter(cfg, s, acts[n]);
      }
    }
  }

  lemma {:induction false} CallInvariants(cfg: Config, w: nat, k: nat, acts: seq<Act>)
    requires CallLevel.AtomicRun(cfg, Start(w, k), acts)
    ensures CallInv(cfg, Execute(cfg, Start(w, k), acts))
  {
    if acts == [] {
      StartHolds(cfg, w, k);
    } else {
      var n := |acts| - 1;
      CallInvariants(cfg, w, k, acts[..n]);
      CallInvAfter(cfg, Execute(cfg, Start(w, k), acts[..n]), acts[n]);
    }
  }

  /** Some run of `w` workers and `k` reviewers reaches the state. */
  ghost predicate Reachable(cfg: Config, w: nat, k: nat, s: Sys) {
    exists acts :: s == Execute(cfg, Start(w, k), acts)
  }

  /** Some call-level run does. */
  ghost predicate CallReachable(cfg: Config, w: nat, k: nat, s: Sys) {
    exists acts :: CallLevel.AtomicRun(cfg, Start(w, k), acts) && s == Execute(cfg, Start(w, k), acts)
  }

  lemma {:induction false} ReachableStates(cfg: Config, w: nat, k: nat, s: Sys)
    requires Reachable(cfg, w, k, s)
    ensures StatementInv(cfg, s) && |s.workers| == w && (w == 1 ==> SingleWorker.InOrder(s))
  {
    var acts :| s == Execute(cfg, Start(w, k), acts);
    Invariants(cfg, w, k, acts);
  }

  lemma {:induction false} CallReachableStates(cfg: Config, w: nat, k: nat, s: Sys)
    requires CallReachable(cfg, w, k, s)
    ensures CallInv(cfg, s) && Reachable(cfg, w, k, s)
  {
    var acts :| CallLevel.AtomicRun(cfg, Start(w, k), acts) && s == Execute(cfg, Start(w, k), acts);
    CallInvariants(cfg, w, k, acts);
  }

  // ----- any number of workers, every interleaving of statements -----

  /** A document never has two RUNNING runs. This is the result that rests on a
      claim being one atomic step. */
  lemma {:induction false} OneRunAtATime(cfg: Config, w: nat, k: nat, s: Sys)
    requires Reachable(cfg, w, k, s)
    ensures forall q, r :: 0 <= q < r < |s.db.runs| && s.db.runs[q].status == Running && s.db.runs[r].status == Running ==>
      s.db.runs[q].doc != s.db.runs[r].doc
  {
    ReachableStates(cfg, w, k, s);
  }

  /** A document is set back to UPLOADED at most MaxRetries times, and W workers
      open at most W * (MaxRetries + 1) runs for it. */
  lemma {:induction false} RetriesAreBounded(cfg: Config, w: nat, k: nat, s: Sys, d: nat)
    requires Reachable(cfg, w, k, s) && d < |s.db.docs|
    ensures d < |s.requeues| && s.requeues[d] <= Max(cfg.maxRetries, 0)
    ensures Count(s.db.runs, Retries.RunOf(d)) <= w * (Max(cfg.maxRetries, 0) + 1)
  {
    ReachableStates(cfg, w, k, s);
    Retries.RunBound(cfg, s, d);
  }

  /** An AUTO_PROCESSED document is the oldest of its tenant with its content, so
      no two of them share it, now or after any later upload. */
  lemma {:induction false} NoExactCopyProcessed(cfg: Config, w: nat, k: nat, s: Sys, d: nat)
    requires Reachable(cfg, w, k, s) && d < |s.db.docs| && s.db.docs[d].status == AutoProcessed
    ensures forall e :: 0 <= e < d ==> !SameOrigin(s.db.docs[e], s.db.docs[d])
    ensures forall e :: 0 <= e < |s.db.docs| && e != d && s.db.docs[e].status == AutoProcessed ==> !SameOrigin(s.db.docs[e], s.db.docs[d])
  {
    ReachableStates(cfg, w, k, s);
    assert Duplicates.DocGrounded(s.db.docs, d);
    forall e | 0 <= e < |s.db.docs| && e != d && s.db.docs[e].status == AutoProcessed ensures !SameOrigin(s.db.docs[e], s.db.docs[d]) {
      Duplicates.NoTwoCopiesProcessed(cfg, s, e, d);
    }
  }

  /** `duplicate_of` is acyclic: every chain of links leads to strictly older
      documents of the same tenant, and a tenant's oldest document has none. */
  lemma {:induction false} DuplicateOfIsAcyclic(cfg: Config, w: nat, k: nat, s: Sys, path: seq<nat>)
    requires Reachable(cfg, w, k, s) && Duplicates.Chain(s.db.docs, path) && |path| >= 1
    ensures |path| >= 2 ==> path[|path| - 1] < path[0] && s.db.docs[path[|path| - 1]].tenant == s.db.docs[path[0]].tenant
    ensures s.db.docs[path[0]].duplicateOf.Some? ==> exists e :: 0 <= e < path[0] && s.db.docs[e].tenant == s.db.docs[path[0]].tenant
  {
    ReachableStates(cfg, w, k, s);
    if |path| >= 2 {
      Duplicates.ChainsDescend(cfg, s, path);
    }
    assert Duplicates.DocGrounded(s.db.docs, path[0]);
  }

  /** A finished run went the way its first failing gate says: result, iteration
      count and tool trace. Below a cap of 7 no run auto-processes, from 7 on the
      cap stops none. */
  lemma {:induction false} RunsFollowTheirGates(cfg: Config, w: nat, k: nat, s: Sys, r: nat)
    requires Reachable(cfg, w, k, s) && r < |s.db.runs| && s.db.runs[r].status != Running
    ensures r < |s.plan|
    ensures var rows, run := Gates.RunTools(s.db.tools, r), s.db.runs[r];
      var l := Gates.LookupIn(rows);
      var v := Gates.VerdictOf(cfg, s.plan[r], l);
      && rows == Gates.TraceOf(v, r, l)
      && (run.status == RunFailed <==> v.ending.Fails?)
      && run.iterations == v.iterations <= Min(7, Max(cfg.maxIterations, 0) + 1)
      && (|rows| == run.iterations || |rows| == run.iterations - 1)
      && (forall i :: 0 <= i < |rows| ==> rows[i].tool == Gates.ToolAt(i + 1) && (i < |rows| - 1 ==> rows[i].status == Success))
      && (v.ending == Gates.AutoProcess ==> cfg.maxIterations >= 7 && |rows| == 7)
      && (v.ending == Gates.Fails(MaxIterationsExceeded) ==> cfg.maxIterations < 7)
  {
    ReachableStates(cfg, w, k, s);
    assert Gates.Concluded(cfg, s, r);
    var l := Gates.LookupIn(Gates.RunTools(s.db.tools, r));
    Gates.CapLaw(cfg, s.plan[r], l);
    Gates.TraceLaw(cfg, s.plan[r], l, r);
  }

  /** Every run ever opened was planned with answers that fit its type's schema. */
  lemma {:induction false} PlansAreWellFormed(cfg: Config, w: nat, k: nat, acts: seq<Act>, r: nat)
    requires r < |Execute(cfg, Start(w, k), acts).plan|
    ensures WellFormed(cfg, Execute(cfg, Start(w, k), acts).plan[r])
  {
    if acts != [] {
      var n := |acts| - 1;
      if r < |Execute(cfg, Start(w, k), acts[..n]).plan| {
        PlansAreWellFormed(cfg, w, k, acts[..n], r);
      }
    }
  }

  /** What the tables say of a finished run, in plain terms: how it ended, after how
      many iterations, and which tools it recorded with which status. */
  ghost predicate RanAs(cfg: Config, s: Sys, r: nat, l: Gates.Lookup, e: Gates.Ending)
    requires r < |s.db.runs| && r < |s.plan|
  {
    var run, o := s.db.runs[r], s.plan[r];
    && PlainTerms.EndsAs(cfg, o, l, e)
    && run.status == (if e.Fails? then RunFailed else Completed)
    && PlainTerms.Counts(cfg, o, l, run.iterations)
    && Gates.RunTools(s.db.tools, r) == PlainTerms.Trace(cfg, o, l, r, 7)
  }

  /** The same without the gates: under every interleaving a finished run ended under
      the one condition that each ending has, with the lookup its own row reports. */
  lemma {:induction false} FinishedRunsInPlainTerms(cfg: Config, w: nat, k: nat, s: Sys, r: nat)
    requires Reachable(cfg, w, k, s) && r < |s.db.runs| && s.db.runs[r].status != Running
    ensures r < |s.plan| && exists e :: RanAs(cfg, s, r, Gates.LookupIn(Gates.RunTools(s.db.tools, r)), e)
  {
    ReachableStates(cfg, w, k, s);
    var acts :| s == Execute(cfg, Start(w, k), acts);
    PlansAreWellFormed(cfg, w, k, acts, r);
    assert Gates.Concluded(cfg, s, r);
    var l := Gates.LookupIn(Gates.RunTools(s.db.tools, r));
    PlainTerms.VerdictMeans(cfg, s.plan[r], l);
    PlainTerms.TraceMeans(cfg, s.plan[r], l, r);
    assert RanAs(cfg, s, r, l, Gates.VerdictOf(cfg, s.plan[r], l).ending);
  }

  /** A finished run that got past the duplicate check and could load the threshold
      was sent to review for its confidence exactly when the mean was below the
      threshold of its own type, and auto-processed its document exactly when it was
      not, the cap allowed step 7 and the document's update went through. */
  lemma {:induction false} LowScoresAreRouted(cfg: Config, w: nat, k: nat, s: Sys, r: nat)
    requires Reachable(cfg, w, k, s) && r < |s.db.runs| && s.db.runs[r].status != Running && r < |s.plan|
    requires s.plan[r].loadOk && Gates.Passed(cfg, s.plan[r], Gates.LookupIn(Gates.RunTools(s.db.tools, r)), 5)
    requires cfg.maxIterations >= 6 && s.plan[r].thresholdOk
    ensures var run, o := s.db.runs[r], s.plan[r];
      && o.docType in cfg.types && (forall n :: n in o.order ==> n in o.fields)
      && var mean, threshold := Confidence.Mean(o.confidence, o.order, o.fields), cfg.types[o.docType].threshold;
      && (Routing.Routed(cfg, s, r, run.doc, LowConfidence) <==> mean < threshold)
      && (run.status == Completed && run.iterations == 6 <==> mean < threshold)
      && (run.status == Completed && run.iterations == 7 <==> mean >= threshold && cfg.maxIterations >= 7 && o.autoOk)
  {
    FinishedRunsInPlainTerms(cfg, w, k, s, r);
    var acts :| s == Execute(cfg, Start(w, k), acts);
    PlansAreWellFormed(cfg, w, k, acts, r);
    var o, l := s.plan[r], Gates.LookupIn(Gates.RunTools(s.db.tools, r));
    PlainTerms.LowConfidenceIff(cfg, o, l);
    PlainTerms.VerdictMeans(cfg, o, l);
    TasksNameTheVerdict(cfg, w, k, s, s.db.runs[r].doc, LowConfidence);
    PlainTerms.ClearsMeans(cfg, o, l, 5);
    var e :| RanAs(cfg, s, r, l, e);
    PlainTerms.AfterFive(cfg, o, l, e, s.db.runs[r].iterations);
  }

  /** Every audit entry that concludes a run names the run's verdict. */
  lemma {:induction false} AuditNamesTheVerdict(cfg: Config, w: nat, k: nat, s: Sys, i: nat)
    requires Reachable(cfg, w, k, s) && i < |s.db.audit|
    ensures Gates.EntryFollowsVerdict(cfg, s, s.db.audit[i])
  {
    ReachableStates(cfg, w, k, s);
  }

  /** The review tasks of a document with a given reason are as many as its runs whose
      first failing gate gives that reason and that have got as far as opening
      theirs. */
  lemma {:induction false} TasksNameTheVerdict(cfg: Config, w: nat, k: nat, s: Sys, d: nat, reason: ReviewReason)
    requires Reachable(cfg, w, k, s)
    ensures Count(s.db.tasks, Routing.TaskFor(d, reason)) == Routing.RoutedRuns(cfg, s, d, reason, |s.db.runs|)
    ensures forall r :: 0 <= r < |s.db.runs| && s.db.runs[r].status != Running ==>
      (Routing.Routed(cfg, s, r, d, reason) <==>
       s.db.runs[r].doc == d && r < |s.plan| && Routing.VerdictOfRun(cfg, s, r).ending == Gates.ToReview(reason))
  {
    ReachableStates(cfg, w, k, s);
    assert Routing.TasksMatch(cfg, s, d, reason);
    forall r | 0 <= r < |s.db.runs| && s.db.runs[r].status != Running
      ensures Routing.Routed(cfg, s, r, d, reason) <==>
              s.db.runs[r].doc == d && r < |s.plan| && Routing.VerdictOfRun(cfg, s, r).ending == Gates.ToReview(reason)
    {
      assert Gates.Concluded(cfg, s, r) && Driven(s, r);
      Routing.FinishedIsNotMidRoute(cfg, s, r);
    }
  }

  /** The overwriting view of a document's fields is what the newest-row-per-name
      query selects: the selected row of each name is unique, and is its entry. */
  lemma {:induction false} FieldViewIsNewestRows(cfg: Config, w: nat, k: nat, s: Sys, d: nat, name: string)
    requires Reachable(cfg, w, k, s)
    ensures var rows := s.db.fields;
      var view := FieldView.View(rows, d);
      && (forall i: nat :: FieldView.SelectedBy(rows, d, name, i) ==> name in view && view[name] == rows[i])
      && (name in view ==> exists i: nat :: FieldView.SelectedBy(rows, d, name, i))
  {
    ReachableStates(cfg, w, k, s);
    var rows := s.db.fields;
    forall i: nat | FieldView.SelectedBy(rows, d, name, i)
      ensures name in FieldView.View(rows, d) && FieldView.View(rows, d)[name] == rows[i]
    {
      FieldView.ViewIsSelection(rows, d, name, i);
    }
    if name in FieldView.View(rows, d) {
      var i := FieldView.ViewEntriesAreSelected(rows, d, name);
    }
  }

  // ----- one worker, every interleaving with uploads and reviewers -----

  /** Documents leave the agent in exactly the order of their uploads, retries
      included; each is tried at most MaxRetries + 1 times. */
  lemma {:induction false} OneWorkerKeepsOrder(cfg: Config, k: nat, s: Sys)
    requires Reachable(cfg, 1, k, s)
    ensures |s.left| <= |s.db.docs| && forall i :: 0 <= i < |s.left| ==> s.left[i] == i
    ensures forall d :: 0 <= d < |s.db.docs| ==> (Settled(s.db.docs[d].status) <==> d < |s.left|)
    ensures forall d :: 0 <= d < |s.db.docs| ==> Count(s.db.runs, Retries.RunOf(d)) <= Max(cfg.maxRetries, 0) + 1
  {
    ReachableStates(cfg, 1, k, s);
    forall d | 0 <= d < |s.db.docs| ensures Count(s.db.runs, Retries.RunOf(d)) <= Max(cfg.maxRetries, 0) + 1 {
      RetriesAreBounded(cfg, 1, k, s, d);
    }
  }

  /** With one worker no two AUTO_PROCESSED documents of a tenant share type and
      key fields. */
  lemma {:induction false} OneWorkerNoNearCopies(cfg: Config, k: nat, s: Sys, d: nat, e: nat)
    requires Reachable(cfg, 1, k, s) && d < |s.db.docs| && e < |s.db.docs| && d != e
    requires s.db.docs[d].status == AutoProcessed && s.db.docs[e].status == AutoProcessed
    ensures s.db.docs[d].docType.Some? && s.db.docs[d].keyHash.Some? && !SingleWorker.SameKey(s.db.docs[d], s.db.docs[e])
  {
    ReachableStates(cfg, 1, k, s);
    SingleWorker.NoTwoOfAKind(cfg, s, d, e);
  }

  lemma {:induction false} StaysReachable(cfg: Config, w: nat, k: nat, s: Sys, more: seq<Act>)
    requires Reachable(cfg, w, k, s)
    ensures Reachable(cfg, w, k, Execute(cfg, s, more))
  {
    var acts :| s == Execute(cfg, Start(w, k), acts);
    SoloRun.ExecuteConcat(cfg, Start(w, k), acts, more);
  }

  /** With one worker AUTO_PROCESSED is final: whatever uploads, reviewers and the
      worker do afterwards, no column of the row changes. */
  lemma {:induction false} OneWorkerFinality(cfg: Config, k: nat, s: Sys, more: seq<Act>, d: nat)
    requires Reachable(cfg, 1, k, s) && d < |s.db.docs| && s.db.docs[d].status == AutoProcessed
    ensures d < |Execute(cfg, s, more).db.docs| && Execute(cfg, s, more).db.docs[d] == s.db.docs[d]
    decreases |more|
  {
    if more != [] {
      var m := |more| - 1;
      OneWorkerFinality(cfg, k, s, more[..m], d);
      StaysReachable(cfg, 1, k, s, more[..m]);
      ReachableStates(cfg, 1, k, Execute(cfg, s, more[..m]));
      SingleWorker.AutoProcessedStays(cfg, Execute(cfg, s, more[..m]), more[m], d);
    }
  }

  // ----- any number of workers, call-level schedules -----

  /** At most MaxRetries + 1 attempts, however many workers. */
  lemma {:induction false} AttemptsAreBounded(cfg: Config, w: nat, k: nat, s: Sys, d: nat)
    requires CallReachable(cfg, w, k, s) && d < |s.db.docs|
    ensures Count(s.db.runs, Retries.RunOf(d)) <= Max(cfg.maxRetries, 0) + 1
  {
    CallReachableStates(cfg, w, k, s);
    RetriesAreBounded(cfg, w, k, s, d);
    assert Attempts.Tried(s, d);
  }

  /** Status and runs agree, and no document is ever stranded: a RUNNING row means a
      worker in a live run at a step of the document's status, an intermediate
      status means a RUNNING row, and a settled one means there is none, except that
      an AUTO_PROCESSED document's run is still to be finished. */
  lemma {:induction false} NothingIsStranded(cfg: Config, w: nat, k: nat, s: Sys, d: nat)
    requires CallReachable(cfg, w, k, s) && CallLevel.AtBoundary(s) && d < |s.db.docs|
    ensures HasRunning(s.db, d) <==> exists v: nat :: CallLevel.Drives(s, v, d)
    ensures forall v :: 0 <= v < |s.workers| && s.workers[v].At? && s.workers[v].doc == d ==> CallLevel.StatusAt(s.workers[v].pc) == s.db.docs[d].status
    ensures var st := s.db.docs[d].status;
      && (st == Uploaded ==> Claimable(s.db, d) || HasRunning(s.db, d))
      && (st == Classified || st == Extracted || st == Validated ==> HasRunning(s.db, d))
      && (st == PendingReview || st == Reviewed || st == Failed ==> !HasRunning(s.db, d))
      && (st == AutoProcessed && HasRunning(s.db, d) ==> exists v: nat :: CallLevel.Finalizes(s, v, d))
  {
    CallReachableStates(cfg, w, k, s);
    CallLevel.StatusMatchesRuns(cfg, s, d);
  }

  /** What has ended stays ended: AUTO_PROCESSED, REVIEWED and FAILED rows are
      never written again, and PENDING_REVIEW only becomes REVIEWED. */
  lemma {:induction false} SettledIsForever(cfg: Config, w: nat, k: nat, s: Sys, more: seq<Act>, d: nat)
    requires CallReachable(cfg, w, k, s) && CallLevel.AtomicRun(cfg, s, more) && d < |s.db.docs|
    ensures d < |Execute(cfg, s, more).db.docs|
    ensures var before, after := s.db.docs[d], Execute(cfg, s, more).db.docs[d];
      && (before.status == AutoProcessed || before.status == Reviewed || before.status == Failed ==> after == before)
      && (before.status == PendingReview ==> after == before || after == before.(status := Reviewed))
    decreases |more|
  {
    if more != [] {
      var m := |more| - 1;
      SettledIsForever(cfg, w, k, s, more[..m], d);
      StaysCallReachable(cfg, w, k, s, more[..m]);
      CallReachableStates(cfg, w, k, Execute(cfg, s, more[..m]));
      CallLevel.SettledStaysSettled(cfg, Execute(cfg, s, more[..m]), more[m], d);
    }
  }

  lemma {:induction false} StaysCallReachable(cfg: Config, w: nat, k: nat, s: Sys, more: seq<Act>)
    requires CallReachable(cfg, w, k, s) && CallLevel.AtomicRun(cfg, s, more)
    ensures CallReachable(cfg, w, k, Execute(cfg, s, more))
  {
    var acts :| CallLevel.AtomicRun(cfg, Start(w, k), acts) && s == Execute(cfg, Start(w, k), acts);
    SoloRun.ExecuteConcat(cfg, Start(w, k), acts, more);
    assert CallLevel.AtomicRun(cfg, Start(w, k), acts + more);
  }

  /** For a document some worker holds, the audit history replays to the status once
      the one entry that the worker's position still owes, if any, is added. */
  lemma {:induction false} HeldHistoryReplays(cfg: Config, w: nat, k: nat, s: Sys, v: nat)
    requires CallReachable(cfg, w, k, s) && v < |s.workers| && s.workers[v].At?
    ensures var c := s.workers[v];
      c.doc < |s.db.docs| && AuditTrail.Agrees(AuditTrail.History(s.db, c.doc), AuditTrail.Owed(c.pc), s.db.docs[c.doc].status)
  {
    CallReachableStates(cfg, w, k, s);
    assert AuditTrail.Documented(s, v);
  }

  /** The audit history is always a word of the pipeline automaton. For a document
      in nobody's hands it replays to the document's status, with one exception:
      documents that failed because their row could not be loaded. */
  lemma {:induction false} HistoryReplays(cfg: Config, w: nat, k: nat, s: Sys, d: nat)
    requires CallReachable(cfg, w, k, s) && d < |s.db.docs|
    ensures AuditTrail.Replay(AuditTrail.History(s.db, d)).Some?
    ensures CallLevel.AtBoundary(s) && !CallLevel.Held(s, d) ==>
      var replayed := AuditTrail.Replay(AuditTrail.History(s.db, d)).value;
      if d in s.silent then s.db.docs[d].status == Failed && replayed == Uploaded else replayed == s.db.docs[d].status
  {
    CallReachableStates(cfg, w, k, s);
    var h := AuditTrail.History(s.db, d);
    if CallLevel.Held(s, d) {
      var v :| 0 <= v < |s.workers| && s.workers[v].At? && s.workers[v].doc == d;
      HeldHistoryReplays(cfg, w, k, s, v);
      var owed := AuditTrail.Owed(s.workers[v].pc);
      if owed.Some? {
        AuditTrail.ReplayAppend(h, owed.value);
      }
    } else if AuditTrail.Reviewing(s, d) {
      var i :| 0 <= i < |s.desks| && s.desks[i].Busy? && s.desks[i].step.AuditReview? && s.desks[i].req.doc == d;
      assert AuditTrail.DeskDocumented(s, i);
      AuditTrail.ReplayAppend(h, AuditTrail.DeskOwes(s.desks[i]).value);
    } else {
      assert AuditTrail.DocDocumented(s, d);
    }
  }

  /** The review queue lists exactly the tenant's PENDING_REVIEW documents, each
      once, in routing order; the one exception are documents whose review was
      resolved but never marked. */
  lemma {:induction false} ReviewQueueIsExact(cfg: Config, w: nat, k: nat, s: Sys, tenant: nat)
    requires CallReachable(cfg, w, k, s) && CallLevel.AtBoundary(s)
    ensures var q := ReviewQueue.QueueOf(s.db, tenant, |s.db.tasks|);
      && (forall i, j :: 0 <= i < j < |q| ==> q[i] < q[j] && s.db.tasks[q[i]].doc != s.db.tasks[q[j]].doc)
      && (forall t :: t in q ==> t < |s.db.tasks| && s.db.tasks[t].doc < |s.db.docs| && s.db.docs[s.db.tasks[t].doc].tenant == tenant)
      && (forall d :: 0 <= d < |s.db.docs| && s.db.docs[d].tenant == tenant ==>
            (ReviewQueue.Lists(s.db, q, d) <==> s.db.docs[d].status == PendingReview && d !in s.torn))
  {
    CallReachableStates(cfg, w, k, s);
    ReviewQueue.QueueListsPending(cfg, s, tenant);
  }

  /** The values a reader of the document sees now. */
  ghost function CurrentValues(db: Db, d: nat): map<string, Value> {
    var view := FieldView.View(db.fields, d);
    map n | n in view :: view[n].value
  }

  /** Run `r` made the document what it is: it is COMPLETED, or a worker is just
      about to complete it, and every other run of the document failed. */
  ghost predicate MadeBy(s: Sys, d: nat, r: nat) {
    && r < |s.db.runs| && s.db.runs[r].doc == d
    && (s.db.runs[r].status == Completed || (s.db.runs[r].status == Running && CallLevel.Held(s, d)))
    && forall q :: 0 <= q < |s.db.runs| && q != r && s.db.runs[q].doc == d ==> s.db.runs[q].status == RunFailed
  }

  lemma MakerOf(cfg: Config, s: Sys, d: nat) returns (r: nat)
    requires CallInv(cfg, s) && d < |s.db.docs| && s.db.docs[d].status == AutoProcessed
    ensures MadeBy(s, d, r) && Integrity.Proven(cfg, s, d, r)
  {
    assert Integrity.DocSound(cfg, s, d);
    if CallLevel.Held(s, d) {
      var v :| 0 <= v < |s.workers| && s.workers[v].At? && s.workers[v].doc == d;
      assert CallLevel.Fits(s, v) && Integrity.Carries(cfg, s, v) && Owns(cfg, s, v);
      HoldsProcessed(s.workers[v].pc);
      r := s.workers[v].run;
    } else {
      r :| Integrity.OnlySuccess(s, d, r) && Integrity.Proven(cfg, s, d, r);
    }
  }

  lemma HoldsProcessed(pc: Pc)
    requires CallLevel.StatusFits(pc, AutoProcessed)
    ensures Integrity.Decided(pc) && (Live(pc) || pc.AuditAuto?)
  {
  }

  lemma ProvenInPlainTerms(cfg: Config, s: Sys, d: nat, r: nat)
    requires Integrity.Proven(cfg, s, d, r)
    ensures var o := s.plan[r]; o.docType in cfg.types && PlainTerms.Fits(cfg.types[o.docType], o.fields)
    ensures forall n :: n in s.plan[r].order ==> n in s.plan[r].fields
  {
    PlainTerms.AcceptedMeans(cfg, s.plan[r]);
    OrderIsWhole(cfg, s.plan[r]);
  }

  /** An AUTO_PROCESSED document passes validation as it stands, and everything it
      shows comes from one run, COMPLETED or about to be; all its other runs failed. */
  lemma {:induction false} ProcessedDocumentsAreProven(cfg: Config, w: nat, k: nat, s: Sys, d: nat) returns (r: nat)
    requires CallReachable(cfg, w, k, s) && d < |s.db.docs| && s.db.docs[d].status == AutoProcessed
    ensures r < |s.plan| && MadeBy(s, d, r) && Integrity.Proven(cfg, s, d, r)
    ensures !CallLevel.Held(s, d) ==> s.db.runs[r].status == Completed
    ensures s.db.docs[d].docType.Some? && s.db.docs[d].docType.value in cfg.types
    ensures var ty, values, o := cfg.types[s.db.docs[d].docType.value], CurrentValues(s.db, d), s.plan[r];
      && Validation.Valid(ty.schema, values)
      && (forall n :: n in ty.schema ==> n in values && n in o.fields && values[n] == o.fields[n].value)
      && s.db.docs[d].classConf == Some(o.confidence)
      && s.db.docs[d].overallConf == Some(Overall(o)) && Overall(o) >= ty.threshold
    ensures var ty, values, o := cfg.types[s.db.docs[d].docType.value], CurrentValues(s.db, d), s.plan[r];
      && (forall n :: n in ty.schema ==> n in values && PlainTerms.FitsType(ty.schema[n], values[n]))
      && (forall n :: n in o.order ==> n in o.fields)
      && s.db.docs[d].overallConf == Some(Confidence.Mean(o.confidence, o.order, o.fields))
      && Confidence.Mean(o.confidence, o.order, o.fields) >= ty.threshold
  {
    CallReachableStates(cfg, w, k, s);
    r := MakerOf(cfg, s, d);
    ProvenInPlainTerms(cfg, s, d, r);
  }

  /** The lowest score that still lets a document with `n` fields reach its type's
      threshold, when no score is above 1. */
  function Low(ty: DocType): real {
    (|ty.schema| as real + 1.0) * ty.threshold - |ty.schema| as real
  }

  /** With scores of at most 1, those shown are at least (n + 1) * t - n, for the n
      fields and the threshold t of the type. */
  ghost predicate HighScores(cfg: Config, s: Sys, d: nat, o: Outcomes) {
    && o.docType in cfg.types
    && var ty, view := cfg.types[o.docType], FieldView.View(s.db.fields, d);
    var low := Low(ty);
    o.confidence <= 1.0 && (forall f :: f in o.fields ==> o.fields[f].confidence <= 1.0) ==>
      o.confidence >= low && forall f :: f in ty.schema ==> f in view && view[f].confidence >= low
  }

  /** With scores of at most 1, no field an AUTO_PROCESSED document shows, nor its
      classification, scores less than (n + 1) * t - n, for the n fields and the
      threshold t of its type. */
  lemma {:induction false} ProcessedScoresAreHigh(cfg: Config, w: nat, k: nat, s: Sys, d: nat) returns (r: nat)
    requires CallReachable(cfg, w, k, s) && d < |s.db.docs| && s.db.docs[d].status == AutoProcessed
    ensures r < |s.plan| && Integrity.Proven(cfg, s, d, r) && HighScores(cfg, s, d, s.plan[r])
  {
    CallReachableStates(cfg, w, k, s);
    r := MakerOf(cfg, s, d);
    ProvenScoresAreHigh(cfg, s, d, r);
  }

  lemma ProvenScoresAreHigh(cfg: Config, s: Sys, d: nat, r: nat)
    requires Integrity.Proven(cfg, s, d, r)
    ensures HighScores(cfg, s, d, s.plan[r])
  {
    var o := s.plan[r];
    if o.confidence <= 1.0 && forall f :: f in o.fields ==> o.fields[f].confidence <= 1.0 {
      var ty, view := cfg.types[o.docType], FieldView.View(s.db.fields, d);
      AcceptedScoresAreHigh(cfg, o);
      forall f | f in ty.schema ensures f in view && view[f].confidence >= Low(ty) {
        assert f in o.fields;
      }
    }
  }

  lemma AcceptedScoresAreHigh(cfg: Config, o: Outcomes)
    requires WellFormed(cfg, o) && o.docType in cfg.types && Overall(o) >= Threshold(cfg, o)
    requires o.confidence <= 1.0 && forall f :: f in o.fields ==> o.fields[f].confidence <= 1.0
    ensures o.confidence >= Low(cfg.types[o.docType])
    ensures forall f :: f in cfg.types[o.docType].schema ==> f in o.fields && o.fields[f].confidence >= Low(cfg.types[o.docType])
  {
    var ty := cfg.types[o.docType];
    OrderIsWhole(cfg, o);
    Sorting.EnumerationSize(o.order, o.fields.Keys);
    assert |o.order| == |ty.schema.Keys| == |ty.schema|;
    assert (1 + |o.order|) as real == |ty.schema| as real + 1.0;
    Confidence.ThresholdBoundsEveryScore(o.confidence, o.order, o.fields, ty.threshold, "");
    forall f | f in ty.schema
      ensures f in o.fields && o.fields[f].confidence >= Low(ty)
    {
      assert f in o.fields.Keys;
      Confidence.ThresholdBoundsEveryScore(o.confidence, o.order, o.fields, ty.threshold, f);
    }
  }

  /** Every field is visited, and only fields are. */
  lemma OrderIsWhole(cfg: Config, o: Outcomes)
    requires WellFormed(cfg, o)
    ensures forall f :: f in o.order <==> f in o.fields
  {
    forall f ensures f in o.order <==> f in o.fields {
      assert f in o.order <==> f in Sorting.Names(o.order);
    }
  }
}
