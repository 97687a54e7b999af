/** The tables as mutable state, with one method per repository call. `failing`
    says that the database returns an error: the row is then left as it was. */
module Repositories {
  import opened Prelude
  import opened Domain
  import opened Tables
  import opened Pipeline
  import FieldView
  import ReviewQueue
  import AuditTrail

  class Store {
    var docs: seq<Document>
    var runs: seq<Run>
    var tools: seq<ToolRow>
    var fields: seq<FieldRow>
    var tasks: seq<Task>
    var audit: seq<Entry>

    ghost function Snapshot(): Db
      reads this
    {
      Db(docs, runs, tools, fields, tasks, audit)
    }

    constructor ()
      ensures Snapshot() == Db([], [], [], [], [], [])
    {
      docs, runs, tools, fields, tasks, audit := [], [], [], [], [], [];
    }

    // ----- documents -----

    method Create(tenant: nat, contentHash: string)
      modifies this`docs
      ensures Snapshot() == Tables.Create(old(Snapshot()), tenant, contentHash)
      ensures docs == old(docs) + [Document(tenant, contentHash, Uploaded, None, None, None, None, None)]
    {
      docs := docs + [Document(tenant, contentHash, Uploaded, None, None, None, None, None)];
    }

    method GetByID(d: nat) returns (row: Option<Document>)
      ensures row == if d < |docs| then Some(docs[d]) else None
    {
      row := if d < |docs| then Some(docs[d]) else None;
    }

    method MarkClassified(d: nat, docType: string, confidence: real, types: map<string, DocType>, failing: bool) returns (err: bool)
      modifies this`docs
      ensures err == (failing || docType !in types)
      ensures Snapshot() == Exec(old(Snapshot()), if err then Query else Stmt.MarkClassified(d, docType, confidence))
    {
      err := failing || docType !in types;
      if !err && d < |docs| {
        docs := docs[d := docs[d].(docType := Some(docType), classConf := Some(confidence), status := Classified)];
      }
    }

    method MarkExtracted(d: nat, failing: bool) returns (err: bool)
      modifies this`docs
      ensures err == failing
      ensures Snapshot() == Exec(old(Snapshot()), if err then Query else Stmt.MarkExtracted(d))
    {
      err := failing;
      if !err && d < |docs| {
        docs := docs[d := docs[d].(status := Extracted)];
      }
    }

    method MarkValidated(d: nat, failing: bool) returns (err: bool)
      modifies this`docs
      ensures err == failing
      ensures Snapshot() == Exec(old(Snapshot()), if err then Query else Stmt.MarkValidated(d))
    {
      err := failing;
      if !err && d < |docs| {
        docs := docs[d := docs[d].(status := Validated)];
      }
    }

    method MarkReviewed(d: nat, failing: bool) returns (err: bool)
      modifies this`docs
      ensures err == failing
      ensures Snapshot() == Exec(old(Snapshot()), if err then Query else Stmt.MarkReviewed(d))
    {
      err := failing;
      if !err && d < |docs| {
        docs := docs[d := docs[d].(status := Reviewed)];
      }
    }

    method MarkFailed(d: nat)
      modifies this`docs
      ensures Snapshot() == Exec(old(Snapshot()), Stmt.MarkFailed(d))
    {
      if d < |docs| {
        docs := docs[d := docs[d].(status := Failed)];
      }
    }

    method MarkUploaded(d: nat)
      modifies this`docs
      ensures Snapshot() == Exec(old(Snapshot()), Stmt.MarkUploaded(d))
    {
      if d < |docs| {
        docs := docs[d := docs[d].(status := Uploaded)];
      }
    }

    method MarkAutoProcessed(d: nat, overall: real, failing: bool) returns (err: bool)
      modifies this`docs
      ensures err == failing
      ensures Snapshot() == Exec(old(Snapshot()), if err then Query else Stmt.MarkAutoProcessed(d, overall))
    {
      err := failing;
      if !err && d < |docs| {
        docs := docs[d := docs[d].(status := AutoProcessed, overallConf := Some(overall))];
      }
    }

    method MarkPendingReview(d: nat, classConf: Option<real>, overallConf: Option<real>)
      modifies this`docs
      ensures Snapshot() == Exec(old(Snapshot()), Stmt.MarkPendingReview(d, classConf, overallConf))
    {
      if d < |docs| {
        docs := docs[d := docs[d].(status := PendingReview,
                                   classConf := if classConf.Some? then classConf else docs[d].classConf,
                                   overallConf := if overallConf.Some? then overallConf else docs[d].overallConf)];
      }
    }

    method MarkDuplicateOf(d: nat, original: nat)
      modifies this`docs
      ensures Snapshot() == Exec(old(Snapshot()), Stmt.MarkDuplicateOf(d, original))
    {
      if d < |docs| {
        docs := docs[d := docs[d].(duplicateOf := Some(original))];
      }
    }

    method SetKeyFieldsHash(d: nat, hash: string)
      modifies this`docs
      ensures Snapshot() == Exec(old(Snapshot()), Stmt.SetKeyFieldsHash(d, hash))
    {
      if d < |docs| {
        docs := docs[d := docs[d].(keyHash := Some(hash))];
      }
    }

    /** The earliest matching row: ORDER BY created_at ASC LIMIT 1. */
    method FindByContentHash(tenant: nat, hash: string) returns (found: Option<nat>)
      ensures found == Tables.FindByContentHash(Snapshot(), tenant, hash)
    {
      var i := 0;
      while i < |docs|
        invariant 0 <= i <= |docs|
        invariant FirstDoc(docs, SameContent(tenant, hash), 0) == FirstDoc(docs, SameContent(tenant, hash), i)
      {
        if docs[i].tenant == tenant && docs[i].contentHash == hash {
          return Some(i);
        }
        i := i + 1;
      }
      found := None;
    }

    method FindByKeyFieldsHash(tenant: nat, docType: string, hash: string) returns (found: Option<nat>)
      ensures found == Tables.FindByKeyFieldsHash(Snapshot(), tenant, docType, hash)
    {
      var i := 0;
      while i < |docs|
        invariant 0 <= i <= |docs|
        invariant FirstDoc(docs, SameKeyFields(tenant, docType, hash), 0) == FirstDoc(docs, SameKeyFields(tenant, docType, hash), i)
      {
        if docs[i].tenant == tenant && docs[i].docType == Some(docType) && docs[i].keyHash == Some(hash) {
          return Some(i);
        }
        i := i + 1;
      }
      found := None;
    }

    // ----- agent runs -----

    /** Picks the oldest UPLOADED document without a RUNNING run and opens one. */
    method ClaimNextUploaded(worker: nat) returns (claimed: Option<(nat, nat)>)
      modifies this`runs
      ensures claimed.None? ==> Snapshot() == old(Snapshot()) && forall d :: 0 <= d < |docs| ==> !Claimable(Snapshot(), d)
      ensures claimed.Some? ==>
        && IsNextClaim(old(Snapshot()), claimed.value.0) && claimed.value.1 == |old(runs)|
        && Snapshot() == OpenRun(old(Snapshot()), claimed.value.0, worker)
        && runs == old(runs) + [Run(claimed.value.0, worker, Running, 0)]
    {
      var d := 0;
      while d < |docs|
        invariant 0 <= d <= |docs|
        invariant Snapshot() == old(Snapshot())
        invariant forall e :: 0 <= e < d ==> !Claimable(Snapshot(), e)
      {
        if docs[d].status == Uploaded {
          var running := IsRunning(d);
          if !running {
            runs := runs + [Run(d, worker, Running, 0)];
            return Some((d, |runs| - 1));
          }
        }
        d := d + 1;
      }
      claimed := None;
    }

    method IsRunning(d: nat) returns (running: bool)
      ensures running == HasRunning(Snapshot(), d)
    {
      var r := 0;
      while r < |runs|
        invariant 0 <= r <= |runs|
        invariant forall q :: 0 <= q < r ==> !(runs[q].doc == d && runs[q].status == Running)
      {
        if runs[r].doc == d && runs[r].status == Running {
          return true;
        }
        r := r + 1;
      }
      running := false;
    }

    method Finish(r: nat, result: RunStatus, iterations: nat)
      modifies this`runs
      ensures Snapshot() == Exec(old(Snapshot()), Stmt.Finish(r, result, iterations))
    {
      if r < |runs| {
        runs := runs[r := runs[r].(status := result, iterations := iterations)];
      }
    }

    method CountFailed(d: nat) returns (count: nat)
      ensures count == Tables.CountFailed(Snapshot(), d)
    {
      count := 0;
      var r := 0;
      while r < |runs|
        invariant 0 <= r <= |runs|
        invariant count == Count(runs[..r], FailedRunOf(d))
      {
        assert runs[..r + 1] == runs[..r] + [runs[r]];
        CountAppend(runs[..r], runs[r], FailedRunOf(d));
        if runs[r].doc == d && runs[r].status == RunFailed {
          count := count + 1;
        }
        r := r + 1;
      }
      assert runs[..r] == runs;
    }

    // ----- tool executions, audit log -----

    method RecordTool(r: nat, tool: Tool, outcome: ToolStatus, found: Option<nat>)
      modifies this`tools
      ensures Snapshot() == Exec(old(Snapshot()), Stmt.RecordTool(r, tool, outcome, found))
    {
      tools := tools + [ToolRow(r, tool, outcome, found)];
    }

    method Record(tenant: nat, actor: Actor, action: Action, entity: Entity, run: Option<nat>)
      modifies this`audit
      ensures Snapshot() == Exec(old(Snapshot()), Audit(Entry(tenant, actor, action, entity, run)))
    {
      audit := audit + [Entry(tenant, actor, action, entity, run)];
    }

    /** The audit trail of a document as one tenant sees it, oldest first. */
    method ListAudit(tenant: nat, d: nat) returns (rows: seq<Entry>)
      ensures rows == AuditTrail.Selected(Snapshot(), audit, tenant, d)
      ensures forall e :: multiset(rows)[e] == if AuditTrail.Wanted(Snapshot(), e, tenant, d) then multiset(audit)[e] else 0
      ensures d < |docs| && tenant == docs[d].tenant ==>
        |rows| == |AuditTrail.History(Snapshot(), d)|
        && forall i :: 0 <= i < |rows| ==> rows[i].action == AuditTrail.History(Snapshot(), d)[i]
    {
      rows := [];
      var i := 0;
      while i < |audit|
        invariant 0 <= i <= |audit|
        invariant rows == AuditTrail.Selected(Snapshot(), audit[..i], tenant, d)
      {
        assert audit[..i + 1][..i] == audit[..i];
        var e := audit[i];
        var about := match e.entity
          case OfDocument(x) => x == d
          case OfRun(r) => r < |runs| && runs[r].doc == d
          case OfTask(t) => t < |tasks| && tasks[t].doc == d;
        if e.tenant == tenant && about {
          rows := rows + [e];
        }
        i := i + 1;
      }
      assert audit[..i] == audit;
      AuditTrail.HistoryIsSelection(Snapshot(), audit, d);
      AuditTrail.SelectedAreWanted(Snapshot(), audit, tenant, d);
    }

    // ----- extracted fields -----

    /** One transaction: the rows become visible together at the commit. */
    method InsertBatch(d: nat, batch: seq<FieldRow>, failing: bool) returns (err: bool)
      requires forall i :: 0 <= i < |batch| ==> batch[i].doc == d && batch[i].at == |fields|
      modifies this`fields
      ensures err == (failing && |batch| > 0)
      ensures Snapshot() == Exec(old(Snapshot()), if err then Query else Stmt.InsertBatch(d, batch))
    {
      if |batch| == 0 {
        assert fields + batch == fields;
        return false;
      }
      var pending: seq<FieldRow> := [];
      var i := 0;
      while i < |batch|
        invariant 0 <= i <= |batch|
        invariant pending == batch[..i]
      {
        pending := pending + [batch[i]];
        i := i + 1;
      }
      if failing {
        return true;
      }
      assert pending == batch;
      fields := fields + pending;
      err := false;
    }

    /** The newest row of every field name. */
    method ListFields(d: nat) returns (view: map<string, FieldRow>)
      ensures view == FieldView.View(fields, d)
    {
      view := map[];
      var i := 0;
      while i < |fields|
        invariant 0 <= i <= |fields|
        invariant view == FieldView.View(fields[..i], d)
      {
        assert fields[..i + 1][..i] == fields[..i];
        if fields[i].doc == d {
          view := view[fields[i].name := fields[i]];
        }
        i := i + 1;
      }
      assert fields[..i] == fields;
    }

    // ----- review tasks -----

    method CreateTask(d: nat, reason: ReviewReason)
      modifies this`tasks
      ensures Snapshot() == Exec(old(Snapshot()), Stmt.CreateTask(d, reason))
    {
      tasks := tasks + [Task(d, reason, Pending)];
    }

    method GetPendingByDocument(d: nat) returns (found: Option<nat>)
      ensures found == Tables.GetPendingByDocument(Snapshot(), d)
    {
      var n := |tasks|;
      while n > 0
        invariant 0 <= n <= |tasks|
        invariant NewestPending(tasks, d, |tasks|) == NewestPending(tasks, d, n)
      {
        if tasks[n - 1].doc == d && tasks[n - 1].status == Pending {
          return Some(n - 1);
        }
        n := n - 1;
      }
      found := None;
    }

    method Resolve(t: nat, decision: ReviewStatus, failing: bool) returns (err: bool)
      modifies this`tasks
      ensures err == failing
      ensures Snapshot() == Exec(old(Snapshot()), if err then Query else Stmt.Resolve(t, decision))
    {
      err := failing;
      if !err && t < |tasks| {
        tasks := tasks[t := tasks[t].(status := decision)];
      }
    }

    /** The tenant's open tasks, oldest first. */
    method ListPendingByTenant(tenant: nat) returns (queue: seq<nat>)
      ensures queue == ReviewQueue.QueueOf(Snapshot(), tenant, |tasks|)
      ensures forall i, j :: 0 <= i < j < |queue| ==> queue[i] < queue[j]
      ensures forall t: nat :: t in queue <==>
        t < |tasks| && tasks[t].status == Pending && tasks[t].doc < |docs| && docs[tasks[t].doc].tenant == tenant
    {
      queue := [];
      var t := 0;
      while t < |tasks|
        invariant 0 <= t <= |tasks|
        invariant queue == ReviewQueue.QueueOf(Snapshot(), tenant, t)
      {
        if tasks[t].status == Pending && tasks[t].doc < |docs| && docs[tasks[t].doc].tenant == tenant {
          queue := queue + [t];
        }
        t := t + 1;
      }
    }
  }
}
