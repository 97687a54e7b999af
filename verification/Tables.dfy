/** The database statements the engine issues, one constructor per repository
    method, and what each of them does to the tables. */
module Tables {
  import opened Prelude
  import opened Domain

  datatype Stmt =
    | Query                                                             // reads only, or an UPDATE/INSERT that returned an error
    | RecordTool(run: nat, tool: Tool, outcome: ToolStatus, found: Option<nat>)
    | MarkClassified(doc: nat, docType: string, confidence: real)
    | MarkExtracted(doc: nat)
    | MarkValidated(doc: nat)
    | MarkAutoProcessed(doc: nat, overall: real)
    | MarkPendingReview(doc: nat, classConf: Option<real>, overallConf: Option<real>)
    | MarkReviewed(doc: nat)
    | MarkFailed(doc: nat)
    | MarkUploaded(doc: nat)
    | MarkDuplicateOf(doc: nat, original: nat)
    | SetKeyFieldsHash(doc: nat, hash: string)
    | InsertBatch(doc: nat, rows: seq<FieldRow>)
    | Finish(run: nat, result: RunStatus, iterations: nat)
    | CreateTask(doc: nat, reason: ReviewReason)
    | Resolve(task: nat, decision: ReviewStatus)
    | Audit(entry: Entry)

  function Coalesce<T>(a: Option<T>, b: Option<T>): Option<T> {
    if a.Some? then a else b
  }

  /** `UPDATE documents ... WHERE id = d`: no row, no effect. */
  function PutDoc(db: Db, d: nat, row: Document): Db {
    if d < |db.docs| then db.(docs := db.docs[d := row]) else db
  }

  function Exec(db: Db, stmt: Stmt): Db {
    match stmt
    case Query => db
    case RecordTool(r, tool, outcome, found) => db.(tools := db.tools + [ToolRow(r, tool, outcome, found)])
    case MarkClassified(d, ty, c) =>
      if d < |db.docs| then PutDoc(db, d, db.docs[d].(docType := Some(ty), classConf := Some(c), status := Classified)) else db
    case MarkExtracted(d) => SetStatus(db, d, Extracted)
    case MarkValidated(d) => SetStatus(db, d, Validated)
    case MarkAutoProcessed(d, overall) =>
      if d < |db.docs| then PutDoc(db, d, db.docs[d].(status := AutoProcessed, overallConf := Some(overall))) else db
    case MarkPendingReview(d, cc, oc) =>
      if d < |db.docs| then
        PutDoc(db, d, db.docs[d].(status := PendingReview,
                                  classConf := Coalesce(cc, db.docs[d].classConf),
                                  overallConf := Coalesce(oc, db.docs[d].overallConf)))
      else db
    case MarkReviewed(d) => SetStatus(db, d, Reviewed)
    case MarkFailed(d) => SetStatus(db, d, Failed)
    case MarkUploaded(d) => SetStatus(db, d, Uploaded)
    case MarkDuplicateOf(d, e) => if d < |db.docs| then PutDoc(db, d, db.docs[d].(duplicateOf := Some(e))) else db
    case SetKeyFieldsHash(d, h) => if d < |db.docs| then PutDoc(db, d, db.docs[d].(keyHash := Some(h))) else db
    case InsertBatch(d, rows) => db.(fields := db.fields + rows)
    case Finish(r, result, it) =>
      if r < |db.runs| then db.(runs := db.runs[r := db.runs[r].(status := result, iterations := it)]) else db
    case CreateTask(d, reason) => db.(tasks := db.tasks + [Task(d, reason, Pending)])
    case Resolve(t, decision) =>
      if t < |db.tasks| then db.(tasks := db.tasks[t := db.tasks[t].(status := decision)]) else db
    case Audit(e) => db.(audit := db.audit + [e])
  }

  function SetStatus(db: Db, d: nat, status: Status): Db {
    if d < |db.docs| then PutDoc(db, d, db.docs[d].(status := status)) else db
  }

  /** `Documents.Create`: a new row, younger than every other. */
  function Create(db: Db, tenant: nat, contentHash: string): Db {
    db.(docs := db.docs + [Document(tenant, contentHash, Uploaded, None, None, None, None, None)])
  }

  /** A claim's INSERT of a RUNNING row. */
  function OpenRun(db: Db, d: nat, worker: nat): Db {
    db.(runs := db.runs + [Run(d, worker, Running, 0)])
  }

  // ----- what the queries select -----

  predicate HasRunning(db: Db, d: nat) {
    exists r | 0 <= r < |db.runs| :: db.runs[r].doc == d && db.runs[r].status == Running
  }

  /** The WHERE clause of the claim query. */
  predicate Claimable(db: Db, d: nat) {
    d < |db.docs| && db.docs[d].status == Uploaded && !HasRunning(db, d)
  }

  /** The row the claim query returns: the oldest claimable one. */
  predicate IsNextClaim(db: Db, d: nat) {
    Claimable(db, d) && forall e | 0 <= e < d :: !Claimable(db, e)
  }

  /** The first document at or after `from` that satisfies the lookup. */
  function FirstDoc(docs: seq<Document>, p: Document -> bool, from: nat): Option<nat>
    requires from <= |docs|
    decreases |docs| - from
  {
    if from == |docs| then None
    else if p(docs[from]) then Some(from)
    else FirstDoc(docs, p, from + 1)
  }

  /** It is the earliest one: nothing before it does. */
  lemma {:induction false} FirstDocIsEarliest(docs: seq<Document>, p: Document -> bool, from: nat)
    requires from <= |docs|
    ensures var r := FirstDoc(docs, p, from);
      && (r.Some? ==> from <= r.value < |docs| && p(docs[r.value]) && forall i :: from <= i < r.value ==> !p(docs[i]))
      && (r.None? ==> forall i :: from <= i < |docs| ==> !p(docs[i]))
    decreases |docs| - from
  {
    if from < |docs| && !p(docs[from]) {
      FirstDocIsEarliest(docs, p, from + 1);
    }
  }

  function SameContent(tenant: nat, hash: string): Document -> bool {
    (x: Document) => x.tenant == tenant && x.contentHash == hash
  }

  function SameKeyFields(tenant: nat, docType: string, hash: string): Document -> bool {
    (x: Document) => x.tenant == tenant && x.docType == Some(docType) && x.keyHash == Some(hash)
  }

  function FindByContentHash(db: Db, tenant: nat, hash: string): Option<nat> {
    FirstDoc(db.docs, SameContent(tenant, hash), 0)
  }

  function FindByKeyFieldsHash(db: Db, tenant: nat, docType: string, hash: string): Option<nat> {
    FirstDoc(db.docs, SameKeyFields(tenant, docType, hash), 0)
  }

  function FailedRunOf(d: nat): Run -> bool {
    (x: Run) => x.doc == d && x.status == RunFailed
  }

  function CountFailed(db: Db, d: nat): nat {
    Count(db.runs, FailedRunOf(d))
  }

  function PendingTaskOf(d: nat): Task -> bool {
    (t: Task) => t.doc == d && t.status == Pending
  }

  /** The newest pending task of a document among the first `n` tasks. */
  function NewestPending(tasks: seq<Task>, d: nat, n: nat): (r: Option<nat>)
    requires n <= |tasks|
    ensures r.Some? ==> r.value < n && PendingTaskOf(d)(tasks[r.value])
    ensures r.Some? ==> forall i :: r.value < i < n ==> !PendingTaskOf(d)(tasks[i])
    ensures r.None? ==> forall i :: 0 <= i < n ==> !PendingTaskOf(d)(tasks[i])
  {
    if n == 0 then None
    else if PendingTaskOf(d)(tasks[n - 1]) then Some(n - 1)
    else NewestPending(tasks, d, n - 1)
  }

  function GetPendingByDocument(db: Db, d: nat): Option<nat> {
    NewestPending(db.tasks, d, |db.tasks|)
  }

  // ----- what a statement can touch -----

  predicate TouchesDoc(stmt: Stmt) {
    stmt.MarkClassified? || stmt.MarkExtracted? || stmt.MarkValidated? || stmt.MarkAutoProcessed? || stmt.MarkPendingReview?
    || stmt.MarkReviewed? || stmt.MarkFailed? || stmt.MarkUploaded? || stmt.MarkDuplicateOf? || stmt.SetKeyFieldsHash?
  }

  predicate SetsStatus(stmt: Stmt) {
    TouchesDoc(stmt) && !stmt.MarkDuplicateOf? && !stmt.SetKeyFieldsHash?
  }

  function StatusWritten(stmt: Stmt): Status
    requires SetsStatus(stmt)
  {
    match stmt
    case MarkClassified(_, _, _) => Classified
    case MarkExtracted(_) => Extracted
    case MarkValidated(_) => Validated
    case MarkAutoProcessed(_, _) => AutoProcessed
    case MarkPendingReview(_, _, _) => PendingReview
    case MarkReviewed(_) => Reviewed
    case MarkFailed(_) => Failed
    case MarkUploaded(_) => Uploaded
  }

  /** Tenant and content hash are written once, at upload. */
  predicate SameOrigin(a: Document, b: Document) {
    a.tenant == b.tenant && a.contentHash == b.contentHash
  }

  /** The frame of a statement, table by table. */
  lemma ExecFrame(db: Db, stmt: Stmt)
    ensures var db' := Exec(db, stmt);
      && |db'.docs| == |db.docs| && |db'.runs| == |db.runs|
      && (forall d :: 0 <= d < |db.docs| ==> SameOrigin(db'.docs[d], db.docs[d]))
      && (forall d :: 0 <= d < |db.docs| && !(TouchesDoc(stmt) && stmt.doc == d) ==> db'.docs[d] == db.docs[d])
      && (forall d :: 0 <= d < |db.docs| && TouchesDoc(stmt) && stmt.doc == d ==>
            && db'.docs[d].status == (if SetsStatus(stmt) then StatusWritten(stmt) else db.docs[d].status)
            && db'.docs[d].docType == (if stmt.MarkClassified? then Some(stmt.docType) else db.docs[d].docType)
            && db'.docs[d].keyHash == (if stmt.SetKeyFieldsHash? then Some(stmt.hash) else db.docs[d].keyHash)
            && db'.docs[d].duplicateOf == (if stmt.MarkDuplicateOf? then Some(stmt.original) else db.docs[d].duplicateOf))
      && (forall r :: 0 <= r < |db.runs| && !(stmt.Finish? && stmt.run == r) ==> db'.runs[r] == db.runs[r])
      && (stmt.Finish? && stmt.run < |db.runs| ==>
            db'.runs == db.runs[stmt.run := db.runs[stmt.run].(status := stmt.result, iterations := stmt.iterations)])
      && (!stmt.Finish? ==> db'.runs == db.runs)
      && (!TouchesDoc(stmt) ==> db'.docs == db.docs)
      && db'.tools == (if stmt.RecordTool? then db.tools + [ToolRow(stmt.run, stmt.tool, stmt.outcome, stmt.found)] else db.tools)
      && db'.fields == (if stmt.InsertBatch? then db.fields + stmt.rows else db.fields)
      && db'.audit == (if stmt.Audit? then db.audit + [stmt.entry] else db.audit)
      && (stmt.CreateTask? ==> db'.tasks == db.tasks + [Task(stmt.doc, stmt.reason, Pending)])
      && (stmt.Resolve? && stmt.task < |db.tasks| ==> db'.tasks == db.tasks[stmt.task := db.tasks[stmt.task].(status := stmt.decision)])
      && (!stmt.CreateTask? && !stmt.Resolve? ==> db'.tasks == db.tasks)
  {
  }
}
