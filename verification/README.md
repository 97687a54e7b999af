# Document-processing engine: a verified model

This project models the engine of the document-processing service and proves
what it guarantees. The engine is a job queue kept in database tables: workers
claim uploaded documents, drive each through seven gated steps (OCR,
classification, extraction, validation, duplicate check, confidence,
finalisation), retry recoverable failures within a budget, and hand everything
doubtful to human reviewers. Around it stand the migration runner that both
binaries call at startup, the serialiser behind near-duplicate detection, and
the stub extractor whose output it serialises.

`dafny verify dfyconfig.toml` checks the whole project.

## How it is built

| part | files |
|---|---|
| entities, tables, what each statement does | `Domain`, `Tables`, `Prelude`, `Sorting`, `Strings` |
| tools | `Validation`, `Confidence`, `KeyFields`, `StubExtractor`, `AnthropicExtractor`, `FieldView` |
| the imperative code: tables as mutable fields | `Store` (repositories), `Runner` (`process`, `fail`, `PollOnce`, drain loop), `Review` (`Submit`), `Migration` |
| specification of one run and one review | `Pipeline` (control programs), `Gates` (declarative gates), `Outcome` (the tables a whole run leaves, from its verdict), `PlainTerms` (the same condition by condition and column by column, without the functions of the others), `Solo`, `Queue` |
| the concurrent system | `Protocol` (one step = one database statement), `CallLevel` |
| invariants | `Ownership`, `Retries`, `Duplicates`, `SingleWorker`, `Routing`, `Attempts`, `AuditTrail`, `AuditTenancy`, `ReviewQueue`, `Integrity` |
| results | `Theorems` (what holds of all runs); what does not, with schedules and the exact conditions: `Ceiling` and `Crowding` (the most runs a document can get), `Limits` (near-copies, finality), `Leftovers` and `FieldLeftovers` (what a retry keeps), `Decisions` (review tasks and the audit log) |

A run of the system is any sequence of acts: uploads, claims, and single
database statements of any number of workers and reviewers, in any order. A
worker between two statements is a control point of `Pipeline`; the imperative
methods of `Runner` and `Review` are proved to leave exactly the tables their
control program leaves, and an uninterrupted call is proved to be a run of the
protocol, so the theorems about all runs are theorems about the imperative code.

Two granularities are used. Results under "every interleaving" allow any
statement of anybody between any two statements of anybody else. "Call-level
schedules" are the runs in which `fail`, `routeToReview` and `Submit` are not
interrupted; all other statements still interleave freely. `Limits` shows why
the second kind is needed: between the statements of `fail` the document is
already free to be claimed again.

## Assumptions

- The claim transaction is one atomic step that sees all earlier statements and
  picks the oldest candidate. `Theorems.OneRunAtATime` is the result this
  assumption carries: under READ COMMITTED a claimer whose snapshot predates
  another's commit, and who reaches the row after its lock is gone, is not made to
  evaluate the `NOT EXISTS` again, because the row was locked and not updated. What
  the isolation level and `SKIP LOCKED` do to two claims at the same instant is
  outside the model.
- `created_at` is strictly increasing, so a row's position in its table is its
  age and its identifier.
- Writes whose error the code only logs or discards succeed: `Finish`,
  `MarkUploaded`, `MarkFailed`, `MarkPendingReview`, `MarkDuplicateOf`,
  `SetKeyFieldsHash`, `Reviews.Create`, `Audit.Record`, `ToolExecutions.Record`.
  Every other database call, and every provider call, may fail at will.
- What the environment answers during one run is an arbitrary value chosen when
  the run is claimed (`Outcomes`), including the order of Go's map iteration;
  in methods that iterate over a map directly the choice is made by `:|`.
- An extraction has exactly the schema's keys; `StubExtractor.Extract` and
  `AnthropicExtractor.Extract` prove that both providers meet this.
- Confidences are real numbers. The digest, the rendering of a value, lower-casing
  and number parsing are arbitrary functions.

`Smooth` in `Limits` names an environment in which nothing but a duplicate stops a
run. It is not an assumption: one exists exactly when MaxIterations is at least 7
and there is a type other than "unknown" (`Limits.SmoothExistsIff`), and it does
wherever a document has been auto-processed (`Limits.ProcessedMeansSmoothExists`).

## Where the documentation says more than the code does

- The architecture document promises MaxRetries + 1 attempts in total
  (docs/architecture/agent-architecture.md:90). Over all interleavings that holds
  if and only if there is one worker (`Crowding.BudgetHoldsIffOneWorker`). The most
  runs that W workers can give one document, with R = max(MaxRetries, 0), is
  W + the sum over t < R of max(W - t, e), where e is 2 if W and MaxIterations
  are at least 2, and 1 otherwise: no schedule exceeds it and one
  reaches it, for every W and every configuration (`Crowding.MostRunsIsExact`).
- The repository's README calls running several workers safe (README.md:301-302).
  Exact duplicates are excluded for any number of workers. Near-duplicates are
  excluded (`Limits.NearCopiesExcludedIffOneWorker`), and AUTO_PROCESSED is final
  (`Limits.ProcessedIsFinalIffOneWorker`), if and only if there is one worker or
  nothing can be auto-processed at all.
- The data dictionary calls a document's type "NULL until classified"
  (docs/technical-design/db.md:49). A retried document keeps the type of its earlier
  run, so one that is then not recognised carries a type. Even on call-level
  schedules it never does if and only if MaxRetries is at most 0, or MaxIterations
  is below 3, or there is no type but "unknown" (`Leftovers.UnrecognisedUntypedIff`).
- A retry is called safe to observe because reads take the newest row of each field
  (docs/architecture/agent-architecture.md:91). Fields that only the earlier run's
  type has are shown for ever. Every extracted field a document shows is one of its
  type if and only if MaxRetries is at most 0, or MaxIterations is below 3, or all
  types have the same fields (`FieldLeftovers.OwnFieldsIff`); for AUTO_PROCESSED
  documents the cap in question is 7 (`FieldLeftovers.ProcessedFieldsIff`).
- The operations guide calls the audit log the source of truth for what reviewers
  did (docs/OPERATIONS.md:38). Over all interleavings the tasks agree with it if and
  only if at most one reviewer submits at a time, or nothing is ever routed because
  there is no worker or MaxIterations is below 2 (`Decisions.LogAgreesIff`); on
  call-level schedules they always agree (`Decisions.LogMatchesTasks`).

## Model

| member | source | states |
|---|---|---|
| Theorems.OneRunAtATime | internal/db/claim.go:26-55 | under every interleaving of database statements by any number of workers and reviewers, with each claim atomic, no document has two RUNNING agent runs |
| Theorems.RetriesAreBounded | internal/agent/runner.go:391-424 | under every interleaving, a document is set back to UPLOADED at most max(MaxRetries, 0) times and W workers open at most W * (max(MaxRetries, 0) + 1) runs for it |
| Theorems.NoExactCopyProcessed | internal/agent/runner.go:254-262 | under every interleaving, an AUTO_PROCESSED document is the oldest of its tenant with its content hash, so no two of them share one |
| Theorems.DuplicateOfIsAcyclic | internal/agent/runner.go:291-298 | under every interleaving, every chain of `duplicate_of` values descends to strictly older documents of the same tenant; a tenant's oldest document has none |
| Theorems.RunsFollowTheirGates | internal/agent/runner.go:81-363 | under every interleaving, a finished run's result, iteration count and tool executions are those of the first failing gate of a declarative seven-gate function; iterations stay within min(7, max(MaxIterations, 0) + 1); below a cap of 7 nothing is auto-processed, from 7 on the cap stops no run |
| Theorems.FinishedRunsInPlainTerms | internal/agent/runner.go:81-363 | under every interleaving, a finished run ended under the one condition, spelled out for each of its 21 possible endings, that this ending has, and its result, iteration count and tool executions, row by row with their status, are those the condition gives; no gate, threshold or validation function is named |
| Theorems.LowScoresAreRouted | internal/agent/runner.go:307-344 | under every interleaving, a finished run that got past the duplicate check and could load the threshold was routed as LOW_CONFIDENCE exactly when the mean of its scores was below the threshold of its own type, and auto-processed its document exactly when it was not, the cap allowed step 7 and the update went through |
| Theorems.TasksNameTheVerdict | internal/agent/runner.go:369-371 | under every interleaving, a document has as many review tasks with a given reason as it has runs whose first failing gate gives that reason and that have got as far as opening theirs; for finished runs that is all those the gates send there |
| Theorems.AuditNamesTheVerdict | internal/agent/runner.go:357-424 | under every interleaving, each audit entry that concludes a run reports the ending that run's gates decided |
| Theorems.FieldViewIsNewestRows | internal/db/extracted_fields.go:63-69 | in every reachable state the newest-row-per-name query selects one row per name and equals the view obtained by overwriting |
| Theorems.OneWorkerKeepsOrder | internal/db/claim.go:26-38 | with one worker, whatever uploads and reviewers do in between, documents leave the agent in exactly upload order, retries included, each after at most max(MaxRetries, 0) + 1 runs |
| Theorems.OneWorkerNoNearCopies | internal/agent/runner.go:267-281 | with one worker no two AUTO_PROCESSED documents of a tenant share type and key-fields hash, and both have them |
| Theorems.OneWorkerFinality | internal/agent/runner.go:345-352 | with one worker no column of an AUTO_PROCESSED document ever changes again, over every continuation of every run |
| Theorems.AttemptsAreBounded | internal/agent/runner.go:391-412 | on call-level schedules a document gets at most max(MaxRetries, 0) + 1 runs, however many workers there are |
| Theorems.NothingIsStranded | internal/agent/runner.go:81-424 | on call-level schedules a document has a RUNNING row exactly if a worker is in a live run of it, standing at a step of its status; intermediate statuses have one, UPLOADED means claimable or running, PENDING_REVIEW, REVIEWED and FAILED have none, and AUTO_PROCESSED only while its run is about to be finished |
| Theorems.SettledIsForever | internal/db/documents.go:194-219 | on call-level schedules AUTO_PROCESSED, REVIEWED and FAILED rows are never written again and PENDING_REVIEW only becomes REVIEWED, over every continuation of every run |
| Theorems.HistoryReplays | internal/db/audit_logs.go:48-61 | on call-level schedules the three-way join of a document's audit entries is always a word of the pipeline automaton, and replays to the status of a document nobody holds, except for one whose row could not be loaded, which fails without an entry |
| Theorems.HeldHistoryReplays | internal/db/audit_logs.go:24-39 | on call-level schedules the history of a document some worker holds replays to its status, intermediate ones included, together with the one entry the worker's position still owes, if any |
| Theorems.ReviewQueueIsExact | internal/db/review_tasks.go:90-115 | on call-level schedules the tenant's queue lists exactly its PENDING_REVIEW documents and no other tenant's, once each, in routing order, except exactly the documents whose review was resolved but never marked |
| Theorems.ProcessedDocumentsAreProven | internal/agent/runner.go:139-345 | on call-level schedules an AUTO_PROCESSED document's current field values satisfy its stored type's schema; type, both confidences, hash and schema fields all come from one run, COMPLETED or, while its worker is still finishing it, RUNNING; every other run failed, and the mean reaches the threshold of that type |
| Theorems.ProcessedScoresAreHigh | internal/agent/runner.go:314-336 | on call-level schedules, with scores of at most 1, no field an AUTO_PROCESSED document shows, nor its classification, scores less than (n + 1) * t - n for the n fields and the threshold t of its type |
| Crowding.BudgetHoldsIffOneWorker | docs/architecture/agent-architecture.md:90 | "MaxRetries + 1 attempts in all" holds over all interleavings if and only if there is exactly one worker |
| Crowding.MostRunsReached | internal/agent/runner.go:391-424 | for every number of workers and every configuration, a schedule that gives one document the most runs: requeues spent one at a time with a review in between, then all workers fail it at once and hold back what they are granted, then one requeue after the other is carried out |
| Crowding.MostRunsIsExact | internal/agent/runner.go:391-424 | a number bounds the runs of every document in every reachable state if and only if it is at least W + the sum over t < max(MaxRetries, 0) of max(W - t, e), with e = 2 if W and MaxIterations are at least 2 and 1 otherwise |
| Ceiling.RunsAreAtMost | internal/agent/runner.go:391-424 | no schedule of W workers opens more runs than that for a document |
| Ceiling.CeilingAfter | internal/agent/runner.go:391-424 | every statement keeps: a document's runs that did not fail are at most one more than its requeues, and once no requeue is granted any more, those held back bound the runs that are left |
| Limits.NearCopiesExcludedIffOneWorker | internal/agent/runner.go:264-281 | that no two AUTO_PROCESSED documents share type and key fields holds, even over call-level schedules only, if and only if there is exactly one worker or nothing can be auto-processed |
| Limits.TwoWorkersMissNearCopies | internal/agent/runner.go:212-281 | the schedule: the younger document is looked up before the older one has stored its hash, and the older one then finds itself |
| Limits.ProcessedIsFinalIffOneWorker | internal/agent/runner.go:391-416 | that AUTO_PROCESSED stays AUTO_PROCESSED holds over all interleavings if and only if there is exactly one worker or nothing can be auto-processed |
| Limits.FinishedDocumentIsOverwritten | internal/agent/runner.go:391-416 | the schedule: between the statements of `fail`, another worker can claim and auto-process the document, and the pending status write then replaces AUTO_PROCESSED |
| Limits.SmoothExistsIff | internal/agent/runner.go:81-363 | some environment lets a run through to AUTO_PROCESSED if and only if MaxIterations is at least 7 and there is a type other than "unknown", whatever its schema and threshold |
| Limits.ProcessedMeansSmoothExists | internal/agent/runner.go:81-363 | where a document has been AUTO_PROCESSED, under any interleaving, such an environment exists |
| Decisions.LogMatchesTasks | internal/api/review_handler.go:27-36 | on call-level schedules a task is Approved, Rejected or Corrected whenever an audit entry about it says so, in every state; between calls every decided task has the entry that says so, unless its review stopped half-way |
| Decisions.LogAgreesIff | docs/OPERATIONS.md:38 | that every task stands as the log says it was decided holds over all interleavings if and only if at most one reviewer submits at a time, or there is no worker, or MaxIterations is below 2, so that nothing is ever routed |
| Decisions.LogContradictsTask | internal/api/review_handler.go:71-120 | the schedule: two reviewers read the open task before either decides; one approves, the other rejects, and the log keeps an approval of a rejected task |
| Decisions.AgreeingAfter | internal/api/review_handler.go:103-120 | every statement, of a reviewer who is alone at work or of anybody else, keeps: entries agree with tasks, a reviewer's task is open until resolved and as decided afterwards, and a decided task is logged, about to be, or torn |
| Leftovers.UnrecognisedUntypedIff | docs/technical-design/db.md:49 | that a document routed as UNKNOWN_TYPE has no type holds over call-level schedules if and only if MaxRetries <= 0, or MaxIterations < 3, or no type but "unknown" exists |
| Leftovers.UnrecognisedWithType | internal/agent/runner.go:130-158 | the schedule: one worker classifies the document, cannot load the schema and sets it back; its next run does not recognise it |
| Leftovers.BlankAfter | internal/agent/runner.go:117-153 | every call-level statement keeps, under that condition: no type before the classification is stored, none on a waiting document, none on one routed as UNKNOWN_TYPE |
| FieldLeftovers.OwnFieldsIff | docs/architecture/agent-architecture.md:91 | that every extracted field a document shows belongs to the type it carries holds over call-level schedules if and only if MaxRetries <= 0, or MaxIterations < 3, or all types have the same fields |
| FieldLeftovers.ProcessedFieldsIff | internal/db/extracted_fields.go:63-69 | that an AUTO_PROCESSED document shows exactly its type's fields holds over call-level schedules if and only if MaxRetries <= 0, or MaxIterations < 7, or all types have the same fields |
| FieldLeftovers.ForeignFieldShown | internal/agent/runner.go:173-204 | the schedule: one worker stores the fields of one type, fails at the status and sets the document back; its next run gives it another type |
| FieldLeftovers.RowsAfter | internal/agent/runner.go:173-196 | every call-level statement keeps, under that condition: extracted rows are of the document's type, corrected ones belong to a document in review |
| Agent.Runner.PollOnce | internal/agent/runner.go:68-79 | returns whether it claimed; if so the tables are those of one uninterrupted run on the oldest claimable document, which are spelled out column by column, otherwise they are unchanged |
| Agent.Runner.Drain | cmd/worker/main.go:73-93 | polling until nothing is claimed ends within the queue's budget of attempts, at most D * (max(MaxRetries, 0) + 1) claims, and without a claim error leaves every waiting document settled and every other one untouched |
| Agent.Runner.Process | internal/agent/runner.go:81-96 | `process` leaves exactly the tables of the control program started at its first statement, including the failed load and the cap; for a claimed document these are the tables its first failing gate determines, and the only ones that fit the column-by-column description of `PlainTerms.RunInPlainTerms` |
| Agent.Runner.RunOcr | internal/agent/runner.go:97-116 | step 1 and the cap before step 2 |
| Agent.Runner.ClassifyDocument | internal/agent/runner.go:117-137 | step 2: provider failure, unknown type, or on to the update |
| Agent.Runner.PersistClassification | internal/agent/runner.go:139-153 | the classification's update with its foreign key, its audit entry and the cap before step 3 |
| Agent.Runner.ExtractFields | internal/agent/runner.go:154-171 | step 3: the schema and the provider call |
| Agent.Runner.StoreFields | internal/agent/runner.go:173-196 | one row per field in map order, inserted as one batch |
| Agent.Runner.CollectRows | internal/agent/runner.go:173-188 | the loop collects exactly one row per extracted field |
| Agent.Runner.ExtractError | internal/agent/runner.go:165-196 | a failed extraction records its tool row and fails the run |
| Agent.Runner.PersistExtraction | internal/agent/runner.go:197-204 | the tool row and the EXTRACTED update |
| Agent.Runner.HashAndContinue | internal/agent/runner.go:205-221 | the audit entry, then the key-fields hash if the extraction is complete, then the cap before step 4 |
| Agent.Runner.Check | internal/agent/runner.go:222-226 | the value map built in any order is valid exactly when the run's extraction is accepted |
| Agent.Runner.ValidateExtraction | internal/agent/runner.go:227-235 | step 4: violations route to review |
| Agent.Runner.PersistValidation | internal/agent/runner.go:237-251 | the VALIDATED update, its audit entry and the cap before step 5 |
| Agent.Runner.CheckDuplicate | internal/agent/runner.go:252-282 | step 5: exact copies first, key fields only when there is none and the extraction is complete |
| Agent.Runner.CheckNearDuplicate | internal/agent/runner.go:268-281 | the key-fields lookup and its three outcomes |
| Agent.Runner.LookupFailed | internal/agent/runner.go:255-260 | a failed lookup records its tool row and fails the run |
| Agent.Runner.DuplicateChecked | internal/agent/runner.go:284-306 | a duplicate is marked and routed, anything else meets the cap before step 6 |
| Agent.Runner.CalculateConfidence | internal/agent/runner.go:307-344 | step 6: the score is recorded; a mean below the threshold of the document's own type leaves the document routed as LOW_CONFIDENCE, any other mean leaves the run at the cap before step 7 |
| Agent.Runner.Score | internal/agent/runner.go:314-320 | the mean the run's outcome determines |
| Agent.Runner.FinalizeDocument | internal/agent/runner.go:345-352 | step 7: the AUTO_PROCESSED update and the tool row |
| Agent.Runner.CloseFinalized | internal/agent/runner.go:354-359 | the run is completed with 7 iterations and the audit entry written |
| Agent.Runner.Fail | internal/agent/runner.go:391-424 | `fail` leaves the tables of its control program; for a run in hand that is: run FAILED, document UPLOADED exactly if the cause is retryable, the count succeeded and failures including this one are within MaxRetries, FAILED otherwise, one matching audit entry if the tenant is known, nothing else |
| Agent.Runner.CountAndDecide | internal/agent/runner.go:396-416 | failures are counted after this run's own is on record; a failed count gives up |
| Agent.Runner.Retry | internal/agent/runner.go:401-411 | the requeue and its audit entry, if the tenant is known |
| Agent.Runner.GiveUp | internal/agent/runner.go:415-422 | the FAILED update and its audit entry, if the tenant is known |
| Agent.Runner.RouteToReview | internal/agent/runner.go:369-377 | one open review task, the document PENDING_REVIEW with the confidence its reason calls for and the other one kept, the run COMPLETED, one audit entry, nothing else |
| Agent.Runner.MarkRouted | internal/agent/runner.go:373-375 | the PENDING_REVIEW update with the given confidences, then the rest |
| SoloRun.RunFails | internal/agent/runner.go:391-424 | the statements of `fail` add up to that description |
| SoloRun.RunIsRouted | internal/agent/runner.go:369-382 | the statements of `routeToReview` add up to that description |
| Agent.Runner.CloseRouted | internal/agent/runner.go:377-385 | the run is completed and the audit entry written |
| SoloRun.DriveIsAtomicRun | internal/agent/runner.go:77 | an uninterrupted run is a run of the protocol, on call-level schedules whenever nobody else is inside an atomic call, and reaches the tables `process` is proved to leave |
| SoloRun.SoloAttempts | internal/agent/runner.go:81-424 | every run ends; it settles its document or requeues it with one more failed run within the budget, and touches no other document or run |
| Outcome.RunHasOutcome | internal/agent/runner.go:81-424 | an uninterrupted run leaves, statement by statement, the tables described gate by gate: what the gates passed have written, what the failing one adds, and the way out it takes |
| Outcome.OutcomeFollowsVerdict | internal/agent/runner.go:81-424 | all six tables after an uninterrupted run as a function of its verdict: status, review task and its reason, type, hash, both confidences, link, run, iterations, tool executions, field rows and audit entries |
| PlainTerms.RunInPlainTerms | internal/agent/runner.go:81-424 | the tables an uninterrupted run leaves fit a description in plain terms, and no others do: which steps went through, what the duplicate check learned, how the run ended, every column of the document, run, task, tool, field and audit rows; written without the functions of the code and the gates, except the mean and the key-fields hash |
| PlainTerms.VerdictMeans | internal/agent/runner.go:81-363 | each of the 21 endings is reached exactly under its own condition, and the iteration count is the step that did not go through |
| PlainTerms.LowConfidenceIff | internal/agent/runner.go:307-336 | a run past the first five gates, with a cap of at least 6 and the threshold loaded, is sent to review for its confidence exactly when the mean is below the threshold of its own type |
| PlainTerms.TraceMeans | internal/agent/runner.go:103-353 | the tool executions of a run, step by step: success, failure or timeout, and the duplicate found |
| PlainTerms.LookupMeans | internal/db/documents.go:260-314 | what the duplicate check learns: the oldest document of the tenant with the same content or, failing that, with the same type and key fields |
| Pipeline.RankFalls | internal/agent/runner.go:81-424 | the control program never goes back, so every run ends |
| Queue.PollSpendsOne | internal/agent/runner.go:68-79 | a claiming poll settles its document or leaves it claimable with one attempt fewer, and changes nobody else's chances |
| Queue.PollIsAtomicRun | internal/agent/runner.go:68-79 | a poll is a call-level run of the protocol: what is proved of all runs holds of `PollOnce` |
| Queue.BudgetBound | internal/agent/runner.go:391-412 | D documents have at most D * (max(MaxRetries, 0) + 1) attempts left |
| Ownership.OwnedAfter | internal/db/claim.go:26-55 | every statement keeps: a RUNNING row belongs to a worker standing in that run, at most one per document |
| Retries.RetriesBoundedAfter | internal/agent/runner.go:391-412 | every statement keeps: granted requeues plus finished but uncounted failures never exceed the FAILED runs, nor granted requeues the budget |
| Retries.RunsBoundedAfter | internal/db/claim.go:26-55 | every statement keeps: a worker claims a document at most once between two requeues |
| Duplicates.LookupsLookBack | internal/db/documents.go:289-314 | the document is a candidate of its own search, so what a lookup finds is never younger |
| Duplicates.SoundAfter | internal/agent/runner.go:254-298 | every statement keeps the facts about earliest copies and `duplicate_of` |
| Gates.CapLaw | internal/agent/runner.go:92-96 | the iteration cap: the bound on iterations and when the cap stops a run |
| Gates.TraceLaw | internal/agent/runner.go:103-129 | the trace is a prefix of the seven tools, as long as the iterations or one shorter, and all but its last row succeeded |
| Gates.TracesAfter | internal/agent/runner.go:81-363 | every statement keeps: each run is on the course its gates decide, and finished runs followed it |
| Gates.AuditAfter | internal/db/audit_logs.go:24-39 | every statement keeps: concluding audit entries name their run's verdict |
| Routing.TasksAfter | internal/agent/runner.go:369-377 | every statement keeps: the review tasks of each document and reason are as many as the runs routed for that reason that have opened theirs |
| CallLevel.ConsistentAfter | internal/agent/runner.go:81-424 | every call-level statement keeps status, run and position of each document in agreement |
| CallLevel.RunningMeansDriven | internal/db/claim.go:26-55 | a document has a RUNNING row if and only if some worker is in a live run of it |
| CallLevel.StatusMatchesRuns | internal/agent/runner.go:81-424 | what the agreement means between calls, for every status and every position of a worker |
| CallLevel.SettledStaysSettled | internal/db/documents.go:194-219 | one call-level statement never rewrites a finished document |
| AuditTrail.DocumentedAfter | internal/db/audit_logs.go:24-61 | every call-level statement keeps: the history, plus the one entry a position may still owe, replays to the status |
| AuditTrail.WordsConcludeOnce | internal/agent/runner.go:357-424 | the words of the automaton: retried runs, then at most one concluding entry, then at most one review entry after a routed one |
| AuditTrail.HistoryIsSelection | internal/db/audit_logs.go:48-61 | a document's history is the actions of the rows the query returns to its own tenant, in order |
| AuditTrail.SelectedAreWanted | internal/db/audit_logs.go:48-61 | the query returns each entry of the tenant about the document, its runs or its review tasks as often as it is in the log, and no other entry |
| AuditTenancy.TrailIsTheTenants | internal/db/audit_logs.go:48-61 | under every interleaving, a document's tenant lists every entry about the document, its runs and its review tasks, and any other tenant none |
| AuditTenancy.OwnedEntriesAfter | internal/db/audit_logs.go:24-39 | every statement keeps: each entry belongs to the tenant of the document it is about |
| ReviewQueue.QueueAfter | internal/db/review_tasks.go:39-86 | every call-level statement keeps: one open review task while PENDING_REVIEW and whole, none otherwise |
| ReviewQueue.QueueListsPending | internal/db/review_tasks.go:90-115 | what that means for the tenant's queue |
| Integrity.AcceptedIsComplete | internal/agent/runner.go:212-235 | a valid extraction has no missing field, so its key-fields hash was stored |
| Integrity.DataAfter | internal/agent/runner.go:139-345 | every call-level statement keeps: what an AUTO_PROCESSED document shows is its completed run's |
| Attempts.AttemptsAfter | internal/agent/runner.go:391-412 | every call-level statement keeps: no more runs than requeues plus one |
| SingleWorker.ClaimsFrontier | internal/db/claim.go:26-38 | with the only worker idle, the next claim is the oldest document not yet settled |
| SingleWorker.NearLookupClears | internal/agent/runner.go:267-281 | with one worker, a near-duplicate lookup that finds nothing older makes the document the first of its kind |
| SingleWorker.OrderAfter | internal/db/claim.go:26-38 | every statement keeps the upload order with one worker |
| SingleWorker.AutoProcessedStays | internal/agent/runner.go:345-352 | with one worker no statement of anybody changes an AUTO_PROCESSED row |
| Repositories.Store.ClaimNextUploaded | internal/db/claim.go:19-62 | opens a RUNNING run for the oldest UPLOADED document without one, or finds that there is none |
| Repositories.Store.IsRunning | internal/db/claim.go:30-33 | the NOT EXISTS clause |
| Repositories.Store.Create | internal/db/documents.go:22-35 | one more document, younger than the others |
| Repositories.Store.GetByID | internal/db/documents.go:66-89 | the row, or none |
| Repositories.Store.MarkClassified | internal/db/documents.go:93-105 | type, confidence and status; an error, including the foreign key's, changes nothing |
| Repositories.Store.MarkExtracted | internal/db/documents.go:109-119 | the status, or nothing on an error |
| Repositories.Store.MarkValidated | internal/db/documents.go:123-133 | the status, or nothing on an error |
| Repositories.Store.MarkPendingReview | internal/db/documents.go:142-156 | the status, and each confidence only if one is given |
| Repositories.Store.MarkDuplicateOf | internal/db/documents.go:161-172 | the duplicate columns and not the status |
| Repositories.Store.MarkAutoProcessed | internal/db/documents.go:177-188 | status and overall confidence, or nothing on an error |
| Repositories.Store.MarkReviewed | internal/db/documents.go:194-205 | the status, or nothing on an error |
| Repositories.Store.MarkFailed | internal/db/documents.go:208-219 | the status |
| Repositories.Store.MarkUploaded | internal/db/documents.go:225-236 | the status |
| Repositories.Store.SetKeyFieldsHash | internal/db/documents.go:244-253 | the hash column |
| Repositories.Store.FindByKeyFieldsHash | internal/db/documents.go:260-285 | the earliest document of the tenant with the type and hash |
| Repositories.Store.FindByContentHash | internal/db/documents.go:289-314 | the earliest document of the tenant with the content hash |
| Tables.FirstDocIsEarliest | internal/db/documents.go:289-314 | no earlier row satisfies a lookup that takes the first |
| Repositories.Store.Finish | internal/db/agent_runs.go:21-32 | status and iterations of one run |
| Repositories.Store.CountFailed | internal/db/agent_runs.go:38-48 | the number of FAILED runs of the document |
| Repositories.Store.RecordTool | internal/db/tool_executions.go:25-42 | one more tool execution |
| Repositories.Store.Record | internal/db/audit_logs.go:24-39 | one more audit entry |
| Repositories.Store.ListAudit | internal/db/audit_logs.go:48-84 | exactly the tenant's entries about the document, its runs and its review tasks, oldest first; for the document's own tenant they are its history |
| Repositories.Store.InsertBatch | internal/db/extracted_fields.go:26-56 | all rows of the batch or none; an empty batch never fails |
| Repositories.Store.ListFields | internal/db/extracted_fields.go:63-90 | the current fields: the view by overwriting |
| Repositories.Store.CreateTask | internal/db/review_tasks.go:39-49 | one more open review task |
| Repositories.Store.GetPendingByDocument | internal/db/review_tasks.go:54-71 | the newest open review task of the document |
| Repositories.Store.Resolve | internal/db/review_tasks.go:75-86 | the decision on one review task, or nothing on an error |
| Repositories.Store.ListPendingByTenant | internal/db/review_tasks.go:90-115 | exactly the open review tasks of the tenant's documents, oldest first |
| FieldView.ViewIsSelection | internal/db/extracted_fields.go:63-69 | a row selected as the newest of its name is the view's entry |
| FieldView.ViewEntriesAreSelected | internal/db/extracted_fields.go:63-69 | every entry of the view is a newest row |
| FieldView.BatchOverwrites | internal/db/extracted_fields.go:26-56 | a batch overwrites exactly its names, in its document only |
| FieldView.ViewOfInserts | internal/db/extracted_fields.go:26-90 | for every sequence of batches the view is the map overwritten batch by batch, and no row is lost |
| Reviewing.ReviewHandler.Submit | internal/api/review_handler.go:41-127 | the answer for every request and every database error, and the tables after it: those of the control program and of a table-by-table description; an approval is stored and logged as an approval, a rejection as a rejection, a correction as a correction, and a refusal changes nothing |
| Reviewing.DecisionsAreStored | internal/api/review_handler.go:27-36 | the answers are exactly the documented ones, in their order; a refusal changes no table; an accepted decision leaves the newest open task Approved, Rejected or Corrected as it was decided, the document REVIEWED and one audit entry that says the same, each exactly when nothing before it failed |
| Reviewing.ReviewHandler.Close | internal/api/review_handler.go:103-120 | resolve, mark and audit, as far as no error stops them |
| Reviewing.ReviewHandler.SaveCorrections | internal/api/review_handler.go:86-101 | one row per corrected field with confidence 1, in one batch |
| Reviewing.DeskRunSubmits | internal/api/review_handler.go:59-120 | the statement-by-statement program equals the description in which each write happens exactly when everything before it succeeded |
| Reviewing.SubmitIsAtomicRun | internal/api/review_handler.go:59-120 | an uninterrupted Submit is a call-level run of the protocol |
| Reviewing.CorrectionsShadow | internal/api/review_handler.go:86-101 | an accepted correction replaces exactly the corrected names in that document's view |
| Reviewing.ReviewedOnce | internal/api/review_handler.go:71-84 | after an accepted Submit no request for the document is accepted again or changes anything |
| Reviewing.RetryWorksUnlessTorn | internal/api/review_handler.go:103-110 | a Submit that hit a database error can be repeated successfully unless, and only unless, the error was the document's update after its one open review task was resolved; then no request can finish the review |
| Validation.Validate | internal/validation/validation.go:25-68 | whatever the map order, no violations exactly for values the schema accepts, and for each field exactly the violation of the rule it breaks, spelled out: a date is ten characters, '-' fifth and eighth, digits elsewhere |
| Validation.RulesPartitionDefects | internal/validation/validation.go:28-65 | a field breaks a rule exactly when its type does not accept it, and never two |
| Confidence.CalculateConfidence | internal/agent/runner.go:314-320 | the loop computes the mean of the classification's and all fields' confidences in any order |
| Confidence.MeanIgnoresOrder | internal/agent/runner.go:314-320 | the mean is the same for every map order |
| Confidence.MeanStaysWithinScores | internal/agent/runner.go:314-320 | the mean stays within any bounds the scores share |
| Confidence.ThresholdBoundsEveryScore | internal/agent/runner.go:330-336 | with n scores of at most 1 and a mean of at least t, every score is at least n * t - (n - 1) |
| Confidence.ThresholdBoundIsTight | internal/agent/runner.go:330-336 | that bound is reached |
| Confidence.Clamp01 | internal/providers/llm/anthropic.go:194-203 | the nearest number between 0 and 1 |
| AnthropicExtractor.Extract | internal/providers/llm/anthropic.go:158-168 | exactly the schema's fields, the answered values unchanged, every confidence moved to the nearest number between 0 and 1 |
| KeyFields.KeyFieldsHash | internal/agent/runner.go:456-471 | the two loops compute the digest of the sorted serialisation of the rendered field values, and refuse exactly the extractions with a missing value |
| KeyFields.HashNeedsEveryValue | internal/agent/runner.go:458-463 | an extraction has no hash exactly when some field's value is missing |
| KeyFields.HashIgnoresConfidences | internal/agent/runner.go:466-469 | field maps with the same names and values have the same hash, whatever their confidences |
| KeyFields.HashTellsValuesApart | internal/agent/runner.go:466-470 | with an injective digest, complete maps whose names have no '=' and whose values print without a newline have the same hash exactly when they have the same names and each value prints alike |
| KeyFields.LastLine | internal/agent/runner.go:464-469 | the hashed text is that of all names but the last in order, then the last name, '=', its value and a newline; nothing for no fields |
| KeyFields.PreimageIgnoresOrder | internal/agent/runner.go:457-469 | the hashed text is the same for every map order |
| KeyFields.RoundTrip | internal/agent/runner.go:466-469 | decoding recovers the rendered fields if and only if no name contains '=' and no value a newline |
| KeyFields.PreimageIsInjective | internal/agent/runner.go:466-469 | clean field maps have the same hashed text exactly when they are equal |
| KeyFields.UncleanFieldsCollide | internal/agent/runner.go:466-469 | a newline in a value, or '=' in a name, makes different fields collide |
| Sorting.SortIgnoresOrder | internal/agent/runner.go:464 | sorting distinct names gives one list, whatever order they came in |
| Sorting.LeqIsLexicographic | internal/db/migrate.go:57 | the order of names: one is a prefix of the other, or it has the smaller character where they first differ |
| StubExtractor.ParseLabelledLines | internal/providers/llm/stub.go:66-81 | each normalised label is mapped to the value of its last usable line, and no value contains a newline |
| StubExtractor.LabelledIff | internal/providers/llm/stub.go:66-81 | a line gives a label and a value exactly when it has a colon and neither side of the first one is blank; the label is the trimmed left side in lower case, the value the trimmed right side |
| StubExtractor.LabelMapIsUnique | internal/providers/llm/stub.go:66-81 | there is only one such map |
| StubExtractor.Extract | internal/providers/llm/stub.go:35-62 | exactly the schema's keys; with the field's name in lower case and blanks for underscores, a field is missing, with confidence 0, exactly when no label occurs in it, and otherwise the converted value of a label that does |
| StubExtractor.MatchesIff | internal/providers/llm/stub.go:40-47 | a label matches a field exactly when it stands at some position of the field's name, lower-cased character by character with each underscore a blank |
| StubExtractor.ExtractOne | internal/providers/llm/stub.go:47-59 | the inner loop finds a matching label whenever there is one |
| StubExtractor.ConvertField | internal/providers/llm/stub.go:83-103 | the value and confidence for each schema type: 0.9, or 0.5 for a number that does not parse; list items are the non-blank pieces, trimmed, in order |
| StubExtractor.MissingIffUnmatched | internal/providers/llm/stub.go:52-55 | a field is missing, and has confidence 0, exactly when no label is part of its key |
| StubExtractor.OrderMattersIffAmbiguous | internal/providers/llm/stub.go:45-50 | the extraction is independent of map order if and only if no field has two matching labels with different converted values |
| StubExtractor.StubFieldsRoundTrip | internal/agent/runner.go:466-469 | a stub extraction can be read back from the hashed text if and only if no field name contains '=' |
| Strings.SplitIsUnique | internal/providers/llm/stub.go:68 | splitting is the inverse of joining |
| Strings.TrimSpaceTrims | internal/providers/llm/stub.go:73-74 | trimming removes blanks at both ends and nothing else |
| Strings.SpacesAreThese | internal/providers/llm/stub.go:73-74 | the blanks are exactly the 25 characters Unicode calls white space |
| Migration.MigrationsAreSafe | internal/db/migrate.go:26-97 | for any number of callers, each failing, crashing or losing a commit's acknowledgement anywhere: committed scripts are a prefix of what was to do without repeats, each script before the next in the order of names character by character, recorded versions are exactly theirs, a caller that returned nil left nothing undone, at most one holds the lock |
| Migration.RepeatAppliesNothing | internal/db/migrate.go:57-68 | once the list is applied, no further calls apply or record anything |
| Migration.CommitsInOrder | internal/db/migrate.go:51-94 | what a call adds are entries that end in ".up.sql" and are not recorded, each before the next character by character, none passed over that comes before an added one, and the versions added are their names without the ending |
| Migration.LockHolderFinishes | internal/db/migrate.go:33-36 | the lock is never left behind: whoever holds it or finds it free finishes the list if its own statements succeed |
| Migration.SafeAfter | internal/db/migrate.go:33-93 | every statement, error, crash and lost acknowledgement keeps the invariant |
| Migration.RecordedIffPassed | internal/db/migrate.go:58-68 | a file is found recorded exactly when it was recorded before or has been committed since |
| Migration.Schema.Migrate | internal/db/migrate.go:45-97 | lists, filters, sorts and applies: some prefix of what was to do, all of it when it returns nil, and then nothing is left to do; which prefix is determined by the errors met; what is added ends in ".up.sql", ascends in the order of names character by character, and each recorded version is a script's name without that ending |
| Migration.Schema.Walk | internal/db/migrate.go:57-94 | the check-apply-record loop, with errors at every statement, leaves what its file-by-file description says |
| Migration.MigrateIsARun | internal/db/migrate.go:26-97 | a call that finds the lock free and is not interrupted is a run of the concurrent callers' machine, statement by statement, whatever errors it meets, and ends with the same scripts, versions and answer as `Migrate` and the lock released |
| Migration.Schema.List | internal/db/migrate.go:46-57 | the entries that end in ".up.sql", ascending in the order of names |
| Migration.SortedUpFiles | internal/db/migrate.go:51-57 | every entry that ends in ".up.sql" once, in the order of names character by character, and nothing else |

## Left out

- HTTP routing, authentication, JSON and multipart decoding (including decision strings other than the three), the web UI: no state of their own.
- OCR and the language-model calls themselves: arbitrary answers, errors and timeouts.
- `StubProvider.Classify` and `containsAny`: a fixed keyword table; any classification is allowed.
- SQL text, connection pooling and the database's isolation machinery: replaced by the table operations and the assumptions above.
- Digests, identifiers, tokens, configuration parsing, file storage, log lines: no property beyond those of the functions that stand for them.
- Columns no statement of the engine reads back: timestamps, trace ids, reviewer notes, tool inputs and the metadata of audit entries other than the run.
- Wall-clock time: a deadline is one of a provider call's three outcomes.
- Crashes of a worker in the middle of a run: nothing in the code recovers from them; the safety results cover them, because a worker may stop being scheduled, the progress results do not.
- A migration caller whose files differ from the others' (two releases starting at once): all callers carry the same list.
- Bytes that are not valid UTF-8: strings are sequences of characters.
- StubExtractor.ConvertField: infinities and NaN, which the number parser also accepts, have no counterpart among the reals.
- Confidence.CalculateConfidence: does not model floating-point rounding of the sum and the quotient.
- Repositories.Store.ClaimNextUploaded: does not model rows skipped because another transaction has them locked, nor a claim's snapshot being older than another claim's commit, because the claim is one atomic step.
