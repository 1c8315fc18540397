# Agent-ROI, modelled in Dafny

Agent-ROI governs the tool calls of agents. This project models the state machines and algorithms
behind that: the SQL script splitter and the migrations built on it, the hash-chained audit logs,
the approval protocol, the leased outbox and its worker, the circuit breaker, the idempotency store,
the budgeted tool context with its retry loop, the value ledger, procurement allocation, policy
activation and canary rollout, and the canonical JSON text under every digest.

A database table is a map from key to row or a sequence of rows, and a locked or transactional
method is one atomic step. Where the source reads and later writes, the two halves are separate
steps and any other step may come between them. Protocols are functions from state and step to
state, and safety is stated for every sequence of steps. Objects that the source updates in place
are classes whose methods are proved against the same functions. Time, generated ids, what
handlers, approvers and authorizers do, the hash, case folding and the signing key are inputs of the
model. The hash is assumed to be without collisions where a lemma says so; such hashes exist in the
model (`AuditLog.CollisionFreeHasherExists`). The JSON printer is defined and proved injective.

| file | models |
|---|---|
| `Outcomes.dfy`, `Numbers.dfy`, `Text.dfy` | options and results; `min` and `max`; `str.strip` |
| `DollarTags.dfy`, `SqlSplitter.dfy`, `SqlSpans.dfy` | script splitter, and what it recognizes said without a lexer |
| `Migrations.dfy` | migration manager |
| `AuditLog.dfy` | in-memory, JSONL and SQL audit stores |
| `Approvals.dfy` | approval broker, repository, grant validation |
| `Outbox.dfy`, `OutboxWorker.dfy` | leases, dead letters, the worker's loop |
| `OutboxProcesses.dfy` | workers in several processes on one outbox file |
| `RetryLoop.dfy`, `CircuitBreakers.dfy`, `Idempotency.dfy` | resilience of tool calls |
| `ToolContext.dfy` | gates, counters, execution and audit trail of a run |
| `GovernedApprovals.dfy` | a context whose approval callback is the broker |
| `RoiLedger.dfy` | opportunity life cycle and value entries |
| `Procurement.dfy` | duplicate detection and recoverable-value allocation |
| `PolicyRollout.dfy`, `PolicyBundles.dfy` | control plane store, signed bundles |
| `JsonText.dfy`, `JsonMeaning.dfy`, `Canonical.dfy` | printed JSON, what a JSON text says, canonical JSON |

Eight claims one might expect are false of the code. Each has a lemma with a failing run or input and
a lemma with the exact condition under which it holds:

- one probe at a time while the breaker is half-open: `LateReportBreaksSingleProbe`, `SingleProbeIff`;
- a report settles the record its caller started: `LateReportIsReplayed` (the record expired),
  `WaitingStartTakesOver` (and the new row looks the same), `ReportIsOwnIff`;
- every `tool_started` has a completed or failed event: `InterruptLeavesNoEnding`,
  `EveryStartEndsOnce` (it has none exactly when the last attempt raises outside `Exception`);
- a finished outbox event stays as it is, with workers in several processes: `DeliveredCanDie`,
  `FinishedRowKeptIff`; runs that lose no lease between a dead letter's read and its write are runs
  of one store (`HeldRunsAreRuns`);
- a realized value is entered on an opportunity that is still earning: `ValueLandsOnClosed`, `LateValueIff`;
- a rollout's primary is the active version: `InterleavingBreaksAgreement`, `InStepIff`;
- a resolved version is the one in force at its second read: `SplitResolveGoesBack`, `SplitResolveIff`;
- a mapping's canonical form ignores insertion order: `SharedTextDependsOnOrder`, `AnyOrderIff`.

The splitter recognizes PostgreSQL dollar bodies, but its lexer is its own: block comments do not
nest and a backslash escapes inside `'…'`. The model follows the code.

## Model

| member | source | states |
|---|---|---|
| `Text.StripInsideSpace` | src/agent_roi/db/core.py:178-178 | stripping finds a stripped text again between any whitespace, so the newline around a printed statement is harmless |
| `DollarTags.TagLengthFindsTag` | src/agent_roi/db/core.py:170-176 | the dollar-tag look-ahead reports a length exactly when a tag stands there |
| `DollarTags.TagsArePrefixFree` | src/agent_roi/db/core.py:170-176 | at most one tag can start at a place, so the closing tag is unambiguous |
| `SqlSplitter.LexResumes` | src/agent_roi/db/core.py:107-185 | scanning a text and going on at whitespace or a semicolon is scanning the whole, unless inside a quotation: no look-ahead crosses |
| `SqlSplitter.PiecesJoin` | src/agent_roi/db/core.py:107-191 | the script is the concatenation of its pieces and the semicolons met in normal mode |
| `SqlSplitter.PiecesAreWhole` | src/agent_roi/db/core.py:107-191 | no piece is cut when scanned alone, and all but the last end in normal mode |
| `SqlSplitter.SplitLosesNothing` | src/agent_roi/db/core.py:99-191 | pieces and semicolons rebuild the script; splitting fails exactly when the scan ends in a quote, dollar body or block comment |
| `SqlSplitter.PiecesAreUnique` | src/agent_roi/db/core.py:107-191 | the pieces are the only way to take the script apart at semicolons into uncut, closed texts |
| `SqlSplitter.SplitYieldsStatements` | src/agent_roi/db/core.py:177-191 | every output is stripped, non-empty, uncut and closed |
| `SqlSplitter.StatementSplitsToItself` | src/agent_roi/db/core.py:99-191 | a statement splits into itself |
| `SqlSplitter.PrintedStatementsSplitBack` | src/agent_roi/db/core.py:99-191 | any statements joined by newline-semicolon-newline split back into exactly themselves, also after a line comment whose newline was stripped |
| `SqlSplitter.SplitRoundTrip` | src/agent_roi/db/core.py:99-191 | split, print and split again gives the same list, for every script that splits |
| `SqlSplitter.ReadToken` | src/agent_roi/db/core.py:114-185 | one turn of the loop body moves the flags and the index as the recursive lexer does |
| `SqlSplitter.SplitSqlStatements` | src/agent_roi/db/core.py:99-191 | the scanning loop with its flags, buffer and list computes the recursive specification, errors included |
| `SqlSpans.SpanIsWhole` | src/agent_roi/db/core.py:117-176 | a line comment up to its newline, a block comment up to the first `*/`, a literal with doubled marks and backslash escapes, a dollar body up to its tag: each is read as a whole, whatever semicolons it holds |
| `SqlSpans.LexReads` | src/agent_roi/db/core.py:107-191 | however a script is read as such spans, semicolons and other characters, the scan cuts at the semicolons that stand alone and nowhere else |
| `SqlSpans.SplitReads` | src/agent_roi/db/core.py:99-191 | splitting gives the stripped, non-empty texts between those semicolons, and fails exactly when the script ends in an open literal, dollar body or block comment |
| `SqlSpans.EveryScriptIsRead` | src/agent_roi/db/core.py:99-191 | every script can be read so |
| `Migrations.ApplyAllRunsMissing` | src/agent_roi/db/core.py:266-289 | a successful loop ran exactly the statements of the versions missing from the table, in order, and recorded exactly those |
| `Migrations.MigrateRunsMissing` | src/agent_roi/db/core.py:248-296 | the same for a whole run up to its target version |
| `Migrations.SelectedIff` | src/agent_roi/db/core.py:248-266 | exactly the migrations up to the target version are selected |
| `Migrations.AcceptsIff` | src/agent_roi/db/core.py:275-289 | a script goes through exactly if the server accepts each statement after those before it |
| `Migrations.ApplyFailsIff` | src/agent_roi/db/core.py:266-289 | a migration fails exactly for another name under its version, a script that does not split, or a statement or row that the database refuses, and the error says which |
| `Migrations.RunFailsAtFault` | src/agent_roi/db/core.py:248-296 | a run fails exactly at the first migration with such a fault after those before it were applied |
| `Migrations.RepeatRunDoesNothing` | src/agent_roi/db/core.py:248-296 | a repeat run executes nothing and changes nothing |
| `Migrations.StagedEqualsDirect` | src/agent_roi/db/core.py:248-296 | migrating to t1 and then to t2 is migrating straight to t2: statements, order, table and failures |
| `Migrations.MigrationManager.RunMigrations` | src/agent_roi/db/core.py:248-296 | the loop computes the specification; a failing run leaves table and statements as they were |
| `AuditLog.TailsAgree` | src/agent_roi/audit/store.py:182-188 | on every log that verifies, cache, scan and newest row give the same tail for every correlation id |
| `AuditLog.ChainsAreIndependent` | src/agent_roi/audit/postgres.py:193-246 | the interleaved log verifies exactly when the subsequence of every correlation id verifies |
| `AuditLog.TamperEvidence` | src/agent_roi/audit/store.py:91-115 | two logs that verify have the same tail for an id exactly when they have the same events for it |
| `AuditLog.CollisionFreeHasherExists` | src/agent_roi/audit/event.py:40-50 | the body texts tell all bodies apart, so the assumption of the lemmas about tampering can be met |
| `AuditLog.NoFork` | src/agent_roi/audit/store.py:91-115 | in a log that verifies no two events of a chain share a predecessor or a hash |
| `AuditLog.RunKeepsInvariant` | src/agent_roi/runtime/executor.py:156-168 | every interleaving of atomic and read-create-append writers keeps the log verifying |
| `AuditLog.RacingWritersNeverFork` | src/agent_roi/runtime/executor.py:156-168 | of all events built on one tail at most one is ever in the log |
| `AuditLog.AppendSucceedsIffChainUnchanged` | src/agent_roi/audit/store.py:76-85 | a split writer's append succeeds exactly when nobody extended its chain since it read the tail |
| `AuditLog.WritesArrive` | src/agent_roi/audit/store.py:53-85 | after any run each write adds exactly the event that carries its draft, field by field, on its chain; a split one only if its chain is as it was read |
| `AuditLog.InMemoryAuditStore.RecordDraft` | src/agent_roi/audit/store.py:53-74 | the event carries the draft, names the chain's tail and is appended; the cache stays the tails of the log |
| `AuditLog.InMemoryAuditStore.Append` | src/agent_roi/audit/store.py:76-85 | an event is appended if and only if it names the current tail; otherwise the log is unchanged |
| `AuditLog.InMemoryAuditStore.LastHash` | src/agent_roi/audit/store.py:87-89 | the cached hash is the last hash in the log |
| `AuditLog.InMemoryAuditStore.Verify` | src/agent_roi/audit/store.py:91-115 | returns the number of events exactly for logs that verify |
| `AuditLog.VerifyOne` | src/agent_roi/audit/store.py:94-114 | one turn of the loop accepts exactly an event that links to its chain, and keeps the tails of what was read |
| `AuditLog.VerifyEvents` | src/agent_roi/audit/store.py:538-566 | the one-pass loop with a tail per id decides verification and names the first bad event and what is wrong with it |
| `AuditLog.LastHashFromEvents` | src/agent_roi/audit/store.py:182-188 | the scan loop returns the last hash of the chain |
| `Approvals.ApprovalProvenance` | src/agent_roi/runtime/context.py:331-393 | in every run an authorization has behind it an approving decision on a pending, unexpired record with the same action digest, by someone who is permitted to decide and is not its requester, and is no later than that record's expiry |
| `Approvals.SubmittedAtMostOnce` | src/agent_roi/approvals/base.py:265-288 | each checkpoint is submitted at most once, through restarts too |
| `Approvals.DecidedIsFinal` | src/agent_roi/approvals/base.py:290-317 | a decided record never changes again |
| `Approvals.RequestersNeverDecide` | src/agent_roi/approvals/base.py:290-337 | over every run each decision is on a request submitted before, in the broker's requester's name, and by somebody else |
| `Approvals.DecisionIff` | src/agent_roi/approvals/base.py:290-365 | a decision goes through exactly for a waiting, unexpired record, a permitted, named approver who is not the requester, and, to approve, a digest in hexadecimal; the record is then approved exactly if the decision says so |
| `Approvals.RefusalNamesRule` | src/agent_roi/approvals/base.py:300-337 | a refused decision names the first rule it broke |
| `Approvals.CallAnswers` | src/agent_roi/approvals/base.py:225-288 | a call is granted exactly by its checkpoint's own valid grant or by a live one of its action, cut to the checkpoint's life; otherwise it is submitted if it is unknown |
| `Approvals.GrantIsHonoured` | src/agent_roi/approvals/base.py:232-263 | while a grant and the checkpoint live, a new attempt at the same action is authorized without a new submission |
| `Approvals.ApprovalLeavesGrant` | src/agent_roi/approvals/base.py:350-365 | an approval leaves a grant by the approver for its action, for the seconds asked or 900, clipped to the record's expiry, which outlives a restart; a denial leaves none |
| `Approvals.CallOnRecords` | src/agent_roi/approvals/base.py:225-288 | a call touches only the record of its own checkpoint, and only by submitting it when unknown, as its own request in the requester's name |
| `Approvals.DecideOnRecords` | src/agent_roi/approvals/base.py:290-365 | a decision touches only its record and only while it is pending, and keeps the request |
| `Approvals.ApprovalBroker.RequestApproval` | src/agent_roi/approvals/base.py:225-288 | the broker's dictionaries and repository change as specified, and the answer is the specified one |
| `Approvals.ApprovalBroker.DecideRequest` | src/agent_roi/approvals/base.py:290-365 | likewise for decisions, in the order of its refusals |
| `GovernedApprovals.ContextIsARun` | src/agent_roi/runtime/context.py:331-393 | a context with a broker does nothing that a context with some callback could not do |
| `GovernedApprovals.StartHasOwnAuthorization` | src/agent_roi/runtime/context.py:331-393 | every start of a protected tool falls in a step in which the broker authorizes that step's own checkpoint, for that very tool, arguments and cost |
| `GovernedApprovals.AuthorizationsAreNotReused` | src/agent_roi/runtime/context.py:331-393 | later starts have later steps and later authorizations: no authorization backs two starts |
| `GovernedApprovals.HandlersRunApproved` | src/agent_roi/runtime/context.py:331-393 | end to end: a protected handler runs only under a start with its own authorization, before whose call somebody permitted to decide, other than the requester, had approved the action, on a pending record unexpired then and at this call's own authorization |
| `Outbox.RunKeepsInvariant` | src/agent_roi/enterprise/outbox.py:172-288 | in every reachable state attempts count grants, there is one row per destination and key, and the dead-letter table holds exactly the dead events with their attempts and payload |
| `Outbox.ReportIsHolders` | src/agent_roi/enterprise/outbox.py:239-288 | among workers of one store object an accepted report comes from the worker of the latest grant |
| `Outbox.GrantsAreSeparated` | src/agent_roi/enterprise/outbox.py:203-260 | successive grants of an event are separated by the holder's reschedule and its delay, or by the first lease's expiry |
| `Outbox.LeaseSafety` | src/agent_roi/enterprise/outbox.py:203-288 | all of this for every interleaving of any number of workers of one store object, a lease lasting the seconds asked for and at least one from the claim's clock reading; `HeldRunsAreRuns` says when it holds across processes |
| `Outbox.FinishedIsFinal` | src/agent_roi/enterprise/outbox.py:239-288 | within one store object delivered and dead-letter are absorbing; `FinishedRowKeptIff` says when they are across processes |
| `OutboxProcesses.HeldRunsAreRuns` | src/agent_roi/enterprise/outbox.py:262-288 | with a dead letter split into its read and its unguarded write, processes that write each dead letter under the lease it was read under do what one store does, so the invariant and lease safety carry over |
| `OutboxProcesses.LockedRunsAreHeld` | src/agent_roi/enterprise/outbox.py:262-288 | the lock of one store object makes every write such a write |
| `OutboxProcesses.FinishedRowKeptIff` | src/agent_roi/enterprise/outbox.py:262-288 | a move changes a finished event exactly when it writes a dead letter that was read before, for an event delivered since or dead with another error |
| `OutboxProcesses.DeliveredCanDie` | src/agent_roi/enterprise/outbox.py:262-288 | a reachable run in which a delivered event becomes a dead letter |
| `OutboxWorker.HandleAllSettles` | src/agent_roi/enterprise/outbox.py:485-508 | every claimed event is settled and counted once |
| `OutboxWorker.HandleAllFates` | src/agent_roi/enterprise/outbox.py:485-508 | each claimed event is delivered, dead once its attempts are used up, or put off, as its own delivery went; nothing else is touched, and the counts tell |
| `OutboxWorker.RunOnceDrains` | src/agent_roi/enterprise/outbox.py:476-508 | claimed equals delivered plus retried plus dead-lettered, attempts stay within the limit, and the attempts left drop by the number claimed |
| `OutboxWorker.RunOnceIsARun` | src/agent_roi/enterprise/outbox.py:476-508 | after any run of any workers, a round is its claim and reports as steps of the store and all of them succeed; so the store's invariant and lease safety hold of the worker's loop, and its tables keep the dead letters and the dead events equal |
| `OutboxWorker.DrainIsBounded` | src/agent_roi/enterprise/outbox.py:476-508 | all rounds of a lone worker together claim at most the attempts that were left, plus `max_attempts` for each event enqueued between rounds |
| `OutboxWorker.OutboxStore.EnqueueEvent` | src/agent_roi/enterprise/outbox.py:172-201 | a known destination and key returns the stored event; otherwise the event is added |
| `OutboxWorker.OutboxStore.SelectDue` | src/agent_roi/enterprise/outbox.py:203-237 | the selection is of due events, oldest first, and leaves none out while there is room |
| `OutboxWorker.SelectionServesWaiting` | src/agent_roi/enterprise/outbox.py:213-229 | a claim selects events that wait or whose lease is over, at most 100 and at most as many as asked, and leaves one out only for as many older ones |
| `OutboxWorker.OutboxStore.ClaimDue` | src/agent_roi/enterprise/outbox.py:203-237 | exactly the selected events are leased to the worker for the seconds asked, at least one, with one more attempt |
| `OutboxWorker.OutboxStore.MarkEventDelivered` | src/agent_roi/enterprise/outbox.py:239-248 | only the holder's report succeeds; a refused one changes nothing |
| `OutboxWorker.OutboxStore.RescheduleEvent` | src/agent_roi/enterprise/outbox.py:250-260 | only the holder's retry succeeds: the event waits for the delay if it is positive, with the first 4000 characters of the error |
| `OutboxWorker.OutboxStore.BuryEvent` | src/agent_roi/enterprise/outbox.py:262-288 | under the object's lock only the holder's dead letter succeeds, and its letter tells the event, its attempts, the error and the time |
| `OutboxWorker.Worker.RunWorker` | src/agent_roi/enterprise/outbox.py:476-508 | claim and loop compute the specified round, counts and tables |
| `CircuitBreakers.BreakerSafety` | src/agent_roi/runtime/resilience.py:135-172 | in every interleaving closed means failures below the threshold, nothing is admitted before the latest opening plus the recovery time, and two half-open admissions have a report between them |
| `CircuitBreakers.ClosingNeedsSuccesses` | src/agent_roi/runtime/resilience.py:153-163 | each closing ends a stretch of `success_threshold` half-open successes with no failure in it |
| `CircuitBreakers.ReportsDecideState` | src/agent_roi/runtime/resilience.py:153-172 | in every run each report changes the state as the reports before it say: a failure opens when half-open or when it is the last one tolerated since a success, a success closes when it is the last one asked for |
| `CircuitBreakers.AdmissionIff` | src/agent_roi/runtime/resilience.py:135-151 | in every run a call is let in exactly when the reports so far leave the breaker closed, or half-open or past its recovery time with no probe out |
| `CircuitBreakers.SingleProbeIff` | src/agent_roi/runtime/resilience.py:143-172 | at most one probe is in flight in a half-open period exactly when no earlier call is in flight as it starts, or one success closes |
| `CircuitBreakers.LateReportBreaksSingleProbe` | src/agent_roi/runtime/resilience.py:153-163 | a reachable period with two probes in flight |
| `CircuitBreakers.CircuitBreaker.ReadState` | src/agent_roi/runtime/resilience.py:135-141 | an open breaker moves on exactly when its recovery time has passed |
| `CircuitBreakers.CircuitBreaker.BeforeCall` | src/agent_roi/runtime/resilience.py:143-151 | admission and its effect on the fields |
| `CircuitBreakers.CircuitBreaker.NoteSuccess` | src/agent_roi/runtime/resilience.py:153-163 | the fields after a success |
| `CircuitBreakers.CircuitBreaker.NoteFailure` | src/agent_roi/runtime/resilience.py:165-172 | the fields after a failure |
| `Idempotency.RunKeepsInvariant` | src/agent_roi/runtime/resilience.py:258-301 | in every run, timely or not, rows belong to the latest admission of their key and no caller runs the handler more than `max_attempts` times |
| `Idempotency.OneStarterPerWindow` | src/agent_roi/runtime/resilience.py:258-281 | a key is started again only after the seconds asked for the earlier record, at least one, by the time of the transaction; the clock that begin reads before its lock may be older |
| `Idempotency.CompletionIsReplayed` | src/agent_roi/runtime/resilience.py:258-291 | once the starter reported, each call that comes before expiry, whenever it read its clock, gets the JSON image of its result, and another digest a conflict |
| `Idempotency.FailureIsRepeated` | src/agent_roi/runtime/resilience.py:258-301 | once the starter reported a failure, each call before expiry is told that very error, and another digest a conflict |
| `Idempotency.AnswerTellsHistory` | src/agent_roi/runtime/resilience.py:258-281 | in every run the answer of a begin follows from what happened to its key: nobody started it or its record is over, another request has it, it is in progress, or its reported outcome |
| `Idempotency.TimelyRunKeepsOwners` | src/agent_roi/runtime/context.py:484-533 | if every starter reports in time, only the record's own starter runs, finishes and is replayed |
| `Idempotency.IdempotentExecution` | src/agent_roi/runtime/context.py:484-533 | then, within one window, the handler runs at most `max_attempts` times and every replay is the starter's own result for the same digest |
| `Idempotency.ReportIsOwnIff` | src/agent_roi/runtime/resilience.py:258-301 | an accepted report is its caller's own exactly when the row still has the expiry that the caller was started with and no call that had read its clock before that expiry took the key over; a report by the expiry always is |
| `Idempotency.LateReportIsReplayed` | src/agent_roi/runtime/resilience.py:283-301 | a late report lands in another starter's record and is replayed |
| `Idempotency.WaitingStartTakesOver` | src/agent_roi/runtime/resilience.py:258-281 | a begin that waits for its lock while another call purges the expired record starts the key anew with a row equal to the one before, although it read its clock before that expiry |
| `RetryLoop.LoopStopsOnce` | src/agent_roi/runtime/resilience.py:79-87 | the loop stops in exactly one place: after its limit or after the first attempt that is not retried |
| `RetryLoop.RunsWithinLimit` | src/agent_roi/runtime/resilience.py:79-87 | it makes at least one attempt and runs the handler at most `max_attempts` times |
| `RetryLoop.RunsAreUnblocked` | src/agent_roi/runtime/resilience.py:174-182 | the attempts that run the handler are those that the breaker lets through |
| `RetryLoop.RetryCall` | src/agent_roi/runtime/resilience.py:79-87 | attempts stop at the first return, the first exception that is not retried, or the limit; attempts that the breaker blocks run nothing |
| `Idempotency.ExecutionIsARun` | src/agent_roi/runtime/context.py:484-533 | after any run, the executor with its retry loop is a run of the ask, invoke and report steps: same table, and the handler runs that the loop makes |
| `Idempotency.ExecutedRow` | src/agent_roi/runtime/context.py:484-533 | the row an execution leaves: completed with the JSON image, failed with the error, or pending after an exception outside `Exception` |
| `Idempotency.IdempotencyStore.BeginCall` | src/agent_roi/runtime/resilience.py:258-281 | answer and table of a begin under the lock, for the clock read before it; a refusal keeps even the expired rows |
| `Idempotency.IdempotencyStore.Settle` | src/agent_roi/runtime/resilience.py:283-301 | a report is accepted exactly for a pending row and changes only its status |
| `Idempotency.IdempotencyStore.Execute` | src/agent_roi/runtime/context.py:484-533 | the handler runs only for a starter, at most `max_attempts` times; a replay gives the stored response, an earlier failure its error, a refusal its reason, and a start a value exactly if its last attempt returned a plain one |
| `Idempotency.IdempotencyStore.RunAndReport` | src/agent_roi/runtime/context.py:501-533 | the retry loop, with what the breaker blocks, followed by one report of its last attempt |
| `Idempotency.IdempotencyStore.ReportOutcome` | src/agent_roi/runtime/context.py:515-533 | a return is completed; an ordinary exception, a blocked attempt or an awaitable is failed; any other exception is not reported |
| `ToolContext.BudgetSafety` | src/agent_roi/runtime/context.py:152-171 | from zero counters no sequence of operations exceeds steps, calls or cost |
| `ToolContext.AdmittedIff` | src/agent_roi/runtime/context.py:395-482 | a call reaches its handler exactly when allowlist, registration, authorization, form, cost, approval and limits all permit it |
| `ToolContext.RefusalIsTrue` | src/agent_roi/runtime/context.py:395-482 | a refusal names a rule that the call breaks, and leaves exactly the events of the gates it came to |
| `ToolContext.MinimumIff` | src/agent_roi/runtime/context.py:218-239 | the least a registered tool costs is the greater of its default and a valid estimate |
| `ToolContext.AdmittedCallIsCharged` | src/agent_roi/runtime/context.py:472-482 | an admitted call counts once and costs the amount asked, or the registered minimum without one |
| `ToolContext.RefusedCallDoesNothing` | src/agent_roi/runtime/context.py:395-482 | a refused call leaves every counter alone and runs nothing |
| `ToolContext.CountersMatchTrail` | src/agent_roi/runtime/context.py:472-482 | calls and cost are the number and the sum of the `tool_started` events, plus direct charges |
| `ToolContext.TrailIsGoverned` | src/agent_roi/runtime/context.py:294-482 | the trail of every run obeys the grammar clearance, request, approval, authorization, start, runs, ending |
| `ToolContext.InterruptedIff` | src/agent_roi/runtime/context.py:484-533 | the execution is left without a report exactly when the handler is reached and the attempt at which the retry loop stops raises outside `Exception` |
| `ToolContext.EndingIff` | src/agent_roi/runtime/context.py:484-533 | a call completes exactly when the store had its result, or the loop stops at a plain return that the store takes; it fails exactly when the store knows of a failure or declines, the loop stops at an ordinary exception or a blocked attempt, or the result is no good |
| `ToolContext.CallHasItsEnding` | src/agent_roi/runtime/context.py:595-619 | in every run each admitted call ends in `tool_completed` exactly if it completes and in `tool_failed` exactly if it fails |
| `ToolContext.EndingIsOfItsCall` | src/agent_roi/runtime/context.py:595-619 | and every such event is the last effect of exactly such a call |
| `ToolContext.CallRunsItsHandler` | src/agent_roi/runtime/context.py:484-512 | a call runs its handler once for each attempt up to where the loop stops that the breaker lets through, and not at all if the store answers |
| `ToolContext.EveryStartEndsOnce` | src/agent_roi/runtime/context.py:585-619 | every start has one ending, and all are completed or failed events exactly when no admitted call's retry loop stopped at such an attempt |
| `ToolContext.InterruptLeavesNoEnding` | src/agent_roi/runtime/context.py:585-619 | one interrupted call: a start, and neither a completed nor a failed event |
| `ToolContext.HandlersRunGoverned` | src/agent_roi/runtime/context.py:218-239 | each handler run is of the registered handler, under a start whose cost covers the registered minimum, and within the retry limit of that start |
| `ToolContext.CostIsAsked` | src/agent_roi/runtime/context.py:218-239 | the caller's amount is charged, or the registered minimum without one; an amount below the minimum, or a bad one, is refused |
| `ToolContext.ProtectedStartIsApproved` | src/agent_roi/runtime/context.py:331-393 | a tool that needs approval starts only right after its request, approval and authorization, and its clearance when there is an authorizer |
| `ToolContext.SentinelContext.ValidateLimits` | src/agent_roi/control/guardrails.py:85-98 | the limit checks in their order |
| `ToolContext.SentinelContext.CountStep` | src/agent_roi/runtime/context.py:152-158 | the step counter moves unless a limit is broken |
| `ToolContext.SentinelContext.CountToolCall` | src/agent_roi/runtime/context.py:160-164 | likewise for the call counter |
| `ToolContext.SentinelContext.Charge` | src/agent_roi/runtime/context.py:166-171 | likewise for the cost, after the amount was checked |
| `ToolContext.SentinelContext.ClearCall` | src/agent_roi/runtime/context.py:411-434 | the gates up to the cost, with the events they emit |
| `ToolContext.SentinelContext.Reserve` | src/agent_roi/runtime/context.py:467-482 | approval and limits, then counters and the two start events |
| `ToolContext.SentinelContext.PrepareCall` | src/agent_roi/runtime/context.py:395-482 | all gates in order; counters change only for an admitted call |
| `ToolContext.SentinelContext.RunAttempts` | src/agent_roi/runtime/context.py:501-512 | the retry loop runs the handler as often as its attempts and its limit say |
| `ToolContext.SentinelContext.ExecuteSync` | src/agent_roi/runtime/context.py:484-533 | replays, declined starts, the loop, the awaitable check and the report, each with the way it is left |
| `ToolContext.SentinelContext.CallTool` | src/agent_roi/runtime/context.py:585-619 | a call changes counters and trail as specified, is refused for the specified reason, and ends as its attempts and the store say |
| `RoiLedger.LifecycleSafety` | src/agent_roi/roi/ledger.py:394-429 | in every interleaving of reads and writes the history is a path from proposed to the status, the revision is one more than its length, and it has at most five changes |
| `RoiLedger.AllowedIff` | src/agent_roi/roi/ledger.py:79-90 | the ten transitions |
| `RoiLedger.StatusIsEarned` | src/agent_roi/roi/ledger.py:394-429 | in every interleaving validated follows realizing, realizing follows in_progress, in_progress follows approval, and closing follows progress or rejection |
| `RoiLedger.SourceKeysAreUnique` | src/agent_roi/roi/ledger.py:252-335 | no two opportunities of an organization share a source key |
| `RoiLedger.CreationIff` | src/agent_roi/roi/ledger.py:252-335 | a new opportunity is proposed at revision 1 unless its id or its source key is taken |
| `RoiLedger.ValueNeedsProgress` | src/agent_roi/roi/ledger.py:431-475 | realized or validated value belongs to opportunities that reached in_progress and were never rejected |
| `RoiLedger.EvidenceCountsOnce` | src/agent_roi/roi/ledger.py:453-475 | no evidence key of an organization is counted twice |
| `RoiLedger.WriteMeetsWhatWasRead` | src/agent_roi/roi/ledger.py:404-414 | although only statuses are compared, a write that goes through found the revision that was read |
| `RoiLedger.SameReadOneWrite` | src/agent_roi/roi/ledger.py:404-414 | of two calls that read the same revision, at most one goes through |
| `RoiLedger.LateValueIff` | src/agent_roi/roi/ledger.py:443-475 | a realized value lands on a still earning opportunity exactly when it was not closed since the check |
| `RoiLedger.ValueLandsOnClosed` | src/agent_roi/roi/ledger.py:443-475 | a run in which a realized value is entered on an opportunity that was closed in between |
| `RoiLedger.RealizedRoiLedger.Transition` | src/agent_roi/roi/ledger.py:394-429 | success exactly for an allowed transition at the expected revision; row and history change together |
| `RoiLedger.RealizedRoiLedger.RecordValue` | src/agent_roi/roi/ledger.py:431-475 | success exactly for a permitted stage and new evidence; otherwise nothing changes |
| `Procurement.DuplicatesPerSignature` | src/agent_roi/procurement/analyzer.py:100-158 | duplicate findings of a signature above the threshold number its occurrences minus one; below it there are none |
| `Procurement.FindingsIff` | src/agent_roi/procurement/analyzer.py:100-214 | an invoice gets each kind of finding exactly under its condition, at most once, with the value at stake rounded to the nearest cent |
| `Procurement.RoundIsNearest` | src/agent_roi/procurement/analyzer.py:137-137 | rounding gives the one nearest whole number, the even one of two |
| `Procurement.ByPriorityOrders` | src/agent_roi/procurement/analyzer.py:225-230 | findings are served in priority order and none is lost or added |
| `Procurement.ByPriorityRanks` | src/agent_roi/procurement/analyzer.py:37-42 | duplicates come before price variances, those before unapproved vendors, and missing numbers last |
| `Procurement.ByPriorityIsStable` | src/agent_roi/procurement/analyzer.py:225-230 | findings of one priority keep their order |
| `Procurement.WholeAllocation` | src/agent_roi/procurement/analyzer.py:231-258 | for whole cents each finding gets its gross value as far as the earlier ones leave room, and gross is allocation plus overlap |
| `Procurement.WholeTotal` | src/agent_roi/procurement/analyzer.py:231-258 | for whole cents the allocations add up to the lesser of the amount and all gross values |
| `Procurement.AnyTotal` | src/agent_roi/procurement/analyzer.py:238-239 | for any amount the sum is the gross total capped within half a cent of the amount |
| `Procurement.EarlierFilledFirst` | src/agent_roi/procurement/analyzer.py:231-258 | for any amount nothing is given after a finding that was not served in full |
| `Procurement.GroupOf` | src/agent_roi/procurement/analyzer.py:216-220 | grouping by record recovers what was found on each invoice |
| `Procurement.WholeInvoice` | src/agent_roi/procurement/analyzer.py:222-258 | each whole-cent invoice recovers the lesser of its amount and everything found on it |
| `Procurement.ClampChangesNothing` | src/agent_roi/procurement/analyzer.py:260-277 | for whole cents the final clamp to the invoiced total changes nothing |
| `Procurement.ReportWithinHalfCents` | src/agent_roi/procurement/analyzer.py:260-277 | for any amounts the total exceeds what was invoiced by at most half a cent for each invoice |
| `Procurement.FractionsNeedTheClamp` | src/agent_roi/procurement/analyzer.py:277 | two invoices of 0.6 cents whose findings recover two cents while one was invoiced, so the clamp does change the total |
| `Procurement.Detect` | src/agent_roi/procurement/analyzer.py:100-214 | the loop with its `seen` set finds what the specification says of each invoice |
| `Procurement.Group` | src/agent_roi/procurement/analyzer.py:216-220 | the groups hold all findings of their invoice, in order of their first finding |
| `Procurement.AllocateInvoice` | src/agent_roi/procurement/analyzer.py:231-258 | the loop over `remaining` computes the allocation, and fails exactly on a negative gross value |
| `Procurement.Analyze` | src/agent_roi/procurement/analyzer.py:88-282 | the recommendations are those of each invoice in turn, its findings served by priority; their total is what the invoices recover, the estimate is the lesser of it and the invoiced total, and equal to it for whole cents; it fails exactly on a bad number or a negative gross value |
| `PolicyRollout.ReferentialIntegrity` | src/agent_roi/enterprise/control_plane.py:317-427 | however reads and writes interleave, every active, primary and candidate version names a stored bundle |
| `PolicyRollout.BundlesAreImmutable` | src/agent_roi/enterprise/control_plane.py:270-290 | a stored bundle is never changed or removed |
| `PolicyRollout.ExpectedRevisionWinsOnce` | src/agent_roi/enterprise/control_plane.py:317-354 | two activations with the same expected revision of a slot cannot both succeed |
| `PolicyRollout.InStepIff` | src/agent_roi/enterprise/control_plane.py:378-427 | a step makes a rollout's primary differ from the active version exactly when it writes a start that another activation has overtaken |
| `PolicyRollout.SerializedRunsStayInStep` | src/agent_roi/enterprise/control_plane.py:378-427 | in serialized runs a rollout's primary is the active version and differs from its candidate |
| `PolicyRollout.InterleavingBreaksAgreement` | src/agent_roi/enterprise/control_plane.py:392-411 | an interleaved run in which it is not |
| `PolicyRollout.WholeCallIsTwoHalves` | src/agent_roi/enterprise/control_plane.py:317-427 | an uninterrupted call is its read followed by its write |
| `PolicyRollout.DropsRollout` | src/agent_roi/enterprise/control_plane.py:317-354 | an activation drops its slot's rollout, as a cancellation does, and no other |
| `PolicyRollout.ResolveIsChoice` | src/agent_roi/enterprise/control_plane.py:445-464 | an agent gets the candidate exactly if its hash falls in the first `candidate_percentage` of a hundred parts |
| `PolicyRollout.RampMovesOnce` | src/agent_roi/enterprise/control_plane.py:445-464 | ramping one candidate by non-decreasing percentages with the default seed moves each agent at most once, from primary to candidate |
| `PolicyRollout.ControlPlaneStore.SaveBundle` | src/agent_roi/enterprise/control_plane.py:270-290 | a new version is stored, a known one refused |
| `PolicyRollout.ControlPlaneStore.ActivateVersion` | src/agent_roi/enterprise/control_plane.py:317-354 | success exactly for a stored version at the expected revision, which then goes up by one; the rollout is dropped and nothing else changes |
| `PolicyRollout.ControlPlaneStore.StartRollout` | src/agent_roi/enterprise/control_plane.py:378-426 | success exactly for 1 to 99 percent, an active primary, another stored candidate and the expected revision; the rollout says just that, with its seed |
| `PolicyRollout.ControlPlaneStore.CancelRollout` | src/agent_roi/enterprise/control_plane.py:438-443 | only the slot's rollout is removed |
| `PolicyRollout.SplitResolveIsStored` | src/agent_roi/enterprise/control_plane.py:445-464 | a resolution reads the active version and later the rollout; whatever happens in between and after, the version it gives names a stored bundle |
| `PolicyRollout.SplitResolveIff` | src/agent_roi/enterprise/control_plane.py:445-464 | it gives the version in force at its second read exactly when there is a rollout then or the active version is still the one read |
| `PolicyRollout.SplitResolveGoesBack` | src/agent_roi/enterprise/control_plane.py:445-464 | a run in which the candidate is activated between the reads, and an agent that has version 2 before and after is given version 1 |
| `PolicyRollout.ControlPlaneStore.PickVersion` | src/agent_roi/enterprise/control_plane.py:449-464 | the second read: the rollout's choice by bucket, or the primary read before |
| `PolicyRollout.ControlPlaneStore.ResolveActive` | src/agent_roi/enterprise/control_plane.py:445-464 | the version for an agent when nothing comes between the two reads, which names a stored bundle |
| `JsonText.LeqIff` | src/agent_roi/_serialization.py:64-71 | keys are ordered by the first code point in which they differ, a prefix first |
| `JsonText.KeysAscend` | src/agent_roi/_serialization.py:64-71 | keys are printed in ascending order of code points, each once |
| `JsonMeaning.DumpsSays` | src/agent_roi/_serialization.py:64-71 | read by the grammar of RFC 8259, the printed text says the value that was printed: words, digits, escapes, lists, and fields in order |
| `JsonMeaning.PlainTextStays` | src/agent_roi/_serialization.py:64-71 | text without quotes, backslashes and control characters is printed as it is |
| `JsonText.DumpsPrefix` | src/agent_roi/_serialization.py:64-71 | a printed value ends where what follows it begins: with numbers, escapes, lists and objects, no text can be read in two ways |
| `JsonText.DumpsIsInjective` | src/agent_roi/_serialization.py:64-71 | different JSON values are printed differently |
| `Canonical.SortedIsUnique` | src/agent_roi/_serialization.py:48-50 | lists sorted by printed text are determined by their elements |
| `Canonical.ToJsonIsIdempotent` | src/agent_roi/_serialization.py:14-61 | converting any plain value that stands for a converted one gives that one again |
| `Canonical.TextsConvert` | src/agent_roi/_serialization.py:18-32 | non-finite floats, decimals, times and paths become their texts, an enumeration's member its value |
| `Canonical.TagsConvert` | src/agent_roi/_serialization.py:33-34 | bytes and unknown objects become tagged objects, the latter with their rendering cut to 1000 characters |
| `Canonical.EntriesConvert` | src/agent_roi/_serialization.py:35-45 | a mapping or record has the texts of its keys as fields, each with the value of the last entry of that text |
| `Canonical.SetsConvert` | src/agent_roi/_serialization.py:48-50 | a set becomes the list of its converted members, in the order of their texts |
| `Canonical.EveryJsonHasAValue` | src/agent_roi/_serialization.py:14-61 | every converted value is stood for by some plain value |
| `Canonical.OrderDoesNotMatter` | src/agent_roi/_serialization.py:39-50 | with distinct key texts form and text are independent of mapping and set order at every depth |
| `Canonical.TextIsTheForm` | src/agent_roi/_serialization.py:64-71 | two values have one canonical text exactly when they have one converted form |
| `Canonical.AnyOrderIff` | src/agent_roi/_serialization.py:41-45 | a mapping's form is independent of its order exactly when keys with one text have one conversion |
| `Canonical.SharedTextDependsOnOrder` | src/agent_roi/_serialization.py:41-45 | the number 1 and the text "1" as keys, where the order shows |
| `PolicyBundles.ReadBack` | src/agent_roi/enterprise/control_plane.py:280-308 | whatever plain value is read from a canonical text converts to what was printed |
| `PolicyBundles.PrintedIsReadable` | src/agent_roi/enterprise/control_plane.py:280-308 | every canonical text can be read |
| `PolicyBundles.VerifyIff` | src/agent_roi/enterprise/control_plane.py:115-132 | a bundle verifies exactly if digest, key, signature and policy are in order, and the first fault is named |
| `PolicyBundles.StoredBundleVerifies` | src/agent_roi/enterprise/control_plane.py:81-132 | a published bundle verifies, also after its policy was stored as canonical JSON and reloaded |
| `PolicyBundles.VerifiedContentsAreThePublished` | src/agent_roi/enterprise/control_plane.py:115-132 | under a collision-free digest a verifying bundle with the published digest has the published contents |

## Left out

- Adapters, telemetry, approval integrations, cloud signers, identity, the HTTP app and the command lines: network clients and plumbing.
- SQL text, connections, file locks and file modes: a method that holds a lock or a transaction is one atomic step.
- Asynchronous variants (`acall_tool`, `aretry_call`, `acall`), tool timeouts and signal timeouts: the same logic with an event loop.
- `RetryPolicy.delay`, sleeping and jitter: they change when an attempt happens, not whether.
- Deliveries that end in an exception outside `Exception`: the worker's round stops there and the lease runs out; the model's rounds report every event.
- `RetryPolicy.should_retry`: whether an exception is retried, and whether it is an `Exception`, is part of the attempt.
- The PostgreSQL stores of approvals, outbox, idempotency, ledger and control plane: the same logic in other SQL.
- Floating-point representation: costs, prices and amounts are real numbers; rounding to cents is to the nearest, ties to even.
- The money conversion of the ledger, its cost entries and portfolio summaries; the latter read one page of at most 100 opportunities.
- FinOps rules, reports, policy validation, redaction, role matching, confidence scores, SCIM and agent registration: mostly single-function claims.
- Failures of the approval repository, of provider updates and of the audit emitter: these calls succeed in the model, except a provider's submit, which may fail.
- Free texts that no decision depends on: reasons, external ids, notes, time stamps of rows, event payload details beyond tool, arguments and cost.
- Keys and digests of idempotent calls (`IdempotencyPolicy.prepare`): they are inputs; a failure of their preparation ends the call like a declined start.
- The breaker's own state during a call: whether it blocks an attempt is an input of the retry loop, and the breaker is modelled by itself.
- Float values beyond their text: a float is its shortest decimal form, and no arithmetic is done on it in JSON.
- Two live brokers over one repository, which can each hold a stale pending record: the model has one broker at a time, replaced by restarts.
- Tool calls made from inside a handler: calls of one context are sequential, and interleaved calls of several contexts share nothing here.
- `ToolRegistry.register` and `freeze`: the registry is fixed while a context runs.
- Text checks of new opportunities (required names, currency, confidence): an opportunity is created from accepted texts.
- Uniqueness of rollout revisions across delete and re-create: the rows restart at 1, so compare-and-set is claimed for active policies only.
