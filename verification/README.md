# Hydropower gate dispatch: a verified model

Three services of the dispatch backend write three kinds of versioned rows: gates, operation
directives and execution confirmations ("receipts" below). They also append approval evidence and
audit rows. A request reads rows one lookup at a time outside any transaction, decides from what it
read, and commits one transaction of conditional updates and inserts, while other requests do the
same. This project models that protocol in full, and the fixed-window rate limiter in front of it,
and proves what holds of every interleaving.

## How the model is built

- `Text`, `Statuses`, `Rows`: trimming and case folding, the transition graphs, the stored entities.
- `Repository`: one transaction as a pure function, "check everything, then write everything".
  `Cas` is the conditional update of `repository/base.go`.
- `Services`: what each of the twelve operations decides from the rows it has read: an error, or the
  plan of one transaction. `View` holds those rows.
- `Dispatch`: the interleaved machine. `Begin` starts a request, each `Read` makes its next lookup in
  the store as it is then, `Commit` runs its transaction on the store as it is then. `Exec` runs a
  schedule of such events from the empty store; nothing bounds the number of requests in flight.
- `Versions`, `Locking`: what optimistic locking gives for every schedule and every client.
- `Lookups`: at which moments a request in flight read its rows, and which clients are honest.
  `Serial`: which interleaved runs equal a run of uninterrupted requests.
- `Trails`, `Evidence`, `FrozenOrder`, `Agreement`, `Workflow`: the inductive invariant under honest
  clients and its preservation by one commit. `Outcomes`, `History`, `Deletions`, `Success`,
  `Coupling`, `Liveness` draw the conclusions. `Witness` builds the schedules that show that
  hypotheses are needed, and that they can be met.
- `Effects`: what a committed request leaves in the store, for each of the twelve operations, in terms
  of the request, its caller and the rows it read. `AuditLog`: what it logs. `Signatures`: whose name
  it leaves. `Replies`: what every request is answered, error by error, and what the lookups find.
- `Database`, `Operations`: the imperative side. `Connection` changes rows statement by statement
  inside nested transactions; any statement may break, and a block may join the transaction of its
  caller. `Operations` are the service methods after their lookups, each proved to do exactly what
  its decision and `Repository.Commit` say: `MoveGateRow`, `MoveDirectiveRow`, `MoveReceiptRow`, and
  `Create…Row`, `Update…Row`, `Delete…Row` for each of the three kinds. `Operations.Execute` runs any
  of them.
- `RateLimit`, `Admission`: the limiter as a class proved against the count of calls, for any clock
  and any order of the steps of concurrent requests, and bounds on what it admits.

An *honest* client sends an expected version that is not above the version its own request reads.
Whoever sends a version that its row had at any moment before the request began is honest
(`Lookups.KnownVersionsAreHonest`). The code never compares the two
(`backend/internal/service/operation_directive.go:125-204`), so honesty is a hypothesis of the
invariants, for requests that commit; what fails may be anything. `Locking.CommittedWritesAreCurrent` shows that it is exactly what is needed, and
`Witness.DishonestClientRevivesDirective` shows what happens without it.

Assumptions about the database: transactions are isolated, so that a commit is one step; a
conditional update reports how many rows it changed; unique indexes count soft-deleted rows; lookups
and updates do not see soft-deleted rows; an error rolls the transaction back; inserted rows get
fresh keys. `GetByCode` of directives reads twice; since codes are unique and never change, it is one
lookup at the moment of the read that settles it.

Preconditions taken from the surrounding layers: user names are not empty (tokens carry them), and
the gate target of a directive is open, closed or locked
(`backend/internal/dto/operation_directive.go:20`).

## Where the code and its documentation differ

The model follows the code.

- The repository's README (line 44) lets any active stage be aborted. The graph has no edge from
  draft to aborted, and none is modelled.
- It says (line 48) that starting an execution puts the gate into moving. The code leaves a gate
  alone that is already at the target, and then does not check its version when it commits.
  `Coupling.GateCoupling` gives the exact condition, `Witness.UnwrittenGateIsUnchecked` an instance.
- It says (line 46) that all status changes use optimistic locking. Deletions carry no version:
  `Witness.SubmittedDirectiveCanBeDeleted` deletes a directive that has just been submitted,
  `Witness.ConfirmedReceiptCanBeDeleted` a confirmed receipt, and `Deletions` says exactly when what
  gets deleted is unused.
- Nothing keeps a gate from being deleted while a directive executes on it
  (`backend/internal/service/gate_unit.go:139-150`). Its code can never be used again, so the
  directive can neither complete nor be aborted: `Liveness.CanEndIffGateIsLive`,
  `Liveness.DeletedGateStrandsExecution`, `Witness.ExecutionCanBeStranded`.

## Model

| member | source | states |
|---|---|---|
| Locking.CommittedWritesAreCurrent | backend/internal/repository/base.go:88-99 | For every schedule and every client: all rows a committed request updated were, at the commit, exactly the rows it had read, if and only if its client was honest |
| Locking.LinkedRowsAreCurrent | backend/internal/service/execution_confirmation.go:174-194 | The linked directive and gate of a transition are always overwritten from their current content, even for clients that are not honest |
| Locking.StaleRequestsConflict | backend/internal/repository/base.go:88-99 | A request that expects less than it read can never commit; once its checks pass the answer is a version conflict |
| Locking.OneWriterPerVersion | backend/internal/repository/base.go:89-97 | Each version of each row of each table has at most one committed writer, in any schedule |
| Locking.InterleavedEqualsAtomic | backend/internal/service/operation_directive.go:125-204 | When every row an honest request read is also written, its interleaved commit equals the same request run without interruption at the commit point |
| Locking.CodesStayUnique | backend/internal/model/base.go:13 | Codes stay unique in every table of every reachable state, soft-deleted rows included |
| Locking.ViewsFit | backend/internal/service/execution_confirmation.go:142-153 | Whatever is in flight holds rows with the id or code the request looks for, filled in lookup order |
| Versions.HistoryEvolves | backend/internal/repository/base.go:88-121 | Between any two moments of any schedule: no row is lost or undeleted, codes stay, versions never fall, equal versions mean equal content, evidence and audit only grow at the end |
| Versions.ReadsAreEarlierStates | backend/internal/repository/base.go:68-78 | Every row held by a request in flight is an earlier state of the stored row |
| Lookups.LookupMoments | backend/internal/service/execution_confirmation.go:123-153 | A request in flight holds its receipt, directive and gate as the store had them at three moments, in this order |
| Lookups.KnownVersionsAreHonest | backend/internal/service/operation_directive.go:181-186 | A request that expects at most a version its row had at some moment before it began is honest |
| Lookups.HonestScheduleMeans | backend/internal/repository/base.go:88-99 | A schedule is honest if and only if every request that commits in it is |
| Serial.IsolatedRunsAreSerial | backend/internal/service/operation_directive.go:125-204 | If every request that commits has honestly written all it read, or finds what it read still there, the whole run ends in the store of those requests served one after the other in commit order |
| Serial.SerialRunsAreSchedules | backend/internal/repository/base.go:37-44 | Every run of uninterrupted requests is a schedule of the interleaved system |
| Success.CommitsIffUnchanged | backend/internal/service/operation_directive.go:185-202 | In every reachable state an accepted edit or transition that echoes the version it read commits if and only if the rows it writes are unchanged |
| Success.HonestUpdatesOnlyConflict | backend/internal/repository/operation_directive.go:65-78 | An accepted honest edit or transition can fail with a version conflict only |
| Success.EvidenceIsNeverRefused | backend/internal/model/operation_directive.go:37-38 | In every reachable state, when the directive row of an honest request can be written, its evidence does not meet the unique index on directive and stage |
| Workflow.AlwaysInv | backend/internal/service/execution_confirmation.go:123-199 | The joint invariant (agreement, unique slots, evidence, replaying audit log, honest views in flight) holds in every state honest clients can reach |
| Workflow.HonestAttempt | backend/internal/service/operation_directive.go:125-204 | One honest transaction, successful or not, keeps the store invariant and only moves directives and receipts forward |
| Workflow.HistoryProgresses | backend/internal/constants/status.go:44-58 | Between any two moments of an honest schedule every directive and receipt only climbs in rank, and signatures and frozen fields stay |
| Outcomes.ReceiptAgreesWithDirective | backend/internal/service/execution_confirmation.go:145-199 | A receipt and the directive with its code, live or deleted, agree in status, facility, category, risk and code; exactly confirmed receipts name a confirmer |
| Outcomes.ReceiptHasOneDirective | backend/internal/service/execution_confirmation.go:48-69 | Every receipt ever created has exactly one directive |
| Outcomes.CompletedIffConfirmed | backend/internal/service/operation_directive.go:134-136 | A directive is completed if and only if a confirmed receipt exists for it |
| Outcomes.OneReceiptPerDirective | backend/internal/model/execution_confirmation.go:18 | At most one receipt, live or deleted, ever exists per directive code |
| Outcomes.DeletedReceiptBlocksCompletion | backend/internal/service/execution_confirmation.go:201-215 | A directive whose receipt was deleted while pending is executing or aborted for ever |
| Outcomes.TerminalDirectivesStay | backend/internal/constants/status.go:49-50 | A completed or aborted directive keeps its status at every later moment |
| Outcomes.TerminalReceiptsStay | backend/internal/constants/status.go:55-57 | A confirmed or cancelled receipt keeps its status at every later moment |
| Outcomes.OneOutcomePerExecution | backend/internal/service/execution_confirmation.go:174-180 | Of all requests that confirm, fail or abort the execution of one directive, however they interleave, at most one commits |
| Outcomes.CompletionNeedsReceipt | backend/internal/service/execution_confirmation.go:154-155 | The event that completes a directive is the commit of a request that confirms a receipt |
| History.AuditLogReplays | backend/internal/service/security.go:59-74 | For every row the audit entries without deletions start with its creation, chain before-state to after-state along its graph, end at its status, and are as many as its version |
| History.StatusHistoriesAreWalks | backend/internal/constants/status.go:37-63 | Every event leaves every gate, directive and receipt at its status or takes it along one edge of its graph, whichever service writes it |
| History.OrdersAreFrozen | backend/internal/service/operation_directive.go:85-87 | Once a directive has left draft, its business fields, gate link and target are the same at every later moment |
| History.TwoPersonRule | backend/internal/service/operation_directive.go:160-180 | A directive that was ever approved has exactly one submission and one approval as evidence, by the people named in its row, who differ under case folding, in the right roles; nothing later changes any of it |
| History.ApprovalIsNeverSkipped | backend/internal/constants/status.go:44-51 | The audit trail of an executing or completed directive contains draft to pending and later pending to approved |
| History.BoundedWork | backend/internal/constants/status.go:44-58 | A run with D directives and C receipts records at most 4D + 2C status changes of them |
| Deletions.DeletedDirectiveIsDraftIffUnchanged | backend/internal/service/operation_directive.go:206-220 | The directive removed by a committed deletion is a draft if and only if the log shows no status change of it before the commit |
| Deletions.DeletedReceiptIsPendingIffUnchanged | backend/internal/service/execution_confirmation.go:201-215 | The receipt removed by a committed deletion is pending if and only if the log shows no status change of it before the commit |
| Deletions.DeletedDirectiveIsDraftIffUnmoved | backend/internal/service/operation_directive.go:206-215 | The directive removed is a draft if and only if no event between the deletion's own lookup and its commit moved it |
| Deletions.DeletedReceiptIsPendingIffUnmoved | backend/internal/service/execution_confirmation.go:201-210 | The receipt removed is pending if and only if no event between the deletion's own lookup and its commit moved it |
| Effects.CommittedEffect | backend/internal/service/execution_confirmation.go:44-215 | In any schedule, every committed request of the twelve kinds changes exactly the rows it should, to exactly the values that request, caller and read rows say (form fields trimmed, codes canonical, targets kept or set, one version later), with its evidence and log entries and nothing else |
| Effects.HonestReadsAreCurrent | backend/internal/repository/base.go:88-99 | For an honest client the addressed row it read is the row before its commit |
| Effects.DraftEdit | backend/internal/service/operation_directive.go:80-123 | A committed edit compared with the row before: the form's fields, the requested gate, the requested target or else the earlier one, signatures and status unchanged, one version later |
| Effects.GateFormsAreChecked | backend/internal/service/gate_unit.go:43-106 | A committed gate form is filled in and agrees with its reservoir; an edit names the reservoir the gate already has |
| Effects.DirectiveFormsAreChecked | backend/internal/service/operation_directive.go:43-97 | A committed directive form is filled in and names a gate of the same facility that was not locked when read |
| Effects.ReceiptFormsAreChecked | backend/internal/service/execution_confirmation.go:44-98 | A committed receipt form is filled in and names a directive that was executing when read |
| AuditLog.OneEntryPerWrittenRow | backend/internal/service/security.go:59-74 | A committed request adds exactly one log entry for every row it wrote and none for any other, true of that row and in its caller's name, deletions included |
| AuditLog.DeletionsAreLogged | backend/internal/service/gate_unit.go:144-149 | A committed deletion adds one entry, with the status read, "deleted" and the caller's name |
| Signatures.SubmitterIsCaller | backend/internal/service/operation_directive.go:169-174 | Whoever submits, in whatever role, is stored as submitter, and exactly one evidence row with that name and role is added |
| Signatures.ApproverIsCaller | backend/internal/service/operation_directive.go:175-180 | Whoever approves is stored as approver, and exactly one evidence row with that name and role is added |
| Signatures.OnlySignaturesLeaveEvidence | backend/internal/repository/operation_directive.go:70-75 | No other committed request adds evidence |
| Signatures.CommittedMovesAreAllowed | backend/internal/service/operation_directive.go:137-149 | Who starts, who aborts, and that an execution starts on a gate that was not locked when read |
| Signatures.TwoCallers | backend/internal/service/operation_directive.go:160-164 | The requests that submit and approve one directive come in this order, from callers who differ under case folding |
| Signatures.EvidenceHasRequest | backend/internal/model/operation_directive.go:33-46 | Every evidence row was left by a committed request of the person and role it names |
| Signatures.ApprovedByTwoCallers | backend/internal/service/operation_directive.go:160-180 | Whatever is approved, executing or completed was submitted and approved by requests of the two different people its row names |
| Signatures.ConfirmerIsCaller | backend/internal/service/execution_confirmation.go:135-138 | Whoever confirms a receipt is stored as confirmer |
| Signatures.ConfirmerStays | backend/internal/service/execution_confirmation.go:129-138 | And stays so at every later moment |
| Signatures.ConfirmedHasRequest | backend/internal/service/execution_confirmation.go:135-138 | Every confirmed receipt was confirmed by a committed request of the person it names |
| Replies.RepliesAreExact | backend/internal/service/operation_directive.go:125-204 | Every transaction succeeds or fails with exactly the error of a reference table of checks, in order, over the rows read and the store met |
| Replies.CommitsIffNoError | backend/internal/repository/base.go:88-99 | In any schedule a finishing request commits if and only if that table names no error |
| Replies.ReceiptFound | backend/internal/repository/base.go:68-72 | The first lookup finds the live receipt of a request, or nothing |
| Replies.DirectiveFound | backend/internal/repository/operation_directive.go:45-58 | The second lookup finds the live directive with the id or code a request asks for, or nothing if there is none |
| Replies.GateFound | backend/internal/repository/base.go:74-78 | The third lookup finds the live gate with the id or code a request asks for, or nothing if there is none |
| Replies.CountIsZeroIff | backend/internal/repository/execution_confirmation.go:54-59 | The count of receipts of a directive is zero if and only if no live receipt answers it |
| Replies.ReceiptIsCreatedIff | backend/internal/service/execution_confirmation.go:44-79 | In every reachable state an uninterrupted creation with a complete form succeeds if and only if its code finds a live executing directive that no receipt, live or deleted, answers, and its own code and key are free |
| Trails.CommitKeepsLogReplays | backend/internal/service/execution_confirmation.go:164-195 | One transaction that writes up to three rows keeps the log replaying to all three tables |
| Trails.DecidedPlansAreStepwise | backend/internal/service/gate_unit.go:118-137 | Every accepted request creates rows at their initial status with version 1, or moves the row it read along one edge to the next version, and logs that move |
| Evidence.AcceptedMovesHaveRoles | backend/internal/service/operation_directive.go:222-235 | Role by role: a move along an edge is forbidden if and only if the role may not make it; completing is never a role's right |
| Evidence.MovesAreAcceptedIff | backend/internal/service/operation_directive.go:125-164 | A directive move is accepted if and only if there is an edge, the role may make it, a second person approves, an unlocked gate exists to start, and a gate exists to end an execution; the gate graph itself never refuses |
| Evidence.EvidenceKept | backend/internal/repository/operation_directive.go:65-78 | One transaction keeps row and evidence of every directive in accord |
| Evidence.DecidedDirectiveChanges | backend/internal/service/operation_directive.go:160-184 | What any accepted request can do to a directive row, its signatures and its evidence |
| FrozenOrder.DecidedReceiptChanges | backend/internal/service/execution_confirmation.go:123-162 | What any accepted request can do to a receipt row, and that confirming and failing settle the directive in the same plan |
| Agreement.CommitKeepsAgreement | backend/internal/service/execution_confirmation.go:164-195 | One transaction computed from present rows keeps receipts and directives in agreement in both directions |
| Coupling.GateCoupling | backend/internal/service/operation_directive.go:150-158 | An honest commit that starts, completes or aborts an execution leaves a gate it wrote coupled; a gate it did not write was coupled as read, is left as it is, and is still coupled if its version is the one read |
| Coupling.AtomicCoupling | backend/internal/service/execution_confirmation.go:154-194 | Without interruption: executing leaves the gate moving or at target, completion at target, aborting locked, in the same commit |
| Coupling.DraftsLinkTheCheckedGate | backend/internal/service/operation_directive.go:47-68 | A new or edited draft names the gate whose facility and lock were checked |
| Coupling.AtomicRunsDeleteOnlyUnused | backend/internal/service/operation_directive.go:206-220 | In runs of uninterrupted requests only drafts and pending receipts are ever deleted |
| Liveness.ExecutionCanAlwaysEnd | backend/internal/service/execution_confirmation.go:145-162 | In every reachable state an execution whose directive, gate and pending receipt are live can be aborted at once, failed at once, and confirmed after at most two manual gate moves |
| Liveness.ExecutionCanAlwaysBeAborted | backend/internal/service/operation_directive.go:142-159 | In every reachable state, with or without a receipt, an execution whose directive and gate are live can be aborted at once by anyone but a viewer, and the gate locks |
| Liveness.AbortIsEnabled | backend/internal/service/operation_directive.go:142-159 | The same for any store with unique codes and a gate in one of its four statuses |
| Liveness.CanEndIffGateIsLive | backend/internal/service/gate_unit.go:139-150 | In every reachable state some request can end an execution now if and only if the directive and its gate have not been deleted |
| Liveness.DeletedGateStrandsExecution | backend/internal/service/gate_unit.go:139-150 | Once the gate of an executing directive is deleted and no request in flight has read the two, the directive executes for ever, whatever any client does |
| Liveness.FailIsEnabled | backend/internal/service/execution_confirmation.go:156-161 | Reporting failure is never blocked by the gate; directive and gate follow |
| Liveness.ConfirmWithinTwoMoves | backend/internal/constants/status.go:37-42 | For each legal target at most two manual gate moves make the confirmation succeed, with the gate at its target |
| Witness.DishonestClientRevivesDirective | backend/internal/service/operation_directive.go:181-188 | A schedule in which a request that expects one version more than it read turns an aborted directive into an executing one |
| Witness.UnwrittenGateIsUnchecked | backend/internal/service/operation_directive.go:189-191 | An honest schedule in which an execution starts on a gate locked in the meantime |
| Witness.SubmittedDirectiveCanBeDeleted | backend/internal/repository/base.go:112-121 | An honest schedule that deletes a submitted directive |
| Witness.ConfirmedReceiptCanBeDeleted | backend/internal/service/execution_confirmation.go:201-215 | An honest schedule that deletes a confirmed receipt |
| Witness.ExecutionCanBeStranded | backend/internal/service/gate_unit.go:139-150 | An honest schedule that leaves a directive executing for ever |
| Witness.ExecutionIsConfirmed | backend/internal/service/execution_confirmation.go:123-199 | An honest schedule whose last commit completes an execution: an instance of the hypotheses of the outcome, writer and coupling theorems |
| Database.Connection.UpdateGate | backend/internal/repository/base.go:88-99 | The conditional update: the whole new store, or the error and no change |
| Database.Connection.UpdateDirective | backend/internal/repository/operation_directive.go:62-64 | The conditional update of a directive |
| Database.Connection.WriteReceipt | backend/internal/repository/execution_confirmation.go:39-50 | Insert, conditional update or soft delete of a receipt under both unique indexes |
| Database.Connection.Enter | backend/internal/repository/base.go:37-43 | A block joins the transaction that is open, or opens one that remembers the present state |
| Database.Connection.Leave | backend/internal/repository/base.go:37-44 | Only the block that opened the transaction ends it: after an error the remembered state is back, otherwise the writes stay |
| Database.Connection.End | backend/internal/repository/base.go:104-109 | Ending a transaction or savepoint restores its state after an error and keeps the writes otherwise |
| Database.Connection.TransitionWithAudit | backend/internal/repository/base.go:103-110 | Update and audit: both, or the store exactly as before |
| Database.Connection.TransitionWithApproval | backend/internal/repository/operation_directive.go:65-78 | Row, evidence and audit in a nested transaction: all three, or the store exactly as before, whichever statement fails |
| Operations.MoveGateRow | backend/internal/service/gate_unit.go:118-137 | Step by step it does what its decision says, all or nothing |
| Operations.MoveDirectiveRow | backend/internal/service/operation_directive.go:125-204 | Likewise, with role, two-person and gate checks in order and the nested transaction |
| Operations.LinkGate | backend/internal/service/operation_directive.go:140-159 | The checks of the linked gate give exactly the error or gate change of the decision |
| Operations.CommitDirectiveMove | backend/internal/service/operation_directive.go:185-202 | Nested transaction and gate update equal one all-or-nothing commit of the plan, wherever a statement fails |
| Operations.MoveReceiptRow | backend/internal/service/execution_confirmation.go:123-199 | Likewise for receipts, with a first outcome or a cancellation |
| Operations.CommitOutcome | backend/internal/service/execution_confirmation.go:164-197 | The six statements on receipt, directive and gate equal one all-or-nothing commit, wherever one fails |
| Operations.Execute | backend/internal/repository/base.go:37-44 | Any creation, edit, transition or deletion run against the connection ends in the store that the finishing event of the interleaved machine gives, or, when a statement breaks, in the store it found; inside a caller's transaction its success is the same commit |
| Text.TrimCutsSpaces | backend/internal/service/operation_directive.go:60-66 | Trimming cuts white space at both ends, all of it and nothing else |
| Text.CapitalsAre | backend/internal/repository/base.go:76 | Upper-casing turns the 26 letters into their capitals and keeps every other character |
| Text.EqualFoldIff | backend/internal/service/operation_directive.go:161 | Texts match under case folding if and only if their characters do, one by one |
| Text.CanonicalIsStable | backend/internal/repository/base.go:74-78 | Stored codes are found again under themselves |
| RateLimit.Limiter.IncrementLocal | backend/internal/middleware/ratelimit.go:71-83 | Whatever the clock did: the answer is the kept count of the whole history, never more than the number of calls with that key in that minute, and equal to it under a steady clock; the map holds at most max(512, keys of this minute or later) entries |
| RateLimit.TruncateIsMinuteStart | backend/internal/middleware/ratelimit.go:74 | The start of the minute is a whole number of minutes and at most one minute back |
| RateLimit.CleanedKeepsRecent | backend/internal/middleware/ratelimit.go:85-94 | Clean-up leaves fewer than 512 buckets alone and otherwise exactly those that are not of an earlier minute |
| RateLimit.CallsAreCounted | backend/internal/middleware/ratelimit.go:71-83 | A call counts for its key and minute and for nothing else |
| RateLimit.IncrementsAreCounted | backend/internal/middleware/ratelimit.go:57-69 | Increments by anybody count in Redis, answered or not; local calls do not |
| RateLimit.LocalRunHoldsKept | backend/internal/middleware/ratelimit.go:71-94 | For any clock the map holds, per key and minute, the calls since it last dropped them |
| RateLimit.KeptIsExactIffRemembered | backend/internal/middleware/ratelimit.go:71-94 | For any clock the answer equals the plain count if and only if no call of this key and minute was followed by one that made the map drop it, by another minute of the same key or by a clean-up |
| RateLimit.SteadyClockIsExact | backend/internal/middleware/ratelimit.go:71-94 | When no reading falls into an earlier minute than the one before, answers are the plain count and clean-up changes none of them |
| RateLimit.ClockGoingBackForgets | backend/internal/middleware/ratelimit.go:74-79 | Three calls under a clock that steps back, where the second call of a minute is counted as its first |
| RateLimit.MapStaysSmall | backend/internal/middleware/ratelimit.go:85-94 | After every call, for any clock, the map holds at most max(512, keys of this minute or later) entries |
| RateLimit.SteadyKeys | backend/internal/middleware/ratelimit.go:85-94 | Under a steady clock these are the keys of this minute |
| RateLimit.Limiter.CleanupLocal | backend/internal/middleware/ratelimit.go:85-94 | The loop removes exactly the buckets of earlier minutes, and only from a map of 512 entries or more |
| RateLimit.Limiter.Increment | backend/internal/middleware/ratelimit.go:57-69 | One Redis step of a request: an answer is the number of increments of this key and minute by anybody; a lost answer has counted |
| RateLimit.Limiter.Admit | backend/internal/middleware/ratelimit.go:37-55 | A request is admitted if and only if the count it is charged with, in Redis or locally, is within the limit; both counters stand for everything that has happened |
| Admission.AdmittedPerWindow | backend/internal/middleware/ratelimit.go:48-52 | Under a steady clock the local counter admits exactly min(calls, limit) per key and minute |
| Admission.AdmittedPerForgetting | backend/internal/middleware/ratelimit.go:71-94 | For any clock every forgetting of a key and minute admits at most the limit once more |
| Admission.SlidingBound | backend/internal/middleware/ratelimit.go:71-83 | With one counter any sixty seconds admit at most twice the limit |
| Admission.SwitchingBound | backend/internal/middleware/ratelimit.go:37-43 | In any order of the Redis and local steps of concurrent requests, with other processes using Redis too, a minute admits at most twice the limit |
| Admission.SwitchingSlidingBound | backend/internal/middleware/ratelimit.go:37-43 | And any sixty seconds at most four times the limit |

## Left out

- HTTP handlers, routing, JSON binding, tokens, password hashes, configuration, database connection and retry: input and output.
- The reservoir service: a reservoir lookup is an input of the gate requests that make one.
- Lists, paging, status counts, audit summaries, the limiter's status report and headers, and the row a service reads again after its commit to answer with.
- Seed data: runs start from the empty store.
- Timestamps, request ids, reasons, descriptions, metrics and evidence text: the ones a caller sends are one opaque field `details`.
- Statuses outside the lists are carried as `Other`; the trimming of a requested status is taken as done.
- Text.CanonicalIsStable: covers ASCII letters and white space only, because case folding outside ASCII is left to the language's tables.
- Wrap-around of 64-bit versions and counters.
- Two-phase reads of `GetByCode` for directives: modelled as one lookup, for the reason given above.
- Redis counters never expire in the model, so a key and minute have one counter for good; the pipeline's outcome is one of answered, lost after counting, or down.
- Admission.AdmittedPerWindow: assumes that the local clock never falls back into an earlier minute, as do `SlidingBound`, `SwitchingBound` and `SwitchingSlidingBound`; the wall clock may, and then `Admission.AdmittedPerForgetting` is what holds.
- At most one executing directive per gate, and matching facilities of directive, gate and reservoir over whole runs: the code does not enforce them.
- History.AuditLogReplays: leaves the before-state of deletion entries out of the chain, because a deletion carries no version.
- The frontend.
