# Persistence protocols of the JooEvents Cloudflare worker

The worker keeps its data in D1 and never holds a lock. A unit of work reads from a session, records
the SQL predicates that justified its decision (guards), buffers its writes, and commits guards and
writes as one batch; a failed guard aborts the batch and the work runs again. Everything else --
idempotent operations, the outbound delivery ledger, uploads against cleanup, vocabulary merge, the
schedule -- relies on those guards being strong enough. This project models the engine and the
protocols on top of it and proves what they are for, over every interleaving.

## How it is built

A unit is a function from the snapshots it has read, each possibly of a different state, to guards,
writes and a value. `Serializability` runs any number of units in any interleaving and retry order
and proves, once, that guard-determined units are serializable in commit order and that an invariant
each batch keeps holds in every reachable state. Each protocol then supplies its tables, guards and
statements (an `UPDATE` whose `WHERE` matches nothing succeeds and changes nothing, a constraint or
trigger aborts) and proves two things about them: what a batch does, and that its guards determine
it. The classes and methods -- the engine, the ledger, the file runtime, the adapters, the form
checker and the merge buffer -- are proved against the same functions.

| files | what they model |
|---|---|
| `AtomicBatch`, `Serializability` | the guarded batch, the retry loop, all interleavings |
| `OperationBoundary`, `OperationRetry`, `OperationHooks` | find-or-(apply, insert) per operation identity, retries after a lost answer, and the commit and finish notifications |
| `DeliveryLedger`, `DeliverySafety`, `DeliveryTheorems`, `DeliveryBounds`, `DeliveryRounds`, `DeliveryFencing`, `DeliveryEnvelopes`, `OutboundDelivery` | claim, start, resolve, fence and release of outbound deliveries; how often an outcome can stay unknown; what a late worker is told |
| `FileTransfers`, `FileWorld`, `FileSafety`, `FileRuns`, `FileAttempts`, `FileTheorems`, `FileTurns`, `FileRuntime`, `FileUndisturbed` | upload attempts and the cleanup wake over tables and an object store that share no transaction, and exactly what one request or wake comes to |
| `FileListing`, `FileOrigins`, `FilePermanence`, `FileReclamation`, `FileStranding` | which objects wakes with a one-page listing can ever delete, and runs that leave some behind |
| `FormReferences`, `FormPlan`, `FormCollation`, `FormMerge`, `FormMergeBuffer`, `FormRecords` | form heads against the reference-slot index, the check a merge plan passes, the merge that rewrites both, and what agreement and a current plan mean row by row |
| `ProgramTables`, `ProgramSafety`, `ProgramEffects`, `ProgramTheorems`, `ProgramRooms`, `ProgramTurns`, `ProgramRecords`, `ProgramAdapters`, `UsageCount` | vocabulary, schedule, sessions, deadlines and merge as versioned aggregates; each request's checks and rows; when rooms stay free; the reader's reference count |
| `RowGuards`, `ApiKeyGuards`, `ApiKeyRevocation`, `ApiKeyRecords`, `RoleGuards` | count-plus-membership guards, the decisions they pin, and API key revocation on top of them, rows and view included |
| `RateLimiter`, `KeysetPaging`, `HistoryReads` | the fixed-window limiter and both keyset-paged histories |
| `Wrappers`, `Sets`, `StringOrder` | what the modules share |

## Where the code does not do what one would expect

Each of these is kept as the code has it, with a lemma that exhibits or characterises it.

- A unit without writes returns without checking its guards (d1-atomic-batch.ts:72), so its reads may
  disagree. A unit that reads once is told what it would be told alone, in every run (`OneReadIsSerial`);
  an operation that looks for its receipt first and opens its handler snapshot later may be told a
  nonterminal outcome that no state of the run gives, because a repetition of it committed in between
  (`RepeatIsToldNonterminal`). `NonterminalIsSerialExactlyWhen` has the exact condition.
- `afterUnitOfWorkCommitted` is called for an attempt that committed nothing exactly when the
  invocation is told a nonterminal outcome, and `afterUnitOfWorkFinished({committed: true})` also
  reaches the adapter of a conflicted attempt when the retry is answered before it selects one -- denied,
  replayed or held by the autonomy preflight:
  `CommittedIsFalseExactlyWhenNonterminal`, `FinishedIsFalseExactlyWhen` and the runs beside them.
- A fenced completion returns the head it read. Unless that head was settled a claim can commit before
  the batch and the returned head is not the stored one: `FencedHeadIsCurrentExactlyWhenSettled`.
- Unknown outcomes of a delivery are bounded by two and one more for each of its starts that goes
  unmarked through a natively idempotent provider after an unknown; such a start loses the bound of two,
  and rounds of them have no bound: `UnknownsAreAtMostTwoAndTheEscapes`, `StartLosesTheBoundExactlyWhen`,
  `NativeKeyRetriesAreUnbounded`.
- d1-files-cleanup.ts:105-110 says a crash-stranded object becomes discoverable on the next wake. The
  object of an orphan asset whose row was deleted, and whose own deletion then crashed or was refused
  (158-169), is not, since its confirmed intent counts as a reference for good; and the listing is one
  page without a cursor (171-174), so an object that only the listing could condemn is never found
  behind a thousand objects that stay. `RefusedDeletionStrands`, `FullPageHides` and `SomePageHides`
  are such runs, `ReclaimableExactlyWhenWithinReach` has the exact condition.
- A room merge checks no overlap. Rooms stay free in a run exactly when each room merge that commits
  finds its two rooms apart, and eight requests from an empty event overbook a room:
  `RoomsNeverOverlapExactlyWhen`, `AMergeOverbooksARoom`.
- The owner's name in a revocation's answer is pinned by no guard. It is the committed one exactly when
  the name has not changed, and no statement of the program changes it:
  `RevocationAnswersAsAloneExactlyWhen`, `RevocationIsDetermined`.
- The limiter lets fewer than two limits through any interval one window long for a clock that never
  steps back, and for one that does exactly when the limit is one or the step is at most a millisecond;
  otherwise the attained bound grows with the step: `FewerThanTwoLimitsExactlyWhen`,
  `AnyWindowLengthIsBounded`, `TheBoundIsReached`.

## Model

| member | source | states |
|---|---|---|
| AtomicBatch.StatementsAreGuardedCommit | apps/cloudflare-worker/src/d1-atomic-batch.ts:71-88 | the statement list of a batch (guard inserts, writes, guard delete) is a guarded commit: all guards are judged at the one state before the writes, the conflict marker is raised exactly when one fails, and the guard table ends empty |
| AtomicBatch.Database.Batch | scripts/prepare-cloudflare-application.ts:25-37 | a batch runs its statements in order and an aborting one, with or without the marker, undoes the whole batch |
| AtomicBatch.BufferedUnitOfWork.AssertCurrent | apps/cloudflare-worker/src/d1-atomic-batch.ts:57-62 | appends one guard and leaves the writes alone |
| AtomicBatch.BufferedUnitOfWork.Write | apps/cloudflare-worker/src/d1-atomic-batch.ts:64-69 | appends one write and leaves the guards alone |
| AtomicBatch.BufferedUnitOfWork.Commit | apps/cloudflare-worker/src/d1-atomic-batch.ts:71-88 | no writes: success, nothing checked; writes without guards: refused; otherwise exactly the guarded commit of the buffer at the current tables, reported as success, conflict or other error, and nothing changes unless it succeeds |
| AtomicBatch.Attempt | apps/cloudflare-worker/src/d1-atomic-batch.ts:114-124 | one round of the loop beside arbitrary other sessions: success means one own batch, last in the journal, decided from states the tables went through; anything else adds nothing |
| AtomicBatch.RunD1BufferedUnitOfWork | apps/cloudflare-worker/src/d1-atomic-batch.ts:102-127 | the loop tries again after a refused batch and only then, 1 to 5 times as it is told: every try but the last had a guard that failed on the tables it met, the last decides value, contention or error, and the snapshots and tables of every try are those the other sessions left; a value with writes was committed in exactly one guarded batch, anything else changed nothing |
| Serializability.RunSound | apps/cloudflare-worker/src/d1-atomic-batch.ts:98-127 | an invariant every unit's batch keeps holds in every state of every interleaving, and the order on states is respected |
| Serializability.RunMonotone | apps/cloudflare-worker/src/d1-atomic-batch.ts:98-127 | continuing a run only reaches later states |
| Serializability.SessionCommitsFromAdmissibleReads | apps/cloudflare-worker/src/d1-atomic-batch.ts:114-125 | the imperative session, beside lawful others, commits only from the kind of snapshots the interleaving theorems quantify over |
| Serializability.Serializable | apps/cloudflare-worker/src/d1-atomic-batch.ts:45-127 | for guard-determined units, in every interleaving: tables equal the serial run of the committed units in commit order, no unit commits twice, and each value-determined unit returned its serial value |
| Serializability.UnsuccessfulUnitsChangeNothing | apps/cloudflare-worker/src/d1-atomic-batch.ts:114-127 | in any run of any units one that threw, contended or is still running is in no serial history and no step of it changed the tables |
| Serializability.ClientsTryAgain | apps/cloudflare-worker/src/d1-atomic-batch.ts:114-126 | in every interleaving each client makes the tries its refusals call for, as often as it may, each read anew after the refusal before it and submitted on the tables of its moment, and its outcome is the one they decide |
| Serializability.ReadsAreVisitedInOrder | apps/cloudflare-worker/src/d1-atomic-batch.ts:102-127 | in every run each client holds snapshots of states the run went through, in order, returned what they decide, and is in the log exactly when it wrote |
| Serializability.OneReadIsSerial | apps/cloudflare-worker/src/d1-atomic-batch.ts:72 | in every run a unit that reads at most once, or whose reads saw one state, returned its serial value at a state the run went through |
| OperationBoundary.Find | apps/cloudflare-worker/src/d1-effect-unit-of-work.ts:266-270 | answers a logged row of the identity, the first one, or none exactly when there is none |
| OperationBoundary.InvocationCommits | apps/cloudflare-worker/src/d1-effect-unit-of-work.ts:266-321 | a batch of an invocation applies the changes its plan lists, one after the other and each once, and appends exactly its own receipt, for an identity that had none at the commit state |
| OperationBoundary.EveryRunIsExactlyOnce | apps/cloudflare-worker/src/d1-effect-unit-of-work.ts:234-346 | over every interleaving of concurrent, retried and repeated invocations: one log row per identity, the log is the initial one plus one row per committed invocation in commit order, and a success names the row of its identity |
| OperationBoundary.EveryContributionAppliesOnce | apps/cloudflare-worker/src/d1-effect-unit-of-work.ts:282-321 | over every interleaving the domain is the initial one with the changes of the logged invocations applied in log order, each once, as planned on the domain that its adapter's snapshot held |
| OperationBoundary.OneCommitPerIdentity | apps/cloudflare-worker/src/d1-effect-unit-of-work.ts:266-270 | no two committed invocations share an identity |
| OperationBoundary.RepeatsAgree | packages/application/src/operations/effect-executor.ts:617-760 | two invocations of one identity that succeed return the same receipt and result |
| OperationBoundary.DomainMovesOnlyWithTheLog | apps/cloudflare-worker/src/d1-effect-unit-of-work.ts:282-321 | over every run the domain tables differ only if the log grew |
| OperationBoundary.GuardedInvocationIsDetermined | apps/cloudflare-worker/src/d1-effect-unit-of-work.ts:234-346 | if an adapter's guards determine its own plan, authority and preflight, the absence guard makes the whole invocation guard-determined |
| OperationBoundary.InvocationsAreSerial | apps/cloudflare-worker/src/d1-effect-unit-of-work.ts:234-346 | tables and answers of every interleaving of such invocations are serial |
| OperationBoundary.NonterminalIsSerialExactlyWhen | packages/application/src/operations/effect-executor.ts:624-671 | in every run an invocation told a nonterminal outcome was held by its preflight at the one state it read, where the answer is serial, or read two visited states; then the answer is the serial one of the handler's snapshot exactly when there authority still held, the preflight let it pass or said the same, and no receipt of the identity existed |
| OperationBoundary.RepeatIsToldNonterminal | apps/cloudflare-worker/src/d1-effect-unit-of-work.ts:266-281 | a run of two invocations of one identity in which one succeeds and the other is told a nonterminal outcome that is serial at no state of the run |
| OperationBoundary.OnceOnlyIsToldNonterminal | apps/cloudflare-worker/src/d1-effect-unit-of-work.ts:266-281 | such a run for a concrete operation whose adapter guards its own plan |
| OperationRetry.LossesChangeOnlyAnswers | apps/cloudflare-worker/src/d1-atomic-batch.ts:102-127 | whatever answers of committed batches are lost, tables, log and every other client of the run are those without the losses |
| OperationRetry.RetryIsAnsweredByTheFirstRow | packages/application/src/operations/effect-executor.ts:624-642 | once an invocation has committed, its caller's answer lost or not, an invocation of the identity that starts afresh commits nothing in any continuation and can only be denied or answered from the first one's row, which stays the only one |
| OperationRetry.RetryIsAnswered | packages/application/src/operations/effect-executor.ts:624-642 | two moves of its own answer it, tables unchanged: denied, request changed, or the first one's receipt and result |
| OperationHooks.OneAttempt | apps/cloudflare-worker/src/d1-effect-unit-of-work.ts:246-338 | reads, adapter and result of one attempt are those the interference and the operation's own decisions prescribe: an adapter exactly if authority, receipt lookup and preflight settle nothing, a log insert seen exactly if the plan proceeds, a commit or conflict exactly as its guards and writes fare at the tables met |
| OperationHooks.Attempts | apps/cloudflare-worker/src/d1-effect-unit-of-work.ts:241-339 | the retry loop makes exactly the prescribed attempts and outcome: one distinct adapter per attempt that selected one, the latest is the last selected, and the journal gained an own entry exactly when the last attempt committed |
| OperationHooks.RunInUnitOfWork | apps/cloudflare-worker/src/d1-effect-unit-of-work.ts:234-346 | every adapter of the run hears the committed hook and the finished hook exactly as often, and with the flag, that the run's attempts prescribe |
| OperationHooks.CommittedIsFalseExactlyWhenNonterminal | apps/cloudflare-worker/src/d1-effect-unit-of-work.ts:341 | the adapter told "committed" belongs to the only attempt that can have committed, and nothing was committed exactly when its plan, and so the invocation's answer, is nonterminal |
| OperationHooks.EveryCommitIsAnnounced | apps/cloudflare-worker/src/d1-effect-unit-of-work.ts:341-345 | an attempt whose batch commits hears both hooks, the second with the flag true |
| OperationHooks.FinishedIsFalseExactlyWhen | apps/cloudflare-worker/src/d1-effect-unit-of-work.ts:343-345 | the adapter told "finished, committed" did not commit exactly when the answer is nonterminal or the last attempt was settled by its first read (no authority, a receipt, or a preflight that holds it); then the one told belongs to the attempt before it, which conflicted |
| OperationHooks.NonterminalIsAnnouncedAsCommitted | apps/cloudflare-worker/src/d1-effect-unit-of-work.ts:333-342 | with no interference an operation whose plan is nonterminal makes one attempt, commits nothing, and its adapter hears both hooks |
| OperationHooks.ReplayAfterConflictMisleadsTheFirstAdapter | apps/cloudflare-worker/src/d1-effect-unit-of-work.ts:343-345 | when another invocation of the identity commits just before the batch, the run has two attempts, is answered by the other's receipt or denied, and the conflicted adapter is told that the unit committed |
| DeliverySafety.RegisteredIsSound | packages/persistence/src/sqlite/outbound-email-delivery.ts:1048-1090 | ledgers as registration leaves them satisfy the ledger invariant |
| DeliverySafety.OneMoreRegistered | packages/persistence/src/sqlite/outbound-email-delivery.ts:1048-1090 | registering one more delivery, with a fresh fact and a thread of its own, keeps the invariant of a ledger at work |
| DeliveryTheorems.EveryRunKeepsTheLedger | apps/cloudflare-worker/src/d1-outbound-email-delivery.ts:203-581 | the ledger invariant (attempt numbers 1 to the count, in flight iff exactly the current attempt is open, unknown count equals attempts landed unknown, version tied to attempts and open attempt, evidence mirrored in facts, pointers and gap-free history) holds in every state of every interleaving from any ledger that satisfies it |
| DeliveryTheorems.RequestsAreDetermined | apps/cloudflare-worker/src/d1-outbound-email-delivery.ts:203-581 | all four requests are guard-determined although no guard names the version; all but the completion also in their value |
| DeliveryTheorems.EveryRunIsSerial | apps/cloudflare-worker/src/d1-outbound-email-delivery.ts:203-581 | ledger runs are serial in commit order |
| DeliveryTheorems.SettledForever | apps/cloudflare-worker/src/d1-outbound-email-delivery.ts:224-254 | an accepted, terminally rejected or exhausted delivery's row never changes again in any run |
| DeliveryTheorems.SettledRefusesClaimsAndStarts | apps/cloudflare-worker/src/d1-outbound-email-delivery.ts:328-349 | no claim or start commits on such a delivery |
| DeliveryTheorems.AtMostOneAcceptedAttempt | apps/cloudflare-worker/src/d1-outbound-email-delivery.ts:469-533 | at most one attempt per delivery is accepted and at most one is open |
| DeliveryTheorems.LateCompletionOnlyAddsEvidence | apps/cloudflare-worker/src/d1-outbound-email-delivery.ts:429-581 | a completion whose claim no longer holds the lease changes no head and no attempt and appends one fact, one pointer and one history row that refer to each other |
| DeliveryTheorems.UnfencedCompletionReturnsTheCommittedHead | apps/cloudflare-worker/src/d1-outbound-email-delivery.ts:464-579 | a completion whose claim holds the lease resolves exactly its attempt and returns exactly the head it committed |
| DeliveryFencing.FencedHeadMayBeStale | apps/cloudflare-worker/src/d1-outbound-email-delivery.ts:464-467 | while the delivery is not settled a claim commits between read and batch, the late batch still goes through, and the head it returns is not the stored one |
| DeliveryFencing.FencedHeadIsCurrentExactlyWhenSettled | apps/cloudflare-worker/src/d1-outbound-email-delivery.ts:464-467 | a fenced completion returns the stored head at every state it may still commit at exactly when the head it read was settled |
| DeliveryTheorems.AttemptNumbersAreExact | apps/cloudflare-worker/src/d1-outbound-email-delivery.ts:351-393 | a number is used by an attempt of a delivery exactly when it is between 1 and the attempt count |
| DeliveryTheorems.ThreadHasNoGap | apps/cloudflare-worker/src/d1-outbound-email-delivery.ts:458-566 | a thread's sequence numbers are exactly 0 up to its length |
| DeliveryTheorems.ThreadIsInOrder | apps/cloudflare-worker/src/d1-outbound-email-delivery.ts:458-566 | they rise in insertion order |
| DeliveryRounds.StartLosesTheBoundExactlyWhen | packages/communications/src/delivery/model.ts:197-204 | for a start that commits while the delivery is still within its allowance of two: some run after it, without further such starts, takes the delivery past two unknowns exactly when an outcome was unknown and the provider is natively idempotent |
| DeliveryBounds.UnknownsAreAtMostTwoAndTheEscapes | apps/cloudflare-worker/src/d1-outbound-email-delivery.ts:328-349 | from a delivery's registration on, in a ledger at work and in any run, at most two of its attempts land unknown, plus one for each committed start of it that goes unmarked through a natively idempotent provider after an unknown |
| DeliveryBounds.AtMostTwoUnknowns | apps/cloudflare-worker/src/d1-outbound-email-delivery.ts:328-349 | without such starts of this delivery, whatever happens to others and before, at most two attempts land unknown, and after the second nothing more is sent |
| DeliveryTheorems.StartCommitsExactlyWhenAcceptable | apps/cloudflare-worker/src/d1-outbound-email-delivery.ts:286-393 | in a sound ledger a start that runs alone commits exactly when its stated preconditions hold and its clock is not before the delivery's |
| DeliveryRounds.NativeKeyRetriesAreUnbounded | packages/communications/src/delivery/model.ts:197-204 | through a natively idempotent provider a further round of claim, start and lost answer always goes through and ends where the next can begin |
| OutboundDelivery.PromiseKept | apps/cloudflare-worker/src/d1-outbound-email-delivery.ts:203-581 | whatever the reads saw, a committed request did to head, attempts, facts, pointers and history what is spelled out for it column by column -- the lease and its end, the attempt with its number, kind and envelope, the resolution, the three appended rows -- and showed the caller that |
| OutboundDelivery.WritesShowInTheAnswer | apps/cloudflare-worker/src/d1-outbound-email-delivery.ts:224-284 | the answer tells whether the unit had something to write |
| OutboundDelivery.SessionKeepsItsPromise | apps/cloudflare-worker/src/d1-outbound-email-delivery.ts:203-581 | the same on the journal of the session that ran the request |
| OutboundDelivery.OutboundEmailDeliveryLedger.Read | apps/cloudflare-worker/src/d1-outbound-email-delivery.ts:195-201 | shows the caller the stored head, or none exactly when there is none |
| OutboundDelivery.OutboundEmailDeliveryLedger.Claim | apps/cloudflare-worker/src/d1-outbound-email-delivery.ts:203-256 | beside lawful sessions: nothing of its own, or one batch that leases exactly this head and keeps the ledger sound; the outcome is that of the tries the loop had to make, three at the most |
| OutboundDelivery.OutboundEmailDeliveryLedger.ReleaseClaim | apps/cloudflare-worker/src/d1-outbound-email-delivery.ts:258-284 | the same for releasing a lease it still holds |
| OutboundDelivery.OutboundEmailDeliveryLedger.RecordAttemptStarted | apps/cloudflare-worker/src/d1-outbound-email-delivery.ts:286-393 | the same for opening the next attempt: its number is one more, its envelope the resend's if it is a marked resend and the reviewed one otherwise, the lease ends leaseMs after the start |
| OutboundDelivery.OutboundEmailDeliveryLedger.RecordProviderResolution | apps/cloudflare-worker/src/d1-outbound-email-delivery.ts:395-410 | the same for a provider's answer |
| OutboundDelivery.OutboundEmailDeliveryLedger.RecordBoundaryAmbiguity | apps/cloudflare-worker/src/d1-outbound-email-delivery.ts:412-427 | the same for a lost answer, which always lands unknown |
| OutboundDelivery.ClaimAnswersExactly | apps/cloudflare-worker/src/d1-outbound-email-delivery.ts:203-256 | alone a claim answers not found, held, not claimable or claimed exactly as head, lease and time say, and writes only in the last case |
| OutboundDelivery.ReleaseWritesExactlyWhenHeld | apps/cloudflare-worker/src/d1-outbound-email-delivery.ts:258-284 | alone a release writes exactly when the claim holds the lease and no attempt is open |
| OutboundDelivery.CompletionAnswersExactly | apps/cloudflare-worker/src/d1-outbound-email-delivery.ts:429-470 | alone a completion fails exactly when delivery, receipt or attempt is missing, or its claim holds the lease and the attempt is not the open one |
| DeliveryEnvelopes.EveryRunFitsEnvelopes | apps/cloudflare-worker/src/d1-outbound-email-delivery.ts:338-383 | in every state of every run a marked resend carries an envelope other than the reviewed one and an original carries the reviewed one |
| FileTransfers.RenderedKeysAreDistinct | packages/files/src/blob.ts:59-62 | different intents never render to the same storage key |
| FileTransfers.BeforeIsTheRenderedOrder | packages/files/src/blob.ts:59-62 | keys are ordered as their renderings are |
| FileTheorems.EveryRunIsSound | apps/cloudflare-worker/src/d1-files-http.ts:176-326 | tables, uploads, objects, wakes and pending deletions satisfy the world invariant after any sequence of registrations, uploads, lost answers, late writes, confirmations, attachments, and wakes that start, sweep, list, check, delete, are refused a deletion or end |
| FileTheorems.RunsMoveForward | scripts/prepare-cloudflare-application.ts:77-95 | states, keys, stored contents and resolved attempts only move forward |
| FileTheorems.DoomedKeysAreNeverWanted | apps/cloudflare-worker/src/d1-files-cleanup.ts:40-194 | a key whose deletion a wake has called or that may still land belongs to no pending or stored intent and to no asset, now and in every continuation |
| FileTheorems.StoredBytesSurvive | apps/cloudflare-worker/src/d1-files-cleanup.ts:91-103 | every stored intent and every retained asset finds exactly the object it describes, in every reachable state |
| FileTheorems.AttemptsAreBounded | apps/cloudflare-worker/src/d1-files-http.ts:234-302 | at most five attempts per intent ever, at most one claimed, stored or ambiguous, and a stored intent agrees in size and digest with its stored attempt |
| FileTheorems.AttemptsResolveOnce | scripts/prepare-cloudflare-application.ts:77-95 | an attempt resolves at most once and is never lost |
| FileTheorems.ClaimSucceedsExactlyWhen | apps/cloudflare-worker/src/d1-files-http.ts:241-273 | a claim commits exactly when the snapshot is still the pending head, fewer than five attempts exist, none is effective and the id and clock are usable |
| FileTheorems.FailedClaimIsExplained | apps/cloudflare-worker/src/d1-files-http.ts:274-301 | the answer read after a failed claim is in progress exactly when an attempt is claimed, stored or ambiguous, exhausted exactly when five attempts exist and all were refused; when nothing happened in between an error is rethrown only for a used id or an unusable clock |
| FileTheorems.ConfirmedStrandedForever | apps/cloudflare-worker/src/d1-files-cleanup.ts:91-103 | an unowned object of a confirmed intent whose asset row is gone, and whose deletion is not under way, is condemned in no continuation |
| FileOrigins.RunIsTraced | apps/cloudflare-worker/src/d1-files-http.ts:176-326 | in every reachable world each object was written by an attempt of its intent that is stored, uncertain, or held by a request that has written and not yet said so |
| FilePermanence.PermanentStays | apps/cloudflare-worker/src/d1-files-cleanup.ts:66-103 | an object of a confirmed intent whose assets are all blocked or attached, or that has none, and whose deletion is not under way survives every event |
| FilePermanence.OutOfReachForever | apps/cloudflare-worker/src/d1-files-cleanup.ts:171-174 | an unowned object without a deletion under way is condemned in no continuation if its intent is confirmed, or if no running wake still has it before it, only the listing could condemn it and a thousand permanent objects precede it |
| FileReclamation.Advance | apps/cloudflare-worker/src/d1-files-cleanup.ts:146-187 | with fewer permanent objects before it the object of an unconfirmed intent can be condemned while it is there: the others before it are removed first, each from the page |
| FileReclamation.ReclaimableExactlyWhenWithinReach | apps/cloudflare-worker/src/d1-files-cleanup.ts:105-187 | in every reachable world an unowned object can still be removed by a wake's deletion if and only if a deletion of it is under way, or its intent is not confirmed and a running wake still has it before it, or its bytes are or can still be put on record, or fewer than a thousand permanent objects precede it |
| FileStranding.RefusedDeletionStrands | apps/cloudflare-worker/src/d1-files-cleanup.ts:158-169 | for every intent a run from an empty workspace that sweeps its unattached asset, has the object's deletion refused, and leaves an object that no wake will ever remove |
| FileStranding.FullPageHides | apps/cloudflare-worker/src/d1-files-cleanup.ts:171-174 | for any thousand intents whose keys come before another's, a run that attaches theirs, breaks the other's upload, and leaves its object to no wake although the intent is pending |
| FileStranding.SomePageHides | apps/cloudflare-worker/src/d1-files-cleanup.ts:171-174 | there are such intents, and so such a run |
| FileRuntime.FilesRuntime.UploadBytes | apps/cloudflare-worker/src/d1-files-http.ts:415-495 | response, own batches and object operations are exactly those that the states met, the stream and the answers heard prescribe (`UploadTurn`); a 200 means the bytes are on record, a typed refusal after a claim means the attempt was put back, a 500 after a claim leaves the attempt effective (only a refusal whose answer was lost may be put back), and each refusal without a claim tells what stood in the way |
| FileRuntime.FilesRuntime.ClaimUploadAttempt | apps/cloudflare-worker/src/d1-files-http.ts:234-302 | claimed exactly when the batch goes through on the tables met and its answer is heard; otherwise the refusal read back afterwards |
| FileUndisturbed.UploadIsStored | apps/cloudflare-worker/src/d1-files-http.ts:415-492 | with nothing going on around it and every answer heard, an upload to a pending intent that has not run out, with fewer than five attempts and none effective, is answered 200 with its bytes |
| FileRuntime.FilesRuntime.MoveBytes | packages/files/src/upload.ts:172-334 | the same for everything after a successful claim |
| FileRuntime.FilesRuntime.RefuseBytes | apps/cloudflare-worker/src/d1-files-http.ts:462-469 | a refusal is answered exactly if the attempt was put back and the answer heard; otherwise the request still tracks it |
| FileRuntime.FilesRuntime.Persist | apps/cloudflare-worker/src/d1-files-http.ts:176-232 | tries again after a refused batch and only then, three times at the most; success exactly if one goes through and its answer is heard, and then intent and attempt both record the bytes; failure leaves the attempt unresolved and tracked by its request |
| FileListing.ListedExactlyWhenEarly | apps/cloudflare-worker/src/d1-files-cleanup.ts:171-174 | a key is on the page a wake is given exactly when it is in the store and fewer than a thousand come before it |
| FileRuntime.FilesRuntime.DispatchCleanupWake | apps/cloudflare-worker/src/d1-files-cleanup.ts:111-194 | starts a wake and ends it, having attempted the first hundred due intents and the first hundred assets that were unblocked and unattached for seven days, in time order at the moment of its reads, and the first thousand keys at the moment of its listing, in order; each row is counted, left alone or named as a fault exactly as its batch, its answer and its deletion turn out, and of a counted row the intent is discarded, the asset's row and object are gone for good |
| FileRuntime.FilesRuntime.ExpireOne | apps/cloudflare-worker/src/d1-files-cleanup.ts:146-157 | done exactly if the batch goes through, its answer is heard and, for a stored intent, the deletion is not refused; then the intent is discarded and its object gone |
| FileRuntime.FilesRuntime.DropOne | apps/cloudflare-worker/src/d1-files-cleanup.ts:158-169 | done exactly if the batch goes through, its answer is heard and the deletion is not refused; then the asset row and its object are gone, and no asset has that key |
| FileRuntime.FilesRuntime.ReconcileOne | apps/cloudflare-worker/src/d1-files-cleanup.ts:175-187 | the next listed key is left alone exactly if it is referenced, counted exactly if its deletion is not refused, and then it is gone; an unanswered check or a refused deletion is a fault |
| FileRuntime.FilesRuntime.DeleteOne | apps/cloudflare-worker/src/d1-files-cleanup.ts:146-187 | waits for the deletion its wake has called; success means the object is gone, a refused one is a fault and may still land |
| FileTurns.SelectsTheDue | apps/cloudflare-worker/src/d1-files-cleanup.ts:121-124 | the selected intents are pending or stored and have run out, the earliest first, and one left out runs out no earlier than any of a full hundred |
| FileTurns.SelectsTheStale | apps/cloudflare-worker/src/d1-files-cleanup.ts:125-134 | the selected assets are unblocked, unattached and seven days old, the oldest first, and one left out is no older than any of a full hundred |
| FileTurns.CountedOrFaulty | apps/cloudflare-worker/src/d1-files-cleanup.ts:146-187 | counted and faulty rows together are all selected rows, and at most all listed keys |
| FileUndisturbed.WakeFinishesItsWork | apps/cloudflare-worker/src/d1-files-cleanup.ts:111-194 | with nothing going on around it and every answer heard, a wake counts every selected row, has no fault, and deletes exactly the listed keys that are unreferenced |
| FileRuntime.RefusedExpiryStays | apps/cloudflare-worker/src/d1-files-cleanup.ts:40-62 | an expiry that is refused after its intent was read is refused in every continuation, so that the further tries of its unit change nothing |
| FileRuntime.RefusedRemovalStays | apps/cloudflare-worker/src/d1-files-cleanup.ts:64-89 | the same for the removal of an orphan asset |
| FileAttempts.OthersLeaveMyAttempt | apps/cloudflare-worker/src/d1-files-http.ts:193-203 | no other request, wake or late write changes the attempt row of a request that still tracks it |
| FormReferences.GroupByForm | apps/cloudflare-worker/src/d1-program-vocabulary.ts:284-357 | groups slots by form, keeping their order |
| FormReferences.ExpectedOf | apps/cloudflare-worker/src/d1-program-vocabulary.ts:284-357 | what one head asks for, location by location, or corrupt data |
| FormReferences.ActualOf | apps/cloudflare-worker/src/d1-program-vocabulary.ts:284-357 | what one form's slots say; none only when a location mixes kinds, and then the form does not agree |
| FormReferences.SameWants | apps/cloudflare-worker/src/d1-program-vocabulary.ts:284-357 | the comparison by sizes and containment decides map equality |
| FormReferences.ValidateCurrentFormReferences | apps/cloudflare-worker/src/d1-program-vocabulary.ts:284-357 | the checker accepts exactly the heads and slots that agree: per form and location the same kind and item set, and no slot of an unknown form |
| FormRecords.AgreementRowByRow | apps/cloudflare-worker/src/d1-program-vocabulary.ts:284-357 | heads and slots agree exactly when every slot names, under the right kind, what its form's head mentions -- target, exposed option or the choice of the last rule with its id -- and everything a head mentions, at least one item per exposure and choice, has a slot |
| FormPlan.ParseMergePlan | packages/program/src/domain.ts:341-418 | accepts exactly the coherent plans: one kind, source not target, contributors and reference keys strictly ordered, guards and keys not repeated, every repoint from source to target, every pin on the source |
| FormPlan.AcceptedPlanNamesSlotsOnce | packages/program/src/domain.ts:352-368 | an accepted plan names every slot at most once and moves everything to its one target |
| FormRecords.ReferenceKeysAreDistinct | apps/cloudflare-worker/src/d1-program-vocabulary-merge.ts:247-258 | slots with 36-character ids that are written the same are the same slot |
| FormMerge.MovedSlots | apps/cloudflare-worker/src/d1-program-vocabulary-merge.ts:939-950 | the conditional slot updates give each slot its first repoint's target |
| FormMerge.FormAgreesExactlyWhenConsistent | apps/cloudflare-worker/src/d1-program-vocabulary-merge.ts:851-950 | a rewritten form agrees afterwards exactly when first and last targets agree as sets where the plan touches it |
| FormMerge.MergeKeepsAgreement | apps/cloudflare-worker/src/d1-program-vocabulary-merge.ts:812-957 | every accepted plan keeps heads and index in agreement, also when slots of one location collapse onto one item |
| FormMergeBuffer.GroupPlan | apps/cloudflare-worker/src/d1-program-vocabulary-merge.ts:826-849 | groups the repoints by form, the forms in plan order, or none exactly when one does not fit its slot |
| FormMergeBuffer.NewIdsAt | apps/cloudflare-worker/src/d1-program-vocabulary-merge.ts:895-914 | lists each new item of a location exactly once, in the order of the locale |
| FormMergeBuffer.CheckEntries | apps/cloudflare-worker/src/d1-program-vocabulary-merge.ts:867-894 | accepts exactly when every entry is still mentioned by the running head, and marks exactly the touched fields and rules |
| FormMergeBuffer.RewriteHead | apps/cloudflare-worker/src/d1-program-vocabulary-merge.ts:851-938 | one form's new head rewrites it by its own repoints, or none exactly when one is stale |
| FormMergeBuffer.NewHeadIsOne | apps/cloudflare-worker/src/d1-program-vocabulary-merge.ts:851-938 | the plan determines a form's new head, list orders and time included |
| FormMergeBuffer.BufferIntakeRepoints | apps/cloudflare-worker/src/d1-program-vocabulary-merge.ts:812-957 | refuses exactly the plans that are not current and those with a new head that does not parse; otherwise buffers the one new head per touched form, the slot updates in statement order and the catalog update |
| FormRecords.CurrentRowByRow | apps/cloudflare-worker/src/d1-program-vocabulary-merge.ts:828-905 | a plan is current exactly when each repoint names a stored slot at the version, kind and item it expects, of a form that is not from the future and mentions the old item there, and no target is moved twice |
| FormMergeBuffer.BufferedMergeAgrees | apps/cloudflare-worker/src/d1-program-vocabulary-merge.ts:812-957 | for every accepted plan the checker accepts what the buffered batch leaves behind |
| ProgramSafety.VersionPins | apps/cloudflare-worker/src/d1-schedule-placement-mutation.ts:185-208 | a version guard that holds pins the whole aggregate, rows included |
| ProgramSafety.PlanHolds | apps/cloudflare-worker/src/d1-schedule-placement-mutation.ts:185-208 | guards true at a state make the plan made from older, scattered reads the plan that state itself gives |
| ProgramEffects.VersionedApplies | apps/cloudflare-worker/src/d1-schedule-placement-mutation.ts:337-379 | inserting the version row first or raising it last around a row write has one and the same effect, version plus one |
| ProgramEffects.MergeWrites | apps/cloudflare-worker/src/d1-program-vocabulary-merge.ts:755-1112 | every statement of a merge finds its rows and together they give the merged tables |
| ProgramEffects.UnitCommits | apps/cloudflare-worker/src/d1-session-mutation.ts:312-389 | from any scattered reads, a batch that commits is the one its commit state plans, every statement hits exactly its row, and the tables become the planned after-state, whose rows `ProgramRecords` spells out |
| ProgramRecords.TargetIsResolved | packages/session/src/domain.ts:389-400 | a session gets the requested format, if it is active, and the track it names, if that is active; a draft that names none gets none; past drafting one that names none gets the only active track, none if there is none, and is refused if there are several; with the code of each refusal |
| ProgramRecords.ChecksDecide | apps/cloudflare-worker/src/d1-program-vocabulary-mutation.ts:452-556 | in consistent tables every request is refused with the code of the first of its checks that fails, writing nothing, and is otherwise accepted with the next version |
| ProgramRecords.CommittedRequestStores | apps/cloudflare-worker/src/d1-session-mutation.ts:312-389 | from any scattered reads, a request that commits fails no check at the state it commits at, and stores there exactly its own rows and the next version of its aggregate |
| ProgramTheorems.ReferencesNeverDangle | apps/cloudflare-worker/src/d1-program-vocabulary-mutation.ts:384-391 | under every interleaving of vocabulary delete, placement and session edits all named rooms, formats, tracks and sessions exist |
| ProgramTheorems.RequestIsDetermined | apps/cloudflare-worker/src/d1-program-vocabulary-mutation.ts:452-556 | every program request is guard-determined, value included |
| ProgramTheorems.RunsAreSerial | apps/cloudflare-worker/src/d1-deadline.ts:255-336 | tables and answers of every interleaving of program requests are serial |
| ProgramTheorems.VersionsPinAggregates | apps/cloudflare-worker/src/d1-deadline.ts:255-336 | over whole runs an unchanged version means unchanged rows |
| ProgramRooms.RoomsNeverOverlapExactlyWhen | apps/cloudflare-worker/src/d1-schedule-placement-mutation.ts:311-380 | in every interleaving of any program requests, merges included, occurrences of one room stay disjoint half-open intervals in all states exactly when each room merge that commits finds nothing in its source overlapping anything in its target |
| ProgramRooms.RoomMergeKeepsRoomsFreeExactlyWhen | apps/cloudflare-worker/src/d1-program-vocabulary-merge.ts:959-1000 | a room merge keeps rooms free exactly when nothing in the source overlaps anything in the target |
| ProgramTurns.AcceptedRequestCommits | apps/cloudflare-worker/src/d1-schedule-placement-mutation.ts:288-380 | in consistent tables a request that is accepted and undisturbed goes through to its planned after-state: neither its guards nor a statement refuses it |
| ProgramTurns.TurnsCommit | apps/cloudflare-worker/src/d1-session-mutation.ts:312-389 | any number of requests that take their turns, each accepted where the one before left the tables, all commit |
| ProgramTurns.AMergeOverbooksARoom | apps/cloudflare-worker/src/d1-program-vocabulary-merge.ts:959-1000 | for any two overlapping times, a run of eight accepted requests from an empty event whose last, the room merge, leaves both in one room that was free before |
| ProgramTheorems.MergeConservesUsage | apps/cloudflare-worker/src/d1-program-vocabulary-merge.ts:755-1112 | after a merge the source has no current use, the target has the sum, every other item and every historical pin is unchanged |
| ProgramTheorems.MergeGoesThroughExactlyWhenSessionsResolve | apps/cloudflare-worker/src/d1-program-vocabulary-merge.ts:1013-1031 | a current merge commits exactly when the other part of each moved session is still active |
| ProgramAdapters.ProgramAdapter.OpenHandlerSnapshot | apps/cloudflare-worker/src/d1-schedule-placement-mutation.ts:185-208 | buffers one version guard per aggregate the request depends on |
| ProgramAdapters.ProgramAdapter.Prepare | apps/cloudflare-worker/src/d1-schedule-placement-mutation.ts:242-262 | answers the plan's result and remembers a plan exactly when it writes |
| ProgramAdapters.ProgramAdapter.ApplyDomainContribution | apps/cloudflare-worker/src/d1-schedule-placement-mutation.ts:288-309 | applies exactly the prepared plan, once, and buffers all of it |
| ProgramAdapters.BufferOperation | apps/cloudflare-worker/src/d1-session-mutation.ts:312-389 | a whole operation leaves in a fresh unit exactly the guards and writes of the request's plan if the plan writes, and no writes otherwise |
| UsageCount.UsageCounter.AddReference | apps/cloudflare-worker/src/d1-program-vocabulary.ts:632-645 | counts a reference exactly when its item is known and its key is new, and keeps every item's tally the number of references naming it |
| UsageCount.PartsAreTheHeads | apps/cloudflare-worker/src/d1-program-vocabulary.ts:660-673 | the expected session slots are each head's format and its track, if any, and nothing else |
| UsageCount.CheckOffSlots | apps/cloudflare-worker/src/d1-program-vocabulary.ts:660-693 | accepts exactly when every part of every session head has exactly one slot row naming its item |
| UsageCount.CountUsage | apps/cloudflare-worker/src/d1-program-vocabulary.ts:625-722 | refuses exactly unknown items, repeated keys and disagreeing session slots; otherwise each tally is the number of references to its item |
| UsageCount.TallyIsUsage | apps/cloudflare-worker/src/d1-program-vocabulary.ts:411-443 | the tally of a vocabulary item is its usage over all tables, and it is free to delete exactly when no row and no pin names it |
| RowGuards.CountAndEachDetermineTheTable | apps/cloudflare-worker/src/d1-operator-authority.ts:194-211 | for distinct rows, an equal count and one EXISTS per row hold exactly when the stored rows are the rows read |
| RowGuards.CountAndEveryStoredDetermineTheTable | apps/cloudflare-worker/src/d1-program-vocabulary-merge.ts:606-626 | the JSON form holds exactly when the expected rows are distinct and are the stored rows; it needs no assumption |
| RowGuards.CountOfTheBaseAndEachOfTheJoin | apps/cloudflare-worker/src/d1-operator-authority.ts:232-257 | counting the base table and matching its join holds exactly when every base row joins and the joined rows are those read, without any foreign key |
| ApiKeyGuards.ReadCurrentKeys | apps/cloudflare-worker/src/d1-api-key-mutation.ts:176-300 | fills the map with every key and its scopes, buffers exactly the count and row guards, and refuses exactly more than 10000 rows, a repeated id or a row that is not a sound record |
| ApiKeyGuards.CheckRow | apps/cloudflare-worker/src/d1-api-key-mutation.ts:176-207 | accepts exactly the rows with flags 0 or 1 and one of them set, ordered non-negative times, a positive version and a standing that fits the revocation columns |
| ApiKeyGuards.ReadShowsTheKeys | apps/cloudflare-worker/src/d1-api-key-mutation.ts:223-300 | what was read is every key of the workspace with exactly its scopes, as they stood at the snapshot |
| ApiKeyGuards.GuardsPinTheKeys | apps/cloudflare-worker/src/d1-api-key-mutation.ts:258-298 | the guards hold in exactly the states that have the same keys of the workspace, column by column and scope by scope, although the scope guards omit the workspace |
| ApiKeyGuards.MayAdministerOtherKeys | apps/cloudflare-worker/src/d1-api-key-mutation.ts:327-387 | reading two possibly different states, it decides by denial and grant of the first and roles of the second, and buffers guards that hold only where the same decision would be taken |
| ApiKeyGuards.GuardsPinTheDecision | apps/cloudflare-worker/src/d1-api-key-mutation.ts:360-385 | guards for denied, granted and role count imply the decision, and hold wherever those three are as read |
| ApiKeyRevocation.RevocationCommits | apps/cloudflare-worker/src/d1-api-key-mutation.ts:530-676 | a batch that commits revokes exactly that active key at that version; where it commits the key is the actor's own, or the actor may administer others' keys and gives that reason; the answer is the revoked view |
| ApiKeyRecords.AuthorityIs | apps/cloudflare-worker/src/d1-api-key-mutation.ts:327-360 | authority over others' keys is no workspace-wide denial in force, and a grant in force or an unarchived role in force that carries the permission |
| ApiKeyRecords.CommittedRevocationStores | apps/cloudflare-worker/src/d1-api-key-mutation.ts:154-173 | from any scattered reads, a revocation that commits fails no check at the state it commits at, stores when, by whom and why one version on, leaves the rest of the row, and shows that row column by column under the name its owner was read with |
| ApiKeyRecords.RevocationAnswersExactly | apps/cloudflare-worker/src/d1-api-key-mutation.ts:530-637 | alone on readable keys a revocation is refused with the first check it fails, and otherwise revokes |
| ApiKeyRevocation.RevocationAnswersAsAloneExactlyWhen | apps/cloudflare-worker/src/d1-api-key-mutation.ts:530-637 | a committed revocation would commit the same alone, and would answer the same exactly when the key's owner still has the name that was read |
| ApiKeyRevocation.RevocationIsDetermined | apps/cloudflare-worker/src/d1-api-key-mutation.ts:437-676 | while inserted users keep their names a revocation is guard-determined, whole answer included |
| ApiKeyRevocation.RevocationsAreSerial | apps/cloudflare-worker/src/d1-api-key-mutation.ts:437-676 | in every run of revocations and other guard-determined units the tables are serial in commit order and every committed revocation gave its serial answer |
| ApiKeyRevocation.KeysAreRevokedOnce | packages/persistence/src/sqlite/api-keys.ts:74-90 | in every run a key is revoked by at most one request and its row keeps saying by whom, when and why |
| RoleGuards.GuardRoleRows | apps/cloudflare-worker/src/d1-operator-authority.ts:194-211 | buffers the row count and one guard per joined row, in order |
| RoleGuards.GroupRoleRows | apps/cloudflare-worker/src/d1-operator-authority.ts:225-233 | each role's group is its rows in reading order, and there is no other group |
| RoleGuards.OfRoleSelects | apps/cloudflare-worker/src/d1-operator-authority.ts:225-233 | a group holds exactly the rows of its role |
| RoleGuards.JoinTellsTheRoles | apps/cloudflare-worker/src/d1-operator-authority.ts:218-224 | two states with the same LEFT JOIN rows have the same roles and permissions, and conversely |
| RoleGuards.GuardsPinTheRoles | apps/cloudflare-worker/src/d1-operator-authority.ts:194-211 | the guards hold in exactly the states that have the same roles of the workspace, column by column, with the same permissions |
| RoleGuards.GuardsPinTheAssignments | apps/cloudflare-worker/src/d1-operator-authority.ts:236-258 | the assignment guards hold in exactly the states where the user's assignments all join, and are those read with the same columns, role workspace and event |
| RateLimiter.ExternalApiRateLimitHeads.Consume | apps/cloudflare-worker/src/d1-external-agent-discovery.ts:30-88 | refuses exactly input outside the stated bounds and instants the table cannot hold, leaving the table alone; otherwise moves only its own row and answers by the saturated count |
| RateLimiter.AllowedExactlyAmongTheFirstOfItsWindow | apps/cloudflare-worker/src/d1-external-agent-discovery.ts:48-74 | start, saturated count and version are functions of the requests' times and windows; a request is allowed exactly when it is among the first limit requests since its window opened, and a changed window opens a new one |
| RateLimiter.AnyWindowLengthIsBounded | apps/cloudflare-worker/src/d1-external-agent-discovery.ts:48-78 | with a clock that steps back by at most `back`, any half-open interval of one window allows at most 1 + (limit - 1) x (2 + the whole windows in window - 2 + back) requests, whatever the row held |
| RateLimiter.AnyWindowLengthAllowsFewerThanTwoLimits | apps/cloudflare-worker/src/d1-external-agent-discovery.ts:48-78 | with times that do not step back that is at most 2 x limit - 1 |
| RateLimiter.TheBoundIsReached | apps/cloudflare-worker/src/d1-external-agent-discovery.ts:48-78 | the bound is attained for every window, limit and step back |
| RateLimiter.FewerThanTwoLimitsExactlyWhen | apps/cloudflare-worker/src/d1-external-agent-discovery.ts:54-58 | clocks that step back by at most `back` never allow two limits exactly when the limit is one or `back` is at most one millisecond |
| RateLimiter.AnyClockExactlyWhenTheLimitIsOne | apps/cloudflare-worker/src/d1-external-agent-discovery.ts:54-58 | no clock at all allows two limits exactly when the limit is one |
| RateLimiter.RetryAfterIsExact | apps/cloudflare-worker/src/d1-external-agent-discovery.ts:79-87 | the advertised delay is the least whole number of seconds after which a request is allowed, also when others are refused meanwhile |
| KeysetPaging.SelectHeadsTheTable | apps/cloudflare-worker/src/d1-operation-history.ts:89-99 | the ordered, limited selection is the ordered head of the table |
| KeysetPaging.PageCutsItsRows | apps/cloudflare-worker/src/d1-operation-history.ts:107-133 | a page and its cursor cut the pending rows in two, nothing between them and nothing on both sides |
| KeysetPaging.EveryInitialRowIsListedOnce | apps/cloudflare-worker/src/d1-operation-history.ts:73-137 | following cursors over a growing table lists every initial row exactly once and nothing twice, in order |
| KeysetPaging.WalkEndsOnAFixedTable | apps/cloudflare-worker/src/d1-operation-history.ts:73-137 | on a fixed table the walk ends, has listed exactly the table, and took exactly as many pages as the limit requires |
| KeysetPaging.FilteringLosesNoMatch | apps/cloudflare-worker/src/d1-communication-delivery-history.ts:286-302 | with the filter applied after the limit, an initial row is shown exactly once if it matches when its page is read and not at all otherwise |
| HistoryOrder.BothOrdersAreStrictAndTotal | apps/cloudflare-worker/src/d1-communication-delivery-history.ts:283-285 | each history's order is strict and total: the newer row first, and of two of one time the larger id in the one, the smaller in the other |
| OperationHistory.List | apps/cloudflare-worker/src/d1-operation-history.ts:59-133 | refuses exactly a wrong workspace or a view that does not fit the event; otherwise answers the newest rows of that view that are older than the cursor, in falling time and id, and a cursor exactly when older ones are left |
| OperationHistory.EveryOperationIsListedOnce | apps/cloudflare-worker/src/d1-operation-history.ts:59-137 | a finished walk of a view lists every operation present at its start once and none twice while operations are being logged |
| DeliveryHistory.MatchingItems | apps/cloudflare-worker/src/d1-communication-delivery-history.ts:286-290 | the items of the page in the asked-for state, in page order |
| DeliveryHistory.ListDeliveryHistory | apps/cloudflare-worker/src/d1-communication-delivery-history.ts:242-304 | refuses exactly a wrong workspace or an undecodable cursor; otherwise, of the newest selected sends past the cursor, in falling time and rising id, those in the asked-for state, with the next cursor of the unfiltered page |
| DeliveryHistory.EverySendIsShownExactlyWhenItMatches | apps/cloudflare-worker/src/d1-communication-delivery-history.ts:242-304 | a send selected at the start of a finished walk is shown exactly once if in the asked-for state when its page is read, and not otherwise |

## Left out

- One workspace and one event at a time: scope columns are dropped where every statement carries the same scope.
- Ids, batch ids and secrets are drawn once per request, not per attempt; a fresh id is an input.
- Digests, HMAC, canonical JSON, schema parsing and encryption: values are compared directly, and corrupt stored rows are not modelled except where a reader decides on them.
- Authority, context and event preconditions at the top of each adapter, and the read projections built from their results.
- Digest guards on the session catalog and row guards beside the version guards of a merge: the model's guards are weaker there, so its theorems need less; RowGuards treats the JSON row guards on their own.
- Registration of deliveries is not an event of a ledger run, since no statement of the worker registers one; `OneMoreRegistered` lets a run start from a ledger at work. Registration of upload intents beyond the rows it inserts; other writers of forms.
- The replay lookup before an effect starts, and delivery of freshly minted API key secrets after commit; what the autonomy preflight evaluates is a parameter.
- Session lifecycle transitions and rosters beyond the ones that change format, track or roster; schedule breaks, which the adapter refuses.
- Merge drafts and compensation; the publish step is modelled.
- FormMergeBuffer.NewIdsAt: the locale's comparison of ids is a parameter, taken to be a strict total order; the schema of a form head is a parameter too.
- FileRuntime.FilesRuntime.UploadBytes: authority and the check that the uploader owns the intent come before it and are left out; the further tries of a late discard, which change nothing, are one.
- FileRuntime.FilesRuntime.DispatchCleanupWake: the further tries of an expiry or a removal, which change nothing, are one; the two queries and the listing are inputs described by exactly what they select; that R2 lists keys in binary order is taken from its documentation.
- FileReclamation.ReclaimableExactlyWhenWithinReach: "can ever" quantifies over what requests, clocks and answers may still do; that each wake takes the oldest hundred rows first, and when they expire, only delays it.
- FileTheorems.EveryRunIsSound: a crash is a batch or object operation whose answer is never seen; the upload stream is summarised by what it leaves in the store.
- RateLimiter.ExternalApiRateLimitHeads.Consume: integers are exact; the source's division by 1000 in floating point agrees for every delay a valid window can produce.
- DeliveryHistory.ListDeliveryHistory: the derivation of a send's state from its delivery heads is an input, evaluated per page.
- RoleGuards.GuardsPinTheAssignments: covers assignments; overrides are guarded in the same shape and are not repeated.
- ApiKeyGuards.ReadCurrentKeys: the formats of ids, instants, hash, hint and names are a parameter; ApiKeyRevocation takes them of the stored row and not of the owner's name.
- Creation and rotation of API keys, and the operation log around a revocation, which OperationBoundary models for any operation.
- HTTP transports, headers, routes, runtime wiring, configuration and the other workers.
