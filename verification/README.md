# Durable assignment machinery of the zhixing executor, in Dafny

An executor runs assignments for their owners and must survive crashes, restarts, lost responses and clock
rollback. This project models the machinery that makes that work and proves what it keeps:

- **Assignment ledger** (`Ledger*.dfy`): the shared record validator, the executor's projection, every decision
  method, the recovery shortcut that drops completed history and looks single keys up again, legacy history pages,
  endings, cancellation and settlement. `LedgerCell.dfy` holds the projection as mutable state.
- **Incremental indexes** (`JobRecovery.dfy`, `RecoveryDirectory.dfy`, `BindingCache.dfy`), and the history pages of
  assignments older than the keyed index (`LegacyHistory.dfy`, `LegacyAgreement.dfy`).
- **Stream spool** (`Spool*.dfy`): the record reducer, the operations, artifact accounting (`SpoolCell.dfy` as
  mutable state), capacity, delivery and reclamation. `InteractionStream.dfy` couples it with the ledger.
- **Lease clock** (`LeaseClock.dfy`), **permission snapshot catalog** (`SnapshotCatalog.dfy`) and the pull-based
  **line reader** (`TextLines.dfy`).

How the model reads the code:

- Identifiers and canonicalised payloads are compared for equality only, so they are integers. A digest is injective
  and is modelled by what it digests; signatures and schema checks have already passed.
- One transaction is one atomic step; a restart drops volatile fields; a file is written or removed atomically.
- The shared validator is modelled from `packages/core/src/protocol/assignment.ts`. Its phase, control and projection
  watermarks are kept once; the executor's copies of them are asserted equal by the code after every record.
- Lookups that the code serves from a map beside a list (`finishedIndexBySeq`) are searches of the list.
- A stream consumer's key determines its kind. A job's only owner relay is the one bound to the job's own execution,
  so the relay is one key.
- The order in which JavaScript maps are iterated is a parameter (`DecisionSnapshot`) or an arbitrary order
  (`SpoolDecisions.Ordered`, `Recover`).
- Wall time, monotonic time, commit time, resource-governor verdicts, lease activity and the projector's frame metadata
  (the same on every retry) are parameters.

Main results, by theorem:

| result | theorem |
|---|---|
| decisions from the shortened state equal decisions from full replay | `LedgerRefinement.ShortcutRefinesReplay`, `LedgerAgreement.DecisionsSurviveShortcut` |
| so do those of assignments that live on legacy pages, over every executor life | `LegacyAgreement.LegacyRefinesReplay`, `LegacyDecisionsSurvive` |
| what a decision appends, the validator accepts, with exact exceptions | `LedgerAcceptance.DecisionAccepted` |
| however many records follow, repeating a committed command appends nothing and gets its answer | `LedgerRetries.RetriesAnswered` |
| one clean ending; cancellation makes progress and proves the exact prefix | `LedgerEndings.OneEnding`, `EndedForGood`, `EndedClean`, `DutiesNeverGrow`, `CancellationHalts` |
| incremental rows equal full replay, dropped rows stay irrelevant | `JobRecovery.JobIndexExact`, `TombstoneForever`, `RecoveryDirectory.DirectoryExact` |
| the spool never corrupts, leaks, overflows, stalls on surface readers or loses frames | `SpoolRuns.ReachableGood`, `RunsNeverCorrupt`, `SpoolSafety.ProducerNotStalled`, `SpoolRuns.AcknowledgedWithoutGap`, `ConversationReclaimed` |
| interaction records reach the stream exactly once, in order, with ledger and stream moving between any two steps of the projector | `InteractionStream.ProjectedExactlyOnce` |
| expired leases stay expired | `LeaseClock.ExpiryAbsorbing`, `PermissionNotRevived`, `LeaseEnds` |
| the catalog survives a crash between any two writes | `SnapshotCatalog.History` |
| lines do not depend on chunk boundaries | `TextLines.Drain`, `TextLines.TextLineInput.Next` |

Some statements one might expect are false of the code, and are stated exactly instead. Not everything a decision
appends is accepted. `LedgerWitnesses.dfy` gives a replayable ledger for each case: an early rejection although the ledger
is already superseded (`RejectionAfterFenceRefused`), dispatching, superseding or fencing without a recorded control lease
(`UncontrolledRefused`; the code's entry points record control first), answering a job's request from a surface (`SurfaceAnswerRefused`), marking a projection whose
checkpoint did not advance (`StaleCheckpointRefused`) and completing a ticket cancellation under another principal
(`ForeignPrincipalRefused`). `DecisionAccepted` says for each command when the append is accepted, if and only if, in terms
its caller can see (`CallerEnsures`). A set reclamation timer does not mean that a job can be reclaimed: revoking the owner
relay of an armed job does not disarm the timer, and its reclamation is refused while an interaction is open
(`RevokedRelayBlocksReclaim`; `RevokedRelayReached` gives the run from a fresh spool; exact condition in
`JobReclaimedIff`).

## Model

| member | source | states |
|---|---|---|
| LedgerCoherence.AdmittedNeverCorrupt | packages/executor/src/assignment-ledger.ts:5693-5831 | a record is folded if and only if the shared validator admits it: none of the projection's own "corrupt ledger" errors can follow admission |
| LedgerCoherence.ReplayCoherent | packages/core/src/protocol/assignment.ts:1232-1683 | along every replayable log, projection and validator agree on requests, results, mirror chain, effects, stream projection, status, aborts and mutations |
| LedgerCoherence.MirrorsStep | packages/executor/src/assignment-ledger.ts:5741-5784 | results, sediments and owner receipts keep the chain numbered and its unmirrored part exactly the validator's |
| LedgerCoherence.StatusStep | packages/core/src/protocol/assignment.ts:1232-1330 | each phase implies exactly its projected fact (receipt, rejection, start, fence, proof, failure, seal, acknowledgement) |
| LedgerProjection.IndexOf | packages/executor/src/assignment-ledger.ts:5809-5818 | finds the chain item of a record sequence, or there is none |
| LedgerCell.LedgerState.constructor | packages/executor/src/assignment-ledger.ts:5203-5232 | a new state is the empty projection |
| LedgerCell.LedgerState.ApplyEntry | packages/executor/src/assignment-ledger.ts:5693-5831 | updating the fields in place is one step of the projection, and fails exactly when that step is refused |
| LedgerCell.LedgerState.ApplyInteraction | packages/executor/src/assignment-ledger.ts:5733-5777 | requests, results, sediments and receipts update their maps and lists as the projection does |
| LedgerCell.LedgerState.ApplyWork | packages/executor/src/assignment-ledger.ts:5778-5793 | side effects and staged mutations likewise |
| LedgerCell.LedgerState.Replayed | packages/executor/src/assignment-ledger.ts:4308-4316 | folding a log record by record gives full replay, or fails where it does |
| LedgerCell.DecisionSnapshot | packages/executor/src/assignment-ledger.ts:5024-5064 | the loops over requests and results build the snapshot, with the highest dropped sequence |
| LedgerCell.KeepRequests | packages/executor/src/assignment-ledger.ts:5036-5040 | keeps pending and still-to-project requests and tracks the highest dropped one |
| LedgerCell.KeepResults | packages/executor/src/assignment-ledger.ts:5041-5045 | keeps still-to-project results and tracks the highest dropped one |
| LedgerHistory.IndexMatchesReplay | packages/executor/src/assignment-ledger-index.ts:124-184 | the index is valid for exactly the replayable logs, and its keyed rows hold exactly the facts of full replay |
| LedgerHistory.ReadHistoryAnswers | packages/executor/src/assignment-ledger-index.ts:274-330 | reading the rows of the whole log at an earlier position answers as replaying the log up to there |
| LedgerHistory.RecordExtends | packages/executor/src/assignment-ledger-index.ts:154-184 | every record writes only fresh keys, under its own sequence |
| LedgerRefinement.SnapshotAgrees | packages/executor/src/assignment-ledger.ts:5024-5064 | cutting a (possibly already cut) state keeps its agreement with full replay |
| LedgerRefinement.StepAgrees | packages/executor/src/assignment-ledger.ts:4717-4737 | a cut state takes exactly the records full replay takes and stays in agreement, once the id of a new request was looked up |
| LedgerRefinement.ApplyHistoryAgrees | packages/executor/src/assignment-ledger.ts:4372-4384 | looking keys up never reports corruption, keeps the agreement, and then answers every needed key as full replay would |
| LedgerRefinement.HydrateAgrees | packages/executor/src/assignment-ledger.ts:4452-4498 | so does the look-up through the index rows of the same locked prefix |
| LedgerRefinement.ShortcutRefinesReplay | packages/executor/src/assignment-ledger.ts:4248-4322 | for every record sequence and every mix of cuts and look-ups, the shortened run accepts the same records as full replay and agrees with it |
| LedgerAgreement.SameDecision | packages/executor/src/assignment-ledger.ts:4578-4648 | every decision and query, given the history it declares, returns the same outcome from both states |
| LedgerAgreement.DecisionsSurviveShortcut | packages/executor/src/assignment-ledger.ts:4600-4613 | at any point of any such run, hydrating a command's needs and deciding gives full replay's decision |
| LedgerAgreement.InteractionSeqsAgree | packages/executor/src/assignment-ledger.ts:5302-5315 | the interaction records still to be projected are the same in both states |
| LedgerAgreement.StreamEventsComplete | packages/executor/src/assignment-ledger.ts:1848-1857 | memory lists all events after a position unless the omitted mark lies above it |
| LedgerAcceptance.GuardsReadValidator | packages/executor/src/assignment-ledger.ts:5234-5243 | the executor's guards (no open effect, no pending obligation, running) are the validator's clean and active conditions |
| LedgerAcceptance.FinishesAccepted | packages/executor/src/assignment-ledger.ts:2489-2517 | finishing any list of distinct pending requests in one commit is accepted and removes exactly them |
| LedgerAcceptance.OverdueIsPart | packages/executor/src/assignment-ledger.ts:2422-2430 | recovery expires exactly the overdue pending requests and leaves the others pending |
| LedgerAcceptance.ReleasedCount | packages/core/src/protocol/assignment.ts:1627-1650 | a mirror receipt releases as many items as the ordinals it advances over |
| LedgerAcceptance.AbortAccepted | packages/executor/src/assignment-ledger.ts:3799-3896 | a cancellation's batch is accepted iff its authority is on record, and leaves no pending request |
| LedgerAcceptance.CompletionAccepted | packages/executor/src/assignment-ledger.ts:3898-3983 | a halted proof is accepted iff a ticket names its recorded principal |
| LedgerAcceptance.ProjectedAccepted | packages/executor/src/assignment-ledger.ts:2235-2342 | a projection mark is accepted iff it names a recorded result and its checkpoint advanced |
| LedgerAcceptance.DispatchAccepted | packages/executor/src/assignment-ledger.ts:3551-3600 | dispatch, early rejection, renewal and supersession are accepted exactly under the listed conditions |
| LedgerAcceptance.CleanEndingAccepted | packages/executor/src/assignment-ledger.ts:3430-3522 | a seal or failure that passes the guards is always accepted |
| LedgerAcceptance.DecisionAccepted | packages/executor/src/assignment-ledger.ts:4612-4622 | from every replayable ledger, what any decision appends is accepted exactly when its caller's condition holds |
| LedgerRetries.RetriesAnswered | packages/executor/src/assignment-ledger.ts:1613-1753 | once a command is committed, then after every continuation of the ledger repeating it appends nothing and is told what the first call was, or is refused if it asks to go on with an assignment withdrawn since |
| LedgerRetries.RequestCommitted | packages/executor/src/assignment-ledger.ts:1643-1672 | a committed request is on record under its sequence; at the bound it is turned away in the same commit and nothing else becomes pending |
| LedgerRetries.FinishCommitted | packages/executor/src/assignment-ledger.ts:1706-1741 | a repeated result returns the chain item with the promised sequence, ordinal and digest |
| LedgerRetries.FinishStays | packages/executor/src/assignment-ledger.ts:1706-1741 | and still does as long as requests, results and the receipt are kept |
| LedgerRetries.TurnedAwayByRecord | packages/executor/src/assignment-ledger.ts:1643-1672 | a request that was taken on is told so until a later record turns it away |
| LedgerRetries.StepRecords | packages/executor/src/assignment-ledger.ts:5693-5831 | every later record leaves the recorded receipt, rejection, start, fence, proof, failure, seal and acknowledgement in place |
| LedgerRetries.StepKeepsChain | packages/executor/src/assignment-ledger.ts:5741-5784 | no later record moves a chain item or takes an owner receipt back |
| LedgerRetries.OutcomeReadBack | packages/executor/src/assignment-ledger.ts:1786-1829 | the outcome query of the right execution kind returns a committed result, the other kind refuses |
| LedgerRetries.MirrorBatchShape | packages/executor/src/assignment-ledger.ts:6174-6205 | a mirror batch is the run of items right after the last mirrored one, empty only if nothing waits |
| LedgerRetries.MirrorBatchSettled | packages/executor/src/assignment-ledger.ts:2134-2180 | a receipt for the batch's last item is taken by decision and validator alike |
| LedgerEndings.EndedForGood | packages/executor/src/assignment-ledger.ts:1399-1523 | once over, the phase never changes except from sealed to acknowledged |
| LedgerEndings.OneEnding | packages/executor/src/assignment-ledger.ts:3430-3549 | no log holds two of rejected, fenced, halted, failed and sealed |
| LedgerEndings.EndedClean | packages/executor/src/assignment-ledger.ts:5234-5243 | an assignment that is not running has no pending request, nothing unmirrored or unprojected and no open effect |
| LedgerEndings.DecisionsKeepEnding | packages/executor/src/assignment-ledger.ts:3799-4049 | no decision on an ended assignment reopens it or gives it a new duty |
| LedgerEndings.CancellingStep | packages/core/src/protocol/assignment.ts:1335-1683 | while cancelling no record adds a duty, and completing, mirroring and projecting each remove one |
| LedgerEndings.DutiesNeverGrow | packages/executor/src/assignment-ledger.ts:3799-3983 | from the cancelling commit on, open effects, unmirrored items and unprojected results together never grow |
| LedgerEndings.AbortStartsCancelling | packages/executor/src/assignment-ledger.ts:3846-3876 | pending requests are empty in the commit that records the cancellation |
| LedgerEndings.ChainFollowsLog | packages/core/src/protocol/assignment.ts:1232-1260 | the ledger digest is the digest chain of the whole log |
| LedgerEndings.CancellationHalts | packages/executor/src/assignment-ledger.ts:3898-3983 | with no duty left, continuing writes one halted proof whose sequence and digest are exactly the preceding prefix |
| LedgerWitnesses.RejectionAfterFenceRefused | packages/executor/src/assignment-ledger.ts:3556-3571 | a superseded ledger on which an early rejection is decided but refused |
| LedgerWitnesses.UncontrolledRefused | packages/core/src/protocol/assignment.ts:1258-1311 | on an empty ledger, every dispatch, supersession and owner fence is decided but refused |
| LedgerWitnesses.SurfaceAnswerRefused | packages/executor/src/assignment-ledger.ts:1706-1741 | a job whose request is answered without a grant: decided but refused |
| LedgerWitnesses.StaleCheckpointRefused | packages/executor/src/assignment-ledger.ts:2235-2342 | a job whose second result is marked under the first one's checkpoint: decided but refused |
| LedgerWitnesses.ForeignPrincipalRefused | packages/executor/src/assignment-ledger.ts:3898-3983 | a cancellation completed in the name of another principal: decided but refused |
| LedgerSettlement.SettlementAccepted | packages/executor/src/assignment-ledger.ts:2348-2402 | the settlement an executor derives from its prefix is accepted exactly for a started job with only an open effect left |
| JobRecovery.RowFollows | packages/executor/src/assignment-ledger.ts:5434-5508 | each record moves the row's phase, counters, watermarks and flags with the ledger |
| JobRecovery.JobIndexExact | packages/executor/src/assignment-ledger.ts:5636-5654 | after every run of commits the listed execution, cancellation and interaction flags equal those of full replay |
| JobRecovery.SettleExact | packages/executor/src/assignment-ledger.ts:5630-5663 | a row is dropped only when its job can never owe anything again |
| JobRecovery.TombstoneForever | packages/executor/src/assignment-ledger.ts:5522-5541 | a dropped row stays dropped, and full replay never finds an obligation again |
| JobRecovery.FoldEnvelope | packages/executor/src/assignment-ledger.ts:5379-5510 | the loop over an envelope folds each touched row once, in record order |
| JobRecovery.ReduceEnvelope | packages/executor/src/assignment-ledger.ts:5374-5543 | the reducer settles exactly the touched rows and leaves all others |
| JobRecovery.EnvelopeIsCommit | packages/executor/src/assignment-ledger.ts:5386-5404 | inside a shared envelope each row moves as if its records came alone |
| RecoveryDirectory.StateFollowsLog | packages/executor/src/assignment-ledger-index.ts:124-147 | the stored state is the index of all committed records, or corrupt for good |
| RecoveryDirectory.DirectoryExact | packages/executor/src/assignment-ledger-index.ts:78-122 | the directory lists exactly the corrupt assignments and the conversations one of the three queries selects |
| RecoveryDirectory.CandidateIffQueried | packages/executor/src/assignment-ledger-index.ts:190-202 | the candidate test is the union of the three recovery queries for conversations |
| RecoveryDirectory.ClassificationFaithful | packages/executor/src/assignment-ledger-index.ts:342-383 | filtering by the stored class selects exactly what the full-state condition selects |
| RecoveryDirectory.EnvelopeFaithful | packages/executor/src/assignment-ledger-index.ts:107-119 | a dispatch reference kept in a row is the one the assignment was received with |
| RecoveryDirectory.AdvanceIndexed | packages/executor/src/assignment-ledger-index.ts:124-147 | the loop over a commit's records computes the new state and rows, or marks the assignment corrupt |
| LegacyHistory.PageCount | packages/executor/src/assignment-ledger.ts:5102-5103 | enough pages for the keys, at least one, and not one too many |
| LegacyHistory.RequestOnOnePage | packages/executor/src/assignment-ledger.ts:5093-5128 | a request and its result lie on exactly one page, within the count |
| LegacyHistory.EffectOnOnePage | packages/executor/src/assignment-ledger.ts:5119-5124 | so do a side effect's start and end |
| LegacyHistory.MirrorItemOnOnePage | packages/executor/src/assignment-ledger.ts:5125-5125 | so does a chain item |
| LegacyHistory.ReadPages | packages/executor/src/assignment-ledger.ts:4390-4430 | the look-up fails iff a needed page is missing or mismatched; otherwise it answers every needed key as the covered prefix and as the home pages do |
| LegacyHistory.PageFactsCover | packages/executor/src/assignment-ledger.ts:4397-4425 | the usable home pages of the needed keys answer them as the covered prefix does |
| LegacyHistory.CombinedAnswers | packages/executor/src/assignment-ledger.ts:5151-5171 | rows written since some point, completed by pages covering at least that far, answer at every later position as full replay does |
| LegacyAgreement.LookUpSound | packages/executor/src/assignment-ledger.ts:4376-4384 | a look-up through rows and stored pages is never taken for a corrupt ledger: it makes the needed keys known, or finds a page unusable |
| LegacyAgreement.CatchUpSound | packages/executor/src/assignment-ledger.ts:4280-4305 | cold recovery from a saved state ends in a state that stands for the whole log, or finds a page unusable |
| LegacyAgreement.SaveKeepsInv | packages/executor/src/assignment-ledger.ts:4504-4524 | saving a shortened copy, writing its pages as a new generation where needed, keeps every held and saved state sound |
| LegacyAgreement.LegacyRefinesReplay | packages/executor/src/assignment-ledger.ts:4248-4322 | over records, look-ups, saves that succeed, fall back or are lost, recoveries and restarts, with pages lost or left from other generations, a legacy assignment takes the records full replay takes and agrees with it |
| LegacyAgreement.LegacyDecisionsSurvive | packages/executor/src/assignment-ledger.ts:4600-4613 | at any point of any such life, looking up a command's needs and deciding gives full replay's decision, whatever the stored pages |
| BindingCache.ReuseSound | packages/executor/src/assignment-ledger-index.ts:238-243 | a saved binding without a later record of its assignment equals the recomputed one |
| BindingCache.Recover | packages/executor/src/assignment-ledger.ts:2020-2036 | recovered bindings are exact at positions at or after the saved one, while others append |
| BindingCache.DataPlaneBindings | packages/executor/src/assignment-ledger.ts:1994-2046 | reused bindings are exact at the checked position, all are exact at or after the saved one, and the saved map is sound again |
| BindingCache.ActiveUseStaysClosed | packages/executor/src/assignment-ledger.ts:2059-2066 | over every continuation the observers' binding never changes and closed active use stays closed |
| SpoolInvariants.AddKeepsStore | packages/executor/src/assignment-stream-spool.ts:1926-1950 | storing a frame keeps counts exact and adds exactly its new artifacts' bytes |
| SpoolInvariants.PruneKeepsStore | packages/executor/src/assignment-stream-spool.ts:2037-2065 | pruning moves exactly the unused artifacts to deletion and frees no byte |
| SpoolInvariants.DeleteKeepsStore | packages/executor/src/assignment-stream-spool.ts:2066-2080 | deleting frees exactly the deleted artifacts' bytes |
| SpoolInvariants.StepKeepsInv | packages/executor/src/assignment-stream-spool.ts:1859-2126 | every accepted record keeps frames dense, counts exact, bytes conserved, waterlines ordered and endings consistent |
| SpoolInvariants.WholeStep | packages/executor/src/assignment-stream-spool.ts:2449-2467 | no prune passes an active consumer that was not already behind |
| SpoolState.LowestAck | packages/executor/src/assignment-stream-spool.ts:2463-2466 | the lowest acknowledgement of the active consumers |
| SpoolCell.SpoolStore.constructor | packages/executor/src/assignment-stream-spool.ts:2327-2341 | a new store is empty |
| SpoolCell.SpoolStore.Retain | packages/executor/src/assignment-stream-spool.ts:2545-2560 | one more use, bytes counted from the first |
| SpoolCell.SpoolStore.Release | packages/executor/src/assignment-stream-spool.ts:2562-2569 | one use less, gone with the last |
| SpoolCell.SpoolStore.StoreFrame | packages/executor/src/assignment-stream-spool.ts:1926-1950 | the loop over a frame's artifacts is the reducer's frame step |
| SpoolCell.SpoolStore.Prune | packages/executor/src/assignment-stream-spool.ts:2051-2064 | the loop over retired frames is the reducer's prune step |
| SpoolDecisions.FramesFrom | packages/executor/src/assignment-stream-spool.ts:946-961 | a read returns stored frames in order, in its range |
| SpoolDecisions.OnlyAbsentSkipped | packages/executor/src/assignment-stream-spool.ts:946-961 | up to its last frame it passes over absent sequences only |
| SpoolSafety.NeverCorrupt | packages/executor/src/assignment-stream-spool.ts:551-741 | what open, qualify, revoke, connect, reconcile, drain, append, subscribe, acknowledge, terminal and arming commit is accepted by the reducer |
| SpoolSafety.QualifyAccepted | packages/executor/src/assignment-stream-spool.ts:676-700 | a qualification batch and its disarm record are accepted |
| SpoolSafety.RevokeAccepted | packages/executor/src/assignment-stream-spool.ts:702-741 | a revocation and its prune are accepted |
| SpoolSafety.ReconcileAccepted | packages/executor/src/assignment-stream-spool.ts:1447-1488 | degradations and their prune are accepted |
| SpoolSafety.ReconciledShape | packages/executor/src/assignment-stream-spool.ts:1447-1488 | reconciling degrades exactly the slow surface readers and prunes exactly to the floor that leaves |
| SpoolSafety.AppendAccepted | packages/executor/src/assignment-stream-spool.ts:1295-1440 | a frame and its degradations are accepted, given bracketed interactions and drained deletions |
| SpoolSafety.AcknowledgeAccepted | packages/executor/src/assignment-stream-spool.ts:985-1059 | an acknowledgement, its prune and its arming are accepted |
| SpoolSafety.AcknowledgeLeaves | packages/executor/src/assignment-stream-spool.ts:1014-1052 | after an acknowledgement the prune line is at the retention floor, and the timer is set at the promised time iff the stream became reclaimable |
| SpoolSafety.HalfRemainsFree | packages/executor/src/assignment-stream-spool.ts:2419-2447 | after reconciling, surface readers of a conversation hold at most half the capacity |
| SpoolSafety.ProducerNotStalled | packages/executor/src/assignment-stream-spool.ts:1376-1399 | so an append of at most half the capacity is never refused as full |
| SpoolRuns.CapacityKept | packages/executor/src/assignment-stream-spool.ts:1370-1399 | no operation takes the retained bytes over the capacity |
| SpoolRuns.ReachableGood | packages/executor/src/assignment-stream-spool.ts:1859-2126 | every reachable spool has exact counts, conserved bytes within capacity, dense frames and a safe timer |
| SpoolRuns.RunsNeverCorrupt | packages/executor/src/assignment-stream-spool.ts:895-1094 | in every run from a fresh spool no operation commits what the reducer refuses |
| SpoolRuns.QualifyTimer | packages/executor/src/assignment-stream-spool.ts:684-698 | a qualification that brings in a reader disarms the timer in the same commit |
| SpoolRuns.TimerKept | packages/executor/src/assignment-stream-spool.ts:2091-2124 | every operation keeps "timer set implies terminal and readers done" (for jobs: surface readers) |
| SpoolRuns.ConversationReclaimed | packages/executor/src/assignment-stream-spool.ts:1096-1160 | a due conversation is reclaimed and no active consumer loses an unacknowledged frame |
| SpoolRuns.JobReclaimedIff | packages/executor/src/assignment-stream-spool.ts:2469-2487 | a due job is reclaimed iff its relay acknowledged the final frame or no interaction is open |
| SpoolRuns.RevokedRelayBlocksReclaim | packages/executor/src/assignment-stream-spool.ts:702-741 | revoking the relay of an armed job with an open interaction leaves a timer whose record is refused |
| SpoolWitness.RevokedRelayReached | packages/executor/src/assignment-stream-spool.ts:702-741 | the run from a fresh spool to such a job, and its refused reclamation after the revocation |
| SpoolRuns.WholeNext | packages/executor/src/assignment-stream-spool.ts:2002-2065 | a consumer that can read everything keeps that while qualified and undegraded |
| SpoolRuns.DenseRead | packages/executor/src/assignment-stream-spool.ts:946-961 | where no sequence is absent a read has no gap and makes progress |
| SpoolRuns.ReadIsContiguous | packages/executor/src/assignment-stream-spool.ts:895-961 | at or above the prune line a read starts right after the acknowledgement, has no gap and makes progress |
| SpoolRuns.ReadIsOffered | packages/executor/src/assignment-stream-spool.ts:964-977 | everything a read returns is offered, so it may be acknowledged |
| SpoolRuns.RevokeLeaves | packages/executor/src/assignment-stream-spool.ts:718-741 | a revocation prunes to the floor of the remaining consumers and changes nothing else |
| SpoolRuns.AcknowledgedWithoutGap | packages/executor/src/assignment-stream-spool.ts:895-1059 | across all reconnections, everything acknowledged beyond the start was handed over |
| InteractionStream.ProjectInteractions | packages/executor/src/assignment-interaction-stream.ts:38-79 | of whatever events are listed, the loop appends exactly those past the given position, once and in order, and returns a receipt for the stored frame of each |
| InteractionStream.LoopProjects | packages/executor/src/assignment-interaction-stream.ts:54-78 | the loop over the ledger's events is the projector used in the run theorems |
| InteractionStream.AppendIsTheSpools | packages/executor/src/assignment-stream-spool.ts:1311-1337 | appending an event is the spool's own append: a known source is kept, a new one leaves exactly this tape |
| InteractionStream.NextFits | packages/executor/src/assignment-stream-spool.ts:1951-1964 | the next record to store always fits its request/result bracket |
| InteractionStream.NextKeepsInv | packages/executor/src/assignment-interaction-stream.ts:54-78 | storing the next listed event keeps the stored records a prefix in record order |
| InteractionStream.MoveKeepsInv | packages/cli/src/serve/assignment-interaction-projection.ts:58-78 | so does every single step: a ledger record, another frame, reading the watermark, listing, storing, marking, dying |
| InteractionStream.MarkAccepted | packages/executor/src/assignment-ledger.ts:2235-2342 | whatever came in between, a complete projector's receipts and last checkpoint pass every check and its mark is accepted by the validator |
| InteractionStream.ExactlyOnce | packages/executor/src/assignment-stream-spool.ts:1934-1943 | one frame per interaction record up to the watermark |
| InteractionStream.ProjectedExactlyOnce | packages/executor/src/assignment-interaction-stream.ts:54-78 | from enabling on, with ledger records and other frames between any two steps of any number of projector runs, crashes and marks: exactly one frame per record up to the watermark, in order |
| LeaseClock.AssignmentLeaseClock.constructor | packages/executor/src/assignment-lease-clock.ts:14-17 | starts at wall time |
| LeaseClock.AssignmentLeaseClock.Now | packages/executor/src/assignment-lease-clock.ts:19-28 | the answer is at least the floor, wall time and every earlier answer; a monotonic regression is refused |
| LeaseClock.ReduceClock | packages/executor/src/assignment-lease-clock.ts:86-111 | the reducer loop computes the new summary or refuses the envelope |
| LeaseClock.FrontierNeverFalls | packages/executor/src/assignment-lease-clock.ts:94-111 | the frontier never moves back, activation stays, and an activated clock takes no legacy acceptance |
| LeaseClock.FrontierWritesAccepted | packages/executor/src/assignment-ledger.ts:3720-3724 | no guard or acceptance writes a frontier behind the stored one |
| LeaseClock.FrontierMonotone | packages/executor/src/assignment-ledger.ts:4652-4659 | over any run with restarts the durable frontier never falls |
| LeaseClock.ExpiredIsDead | packages/executor/src/assignment-ledger.ts:3720-3724 | finding a lease expired leaves a frontier at or past its expiry |
| LeaseClock.ExpiryAbsorbing | packages/executor/src/assignment-ledger.ts:3703-3718 | from then on no process finds it active without a renewal |
| LeaseClock.PermissionNotRevived | packages/executor/src/assignment-ledger.ts:4104-4121 | renewing control never revives tool calls whose permission has expired |
| LeaseClock.DurationBound | packages/executor/src/assignment-lease-clock.ts:19-28 | no guard passes once the duration of any lease it looks at, control or permission, has elapsed on the monotonic clock, however wall time moves |
| LeaseClock.LeaseEnds | packages/executor/src/assignment-ledger.ts:3703-3718 | so from the acceptance or any process's first reading on, through any history of restarts |
| LeaseClock.UnexpiredIsActive | packages/executor/src/assignment-ledger.ts:3714-3718 | a guard whose expiry no clock, floor or frontier has reached passes |
| LeaseClock.ReadingShowsStart | packages/executor/src/assignment-ledger.ts:3703-3705 | the first reading of any process shows the start of every lease of its assignment |
| SnapshotCatalog.WriteKeepsInv | packages/cli/src/executor-snapshot-version-store.ts:410-519 | every write in its place keeps the layout and takes nothing back |
| SnapshotCatalog.OneToOne | packages/cli/src/executor-snapshot-version-store.ts:453-470 | version, content and digest are bound one to one |
| SnapshotCatalog.FileTrustRuleSnapshotCatalog.constructor | packages/cli/src/executor-snapshot-version-store.ts:313-317 | a process opens the catalog with an empty cache |
| SnapshotCatalog.FileTrustRuleSnapshotCatalog.Remember | packages/cli/src/executor-snapshot-version-store.ts:579-585 | the cache holds the snapshot, stays within its limit and names only stored snapshots |
| SnapshotCatalog.FileTrustRuleSnapshotCatalog.Load | packages/cli/src/executor-snapshot-version-store.ts:555-569 | a snapshot is found iff it is stored |
| SnapshotCatalog.FileTrustRuleSnapshotCatalog.Link | packages/cli/src/executor-snapshot-version-store.ts:491-519 | never refused; completes the pointers and raises the head iff the version is higher |
| SnapshotCatalog.FileTrustRuleSnapshotCatalog.Prepare | packages/cli/src/executor-snapshot-version-store.ts:410-450 | never refused: a pending intent is rolled forward or dropped, and the consistency checks pass |
| SnapshotCatalog.FileTrustRuleSnapshotCatalog.Install | packages/cli/src/executor-snapshot-version-store.ts:453-488 | refused iff the version or content names another snapshot; otherwise published |
| SnapshotCatalog.FileTrustRuleSnapshotCatalog.Publish | packages/cli/src/executor-snapshot-version-store.ts:334-339 | published, or refused with the conflicting pointer in place |
| SnapshotCatalog.FileTrustRuleSnapshotCatalog.PublishRules | packages/cli/src/executor-snapshot-version-store.ts:341-370 | never refused; known rules return their snapshot, new rules get the next version |
| SnapshotCatalog.FileTrustRuleSnapshotCatalog.Latest | packages/cli/src/executor-snapshot-version-store.ts:380-390 | the stored snapshot of the highest version, or none iff there is none |
| SnapshotCatalog.SettledShape | packages/cli/src/executor-snapshot-version-store.ts:431-448 | with no intent pending, positions are exactly 1..head and no version lies above the head |
| SnapshotCatalog.History | packages/cli/src/executor-snapshot-version-store.ts:410-519 | from an empty catalog, after any mix of operations with a crash between any two writes, the next process prepares, and nothing published was ever taken back |
| TextLines.NextLine | packages/cli/src/text-session-io.ts:42-53 | cutting at the first break agrees with normalising all breaks to LF and splitting |
| TextLines.Scan | packages/cli/src/text-session-io.ts:42-54 | one buffer ends the line, makes it too long, ends the stream or is used up |
| TextLines.Pull | packages/cli/src/text-session-io.ts:34-64 | the loop over buffers delivers the first remaining line, a failure or the end |
| TextLines.TextLineInput.constructor | packages/cli/src/text-session-io.ts:27-33 | nothing read yet, all text remaining |
| TextLines.TextLineInput.Next | packages/cli/src/text-session-io.ts:34-66 | returns the first line of the remaining text and leaves the others, whatever the chunks; after an error it always fails |
| TextLines.TextLineInput.OnError | packages/cli/src/text-session-io.ts:25-25 | an error event makes every later call fail, also if lines are buffered |
| TextLines.Drain | packages/cli/src/text-session-io.ts:10-66 | a session gets the lines of the whole text and fails exactly at the first one over the limit |
| TextLines.RoundTrip | packages/cli/src/text-session-io.ts:42-53 | lines written with any mix of LF, CR and CRLF endings read back as themselves |

## Left out

- Canonical JSON, hashing, signatures, schema validation and artifact closure resolution: digests are injective and checks have passed.
- Dispatch validation (manifest match, runtime binding, permission window, resource receipt): its verdict is the `refusal` parameter.
- Resource governor: receipts, terminal companions and lost-execution retirement; a reclaimed resource is a parameter.
- Envelopes as commit units of the ledger index keyed by log position: rows are keyed by record sequence, and corruption is per commit in the directory only.
- Owner-control authorization of an already expired lease inside `RenewControl`: the clock's verdict is a parameter; the clock itself is modelled separately.
- Ledger evidence pages, historical owner queries and channel or surface answer preparation: reads without state.
- LedgerDecisions.PendingMirrors: the byte bound of a mirror batch is the parameter `limit`.
- LegacyHistory.ReadPages: the per-process page cache is not modelled; it only holds pages of the same generation.
- LegacyAgreement.LegacyRefinesReplay: generations never repeat (they are random identifiers), and whether saved pages were read back is the parameter `saving`.
- BindingCache.Recover: recovers one assignment at a time instead of chunks of 64; a chunk is the case of equal positions.
- InteractionStream.ProjectedExactlyOnce: one projector at a time, as they are serialised per assignment; capacity waits and the final frame are left to the spool.
- SpoolRuns.TimerKept: for jobs the relay is outside the timer invariant, because revoking it does not disarm the timer.
- Deferred consumer restoration, capacity waits, maintenance pressure, orphan cleanup and the tombstone file of the spool.
- Catalog layout conversion, MAC sealing and older formats: an established format-3 layout is assumed.
- Text output, prompts and all other command-line code.
