/** The durable vocabulary of one assignment ledger: records, digests and the small values they carry.

    Identifiers and canonicalised payloads are only ever compared for equality, so they are
  integers here.  A digest is modelled by the value it digests (an injective digest): the
    ledger chain and the mirror chain are lists of what has been folded into them. */
module LedgerRecords {
  import opened Options

  type AssignmentId = nat
  type RequestId = int
  type DeviceId = int
  type Payload = int
  type Time = int

  /** The execution an assignment is bound to; it doubles as the authority epoch of its owner. */
  datatype ExecutionRef =
    | ConversationRef(id: int, epoch: int)
    | JobRef(id: int, epoch: int)

  datatype Phase =
    | Unknown
    | ReceivedPhase
    | RejectedPhase
    | FencedPhase
    | StartedPhase
    | HaltedPhase
    | FailedPhase
    | SealedPhase
    | AckedPhase

  datatype Control = Control(authority: ExecutionRef, owner: DeviceId, leaseId: int, renewalSeq: int)

  datatype Fence = Fence(fenceSeq: int, requestId: RequestId)

  /** Why an assignment is being cancelled; the key of the abort record it leaves behind. */
  datatype AbortCause =
    | OwnerFence(fence: Fence)
    | AbortTicket(ticket: int, principal: int)
  {
    function Key(): AbortKey {
      match this
      case OwnerFence(fence) => FenceKey(fence.requestId)
      case AbortTicket(ticket, _) => TicketKey(ticket)
    }
  }

  datatype AbortKey = FenceKey(requestId: RequestId) | TicketKey(ticket: int)

  datatype Abort = Abort(key: AbortKey, principal: int)

  datatype AbortInfo = AbortInfo(principal: int, recordSeq: nat, digest: Chain)

  datatype CancelVia = ByFence | ByTicket | ByRunEnd | ByBackpressure

  /** A channel grant names the execution, assignment and request it answers. */
  datatype Grant = Grant(ref: ExecutionRef, assignment: AssignmentId, request: RequestId, owner: DeviceId,
                         display: Payload)

  datatype InteractionOutcome =
    | Answered(grant: Option<Grant>, decision: Payload)
    | Cancelled(via: CancelVia)
    | Expired

  datatype RequestBody = RequestBody(display: Payload, expiresAt: Time)

  datatype CancelDecision = NotStarted | Halted(lastEffectSeq: nat)

  datatype CancelProof = CancelProof(
    assignment: AssignmentId,
    authority: ExecutionRef,
    cause: AbortCause,
    decision: CancelDecision,
    lastRecordSeq: nat,
    digest: Chain,
    usage: Payload)

  datatype StreamProof = StreamProof(
    assignment: AssignmentId,
    ticket: int,
    sourceLastSeq: nat,
    sourceDigest: Chain,
    target: nat,
    projectedRecordSeq: nat,
    upTo: nat,
    lastStreamSeq: nat,
    streamDigest: Payload,
    ledgerDigest: Chain)

  /** What the owner accepted when it settled an aborted job's interactions. */
  datatype Settlement =
    | SettlementV1(assignment: AssignmentId, ticket: int)
    | SettlementV2(assignment: AssignmentId, ticket: int, proof: Option<StreamProof>)

  datatype Staged = Staged(position: nat, requestId: RequestId, mutation: Payload)

  datatype Record =
    | Received(ref: ExecutionRef, owner: DeviceId, envelope: Payload)
    | DispatchRejected(dispatch: Payload, reason: Payload)
    | ControlLeaseRenewed(control: Control)
    | SupersedeFenced(fence: Fence)
    | Started
    | StreamProjectionEnabled(legacyUpTo: nat)
    | InteractionRequested(requestId: RequestId, request: RequestBody)
    | InteractionFinished(requestId: RequestId, outcome: InteractionOutcome)
    | TrustSediment(ordinal: nat, fact: Payload)
    | StagedMutation(staged: Staged)
    | SideEffectStarted(effectSeq: nat, input: Payload)
    | SideEffectCompleted(effectSeq: nat, result: Payload)
    | AbortRequested(abort: Abort)
    | HaltedRecord(proof: CancelProof)
    | CancelProofOwnerAccepted
    | SettlementOwnerAccepted(settlement: Settlement)
    | ExecutionFailed(failure: Payload)
    | BundleSealed(bundle: Payload, batch: Option<seq<Staged>>)
    | Acked(revision: nat)
    | Mirrored(upTo: nat, mirrorOrdinal: nat, mirrorDigest: MirrorChain)
    | StreamProjected(assignment: AssignmentId, upToRecordSeq: nat, lastStreamSeq: nat, streamDigest: Payload)

  /** The ledger chain digest after a prefix of records. */
  datatype Chain =
    | ChainSeed(assignment: AssignmentId)
    | ChainStep(previous: Chain, recordSeq: nat, body: Record)

  datatype MirrorBody =
    | FinishedBody(requestId: RequestId, outcome: InteractionOutcome)
    | SedimentBody(sedimentOrdinal: nat, fact: Payload)

  /** The digest shared by interaction results and trust sediments on their way back to the owner. */
  datatype MirrorChain =
    | MirrorSeed(assignment: AssignmentId)
    | MirrorStep(previous: MirrorChain, ordinal: nat, recordSeq: nat, body: MirrorBody)

  /** An item of the mirror chain as the projection keeps it. */
  datatype MirrorItem = MirrorItem(body: MirrorBody, recordSeq: nat, at: Time, ordinal: nat, digest: MirrorChain)

  datatype Requested = Requested(id: RequestId, body: RequestBody, recordSeq: nat)

  /** A committed record together with its commit time. */
  datatype Entry = Entry(body: Record, at: Time)
}
