/** The shared assignment-ledger state machine: which record may follow a prefix, and what it changes.

    The state falls into five parts that one record advances in lockstep; most records touch one part. */
module LedgerValidator {
  import opened Options
  import opened LedgerRecords

  /** Phase, execution, owner control and cancellation requests. */
  datatype Life = Life(
    phase: Phase,
    ref: Option<ExecutionRef>,
    started: bool,
    control: Option<Control>,
    aborts: map<AbortKey, AbortInfo>,
    proofAccepted: bool,
    settlement: Option<Settlement>)
  {
    predicate IsJob() { ref.Some? && ref.value.JobRef? }

    predicate Active() { phase.StartedPhase? && aborts == map[] }

    predicate HasTicketAbort() {
      exists key :: key in aborts && key.TicketKey?
    }
  }

  datatype Talk = Talk(requested: set<RequestId>, pending: set<RequestId>)

  datatype MirrorCheckpoint = MirrorCheckpoint(ordinal: nat, digest: MirrorChain)

  /** The mirror chain: results and sediments numbered in order, and those the owner has not confirmed. */
  datatype Mirror = Mirror(
    unmirrored: map<nat, MirrorCheckpoint>,
    finishedCount: nat,
    digest: MirrorChain,
    mirroredOrdinal: nat,
    mirroredUpTo: nat)

  /** The projection of a job's interactions into its output stream. */
  datatype Stream = Stream(
    enabledAfter: Option<nat>,
    projectedUpTo: nat,
    lastStreamSeq: nat,
    digest: Option<Payload>,
    lastFinishedSeq: nat,
    lastProjectionSeq: Option<nat>,
    lastProjectionDigest: Option<Chain>,
    unprojected: set<nat>)
  {
    predicate NeedsProof() {
      enabledAfter.Some? && lastFinishedSeq > enabledAfter.value
    }
  }

  datatype Work = Work(
    stagedCount: nat,
    mutationIds: set<RequestId>,
    sedimentCount: nat,
    effectCount: nat,
    openEffects: set<nat>)

  datatype Validation = Validation(
    assignment: AssignmentId,
    lastSeq: nat,
    chain: Chain,
    life: Life,
    talk: Talk,
    mirror: Mirror,
    stream: Stream,
    work: Work)
  {
    /** No interaction, mirror, projection or side-effect duty is outstanding. */
    predicate Clean() {
      && talk.pending == {}
      && mirror.unmirrored == map[]
      && stream.unprojected == {}
      && work.openEffects == {}
    }
  }

  function Create(id: AssignmentId): Validation {
    Validation(id, 0, ChainSeed(id),
               Life(Unknown, None, false, None, map[], false, None),
               Talk({}, {}),
               Mirror(map[], 0, MirrorSeed(id), 0, 0),
               Stream(None, 0, 0, None, 0, None, None, {}),
               Work(0, {}, 0, 0, {}))
  }

  // ---------------------------------------------------------------- admission

  /** A channel grant must bind the job, assignment and request it answers; a job takes no other answer. */
  predicate OutcomeAdmitted(v: Validation, id: RequestId, outcome: InteractionOutcome) {
    match outcome
    case Answered(Some(grant), _) =>
      v.life.IsJob() && grant.ref == v.life.ref.value && grant.assignment == v.assignment && grant.request == id
    case Answered(None, _) => !v.life.IsJob()
    case _ => true
  }

  /** The checkpoints an owner receipt for `ordinal` releases. */
  function Released(unmirrored: map<nat, MirrorCheckpoint>, ordinal: nat): set<nat> {
    set s | s in unmirrored && unmirrored[s].ordinal <= ordinal
  }

  predicate MirrorAdmitted(m: Mirror, upTo: nat, ordinal: nat, digest: MirrorChain) {
    && upTo > m.mirroredUpTo
    && ordinal > m.mirroredOrdinal
    && upTo in m.unmirrored
    && m.unmirrored[upTo] == MirrorCheckpoint(ordinal, digest)
    && |Released(m.unmirrored, ordinal)| == ordinal - m.mirroredOrdinal
  }

  predicate ProjectionAdmitted(v: Validation, assignment: AssignmentId, upTo: nat, lastStreamSeq: nat) {
    && v.life.IsJob()
    && v.stream.enabledAfter.Some?
    && assignment == v.assignment
    && upTo > v.stream.projectedUpTo
    && upTo <= v.lastSeq
    && upTo in v.stream.unprojected
    && lastStreamSeq > v.stream.lastStreamSeq
  }

  /** A cancellation proof closes exactly the prefix it names, and only a clean one. */
  predicate HaltAdmitted(v: Validation, proof: CancelProof) {
    && proof.cause.Key() in v.life.aborts
    && (proof.cause.AbortTicket? ==> v.life.aborts[proof.cause.Key()].principal == proof.cause.principal)
    && (match proof.decision
        case NotStarted => !v.life.started && (v.life.phase.Unknown? || v.life.phase.ReceivedPhase?)
        case Halted(lastEffectSeq) =>
          v.life.started && v.life.phase.StartedPhase? && lastEffectSeq == v.work.effectCount)
    && v.Clean()
    && proof.assignment == v.assignment
    && proof.lastRecordSeq == v.lastSeq
    && proof.digest == v.chain
  }

  predicate ProofBinds(v: Validation, proof: StreamProof, ticket: int) {
    && TicketKey(ticket) in v.life.aborts
    && proof.assignment == v.assignment
    && proof.ticket == ticket
    && proof.sourceLastSeq == v.life.aborts[TicketKey(ticket)].recordSeq
    && proof.sourceDigest == v.life.aborts[TicketKey(ticket)].digest
    && proof.target == v.stream.lastFinishedSeq
    && v.stream.lastProjectionSeq == Some(proof.projectedRecordSeq)
    && proof.upTo == v.stream.projectedUpTo
    && proof.lastStreamSeq == v.stream.lastStreamSeq
    && v.stream.digest == Some(proof.streamDigest)
    && v.stream.lastProjectionDigest == Some(proof.ledgerDigest)
  }

  predicate SettlementAdmitted(v: Validation, s: Settlement) {
    && v.life.IsJob()
    && v.life.phase.StartedPhase?
    && TicketKey(s.ticket) in v.life.aborts
    && !v.life.proofAccepted
    && v.life.settlement.None?
    && v.talk.pending == {}
    && v.mirror.unmirrored == map[]
    && v.work.openEffects != {}
    && s.assignment == v.assignment
    && match s
       case SettlementV1(_, _) => v.stream.enabledAfter.None?
       case SettlementV2(_, ticket, proof) =>
         if v.stream.NeedsProof()
         then v.stream.unprojected == {} && proof.Some? && ProofBinds(v, proof.value, ticket)
         else proof.None? && v.stream.enabledAfter.Some?
  }

  predicate RenewalAdmitted(life: Life, c: Control) {
    life.control.Some? ==>
      && life.control.value.authority == c.authority
      && life.control.value.owner == c.owner
      && life.control.value.leaseId == c.leaseId
      && c.renewalSeq > life.control.value.renewalSeq
  }

  predicate AbortAdmitted(life: Life, a: Abort) {
    && (life.phase.Unknown? || life.phase.ReceivedPhase? || life.phase.StartedPhase?)
    && (if a.key.FenceKey? then life.control.Some? else life.ref.Some?)
    && a.key !in life.aborts
  }

  /** Whether `body` may be the next record after the prefix summarised by `v`. */
  predicate Admitted(v: Validation, body: Record) {
    match body
    case Received(ref, owner, _) =>
      v.life.phase.Unknown? && v.life.aborts == map[] && v.life.control.Some? &&
      v.life.control.value.authority == ref && v.life.control.value.owner == owner
    case DispatchRejected(_, _) => v.life.phase.Unknown? && v.life.aborts == map[] && v.life.control.Some?
    case ControlLeaseRenewed(c) => RenewalAdmitted(v.life, c)
    case SupersedeFenced(_) =>
      (v.life.phase.Unknown? || v.life.phase.ReceivedPhase?) && v.life.aborts == map[] && v.life.control.Some?
    case Started => v.life.phase.ReceivedPhase? && v.life.aborts == map[]
    case StreamProjectionEnabled(upTo) => v.life.IsJob() && v.stream.enabledAfter.None? && upTo == v.lastSeq
    case InteractionRequested(id, _) => v.life.Active() && id !in v.talk.requested
    case InteractionFinished(id, outcome) => id in v.talk.pending && OutcomeAdmitted(v, id, outcome)
    case TrustSediment(ordinal, _) => v.life.Active() && ordinal == v.work.sedimentCount + 1
    case StagedMutation(s) =>
      v.life.Active() && s.position == v.work.stagedCount + 1 && s.requestId !in v.work.mutationIds
    case SideEffectStarted(e, _) => v.life.Active() && e == v.work.effectCount + 1
    case SideEffectCompleted(e, _) => e in v.work.openEffects
    case AbortRequested(a) => AbortAdmitted(v.life, a)
    case HaltedRecord(proof) => HaltAdmitted(v, proof)
    case CancelProofOwnerAccepted =>
      v.life.ref.Some? && v.life.phase.HaltedPhase? && !v.life.proofAccepted && v.life.HasTicketAbort()
    case SettlementOwnerAccepted(s) => SettlementAdmitted(v, s)
    case ExecutionFailed(_) => v.life.Active() && v.Clean()
    case BundleSealed(_, _) => v.life.Active() && v.Clean()
    case Acked(_) => v.life.phase.SealedPhase?
    case Mirrored(upTo, ordinal, digest) => MirrorAdmitted(v.mirror, upTo, ordinal, digest)
    case StreamProjected(assignment, upTo, lastStreamSeq, _) => ProjectionAdmitted(v, assignment, upTo, lastStreamSeq)
  }

  // ---------------------------------------------------------------- effects, part by part

  /** `s` and `chain` are the sequence and digest of the record itself. */
  function LifeAfter(life: Life, s: nat, chain: Chain, body: Record): Life {
    match body
    case Received(ref, _, _) => life.(phase := ReceivedPhase, ref := Some(ref))
    case DispatchRejected(_, _) => life.(phase := RejectedPhase)
    case ControlLeaseRenewed(c) => life.(control := Some(c))
    case SupersedeFenced(_) => life.(phase := FencedPhase)
    case Started => life.(phase := StartedPhase, started := true)
    case AbortRequested(a) => life.(aborts := life.aborts[a.key := AbortInfo(a.principal, s, chain)])
    case HaltedRecord(_) => life.(phase := HaltedPhase)
    case CancelProofOwnerAccepted => life.(proofAccepted := true)
    case SettlementOwnerAccepted(settlement) => life.(settlement := Some(settlement))
    case ExecutionFailed(_) => life.(phase := FailedPhase)
    case BundleSealed(_, _) => life.(phase := SealedPhase)
    case Acked(_) => life.(phase := AckedPhase)
    case _ => life
  }

  function TalkAfter(talk: Talk, body: Record): Talk {
    match body
    case InteractionRequested(id, _) => Talk(talk.requested + {id}, talk.pending + {id})
    case InteractionFinished(id, _) => talk.(pending := talk.pending - {id})
    case _ => talk
  }

  /** What a record contributes to the mirror chain, if anything. */
  function MirrorBodyOf(body: Record): Option<MirrorBody> {
    match body
    case InteractionFinished(id, outcome) => Some(FinishedBody(id, outcome))
    case TrustSediment(ordinal, fact) => Some(SedimentBody(ordinal, fact))
    case _ => None
  }

  /** Appends an item to the mirror chain as record `s`. */
  function Extend(m: Mirror, s: nat, item: MirrorBody): Mirror {
    var ordinal := m.finishedCount + 1;
    var digest := MirrorStep(m.digest, ordinal, s, item);
    m.(finishedCount := ordinal, digest := digest, unmirrored := m.unmirrored[s := MirrorCheckpoint(ordinal, digest)])
  }

  /** Takes an owner receipt for everything up to `ordinal`. */
  function Release(m: Mirror, upTo: nat, ordinal: nat): Mirror {
    m.(unmirrored := m.unmirrored - Released(m.unmirrored, ordinal), mirroredOrdinal := ordinal, mirroredUpTo := upTo)
  }

  function MirrorAfter(m: Mirror, s: nat, body: Record): Mirror {
    if body.Mirrored? then Release(m, body.upTo, body.mirrorOrdinal)
    else if MirrorBodyOf(body).Some? then Extend(m, s, MirrorBodyOf(body).value)
    else m
  }

  function StreamAfter(st: Stream, s: nat, chain: Chain, body: Record): Stream {
    match body
    case StreamProjectionEnabled(upTo) => st.(enabledAfter := Some(upTo), projectedUpTo := upTo)
    case InteractionFinished(_, _) =>
      st.(lastFinishedSeq := s,
          unprojected :=
            if st.enabledAfter.Some? && s > st.enabledAfter.value then st.unprojected + {s} else st.unprojected)
    case StreamProjected(_, upTo, lastStreamSeq, digest) =>
      Stream(st.enabledAfter, upTo, lastStreamSeq, Some(digest), st.lastFinishedSeq, Some(s), Some(chain),
             set u | u in st.unprojected && u > upTo)
    case _ => st
  }

  function WorkAfter(w: Work, body: Record): Work {
    match body
    case TrustSediment(ordinal, _) => w.(sedimentCount := ordinal)
    case StagedMutation(s) => w.(stagedCount := s.position, mutationIds := w.mutationIds + {s.requestId})
    case SideEffectStarted(e, _) => w.(effectCount := e, openEffects := w.openEffects + {e})
    case SideEffectCompleted(e, _) => w.(openEffects := w.openEffects - {e})
    case _ => w
  }

  function Commit(v: Validation, body: Record): Validation {
    var s := v.lastSeq + 1;
    var chain := ChainStep(v.chain, s, body);
    Validation(v.assignment, s, chain,
               LifeAfter(v.life, s, chain, body),
               TalkAfter(v.talk, body),
               MirrorAfter(v.mirror, s, body),
               StreamAfter(v.stream, s, chain, body),
               WorkAfter(v.work, body))
  }

  function Advance(v: Validation, body: Record): Option<Validation> {
    if Admitted(v, body) then Some(Commit(v, body)) else None
  }
}
