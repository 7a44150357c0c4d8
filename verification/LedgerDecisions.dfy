/** The ledger's decision methods: each reads the projection at a locked prefix and either refuses, replies
    without writing, or appends records in one commit. */
module LedgerDecisions {
  import opened Options
  import opened LedgerRecords
  import opened LedgerProjection
  import opened LedgerHistory

  datatype Answer =
    | Done
    | Flag(yes: bool)
    | Accepted
    | Conflict(received: Receipt)
    | RejectedAt(rejection: Rejection)
    | FenceDecision(started: bool, at: Position)
    | EffectNumber(effectSeq: nat)
    | RequestDisposition(recordSeq: nat, accepted: bool, display: Payload)
    | Result(item: MirrorItem)
    | ResultAt(resultSeq: nat, ordinal: nat, digest: MirrorChain)
    | SedimentAt(sedimentOrdinal: nat, sedimentSeq: nat)
    | Watermark(after: Option<nat>)
    | StillPending(waiting: seq<Requested>)
    | Closed(count: nat)
    | StagedAt(staged: Staged)
    | AbortProgress(haltProof: Option<CancelProof>, ready: bool)
    | Proof(proof: Option<CancelProof>)
    | Failure(failure: Option<Payload>)
    | Outcome(outcome: Option<InteractionOutcome>)
    | Awaiting(requests: seq<Requested>)
    | Mirrors(previous: MirrorChain, items: seq<MirrorItem>)
    | Overlay(mutations: seq<Staged>)

  datatype Decision =
    | Refused
    | Reply(answer: Answer)
    | Append(bodies: seq<Record>, answer: Answer)

  /** A frame the job stream stored for an interaction record, as its writer reports it. */
  datatype FrameReceipt = FrameReceipt(recordSeq: nat, frameSeq: nat, isResult: bool)

  // ---------------------------------------------------------------- dispatch and control

  /** `refusal` is the capability, runtime, permission or resource error found for a fresh dispatch, if any. */
  function Dispatch(p: Projection, ref: ExecutionRef, owner: DeviceId, envelope: Payload, dispatch: Payload,
      refusal: Option<Payload>): Decision {
    if p.status.fencedAt.Some? || p.status.aborts != [] || p.status.halted.Some? then Refused
    else if p.status.rejection.Some? then Reply(RejectedAt(p.status.rejection.value))
    else if p.status.received.Some? then
      if p.status.received.value.envelope == envelope then Reply(Accepted) else Reply(Conflict(p.status.received.value))
    else if refusal.Some? then AppendRejection(p, dispatch, refusal.value)
    else Append([Received(ref, owner, envelope)], Accepted)
  }

  function AppendRejection(p: Projection, dispatch: Payload, reason: Payload): Decision {
    var body := DispatchRejected(dispatch, reason);
    var s := p.v.lastSeq + 1;
    Append([body], RejectedAt(Rejection(dispatch, reason, s, ChainStep(p.v.chain, s, body))))
  }

  function RejectBeforeReceived(p: Projection, dispatch: Payload, reason: Payload): Decision {
    if p.status.received.Some? then Refused
    else if p.status.rejection.Some? then Reply(RejectedAt(p.status.rejection.value))
    else AppendRejection(p, dispatch, reason)
  }

  /** `sameLease` compares full lease identities, `active` is the lease clock's verdict on the stored lease. */
  function RenewControl(p: Projection, offered: Control, sameLease: bool, active: bool, reclaimed: bool): Decision {
    match p.v.life.control
    case None =>
      if p.v.life.ref.Some? && p.v.life.ref.value != offered.authority then Refused
      else Append([ControlLeaseRenewed(offered)], Flag(true))
    case Some(current) =>
      if current.authority != offered.authority || current.owner != offered.owner
         || current.leaseId != offered.leaseId then Refused
      else if offered.renewalSeq < current.renewalSeq then Refused
      else if offered.renewalSeq == current.renewalSeq then
        if sameLease then Reply(Flag(active)) else Refused
      else if reclaimed then Refused
      else Append([ControlLeaseRenewed(offered)], Flag(true))
  }

  function Supersede(p: Projection, fence: Fence): Decision {
    var phase := p.v.life.phase;
    if p.status.fencedAt.Some? then
      var at := p.status.fencedAt.value;
      if at.fence == fence then Reply(FenceDecision(false, Position(at.recordSeq, at.digest))) else Refused
    else if p.status.startedAt.Some? then Reply(FenceDecision(true, p.status.startedAt.value))
    else if phase.RejectedPhase? || phase.HaltedPhase? || phase.FailedPhase? then Refused
    else if p.status.aborts != [] then Refused
    else
      var s := p.v.lastSeq + 1;
      Append([SupersedeFenced(fence)],
             FenceDecision(false, Position(s, ChainStep(p.v.chain, s, SupersedeFenced(fence)))))
  }

  function Start(p: Projection): Decision {
    var phase := p.v.life.phase;
    if p.status.aborts != [] || p.status.fencedAt.Some? then Refused
    else if phase.ReceivedPhase? then Append([Started], Flag(true))
    else if phase.StartedPhase? || phase.FailedPhase? || phase.SealedPhase? || phase.AckedPhase? then Reply(Flag(false))
    else Refused
  }

  /** Only a started assignment without a recorded cancellation may begin new work. */
  predicate Running(p: Projection) { p.v.life.phase.StartedPhase? && p.status.aborts == [] }

  // ---------------------------------------------------------------- side effects and staged output

  function StartEffect(p: Projection, input: Payload): Decision {
    if !Running(p) then Refused
    else Append([SideEffectStarted(p.v.work.effectCount + 1, input)], EffectNumber(p.v.work.effectCount + 1))
  }

  function CompleteEffect(p: Projection, e: nat, result: Payload): Decision {
    if e !in p.effects then Refused
    else
      match p.effects[e].result
      case Some(known) => if known == result then Reply(Done) else Refused
      case None => Append([SideEffectCompleted(e, result)], Done)
  }

  function StageMutation(p: Projection, id: RequestId, mutation: Payload): Decision {
    if id in p.mutations.byId then
      if p.mutations.byId[id].mutation == mutation then Reply(StagedAt(p.mutations.byId[id])) else Refused
    else if !Running(p) || p.status.received.None? then Refused
    else
      var staged := Staged(|p.mutations.order| + 1, id, mutation);
      Append([StagedMutation(staged)], StagedAt(staged))
  }

  // ---------------------------------------------------------------- interactions

  function RequestInteraction(p: Projection, id: RequestId, request: RequestBody, maxPending: nat): Decision {
    if id in p.requests.requested then
      var known := p.requests.requested[id];
      if known.body != request then Refused
      else
        var turnedAway :=
          id in p.requests.finished && p.requests.finished[id].body == FinishedBody(id, Cancelled(ByBackpressure));
        Reply(RequestDisposition(known.recordSeq, !turnedAway, known.body.display))
    else if !Running(p) then Refused
    else
      var asked := InteractionRequested(id, request);
      if |p.requests.pending| >= maxPending
      then Append([asked, InteractionFinished(id, Cancelled(ByBackpressure))],
                  RequestDisposition(p.v.lastSeq + 1, false, request.display))
      else Append([asked], RequestDisposition(p.v.lastSeq + 1, true, request.display))
  }

  /** A channel grant must be signed by the job's owner and bind this job, assignment, request and display. */
  predicate MayAnswer(p: Projection, requested: Requested, outcome: InteractionOutcome) {
    outcome.Answered? && outcome.grant.Some? ==>
      && p.v.life.IsJob()
      && p.status.received.Some?
      && outcome.grant.value ==
           Grant(p.v.life.ref.value, p.v.assignment, requested.id, p.status.received.value.owner,
                 requested.body.display)
  }

  function FinishInteraction(p: Projection, id: RequestId, outcome: InteractionOutcome): Decision {
    if id !in p.requests.requested || !MayAnswer(p, p.requests.requested[id], outcome) then Refused
    else if id in p.requests.finished then
      if p.requests.finished[id].body == FinishedBody(id, outcome) then Reply(Result(p.requests.finished[id]))
      else Refused
    else if p.status.aborts != [] then Refused
    else
      var ordinal, s := p.mirrors.Count() + 1, p.v.lastSeq + 1;
      Append([InteractionFinished(id, outcome)],
             ResultAt(s, ordinal, MirrorStep(p.v.mirror.digest, ordinal, s, FinishedBody(id, outcome))))
  }

  function RecordSediment(p: Projection, fact: Payload): Decision {
    if !Running(p) then Refused
    else Append([TrustSediment(p.v.work.sedimentCount + 1, fact)],
                SedimentAt(p.v.work.sedimentCount + 1, p.v.lastSeq + 1))
  }

  /** Results for the given requests, in order. */
  function Finishes(rs: seq<Requested>, outcome: InteractionOutcome): (bodies: seq<Record>)
    ensures |bodies| == |rs|
    ensures forall i :: 0 <= i < |rs| ==> bodies[i] == InteractionFinished(rs[i].id, outcome)
  {
    if rs == [] then [] else [InteractionFinished(rs[0].id, outcome)] + Finishes(rs[1..], outcome)
  }

  function Overdue(rs: seq<Requested>, now: Time): seq<Requested> {
    if rs == [] then []
    else if rs[0].body.expiresAt < now then [rs[0]] + Overdue(rs[1..], now)
    else Overdue(rs[1..], now)
  }

  function InTime(rs: seq<Requested>, now: Time): seq<Requested> {
    if rs == [] then []
    else if rs[0].body.expiresAt < now then InTime(rs[1..], now)
    else [rs[0]] + InTime(rs[1..], now)
  }

  function RecoverInteractions(p: Projection, now: Time): Decision {
    var phase := p.v.life.phase;
    var pending := p.requests.pending;
    var terminal := phase.FailedPhase? || phase.SealedPhase? || phase.AckedPhase?;
    if terminal || p.status.aborts != [] then
      var via := if terminal then ByRunEnd
                 else if p.status.aborts[|p.status.aborts| - 1].key.FenceKey? then ByFence else ByTicket;
      if pending == [] then Reply(StillPending([])) else Append(Finishes(pending, Cancelled(via)), StillPending([]))
    else
      var overdue := Overdue(pending, now);
      if overdue == [] then Reply(StillPending(InTime(pending, now)))
      else Append(Finishes(overdue, Expired), StillPending(InTime(pending, now)))
  }

  function CloseForRunEnd(p: Projection): Decision {
    if !Running(p) then Refused
    else if p.requests.pending == [] then Reply(Closed(0))
    else Append(Finishes(p.requests.pending, Cancelled(ByRunEnd)), Closed(|p.requests.pending|))
  }

  // ---------------------------------------------------------------- mirroring and stream projection

  /** The chain item of record `s` and its global index, from the kept suffix or from a look-up. */
  function ChainItem(p: Projection, s: nat): Option<(nat, MirrorItem)> {
    match p.mirrors.Find(s)
    case Some(i) => Some((p.mirrors.base + i, p.mirrors.order[i]))
    case None =>
      if s in p.shortcut.historic && p.shortcut.historic[s].ordinal > 0
      then Some((p.shortcut.historic[s].ordinal - 1, p.shortcut.historic[s])) else None
  }

  function MarkMirrored(p: Projection, upTo: nat, ordinal: nat, digest: MirrorChain): Decision {
    match ChainItem(p, upTo)
    case None => Refused
    case Some((index, item)) =>
      if item.ordinal != ordinal || item.digest != digest || ordinal != index + 1 then Refused
      else if ordinal <= p.v.mirror.mirroredOrdinal then Reply(Done)
      else Append([Mirrored(upTo, ordinal, digest)], Done)
  }

  function EnableProjection(p: Projection): Decision {
    if !p.v.life.IsJob() then Reply(Watermark(None))
    else if p.v.stream.enabledAfter.Some? then Reply(Watermark(p.v.stream.enabledAfter))
    else Append([StreamProjectionEnabled(p.v.lastSeq)], Watermark(Some(p.v.lastSeq)))
  }

  /** The interaction record sequences in `(after, upTo]` that the projection knows. */
  function InteractionSeqs(rq: Requests, after: nat, upTo: nat): set<nat> {
    (set id | id in rq.requested && after < rq.requested[id].recordSeq <= upTo :: rq.requested[id].recordSeq)
    + (set id | id in rq.finished && after < rq.finished[id].recordSeq <= upTo :: rq.finished[id].recordSeq)
  }

  /** Receipts arrive in strictly increasing record and frame order, and the checkpoint covers the last frame. */
  predicate WellOrdered(receipts: seq<FrameReceipt>, lastStreamSeq: nat) {
    && (forall i, j :: 0 <= i < j < |receipts| ==>
          receipts[i].recordSeq < receipts[j].recordSeq && receipts[i].frameSeq < receipts[j].frameSeq)
    && (forall i :: 0 <= i < |receipts| ==> receipts[i].recordSeq > 0 && receipts[i].frameSeq > 0)
    && (receipts != [] ==> lastStreamSeq >= receipts[|receipts| - 1].frameSeq)
  }

  function LastResult(receipts: seq<FrameReceipt>): Option<nat> {
    if receipts == [] then None
    else if receipts[|receipts| - 1].isResult then Some(receipts[|receipts| - 1].recordSeq)
    else LastResult(receipts[..|receipts| - 1])
  }

  function MarkProjected(p: Projection, receipts: seq<FrameReceipt>, lastStreamSeq: nat, head: Payload): Decision {
    if receipts == [] then Reply(Done)
    else if !WellOrdered(receipts, lastStreamSeq) then Refused
    else if !p.v.life.IsJob() || p.v.stream.enabledAfter.None? then Refused
    else
      match LastResult(receipts)
      case None => Reply(Done)
      case Some(upTo) =>
        var after := p.v.stream.projectedUpTo;
        if upTo < after then Refused
        else if upTo == after then
          if lastStreamSeq == p.v.stream.lastStreamSeq && p.v.stream.digest == Some(head) then Reply(Done) else Refused
        else if (set r | r in receipts && after < r.recordSeq <= upTo :: r.recordSeq)
                != InteractionSeqs(p.requests, after, upTo) then Refused
        else Append([StreamProjected(p.v.assignment, upTo, lastStreamSeq, head)], Done)
  }

  // ---------------------------------------------------------------- endings

  /** `binds` says whether the bundle's own fields name this assignment, executor and execution. */
  function Seal(p: Projection, bundle: Payload, binds: bool, batch: Option<seq<Staged>>): Decision {
    var phase := p.v.life.phase;
    var sealed := BundleSealed(bundle, batch);
    if phase.FailedPhase? || phase.SealedPhase? || phase.AckedPhase? then
      if p.status.sealed == Some(sealed) then Reply(Done) else Refused
    else if !Running(p) || p.HasOpenEffect() || p.HasPendingObligations() || p.status.received.None? || !binds
    then Refused
    else if batch != (if p.mutations.order == [] then None else Some(p.mutations.order)) then Refused
    else Append([sealed], Done)
  }

  function Acknowledge(p: Projection, revision: nat): Decision {
    if p.v.life.phase.AckedPhase? then
      if p.status.acked == Some(revision) then Reply(Done) else Refused
    else if !p.v.life.phase.SealedPhase? then Refused
    else Append([Acked(revision)], Done)
  }

  function Fail(p: Projection, failure: Payload): Decision {
    var phase := p.v.life.phase;
    if phase.FailedPhase? then
      if p.status.failure == Some(failure) then Reply(Failure(Some(failure))) else Refused
    else if phase.HaltedPhase? || phase.SealedPhase? || phase.AckedPhase? then Reply(Failure(None))
    else if !Running(p) || p.HasPendingObligations() || p.HasOpenEffect() then Refused
    else Append([ExecutionFailed(failure)], Failure(Some(failure)))
  }

  /** The authority a cancellation acts under; `scope` is the owner grant's own. */
  function AbortAuthority(p: Projection, cause: AbortCause, scope: ExecutionRef): Option<ExecutionRef> {
    if cause.AbortTicket? then p.v.life.ref
    else if p.v.life.ref.Some? && p.v.life.ref.value != scope then None
    else Some(scope)
  }

  predicate HasAbort(p: Projection, key: AbortKey) {
    exists a :: a in p.status.aborts && a.key == key
  }

  predicate Ended(p: Projection) {
    || p.v.life.phase.FailedPhase? || p.v.life.phase.SealedPhase? || p.v.life.phase.AckedPhase?
    || p.v.life.phase.RejectedPhase? || p.status.fencedAt.Some?
  }

  function AbortOf(cause: AbortCause): Abort {
    Abort(cause.Key(), if cause.AbortTicket? then cause.principal else 0)
  }

  function RequestAbort(p: Projection, cause: AbortCause, scope: ExecutionRef): Decision {
    if p.status.halted.Some? then Reply(AbortProgress(p.status.halted, false))
    else if Ended(p) then Reply(AbortProgress(None, false))
    else if AbortAuthority(p, cause, scope).None? then Refused
    else
      var bodies := (if HasAbort(p, cause.Key()) then [] else [AbortRequested(AbortOf(cause))])
        + Finishes(p.requests.pending, Cancelled(if cause.OwnerFence? then ByFence else ByTicket));
      var ready := !p.HasOpenEffect() && !p.HasPendingObligations();
      if bodies == [] then Reply(AbortProgress(None, ready)) else Append(bodies, AbortProgress(None, ready))
  }

  function CompleteAbort(p: Projection, cause: AbortCause, scope: ExecutionRef, usage: Payload,
      reclaimed: bool): Decision {
    if p.status.halted.Some? then Reply(Proof(p.status.halted))
    else if Ended(p) || reclaimed then Reply(Proof(None))
    else if AbortAuthority(p, cause, scope).None? then Refused
    else if !HasAbort(p, cause.Key()) || p.HasOpenEffect() || p.HasPendingObligations() then Reply(Proof(None))
    else
      var proof := CancelProof(p.v.assignment, AbortAuthority(p, cause, scope).value, cause,
                               if p.status.startedAt.Some? then Halted(p.v.work.effectCount) else NotStarted,
                               p.v.lastSeq, p.v.chain, usage);
      Append([HaltedRecord(proof)], Proof(Some(proof)))
  }

  /** `v2` says whether this executor writes version-2 records. */
  function MarkProofAccepted(p: Projection, v2: bool): Decision {
    if p.v.life.proofAccepted then Reply(Flag(true))
    else if p.status.received.None? || p.status.halted.None?
            || !(exists a :: a in p.status.aborts && a.key.TicketKey?) then Refused
    else if !v2 && p.v.stream.enabledAfter.None? then Reply(Flag(false))
    else Append([CancelProofOwnerAccepted], Flag(true))
  }

  // ---------------------------------------------------------------- queries

  function JobOutcome(p: Projection, id: RequestId): Decision {
    if !p.v.life.IsJob() || id !in p.requests.requested then Refused else Reply(Outcome(OutcomeOf(p, id)))
  }

  function ConversationOutcome(p: Projection, id: RequestId): Decision {
    if p.v.life.ref.None? || p.v.life.IsJob() || id !in p.requests.requested then Refused
    else Reply(Outcome(OutcomeOf(p, id)))
  }

  function OutcomeOf(p: Projection, id: RequestId): Option<InteractionOutcome> {
    if id in p.requests.finished && p.requests.finished[id].body.FinishedBody?
    then Some(p.requests.finished[id].body.outcome) else None
  }

  /** At most `limit` unmirrored items, oldest first; `limit` stands for the batch's entry and byte bounds. */
  function PendingMirrors(p: Projection, limit: nat): Decision {
    var from := p.mirrors.mirroredCount - p.mirrors.base;
    if from < 0 || from > |p.mirrors.order| then Refused
    else
      var all := p.mirrors.order[from..];
      Reply(Mirrors(p.mirrors.mirroredDigest, if |all| <= limit then all else all[..limit]))
  }

  // ---------------------------------------------------------------- all of them

  datatype Command =
    | DoDispatch(ref: ExecutionRef, owner: DeviceId, envelope: Payload, dispatch: Payload, refusal: Option<Payload>)
    | DoReject(dispatch: Payload, reason: Payload)
    | DoRenew(offered: Control, sameLease: bool, active: bool, reclaimed: bool)
    | DoSupersede(fence: Fence)
    | DoStart
    | DoStartEffect(input: Payload)
    | DoCompleteEffect(effectSeq: nat, result: Payload)
    | DoStage(id: RequestId, mutation: Payload)
    | DoRequest(id: RequestId, request: RequestBody, maxPending: nat)
    | DoFinish(id: RequestId, outcome: InteractionOutcome)
    | DoSediment(fact: Payload)
    | DoRecover(now: Time)
    | DoClose
    | DoMarkMirrored(upTo: nat, ordinal: nat, digest: MirrorChain)
    | DoEnable
    | DoMarkProjected(receipts: seq<FrameReceipt>, lastStreamSeq: nat, head: Payload)
    | DoSeal(bundle: Payload, binds: bool, batch: Option<seq<Staged>>)
    | DoAcknowledge(revision: nat)
    | DoFail(failure: Payload)
    | DoRequestAbort(cause: AbortCause, scope: ExecutionRef)
    | DoCompleteAbort(cause: AbortCause, scope: ExecutionRef, usage: Payload, reclaimed: bool)
    | DoMarkProof(v2: bool)
    | AskJobOutcome(id: RequestId)
    | AskConversationOutcome(id: RequestId)
    | AskPendingRequests
    | AskPendingMirrors(limit: nat)
    | AskOverlay
    | AskOpenEffects

  /** The completed history a decision declares that it reads. */
  function NeedsOf(c: Command): Needs {
    match c
    case DoCompleteEffect(e, _) => Needs({}, {e}, {})
    case DoRequest(id, _, _) => Needs({id}, {}, {})
    case DoFinish(id, _) => Needs({id}, {}, {})
    case DoMarkMirrored(upTo, _, _) => Needs({}, {}, {upTo})
    case AskJobOutcome(id) => Needs({id}, {}, {})
    case AskConversationOutcome(id) => Needs({id}, {}, {})
    case _ => Needs({}, {}, {})
  }

  function Decide(p: Projection, c: Command): Decision {
    match c
    case DoDispatch(ref, owner, envelope, dispatch, refusal) => Dispatch(p, ref, owner, envelope, dispatch, refusal)
    case DoReject(dispatch, reason) => RejectBeforeReceived(p, dispatch, reason)
    case DoRenew(offered, sameLease, active, reclaimed) => RenewControl(p, offered, sameLease, active, reclaimed)
    case DoSupersede(fence) => Supersede(p, fence)
    case DoStart => Start(p)
    case DoStartEffect(input) => StartEffect(p, input)
    case DoCompleteEffect(e, result) => CompleteEffect(p, e, result)
    case DoStage(id, mutation) => StageMutation(p, id, mutation)
    case DoRequest(id, request, maxPending) => RequestInteraction(p, id, request, maxPending)
    case DoFinish(id, outcome) => FinishInteraction(p, id, outcome)
    case DoSediment(fact) => RecordSediment(p, fact)
    case DoRecover(now) => RecoverInteractions(p, now)
    case DoClose => CloseForRunEnd(p)
    case DoMarkMirrored(upTo, ordinal, digest) => MarkMirrored(p, upTo, ordinal, digest)
    case DoEnable => EnableProjection(p)
    case DoMarkProjected(receipts, lastStreamSeq, head) => MarkProjected(p, receipts, lastStreamSeq, head)
    case DoSeal(bundle, binds, batch) => Seal(p, bundle, binds, batch)
    case DoAcknowledge(revision) => Acknowledge(p, revision)
    case DoFail(failure) => Fail(p, failure)
    case DoRequestAbort(cause, scope) => RequestAbort(p, cause, scope)
    case DoCompleteAbort(cause, scope, usage, reclaimed) => CompleteAbort(p, cause, scope, usage, reclaimed)
    case DoMarkProof(v2) => MarkProofAccepted(p, v2)
    case AskJobOutcome(id) => JobOutcome(p, id)
    case AskConversationOutcome(id) => ConversationOutcome(p, id)
    case AskPendingRequests => Reply(Awaiting(p.requests.pending))
    case AskPendingMirrors(limit) => PendingMirrors(p, limit)
    case AskOverlay => Reply(Overlay(p.mutations.order))
    case AskOpenEffects => Reply(Flag(p.HasOpenEffect()))
  }
}
