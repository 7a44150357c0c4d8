/** Settling a cancelled job whose side effects never finished: the request the executor derives from its own
    prefix, and when the validator takes the owner's acceptance of it. */
module LedgerSettlement {
  import opened Options
  import opened LedgerRecords
  import opened LedgerValidator
  import opened LedgerProjection
  import opened LedgerCoherence
  import opened LedgerDecisions
  import opened LedgerAcceptance

  function FirstTicket(aborts: seq<Abort>): Option<int> {
    if aborts == [] then None
    else if aborts[0].key.TicketKey? then Some(aborts[0].key.ticket)
    else FirstTicket(aborts[1..])
  }

  /** The proof that everything to be projected was projected; none while it cannot be derived. */
  function StreamProofOf(p: Projection, ticket: int): Option<StreamProof> {
    var st := p.v.stream;
    if TicketKey(ticket) !in p.v.life.aborts || st.projectedUpTo < st.lastFinishedSeq then None
    else if st.lastProjectionSeq.None? || st.digest.None? || st.lastProjectionDigest.None? then None
    else
      var abort := p.v.life.aborts[TicketKey(ticket)];
      Some(StreamProof(p.v.assignment, ticket, abort.recordSeq, abort.digest, st.lastFinishedSeq,
                       st.lastProjectionSeq.value,
                       st.projectedUpTo, st.lastStreamSeq, st.digest.value, st.lastProjectionDigest.value))
  }

  /** The settlement the executor asks its owner to accept. */
  function SettlementRequest(p: Projection): Option<Settlement> {
    match FirstTicket(p.status.aborts)
    case None => None
    case Some(ticket) =>
      if p.v.stream.enabledAfter.None? then Some(SettlementV1(p.v.assignment, ticket))
      else if !p.v.stream.NeedsProof() then Some(SettlementV2(p.v.assignment, ticket, None))
      else match StreamProofOf(p, ticket)
           case None => None
           case Some(proof) => Some(SettlementV2(p.v.assignment, ticket, Some(proof)))
  }

  /** Records the owner's acceptance of a settlement. */
  function MarkSettlement(p: Projection, s: Settlement, v2: bool): Decision {
    if FirstTicket(p.status.aborts) != Some(s.ticket) || s.assignment != p.v.assignment then Refused
    else if p.v.life.settlement.Some? then
      if p.v.life.settlement.value == s then Reply(Flag(true)) else Refused
    else if !v2 && p.v.stream.enabledAfter.None? then Reply(Flag(false))
    else Append([SettlementOwnerAccepted(s)], Flag(true))
  }

  lemma {:induction false} FirstTicketRecorded(aborts: seq<Abort>)
    ensures FirstTicket(aborts).Some? ==> exists a :: a in aborts && a.key == TicketKey(FirstTicket(aborts).value)
    decreases |aborts|
  {
    if aborts != [] && !aborts[0].key.TicketKey? && FirstTicket(aborts).Some? {
      FirstTicketRecorded(aborts[1..]);
      var a :| a in aborts[1..] && a.key == TicketKey(FirstTicket(aborts).value);
      assert a in aborts;
    } else if aborts != [] && aborts[0].key.TicketKey? {
      assert aborts[0] in aborts && aborts[0].key == TicketKey(aborts[0].key.ticket);
    }
  }

  /** A started job with nothing pending or unmirrored but a side effect that never ended. */
  predicate Stuck(p: Projection) {
    && p.v.life.IsJob() && p.v.life.phase.StartedPhase? && !p.v.life.proofAccepted
    && p.requests.pending == [] && p.mirrors.mirroredCount == p.mirrors.Count() && p.HasOpenEffect()
  }

  /** Accepting the executor's own settlement request is recorded exactly for a stuck job: the derived stream proof
      always binds. */
  lemma SettlementAccepted(p: Projection, s: Settlement, v2: bool)
    requires Coherent(p) && SettlementRequest(p) == Some(s)
    ensures AcceptedExactlyWhen(p, MarkSettlement(p, s, v2), Stuck(p))
  {
    if MarkSettlement(p, s, v2).Append? {
      FirstTicketRecorded(p.status.aborts);
      AcceptOne(p.v, SettlementOwnerAccepted(s));
      PendingReadsValidator(p);
      MirroredReadsValidator(p);
      OpenEffectReadsValidator(p);
      DerivedSettlementFits(p, s);
    }
  }

  lemma DerivedSettlementFits(p: Projection, s: Settlement)
    requires StreamCoherent(p.v.stream, p.v.life.IsJob(), p.v.lastSeq) && SettlementRequest(p) == Some(s)
    requires TicketKey(s.ticket) in p.v.life.aborts
    ensures match s
            case SettlementV1(_, _) => p.v.stream.enabledAfter.None?
            case SettlementV2(_, ticket, proof) =>
              if p.v.stream.NeedsProof()
              then p.v.stream.unprojected == {} && proof.Some? && ProofBinds(p.v, proof.value, ticket)
              else proof.None? && p.v.stream.enabledAfter.Some?
  {
  }
}
