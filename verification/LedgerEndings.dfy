/** How an assignment ends: at most once, cleanly and for good; and how a cancellation gets there. */
module LedgerEndings {
  import opened Options
  import opened LedgerRecords
  import opened LedgerValidator
  import opened LedgerProjection
  import opened LedgerCoherence
  import opened LedgerDecisions
  import opened LedgerAcceptance

  predicate IsEnding(body: Record) {
    body.SupersedeFenced? || body.HaltedRecord? || body.ExecutionFailed? || body.BundleSealed? || body.DispatchRejected?
  }

  predicate Over(phase: Phase) {
    !phase.Unknown? && !phase.ReceivedPhase? && !phase.StartedPhase?
  }

  /** Only a sealed bundle moves on, and only to acknowledged. */
  predicate Follows(phase: Phase, later: Phase) {
    later == phase || (phase.SealedPhase? && later.AckedPhase?)
  }

  lemma EndingCloses(v: Validation, body: Record)
    requires Admitted(v, body)
    ensures Over(v.life.phase) ==> !IsEnding(body) && Follows(v.life.phase, Commit(v, body).life.phase)
    ensures IsEnding(body) ==> !Over(v.life.phase) && Over(Commit(v, body).life.phase)
  {
  }

  /** Outside the started phase there is nothing pending, unmirrored, unprojected or open. */
  lemma CleanOutsideStarted(v: Validation, body: Record)
    requires Admitted(v, body) && (v.life.phase.StartedPhase? || v.Clean())
    ensures Commit(v, body).life.phase.StartedPhase? || Commit(v, body).Clean()
  {
    match body
    case InteractionFinished(id, _) => assert v.talk.pending != {};
    case SideEffectCompleted(e, _) => assert v.work.openEffects != {};
    case Mirrored(upTo, _, _) => assert v.mirror.unmirrored != map[];
    case StreamProjected(_, upTo, _, _) => assert v.stream.unprojected != {};
    case _ =>
  }

  function PhaseAt(id: AssignmentId, log: seq<Entry>): Option<Phase> {
    match Replay(id, log) case None => None case Some(p) => Some(p.v.life.phase)
  }

  lemma LastStep(id: AssignmentId, log: seq<Entry>)
    requires Replay(id, log).Some? && log != []
    ensures var before := Replay(id, log[..|log| - 1]);
            && before.Some?
            && Coherent(before.value)
            && Admitted(before.value.v, log[|log| - 1].body)
            && Replay(id, log).value.v == Commit(before.value.v, log[|log| - 1].body)
  {
    ReplayCoherent(id, log[..|log| - 1]);
    StepCoherent(Replay(id, log[..|log| - 1]).value, log[|log| - 1]);
  }

  /** Once ended, an assignment's phase never changes again, except from sealed to acknowledged. */
  lemma {:induction false} EndedForGood(id: AssignmentId, log: seq<Entry>, i: nat)
    requires Replay(id, log).Some? && i <= |log|
    ensures PhaseAt(id, log[..i]).Some?
    ensures Over(PhaseAt(id, log[..i]).value) ==> Follows(PhaseAt(id, log[..i]).value, PhaseAt(id, log).value)
    decreases |log|
  {
    if i == |log| {
      assert log[..i] == log;
    } else {
      var shorter := log[..|log| - 1];
      assert shorter[..i] == log[..i];
      LastStep(id, log);
      EndedForGood(id, shorter, i);
      EndingCloses(Replay(id, shorter).value.v, log[|log| - 1].body);
    }
  }

  lemma EndingAt(id: AssignmentId, log: seq<Entry>, i: nat)
    requires Replay(id, log).Some? && i < |log|
    ensures PhaseAt(id, log[..i]).Some? && PhaseAt(id, log[..i + 1]).Some?
    ensures IsEnding(log[i].body) ==> !Over(PhaseAt(id, log[..i]).value) && Over(PhaseAt(id, log[..i + 1]).value)
  {
    var prefix := log[..i + 1];
    assert prefix[..i] == log[..i];
    EndedForGood(id, log, i + 1);
    LastStep(id, prefix);
    EndingCloses(Replay(id, log[..i]).value.v, log[i].body);
  }

  /** At most one ending is ever recorded. */
  lemma OneEnding(id: AssignmentId, log: seq<Entry>, i: nat, j: nat)
    requires Replay(id, log).Some? && i < j < |log| && IsEnding(log[i].body)
    ensures !IsEnding(log[j].body)
  {
    EndingAt(id, log, i);
    EndingAt(id, log, j);
    assert log[..j][..i + 1] == log[..i + 1];
    EndedForGood(id, log[..j], i + 1);
  }

  /** Every ended assignment is clean: no pending request, nothing unmirrored or unprojected, no open side effect. */
  lemma {:induction false} EndedClean(id: AssignmentId, log: seq<Entry>)
    requires Replay(id, log).Some?
    ensures var p := Replay(id, log).value;
            p.v.life.phase.StartedPhase? ||
            (p.v.Clean() && p.requests.pending == [] && !p.HasOpenEffect() && !p.HasPendingObligations())
    decreases |log|
  {
    ReplayCoherent(id, log);
    GuardsReadValidator(Replay(id, log).value);
    if log != [] {
      LastStep(id, log);
      EndedClean(id, log[..|log| - 1]);
      CleanOutsideStarted(Replay(id, log[..|log| - 1]).value.v, log[|log| - 1].body);
    }
  }

  /** The only records an ended assignment still takes. */
  predicate Aftermath(body: Record) {
    body.ControlLeaseRenewed? || body.StreamProjectionEnabled? || body.Acked? || body.CancelProofOwnerAccepted?
  }

  lemma OnlyAftermath(v: Validation, body: Record)
    requires Over(v.life.phase) && v.Clean() && Admitted(v, body)
    ensures Aftermath(body) && Commit(v, body).Clean()
  {
  }

  lemma {:induction false} BatchKeepsEnding(v: Validation, bodies: seq<Record>)
    requires Over(v.life.phase) && v.Clean() && AcceptAll(v, bodies).Some?
    ensures forall body :: body in bodies ==> Aftermath(body)
    ensures var w := AcceptAll(v, bodies).value;
            w.Clean() && Follows(v.life.phase, w.life.phase)
    decreases |bodies|
  {
    if bodies != [] {
      OnlyAftermath(v, bodies[0]);
      EndingCloses(v, bodies[0]);
      BatchKeepsEnding(Commit(v, bodies[0]), bodies[1..]);
    }
  }

  /** Whatever a decision appends to an ended assignment neither reopens it nor gives it new duties. */
  lemma DecisionsKeepEnding(id: AssignmentId, log: seq<Entry>, c: Command)
    requires Replay(id, log).Some? && Over(PhaseAt(id, log).value)
    ensures var p := Replay(id, log).value;
            var d := Decide(p, c);
            d.Append? && AcceptAll(p.v, d.bodies).Some? ==>
              && (forall body :: body in d.bodies ==> Aftermath(body))
              && AcceptAll(p.v, d.bodies).value.Clean()
              && Follows(p.v.life.phase, AcceptAll(p.v, d.bodies).value.life.phase)
  {
    EndedClean(id, log);
    var p := Replay(id, log).value;
    var d := Decide(p, c);
    if d.Append? && AcceptAll(p.v, d.bodies).Some? { BatchKeepsEnding(p.v, d.bodies); }
  }

  // ---------------------------------------------------------------- cancellation

  /** What a cancellation still waits for. */
  ghost function Duties(v: Validation): nat {
    |v.work.openEffects| + |v.mirror.unmirrored.Keys| + |v.stream.unprojected|
  }

  ghost predicate Cancelling(v: Validation) {
    v.life.aborts != map[] && v.talk.pending == {}
  }

  lemma SubsetCount<T>(small: set<T>, large: set<T>)
    requires small <= large
    ensures |small| <= |large|
    ensures small != large ==> |small| < |large|
  {
    assert large == small + (large - small);
  }

  /** While cancelling, no record adds a duty; completing, mirroring and projecting each take one away. */
  lemma CancellingStep(v: Validation, body: Record)
    requires Cancelling(v) && Admitted(v, body)
    ensures Cancelling(Commit(v, body))
    ensures Duties(Commit(v, body)) <= Duties(v)
    ensures body.SideEffectCompleted? || body.Mirrored? || body.StreamProjected? ==> Duties(Commit(v, body)) < Duties(v)
  {
    var w := Commit(v, body);
    DutiesShrink(v, w, body);
    SubsetCount(w.work.openEffects, v.work.openEffects);
    SubsetCount(w.mirror.unmirrored.Keys, v.mirror.unmirrored.Keys);
    SubsetCount(w.stream.unprojected, v.stream.unprojected);
  }

  lemma DutiesShrink(v: Validation, w: Validation, body: Record)
    requires Cancelling(v) && Admitted(v, body) && w == Commit(v, body)
    ensures Cancelling(w)
    ensures w.work.openEffects <= v.work.openEffects
    ensures w.mirror.unmirrored.Keys <= v.mirror.unmirrored.Keys
    ensures w.stream.unprojected <= v.stream.unprojected
    ensures body.SideEffectCompleted? ==> body.effectSeq in v.work.openEffects && body.effectSeq !in w.work.openEffects
    ensures body.Mirrored? ==> body.upTo in v.mirror.unmirrored && body.upTo !in w.mirror.unmirrored
    ensures body.StreamProjected? ==>
              body.upToRecordSeq in v.stream.unprojected && body.upToRecordSeq !in w.stream.unprojected
  {
    if body.AbortRequested? { assert body.abort.key in w.life.aborts; }
  }

  /** From the commit that records a cancellation on, the outstanding duties never grow. */
  lemma {:induction false} DutiesNeverGrow(id: AssignmentId, log: seq<Entry>, i: nat)
    requires Replay(id, log).Some? && i <= |log|
    ensures Replay(id, log[..i]).Some?
    ensures Cancelling(Replay(id, log[..i]).value.v) ==>
              Cancelling(Replay(id, log).value.v)
              && Duties(Replay(id, log).value.v) <= Duties(Replay(id, log[..i]).value.v)
    decreases |log|
  {
    if i == |log| {
      assert log[..i] == log;
    } else {
      var shorter := log[..|log| - 1];
      assert shorter[..i] == log[..i];
      LastStep(id, log);
      DutiesNeverGrow(id, shorter, i);
      if Cancelling(Replay(id, log[..i]).value.v) {
        CancellingStep(Replay(id, shorter).value.v, log[|log| - 1].body);
      }
    }
  }

  /** An accepted cancellation leaves the ledger cancelling in the same commit. */
  lemma AbortStartsCancelling(id: AssignmentId, log: seq<Entry>, cause: AbortCause, scope: ExecutionRef)
    requires Replay(id, log).Some?
    ensures var p := Replay(id, log).value;
            var d := RequestAbort(p, cause, scope);
            d.Append? && AcceptAll(p.v, d.bodies).Some? ==> Cancelling(AcceptAll(p.v, d.bodies).value)
  {
    ReplayCoherent(id, log);
    PendingIds(Replay(id, log).value);
    AbortAccepted(Replay(id, log).value, cause, scope);
  }

  /** The ledger chain, defined on the log alone. */
  function ChainOf(id: AssignmentId, log: seq<Entry>): Chain
    decreases |log|
  {
    if log == [] then ChainSeed(id) else ChainStep(ChainOf(id, log[..|log| - 1]), |log|, log[|log| - 1].body)
  }

  lemma {:induction false} ChainFollowsLog(id: AssignmentId, log: seq<Entry>)
    requires Replay(id, log).Some?
    ensures Replay(id, log).value.v.chain == ChainOf(id, log)
    decreases |log|
  {
    if log != [] {
      LastStep(id, log);
      ReplayCoherent(id, log[..|log| - 1]);
      ChainFollowsLog(id, log[..|log| - 1]);
    }
  }

  /** When the duties are gone and the cause's authority stands, continuing the cancellation records a halted
      proof of exactly the preceding prefix; it is accepted iff a ticket names its recorded principal. */
  lemma CancellationHalts(id: AssignmentId, log: seq<Entry>, p: Projection, cause: AbortCause, scope: ExecutionRef,
      usage: Payload)
    requires Replay(id, log) == Some(p) && ReadyToHalt(p, cause, scope)
    ensures RequestAbort(p, cause, scope) == Reply(AbortProgress(None, true))
    ensures HaltsAt(p, CompleteAbort(p, cause, scope, usage, false), cause, |log|, ChainOf(id, log))
  {
    ReplayCoherent(id, log);
    ChainFollowsLog(id, log);
    HaltDecision(p, cause, scope, usage);
  }

  ghost predicate ReadyToHalt(p: Projection, cause: AbortCause, scope: ExecutionRef) {
    && Cancelling(p.v) && Duties(p.v) == 0 && !Over(p.v.life.phase)
    && HasAbort(p, cause.Key()) && AbortAuthority(p, cause, scope).Some?
  }

  /** The decision writes one halted proof for the prefix `(lastSeq, digest)`, acceptable unless a ticket's
      principal is not the recorded one. */
  ghost predicate HaltsAt(p: Projection, d: Decision, cause: AbortCause, lastSeq: nat, digest: Chain) {
    && d.Append? && |d.bodies| == 1 && d.bodies[0].HaltedRecord?
    && d.bodies[0].proof.cause == cause
    && d.bodies[0].proof.lastRecordSeq == lastSeq
    && d.bodies[0].proof.digest == digest
    && d.bodies[0].proof.decision == (if p.v.life.started then Halted(p.v.work.effectCount) else NotStarted)
    && (AcceptAll(p.v, d.bodies).Some? <==>
         (cause.AbortTicket? ==> Abort(cause.Key(), cause.principal) in p.status.aborts))
  }

  lemma HaltDecision(p: Projection, cause: AbortCause, scope: ExecutionRef, usage: Payload)
    requires Coherent(p) && ReadyToHalt(p, cause, scope)
    ensures RequestAbort(p, cause, scope) == Reply(AbortProgress(None, true))
    ensures HaltsAt(p, CompleteAbort(p, cause, scope, usage, false), cause, p.v.lastSeq, p.v.chain)
  {
    NoDutiesClean(p.v);
    GuardsReadValidator(p);
    PendingReadsValidator(p);
    CompletionAccepted(p, DoCompleteAbort(cause, scope, usage, false));
  }

  lemma NoDutiesClean(v: Validation)
    requires Cancelling(v) && Duties(v) == 0
    ensures v.Clean()
  {
    assert v.mirror.unmirrored.Keys == {};
  }
}
