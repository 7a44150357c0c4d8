/** What the decisions append, the shared validator accepts: each guard of a decision is the validator's own
    condition read off the projection, with the exceptions stated exactly. */
module LedgerAcceptance {
  import opened Options
  import opened LedgerRecords
  import opened LedgerValidator
  import opened LedgerProjection
  import opened LedgerCoherence
  import opened LedgerDecisions

  /** The validation state after a batch of records, or none if one of them is refused. */
  function AcceptAll(v: Validation, bodies: seq<Record>): Option<Validation>
    decreases |bodies|
  {
    if bodies == [] then Some(v)
    else if Admitted(v, bodies[0]) then AcceptAll(Commit(v, bodies[0]), bodies[1..])
    else None
  }

  lemma AcceptOne(v: Validation, body: Record)
    ensures AcceptAll(v, [body]) == if Admitted(v, body) then Some(Commit(v, body)) else None
  {
    assert [body][1..] == [];
  }

  // ---------------------------------------------------------------- guards read the validator's mind

  ghost function Ids(rs: seq<Requested>): set<RequestId> {
    set r | r in rs :: r.id
  }

  lemma PendingIds(p: Projection)
    requires RequestsCoherent(p.requests, p.v.talk, p.v.lastSeq)
    ensures Ids(p.requests.pending) == p.v.talk.pending
  {
    forall id | id in p.v.talk.pending ensures id in Ids(p.requests.pending) {
      assert p.requests.requested[id] in p.requests.pending;
      assert p.requests.requested[id].id == id;
    }
  }

  lemma PendingReadsValidator(p: Projection)
    requires RequestsCoherent(p.requests, p.v.talk, p.v.lastSeq)
    ensures p.requests.pending == [] <==> p.v.talk.pending == {}
  {
    PendingIds(p);
    if p.requests.pending != [] { assert p.requests.pending[0].id in Ids(p.requests.pending); }
  }

  lemma AwaitedNone(order: seq<MirrorItem>, from: nat, unmirrored: map<nat, MirrorCheckpoint>)
    requires Awaited(order, from, unmirrored) && from <= |order|
    ensures from == |order| <==> unmirrored == map[]
  {
    if from < |order| {
      assert order[from].recordSeq in unmirrored;
    } else {
      assert forall s :: s in unmirrored ==> Listed(order, from, s);
    }
  }

  lemma MirroredReadsValidator(p: Projection)
    requires MirrorCoherent(p.mirrors, p.v.mirror, p.v.lastSeq)
    ensures p.mirrors.mirroredCount == p.mirrors.Count() <==> p.v.mirror.unmirrored == map[]
  {
    AwaitedNone(p.mirrors.order, p.mirrors.mirroredCount - p.mirrors.base, p.v.mirror.unmirrored);
  }

  lemma ProjectedReadsValidator(p: Projection)
    requires StreamCoherent(p.v.stream, p.v.life.IsJob(), p.v.lastSeq)
    ensures (p.v.life.IsJob() && p.v.stream.enabledAfter.Some? && p.v.stream.projectedUpTo < p.v.stream.lastFinishedSeq)
            <==> p.v.stream.unprojected != {}
  {
  }

  lemma OpenEffectReadsValidator(p: Projection)
    requires EffectsCoherent(p.effects, p.v.work)
    ensures p.HasOpenEffect() <==> p.v.work.openEffects != {}
  {
    if e :| e in p.v.work.openEffects { assert e in p.effects && p.effects[e].result.None?; }
    if e :| e in p.effects && p.effects[e].result.None? { assert e in p.v.work.openEffects; }
  }

  lemma AbortsReadValidator(p: Projection)
    requires AbortsCoherent(p.status.aborts, p.v.life.aborts)
    ensures p.status.aborts == [] <==> p.v.life.aborts == map[]
    ensures forall key :: HasAbort(p, key) <==> key in p.v.life.aborts
    ensures (exists a :: a in p.status.aborts && a.key.TicketKey?) <==> p.v.life.HasTicketAbort()
  {
    if p.status.aborts != [] { assert p.status.aborts[0] in p.status.aborts; }
    forall key | key in p.v.life.aborts ensures HasAbort(p, key) {
      var a :| a in p.status.aborts && a.key == key;
    }
    if p.v.life.HasTicketAbort() {
      var key :| key in p.v.life.aborts && key.TicketKey?;
      assert HasAbort(p, key);
    }
  }

  /** The executor's notion of "nothing left to do" is the validator's notion of a clean prefix. */
  lemma GuardsReadValidator(p: Projection)
    requires Coherent(p)
    ensures !p.HasOpenEffect() && !p.HasPendingObligations() <==> p.v.Clean()
    ensures Running(p) <==> p.v.life.Active()
  {
    PendingReadsValidator(p);
    MirroredReadsValidator(p);
    ProjectedReadsValidator(p);
    OpenEffectReadsValidator(p);
    AbortsReadValidator(p);
  }

  // ---------------------------------------------------------------- batches of results

  lemma {:induction false} FinishesAccepted(v: Validation, rs: seq<Requested>, outcome: InteractionOutcome)
    requires DistinctIds(rs) && !outcome.Answered? && Ids(rs) <= v.talk.pending
    ensures var after := AcceptAll(v, Finishes(rs, outcome));
            && after.Some?
            && after.value.talk == v.talk.(pending := v.talk.pending - Ids(rs))
            && after.value.life == v.life
            && after.value.work == v.work
    decreases |rs|
  {
    if rs != [] {
      var body := InteractionFinished(rs[0].id, outcome);
      assert rs[0].id in Ids(rs);
      assert Finishes(rs, outcome)[1..] == Finishes(rs[1..], outcome);
      assert Ids(rs) == {rs[0].id} + Ids(rs[1..]) by {
        assert forall r :: r in rs <==> r == rs[0] || r in rs[1..];
      }
      assert rs[0].id !in Ids(rs[1..]);
      FinishesAccepted(Commit(v, body), rs[1..], outcome);
    }
  }

  lemma {:induction false} OverdueIsPart(rs: seq<Requested>, now: Time)
    requires DistinctIds(rs)
    ensures DistinctIds(Overdue(rs, now)) && (forall r :: r in Overdue(rs, now) <==> r in rs && r.body.expiresAt < now)
    ensures forall r :: r in InTime(rs, now) <==> r in rs && r.body.expiresAt >= now
  {
    if rs != [] {
      OverdueIsPart(rs[1..], now);
      assert forall r :: r in rs <==> r == rs[0] || r in rs[1..];
      var rest := Overdue(rs[1..], now);
      if rs[0].body.expiresAt < now {
        forall i, j | 0 <= i < j < |rest| + 1 ensures ([rs[0]] + rest)[i].id != ([rs[0]] + rest)[j].id {
          assert rest[j - 1] in rs[1..];
          if i > 0 { assert rest[i - 1].id != rest[j - 1].id; }
        }
      }
    }
  }

  // ---------------------------------------------------------------- one decision at a time

  /** Where a decision checks less than the validator does, what its caller has to ensure. */
  predicate CallerEnsures(p: Projection, c: Command) {
    match c
    case DoDispatch(ref, owner, _, _, refusal) =>
      p.v.life.control.Some? &&
      (refusal.None? ==> p.v.life.control.value.authority == ref && p.v.life.control.value.owner == owner)
    case DoReject(_, _) => p.v.life.phase.Unknown? && p.status.aborts == [] && p.v.life.control.Some?
    case DoSupersede(_) => p.v.life.control.Some?
    case DoFinish(_, outcome) => outcome.Answered? && outcome.grant.None? ==> !p.v.life.IsJob()
    case DoMarkProjected(receipts, lastStreamSeq, _) =>
      && LastResult(receipts).Some?
      && (exists id :: id in p.requests.finished && p.requests.finished[id].recordSeq == LastResult(receipts).value)
      && lastStreamSeq > p.v.stream.lastStreamSeq
    case DoRequestAbort(cause, _) => cause.OwnerFence? && !HasAbort(p, cause.Key()) ==> p.v.life.control.Some?
    case DoCompleteAbort(cause, _, _, _) =>
      cause.AbortTicket? ==> Abort(cause.Key(), cause.principal) in p.status.aborts
    case _ => true
  }

  ghost predicate AcceptedExactlyWhen(p: Projection, d: Decision, condition: bool) {
    d.Append? ==> (AcceptAll(p.v, d.bodies).Some? <==> condition)
  }

  lemma DispatchAccepted(p: Projection, c: Command)
    requires Coherent(p) && (c.DoDispatch? || c.DoReject? || c.DoSupersede? || c.DoRenew?)
    ensures AcceptedExactlyWhen(p, Decide(p, c), CallerEnsures(p, c))
  {
    AbortsReadValidator(p);
    var d := Decide(p, c);
    if d.Append? { AcceptOne(p.v, d.bodies[0]); }
  }

  lemma WorkAccepted(p: Projection, c: Command)
    requires p.status.aborts == [] <==> p.v.life.aborts == map[]
    requires c.DoStart? || c.DoStartEffect? || c.DoSediment? || c.DoEnable?
    ensures AcceptedExactlyWhen(p, Decide(p, c), true)
  {
    var d := Decide(p, c);
    if d.Append? { AcceptOne(p.v, d.bodies[0]); }
  }

  lemma OutputAccepted(p: Projection, c: Command)
    requires p.status.aborts == [] <==> p.v.life.aborts == map[]
    requires EffectsCoherent(p.effects, p.v.work) && MutationsCoherent(p.mutations, p.v.work)
    requires c.DoCompleteEffect? || c.DoStage?
    ensures AcceptedExactlyWhen(p, Decide(p, c), true)
  {
    var d := Decide(p, c);
    if d.Append? { AcceptOne(p.v, d.bodies[0]); }
  }

  lemma CleanEndingAccepted(p: Projection, c: Command)
    requires Running(p) <==> p.v.life.Active()
    requires !p.HasOpenEffect() && !p.HasPendingObligations() <==> p.v.Clean()
    requires c.DoSeal? || c.DoFail?
    ensures AcceptedExactlyWhen(p, Decide(p, c), true)
  {
    var d := Decide(p, c);
    if d.Append? { AcceptOne(p.v, d.bodies[0]); }
  }

  lemma AcknowledgeAccepted(p: Projection, revision: nat)
    ensures AcceptedExactlyWhen(p, Acknowledge(p, revision), true)
  {
    AcceptOne(p.v, Acked(revision));
  }

  lemma MarkProofAdmitted(p: Projection, v2: bool)
    requires StatusCoherent(p.status, p.v.life) && AbortsCoherent(p.status.aborts, p.v.life.aborts)
    ensures AcceptedExactlyWhen(p, MarkProofAccepted(p, v2), true)
  {
    AbortsReadValidator(p);
    AcceptOne(p.v, CancelProofOwnerAccepted);
  }

  lemma RequestAccepted(p: Projection, id: RequestId, request: RequestBody, maxPending: nat)
    requires Coherent(p)
    ensures AcceptedExactlyWhen(p, RequestInteraction(p, id, request, maxPending), true)
  {
    AbortsReadValidator(p);
    var d := RequestInteraction(p, id, request, maxPending);
    if d.Append? {
      var asked := InteractionRequested(id, request);
      AcceptOne(p.v, asked);
      if |d.bodies| == 2 {
        AcceptOne(Commit(p.v, asked), d.bodies[1]);
        assert d.bodies[1..] == [d.bodies[1]];
      }
    }
  }

  lemma FinishAccepted(p: Projection, c: Command)
    requires Coherent(p) && c.DoFinish?
    ensures AcceptedExactlyWhen(p, Decide(p, c), CallerEnsures(p, c))
  {
    var d := Decide(p, c);
    if d.Append? { AcceptOne(p.v, d.bodies[0]); }
  }

  lemma RecoverAccepted(p: Projection, now: Time)
    requires Coherent(p)
    ensures AcceptedExactlyWhen(p, RecoverInteractions(p, now), true)
  {
    PendingIds(p);
    OverdueIsPart(p.requests.pending, now);
    var d := RecoverInteractions(p, now);
    if d.Append? {
      var phase := p.v.life.phase;
      if phase.FailedPhase? || phase.SealedPhase? || phase.AckedPhase? || p.status.aborts != [] {
        FinishesAccepted(p.v, p.requests.pending, d.bodies[0].outcome);
      } else {
        FinishesAccepted(p.v, Overdue(p.requests.pending, now), Expired);
      }
    }
  }

  lemma CloseAccepted(p: Projection)
    requires Coherent(p)
    ensures AcceptedExactlyWhen(p, CloseForRunEnd(p), true)
  {
    PendingIds(p);
    FinishesAccepted(p.v, p.requests.pending, Cancelled(ByRunEnd));
  }

  function SeqsIn(order: seq<MirrorItem>, from: nat, end: nat): set<nat>
    requires end <= |order|
  {
    set i | from <= i < end :: order[i].recordSeq
  }

  lemma {:induction false} SeqsCount(order: seq<MirrorItem>, from: nat, end: nat)
    requires from <= end <= |order| && (forall i, j :: 0 <= i < j < |order| ==> order[i].recordSeq < order[j].recordSeq)
    ensures |SeqsIn(order, from, end)| == end - from
    decreases end
  {
    if end > from {
      SeqsCount(order, from, end - 1);
      assert order[end - 1].recordSeq !in SeqsIn(order, from, end - 1);
      assert SeqsIn(order, from, end) == SeqsIn(order, from, end - 1) + {order[end - 1].recordSeq};
    }
  }

  /** The items a receipt for `ordinal` releases are as many as the ordinals it advances over. */
  lemma ReleasedCount(order: seq<MirrorItem>, base: nat, lastSeq: nat, from: nat, end: nat,
      unmirrored: map<nat, MirrorCheckpoint>)
    requires Numbered(order, base, lastSeq) && Awaited(order, from, unmirrored) && from <= end <= |order|
    ensures |Released(unmirrored, base + end)| == end - from
  {
    ReleasedBelow(order, base, lastSeq, from, end, unmirrored);
    SeqsCount(order, from, end);
  }

  lemma ReleasedBelow(order: seq<MirrorItem>, base: nat, lastSeq: nat, from: nat, end: nat,
      unmirrored: map<nat, MirrorCheckpoint>)
    requires Numbered(order, base, lastSeq) && Awaited(order, from, unmirrored) && from <= end <= |order|
    ensures Released(unmirrored, base + end) == SeqsIn(order, from, end)
  {
    forall s | s in unmirrored && unmirrored[s].ordinal <= base + end ensures s in SeqsIn(order, from, end) {
      assert Listed(order, from, s);
      var i :| from <= i < |order| && order[i].recordSeq == s;
      assert order[i].ordinal == base + i + 1;
    }
  }

  lemma ReceiptAdmitted(ml: MirrorLog, m: Mirror, lastSeq: nat, i: nat)
    requires MirrorCoherent(ml, m, lastSeq) && ml.mirroredCount - ml.base <= i < |ml.order|
    ensures MirrorAdmitted(m, ml.order[i].recordSeq, ml.order[i].ordinal, ml.order[i].digest)
  {
    ReleasedCount(ml.order, ml.base, lastSeq, ml.mirroredCount - ml.base, i + 1, m.unmirrored);
  }

  lemma MirrorReceiptAccepted(p: Projection, upTo: nat, ordinal: nat, digest: MirrorChain)
    requires MirrorCoherent(p.mirrors, p.v.mirror, p.v.lastSeq) && p.shortcut.historic == map[]
    ensures AcceptedExactlyWhen(p, MarkMirrored(p, upTo, ordinal, digest), true)
  {
    var d := MarkMirrored(p, upTo, ordinal, digest);
    if d.Append? {
      ReceiptAdmitted(p.mirrors, p.v.mirror, p.v.lastSeq, p.mirrors.Find(upTo).value);
      AcceptOne(p.v, d.bodies[0]);
    }
  }

  /** Recording a cancellation finishes every pending request in the same commit. */
  lemma AbortBatch(v: Validation, abort: Option<Abort>, pending: seq<Requested>, via: InteractionOutcome)
    requires DistinctIds(pending) && Ids(pending) == v.talk.pending && !via.Answered?
    ensures var after :=
              AcceptAll(v, (if abort.Some? then [AbortRequested(abort.value)] else []) + Finishes(pending, via));
            && (after.Some? <==> (abort.Some? ==> AbortAdmitted(v.life, abort.value)))
            && (after.Some? ==> after.value.talk.pending == {} && v.life.aborts.Keys <= after.value.life.aborts.Keys)
            && (after.Some? && abort.Some? ==> abort.value.key in after.value.life.aborts)
  {
    var finishes := Finishes(pending, via);
    if abort.Some? {
      var body := AbortRequested(abort.value);
      assert ([body] + finishes)[1..] == finishes;
      FinishesAccepted(Commit(v, body), pending, via);
    } else {
      assert [] + finishes == finishes;
      FinishesAccepted(v, pending, via);
    }
  }

  lemma AbortAdmittedIff(p: Projection, cause: AbortCause, scope: ExecutionRef)
    requires StatusCoherent(p.status, p.v.life)
    requires p.status.halted.None? && !Ended(p) && AbortAuthority(p, cause, scope).Some?
             && cause.Key() !in p.v.life.aborts
    ensures AbortAdmitted(p.v.life, AbortOf(cause)) <==> (cause.OwnerFence? ==> p.v.life.control.Some?)
  {
  }

  /** The abort record a cancellation adds, if its cause is not recorded yet. */
  function NewAbort(p: Projection, cause: AbortCause): Option<Abort> {
    if HasAbort(p, cause.Key()) then None else Some(AbortOf(cause))
  }

  function AbortVia(cause: AbortCause): InteractionOutcome {
    Cancelled(if cause.OwnerFence? then ByFence else ByTicket)
  }

  lemma AbortBodies(p: Projection, cause: AbortCause, scope: ExecutionRef)
    ensures RequestAbort(p, cause, scope).Append? ==>
              && p.status.halted.None? && !Ended(p) && AbortAuthority(p, cause, scope).Some?
              && RequestAbort(p, cause, scope).bodies ==
                   (if NewAbort(p, cause).Some? then [AbortRequested(NewAbort(p, cause).value)] else [])
                     + Finishes(p.requests.pending, AbortVia(cause))
  {
  }

  lemma AbortTaken(p: Projection, cause: AbortCause, scope: ExecutionRef, bodies: seq<Record>)
    requires StatusCoherent(p.status, p.v.life) && AbortsCoherent(p.status.aborts, p.v.life.aborts)
    requires DistinctIds(p.requests.pending) && Ids(p.requests.pending) == p.v.talk.pending
    requires p.status.halted.None? && !Ended(p) && AbortAuthority(p, cause, scope).Some?
    requires bodies == (if NewAbort(p, cause).Some? then [AbortRequested(NewAbort(p, cause).value)] else [])
                       + Finishes(p.requests.pending, AbortVia(cause))
    ensures AcceptAll(p.v, bodies).Some? <==> CallerEnsures(p, DoRequestAbort(cause, scope))
    ensures AcceptAll(p.v, bodies).Some? ==>
              AcceptAll(p.v, bodies).value.talk.pending == {} && cause.Key() in AcceptAll(p.v, bodies).value.life.aborts
  {
    AbortsReadValidator(p);
    if !HasAbort(p, cause.Key()) { AbortAdmittedIff(p, cause, scope); }
    AbortBatch(p.v, NewAbort(p, cause), p.requests.pending, AbortVia(cause));
  }

  lemma AbortAccepted(p: Projection, cause: AbortCause, scope: ExecutionRef)
    requires StatusCoherent(p.status, p.v.life) && AbortsCoherent(p.status.aborts, p.v.life.aborts)
    requires DistinctIds(p.requests.pending) && Ids(p.requests.pending) == p.v.talk.pending
    ensures AcceptedExactlyWhen(p, RequestAbort(p, cause, scope), CallerEnsures(p, DoRequestAbort(cause, scope)))
    ensures var d := RequestAbort(p, cause, scope);
            d.Append? && AcceptAll(p.v, d.bodies).Some? ==>
              && AcceptAll(p.v, d.bodies).value.talk.pending == {}
              && cause.Key() in AcceptAll(p.v, d.bodies).value.life.aborts
  {
    AbortBodies(p, cause, scope);
    var d := RequestAbort(p, cause, scope);
    if d.Append? { AbortTaken(p, cause, scope, d.bodies); }
  }

  lemma CompletionAccepted(p: Projection, c: Command)
    requires Coherent(p) && c.DoCompleteAbort?
    ensures AcceptedExactlyWhen(p, Decide(p, c), CallerEnsures(p, c))
  {
    AbortsReadValidator(p);
    GuardsReadValidator(p);
    var d := Decide(p, c);
    if d.Append? {
      AcceptOne(p.v, d.bodies[0]);
      if c.cause.AbortTicket? { RecordedPrincipal(p, c.cause); }
    }
  }

  lemma RecordedPrincipal(p: Projection, cause: AbortCause)
    requires AbortsCoherent(p.status.aborts, p.v.life.aborts) && HasAbort(p, cause.Key()) && cause.AbortTicket?
    ensures cause.Key() in p.v.life.aborts
    ensures Abort(cause.Key(), cause.principal) in p.status.aborts <==>
              p.v.life.aborts[cause.Key()].principal == cause.principal
  {
    var a :| a in p.status.aborts && a.key == cause.Key();
    assert a == Abort(a.key, a.principal);
  }

  // ---------------------------------------------------------------- stream projection

  /** The results still to be projected are the validator's unprojected set. */
  ghost predicate ResultsTracked(rq: Requests, st: Stream) {
    st.enabledAfter.Some? ==>
      && (forall id ::
           id in rq.finished && rq.finished[id].recordSeq > st.projectedUpTo ==>
             rq.finished[id].recordSeq in st.unprojected)
      && (forall s :: s in st.unprojected ==> exists id :: id in rq.finished && rq.finished[id].recordSeq == s)
  }

  lemma ResultsTrackedStep(rq: Requests, rq': Requests, st: Stream, st': Stream, lastSeq: nat, chain: Chain,
      body: Record, item: Option<MirrorItem>)
    requires ResultsTracked(rq, st) && (forall id :: id in rq.finished ==> rq.finished[id].recordSeq <= lastSeq)
    requires st.enabledAfter.Some? ==> st.enabledAfter.value <= lastSeq
    requires st.enabledAfter.None? ==> st.unprojected == {}
    requires body.InteractionFinished? ==>
               body.requestId !in rq.finished && item.Some? && item.value.recordSeq == lastSeq + 1
    requires body.StreamProjectionEnabled? ==> body.legacyUpTo == lastSeq
    requires body.StreamProjected? ==> body.upToRecordSeq > st.projectedUpTo
    requires rq' == RequestsAfter(rq, lastSeq + 1, body, item) && st' == StreamAfter(st, lastSeq + 1, chain, body)
    ensures ResultsTracked(rq', st')
  {
    forall s | s in st.unprojected && st.enabledAfter.Some?
      ensures exists id :: id in rq'.finished && rq'.finished[id].recordSeq == s
    {
      var id :| id in rq.finished && rq.finished[id].recordSeq == s;
      assert id in rq'.finished && rq'.finished[id].recordSeq == s;
    }
    if body.InteractionFinished? {
      assert body.requestId in rq'.finished && rq'.finished[body.requestId].recordSeq == lastSeq + 1;
    }
  }

  lemma {:induction false} ReplayTracksResults(id: AssignmentId, log: seq<Entry>)
    requires Replay(id, log).Some?
    ensures ResultsTracked(Replay(id, log).value.requests, Replay(id, log).value.v.stream)
    decreases |log|
  {
    if log != [] {
      var shorter, entry := log[..|log| - 1], log[|log| - 1];
      ReplayTracksResults(id, shorter);
      ReplayCoherent(id, shorter);
      var p, q := Replay(id, shorter).value, Replay(id, log).value;
      ItemOfCommit(p.v, entry);
      StepTracks(p, q, entry);
    }
  }

  lemma StepTracks(p: Projection, q: Projection, entry: Entry)
    requires Coherent(p) && ResultsTracked(p.requests, p.v.stream) && Step(p, entry) == Some(q)
    ensures ResultsTracked(q.requests, q.v.stream)
  {
    AdmittedNeverCorrupt(p, entry);
    ItemOfCommit(p.v, entry);
    ResultsTrackedStep(p.requests, q.requests, p.v.stream, q.v.stream, p.v.lastSeq, q.v.chain, entry.body,
                       ItemOf(q.v.mirror, q.v.lastSeq, entry.body, entry.at));
  }

  lemma ProjectedAccepted(p: Projection, c: Command)
    requires StreamCoherent(p.v.stream, p.v.life.IsJob(), p.v.lastSeq) && ResultsTracked(p.requests, p.v.stream)
    requires c.DoMarkProjected?
    ensures AcceptedExactlyWhen(p, Decide(p, c), CallerEnsures(p, c))
  {
    var d := Decide(p, c);
    if d.Append? {
      AcceptOne(p.v, d.bodies[0]);
    }
  }

  // ---------------------------------------------------------------- all decisions

  /** From every replayable ledger, what a decision appends is accepted exactly when its caller's side of the
      bargain holds; for most commands that is always. */
  lemma DecisionAccepted(id: AssignmentId, log: seq<Entry>, c: Command)
    requires Replay(id, log).Some?
    ensures var p := Replay(id, log).value;
            AcceptedExactlyWhen(p, Decide(p, c), CallerEnsures(p, c))
  {
    ReplayCoherent(id, log);
    ReplayTracksResults(id, log);
    AcceptedFromCoherent(Replay(id, log).value, c);
  }

  predicate AboutInteractions(c: Command) {
    c.DoRequest? || c.DoFinish? || c.DoRecover? || c.DoClose? || c.DoMarkMirrored? || c.DoMarkProjected?
    || c.DoEnable? || c.DoSediment?
  }

  lemma InteractionAccepted(p: Projection, c: Command)
    requires Coherent(p) && ResultsTracked(p.requests, p.v.stream) && p.shortcut.historic == map[]
             && AboutInteractions(c)
    ensures AcceptedExactlyWhen(p, Decide(p, c), CallerEnsures(p, c))
  {
    match c
    case DoRequest(id, request, maxPending) => RequestAccepted(p, id, request, maxPending);
    case DoFinish(_, _) => FinishAccepted(p, c);
    case DoRecover(now) => RecoverAccepted(p, now);
    case DoClose => CloseAccepted(p);
    case DoMarkMirrored(upTo, ordinal, digest) => MirrorReceiptAccepted(p, upTo, ordinal, digest);
    case DoMarkProjected(_, _, _) => ProjectedAccepted(p, c);
    case _ => AbortsReadValidator(p); WorkAccepted(p, c);
  }

  lemma AcceptedFromCoherent(p: Projection, c: Command)
    requires Coherent(p) && ResultsTracked(p.requests, p.v.stream) && p.shortcut.historic == map[]
    ensures AcceptedExactlyWhen(p, Decide(p, c), CallerEnsures(p, c))
  {
    if AboutInteractions(c) {
      InteractionAccepted(p, c);
    } else if c.DoSeal? || c.DoFail? {
      GuardsReadValidator(p);
      CleanEndingAccepted(p, c);
    } else {
      OtherAccepted(p, c);
    }
  }

  lemma OtherAccepted(p: Projection, c: Command)
    requires Coherent(p) && !AboutInteractions(c) && !c.DoSeal? && !c.DoFail?
    ensures AcceptedExactlyWhen(p, Decide(p, c), CallerEnsures(p, c))
  {
    AbortsReadValidator(p);
    match c
    case DoStart => WorkAccepted(p, c);
    case DoStartEffect(_) => WorkAccepted(p, c);
    case DoCompleteEffect(_, _) => OutputAccepted(p, c);
    case DoStage(_, _) => OutputAccepted(p, c);
    case DoAcknowledge(revision) => AcknowledgeAccepted(p, revision);
    case DoMarkProof(v2) => MarkProofAdmitted(p, v2);
    case DoRequestAbort(cause, scope) => PendingIds(p); AbortAccepted(p, cause, scope);
    case DoCompleteAbort(_, _, _, _) => CompletionAccepted(p, c);
    case DoDispatch(_, _, _, _, _) => DispatchAccepted(p, c);
    case DoReject(_, _) => DispatchAccepted(p, c);
    case DoRenew(_, _, _, _) => DispatchAccepted(p, c);
    case DoSupersede(_) => DispatchAccepted(p, c);
    case _ =>
  }
}
