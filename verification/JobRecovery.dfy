/** The job recovery index: one small row per received job, kept up to date commit by commit, dropped once the
    job can never again owe anything. */
module JobRecovery {
  import opened Options
  import opened LedgerRecords
  import opened LedgerValidator
  import opened LedgerProjection
  import opened LedgerCoherence
  import opened LedgerAcceptance
  import opened LedgerEndings

  datatype Row = Row(
    envelope: Payload,
    phase: Phase,
    pendingInteractions: nat,
    hasInteractionFacts: bool,
    maxFinishedSeq: nat,
    maxFinishedInteractionSeq: nat,
    mirroredUpTo: nat,
    enabledAfter: Option<nat>,
    projectedUpTo: nat,
    hasAbort: bool,
    hasAbortTicket: bool,
    proofAccepted: bool,
    settlementAccepted: bool)

  datatype Obligation = Obligation(execution: bool, cancellation: bool, interaction: bool)

  function Max(a: nat, b: nat): nat { if a > b then a else b }

  function NewRow(envelope: Payload): Row {
    Row(envelope, ReceivedPhase, 0, false, 0, 0, 0, None, 0, false, false, false, false)
  }

  /** One record on a tracked row; `s` is its sequence. */
  function RowStep(row: Row, s: nat, body: Record): Row {
    match body
    case DispatchRejected(_, _) => row.(phase := RejectedPhase)
    case SupersedeFenced(_) => row.(phase := FencedPhase)
    case Started => row.(phase := StartedPhase)
    case InteractionRequested(_, _) =>
      row.(pendingInteractions := row.pendingInteractions + 1, hasInteractionFacts := true)
    case InteractionFinished(_, _) =>
      row.(pendingInteractions := if row.pendingInteractions > 0 then row.pendingInteractions - 1 else 0,
           hasInteractionFacts := true,
           maxFinishedSeq := Max(row.maxFinishedSeq, s),
           maxFinishedInteractionSeq := Max(row.maxFinishedInteractionSeq, s))
    case TrustSediment(_, _) => row.(hasInteractionFacts := true, maxFinishedSeq := Max(row.maxFinishedSeq, s))
    case AbortRequested(a) => row.(hasAbort := true, hasAbortTicket := row.hasAbortTicket || a.key.TicketKey?)
    case HaltedRecord(_) => row.(phase := HaltedPhase)
    case ExecutionFailed(_) => row.(phase := FailedPhase)
    case BundleSealed(_, _) => row.(phase := SealedPhase)
    case Acked(_) => row.(phase := AckedPhase)
    case Mirrored(upTo, _, _) => row.(mirroredUpTo := upTo)
    case StreamProjectionEnabled(upTo) => row.(enabledAfter := Some(upTo), projectedUpTo := upTo)
    case StreamProjected(_, upTo, _, _) => row.(projectedUpTo := upTo)
    case CancelProofOwnerAccepted => row.(proofAccepted := true)
    case SettlementOwnerAccepted(_) => row.(settlementAccepted := true)
    case _ => row
  }

  /** Only a received job enters the index; untracked records have nowhere to go. */
  function Track(row: Option<Row>, s: nat, body: Record): Option<Row> {
    if body.Received? then
      if body.ref.JobRef? then Some(NewRow(body.envelope)) else None
    else if row.None? then None
    else Some(RowStep(row.value, s, body))
  }

  function Classify(row: Row): Obligation {
    Obligation(
      !row.hasAbort && (row.phase.ReceivedPhase? || row.phase.SealedPhase?),
      row.hasAbortTicket && !row.proofAccepted && !row.settlementAccepted,
      row.hasInteractionFacts &&
        (row.pendingInteractions > 0 || row.maxFinishedSeq > row.mirroredUpTo ||
         (row.enabledAfter.Some? && row.maxFinishedInteractionSeq > row.projectedUpTo)))
  }

  const NothingOwed := Obligation(false, false, false)

  /** What the index answers for an assignment; without a row, nothing is owed. */
  function Owed(row: Option<Row>): Obligation {
    if row.Some? then Classify(row.value) else NothingOwed
  }

  predicate Retained(row: Row) {
    row.phase.ReceivedPhase? || row.phase.StartedPhase? || Classify(row) != NothingOwed
  }

  function Settle(row: Option<Row>): Option<Row> {
    if row.Some? && !Retained(row.value) then None else row
  }

  function TrackAll(row: Option<Row>, from: nat, records: seq<Entry>): Option<Row>
    decreases |records|
  {
    if records == [] then row
    else Track(TrackAll(row, from, records[..|records| - 1]), from + |records|, records[|records| - 1].body)
  }

  /** The row after one commit holding `records` of this assignment, the first at sequence `from + 1`. */
  function CommitRow(row: Option<Row>, from: nat, records: seq<Entry>): Option<Row> {
    if records == [] then row else Settle(TrackAll(row, from, records))
  }

  // ---------------------------------------------------------------- what full replay says

  ghost function FullObligation(p: Projection): Obligation {
    Obligation(
      p.status.aborts == [] && (p.v.life.phase.ReceivedPhase? || p.v.life.phase.SealedPhase?),
      PendingTicket(p),
      p.HasPendingObligations())
  }

  ghost predicate PendingTicket(p: Projection) {
    && (exists a :: a in p.status.aborts && a.key.TicketKey?)
    && !p.v.life.proofAccepted
    && p.v.life.settlement.None?
  }

  // ---------------------------------------------------------------- the row is exact

  /** The mirrored mark is the sequence of the last mirrored chain item. */
  ghost predicate MarkExact(p: Projection) {
    && p.mirrors.base == 0
    && p.mirrors.mirroredCount <= |p.mirrors.order|
    && p.v.mirror.mirroredUpTo == LastItem(p.mirrors.order[..p.mirrors.mirroredCount])
    && (forall i :: 0 <= i < |p.mirrors.order| ==> p.mirrors.order[i].recordSeq > 0)
  }

  function LastItem(order: seq<MirrorItem>): nat {
    if order == [] then 0 else order[|order| - 1].recordSeq
  }

  ghost predicate LifeMatches(row: Row, life: Life) {
    && row.phase == life.phase
    && (row.hasAbort <==> life.aborts != map[])
    && (row.hasAbortTicket <==> life.HasTicketAbort())
    && (row.proofAccepted <==> life.proofAccepted)
    && (row.settlementAccepted <==> life.settlement.Some?)
  }

  ghost predicate WatermarksMatch(row: Row, stream: Stream, mirroredUpTo: nat, lastItem: nat) {
    && row.maxFinishedSeq == lastItem
    && row.maxFinishedInteractionSeq == stream.lastFinishedSeq
    && row.mirroredUpTo == mirroredUpTo
    && row.enabledAfter == stream.enabledAfter
    && row.projectedUpTo == stream.projectedUpTo
  }

  ghost predicate FactsMatch(row: Row, pending: nat) {
    && row.pendingInteractions == pending
    && (!row.hasInteractionFacts ==>
         row.pendingInteractions == 0 && row.maxFinishedSeq == 0 && row.maxFinishedInteractionSeq == 0)
  }

  ghost predicate RowMatches(row: Row, p: Projection) {
    && LifeMatches(row, p.v.life)
    && WatermarksMatch(row, p.v.stream, p.v.mirror.mirroredUpTo, LastItem(p.mirrors.order))
    && FactsMatch(row, |p.v.talk.pending|)
  }

  lemma MirrorFlag(p: Projection)
    requires MirrorCoherent(p.mirrors, p.v.mirror, p.v.lastSeq) && MarkExact(p)
    ensures LastItem(p.mirrors.order) > p.v.mirror.mirroredUpTo <==> p.mirrors.mirroredCount != p.mirrors.Count()
  {
  }

  lemma RowClassifies(row: Row, p: Projection)
    requires RowMatches(row, p) && Coherent(p) && MarkExact(p) && p.v.life.IsJob()
    ensures Classify(row) == FullObligation(p)
  {
    MirrorFlag(p);
    AbortsReadValidator(p);
    PendingReadsValidator(p);
  }

  lemma MarkStep(p: Projection, q: Projection, entry: Entry)
    requires MarkExact(p) && MirrorCoherent(p.mirrors, p.v.mirror, p.v.lastSeq)
    requires entry.body.Mirrored? ==> Fits(p.v.mirror, entry.body.upTo, entry.body.mirrorOrdinal)
    requires q.v.lastSeq == p.v.lastSeq + 1
    requires q.v.mirror == MirrorAfter(p.v.mirror, q.v.lastSeq, entry.body)
    requires q.mirrors == MirrorLogAfter(p.mirrors, entry.body, ItemOf(q.v.mirror, q.v.lastSeq, entry.body, entry.at))
    ensures MarkExact(q)
    ensures LastItem(q.mirrors.order) ==
              if MirrorBodyOf(entry.body).Some? then q.v.lastSeq else LastItem(p.mirrors.order)
    ensures LastItem(p.mirrors.order) <= p.v.lastSeq
  {
    if entry.body.Mirrored? {
      FindListed(p.mirrors.order, 0, p.v.lastSeq, p.mirrors.mirroredCount, entry.body.upTo, p.v.mirror.unmirrored);
      MarkMoved(p, q, p.mirrors.Find(entry.body.upTo).value, entry.body.upTo);
    } else if MirrorBodyOf(entry.body).Some? {
      var item := ItemOf(q.v.mirror, q.v.lastSeq, entry.body, entry.at).value;
      assert q.mirrors.order == p.mirrors.order + [item];
      assert q.mirrors.order[..q.mirrors.mirroredCount] == p.mirrors.order[..p.mirrors.mirroredCount];
    }
  }

  lemma MarkMoved(p: Projection, q: Projection, i: nat, upTo: nat)
    requires MarkExact(p) && i < |p.mirrors.order| && p.mirrors.order[i].recordSeq == upTo
             && q.v.mirror.mirroredUpTo == upTo
    requires q.mirrors.base == 0 && q.mirrors.order == p.mirrors.order && q.mirrors.mirroredCount == i + 1
    ensures MarkExact(q)
  {
    assert q.mirrors.order[..i + 1][i] == p.mirrors.order[i];
  }

  lemma AbortFollows(life: Life, after: Life, key: AbortKey, info: AbortInfo)
    requires after == life.(aborts := life.aborts[key := info])
    ensures after.aborts != map[] && (after.HasTicketAbort() <==> life.HasTicketAbort() || key.TicketKey?)
  {
    assert key in after.aborts;
    assert forall k :: k in life.aborts ==> k in after.aborts;
  }

  lemma LifeFollows(row: Row, life: Life, s: nat, chain: Chain, body: Record)
    requires LifeMatches(row, life) && !body.Received?
    ensures LifeMatches(RowStep(row, s, body), LifeAfter(life, s, chain, body))
  {
    var after := LifeAfter(life, s, chain, body);
    match body
    case AbortRequested(abort) => AbortFollows(life, after, abort.key, AbortInfo(abort.principal, s, chain));
    case Started => AbortsKept(life, after);
    case DispatchRejected(_, _) => AbortsKept(life, after);
    case SupersedeFenced(_) => AbortsKept(life, after);
    case HaltedRecord(_) => AbortsKept(life, after);
    case ExecutionFailed(_) => AbortsKept(life, after);
    case BundleSealed(_, _) => AbortsKept(life, after);
    case Acked(_) => AbortsKept(life, after);
    case CancelProofOwnerAccepted => AbortsKept(life, after);
    case SettlementOwnerAccepted(_) => AbortsKept(life, after);
    case ControlLeaseRenewed(_) => AbortsKept(life, after);
    case _ =>
  }

  lemma AbortsKept(life: Life, after: Life)
    requires after.aborts == life.aborts
    ensures after.HasTicketAbort() <==> life.HasTicketAbort()
  {
  }

  lemma WatermarksFollow(row: Row, stream: Stream, m: Mirror, lastItem: nat, s: nat, chain: Chain, body: Record)
    requires WatermarksMatch(row, stream, m.mirroredUpTo, lastItem) && lastItem < s && stream.lastFinishedSeq < s
    ensures WatermarksMatch(RowStep(row, s, body), StreamAfter(stream, s, chain, body),
                            MirrorAfter(m, s, body).mirroredUpTo,
                            if MirrorBodyOf(body).Some? then s else lastItem)
  {
  }

  lemma FactsFollow(row: Row, talk: Talk, s: nat, body: Record)
    requires FactsMatch(row, |talk.pending|)
    requires body.InteractionRequested? ==> body.requestId !in talk.pending
    requires body.InteractionFinished? ==> body.requestId in talk.pending
    ensures FactsMatch(RowStep(row, s, body), |TalkAfter(talk, body).pending|)
  {
  }

  lemma FreshRequest(v: Validation, rq: Requests, body: Record)
    requires Admitted(v, body) && RequestsCoherent(rq, v.talk, v.lastSeq)
    ensures body.InteractionRequested? ==> body.requestId !in v.talk.pending
    ensures body.InteractionFinished? ==> body.requestId in v.talk.pending
  {
  }

  lemma RowFollows(row: Row, p: Projection, q: Projection, body: Record)
    requires RowMatches(row, p) && p.v.stream.lastFinishedSeq <= p.v.lastSeq && LastItem(p.mirrors.order) <= p.v.lastSeq
    requires body.InteractionRequested? ==> body.requestId !in p.v.talk.pending
    requires body.InteractionFinished? ==> body.requestId in p.v.talk.pending
    requires q.v == Commit(p.v, body) && !body.Received?
    requires LastItem(q.mirrors.order) == if MirrorBodyOf(body).Some? then q.v.lastSeq else LastItem(p.mirrors.order)
    ensures RowMatches(RowStep(row, q.v.lastSeq, body), q)
  {
    LifeFollows(row, p.v.life, q.v.lastSeq, q.v.chain, body);
    WatermarksFollow(row, p.v.stream, p.v.mirror, LastItem(p.mirrors.order), q.v.lastSeq, q.v.chain, body);
    FactsFollow(row, p.v.talk, q.v.lastSeq, body);
  }

  /** A received job without a row is over, and owes nothing it could ever be asked for. */
  ghost predicate Quiet(p: Projection) {
    Over(p.v.life.phase) && !p.v.life.phase.SealedPhase? && p.v.Clean() && !PendingTicket(p)
  }

  ghost predicate Exact(row: Option<Row>, p: Projection) {
    if !p.v.life.IsJob() then row.None?
    else if row.Some? then RowMatches(row.value, p)
    else Quiet(p)
  }

  lemma QuietStays(p: Projection, q: Projection, entry: Entry)
    requires Quiet(p) && AbortsCoherent(p.status.aborts, p.v.life.aborts) && Step(p, entry) == Some(q)
    ensures Quiet(q) && !entry.body.Received?
  {
    EndingCloses(p.v, entry.body);
    OnlyAftermath(p.v, entry.body);
  }

  lemma ReceivedRow(row: Option<Row>, p: Projection, q: Projection, s: nat, entry: Entry)
    requires Coherent(p) && p.v.Clean() && Step(p, entry) == Some(q) && entry.body.Received?
    requires MarkExact(p) && p.v.life.ref.None? && !p.v.life.started && NothingYet(p)
    ensures Exact(Track(row, s, entry.body), q)
  {
  }

  /** Before it is received, an assignment has no interaction history at all. */
  ghost predicate NothingYet(p: Projection) {
    p.v.life.ref.None? ==>
      && p.mirrors.order == [] && p.v.stream == Create(0).stream && p.v.talk.pending == {}
      && p.v.mirror.mirroredUpTo == 0 && !p.v.life.proofAccepted && p.v.life.settlement.None?
  }

  lemma NothingYetStep(p: Projection, q: Projection, entry: Entry)
    requires NothingYet(p) && Coherent(p) && Step(p, entry) == Some(q)
    ensures NothingYet(q)
  {
    AdmittedNeverCorrupt(p, entry);
    if p.v.life.ref.None? && q.v.life.ref.None? {
      PendingReadsValidator(p);
      assert p.v.mirror.unmirrored == map[] by { MirroredReadsValidator(p); }
    }
  }

  // ---------------------------------------------------------------- whole runs

  lemma {:induction false} ReplayMarks(id: AssignmentId, log: seq<Entry>)
    requires Replay(id, log).Some?
    ensures MarkExact(Replay(id, log).value) && NothingYet(Replay(id, log).value)
    decreases |log|
  {
    if log != [] {
      var shorter, entry := log[..|log| - 1], log[|log| - 1];
      ReplayMarks(id, shorter);
      LastStep(id, log);
      var p, q := Replay(id, shorter).value, Replay(id, log).value;
      MarkTracked(p, q, entry);
      NothingYetStep(p, q, entry);
    }
  }

  lemma StepParts(p: Projection, q: Projection, entry: Entry)
    requires Step(p, entry) == Some(q)
    ensures Admitted(p.v, entry.body) && q.v == Commit(p.v, entry.body)
    ensures q.mirrors == MirrorLogAfter(p.mirrors, entry.body, ItemOf(q.v.mirror, q.v.lastSeq, entry.body, entry.at))
  {
  }

  lemma MarkTracked(p: Projection, q: Projection, entry: Entry)
    requires MarkExact(p) && MirrorCoherent(p.mirrors, p.v.mirror, p.v.lastSeq) && Step(p, entry) == Some(q)
    ensures MarkExact(q)
    ensures LastItem(q.mirrors.order) ==
              if MirrorBodyOf(entry.body).Some? then q.v.lastSeq else LastItem(p.mirrors.order)
    ensures LastItem(p.mirrors.order) <= p.v.lastSeq
  {
    StepParts(p, q, entry);
    if entry.body.Mirrored? { AdmittedFits(p.v, entry.body); }
    MarkStep(p, q, entry);
  }

  lemma TrackedStep(row: Row, p: Projection, q: Projection, entry: Entry)
    requires RowMatches(row, p) && Coherent(p) && MarkExact(p) && Step(p, entry) == Some(q) && !entry.body.Received?
    ensures RowMatches(RowStep(row, q.v.lastSeq, entry.body), q)
  {
    StepParts(p, q, entry);
    MarkTracked(p, q, entry);
    FreshRequest(p.v, p.requests, entry.body);
    RowFollows(row, p, q, entry.body);
  }

  lemma TrackStep(row: Option<Row>, p: Projection, q: Projection, s: nat, entry: Entry)
    requires s == p.v.lastSeq + 1
    requires Exact(row, p) && Coherent(p) && MarkExact(p) && NothingYet(p) && Step(p, entry) == Some(q)
    requires p.v.life.phase.StartedPhase? || p.v.Clean()
    ensures Exact(Track(row, s, entry.body), q)
  {
    if entry.body.Received? {
      TrackNew(row, p, q, s, entry);
    } else {
      TrackKept(row, p, q, entry);
    }
  }

  lemma TrackNew(row: Option<Row>, p: Projection, q: Projection, s: nat, entry: Entry)
    requires Coherent(p) && MarkExact(p) && NothingYet(p) && Step(p, entry) == Some(q) && entry.body.Received?
    requires p.v.life.phase.StartedPhase? || p.v.Clean()
    ensures Exact(Track(row, s, entry.body), q)
  {
    NotYetReceived(p, entry.body);
    ReceivedRow(row, p, q, s, entry);
  }

  lemma NotYetReceived(p: Projection, body: Record)
    requires StatusCoherent(p.status, p.v.life) && Admitted(p.v, body) && body.Received?
    ensures p.v.life.ref.None? && !p.v.life.started && p.v.life.phase.Unknown?
  {
  }

  lemma TrackKept(row: Option<Row>, p: Projection, q: Projection, entry: Entry)
    requires Exact(row, p) && Coherent(p) && MarkExact(p) && Step(p, entry) == Some(q) && !entry.body.Received?
    ensures Exact(Track(row, p.v.lastSeq + 1, entry.body), q)
  {
    JobKept(p, q, entry);
    if row.Some? {
      TrackedStep(row.value, p, q, entry);
    } else if p.v.life.IsJob() {
      QuietStays(p, q, entry);
    }
  }

  lemma JobKept(p: Projection, q: Projection, entry: Entry)
    requires Step(p, entry) == Some(q) && !entry.body.Received?
    ensures q.v.life.ref == p.v.life.ref && q.v.lastSeq == p.v.lastSeq + 1
  {
  }

  lemma {:induction false} TrackAllExact(id: AssignmentId, log: seq<Entry>, records: seq<Entry>, row: Option<Row>,
      p: Projection, q: Projection)
    requires Replay(id, log) == Some(p) && Replay(id, log + records) == Some(q) && Exact(row, p)
    ensures Exact(TrackAll(row, |log|, records), q)
    decreases |records|
  {
    if records == [] {
      assert log + records == log;
    } else {
      var shorter, entry := records[..|records| - 1], records[|records| - 1];
      assert (log + shorter) + [entry] == log + records;
      ReplayPrefix(id, log + shorter, [entry]);
      var r := Replay(id, log + shorter).value;
      TrackAllExact(id, log, shorter, row, p, r);
      NextExact(id, log + shorter, |log| + |records|, entry, TrackAll(row, |log|, shorter),
                TrackAll(row, |log|, records), r, q);
    }
  }

  lemma NextExact(id: AssignmentId, log: seq<Entry>, s: nat, entry: Entry, row: Option<Row>, after: Option<Row>,
      p: Projection, q: Projection)
    requires Replay(id, log) == Some(p) && Replay(id, log + [entry]) == Some(q) && Exact(row, p) && s == |log| + 1
    requires after == Track(row, s, entry.body)
    ensures Exact(after, q)
  {
    assert (log + [entry])[..|log|] == log;
    ReplayCoherent(id, log);
    ReplayMarks(id, log);
    EndedClean(id, log);
    TrackStep(row, p, q, s, entry);
  }

  /** A row is dropped only when its job can never owe anything again. */
  lemma SettleExact(row: Option<Row>, p: Projection)
    requires Exact(row, p) && Coherent(p) && MarkExact(p) && (p.v.life.phase.StartedPhase? || p.v.Clean())
    requires p.v.life.IsJob() ==> p.v.life.phase != Unknown
    requires p.v.life.phase.SealedPhase? ==> p.v.life.aborts == map[]
    ensures Exact(Settle(row), p)
  {
    if row.Some? && p.v.life.IsJob() { RowClassifies(row.value, p); }
  }

  /** The stored row of an assignment after a run of commits. */
  function StoredRow(commits: seq<seq<Entry>>): Option<Row>
    decreases |commits|
  {
    if commits == [] then None
    else
      var before := commits[..|commits| - 1];
      CommitRow(StoredRow(before), |Flat(before)|, commits[|commits| - 1])
  }

  /** A sealed assignment was never cancelled. */
  lemma {:induction false} SealedUncancelled(id: AssignmentId, log: seq<Entry>)
    requires Replay(id, log).Some?
    ensures var life := Replay(id, log).value.v.life;
            && (life.phase.SealedPhase? ==> life.aborts == map[])
            && (life.IsJob() ==> life.phase != Unknown)
    decreases |log|
  {
    if log != [] {
      LastStep(id, log);
      SealedUncancelled(id, log[..|log| - 1]);
      SealedStep(Replay(id, log[..|log| - 1]).value.v, log[|log| - 1].body);
    }
  }

  lemma SealedStep(v: Validation, body: Record)
    requires Admitted(v, body)
    ensures (v.life.phase.SealedPhase? ==> v.life.aborts == map[]) ==>
              (Commit(v, body).life.phase.SealedPhase? ==> Commit(v, body).life.aborts == map[])
    ensures (v.life.IsJob() ==> v.life.phase != Unknown) ==>
              (Commit(v, body).life.IsJob() ==> Commit(v, body).life.phase != Unknown)
  {
  }

  lemma {:induction false} StoredRowExact(id: AssignmentId, commits: seq<seq<Entry>>)
    requires Replay(id, Flat(commits)).Some?
    ensures Exact(StoredRow(commits), Replay(id, Flat(commits)).value)
    decreases |commits|
  {
    if commits != [] {
      var before, last := commits[..|commits| - 1], commits[|commits| - 1];
      ReplayPrefix(id, Flat(before), last);
      StoredRowExact(id, before);
      CommitExact(id, Flat(before), last, StoredRow(before));
    }
  }

  lemma CommitExact(id: AssignmentId, log: seq<Entry>, records: seq<Entry>, row: Option<Row>)
    requires Replay(id, log).Some? && Replay(id, log + records).Some? && Exact(row, Replay(id, log).value)
    ensures Exact(CommitRow(row, |log|, records), Replay(id, log + records).value)
  {
    if records == [] {
      assert log + records == log;
    } else {
      TrackAllExact(id, log, records, row, Replay(id, log).value, Replay(id, log + records).value);
      SettledExact(id, log + records, TrackAll(row, |log|, records));
    }
  }

  lemma SettledExact(id: AssignmentId, log: seq<Entry>, row: Option<Row>)
    requires Replay(id, log).Some? && Exact(row, Replay(id, log).value)
    ensures Exact(Settle(row), Replay(id, log).value)
  {
    ReplayCoherent(id, log);
    ReplayMarks(id, log);
    EndedClean(id, log);
    SealedUncancelled(id, log);
    SettleExact(row, Replay(id, log).value);
  }

  lemma ExactObligation(row: Option<Row>, p: Projection)
    requires Exact(row, p) && p.v.life.IsJob() && Coherent(p) && MarkExact(p)
    ensures Owed(row) == FullObligation(p)
  {
    if row.Some? {
      RowClassifies(row.value, p);
    } else {
      GuardsReadValidator(p);
    }
  }

  /** On every run of commits, what the index lists for a received job is what full replay would compute. */
  lemma JobIndexExact(id: AssignmentId, commits: seq<seq<Entry>>, p: Projection)
    requires Replay(id, Flat(commits)) == Some(p) && p.v.life.IsJob()
    ensures Owed(StoredRow(commits)) == FullObligation(p)
  {
    StoredRowExact(id, commits);
    ReplayCoherent(id, Flat(commits));
    ReplayMarks(id, Flat(commits));
    ExactObligation(StoredRow(commits), p);
  }

  /** A dropped row stays dropped, and from then on full replay never finds an obligation again. */
  lemma {:induction false} TombstoneForever(id: AssignmentId, commits: seq<seq<Entry>>, later: seq<seq<Entry>>,
      p: Projection, q: Projection)
    requires Replay(id, Flat(commits)) == Some(p) && Replay(id, Flat(commits + later)) == Some(q)
    requires p.v.life.IsJob() && StoredRow(commits).None?
    ensures StoredRow(commits + later).None? && q.v.life.IsJob() && FullObligation(q) == NothingOwed
    decreases |later|
  {
    var all := commits + later;
    if later == [] {
      assert all == commits;
    } else {
      var before, last := later[..|later| - 1], later[|later| - 1];
      assert all[..|all| - 1] == commits + before;
      ReplayPrefix(id, Flat(commits + before), last);
      var r := Replay(id, Flat(commits + before)).value;
      TombstoneForever(id, commits, before, p, r);
      StoredRowExact(id, commits + before);
      QuietCommit(id, Flat(commits + before), last, r, q);
    }
    JobIndexExact(id, all, q);
  }

  lemma {:induction false} QuietCommit(id: AssignmentId, log: seq<Entry>, records: seq<Entry>, p: Projection,
      q: Projection)
    requires Replay(id, log) == Some(p) && Replay(id, log + records) == Some(q) && p.v.life.IsJob() && Quiet(p)
    ensures Quiet(q) && q.v.life.IsJob() && TrackAll(None, |log|, records).None?
    decreases |records|
  {
    if records == [] {
      assert log + records == log;
    } else {
      var shorter, entry := records[..|records| - 1], records[|records| - 1];
      assert (log + records)[..|log + records| - 1] == log + shorter;
      var r := Replay(id, log + shorter).value;
      QuietCommit(id, log, shorter, p, r);
      ReplayCoherent(id, log + shorter);
      QuietStays(r, q, entry);
      JobKept(r, q, entry);
    }
  }

  // ---------------------------------------------------------------- the reducer over one envelope

  /** A record of some assignment inside a committed envelope. */
  datatype Item = Item(assignment: AssignmentId, recordSeq: nat, body: Record)

  type Table = map<AssignmentId, Row>

  function Stored(table: Table, id: AssignmentId): Option<Row> {
    if id in table then Some(table[id]) else None
  }

  /** Folds an envelope's records of one assignment onto its row. */
  function Folded(row: Option<Row>, envelope: seq<Item>, id: AssignmentId): Option<Row>
    decreases |envelope|
  {
    if envelope == [] then row
    else
      var before, item := Folded(row, envelope[..|envelope| - 1], id), envelope[|envelope| - 1];
      if item.assignment == id then Track(before, item.recordSeq, item.body) else before
  }

  predicate Touches(envelope: seq<Item>, id: AssignmentId) {
    exists i :: 0 <= i < |envelope| && envelope[i].assignment == id
  }

  datatype Working = Working(value: Option<Row>, touched: bool)

  /** Folds the records of an envelope onto the rows they touch, each stored row being read once. */
  method FoldEnvelope(table: Table, envelope: seq<Item>) returns (working: map<AssignmentId, Working>)
    ensures forall id :: id in working <==> Touches(envelope, id)
    ensures forall id :: id in working ==> working[id].value == Folded(Stored(table, id), envelope, id)
    ensures forall id :: id in working && !working[id].touched ==> working[id].value.None? && Stored(table, id).None?
  {
    working := map[];
    var i := 0;
    while i < |envelope|
      invariant 0 <= i <= |envelope|
      invariant forall id :: id in working <==> Touches(envelope[..i], id)
      invariant forall id :: id in working ==> working[id].value == Folded(Stored(table, id), envelope[..i], id)
      invariant forall id ::
                  id in working && !working[id].touched ==> working[id].value.None? && Stored(table, id).None?
    {
      var item := envelope[i];
      ghost var prefix := envelope[..i];
      assert envelope[..i + 1] == prefix + [item];
      TouchesNext(prefix, item);
      FoldedNext(prefix, item);
      var pending :=
        if item.assignment in working then working[item.assignment] else Working(Stored(table, item.assignment), false);
      if item.assignment !in working { UntouchedFold(Stored(table, item.assignment), prefix, item.assignment); }
      if pending.value.Some? || item.body.Received? {
        pending := Working(Track(pending.value, item.recordSeq, item.body), true);
      }
      working := working[item.assignment := pending];
      i := i + 1;
    }
    assert envelope[..i] == envelope;
  }

  /** The reducer: folds an envelope, then puts or drops the rows it changed.  Other rows keep their value. */
  method ReduceEnvelope(table: Table, envelope: seq<Item>) returns (after: Table)
    ensures forall id :: Stored(after, id) ==
              if Touches(envelope, id) then Settle(Folded(Stored(table, id), envelope, id)) else Stored(table, id)
  {
    var working := FoldEnvelope(table, envelope);
    after := table;
    var todo := working.Keys;
    while todo != {}
      invariant todo <= working.Keys
      invariant forall id :: Stored(after, id) ==
                  if id in working && id !in todo then Settle(working[id].value) else Stored(table, id)
      decreases |todo|
    {
      var id :| id in todo;
      todo := todo - {id};
      if working[id].touched {
        var value := Settle(working[id].value);
        after := if value.Some? then after[id := value.value] else after - {id};
      }
    }
  }

  lemma FoldedNext(prefix: seq<Item>, item: Item)
    ensures forall row, id :: Folded(row, prefix + [item], id) ==
              if item.assignment == id then Track(Folded(row, prefix, id), item.recordSeq, item.body)
              else Folded(row, prefix, id)
  {
    assert (prefix + [item])[..|prefix|] == prefix;
  }

  lemma TouchesNext(prefix: seq<Item>, item: Item)
    ensures forall id :: Touches(prefix + [item], id) <==> Touches(prefix, id) || item.assignment == id
  {
    var longer := prefix + [item];
    assert longer[|prefix|] == item;
    forall id | Touches(prefix, id) ensures Touches(longer, id) {
      var i :| 0 <= i < |prefix| && prefix[i].assignment == id;
      assert longer[i].assignment == id;
    }
  }

  lemma {:induction false} UntouchedFold(row: Option<Row>, envelope: seq<Item>, id: AssignmentId)
    requires !Touches(envelope, id)
    ensures Folded(row, envelope, id) == row
    decreases |envelope|
  {
    if envelope != [] {
      var shorter := envelope[..|envelope| - 1];
      assert envelope == shorter + [envelope[|envelope| - 1]];
      TouchesNext(shorter, envelope[|envelope| - 1]);
      UntouchedFold(row, shorter, id);
    }
  }

  /** The records of one assignment inside an envelope committed at time `at`. */
  function RecordsOf(envelope: seq<Item>, id: AssignmentId, at: Time): seq<Entry>
    decreases |envelope|
  {
    if envelope == [] then []
    else
      var before, item := RecordsOf(envelope[..|envelope| - 1], id, at), envelope[|envelope| - 1];
      if item.assignment == id then before + [Entry(item.body, at)] else before
  }

  /** An assignment's records are numbered consecutively after `from`. */
  ghost predicate Consecutive(envelope: seq<Item>, id: AssignmentId, from: nat, at: Time) {
    forall i :: 0 <= i < |envelope| && envelope[i].assignment == id ==>
      envelope[i].recordSeq == from + |RecordsOf(envelope[..i], id, at)| + 1
  }

  /** Inside an envelope that also carries other assignments, each row moves as if its records came alone. */
  lemma {:induction false} EnvelopeIsCommit(row: Option<Row>, envelope: seq<Item>, id: AssignmentId, from: nat,
      at: Time)
    requires Consecutive(envelope, id, from, at)
    ensures Folded(row, envelope, id) == TrackAll(row, from, RecordsOf(envelope, id, at))
    decreases |envelope|
  {
    if envelope != [] {
      var shorter, item := envelope[..|envelope| - 1], envelope[|envelope| - 1];
      forall i | 0 <= i < |shorter| && shorter[i].assignment == id
        ensures shorter[i].recordSeq == from + |RecordsOf(shorter[..i], id, at)| + 1
      {
        assert shorter[..i] == envelope[..i];
      }
      EnvelopeIsCommit(row, shorter, id, from, at);
      if item.assignment == id {
        var records := RecordsOf(envelope, id, at);
        assert records[..|records| - 1] == RecordsOf(shorter, id, at);
      }
    }
  }
}
