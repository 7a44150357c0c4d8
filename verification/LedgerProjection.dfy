/** The executor's projection of one assignment ledger, and its coherence with the shared validator.

    Facts that the projection merely copies from the validator (phase, control, projection
    watermarks) are kept once, in `v`. */
module LedgerProjection {
  import opened Options
  import opened LedgerRecords
  import opened LedgerValidator

  datatype Receipt = Receipt(owner: DeviceId, envelope: Payload, recordSeq: nat, digest: Chain)

  datatype Rejection = Rejection(dispatch: Payload, reason: Payload, recordSeq: nat, digest: Chain)

  datatype Position = Position(recordSeq: nat, digest: Chain)

  datatype FencedAt = FencedAt(fence: Fence, recordSeq: nat, digest: Chain)

  datatype Status = Status(
    received: Option<Receipt>,
    rejection: Option<Rejection>,
    startedAt: Option<Position>,
    fencedAt: Option<FencedAt>,
    aborts: seq<Abort>,
    halted: Option<CancelProof>,
    failure: Option<Payload>,
    sealed: Option<Record>,
    acked: Option<nat>)

  /** Interaction requests and results; `pending` is in request order. */
  datatype Requests = Requests(
    requested: map<RequestId, Requested>,
    pending: seq<Requested>,
    finished: map<RequestId, MirrorItem>)

  /** The mirror chain from global index `base` on. */
  datatype MirrorLog = MirrorLog(
    base: nat,
    order: seq<MirrorItem>,
    mirroredCount: nat,
    mirroredDigest: MirrorChain)
  {
    function Count(): nat { base + |order| }

    /** The chain item of record `s`, as an index into `order`. */
    function Find(s: nat): Option<nat> { IndexOf(order, s) }
  }

  function IndexOf(order: seq<MirrorItem>, s: nat): (r: Option<nat>)
    ensures r.Some? ==> r.value < |order| && order[r.value].recordSeq == s
    ensures r.None? ==> forall i :: 0 <= i < |order| ==> order[i].recordSeq != s
  {
    if order == [] then None
    else if order[|order| - 1].recordSeq == s then Some(|order| - 1)
    else IndexOf(order[..|order| - 1], s)
  }

  datatype SideEffect = SideEffect(input: Payload, result: Option<Payload>)

  datatype Mutations = Mutations(order: seq<Staged>, byId: map<RequestId, Staged>)

  /** The recovery shortcut: up to where history was dropped, and which keys were looked up since. */
  datatype Shortcut = Shortcut(
    historyBase: nat,
    omittedUpTo: nat,
    checked: set<RequestId>,
    historic: map<nat, MirrorItem>)

  datatype Projection = Projection(
    v: Validation,
    status: Status,
    requests: Requests,
    mirrors: MirrorLog,
    effects: map<nat, SideEffect>,
    mutations: Mutations,
    shortcut: Shortcut)
  {
    predicate HasOpenEffect() {
      exists e :: e in effects && effects[e].result.None?
    }

    predicate HasPendingObligations() {
      || requests.pending != []
      || mirrors.mirroredCount != mirrors.Count()
      || (v.life.IsJob() && v.stream.enabledAfter.Some? && v.stream.projectedUpTo < v.stream.lastFinishedSeq)
    }

    predicate OmitsHistory() { shortcut.historyBase > 0 }
  }

  function Empty(id: AssignmentId): Projection {
    Projection(Create(id),
               Status(None, None, None, None, [], None, None, None, None),
               Requests(map[], [], map[]),
               MirrorLog(0, [], 0, MirrorSeed(id)),
               map[],
               Mutations([], map[]),
               Shortcut(0, 0, {}, map[]))
  }

  // ---------------------------------------------------------------- applying an admitted record

  predicate HasRequest(rs: seq<Requested>, id: RequestId) {
    exists r :: r in rs && r.id == id
  }

  function Without(rs: seq<Requested>, id: RequestId): seq<Requested> {
    if rs == [] then []
    else if rs[0].id == id then Without(rs[1..], id)
    else [rs[0]] + Without(rs[1..], id)
  }

  function StatusAfter(st: Status, s: nat, chain: Chain, body: Record): Status {
    match body
    case Received(_, owner, envelope) => st.(received := Some(Receipt(owner, envelope, s, chain)))
    case DispatchRejected(dispatch, reason) => st.(rejection := Some(Rejection(dispatch, reason, s, chain)))
    case SupersedeFenced(fence) => st.(fencedAt := Some(FencedAt(fence, s, chain)))
    case Started => st.(startedAt := Some(Position(s, chain)))
    case AbortRequested(a) => st.(aborts := st.aborts + [a])
    case HaltedRecord(proof) => st.(halted := Some(proof))
    case ExecutionFailed(failure) => st.(failure := Some(failure))
    case BundleSealed(_, _) => st.(sealed := Some(body))
    case Acked(revision) => st.(acked := Some(revision))
    case _ => st
  }

  /** The mirror-chain item of a record, numbered by the validator's checkpoint for it. */
  function ItemOf(m: Mirror, s: nat, body: Record, at: Time): Option<MirrorItem> {
    match MirrorBodyOf(body)
    case None => None
    case Some(item) =>
      if s in m.unmirrored then Some(MirrorItem(item, s, at, m.unmirrored[s].ordinal, m.unmirrored[s].digest)) else None
  }

  function RequestsAfter(rq: Requests, s: nat, body: Record, item: Option<MirrorItem>): Requests {
    match body
    case InteractionRequested(id, request) =>
      var r := Requested(id, request, s);
      rq.(requested := rq.requested[id := r], pending := rq.pending + [r])
    case InteractionFinished(id, _) =>
      if item.None? then rq
      else rq.(pending := Without(rq.pending, id), finished := rq.finished[id := item.value])
    case _ => rq
  }

  function MirrorLogAfter(m: MirrorLog, body: Record, item: Option<MirrorItem>): MirrorLog {
    if body.Mirrored? then
      if m.Find(body.upTo).Some?
      then m.(mirroredCount := m.base + m.Find(body.upTo).value + 1, mirroredDigest := body.mirrorDigest)
      else m
    else if item.Some? then m.(order := m.order + [item.value])
    else m
  }

  function EffectsAfter(effects: map<nat, SideEffect>, body: Record): map<nat, SideEffect> {
    match body
    case SideEffectStarted(e, input) => effects[e := SideEffect(input, None)]
    case SideEffectCompleted(e, result) =>
      if e in effects then effects[e := SideEffect(effects[e].input, Some(result))] else effects
    case _ => effects
  }

  function MutationsAfter(m: Mutations, body: Record): Mutations {
    match body
    case StagedMutation(s) => Mutations(m.order + [s], m.byId[s.requestId := s])
    case _ => m
  }

  /** Whether folding the record finds what it refers to; otherwise `applyEntry` reports a corrupt ledger. */
  predicate Applicable(p: Projection, body: Record, item: Option<MirrorItem>) {
    match body
    case InteractionFinished(id, _) => item.Some? && HasRequest(p.requests.pending, id)
    case TrustSediment(_, _) => item.Some?
    case SideEffectCompleted(e, _) => e in p.effects
    case Mirrored(upTo, _, _) => p.mirrors.Find(upTo).Some?
    case _ => true
  }

  /** `applyEntry` after validation has moved on to `v`. */
  function Apply(p: Projection, v: Validation, entry: Entry): Projection {
    var item := ItemOf(v.mirror, v.lastSeq, entry.body, entry.at);
    Projection(v,
               StatusAfter(p.status, v.lastSeq, v.chain, entry.body),
               RequestsAfter(p.requests, v.lastSeq, entry.body, item),
               MirrorLogAfter(p.mirrors, entry.body, item),
               EffectsAfter(p.effects, entry.body),
               MutationsAfter(p.mutations, entry.body),
               p.shortcut)
  }

  /** Validation followed by application, as one replayed record. */
  function Step(p: Projection, entry: Entry): Option<Projection> {
    match Advance(p.v, entry.body)
    case None => None
    case Some(v) =>
      if Applicable(p, entry.body, ItemOf(v.mirror, v.lastSeq, entry.body, entry.at)) then Some(Apply(p, v, entry))
      else None
  }

  /** Reduces further records onto a projection, stopping at the first that is refused. */
  function Reduce(p: Projection, tail: seq<Entry>): Option<Projection>
    decreases |tail|
  {
    if tail == [] then Some(p)
    else
      match Reduce(p, tail[..|tail| - 1])
      case None => None
      case Some(q) => Step(q, tail[|tail| - 1])
  }

  /** The records of a run of commits, in order. */
  function Flat(commits: seq<seq<Entry>>): seq<Entry>
    decreases |commits|
  {
    if commits == [] then [] else Flat(commits[..|commits| - 1]) + commits[|commits| - 1]
  }

  function Replay(id: AssignmentId, log: seq<Entry>): Option<Projection> {
    Reduce(Empty(id), log)
  }
}

/** The executor's projection and the validator never drift apart. */
module LedgerCoherence {
  import opened Options
  import opened LedgerRecords
  import opened LedgerValidator
  import opened LedgerProjection

  ghost predicate DistinctIds(rs: seq<Requested>) {
    forall i, j :: 0 <= i < j < |rs| ==> rs[i].id != rs[j].id
  }

  /** A request is pending exactly until its result, and its result follows it. */
  ghost predicate RequestsCoherent(rq: Requests, talk: Talk, lastSeq: nat) {
    && DistinctIds(rq.pending)
    && (forall r :: r in rq.pending ==> r.id in rq.requested && rq.requested[r.id] == r && r.id !in rq.finished)
    && (forall id :: id in rq.requested && id !in rq.finished ==> rq.requested[id] in rq.pending)
    && (forall id :: id in rq.requested ==> rq.requested[id].id == id && rq.requested[id].recordSeq <= lastSeq)
    && (forall id :: id in rq.finished ==>
          && id in rq.requested
          && rq.requested[id].recordSeq < rq.finished[id].recordSeq <= lastSeq
          && rq.finished[id].body.FinishedBody?
          && rq.finished[id].body.requestId == id)
    && talk.requested == rq.requested.Keys
    && talk.pending == rq.requested.Keys - rq.finished.Keys
  }

  /** The kept suffix of the mirror chain is numbered and ordered. */
  ghost predicate Numbered(order: seq<MirrorItem>, base: nat, lastSeq: nat) {
    && (forall i :: 0 <= i < |order| ==> order[i].ordinal == base + i + 1 && order[i].recordSeq <= lastSeq)
    && (forall i, j :: 0 <= i < j < |order| ==> order[i].recordSeq < order[j].recordSeq)
  }

  ghost predicate Listed(order: seq<MirrorItem>, from: nat, s: nat) {
    exists i :: from <= i < |order| && order[i].recordSeq == s
  }

  /** From position `from` on, the kept items are exactly those the validator still waits for. */
  ghost predicate Awaited(order: seq<MirrorItem>, from: nat, unmirrored: map<nat, MirrorCheckpoint>) {
    && (forall i :: from <= i < |order| ==>
          && order[i].recordSeq in unmirrored
          && unmirrored[order[i].recordSeq] == MirrorCheckpoint(order[i].ordinal, order[i].digest))
    && (forall s :: s in unmirrored ==> Listed(order, from, s))
  }

  ghost predicate MirrorCoherent(ml: MirrorLog, m: Mirror, lastSeq: nat) {
    && ml.Count() == m.finishedCount
    && ml.base <= ml.mirroredCount == m.mirroredOrdinal <= ml.Count()
    && m.mirroredUpTo <= lastSeq
    && (forall s :: s in m.unmirrored ==> m.mirroredUpTo < s <= lastSeq)
    && Numbered(ml.order, ml.base, lastSeq)
    && Awaited(ml.order, ml.mirroredCount - ml.base, m.unmirrored)
  }

  ghost predicate EffectsCoherent(effects: map<nat, SideEffect>, w: Work) {
    && (forall e :: e in w.openEffects <==> e in effects && effects[e].result.None?)
    && (forall e :: e in effects ==> 1 <= e <= w.effectCount)
  }

  /** Unprojected results are exactly those behind the projection watermark. */
  ghost predicate StreamCoherent(st: Stream, job: bool, lastSeq: nat) {
    && (st.enabledAfter.Some? ==> job)
    && st.lastFinishedSeq <= lastSeq
    && (st.enabledAfter.None? ==> st.unprojected == {})
    && (st.enabledAfter.Some? ==>
          && st.enabledAfter.value <= st.projectedUpTo <= lastSeq
          && (st.lastFinishedSeq > st.projectedUpTo ==> st.lastFinishedSeq in st.unprojected)
          && (forall s :: s in st.unprojected ==> st.projectedUpTo < s <= st.lastFinishedSeq))
  }

  ghost predicate StatusCoherent(st: Status, life: Life) {
    && (st.received.Some? <==> life.ref.Some?)
    && (life.ref.Some? ==>
          && life.control.Some?
          && life.control.value.authority == life.ref.value
          && st.received.value.owner == life.control.value.owner)
    && (life.started ==> life.ref.Some?)
    && (st.startedAt.Some? <==> life.started)
    && (life.phase.ReceivedPhase? ==> life.ref.Some? && !life.started)
    && (life.phase.Unknown? || life.phase.RejectedPhase? ==> life.ref.None?)
    && (life.phase.StartedPhase? || life.phase.FailedPhase? || life.phase.SealedPhase? || life.phase.AckedPhase? ==>
         life.started)
    && (life.phase.FencedPhase? ==> !life.started)
    && (st.rejection.Some? <==> life.phase.RejectedPhase?)
    && (st.fencedAt.Some? <==> life.phase.FencedPhase?)
    && (st.halted.Some? <==> life.phase.HaltedPhase?)
    && (st.failure.Some? <==> life.phase.FailedPhase?)
    && (st.sealed.Some? <==> life.phase.SealedPhase? || life.phase.AckedPhase?)
    && (st.acked.Some? <==> life.phase.AckedPhase?)
  }

  ghost predicate AbortsCoherent(aborts: seq<Abort>, recorded: map<AbortKey, AbortInfo>) {
    && (forall a :: a in aborts ==> a.key in recorded && recorded[a.key].principal == a.principal)
    && (forall key :: key in recorded ==> exists a :: a in aborts && a.key == key)
  }

  ghost predicate MutationsCoherent(m: Mutations, w: Work) {
    && |m.order| == w.stagedCount
    && m.byId.Keys == w.mutationIds
    && (forall i :: 0 <= i < |m.order| ==> m.order[i].position == i + 1)
    && (forall id :: id in m.byId ==> m.byId[id].requestId == id && m.byId[id] in m.order)
  }

  /** Everything the projection and the validator agree on after each record. */
  ghost predicate Coherent(p: Projection) {
    && RequestsCoherent(p.requests, p.v.talk, p.v.lastSeq)
    && MirrorCoherent(p.mirrors, p.v.mirror, p.v.lastSeq)
    && EffectsCoherent(p.effects, p.v.work)
    && StreamCoherent(p.v.stream, p.v.life.IsJob(), p.v.lastSeq)
    && StatusCoherent(p.status, p.v.life)
    && AbortsCoherent(p.status.aborts, p.v.life.aborts)
    && MutationsCoherent(p.mutations, p.v.work)
  }

  lemma {:induction false} WithoutMembers(rs: seq<Requested>, id: RequestId)
    ensures forall r :: r in Without(rs, id) <==> r in rs && r.id != id
    ensures DistinctIds(rs) ==> DistinctIds(Without(rs, id))
  {
    if rs != [] {
      WithoutMembers(rs[1..], id);
      assert forall r :: r in rs <==> r == rs[0] || r in rs[1..];
      if DistinctIds(rs) && rs[0].id != id {
        assert DistinctIds(rs[1..]);
        var w := Without(rs[1..], id);
        forall i, j | 0 <= i < j < |w| + 1 ensures ([rs[0]] + w)[i].id != ([rs[0]] + w)[j].id {
          assert w[j - 1] in rs[1..];
          if i > 0 { assert w[i - 1].id != w[j - 1].id; }
        }
      }
    }
  }

  lemma RequestedStep(rq: Requests, talk: Talk, lastSeq: nat, r: Requested)
    requires RequestsCoherent(rq, talk, lastSeq) && r.id !in talk.requested && r.recordSeq == lastSeq + 1
    ensures RequestsCoherent(rq.(requested := rq.requested[r.id := r], pending := rq.pending + [r]),
                             Talk(talk.requested + {r.id}, talk.pending + {r.id}), lastSeq + 1)
  {
    var pending := rq.pending + [r];
    assert forall o :: o in pending <==> o in rq.pending || o == r;
    forall i, j | 0 <= i < j < |pending| ensures pending[i].id != pending[j].id {
      assert pending[i] in rq.pending;
    }
  }

  lemma FinishedStep(rq: Requests, talk: Talk, lastSeq: nat, id: RequestId, item: MirrorItem)
    requires RequestsCoherent(rq, talk, lastSeq) && id in talk.pending && item.recordSeq == lastSeq + 1
    requires item.body.FinishedBody? && item.body.requestId == id
    ensures HasRequest(rq.pending, id)
    ensures RequestsCoherent(rq.(pending := Without(rq.pending, id), finished := rq.finished[id := item]),
                             talk.(pending := talk.pending - {id}), lastSeq + 1)
  {
    WithoutMembers(rq.pending, id);
    assert rq.requested[id] in rq.pending;
  }

  lemma RequestsStep(rq: Requests, talk: Talk, lastSeq: nat, body: Record, item: Option<MirrorItem>)
    requires RequestsCoherent(rq, talk, lastSeq)
    requires body.InteractionRequested? ==> body.requestId !in talk.requested
    requires body.InteractionFinished? ==>
               && body.requestId in talk.pending
               && item.Some? && item.value.recordSeq == lastSeq + 1
                  && item.value.body == FinishedBody(body.requestId, body.outcome)
    ensures RequestsCoherent(RequestsAfter(rq, lastSeq + 1, body, item), TalkAfter(talk, body), lastSeq + 1)
    ensures body.InteractionFinished? ==> HasRequest(rq.pending, body.requestId)
  {
    if body.InteractionRequested? {
      RequestedStep(rq, talk, lastSeq, Requested(body.requestId, body.request, lastSeq + 1));
    } else if body.InteractionFinished? {
      FinishedStep(rq, talk, lastSeq, body.requestId, item.value);
    }
  }

  lemma AwaitedAppend(order: seq<MirrorItem>, from: nat, unmirrored: map<nat, MirrorCheckpoint>, item: MirrorItem)
    requires from <= |order| && Awaited(order, from, unmirrored) && item.recordSeq !in unmirrored
    ensures Awaited(order + [item], from, unmirrored[item.recordSeq := MirrorCheckpoint(item.ordinal, item.digest)])
  {
    var longer := order + [item];
    assert longer[|order|] == item;
    forall s | s in unmirrored ensures Listed(longer, from, s) {
      var i :| from <= i < |order| && order[i].recordSeq == s;
      assert longer[i] == order[i];
    }
  }

  lemma AwaitedRelease(order: seq<MirrorItem>, base: nat, lastSeq: nat, from: nat, to: nat,
      unmirrored: map<nat, MirrorCheckpoint>, kept: map<nat, MirrorCheckpoint>)
    requires Numbered(order, base, lastSeq) && Awaited(order, from, unmirrored) && from <= to
    requires forall s :: s in kept <==> s in unmirrored && unmirrored[s].ordinal > base + to
    requires forall s :: s in kept ==> kept[s] == unmirrored[s]
    ensures Awaited(order, to, kept)
  {
    forall s | s in kept ensures Listed(order, to, s) {
      var i :| from <= i < |order| && order[i].recordSeq == s;
      assert order[i].ordinal == base + i + 1;
    }
  }

  lemma NumberedAppend(order: seq<MirrorItem>, base: nat, lastSeq: nat, item: MirrorItem)
    requires Numbered(order, base, lastSeq) && item.recordSeq == lastSeq + 1 && item.ordinal == base + |order| + 1
    ensures Numbered(order + [item], base, lastSeq + 1)
  {
  }

  lemma LaterSequences(order: seq<MirrorItem>, base: nat, lastSeq: nat, k: nat, from: nat,
      kept: map<nat, MirrorCheckpoint>)
    requires Numbered(order, base, lastSeq) && k < |order| && k < from && Awaited(order, from, kept)
    ensures forall s :: s in kept ==> order[k].recordSeq < s <= lastSeq
  {
    forall s | s in kept ensures order[k].recordSeq < s <= lastSeq {
      var i :| from <= i < |order| && order[i].recordSeq == s;
    }
  }

  lemma ExtendKeepsMirrors(ml: MirrorLog, m: Mirror, lastSeq: nat, body: MirrorBody, at: Time)
    requires MirrorCoherent(ml, m, lastSeq)
    ensures var m' := Extend(m, lastSeq + 1, body);
            var item := MirrorItem(body, lastSeq + 1, at, m'.finishedCount, m'.digest);
            MirrorCoherent(ml.(order := ml.order + [item]), m', lastSeq + 1)
  {
    var m' := Extend(m, lastSeq + 1, body);
    var item := MirrorItem(body, lastSeq + 1, at, m'.finishedCount, m'.digest);
    NumberedAppend(ml.order, ml.base, lastSeq, item);
    AwaitedAppend(ml.order, ml.mirroredCount - ml.base, m.unmirrored, item);
  }

  lemma FindListed(order: seq<MirrorItem>, base: nat, lastSeq: nat, from: nat, s: nat,
      unmirrored: map<nat, MirrorCheckpoint>)
    requires Numbered(order, base, lastSeq) && Awaited(order, from, unmirrored) && s in unmirrored
    ensures IndexOf(order, s).Some? && from <= IndexOf(order, s).value
    ensures unmirrored[s].ordinal == base + IndexOf(order, s).value + 1
  {
    var k :| from <= k < |order| && order[k].recordSeq == s;
  }

  ghost predicate ReleasedTo(m: Mirror, m': Mirror, upTo: nat, ordinal: nat) {
    && m'.finishedCount == m.finishedCount
    && m'.mirroredOrdinal == ordinal
    && m'.mirroredUpTo == upTo
    && (forall s :: s in m'.unmirrored <==> s in m.unmirrored && m.unmirrored[s].ordinal > ordinal)
    && (forall s :: s in m'.unmirrored ==> m'.unmirrored[s] == m.unmirrored[s])
  }

  ghost predicate Fits(m: Mirror, upTo: nat, ordinal: nat) {
    ordinal > m.mirroredOrdinal && upTo in m.unmirrored && m.unmirrored[upTo].ordinal == ordinal
  }

  lemma AdmittedFits(v: Validation, body: Record)
    requires Admitted(v, body) && body.Mirrored?
    ensures Fits(v.mirror, body.upTo, body.mirrorOrdinal)
  {
  }

  /** What admission says about the keys a record refers to. */
  ghost predicate Grounded(v: Validation, body: Record) {
    && (body.InteractionRequested? ==> body.requestId !in v.talk.requested)
    && (body.InteractionFinished? ==> body.requestId in v.talk.pending)
    && (body.SideEffectStarted? ==> body.effectSeq == v.work.effectCount + 1)
    && (body.SideEffectCompleted? ==> body.effectSeq in v.work.openEffects)
    && (body.Mirrored? ==> Fits(v.mirror, body.upTo, body.mirrorOrdinal))
  }

  lemma AdmittedGrounded(v: Validation, body: Record)
    requires Admitted(v, body)
    ensures Grounded(v, body)
  {
  }

  lemma ReleaseKeepsMirrors(ml: MirrorLog, m: Mirror, m': Mirror, lastSeq: nat, upTo: nat, ordinal: nat,
      digest: MirrorChain)
    requires MirrorCoherent(ml, m, lastSeq) && ReleasedTo(m, m', upTo, ordinal)
    requires Fits(m, upTo, ordinal)
    ensures ml.Find(upTo).Some? && ml.base + ml.Find(upTo).value + 1 == ordinal
    ensures MirrorCoherent(ml.(mirroredCount := ordinal, mirroredDigest := digest), m', lastSeq + 1)
  {
    var from, to := ml.mirroredCount - ml.base, ordinal - ml.base;
    FindListed(ml.order, ml.base, lastSeq, from, upTo, m.unmirrored);
    AwaitedRelease(ml.order, ml.base, lastSeq, from, to, m.unmirrored, m'.unmirrored);
    LaterSequences(ml.order, ml.base, lastSeq, ml.Find(upTo).value, to, m'.unmirrored);
  }

  lemma MirrorsStep(ml: MirrorLog, m: Mirror, lastSeq: nat, body: Record, at: Time)
    requires MirrorCoherent(ml, m, lastSeq)
    requires body.Mirrored? ==> Fits(m, body.upTo, body.mirrorOrdinal)
    ensures var m' := MirrorAfter(m, lastSeq + 1, body);
            MirrorCoherent(MirrorLogAfter(ml, body, ItemOf(m', lastSeq + 1, body, at)), m', lastSeq + 1)
  {
    if body.Mirrored? {
      ReleaseKeepsMirrors(ml, m, MirrorAfter(m, lastSeq + 1, body), lastSeq, body.upTo, body.mirrorOrdinal,
                          body.mirrorDigest);
    } else if MirrorBodyOf(body).Some? {
      ExtendKeepsMirrors(ml, m, lastSeq, MirrorBodyOf(body).value, at);
    }
  }

  lemma EffectsStep(effects: map<nat, SideEffect>, w: Work, body: Record)
    requires EffectsCoherent(effects, w)
    requires body.SideEffectStarted? ==> body.effectSeq == w.effectCount + 1
    requires body.SideEffectCompleted? ==> body.effectSeq in w.openEffects
    ensures EffectsCoherent(EffectsAfter(effects, body), WorkAfter(w, body))
  {
  }

  lemma StreamStep(st: Stream, job: bool, lastSeq: nat, chain: Chain, body: Record)
    requires StreamCoherent(st, job, lastSeq)
    requires body.StreamProjectionEnabled? ==> job && st.enabledAfter.None? && body.legacyUpTo == lastSeq
    requires body.StreamProjected? ==> st.enabledAfter.Some? && st.projectedUpTo < body.upToRecordSeq <= lastSeq
    ensures StreamCoherent(StreamAfter(st, lastSeq + 1, chain, body), job, lastSeq + 1)
  {
  }

  lemma StatusStep(p: Projection, entry: Entry)
    requires StatusCoherent(p.status, p.v.life) && Admitted(p.v, entry.body)
    ensures var v := Commit(p.v, entry.body);
            StatusCoherent(StatusAfter(p.status, v.lastSeq, v.chain, entry.body), v.life)
  {
  }

  lemma AbortsStep(p: Projection, body: Record)
    requires AbortsCoherent(p.status.aborts, p.v.life.aborts) && Admitted(p.v, body)
    ensures var v := Commit(p.v, body);
            AbortsCoherent(StatusAfter(p.status, v.lastSeq, v.chain, body).aborts, v.life.aborts)
  {
    if body.AbortRequested? {
      var aborts := p.status.aborts + [body.abort];
      assert body.abort in aborts;
      assert forall a :: a in p.status.aborts ==> a in aborts;
    }
  }

  lemma MutationsStep(m: Mutations, w: Work, body: Record)
    requires MutationsCoherent(m, w)
    requires body.StagedMutation? ==> body.staged.position == w.stagedCount + 1
    ensures MutationsCoherent(MutationsAfter(m, body), WorkAfter(w, body))
  {
    if body.StagedMutation? {
      assert forall s :: s in m.order ==> s in m.order + [body.staged];
      assert body.staged in m.order + [body.staged];
    }
  }

  lemma ItemOfCommit(v: Validation, entry: Entry)
    ensures var v' := Commit(v, entry.body);
            ItemOf(v'.mirror, v'.lastSeq, entry.body, entry.at) ==
              match MirrorBodyOf(entry.body)
              case None => None
              case Some(body) => Some(MirrorItem(body, v'.lastSeq, entry.at, v'.mirror.finishedCount, v'.mirror.digest))
  {
  }

  /** A record the validator admits never hits one of `applyEntry`'s "corrupt ledger" errors. */
  lemma AdmittedNeverCorrupt(p: Projection, entry: Entry)
    requires Coherent(p)
    ensures Step(p, entry).Some? <==> Admitted(p.v, entry.body)
  {
    ItemOfCommit(p.v, entry);
    if Admitted(p.v, entry.body) {
      match entry.body
      case InteractionFinished(id, _) => assert p.requests.requested[id] in p.requests.pending;
      case Mirrored(upTo, _, _) =>
        FindListed(p.mirrors.order, p.mirrors.base, p.v.lastSeq, p.mirrors.mirroredCount - p.mirrors.base, upTo,
                   p.v.mirror.unmirrored);
      case _ =>
    }
  }

  lemma TalkStep(p: Projection, entry: Entry)
    requires RequestsCoherent(p.requests, p.v.talk, p.v.lastSeq) && Admitted(p.v, entry.body)
    ensures var q := Apply(p, Commit(p.v, entry.body), entry);
            RequestsCoherent(q.requests, q.v.talk, q.v.lastSeq)
  {
    ItemOfCommit(p.v, entry);
    var v := Commit(p.v, entry.body);
    RequestsStep(p.requests, p.v.talk, p.v.lastSeq, entry.body, ItemOf(v.mirror, v.lastSeq, entry.body, entry.at));
  }

  lemma MirrorStep(p: Projection, q: Projection, entry: Entry)
    requires MirrorCoherent(p.mirrors, p.v.mirror, p.v.lastSeq)
    requires entry.body.Mirrored? ==> Fits(p.v.mirror, entry.body.upTo, entry.body.mirrorOrdinal)
    requires q.v.lastSeq == p.v.lastSeq + 1
    requires q.v.mirror == MirrorAfter(p.v.mirror, q.v.lastSeq, entry.body)
    requires q.mirrors == MirrorLogAfter(p.mirrors, entry.body, ItemOf(q.v.mirror, q.v.lastSeq, entry.body, entry.at))
    ensures MirrorCoherent(q.mirrors, q.v.mirror, q.v.lastSeq)
  {
    MirrorsStep(p.mirrors, p.v.mirror, p.v.lastSeq, entry.body, entry.at);
  }

  lemma WorkStep(p: Projection, entry: Entry)
    requires EffectsCoherent(p.effects, p.v.work) && MutationsCoherent(p.mutations, p.v.work)
             && Admitted(p.v, entry.body)
    ensures var q := Apply(p, Commit(p.v, entry.body), entry);
            EffectsCoherent(q.effects, q.v.work) && MutationsCoherent(q.mutations, q.v.work)
  {
    EffectsStep(p.effects, p.v.work, entry.body);
    MutationsStep(p.mutations, p.v.work, entry.body);
  }

  lemma ProjectionStep(p: Projection, v: Validation, entry: Entry)
    requires StreamCoherent(p.v.stream, p.v.life.IsJob(), p.v.lastSeq) && StatusCoherent(p.status, p.v.life)
    requires Admitted(p.v, entry.body) && v == Commit(p.v, entry.body)
    ensures StreamCoherent(v.stream, v.life.IsJob(), v.lastSeq)
  {
    StreamStep(p.v.stream, p.v.life.IsJob(), p.v.lastSeq, v.chain, entry.body);
    JobStays(p.v.life, v.lastSeq, v.chain, entry.body);
  }

  lemma JobStays(life: Life, s: nat, chain: Chain, body: Record)
    requires body.Received? ==> life.ref.None?
    ensures life.IsJob() ==> LifeAfter(life, s, chain, body).IsJob()
  {
  }

  lemma StepCoherent(p: Projection, entry: Entry)
    requires Coherent(p) && Step(p, entry).Some?
    ensures Coherent(Step(p, entry).value)
    ensures Step(p, entry).value.v == Commit(p.v, entry.body)
  {
    AdmittedNeverCorrupt(p, entry);
    TalkStep(p, entry);
    if entry.body.Mirrored? { AdmittedFits(p.v, entry.body); }
    MirrorStep(p, Step(p, entry).value, entry);
    WorkStep(p, entry);
    StatusStep(p, entry);
    AbortsStep(p, entry.body);
    ProjectionStep(p, Commit(p.v, entry.body), entry);
  }

  /** Along every log the executor can replay, projection and validator agree. */
  lemma {:induction false} ReplayCoherent(id: AssignmentId, log: seq<Entry>)
    requires Replay(id, log).Some?
    ensures Coherent(Replay(id, log).value)
    ensures Replay(id, log).value.v.lastSeq == |log|
    ensures Replay(id, log).value.v.assignment == id
    ensures Replay(id, log).value.mirrors.base == 0
    ensures Replay(id, log).value.shortcut == Empty(id).shortcut
    decreases |log|
  {
    if log != [] {
      var shorter := log[..|log| - 1];
      ReplayCoherent(id, shorter);
      StepCoherent(Replay(id, shorter).value, log[|log| - 1]);
    }
  }

  lemma {:induction false} ReplayPrefix(id: AssignmentId, log: seq<Entry>, more: seq<Entry>)
    requires Replay(id, log + more).Some?
    ensures Replay(id, log).Some?
    decreases |more|
  {
    if more == [] {
      assert log + more == log;
    } else {
      assert (log + more)[..|log + more| - 1] == log + more[..|more| - 1];
      ReplayPrefix(id, log, more[..|more| - 1]);
    }
  }
}
