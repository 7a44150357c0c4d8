/** The recovery shortcut: a decision state that drops completed history, and the keyed look-ups that bring
    single facts back. */
module LedgerShortcut {
  import opened Options
  import opened LedgerRecords
  import opened LedgerValidator
  import opened LedgerProjection
  import opened LedgerHistory

  /** Interaction items past this sequence are still to be projected into the job's stream. */
  function Floor(v: Validation): Option<nat> {
    if v.life.IsJob() && v.stream.enabledAfter.Some? then Some(v.stream.projectedUpTo) else None
  }

  predicate Above(floor: Option<nat>, s: nat) { floor.Some? && s > floor.value }

  function KeptRequests(rq: Requests, floor: Option<nat>): map<RequestId, Requested> {
    map id | id in rq.requested && (HasRequest(rq.pending, id) || Above(floor, rq.requested[id].recordSeq)) ::
      rq.requested[id]
  }

  function KeptResults(rq: Requests, floor: Option<nat>): map<RequestId, MirrorItem> {
    map id | id in rq.finished && Above(floor, rq.finished[id].recordSeq) :: rq.finished[id]
  }

  /** The record sequences of the interaction items that a snapshot leaves out. */
  function Dropped(rq: Requests, floor: Option<nat>): set<nat> {
    DroppedRequests(rq, floor) + DroppedResults(rq, floor)
  }

  function DroppedRequests(rq: Requests, floor: Option<nat>): set<nat> {
    set id | id in rq.requested && id !in KeptRequests(rq, floor) :: rq.requested[id].recordSeq
  }

  function DroppedResults(rq: Requests, floor: Option<nat>): set<nat> {
    set id | id in rq.finished && id !in KeptResults(rq, floor) :: rq.finished[id].recordSeq
  }

  ghost function Highest(s: set<nat>, atLeast: nat): (top: nat)
    ensures top >= atLeast && (forall x :: x in s ==> x <= top)
    ensures top == atLeast || top in s
  {
    if s == {} then atLeast
    else
      var x :| x in s;
      var top := Highest(s - {x}, if x > atLeast then x else atLeast);
      assert forall y :: y in s ==> y == x || y in s - {x};
      top
  }

  function OpenEffects(effects: map<nat, SideEffect>): map<nat, SideEffect> {
    map e | e in effects && effects[e].result.None? :: effects[e]
  }

  function KeptMirrors(m: MirrorLog): MirrorLog {
    var keepFrom := if m.base > m.mirroredCount then m.base else m.mirroredCount;
    if keepFrom <= m.Count() then m.(base := keepFrom, order := m.order[keepFrom - m.base..])
    else m.(base := keepFrom, order := [])
  }

  /** `decisionSnapshot` of a keyed state: counters, chain digests and open obligations only. */
  ghost function Snapshot(p: Projection): Projection {
    var floor := Floor(p.v);
    var kept := KeptRequests(p.requests, floor);
    Projection(p.v.(talk := p.v.talk.(requested := kept.Keys)),
               p.status,
               Requests(kept, p.requests.pending, KeptResults(p.requests, floor)),
               KeptMirrors(p.mirrors),
               OpenEffects(p.effects),
               p.mutations,
               Shortcut(p.v.lastSeq, Highest(Dropped(p.requests, floor), p.shortcut.omittedUpTo), {}, map[]))
  }

  // ---------------------------------------------------------------- look-ups

  /** The needed keys that memory cannot answer. */
  function Missing(p: Projection, needs: Needs): Needs {
    Needs(set id | id in needs.requests && id !in p.requests.requested && id !in p.shortcut.checked,
          set e | e in needs.effects && e !in p.effects,
          set s | s in needs.mirrorSeqs && p.mirrors.Find(s).None? && s !in p.shortcut.historic)
  }

  /** Otherwise the look-up is reported as a corrupt ledger. */
  predicate Consistent(missing: Needs, found: Found) {
    && (forall id :: id in missing.requests && id in found.finished ==>
          && id in found.requests
          && found.finished[id].body.FinishedBody?
          && found.finished[id].body.requestId == id
          && found.finished[id].recordSeq > found.requests[id].recordSeq)
    && (forall e :: e in missing.effects && e in found.ends ==>
          && e in found.starts
          && (found.starts[e].recordSeq.Some? && found.ends[e].recordSeq.Some? ==>
                found.ends[e].recordSeq.value > found.starts[e].recordSeq.value))
  }

  function FoundRequests(rq: Requests, missing: set<RequestId>, found: Found): Requests {
    var back := map id | id in missing && id in found.requests :: found.requests[id];
    rq.(requested := rq.requested + back,
        finished := rq.finished + map id | id in back && id in found.finished :: found.finished[id])
  }

  function FoundEffects(effects: map<nat, SideEffect>, missing: set<nat>, found: Found): map<nat, SideEffect> {
    effects + map e | e in missing && e in found.starts ::
      SideEffect(found.starts[e].body, if e in found.ends then Some(found.ends[e].body) else None)
  }

  function FoundMirrors(historic: map<nat, MirrorItem>, missing: set<nat>, found: Found): map<nat, MirrorItem> {
    historic + map s | s in missing && s in found.mirror :: found.mirror[s]
  }

  function ApplyHistory(p: Projection, missing: Needs, found: Found): Projection {
    var requests := FoundRequests(p.requests, missing.requests, found);
    Projection(p.v.(talk := p.v.talk.(requested := requests.requested.Keys)),
               p.status,
               requests,
               p.mirrors,
               FoundEffects(p.effects, missing.effects, found),
               p.mutations,
               p.shortcut.(checked := p.shortcut.checked + missing.requests,
                           historic := FoundMirrors(p.shortcut.historic, missing.mirrorSeqs, found)))
  }

  /** Brings the needed keys back from rows of the same locked prefix; only a shortened state needs to. */
  function Hydrate(p: Projection, needs: Needs, rows: Rows): Option<Projection> {
    if !p.OmitsHistory() then Some(p)
    else
      var missing := Missing(p, needs);
      var found := ReadHistory(rows, missing, p.shortcut.historyBase);
      if Consistent(missing, found) then Some(ApplyHistory(p, missing, found)) else None
  }

  /** A shortened state may not judge the first use of a request id it never looked up. */
  predicate LookupRequired(p: Projection, body: Record) {
    p.OmitsHistory() && body.InteractionRequested? && body.requestId !in p.v.talk.requested
    && body.requestId !in p.shortcut.checked
  }
}

/** Every state reached through the shortcut agrees with full replay. */
module LedgerRefinement {
  import opened Options
  import opened LedgerRecords
  import opened LedgerValidator
  import opened LedgerProjection
  import opened LedgerCoherence
  import opened LedgerHistory
  import opened LedgerShortcut

  /** `f` is full replay, `s` the shortened state, `h` full replay at the position where `s` was last cut. */
  ghost predicate RequestsAgree(f: Requests, s: Requests, h: Requests, checked: set<RequestId>) {
    && s.pending == f.pending
    && (forall id :: id in s.requested ==> id in f.requested && s.requested[id] == f.requested[id])
    && (forall id :: id in s.finished ==> id in f.finished && s.finished[id] == f.finished[id])
    && (forall id :: id in s.requested && id in f.finished ==> id in s.finished)
    && (forall id :: id in f.requested && id !in f.finished ==> id in s.requested)
    && (forall id :: id in checked && id in f.requested ==> id in s.requested)
    && (forall id :: id in f.requested && id !in s.requested ==> id in h.requested && id in h.finished)
    && (forall id :: id in h.requested ==> id in f.requested && f.requested[id] == h.requested[id])
    && (forall id :: id in h.finished ==> id in f.finished && f.finished[id] == h.finished[id])
  }

  ghost predicate MirrorsAgree(f: MirrorLog, s: MirrorLog, h: MirrorLog, historic: map<nat, MirrorItem>) {
    && f.base == 0
    && s.base <= |f.order|
    && s.order == f.order[s.base..]
    && s.base <= s.mirroredCount == f.mirroredCount
    && s.mirroredDigest == f.mirroredDigest
    && s.base <= |h.order| <= |f.order|
    && h.order == f.order[..|h.order|]
    && (forall k :: k in historic ==> historic[k] in f.order && historic[k].recordSeq == k)
  }

  ghost predicate EffectsAgree(f: map<nat, SideEffect>, s: map<nat, SideEffect>, h: map<nat, SideEffect>) {
    && (forall e :: e in s ==> e in f && s[e] == f[e])
    && (forall e :: e in f && f[e].result.None? ==> e in s)
    && (forall e :: e in f && e !in s ==> e in h && h[e] == f[e])
    && (forall e :: e in h ==> e in f && (h[e].result.Some? ==> f[e] == h[e]))
  }

  /** Whatever is missing lies below the projection watermark and below the omitted mark. */
  ghost predicate OnlyOldMissing(f: Requests, s: Requests, floor: Option<nat>, omittedUpTo: nat) {
    && (forall id :: id in f.requested && id !in s.requested ==>
          f.requested[id].recordSeq <= omittedUpTo && !Above(floor, f.requested[id].recordSeq))
    && (forall id :: id in f.finished && id !in s.finished ==>
          f.finished[id].recordSeq <= omittedUpTo && !Above(floor, f.finished[id].recordSeq))
  }

  ghost predicate ValidationAgrees(f: Validation, s: Validation, requested: set<RequestId>) {
    s == f.(talk := f.talk.(requested := requested))
  }

  ghost predicate Agrees(f: Projection, s: Projection, h: Projection) {
    && ValidationAgrees(f.v, s.v, s.requests.requested.Keys)
    && s.status == f.status
    && s.mutations == f.mutations
    && RequestsAgree(f.requests, s.requests, h.requests, s.shortcut.checked)
    && MirrorsAgree(f.mirrors, s.mirrors, h.mirrors, s.shortcut.historic)
    && EffectsAgree(f.effects, s.effects, h.effects)
    && OnlyOldMissing(f.requests, s.requests, Floor(f.v), s.shortcut.omittedUpTo)
    && s.shortcut.historyBase == h.v.lastSeq
    && s.shortcut.omittedUpTo <= f.v.lastSeq
  }

  // ---------------------------------------------------------------- cutting

  lemma CutRequests(f: Requests, s: Requests, h: Requests, checked: set<RequestId>, talk: Talk, lastSeq: nat,
      floor: Option<nat>)
    requires RequestsCoherent(f, talk, lastSeq) && RequestsAgree(f, s, h, checked)
    ensures RequestsAgree(f, Requests(KeptRequests(s, floor), s.pending, KeptResults(s, floor)), f, {})
  {
    forall id | id in f.requested && id !in f.finished ensures id in KeptRequests(s, floor) {
      assert f.requested[id] in s.pending;
    }
  }

  lemma CutOld(f: Requests, s: Requests, h: Requests, checked: set<RequestId>, floor: Option<nat>, omitted: nat,
      top: nat)
    requires RequestsAgree(f, s, h, checked) && OnlyOldMissing(f, s, floor, omitted)
    requires top == Highest(Dropped(s, floor), omitted)
    ensures OnlyOldMissing(f, Requests(KeptRequests(s, floor), s.pending, KeptResults(s, floor)), floor, top)
  {
    forall id | id in f.requested && id !in KeptRequests(s, floor) ensures f.requested[id].recordSeq <= top {
      if id in s.requested { assert s.requested[id].recordSeq in Dropped(s, floor); }
    }
    forall id | id in f.finished && id !in KeptResults(s, floor) ensures f.finished[id].recordSeq <= top {
      if id in s.finished { assert s.finished[id].recordSeq in Dropped(s, floor); }
    }
  }

  lemma DroppedBounded(f: Requests, s: Requests, h: Requests, checked: set<RequestId>, talk: Talk, lastSeq: nat,
      floor: Option<nat>, omitted: nat)
    requires RequestsCoherent(f, talk, lastSeq) && RequestsAgree(f, s, h, checked) && omitted <= lastSeq
    ensures Highest(Dropped(s, floor), omitted) <= lastSeq
  {
    assert forall x :: x in Dropped(s, floor) ==> x <= lastSeq;
  }

  /** Cutting a shortened state again keeps the agreement, now with the present as its history. */
  lemma SnapshotAgrees(f: Projection, s: Projection, h: Projection)
    requires Coherent(f) && Agrees(f, s, h)
    ensures Agrees(f, Snapshot(s), f)
  {
    var floor := Floor(s.v);
    assert floor == Floor(f.v);
    CutRequests(f.requests, s.requests, h.requests, s.shortcut.checked, f.v.talk, f.v.lastSeq, floor);
    CutOld(f.requests, s.requests, h.requests, s.shortcut.checked, floor, s.shortcut.omittedUpTo,
           Snapshot(s).shortcut.omittedUpTo);
    DroppedBounded(f.requests, s.requests, h.requests, s.shortcut.checked, f.v.talk, f.v.lastSeq, floor,
                   s.shortcut.omittedUpTo);
    CutMirrors(f.mirrors, s.mirrors, h.mirrors, s.shortcut.historic);
    assert EffectsAgree(f.effects, OpenEffects(s.effects), f.effects);
  }

  lemma CutMirrors(f: MirrorLog, s: MirrorLog, h: MirrorLog, historic: map<nat, MirrorItem>)
    requires MirrorsAgree(f, s, h, historic) && f.mirroredCount <= |f.order|
    ensures MirrorsAgree(f, KeptMirrors(s), f, map[])
  {
    assert f.order == f.order[..|f.order|];
  }

  // ---------------------------------------------------------------- reducing one more record

  lemma RequestAgrees(f: Requests, s: Requests, h: Requests, checked: set<RequestId>, talk: Talk, lastSeq: nat,
      r: Requested)
    requires RequestsCoherent(f, talk, lastSeq) && RequestsAgree(f, s, h, checked) && r.id !in f.requested
    ensures RequestsAgree(f.(requested := f.requested[r.id := r], pending := f.pending + [r]),
                          s.(requested := s.requested[r.id := r], pending := s.pending + [r]), h, checked)
  {
  }

  lemma ResultAgrees(f: Requests, s: Requests, h: Requests, checked: set<RequestId>, talk: Talk, lastSeq: nat,
      id: RequestId, item: MirrorItem)
    requires RequestsCoherent(f, talk, lastSeq) && RequestsAgree(f, s, h, checked) && id in talk.pending
    ensures RequestsAgree(f.(pending := Without(f.pending, id), finished := f.finished[id := item]),
                          s.(pending := Without(s.pending, id), finished := s.finished[id := item]), h, checked)
  {
  }

  lemma TalkAgrees(f: Projection, f': Projection, s: Projection, s': Projection, h: Projection, body: Record,
      item: Option<MirrorItem>)
    requires RequestsCoherent(f.requests, f.v.talk, f.v.lastSeq)
             && RequestsAgree(f.requests, s.requests, h.requests, s.shortcut.checked)
    requires body.InteractionRequested? ==> body.requestId !in f.v.talk.requested
    requires body.InteractionFinished? ==> body.requestId in f.v.talk.pending && item.Some?
    requires f'.requests == RequestsAfter(f.requests, f.v.lastSeq + 1, body, item)
    requires s'.requests == RequestsAfter(s.requests, f.v.lastSeq + 1, body, item)
    ensures RequestsAgree(f'.requests, s'.requests, h.requests, s.shortcut.checked)
  {
    if body.InteractionRequested? {
      RequestAgrees(f.requests, s.requests, h.requests, s.shortcut.checked, f.v.talk, f.v.lastSeq,
                    Requested(body.requestId, body.request, f.v.lastSeq + 1));
    } else if body.InteractionFinished? {
      ResultAgrees(f.requests, s.requests, h.requests, s.shortcut.checked, f.v.talk, f.v.lastSeq, body.requestId,
                   item.value);
    }
  }

  lemma OldAgrees(f: Requests, s: Requests, floor: Option<nat>, floor': Option<nat>, omitted: nat, lastSeq: nat,
      body: Record, item: Option<MirrorItem>)
    requires OnlyOldMissing(f, s, floor, omitted) && omitted <= lastSeq
    requires forall id :: id in f.requested ==> f.requested[id].recordSeq <= lastSeq
    requires forall id :: id in f.finished ==> f.finished[id].recordSeq <= lastSeq
    requires floor'.Some? ==> floor'.value == lastSeq || (floor.Some? && floor.value <= floor'.value)
    ensures OnlyOldMissing(RequestsAfter(f, lastSeq + 1, body, item), RequestsAfter(s, lastSeq + 1, body, item),
                           floor', omitted)
  {
  }

  lemma FloorRises(p: Projection, v: Validation, body: Record)
    requires Admitted(p.v, body) && v == Commit(p.v, body) && StatusCoherent(p.status, p.v.life)
    requires StreamCoherent(p.v.stream, p.v.life.IsJob(), p.v.lastSeq)
    ensures Floor(v).Some? ==> Floor(v).value == p.v.lastSeq || (Floor(p.v).Some? && Floor(p.v).value <= Floor(v).value)
  {
    JobStays(p.v.life, v.lastSeq, v.chain, body);
  }

  lemma AppendAgrees(f: MirrorLog, s: MirrorLog, h: MirrorLog, historic: map<nat, MirrorItem>, item: MirrorItem)
    requires MirrorsAgree(f, s, h, historic)
    ensures MirrorsAgree(f.(order := f.order + [item]), s.(order := s.order + [item]), h, historic)
  {
    assert (f.order + [item])[s.base..] == f.order[s.base..] + [item];
    assert (f.order + [item])[..|h.order|] == f.order[..|h.order|];
  }

  lemma FindAgrees(f: MirrorLog, s: MirrorLog, lastSeq: nat, seqNo: nat)
    requires f.base == 0 && s.base <= |f.order| && s.order == f.order[s.base..] && Numbered(f.order, 0, lastSeq)
    ensures s.Find(seqNo).Some? <==> f.Find(seqNo).Some? && f.Find(seqNo).value >= s.base
    ensures s.Find(seqNo).Some? ==> s.Find(seqNo).value + s.base == f.Find(seqNo).value
  {
    if s.Find(seqNo).Some? {
      assert f.order[s.Find(seqNo).value + s.base].recordSeq == seqNo;
    }
    if f.Find(seqNo).Some? && f.Find(seqNo).value >= s.base {
      assert s.order[f.Find(seqNo).value - s.base].recordSeq == seqNo;
    }
  }

  lemma MarkAgrees(f: MirrorLog, s: MirrorLog, h: MirrorLog, historic: map<nat, MirrorItem>, m: Mirror, lastSeq: nat,
      body: Record)
    requires MirrorsAgree(f, s, h, historic) && MirrorCoherent(f, m, lastSeq)
    requires body.Mirrored? && Fits(m, body.upTo, body.mirrorOrdinal)
    ensures s.Find(body.upTo).Some? && f.Find(body.upTo).Some?
    ensures MirrorsAgree(MirrorLogAfter(f, body, None), MirrorLogAfter(s, body, None), h, historic)
  {
    FindListed(f.order, 0, lastSeq, f.mirroredCount, body.upTo, m.unmirrored);
    FindAgrees(f, s, lastSeq, body.upTo);
  }

  lemma ChainAgrees(f: Projection, f': Projection, s: Projection, s': Projection, h: Projection, body: Record,
      item: Option<MirrorItem>)
    requires MirrorsAgree(f.mirrors, s.mirrors, h.mirrors, s.shortcut.historic)
             && MirrorCoherent(f.mirrors, f.v.mirror, f.v.lastSeq)
    requires body.Mirrored? ==> Fits(f.v.mirror, body.upTo, body.mirrorOrdinal) && item.None?
    requires f'.mirrors == MirrorLogAfter(f.mirrors, body, item)
    requires s'.mirrors == MirrorLogAfter(s.mirrors, body, item)
    ensures MirrorsAgree(f'.mirrors, s'.mirrors, h.mirrors, s.shortcut.historic)
    ensures body.Mirrored? ==> s.mirrors.Find(body.upTo).Some?
  {
    if body.Mirrored? {
      MarkAgrees(f.mirrors, s.mirrors, h.mirrors, s.shortcut.historic, f.v.mirror, f.v.lastSeq, body);
    } else if item.Some? {
      AppendAgrees(f.mirrors, s.mirrors, h.mirrors, s.shortcut.historic, item.value);
    }
  }

  lemma EffectAgrees(f: map<nat, SideEffect>, s: map<nat, SideEffect>, h: map<nat, SideEffect>, w: Work, body: Record)
    requires EffectsAgree(f, s, h) && EffectsCoherent(f, w)
    requires body.SideEffectStarted? ==> body.effectSeq == w.effectCount + 1
    requires body.SideEffectCompleted? ==> body.effectSeq in w.openEffects
    ensures EffectsAgree(EffectsAfter(f, body), EffectsAfter(s, body), h)
    ensures body.SideEffectCompleted? ==> body.effectSeq in s
  {
  }

  /** A shortened state admits the same records as full replay, once the request id of a new request is known. */
  lemma AdmissionAgrees(f: Validation, s: Validation, body: Record)
    requires ValidationAgrees(f, s, s.talk.requested)
    requires body.InteractionRequested? ==> (body.requestId in f.talk.requested <==> body.requestId in s.talk.requested)
    ensures Admitted(f, body) <==> Admitted(s, body)
  {
  }

  lemma CommitAgrees(f: Validation, s: Validation, body: Record)
    requires ValidationAgrees(f, s, s.talk.requested)
    ensures ValidationAgrees(Commit(f, body), Commit(s, body), TalkAfter(s.talk, body).requested)
  {
  }

  ghost predicate Known(f: Projection, s: Projection, id: RequestId) {
    id in f.requests.requested ==> id in s.requests.requested
  }

  lemma StepAgrees(f: Projection, s: Projection, h: Projection, entry: Entry)
    requires Coherent(f) && Agrees(f, s, h)
    requires entry.body.InteractionRequested? ==> Known(f, s, entry.body.requestId)
    ensures Step(f, entry).Some? <==> Step(s, entry).Some?
    ensures Step(f, entry).Some? ==> Agrees(Step(f, entry).value, Step(s, entry).value, h)
  {
    AdmissionAgrees(f.v, s.v, entry.body);
    StepIs(f, entry);
    StepIs(s, entry);
    if Admitted(f.v, entry.body) {
      AdmittedNeverCorrupt(f, entry);
      TakenAgrees(f, Step(f, entry).value, s, Apply(s, Commit(s.v, entry.body), entry), h, entry);
    }
  }

  lemma StepIs(p: Projection, entry: Entry)
    ensures var q := Apply(p, Commit(p.v, entry.body), entry);
            Step(p, entry) ==
              if Admitted(p.v, entry.body)
                 && Applicable(p, entry.body, ItemOf(q.v.mirror, q.v.lastSeq, entry.body, entry.at))
              then Some(q) else None
  {
  }

  lemma TakenAgrees(f: Projection, f': Projection, s: Projection, s': Projection, h: Projection, entry: Entry)
    requires Coherent(f) && Agrees(f, s, h) && Admitted(f.v, entry.body)
    requires f' == Apply(f, Commit(f.v, entry.body), entry) && s' == Apply(s, Commit(s.v, entry.body), entry)
    ensures Agrees(f', s', h)
    ensures Applicable(s, entry.body, ItemOf(s'.v.mirror, s'.v.lastSeq, entry.body, entry.at))
  {
    CommitAgrees(f.v, s.v, entry.body);
    AdmittedGrounded(f.v, entry.body);
    FloorRises(f, f'.v, entry.body);
    AppliedAgrees(f, f', s, s', h, entry);
    AppliesAlike(f, s, h, entry);
  }

  lemma AppliesAlike(f: Projection, s: Projection, h: Projection, entry: Entry)
    requires RequestsCoherent(f.requests, f.v.talk, f.v.lastSeq) && Agrees(f, s, h) && Grounded(f.v, entry.body)
    requires entry.body.Mirrored? ==> s.mirrors.Find(entry.body.upTo).Some?
    requires entry.body.SideEffectCompleted? ==> entry.body.effectSeq in s.effects
    ensures var v := Commit(s.v, entry.body);
            Applicable(s, entry.body, ItemOf(v.mirror, v.lastSeq, entry.body, entry.at))
  {
    ItemOfCommit(s.v, entry);
    if entry.body.InteractionFinished? { assert f.requests.requested[entry.body.requestId] in s.requests.pending; }
  }

  lemma AppliedAgrees(f: Projection, f': Projection, s: Projection, s': Projection, h: Projection, entry: Entry)
    requires Coherent(f) && Agrees(f, s, h) && Grounded(f.v, entry.body)
    requires Floor(f'.v).Some? ==>
               Floor(f'.v).value == f.v.lastSeq || (Floor(f.v).Some? && Floor(f.v).value <= Floor(f'.v).value)
    requires ValidationAgrees(Commit(f.v, entry.body), Commit(s.v, entry.body),
                              TalkAfter(s.v.talk, entry.body).requested)
    requires f' == Apply(f, Commit(f.v, entry.body), entry) && s' == Apply(s, Commit(s.v, entry.body), entry)
    ensures Agrees(f', s', h)
    ensures entry.body.Mirrored? ==> s.mirrors.Find(entry.body.upTo).Some?
    ensures entry.body.SideEffectCompleted? ==> entry.body.effectSeq in s.effects
  {
    var item := ItemOf(f'.v.mirror, f'.v.lastSeq, entry.body, entry.at);
    ItemOfCommit(f.v, entry);
    TalkAgrees(f, f', s, s', h, entry.body, item);
    ChainAgrees(f, f', s, s', h, entry.body, item);
    EffectAgrees(f.effects, s.effects, h.effects, f.v.work, entry.body);
    OldestAgree(f, f', s, s', entry.body, item);
  }

  lemma OldestAgree(f: Projection, f': Projection, s: Projection, s': Projection, body: Record,
      item: Option<MirrorItem>)
    requires OnlyOldMissing(f.requests, s.requests, Floor(f.v), s.shortcut.omittedUpTo)
             && s.shortcut.omittedUpTo <= f.v.lastSeq
    requires RequestsCoherent(f.requests, f.v.talk, f.v.lastSeq)
    requires Floor(f'.v).Some? ==>
               Floor(f'.v).value == f.v.lastSeq || (Floor(f.v).Some? && Floor(f.v).value <= Floor(f'.v).value)
    requires f'.requests == RequestsAfter(f.requests, f.v.lastSeq + 1, body, item)
    requires s'.requests == RequestsAfter(s.requests, f.v.lastSeq + 1, body, item)
    ensures OnlyOldMissing(f'.requests, s'.requests, Floor(f'.v), s.shortcut.omittedUpTo)
  {
    OldAgrees(f.requests, s.requests, Floor(f.v), Floor(f'.v), s.shortcut.omittedUpTo, f.v.lastSeq, body, item);
  }

  // ---------------------------------------------------------------- looking history up

  /** Memory answers every needed key as full replay would. */
  ghost predicate Knows(f: Projection, s: Projection, needs: Needs) {
    && (forall id :: id in needs.requests ==>
          (id in f.requests.requested <==> id in s.requests.requested)
          && (id in f.requests.finished <==> id in s.requests.finished))
    && (forall e :: e in needs.effects ==> (e in f.effects <==> e in s.effects))
    && (forall k ::
         k in needs.mirrorSeqs && f.mirrors.Find(k).Some? ==> s.mirrors.Find(k).Some? || k in s.shortcut.historic)
  }

  lemma FoundRequestsAgree(f: Requests, s: Requests, h: Requests, checked: set<RequestId>, missing: set<RequestId>,
      found: Found, wanted: set<RequestId>)
    requires RequestsAgree(f, s, h, checked) && AnswersRequests(found, missing, h)
    requires missing == set id | id in wanted && id !in s.requested && id !in checked
    requires forall id :: id in f.finished ==> id in f.requested
    requires forall id :: id in h.finished ==> id in h.requested
    ensures RequestsAgree(f, FoundRequests(s, missing, found), h, checked + missing)
    ensures forall id :: id in wanted ==> (id in f.requested <==> id in FoundRequests(s, missing, found).requested)
    ensures forall id :: id in wanted ==> (id in f.finished <==> id in FoundRequests(s, missing, found).finished)
  {
  }

  lemma FoundOldMissing(f: Requests, s: Requests, missing: set<RequestId>, found: Found, floor: Option<nat>,
      omitted: nat)
    requires OnlyOldMissing(f, s, floor, omitted)
    ensures OnlyOldMissing(f, FoundRequests(s, missing, found), floor, omitted)
  {
  }

  lemma FoundEffectsAgree(f: map<nat, SideEffect>, s: map<nat, SideEffect>, h: map<nat, SideEffect>, missing: set<nat>,
      found: Found, wanted: set<nat>)
    requires EffectsAgree(f, s, h) && AnswersEffects(found, missing, h)
    requires missing == set e | e in wanted && e !in s
    ensures EffectsAgree(f, FoundEffects(s, missing, found), h)
    ensures forall e :: e in wanted ==> (e in f <==> e in FoundEffects(s, missing, found))
  {
    forall e | e in missing && e in found.starts
      ensures e in f
              && SideEffect(found.starts[e].body, if e in found.ends then Some(found.ends[e].body) else None) == f[e]
    {
      assert h[e] == f[e];
    }
  }

  /** A chain item that memory dropped is among those the history knows. */
  lemma DroppedItemListed(f: MirrorLog, s: MirrorLog, h: MirrorLog, historic: map<nat, MirrorItem>, lastSeq: nat,
      k: nat)
    requires MirrorsAgree(f, s, h, historic) && Numbered(f.order, 0, lastSeq) && s.Find(k).None? && f.Find(k).Some?
    ensures exists item :: item in h.order && item.recordSeq == k
  {
    FindAgrees(f, s, lastSeq, k);
    assert h.order[f.Find(k).value] == f.order[f.Find(k).value];
  }

  lemma FoundMirrorsAgree(f: MirrorLog, s: MirrorLog, h: MirrorLog, historic: map<nat, MirrorItem>, lastSeq: nat,
      missing: set<nat>, found: Found)
    requires MirrorsAgree(f, s, h, historic) && Numbered(f.order, 0, lastSeq) && AnswersMirror(found, missing, h.order)
    requires forall k :: k in missing ==> s.Find(k).None?
    ensures MirrorsAgree(f, s, h, FoundMirrors(historic, missing, found))
    ensures forall k :: k in missing && f.Find(k).Some? ==> k in FoundMirrors(historic, missing, found)
  {
    forall k | k in missing && f.Find(k).Some? ensures k in found.mirror {
      DroppedItemListed(f, s, h, historic, lastSeq, k);
    }
    HistoricListed(f.order, h.order, historic, missing, found);
  }

  lemma HistoricListed(order: seq<MirrorItem>, prefix: seq<MirrorItem>, historic: map<nat, MirrorItem>,
      missing: set<nat>, found: Found)
    requires |prefix| <= |order| && prefix == order[..|prefix|] && AnswersMirror(found, missing, prefix)
    requires forall k :: k in historic ==> historic[k] in order && historic[k].recordSeq == k
    ensures var later := FoundMirrors(historic, missing, found);
            forall k :: k in later ==> later[k] in order && later[k].recordSeq == k
  {
    assert forall item :: item in prefix ==> item in order;
  }

  lemma FoundConsistent(missing: Needs, found: Found, h: Projection)
    requires Answers(found, missing, h) && RequestsCoherent(h.requests, h.v.talk, h.v.lastSeq)
    ensures Consistent(missing, found)
  {
  }

  /** Looking keys up never reports a corrupt ledger, keeps the agreement and answers the keys. */
  lemma ApplyHistoryAgrees(f: Projection, s: Projection, h: Projection, needs: Needs, found: Found)
    requires Coherent(f) && Coherent(h) && Agrees(f, s, h) && Answers(found, Missing(s, needs), h)
    ensures Consistent(Missing(s, needs), found)
    ensures Agrees(f, ApplyHistory(s, Missing(s, needs), found), h)
    ensures Knows(f, ApplyHistory(s, Missing(s, needs), found), needs)
  {
    FoundConsistent(Missing(s, needs), found, h);
    HistoryApplied(f, s, ApplyHistory(s, Missing(s, needs), found), h, needs, Missing(s, needs), found);
  }

  lemma HistoryApplied(f: Projection, s: Projection, s': Projection, h: Projection, needs: Needs, missing: Needs,
      found: Found)
    requires Agrees(f, s, h) && Answers(found, missing, h) && missing == Missing(s, needs)
             && s' == ApplyHistory(s, missing, found)
    requires Numbered(f.mirrors.order, 0, f.v.lastSeq)
    requires forall id :: id in f.requests.finished ==> id in f.requests.requested
    requires forall id :: id in h.requests.finished ==> id in h.requests.requested
    ensures Agrees(f, s', h) && Knows(f, s', needs)
  {
    FoundRequestsAgree(f.requests, s.requests, h.requests, s.shortcut.checked, missing.requests, found, needs.requests);
    FoundOldMissing(f.requests, s.requests, missing.requests, found, Floor(f.v), s.shortcut.omittedUpTo);
    FoundEffectsAgree(f.effects, s.effects, h.effects, missing.effects, found, needs.effects);
    FoundMirrorsAgree(f.mirrors, s.mirrors, h.mirrors, s.shortcut.historic, f.v.lastSeq, missing.mirrorSeqs, found);
  }

  lemma NothingOmitted(f: Projection, s: Projection, id: AssignmentId, needs: Needs)
    requires Agrees(f, s, Empty(id))
    requires Coherent(f)
    ensures Knows(f, s, needs)
  {
    forall k | k in needs.mirrorSeqs ensures f.mirrors.Find(k).Some? ==> s.mirrors.Find(k).Some? {
      FindAgrees(f.mirrors, s.mirrors, f.v.lastSeq, k);
    }
  }

  // ---------------------------------------------------------------- whole runs

  /** What happens to a shortened state: a record is reduced, keys are looked up, or it is cut and restored. */
  datatype Action = Take(entry: Entry) | LookUp(needs: Needs) | Cut

  function Entries(run: seq<Action>): seq<Entry>
    decreases |run|
  {
    if run == [] then []
    else
      var before := Entries(run[..|run| - 1]);
      var last := run[|run| - 1];
      if last.Take? then before + [last.entry] else before
  }

  function TailNeeds(body: Record): Needs {
    Needs(if body.InteractionRequested? then {body.requestId} else {}, {}, {})
  }

  function RowsOf(id: AssignmentId, log: seq<Entry>): Rows {
    match Index(id, log) case Some(indexed) => indexed.rows case None => NoRows
  }

  function TakeEntry(s: Projection, entry: Entry, rows: Rows): Option<Projection> {
    match Hydrate(s, TailNeeds(entry.body), rows)
    case None => None
    case Some(known) => if LookupRequired(known, entry.body) then None else Step(known, entry)
  }

  /** A run of the executor's shortened state; look-ups read the index of all records so far. */
  ghost function ShortRun(id: AssignmentId, run: seq<Action>): Option<Projection>
    decreases |run|
  {
    if run == [] then Some(Empty(id))
    else
      var before := run[..|run| - 1];
      match ShortRun(id, before)
      case None => None
      case Some(s) =>
        match run[|run| - 1]
        case Take(entry) => TakeEntry(s, entry, RowsOf(id, Entries(before)))
        case LookUp(needs) => Hydrate(s, needs, RowsOf(id, Entries(before)))
        case Cut => Some(Snapshot(s))
  }

  /** The shortened state of a run agrees with full replay of its records. */
  ghost predicate RunAgrees(id: AssignmentId, log: seq<Entry>, s: Projection) {
    && Replay(id, log).Some?
    && s.shortcut.historyBase <= |log|
    && Replay(id, log[..s.shortcut.historyBase]).Some?
    && Agrees(Replay(id, log).value, s, Replay(id, log[..s.shortcut.historyBase]).value)
  }

  lemma HydrateAgrees(id: AssignmentId, log: seq<Entry>, s: Projection, needs: Needs)
    requires RunAgrees(id, log, s)
    ensures var s' := Hydrate(s, needs, RowsOf(id, log));
            && s'.Some?
            && RunAgrees(id, log, s'.value)
            && Knows(Replay(id, log).value, s'.value, needs)
            && (forall k :: k in needs.requests && s'.value.OmitsHistory() ==>
                  k in s'.value.requests.requested || k in s'.value.shortcut.checked)
            && s'.value.v.talk.requested == s'.value.requests.requested.Keys
  {
    var base := s.shortcut.historyBase;
    var f, h := Replay(id, log).value, Replay(id, log[..base]).value;
    ReplayCoherent(id, log);
    ReplayCoherent(id, log[..base]);
    if s.OmitsHistory() {
      ReadHistoryAnswers(id, log, base, Missing(s, needs));
      ApplyHistoryAgrees(f, s, h, needs, ReadHistory(RowsOf(id, log), Missing(s, needs), base));
    } else {
      NothingOmitted(f, s, id, needs);
    }
  }

  lemma TakeAgrees(id: AssignmentId, log: seq<Entry>, s: Projection, entry: Entry)
    requires RunAgrees(id, log, s)
    ensures TakeEntry(s, entry, RowsOf(id, log)).Some? <==> Replay(id, log + [entry]).Some?
    ensures Replay(id, log + [entry]).Some? ==> RunAgrees(id, log + [entry], TakeEntry(s, entry, RowsOf(id, log)).value)
  {
    HydrateAgrees(id, log, s, TailNeeds(entry.body));
    KnownStepAgrees(id, log, Hydrate(s, TailNeeds(entry.body), RowsOf(id, log)).value, entry);
  }

  lemma KnownStepAgrees(id: AssignmentId, log: seq<Entry>, known: Projection, entry: Entry)
    requires RunAgrees(id, log, known)
    requires entry.body.InteractionRequested? ==> Known(Replay(id, log).value, known, entry.body.requestId)
    ensures Step(known, entry).Some? <==> Replay(id, log + [entry]).Some?
    ensures Replay(id, log + [entry]).Some? ==> RunAgrees(id, log + [entry], Step(known, entry).value)
  {
    ReplayCoherent(id, log);
    var base := known.shortcut.historyBase;
    StepAgrees(Replay(id, log).value, known, Replay(id, log[..base]).value, entry);
    assert (log + [entry])[..|log|] == log;
    assert (log + [entry])[..base] == log[..base];
  }

  lemma CutAgrees(id: AssignmentId, log: seq<Entry>, s: Projection)
    requires RunAgrees(id, log, s)
    ensures RunAgrees(id, log, Snapshot(s))
  {
    ReplayCoherent(id, log);
    SnapshotAgrees(Replay(id, log).value, s, Replay(id, log[..s.shortcut.historyBase]).value);
    assert log[..|log|] == log;
  }

  /** Snapshot refinement: over every log and any mix of cuts and look-ups, the shortened state accepts the
      same records as full replay and agrees with it. */
  lemma {:induction false} ShortcutRefinesReplay(id: AssignmentId, run: seq<Action>)
    ensures ShortRun(id, run).Some? <==> Replay(id, Entries(run)).Some?
    ensures ShortRun(id, run).Some? ==> RunAgrees(id, Entries(run), ShortRun(id, run).value)
    decreases |run|
  {
    if run == [] {
      EmptyAgrees(id);
    } else {
      var before, last := run[..|run| - 1], run[|run| - 1];
      var log := Entries(before);
      ShortcutRefinesReplay(id, before);
      assert last.Take? ==> (log + [last.entry])[..|log|] == log;
      if ShortRun(id, before).Some? {
        var s := ShortRun(id, before).value;
        match last
        case Take(entry) => TakeAgrees(id, log, s, entry);
        case LookUp(needs) => HydrateAgrees(id, log, s, needs);
        case Cut => CutAgrees(id, log, s);
      }
    }
  }

  lemma EmptyAgrees(id: AssignmentId)
    ensures RunAgrees(id, [], Empty(id))
  {
    var none: seq<Entry> := [];
    assert none[..0] == none;
  }
}
