/** Keyed history rows: the index writes one small row per request, result, chain item and side effect,
    so a ledger that dropped its completed history can look single keys up again. */
module LedgerHistory {
  import opened Options
  import opened LedgerRecords
  import opened LedgerValidator
  import opened LedgerProjection
  import opened LedgerCoherence

  datatype EffectRow = EffectRow(recordSeq: nat, body: Payload)

  /** Rows by key; every value carries the sequence of the record that wrote it. */
  datatype Rows = Rows(
    requests: map<RequestId, Requested>,
    results: map<RequestId, nat>,
    chain: map<nat, MirrorItem>,
    starts: map<nat, EffectRow>,
    ends: map<nat, EffectRow>)

  datatype Needs = Needs(requests: set<RequestId>, effects: set<nat>, mirrorSeqs: set<nat>)

  /** An effect fact from the index carries its sequence; one from a legacy page does not. */
  datatype EffectFact = EffectFact(recordSeq: Option<nat>, body: Payload)

  datatype Found = Found(
    requests: map<RequestId, Requested>,
    finished: map<RequestId, MirrorItem>,
    starts: map<nat, EffectFact>,
    ends: map<nat, EffectFact>,
    mirror: map<nat, MirrorItem>)

  const NoRows := Rows(map[], map[], map[], map[], map[])

  function ChainRowsAfter(chain: map<nat, MirrorItem>, item: Option<MirrorItem>): map<nat, MirrorItem> {
    if item.Some? then chain[item.value.recordSeq := item.value] else chain
  }

  function ResultRowsAfter(results: map<RequestId, nat>, body: Record, item: Option<MirrorItem>): map<RequestId, nat> {
    if body.InteractionFinished? && item.Some? then results[body.requestId := item.value.recordSeq] else results
  }

  /** The rows one validated record adds; `v` is the validation state after it. */
  function RowsAfter(rows: Rows, v: Validation, entry: Entry): Rows {
    var item := ItemOf(v.mirror, v.lastSeq, entry.body, entry.at);
    var body := entry.body;
    Rows(if body.InteractionRequested?
         then rows.requests[body.requestId := Requested(body.requestId, body.request, v.lastSeq)] else rows.requests,
         ResultRowsAfter(rows.results, body, item),
         ChainRowsAfter(rows.chain, item),
         if body.SideEffectStarted? then rows.starts[body.effectSeq := EffectRow(v.lastSeq, body.input)]
         else rows.starts,
         if body.SideEffectCompleted? then rows.ends[body.effectSeq := EffectRow(v.lastSeq, body.result)]
         else rows.ends)
  }

  datatype Indexed = Indexed(v: Validation, rows: Rows)

  /** The index after a log: it follows the shared validator only, never the executor's projection. */
  function Index(id: AssignmentId, log: seq<Entry>): Option<Indexed>
    decreases |log|
  {
    if log == [] then Some(Indexed(Create(id), NoRows))
    else
      var entry := log[|log| - 1];
      match Index(id, log[..|log| - 1])
      case None => None
      case Some(before) =>
        if Admitted(before.v, entry.body)
        then var v := Commit(before.v, entry.body); Some(Indexed(v, RowsAfter(before.rows, v, entry)))
        else None
  }

  function RequestsUpTo(rows: map<RequestId, Requested>, ids: set<RequestId>, upTo: nat): map<RequestId, Requested> {
    map id | id in ids && id in rows && rows[id].recordSeq <= upTo :: rows[id]
  }

  function ResultsUpTo(results: map<RequestId, nat>, chain: map<nat, MirrorItem>, ids: set<RequestId>,
      upTo: nat): map<RequestId, MirrorItem> {
    map id | id in ids && id in results && results[id] <= upTo && results[id] in chain :: chain[results[id]]
  }

  function EffectsUpTo(rows: map<nat, EffectRow>, keys: set<nat>, upTo: nat): map<nat, EffectFact> {
    map e | e in keys && e in rows && rows[e].recordSeq <= upTo :: EffectFact(Some(rows[e].recordSeq), rows[e].body)
  }

  function ChainUpTo(chain: map<nat, MirrorItem>, seqs: set<nat>, upTo: nat): map<nat, MirrorItem> {
    map s | s in seqs && s in chain && s <= upTo :: chain[s]
  }

  /** Looks up the needed keys among rows written by records up to `upTo`. */
  function ReadHistory(rows: Rows, needs: Needs, upTo: nat): Found {
    Found(RequestsUpTo(rows.requests, needs.requests, upTo),
          ResultsUpTo(rows.results, rows.chain, needs.requests, upTo),
          EffectsUpTo(rows.starts, needs.effects, upTo),
          EffectsUpTo(rows.ends, needs.effects, upTo),
          ChainUpTo(rows.chain, needs.mirrorSeqs, upTo))
  }

  // ---------------------------------------------------------------- rows against full replay

  ghost predicate ChainMatches(chain: map<nat, MirrorItem>, order: seq<MirrorItem>, lastSeq: nat) {
    && (forall s :: s in chain ==> chain[s] in order && chain[s].recordSeq == s <= lastSeq)
    && (forall item :: item in order ==> item.recordSeq in chain && chain[item.recordSeq] == item)
  }

  ghost predicate ResultsMatch(results: map<RequestId, nat>, chain: map<nat, MirrorItem>,
      finished: map<RequestId, MirrorItem>) {
    && results.Keys == finished.Keys
    && (forall id :: id in results ==>
          finished[id].recordSeq == results[id] && results[id] in chain && chain[results[id]] == finished[id])
  }

  ghost predicate EffectsMatch(starts: map<nat, EffectRow>, ends: map<nat, EffectRow>, effects: map<nat, SideEffect>,
      lastSeq: nat) {
    && starts.Keys == effects.Keys
    && (forall e :: e in starts ==> effects[e].input == starts[e].body && starts[e].recordSeq <= lastSeq)
    && (forall e :: e in ends <==> e in effects && effects[e].result.Some?)
    && (forall e :: e in ends ==>
          effects[e].result == Some(ends[e].body) && starts[e].recordSeq < ends[e].recordSeq <= lastSeq)
  }

  /** The rows hold exactly the facts full replay holds. */
  ghost predicate RowsMatch(rows: Rows, p: Projection) {
    && rows.requests == p.requests.requested
    && ResultsMatch(rows.results, rows.chain, p.requests.finished)
    && ChainMatches(rows.chain, p.mirrors.order, p.v.lastSeq)
    && EffectsMatch(rows.starts, rows.ends, p.effects, p.v.lastSeq)
  }

  lemma ChainStep(chain: map<nat, MirrorItem>, order: seq<MirrorItem>, lastSeq: nat, item: MirrorItem)
    requires ChainMatches(chain, order, lastSeq) && item.recordSeq == lastSeq + 1
    ensures ChainMatches(chain[item.recordSeq := item], order + [item], lastSeq + 1)
  {
    assert forall o :: o in order + [item] <==> o in order || o == item;
  }

  lemma ResultStep(results: map<RequestId, nat>, chain: map<nat, MirrorItem>, finished: map<RequestId, MirrorItem>,
      lastSeq: nat, id: Option<RequestId>, item: MirrorItem)
    requires ResultsMatch(results, chain, finished) && item.recordSeq == lastSeq + 1
    requires forall s :: s in chain ==> s <= lastSeq
    ensures var later := chain[item.recordSeq := item];
            match id
            case Some(id) => ResultsMatch(results[id := item.recordSeq], later, finished[id := item])
            case None => ResultsMatch(results, later, finished)
  {
  }

  lemma EffectStartStep(starts: map<nat, EffectRow>, ends: map<nat, EffectRow>, effects: map<nat, SideEffect>,
      lastSeq: nat, e: nat, input: Payload)
    requires EffectsMatch(starts, ends, effects, lastSeq) && e !in effects
    ensures EffectsMatch(starts[e := EffectRow(lastSeq + 1, input)], ends, effects[e := SideEffect(input, None)],
                         lastSeq + 1)
  {
  }

  lemma EffectEndStep(starts: map<nat, EffectRow>, ends: map<nat, EffectRow>, effects: map<nat, SideEffect>,
      lastSeq: nat, e: nat, result: Payload)
    requires EffectsMatch(starts, ends, effects, lastSeq) && e in effects
    ensures EffectsMatch(starts, ends[e := EffectRow(lastSeq + 1, result)],
                         effects[e := SideEffect(effects[e].input, Some(result))], lastSeq + 1)
  {
  }

  lemma EffectRowsStep(rows: Rows, rows': Rows, effects: map<nat, SideEffect>, w: Work, lastSeq: nat, body: Record)
    requires EffectsMatch(rows.starts, rows.ends, effects, lastSeq) && EffectsCoherent(effects, w)
    requires body.SideEffectStarted? ==> body.effectSeq == w.effectCount + 1
    requires body.SideEffectCompleted? ==> body.effectSeq in w.openEffects
    requires rows'.starts == if body.SideEffectStarted?
             then rows.starts[body.effectSeq := EffectRow(lastSeq + 1, body.input)] else rows.starts
    requires rows'.ends == if body.SideEffectCompleted?
             then rows.ends[body.effectSeq := EffectRow(lastSeq + 1, body.result)] else rows.ends
    ensures EffectsMatch(rows'.starts, rows'.ends, EffectsAfter(effects, body), lastSeq + 1)
  {
    if body.SideEffectStarted? {
      EffectStartStep(rows.starts, rows.ends, effects, lastSeq, body.effectSeq, body.input);
    } else if body.SideEffectCompleted? {
      EffectEndStep(rows.starts, rows.ends, effects, lastSeq, body.effectSeq, body.result);
    }
  }

  lemma TalkRowsStep(rows: Rows, rows': Rows, p: Projection, q: Projection, entry: Entry)
    requires rows.requests == p.requests.requested && ResultsMatch(rows.results, rows.chain, p.requests.finished)
    requires ChainMatches(rows.chain, p.mirrors.order, p.v.lastSeq)
    requires rows' == RowsAfter(rows, q.v, entry) && q == Apply(p, Commit(p.v, entry.body), entry)
    ensures rows'.requests == q.requests.requested && ResultsMatch(rows'.results, rows'.chain, q.requests.finished)
    ensures ChainMatches(rows'.chain, q.mirrors.order, q.v.lastSeq)
  {
    ItemOfCommit(p.v, entry);
    var item := ItemOf(q.v.mirror, q.v.lastSeq, entry.body, entry.at);
    if item.Some? {
      ChainStep(rows.chain, p.mirrors.order, p.v.lastSeq, item.value);
      ResultStep(rows.results, rows.chain, p.requests.finished, p.v.lastSeq,
                 if entry.body.InteractionFinished? then Some(entry.body.requestId) else None, item.value);
    }
  }

  lemma RowsFollow(rows: Rows, p: Projection, q: Projection, entry: Entry)
    requires RowsMatch(rows, p) && Grounded(p.v, entry.body) && EffectsCoherent(p.effects, p.v.work)
    requires q == Apply(p, Commit(p.v, entry.body), entry)
    ensures RowsMatch(RowsAfter(rows, q.v, entry), q)
  {
    var rows' := RowsAfter(rows, q.v, entry);
    TalkRowsStep(rows, rows', p, q, entry);
    EffectRowsStep(rows, rows', p.effects, p.v.work, p.v.lastSeq, entry.body);
  }

  lemma RowsStep(rows: Rows, p: Projection, entry: Entry)
    requires RowsMatch(rows, p) && Coherent(p) && Step(p, entry).Some?
    ensures var q := Step(p, entry).value;
            RowsMatch(RowsAfter(rows, q.v, entry), q)
  {
    AdmittedGrounded(p.v, entry.body);
    RowsFollow(rows, p, Step(p, entry).value, entry);
  }

  /** The index is valid exactly for the logs the executor can replay, and its rows match the replay. */
  lemma {:induction false} IndexMatchesReplay(id: AssignmentId, log: seq<Entry>)
    ensures Index(id, log).Some? <==> Replay(id, log).Some?
    ensures Index(id, log).Some? ==>
              Index(id, log).value.v == Replay(id, log).value.v
              && RowsMatch(Index(id, log).value.rows, Replay(id, log).value)
    decreases |log|
  {
    if log != [] {
      var shorter := log[..|log| - 1];
      IndexMatchesReplay(id, shorter);
      if Replay(id, shorter).Some? {
        var p := Replay(id, shorter).value;
        ReplayCoherent(id, shorter);
        AdmittedNeverCorrupt(p, log[|log| - 1]);
        if Step(p, log[|log| - 1]).Some? {
          RowsStep(Index(id, shorter).value.rows, p, log[|log| - 1]);
        }
      }
    }
  }

  // ---------------------------------------------------------------- looking history up

  /** What a look-up found is what the projection `h` knows about the needed keys. */
  ghost predicate Answers(found: Found, needs: Needs, h: Projection) {
    && AnswersRequests(found, needs.requests, h.requests)
    && AnswersEffects(found, needs.effects, h.effects)
    && AnswersMirror(found, needs.mirrorSeqs, h.mirrors.order)
  }

  ghost predicate AnswersRequests(found: Found, ids: set<RequestId>, rq: Requests) {
    && (forall id :: id in ids ==> (id in found.requests <==> id in rq.requested))
    && (forall id :: id in found.requests ==> id in ids && id in rq.requested && found.requests[id] == rq.requested[id])
    && (forall id :: id in ids ==> (id in found.finished <==> id in rq.finished))
    && (forall id :: id in found.finished ==> id in ids && id in rq.finished && found.finished[id] == rq.finished[id])
  }

  ghost predicate AnswersEffects(found: Found, keys: set<nat>, effects: map<nat, SideEffect>) {
    && (forall e :: e in keys ==> (e in found.starts <==> e in effects))
    && (forall e :: e in found.starts ==> e in keys && e in effects && found.starts[e].body == effects[e].input)
    && (forall e :: e in keys ==> (e in found.ends <==> e in effects && effects[e].result.Some?))
    && (forall e :: e in found.ends ==> e in keys && e in effects && effects[e].result == Some(found.ends[e].body))
    && InOrder(found.starts, found.ends)
  }

  /** Where both ends of an effect carry their sequence, the completion follows the start. */
  ghost predicate InOrder(starts: map<nat, EffectFact>, ends: map<nat, EffectFact>) {
    forall e :: e in starts && e in ends && starts[e].recordSeq.Some? && ends[e].recordSeq.Some? ==>
      starts[e].recordSeq.value < ends[e].recordSeq.value
  }

  ghost predicate AnswersMirror(found: Found, seqs: set<nat>, order: seq<MirrorItem>) {
    && (forall s :: s in found.mirror ==> s in seqs && found.mirror[s] in order && found.mirror[s].recordSeq == s)
    && (forall item :: item in order && item.recordSeq in seqs ==> item.recordSeq in found.mirror)
  }

  lemma WholeRowsAnswer(rows: Rows, needs: Needs, p: Projection)
    requires RowsMatch(rows, p) && Coherent(p)
    ensures Answers(ReadHistory(rows, needs, p.v.lastSeq), needs, p)
  {
    var found := ReadHistory(rows, needs, p.v.lastSeq);
    RequestRowsAnswer(rows, needs, p);
    assert AnswersEffects(found, needs.effects, p.effects);
    assert AnswersMirror(found, needs.mirrorSeqs, p.mirrors.order);
  }

  lemma RequestRowsAnswer(rows: Rows, needs: Needs, p: Projection)
    requires rows.requests == p.requests.requested && ResultsMatch(rows.results, rows.chain, p.requests.finished)
    requires RequestsCoherent(p.requests, p.v.talk, p.v.lastSeq)
    ensures AnswersRequests(ReadHistory(rows, needs, p.v.lastSeq), needs.requests, p.requests)
  {
  }

  /** Every later row lies under a fresh key and is written past `lastSeq`. */
  ghost predicate Extends(rows: Rows, later: Rows, lastSeq: nat) {
    && ExtendsRequests(rows.requests, later.requests, lastSeq)
    && (forall id :: id in rows.results ==> id in later.results && later.results[id] == rows.results[id])
    && (forall id :: id in later.results && id !in rows.results ==> later.results[id] > lastSeq)
    && (forall s :: s in rows.chain ==> s in later.chain && later.chain[s] == rows.chain[s])
    && (forall s :: s in later.chain && s !in rows.chain ==> s > lastSeq)
    && ExtendsEffects(rows.starts, later.starts, lastSeq)
    && ExtendsEffects(rows.ends, later.ends, lastSeq)
  }

  ghost predicate ExtendsRequests(rows: map<RequestId, Requested>, later: map<RequestId, Requested>, lastSeq: nat) {
    && (forall id :: id in rows ==> id in later && later[id] == rows[id])
    && (forall id :: id in later && id !in rows ==> later[id].recordSeq > lastSeq)
  }

  ghost predicate ExtendsEffects(rows: map<nat, EffectRow>, later: map<nat, EffectRow>, lastSeq: nat) {
    && (forall e :: e in rows ==> e in later && later[e] == rows[e])
    && (forall e :: e in later && e !in rows ==> later[e].recordSeq > lastSeq)
  }

  /** The record's keys are not in use yet. */
  ghost predicate FreshKeys(rows: Rows, lastSeq: nat, body: Record) {
    && (body.InteractionRequested? ==> body.requestId !in rows.requests)
    && (body.InteractionFinished? ==> body.requestId !in rows.results)
    && (body.SideEffectStarted? ==> body.effectSeq !in rows.starts)
    && (body.SideEffectCompleted? ==> body.effectSeq !in rows.ends)
    && lastSeq + 1 !in rows.chain
  }

  lemma GroundedFresh(rows: Rows, p: Projection, body: Record)
    requires RowsMatch(rows, p) && Grounded(p.v, body)
    requires RequestsCoherent(p.requests, p.v.talk, p.v.lastSeq) && EffectsCoherent(p.effects, p.v.work)
    ensures FreshKeys(rows, p.v.lastSeq, body)
  {
  }

  lemma FreshExtends(rows: Rows, later: Rows, v: Validation, entry: Entry)
    requires FreshKeys(rows, v.lastSeq, entry.body) && later == RowsAfter(rows, Commit(v, entry.body), entry)
    ensures Extends(rows, later, v.lastSeq)
  {
    ItemOfCommit(v, entry);
    assert ExtendsEffects(rows.starts, later.starts, v.lastSeq);
    assert ExtendsEffects(rows.ends, later.ends, v.lastSeq);
  }

  lemma RecordExtends(rows: Rows, p: Projection, entry: Entry)
    requires RowsMatch(rows, p) && Coherent(p) && Admitted(p.v, entry.body)
    ensures Extends(rows, RowsAfter(rows, Commit(p.v, entry.body), entry), p.v.lastSeq)
  {
    AdmittedGrounded(p.v, entry.body);
    GroundedFresh(rows, p, entry.body);
    FreshExtends(rows, RowsAfter(rows, Commit(p.v, entry.body), entry), p.v, entry);
  }

  lemma EarlierRequestsUnchanged(rows: map<RequestId, Requested>, later: map<RequestId, Requested>, lastSeq: nat,
      ids: set<RequestId>, upTo: nat)
    requires ExtendsRequests(rows, later, lastSeq) && upTo <= lastSeq
    ensures RequestsUpTo(later, ids, upTo) == RequestsUpTo(rows, ids, upTo)
  {
    var a, b := RequestsUpTo(later, ids, upTo), RequestsUpTo(rows, ids, upTo);
    assert forall id :: (id in a <==> id in b) && (id in a ==> a[id] == b[id]);
  }

  lemma EarlierEffectsUnchanged(rows: map<nat, EffectRow>, later: map<nat, EffectRow>, lastSeq: nat, keys: set<nat>,
      upTo: nat)
    requires ExtendsEffects(rows, later, lastSeq) && upTo <= lastSeq
    ensures EffectsUpTo(later, keys, upTo) == EffectsUpTo(rows, keys, upTo)
  {
    var a, b := EffectsUpTo(later, keys, upTo), EffectsUpTo(rows, keys, upTo);
    assert forall e :: (e in a <==> e in b) && (e in a ==> a[e] == b[e]);
  }

  lemma EarlierResultsUnchanged(rows: Rows, later: Rows, lastSeq: nat, ids: set<RequestId>, upTo: nat)
    requires Extends(rows, later, lastSeq) && upTo <= lastSeq
    requires forall k :: k in rows.results ==> rows.results[k] in rows.chain
    ensures ResultsUpTo(later.results, later.chain, ids, upTo) == ResultsUpTo(rows.results, rows.chain, ids, upTo)
  {
    var a, b := ResultsUpTo(later.results, later.chain, ids, upTo), ResultsUpTo(rows.results, rows.chain, ids, upTo);
    forall id ensures (id in a <==> id in b) && (id in a ==> a[id] == b[id]) {
      if id in later.results && later.results[id] <= upTo {
        assert id in rows.results && rows.results[id] in rows.chain;
      }
    }
  }

  lemma EarlierReadsUnchanged(rows: Rows, later: Rows, lastSeq: nat, needs: Needs, upTo: nat)
    requires Extends(rows, later, lastSeq) && upTo <= lastSeq
    requires forall id :: id in rows.results ==> rows.results[id] in rows.chain
    ensures ReadHistory(later, needs, upTo) == ReadHistory(rows, needs, upTo)
  {
    EarlierResultsUnchanged(rows, later, lastSeq, needs.requests, upTo);
    EarlierRequestsUnchanged(rows.requests, later.requests, lastSeq, needs.requests, upTo);
    EarlierEffectsUnchanged(rows.starts, later.starts, lastSeq, needs.effects, upTo);
    EarlierEffectsUnchanged(rows.ends, later.ends, lastSeq, needs.effects, upTo);
    assert ChainUpTo(later.chain, needs.mirrorSeqs, upTo) == ChainUpTo(rows.chain, needs.mirrorSeqs, upTo);
  }

  /** Reading an index of the whole log at an earlier position answers as replaying the log up to there. */
  lemma {:induction false} ReadHistoryAnswers(id: AssignmentId, log: seq<Entry>, upTo: nat, needs: Needs)
    requires Replay(id, log).Some? && upTo <= |log|
    ensures Index(id, log).Some? && Replay(id, log[..upTo]).Some?
    ensures Answers(ReadHistory(Index(id, log).value.rows, needs, upTo), needs, Replay(id, log[..upTo]).value)
    decreases |log|
  {
    IndexMatchesReplay(id, log);
    ReplayCoherent(id, log);
    if upTo == |log| {
      assert log[..upTo] == log;
      WholeRowsAnswer(Index(id, log).value.rows, needs, Replay(id, log).value);
    } else {
      var shorter := log[..|log| - 1];
      assert log[..upTo] == shorter[..upTo];
      ReadHistoryAnswers(id, shorter, upTo, needs);
      IndexMatchesReplay(id, shorter);
      ReplayCoherent(id, shorter);
      var rows, p, entry := Index(id, shorter).value.rows, Replay(id, shorter).value, log[|log| - 1];
      RecordExtends(rows, p, entry);
      EarlierReadsUnchanged(rows, RowsAfter(rows, Commit(p.v, entry.body), entry), p.v.lastSeq, needs, upTo);
    }
  }
}
