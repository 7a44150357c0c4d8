/** History of assignments created before keyed rows existed: the old prefix is written once as hashed pages,
    and a look-up combines those pages with the rows the index has written since. */
module LegacyHistory {
  import opened Options
  import opened LedgerRecords
  import opened LedgerValidator
  import opened LedgerProjection
  import opened LedgerCoherence
  import opened LedgerHistory

  datatype Category = RequestPages | EffectPages | MirrorPages

  datatype Facts = Facts(
    requests: map<RequestId, Requested>,
    finished: map<RequestId, MirrorItem>,
    starts: map<nat, Payload>,
    ends: map<nat, Payload>,
    mirror: map<nat, MirrorItem>)

  const NoFacts := Facts(map[], map[], map[], map[], map[])

  datatype PageCounts = PageCounts(requests: nat, effects: nat, mirror: nat)
  {
    function Of(category: Category): nat {
      match category case RequestPages => requests case EffectPages => effects case MirrorPages => mirror
    }

    predicate Positive() { requests > 0 && effects > 0 && mirror > 0 }
  }

  datatype Slot = Slot(category: Category, index: nat)

  datatype Page = Page(generation: int, upTo: nat, slot: Slot, count: nat, facts: Facts)

  /** What a decision state remembers of its legacy pages. */
  datatype Legend = Legend(generation: int, upTo: nat, counts: PageCounts)

  /** The key digest, reduced modulo the page count. */
  type Hash = (Category, int) -> nat

  function PageOf(hash: Hash, category: Category, key: int, pages: nat): nat
    requires pages > 0
  {
    hash(category, key) % pages
  }

  const PageKeys: nat := 8

  function PageCount(keys: nat): (pages: nat)
    ensures pages > 0 && pages * PageKeys >= keys
    ensures pages > 1 ==> (pages - 1) * PageKeys < keys
  {
    if keys == 0 then 1 else (keys + PageKeys - 1) / PageKeys
  }

  /** All facts of the covered prefix, open ones included. */
  function FactsOf(p: Projection): Facts {
    Facts(p.requests.requested,
          p.requests.finished,
          Inputs(p.effects),
          Results(p.effects),
          map s | s in SeqsOf(p.mirrors.order) && p.mirrors.Find(s).Some? :: p.mirrors.order[p.mirrors.Find(s).value])
  }

  function SeqsOf(order: seq<MirrorItem>): set<nat> {
    set item | item in order :: item.recordSeq
  }

  function CountsOf(facts: Facts): (counts: PageCounts)
    ensures counts.Positive()
  {
    PageCounts(PageCount(|facts.requests.Keys + facts.finished.Keys|),
               PageCount(|facts.starts.Keys + facts.ends.Keys|),
               PageCount(|facts.mirror.Keys|))
  }

  /** The part of the facts that lies on one page. */
  function OnPage(facts: Facts, hash: Hash, counts: PageCounts, slot: Slot): Facts
    requires counts.Positive()
  {
    match slot.category
    case RequestPages =>
      NoFacts.(requests := map id | id in facts.requests
               && PageOf(hash, RequestPages, id, counts.requests) == slot.index :: facts.requests[id],
               finished := map id | id in facts.finished
               && PageOf(hash, RequestPages, id, counts.requests) == slot.index :: facts.finished[id])
    case EffectPages =>
      NoFacts.(starts := map e | e in facts.starts && PageOf(hash, EffectPages, e, counts.effects) == slot.index ::
        facts.starts[e],
               ends := map e | e in facts.ends && PageOf(hash, EffectPages, e, counts.effects) == slot.index ::
                 facts.ends[e])
    case MirrorPages =>
      NoFacts.(mirror := map s | s in facts.mirror && PageOf(hash, MirrorPages, s, counts.mirror) == slot.index ::
        facts.mirror[s])
  }

  /** The pages written out for one generation. */
  function WrittenPage(facts: Facts, hash: Hash, legend: Legend, slot: Slot): Page
    requires legend.counts.Positive()
  {
    Page(legend.generation, legend.upTo, slot, legend.counts.Of(slot.category),
         OnPage(facts, hash, legend.counts, slot))
  }

  /** A legend for these facts: its page counts follow their number of keys. */
  predicate LegendFor(legend: Legend, facts: Facts) { legend.counts == CountsOf(facts) }

  /** Every request and its result lie on exactly one page of their category, which lies within the page count. */
  lemma RequestOnOnePage(facts: Facts, hash: Hash, counts: PageCounts, id: RequestId, slot: Slot)
    requires counts.Positive()
    ensures var home := Slot(RequestPages, PageOf(hash, RequestPages, id, counts.requests));
            && home.index < counts.requests
            && (id in OnPage(facts, hash, counts, slot).requests <==> id in facts.requests && slot == home)
            && (id in OnPage(facts, hash, counts, slot).finished <==> id in facts.finished && slot == home)
  {
  }

  lemma EffectOnOnePage(facts: Facts, hash: Hash, counts: PageCounts, e: nat, slot: Slot)
    requires counts.Positive()
    ensures var home := Slot(EffectPages, PageOf(hash, EffectPages, e, counts.effects));
            && home.index < counts.effects
            && (e in OnPage(facts, hash, counts, slot).starts <==> e in facts.starts && slot == home)
            && (e in OnPage(facts, hash, counts, slot).ends <==> e in facts.ends && slot == home)
  {
  }

  lemma MirrorItemOnOnePage(facts: Facts, hash: Hash, counts: PageCounts, s: nat, slot: Slot)
    requires counts.Positive()
    ensures var home := Slot(MirrorPages, PageOf(hash, MirrorPages, s, counts.mirror));
            home.index < counts.mirror
            && (s in OnPage(facts, hash, counts, slot).mirror <==> s in facts.mirror && slot == home)
  {
  }

  // ---------------------------------------------------------------- reading pages back

  /** Checkpoint storage: any slot may be missing, stale or from another generation. */
  type Disk = map<Slot, Page>

  /** A stored page is usable only if it is exactly the page the decision state refers to. */
  predicate Usable(disk: Disk, legend: Legend, slot: Slot) {
    && slot in disk
    && disk[slot].generation == legend.generation
    && disk[slot].upTo == legend.upTo
    && disk[slot].slot == slot
    && disk[slot].count == legend.counts.Of(slot.category)
  }

  /** Generations are unique: a usable page was written out for these facts. */
  ghost predicate Genuine(disk: Disk, hash: Hash, legend: Legend, facts: Facts) {
    && LegendFor(legend, facts)
    && (forall slot :: Usable(disk, legend, slot) ==> disk[slot] == WrittenPage(facts, hash, legend, slot))
  }

  /** The pages holding the needed keys. */
  function Wanted(hash: Hash, legend: Legend, needs: Needs): set<Slot>
    requires legend.counts.Positive()
  {
    (set id | id in needs.requests :: Slot(RequestPages, PageOf(hash, RequestPages, id, legend.counts.requests)))
    + (set e | e in needs.effects :: Slot(EffectPages, PageOf(hash, EffectPages, e, legend.counts.effects)))
    + (set s | s in needs.mirrorSeqs :: Slot(MirrorPages, PageOf(hash, MirrorPages, s, legend.counts.mirror)))
  }

  ghost predicate Sub<K, V>(part: map<K, V>, whole: map<K, V>) {
    forall k :: k in part ==> k in whole && part[k] == whole[k]
  }

  ghost predicate Splits<K, V>(own: map<K, V>, early: map<K, V>, whole: map<K, V>) {
    Sub(own, whole) && Sub(early, whole) && (forall k :: k in whole ==> k in own || k in early)
  }

  ghost predicate Within(part: Facts, whole: Facts) {
    && Sub(part.requests, whole.requests)
    && Sub(part.finished, whole.finished)
    && Sub(part.starts, whole.starts)
    && Sub(part.ends, whole.ends)
    && Sub(part.mirror, whole.mirror)
  }

  function Merge(a: Facts, b: Facts): Facts {
    Facts(a.requests + b.requests, a.finished + b.finished, a.starts + b.starts, a.ends + b.ends, a.mirror + b.mirror)
  }

  /** The merged facts answer every needed key as the covered prefix does. */
  ghost predicate Covers(part: Facts, whole: Facts, needs: Needs) {
    && Within(part, whole)
    && (forall k :: k in needs.requests && k in whole.requests ==> k in part.requests)
    && (forall k :: k in needs.requests && k in whole.finished ==> k in part.finished)
    && (forall k :: k in needs.effects && k in whole.starts ==> k in part.starts)
    && (forall k :: k in needs.effects && k in whole.ends ==> k in part.ends)
    && (forall k :: k in needs.mirrorSeqs && k in whole.mirror ==> k in part.mirror)
  }

  lemma SubMerge<K, V>(a: map<K, V>, b: map<K, V>, whole: map<K, V>)
    requires Sub(a, whole) && Sub(b, whole)
    ensures Sub(a + b, whole) && Sub(a, a + b) && Sub(b, a + b)
  {
  }

  lemma MergeWithin(a: Facts, b: Facts, whole: Facts)
    requires Within(a, whole) && Within(b, whole)
    ensures Within(Merge(a, b), whole) && Within(a, Merge(a, b)) && Within(b, Merge(a, b))
  {
    SubMerge(a.requests, b.requests, whole.requests);
    SubMerge(a.finished, b.finished, whole.finished);
    SubMerge(a.starts, b.starts, whole.starts);
    SubMerge(a.ends, b.ends, whole.ends);
    SubMerge(a.mirror, b.mirror, whole.mirror);
  }

  lemma WithinTrans(a: Facts, b: Facts, c: Facts)
    requires Within(a, b) && Within(b, c)
    ensures Within(a, c)
  {
  }

  /** Adding one more page keeps the pages already read. */
  lemma PageAdded(done: set<Slot>, part: Facts, more: Facts, facts: Facts, hash: Hash, counts: PageCounts)
    requires counts.Positive() && Within(part, facts) && Within(more, facts)
    requires forall slot :: slot in done ==> Within(OnPage(facts, hash, counts, slot), part)
    ensures Within(Merge(part, more), facts) && Within(more, Merge(part, more))
    ensures forall slot :: slot in done ==> Within(OnPage(facts, hash, counts, slot), Merge(part, more))
  {
    MergeWithin(part, more, facts);
    forall slot | slot in done ensures Within(OnPage(facts, hash, counts, slot), Merge(part, more)) {
      WithinTrans(OnPage(facts, hash, counts, slot), part, Merge(part, more));
    }
  }

  lemma PageWithin(facts: Facts, hash: Hash, counts: PageCounts, slot: Slot)
    requires counts.Positive()
    ensures Within(OnPage(facts, hash, counts, slot), facts)
  {
  }

  lemma WantedCover(part: Facts, facts: Facts, hash: Hash, legend: Legend, needs: Needs)
    requires legend.counts.Positive() && Within(part, facts)
    requires forall slot ::
               slot in Wanted(hash, legend, needs) ==> Within(OnPage(facts, hash, legend.counts, slot), part)
    ensures Covers(part, facts, needs)
  {
    forall k | k in needs.requests ensures (k in facts.requests ==> k in part.requests)
       && (k in facts.finished ==> k in part.finished) {
      var slot := Slot(RequestPages, PageOf(hash, RequestPages, k, legend.counts.requests));
      assert slot in Wanted(hash, legend, needs);
      assert Within(OnPage(facts, hash, legend.counts, slot), part);
    }
    forall k | k in needs.effects ensures (k in facts.starts ==> k in part.starts)
       && (k in facts.ends ==> k in part.ends) {
      var slot := Slot(EffectPages, PageOf(hash, EffectPages, k, legend.counts.effects));
      assert slot in Wanted(hash, legend, needs);
      assert Within(OnPage(facts, hash, legend.counts, slot), part);
    }
    forall k | k in needs.mirrorSeqs && k in facts.mirror ensures k in part.mirror {
      var slot := Slot(MirrorPages, PageOf(hash, MirrorPages, k, legend.counts.mirror));
      assert slot in Wanted(hash, legend, needs);
      assert Within(OnPage(facts, hash, legend.counts, slot), part);
    }
  }

  /** Every page of the needed keys can be used. */
  predicate Readable(disk: Disk, hash: Hash, legend: Legend, needs: Needs)
    requires legend.counts.Positive()
  {
    forall slot :: slot in Wanted(hash, legend, needs) ==> Usable(disk, legend, slot)
  }

  function HomeOf(hash: Hash, counts: PageCounts, category: Category, key: int): Slot
    requires counts.Positive()
  {
    Slot(category, PageOf(hash, category, key, counts.Of(category)))
  }

  /** The stored facts on the home page of a key. */
  function HomeFacts(disk: Disk, hash: Hash, counts: PageCounts, category: Category, key: int): Facts
    requires counts.Positive()
  {
    var slot := HomeOf(hash, counts, category, key);
    if slot in disk then disk[slot].facts else NoFacts
  }

  /** What the home pages of the needed keys say about them. */
  function PageFacts(disk: Disk, hash: Hash, counts: PageCounts, needs: Needs): Facts
    requires counts.Positive()
  {
    Facts(map id | id in needs.requests && id in HomeFacts(disk, hash, counts, RequestPages, id).requests ::
            HomeFacts(disk, hash, counts, RequestPages, id).requests[id],
          map id | id in needs.requests && id in HomeFacts(disk, hash, counts, RequestPages, id).finished ::
            HomeFacts(disk, hash, counts, RequestPages, id).finished[id],
          map e | e in needs.effects && e in HomeFacts(disk, hash, counts, EffectPages, e).starts ::
            HomeFacts(disk, hash, counts, EffectPages, e).starts[e],
          map e | e in needs.effects && e in HomeFacts(disk, hash, counts, EffectPages, e).ends ::
            HomeFacts(disk, hash, counts, EffectPages, e).ends[e],
          map s | s in needs.mirrorSeqs && s in HomeFacts(disk, hash, counts, MirrorPages, s).mirror ::
            HomeFacts(disk, hash, counts, MirrorPages, s).mirror[s])
  }

  lemma HomeWritten(disk: Disk, hash: Hash, legend: Legend, needs: Needs, facts: Facts, category: Category, key: int)
    requires Genuine(disk, hash, legend, facts) && Readable(disk, hash, legend, needs)
    requires HomeOf(hash, legend.counts, category, key) in Wanted(hash, legend, needs)
    ensures HomeFacts(disk, hash, legend.counts, category, key) ==
              OnPage(facts, hash, legend.counts, HomeOf(hash, legend.counts, category, key))
  {
  }

  lemma RequestPageAnswers(disk: Disk, hash: Hash, legend: Legend, needs: Needs, facts: Facts, id: RequestId)
    requires Genuine(disk, hash, legend, facts) && Readable(disk, hash, legend, needs) && id in needs.requests
    ensures var home := HomeFacts(disk, hash, legend.counts, RequestPages, id);
            SameOn(home.requests, facts.requests, {id}) && SameOn(home.finished, facts.finished, {id})
  {
    assert HomeOf(hash, legend.counts, RequestPages, id) in Wanted(hash, legend, needs);
    HomeWritten(disk, hash, legend, needs, facts, RequestPages, id);
  }

  lemma EffectPageAnswers(disk: Disk, hash: Hash, legend: Legend, needs: Needs, facts: Facts, e: nat)
    requires Genuine(disk, hash, legend, facts) && Readable(disk, hash, legend, needs) && e in needs.effects
    ensures var home := HomeFacts(disk, hash, legend.counts, EffectPages, e);
            SameOn(home.starts, facts.starts, {e}) && SameOn(home.ends, facts.ends, {e})
  {
    assert HomeOf(hash, legend.counts, EffectPages, e) in Wanted(hash, legend, needs);
    HomeWritten(disk, hash, legend, needs, facts, EffectPages, e);
  }

  lemma MirrorPageAnswers(disk: Disk, hash: Hash, legend: Legend, needs: Needs, facts: Facts, s: nat)
    requires Genuine(disk, hash, legend, facts) && Readable(disk, hash, legend, needs) && s in needs.mirrorSeqs
    ensures SameOn(HomeFacts(disk, hash, legend.counts, MirrorPages, s).mirror, facts.mirror, {s})
  {
    assert HomeOf(hash, legend.counts, MirrorPages, s) in Wanted(hash, legend, needs);
    HomeWritten(disk, hash, legend, needs, facts, MirrorPages, s);
  }

  /** Usable pages answer the needed keys as the covered prefix does. */
  lemma PageFactsCover(disk: Disk, hash: Hash, legend: Legend, needs: Needs, facts: Facts)
    requires Genuine(disk, hash, legend, facts) && Readable(disk, hash, legend, needs)
    ensures Covers(PageFacts(disk, hash, legend.counts, needs), facts, needs)
  {
    var part := PageFacts(disk, hash, legend.counts, needs);
    forall id | id in needs.requests
      ensures SameOn(part.requests, facts.requests, {id}) && SameOn(part.finished, facts.finished, {id})
    {
      RequestPageAnswers(disk, hash, legend, needs, facts, id);
    }
    forall e | e in needs.effects ensures SameOn(part.starts, facts.starts, {e}) && SameOn(part.ends, facts.ends, {e}) {
      EffectPageAnswers(disk, hash, legend, needs, facts, e);
    }
    forall s | s in needs.mirrorSeqs ensures SameOn(part.mirror, facts.mirror, {s}) {
      MirrorPageAnswers(disk, hash, legend, needs, facts, s);
    }
    KeyByKey(part, facts, needs);
  }

  lemma KeyByKey(part: Facts, facts: Facts, needs: Needs)
    requires forall id ::
               id in needs.requests ==>
                 SameOn(part.requests, facts.requests, {id}) && SameOn(part.finished, facts.finished, {id})
    requires forall e ::
               e in needs.effects ==> SameOn(part.starts, facts.starts, {e}) && SameOn(part.ends, facts.ends, {e})
    requires forall s :: s in needs.mirrorSeqs ==> SameOn(part.mirror, facts.mirror, {s})
    requires part.requests.Keys <= needs.requests && part.finished.Keys <= needs.requests
    requires part.starts.Keys <= needs.effects && part.ends.Keys <= needs.effects
             && part.mirror.Keys <= needs.mirrorSeqs
    ensures Covers(part, facts, needs)
  {
  }

  ghost predicate SameOn<K, V>(a: map<K, V>, b: map<K, V>, keys: set<K>) {
    forall k :: k in keys ==> (k in a <==> k in b) && (k in a ==> a[k] == b[k])
  }

  /** Both answer the needed keys alike. */
  ghost predicate SameFacts(a: Facts, b: Facts, needs: Needs) {
    && SameOn(a.requests, b.requests, needs.requests) && SameOn(a.finished, b.finished, needs.requests)
    && SameOn(a.starts, b.starts, needs.effects) && SameOn(a.ends, b.ends, needs.effects)
    && SameOn(a.mirror, b.mirror, needs.mirrorSeqs)
  }

  lemma CoversSame(a: Facts, b: Facts, whole: Facts, needs: Needs)
    requires Covers(a, whole, needs) && Covers(b, whole, needs)
    ensures SameFacts(a, b, needs)
  {
  }

  /** Reads only the pages of the needed keys.  One missing or mismatched page means the look-up has to be
      repeated from a full replay; it is never read as "no such key". */
  method ReadPages(disk: Disk, hash: Hash, legend: Legend, needs: Needs,
      ghost facts: Facts) returns (merged: Option<Facts>)
    requires Genuine(disk, hash, legend, facts)
    ensures merged.Some? <==> Readable(disk, hash, legend, needs)
    ensures merged.Some? ==>
              Covers(merged.value, facts, needs)
              && SameFacts(merged.value, PageFacts(disk, hash, legend.counts, needs), needs)
  {
    var all := Wanted(hash, legend, needs);
    var todo, part := all, NoFacts;
    while todo != {}
      invariant todo <= all
      invariant Within(part, facts)
      invariant forall slot :: slot in all - todo ==> Usable(disk, legend, slot)
      invariant forall slot :: slot in all - todo ==> Within(OnPage(facts, hash, legend.counts, slot), part)
      decreases |todo|
    {
      var slot :| slot in todo;
      if !Usable(disk, legend, slot) { return None; }
      PageWithin(facts, hash, legend.counts, slot);
      PageAdded(all - todo, part, disk[slot].facts, facts, hash, legend.counts);
      part := Merge(part, disk[slot].facts);
      todo := todo - {slot};
    }
    WantedCover(part, facts, hash, legend, needs);
    PageFactsCover(disk, hash, legend, needs, facts);
    CoversSame(part, PageFacts(disk, hash, legend.counts, needs), facts, needs);
    return Some(part);
  }

  // ---------------------------------------------------------------- combining with the index

  /** The keyed rows of an assignment that was already `from` records long when rows were introduced. */
  function RowsSince(id: AssignmentId, log: seq<Entry>, from: nat): Rows
    decreases |log|
  {
    if |log| <= from || Index(id, log).None? then NoRows
    else RowsAfter(RowsSince(id, log[..|log| - 1], from), Index(id, log).value.v, log[|log| - 1])
  }

  ghost predicate Since(part: Rows, rows: Rows, from: nat) {
    && RequestsSince(part.requests, rows.requests, from)
    && ResultsSince(part.results, rows.results, from)
    && ChainSince(part.chain, rows.chain, from)
    && EffectsSince(part.starts, rows.starts, from)
    && EffectsSince(part.ends, rows.ends, from)
  }

  ghost predicate RequestsSince(part: map<RequestId, Requested>, rows: map<RequestId, Requested>, from: nat) {
    && Sub(part, rows)
    && (forall k :: k in rows ==> (k in part <==> rows[k].recordSeq > from))
  }

  ghost predicate ResultsSince(part: map<RequestId, nat>, rows: map<RequestId, nat>, from: nat) {
    && Sub(part, rows)
    && (forall k :: k in rows ==> (k in part <==> rows[k] > from))
  }

  ghost predicate ChainSince(part: map<nat, MirrorItem>, rows: map<nat, MirrorItem>, from: nat) {
    && Sub(part, rows)
    && (forall s :: s in rows ==> (s in part <==> s > from))
  }

  ghost predicate EffectsSince(part: map<nat, EffectRow>, rows: map<nat, EffectRow>, from: nat) {
    && Sub(part, rows)
    && (forall e :: e in rows ==> (e in part <==> rows[e].recordSeq > from))
  }

  lemma ChainSinceStep(part: Rows, rows: Rows, from: nat, body: Record, item: Option<MirrorItem>)
    requires ChainSince(part.chain, rows.chain, from) && ResultsSince(part.results, rows.results, from)
    requires item.Some? ==> item.value.recordSeq > from
    ensures ChainSince(ChainRowsAfter(part.chain, item), ChainRowsAfter(rows.chain, item), from)
    ensures ResultsSince(ResultRowsAfter(part.results, body, item), ResultRowsAfter(rows.results, body, item), from)
  {
  }

  lemma SinceStep(part: Rows, rows: Rows, from: nat, v: Validation, entry: Entry)
    requires Since(part, rows, from) && v.lastSeq > from
    ensures Since(RowsAfter(part, v, entry), RowsAfter(rows, v, entry), from)
  {
    ChainSinceStep(part, rows, from, entry.body, ItemOf(v.mirror, v.lastSeq, entry.body, entry.at));
    var a, b := RowsAfter(part, v, entry), RowsAfter(rows, v, entry);
    assert RequestsSince(a.requests, b.requests, from);
    assert EffectsSince(a.starts, b.starts, from);
    assert EffectsSince(a.ends, b.ends, from);
  }

  lemma SinceStart(id: AssignmentId, log: seq<Entry>, from: nat)
    requires Replay(id, log).Some? && |log| <= from
    ensures Index(id, log).Some? && Since(NoRows, Index(id, log).value.rows, from)
  {
    IndexMatchesReplay(id, log);
    ReplayCoherent(id, log);
    var rows, p := Index(id, log).value.rows, Replay(id, log).value;
    assert RowsMatch(rows, p);
    assert forall k :: k in rows.results ==> rows.results[k] in rows.chain;
  }

  lemma {:induction false} RowsSinceArePart(id: AssignmentId, log: seq<Entry>, from: nat)
    requires Replay(id, log).Some?
    ensures Index(id, log).Some? && Since(RowsSince(id, log, from), Index(id, log).value.rows, from)
    decreases |log|
  {
    IndexMatchesReplay(id, log);
    if |log| <= from {
      SinceStart(id, log, from);
    } else {
      ReplayCoherent(id, log);
      RowsSinceArePart(id, log[..|log| - 1], from);
      SinceStep(RowsSince(id, log[..|log| - 1], from), Index(id, log[..|log| - 1]).value.rows, from,
                Index(id, log).value.v, log[|log| - 1]);
    }
  }

  /** Keys the index does not answer are taken from the legacy facts, component by component. */
  function Fill<K, V>(own: map<K, V>, early: map<K, V>, keys: set<K>): map<K, V> {
    own + map k | k in keys && k in early && k !in own :: early[k]
  }

  function Unsequenced(facts: map<nat, Payload>): map<nat, EffectFact> {
    map e | e in facts :: EffectFact(None, facts[e])
  }

  function WithLegacy(own: Found, legacy: Facts, needs: Needs): Found {
    Found(Fill(own.requests, legacy.requests, needs.requests),
          Fill(own.finished, legacy.finished, needs.requests),
          Fill(own.starts, Unsequenced(legacy.starts), needs.effects),
          Fill(own.ends, Unsequenced(legacy.ends), needs.effects),
          Fill(own.mirror, legacy.mirror, needs.mirrorSeqs))
  }

  /** `whole` answers like `own` completed by `legacy`: each key is in exactly the parts its sequence says. */
  lemma FilledRequests(own: Found, legacy: Facts, needs: Needs, g: Projection, h: Projection, whole: Found,
      early: Found)
    requires AnswersRequests(whole, needs.requests, h.requests) && AnswersRequests(early, needs.requests, g.requests)
    requires Covers(legacy, FactsOf(g), needs)
    requires Splits(own.requests, early.requests, whole.requests)
             && Splits(own.finished, early.finished, whole.finished)
    ensures AnswersRequests(WithLegacy(own, legacy, needs), needs.requests, h.requests)
  {
    var merged := WithLegacy(own, legacy, needs);
    forall id | id in needs.requests
      ensures (id in merged.requests <==> id in whole.requests)
              && (id in merged.requests ==> merged.requests[id] == whole.requests[id])
      ensures (id in merged.finished <==> id in whole.finished)
              && (id in merged.finished ==> merged.finished[id] == whole.finished[id])
    {
      if id in legacy.requests { assert id in early.requests; }
      if id in legacy.finished { assert id in early.finished; }
      if id in early.requests { assert id in legacy.requests; }
      if id in early.finished { assert id in legacy.finished; }
    }
  }

  /** The legacy effect facts of the needed keys are those of the covered prefix. */
  ghost predicate EffectFacts(legacy: Facts, keys: set<nat>, effects: map<nat, SideEffect>) {
    && (forall e :: e in keys ==> (e in legacy.starts <==> e in effects))
    && (forall e :: e in keys ==> (e in legacy.ends <==> e in effects && effects[e].result.Some?))
    && (forall e :: e in legacy.starts ==> e in effects && legacy.starts[e] == effects[e].input)
    && (forall e :: e in legacy.ends ==> e in effects && effects[e].result == Some(legacy.ends[e]))
  }

  lemma CoveredEffects(legacy: Facts, needs: Needs, g: Projection)
    requires Covers(legacy, FactsOf(g), needs)
    ensures EffectFacts(legacy, needs.effects, g.effects)
  {
  }

  /** The early part of a look-up lies inside it. */
  ghost predicate EffectsEarlier(keys: set<nat>, g: map<nat, SideEffect>, h: map<nat, SideEffect>) {
    forall e :: e in keys && e in g ==> e in h && h[e].input == g[e].input && (g[e].result.Some? ==> h[e] == g[e])
  }

  lemma EarlierEffects(keys: set<nat>, g: Projection, h: Projection, whole: Found, early: Found)
    requires AnswersEffects(whole, keys, h.effects) && AnswersEffects(early, keys, g.effects)
    requires Sub(early.starts, whole.starts) && Sub(early.ends, whole.ends)
    ensures EffectsEarlier(keys, g.effects, h.effects)
  {
  }

  lemma FilledInOrder(
    starts: map<nat, EffectFact>, ends: map<nat, EffectFact>, wholeStarts: map<nat, EffectFact>, wholeEnds: map<nat,
        EffectFact>,
    legacyStarts: map<nat, EffectFact>, legacyEnds: map<nat, EffectFact>, keys: set<nat>)
    requires InOrder(wholeStarts, wholeEnds) && Sub(starts, wholeStarts) && Sub(ends, wholeEnds)
    requires forall e :: e in legacyStarts ==> legacyStarts[e].recordSeq.None?
    requires forall e :: e in legacyEnds ==> legacyEnds[e].recordSeq.None?
    ensures InOrder(Fill(starts, legacyStarts, keys), Fill(ends, legacyEnds, keys))
  {
  }

  /** The found facts for `keys` are exactly `want`. */
  ghost predicate Gives(found: map<nat, EffectFact>, keys: set<nat>, want: map<nat, Payload>) {
    && (forall e :: e in keys ==> (e in found <==> e in want))
    && (forall e :: e in found ==> e in keys && e in want && found[e].body == want[e])
  }

  lemma FilledGives(own: map<nat, EffectFact>, legacy: map<nat, Payload>, whole: map<nat, EffectFact>, keys: set<nat>,
      want: map<nat, Payload>)
    requires Gives(whole, keys, want) && Sub(own, whole)
    requires forall e :: e in whole ==> e in own || e in legacy
    requires forall e :: e in keys && e in legacy ==> e in want && want[e] == legacy[e]
    ensures Gives(Fill(own, Unsequenced(legacy), keys), keys, want)
  {
  }

  function Inputs(effects: map<nat, SideEffect>): map<nat, Payload> {
    map e | e in effects :: effects[e].input
  }

  function Results(effects: map<nat, SideEffect>): map<nat, Payload> {
    map e | e in effects && effects[e].result.Some? :: effects[e].result.value
  }

  lemma AnswersGive(found: Found, keys: set<nat>, effects: map<nat, SideEffect>)
    ensures AnswersEffects(found, keys, effects) <==>
              Gives(found.starts, keys, Inputs(effects)) && Gives(found.ends, keys, Results(effects))
              && InOrder(found.starts, found.ends)
  {
  }

  lemma FilledEffects(own: Found, legacy: Facts, needs: Needs, g: map<nat, SideEffect>, h: map<nat, SideEffect>,
      whole: Found)
    requires AnswersEffects(whole, needs.effects, h) && EffectFacts(legacy, needs.effects, g)
             && EffectsEarlier(needs.effects, g, h)
    requires Sub(own.starts, whole.starts) && Sub(own.ends, whole.ends)
    requires forall e :: e in whole.starts ==> e in own.starts || e in g
    requires forall e :: e in whole.ends ==> e in own.ends || (e in g && g[e].result.Some?)
    ensures AnswersEffects(WithLegacy(own, legacy, needs), needs.effects, h)
  {
    var keys := needs.effects;
    AnswersGive(whole, keys, h);
    AnswersGive(WithLegacy(own, legacy, needs), keys, h);
    FilledGives(own.starts, legacy.starts, whole.starts, keys, Inputs(h));
    FilledGives(own.ends, legacy.ends, whole.ends, keys, Results(h));
    FilledInOrder(own.starts, own.ends, whole.starts, whole.ends, Unsequenced(legacy.starts),
                  Unsequenced(legacy.ends), keys);
  }

  lemma FilledMirror(own: Found, legacy: Facts, needs: Needs, g: Projection, h: Projection, whole: Found, early: Found)
    requires AnswersMirror(whole, needs.mirrorSeqs, h.mirrors.order)
             && AnswersMirror(early, needs.mirrorSeqs, g.mirrors.order)
    requires Covers(legacy, FactsOf(g), needs)
    requires Splits(own.mirror, early.mirror, whole.mirror)
    requires Numbered(g.mirrors.order, 0, g.v.lastSeq)
    ensures AnswersMirror(WithLegacy(own, legacy, needs), needs.mirrorSeqs, h.mirrors.order)
  {
    var merged := WithLegacy(own, legacy, needs);
    forall s | s in needs.mirrorSeqs
      ensures s in merged.mirror <==> s in whole.mirror
      ensures s in merged.mirror ==> merged.mirror[s] == whole.mirror[s]
    {
      MirrorFact(g, early, needs.mirrorSeqs, s);
    }
  }

  lemma MirrorFact(g: Projection, early: Found, seqs: set<nat>, s: nat)
    requires AnswersMirror(early, seqs, g.mirrors.order) && Numbered(g.mirrors.order, 0, g.v.lastSeq) && s in seqs
    ensures s in FactsOf(g).mirror <==> s in early.mirror
    ensures s in early.mirror ==> FactsOf(g).mirror[s] == early.mirror[s]
  {
    var order := g.mirrors.order;
    if s in FactsOf(g).mirror {
      assert order[g.mirrors.Find(s).value] in order;
    }
    if s in early.mirror {
      var i :| 0 <= i < |order| && order[i] == early.mirror[s];
      assert g.mirrors.Find(s).Some?;
      assert order[i].recordSeq in SeqsOf(order);
    }
  }

  lemma RequestsSplit(rows: map<RequestId, Requested>, part: map<RequestId, Requested>, ids: set<RequestId>, from: nat,
      upTo: nat, base: nat)
    requires RequestsSince(part, rows, from) && from <= upTo <= base
    ensures Splits(RequestsUpTo(part, ids, base), RequestsUpTo(rows, ids, upTo), RequestsUpTo(rows, ids, base))
  {
  }

  lemma EffectsSplit(rows: map<nat, EffectRow>, part: map<nat, EffectRow>, keys: set<nat>, from: nat, upTo: nat,
      base: nat)
    requires EffectsSince(part, rows, from) && from <= upTo <= base
    ensures Splits(EffectsUpTo(part, keys, base), EffectsUpTo(rows, keys, upTo), EffectsUpTo(rows, keys, base))
  {
  }

  lemma ChainSplit(rows: map<nat, MirrorItem>, part: map<nat, MirrorItem>, seqs: set<nat>, from: nat, upTo: nat,
      base: nat)
    requires ChainSince(part, rows, from) && from <= upTo <= base
    ensures Splits(ChainUpTo(part, seqs, base), ChainUpTo(rows, seqs, upTo), ChainUpTo(rows, seqs, base))
  {
  }

  lemma ResultsSplit(rows: Rows, part: Rows, ids: set<RequestId>, from: nat, upTo: nat, base: nat)
    requires ResultsSince(part.results, rows.results, from) && ChainSince(part.chain, rows.chain, from)
             && from <= upTo <= base
    ensures Splits(ResultsUpTo(part.results, part.chain, ids, base), ResultsUpTo(rows.results, rows.chain, ids, upTo),
                   ResultsUpTo(rows.results, rows.chain, ids, base))
  {
    var whole := ResultsUpTo(rows.results, rows.chain, ids, base);
    forall id | id in whole && rows.results[id] > from ensures id in ResultsUpTo(part.results, part.chain, ids, base) {
      assert id in part.results && part.results[id] == rows.results[id];
    }
  }

  /** Rows written since `from`, completed by pages that cover the first `upTo` records, answer at every later
      position `base` exactly as full replay up to `base` does. */
  lemma CombinedAnswers(id: AssignmentId, log: seq<Entry>, from: nat, upTo: nat, base: nat, needs: Needs, legacy: Facts)
    requires Replay(id, log).Some? && from <= upTo <= base <= |log|
    requires Replay(id, log[..upTo]).Some? && Covers(legacy, FactsOf(Replay(id, log[..upTo]).value), needs)
    ensures Replay(id, log[..base]).Some?
    ensures Answers(WithLegacy(ReadHistory(RowsSince(id, log, from), needs, base), legacy, needs), needs,
                    Replay(id, log[..base]).value)
  {
    RowsSinceArePart(id, log, from);
    ReadHistoryAnswers(id, log, base, needs);
    ReadHistoryAnswers(id, log, upTo, needs);
    ReplayCoherent(id, log[..upTo]);
    CombineRows(Index(id, log).value.rows, RowsSince(id, log, from), from, upTo, base, needs, legacy,
                Replay(id, log[..upTo]).value, Replay(id, log[..base]).value);
  }

  lemma CombineRows(rows: Rows, part: Rows, from: nat, upTo: nat, base: nat, needs: Needs, legacy: Facts,
      g: Projection, h: Projection)
    requires Since(part, rows, from) && from <= upTo <= base && Numbered(g.mirrors.order, 0, g.v.lastSeq)
    requires Answers(ReadHistory(rows, needs, base), needs, h) && Answers(ReadHistory(rows, needs, upTo), needs, g)
    requires Covers(legacy, FactsOf(g), needs)
    ensures Answers(WithLegacy(ReadHistory(part, needs, base), legacy, needs), needs, h)
  {
    SplitReads(rows, part, needs, from, upTo, base);
    CoveredEffects(legacy, needs, g);
    CombineFound(ReadHistory(part, needs, base), ReadHistory(rows, needs, base), ReadHistory(rows, needs, upTo),
                 legacy, needs, g, h);
  }

  ghost predicate FoundSplits(own: Found, early: Found, whole: Found) {
    && Splits(own.requests, early.requests, whole.requests)
    && Splits(own.finished, early.finished, whole.finished)
    && Splits(own.starts, early.starts, whole.starts)
    && Splits(own.ends, early.ends, whole.ends)
    && Splits(own.mirror, early.mirror, whole.mirror)
  }

  lemma SplitReads(rows: Rows, part: Rows, needs: Needs, from: nat, upTo: nat, base: nat)
    requires Since(part, rows, from) && from <= upTo <= base
    ensures FoundSplits(ReadHistory(part, needs, base), ReadHistory(rows, needs, upTo), ReadHistory(rows, needs, base))
  {
    RequestsSplit(rows.requests, part.requests, needs.requests, from, upTo, base);
    ResultsSplit(rows, part, needs.requests, from, upTo, base);
    EffectsSplit(rows.starts, part.starts, needs.effects, from, upTo, base);
    EffectsSplit(rows.ends, part.ends, needs.effects, from, upTo, base);
    ChainSplit(rows.chain, part.chain, needs.mirrorSeqs, from, upTo, base);
  }

  lemma CombineFound(own: Found, whole: Found, early: Found, legacy: Facts, needs: Needs, g: Projection, h: Projection)
    requires FoundSplits(own, early, whole) && Numbered(g.mirrors.order, 0, g.v.lastSeq)
    requires Answers(whole, needs, h) && Answers(early, needs, g)
    requires Covers(legacy, FactsOf(g), needs) && EffectFacts(legacy, needs.effects, g.effects)
    ensures Answers(WithLegacy(own, legacy, needs), needs, h)
  {
    FilledRequests(own, legacy, needs, g, h, whole, early);
    FilledMirror(own, legacy, needs, g, h, whole, early);
    CombineEffects(own, whole, early, legacy, needs, g, h);
  }

  lemma CombineEffects(own: Found, whole: Found, early: Found, legacy: Facts, needs: Needs, g: Projection,
      h: Projection)
    requires Splits(own.starts, early.starts, whole.starts) && Splits(own.ends, early.ends, whole.ends)
    requires AnswersEffects(whole, needs.effects, h.effects) && AnswersEffects(early, needs.effects, g.effects)
    requires EffectFacts(legacy, needs.effects, g.effects)
    ensures AnswersEffects(WithLegacy(own, legacy, needs), needs.effects, h.effects)
  {
    EarlierEffects(needs.effects, g, h, whole, early);
    FilledEffects(own, legacy, needs, g.effects, h.effects, whole);
  }
}
