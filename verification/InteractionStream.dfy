/** Projecting a job's interaction records into its output stream: resumable, in record order, exactly once. */
module InteractionStream {
  import opened Options
  import opened LedgerRecords
  import opened LedgerValidator
  import opened LedgerProjection
  import opened LedgerCoherence
  import opened LedgerDecisions
  import opened LedgerAcceptance
  import SpoolState
  import SpoolInvariants
  import SpoolDecisions
  import SpoolSafety

  type Tape = SpoolState.Tape

  // ---------------------------------------------------------------- interaction records of a ledger

  /** Every interaction record has its own sequence. */
  ghost predicate DistinctSeqs(rq: Requests) {
    && (forall i, j ::
         i in rq.requested && j in rq.requested && i != j ==> rq.requested[i].recordSeq != rq.requested[j].recordSeq)
    && (forall i, j ::
         i in rq.finished && j in rq.finished && i != j ==> rq.finished[i].recordSeq != rq.finished[j].recordSeq)
    && (forall i, j :: i in rq.requested && j in rq.finished ==> rq.requested[i].recordSeq != rq.finished[j].recordSeq)
  }

  ghost predicate AskedAt(rq: Requests, m: nat, id: RequestId) { id in rq.requested && rq.requested[id].recordSeq == m }

  ghost predicate FinishedAt(rq: Requests, m: nat, id: RequestId) {
    id in rq.finished && rq.finished[id].recordSeq == m
  }

  /** The interaction event that record `m` contributes. */
  ghost function BracketAt(rq: Requests, m: nat): SpoolState.Bracket {
    if exists id :: AskedAt(rq, m, id) then var id :| AskedAt(rq, m, id); SpoolState.Asked(id)
    else if exists id :: FinishedAt(rq, m, id) then var id :| FinishedAt(rq, m, id); SpoolState.Answered(id)
    else SpoolState.NoBracket
  }

  lemma BracketIs(rq: Requests, m: nat, id: RequestId)
    requires DistinctSeqs(rq)
    ensures AskedAt(rq, m, id) ==> BracketAt(rq, m) == SpoolState.Asked(id)
    ensures FinishedAt(rq, m, id) ==> BracketAt(rq, m) == SpoolState.Answered(id)
  {
  }

  /** A record's content never changes, so the record itself stands for its frame's logical digest. */
  function Frame(m: nat): SpoolState.Frame { SpoolState.Frame(SpoolState.ArtifactSizes.Artifact(m, 0), {}, m) }

  // ---------------------------------------------------------------- the two logs

  /** A projector between two of its transactions: it reads the watermark, then lists the events after it, stores
      them one by one and finally marks.  `listedAt` is the last ledger record at the time of the listing, `checkpoint`
      the end of the tape that came with the last receipt. */
  datatype Projector =
    | Idle
    | Reading(after: nat)
    | Running(after: nat, listedAt: nat, events: seq<nat>, receipts: seq<FrameReceipt>, checkpoint: nat)

  /** The job's ledger, its tape, which record each frame ever stored came from, and the job's one projector.
      Pruning removes frame bodies but neither the tape's source map nor this history. */
  datatype World = World(p: Projection, tape: Tape, history: seq<Option<nat>>, projector: Projector)

  function Watermark(p: Projection): nat { p.v.stream.projectedUpTo }

  /** An interaction event as the ledger lists it. */
  datatype StreamEvent = StreamEvent(recordSeq: nat, bracket: SpoolState.Bracket)

  /** Appending an event's frame: an already stored source is answered from the tape, without a new frame. */
  function AppendEvent(tape: Tape, e: StreamEvent): Tape {
    if e.recordSeq in tape.sources then tape
    else
      var stored := SpoolState.FrameStored(tape.lastSeq + 1, Frame(e.recordSeq), false, Some(e.recordSeq), e.bracket);
      SpoolState.TapeAfter(tape, stored)
  }

  ghost function Stored(w: World, m: nat): World {
    if m in w.tape.sources then w
    else w.(tape := AppendEvent(w.tape, StreamEvent(m, BracketAt(w.p.requests, m))), history := w.history + [Some(m)])
  }

  /** The projector after storing these records one by one. */
  ghost function Projected(w: World, events: seq<nat>): World
    decreases |events|
  {
    if events == [] then w else Stored(Projected(w, events[..|events| - 1]), events[|events| - 1])
  }

  // ---------------------------------------------------------------- what every step keeps

  ghost predicate LedgerFacts(p: Projection) {
    && Coherent(p)
    && DistinctSeqs(p.requests)
    && ResultsTracked(p.requests, p.v.stream)
    && p.v.life.IsJob()
    && p.v.stream.enabledAfter.Some?
    && (forall id :: id in p.requests.requested ==> p.requests.requested[id].recordSeq > p.v.stream.enabledAfter.value)
  }

  /** All interaction records; projection was enabled before the first of them. */
  ghost predicate IsEvent(p: Projection, m: nat) {
    (exists id :: AskedAt(p.requests, m, id)) || (exists id :: FinishedAt(p.requests, m, id))
  }

  /** The stored records are a prefix of the interaction records, in the same order. */
  ghost predicate InOrder(w: World) {
    && (forall m: int :: m in w.tape.sources ==> m >= 0 && IsEvent(w.p, m))
    && (forall m: nat, k: nat :: m in w.tape.sources && IsEvent(w.p, k) && k < m ==> k in w.tape.sources)
    && (forall m: nat, k: nat :: m in w.tape.sources && k in w.tape.sources && k < m ==>
          w.tape.sources[k].frameSeq < w.tape.sources[m].frameSeq)
  }

  ghost predicate HistoryExact(tape: Tape, history: seq<Option<nat>>) {
    && |history| == tape.lastSeq
    && (forall m: nat :: m in tape.sources ==>
          1 <= tape.sources[m].frameSeq <= |history| && history[tape.sources[m].frameSeq - 1] == Some(m))
    && (forall i :: 0 <= i < |history| && history[i].Some? ==>
          history[i].value in tape.sources && tape.sources[history[i].value].frameSeq == i + 1)
  }

  /** Open interactions on the tape are those asked there and not answered there. */
  ghost predicate AskingExact(w: World) {
    forall id :: id in w.tape.asking <==>
      && id in w.p.requests.requested && w.p.requests.requested[id].recordSeq in w.tape.sources
      && !(id in w.p.requests.finished && w.p.requests.finished[id].recordSeq in w.tape.sources)
  }

  ghost predicate WatermarkCovered(w: World) {
    forall m: nat :: IsEvent(w.p, m) && m <= Watermark(w.p) ==> m in w.tape.sources
  }

  /** A stored result that is not yet marked was stored after the last mark's checkpoint. */
  ghost predicate UnmarkedLater(w: World) {
    && w.p.v.stream.lastStreamSeq <= w.tape.lastSeq
    && (forall id :: id in w.p.requests.finished && Unmarked(w, w.p.requests.finished[id].recordSeq) ==>
          w.tape.sources[w.p.requests.finished[id].recordSeq].frameSeq > w.p.v.stream.lastStreamSeq)
  }

  ghost predicate Unmarked(w: World, m: nat) { m > Watermark(w.p) && m in w.tape.sources }

  ghost predicate TapeInv(w: World) {
    InOrder(w) && HistoryExact(w.tape, w.history) && AskingExact(w) && WatermarkCovered(w) && UnmarkedLater(w)
  }

  /** Exactly one frame per interaction record up to the watermark. */
  lemma ExactlyOnce(w: World, m: nat)
    requires HistoryExact(w.tape, w.history) && WatermarkCovered(w) && IsEvent(w.p, m) && m <= Watermark(w.p)
    ensures exists i :: StoredAs(w, m, i)
    ensures forall i, j :: StoredAs(w, m, i) && StoredAs(w, m, j) ==> i == j
  {
    assert StoredAs(w, m, w.tape.sources[m].frameSeq - 1);
  }

  /** Stored in record order. */
  lemma StoredInOrder(w: World, k: nat, m: nat, i: int, j: int)
    requires HistoryExact(w.tape, w.history) && InOrder(w) && StoredAs(w, k, i) && StoredAs(w, m, j) && k < m
    ensures i < j
  {
  }

  ghost predicate StoredAs(w: World, m: nat, i: int) { 0 <= i < |w.history| && w.history[i] == Some(m) }

  // ---------------------------------------------------------------- storing one record

  lemma EventKind(p: Projection, m: nat)
    requires DistinctSeqs(p.requests) && IsEvent(p, m)
    ensures exists id :: (AskedAt(p.requests, m, id) && BracketAt(p.requests, m) == SpoolState.Asked(id))
                      || (FinishedAt(p.requests, m, id) && BracketAt(p.requests, m) == SpoolState.Answered(id))
  {
    if id :| AskedAt(p.requests, m, id) {
      BracketIs(p.requests, m, id);
    } else {
      var id :| FinishedAt(p.requests, m, id);
      BracketIs(p.requests, m, id);
    }
  }

  ghost predicate NextToStore(w: World, m: nat) {
    IsEvent(w.p, m) && m !in w.tape.sources && (forall k: nat :: IsEvent(w.p, k) && k < m ==> k in w.tape.sources)
  }

  /** The next record to store always fits its bracket: a result is stored after its request. */
  lemma NextFits(w: World, m: nat)
    requires LedgerFacts(w.p) && AskingExact(w) && NextToStore(w, m)
    ensures SpoolState.BracketFits(w.tape.asking, BracketAt(w.p.requests, m))
  {
    EventKind(w.p, m);
    var id :| (AskedAt(w.p.requests, m, id) && BracketAt(w.p.requests, m) == SpoolState.Asked(id))
           || (FinishedAt(w.p.requests, m, id) && BracketAt(w.p.requests, m) == SpoolState.Answered(id));
    if FinishedAt(w.p.requests, m, id) && BracketAt(w.p.requests, m) == SpoolState.Answered(id) {
      var asked := w.p.requests.requested[id].recordSeq;
      assert AskedAt(w.p.requests, asked, id) && asked < m;
      assert IsEvent(w.p, asked);
    }
  }

  lemma StoredBelow(w: World, m: nat)
    requires InOrder(w) && NextToStore(w, m)
    ensures forall k: nat :: k in w.tape.sources ==> k < m
  {
  }

  lemma StoreKeepsHistory(w: World, m: nat)
    requires HistoryExact(w.tape, w.history) && m !in w.tape.sources
    ensures HistoryExact(Stored(w, m).tape, Stored(w, m).history)
  {
    var v := Stored(w, m);
    forall i | 0 <= i < |v.history| && v.history[i].Some?
      ensures v.history[i].value in v.tape.sources && v.tape.sources[v.history[i].value].frameSeq == i + 1
    {
      if i < |w.history| { assert v.history[i] == w.history[i]; }
    }
  }

  lemma StoreKeepsOrder(w: World, m: nat)
    requires InOrder(w) && NextToStore(w, m)
    requires forall k: nat :: k in w.tape.sources ==> w.tape.sources[k].frameSeq <= w.tape.lastSeq
    ensures InOrder(Stored(w, m))
  {
    StoredBelow(w, m);
  }

  lemma StoreKeepsAsking(w: World, m: nat)
    requires AskingExact(w) && InOrder(w) && DistinctSeqs(w.p.requests) && NextToStore(w, m)
    requires forall id :: id in w.p.requests.finished ==>
               id in w.p.requests.requested
               && w.p.requests.requested[id].recordSeq < w.p.requests.finished[id].recordSeq
    ensures AskingExact(Stored(w, m))
  {
    StoredBelow(w, m);
    EventKind(w.p, m);
    var rq, v := w.p.requests, Stored(w, m);
    var id :| (AskedAt(rq, m, id) && BracketAt(rq, m) == SpoolState.Asked(id))
       || (FinishedAt(rq, m, id) && BracketAt(rq, m) == SpoolState.Answered(id));
    assert forall k: int :: k in v.tape.sources <==> k in w.tape.sources || k == m;
  }

  // ---------------------------------------------------------------- the projector's own state

  ghost predicate Increasing(events: seq<nat>) {
    forall i, j :: 0 <= i < j < |events| ==> events[i] < events[j]
  }

  /** The interaction records in `(after, upTo]`, in order. */
  ghost predicate Lists(p: Projection, after: nat, upTo: nat, events: seq<nat>) {
    && Increasing(events)
    && (forall m :: m in events ==> IsEvent(p, m) && after < m <= upTo)
    && (forall m: nat :: IsEvent(p, m) && after < m <= upTo ==> m in events)
  }

  ghost predicate IsResult(p: Projection, m: nat) { exists id :: FinishedAt(p.requests, m, id) }

  /** One receipt per stored event, for the frame that holds it. */
  ghost predicate ReceiptsHold(w: World, events: seq<nat>, receipts: seq<FrameReceipt>) {
    && |receipts| <= |events|
    && (forall i :: 0 <= i < |receipts| ==>
          && events[i] in w.tape.sources
          && receipts[i] == FrameReceipt(events[i], w.tape.sources[events[i]].frameSeq, IsResult(w.p, events[i])))
  }

  /** The checkpoint covers the last receipt's frame. */
  ghost predicate CheckpointHolds(tape: Tape, receipts: seq<FrameReceipt>, checkpoint: nat) {
    && checkpoint <= tape.lastSeq
    && (receipts != [] ==> receipts[|receipts| - 1].frameSeq <= checkpoint)
  }

  ghost predicate SourcesUpTo(tape: Tape, upTo: nat) { forall m: nat :: m in tape.sources ==> m <= upTo }

  ghost predicate ProjectorInv(w: World) {
    match w.projector
    case Idle => true
    case Reading(after) => after == Watermark(w.p)
    case Running(after, listedAt, events, receipts, checkpoint) =>
      && after == Watermark(w.p)
      && listedAt <= w.p.v.lastSeq
      && Lists(w.p, after, listedAt, events)
      && SourcesUpTo(w.tape, listedAt)
      && ReceiptsHold(w, events, receipts)
      && CheckpointHolds(w.tape, receipts, checkpoint)
  }

  ghost predicate Inv(w: World) { LedgerFacts(w.p) && TapeInv(w) && ProjectorInv(w) }

  // ---------------------------------------------------------------- storing the next event

  lemma NextInList(w: World, after: nat, upTo: nat, events: seq<nat>, k: nat)
    requires Lists(w.p, after, upTo, events) && k < |events| && after == Watermark(w.p) && WatermarkCovered(w)
    requires forall i :: 0 <= i < k ==> events[i] in w.tape.sources
    ensures events[k] in w.tape.sources || NextToStore(w, events[k])
  {
    assert events[k] in events;
    forall m: nat | IsEvent(w.p, m) && m < events[k] ensures m in w.tape.sources {
      if m > after {
        assert m in events;
        var i :| 0 <= i < |events| && events[i] == m;
        assert i < k;
      }
    }
  }

  /** The receipt and checkpoint that storing an event returns. */
  ghost function ReceiptFor(w: World, m: nat): FrameReceipt
    requires m in w.tape.sources
  {
    FrameReceipt(m, w.tape.sources[m].frameSeq, IsResult(w.p, m))
  }

  lemma StoredHasSource(w: World, m: nat)
    ensures m in Stored(w, m).tape.sources && Stored(w, m).p == w.p && Stored(w, m).projector == w.projector
    ensures forall k: int :: k in Stored(w, m).tape.sources <==> k in w.tape.sources || k == m
    ensures forall k: int :: k in w.tape.sources ==> Stored(w, m).tape.sources[k] == w.tape.sources[k]
    ensures Stored(w, m).tape.lastSeq >= w.tape.lastSeq
    ensures m !in w.tape.sources ==> Stored(w, m).tape.sources[m].frameSeq == Stored(w, m).tape.lastSeq
  {
  }

  /** One append of the loop: the event is stored, or found stored, and its receipt taken. */
  ghost function StoredNext(w: World): World
    requires w.projector.Running? && |w.projector.receipts| < |w.projector.events|
  {
    var m := w.projector.events[|w.projector.receipts|];
    StoredHasSource(w, m);
    var v := Stored(w, m);
    v.(projector := w.projector.(receipts := w.projector.receipts + [ReceiptFor(v, m)], checkpoint := v.tape.lastSeq))
  }

  lemma StoreKeepsTape(w: World, m: nat)
    requires LedgerFacts(w.p) && TapeInv(w) && (m in w.tape.sources || NextToStore(w, m))
    ensures TapeInv(Stored(w, m))
  {
    if m !in w.tape.sources {
      StoreKeepsOrder(w, m);
      StoreKeepsHistory(w, m);
      StoreKeepsAsking(w, m);
      assert WatermarkCovered(Stored(w, m));
      assert UnmarkedLater(Stored(w, m));
    }
  }

  /** The invariant of the tape does not mention the projector. */
  lemma TapeInvAlone(w: World, projector: Projector)
    requires TapeInv(w)
    ensures TapeInv(w.(projector := projector))
  {
    var v := w.(projector := projector);
    assert InOrder(v) && AskingExact(v) && WatermarkCovered(v);
    assert UnmarkedLater(v);
  }

  lemma NextKeepsReceipts(w: World, v: World, events: seq<nat>, receipts: seq<FrameReceipt>, m: nat)
    requires ReceiptsHold(w, events, receipts) && |receipts| < |events| && m == events[|receipts|] && v == Stored(w, m)
    requires HistoryExact(v.tape, v.history)
    ensures m in v.tape.sources && ReceiptsHold(v, events, receipts + [ReceiptFor(v, m)])
    ensures CheckpointHolds(v.tape, receipts + [ReceiptFor(v, m)], v.tape.lastSeq)
  {
    StoredHasSource(w, m);
  }

  lemma NextKeepsInv(w: World)
    requires Inv(w) && w.projector.Running? && |w.projector.receipts| < |w.projector.events|
    ensures Inv(StoredNext(w))
  {
    var pr := w.projector;
    var m := pr.events[|pr.receipts|];
    NextInList(w, pr.after, pr.listedAt, pr.events, |pr.receipts|);
    StoreKeepsTape(w, m);
    StoredHasSource(w, m);
    var v := Stored(w, m);
    NextKeepsReceipts(w, v, pr.events, pr.receipts, m);
    assert m in pr.events;
    TapeInvAlone(v, StoredNext(w).projector);
    NextKeepsProjector(w, v, StoredNext(w), m);
  }

  lemma NextKeepsProjector(w: World, v: World, after: World, m: nat)
    requires ProjectorInv(w) && w.projector.Running? && |w.projector.receipts| < |w.projector.events|
    requires m == w.projector.events[|w.projector.receipts|] && m in w.projector.events && v == Stored(w, m)
             && after == StoredNext(w)
    requires m in v.tape.sources && v.p == w.p
    requires forall k: int :: k in v.tape.sources <==> k in w.tape.sources || k == m
    requires ReceiptsHold(v, w.projector.events, w.projector.receipts + [ReceiptFor(v, m)])
    requires CheckpointHolds(v.tape, w.projector.receipts + [ReceiptFor(v, m)], v.tape.lastSeq)
    ensures ProjectorInv(after)
  {
    assert after.tape == v.tape && after.p == w.p;
    assert ReceiptsHold(after, w.projector.events, after.projector.receipts);
  }

  // ---------------------------------------------------------------- marking a complete run

  lemma {:induction false} LastResultIs(receipts: seq<FrameReceipt>)
    ensures LastResult(receipts).None? ==> forall i :: 0 <= i < |receipts| ==> !receipts[i].isResult
    ensures LastResult(receipts).Some? ==> exists i :: LastResultAt(receipts, i)
    decreases |receipts|
  {
    if receipts != [] && !receipts[|receipts| - 1].isResult {
      var shorter := receipts[..|receipts| - 1];
      LastResultIs(shorter);
      if LastResult(receipts).Some? {
        var i :| LastResultAt(shorter, i);
        assert LastResultAt(receipts, i);
      }
    } else if receipts != [] {
      assert LastResultAt(receipts, |receipts| - 1);
    }
  }

  ghost predicate LastResultAt(receipts: seq<FrameReceipt>, i: int) {
    && 0 <= i < |receipts| && receipts[i].isResult && LastResult(receipts) == Some(receipts[i].recordSeq)
    && (forall j :: i < j < |receipts| ==> !receipts[j].isResult)
  }

  /** A projector that has stored everything it listed. */
  ghost predicate Complete(w: World) {
    w.projector.Running? && |w.projector.receipts| == |w.projector.events|
  }

  lemma ReceiptsOrdered(w: World, events: seq<nat>, receipts: seq<FrameReceipt>, checkpoint: nat)
    requires Increasing(events) && ReceiptsHold(w, events, receipts) && CheckpointHolds(w.tape, receipts, checkpoint)
    requires InOrder(w) && HistoryExact(w.tape, w.history) && (forall m :: m in events ==> m > 0)
    ensures WellOrdered(receipts, checkpoint)
  {
    forall i | 0 <= i < |receipts| ensures receipts[i].recordSeq > 0 && 0 < receipts[i].frameSeq {
      assert events[i] in events;
    }
    forall i, j | 0 <= i < j < |receipts|
      ensures receipts[i].recordSeq < receipts[j].recordSeq && receipts[i].frameSeq < receipts[j].frameSeq
    {
      assert events[i] < events[j];
    }
  }

  lemma SeqIsEvent(p: Projection, m: nat, after: nat, upTo: nat)
    ensures m in InteractionSeqs(p.requests, after, upTo) <==> IsEvent(p, m) && after < m <= upTo
  {
    if id :| AskedAt(p.requests, m, id) { assert p.requests.requested[id].recordSeq == m; }
    if id :| FinishedAt(p.requests, m, id) { assert p.requests.finished[id].recordSeq == m; }
    if m in InteractionSeqs(p.requests, after, upTo) {
      if id :| id in p.requests.requested && p.requests.requested[id].recordSeq == m {
        assert AskedAt(p.requests, m, id);
      } else {
        var id :| id in p.requests.finished && p.requests.finished[id].recordSeq == m;
        assert FinishedAt(p.requests, m, id);
      }
    }
  }

  /** The receipts cover exactly the ledger's interaction records up to any listed one, also after later records. */
  lemma ReceiptsCover(w: World, after: nat, listedAt: nat, events: seq<nat>, receipts: seq<FrameReceipt>, upTo: nat)
    requires Lists(w.p, after, listedAt, events) && ReceiptsHold(w, events, receipts) && |receipts| == |events|
             && upTo <= listedAt
    ensures (set r | r in receipts && after < r.recordSeq <= upTo :: r.recordSeq) ==
              InteractionSeqs(w.p.requests, after, upTo)
  {
    var got := set r | r in receipts && after < r.recordSeq <= upTo :: r.recordSeq;
    var want := InteractionSeqs(w.p.requests, after, upTo);
    forall m: nat ensures m in got <==> m in events && m <= upTo {
      if m in events && m <= upTo {
        var i :| 0 <= i < |events| && events[i] == m;
        assert receipts[i] in receipts && receipts[i].recordSeq == m && m > after;
      }
      if m in got {
        var r :| r in receipts && r.recordSeq == m;
        var i :| 0 <= i < |receipts| && receipts[i] == r;
        assert events[i] == m && events[i] in events;
      }
    }
    forall m: nat ensures m in want <==> IsEvent(w.p, m) && after < m <= upTo {
      SeqIsEvent(w.p, m, after, upTo);
    }
  }

  /** Behind the last listed result no result has been stored. */
  lemma NoLaterResult(w: World, after: nat, listedAt: nat, events: seq<nat>, receipts: seq<FrameReceipt>, i: nat)
    requires InOrder(w) && SourcesUpTo(w.tape, listedAt) && Lists(w.p, after, listedAt, events)
    requires ReceiptsHold(w, events, receipts) && |receipts| == |events| && LastResultAt(receipts, i)
    ensures forall id :: id in w.p.requests.finished && w.p.requests.finished[id].recordSeq in w.tape.sources ==>
              w.p.requests.finished[id].recordSeq <= events[i]
  {
    forall id | id in w.p.requests.finished && w.p.requests.finished[id].recordSeq in w.tape.sources
      ensures w.p.requests.finished[id].recordSeq <= events[i]
    {
      var m := w.p.requests.finished[id].recordSeq;
      assert FinishedAt(w.p.requests, m, id) && events[i] in events;
      if m > after {
        assert IsEvent(w.p, m) && m in events;
        var j :| 0 <= j < |events| && events[j] == m;
        assert receipts[j].isResult;
      }
    }
  }

  /** The record a complete projector's mark appends, if it has a result to mark. */
  ghost function MarkBody(w: World, head: Payload): Option<Record>
    requires w.projector.Running?
  {
    match LastResult(w.projector.receipts)
    case None => None
    case Some(upTo) => Some(StreamProjected(w.p.v.assignment, upTo, w.projector.checkpoint, head))
  }

  /** However many records and frames came in between, a complete projector's receipts and checkpoint pass every check
      of the mark, and the validator takes what it appends. */
  lemma MarkAccepted(w: World, head: Payload)
    requires Inv(w) && Complete(w)
    ensures MarkBody(w, head).None? ==>
              MarkProjected(w.p, w.projector.receipts, w.projector.checkpoint, head) == Reply(Done)
    ensures MarkBody(w, head).Some? ==>
              && MarkProjected(w.p, w.projector.receipts, w.projector.checkpoint, head) ==
                   Append([MarkBody(w, head).value], Done)
              && Admitted(w.p.v, MarkBody(w, head).value)
              && LastMark(w, MarkBody(w, head).value.upToRecordSeq)
  {
    var pr := w.projector;
    assert forall m :: m in pr.events ==> m > 0;
    ReceiptsOrdered(w, pr.events, pr.receipts, pr.checkpoint);
    LastResultIs(pr.receipts);
    if MarkBody(w, head).Some? {
      var i :| LastResultAt(pr.receipts, i);
      assert pr.events[i] in pr.events && pr.receipts[i].recordSeq == pr.events[i];
      MarkDecided(w, head, i);
      MarkAdmitted(w, head, i);
      NoLaterResult(w, pr.after, pr.listedAt, pr.events, pr.receipts, i);
    }
  }

  /** Every stored result lies at or below the mark. */
  ghost predicate LastMark(w: World, upTo: nat) {
    && w.projector.Running? && upTo in w.projector.events
    && (forall id :: id in w.p.requests.finished && w.p.requests.finished[id].recordSeq in w.tape.sources ==>
          w.p.requests.finished[id].recordSeq <= upTo)
  }

  lemma MarkDecided(w: World, head: Payload, i: nat)
    requires LedgerFacts(w.p) && ProjectorInv(w) && Complete(w) && LastResultAt(w.projector.receipts, i)
    requires WellOrdered(w.projector.receipts, w.projector.checkpoint)
    ensures MarkBody(w, head).Some?
    ensures MarkProjected(w.p, w.projector.receipts, w.projector.checkpoint, head) ==
              Append([MarkBody(w, head).value], Done)
  {
    var pr := w.projector;
    assert pr.events[i] in pr.events;
    ReceiptsCover(w, pr.after, pr.listedAt, pr.events, pr.receipts, pr.events[i]);
  }

  /** A result past the watermark is one the validator still waits for. */
  lemma ResultAwaited(p: Projection, m: nat, id: RequestId)
    requires LedgerFacts(p) && FinishedAt(p.requests, m, id) && m > Watermark(p)
    ensures p.v.life.IsJob() && p.v.stream.enabledAfter.Some? && m in p.v.stream.unprojected && m <= p.v.lastSeq
  {
  }

  lemma MarkAdmitted(w: World, head: Payload, i: nat)
    requires LedgerFacts(w.p) && UnmarkedLater(w) && ProjectorInv(w) && Complete(w)
             && LastResultAt(w.projector.receipts, i)
    requires WellOrdered(w.projector.receipts, w.projector.checkpoint)
    ensures MarkBody(w, head).Some? && Admitted(w.p.v, MarkBody(w, head).value)
  {
    var pr := w.projector;
    var upTo := pr.events[i];
    assert upTo in pr.events && IsResult(w.p, upTo);
    var id :| FinishedAt(w.p.requests, upTo, id);
    ResultAwaited(w.p, upTo, id);
    assert Unmarked(w, upTo);
    assert pr.receipts[i].frameSeq <= pr.checkpoint;
  }

  // ---------------------------------------------------------------- ledger records in between

  lemma LedgerKeepsFacts(p: Projection, entry: Entry)
    requires LedgerFacts(p) && Step(p, entry).Some?
    ensures LedgerFacts(Step(p, entry).value)
  {
    AdmittedNeverCorrupt(p, entry);
    StepCoherent(p, entry);
    StepTracks(p, Step(p, entry).value, entry);
    SeqsStayDistinct(p, Step(p, entry).value, entry);
  }

  lemma SeqsStayDistinct(p: Projection, q: Projection, entry: Entry)
    requires LedgerFacts(p) && Step(p, entry) == Some(q)
    ensures DistinctSeqs(q.requests) && q.v.life.IsJob() && q.v.stream.enabledAfter == p.v.stream.enabledAfter
    ensures forall id ::
              id in q.requests.requested ==> q.requests.requested[id].recordSeq > p.v.stream.enabledAfter.value
  {
    ItemOfCommit(p.v, entry);
    JobStays(p.v.life, q.v.lastSeq, q.v.chain, entry.body);
  }

  /** A ledger record adds at most one interaction event, behind all others, and keeps the old ones. */
  ghost predicate EventsGrow(p: Projection, q: Projection) {
    && (forall id ::
         id in p.requests.requested ==>
           id in q.requests.requested && q.requests.requested[id] == p.requests.requested[id])
    && (forall id ::
         id in p.requests.finished ==> id in q.requests.finished && q.requests.finished[id] == p.requests.finished[id])
    && (forall id ::
         id in q.requests.requested && id !in p.requests.requested ==> q.requests.requested[id].recordSeq > p.v.lastSeq)
    && (forall id ::
         id in q.requests.finished && id !in p.requests.finished ==> q.requests.finished[id].recordSeq > p.v.lastSeq)
  }

  lemma RecordGrows(p: Projection, q: Projection, entry: Entry)
    requires LedgerFacts(p) && Step(p, entry) == Some(q)
    ensures EventsGrow(p, q)
    ensures !entry.body.StreamProjected? ==>
              Watermark(q) == Watermark(p) && q.v.stream.lastStreamSeq == p.v.stream.lastStreamSeq
    ensures entry.body.StreamProjected? ==>
              q.requests == p.requests && Watermark(q) == entry.body.upToRecordSeq
              && q.v.stream.lastStreamSeq == entry.body.lastStreamSeq
    ensures q.v.lastSeq == p.v.lastSeq + 1
  {
    AdmittedNeverCorrupt(p, entry);
    ItemOfCommit(p.v, entry);
  }

  lemma OldEvents(p: Projection, q: Projection, m: nat)
    requires EventsGrow(p, q) && RequestsCoherent(p.requests, p.v.talk, p.v.lastSeq)
    ensures m <= p.v.lastSeq ==> (IsEvent(p, m) <==> IsEvent(q, m)) && (IsResult(p, m) <==> IsResult(q, m))
    ensures IsEvent(p, m) ==> m <= p.v.lastSeq
  {
    if id :| AskedAt(p.requests, m, id) { assert AskedAt(q.requests, m, id); }
    if id :| FinishedAt(p.requests, m, id) { assert FinishedAt(q.requests, m, id); }
    if m <= p.v.lastSeq {
      if id :| AskedAt(q.requests, m, id) { assert AskedAt(p.requests, m, id); }
      if id :| FinishedAt(q.requests, m, id) { assert FinishedAt(p.requests, m, id); }
    }
  }

  lemma SourcesOld(w: World)
    requires InOrder(w) && RequestsCoherent(w.p.requests, w.p.v.talk, w.p.v.lastSeq)
    ensures SourcesUpTo(w.tape, w.p.v.lastSeq)
  {
    forall m: nat | m in w.tape.sources ensures m <= w.p.v.lastSeq { OldEvents(w.p, w.p, m); }
  }

  lemma RecordKeepsOrder(w: World, q: Projection)
    requires InOrder(w) && WatermarkCovered(w) && EventsGrow(w.p, q)
             && RequestsCoherent(w.p.requests, w.p.v.talk, w.p.v.lastSeq)
    requires Watermark(q) == Watermark(w.p) <= w.p.v.lastSeq
    ensures InOrder(w.(p := q)) && WatermarkCovered(w.(p := q))
  {
    SourcesOld(w);
    forall m: nat ensures m <= w.p.v.lastSeq ==> (IsEvent(w.p, m) <==> IsEvent(q, m)) {
      OldEvents(w.p, q, m);
    }
  }

  lemma RecordKeepsAsking(w: World, q: Projection)
    requires AskingExact(w) && UnmarkedLater(w) && EventsGrow(w.p, q) && SourcesUpTo(w.tape, w.p.v.lastSeq)
    requires Watermark(q) == Watermark(w.p) && q.v.stream.lastStreamSeq == w.p.v.stream.lastStreamSeq
    ensures AskingExact(w.(p := q)) && UnmarkedLater(w.(p := q))
  {
  }

  lemma RecordKeepsTape(w: World, q: Projection)
    requires TapeInv(w) && RequestsCoherent(w.p.requests, w.p.v.talk, w.p.v.lastSeq) && EventsGrow(w.p, q)
    requires Watermark(q) == Watermark(w.p) <= w.p.v.lastSeq && q.v.stream.lastStreamSeq == w.p.v.stream.lastStreamSeq
    ensures TapeInv(w.(p := q))
  {
    RecordKeepsOrder(w, q);
    SourcesOld(w);
    RecordKeepsAsking(w, q);
  }

  /** A record that arrives while the projector runs lies behind everything it listed. */
  lemma RecordKeepsProjector(w: World, q: Projection)
    requires ProjectorInv(w) && RequestsCoherent(w.p.requests, w.p.v.talk, w.p.v.lastSeq) && EventsGrow(w.p, q)
    requires Watermark(q) == Watermark(w.p) && q.v.lastSeq == w.p.v.lastSeq + 1
    ensures ProjectorInv(w.(p := q))
  {
    if w.projector.Running? {
      var pr, v := w.projector, w.(p := q);
      forall m: nat
        ensures m <= w.p.v.lastSeq ==> (IsEvent(w.p, m) <==> IsEvent(q, m)) && (IsResult(w.p, m) <==> IsResult(q, m))
      {
        OldEvents(w.p, q, m);
      }
      assert Lists(q, pr.after, pr.listedAt, pr.events);
      assert ReceiptsHold(v, pr.events, pr.receipts) by {
        forall i | 0 <= i < |pr.receipts| ensures pr.events[i] <= w.p.v.lastSeq { assert pr.events[i] in pr.events; }
      }
    }
  }

  // ---------------------------------------------------------------- moves, in any order

  /** What can happen to a job next, each a transaction of its own: a ledger record other than a mark, a frame of
      another kind, a step of its projector, or the death of the process that runs it. */
  datatype Move =
    | LedgerRecord(entry: Entry)
    | OtherFrame(digest: Payload)
    | ReadWatermark
    | ListEvents(events: seq<nat>)
    | StoreNext
    | Mark(head: Payload, at: Time)
    | Die

  ghost predicate Possible(w: World, move: Move) {
    match move
    case LedgerRecord(entry) => !entry.body.StreamProjected? && Step(w.p, entry).Some?
    case OtherFrame(_) => true
    case ReadWatermark => w.projector.Idle?
    case ListEvents(events) => w.projector.Reading? && Lists(w.p, w.projector.after, w.p.v.lastSeq, events)
    case StoreNext => w.projector.Running? && |w.projector.receipts| < |w.projector.events|
    case Mark(_, _) => Complete(w)
    case Die => true
  }

  ghost function Framed(w: World, digest: Payload): World {
    w.(tape := w.tape.(lastSeq := w.tape.lastSeq + 1, head := SpoolState.HeadStep(w.tape.head, digest)),
       history := w.history + [None])
  }

  /** The mark is the ledger's own decision on the receipts and the last receipt's checkpoint. */
  ghost function Marked(w: World, head: Payload, at: Time): World
    requires w.projector.Running?
  {
    var d := MarkProjected(w.p, w.projector.receipts, w.projector.checkpoint, head);
    if d.Append? && |d.bodies| == 1 && Step(w.p, Entry(d.bodies[0], at)).Some?
    then w.(p := Step(w.p, Entry(d.bodies[0], at)).value, projector := Idle)
    else w.(projector := Idle)
  }

  ghost function Moved(w: World, move: Move): World
    requires Possible(w, move)
  {
    match move
    case LedgerRecord(entry) => w.(p := Step(w.p, entry).value)
    case OtherFrame(digest) => Framed(w, digest)
    case ReadWatermark => w.(projector := Reading(Watermark(w.p)))
    case ListEvents(events) => w.(projector := Running(w.projector.after, w.p.v.lastSeq, events, [], 0))
    case StoreNext => StoredNext(w)
    case Mark(head, at) => Marked(w, head, at)
    case Die => w.(projector := Idle)
  }

  lemma MarkedTape(w: World, q: Projection, upTo: nat)
    requires TapeInv(w) && ProjectorInv(w) && Complete(w) && LastMark(w, upTo)
    requires q.requests == w.p.requests && Watermark(q) == upTo && q.v.stream.lastStreamSeq == w.projector.checkpoint
    ensures TapeInv(w.(p := q))
  {
    var pr, v := w.projector, w.(p := q);
    assert forall m: nat :: IsEvent(q, m) <==> IsEvent(w.p, m);
    assert InOrder(v) && AskingExact(v);
    forall m: nat | IsEvent(q, m) && m <= upTo ensures m in w.tape.sources {
      if m > pr.after {
        assert m in pr.events;
        var i :| 0 <= i < |pr.events| && pr.events[i] == m;
      }
    }
    assert UnmarkedLater(v);
  }

  lemma MarkedIs(w: World, head: Payload, at: Time, body: Record, q: Projection)
    requires w.projector.Running? && Step(w.p, Entry(body, at)) == Some(q)
    requires MarkProjected(w.p, w.projector.receipts, w.projector.checkpoint, head) == Append([body], Done)
    ensures Marked(w, head, at) == w.(p := q, projector := Idle)
  {
  }

  /** The mark moves the watermark to the last stored result, if there is one, and keeps the invariant. */
  ghost predicate MarkKept(w: World, v: World)
    requires w.projector.Running?
  {
    var last := LastResult(w.projector.receipts);
    Inv(v) && Watermark(v.p) == if last.Some? then last.value else Watermark(w.p)
  }

  lemma MarkStored(w: World, head: Payload, at: Time, body: Record, q: Projection)
    requires Inv(w) && Complete(w) && MarkBody(w, head) == Some(body) && LastMark(w, body.upToRecordSeq)
    requires MarkProjected(w.p, w.projector.receipts, w.projector.checkpoint, head) == Append([body], Done)
    requires Step(w.p, Entry(body, at)) == Some(q)
    ensures MarkKept(w, Marked(w, head, at))
  {
    MarkTaken(w, head, Entry(body, at), q);
    MarkedIs(w, head, at, body, q);
  }

  lemma NothingMarked(w: World, head: Payload, at: Time)
    requires Inv(w) && Complete(w) && MarkBody(w, head).None?
    requires MarkProjected(w.p, w.projector.receipts, w.projector.checkpoint, head) == Reply(Done)
    ensures MarkKept(w, Marked(w, head, at))
  {
    TapeInvAlone(w, Idle);
  }

  lemma MarkKeepsInv(w: World, head: Payload, at: Time)
    requires Inv(w) && Complete(w)
    ensures MarkKept(w, Marked(w, head, at))
  {
    MarkAccepted(w, head);
    if MarkBody(w, head).Some? {
      var body := MarkBody(w, head).value;
      AdmittedNeverCorrupt(w.p, Entry(body, at));
      MarkStored(w, head, at, body, Step(w.p, Entry(body, at)).value);
    } else {
      NothingMarked(w, head, at);
    }
  }

  lemma MarkTaken(w: World, head: Payload, entry: Entry, q: Projection)
    requires Inv(w) && Complete(w) && MarkBody(w, head) == Some(entry.body) && Step(w.p, entry) == Some(q)
    requires LastMark(w, entry.body.upToRecordSeq)
    ensures Inv(w.(p := q, projector := Idle)) && Watermark(q) == entry.body.upToRecordSeq
  {
    LedgerKeepsFacts(w.p, entry);
    RecordGrows(w.p, q, entry);
    MarkedTape(w, q, entry.body.upToRecordSeq);
    TapeInvAlone(w.(p := q), Idle);
  }

  lemma FrameKeepsInv(w: World, digest: Payload)
    requires Inv(w)
    ensures Inv(Framed(w, digest))
  {
    var v := Framed(w, digest);
    FrameKeepsHistory(w.tape, v.tape, w.history);
    assert InOrder(v) && AskingExact(v) && WatermarkCovered(v);
    assert UnmarkedLater(v);
    if w.projector.Running? { assert ReceiptsHold(v, w.projector.events, w.projector.receipts); }
  }

  lemma FrameKeepsHistory(tape: Tape, longer: Tape, history: seq<Option<nat>>)
    requires HistoryExact(tape, history) && longer.sources == tape.sources && longer.lastSeq == tape.lastSeq + 1
    ensures HistoryExact(longer, history + [None])
  {
  }

  lemma ListingKeepsInv(w: World, events: seq<nat>)
    requires Inv(w) && Possible(w, ListEvents(events))
    ensures Inv(Moved(w, ListEvents(events)))
  {
    TapeInvAlone(w, Moved(w, ListEvents(events)).projector);
    SourcesOld(w);
  }

  lemma RecordKeepsInv(w: World, entry: Entry)
    requires Inv(w) && Possible(w, LedgerRecord(entry))
    ensures Inv(Moved(w, LedgerRecord(entry)))
  {
    var q := Step(w.p, entry).value;
    LedgerKeepsFacts(w.p, entry);
    RecordGrows(w.p, q, entry);
    RecordKeepsTape(w, q);
    RecordKeepsProjector(w, q);
  }

  lemma MoveKeepsInv(w: World, move: Move)
    requires Inv(w) && Possible(w, move)
    ensures Inv(Moved(w, move))
  {
    match move
    case LedgerRecord(entry) => RecordKeepsInv(w, entry);
    case OtherFrame(digest) => FrameKeepsInv(w, digest);
    case ReadWatermark => TapeInvAlone(w, Reading(Watermark(w.p)));
    case ListEvents(events) => ListingKeepsInv(w, events);
    case StoreNext => NextKeepsInv(w);
    case Mark(head, at) => MarkKeepsInv(w, head, at);
    case Die => TapeInvAlone(w, Idle);
  }

  ghost predicate PossibleRun(w: World, moves: seq<Move>)
    decreases |moves|
  {
    moves == [] || (Possible(w, moves[0]) && PossibleRun(Moved(w, moves[0]), moves[1..]))
  }

  ghost function RunOf(w: World, moves: seq<Move>): World
    requires PossibleRun(w, moves)
    decreases |moves|
  {
    if moves == [] then w else RunOf(Moved(w, moves[0]), moves[1..])
  }

  lemma {:induction false} RunKeepsInv(w: World, moves: seq<Move>)
    requires Inv(w) && PossibleRun(w, moves)
    ensures Inv(RunOf(w, moves))
    decreases |moves|
  {
    if moves != [] {
      MoveKeepsInv(w, moves[0]);
      RunKeepsInv(Moved(w, moves[0]), moves[1..]);
    }
  }

  // ---------------------------------------------------------------- from the start

  /** Nothing is marked before a result exists. */
  lemma {:induction false} UnmarkedAtFirst(id: AssignmentId, log: seq<Entry>)
    requires Replay(id, log).Some?
    ensures Replay(id, log).value.requests.finished == map[] ==> Replay(id, log).value.v.stream.lastStreamSeq == 0
    decreases |log|
  {
    if log != [] {
      var shorter, entry := log[..|log| - 1], log[|log| - 1];
      UnmarkedAtFirst(id, shorter);
      ReplayCoherent(id, shorter);
      ReplayTracksResults(id, shorter);
      UnmarkedStep(Replay(id, shorter).value, Replay(id, log).value, entry);
    }
  }

  lemma UnmarkedStep(p: Projection, q: Projection, entry: Entry)
    requires Coherent(p) && ResultsTracked(p.requests, p.v.stream) && Step(p, entry) == Some(q)
    ensures q.requests.finished == map[] ==>
              p.requests.finished == map[] && q.v.stream.lastStreamSeq == p.v.stream.lastStreamSeq
  {
    AdmittedNeverCorrupt(p, entry);
    ItemOfCommit(p.v, entry);
  }

  /** A received job whose projection was enabled before its first request; its tape holds other frames only. */
  ghost predicate EnabledFirst(id: AssignmentId, log: seq<Entry>, w: World) {
    && Replay(id, log) == Some(w.p)
    && w.p.v.life.IsJob() && w.p.v.stream.enabledAfter.Some? && w.p.requests.requested == map[]
    && w.tape.sources == map[] && w.tape.asking == {} && w.projector == Idle
    && |w.history| == w.tape.lastSeq && (forall i :: 0 <= i < |w.history| ==> w.history[i] == None)
  }

  lemma EnabledFirstInv(id: AssignmentId, log: seq<Entry>, w: World)
    requires EnabledFirst(id, log, w)
    ensures Inv(w)
  {
    ReplayCoherent(id, log);
    ReplayTracksResults(id, log);
    assert forall k :: k !in w.p.requests.finished;
    assert w.p.requests.finished == map[];
    UnmarkedAtFirst(id, log);
  }

  /** Record `m` has exactly one frame, behind those of all earlier records. */
  ghost predicate OnceInOrder(w: World, m: nat) {
    && (exists i :: StoredAs(w, m, i))
    && (forall i, j :: StoredAs(w, m, i) && StoredAs(w, m, j) ==> i == j)
    && (forall k: nat, i, j :: k < m && StoredAs(w, k, i) && StoredAs(w, m, j) ==> i < j)
  }

  lemma TapeOnceInOrder(w: World, m: nat)
    requires TapeInv(w) && IsEvent(w.p, m) && m <= Watermark(w.p)
    ensures OnceInOrder(w, m)
  {
    ExactlyOnce(w, m);
    forall k: nat, i, j | k < m && StoredAs(w, k, i) && StoredAs(w, m, j) ensures i < j {
      StoredInOrder(w, k, m, i, j);
    }
  }

  lemma RunFromStart(id: AssignmentId, log: seq<Entry>, w: World, moves: seq<Move>)
    requires EnabledFirst(id, log, w) && PossibleRun(w, moves)
    ensures Inv(RunOf(w, moves))
  {
    EnabledFirstInv(id, log, w);
    RunKeepsInv(w, moves);
  }

  /** After any interleaving of ledger records, other frames, projector steps, deaths and restarts: exactly one frame
      per interaction record up to the watermark, in record order. */
  lemma ProjectedExactlyOnce(id: AssignmentId, log: seq<Entry>, w: World, moves: seq<Move>, m: nat)
    requires EnabledFirst(id, log, w) && PossibleRun(w, moves)
    requires IsEvent(RunOf(w, moves).p, m) && m <= Watermark(RunOf(w, moves).p)
    ensures OnceInOrder(RunOf(w, moves), m)
  {
    RunFromStart(id, log, w, moves);
    TapeOnceInOrder(RunOf(w, moves), m);
  }

  // ---------------------------------------------------------------- the projection loop

  /** The listed events behind the position already reached. */
  function Since(events: seq<StreamEvent>, after: nat): (rest: seq<StreamEvent>)
    ensures forall e :: e in rest <==> e in events && e.recordSeq > after
    decreases |events|
  {
    if events == [] then []
    else
      var shorter, last := events[..|events| - 1], events[|events| - 1];
      assert forall e :: e in events <==> e in shorter || e == last;
      if last.recordSeq > after then Since(shorter, after) + [last] else Since(shorter, after)
  }

  function AppendedAll(tape: Tape, events: seq<StreamEvent>): Tape
    decreases |events|
  {
    if events == [] then tape else AppendEvent(AppendedAll(tape, events[..|events| - 1]), events[|events| - 1])
  }

  /** Receipts for exactly these events, each naming the frame the tape holds for it. */
  ghost predicate ReceiptsFor(tape: Tape, events: seq<StreamEvent>, receipts: seq<FrameReceipt>) {
    && |receipts| == |events|
    && (forall i :: 0 <= i < |events| ==>
          && receipts[i].recordSeq == events[i].recordSeq && (receipts[i].isResult <==> events[i].bracket.Answered?)
          && events[i].recordSeq in tape.sources && tape.sources[events[i].recordSeq].frameSeq == receipts[i].frameSeq)
  }

  lemma OneMoreReceipt(tape: Tape, events: seq<StreamEvent>, receipts: seq<FrameReceipt>, e: StreamEvent)
    requires ReceiptsFor(tape, events, receipts)
    ensures var t := AppendEvent(tape, e);
            && e.recordSeq in t.sources
            && ReceiptsFor(t, events + [e],
                           receipts + [FrameReceipt(e.recordSeq, t.sources[e.recordSeq].frameSeq, e.bracket.Answered?)])
  {
  }

  /** The loop has appended `done` to `start`: one receipt each, and the last of them remembered. */
  ghost predicate Progress(start: Tape, done: seq<StreamEvent>, after: nat, tape: Tape, lastRecordSeq: nat,
      receipts: seq<FrameReceipt>) {
    && tape == AppendedAll(start, done)
    && ReceiptsFor(tape, done, receipts)
    && lastRecordSeq == if done == [] then after else done[|done| - 1].recordSeq
  }

  lemma OneMoreDone(start: Tape, done: seq<StreamEvent>, after: nat, tape: Tape, receipts: seq<FrameReceipt>,
      e: StreamEvent)
    requires tape == AppendedAll(start, done) && ReceiptsFor(tape, done, receipts)
    ensures var t := AppendEvent(tape, e);
            && e.recordSeq in t.sources
            && Progress(start, done + [e], after, t, e.recordSeq,
                        receipts + [FrameReceipt(e.recordSeq, t.sources[e.recordSeq].frameSeq, e.bracket.Answered?)])
  {
    assert (done + [e])[..|done|] == done;
    OneMoreReceipt(tape, done, receipts, e);
  }

  /** Event `i` is taken exactly if it lies past `after`. */
  lemma NextSince(events: seq<StreamEvent>, i: nat, after: nat, lastRecordSeq: nat)
    requires i < |events| && (forall j, k :: 0 <= j < k < |events| ==> events[j].recordSeq < events[k].recordSeq)
    requires var done := Since(events[..i], after);
             lastRecordSeq == if done == [] then after else done[|done| - 1].recordSeq
    ensures Since(events[..i + 1], after) ==
              Since(events[..i], after) + if events[i].recordSeq > lastRecordSeq then [events[i]] else []
  {
    assert events[..i + 1][..i] == events[..i];
    var done := Since(events[..i], after);
    if done != [] { assert done[|done| - 1] in events[..i]; }
  }

  /** The loop over whatever the ledger lists, earlier events included: it skips what lies at or below `after`, appends
      the rest in order and returns one receipt for each. */
  method ProjectInteractions(events: seq<StreamEvent>, after: nat, start: Tape)
    returns (tape: Tape, projected: nat, lastRecordSeq: nat, receipts: seq<FrameReceipt>)
    requires forall i, j :: 0 <= i < j < |events| ==> events[i].recordSeq < events[j].recordSeq
    ensures Progress(start, Since(events, after), after, tape, lastRecordSeq, receipts) && projected == |receipts|
  {
    tape, projected, lastRecordSeq, receipts := start, 0, after, [];
    for i := 0 to |events|
      invariant Progress(start, Since(events[..i], after), after, tape, lastRecordSeq, receipts)
                && projected == |receipts|
    {
      var e := events[i];
      NextSince(events, i, after, lastRecordSeq);
      if e.recordSeq > lastRecordSeq {
        OneMoreDone(start, Since(events[..i], after), after, tape, receipts, e);
        tape := AppendEvent(tape, e);
        receipts := receipts + [FrameReceipt(e.recordSeq, tape.sources[e.recordSeq].frameSeq, e.bracket.Answered?)];
        projected := projected + 1;
        lastRecordSeq := e.recordSeq;
      }
    }
    assert events[..|events|] == events;
  }

  /** Appending an event on the tape is what the spool's own append does: a known source is kept without a record, a
      new one is committed and leaves exactly this tape. */
  lemma AppendIsTheSpools(sp: SpoolState.Spool, execution: ExecutionRef, frame: SpoolState.Frame, e: StreamEvent,
      at: Time)
    requires SpoolInvariants.Inv(sp) && sp.store.deleting == {}
    requires SpoolState.BracketFits(sp.tape.asking, e.bracket) && frame.digest == e.recordSeq
    ensures var d := SpoolDecisions.Append(sp, execution, frame, false, Some(e.recordSeq), e.bracket);
            && (d.Keep? ==> AppendEvent(sp.tape, e) == sp.tape)
            && (d.Commit? ==>
                  && SpoolState.ReduceAll(sp, d.batch, at).Some?
                  && SpoolState.ReduceAll(sp, d.batch, at).value.tape == AppendEvent(sp.tape, e))
  {
    SpoolSafety.AppendAccepted(sp, execution, frame, false, Some(e.recordSeq), e.bracket, at);
  }

  ghost function EventsOf(rq: Requests, events: seq<nat>): seq<StreamEvent> {
    seq(|events|, i requires 0 <= i < |events| => StreamEvent(events[i], BracketAt(rq, events[i])))
  }

  /** Undisturbed, the loop over the ledger's events stores them as the projector's steps do. */
  lemma {:induction false} LoopProjects(w: World, events: seq<nat>)
    ensures Projected(w, events).tape == AppendedAll(w.tape, EventsOf(w.p.requests, events))
            && Projected(w, events).p == w.p
    decreases |events|
  {
    if events != [] {
      var shorter := events[..|events| - 1];
      LoopProjects(w, shorter);
      assert EventsOf(w.p.requests, events)[..|events| - 1] == EventsOf(w.p.requests, shorter);
    }
  }
}
