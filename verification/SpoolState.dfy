/** Byte sizes of sets of artifacts. */
module ArtifactSizes {
  /** A stored artifact.  Its digest is injective, so identity and size together stand for the digest. */
  datatype Artifact = Artifact(id: int, bytes: nat)

  ghost function Sum(s: set<Artifact>): nat {
    if s == {} then 0 else var a :| a in s; a.bytes + Sum(s - {a})
  }

  lemma {:induction false} SumRemove(s: set<Artifact>, a: Artifact)
    requires a in s
    ensures Sum(s) == a.bytes + Sum(s - {a})
    decreases |s|
  {
    var b :| b in s && Sum(s) == b.bytes + Sum(s - {b});
    if a != b {
      SumRemove(s - {b}, a);
      SumRemove(s - {a}, b);
      assert s - {a} - {b} == s - {b} - {a};
    }
  }

  lemma {:induction false} SumUnion(s: set<Artifact>, t: set<Artifact>)
    requires s !! t
    ensures Sum(s + t) == Sum(s) + Sum(t)
    decreases |s|
  {
    if s == {} {
      assert s + t == t;
    } else {
      var a :| a in s;
      SumRemove(s, a);
      SumRemove(s + t, a);
      assert s + t - {a} == (s - {a}) + t;
      SumUnion(s - {a}, t);
    }
  }

  lemma SumSubset(s: set<Artifact>, t: set<Artifact>)
    requires s <= t
    ensures Sum(s) <= Sum(t)
  {
    SumUnion(s, t - s);
    assert s + (t - s) == t;
  }
}

/** The durable state of one assignment's stream spool, and the reducer that folds its records back. */
module SpoolState {
  import opened Options
  import opened LedgerRecords
  import opened ArtifactSizes

  type SourceId = int

  /** A stored frame: its body, every artifact it retains (body and referenced content), and its logical digest. */
  datatype Frame = Frame(body: Artifact, artifacts: set<Artifact>, digest: Payload)

  /** Retained frames, how many of them use each artifact, and artifacts awaiting physical deletion. */
  datatype Store = Store(frames: map<nat, Frame>, counts: map<Artifact, nat>, deleting: set<Artifact>, retained: int,
                         pruned: nat)

  datatype StreamHead = HeadSeed(assignment: AssignmentId) | HeadStep(previous: StreamHead, digest: Payload)

  datatype SourceFrame = SourceFrame(frameSeq: nat, digest: Payload)

  /** The frame chain: its end, its provisional final, the frames of identified sources and the interactions asked for
      but not yet finished. */
  datatype Tape = Tape(lastSeq: nat, head: StreamHead, finalSeq: Option<nat>, sources: map<SourceId, SourceFrame>,
                       asking: set<RequestId>)

  /** A surface reads with a ticket; the only owner relay of a job is the one bound to its own execution. */
  datatype Key = SurfaceTicket(ticket: int) | OwnerRelay

  datatype Consumer = Consumer(ack: nat, offered: nat, degraded: bool, qualified: bool, epoch: nat,
                               expiresAt: Option<Time>)
  {
    predicate Active() { qualified && !degraded }
  }

  type Consumers = map<Key, Consumer>

  datatype Opening = Opening(execution: ExecutionRef, capacity: nat)

  datatype Ending = Ending(terminal: bool, reclaimAfter: Option<Time>, reclaimed: bool)

  datatype Spool = Spool(assignment: AssignmentId, opening: Option<Opening>, tape: Tape, store: Store,
                         consumers: Consumers, ending: Ending)
  {
    predicate IsJob() { opening.Some? && opening.value.execution.JobRef? }
  }

  function Fresh(id: AssignmentId): Spool {
    Spool(id, None, Tape(0, HeadSeed(id), None, map[], {}), Store(map[], map[], {}, 0, 0), map[],
          Ending(false, None, false))
  }

  datatype Bracket = Asked(id: RequestId) | Answered(id: RequestId) | NoBracket

  datatype SpoolRecord =
    | Opened(opening: Opening)
    | FrameStored(frameSeq: nat, frame: Frame, isFinal: bool, source: Option<SourceId>, bracket: Bracket)
    | Qualified(key: Key, expiresAt: Option<Time>)
    | Revoked(key: Key)
    | Connected(key: Key, epoch: nat)
    | Offered(key: Key, upTo: nat)
    | Acknowledged(key: Key, upTo: nat)
    | Degraded(key: Key)
    | Pruned(through: nat, released: set<Artifact>)
    | Deleted(gone: set<Artifact>)
    | TerminalMarked(finalSeq: nat)
    | ReclaimArmed(after: Time)
    | ReclaimDisarmed(key: Key)
    | ReclaimedForGood

  // ---------------------------------------------------------------- consumers

  predicate Has(cs: Consumers, key: Key) { key in cs && cs[key].qualified }

  predicate AnyActive(cs: Consumers) { exists key :: key in cs && cs[key].Active() }

  predicate RelayActive(cs: Consumers) { OwnerRelay in cs && cs[OwnerRelay].Active() }

  /** The lowest acknowledgement of an active consumer. */
  ghost function LowestAck(cs: Consumers, among: set<Key>): (ack: nat)
    requires exists key :: key in among && key in cs && cs[key].Active()
    ensures forall key :: key in among && key in cs && cs[key].Active() ==> ack <= cs[key].ack
    ensures exists key :: key in among && key in cs && cs[key].Active() && cs[key].ack == ack
  {
    var key :| key in among && key in cs && cs[key].Active();
    var rest := among - {key};
    if exists other :: other in rest && other in cs && cs[other].Active() then
      var low := LowestAck(cs, rest);
      assert forall k :: k in among ==> k == key || k in rest;
      if low < cs[key].ack then
        var other :| other in rest && other in cs && cs[other].Active() && cs[other].ack == low;
        assert other in among;
        low
      else cs[key].ack
    else
      assert forall k :: k in among ==> k == key || k in rest;
      cs[key].ack
  }

  /** Up to where frames may be pruned: what every active consumer has acknowledged.  A job keeps everything
      until an owner relay is active; a stream that never had a consumer keeps everything too. */
  ghost function RetentionFloor(sp: Spool): nat {
    if sp.IsJob() && !RelayActive(sp.consumers) then sp.store.pruned
    else if !AnyActive(sp.consumers) then
      if sp.consumers == map[] then sp.store.pruned else sp.tape.lastSeq
    else
      var low := LowestAck(sp.consumers, sp.consumers.Keys);
      if low > sp.store.pruned then low else sp.store.pruned
  }

  predicate SurfacesDone(cs: Consumers, finalSeq: nat) {
    forall key :: key in cs && cs[key].Active() && key.SurfaceTicket? ==> cs[key].ack >= finalSeq
  }

  predicate AllDone(cs: Consumers, finalSeq: nat) {
    forall key :: key in cs && cs[key].Active() ==> cs[key].ack >= finalSeq
  }

  predicate RelayDone(cs: Consumers, finalSeq: nat) {
    RelayActive(cs) && cs[OwnerRelay].ack == finalSeq
  }

  predicate CanArm(sp: Spool) {
    && sp.ending.terminal
    && sp.tape.finalSeq.Some?
    && (var finalSeq := sp.tape.finalSeq.value;
        if sp.IsJob()
        then SurfacesDone(sp.consumers, finalSeq) && (RelayDone(sp.consumers, finalSeq) || sp.tape.asking == {})
        else AllDone(sp.consumers, finalSeq))
  }

  // ---------------------------------------------------------------- the artifact store

  function Users(frames: map<nat, Frame>, a: Artifact): set<nat> {
    set s | s in frames && a in frames[s].artifacts
  }

  function Uses(frames: map<nat, Frame>, a: Artifact): nat { |Users(frames, a)| }

  function Through(frames: map<nat, Frame>, through: nat): map<nat, Frame> {
    map s | s in frames && s <= through :: frames[s]
  }

  function Beyond(frames: map<nat, Frame>, through: nat): map<nat, Frame> {
    map s | s in frames && s > through :: frames[s]
  }

  /** The artifacts that retiring these frames leaves unused. */
  function ReleasedBy(counts: map<Artifact, nat>, retired: map<nat, Frame>): set<Artifact> {
    set a | a in counts && counts[a] > 0 && counts[a] == Uses(retired, a)
  }

  ghost function AddFrame(st: Store, s: nat, frame: Frame): Store {
    Store(st.frames[s := frame],
          map a | a in st.counts.Keys + frame.artifacts ::
            (if a in st.counts then st.counts[a] else 0) + (if a in frame.artifacts then 1 else 0),
          st.deleting,
          st.retained + Sum(frame.artifacts - st.counts.Keys),
          st.pruned)
  }

  function PruneStore(st: Store, through: nat): Store {
    var retired := Through(st.frames, through);
    Store(Beyond(st.frames, through),
          map a | a in st.counts && Left(st.counts[a], Uses(retired, a)) > 0 :: Left(st.counts[a], Uses(retired, a)),
          st.deleting + ReleasedBy(st.counts, retired),
          st.retained,
          through)
  }

  function Left(count: nat, used: nat): nat { if count > used then count - used else 0 }

  ghost function DeleteFrom(st: Store, gone: set<Artifact>): Store {
    st.(deleting := st.deleting - gone, retained := st.retained - Sum(gone))
  }

  // ---------------------------------------------------------------- reducing one record

  predicate BracketFits(asking: set<RequestId>, bracket: Bracket) {
    match bracket
    case Asked(id) => id !in asking
    case Answered(id) => id in asking
    case NoBracket => true
  }

  function AskingAfter(asking: set<RequestId>, bracket: Bracket): set<RequestId> {
    match bracket
    case Asked(id) => asking + {id}
    case Answered(id) => asking - {id}
    case NoBracket => asking
  }

  function TapeAfter(t: Tape, r: SpoolRecord): Tape
    requires r.FrameStored?
  {
    Tape(r.frameSeq,
         if r.isFinal then t.head else HeadStep(t.head, r.frame.digest),
         if r.isFinal then Some(r.frameSeq) else None,
         if r.source.Some? then t.sources[r.source.value := SourceFrame(r.frameSeq, r.frame.digest)] else t.sources,
         AskingAfter(t.asking, r.bracket))
  }

  /** Whether the reducer takes the record at commit time `at`; otherwise the spool is reported corrupt. */
  ghost predicate Acceptable(sp: Spool, r: SpoolRecord, at: Time) {
    && !sp.ending.reclaimed
    && (r.Opened? <==> sp.opening.None?)
    && match r
       case Opened(_) => true
       case FrameStored(s, frame, isFinal, source, bracket) =>
         && sp.tape.finalSeq.None? && !sp.ending.terminal
         && s == sp.tape.lastSeq + 1
         && (source.Some? ==> source.value !in sp.tape.sources)
         && frame.artifacts !! sp.store.deleting
         && BracketFits(sp.tape.asking, bracket)
       case Qualified(_, _) => true
       case Revoked(key) => Has(sp.consumers, key)
       case Connected(key, epoch) => Has(sp.consumers, key) && epoch == sp.consumers[key].epoch + 1
       case Offered(key, upTo) =>
         Has(sp.consumers, key) && !sp.consumers[key].degraded && sp.consumers[key].offered <= upTo <= sp.tape.lastSeq
       case Acknowledged(key, upTo) =>
         Has(sp.consumers, key) && sp.consumers[key].ack <= upTo <= sp.consumers[key].offered
       case Degraded(key) => Has(sp.consumers, key) && key.SurfaceTicket? && !sp.consumers[key].degraded
       case Pruned(through, released) =>
         && sp.store.pruned < through <= sp.tape.lastSeq
         && through <= RetentionFloor(sp)
         && (forall a :: Uses(Through(sp.store.frames, through), a) > 0 ==>
               a in sp.store.counts && Uses(Through(sp.store.frames, through), a) <= sp.store.counts[a])
         && released == ReleasedBy(sp.store.counts, Through(sp.store.frames, through))
       case Deleted(gone) => gone <= sp.store.deleting
       case TerminalMarked(finalSeq) => !sp.ending.terminal && sp.tape.finalSeq == Some(finalSeq)
       case ReclaimArmed(after) => sp.ending.terminal && sp.ending.reclaimAfter.None? && CanArm(sp) && after > at
       case ReclaimDisarmed(key) =>
         && Has(sp.consumers, key) && !sp.consumers[key].degraded
         && sp.ending.reclaimAfter.Some? && sp.tape.finalSeq.Some? && sp.consumers[key].ack < sp.tape.finalSeq.value
       case ReclaimedForGood =>
         sp.ending.reclaimAfter.Some? && CanArm(sp) && at >= sp.ending.reclaimAfter.value && sp.store.deleting == {}
  }

  function QualifiedConsumer(cs: Consumers, key: Key, expiresAt: Option<Time>): Consumer {
    if key in cs then cs[key].(qualified := true, expiresAt := expiresAt) else Consumer(0, 0, false, true, 0, expiresAt)
  }

  function ConsumersAfter(cs: Consumers, r: SpoolRecord): Consumers {
    match r
    case Qualified(key, expiresAt) => cs[key := QualifiedConsumer(cs, key, expiresAt)]
    case Revoked(key) => if key in cs then cs[key := cs[key].(qualified := false)] else cs
    case Connected(key, epoch) => if key in cs then cs[key := cs[key].(epoch := epoch)] else cs
    case Offered(key, upTo) => if key in cs then cs[key := cs[key].(offered := upTo)] else cs
    case Acknowledged(key, upTo) => if key in cs then cs[key := cs[key].(ack := upTo)] else cs
    case Degraded(key) => if key in cs then cs[key := cs[key].(degraded := true)] else cs
    case _ => cs
  }

  ghost function StoreAfter(st: Store, r: SpoolRecord): Store {
    match r
    case FrameStored(s, frame, _, _, _) => AddFrame(st, s, frame)
    case Pruned(through, _) => PruneStore(st, through)
    case Deleted(gone) => DeleteFrom(st, gone)
    case _ => st
  }

  function EndingAfter(e: Ending, r: SpoolRecord): Ending {
    match r
    case TerminalMarked(_) => e.(terminal := true)
    case ReclaimArmed(after) => e.(reclaimAfter := Some(after))
    case ReclaimDisarmed(_) => e.(reclaimAfter := None)
    case ReclaimedForGood => e.(reclaimed := true)
    case _ => e
  }

  ghost function Folded(sp: Spool, r: SpoolRecord): Spool {
    Spool(sp.assignment,
          if r.Opened? then Some(r.opening) else sp.opening,
          if r.FrameStored? then TapeAfter(sp.tape, r) else sp.tape,
          StoreAfter(sp.store, r),
          ConsumersAfter(sp.consumers, r),
          EndingAfter(sp.ending, r))
  }

  ghost function Reduce(sp: Spool, r: SpoolRecord, at: Time): Option<Spool> {
    if Acceptable(sp, r, at) then Some(Folded(sp, r)) else None
  }

  /** A batch committed together at one time. */
  ghost function ReduceAll(sp: Spool, batch: seq<SpoolRecord>, at: Time): Option<Spool>
    decreases |batch|
  {
    if batch == [] then Some(sp)
    else
      match Reduce(sp, batch[0], at)
      case None => None
      case Some(next) => ReduceAll(next, batch[1..], at)
  }

  lemma {:induction false} ReduceConcat(sp: Spool, a: seq<SpoolRecord>, b: seq<SpoolRecord>, at: Time)
    ensures ReduceAll(sp, a + b, at) == match ReduceAll(sp, a, at) case None => None case Some(m) => ReduceAll(m, b, at)
    decreases |a|
  {
    if a == [] {
      assert a + b == b;
    } else {
      assert (a + b)[1..] == a[1..] + b;
      if Acceptable(sp, a[0], at) { ReduceConcat(Folded(sp, a[0]), a[1..], b, at); }
    }
  }

  lemma ReduceOne(sp: Spool, r: SpoolRecord, at: Time)
    ensures ReduceAll(sp, [r], at) == Reduce(sp, r, at)
  {
    assert [r][1..] == [];
  }
}
