/** The spool's operations: each decides, on the state at a locked prefix, which records to commit together. */
module SpoolDecisions {
  import opened Options
  import opened LedgerRecords
  import opened ArtifactSizes
  import opened SpoolState

  datatype Decision = Refuse | Keep | Full | Commit(batch: seq<SpoolRecord>)

  predicate OpenFor(sp: Spool, execution: ExecutionRef) {
    !sp.ending.reclaimed && sp.opening.Some? && sp.opening.value.execution == execution
  }

  function OpenSpool(sp: Spool, opening: Opening): Decision {
    if sp.ending.reclaimed then Refuse
    else if sp.opening.None? then Commit([Opened(opening)])
    else if sp.opening.value.execution == opening.execution then Keep
    else Refuse
  }

  // ---------------------------------------------------------------- consumers

  datatype Qualification = Qualification(key: Key, expiresAt: Option<Time>)

  predicate WellFormed(entries: seq<Qualification>) {
    && 0 < |entries| <= 32
    && (forall i :: 0 <= i < |entries| ==> (entries[i].key.OwnerRelay? <==> entries[i].expiresAt.None?))
    && (forall i, j :: 0 <= i < j < |entries| ==> entries[i].key != entries[j].key)
  }

  predicate AlreadyHeld(cs: Consumers, q: Qualification) {
    q.key in cs && cs[q.key].qualified && cs[q.key].expiresAt == q.expiresAt
  }

  function Qualifications(cs: Consumers, entries: seq<Qualification>): seq<SpoolRecord> {
    if entries == [] then []
    else
      (if AlreadyHeld(cs, entries[0]) then [] else [Qualified(entries[0].key, entries[0].expiresAt)])
      + Qualifications(cs, entries[1..])
  }

  /** Whether qualifying this consumer makes it one that still has frames to read. */
  predicate StillReading(cs: Consumers, key: Key, finalSeq: Option<nat>) {
    && (key in cs ==> !cs[key].degraded)
    && !(finalSeq.Some? && (if key in cs then cs[key].ack else 0) >= finalSeq.value)
  }

  function FirstReader(cs: Consumers, entries: seq<Qualification>, finalSeq: Option<nat>): Option<Key> {
    if entries == [] then None
    else if !AlreadyHeld(cs, entries[0]) && StillReading(cs, entries[0].key, finalSeq) then Some(entries[0].key)
    else FirstReader(cs, entries[1..], finalSeq)
  }

  function Qualify(sp: Spool, execution: ExecutionRef, entries: seq<Qualification>): Decision {
    if !WellFormed(entries) || !OpenFor(sp, execution) then Refuse
    else
      var records := Qualifications(sp.consumers, entries);
      var reader := if sp.ending.reclaimAfter.Some? then FirstReader(sp.consumers, entries, sp.tape.finalSeq) else None;
      if records == [] then Keep
      else Commit(records + if reader.Some? then [ReclaimDisarmed(reader.value)] else [])
  }

  /** The prune record that moves the line up to the retention floor of `projected`, if it moves. */
  ghost function PruneTo(sp: Spool, projected: Spool): seq<SpoolRecord> {
    var through := RetentionFloor(projected);
    if through > sp.store.pruned
    then [Pruned(through, ReleasedBy(sp.store.counts, Through(sp.store.frames, through)))] else []
  }

  ghost function Revoke(sp: Spool, key: Key): Decision {
    if sp.ending.reclaimed then Refuse
    else if !Has(sp.consumers, key) then Keep
    else Commit([Revoked(key)] + PruneTo(sp, Folded(sp, Revoked(key))))
  }

  function Connect(sp: Spool, execution: ExecutionRef, key: Key): Decision {
    if !OpenFor(sp, execution) || !Has(sp.consumers, key) then Refuse
    else Commit([Connected(key, sp.consumers[key].epoch + 1)])
  }

  // ---------------------------------------------------------------- retention

  /** The artifacts a consumer at `ack` has not finished with. */
  function Lag(frames: map<nat, Frame>, ack: nat): set<Artifact> {
    set s, a | s in frames && s > ack && a in frames[s].artifacts :: a
  }

  /** A surface reader whose backlog, together with `extra`, exceeds half the capacity. */
  ghost predicate Slow(sp: Spool, key: Key, extra: set<Artifact>) {
    && sp.opening.Some?
    && key in sp.consumers && sp.consumers[key].Active() && key.SurfaceTicket?
    && 2 * Sum(Lag(sp.store.frames, sp.consumers[key].ack) + extra) > sp.opening.value.capacity
  }

  ghost function SlowKeys(sp: Spool, extra: set<Artifact>): set<Key> {
    set key | key in sp.consumers && Slow(sp, key, extra)
  }

  /** The keys of a set in some order. */
  ghost function Ordered(keys: set<Key>): (order: seq<Key>)
    ensures forall key :: key in order <==> key in keys
    ensures forall i, j :: 0 <= i < j < |order| ==> order[i] != order[j]
  {
    if keys == {} then []
    else
      var key :| key in keys;
      var rest := Ordered(keys - {key});
      assert forall k :: k in [key] + rest <==> k == key || k in rest;
      [key] + rest
  }

  function Degradations(order: seq<Key>): seq<SpoolRecord> {
    if order == [] then [] else [Degraded(order[0])] + Degradations(order[1..])
  }

  /** The state with the given consumers degraded. */
  function WithDegraded(sp: Spool, order: seq<Key>): Spool
    decreases |order|
  {
    if order == [] then sp
    else WithDegraded(sp.(consumers := ConsumersAfter(sp.consumers, Degraded(order[0]))), order[1..])
  }

  function Drain(sp: Spool): Decision {
    if sp.store.deleting == {} then Keep else Commit([Deleted(sp.store.deleting)])
  }

  ghost function Reconcile(sp: Spool): Decision {
    if sp.opening.None? then Keep
    else
      var slow := Ordered(SlowKeys(sp, {}));
      var batch := Degradations(slow) + PruneTo(sp, WithDegraded(sp, slow));
      if batch == [] then Keep else Commit(batch)
  }

  // ---------------------------------------------------------------- frames

  /** Bytes the frame adds to what is retained. */
  ghost function Required(st: Store, frame: Frame): nat {
    Sum(frame.artifacts - st.counts.Keys - st.deleting)
  }

  ghost function Append(sp: Spool, execution: ExecutionRef, frame: Frame, isFinal: bool, source: Option<SourceId>,
      bracket: Bracket): Decision {
    if !OpenFor(sp, execution) then Refuse
    else if source.Some? && source.value in sp.tape.sources then
      if sp.tape.sources[source.value].digest == frame.digest then Keep else Refuse
    else if sp.tape.finalSeq.Some? then Refuse
    else if Required(sp.store, frame) > sp.opening.value.capacity then Refuse
    else if sp.store.retained + Required(sp.store, frame) > sp.opening.value.capacity then Full
    else Commit([FrameStored(sp.tape.lastSeq + 1, frame, isFinal, source, bracket)]
                + Degradations(Ordered(SlowKeys(sp, frame.artifacts))))
  }

  /** The stored frames from `s` on that one read may return: absent sequences are passed over, and all but the first
      frame must fit the limits. */
  function FramesFrom(frames: map<nat, Frame>, s: nat, last: nat, taken: nat, bytes: nat, maxFrames: nat,
      maxBytes: nat): (read: seq<nat>)
    ensures forall i :: 0 <= i < |read| ==> read[i] in frames && s <= read[i] <= last
    ensures forall i, j :: 0 <= i < j < |read| ==> read[i] < read[j]
    decreases last + 1 - s
  {
    if s > last then []
    else if s !in frames then FramesFrom(frames, s + 1, last, taken, bytes, maxFrames, maxBytes)
    else if taken > 0 && (taken >= maxFrames || bytes + frames[s].body.bytes > maxBytes) then []
    else [s] + FramesFrom(frames, s + 1, last, taken + 1, bytes + frames[s].body.bytes, maxFrames, maxBytes)
  }

  /** Up to its last frame, a read passes over absent sequences only. */
  lemma {:induction false} OnlyAbsentSkipped(
      frames: map<nat, Frame>, s: nat, last: nat, taken: nat, bytes: nat, maxFrames: nat, maxBytes: nat, k: nat)
    requires var read := FramesFrom(frames, s, last, taken, bytes, maxFrames, maxBytes);
             read != [] && k in frames && s <= k <= read[|read| - 1]
    ensures k in FramesFrom(frames, s, last, taken, bytes, maxFrames, maxBytes)
    decreases last + 1 - s
  {
    if s !in frames {
      OnlyAbsentSkipped(frames, s + 1, last, taken, bytes, maxFrames, maxBytes, k);
    } else if k > s {
      OnlyAbsentSkipped(frames, s + 1, last, taken + 1, bytes + frames[s].body.bytes, maxFrames, maxBytes, k);
    }
  }

  /** What a read returns: stored frames after the acknowledgement, in order. */
  function ReadFrames(sp: Spool, after: nat, maxFrames: nat, maxBytes: nat): seq<nat> {
    FramesFrom(sp.store.frames, after + 1, sp.tape.lastSeq, 0, 0, maxFrames, maxBytes)
  }

  /** The last frame it returns, or the acknowledgement if there is none. */
  function ReadUpTo(sp: Spool, after: nat, maxFrames: nat, maxBytes: nat): (upTo: nat)
    ensures after <= upTo && (upTo <= sp.tape.lastSeq || upTo == after)
  {
    var read := ReadFrames(sp, after, maxFrames, maxBytes);
    if read == [] then after else read[|read| - 1]
  }

  predicate MayRead(sp: Spool, execution: ExecutionRef, key: Key, epoch: nat, after: nat, expiresAt: Option<Time>) {
    && OpenFor(sp, execution) && Has(sp.consumers, key)
    && sp.consumers[key].epoch == epoch
    && !sp.consumers[key].degraded
    && sp.consumers[key].ack == after
    && after >= sp.store.pruned
    && sp.consumers[key].expiresAt == expiresAt
  }

  function Subscribe(sp: Spool, execution: ExecutionRef, key: Key, epoch: nat, after: nat, expiresAt: Option<Time>,
      maxFrames: nat, maxBytes: nat): Decision {
    if !MayRead(sp, execution, key, epoch, after, expiresAt) then Refuse
    else
      var consumer, upTo := sp.consumers[key], ReadUpTo(sp, after, maxFrames, maxBytes);
      var batch := (if upTo > consumer.offered then [Offered(key, upTo)] else [])
        + (if sp.ending.reclaimAfter.Some? && (sp.tape.finalSeq.Some? ==> consumer.ack < sp.tape.finalSeq.value)
           then [ReclaimDisarmed(key)] else []);
      if batch == [] then Keep else Commit(batch)
  }

  ghost function Acknowledge(sp: Spool, key: Key, epoch: nat, upTo: nat, at: Time, delay: nat): Decision {
    if sp.ending.reclaimed || !Has(sp.consumers, key) || sp.consumers[key].epoch != epoch then Refuse
    else if upTo > sp.consumers[key].offered || upTo < sp.consumers[key].ack then Refuse
    else if upTo == sp.consumers[key].ack then Keep
    else
      var projected := Folded(sp, Acknowledged(key, upTo));
      Commit([Acknowledged(key, upTo)] + PruneTo(sp, projected)
             + if projected.ending.reclaimAfter.None? && CanArm(projected) then [ReclaimArmed(at + delay)] else [])
  }

  // ---------------------------------------------------------------- the end of the stream

  ghost function MarkTerminal(sp: Spool, finalSeq: nat, at: Time, delay: nat): Decision {
    if sp.ending.reclaimed || sp.opening.None? || sp.tape.finalSeq != Some(finalSeq) then Refuse
    else if sp.ending.terminal then Keep
    else
      var projected := sp.(ending := sp.ending.(terminal := true));
      Commit([TerminalMarked(finalSeq)] + if CanArm(projected) then [ReclaimArmed(at + delay)] else [])
  }

  /** Maintenance arms a terminal stream whose readers are done. */
  function ArmIdle(sp: Spool, at: Time, delay: nat): Decision {
    if sp.ending.reclaimed || sp.opening.None? then Refuse
    else if sp.ending.terminal && sp.ending.reclaimAfter.None? && CanArm(sp) then Commit([ReclaimArmed(at + delay)])
    else Keep
  }

  /** Maintenance reclaims once the armed time has passed. */
  function ReclaimDue(sp: Spool, now: Time): Decision {
    if sp.ending.reclaimed || sp.opening.None? then Refuse
    else if sp.ending.reclaimAfter.None? || sp.ending.reclaimAfter.value > now then Keep
    else Commit([ReclaimedForGood])
  }

  // ---------------------------------------------------------------- all of them

  datatype Operation =
    | DoOpen(opening: Opening)
    | DoQualify(execution: ExecutionRef, entries: seq<Qualification>)
    | DoRevoke(key: Key)
    | DoConnect(execution: ExecutionRef, key: Key)
    | DoReconcile
    | DoDrain
    | DoAppend(execution: ExecutionRef, frame: Frame, isFinal: bool, source: Option<SourceId>, bracket: Bracket)
    | DoSubscribe(execution: ExecutionRef, key: Key, epoch: nat, after: nat, expiresAt: Option<Time>, maxFrames: nat,
                  maxBytes: nat)
    | DoAcknowledge(key: Key, epoch: nat, upTo: nat, delay: nat)
    | DoTerminal(finalSeq: nat, delay: nat)
    | DoArm(delay: nat)
    | DoReclaim(now: Time)

  ghost function Decide(sp: Spool, op: Operation, at: Time): Decision {
    match op
    case DoOpen(opening) => OpenSpool(sp, opening)
    case DoQualify(execution, entries) => Qualify(sp, execution, entries)
    case DoRevoke(key) => Revoke(sp, key)
    case DoConnect(execution, key) => Connect(sp, execution, key)
    case DoReconcile => Reconcile(sp)
    case DoDrain => Drain(sp)
    case DoAppend(execution, frame, isFinal, source, bracket) => Append(sp, execution, frame, isFinal, source, bracket)
    case DoSubscribe(execution, key, epoch, after, expiresAt, maxFrames, maxBytes) =>
      Subscribe(sp, execution, key, epoch, after, expiresAt, maxFrames, maxBytes)
    case DoAcknowledge(key, epoch, upTo, delay) => Acknowledge(sp, key, epoch, upTo, at, delay)
    case DoTerminal(finalSeq, delay) => MarkTerminal(sp, finalSeq, at, delay)
    case DoArm(delay) => ArmIdle(sp, at, delay)
    case DoReclaim(now) => ReclaimDue(sp, now)
  }
}
