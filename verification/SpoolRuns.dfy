/** What holds over every run of the spool's operations: capacity, gap-free delivery and safe reclamation. */
module SpoolRuns {
  import opened Options
  import opened LedgerRecords
  import opened SpoolState
  import opened SpoolInvariants
  import opened SpoolDecisions
  import opened SpoolSafety

  /** The kinds of record each operation commits. */
  predicate Allowed(op: Operation, r: SpoolRecord) {
    match op
    case DoOpen(_) => r.Opened?
    case DoQualify(_, _) => r.Qualified? || r.ReclaimDisarmed?
    case DoRevoke(key) => r == Revoked(key) || r.Pruned?
    case DoConnect(_, key) => r.Connected?
    case DoReconcile => r.Degraded? || r.Pruned?
    case DoDrain => r.Deleted?
    case DoAppend(_, _, _, _, _) => r.FrameStored? || r.Degraded?
    case DoSubscribe(_, key, _, _, _, _, _) => (r.Offered? && r.key == key) || r.ReclaimDisarmed?
    case DoAcknowledge(key, _, _, _) => (r.Acknowledged? && r.key == key) || r.Pruned? || r.ReclaimArmed?
    case DoTerminal(_, _) => r.TerminalMarked? || r.ReclaimArmed?
    case DoArm(_) => r.ReclaimArmed?
    case DoReclaim(_) => r.ReclaimedForGood?
  }

  lemma {:induction false} DegradationKinds(order: seq<Key>)
    ensures forall r :: r in Degradations(order) ==> r.Degraded?
  {
    if order != [] { DegradationKinds(order[1..]); }
  }

  lemma {:induction false} QualificationKinds(cs: Consumers, entries: seq<Qualification>)
    ensures forall r :: r in Qualifications(cs, entries) ==> r.Qualified?
  {
    if entries != [] { QualificationKinds(cs, entries[1..]); }
  }

  lemma BatchKinds(sp: Spool, op: Operation, at: Time)
    ensures var d := Decide(sp, op, at);
            d.Commit? ==> forall r :: r in d.batch ==> Allowed(op, r)
  {
    match op
    case DoQualify(_, entries) => QualificationKinds(sp.consumers, entries);
    case DoReconcile => DegradationKinds(Ordered(SlowKeys(sp, {})));
    case DoAppend(_, frame, _, _, _) => DegradationKinds(Ordered(SlowKeys(sp, frame.artifacts)));
    case _ =>
  }

  /** The state after an operation; a commit that the reducer refuses changes nothing. */
  ghost function Next(sp: Spool, op: Operation, at: Time): Spool {
    var d := Decide(sp, op, at);
    if d.Commit? && ReduceAll(sp, d.batch, at).Some? then ReduceAll(sp, d.batch, at).value else sp
  }

  // ---------------------------------------------------------------- capacity

  ghost predicate WithinCapacity(sp: Spool) {
    sp.opening.Some? ==> sp.store.retained <= sp.opening.value.capacity
  }

  lemma RetainedStep(sp: Spool, r: SpoolRecord, at: Time)
    requires Acceptable(sp, r, at) && !r.FrameStored?
    ensures Folded(sp, r).store.retained <= sp.store.retained
    ensures !r.Opened? ==> Folded(sp, r).opening == sp.opening
  {
  }

  lemma {:induction false} RetainedBatch(sp: Spool, batch: seq<SpoolRecord>, at: Time)
    requires ReduceAll(sp, batch, at).Some? && (forall r :: r in batch ==> !r.FrameStored? && !r.Opened?)
    ensures var after := ReduceAll(sp, batch, at).value;
            after.store.retained <= sp.store.retained && after.opening == sp.opening
    decreases |batch|
  {
    if batch != [] {
      assert batch[0] in batch && forall r :: r in batch[1..] ==> r in batch;
      RetainedStep(sp, batch[0], at);
      RetainedBatch(Folded(sp, batch[0]), batch[1..], at);
    }
  }

  lemma CapacityKept(sp: Spool, op: Operation, at: Time)
    requires Inv(sp) && WithinCapacity(sp) && CallerKeeps(sp, op)
    ensures WithinCapacity(Next(sp, op, at))
  {
    var d := Decide(sp, op, at);
    if d.Commit? && ReduceAll(sp, d.batch, at).Some? {
      BatchKinds(sp, op, at);
      if op.DoOpen? {
        ReduceOne(sp, d.batch[0], at);
      } else if op.DoAppend? {
        AppendCapacity(sp, op, at);
      } else {
        RetainedBatch(sp, d.batch, at);
      }
    }
  }

  lemma AppendCapacity(sp: Spool, op: Operation, at: Time)
    requires Inv(sp) && WithinCapacity(sp) && op.DoAppend? && CallerKeeps(sp, op) && Decide(sp, op, at).Commit?
    ensures WithinCapacity(Next(sp, op, at))
  {
    AppendAccepted(sp, op.execution, op.frame, op.isFinal, op.source, op.bracket, at);
    assert op.frame.artifacts - sp.store.counts.Keys - sp.store.deleting == op.frame.artifacts - sp.store.counts.Keys;
    OpeningKept(sp, Decide(sp, op, at).batch, at);
  }

  lemma {:induction false} OpeningKept(sp: Spool, batch: seq<SpoolRecord>, at: Time)
    requires ReduceAll(sp, batch, at).Some? && sp.opening.Some?
    ensures ReduceAll(sp, batch, at).value.opening == sp.opening
    decreases |batch|
  {
    if batch != [] { OpeningKept(Folded(sp, batch[0]), batch[1..], at); }
  }

  // ---------------------------------------------------------------- reclamation

  /** Readers are done: all active ones of a conversation, the active surface readers of a job. */
  predicate ReadersDone(sp: Spool) {
    sp.tape.finalSeq.Some? &&
    if sp.IsJob() then SurfacesDone(sp.consumers, sp.tape.finalSeq.value)
    else AllDone(sp.consumers, sp.tape.finalSeq.value)
  }

  /** A set timer means a terminal stream whose readers are done. */
  ghost predicate TimerSafe(sp: Spool) {
    sp.ending.reclaimAfter.Some? ==> sp.ending.terminal && ReadersDone(sp)
  }

  /** Only qualifying a consumer can make a reader that is not done. */
  lemma TimerStep(sp: Spool, r: SpoolRecord, at: Time)
    requires Inv(sp) && Acceptable(sp, r, at) && TimerSafe(sp) && !r.Qualified?
    ensures TimerSafe(Folded(sp, r))
  {
  }

  lemma {:induction false} TimerBatch(sp: Spool, batch: seq<SpoolRecord>, at: Time)
    requires Inv(sp) && TimerSafe(sp) && ReduceAll(sp, batch, at).Some? && (forall r :: r in batch ==> !r.Qualified?)
    ensures TimerSafe(ReduceAll(sp, batch, at).value)
    decreases |batch|
  {
    if batch != [] {
      assert batch[0] in batch && forall r :: r in batch[1..] ==> r in batch;
      TimerStep(sp, batch[0], at);
      StepKeepsInv(sp, batch[0], at);
      TimerBatch(Folded(sp, batch[0]), batch[1..], at);
    }
  }

  /** Without a reader among them, the qualified consumers leave everyone done. */
  lemma QualifiedStillDone(cs: Consumers, entries: seq<Qualification>, finalSeq: nat, key: Key)
    requires DistinctEntries(entries) && FirstReader(cs, entries, Some(finalSeq)).None?
    requires key in QualifiedAll(cs, cs, entries) && QualifiedAll(cs, cs, entries)[key].Active()
    requires key in cs && cs[key].Active() ==> cs[key].ack >= finalSeq
    ensures QualifiedAll(cs, cs, entries)[key].ack >= finalSeq
  {
    FirstReaderIs(cs, entries, Some(finalSeq));
    QualifiedAllShape(cs, cs, entries, key);
  }

  /** A qualification that brings in a reader disarms the timer in the same commit. */
  lemma QualifyTimer(sp: Spool, execution: ExecutionRef, entries: seq<Qualification>, at: Time)
    requires Inv(sp) && TimerSafe(sp)
    ensures TimerSafe(Next(sp, DoQualify(execution, entries), at))
  {
    var d := Qualify(sp, execution, entries);
    if d.Commit? {
      var records := Qualifications(sp.consumers, entries);
      QualificationsAccepted(sp, sp.consumers, entries, at);
      var after := sp.(consumers := QualifiedAll(sp.consumers, sp.consumers, entries));
      if sp.ending.reclaimAfter.Some? {
        var reader := FirstReader(sp.consumers, entries, sp.tape.finalSeq);
        if reader.Some? {
          ReaderCanDisarm(sp.consumers, entries, sp.tape.finalSeq.value, reader.value);
          ReduceOne(after, ReclaimDisarmed(reader.value), at);
          ReduceConcat(sp, records, [ReclaimDisarmed(reader.value)], at);
        } else {
          assert records + [] == records;
          StillDone(sp, after, entries);
        }
      } else {
        assert records + [] == records;
      }
    }
  }

  lemma StillDone(sp: Spool, after: Spool, entries: seq<Qualification>)
    requires ReadersDone(sp) && DistinctEntries(entries) && FirstReader(sp.consumers, entries, sp.tape.finalSeq).None?
    requires after == sp.(consumers := QualifiedAll(sp.consumers, sp.consumers, entries))
    ensures ReadersDone(after)
  {
    var finalSeq := sp.tape.finalSeq.value;
    forall key | key in after.consumers && after.consumers[key].Active() && (sp.IsJob() ==> key.SurfaceTicket?)
      ensures after.consumers[key].ack >= finalSeq
    {
      QualifiedStillDone(sp.consumers, entries, finalSeq, key);
    }
  }

  lemma TimerKept(sp: Spool, op: Operation, at: Time)
    requires Inv(sp) && TimerSafe(sp)
    ensures TimerSafe(Next(sp, op, at))
  {
    if op.DoQualify? {
      QualifyTimer(sp, op.execution, op.entries, at);
    } else {
      BatchKinds(sp, op, at);
      TimerNext(sp, op, at, Decide(sp, op, at));
    }
  }

  lemma TimerNext(sp: Spool, op: Operation, at: Time, d: Decision)
    requires Inv(sp) && TimerSafe(sp) && d == Decide(sp, op, at)
             && (d.Commit? ==> forall r :: r in d.batch ==> !r.Qualified?)
    ensures TimerSafe(Next(sp, op, at))
  {
    if d.Commit? && ReduceAll(sp, d.batch, at).Some? { TimerBatch(sp, d.batch, at); }
  }

  // ---------------------------------------------------------------- whole runs

  datatype Event = Event(op: Operation, at: Time)

  ghost function Run(sp: Spool, events: seq<Event>): Spool
    decreases |events|
  {
    if events == [] then sp else Run(Next(sp, events[0].op, events[0].at), events[1..])
  }

  /** Appends are bracketed and follow the drain, delays are positive, and reclaiming comes last. */
  ghost predicate Disciplined(sp: Spool, events: seq<Event>)
    decreases |events|
  {
    events == [] || (CallerKeeps(sp, events[0].op) && Disciplined(Next(sp, events[0].op, events[0].at), events[1..]))
  }

  ghost predicate Good(sp: Spool) { Inv(sp) && WithinCapacity(sp) && TimerSafe(sp) && !sp.ending.reclaimed }

  lemma GoodNext(sp: Spool, op: Operation, at: Time)
    requires Good(sp) && CallerKeeps(sp, op)
    ensures Good(Next(sp, op, at))
  {
    var d := Decide(sp, op, at);
    CapacityKept(sp, op, at);
    TimerKept(sp, op, at);
    BatchKinds(sp, op, at);
    if d.Commit? && ReduceAll(sp, d.batch, at).Some? {
      BatchKeepsInv(sp, d.batch, at);
      NotReclaimed(sp, d.batch, at);
    }
  }

  lemma {:induction false} NotReclaimed(sp: Spool, batch: seq<SpoolRecord>, at: Time)
    requires ReduceAll(sp, batch, at).Some? && !sp.ending.reclaimed && (forall r :: r in batch ==> !r.ReclaimedForGood?)
    ensures !ReduceAll(sp, batch, at).value.ending.reclaimed
    decreases |batch|
  {
    if batch != [] {
      assert batch[0] in batch && forall r :: r in batch[1..] ==> r in batch;
      NotReclaimed(Folded(sp, batch[0]), batch[1..], at);
    }
  }

  /** Every reachable spool: artifact counts exact, bytes conserved and within capacity, frames exactly the
      unpruned part of the tape, and a set timer never ahead of a reader. */
  lemma {:induction false} ReachableGood(sp: Spool, events: seq<Event>)
    requires Good(sp) && Disciplined(sp, events)
    ensures Good(Run(sp, events))
    decreases |events|
  {
    if events != [] {
      GoodNext(sp, events[0].op, events[0].at);
      ReachableGood(Next(sp, events[0].op, events[0].at), events[1..]);
    }
  }

  lemma FreshGood(id: AssignmentId)
    ensures Good(Fresh(id))
  {
    FreshInv(id);
  }

  /** In every run from a fresh spool, no operation commits anything the reducer refuses. */
  lemma RunsNeverCorrupt(id: AssignmentId, events: seq<Event>, op: Operation, at: Time)
    requires Disciplined(Fresh(id), events) && CallerKeeps(Run(Fresh(id), events), op)
    ensures Accepted(Run(Fresh(id), events), Decide(Run(Fresh(id), events), op, at), at)
  {
    FreshGood(id);
    ReachableGood(Fresh(id), events);
    NeverCorrupt(Run(Fresh(id), events), op, at);
  }

  // ---------------------------------------------------------------- reclaiming

  /** A due conversation is reclaimed, and no active consumer loses a frame it has not acknowledged. */
  lemma ConversationReclaimed(sp: Spool, now: Time, at: Time)
    requires Good(sp) && !sp.IsJob() && sp.store.deleting == {} && at >= now && ReclaimDue(sp, now).Commit?
    ensures Accepted(sp, ReclaimDue(sp, now), at)
    ensures forall key :: key in sp.consumers && sp.consumers[key].Active() ==> sp.consumers[key].ack == sp.tape.lastSeq
  {
    ReduceOne(sp, ReclaimedForGood, at);
  }

  /** A due job is reclaimed exactly if its relay has acknowledged the final frame or no interaction is open. */
  lemma JobReclaimedIff(sp: Spool, now: Time, at: Time)
    requires Good(sp) && sp.IsJob() && sp.store.deleting == {} && at >= now && ReclaimDue(sp, now).Commit?
    ensures Accepted(sp, ReclaimDue(sp, now), at) <==>
              RelayDone(sp.consumers, sp.tape.finalSeq.value) || sp.tape.asking == {}
  {
    ReduceOne(sp, ReclaimedForGood, at);
  }

  /** Revoking the relay of an armed job with an open interaction leaves the timer set, and what it then commits
      is refused. */
  lemma RevokedRelayBlocksReclaim(sp: Spool, now: Time, revokedAt: Time, at: Time)
    requires Good(sp) && sp.IsJob() && sp.ending.reclaimAfter.Some? && RelayActive(sp.consumers) && sp.tape.asking != {}
    requires now >= sp.ending.reclaimAfter.value
    ensures var after := Next(sp, DoRevoke(OwnerRelay), revokedAt);
            && after.ending.reclaimAfter == sp.ending.reclaimAfter
            && ReclaimDue(after, now).Commit? && !Accepted(after, ReclaimDue(after, now), at)
  {
    OpenWhenUsed(sp, OwnerRelay);
    RevokeLeaves(sp, OwnerRelay, revokedAt);
    OpeningKept(sp, Revoke(sp, OwnerRelay).batch, revokedAt);
    ReduceOne(Next(sp, DoRevoke(OwnerRelay), revokedAt), ReclaimedForGood, at);
  }

  // ---------------------------------------------------------------- nothing is kept back

  /** Revoking a consumer releases what only it was keeping. */
  lemma RevokeLeaves(sp: Spool, key: Key, at: Time)
    requires Inv(sp) && Revoke(sp, key).Commit?
    ensures var after := Next(sp, DoRevoke(key), at);
            && after.consumers == sp.consumers[key := sp.consumers[key].(qualified := false)]
            && after.store.pruned == RetentionFloor(Folded(sp, Revoked(key)))
            && after.tape == sp.tape && after.ending == sp.ending
  {
    var r := Revoked(key);
    var projected := Folded(sp, r);
    OpenWhenUsed(sp, key);
    StepKeepsInv(sp, r, at);
    PruneAccepted(sp, projected, at);
    ReduceOne(sp, r, at);
    ReduceConcat(sp, [r], PruneTo(sp, projected), at);
  }

  /** What a read returns is offered, so the consumer may acknowledge all of it. */
  lemma ReadIsOffered(sp: Spool, op: Operation, at: Time)
    requires Inv(sp) && op.DoSubscribe? && MayRead(sp, op.execution, op.key, op.epoch, op.after, op.expiresAt)
    ensures var upTo, offered := ReadUpTo(sp, op.after, op.maxFrames, op.maxBytes), sp.consumers[op.key].offered;
            var after := Next(sp, op, at);
            && op.key in after.consumers && after.consumers[op.key].qualified
               && after.consumers[op.key].epoch == op.epoch
            && after.consumers[op.key].offered == if upTo > offered then upTo else offered
  {
    var d := Decide(sp, op, at);
    if d.Commit? {
      SubscribeAccepted(sp, op, at);
      var first := Folded(sp, d.batch[0]);
      ReduceOne(sp, d.batch[0], at);
      if |d.batch| == 2 {
        assert d.batch == [d.batch[0]] + [d.batch[1]];
        ReduceConcat(sp, [d.batch[0]], [d.batch[1]], at);
        ReduceOne(first, d.batch[1], at);
      } else {
        assert d.batch == [d.batch[0]];
      }
    }
  }

  // ---------------------------------------------------------------- delivery without gaps

  /** Where no sequence is absent, a read is a run without a gap, and it is not empty if there is anything to read. */
  lemma {:induction false} DenseRead(frames: map<nat, Frame>, s: nat, last: nat, taken: nat, bytes: nat,
      maxFrames: nat, maxBytes: nat)
    requires forall k :: s <= k <= last ==> k in frames
    ensures var read := FramesFrom(frames, s, last, taken, bytes, maxFrames, maxBytes);
            && (forall i :: 0 <= i < |read| ==> read[i] == s + i)
            && (taken == 0 && s <= last ==> read != [])
    decreases last + 1 - s
  {
    if s <= last && !(taken > 0 && (taken >= maxFrames || bytes + frames[s].body.bytes > maxBytes)) {
      DenseRead(frames, s + 1, last, taken + 1, bytes + frames[s].body.bytes, maxFrames, maxBytes);
    }
  }

  /** A read at or above the prune line returns exactly the frames from the acknowledgement to its end, none missing,
      and makes progress if there is anything to read. */
  lemma ReadIsContiguous(sp: Spool, after: nat, maxFrames: nat, maxBytes: nat)
    requires Inv(sp) && after >= sp.store.pruned
    ensures var read, upTo := ReadFrames(sp, after, maxFrames, maxBytes), ReadUpTo(sp, after, maxFrames, maxBytes);
            && |read| == upTo - after
            && (forall i :: 0 <= i < |read| ==> read[i] == after + 1 + i)
            && (after < sp.tape.lastSeq ==> upTo > after)
  {
    DenseRead(sp.store.frames, after + 1, sp.tape.lastSeq, 0, 0, maxFrames, maxBytes);
  }

  /** Behind nothing, or no longer active. */
  ghost predicate WholeUnlessGone(sp: Spool, key: Key) {
    key in sp.consumers && (sp.consumers[key].Active() ==> sp.consumers[key].ack >= sp.store.pruned)
  }

  lemma {:induction false} WholeBatch(sp: Spool, batch: seq<SpoolRecord>, at: Time, key: Key)
    requires Inv(sp) && ReduceAll(sp, batch, at).Some? && WholeUnlessGone(sp, key)
             && (forall r :: r in batch ==> !r.Qualified?)
    ensures WholeUnlessGone(ReduceAll(sp, batch, at).value, key)
    decreases |batch|
  {
    if batch != [] {
      assert batch[0] in batch && forall r :: r in batch[1..] ==> r in batch;
      StepKeepsInv(sp, batch[0], at);
      if sp.consumers[key].Active() && batch[0] != Revoked(key) && batch[0] != Degraded(key) {
        WholeStep(sp, batch[0], at, key);
      }
      WholeBatch(Folded(sp, batch[0]), batch[1..], at, key);
    }
  }

  /** A consumer that could read everything keeps that through every operation, as long as it stays qualified and
      undegraded. */
  lemma WholeNext(sp: Spool, op: Operation, at: Time, key: Key)
    requires Inv(sp) && Whole(sp, key)
    ensures var after := Next(sp, op, at);
            key in after.consumers && (after.consumers[key].Active() ==> Whole(after, key))
  {
    var d := Decide(sp, op, at);
    BatchKinds(sp, op, at);
    if d.Commit? && ReduceAll(sp, d.batch, at).Some? {
      if op.DoQualify? {
        WholeForever(sp, d.batch, at, key);
      } else {
        WholeBatch(sp, d.batch, at, key);
      }
    }
  }

  /** The frames an operation hands to the consumer. */
  ghost function Handed(sp: Spool, op: Operation, key: Key): set<nat> {
    if op.DoSubscribe? && op.key == key && MayRead(sp, op.execution, key, op.epoch, op.after, op.expiresAt)
    then set s | s in ReadFrames(sp, op.after, op.maxFrames, op.maxBytes)
    else {}
  }

  /** What is handed over reaches from the acknowledgement to the end of the read. */
  lemma HandedIsContiguous(sp: Spool, op: Operation, key: Key, s: nat)
    requires Inv(sp) && op.DoSubscribe? && op.key == key
             && MayRead(sp, op.execution, key, op.epoch, op.after, op.expiresAt)
    ensures s in Handed(sp, op, key) <==> op.after < s <= ReadUpTo(sp, op.after, op.maxFrames, op.maxBytes)
  {
    ReadIsContiguous(sp, op.after, op.maxFrames, op.maxBytes);
    var read := ReadFrames(sp, op.after, op.maxFrames, op.maxBytes);
    if op.after < s <= ReadUpTo(sp, op.after, op.maxFrames, op.maxBytes) { assert read[s - op.after - 1] == s; }
  }

  /** Everything offered since `start` has been handed over. */
  ghost predicate HandedOver(sp: Spool, key: Key, start: nat, handed: set<nat>) {
    key in sp.consumers && start <= sp.consumers[key].ack
    && (forall s :: start < s <= sp.consumers[key].offered ==> s in handed)
  }

  lemma OfferedStep(sp: Spool, r: SpoolRecord, at: Time, key: Key)
    requires Acceptable(sp, r, at) && key in sp.consumers && !(r.Offered? && r.key == key)
    ensures key in Folded(sp, r).consumers
    ensures Folded(sp, r).consumers[key].offered == sp.consumers[key].offered
            && Folded(sp, r).consumers[key].ack >= sp.consumers[key].ack
  {
  }

  lemma {:induction false} OfferedBatch(sp: Spool, batch: seq<SpoolRecord>, at: Time, key: Key)
    requires ReduceAll(sp, batch, at).Some? && key in sp.consumers
             && (forall r :: r in batch ==> !(r.Offered? && r.key == key))
    ensures var after := ReduceAll(sp, batch, at).value;
            key in after.consumers && after.consumers[key].offered == sp.consumers[key].offered
            && after.consumers[key].ack >= sp.consumers[key].ack
    decreases |batch|
  {
    if batch != [] {
      assert batch[0] in batch && forall r :: r in batch[1..] ==> r in batch;
      OfferedStep(sp, batch[0], at, key);
      OfferedBatch(Folded(sp, batch[0]), batch[1..], at, key);
    }
  }

  lemma ReadHandsOver(sp: Spool, op: Operation, at: Time, key: Key, start: nat, handed: set<nat>)
    requires Inv(sp) && op.DoSubscribe? && op.key == key && HandedOver(sp, key, start, handed)
    requires Decide(sp, op, at).Commit?
    ensures HandedOver(Next(sp, op, at), key, start, handed + Handed(sp, op, key))
  {
    var d := Decide(sp, op, at);
    SubscribeAccepted(sp, op, at);
    var upTo := ReadUpTo(sp, op.after, op.maxFrames, op.maxBytes);
    forall s: nat ensures s in Handed(sp, op, key) <==> op.after < s <= upTo { HandedIsContiguous(sp, op, key, s); }
    if upTo > sp.consumers[key].offered {
      var r := Offered(key, upTo);
      var next := Folded(sp, r);
      assert d.batch[0] == r && d.batch[1..] == if |d.batch| == 2 then [d.batch[1]] else [];
      OfferedBatch(next, d.batch[1..], at, key);
    } else {
      OfferedBatch(sp, d.batch, at, key);
    }
  }

  lemma HandedStep(sp: Spool, op: Operation, at: Time, key: Key, start: nat, handed: set<nat>)
    requires Inv(sp) && HandedOver(sp, key, start, handed)
    ensures HandedOver(Next(sp, op, at), key, start, handed + Handed(sp, op, key))
  {
    var d := Decide(sp, op, at);
    if d.Commit? && ReduceAll(sp, d.batch, at).Some? {
      if op.DoSubscribe? && op.key == key {
        ReadHandsOver(sp, op, at, key, start, handed);
      } else {
        BatchKinds(sp, op, at);
        OfferedBatch(sp, d.batch, at, key);
      }
    }
  }

  ghost function HandedIn(sp: Spool, events: seq<Event>, key: Key): set<nat>
    decreases |events|
  {
    if events == [] then {}
    else Handed(sp, events[0].op, key) + HandedIn(Next(sp, events[0].op, events[0].at), events[1..], key)
  }

  /** Over any run, through any number of reconnections, whatever a consumer has acknowledged beyond its starting
      point was handed to it: the acknowledged frames have no gap. */
  lemma {:induction false} AcknowledgedWithoutGap(sp: Spool, events: seq<Event>, key: Key, start: nat, handed: set<nat>)
    requires Good(sp) && Disciplined(sp, events) && HandedOver(sp, key, start, handed)
    ensures var after := Run(sp, events);
            && key in after.consumers
            && forall s :: start < s <= after.consumers[key].ack ==> s in handed + HandedIn(sp, events, key)
    decreases |events|
  {
    if events == [] {
      assert Waterlines(sp.consumers, sp.tape.lastSeq);
    } else {
      var op, at := events[0].op, events[0].at;
      HandedStep(sp, op, at, key, start, handed);
      GoodNext(sp, op, at);
      AcknowledgedWithoutGap(Next(sp, op, at), events[1..], key, start, handed + Handed(sp, op, key));
      var rest := HandedIn(Next(sp, op, at), events[1..], key);
      assert (handed + Handed(sp, op, key)) + rest == handed + HandedIn(sp, events, key);
    }
  }
}
