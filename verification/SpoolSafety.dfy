/** Decisions never corrupt the spool log, never exceed its capacity, and cannot be stalled by surface readers. */
module SpoolSafety {
  import opened Options
  import opened LedgerRecords
  import opened ArtifactSizes
  import opened SpoolState
  import opened SpoolInvariants
  import opened SpoolDecisions

  ghost predicate Accepted(sp: Spool, d: Decision, at: Time) {
    d.Commit? ==> ReduceAll(sp, d.batch, at).Some?
  }

  // ---------------------------------------------------------------- pruning

  /** Moving the line to the retention floor of a state that differs only in its consumers is accepted there. */
  lemma PruneAccepted(sp: Spool, projected: Spool, at: Time)
    requires Inv(projected) && projected.store == sp.store && projected.tape == sp.tape
             && projected.opening == sp.opening
    requires projected.opening.Some? && !projected.ending.reclaimed
    ensures ReduceAll(projected, PruneTo(sp, projected), at).Some?
    ensures var after := ReduceAll(projected, PruneTo(sp, projected), at).value;
            && after.consumers == projected.consumers && after.tape == projected.tape
               && after.ending == projected.ending
            && after.opening == projected.opening && after.store.retained == sp.store.retained
            && after.store.pruned == RetentionFloor(projected)
            && (forall s :: s in after.store.frames <==> s in sp.store.frames && s > RetentionFloor(projected))
            && (forall s :: s in after.store.frames ==> after.store.frames[s] == sp.store.frames[s])
  {
    FloorBounds(projected);
    var through := RetentionFloor(projected);
    if through > sp.store.pruned {
      PruneConsistent(sp.store, through);
      ReduceOne(projected, Pruned(through, ReleasedBy(sp.store.counts, Through(sp.store.frames, through))), at);
    } else {
      assert forall s :: s in sp.store.frames ==> s > through;
    }
  }

  lemma RevokeAccepted(sp: Spool, key: Key, at: Time)
    requires Inv(sp)
    ensures Accepted(sp, Revoke(sp, key), at)
  {
    if Revoke(sp, key).Commit? {
      var r := Revoked(key);
      var projected := Folded(sp, r);
      assert sp.opening.Some?;
      StepKeepsInv(sp, r, at);
      PruneAccepted(sp, projected, at);
      ReduceOne(sp, r, at);
      ReduceConcat(sp, [r], PruneTo(sp, projected), at);
    }
  }

  lemma {:induction false} DegradeAccepted(sp: Spool, order: seq<Key>, at: Time)
    requires Inv(sp) && sp.opening.Some? && !sp.ending.reclaimed
    requires forall i ::
               0 <= i < |order| ==>
                 order[i] in sp.consumers && sp.consumers[order[i]].Active() && order[i].SurfaceTicket?
    requires forall i, j :: 0 <= i < j < |order| ==> order[i] != order[j]
    ensures ReduceAll(sp, Degradations(order), at) == Some(WithDegraded(sp, order))
    ensures var after := WithDegraded(sp, order);
            && Inv(after) && after.store == sp.store && after.tape == sp.tape && after.opening == sp.opening
               && after.ending == sp.ending
            && after.consumers.Keys == sp.consumers.Keys
            && (forall key ::
                 key in sp.consumers ==>
                   after.consumers[key] == if key in order then sp.consumers[key].(degraded := true)
                   else sp.consumers[key])
    decreases |order|
  {
    if order != [] {
      var r := Degraded(order[0]);
      StepKeepsInv(sp, r, at);
      var next := Folded(sp, r);
      assert next == sp.(consumers := ConsumersAfter(sp.consumers, r));
      assert Degradations(order)[1..] == Degradations(order[1..]);
      DegradeAccepted(next, order[1..], at);
      assert forall key :: key in order <==> key == order[0] || key in order[1..];
    }
  }

  lemma SlowListed(sp: Spool, extra: set<Artifact>)
    ensures var order := Ordered(SlowKeys(sp, extra));
            && (forall i ::
                 0 <= i < |order| ==>
                   order[i] in sp.consumers && sp.consumers[order[i]].Active() && order[i].SurfaceTicket?)
            && (forall key :: key in order <==> key in sp.consumers && Slow(sp, key, extra))
  {
    var order := Ordered(SlowKeys(sp, extra));
    forall i | 0 <= i < |order| ensures order[i] in sp.consumers && Slow(sp, order[i], extra) {
      assert order[i] in order;
    }
  }

  lemma ReconcileAccepted(sp: Spool, at: Time)
    requires Inv(sp) && !sp.ending.reclaimed
    ensures Accepted(sp, Reconcile(sp), at)
    ensures sp.opening.Some? ==>
              var slow := Ordered(SlowKeys(sp, {}));
              var batch := Degradations(slow) + PruneTo(sp, WithDegraded(sp, slow));
              && ReduceAll(sp, batch, at).Some?
              && Reconcile(sp) == if batch == [] then Keep else Commit(batch)
  {
    if sp.opening.Some? {
      var slow := Ordered(SlowKeys(sp, {}));
      SlowListed(sp, {});
      DegradeAccepted(sp, slow, at);
      PruneAccepted(sp, WithDegraded(sp, slow), at);
      ReduceConcat(sp, Degradations(slow), PruneTo(sp, WithDegraded(sp, slow)), at);
    }
  }

  // ---------------------------------------------------------------- surface readers cannot stall the producer

  /** What a reconciliation, with its pending deletions carried out, leaves behind. */
  ghost function Reconciled(sp: Spool, at: Time): Spool
    requires Inv(sp) && sp.opening.Some? && !sp.ending.reclaimed
  {
    ReconcileAccepted(sp, at);
    var slow := Ordered(SlowKeys(sp, {}));
    var after := ReduceAll(sp, Degradations(slow) + PruneTo(sp, WithDegraded(sp, slow)), at).value;
    after.(store := DeleteFrom(after.store, after.store.deleting))
  }

  lemma ReconciledShape(sp: Spool, at: Time)
    requires Inv(sp) && sp.opening.Some? && !sp.ending.reclaimed
    ensures var slow := Ordered(SlowKeys(sp, {}));
            var degraded, after := WithDegraded(sp, slow), Reconciled(sp, at);
            && Inv(after) && after.opening == sp.opening && after.store.deleting == {}
               && after.consumers == degraded.consumers
            && after.tape == sp.tape && after.ending == sp.ending && degraded.tape == sp.tape
               && degraded.opening == sp.opening
            && degraded.consumers.Keys == sp.consumers.Keys
            && (forall key :: key in sp.consumers ==>
                  degraded.consumers[key] == if Slow(sp, key, {}) then sp.consumers[key].(degraded := true)
                  else sp.consumers[key])
            && (forall s :: s in after.store.frames <==> s in sp.store.frames && s > RetentionFloor(degraded))
            && (forall s :: s in after.store.frames ==> after.store.frames[s] == sp.store.frames[s])
            && after.store.pruned == RetentionFloor(degraded)
  {
    var slow := Ordered(SlowKeys(sp, {}));
    var batch := Degradations(slow) + PruneTo(sp, WithDegraded(sp, slow));
    ReconcileAccepted(sp, at);
    BatchKeepsInv(sp, batch, at);
    SlowListed(sp, {});
    DegradeAccepted(sp, slow, at);
    PruneAccepted(sp, WithDegraded(sp, slow), at);
    ReduceConcat(sp, Degradations(slow), PruneTo(sp, WithDegraded(sp, slow)), at);
    var pruned := ReduceAll(sp, batch, at).value;
    DeleteKeepsStore(pruned.store, pruned.tape.lastSeq, pruned.store.deleting);
  }

  /** Every live artifact is used by some retained frame. */
  lemma LiveUsed(frames: map<nat, Frame>, counts: map<Artifact, nat>, a: Artifact)
    requires CountsExact(frames, counts) && a in counts
    ensures exists s :: s in frames && a in frames[s].artifacts
  {
    assert Users(frames, a) != {};
    var s :| s in Users(frames, a);
  }

  lemma LiveWithinLag(frames: map<nat, Frame>, kept: map<nat, Frame>, counts: map<Artifact, nat>, low: nat)
    requires CountsExact(kept, counts)
    requires forall s :: s in kept ==> s in frames && s > low && kept[s] == frames[s]
    ensures Sum(counts.Keys) <= Sum(Lag(frames, low))
  {
    forall a | a in counts.Keys ensures a in Lag(frames, low) {
      LiveUsed(kept, counts, a);
    }
    SumSubset(counts.Keys, Lag(frames, low));
  }

  lemma NothingLive(kept: map<nat, Frame>, counts: map<Artifact, nat>)
    requires CountsExact(kept, counts) && (forall s :: s !in kept)
    ensures Sum(counts.Keys) == 0
  {
    assert forall a :: Users(kept, a) == {};
    assert counts.Keys == {};
  }

  /** The active reader that lags most is, after degradation, within half the capacity. */
  lemma LowestWithinHalf(sp: Spool, degraded: Consumers)
    requires sp.opening.Some? && AnyActive(degraded) && degraded.Keys == sp.consumers.Keys
    requires forall key ::
               key in sp.consumers ==> degraded[key] == if Slow(sp, key, {}) then sp.consumers[key].(degraded := true)
               else sp.consumers[key]
    requires forall key :: key in sp.consumers && sp.consumers[key].Active() ==> key.SurfaceTicket?
    ensures 2 * Sum(Lag(sp.store.frames, LowestAck(degraded, degraded.Keys))) <= sp.opening.value.capacity
  {
    var low := LowestAck(degraded, degraded.Keys);
    var key :| key in degraded && degraded[key].Active() && degraded[key].ack == low;
    assert Lag(sp.store.frames, low) + {} == Lag(sp.store.frames, low);
    assert !Slow(sp, key, {});
  }

  /** Surface readers alone cannot keep more than half the capacity: the slow ones are degraded, the others have
      acknowledged enough. */
  lemma HalfRemainsFree(sp: Spool, at: Time)
    requires Inv(sp) && sp.opening.Some? && !sp.ending.reclaimed && !sp.IsJob() && sp.consumers != map[]
    requires forall key :: key in sp.consumers && sp.consumers[key].Active() ==> key.SurfaceTicket?
    ensures 2 * Reconciled(sp, at).store.retained <= sp.opening.value.capacity
  {
    ReconciledShape(sp, at);
    var degraded, after := WithDegraded(sp, Ordered(SlowKeys(sp, {}))), Reconciled(sp, at);
    assert after.store.counts.Keys + after.store.deleting == after.store.counts.Keys;
    FloorOfConversation(sp, degraded);
    if AnyActive(degraded.consumers) {
      LowestWithinHalf(sp, degraded.consumers);
      LiveWithinLag(sp.store.frames, after.store.frames, after.store.counts,
                    LowestAck(degraded.consumers, degraded.consumers.Keys));
    } else {
      NothingLive(after.store.frames, after.store.counts);
    }
  }

  lemma FloorOfConversation(sp: Spool, degraded: Spool)
    requires !sp.IsJob() && degraded.opening == sp.opening && degraded.tape == sp.tape && degraded.consumers != map[]
    ensures AnyActive(degraded.consumers) ==>
              RetentionFloor(degraded) >= LowestAck(degraded.consumers, degraded.consumers.Keys)
    ensures !AnyActive(degraded.consumers) ==> RetentionFloor(degraded) == sp.tape.lastSeq
  {
  }

  /** So an append that needs at most half the capacity is never refused as full. */
  lemma ProducerNotStalled(sp: Spool, at: Time, frame: Frame, isFinal: bool, source: Option<SourceId>, bracket: Bracket)
    requires Inv(sp) && sp.opening.Some? && !sp.ending.reclaimed && !sp.IsJob() && sp.consumers != map[]
    requires forall key :: key in sp.consumers && sp.consumers[key].Active() ==> key.SurfaceTicket?
    requires 2 * Required(Reconciled(sp, at).store, frame) <= sp.opening.value.capacity
    ensures Append(Reconciled(sp, at), sp.opening.value.execution, frame, isFinal, source, bracket) != Full
  {
    HalfRemainsFree(sp, at);
    ReconciledShape(sp, at);
  }

  // ---------------------------------------------------------------- every other decision is accepted

  ghost predicate Qualifiable(sp: Spool) { sp.opening.Some? && !sp.ending.reclaimed }

  /** The consumers after qualifying a list; which entries are skipped was decided on `base`. */
  function QualifiedAll(cs: Consumers, base: Consumers, entries: seq<Qualification>): Consumers
    decreases |entries|
  {
    if entries == [] then cs
    else
      var q := entries[0];
      QualifiedAll(if AlreadyHeld(base, q) then cs
      else cs[q.key := QualifiedConsumer(cs, q.key, q.expiresAt)], base, entries[1..])
  }

  lemma {:induction false} QualificationsAccepted(sp: Spool, base: Consumers, entries: seq<Qualification>, at: Time)
    requires Inv(sp) && Qualifiable(sp)
    ensures ReduceAll(sp, Qualifications(base, entries), at) ==
              Some(sp.(consumers := QualifiedAll(sp.consumers, base, entries)))
    decreases |entries|
  {
    if entries != [] {
      var q := entries[0];
      if AlreadyHeld(base, q) {
        QualificationsAccepted(sp, base, entries[1..], at);
        assert Qualifications(base, entries) == Qualifications(base, entries[1..]);
      } else {
        var r := Qualified(q.key, q.expiresAt);
        StepKeepsInv(sp, r, at);
        assert Qualifications(base, entries)[1..] == Qualifications(base, entries[1..]);
        QualificationsAccepted(Folded(sp, r), base, entries[1..], at);
      }
    }
  }

  /** A consumer after qualification: as before, or one of the listed ones made qualified. */
  ghost predicate Requalified(before: Consumers, entries: seq<Qualification>, base: Consumers, key: Key, c: Consumer) {
    || (key in before && c == before[key])
    || (exists i :: 0 <= i < |entries| && entries[i].key == key && !AlreadyHeld(base, entries[i])
          && c == QualifiedConsumer(before, key, entries[i].expiresAt))
  }

  ghost predicate DistinctEntries(entries: seq<Qualification>) {
    forall i, j :: 0 <= i < j < |entries| ==> entries[i].key != entries[j].key
  }

  lemma {:induction false} QualifiedAllShape(cs: Consumers, base: Consumers, entries: seq<Qualification>, key: Key)
    requires DistinctEntries(entries)
    ensures key in cs ==> key in QualifiedAll(cs, base, entries)
    ensures key in QualifiedAll(cs, base, entries) ==>
              Requalified(cs, entries, base, key, QualifiedAll(cs, base, entries)[key])
    ensures forall i :: 0 <= i < |entries| && entries[i].key == key && !AlreadyHeld(base, entries[i]) ==>
              key in QualifiedAll(cs, base, entries) && QualifiedAll(cs, base, entries)[key].qualified
    ensures (forall i :: 0 <= i < |entries| ==> entries[i].key != key) ==>
              (key in QualifiedAll(cs, base, entries) <==> key in cs)
              && (key in cs ==> QualifiedAll(cs, base, entries)[key] == cs[key])
    decreases |entries|
  {
    if entries != [] {
      var q, rest := entries[0], entries[1..];
      var next := if AlreadyHeld(base, q) then cs else cs[q.key := QualifiedConsumer(cs, q.key, q.expiresAt)];
      QualifiedAllShape(next, base, rest, key);
      assert forall i :: 0 <= i < |rest| ==> rest[i] == entries[i + 1];
    }
  }

  lemma {:induction false} FirstReaderIs(cs: Consumers, entries: seq<Qualification>, finalSeq: Option<nat>)
    ensures var reader := FirstReader(cs, entries, finalSeq);
            && (reader.Some? ==> exists i ::
                 0 <= i < |entries| && entries[i].key == reader.value && !AlreadyHeld(cs, entries[i])
                 && StillReading(cs, entries[i].key, finalSeq))
            && (reader.None? ==> forall i ::
                 0 <= i < |entries| ==> AlreadyHeld(cs, entries[i]) || !StillReading(cs, entries[i].key, finalSeq))
    decreases |entries|
  {
    if entries != [] && !(!AlreadyHeld(cs, entries[0]) && StillReading(cs, entries[0].key, finalSeq)) {
      FirstReaderIs(cs, entries[1..], finalSeq);
    }
  }

  lemma ReaderCanDisarm(cs: Consumers, entries: seq<Qualification>, finalSeq: nat, key: Key)
    requires FirstReader(cs, entries, Some(finalSeq)) == Some(key) && DistinctEntries(entries)
    ensures var after := QualifiedAll(cs, cs, entries);
            Has(after, key) && !after[key].degraded && after[key].ack < finalSeq
  {
    FirstReaderIs(cs, entries, Some(finalSeq));
    QualifiedAllShape(cs, cs, entries, key);
  }

  lemma QualifyAccepted(sp: Spool, execution: ExecutionRef, entries: seq<Qualification>, at: Time)
    requires Inv(sp)
    ensures Accepted(sp, Qualify(sp, execution, entries), at)
  {
    if Qualify(sp, execution, entries).Commit? {
      var records := Qualifications(sp.consumers, entries);
      QualificationsAccepted(sp, sp.consumers, entries, at);
      var after := ReduceAll(sp, records, at).value;
      var reader := if sp.ending.reclaimAfter.Some? then FirstReader(sp.consumers, entries, sp.tape.finalSeq) else None;
      if reader.Some? {
        ReaderCanDisarm(sp.consumers, entries, sp.tape.finalSeq.value, reader.value);
        ReduceOne(after, ReclaimDisarmed(reader.value), at);
        ReduceConcat(sp, records, [ReclaimDisarmed(reader.value)], at);
      } else {
        assert records + [] == records;
      }
    }
  }

  lemma OneAccepted(sp: Spool, d: Decision, r: SpoolRecord, at: Time)
    requires d == Commit([r]) && Acceptable(sp, r, at)
    ensures Accepted(sp, d, at)
  {
    ReduceOne(sp, r, at);
  }

  lemma TwoAccepted(sp: Spool, d: Decision, first: SpoolRecord, second: SpoolRecord, at: Time)
    requires d == Commit([first] + [second]) && Acceptable(sp, first, at) && Acceptable(Folded(sp, first), second, at)
    ensures Accepted(sp, d, at)
  {
    ReduceConcat(sp, [first], [second], at);
    ReduceOne(sp, first, at);
    ReduceOne(Folded(sp, first), second, at);
  }

  lemma SimpleAccepted(sp: Spool, op: Operation, at: Time)
    requires Inv(sp) && (op.DoOpen? || op.DoConnect? || op.DoDrain? || op.DoArm?) && !sp.ending.reclaimed
    requires op.DoArm? ==> op.delay > 0
    ensures Accepted(sp, Decide(sp, op, at), at)
  {
    var d := Decide(sp, op, at);
    if d.Commit? {
      match op
      case DoOpen(opening) => OneAccepted(sp, d, Opened(opening), at);
      case DoConnect(_, key) => OneAccepted(sp, d, Connected(key, sp.consumers[key].epoch + 1), at);
      case DoDrain => OneAccepted(sp, d, Deleted(sp.store.deleting), at);
      case DoArm(delay) => OneAccepted(sp, d, ReclaimArmed(at + delay), at);
      case _ =>
    }
  }

  lemma FrameThenDegrade(sp: Spool, r: SpoolRecord, order: seq<Key>, at: Time)
    requires Inv(sp) && Acceptable(sp, r, at) && r.FrameStored?
    requires forall i ::
               0 <= i < |order| ==>
                 order[i] in sp.consumers && sp.consumers[order[i]].Active() && order[i].SurfaceTicket?
    requires forall i, j :: 0 <= i < j < |order| ==> order[i] != order[j]
    ensures ReduceAll(sp, [r] + Degradations(order), at) == Some(WithDegraded(Folded(sp, r), order))
    ensures WithDegraded(Folded(sp, r), order).store == AddFrame(sp.store, r.frameSeq, r.frame)
    ensures WithDegraded(Folded(sp, r), order).tape == TapeAfter(sp.tape, r)
  {
    StepKeepsInv(sp, r, at);
    ReduceOne(sp, r, at);
    DegradeAccepted(Folded(sp, r), order, at);
    ReduceConcat(sp, [r], Degradations(order), at);
  }

  lemma FrameAcceptable(sp: Spool, execution: ExecutionRef, r: SpoolRecord, at: Time)
    requires Inv(sp) && OpenFor(sp, execution) && sp.tape.finalSeq.None? && sp.store.deleting == {}
    requires r.FrameStored? && r.frameSeq == sp.tape.lastSeq + 1 && BracketFits(sp.tape.asking, r.bracket)
    requires r.source.Some? ==> r.source.value !in sp.tape.sources
    ensures Acceptable(sp, r, at)
  {
  }

  lemma AppendBatch(sp: Spool, d: Decision, r: SpoolRecord, at: Time)
    requires Inv(sp) && r.FrameStored? && Acceptable(sp, r, at)
    requires d == Commit([r] + Degradations(Ordered(SlowKeys(sp, r.frame.artifacts))))
    ensures ReduceAll(sp, d.batch, at).Some?
    ensures ReduceAll(sp, d.batch, at).value.store == AddFrame(sp.store, r.frameSeq, r.frame)
    ensures ReduceAll(sp, d.batch, at).value.tape == TapeAfter(sp.tape, r)
  {
    SlowListed(sp, r.frame.artifacts);
    FrameThenDegrade(sp, r, Ordered(SlowKeys(sp, r.frame.artifacts)), at);
  }

  /** Interaction events must be well bracketed and earlier deletions carried out. */
  lemma AppendAccepted(sp: Spool, execution: ExecutionRef, frame: Frame, isFinal: bool, source: Option<SourceId>,
      bracket: Bracket, at: Time)
    requires Inv(sp) && sp.store.deleting == {} && BracketFits(sp.tape.asking, bracket)
    ensures Accepted(sp, Append(sp, execution, frame, isFinal, source, bracket), at)
    ensures var d := Append(sp, execution, frame, isFinal, source, bracket);
            d.Commit? ==>
              && ReduceAll(sp, d.batch, at).value.store == AddFrame(sp.store, sp.tape.lastSeq + 1, frame)
              && ReduceAll(sp, d.batch, at).value.tape ==
                   TapeAfter(sp.tape, FrameStored(sp.tape.lastSeq + 1, frame, isFinal, source, bracket))
  {
    var d := Append(sp, execution, frame, isFinal, source, bracket);
    var r := FrameStored(sp.tape.lastSeq + 1, frame, isFinal, source, bracket);
    if d.Commit? {
      FrameAcceptable(sp, execution, r, at);
      AppendBatch(sp, d, r, at);
    }
  }

  lemma OfferAcceptable(sp: Spool, op: Operation, upTo: nat, at: Time)
    requires Inv(sp) && op.DoSubscribe? && MayRead(sp, op.execution, op.key, op.epoch, op.after, op.expiresAt)
    requires upTo == ReadUpTo(sp, op.after, op.maxFrames, op.maxBytes) > sp.consumers[op.key].offered
    ensures Acceptable(sp, Offered(op.key, upTo), at)
  {
  }

  lemma SubscribeAccepted(sp: Spool, op: Operation, at: Time)
    requires Inv(sp) && op.DoSubscribe?
    ensures Accepted(sp, Decide(sp, op, at), at)
  {
    var d := Decide(sp, op, at);
    if d.Commit? {
      var key, upTo := op.key, ReadUpTo(sp, op.after, op.maxFrames, op.maxBytes);
      var offer, disarm := Offered(key, upTo), ReclaimDisarmed(key);
      if upTo > sp.consumers[key].offered { OfferAcceptable(sp, op, upTo, at); }
      if |d.batch| == 2 {
        TwoAccepted(sp, d, offer, disarm, at);
      } else {
        OneAccepted(sp, d, d.batch[0], at);
      }
    }
  }

  /** Acknowledging and pruning, before a possible arming. */
  lemma AckThenPrune(sp: Spool, key: Key, upTo: nat, at: Time)
    requires Inv(sp) && Acceptable(sp, Acknowledged(key, upTo), at)
    ensures var projected := Folded(sp, Acknowledged(key, upTo));
            var r := ReduceAll(sp, [Acknowledged(key, upTo)] + PruneTo(sp, projected), at);
            && r.Some? && r.value.consumers == projected.consumers && r.value.tape == sp.tape
               && r.value.ending == sp.ending
            && r.value.opening == sp.opening && r.value.store.pruned == RetentionFloor(projected)
  {
    var r := Acknowledged(key, upTo);
    var projected := Folded(sp, r);
    StepKeepsInv(sp, r, at);
    PruneAccepted(sp, projected, at);
    ReduceOne(sp, r, at);
    ReduceConcat(sp, [r], PruneTo(sp, projected), at);
  }

  /** What an acknowledgement leaves: the waterline moved, the prune line at the retention floor, and the timer set at
      the promised time if that made the stream reclaimable. */
  ghost predicate AckLeft(sp: Spool, key: Key, upTo: nat, at: Time, delay: nat, after: Spool) {
    && key in sp.consumers
    && after.consumers == sp.consumers[key := sp.consumers[key].(ack := upTo)]
    && after.store.pruned == RetentionFloor(Folded(sp, Acknowledged(key, upTo)))
    && after.tape == sp.tape && after.opening == sp.opening
    && after.ending ==
         sp.ending.(reclaimAfter :=
                      if sp.ending.reclaimAfter.None? && CanArm(after) then Some(at + delay)
                      else sp.ending.reclaimAfter)
  }

  lemma AcknowledgeLeaves(sp: Spool, key: Key, epoch: nat, upTo: nat, at: Time, delay: nat)
    requires Inv(sp) && delay > 0 && Acknowledge(sp, key, epoch, upTo, at, delay).Commit?
    ensures var r := ReduceAll(sp, Acknowledge(sp, key, epoch, upTo, at, delay).batch, at);
            r.Some? && AckLeft(sp, key, upTo, at, delay, r.value)
  {
    OpenWhenUsed(sp, key);
    AckThenPrune(sp, key, upTo, at);
    var projected := Folded(sp, Acknowledged(key, upTo));
    var first := [Acknowledged(key, upTo)] + PruneTo(sp, projected);
    var arm := if projected.ending.reclaimAfter.None? && CanArm(projected) then [ReclaimArmed(at + delay)] else [];
    var pruned := ReduceAll(sp, first, at).value;
    if arm != [] { ReduceOne(pruned, arm[0], at); }
    ReduceConcat(sp, first, arm, at);
  }

  lemma AcknowledgeAccepted(sp: Spool, op: Operation, at: Time)
    requires Inv(sp) && op.DoAcknowledge? && op.delay > 0
    ensures Accepted(sp, Decide(sp, op, at), at)
  {
    if Decide(sp, op, at).Commit? { AcknowledgeLeaves(sp, op.key, op.epoch, op.upTo, at, op.delay); }
  }

  lemma OpenWhenUsed(sp: Spool, key: Key)
    requires OpenInv(sp) && key in sp.consumers
    ensures sp.opening.Some?
  {
  }

  lemma TerminalAccepted(sp: Spool, op: Operation, at: Time)
    requires Inv(sp) && op.DoTerminal? && op.delay > 0
    ensures Accepted(sp, Decide(sp, op, at), at)
  {
    var d := Decide(sp, op, at);
    if d.Commit? {
      var r := TerminalMarked(op.finalSeq);
      ReduceOne(sp, r, at);
      if |d.batch| == 2 {
        assert d.batch == [r] + [d.batch[1]];
        ReduceConcat(sp, [r], [d.batch[1]], at);
        ReduceOne(Folded(sp, r), d.batch[1], at);
      } else {
        assert d.batch == [r];
      }
    }
  }

  /** What an operation relies on: bracketed interactions and drained deletions for an append, a positive
      reclamation delay, and for reclaiming the conditions proved separately. */
  predicate CallerKeeps(sp: Spool, op: Operation) {
    match op
    case DoAppend(_, _, _, _, bracket) => sp.store.deleting == {} && BracketFits(sp.tape.asking, bracket)
    case DoAcknowledge(_, _, _, delay) => delay > 0
    case DoTerminal(_, delay) => delay > 0
    case DoArm(delay) => delay > 0
    case DoReclaim(_) => false
    case _ => true
  }

  /** From every reachable state, what an operation commits is accepted by the reducer. */
  lemma NeverCorrupt(sp: Spool, op: Operation, at: Time)
    requires Inv(sp) && CallerKeeps(sp, op) && !sp.ending.reclaimed
    ensures Accepted(sp, Decide(sp, op, at), at)
  {
    match op
    case DoQualify(execution, entries) => QualifyAccepted(sp, execution, entries, at);
    case DoRevoke(key) => RevokeAccepted(sp, key, at);
    case DoReconcile => ReconcileAccepted(sp, at);
    case DoAppend(execution, frame, isFinal, source, bracket) =>
      AppendAccepted(sp, execution, frame, isFinal, source, bracket, at);
    case DoSubscribe(_, _, _, _, _, _, _) => SubscribeAccepted(sp, op, at);
    case DoAcknowledge(_, _, _, _) => AcknowledgeAccepted(sp, op, at);
    case DoTerminal(_, _) => TerminalAccepted(sp, op, at);
    case _ => SimpleAccepted(sp, op, at);
  }
}
