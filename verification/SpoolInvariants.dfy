/** What every accepted record keeps: dense frames, exact artifact counts, conserved bytes, ordered waterlines. */
module SpoolInvariants {
  import opened LedgerRecords
  import opened ArtifactSizes
  import opened SpoolState

  ghost predicate FramesDense(st: Store, lastSeq: nat) {
    st.pruned <= lastSeq && (forall s :: s in st.frames <==> st.pruned < s <= lastSeq)
  }

  ghost predicate CountsExact(frames: map<nat, Frame>, counts: map<Artifact, nat>) {
    && (forall a :: a in counts ==> counts[a] == Uses(frames, a) > 0)
    && (forall a :: Uses(frames, a) > 0 ==> a in counts)
  }

  /** Frames cover exactly the unpruned part of the tape, every artifact's count is the number of frames using it,
      and the retained bytes are those of the live and the dying artifacts together. */
  ghost predicate StoreInv(st: Store, lastSeq: nat) {
    && FramesDense(st, lastSeq)
    && CountsExact(st.frames, st.counts)
    && st.counts.Keys !! st.deleting
    && st.retained == Sum(st.counts.Keys + st.deleting)
  }

  lemma UsesAdded(frames: map<nat, Frame>, s: nat, frame: Frame, a: Artifact)
    requires s !in frames
    ensures Uses(frames[s := frame], a) == Uses(frames, a) + if a in frame.artifacts then 1 else 0
  {
    if a in frame.artifacts {
      assert Users(frames[s := frame], a) == Users(frames, a) + {s};
    } else {
      assert Users(frames[s := frame], a) == Users(frames, a);
    }
  }

  lemma UsesSplit(frames: map<nat, Frame>, through: nat, a: Artifact)
    ensures Uses(frames, a) == Uses(Through(frames, through), a) + Uses(Beyond(frames, through), a)
  {
    var early, late := Users(Through(frames, through), a), Users(Beyond(frames, through), a);
    assert Users(frames, a) == early + late && early !! late;
  }

  lemma CountsAdded(st: Store, s: nat, frame: Frame)
    requires CountsExact(st.frames, st.counts) && s !in st.frames
    ensures CountsExact(AddFrame(st, s, frame).frames, AddFrame(st, s, frame).counts)
  {
    var t := AddFrame(st, s, frame);
    forall a ensures (a in t.counts ==> t.counts[a] == Uses(t.frames, a) > 0)
       && (Uses(t.frames, a) > 0 ==> a in t.counts) {
      UsesAdded(st.frames, s, frame, a);
    }
  }

  lemma BytesAdded(counts: set<Artifact>, deleting: set<Artifact>, artifacts: set<Artifact>)
    requires counts !! deleting && artifacts !! deleting
    ensures Sum((counts + artifacts) + deleting) == Sum(counts + deleting) + Sum(artifacts - counts)
    ensures (counts + artifacts) !! deleting
  {
    assert (counts + artifacts) + deleting == (counts + deleting) + (artifacts - counts);
    SumUnion(counts + deleting, artifacts - counts);
  }

  lemma DenseAdded(st: Store, lastSeq: nat, frame: Frame)
    requires FramesDense(st, lastSeq)
    ensures FramesDense(AddFrame(st, lastSeq + 1, frame), lastSeq + 1)
  {
  }

  /** Storing a frame retains exactly its new artifacts' bytes. */
  lemma AddKeepsStore(st: Store, lastSeq: nat, frame: Frame)
    requires StoreInv(st, lastSeq) && frame.artifacts !! st.deleting
    ensures StoreInv(AddFrame(st, lastSeq + 1, frame), lastSeq + 1)
  {
    CountsAdded(st, lastSeq + 1, frame);
    DenseAdded(st, lastSeq, frame);
    assert AddFrame(st, lastSeq + 1, frame).counts.Keys == st.counts.Keys + frame.artifacts;
    BytesAdded(st.counts.Keys, st.deleting, frame.artifacts);
  }

  lemma CountsPruned(st: Store, through: nat)
    requires CountsExact(st.frames, st.counts)
    ensures CountsExact(PruneStore(st, through).frames, PruneStore(st, through).counts)
  {
    var t := PruneStore(st, through);
    forall a ensures (a in t.counts ==> t.counts[a] == Uses(t.frames, a) > 0)
       && (Uses(t.frames, a) > 0 ==> a in t.counts) {
      UsesSplit(st.frames, through, a);
    }
  }

  lemma KeysPruned(st: Store, through: nat)
    requires CountsExact(st.frames, st.counts) && st.counts.Keys !! st.deleting
    ensures var t := PruneStore(st, through);
            t.counts.Keys + t.deleting == st.counts.Keys + st.deleting && t.counts.Keys !! t.deleting
  {
    var t := PruneStore(st, through);
    forall a ensures a in t.counts.Keys + t.deleting <==> a in st.counts.Keys + st.deleting {
      UsesSplit(st.frames, through, a);
    }
  }

  /** Pruning moves unused artifacts to deletion and frees no byte yet. */
  lemma PruneKeepsStore(st: Store, lastSeq: nat, through: nat)
    requires StoreInv(st, lastSeq) && st.pruned < through <= lastSeq
    ensures StoreInv(PruneStore(st, through), lastSeq)
  {
    CountsPruned(st, through);
    KeysPruned(st, through);
  }

  lemma DeleteKeepsStore(st: Store, lastSeq: nat, gone: set<Artifact>)
    requires StoreInv(st, lastSeq) && gone <= st.deleting
    ensures StoreInv(DeleteFrom(st, gone), lastSeq)
  {
    var t := DeleteFrom(st, gone);
    var all, left := st.counts.Keys + st.deleting, t.counts.Keys + t.deleting;
    assert left !! gone && all == left + gone;
    SumUnion(left, gone);
  }

  /** The retired frames' uses never exceed the counts, so a prune record is never inconsistent. */
  lemma PruneConsistent(st: Store, through: nat)
    requires CountsExact(st.frames, st.counts)
    ensures forall a :: Uses(Through(st.frames, through), a) > 0 ==>
              a in st.counts && Uses(Through(st.frames, through), a) <= st.counts[a]
  {
    forall a | Uses(Through(st.frames, through), a) > 0
      ensures a in st.counts && Uses(Through(st.frames, through), a) <= st.counts[a]
    {
      UsesSplit(st.frames, through, a);
    }
  }

  // ---------------------------------------------------------------- waterlines and endings

  ghost predicate Waterlines(cs: Consumers, lastSeq: nat) {
    forall key :: key in cs ==> cs[key].ack <= cs[key].offered <= lastSeq
  }

  ghost predicate EndingInv(sp: Spool) {
    && (sp.tape.finalSeq.Some? ==> sp.tape.finalSeq.value == sp.tape.lastSeq)
    && (sp.ending.terminal ==> sp.tape.finalSeq.Some?)
    && (sp.ending.reclaimAfter.Some? ==> sp.ending.terminal)
  }

  /** Before it is opened a spool holds nothing. */
  ghost predicate OpenInv(sp: Spool) {
    sp.opening.None? ==>
      sp.tape.lastSeq == 0 && sp.consumers == map[] && sp.tape.finalSeq.None?
      && sp.store == Store(map[], map[], {}, 0, 0)
  }

  ghost predicate SourcesInv(t: Tape) {
    forall id :: id in t.sources ==> 1 <= t.sources[id].frameSeq <= t.lastSeq
  }

  ghost predicate Inv(sp: Spool) {
    && StoreInv(sp.store, sp.tape.lastSeq)
    && Waterlines(sp.consumers, sp.tape.lastSeq)
    && EndingInv(sp)
    && OpenInv(sp)
    && SourcesInv(sp.tape)
  }

  ghost predicate StoreFits(st: Store, lastSeq: nat, r: SpoolRecord) {
    && (r.FrameStored? ==> r.frameSeq == lastSeq + 1 && r.frame.artifacts !! st.deleting)
    && (r.Pruned? ==> st.pruned < r.through <= lastSeq)
    && (r.Deleted? ==> r.gone <= st.deleting)
  }

  lemma AcceptableFits(sp: Spool, r: SpoolRecord, at: Time)
    requires Acceptable(sp, r, at)
    ensures StoreFits(sp.store, sp.tape.lastSeq, r)
  {
  }

  lemma FrameStep(st: Store, after: Store, lastSeq: nat, s: nat, frame: Frame)
    requires StoreInv(st, lastSeq) && s == lastSeq + 1 && frame.artifacts !! st.deleting
             && after == AddFrame(st, s, frame)
    ensures StoreInv(after, s)
  {
    AddKeepsStore(st, lastSeq, frame);
  }

  lemma PruneStep(st: Store, after: Store, lastSeq: nat, through: nat)
    requires StoreInv(st, lastSeq) && st.pruned < through <= lastSeq && after == PruneStore(st, through)
    ensures StoreInv(after, lastSeq)
  {
    PruneKeepsStore(st, lastSeq, through);
  }

  lemma DeleteStep(st: Store, after: Store, lastSeq: nat, gone: set<Artifact>)
    requires StoreInv(st, lastSeq) && gone <= st.deleting && after == DeleteFrom(st, gone)
    ensures StoreInv(after, lastSeq)
  {
    DeleteKeepsStore(st, lastSeq, gone);
  }

  lemma ConsumerStep(sp: Spool, r: SpoolRecord, at: Time)
    requires Waterlines(sp.consumers, sp.tape.lastSeq) && Acceptable(sp, r, at)
    ensures Waterlines(Folded(sp, r).consumers, Folded(sp, r).tape.lastSeq)
  {
  }

  lemma EndingStep(sp: Spool, r: SpoolRecord, at: Time)
    requires EndingInv(sp) && SourcesInv(sp.tape) && Acceptable(sp, r, at)
    ensures EndingInv(Folded(sp, r)) && SourcesInv(Folded(sp, r).tape)
  {
  }

  lemma StepKeepsInv(sp: Spool, r: SpoolRecord, at: Time)
    requires Inv(sp) && Acceptable(sp, r, at)
    ensures Inv(Folded(sp, r))
  {
    AcceptableFits(sp, r, at);
    var after := Folded(sp, r);
    if r.FrameStored? {
      FrameStep(sp.store, after.store, sp.tape.lastSeq, r.frameSeq, r.frame);
    } else if r.Pruned? {
      PruneStep(sp.store, after.store, sp.tape.lastSeq, r.through);
    } else if r.Deleted? {
      DeleteStep(sp.store, after.store, sp.tape.lastSeq, r.gone);
    } else {
      assert after.store == sp.store;
    }
    ConsumerStep(sp, r, at);
    EndingStep(sp, r, at);
    assert OpenInv(Folded(sp, r));
  }

  lemma {:induction false} BatchKeepsInv(sp: Spool, batch: seq<SpoolRecord>, at: Time)
    requires Inv(sp) && ReduceAll(sp, batch, at).Some?
    ensures Inv(ReduceAll(sp, batch, at).value)
    decreases |batch|
  {
    if batch != [] {
      StepKeepsInv(sp, batch[0], at);
      BatchKeepsInv(Folded(sp, batch[0]), batch[1..], at);
    }
  }

  lemma FreshInv(id: AssignmentId)
    ensures Inv(Fresh(id))
  {
    assert forall a :: Users(Fresh(id).store.frames, a) == {};
  }

  lemma FloorBounds(sp: Spool)
    requires Inv(sp)
    ensures sp.store.pruned <= RetentionFloor(sp) <= sp.tape.lastSeq
  {
  }

  // ---------------------------------------------------------------- delivery without gaps

  /** Active, and nothing it still needs has been pruned. */
  ghost predicate Whole(sp: Spool, key: Key) {
    key in sp.consumers && sp.consumers[key].Active() && sp.consumers[key].ack >= sp.store.pruned
  }

  /** A prune never passes an active consumer that was not already behind it. */
  lemma WholeStep(sp: Spool, r: SpoolRecord, at: Time, key: Key)
    requires Inv(sp) && Acceptable(sp, r, at) && Whole(sp, key) && r != Revoked(key) && r != Degraded(key)
    ensures Whole(Folded(sp, r), key)
    ensures Folded(sp, r).consumers[key].ack >= sp.consumers[key].ack
  {
  }

  lemma {:induction false} WholeForever(sp: Spool, batch: seq<SpoolRecord>, at: Time, key: Key)
    requires Inv(sp) && ReduceAll(sp, batch, at).Some? && Whole(sp, key)
    requires forall r :: r in batch ==> r != Revoked(key) && r != Degraded(key)
    ensures Whole(ReduceAll(sp, batch, at).value, key)
    decreases |batch|
  {
    if batch != [] {
      assert batch[0] in batch && forall r :: r in batch[1..] ==> r in batch;
      WholeStep(sp, batch[0], at, key);
      StepKeepsInv(sp, batch[0], at);
      WholeForever(Folded(sp, batch[0]), batch[1..], at, key);
    }
  }
}
