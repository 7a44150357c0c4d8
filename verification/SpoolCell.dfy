/** The spool's artifact accounting as the reducer keeps it: counts changed in place, one artifact at a time. */
module SpoolCell {
  import opened ArtifactSizes
  import opened SpoolState
  import opened SpoolInvariants

  /** How many frames use an artifact. */
  function CountOf(counts: map<Artifact, nat>, a: Artifact): nat { if a in counts then counts[a] else 0 }

  class SpoolStore {
    var frames: map<nat, Frame>
    var counts: map<Artifact, nat>
    var deleting: set<Artifact>
    var retained: int
    var pruned: nat

    ghost function Value(): Store
      reads this
    {
      Store(frames, counts, deleting, retained, pruned)
    }

    constructor ()
      ensures Value() == Store(map[], map[], {}, 0, 0)
    {
      frames, counts, deleting, retained, pruned := map[], map[], {}, 0, 0;
    }

    /** One more use of an artifact; its bytes count from the first. */
    method Retain(a: Artifact)
      requires a !in deleting
      modifies this`counts, this`retained
      ensures counts == old(counts)[a := CountOf(old(counts), a) + 1]
      ensures retained == old(retained) + if a in old(counts) then 0 else a.bytes
    {
      if a in counts {
        counts := counts[a := counts[a] + 1];
      } else {
        counts := counts[a := 1];
        retained := retained + a.bytes;
      }
    }

    /** One use less; the last one removes the artifact from the live ones. */
    method Release(a: Artifact)
      requires a in counts && counts[a] > 0
      modifies this`counts
      ensures forall b :: CountOf(counts, b) == if b == a then CountOf(old(counts), a) - 1 else CountOf(old(counts), b)
      ensures forall b :: b in counts <==> b in old(counts) && (b == a ==> old(counts)[a] > 1)
    {
      if counts[a] == 1 {
        counts := map b | b in counts && b != a :: counts[b];
      } else {
        counts := counts[a := counts[a] - 1];
      }
    }

    method RetainAll(artifacts: set<Artifact>)
      requires artifacts !! deleting
      modifies this`counts, this`retained
      ensures forall a :: a in counts <==> a in old(counts) || a in artifacts
      ensures forall a :: a in counts ==> counts[a] == CountOf(old(counts), a) + if a in artifacts then 1 else 0
      ensures retained == old(retained) + Sum(artifacts - old(counts).Keys)
    {
      ghost var before := counts;
      ghost var done: set<Artifact> := {};
      var todo := artifacts;
      while todo != {}
        invariant forall a :: a in artifacts <==> a in todo || a in done
        invariant forall a :: a in todo ==> a !in done
        invariant forall a :: a in counts <==> a in before || a in done
        invariant forall a :: a in counts ==> counts[a] == CountOf(before, a) + if a in done then 1 else 0
        invariant retained == old(retained) + Sum(done - before.Keys)
        decreases |todo|
      {
        var a :| a in todo;
        Retain(a);
        OneMore(done, before.Keys, a);
        todo, done := todo - {a}, done + {a};
      }
      assert done == artifacts;
    }

    method StoreFrame(s: nat, frame: Frame)
      requires frame.artifacts !! deleting
      modifies this
      ensures Value() == AddFrame(old(Value()), s, frame)
    {
      ghost var st := Value();
      frames := frames[s := frame];
      RetainAll(frame.artifacts);
      AddedCounts(st, counts, s, frame);
    }

    /** Releases every artifact of one retired frame. */
    method RetireFrame(frame: Frame)
      requires forall a :: a in frame.artifacts ==> CountOf(counts, a) > 0
      modifies this`counts
      ensures forall a :: CountOf(counts, a) == CountOf(old(counts), a) - if a in frame.artifacts then 1 else 0
      ensures forall a :: a in counts <==> a in old(counts) && (a in frame.artifacts ==> old(counts)[a] > 1)
    {
      ghost var before := counts;
      ghost var done: set<Artifact> := {};
      var todo := frame.artifacts;
      while todo != {}
        invariant todo !! done && (forall a :: a in frame.artifacts <==> a in todo || a in done)
        invariant forall a :: CountOf(counts, a) == CountOf(before, a) - if a in done then 1 else 0
        invariant forall a :: a in counts <==> a in before && (a in done ==> before[a] > 1)
        decreases |todo|
      {
        var a :| a in todo;
        assert CountOf(counts, a) > 0;
        Release(a);
        todo, done := todo - {a}, done + {a};
      }
    }

    /** The store while pruning has reached frame `i`. */
    ghost predicate Reached(st: Store, i: nat)
      reads this
    {
      && frames == Beyond(st.frames, i) && CountsExact(frames, counts) && Retired(st, counts, i)
      && deleting == st.deleting && retained == st.retained && pruned == st.pruned
    }

    method RetireNext(i: nat, ghost st: Store)
      requires i in st.frames && i > 0 && Reached(st, i - 1)
      modifies this
      ensures Reached(st, i)
    {
      ghost var earlier, counted := frames, counts;
      RetireOne(frames, counts, i);
      RetireFrame(frames[i]);
      frames := map k | k in frames && k != i :: frames[k];
      CountsWithout(earlier, frames, counted, counts, i);
      OneFurther(st, counted, counts, i);
      assert frames == Beyond(st.frames, i);
    }

    /** Retires all frames up to the new line, in order; artifacts nobody uses any more wait for deletion. */
    method Prune(through: nat, released: set<Artifact>, ghost lastSeq: nat)
      requires StoreInv(Value(), lastSeq) && pruned < through <= lastSeq
      requires released == ReleasedBy(counts, Through(frames, through))
      modifies this
      ensures Value() == PruneStore(old(Value()), through)
    {
      ghost var st := Value();
      NothingRetired(st);
      RetireAll(through, st, lastSeq);
      deleting, pruned := deleting + released, through;
      AllRetired(st, frames, counts, through);
    }

    method RetireAll(through: nat, ghost st: Store, ghost lastSeq: nat)
      requires FramesDense(st, lastSeq) && st.pruned < through <= lastSeq && Reached(st, st.pruned)
      modifies this
      ensures Reached(st, through)
    {
      for i := pruned to through
        invariant Reached(st, i)
      {
        RetireNext(i + 1, st);
      }
    }
  }

  /** The counts with the frames up to `through` taken off. */
  ghost predicate Retired(st: Store, counts: map<Artifact, nat>, through: nat) {
    forall a :: CountOf(counts, a) == Left(CountOf(st.counts, a), Uses(Through(st.frames, through), a))
  }

  lemma AllRetired(st: Store, frames: map<nat, Frame>, counts: map<Artifact, nat>, through: nat)
    requires frames == Beyond(st.frames, through) && CountsExact(frames, counts) && Retired(st, counts, through)
    ensures frames == PruneStore(st, through).frames && counts == PruneStore(st, through).counts
  {
    PrunedCounts(st, counts, through);
  }

  lemma NothingRetired(st: Store)
    requires forall s :: s in st.frames ==> s > st.pruned
    ensures Beyond(st.frames, st.pruned) == st.frames && Retired(st, st.counts, st.pruned)
  {
    assert forall a :: Users(Through(st.frames, st.pruned), a) == {};
  }

  lemma OneFurther(st: Store, counts: map<Artifact, nat>, left: map<Artifact, nat>, i: nat)
    requires i > 0 && i in st.frames && Retired(st, counts, i - 1)
    requires forall a :: CountOf(left, a) == CountOf(counts, a) - if a in st.frames[i].artifacts then 1 else 0
    ensures Retired(st, left, i)
  {
    assert Through(st.frames, i) == Through(st.frames, i - 1)[i := st.frames[i]];
    UsesGrow(st.counts, counts, left, Through(st.frames, i - 1), i, st.frames[i]);
  }

  lemma AddedCounts(st: Store, counts: map<Artifact, nat>, s: nat, frame: Frame)
    requires forall a :: a in counts <==> a in st.counts || a in frame.artifacts
    requires forall a :: a in counts ==> counts[a] == CountOf(st.counts, a) + if a in frame.artifacts then 1 else 0
    ensures counts == AddFrame(st, s, frame).counts
  {
    var after := AddFrame(st, s, frame).counts;
    assert forall a :: (a in counts <==> a in after) && (a in counts ==> counts[a] == after[a]);
  }

  lemma OneMore(done: set<Artifact>, before: set<Artifact>, a: Artifact)
    requires a !in done
    ensures Sum(done + {a} - before) == Sum(done - before) + if a in before then 0 else a.bytes
  {
    if a in before {
      assert done + {a} - before == done - before;
    } else {
      assert done + {a} - before == (done - before) + {a};
      SumRemove(done + {a} - before, a);
      assert (done + {a} - before) - {a} == done - before;
    }
  }

  /** Every artifact of a retained frame has a positive count. */
  lemma RetireOne(frames: map<nat, Frame>, counts: map<Artifact, nat>, s: nat)
    requires CountsExact(frames, counts) && s in frames
    ensures forall a :: a in frames[s].artifacts ==> CountOf(counts, a) > 0
  {
    forall a | a in frames[s].artifacts ensures CountOf(counts, a) > 0 {
      assert s in Users(frames, a);
    }
  }

  lemma UsesWithout(frames: map<nat, Frame>, fewer: map<nat, Frame>, s: nat, a: Artifact)
    requires s in frames && fewer == (map k | k in frames && k != s :: frames[k])
    ensures Uses(fewer, a) == Uses(frames, a) - if a in frames[s].artifacts then 1 else 0
  {
    assert frames == fewer[s := frames[s]];
    UsesAdded(fewer, s, frames[s], a);
  }

  lemma CountsWithout(frames: map<nat, Frame>, fewer: map<nat, Frame>, counts: map<Artifact, nat>,
      left: map<Artifact, nat>, s: nat)
    requires CountsExact(frames, counts) && s in frames && fewer == (map k | k in frames && k != s :: frames[k])
    requires forall a :: CountOf(left, a) == CountOf(counts, a) - if a in frames[s].artifacts then 1 else 0
    requires forall a :: a in left <==> a in counts && (a in frames[s].artifacts ==> counts[a] > 1)
    ensures CountsExact(fewer, left)
  {
    forall a ensures (a in left ==> left[a] == Uses(fewer, a) > 0) && (Uses(fewer, a) > 0 ==> a in left) {
      UsesWithout(frames, fewer, s, a);
      assert Uses(frames, a) == CountOf(counts, a);
    }
  }

  lemma UsesGrow(all: map<Artifact, nat>, counts: map<Artifact, nat>, left: map<Artifact, nat>,
      retired: map<nat, Frame>, s: nat, frame: Frame)
    requires s !in retired
    requires forall a :: CountOf(counts, a) == Left(CountOf(all, a), Uses(retired, a))
    requires forall a :: CountOf(left, a) == CountOf(counts, a) - if a in frame.artifacts then 1 else 0
    ensures forall a :: CountOf(left, a) == Left(CountOf(all, a), Uses(retired[s := frame], a))
  {
    forall a ensures CountOf(left, a) == Left(CountOf(all, a), Uses(retired[s := frame], a)) {
      UsesAdded(retired, s, frame, a);
    }
  }

  lemma PrunedCounts(st: Store, counts: map<Artifact, nat>, through: nat)
    requires forall a :: a in counts ==> counts[a] > 0
    requires forall a :: CountOf(counts, a) == Left(CountOf(st.counts, a), Uses(Through(st.frames, through), a))
    ensures counts == PruneStore(st, through).counts
  {
    var after := PruneStore(st, through).counts;
    forall a ensures (a in counts <==> a in after) && (a in counts ==> counts[a] == after[a]) {
      assert CountOf(counts, a) == Left(CountOf(st.counts, a), Uses(Through(st.frames, through), a));
    }
  }
}
