/** A run from a fresh spool that arms a job's reclamation through its relay while an interaction is open, and what
    revoking the relay then does. */
module SpoolWitness {
  import opened Options
  import opened LedgerRecords
  import opened ArtifactSizes
  import opened SpoolState
  import opened SpoolDecisions
  import opened SpoolSafety
  import opened SpoolRuns

  const Job := JobRef(1, 1)
  const Asking := Frame(Artifact(1, 1), {Artifact(1, 1)}, 1)
  const Final := Frame(Artifact(2, 1), {Artifact(2, 1)}, 2)

  /** Open, ask, finish; then the relay joins, reads and acknowledges both frames, and the stream ends. */
  const Opens := [Event(DoOpen(Opening(Job, 100)), 0)]
  const Asks := Opens + [Event(DoAppend(Job, Asking, false, None, Asked(5)), 0)]
  const Ends := Asks + [Event(DoAppend(Job, Final, true, None, NoBracket), 0)]
  const Joins := Ends + [Event(DoQualify(Job, [Qualification(OwnerRelay, None)]), 0)]
  const Connects := Joins + [Event(DoConnect(Job, OwnerRelay), 0)]
  const Reads := Connects + [Event(DoSubscribe(Job, OwnerRelay, 1, 0, None, 10, 100), 0)]
  const Acknowledges := Reads + [Event(DoAcknowledge(OwnerRelay, 1, 2, 10), 0)]
  const Arms := Acknowledges + [Event(DoTerminal(2, 10), 0)]
  const Revokes := Arms + [Event(DoRevoke(OwnerRelay), 0)]

  lemma {:induction false} OneMoreEvent(sp: Spool, events: seq<Event>, e: Event)
    requires Disciplined(sp, events) && CallerKeeps(Run(sp, events), e.op)
    ensures Disciplined(sp, events + [e]) && Run(sp, events + [e]) == Next(Run(sp, events), e.op, e.at)
    decreases |events|
  {
    if events == [] {
      assert events + [e] == [e] && [e][1..] == [];
    } else {
      assert (events + [e])[1..] == events[1..] + [e];
      OneMoreEvent(Next(sp, events[0].op, events[0].at), events[1..], e);
    }
  }

  /** `events` is a disciplined run from a fresh spool to `sp`. */
  ghost predicate Reached(events: seq<Event>, sp: Spool) {
    Disciplined(Fresh(0), events) && Run(Fresh(0), events) == sp && Good(sp)
  }

  lemma Then(events: seq<Event>, sp: Spool, op: Operation) returns (next: Spool)
    requires Reached(events, sp) && CallerKeeps(sp, op)
    ensures Reached(events + [Event(op, 0)], next) && next == Next(sp, op, 0)
  {
    OneMoreEvent(Fresh(0), events, Event(op, 0));
    GoodNext(sp, op, 0);
    next := Next(sp, op, 0);
  }

  /** The parts of the state that the run is about. */
  ghost predicate Looks(sp: Spool, tape: Tape, consumers: Consumers, ending: Ending) {
    sp.opening == Some(Opening(Job, 100)) && sp.tape == tape && sp.consumers == consumers && sp.ending == ending
  }

  /** Both frames are stored. */
  ghost predicate Stocked(st: Store) { st.pruned == 0 && st.frames == map[1 := Asking, 2 := Final] }

  const Quiet := Ending(false, None, false)

  lemma Opened() returns (sp: Spool)
    ensures Reached(Opens, sp)
    ensures sp == Fresh(0).(opening := Some(Opening(Job, 100)))
  {
    FreshGood(0);
    sp := Then([], Fresh(0), DoOpen(Opening(Job, 100)));
    assert [] + Opens == Opens;
    ReduceOne(Fresh(0), SpoolRecord.Opened(Opening(Job, 100)), 0);
  }

  /** Without consumers, a small frame is stored and nothing else happens. */
  lemma StoresAlone(sp: Spool, frame: Frame, a: Artifact, isFinal: bool, bracket: Bracket)
    requires Looks(sp, sp.tape, map[], Quiet) && sp.tape.finalSeq.None? && sp.store.deleting == {}
    requires sp.store.retained < 90 && frame.artifacts == {a} && a.bytes == 1 && BracketFits(sp.tape.asking, bracket)
    ensures var r := FrameStored(sp.tape.lastSeq + 1, frame, isFinal, None, bracket);
            Next(sp, DoAppend(Job, frame, isFinal, None, bracket), 0) == Folded(sp, r)
            && Folded(sp, r).store.retained <= sp.store.retained + 1
  {
    SmallFrame(sp.store, frame, a);
    NoSlow(sp, frame.artifacts);
    StoreCommits(sp, DoAppend(Job, frame, isFinal, None, bracket),
                 FrameStored(sp.tape.lastSeq + 1, frame, isFinal, None, bracket));
  }

  lemma StoreCommits(sp: Spool, op: Operation, r: SpoolRecord)
    requires Decide(sp, op, 0) == Commit([r]) && Acceptable(sp, r, 0)
    ensures Next(sp, op, 0) == Folded(sp, r)
  {
    ReduceOne(sp, r, 0);
  }

  lemma NoSlow(sp: Spool, extra: set<Artifact>)
    requires sp.consumers == map[]
    ensures Degradations(Ordered(SlowKeys(sp, extra))) == []
  {
    assert SlowKeys(sp, extra) == {};
  }

  lemma SmallFrame(st: Store, frame: Frame, a: Artifact)
    requires frame.artifacts == {a} && a.bytes == 1
    ensures Required(st, frame) <= 1 && Sum(frame.artifacts - st.counts.Keys) <= 1
  {
    SumRemove({a}, a);
    SumSubset({a} - st.counts.Keys - st.deleting, {a});
    SumSubset({a} - st.counts.Keys, {a});
  }

  lemma Stored() returns (sp: Spool)
    ensures Reached(Ends, sp) && Stocked(sp.store)
    ensures Looks(sp, Tape(2, HeadStep(HeadSeed(0), 1), Some(2), map[], {5}), map[], Quiet)
  {
    var q := Opened();
    StoresAlone(q, Asking, Artifact(1, 1), false, Asked(5));
    var r := Then(Opens, q, DoAppend(Job, Asking, false, None, Asked(5)));
    StoresAlone(r, Final, Artifact(2, 1), true, NoBracket);
    sp := Then(Asks, r, DoAppend(Job, Final, true, None, NoBracket));
  }

  const Recorded := Tape(2, HeadStep(HeadSeed(0), 1), Some(2), map[], {5})

  lemma Joined() returns (sp: Spool)
    ensures Reached(Joins, sp) && Stocked(sp.store)
    ensures Looks(sp, Recorded, map[OwnerRelay := Consumer(0, 0, false, true, 0, None)], Quiet)
  {
    var q := Stored();
    var entries := [Qualification(OwnerRelay, None)];
    sp := Then(Ends, q, DoQualify(Job, entries));
    assert entries[1..] == [];
    assert Qualifications(q.consumers, entries) == [Qualified(OwnerRelay, None)];
    ReduceOne(q, Qualified(OwnerRelay, None), 0);
    assert Qualify(q, Job, entries) == Commit([Qualified(OwnerRelay, None)] + []);
  }

  lemma Linked() returns (sp: Spool)
    ensures Reached(Connects, sp) && Stocked(sp.store)
    ensures Looks(sp, Recorded, map[OwnerRelay := Consumer(0, 0, false, true, 1, None)], Quiet)
  {
    var q := Joined();
    sp := Then(Joins, q, DoConnect(Job, OwnerRelay));
    ReduceOne(q, Connected(OwnerRelay, 1), 0);
  }

  lemma BothRead(sp: Spool)
    requires Stocked(sp.store) && sp.tape == Recorded
    ensures ReadUpTo(sp, 0, 10, 100) == 2
  {
    var frames := sp.store.frames;
    assert FramesFrom(frames, 3, 2, 2, 2, 10, 100) == [];
    assert FramesFrom(frames, 2, 2, 1, 1, 10, 100) == [2];
    assert FramesFrom(frames, 1, 2, 0, 0, 10, 100) == [1, 2];
  }

  lemma HasRead() returns (sp: Spool)
    ensures Reached(Reads, sp) && Stocked(sp.store)
    ensures Looks(sp, Recorded, map[OwnerRelay := Consumer(0, 2, false, true, 1, None)], Quiet)
  {
    var q := Linked();
    BothRead(q);
    sp := Then(Connects, q, DoSubscribe(Job, OwnerRelay, 1, 0, None, 10, 100));
    ReduceOne(q, Offered(OwnerRelay, 2), 0);
    assert Subscribe(q, Job, OwnerRelay, 1, 0, None, 10, 100) == Commit([Offered(OwnerRelay, 2)] + []);
  }

  lemma HasAcknowledged() returns (sp: Spool)
    ensures Reached(Acknowledges, sp)
    ensures Looks(sp, Recorded, map[OwnerRelay := Consumer(2, 2, false, true, 1, None)], Quiet)
  {
    var q := HasRead();
    sp := Then(Reads, q, DoAcknowledge(OwnerRelay, 1, 2, 10));
    AcknowledgeLeaves(q, OwnerRelay, 1, 2, 0, 10);
  }

  lemma TerminalArms(sp: Spool, marked: Spool, armed: Spool)
    requires !sp.ending.reclaimed && !sp.ending.terminal && sp.ending.reclaimAfter.None? && sp.opening.Some?
             && sp.tape.finalSeq == Some(2)
    requires marked == sp.(ending := sp.ending.(terminal := true)) && CanArm(marked)
    requires armed == marked.(ending := marked.ending.(reclaimAfter := Some(10)))
    ensures Next(sp, DoTerminal(2, 10), 0) == armed
  {
    ReduceOne(sp, TerminalMarked(2), 0);
    ReduceOne(marked, ReclaimArmed(10), 0);
    ReduceConcat(sp, [TerminalMarked(2)], [ReclaimArmed(10)], 0);
  }

  lemma HasArmed() returns (sp: Spool)
    ensures Reached(Arms, sp)
    ensures Looks(sp, Recorded, map[OwnerRelay := Consumer(2, 2, false, true, 1, None)], Ending(true, Some(10), false))
  {
    var q := HasAcknowledged();
    assert RelayDone(q.consumers, 2) && SurfacesDone(q.consumers, 2);
    sp := Then(Acknowledges, q, DoTerminal(2, 10));
    var marked := q.(ending := q.ending.(terminal := true));
    TerminalArms(q, marked, marked.(ending := marked.ending.(reclaimAfter := Some(10))));
  }

  /** A disciplined run from a fresh spool sets the timer of a job whose interaction is open; after its relay is
      revoked the timer is still set, and when it falls due, what it commits is refused. */
  lemma RevokedRelayReached(now: Time, at: Time)
    requires 10 <= now <= at
    ensures Disciplined(Fresh(0), Arms) && Run(Fresh(0), Arms).ending.reclaimAfter == Some(10)
            && CanArm(Run(Fresh(0), Arms))
    ensures Disciplined(Fresh(0), Revokes) && Run(Fresh(0), Revokes).ending.reclaimAfter == Some(10)
    ensures ReclaimDue(Run(Fresh(0), Revokes), now).Commit?
    ensures !Accepted(Run(Fresh(0), Revokes), ReclaimDue(Run(Fresh(0), Revokes), now), at)
  {
    var sp := HasArmed();
    RevokedRelayBlocksReclaim(sp, now, 0, at);
    var after := Then(Arms, sp, DoRevoke(OwnerRelay));
  }
}
