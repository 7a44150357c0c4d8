/** Replayable ledgers on which a decision appends what the shared validator refuses: one for each command whose
    guard is weaker than the validator's. */
module LedgerWitnesses {
  import opened Options
  import opened LedgerRecords
  import opened LedgerValidator
  import opened LedgerProjection
  import opened LedgerCoherence
  import opened LedgerDecisions
  import opened LedgerAcceptance

  /** These records, all committed at time 0. */
  function Ledger(bodies: seq<Record>): (log: seq<Entry>)
    ensures |log| == |bodies| && forall i :: 0 <= i < |log| ==> log[i] == Entry(bodies[i], 0)
  {
    seq(|bodies|, i requires 0 <= i < |bodies| => Entry(bodies[i], 0))
  }

  /** The ledger can be replayed, and the decision on it is an append that the validator refuses. */
  ghost predicate RefusedAppend(bodies: seq<Record>, c: Command) {
    && Replay(0, Ledger(bodies)).Some?
    && var p := Replay(0, Ledger(bodies)).value;
       Decide(p, c).Append? && AcceptAll(p.v, Decide(p, c).bodies).None?
  }

  lemma OneMore(bodies: seq<Record>, body: Record, p: Projection)
    requires Replay(0, Ledger(bodies)) == Some(p)
    ensures Replay(0, Ledger(bodies + [body])) == Step(p, Entry(body, 0))
  {
    assert Ledger(bodies + [body])[..|bodies|] == Ledger(bodies);
  }

  lemma RefusedOne(bodies: seq<Record>, c: Command, p: Projection)
    requires Replay(0, Ledger(bodies)) == Some(p) && Decide(p, c).Append? && |Decide(p, c).bodies| == 1
    requires !Admitted(p.v, Decide(p, c).bodies[0])
    ensures RefusedAppend(bodies, c)
  {
    AcceptOne(p.v, Decide(p, c).bodies[0]);
    assert Decide(p, c).bodies == [Decide(p, c).bodies[0]];
  }

  /** Without a recorded control lease, dispatching, superseding and fencing are appended and refused. */
  lemma UncontrolledRefused(c: Command)
    requires c.DoDispatch? || c.DoSupersede? || (c.DoRequestAbort? && c.cause.OwnerFence?)
    ensures RefusedAppend([], c)
  {
    assert Ledger([]) == [];
    RefusedOne([], c, Empty(0));
  }

  const Owned := ControlLeaseRenewed(Control(JobRef(1, 1), 7, 1, 1))
  const Dispatched := Received(JobRef(1, 1), 7, 1)

  lemma OwnedJob() returns (p: Projection)
    ensures Replay(0, Ledger([Owned])) == Some(p) == Step(Empty(0), Entry(Owned, 0))
  {
    assert Ledger([]) == [] && [] + [Owned] == [Owned];
    OneMore([], Owned, Empty(0));
    p := Step(Empty(0), Entry(Owned, 0)).value;
  }

  /** A late invalid dispatch on a superseded ledger. */
  lemma RejectionAfterFenceRefused()
    ensures RefusedAppend([Owned, SupersedeFenced(Fence(1, 1))], DoReject(1, 1))
  {
    var p := OwnedJob();
    var fenced := SupersedeFenced(Fence(1, 1));
    OneMore([Owned], fenced, p);
    assert [Owned] + [fenced] == [Owned, fenced];
    RefusedOne([Owned, fenced], DoReject(1, 1), Step(p, Entry(fenced, 0)).value);
  }

  lemma ReceivedJob() returns (p: Projection)
    ensures Replay(0, Ledger([Owned, Dispatched])) == Some(p)
    ensures p.status.received.Some? && p.status.startedAt.None? && p.status.aborts == [] && p.status.halted.None?
            && p.status.fencedAt.None?
    ensures p.v == Create(0).(lastSeq := 2, chain := p.v.chain,
                              life := Life(ReceivedPhase, Some(JobRef(1, 1)), false, Some(Owned.control), map[],
                                           false, None))
    ensures p.requests == Empty(0).requests && p.mirrors == Empty(0).mirrors && p.effects == map[]
  {
    var q := OwnedJob();
    OneMore([Owned], Dispatched, q);
    assert [Owned] + [Dispatched] == [Owned, Dispatched];
    p := Step(q, Entry(Dispatched, 0)).value;
  }

  const ForPrincipal7 := AbortRequested(Abort(TicketKey(1), 7))

  lemma AbortedJob() returns (p: Projection)
    ensures Replay(0, Ledger([Owned, Dispatched, ForPrincipal7])) == Some(p)
    ensures p.status.aborts == [ForPrincipal7.abort] && p.status.halted.None? && p.status.startedAt.None?
            && p.status.fencedAt.None?
    ensures p.v.life.phase.ReceivedPhase? && p.v.life.ref == Some(JobRef(1, 1)) && p.v.stream == Create(0).stream
    ensures p.requests == Empty(0).requests && p.mirrors == Empty(0).mirrors && p.effects == map[]
    ensures TicketKey(1) in p.v.life.aborts && p.v.life.aborts[TicketKey(1)].principal == 7
  {
    var q := ReceivedJob();
    OneMore([Owned, Dispatched], ForPrincipal7, q);
    assert [Owned, Dispatched] + [ForPrincipal7] == [Owned, Dispatched, ForPrincipal7];
    p := Step(q, Entry(ForPrincipal7, 0)).value;
  }

  const ByPrincipal8 := AbortTicket(1, 8)

  lemma CompletedForOther(p: Projection)
    requires p.status.aborts == [ForPrincipal7.abort] && p.status.halted.None? && p.status.fencedAt.None?
    requires p.v.life.phase.ReceivedPhase? && p.v.life.ref.Some? && !p.HasOpenEffect() && !p.HasPendingObligations()
    requires TicketKey(1) in p.v.life.aborts && p.v.life.aborts[TicketKey(1)].principal == 7
    ensures var d := CompleteAbort(p, ByPrincipal8, JobRef(1, 1), 0, false);
            d.Append? && |d.bodies| == 1 && !Admitted(p.v, d.bodies[0])
  {
    assert p.status.aborts[0] in p.status.aborts;
    assert HasAbort(p, TicketKey(1));
  }

  /** A cancellation recorded for principal 7 of ticket 1, completed in the name of principal 8. */
  lemma ForeignPrincipalRefused()
    ensures RefusedAppend([Owned, Dispatched, ForPrincipal7], DoCompleteAbort(ByPrincipal8, JobRef(1, 1), 0, false))
  {
    var p := AbortedJob();
    CompletedForOther(p);
    RefusedOne([Owned, Dispatched, ForPrincipal7], DoCompleteAbort(ByPrincipal8, JobRef(1, 1), 0, false), p);
  }

  /** A started job, with its stream projection switched on. */
  const Begun := [Owned, Dispatched, Started, StreamProjectionEnabled(3)]

  lemma BegunJob() returns (p: Projection)
    ensures Replay(0, Ledger(Begun)) == Some(p)
    ensures p.v ==
              Create(0).(lastSeq := 4, chain := p.v.chain,
                         stream := Create(0).stream.(enabledAfter := Some(3), projectedUpTo := 3),
                              life := Life(StartedPhase, Some(JobRef(1, 1)), true, Some(Owned.control), map[], false,
                                           None))
    ensures p.requests == Empty(0).requests && p.mirrors == Empty(0).mirrors && p.status.aborts == []
  {
    var q := ReceivedJob();
    OneMore([Owned, Dispatched], Started, q);
    var r := Step(q, Entry(Started, 0)).value;
    assert [Owned, Dispatched] + [Started] == [Owned, Dispatched, Started];
    OneMore([Owned, Dispatched, Started], StreamProjectionEnabled(3), r);
    assert [Owned, Dispatched, Started] + [StreamProjectionEnabled(3)] == Begun;
    p := Step(r, Entry(StreamProjectionEnabled(3), 0)).value;
  }

  const First := InteractionRequested(1, RequestBody(1, 1))

  /** A job's request answered from a surface, without a channel grant. */
  lemma SurfaceAnswerRefused()
    ensures RefusedAppend(Begun + [First], DoFinish(1, Answered(None, 1)))
  {
    var p := BegunJob();
    OneMore(Begun, First, p);
    RefusedOne(Begun + [First], DoFinish(1, Answered(None, 1)), Step(p, Entry(First, 0)).value);
  }

  /** The job's first result is projected at stream checkpoint 5. */
  const FirstDone := InteractionFinished(1, Expired)
  const FirstProjected := StreamProjected(0, 6, 5, 9)

  /** The job's interactions and stream, as far as projecting depends on them. */
  ghost predicate Talked(p: Projection, requested: map<RequestId, nat>, finished: map<RequestId, nat>) {
    && p.requests.requested.Keys == requested.Keys == p.v.talk.requested
    && p.requests.finished.Keys == finished.Keys
    && (forall id :: id in requested ==> p.requests.requested[id].recordSeq == requested[id])
    && (forall id :: id in finished ==> p.requests.finished[id].recordSeq == finished[id])
  }

  ghost predicate Going(p: Projection, lastSeq: nat) {
    && p.v.life.Active() && p.v.life.ref == Some(JobRef(1, 1)) && p.status.aborts == []
    && p.v.lastSeq == lastSeq && p.v.assignment == 0 && p.v.stream.enabledAfter == Some(3)
  }

  /** Asking is a step that leaves one request pending. */
  lemma Ask(p: Projection, id: RequestId, lastSeq: nat) returns (q: Projection)
    requires Going(p, lastSeq) && id !in p.v.talk.requested && p.requests.pending == [] && p.v.talk.pending == {}
    ensures Step(p, Entry(InteractionRequested(id, RequestBody(1, 1)), 0)) == Some(q)
    ensures Going(q, lastSeq + 1) && q.v.stream == p.v.stream
    ensures q.v.talk == Talk(p.v.talk.requested + {id}, {id})
            && q.requests.pending == [Requested(id, RequestBody(1, 1), lastSeq + 1)]
    ensures q.requests.requested == p.requests.requested[id := Requested(id, RequestBody(1, 1), lastSeq + 1)]
    ensures q.requests.finished == p.requests.finished
  {
    q := Step(p, Entry(InteractionRequested(id, RequestBody(1, 1)), 0)).value;
  }

  /** Its expiry is a step that leaves none, and one more result to project. */
  lemma Expire(p: Projection, id: RequestId, r: Requested, lastSeq: nat) returns (q: Projection)
    requires Going(p, lastSeq) && lastSeq >= 4 && p.requests.pending == [r] && r.id == id && p.v.talk.pending == {id}
    ensures Step(p, Entry(InteractionFinished(id, Expired), 0)) == Some(q)
    ensures Going(q, lastSeq + 1) && q.v.talk == Talk(p.v.talk.requested, {}) && q.requests.pending == []
    ensures q.v.stream ==
              p.v.stream.(lastFinishedSeq := lastSeq + 1, unprojected := p.v.stream.unprojected + {lastSeq + 1})
    ensures q.requests.requested == p.requests.requested && q.requests.finished.Keys == p.requests.finished.Keys + {id}
    ensures id in q.requests.finished && q.requests.finished[id].recordSeq == lastSeq + 1
    ensures forall k :: k in p.requests.finished && k != id ==> q.requests.finished[k] == p.requests.finished[k]
  {
    var e := Entry(InteractionFinished(id, Expired), 0);
    ItemOfCommit(p.v, e);
    assert r in p.requests.pending;
    assert Without([r], id) == Without([], id) == [];
    q := Step(p, e).value;
  }

  lemma AskedOnce() returns (p: Projection)
    ensures Replay(0, Ledger(Begun + [First])) == Some(p)
    ensures Going(p, 5) && Talked(p, map[1 := 5], map[]) && p.v.talk.pending == {1}
    ensures p.requests.pending == [Requested(1, RequestBody(1, 1), 5)]
    ensures p.v.stream == Create(0).stream.(enabledAfter := Some(3), projectedUpTo := 3)
  {
    var q := BegunJob();
    OneMore(Begun, First, q);
    p := Ask(q, 1, 4);
  }

  lemma DoneOnce() returns (p: Projection)
    ensures Replay(0, Ledger(Begun + [First, FirstDone])) == Some(p)
    ensures Going(p, 6) && Talked(p, map[1 := 5], map[1 := 6]) && p.v.talk.pending == {} && p.requests.pending == []
    ensures p.v.stream ==
              Create(0).stream.(enabledAfter := Some(3), projectedUpTo := 3, lastFinishedSeq := 6, unprojected := {6})
  {
    var q := AskedOnce();
    OneMore(Begun + [First], FirstDone, q);
    assert Begun + [First] + [FirstDone] == Begun + [First, FirstDone];
    p := Expire(q, 1, q.requests.pending[0], 5);
  }

  lemma ProjectedOnce() returns (p: Projection)
    ensures Replay(0, Ledger(Begun + [First, FirstDone, FirstProjected])) == Some(p)
    ensures Going(p, 7) && Talked(p, map[1 := 5], map[1 := 6]) && p.v.talk.pending == {} && p.requests.pending == []
    ensures p.v.stream.projectedUpTo == 6 && p.v.stream.lastStreamSeq == 5
  {
    var q := DoneOnce();
    OneMore(Begun + [First, FirstDone], FirstProjected, q);
    assert Begun + [First, FirstDone] + [FirstProjected] == Begun + [First, FirstDone, FirstProjected];
    p := Step(q, Entry(FirstProjected, 0)).value;
  }

  const Second := InteractionRequested(2, RequestBody(1, 1))
  const SecondDone := InteractionFinished(2, Expired)
  const Twice := Begun + [First, FirstDone, FirstProjected, Second, SecondDone]

  lemma AskedTwice() returns (p: Projection)
    ensures Replay(0, Ledger(Begun + [First, FirstDone, FirstProjected, Second])) == Some(p)
    ensures Going(p, 8) && Talked(p, map[1 := 5, 2 := 8], map[1 := 6]) && p.v.talk.pending == {2}
    ensures p.requests.pending == [Requested(2, RequestBody(1, 1), 8)]
    ensures p.v.stream.projectedUpTo == 6 && p.v.stream.lastStreamSeq == 5
  {
    var q := ProjectedOnce();
    var log := Begun + [First, FirstDone, FirstProjected];
    OneMore(log, Second, q);
    assert log + [Second] == Begun + [First, FirstDone, FirstProjected, Second];
    p := Ask(q, 2, 7);
  }

  lemma DoneTwice() returns (p: Projection)
    ensures Replay(0, Ledger(Twice)) == Some(p)
    ensures Going(p, 9) && Talked(p, map[1 := 5, 2 := 8], map[1 := 6, 2 := 9])
    ensures p.v.stream.projectedUpTo == 6 && p.v.stream.lastStreamSeq == 5
  {
    var q := AskedTwice();
    var log := Begun + [First, FirstDone, FirstProjected, Second];
    OneMore(log, SecondDone, q);
    assert log + [SecondDone] == Twice;
    p := Expire(q, 2, q.requests.pending[0], 8);
  }

  /** The frames of the second request and its result, reported with the checkpoint of the first. */
  const Stale := [FrameReceipt(8, 4, false), FrameReceipt(9, 5, true)]

  lemma SecondRound(rq: Requests)
    requires rq.requested.Keys == {1, 2} == rq.finished.Keys
    requires rq.requested[1].recordSeq == 5 && rq.finished[1].recordSeq == 6
    requires rq.requested[2].recordSeq == 8 && rq.finished[2].recordSeq == 9
    ensures (set r | r in Stale && 6 < r.recordSeq <= 9 :: r.recordSeq) == {8, 9} == InteractionSeqs(rq, 6, 9)
  {
    assert Stale[0] in Stale && Stale[1] in Stale;
    assert 1 in rq.requested.Keys && 2 in rq.requested.Keys && 2 in rq.finished.Keys;
  }

  lemma StaleMark(p: Projection)
    requires p.v.life.IsJob() && p.v.stream.enabledAfter.Some? && p.v.stream.projectedUpTo == 6
             && p.v.stream.lastStreamSeq == 5
    requires (set r | r in Stale && 6 < r.recordSeq <= 9 :: r.recordSeq) == InteractionSeqs(p.requests, 6, 9)
    ensures MarkProjected(p, Stale, 5, 9) == Append([StreamProjected(p.v.assignment, 9, 5, 9)], Done)
    ensures !Admitted(p.v, StreamProjected(p.v.assignment, 9, 5, 9))
  {
    assert LastResult(Stale) == Some(9);
  }

  lemma StaleRefused(bodies: seq<Record>, p: Projection, mark: Record)
    requires Replay(0, Ledger(bodies)) == Some(p) && MarkProjected(p, Stale, 5, 9) == Append([mark], Done)
             && !Admitted(p.v, mark)
    ensures RefusedAppend(bodies, DoMarkProjected(Stale, 5, 9))
  {
    AcceptOne(p.v, mark);
  }

  /** A projection mark whose checkpoint did not advance. */
  lemma StaleCheckpointRefused()
    ensures RefusedAppend(Twice, DoMarkProjected(Stale, 5, 9))
  {
    var p := DoneTwice();
    SecondRound(p.requests);
    StaleMark(p);
    StaleRefused(Twice, p, StreamProjected(p.v.assignment, 9, 5, 9));
  }
}
