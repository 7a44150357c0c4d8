/** The ledger projection as the executor keeps it: fields that one record after the other updates in place. */
module LedgerCell {
  import opened Options
  import opened LedgerRecords
  import opened LedgerValidator
  import opened LedgerProjection
  import opened LedgerShortcut

  class LedgerState {
    var validation: Validation
    var status: Status
    var requested: map<RequestId, Requested>
    var pendingRequests: seq<Requested>
    var finished: map<RequestId, MirrorItem>
    var finishedBase: nat
    var finishedOrder: seq<MirrorItem>
    var mirroredCount: nat
    var mirroredDigest: MirrorChain
    var sideEffects: map<nat, SideEffect>
    var stagedMutations: seq<Staged>
    var stagedById: map<RequestId, Staged>
    var shortcut: Shortcut

    ghost function Value(): Projection
      reads this
    {
      Projection(validation, status, Requests(requested, pendingRequests, finished),
                 MirrorLog(finishedBase, finishedOrder, mirroredCount, mirroredDigest),
                 sideEffects, Mutations(stagedMutations, stagedById), shortcut)
    }

    constructor (id: AssignmentId)
      ensures Value() == Empty(id)
    {
      validation := Create(id);
      status := Status(None, None, None, None, [], None, None, None, None);
      requested, pendingRequests, finished := map[], [], map[];
      finishedBase, finishedOrder, mirroredCount, mirroredDigest := 0, [], 0, MirrorSeed(id);
      sideEffects, stagedMutations, stagedById := map[], [], map[];
      shortcut := Shortcut(0, 0, {}, map[]);
    }

    /** Validates one record and folds it in; refused records are reported as a corrupt ledger. */
    method ApplyEntry(entry: Entry) returns (ok: bool)
      modifies this
      ensures ok <==> Step(old(Value()), entry).Some?
      ensures ok ==> Value() == Step(old(Value()), entry).value
    {
      if !Admitted(validation, entry.body) { return false; }
      validation := Commit(validation, entry.body);
      if entry.body.InteractionRequested? || entry.body.InteractionFinished? || entry.body.TrustSediment?
         || entry.body.Mirrored? {
        ok := ApplyInteraction(entry);
      } else if entry.body.SideEffectStarted? || entry.body.SideEffectCompleted? || entry.body.StagedMutation? {
        ok := ApplyWork(entry.body);
      } else {
        status := StatusAfter(status, validation.lastSeq, validation.chain, entry.body);
        ok := true;
      }
    }

    method ApplyInteraction(entry: Entry) returns (ok: bool)
      requires entry.body.InteractionRequested? || entry.body.InteractionFinished? || entry.body.TrustSediment?
               || entry.body.Mirrored?
      modifies this
      ensures var item := ItemOf(validation.mirror, validation.lastSeq, entry.body, entry.at);
              && validation == old(validation)
              && (ok <==> Applicable(old(Value()), entry.body, item))
              && (ok ==> Value() == Apply(old(Value()), validation, entry))
    {
      var s := validation.lastSeq;
      match entry.body
      case InteractionRequested(id, request) =>
        var r := Requested(id, request, s);
        requested := requested[id := r];
        pendingRequests := pendingRequests + [r];
        ok := true;
      case InteractionFinished(id, outcome) =>
        if s !in validation.mirror.unmirrored || !HasRequest(pendingRequests, id) { return false; }
        var checkpoint := validation.mirror.unmirrored[s];
        var item := MirrorItem(FinishedBody(id, outcome), s, entry.at, checkpoint.ordinal, checkpoint.digest);
        pendingRequests := Without(pendingRequests, id);
        finished := finished[id := item];
        finishedOrder := finishedOrder + [item];
        ok := true;
      case TrustSediment(ordinal, fact) =>
        if s !in validation.mirror.unmirrored { return false; }
        var checkpoint := validation.mirror.unmirrored[s];
        finishedOrder :=
          finishedOrder + [MirrorItem(SedimentBody(ordinal, fact), s, entry.at, checkpoint.ordinal, checkpoint.digest)];
        ok := true;
      case Mirrored(upTo, _, digest) =>
        var index := IndexOf(finishedOrder, upTo);
        if index.None? { return false; }
        mirroredCount := finishedBase + index.value + 1;
        mirroredDigest := digest;
        ok := true;
    }

    method ApplyWork(body: Record) returns (ok: bool)
      requires body.SideEffectStarted? || body.SideEffectCompleted? || body.StagedMutation?
      modifies this
      ensures validation == old(validation)
      ensures ok <==> Applicable(old(Value()), body, None)
      ensures ok ==>
                var staged := Mutations(old(stagedMutations), old(stagedById));
                Value() == old(Value()).(effects := EffectsAfter(old(sideEffects), body),
                                         mutations := MutationsAfter(staged, body))
    {
      match body
      case SideEffectStarted(e, input) =>
        sideEffects := sideEffects[e := SideEffect(input, None)];
        ok := true;
      case SideEffectCompleted(e, result) =>
        if e !in sideEffects { return false; }
        sideEffects := sideEffects[e := SideEffect(sideEffects[e].input, Some(result))];
        ok := true;
      case StagedMutation(staged) =>
        stagedMutations := stagedMutations + [staged];
        stagedById := stagedById[staged.requestId := staged];
        ok := true;
    }

    /** Replays a log from the start; the first refused record stops it. */
    method Replayed(id: AssignmentId, log: seq<Entry>) returns (ok: bool)
      requires Value() == Empty(id)
      modifies this
      ensures ok <==> Replay(id, log).Some?
      ensures ok ==> Value() == Replay(id, log).value
    {
      for i := 0 to |log|
        invariant Replay(id, log[..i]) == Some(Value())
      {
        assert log[..i + 1][..i] == log[..i];
        var taken := ApplyEntry(log[i]);
        if !taken {
          RefusedPrefix(id, log, i + 1);
          return false;
        }
      }
      assert log[..|log|] == log;
      ok := true;
    }
  }

  lemma {:induction false} RefusedPrefix(id: AssignmentId, log: seq<Entry>, k: nat)
    requires k <= |log| && Replay(id, log[..k]).None?
    ensures Replay(id, log).None?
    decreases |log|
  {
    if k == |log| {
      assert log[..k] == log;
    } else {
      assert log[..|log| - 1][..k] == log[..k];
      RefusedPrefix(id, log[..|log| - 1], k);
    }
  }

  // ---------------------------------------------------------------- the decision snapshot

  lemma HighestUnique(s: set<nat>, atLeast: nat, top: nat)
    requires top >= atLeast && (forall x :: x in s ==> x <= top) && (top == atLeast || top in s)
    ensures top == Highest(s, atLeast)
  {
  }

  /** Requests a snapshot keeps, and the highest sequence it drops; `order` lists the keys as the map holds them. */
  method KeepRequests(rq: Requests, floor: Option<nat>, order: seq<RequestId>,
      atLeast: nat) returns (kept: map<RequestId, Requested>, top: nat)
    requires forall id :: id in order <==> id in rq.requested
    ensures kept == KeptRequests(rq, floor)
    ensures top == Highest(DroppedRequests(rq, floor), atLeast)
  {
    ghost var all := KeptRequests(rq, floor);
    kept, top := map[], atLeast;
    for i := 0 to |order|
      invariant forall id :: id in kept <==> id in order[..i] && id in all
      invariant forall id :: id in kept ==> kept[id] == rq.requested[id]
      invariant top >= atLeast && (top == atLeast || top in DroppedRequests(rq, floor))
      invariant forall id :: id in order[..i] && id !in all ==> rq.requested[id].recordSeq <= top
    {
      var id := order[i];
      assert id in order && order[..i + 1] == order[..i] + [id];
      var item := rq.requested[id];
      if HasRequest(rq.pending, id) || Above(floor, item.recordSeq) {
        kept := kept[id := item];
      } else if item.recordSeq > top {
        top := item.recordSeq;
      }
    }
    assert order[..|order|] == order;
    assert forall id :: (id in kept <==> id in all) && (id in kept ==> kept[id] == all[id]);
    HighestUnique(DroppedRequests(rq, floor), atLeast, top);
  }

  method KeepResults(rq: Requests, floor: Option<nat>, order: seq<RequestId>,
      atLeast: nat) returns (kept: map<RequestId, MirrorItem>, top: nat)
    requires forall id :: id in order <==> id in rq.finished
    ensures kept == KeptResults(rq, floor)
    ensures top == Highest(DroppedResults(rq, floor), atLeast)
  {
    ghost var all := KeptResults(rq, floor);
    kept, top := map[], atLeast;
    for i := 0 to |order|
      invariant forall id :: id in kept <==> id in order[..i] && id in all
      invariant forall id :: id in kept ==> kept[id] == rq.finished[id]
      invariant top >= atLeast && (top == atLeast || top in DroppedResults(rq, floor))
      invariant forall id :: id in order[..i] && id !in all ==> rq.finished[id].recordSeq <= top
    {
      var id := order[i];
      assert id in order && order[..i + 1] == order[..i] + [id];
      var item := rq.finished[id];
      if Above(floor, item.recordSeq) {
        kept := kept[id := item];
      } else if item.recordSeq > top {
        top := item.recordSeq;
      }
    }
    assert order[..|order|] == order;
    assert forall id :: (id in kept <==> id in all) && (id in kept ==> kept[id] == all[id]);
    HighestUnique(DroppedResults(rq, floor), atLeast, top);
  }

  /** Picks the decision state out of a keyed projection; the orders list the keys of its two maps. */
  method DecisionSnapshot(p: Projection, requestOrder: seq<RequestId>,
      resultOrder: seq<RequestId>) returns (r: Projection)
    requires forall id :: id in requestOrder <==> id in p.requests.requested
    requires forall id :: id in resultOrder <==> id in p.requests.finished
    ensures r == Snapshot(p)
  {
    var floor := Floor(p.v);
    var keptRequested, requestTop := KeepRequests(p.requests, floor, requestOrder, p.shortcut.omittedUpTo);
    var keptFinished, omitted := KeepResults(p.requests, floor, resultOrder, requestTop);
    HighestUnique(Dropped(p.requests, floor), p.shortcut.omittedUpTo, omitted);
    r := Projection(p.v.(talk := p.v.talk.(requested := keptRequested.Keys)), p.status,
                    Requests(keptRequested, p.requests.pending, keptFinished), KeptMirrors(p.mirrors),
                    OpenEffects(p.effects), p.mutations, Shortcut(p.v.lastSeq, omitted, {}, map[]));
  }
}
