/** Decisions made from the shortened state are the decisions full replay would make. */
module LedgerAgreement {
  import opened Options
  import opened LedgerRecords
  import opened LedgerProjection
  import opened LedgerCoherence
  import opened LedgerHistory
  import opened LedgerShortcut
  import opened LedgerRefinement
  import opened LedgerDecisions

  /** The parts that both states hold in full. */
  ghost predicate SameCore(f: Projection, s: Projection) {
    && s.v == f.v.(talk := s.v.talk)
    && s.status == f.status
    && s.mutations == f.mutations
    && s.requests.pending == f.requests.pending
    && s.mirrors.Count() == f.mirrors.Count()
    && s.mirrors.mirroredCount == f.mirrors.mirroredCount
    && (f.HasOpenEffect() <==> s.HasOpenEffect())
  }

  lemma CoreAgrees(f: Projection, s: Projection, h: Projection)
    requires Agrees(f, s, h)
    ensures SameCore(f, s)
    ensures f.HasPendingObligations() <==> s.HasPendingObligations()
  {
    assert f.HasOpenEffect() ==> s.HasOpenEffect() by {
      if e :| e in f.effects && f.effects[e].result.None? { assert e in s.effects; }
    }
    assert s.HasOpenEffect() ==> f.HasOpenEffect() by {
      if e :| e in s.effects && s.effects[e].result.None? { assert e in f.effects; }
    }
  }

  /** Decisions that read no completed history. */
  lemma ControlDecisions(f: Projection, s: Projection, c: Command)
    requires SameCore(f, s)
    requires c.DoDispatch? || c.DoReject? || c.DoRenew? || c.DoSupersede? || c.DoStart? || c.DoStartEffect?
             || c.DoStage? || c.DoSediment?
    ensures Decide(f, c) == Decide(s, c)
  {
  }

  lemma EndingDecisions(f: Projection, s: Projection, c: Command)
    requires SameCore(f, s) && (f.HasPendingObligations() <==> s.HasPendingObligations())
    requires c.DoSeal? || c.DoAcknowledge? || c.DoFail? || c.DoRequestAbort? || c.DoCompleteAbort? || c.DoMarkProof?
             || c.AskOpenEffects?
    ensures Decide(f, c) == Decide(s, c)
  {
  }

  lemma PendingDecisions(f: Projection, s: Projection, c: Command)
    requires SameCore(f, s)
    requires c.DoRecover? || c.DoClose? || c.DoEnable? || c.AskPendingRequests? || c.AskOverlay?
    ensures Decide(f, c) == Decide(s, c)
  {
  }

  lemma RequestDecisions(f: Projection, s: Projection, h: Projection, c: Command)
    requires SameCore(f, s) && RequestsAgree(f.requests, s.requests, h.requests, s.shortcut.checked)
    requires Knows(f, s, NeedsOf(c))
    requires c.DoRequest? || c.DoFinish? || c.AskJobOutcome? || c.AskConversationOutcome?
    ensures Decide(f, c) == Decide(s, c)
  {
    assert c.id in NeedsOf(c).requests;
  }

  lemma EffectDecisions(f: Projection, s: Projection, h: Projection, e: nat, result: Payload)
    requires EffectsAgree(f.effects, s.effects, h.effects) && (e in f.effects <==> e in s.effects)
    ensures CompleteEffect(f, e, result) == CompleteEffect(s, e, result)
  {
  }

  lemma ChainItemAgrees(f: Projection, s: Projection, h: Projection, upTo: nat)
    requires MirrorsAgree(f.mirrors, s.mirrors, h.mirrors, s.shortcut.historic)
             && Numbered(f.mirrors.order, 0, f.v.lastSeq)
    requires f.mirrors.Find(upTo).Some? ==> s.mirrors.Find(upTo).Some? || upTo in s.shortcut.historic
    requires f.shortcut.historic == map[]
    ensures ChainItem(f, upTo) == ChainItem(s, upTo)
  {
    FindAgrees(f.mirrors, s.mirrors, f.v.lastSeq, upTo);
    if s.mirrors.Find(upTo).None? && upTo in s.shortcut.historic {
      var item := s.shortcut.historic[upTo];
      var i :| 0 <= i < |f.mirrors.order| && f.mirrors.order[i] == item;
      assert f.mirrors.Find(upTo).value == i;
    }
  }

  lemma PendingMirrorsAgree(f: Projection, s: Projection, h: Projection, limit: nat)
    requires MirrorsAgree(f.mirrors, s.mirrors, h.mirrors, s.shortcut.historic)
             && f.mirrors.mirroredCount <= |f.mirrors.order|
    ensures PendingMirrors(f, limit) == PendingMirrors(s, limit)
  {
    assert f.mirrors.order[s.mirrors.base..][f.mirrors.mirroredCount - s.mirrors.base..] ==
      f.mirrors.order[f.mirrors.mirroredCount..];
  }

  lemma InteractionSeqsAgree(f: Requests, s: Requests, h: Requests, checked: set<RequestId>, floor: Option<nat>,
      omitted: nat, after: nat, upTo: nat)
    requires RequestsAgree(f, s, h, checked) && OnlyOldMissing(f, s, floor, omitted)
    requires floor == Some(after) || omitted <= after
    ensures InteractionSeqs(f, after, upTo) == InteractionSeqs(s, after, upTo)
  {
    forall x | x in InteractionSeqs(f, after, upTo) ensures x in InteractionSeqs(s, after, upTo) {
      if id :| id in f.requested && after < f.requested[id].recordSeq <= upTo && x == f.requested[id].recordSeq {
        assert id in s.requested;
      } else {
        var id :| id in f.finished && after < f.finished[id].recordSeq <= upTo && x == f.finished[id].recordSeq;
        assert id in s.finished;
      }
    }
  }

  lemma ProjectionDecisions(f: Projection, s: Projection, h: Projection, receipts: seq<FrameReceipt>,
      lastStreamSeq: nat, head: Payload)
    requires SameCore(f, s) && RequestsAgree(f.requests, s.requests, h.requests, s.shortcut.checked)
    requires OnlyOldMissing(f.requests, s.requests, Floor(f.v), s.shortcut.omittedUpTo)
    ensures MarkProjected(f, receipts, lastStreamSeq, head) == MarkProjected(s, receipts, lastStreamSeq, head)
  {
    if f.v.life.IsJob() && f.v.stream.enabledAfter.Some? && LastResult(receipts).Some? {
      InteractionSeqsAgree(f.requests, s.requests, h.requests, s.shortcut.checked, Floor(f.v), s.shortcut.omittedUpTo,
                           f.v.stream.projectedUpTo, LastResult(receipts).value);
    }
  }

  /** Decisions on history they declare. */
  lemma HistoryDecisions(f: Projection, s: Projection, h: Projection, c: Command)
    requires SameCore(f, s) && Agrees(f, s, h) && Knows(f, s, NeedsOf(c)) && f.shortcut.historic == map[]
    requires MirrorCoherent(f.mirrors, f.v.mirror, f.v.lastSeq)
    requires NeedsOf(c) != Needs({}, {}, {}) || c.DoMarkProjected? || c.AskPendingMirrors?
    ensures Decide(f, c) == Decide(s, c)
  {
    match c
    case DoCompleteEffect(e, result) =>
      assert e in NeedsOf(c).effects;
      EffectDecisions(f, s, h, e, result);
    case DoMarkMirrored(upTo, ordinal, digest) => ReceiptDecisions(f, s, h, upTo, ordinal, digest);
    case DoMarkProjected(receipts, lastStreamSeq, head) => ProjectionDecisions(f, s, h, receipts, lastStreamSeq, head);
    case AskPendingMirrors(limit) => PendingMirrorsAgree(f, s, h, limit);
    case _ => RequestDecisions(f, s, h, c);
  }

  lemma ReceiptDecisions(f: Projection, s: Projection, h: Projection, upTo: nat, ordinal: nat, digest: MirrorChain)
    requires SameCore(f, s) && MirrorsAgree(f.mirrors, s.mirrors, h.mirrors, s.shortcut.historic)
    requires Numbered(f.mirrors.order, 0, f.v.lastSeq) && f.shortcut.historic == map[]
    requires Knows(f, s, Needs({}, {}, {upTo}))
    ensures MarkMirrored(f, upTo, ordinal, digest) == MarkMirrored(s, upTo, ordinal, digest)
  {
    ChainItemAgrees(f, s, h, upTo);
  }

  /** Every decision that declares its history needs returns the same outcome from the shortened state. */
  lemma SameDecision(f: Projection, s: Projection, h: Projection, c: Command)
    requires Coherent(f) && Agrees(f, s, h) && Knows(f, s, NeedsOf(c)) && f.shortcut.historic == map[]
    ensures Decide(f, c) == Decide(s, c)
  {
    CoreAgrees(f, s, h);
    if NeedsOf(c) != Needs({}, {}, {}) || c.DoMarkProjected? || c.AskPendingMirrors? {
      HistoryDecisions(f, s, h, c);
    } else {
      CoreDecisions(f, s, c);
    }
  }

  lemma CoreDecisions(f: Projection, s: Projection, c: Command)
    requires SameCore(f, s) && (f.HasPendingObligations() <==> s.HasPendingObligations())
    requires NeedsOf(c) == Needs({}, {}, {}) && !c.DoMarkProjected? && !c.AskPendingMirrors?
    ensures Decide(f, c) == Decide(s, c)
  {
    if c.DoSeal? || c.DoAcknowledge? || c.DoFail? || c.DoRequestAbort? || c.DoCompleteAbort? || c.DoMarkProof?
       || c.AskOpenEffects? {
      EndingDecisions(f, s, c);
    } else if c.DoRecover? || c.DoClose? || c.DoEnable? || c.AskPendingRequests? || c.AskOverlay? {
      PendingDecisions(f, s, c);
    } else {
      ControlDecisions(f, s, c);
    }
  }

  /** At any point of any run with cuts and look-ups, hydrating a command's needs and deciding gives the
      decision of full replay over the same records. */
  lemma DecisionsSurviveShortcut(id: AssignmentId, run: seq<Action>, c: Command)
    requires Replay(id, Entries(run)).Some?
    ensures ShortRun(id, run + [LookUp(NeedsOf(c))]).Some?
    ensures Decide(ShortRun(id, run + [LookUp(NeedsOf(c))]).value, c) == Decide(Replay(id, Entries(run)).value, c)
  {
    var log := Entries(run);
    var longer := run + [LookUp(NeedsOf(c))];
    assert longer[..|run|] == run;
    ShortcutRefinesReplay(id, run);
    var s := ShortRun(id, run).value;
    HydrateAgrees(id, log, s, NeedsOf(c));
    ReplayCoherent(id, log);
    var known := Hydrate(s, NeedsOf(c), RowsOf(id, log)).value;
    SameDecision(Replay(id, log).value, known, Replay(id, log[..known.shortcut.historyBase]).value, c);
  }

  /** The events a projector still has to read are complete in memory unless the omitted mark lies above its
      position, in which case the ledger replays in full. */
  lemma StreamEventsComplete(f: Projection, s: Projection, h: Projection, after: nat, upTo: nat)
    requires Agrees(f, s, h) && s.shortcut.omittedUpTo <= after
    ensures InteractionSeqs(s.requests, after, upTo) == InteractionSeqs(f.requests, after, upTo)
  {
    InteractionSeqsAgree(f.requests, s.requests, h.requests, s.shortcut.checked, Floor(f.v), s.shortcut.omittedUpTo,
                         after, upTo);
  }
}
