/** A caller whose response was lost may ask again: once a decision's records are committed, the same command
    appends nothing more and gets the answer it would have got. */
module LedgerRetries {
  import opened Options
  import opened LedgerRecords
  import opened LedgerValidator
  import opened LedgerProjection
  import opened LedgerCoherence
  import opened LedgerDecisions
  import opened LedgerAcceptance

  function Stamped(bodies: seq<Record>, at: Time): (entries: seq<Entry>)
    ensures |entries| == |bodies| && forall i :: 0 <= i < |bodies| ==> entries[i] == Entry(bodies[i], at)
  {
    seq(|bodies|, i requires 0 <= i < |bodies| => Entry(bodies[i], at))
  }

  /** The projection after one commit of `bodies`. */
  function Committed(p: Projection, bodies: seq<Record>, at: Time): Option<Projection> {
    Reduce(p, Stamped(bodies, at))
  }

  lemma CommittedOne(p: Projection, body: Record, at: Time)
    ensures Committed(p, [body], at) == Step(p, Entry(body, at))
  {
    assert Stamped([body], at) == [Entry(body, at)];
    assert [Entry(body, at)][..0] == [];
    assert Reduce(p, []) == Some(p);
  }

  lemma CommittedTwo(p: Projection, first: Record, second: Record, at: Time)
    ensures Committed(p, [first, second], at) ==
              match Step(p, Entry(first, at)) case None => None case Some(q) => Step(q, Entry(second, at))
  {
    assert Stamped([first, second], at)[..1] == Stamped([first], at);
    CommittedOne(p, first, at);
  }

  /** What a repeated command is told. */
  function Repeated(c: Command, answer: Answer, at: Time): Answer {
    match c
    case DoStart => Flag(false)
    case DoFinish(id, outcome) =>
      if answer.ResultAt?
      then Result(MirrorItem(FinishedBody(id, outcome), answer.resultSeq, at, answer.ordinal, answer.digest))
      else answer
    case _ => answer
  }

  /** Commands that name what they do; starting an effect or recording a sediment makes a new one each time. */
  predicate Repeatable(c: Command) {
    || c.DoDispatch? || c.DoReject? || c.DoSupersede? || c.DoStart?
    || c.DoCompleteEffect? || c.DoStage? || c.DoFinish? || c.DoEnable? || c.DoMarkMirrored? || c.DoRequest?
    || c.DoSeal? || c.DoAcknowledge? || c.DoFail? || c.DoCompleteAbort? || c.DoMarkProof?
  }

  /** A superseding fence or a cancellation stands against the assignment. */
  predicate Withdrawn(p: Projection) {
    p.status.fencedAt.Some? || p.status.aborts != [] || p.status.halted.Some?
  }

  predicate TurnedAway(rq: Requests, id: RequestId) {
    id in rq.finished && rq.finished[id].body == FinishedBody(id, Cancelled(ByBackpressure))
  }

  /** The committed command `c`, first answered `answer` at time `at`, is settled in `p`: repeating it appends
      nothing and is told the same, unless it asks to go on with an assignment withdrawn since. */
  ghost predicate Settled(p: Projection, c: Command, answer: Answer, at: Time) {
    match c
    case DoRequest(id, _, _) =>
      && answer.RequestDisposition?
      && (!answer.accepted ==> TurnedAway(p.requests, id))
      && Decide(p, c) == Reply(answer.(accepted := !TurnedAway(p.requests, id)))
    case _ =>
      if (c.DoStart? || (c.DoDispatch? && answer.Accepted?)) && Withdrawn(p) then Decide(p, c) == Refused
      else Decide(p, c) == Reply(Repeated(c, answer, at))
  }

  // ---------------------------------------------------------------- the commit settles its command

  lemma LifeCommitted(p: Projection, q: Projection, c: Command, d: Decision, at: Time)
    requires StatusCoherent(p.status, p.v.life) && (c.DoDispatch? || c.DoReject? || c.DoSupersede? || c.DoStart?)
    requires d == Decide(p, c) && d.Append? && Committed(p, d.bodies, at) == Some(q)
    ensures Settled(q, c, d.answer, at)
  {
    CommittedOne(p, d.bodies[0], at);
  }

  lemma WorkCommitted(p: Projection, q: Projection, c: Command, d: Decision, at: Time)
    requires c.DoCompleteEffect? || c.DoStage? || c.DoEnable?
    requires d == Decide(p, c) && d.Append? && Committed(p, d.bodies, at) == Some(q)
    ensures Settled(q, c, d.answer, at)
  {
    CommittedOne(p, d.bodies[0], at);
  }

  lemma ReceiptCommitted(p: Projection, q: Projection, c: Command, d: Decision, at: Time)
    requires MirrorCoherent(p.mirrors, p.v.mirror, p.v.lastSeq) && c.DoMarkMirrored?
    requires d == Decide(p, c) && d.Append? && Committed(p, d.bodies, at) == Some(q)
    ensures Settled(q, c, d.answer, at)
  {
    CommittedOne(p, d.bodies[0], at);
  }

  lemma FinishCommitted(p: Projection, q: Projection, c: Command, d: Decision, at: Time)
    requires MirrorCoherent(p.mirrors, p.v.mirror, p.v.lastSeq) && c.DoFinish?
    requires d == Decide(p, c) && d.Append? && Committed(p, d.bodies, at) == Some(q)
    ensures Settled(q, c, d.answer, at)
  {
    CommittedOne(p, d.bodies[0], at);
    ItemOfCommit(p.v, Entry(d.bodies[0], at));
  }

  lemma EndingCommitted(p: Projection, q: Projection, c: Command, d: Decision, at: Time)
    requires StatusCoherent(p.status, p.v.life) && (c.DoAcknowledge? || c.DoFail?)
    requires d == Decide(p, c) && d.Append? && Committed(p, d.bodies, at) == Some(q)
    ensures Settled(q, c, d.answer, at)
  {
    CommittedOne(p, d.bodies[0], at);
  }

  lemma SealCommitted(p: Projection, q: Projection, c: Command, d: Decision, at: Time)
    requires c.DoSeal? && d == Decide(p, c) && d.Append? && Committed(p, d.bodies, at) == Some(q)
    ensures Settled(q, c, d.answer, at)
  {
    CommittedOne(p, d.bodies[0], at);
  }

  lemma HaltCommitted(p: Projection, q: Projection, c: Command, d: Decision, at: Time)
    requires c.DoCompleteAbort? || c.DoMarkProof?
    requires d == Decide(p, c) && d.Append? && Committed(p, d.bodies, at) == Some(q)
    ensures Settled(q, c, d.answer, at)
  {
    CommittedOne(p, d.bodies[0], at);
  }

  lemma DispositionCommitted(p: Projection, q: Projection, c: Command, d: Decision, at: Time)
    requires Coherent(p) && c.DoRequest?
    requires d == Decide(p, c) && d.Append? && Committed(p, d.bodies, at) == Some(q)
    ensures Settled(q, c, d.answer, at)
  {
    RequestCommitted(p, c.id, c.request, c.maxPending, at);
  }

  lemma CommandCommitted(p: Projection, q: Projection, c: Command, d: Decision, at: Time)
    requires Coherent(p) && Repeatable(c)
    requires d == Decide(p, c) && d.Append? && Committed(p, d.bodies, at) == Some(q)
    ensures Settled(q, c, d.answer, at)
  {
    match c
    case DoRequest(_, _, _) => DispositionCommitted(p, q, c, d, at);
    case DoMarkMirrored(_, _, _) => ReceiptCommitted(p, q, c, d, at);
    case DoFinish(_, _) => FinishCommitted(p, q, c, d, at);
    case DoCompleteEffect(_, _) => WorkCommitted(p, q, c, d, at);
    case DoStage(_, _) => WorkCommitted(p, q, c, d, at);
    case DoEnable => WorkCommitted(p, q, c, d, at);
    case DoSeal(_, _, _) => SealCommitted(p, q, c, d, at);
    case DoAcknowledge(_) => EndingCommitted(p, q, c, d, at);
    case DoFail(_) => EndingCommitted(p, q, c, d, at);
    case DoCompleteAbort(_, _, _, _) => HaltCommitted(p, q, c, d, at);
    case DoMarkProof(_) => HaltCommitted(p, q, c, d, at);
    case _ => LifeCommitted(p, q, c, d, at);
  }

  /** What committing a new request leaves: the request under its own sequence, and one more pending request
      unless the bound was reached, in which case it was turned away in the same commit. */
  lemma RequestCommitted(p: Projection, id: RequestId, request: RequestBody, maxPending: nat, at: Time)
    requires Coherent(p) && RequestInteraction(p, id, request, maxPending).Append?
    requires Committed(p, RequestInteraction(p, id, request, maxPending).bodies, at).Some?
    ensures RequestLeft(p, Committed(p, RequestInteraction(p, id, request, maxPending).bodies, at).value.requests, id,
                        request, maxPending)
  {
    var asked := InteractionRequested(id, request);
    CommittedOne(p, asked, at);
    if |p.requests.pending| >= maxPending {
      CommittedTwo(p, asked, InteractionFinished(id, Cancelled(ByBackpressure)), at);
      TurnedAwayAtOnce(p, Step(p, Entry(asked, at)).value, id, request, at);
    } else {
      TakenOn(p, Step(p, Entry(asked, at)).value, id, request, at);
    }
  }

  ghost predicate RequestLeft(p: Projection, after: Requests, id: RequestId, request: RequestBody, maxPending: nat) {
    && id in after.requested && after.requested[id] == Requested(id, request, p.v.lastSeq + 1)
    && (if |p.requests.pending| < maxPending
        then |after.pending| == |p.requests.pending| + 1 && id !in after.finished
        else after.pending == p.requests.pending && id in after.finished
             && after.finished[id].body == FinishedBody(id, Cancelled(ByBackpressure)))
  }

  lemma TakenOn(p: Projection, q: Projection, id: RequestId, request: RequestBody, at: Time)
    requires RequestsCoherent(p.requests, p.v.talk, p.v.lastSeq)
             && Step(p, Entry(InteractionRequested(id, request), at)) == Some(q)
    ensures id in q.requests.requested && q.requests.requested[id] == Requested(id, request, p.v.lastSeq + 1)
    ensures |q.requests.pending| == |p.requests.pending| + 1 && id !in q.requests.finished
  {
  }

  lemma TurnedAwayAtOnce(p: Projection, q: Projection, id: RequestId, request: RequestBody, at: Time)
    requires Coherent(p) && Step(p, Entry(InteractionRequested(id, request), at)) == Some(q)
    ensures id in q.requests.requested && q.requests.requested[id] == Requested(id, request, p.v.lastSeq + 1)
    ensures var r := Step(q, Entry(InteractionFinished(id, Cancelled(ByBackpressure)), at));
            r.Some? ==>
              && r.value.requests.requested == q.requests.requested && r.value.requests.pending == p.requests.pending
              && id in r.value.requests.finished
                 && r.value.requests.finished[id].body == FinishedBody(id, Cancelled(ByBackpressure))
  {
    ItemOfCommit(q.v, Entry(InteractionFinished(id, Cancelled(ByBackpressure)), at));
    var r := Requested(id, request, p.v.lastSeq + 1);
    NotRequested(p, id);
    WithoutLast(p.requests.pending, r);
  }

  lemma NotRequested(p: Projection, id: RequestId)
    requires RequestsCoherent(p.requests, p.v.talk, p.v.lastSeq)
    ensures id !in p.v.talk.requested ==> forall r :: r in p.requests.pending ==> r.id != id
  {
  }

  lemma {:induction false} WithoutLast(rs: seq<Requested>, r: Requested)
    requires forall o :: o in rs ==> o.id != r.id
    ensures Without(rs + [r], r.id) == rs
    decreases |rs|
  {
    if rs == [] {
      assert rs + [r] == [r] && [r][1..] == [];
    } else {
      assert (rs + [r])[1..] == rs[1..] + [r];
      assert forall o :: o in rs[1..] ==> o in rs;
      WithoutLast(rs[1..], r);
      assert rs[0] in rs;
    }
  }

  // ---------------------------------------------------------------- later records leave it settled

  /** What is once recorded about an assignment's course stays recorded. */
  ghost predicate Recorded(st: Status, later: Status) {
    && (st.received.Some? ==> later.received == st.received)
    && (st.rejection.Some? ==>
          later.rejection == st.rejection && later.received == st.received && later.aborts == st.aborts)
    && (st.startedAt.Some? ==> later.startedAt == st.startedAt)
    && (st.fencedAt.Some? ==> later.fencedAt == st.fencedAt)
    && (st.aborts != [] ==> later.aborts != [])
    && (st.halted.Some? ==> later.halted == st.halted)
    && (st.failure.Some? ==> later.failure == st.failure)
    && (st.sealed.Some? ==> later.sealed == st.sealed)
    && (st.acked.Some? ==> later.acked == st.acked)
    && (st.received.Some? ==> later.rejection == st.rejection)
  }

  lemma StepRecords(p: Projection, q: Projection, e: Entry)
    requires StatusCoherent(p.status, p.v.life) && Step(p, e) == Some(q)
    ensures Recorded(p.status, q.status) && StatusCoherent(q.status, q.v.life)
    ensures p.v.life.proofAccepted ==> q.v.life.proofAccepted
  {
    StatusStep(p, e);
  }

  /** The answers these commands give when they append. */
  predicate LifeAnswer(c: Command, answer: Answer) {
    match c
    case DoDispatch(_, _, _, _, _) => answer.RejectedAt? || answer.Accepted?
    case DoReject(_, _) => answer.RejectedAt?
    case DoSupersede(_) => answer.FenceDecision? && !answer.started
    case _ => c.DoStart?
  }

  predicate EndingAnswer(c: Command, answer: Answer) {
    match c
    case DoSeal(_, _, _) => answer.Done?
    case DoAcknowledge(_) => answer.Done?
    case DoFail(failure) => answer == Failure(Some(failure))
    case DoCompleteAbort(_, _, _, _) => answer.Proof? && answer.proof.Some?
    case DoMarkProof(_) => answer == Flag(true)
    case _ => false
  }

  lemma DispatchStays(p: Projection, q: Projection, c: Command, answer: Answer, at: Time)
    requires StatusCoherent(p.status, p.v.life) && StatusCoherent(q.status, q.v.life) && Recorded(p.status, q.status)
    requires (c.DoDispatch? || c.DoReject?) && LifeAnswer(c, answer) && Settled(p, c, answer, at)
    ensures Settled(q, c, answer, at)
  {
  }

  lemma StartStays(p: Projection, q: Projection, c: Command, answer: Answer, at: Time)
    requires StatusCoherent(p.status, p.v.life) && StatusCoherent(q.status, q.v.life) && Recorded(p.status, q.status)
    requires (c.DoSupersede? || c.DoStart?) && LifeAnswer(c, answer) && Settled(p, c, answer, at)
    ensures Settled(q, c, answer, at)
  {
  }

  lemma EndingStays(p: Projection, q: Projection, c: Command, answer: Answer, at: Time)
    requires StatusCoherent(p.status, p.v.life) && StatusCoherent(q.status, q.v.life) && Recorded(p.status, q.status)
    requires p.v.life.proofAccepted ==> q.v.life.proofAccepted
    requires EndingAnswer(c, answer) && Settled(p, c, answer, at)
    ensures Settled(q, c, answer, at)
  {
  }

  lemma WorkStays(p: Projection, q: Projection, c: Command, answer: Answer, at: Time, e: Entry)
    requires EffectsCoherent(p.effects, p.v.work) && MutationsCoherent(p.mutations, p.v.work)
    requires c.DoCompleteEffect? || (c.DoStage? && answer.StagedAt?)
    requires Settled(p, c, answer, at) && Step(p, e) == Some(q)
    ensures Settled(q, c, answer, at)
  {
  }

  lemma EnableStays(p: Projection, q: Projection, c: Command, answer: Answer, at: Time, e: Entry)
    requires StatusCoherent(p.status, p.v.life)
    requires c.DoEnable? && answer.Watermark? && answer.after.Some?
    requires Settled(p, c, answer, at) && Step(p, e) == Some(q)
    ensures Settled(q, c, answer, at)
  {
  }

  /** Requests and results are never replaced. */
  ghost predicate Kept(rq: Requests, later: Requests) {
    && (forall id :: id in rq.requested ==> id in later.requested && later.requested[id] == rq.requested[id])
    && (forall id :: id in rq.finished ==> id in later.finished && later.finished[id] == rq.finished[id])
  }

  lemma StepKeeps(p: Projection, q: Projection, e: Entry)
    requires RequestsCoherent(p.requests, p.v.talk, p.v.lastSeq) && Step(p, e) == Some(q)
    ensures Kept(p.requests, q.requests)
  {
  }

  lemma RequestStays(p: Projection, q: Projection, c: Command, answer: Answer, at: Time)
    requires Kept(p.requests, q.requests) && c.DoRequest? && Settled(p, c, answer, at)
    ensures Settled(q, c, answer, at)
  {
  }

  lemma FinishStays(p: Projection, q: Projection, c: Command, answer: Answer, at: Time)
    requires Kept(p.requests, q.requests) && c.DoFinish? && answer.ResultAt? && Settled(p, c, answer, at)
    requires Recorded(p.status, q.status) && q.v.assignment == p.v.assignment
    requires p.status.received.Some? ==> q.v.life.ref == p.v.life.ref
    ensures Settled(q, c, answer, at)
  {
  }

  /** The chain only grows at its end and receipts only move forward. */
  ghost predicate ChainKept(p: Projection, q: Projection, s: nat) {
    && p.shortcut == q.shortcut
    && p.v.mirror.mirroredOrdinal <= q.v.mirror.mirroredOrdinal
    && (p.mirrors.Find(s).Some? ==> ChainItem(q, s) == ChainItem(p, s))
  }

  lemma FoundAgain(order: seq<MirrorItem>, item: MirrorItem, s: nat)
    ensures item.recordSeq != s ==> IndexOf(order + [item], s) == IndexOf(order, s)
  {
    assert (order + [item])[..|order|] == order;
  }

  lemma StepKeepsChain(p: Projection, q: Projection, e: Entry, s: nat)
    requires MirrorCoherent(p.mirrors, p.v.mirror, p.v.lastSeq) && Step(p, e) == Some(q)
    ensures ChainKept(p, q, s)
  {
    var item := ItemOf(q.v.mirror, q.v.lastSeq, e.body, e.at);
    if item.Some? { FoundAgain(p.mirrors.order, item.value, s); }
  }

  lemma ReceiptStays(p: Projection, q: Projection, c: Command, answer: Answer, at: Time)
    requires c.DoMarkMirrored? && ChainKept(p, q, c.upTo) && p.shortcut.historic == map[]
    requires Settled(p, c, answer, at)
    ensures Settled(q, c, answer, at)
  {
  }

  /** The answers commands give when they append. */
  predicate FirstAnswer(c: Command, answer: Answer) {
    match c
    case DoStage(_, _) => answer.StagedAt?
    case DoFinish(_, _) => answer.ResultAt?
    case DoEnable => answer.Watermark? && answer.after.Some?
    case DoCompleteEffect(_, _) => true
    case DoMarkMirrored(_, _, _) => true
    case DoRequest(_, _, _) => true
    case _ => LifeAnswer(c, answer) || EndingAnswer(c, answer)
  }

  lemma AppendsFirst(p: Projection, c: Command, d: Decision)
    requires Repeatable(c) && d == Decide(p, c) && d.Append?
    ensures FirstAnswer(c, d.answer)
  {
  }

  lemma IdentityStays(p: Projection, q: Projection, e: Entry)
    requires StatusCoherent(p.status, p.v.life) && Step(p, e) == Some(q)
    ensures q.v.assignment == p.v.assignment && (p.status.received.Some? ==> q.v.life.ref == p.v.life.ref)
  {
  }

  lemma InteractionStays(p: Projection, q: Projection, c: Command, answer: Answer, at: Time, e: Entry)
    requires Coherent(p) && p.shortcut.historic == map[] && FirstAnswer(c, answer)
    requires c.DoRequest? || c.DoFinish? || c.DoMarkMirrored?
    requires Settled(p, c, answer, at) && Step(p, e) == Some(q)
    ensures Settled(q, c, answer, at)
  {
    StepKeeps(p, q, e);
    match c
    case DoRequest(_, _, _) => RequestStays(p, q, c, answer, at);
    case DoFinish(_, _) => StepRecords(p, q, e); IdentityStays(p, q, e); FinishStays(p, q, c, answer, at);
    case DoMarkMirrored(upTo, _, _) => StepKeepsChain(p, q, e, upTo); ReceiptStays(p, q, c, answer, at);
    case _ =>
  }

  lemma SettledStays(p: Projection, q: Projection, c: Command, answer: Answer, at: Time, e: Entry)
    requires Coherent(p) && p.shortcut.historic == map[] && Repeatable(c) && FirstAnswer(c, answer)
    requires Settled(p, c, answer, at) && Step(p, e) == Some(q)
    ensures Settled(q, c, answer, at)
  {
    StepRecords(p, q, e);
    if c.DoRequest? || c.DoFinish? || c.DoMarkMirrored? {
      InteractionStays(p, q, c, answer, at, e);
    } else if c.DoCompleteEffect? || c.DoStage? {
      WorkStays(p, q, c, answer, at, e);
    } else if c.DoEnable? {
      EnableStays(p, q, c, answer, at, e);
    } else if c.DoDispatch? || c.DoReject? {
      DispatchStays(p, q, c, answer, at);
    } else if c.DoSupersede? || c.DoStart? {
      StartStays(p, q, c, answer, at);
    } else {
      EndingStays(p, q, c, answer, at);
    }
  }

  // ---------------------------------------------------------------- at most once

  lemma {:induction false} ReduceConcat(p: Projection, front: seq<Entry>, back: seq<Entry>)
    ensures Reduce(p, front + back) == match Reduce(p, front) case None => None case Some(q) => Reduce(q, back)
    decreases |back|
  {
    if back == [] {
      assert front + back == front;
    } else {
      assert (front + back)[..|front + back| - 1] == front + back[..|back| - 1];
      ReduceConcat(p, front, back[..|back| - 1]);
    }
  }

  lemma {:induction false} SettledForGood(id: AssignmentId, log: seq<Entry>, c: Command, answer: Answer, at: Time,
      more: seq<Entry>)
    requires Replay(id, log).Some? && Repeatable(c) && FirstAnswer(c, answer)
    requires Settled(Replay(id, log).value, c, answer, at) && Replay(id, log + more).Some?
    ensures Settled(Replay(id, log + more).value, c, answer, at)
    decreases |more|
  {
    if more == [] {
      assert log + more == log;
    } else {
      var before := more[..|more| - 1];
      assert (log + more)[..|log + more| - 1] == log + before;
      SettledForGood(id, log, c, answer, at, before);
      ReplayCoherent(id, log + before);
      SettledStays(Replay(id, log + before).value, Replay(id, log + more).value, c, answer, at, more[|more| - 1]);
    }
  }

  /** The records a command appended at time `at` to `log`, and whatever came after. */
  function Continued(id: AssignmentId, log: seq<Entry>, bodies: seq<Record>, at: Time,
      more: seq<Entry>): Option<Projection> {
    Replay(id, log + Stamped(bodies, at) + more)
  }

  lemma CommitSettles(id: AssignmentId, log: seq<Entry>, c: Command, d: Decision, at: Time)
    requires Replay(id, log).Some? && Repeatable(c) && d == Decide(Replay(id, log).value, c) && d.Append?
    requires Replay(id, log + Stamped(d.bodies, at)).Some?
    ensures Settled(Replay(id, log + Stamped(d.bodies, at)).value, c, d.answer, at) && FirstAnswer(c, d.answer)
  {
    var p := Replay(id, log).value;
    ReduceConcat(Empty(id), log, Stamped(d.bodies, at));
    ReplayCoherent(id, log);
    CommandCommitted(p, Replay(id, log + Stamped(d.bodies, at)).value, c, d, at);
    AppendsFirst(p, c, d);
  }

  lemma SettledAppendsNothing(p: Projection, c: Command, answer: Answer, at: Time)
    requires Settled(p, c, answer, at)
    ensures !Decide(p, c).Append?
  {
  }

  /** At most once: however many records follow its commit, repeating the command appends nothing and is told
      what the first call was. */
  lemma RetriesAnswered(id: AssignmentId, log: seq<Entry>, c: Command, d: Decision, at: Time, more: seq<Entry>)
    requires Replay(id, log).Some? && Repeatable(c) && d == Decide(Replay(id, log).value, c) && d.Append?
    requires Continued(id, log, d.bodies, at, more).Some?
    ensures var later := Continued(id, log, d.bodies, at, more).value;
            !Decide(later, c).Append? && Settled(later, c, d.answer, at)
  {
    ReplayPrefix(id, log + Stamped(d.bodies, at), more);
    CommitSettles(id, log, c, d, at);
    SettledForGood(id, log + Stamped(d.bodies, at), c, d.answer, at, more);
    SettledAppendsNothing(Continued(id, log, d.bodies, at, more).value, c, d.answer, at);
  }

  lemma TurnedAwayStep(p: Projection, q: Projection, id: RequestId, e: Entry)
    requires Step(p, e) == Some(q) && !TurnedAway(p.requests, id)
    ensures TurnedAway(q.requests, id) ==> e.body == InteractionFinished(id, Cancelled(ByBackpressure))
  {
    ItemOfCommit(p.v, e);
  }

  /** A request turns from taken on to turned away only by a later record that says so. */
  lemma {:induction false} TurnedAwayByRecord(id: AssignmentId, log: seq<Entry>, more: seq<Entry>, request: RequestId)
    requires Replay(id, log).Some? && Replay(id, log + more).Some?
    requires !TurnedAway(Replay(id, log).value.requests, request)
    requires forall e :: e in more ==> e.body != InteractionFinished(request, Cancelled(ByBackpressure))
    ensures !TurnedAway(Replay(id, log + more).value.requests, request)
    decreases |more|
  {
    if more == [] {
      assert log + more == log;
    } else {
      var before, last := more[..|more| - 1], more[|more| - 1];
      assert (log + more)[..|log + more| - 1] == log + before;
      assert last in more && forall e :: e in before ==> e in more;
      TurnedAwayByRecord(id, log, before, request);
      TurnedAwayStep(Replay(id, log + before).value, Replay(id, log + more).value, request, last);
    }
  }

  // ---------------------------------------------------------------- reading back

  /** The outcome a committed result can be asked for. */
  lemma OutcomeReadBack(p: Projection, id: RequestId, outcome: InteractionOutcome, at: Time)
    requires Coherent(p) && FinishInteraction(p, id, outcome).Append?
             && Committed(p, FinishInteraction(p, id, outcome).bodies, at).Some?
    ensures var q := Committed(p, FinishInteraction(p, id, outcome).bodies, at).value;
            && p.v.life.ref.Some? ==>
                 if p.v.life.IsJob()
                 then JobOutcome(q, id) == Reply(Outcome(Some(outcome))) && ConversationOutcome(q, id) == Refused
                 else ConversationOutcome(q, id) == Reply(Outcome(Some(outcome))) && JobOutcome(q, id) == Refused
  {
    var body := InteractionFinished(id, outcome);
    CommittedOne(p, body, at);
    ItemOfCommit(p.v, Entry(body, at));
  }

  /** The run of chain items from position `from` on, consecutively numbered after `mirrored`. */
  ghost predicate RunFrom(order: seq<MirrorItem>, from: nat, items: seq<MirrorItem>, mirrored: nat) {
    && from + |items| <= |order| && items == order[from..from + |items|]
    && (forall i :: 0 <= i < |items| ==> items[i].ordinal == mirrored + i + 1)
  }

  lemma FirstItems(order: seq<MirrorItem>, base: nat, lastSeq: nat, from: nat, limit: nat, items: seq<MirrorItem>)
    requires Numbered(order, base, lastSeq) && from <= |order| && limit > 0
    requires items == if |order[from..]| <= limit then order[from..] else order[from..][..limit]
    ensures RunFrom(order, from, items, base + from)
    ensures items == [] <==> from == |order|
  {
  }

  /** A mirror batch is the run of unmirrored items right after the last mirrored one, empty only if nothing waits. */
  lemma MirrorBatchShape(p: Projection, limit: nat, items: seq<MirrorItem>)
    requires MirrorCoherent(p.mirrors, p.v.mirror, p.v.lastSeq) && limit > 0
    requires PendingMirrors(p, limit) == Reply(Mirrors(p.mirrors.mirroredDigest, items))
    ensures RunFrom(p.mirrors.order, p.mirrors.mirroredCount - p.mirrors.base, items, p.v.mirror.mirroredOrdinal)
    ensures items == [] <==> p.v.mirror.unmirrored == map[]
  {
    var from := p.mirrors.mirroredCount - p.mirrors.base;
    AwaitedNone(p.mirrors.order, from, p.v.mirror.unmirrored);
    FirstItems(p.mirrors.order, p.mirrors.base, p.v.lastSeq, from, limit, items);
  }

  /** A receipt for the last item of a mirror batch is taken by decision and validator alike. */
  lemma MirrorBatchSettled(p: Projection, limit: nat, items: seq<MirrorItem>, last: MirrorItem)
    requires MirrorCoherent(p.mirrors, p.v.mirror, p.v.lastSeq) && limit > 0
    requires PendingMirrors(p, limit) == Reply(Mirrors(p.mirrors.mirroredDigest, items)) && items != []
             && last == items[|items| - 1]
    ensures MarkMirrored(p, last.recordSeq, last.ordinal, last.digest) ==
              Append([Mirrored(last.recordSeq, last.ordinal, last.digest)], Done)
    ensures Admitted(p.v, Mirrored(last.recordSeq, last.ordinal, last.digest))
  {
    MirrorBatchShape(p, limit, items);
    ReceiptTaken(p, p.mirrors.mirroredCount - p.mirrors.base + |items| - 1);
  }

  lemma ReceiptTaken(p: Projection, k: nat)
    requires MirrorCoherent(p.mirrors, p.v.mirror, p.v.lastSeq)
             && p.mirrors.mirroredCount - p.mirrors.base <= k < |p.mirrors.order|
    ensures var item := p.mirrors.order[k];
            && MarkMirrored(p, item.recordSeq, item.ordinal, item.digest) ==
                 Append([Mirrored(item.recordSeq, item.ordinal, item.digest)], Done)
            && Admitted(p.v, Mirrored(item.recordSeq, item.ordinal, item.digest))
  {
    ReceiptAdmitted(p.mirrors, p.v.mirror, p.v.lastSeq, k);
    assert p.mirrors.Find(p.mirrors.order[k].recordSeq) == Some(k);
  }
}
