/** The conversation recovery directory: which assignments start-up recovery has to look at, maintained commit
    by commit beside the validation state. */
module RecoveryDirectory {
  import opened Options
  import opened LedgerRecords
  import opened LedgerValidator
  import opened LedgerProjection
  import opened LedgerCoherence
  import opened LedgerHistory
  import opened LedgerAcceptance

  datatype State = Valid(indexed: Indexed) | Corrupt

  datatype Candidate =
    | Classified(phase: Phase, aborts: nat, ticketPending: bool, envelope: Option<Payload>)
    | Unclassified

  /** What the index stores about one assignment. */
  datatype Stored = Stored(state: Option<State>, candidate: Option<Candidate>)

  predicate TicketPending(v: Validation) { !v.life.proofAccepted && v.life.HasTicketAbort() }

  predicate IsCandidate(state: State) {
    match state
    case Corrupt => true
    case Valid(indexed) =>
      var life := indexed.v.life;
      if life.IsJob() then false
      else
        match life.phase
        case SealedPhase => true
        case ReceivedPhase => life.aborts == map[] || TicketPending(indexed.v)
        case StartedPhase => TicketPending(indexed.v)
        case HaltedPhase => TicketPending(indexed.v)
        case _ => false
  }

  /** One more validated record with its history rows. */
  function Advance(indexed: Indexed, entry: Entry): Option<Indexed> {
    if Admitted(indexed.v, entry.body)
    then var v := Commit(indexed.v, entry.body); Some(Indexed(v, RowsAfter(indexed.rows, v, entry)))
    else None
  }

  function AdvanceAll(indexed: Indexed, records: seq<Entry>): Option<Indexed>
    decreases |records|
  {
    if records == [] then Some(indexed)
    else
      match AdvanceAll(indexed, records[..|records| - 1])
      case None => None
      case Some(before) => Advance(before, records[|records| - 1])
  }

  /** A commit with an invalid record marks the whole assignment corrupt, for good, and leaves no half history. */
  function StateAfter(before: Option<State>, id: AssignmentId, records: seq<Entry>): State {
    if before == Some(Corrupt) then Corrupt
    else
      var start := if before.Some? then before.value.indexed else Indexed(Create(id), NoRows);
      match AdvanceAll(start, records) case Some(indexed) => Valid(indexed) case None => Corrupt
  }

  /** The dispatch reference of a received record in this commit, if any. */
  function ReceivedIn(records: seq<Entry>): Option<Payload>
    decreases |records|
  {
    if records == [] then None
    else if records[0].body.Received? then Some(records[0].body.envelope)
    else ReceivedIn(records[1..])
  }

  function CandidateRow(state: State, envelope: Option<Payload>): Candidate {
    match state
    case Corrupt => Unclassified
    case Valid(indexed) =>
      var life := indexed.v.life;
      Classified(life.phase, |life.aborts|, TicketPending(indexed.v), if life.ref.Some? then envelope else None)
  }

  function KnownEnvelope(row: Option<Candidate>): Option<Payload> {
    if row.Some? && row.value.Classified? then row.value.envelope else None
  }

  /** The stored rows after one commit that touches the assignment. */
  function StoredAfter(before: Stored, id: AssignmentId, records: seq<Entry>): Stored {
    var after := StateAfter(before.state, id, records);
    var arrived := if after.Valid? then ReceivedIn(records) else None;
    var envelope := if arrived.Some? then arrived else KnownEnvelope(before.candidate);
    Stored(Some(after),
           if IsCandidate(after) then Some(CandidateRow(after, envelope))
           else if before.state.Some? && IsCandidate(before.state.value) then None
           else before.candidate)
  }

  function StoredOf(id: AssignmentId, commits: seq<seq<Entry>>): Stored
    decreases |commits|
  {
    if commits == [] then Stored(None, None)
    else StoredAfter(StoredOf(id, commits[..|commits| - 1]), id, commits[|commits| - 1])
  }

  // ---------------------------------------------------------------- the recovery queries on full state

  predicate AwaitsAcknowledgement(p: Projection) { p.v.life.phase.SealedPhase? }

  predicate Recoverable(p: Projection) {
    (p.v.life.phase.ReceivedPhase? || p.v.life.phase.SealedPhase?) && p.status.aborts == []
  }

  predicate CancellationPending(p: Projection) {
    && (exists a :: a in p.status.aborts && a.key.TicketKey?)
    && !p.v.life.proofAccepted
    && (p.v.life.phase.ReceivedPhase? || p.v.life.phase.StartedPhase? || p.v.life.phase.HaltedPhase?)
  }

  // The same conditions read off a candidate row; an unclassified row is always examined in full.

  predicate MayAwaitAcknowledgement(row: Candidate) { row.Classified? ==> row.phase.SealedPhase? }

  predicate MayBeRecoverable(row: Candidate) {
    row.Classified? ==> (row.phase.ReceivedPhase? || row.phase.SealedPhase?) && row.aborts == 0
  }

  predicate MayBeCancelling(row: Candidate) {
    row.Classified? ==>
      row.ticketPending && (row.phase.ReceivedPhase? || row.phase.StartedPhase? || row.phase.HaltedPhase?)
  }

  // ---------------------------------------------------------------- exactness

  lemma {:induction false} IndexOfConcat(id: AssignmentId, log: seq<Entry>, records: seq<Entry>)
    ensures Index(id, log + records) ==
              match Index(id, log) case None => None case Some(indexed) => AdvanceAll(indexed, records)
    decreases |records|
  {
    if records == [] {
      assert log + records == log;
    } else {
      assert (log + records)[..|log + records| - 1] == log + records[..|records| - 1];
      IndexOfConcat(id, log, records[..|records| - 1]);
    }
  }

  /** The stored state is the index of all committed records, or corrupt if they cannot be replayed. */
  lemma {:induction false} StateFollowsLog(id: AssignmentId, commits: seq<seq<Entry>>)
    ensures var index := Index(id, Flat(commits));
            StoredOf(id, commits).state ==
              if commits == [] then None else if index.Some? then Some(Valid(index.value)) else Some(Corrupt)
    decreases |commits|
  {
    if commits != [] {
      var before, last := commits[..|commits| - 1], commits[|commits| - 1];
      StateFollowsLog(id, before);
      IndexOfConcat(id, Flat(before), last);
    }
  }

  /** A row exists exactly for candidates. */
  lemma {:induction false} RowIffCandidate(id: AssignmentId, commits: seq<seq<Entry>>)
    ensures var stored := StoredOf(id, commits);
            && (stored.candidate.Some? <==> stored.state.Some? && IsCandidate(stored.state.value))
            && (stored.candidate.Some? ==>
                 stored.candidate.value == CandidateRow(stored.state.value, KnownEnvelope(stored.candidate)))
    decreases |commits|
  {
    if commits != [] { RowIffCandidate(id, commits[..|commits| - 1]); }
  }

  lemma CandidateIffQueried(p: Projection, indexed: Indexed)
    requires AbortsCoherent(p.status.aborts, p.v.life.aborts) && indexed.v == p.v
    ensures IsCandidate(Valid(indexed)) <==>
              !p.v.life.IsJob() && (AwaitsAcknowledgement(p) || Recoverable(p) || CancellationPending(p))
  {
    AbortsReadValidator(p);
  }

  /** After every commit the directory lists exactly the corrupt assignments and the conversations that one of
      the three recovery queries selects. */
  lemma DirectoryExact(id: AssignmentId, commits: seq<seq<Entry>>)
    requires commits != []
    ensures var p := Replay(id, Flat(commits));
            StoredOf(id, commits).candidate.Some? <==>
              p.None? || (!p.value.v.life.IsJob()
                          && (AwaitsAcknowledgement(p.value) || Recoverable(p.value) || CancellationPending(p.value)))
  {
    StateFollowsLog(id, commits);
    RowIffCandidate(id, commits);
    IndexMatchesReplay(id, Flat(commits));
    if Replay(id, Flat(commits)).Some? {
      ReplayCoherent(id, Flat(commits));
      CandidateIffQueried(Replay(id, Flat(commits)).value, Index(id, Flat(commits)).value);
    }
  }

  lemma RowAnswersQueries(p: Projection, indexed: Indexed, envelope: Option<Payload>)
    requires AbortsCoherent(p.status.aborts, p.v.life.aborts) && indexed.v == p.v
    ensures var row := CandidateRow(Valid(indexed), envelope);
            && (MayAwaitAcknowledgement(row) <==> AwaitsAcknowledgement(p))
            && (MayBeRecoverable(row) <==> Recoverable(p))
            && (MayBeCancelling(row) <==> CancellationPending(p))
  {
    AbortsReadValidator(p);
    assert |p.v.life.aborts| == 0 <==> p.v.life.aborts == map[];
  }

  /** Filtering by the stored classification selects exactly what the full-state condition selects. */
  lemma ClassificationFaithful(id: AssignmentId, commits: seq<seq<Entry>>, p: Projection, row: Candidate)
    requires commits != [] && Replay(id, Flat(commits)) == Some(p) && StoredOf(id, commits).candidate == Some(row)
    ensures MayAwaitAcknowledgement(row) <==> AwaitsAcknowledgement(p)
    ensures MayBeRecoverable(row) <==> Recoverable(p)
    ensures MayBeCancelling(row) <==> CancellationPending(p)
  {
    StateFollowsLog(id, commits);
    RowIffCandidate(id, commits);
    IndexMatchesReplay(id, Flat(commits));
    ReplayCoherent(id, Flat(commits));
    RowAnswersQueries(p, Index(id, Flat(commits)).value, KnownEnvelope(Some(row)));
  }

  lemma {:induction false} ReceivedRecorded(id: AssignmentId, log: seq<Entry>, i: nat)
    requires Replay(id, log).Some? && i < |log| && log[i].body.Received?
    ensures var received := Replay(id, log).value.status.received;
            received.Some? && received.value.envelope == log[i].body.envelope
    decreases |log|
  {
    var shorter, entry := log[..|log| - 1], log[|log| - 1];
    ReplayCoherent(id, shorter);
    if i < |shorter| { ReceivedRecorded(id, shorter, i); }
    ReceivedOnce(Replay(id, shorter).value, Replay(id, log).value, entry);
  }

  /** A received record is taken once; the receipt it leaves is never replaced. */
  lemma ReceivedOnce(p: Projection, q: Projection, entry: Entry)
    requires StatusCoherent(p.status, p.v.life) && Step(p, entry) == Some(q)
    ensures p.status.received.Some? ==> !entry.body.Received? && q.status.received == p.status.received
    ensures entry.body.Received? ==> q.status.received.Some? && q.status.received.value.envelope == entry.body.envelope
  {
  }

  lemma {:induction false} ReceivedInIs(records: seq<Entry>)
    ensures ReceivedIn(records).Some? ==>
              exists i ::
                0 <= i < |records| && records[i].body.Received? && records[i].body.envelope == ReceivedIn(records).value
    decreases |records|
  {
    if records != [] && !records[0].body.Received? && ReceivedIn(records).Some? {
      ReceivedInIs(records[1..]);
      var i :| 0 <= i < |records[1..]| && records[1..][i].body.Received?
         && records[1..][i].body.envelope == ReceivedIn(records).value;
      assert records[i + 1] == records[1..][i];
    }
  }

  /** A dispatch reference kept in a candidate row is the one the assignment was received with. */
  lemma {:induction false} EnvelopeFaithful(id: AssignmentId, commits: seq<seq<Entry>>, envelope: Payload)
    requires Replay(id, Flat(commits)).Some? && KnownEnvelope(StoredOf(id, commits).candidate) == Some(envelope)
    ensures var received := Replay(id, Flat(commits)).value.status.received;
            received.Some? && received.value.envelope == envelope
    decreases |commits|
  {
    var before, last := commits[..|commits| - 1], commits[|commits| - 1];
    var log := Flat(before);
    RowIffCandidate(id, commits);
    StateFollowsLog(id, commits);
    IndexMatchesReplay(id, Flat(commits));
    if ReceivedIn(last).Some? {
      ReceivedInIs(last);
      var i :| 0 <= i < |last| && last[i].body.Received? && last[i].body.envelope == ReceivedIn(last).value;
      assert (log + last)[|log| + i] == last[i];
      ReceivedRecorded(id, log + last, |log| + i);
    } else {
      assert KnownEnvelope(StoredOf(id, before).candidate) == Some(envelope);
      ReplayPrefix(id, log, last);
      EnvelopeFaithful(id, before, envelope);
      ReceivedKept(id, log, last);
    }
  }

  lemma {:induction false} ReceivedKept(id: AssignmentId, log: seq<Entry>, more: seq<Entry>)
    requires Replay(id, log + more).Some? && Replay(id, log).Some? && Replay(id, log).value.status.received.Some?
    ensures Replay(id, log + more).value.status.received == Replay(id, log).value.status.received
    decreases |more|
  {
    if more == [] {
      assert log + more == log;
    } else {
      var shorter := more[..|more| - 1];
      assert (log + more)[..|log + more| - 1] == log + shorter;
      ReceivedKept(id, log, shorter);
      ReplayCoherent(id, log + shorter);
      ReceivedOnce(Replay(id, log + shorter).value, Replay(id, log + more).value, more[|more| - 1]);
    }
  }

  // ---------------------------------------------------------------- the reducer

  /** Advances the stored state through one commit; on the first invalid record the whole commit is corrupt. */
  method AdvanceIndexed(before: Option<State>, id: AssignmentId, records: seq<Entry>) returns (after: State)
    ensures after == StateAfter(before, id, records)
  {
    if before == Some(Corrupt) { return Corrupt; }
    var start := if before.Some? then before.value.indexed else Indexed(Create(id), NoRows);
    var v, rows := start.v, start.rows;
    var i := 0;
    while i < |records|
      invariant 0 <= i <= |records|
      invariant AdvanceAll(start, records[..i]) == Some(Indexed(v, rows))
    {
      assert records[..i + 1][..i] == records[..i];
      if !Admitted(v, records[i].body) {
        RefusedPrefix(start, records, i + 1);
        return Corrupt;
      }
      v := Commit(v, records[i].body);
      rows := RowsAfter(rows, v, records[i]);
      i := i + 1;
    }
    assert records[..i] == records;
    return Valid(Indexed(v, rows));
  }

  lemma {:induction false} RefusedPrefix(start: Indexed, records: seq<Entry>, k: nat)
    requires k <= |records| && AdvanceAll(start, records[..k]).None?
    ensures AdvanceAll(start, records).None?
    decreases |records|
  {
    if k == |records| {
      assert records[..k] == records;
    } else {
      assert records[..|records| - 1][..k] == records[..k];
      RefusedPrefix(start, records[..|records| - 1], k);
    }
  }
}
