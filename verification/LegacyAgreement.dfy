/** Assignments that predate keyed rows, over whole executor lives: their shortened states look history up in
    hashed pages and in the rows written since, and fall back to full replay when a page cannot be used. */
module LegacyAgreement {
  import opened Options
  import opened LedgerRecords
  import opened LedgerProjection
  import opened LedgerCoherence
  import opened LedgerHistory
  import opened LedgerShortcut
  import opened LedgerRefinement
  import opened LedgerDecisions
  import opened LedgerAgreement
  import opened LegacyHistory

  /** `inherited` is the log at the time rows were introduced. */
  datatype Legacy = Legacy(id: AssignmentId, inherited: seq<Entry>, hash: Hash)

  /** A state in memory; with a legend it omits history that the legend's pages hold. */
  datatype Held = Held(state: Projection, legend: Option<Legend>)

  datatype Saved = Saved(held: Held, position: nat)

  /** `backfilled` are pages this process knows to be written, `written` every generation so far (a generation
      is its position), `saved` the decision state that the next recovery starts from. */
  datatype Executor = Executor(held: Held, backfilled: Option<Legend>, written: seq<Legend>, saved: Option<Saved>)

  // ---------------------------------------------------------------- storage

  function FactsAt(id: AssignmentId, log: seq<Entry>, upTo: nat): Facts {
    if upTo <= |log| && Replay(id, log[..upTo]).Some? then FactsOf(Replay(id, log[..upTo]).value) else NoFacts
  }

  /** Checkpoint storage, where each slot holds the page of some generation, or none. */
  function Stored(a: Legacy, log: seq<Entry>, written: seq<Legend>, holding: map<Slot, nat>): Disk {
    map slot | slot in holding && holding[slot] < |written| && written[holding[slot]].counts.Positive() ::
      WrittenPage(FactsAt(a.id, log, written[holding[slot]].upTo), a.hash, written[holding[slot]], slot)
  }

  /** Every generation was written from full replay of at least the inherited records. */
  ghost predicate WrittenSound(a: Legacy, log: seq<Entry>, written: seq<Legend>) {
    forall i :: 0 <= i < |written| ==> GenerationSound(a, log, written[i], i)
  }

  ghost predicate GenerationSound(a: Legacy, log: seq<Entry>, legend: Legend, generation: nat) {
    && legend.generation == generation
    && |a.inherited| <= legend.upTo <= |log|
    && Replay(a.id, log[..legend.upTo]).Some?
    && LegendFor(legend, FactsAt(a.id, log, legend.upTo))
  }

  ghost predicate Backed(written: seq<Legend>, legend: Legend) {
    0 <= legend.generation < |written| && written[legend.generation] == legend
  }

  lemma StoredGenuine(a: Legacy, log: seq<Entry>, written: seq<Legend>, holding: map<Slot, nat>, legend: Legend)
    requires WrittenSound(a, log, written) && Backed(written, legend)
    ensures Genuine(Stored(a, log, written, holding), a.hash, legend, FactsAt(a.id, log, legend.upTo))
  {
  }

  // ---------------------------------------------------------------- looking up and taking records

  datatype Outcome = Known(held: Held) | Unreadable | Corrupt

  function LookUpHeld(a: Legacy, log: seq<Entry>, held: Held, needs: Needs, disk: Disk): Outcome {
    if held.legend.None? || !held.state.OmitsHistory() then Known(held)
    else if !held.legend.value.counts.Positive() || !Readable(disk, a.hash, held.legend.value, needs) then Unreadable
    else
      var missing := Missing(held.state, needs);
      var found := FoundIn(a, log, held.state, held.legend.value, needs, disk);
      if Consistent(missing, found) then Known(held.(state := ApplyHistory(held.state, missing, found))) else Corrupt
  }

  /** What the rows written since the inherited records say about the missing keys, completed by the pages. */
  function FoundIn(a: Legacy, log: seq<Entry>, s: Projection, legend: Legend, needs: Needs, disk: Disk): Found
    requires legend.counts.Positive()
  {
    var missing := Missing(s, needs);
    WithLegacy(ReadHistory(RowsSince(a.id, log, |a.inherited|), missing, s.shortcut.historyBase),
               PageFacts(disk, a.hash, legend.counts, needs), missing)
  }

  function TakeHeld(a: Legacy, log: seq<Entry>, held: Held, entry: Entry, disk: Disk): Outcome {
    match LookUpHeld(a, log, held, TailNeeds(entry.body), disk)
    case Known(known) =>
      if LookupRequired(known.state, entry.body) then Corrupt
      else
        (match Step(known.state, entry) case None => Corrupt case Some(q) => Known(known.(state := q)))
    case other => other
  }

  /** Cold recovery: a state at position `k` takes the rest of the log, as far as its pages can be read. */
  function CatchUp(a: Legacy, log: seq<Entry>, now: Outcome, k: nat, disk: Disk): Outcome
    decreases |log| - k
  {
    if k >= |log| || !now.Known? then now
    else CatchUp(a, log, TakeHeld(a, log, now.held, log[k], disk), k + 1, disk)
  }

  /** A state that stands for `log`: in full without a legend, shortened with one. */
  ghost predicate Sound(a: Legacy, log: seq<Entry>, written: seq<Legend>, held: Held) {
    && RunAgrees(a.id, log, held.state)
    && (held.legend.None? ==> held.state == Replay(a.id, log).value)
    && (held.legend.Some? ==>
         Backed(written, held.legend.value) && held.legend.value.upTo <= held.state.shortcut.historyBase)
  }

  lemma FullAgrees(id: AssignmentId, log: seq<Entry>)
    requires Replay(id, log).Some?
    ensures RunAgrees(id, log, Replay(id, log).value)
  {
    ReplayCoherent(id, log);
    assert log[..0] == [];
    var f := Replay(id, log).value;
    assert f.mirrors.order[0..] == f.mirrors.order;
  }

  lemma FullSound(a: Legacy, log: seq<Entry>, written: seq<Legend>)
    requires Replay(a.id, log).Some?
    ensures Sound(a, log, written, Held(Replay(a.id, log).value, None))
  {
    FullAgrees(a.id, log);
  }

  lemma CoversFewer(part: Facts, whole: Facts, needs: Needs, fewer: Needs)
    requires Covers(part, whole, needs)
    requires fewer.requests <= needs.requests && fewer.effects <= needs.effects && fewer.mirrorSeqs <= needs.mirrorSeqs
    ensures Covers(part, whole, fewer)
  {
  }

  /** Readable pages and rows together answer as full replay at the position where the state was cut. */
  lemma PagesAnswer(a: Legacy, log: seq<Entry>, s: Projection, h: Projection, legend: Legend, needs: Needs, disk: Disk)
    requires Replay(a.id, log).Some? && |a.inherited| <= legend.upTo <= s.shortcut.historyBase <= |log|
    requires Genuine(disk, a.hash, legend, FactsAt(a.id, log, legend.upTo)) && Readable(disk, a.hash, legend, needs)
    requires Replay(a.id, log[..legend.upTo]).Some? && Replay(a.id, log[..s.shortcut.historyBase]) == Some(h)
    ensures Answers(FoundIn(a, log, s, legend, needs, disk), Missing(s, needs), h)
  {
    var missing, facts, pages :=
      Missing(s, needs), FactsAt(a.id, log, legend.upTo), PageFacts(disk, a.hash, legend.counts, needs);
    PageFactsCover(disk, a.hash, legend, needs, facts);
    CoversFewer(pages, facts, needs, missing);
    CombinedAnswers(a.id, log, |a.inherited|, legend.upTo, s.shortcut.historyBase, missing, pages);
  }

  /** What a look-up makes known: every needed key, and no needed request id is left unjudged. */
  ghost predicate KnownTo(f: Projection, s: Projection, needs: Needs) {
    && Knows(f, s, needs)
    && s.v.talk.requested == s.requests.requested.Keys
    && (forall id ::
         id in needs.requests && s.OmitsHistory() ==> id in s.requests.requested || id in s.shortcut.checked)
  }

  lemma FoundApplied(a: Legacy, log: seq<Entry>, written: seq<Legend>, held: Held, h: Projection, needs: Needs,
      found: Found)
    requires Sound(a, log, written, held) && held.legend.Some?
    requires Replay(a.id, log[..held.state.shortcut.historyBase]) == Some(h)
             && Answers(found, Missing(held.state, needs), h)
    ensures var missing := Missing(held.state, needs);
            var known := ApplyHistory(held.state, missing, found);
            && Consistent(missing, found)
            && Sound(a, log, written, held.(state := known))
            && KnownTo(Replay(a.id, log).value, known, needs)
  {
    var base := held.state.shortcut.historyBase;
    ReplayCoherent(a.id, log);
    ReplayCoherent(a.id, log[..base]);
    ApplyHistoryAgrees(Replay(a.id, log).value, held.state, h, needs, found);
  }

  lemma NothingToLookUp(a: Legacy, log: seq<Entry>, written: seq<Legend>, held: Held, needs: Needs)
    requires Sound(a, log, written, held) && (held.legend.None? || !held.state.OmitsHistory())
    ensures KnownTo(Replay(a.id, log).value, held.state, needs)
  {
    ReplayCoherent(a.id, log);
    assert log[..0] == [];
    NothingOmitted(Replay(a.id, log).value, held.state, a.id, needs);
  }

  lemma PagesSound(a: Legacy, log: seq<Entry>, prefix: seq<Entry>, written: seq<Legend>, held: Held, needs: Needs,
      disk: Disk)
    requires Replay(a.id, log).Some? && |prefix| <= |log| && prefix == log[..|prefix|]
             && Sound(a, prefix, written, held)
    requires held.legend.Some? && |a.inherited| <= held.legend.value.upTo
    requires Genuine(disk, a.hash, held.legend.value, FactsAt(a.id, log, held.legend.value.upTo))
    requires Replay(a.id, log[..held.legend.value.upTo]).Some? && Readable(disk, a.hash, held.legend.value, needs)
    ensures var missing := Missing(held.state, needs);
            var found := FoundIn(a, log, held.state, held.legend.value, needs, disk);
            && Consistent(missing, found)
            && Sound(a, prefix, written, held.(state := ApplyHistory(held.state, missing, found)))
            && KnownTo(Replay(a.id, prefix).value, ApplyHistory(held.state, missing, found), needs)
  {
    var h := Replay(a.id, prefix[..held.state.shortcut.historyBase]).value;
    SamePrefix(log, prefix, held.state.shortcut.historyBase);
    PagesAnswer(a, log, held.state, h, held.legend.value, needs, disk);
    FoundApplied(a, prefix, written, held, h, needs, FoundIn(a, log, held.state, held.legend.value, needs, disk));
  }

  lemma SamePrefix(log: seq<Entry>, prefix: seq<Entry>, k: nat)
    requires k <= |prefix| <= |log| && prefix == log[..|prefix|]
    ensures prefix[..k] == log[..k]
  {
  }

  /** A look-up on the way is never mistaken for a corrupt ledger: it makes the needed keys known, or finds
      that a page cannot be used. */
  lemma LookUpSound(a: Legacy, log: seq<Entry>, prefix: seq<Entry>, written: seq<Legend>, held: Held, needs: Needs,
      holding: map<Slot, nat>, r: Outcome)
    requires Replay(a.id, log).Some? && |prefix| <= |log| && prefix == log[..|prefix|]
    requires WrittenSound(a, log, written) && Sound(a, prefix, written, held)
    requires r == LookUpHeld(a, log, held, needs, Stored(a, log, written, holding))
    ensures !r.Corrupt?
    ensures r.Known? ==> Sound(a, prefix, written, r.held) && KnownTo(Replay(a.id, prefix).value, r.held.state, needs)
  {
    if held.legend.None? || !held.state.OmitsHistory() {
      NothingToLookUp(a, prefix, written, held, needs);
    } else {
      StoredGenuine(a, log, written, holding, held.legend.value);
      if !r.Unreadable? { PagesSound(a, log, prefix, written, held, needs, Stored(a, log, written, holding)); }
    }
  }

  /** A record is taken exactly as full replay takes it, unless a page is missing. */
  lemma TakeSound(a: Legacy, log: seq<Entry>, prefix: seq<Entry>, written: seq<Legend>, held: Held, entry: Entry,
      holding: map<Slot, nat>, r: Outcome)
    requires Replay(a.id, log).Some? && |prefix| <= |log| && prefix == log[..|prefix|]
    requires WrittenSound(a, log, written) && Sound(a, prefix, written, held)
    requires r == TakeHeld(a, log, held, entry, Stored(a, log, written, holding))
    ensures r.Corrupt? ==> Replay(a.id, prefix + [entry]).None?
    ensures r.Known? ==> Replay(a.id, prefix + [entry]).Some? && Sound(a, prefix + [entry], written, r.held)
  {
    var known := LookUpHeld(a, log, held, TailNeeds(entry.body), Stored(a, log, written, holding));
    LookUpSound(a, log, prefix, written, held, TailNeeds(entry.body), holding, known);
    if known.Known? { KnownTaken(a, prefix, written, known.held, entry); }
  }

  lemma KnownTaken(a: Legacy, log: seq<Entry>, written: seq<Legend>, held: Held, entry: Entry)
    requires Sound(a, log, written, held) && KnownTo(Replay(a.id, log).value, held.state, TailNeeds(entry.body))
    ensures !LookupRequired(held.state, entry.body)
    ensures Step(held.state, entry).Some? <==> Replay(a.id, log + [entry]).Some?
    ensures Step(held.state, entry).Some? ==>
              Sound(a, log + [entry], written, held.(state := Step(held.state, entry).value))
  {
    if entry.body.InteractionRequested? { assert entry.body.requestId in TailNeeds(entry.body).requests; }
    KnownStepAgrees(a.id, log, held.state, entry);
    assert (log + [entry])[..|log|] == log;
  }

  lemma NextRecord(a: Legacy, log: seq<Entry>, k: nat)
    requires Replay(a.id, log).Some? && k < |log|
    ensures log[..k] + [log[k]] == log[..k + 1] && Replay(a.id, log[..k + 1]).Some?
  {
    assert log == log[..k + 1] + log[k + 1..];
    ReplayPrefix(a.id, log[..k + 1], log[k + 1..]);
  }

  lemma LoggedTaken(a: Legacy, log: seq<Entry>, k: nat, written: seq<Legend>, held: Held, holding: map<Slot, nat>,
      next: Outcome)
    requires Replay(a.id, log).Some? && k < |log| && WrittenSound(a, log, written) && Sound(a, log[..k], written, held)
    requires next == TakeHeld(a, log, held, log[k], Stored(a, log, written, holding))
    ensures Reaches(a, log, k + 1, written, next)
  {
    NextRecord(a, log, k);
    TakeSound(a, log, log[..k], written, held, log[k], holding, next);
  }

  /** No ledger is taken for corrupt, and a known state stands for the first `k` records. */
  ghost predicate Reaches(a: Legacy, log: seq<Entry>, k: nat, written: seq<Legend>, outcome: Outcome)
    requires k <= |log|
  {
    !outcome.Corrupt? && (outcome.Known? ==> Sound(a, log[..k], written, outcome.held))
  }

  /** Recovering from a saved state ends in a state that stands for the whole log, unless a page is missing. */
  lemma {:induction false} CatchUpSound(a: Legacy, log: seq<Entry>, k: nat, written: seq<Legend>, now: Outcome,
      holding: map<Slot, nat>, r: Outcome)
    requires Replay(a.id, log).Some? && k <= |log| && WrittenSound(a, log, written) && Reaches(a, log, k, written, now)
    requires r == CatchUp(a, log, now, k, Stored(a, log, written, holding))
    ensures Reaches(a, log, |log|, written, r)
    decreases |log| - k
  {
    if now.Known? && k < |log| {
      var next := TakeHeld(a, log, now.held, log[k], Stored(a, log, written, holding));
      LoggedTaken(a, log, k, written, now.held, holding, next);
      CatchUpSound(a, log, k + 1, written, next, holding, r);
    }
  }

  // ---------------------------------------------------------------- executor lives

  /** How a saving attempt goes: not yet on disk, read back from disk, its pages not read back (the whole state
      is saved instead), or never stored. */
  datatype Saving = Pending | Confirmed | FellBack | Lost

  /** `holding` says what checkpoint storage holds when it is read. */
  datatype LegacyAction =
    | TakeFrom(entry: Entry, holding: map<Slot, nat>)
    | LookUpIn(needs: Needs, holding: map<Slot, nat>)
    | SaveState(saving: Saving)
    | Recover(restarted: bool, holding: map<Slot, nat>)
    | ReplayAll
    | Forget

  function EntriesOf(run: seq<LegacyAction>): seq<Entry>
    decreases |run|
  {
    if run == [] then []
    else
      var before, last := EntriesOf(run[..|run| - 1]), run[|run| - 1];
      if last.TakeFrom? then before + [last.entry] else before
  }

  /** Drops the decision state and replays in full; pages that could not be used are no longer relied on. */
  function Replayed(a: Legacy, log: seq<Entry>, x: Executor): Option<Executor> {
    match Replay(a.id, log)
    case None => None
    case Some(p) => Some(Executor(Held(p, None), None, x.written, None))
  }

  function Continue(a: Legacy, log: seq<Entry>, x: Executor, outcome: Outcome): Option<Executor> {
    match outcome
    case Known(held) => Some(x.(held := held))
    case Unreadable => Replayed(a, log, x)
    case Corrupt => None
  }

  /** The first save of a full state writes its history out as pages of a new generation. */
  ghost function AfterSave(x: Executor, position: nat, saving: Saving): Executor {
    var state := x.held.state;
    if state.v.lastSeq == 0 then x
    else if x.held.legend.Some? || x.backfilled.Some? then
      var legend := if x.held.legend.Some? then x.held.legend else x.backfilled;
      if saving.Lost? then x else x.(saved := Some(Saved(Held(Snapshot(state), legend), position)))
    else
      FirstSaved(x, Legend(|x.written|, state.v.lastSeq, CountsOf(FactsOf(state))), position, saving)
  }

  ghost function FirstSaved(x: Executor, legend: Legend, position: nat, saving: Saving): Executor {
    var shortened := Saved(Held(Snapshot(x.held.state), Some(legend)), position);
    x.(written := x.written + [legend],
       saved := match saving
                case Lost => x.saved
                case FellBack => Some(Saved(x.held, position))
                case _ => Some(shortened),
       backfilled := if saving.Confirmed? then Some(legend) else x.backfilled)
  }

  ghost function After(a: Legacy, log: seq<Entry>, x: Executor, action: LegacyAction): Option<Executor> {
    match action
    case TakeFrom(entry, holding) =>
      Continue(a, log + [entry], x, TakeHeld(a, log, x.held, entry, Stored(a, log, x.written, holding)))
    case LookUpIn(needs, holding) =>
      Continue(a, log, x, LookUpHeld(a, log, x.held, needs, Stored(a, log, x.written, holding)))
    case SaveState(saving) => Some(AfterSave(x, |log|, saving))
    case Recover(restarted, holding) =>
      Continue(a, log, x.(backfilled := if restarted then None else x.backfilled), Recovered(a, log, x, holding))
    case ReplayAll => Continue(a, log, x, FullOutcome(a, log))
    case Forget => Some(x.(saved := None))
  }

  /** A saved decision state takes the records after it; without one the log is replayed in full. */
  function Recovered(a: Legacy, log: seq<Entry>, x: Executor, holding: map<Slot, nat>): Outcome {
    match x.saved
    case None => FullOutcome(a, log)
    case Some(saved) => CatchUp(a, log, Known(saved.held), saved.position, Stored(a, log, x.written, holding))
  }

  function FullOutcome(a: Legacy, log: seq<Entry>): Outcome {
    match Replay(a.id, log) case None => Corrupt case Some(p) => Known(Held(p, None))
  }

  ghost function LegacyRun(a: Legacy, run: seq<LegacyAction>): Option<Executor>
    decreases |run|
  {
    if run == [] then Replayed(a, a.inherited, Executor(Held(Empty(a.id), None), None, [], None))
    else
      var before := run[..|run| - 1];
      match LegacyRun(a, before)
      case None => None
      case Some(x) => After(a, a.inherited + EntriesOf(before), x, run[|run| - 1])
  }

  ghost predicate Inv(a: Legacy, log: seq<Entry>, x: Executor) {
    && |a.inherited| <= |log|
    && WrittenSound(a, log, x.written)
    && Sound(a, log, x.written, x.held)
    && (x.backfilled.Some? ==> Backed(x.written, x.backfilled.value))
    && (x.saved.Some? ==> SavedSound(a, log, x.written, x.saved.value))
  }

  ghost predicate SavedSound(a: Legacy, log: seq<Entry>, written: seq<Legend>, saved: Saved) {
    saved.position <= |log| && Sound(a, log[..saved.position], written, saved.held)
  }

  lemma LongerLogGeneration(a: Legacy, log: seq<Entry>, longer: seq<Entry>, legend: Legend, generation: nat)
    requires |log| <= |longer| && legend.upTo <= |log| && longer[..legend.upTo] == log[..legend.upTo]
    requires GenerationSound(a, log, legend, generation)
    ensures GenerationSound(a, longer, legend, generation)
  {
    assert FactsAt(a.id, longer, legend.upTo) == FactsAt(a.id, log, legend.upTo);
  }

  lemma LongerLog(a: Legacy, log: seq<Entry>, longer: seq<Entry>, written: seq<Legend>)
    requires WrittenSound(a, log, written) && |log| <= |longer| && log == longer[..|log|]
    ensures WrittenSound(a, longer, written)
  {
    forall i | 0 <= i < |written| ensures GenerationSound(a, longer, written[i], i) {
      assert GenerationSound(a, log, written[i], i);
      SamePrefix(longer, log, written[i].upTo);
      LongerLogGeneration(a, log, longer, written[i], i);
    }
  }

  lemma LongerLogSaved(a: Legacy, log: seq<Entry>, entry: Entry, written: seq<Legend>, saved: Saved)
    requires SavedSound(a, log, written, saved)
    ensures SavedSound(a, log + [entry], written, saved)
  {
    assert (log + [entry])[..saved.position] == log[..saved.position];
  }

  lemma TakeKeepsInv(a: Legacy, log: seq<Entry>, x: Executor, entry: Entry, holding: map<Slot, nat>,
      y: Option<Executor>)
    requires Inv(a, log, x) && y == After(a, log, x, TakeFrom(entry, holding))
    ensures y.Some? <==> Replay(a.id, log + [entry]).Some?
    ensures y.Some? ==> Inv(a, log + [entry], y.value)
  {
    assert log == log[..|log|];
    TakeSound(a, log, log, x.written, x.held, entry, holding,
              TakeHeld(a, log, x.held, entry, Stored(a, log, x.written, holding)));
    assert (log + [entry])[..|log|] == log;
    LongerLog(a, log, log + [entry], x.written);
    if x.saved.Some? { LongerLogSaved(a, log, entry, x.written, x.saved.value); }
    if Replay(a.id, log + [entry]).Some? { FullSound(a, log + [entry], x.written); }
  }

  lemma ReplayedInv(a: Legacy, log: seq<Entry>, x: Executor)
    requires Inv(a, log, x)
    ensures Replayed(a, log, x).Some? && Inv(a, log, Replayed(a, log, x).value)
  {
    FullSound(a, log, x.written);
  }

  lemma LookUpKeepsInv(a: Legacy, log: seq<Entry>, x: Executor, needs: Needs, holding: map<Slot, nat>,
      y: Option<Executor>)
    requires Inv(a, log, x) && y == After(a, log, x, LookUpIn(needs, holding))
    ensures y.Some? && Inv(a, log, y.value) && KnownTo(Replay(a.id, log).value, y.value.held.state, needs)
  {
    assert log == log[..|log|];
    LookUpSound(a, log, log, x.written, x.held, needs, holding,
                LookUpHeld(a, log, x.held, needs, Stored(a, log, x.written, holding)));
    ReplayedInv(a, log, x);
    NothingToLookUp(a, log, x.written, Replayed(a, log, x).value.held, needs);
  }

  lemma ContinueInv(a: Legacy, log: seq<Entry>, x: Executor, outcome: Outcome)
    requires Inv(a, log, x) && !outcome.Corrupt? && (outcome.Known? ==> Sound(a, log, x.written, outcome.held))
    ensures Continue(a, log, x, outcome).Some? && Inv(a, log, Continue(a, log, x, outcome).value)
  {
    ReplayedInv(a, log, x);
  }

  lemma RecoveredSound(a: Legacy, log: seq<Entry>, x: Executor, holding: map<Slot, nat>)
    requires Inv(a, log, x)
    ensures var outcome := Recovered(a, log, x, holding);
            !outcome.Corrupt? && (outcome.Known? ==> Sound(a, log, x.written, outcome.held))
  {
    if x.saved.Some? {
      var saved := x.saved.value;
      CatchUpSound(a, log, saved.position, x.written, Known(saved.held), holding, Recovered(a, log, x, holding));
      assert log[..|log|] == log;
    } else {
      FullSound(a, log, x.written);
    }
  }

  lemma RecoverKeepsInv(a: Legacy, log: seq<Entry>, x: Executor, z: Executor, holding: map<Slot, nat>)
    requires Inv(a, log, x) && (z == x || z == x.(backfilled := None))
    ensures var y := Continue(a, log, z, Recovered(a, log, x, holding));
            y.Some? && Inv(a, log, y.value)
  {
    RecoveredSound(a, log, x, holding);
    MemoryLost(a, log, x, z);
    ContinueInv(a, log, z, Recovered(a, log, x, holding));
  }

  lemma MemoryLost(a: Legacy, log: seq<Entry>, x: Executor, z: Executor)
    requires Inv(a, log, x) && (z == x || z == x.(backfilled := None))
    ensures Inv(a, log, z)
  {
  }

  lemma MoreWritten(a: Legacy, log: seq<Entry>, written: seq<Legend>, legend: Legend, held: Held)
    requires Sound(a, log, written, held)
    ensures Sound(a, log, written + [legend], held)
  {
  }

  lemma NewGeneration(a: Legacy, log: seq<Entry>, written: seq<Legend>, legend: Legend)
    requires WrittenSound(a, log, written) && GenerationSound(a, log, legend, |written|)
    ensures WrittenSound(a, log, written + [legend]) && Backed(written + [legend], legend)
  {
  }

  lemma WrittenNow(a: Legacy, log: seq<Entry>, legend: Legend)
    requires Replay(a.id, log).Some? && |a.inherited| <= |log| && legend.generation >= 0
    requires legend.upTo == |log| && legend.counts == CountsOf(FactsOf(Replay(a.id, log).value))
    ensures GenerationSound(a, log, legend, legend.generation)
  {
    assert log[..|log|] == log;
    assert FactsAt(a.id, log, |log|) == FactsOf(Replay(a.id, log).value);
  }

  /** A shortened copy stands for the same log, with history that reaches as far as its pages and rows. */
  lemma CutSound(a: Legacy, log: seq<Entry>, written: seq<Legend>, held: Held, legend: Legend)
    requires RunAgrees(a.id, log, held.state) && Backed(written, legend) && legend.upTo <= |log|
    ensures Sound(a, log, written, Held(Snapshot(held.state), Some(legend)))
  {
    CutAgrees(a.id, log, held.state);
    ReplayCoherent(a.id, log);
  }

  lemma FirstSavedInv(a: Legacy, log: seq<Entry>, x: Executor, y: Executor, legend: Legend, saving: Saving)
    requires |a.inherited| <= |log| && x.backfilled.None? && y == FirstSaved(x, legend, |log|, saving)
    requires WrittenSound(a, log, y.written) && Backed(y.written, legend) && Sound(a, log, y.written, y.held)
    requires SavedSound(a, log, y.written, Saved(Held(Snapshot(x.held.state), Some(legend)), |log|))
    requires SavedSound(a, log, y.written, Saved(x.held, |log|))
    requires x.saved.Some? ==> SavedSound(a, log, y.written, x.saved.value)
    ensures Inv(a, log, y)
  {
    match saving
    case Lost => Assembled(a, log, y);
    case FellBack => Assembled(a, log, y);
    case Pending => Assembled(a, log, y);
    case Confirmed => Assembled(a, log, y);
  }

  lemma Assembled(a: Legacy, log: seq<Entry>, x: Executor)
    requires |a.inherited| <= |log| && WrittenSound(a, log, x.written) && Sound(a, log, x.written, x.held)
    requires x.backfilled.Some? ==> Backed(x.written, x.backfilled.value)
    requires x.saved.Some? ==> SavedSound(a, log, x.written, x.saved.value)
    ensures Inv(a, log, x)
  {
  }

  lemma SavedNow(a: Legacy, log: seq<Entry>, written: seq<Legend>, held: Held)
    requires Sound(a, log, written, held)
    ensures SavedSound(a, log, written, Saved(held, |log|))
  {
    assert log[..|log|] == log;
  }

  lemma FirstSave(a: Legacy, log: seq<Entry>, x: Executor, saving: Saving)
    requires Inv(a, log, x) && x.held.legend.None? && x.backfilled.None? && x.held.state.v.lastSeq > 0
    ensures Inv(a, log, AfterSave(x, |log|, saving))
  {
    ReplayCoherent(a.id, log);
    var legend := Legend(|x.written|, |log|, CountsOf(FactsOf(x.held.state)));
    WrittenNow(a, log, legend);
    NewGeneration(a, log, x.written, legend);
    CutSound(a, log, x.written + [legend], x.held, legend);
    LaterWritten(a, log, x, legend);
    SavedNow(a, log, x.written + [legend], Held(Snapshot(x.held.state), Some(legend)));
    SavedNow(a, log, x.written + [legend], x.held);
    FirstSavedInv(a, log, x, FirstSaved(x, legend, |log|, saving), legend, saving);
  }

  lemma LaterWritten(a: Legacy, log: seq<Entry>, x: Executor, legend: Legend)
    requires Inv(a, log, x)
    ensures Sound(a, log, x.written + [legend], x.held)
    ensures x.saved.Some? ==> SavedSound(a, log, x.written + [legend], x.saved.value)
  {
    MoreWritten(a, log, x.written, legend, x.held);
    if x.saved.Some? { MoreWritten(a, log[..x.saved.value.position], x.written, legend, x.saved.value.held); }
  }

  lemma SaveKeepsInv(a: Legacy, log: seq<Entry>, x: Executor, saving: Saving)
    requires Inv(a, log, x)
    ensures Inv(a, log, AfterSave(x, |log|, saving))
  {
    if x.held.state.v.lastSeq > 0 {
      if x.held.legend.Some? || x.backfilled.Some? {
        var legend := if x.held.legend.Some? then x.held.legend.value else x.backfilled.value;
        CutSound(a, log, x.written, x.held, legend);
        SavedNow(a, log, x.written, Held(Snapshot(x.held.state), Some(legend)));
      } else {
        FirstSave(a, log, x, saving);
      }
    }
  }

  lemma StillKeepsInv(a: Legacy, log: seq<Entry>, x: Executor, action: LegacyAction, y: Option<Executor>)
    requires Inv(a, log, x) && !action.TakeFrom? && y == After(a, log, x, action)
    ensures y.Some? && Inv(a, log, y.value)
  {
    match action
    case LookUpIn(needs, holding) => LookUpKeepsInv(a, log, x, needs, holding, y);
    case SaveState(saving) => SaveKeepsInv(a, log, x, saving);
    case Recover(restarted, holding) => 
      RecoverKeepsInv(a, log, x, x.(backfilled := if restarted then None else x.backfilled), holding);
    case ReplayAll => FullSound(a, log, x.written);
    case _ =>
  }

  lemma StartInv(a: Legacy)
    requires Replay(a.id, a.inherited).Some?
    ensures LegacyRun(a, []).Some? && Inv(a, a.inherited, LegacyRun(a, []).value)
  {
    FullSound(a, a.inherited, []);
  }

  /** Over every life of an executor (records, look-ups, saves that succeed, fall back or are lost, recoveries and
      restarts, pages lost or left from other generations), a legacy assignment takes the records full replay
      takes, and its state agrees with full replay. */
  lemma {:induction false} LegacyRefinesReplay(a: Legacy, run: seq<LegacyAction>)
    requires Replay(a.id, a.inherited).Some?
    ensures LegacyRun(a, run).Some? <==> Replay(a.id, a.inherited + EntriesOf(run)).Some?
    ensures LegacyRun(a, run).Some? ==> Inv(a, a.inherited + EntriesOf(run), LegacyRun(a, run).value)
    decreases |run|
  {
    if run == [] {
      StartInv(a);
      assert a.inherited + EntriesOf(run) == a.inherited;
    } else {
      var before, last := run[..|run| - 1], run[|run| - 1];
      var log := a.inherited + EntriesOf(before);
      LegacyRefinesReplay(a, before);
      if last.TakeFrom? { assert a.inherited + EntriesOf(run) == log + [last.entry]; }
      if LegacyRun(a, before).Some? {
        var x := LegacyRun(a, before).value;
        if last.TakeFrom? {
          TakeKeepsInv(a, log, x, last.entry, last.holding, LegacyRun(a, run));
        } else {
          StillKeepsInv(a, log, x, last, LegacyRun(a, run));
        }
      } else if last.TakeFrom? {
        assert (log + [last.entry])[..|log|] == log;
      }
    }
  }

  /** At any point of any such life, looking up a command's needs and deciding gives the decision of full replay,
      whatever the pages in storage. */
  lemma LegacyDecisionsSurvive(a: Legacy, run: seq<LegacyAction>, holding: map<Slot, nat>, c: Command)
    requires Replay(a.id, a.inherited).Some? && Replay(a.id, a.inherited + EntriesOf(run)).Some?
    ensures var longer := run + [LookUpIn(NeedsOf(c), holding)];
            && LegacyRun(a, longer).Some?
            && Decide(LegacyRun(a, longer).value.held.state, c) ==
                 Decide(Replay(a.id, a.inherited + EntriesOf(run)).value, c)
  {
    var longer := run + [LookUpIn(NeedsOf(c), holding)];
    assert longer[..|run|] == run;
    var log := a.inherited + EntriesOf(run);
    LegacyRefinesReplay(a, run);
    LookUpKeepsInv(a, log, LegacyRun(a, run).value, NeedsOf(c), holding, LegacyRun(a, longer));
    KnownDecides(a.id, log, LegacyRun(a, longer).value.held.state, c);
  }

  lemma KnownDecides(id: AssignmentId, log: seq<Entry>, s: Projection, c: Command)
    requires RunAgrees(id, log, s) && Knows(Replay(id, log).value, s, NeedsOf(c))
    ensures Decide(s, c) == Decide(Replay(id, log).value, c)
  {
    ReplayCoherent(id, log);
    SameDecision(Replay(id, log).value, s, Replay(id, log[..s.shortcut.historyBase]).value, c);
  }
}
