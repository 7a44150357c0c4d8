/** Data-plane bindings of many assignments, recovered in one batch and cached across restarts. */
module BindingCache {
  import opened Options
  import opened LedgerRecords
  import opened LedgerProjection
  import opened LedgerCoherence
  import opened LedgerEndings

  /** One committed record of some assignment; a position in the log counts such records. */
  datatype Item = Item(assignment: AssignmentId, entry: Entry)

  type Log = seq<Item>

  datatype Target = Target(ref: ExecutionRef, owner: DeviceId)

  datatype Binding = Binding(observe: Option<Target>, active: Option<Target>)

  type Bindings = map<AssignmentId, Binding>

  /** A saved map of bindings and the position it was saved at. */
  datatype Checkpoint = Checkpoint(cursor: nat, bindings: Bindings)

  function StreamOf(log: Log, id: AssignmentId): seq<Entry>
    decreases |log|
  {
    if log == [] then []
    else
      var before := StreamOf(log[..|log| - 1], id);
      if log[|log| - 1].assignment == id then before + [log[|log| - 1].entry] else before
  }

  /** The binding of a projection: observers need a receipt, active users also a live, unfenced, uncancelled phase. */
  function BindingOf(p: Projection): Binding {
    if p.status.received.None? || p.v.life.ref.None? then Binding(None, None)
    else
      var target := Some(Target(p.v.life.ref.value, p.status.received.value.owner));
      var live := (p.v.life.phase.ReceivedPhase? || p.v.life.phase.StartedPhase?) && p.status.aborts == []
         && p.status.fencedAt.None?;
      Binding(target, if live then target else None)
  }

  /** Full replay of the assignment's own records up to position `n`; none if they are corrupt. */
  function Recomputed(log: Log, n: nat, id: AssignmentId): Option<Binding> {
    if n > |log| then None
    else match Replay(id, StreamOf(log[..n], id)) case None => None case Some(p) => Some(BindingOf(p))
  }

  /** Whether the assignment has a record in `(cursor, n]`. */
  predicate ChangedAfter(log: Log, n: nat, id: AssignmentId, cursor: nat) {
    exists i :: cursor <= i < n && i < |log| && log[i].assignment == id
  }

  lemma {:induction false} Unchanged(log: Log, n: nat, id: AssignmentId, k: nat)
    requires k <= n <= |log| && !ChangedAfter(log, n, id, k)
    ensures StreamOf(log[..k], id) == StreamOf(log[..n], id)
    decreases n
  {
    if k < n {
      assert log[n - 1].assignment != id;
      assert log[..n][..n - 1] == log[..n - 1];
      assert !ChangedAfter(log, n - 1, id, k);
      Unchanged(log, n - 1, id, k);
    }
  }

  /** One more record of a received assignment: observers keep their binding, and an active binding that is gone
      does not come back. */
  lemma BindingStep(p: Projection, q: Projection, entry: Entry)
    requires StatusCoherent(p.status, p.v.life) && StatusCoherent(q.status, q.v.life) && Step(p, entry) == Some(q)
             && p.status.received.Some?
    ensures BindingOf(q).observe == BindingOf(p).observe && q.status.received.Some?
    ensures BindingOf(p).active.None? ==> BindingOf(q).active.None?
  {
    EndingCloses(p.v, entry.body);
  }

  lemma BindingNext(id: AssignmentId, log: seq<Entry>, entry: Entry, p: Projection, q: Projection)
    requires Replay(id, log) == Some(p) && Step(p, entry) == Some(q) && p.status.received.Some?
    ensures BindingOf(q).observe == BindingOf(p).observe && q.status.received.Some?
    ensures BindingOf(p).active.None? ==> BindingOf(q).active.None?
  {
    ReplayCoherent(id, log);
    StepCoherent(p, entry);
    BindingStep(p, q, entry);
  }

  /** Over every continuation of a received assignment's log: the observers' binding never changes, and once
      active use is closed (fenced, cancelled or ended) it stays closed. */
  lemma {:induction false} ActiveUseStaysClosed(id: AssignmentId, log: seq<Entry>, more: seq<Entry>, p: Projection,
      q: Projection)
    requires Replay(id, log) == Some(p) && Replay(id, log + more) == Some(q) && p.status.received.Some?
    ensures q.status.received.Some? && BindingOf(q).observe == BindingOf(p).observe
    ensures BindingOf(p).active.None? ==> BindingOf(q).active.None?
    decreases |more|
  {
    if more == [] {
      assert log + more == log;
    } else {
      var shorter, entry := more[..|more| - 1], more[|more| - 1];
      assert (log + more)[..|log + more| - 1] == log + shorter;
      var r := Replay(id, log + shorter).value;
      ActiveUseStaysClosed(id, log, shorter, p, r);
      BindingNext(id, log + shorter, entry, r, q);
    }
  }

  // ---------------------------------------------------------------- bindings over time

  /** The binding of an assignment at each position of the log. */
  type Timeline = (nat, AssignmentId) -> Option<Binding>

  function TimelineOf(log: Log): Timeline {
    (n: nat, id: AssignmentId) => Recomputed(log, n, id)
  }

  /** Recomputed at some position in `[from, n]`. */
  ghost predicate ExactIn(view: Timeline, from: nat, n: nat, id: AssignmentId, binding: Binding) {
    exists k :: from <= k <= n && view(k, id) == Some(binding)
  }

  ghost predicate AllExactIn(view: Timeline, from: nat, n: nat, bindings: Bindings) {
    forall id :: id in bindings ==> ExactIn(view, from, n, id, bindings[id])
  }

  /** Each saved binding was recomputed at or after the saved position, and no later than position `n`. */
  ghost predicate Sound(saved: Checkpoint, view: Timeline, n: nat) {
    saved.cursor <= n && AllExactIn(view, saved.cursor, n, saved.bindings)
  }

  /** Why reuse is sound: without a later record of its own, an assignment's binding cannot have changed. */
  lemma ReuseSound(saved: Checkpoint, log: Log, m: nat, n: nat, id: AssignmentId)
    requires m <= n <= |log| && Sound(saved, TimelineOf(log), m) && id in saved.bindings
             && !ChangedAfter(log, n, id, saved.cursor)
    ensures Recomputed(log, n, id) == Some(saved.bindings[id])
  {
    var k :| saved.cursor <= k <= m && TimelineOf(log)(k, id) == Some(saved.bindings[id]);
    assert !ChangedAfter(log, n, id, k);
    Unchanged(log, n, id, k);
  }

  function Reused(saved: Option<Checkpoint>, wanted: set<AssignmentId>, log: Log, n: nat): Bindings {
    if saved.None? then map[]
    else
      map id | id in wanted && id in saved.value.bindings && !ChangedAfter(log, n, id, saved.value.cursor) ::
        saved.value.bindings[id]
  }

  lemma ReusedExact(saved: Option<Checkpoint>, wanted: set<AssignmentId>, log: Log, m: nat, n: nat)
    requires m <= n <= |log| && (saved.Some? ==> Sound(saved.value, TimelineOf(log), m))
    ensures var known := Reused(saved, wanted, log, n);
            known.Keys <= wanted && (forall id :: id in known ==> TimelineOf(log)(n, id) == Some(known[id]))
  {
    var known := Reused(saved, wanted, log, n);
    forall id | id in known ensures TimelineOf(log)(n, id) == Some(known[id]) {
      ReuseSound(saved.value, log, m, n, id);
    }
  }

  lemma OneMoreExact(view: Timeline, from: nat, n: nat, later: nat, bindings: Bindings, id: AssignmentId,
      binding: Binding)
    requires from <= later && n <= later && AllExactIn(view, from, n, bindings) && view(later, id) == Some(binding)
    ensures AllExactIn(view, from, later, bindings[id := binding])
  {
    Widened(view, from, n, from, later, bindings);
  }

  lemma Widened(view: Timeline, from: nat, n: nat, earlier: nat, later: nat, bindings: Bindings)
    requires earlier <= from && n <= later && AllExactIn(view, from, n, bindings)
    ensures AllExactIn(view, earlier, later, bindings)
  {
    forall k | k in bindings ensures ExactIn(view, earlier, later, k, bindings[k]) {
      var i :| from <= i <= n && view(i, k) == Some(bindings[k]);
    }
  }

  // ---------------------------------------------------------------- one batch

  /** Recovers the wanted assignments one after the other.  Other writers append meanwhile, so each recovery sees
      the log at some position no earlier than the last one and no later than `limit`; a corrupt stream fails. */
  method Recover(known: Bindings, from: nat, now: nat, limit: nat, wanted: set<AssignmentId>, view: Timeline)
    returns (result: Option<Bindings>, end: nat)
    requires from <= now <= limit && AllExactIn(view, from, now, known) && (forall id :: id in wanted ==> id !in known)
    ensures now <= end <= limit
    ensures result.Some? ==>
              (forall id :: id in result.value <==> id in known || id in wanted)
              && AllExactIn(view, from, end, result.value)
    ensures result.Some? ==> forall id :: id in known ==> result.value[id] == known[id]
  {
    var bindings, todo := known, wanted;
    end := now;
    while todo != {}
      invariant forall id :: id in bindings <==> id in known || (id in wanted && id !in todo)
      invariant forall id :: id in todo ==> id in wanted
      invariant now <= end <= limit && AllExactIn(view, from, end, bindings)
      invariant forall id :: id in known ==> bindings[id] == known[id]
      decreases |todo|
    {
      var id :| id in todo;
      var later: nat :| end <= later <= limit;
      var binding := view(later, id);
      if binding.None? { return None, later; }
      OneMoreExact(view, from, end, later, bindings, id, binding.value);
      bindings, todo, end := bindings[id := binding.value], todo - {id}, later;
    }
    result := Some(bindings);
  }

  /** One batch that begins at position `now`: reuse what has no later record, recover the rest, and save the
      whole map at the earliest position used, which is the check's if the saved map held a wanted assignment
      and otherwise the first recovery's. */
  method DataPlaneBindings(saved: Option<Checkpoint>, wanted: set<AssignmentId>, log: Log, savedAt: nat, now: nat)
    returns (bindings: Option<Bindings>, save: Option<Checkpoint>, end: nat)
    requires savedAt <= now <= |log|
    requires saved.Some? ==> Sound(saved.value, TimelineOf(log), savedAt)
    ensures now <= end <= |log|
    ensures bindings.Some? ==> bindings.value.Keys == wanted && AllExactIn(TimelineOf(log), now, end, bindings.value)
    ensures bindings.Some? ==> forall id ::
              id in Reused(saved, wanted, log, now) ==> Recomputed(log, now, id) == Some(bindings.value[id])
    ensures bindings.Some? && wanted != {} ==> save.Some? && save.value.bindings == bindings.value
    ensures save.Some? ==> Sound(save.value, TimelineOf(log), end)
  {
    ReusedExact(saved, wanted, log, savedAt, now);
    var known := Reused(saved, wanted, log, now);
    if saved.Some? && (exists id :: id in wanted && id in saved.value.bindings) {
      bindings, end := AfterCheck(known, wanted, TimelineOf(log), now, |log|);
      save := if bindings.Some? then Some(Checkpoint(now, bindings.value)) else None;
    } else if wanted == {} {
      return Some(map[]), None, now;
    } else {
      bindings, save, end := FromScratch(wanted, TimelineOf(log), now, |log|);
    }
  }

  method AfterCheck(known: Bindings, wanted: set<AssignmentId>, view: Timeline, now: nat,
      limit: nat) returns (bindings: Option<Bindings>, end: nat)
    requires known.Keys <= wanted && now <= limit
    requires forall id :: id in known ==> view(now, id) == Some(known[id])
    ensures now <= end <= limit
    ensures bindings.Some? ==> bindings.value.Keys == wanted && AllExactIn(view, now, end, bindings.value)
    ensures bindings.Some? ==> forall id :: id in known ==> bindings.value[id] == known[id]
  {
    assert AllExactIn(view, now, now, known);
    bindings, end := Recover(known, now, now, limit, wanted - known.Keys, view);
  }

  /** Without a usable saved map the first recovery's own position is the earliest one. */
  method FromScratch(wanted: set<AssignmentId>, view: Timeline, now: nat, limit: nat)
    returns (bindings: Option<Bindings>, save: Option<Checkpoint>, end: nat)
    requires wanted != {} && now <= limit
    ensures now <= end <= limit
    ensures bindings.Some? ==> bindings.value.Keys == wanted && AllExactIn(view, now, end, bindings.value)
    ensures bindings.Some? ==> save.Some? && save.value.bindings == bindings.value
    ensures save.Some? ==> Sound(save.value, view, end)
  {
    var id :| id in wanted;
    var first: nat :| now <= first <= limit;
    var binding := view(first, id);
    if binding.None? { return None, None, first; }
    assert ExactIn(view, first, first, id, binding.value);
    bindings, end := Recover(map[id := binding.value], first, first, limit, wanted - {id}, view);
    if bindings.None? { return None, None, end; }
    save := Some(Checkpoint(first, bindings.value));
    Widened(view, first, end, now, end, bindings.value);
  }
}
