/** The executor's lease clock: wall time, elapsed monotonic time and a durable frontier combined so that an
    expired lease stays expired across clock rollback and restart.  Times are milliseconds. */
module LeaseClock {
  import opened Options
  import opened LedgerRecords

  // ---------------------------------------------------------------- the in-memory clock

  datatype Clock = Clock(time: real, monotonic: real)

  function MaxReal(a: real, b: real): real { if a > b then a else b }

  function MaxInt(a: int, b: int): int { if a > b then a else b }

  /** One reading; none if the monotonic clock went backwards. */
  function Tick(c: Clock, floor: int, wall: int, monotonic: real): Option<Clock> {
    if monotonic < c.monotonic then None
    else Some(Clock(MaxReal(MaxReal(wall as real, floor as real), c.time + monotonic - c.monotonic), monotonic))
  }

  function Shown(c: Clock): int { c.time.Floor }

  class AssignmentLeaseClock {
    var time: real
    var monotonic: real

    ghost function Value(): Clock
      reads this
    {
      Clock(time, monotonic)
    }

    constructor (wall: int, monotonic: real)
      ensures Value() == Clock(wall as real, monotonic)
    {
      this.time, this.monotonic := wall as real, monotonic;
    }

    /** Sub-millisecond elapsed time is kept; only the answer is rounded down. */
    method Now(floor: int, wall: int, monotonic: real) returns (now: Option<int>)
      modifies this
      ensures now.None? <==> Tick(old(Value()), floor, wall, monotonic).None?
      ensures now.None? ==> Value() == old(Value())
      ensures now.Some? ==> Some(Value()) == Tick(old(Value()), floor, wall, monotonic) && now.value == Shown(Value())
      ensures now.Some? ==> now.value >= floor && now.value >= wall && now.value >= Shown(old(Value()))
    {
      if monotonic < this.monotonic { return None; }
      var elapsed := time + monotonic - this.monotonic;
      time := MaxReal(MaxReal(wall as real, floor as real), elapsed);
      this.monotonic := monotonic;
      now := Some(time.Floor);
    }
  }

  /** How far the clock runs ahead of monotonic time; it never falls within a process. */
  function Lead(c: Clock): real { c.time - c.monotonic }

  lemma TickAdvances(c: Clock, floor: int, wall: int, monotonic: real)
    requires Tick(c, floor, wall, monotonic).Some?
    ensures var d := Tick(c, floor, wall, monotonic).value;
            d.time >= c.time && Lead(d) >= Lead(c) && Shown(d) >= Shown(c) && Shown(d) >= floor
            && d.monotonic == monotonic
  {
  }

  // ---------------------------------------------------------------- the durable frontier

  /** What one envelope holds for the clock: frontier records and lease acceptances. */
  datatype ClockEntry = Frontier(time: int) | Acceptance(effective: bool) | OtherEntry

  datatype Summary = Summary(frontier: int, activated: bool)

  function SummaryStep(s: Summary, entry: ClockEntry): Option<Summary> {
    match entry
    case Frontier(time) => if time < s.frontier then None else Some(Summary(time, true))
    case Acceptance(effective) => if !effective && s.activated then None else Some(s)
    case OtherEntry => Some(s)
  }

  function SummaryAfter(s: Summary, entries: seq<ClockEntry>): Option<Summary>
    decreases |entries|
  {
    if entries == [] then Some(s)
    else
      match SummaryAfter(s, entries[..|entries| - 1])
      case None => None
      case Some(before) => SummaryStep(before, entries[|entries| - 1])
  }

  /** The projection's reducer over one envelope; a refused envelope is not committed. */
  method ReduceClock(before: Summary, entries: seq<ClockEntry>) returns (after: Option<Summary>)
    ensures after == SummaryAfter(before, entries)
  {
    var summary := before;
    for i := 0 to |entries|
      invariant SummaryAfter(before, entries[..i]) == Some(summary)
    {
      assert entries[..i + 1][..i] == entries[..i];
      match entries[i]
      case Frontier(time) =>
        if time < summary.frontier {
          RefusedEnvelope(before, entries, i + 1);
          return None;
        }
        summary := Summary(time, true);
      case Acceptance(effective) =>
        if !effective && summary.activated {
          RefusedEnvelope(before, entries, i + 1);
          return None;
        }
      case OtherEntry =>
    }
    assert entries[..|entries|] == entries;
    after := Some(summary);
  }

  lemma {:induction false} RefusedEnvelope(s: Summary, entries: seq<ClockEntry>, k: nat)
    requires k <= |entries| && SummaryAfter(s, entries[..k]).None?
    ensures SummaryAfter(s, entries).None?
    decreases |entries|
  {
    if k == |entries| {
      assert entries[..k] == entries;
    } else {
      assert entries[..|entries| - 1][..k] == entries[..k];
      RefusedEnvelope(s, entries[..|entries| - 1], k);
    }
  }

  /** Over any committed envelope the frontier never moves back, activation is never undone, and an activated
      clock admits no acceptance without an effective time. */
  lemma {:induction false} FrontierNeverFalls(s: Summary, entries: seq<ClockEntry>)
    requires SummaryAfter(s, entries).Some?
    ensures var after := SummaryAfter(s, entries).value;
            && after.frontier >= s.frontier
            && (s.activated ==> after.activated && Acceptance(false) !in entries)
            && (forall i ::
                 0 <= i < |entries| && entries[i].Frontier? ==> s.frontier <= entries[i].time <= after.frontier)
    decreases |entries|
  {
    if entries != [] { FrontierNeverFalls(s, entries[..|entries| - 1]); }
  }

  // ---------------------------------------------------------------- leases over restarts

  /** A lease runs from the effective time at which it was accepted. */
  datatype Lease = Lease(acceptedAt: int, validFor: nat)
  {
    function Expiry(): int { acceptedAt + validFor }
  }

  /** The leases of one assignment: control can be renewed, permission is fixed when the dispatch is received.
      `acceptanceFloor` is the latest acceptance its own records show. */
  datatype Leases = Leases(control: Option<Lease>, permission: Option<Lease>, acceptanceFloor: int)

  datatype World = World(summary: Summary, leases: map<AssignmentId, Leases>, clock: Clock)

  function LeasesOf(w: World, id: AssignmentId): Leases {
    if id in w.leases then w.leases[id] else Leases(None, None, 0)
  }

  function FloorOf(w: World, id: AssignmentId): int {
    MaxInt(w.summary.frontier, LeasesOf(w, id).acceptanceFloor)
  }

  /** Readings of the two clocks at one instant. */
  datatype Reading = Reading(wall: int, monotonic: real)

  function Read(w: World, id: AssignmentId, r: Reading): Option<World> {
    match Tick(w.clock, FloorOf(w, id), r.wall, r.monotonic)
    case None => None
    case Some(clock) => Some(w.(clock := clock))
  }

  /** What a guard asks for: the control lease alone, or control and permission together for a tool call. */
  datatype Guard = ControlGuard | ToolGuard

  function ExpiryOf(l: Leases, guard: Guard): Option<int> {
    if l.control.None? then None
    else if guard.ControlGuard? then Some(l.control.value.Expiry())
    else if l.permission.None? then None
    else
      var c, p := l.control.value.Expiry(), l.permission.value.Expiry();
      Some(if c < p then c else p)
  }

  datatype Verdict = Active | TimedOut | NoLease | ClockFault

  /** A guard reads the clock once to decide and, if expired and not yet durable, once more for the frontier it
      commits; a crash in between loses only that write. */
  function Check(w: World, id: AssignmentId, guard: Guard, first: Reading, second: Reading,
      crash: bool): (Verdict, World) {
    var expiry := ExpiryOf(LeasesOf(w, id), guard);
    if expiry.None? then (NoLease, w)
    else
      match Read(w, id, first)
      case None => (ClockFault, w)
      case Some(read) =>
        if Shown(read.clock) < expiry.value then (Active, read)
        else if read.summary.frontier >= expiry.value then (TimedOut, read)
        else
          match Read(read, id, second)
          case None => (ClockFault, read)
          case Some(again) =>
            if crash then (ClockFault, again)
            else
              match SummaryAfter(again.summary, [Frontier(Shown(again.clock))])
              case None => (ClockFault, again)
              case Some(summary) => (TimedOut, again.(summary := summary))
  }

  /** Accepting or renewing a lease at the effective time writes that time as the frontier in the same commit. */
  function Accept(w: World, id: AssignmentId, control: Option<nat>, permission: Option<nat>,
      r: Reading): Option<World> {
    match Read(w, id, r)
    case None => None
    case Some(read) =>
      var now := Shown(read.clock);
      match SummaryAfter(read.summary, [Frontier(now), Acceptance(true)])
      case None => None
      case Some(summary) =>
        var l := LeasesOf(read, id);
        var accepted := Leases(if control.Some? then Some(Lease(now, control.value)) else l.control,
                               if permission.Some? then Some(Lease(now, permission.value)) else l.permission,
                               MaxInt(l.acceptanceFloor, now));
        Some(read.(summary := summary, leases := read.leases[id := accepted]))
  }

  datatype Event =
    | Restart(reading: Reading)
    | Guarded(id: AssignmentId, guard: Guard, first: Reading, second: Reading, crash: bool)
    | Renew(id: AssignmentId, validFor: nat, reading: Reading)
    | Receive(id: AssignmentId, control: nat, permission: nat, reading: Reading)

  function Step(w: World, e: Event): World {
    match e
    case Restart(r) => w.(clock := Clock(r.wall as real, r.monotonic))
    case Guarded(id, guard, first, second, crash) => Check(w, id, guard, first, second, crash).1
    case Renew(id, validFor, r) => (match Accept(w, id, Some(validFor), None, r) case Some(next) => next case None => w)
    case Receive(id, control, permission, r) =>
      if LeasesOf(w, id).permission.Some? then w
      else match Accept(w, id, Some(control), Some(permission), r) case Some(next) => next case None => w
  }

  function Run(w: World, events: seq<Event>): World
    decreases |events|
  {
    if events == [] then w else Step(Run(w, events[..|events| - 1]), events[|events| - 1])
  }

  lemma ReadFacts(w: World, id: AssignmentId, r: Reading)
    requires Read(w, id, r).Some?
    ensures var n := Read(w, id, r).value;
            && n.summary == w.summary && n.leases == w.leases
            && Shown(n.clock) >= FloorOf(w, id) && Shown(n.clock) >= Shown(w.clock)
            && n.clock.time >= w.clock.time && Lead(n.clock) >= Lead(w.clock)
  {
    TickAdvances(w.clock, FloorOf(w, id), r.wall, r.monotonic);
  }

  lemma OneFrontier(s: Summary, now: int)
    ensures SummaryAfter(s, [Frontier(now)]) == if now < s.frontier then None else Some(Summary(now, true))
    ensures SummaryAfter(s, [Frontier(now), Acceptance(true)]) == if now < s.frontier then None
            else Some(Summary(now, true))
  {
    assert [Frontier(now)][..0] == [];
    assert [Frontier(now), Acceptance(true)][..1] == [Frontier(now)];
  }

  /** No guard or acceptance ever tries to write a frontier behind the stored one, so none is refused for it. */
  lemma FrontierWritesAccepted(w: World, id: AssignmentId, first: Reading, second: Reading)
    ensures Read(w, id, first).Some? ==> Shown(Read(w, id, first).value.clock) >= w.summary.frontier
    ensures Read(w, id, first).Some? ==>
              (Accept(w, id, Some(0), None, first).Some?
               && Accept(w, id, Some(0), None, first).value.summary.frontier >= w.summary.frontier)
    ensures Read(w, id, first).Some? && Read(Read(w, id, first).value, id, second).Some? ==>
              SummaryAfter(w.summary, [Frontier(Shown(Read(Read(w, id, first).value, id, second).value.clock))]).Some?
  {
    if Read(w, id, first).Some? {
      var n := Read(w, id, first).value;
      ReadFacts(w, id, first);
      OneFrontier(w.summary, Shown(n.clock));
      if Read(n, id, second).Some? {
        ReadFacts(n, id, second);
        OneFrontier(w.summary, Shown(Read(n, id, second).value.clock));
      }
    }
  }

  lemma AcceptFacts(w: World, id: AssignmentId, control: Option<nat>, permission: Option<nat>, r: Reading)
    requires Accept(w, id, control, permission, r).Some?
    ensures var n := Accept(w, id, control, permission, r).value;
            && n.summary.frontier == Shown(n.clock) >= w.summary.frontier
            && (forall other :: other != id ==> LeasesOf(n, other) == LeasesOf(w, other))
            && (permission.None? ==> LeasesOf(n, id).permission == LeasesOf(w, id).permission)
            && (control.Some? ==> LeasesOf(n, id).control == Some(Lease(Shown(n.clock), control.value)))
            && Lead(n.clock) >= Lead(w.clock)
  {
    ReadFacts(w, id, r);
    OneFrontier(w.summary, Shown(Read(w, id, r).value.clock));
  }

  lemma CheckFacts(w: World, id: AssignmentId, guard: Guard, first: Reading, second: Reading, crash: bool)
    ensures var (verdict, n) := Check(w, id, guard, first, second, crash);
            && n.summary.frontier >= w.summary.frontier
            && n.leases == w.leases
            && Lead(n.clock) >= Lead(w.clock)
            && (verdict.TimedOut? ==>
                 ExpiryOf(LeasesOf(w, id), guard).Some? && n.summary.frontier >= ExpiryOf(LeasesOf(w, id), guard).value)
            && (ExpiryOf(LeasesOf(w, id), guard).Some? ==>
                  w.summary.frontier >= ExpiryOf(LeasesOf(w, id), guard).value ==> verdict != Active)
  {
    if Read(w, id, first).Some? {
      var read := Read(w, id, first).value;
      ReadFacts(w, id, first);
      if Read(read, id, second).Some? {
        ReadFacts(read, id, second);
        OneFrontier(w.summary, Shown(Read(read, id, second).value.clock));
      }
    }
  }

  /** The durable frontier never moves back, whatever the wall clock does and however often the process restarts. */
  lemma {:induction false} FrontierMonotone(w: World, events: seq<Event>)
    ensures Run(w, events).summary.frontier >= w.summary.frontier
    decreases |events|
  {
    if events != [] {
      FrontierMonotone(w, events[..|events| - 1]);
      StepFacts(Run(w, events[..|events| - 1]), events[|events| - 1]);
    }
  }

  lemma StepFacts(w: World, e: Event)
    ensures Step(w, e).summary.frontier >= w.summary.frontier
    ensures !e.Restart? ==> Lead(Step(w, e).clock) >= Lead(w.clock)
    ensures forall id ::
              !(e.Renew? && e.id == id) && LeasesOf(w, id).permission.Some? ==>
                LeasesOf(Step(w, e), id) == LeasesOf(w, id)
    ensures forall id ::
              LeasesOf(w, id).permission.Some? ==> LeasesOf(Step(w, e), id).permission == LeasesOf(w, id).permission
    ensures forall id ::
              !(e.Renew? && e.id == id) && !(e.Receive? && e.id == id) ==> LeasesOf(Step(w, e), id) == LeasesOf(w, id)
  {
    match e
    case Restart(_) =>
    case Guarded(id, guard, first, second, crash) => CheckFacts(w, id, guard, first, second, crash);
    case Renew(id, validFor, r) =>
      if Accept(w, id, Some(validFor), None, r).Some? { AcceptFacts(w, id, Some(validFor), None, r); }
    case Receive(id, control, permission, r) =>
      if Accept(w, id, Some(control), Some(permission), r).Some? {
        AcceptFacts(w, id, Some(control), Some(permission), r);
      }
  }

  predicate Renews(e: Event, id: AssignmentId) { (e.Renew? || e.Receive?) && e.id == id }

  /** The guard's lease is dead: the frontier has durably passed its expiry. */
  predicate Dead(w: World, id: AssignmentId, guard: Guard) {
    var expiry := ExpiryOf(LeasesOf(w, id), guard);
    expiry.Some? && w.summary.frontier >= expiry.value
  }

  /** Expiry is absorbing: once a guard has durably found a lease expired, no later guard of any process finds it
      active, unless the lease is renewed. */
  lemma {:induction false} ExpiryAbsorbing(w: World, id: AssignmentId, guard: Guard, events: seq<Event>,
      first: Reading, second: Reading, crash: bool)
    requires Dead(w, id, guard) && (forall e :: e in events ==> !Renews(e, id))
    ensures Dead(Run(w, events), id, guard)
    ensures Check(Run(w, events), id, guard, first, second, crash).0 != Active
    decreases |events|
  {
    if events != [] {
      var before := events[..|events| - 1];
      assert forall e :: e in before ==> e in events;
      ExpiryAbsorbing(w, id, guard, before, first, second, crash);
      assert events[|events| - 1] in events;
      StepFacts(Run(w, before), events[|events| - 1]);
    }
    CheckFacts(Run(w, events), id, guard, first, second, crash);
  }

  lemma ExpiredIsDead(w: World, id: AssignmentId, guard: Guard, first: Reading, second: Reading, crash: bool)
    requires Check(w, id, guard, first, second, crash).0 == TimedOut
    ensures Dead(Check(w, id, guard, first, second, crash).1, id, guard)
  {
    CheckFacts(w, id, guard, first, second, crash);
  }

  /** Renewing control does not revive tool calls whose permission lease has durably expired. */
  lemma {:induction false} PermissionNotRevived(w: World, id: AssignmentId, events: seq<Event>, first: Reading,
      second: Reading, crash: bool)
    requires LeasesOf(w, id).permission.Some? && w.summary.frontier >= LeasesOf(w, id).permission.value.Expiry()
    ensures LeasesOf(Run(w, events), id).permission == LeasesOf(w, id).permission
    ensures Check(Run(w, events), id, ToolGuard, first, second, crash).0 != Active
    decreases |events|
  {
    if events != [] {
      PermissionNotRevived(w, id, events[..|events| - 1], first, second, crash);
      StepFacts(Run(w, events[..|events| - 1]), events[|events| - 1]);
    }
    FrontierMonotone(w, events);
    CheckFacts(Run(w, events), id, ToolGuard, first, second, crash);
  }

  // ---------------------------------------------------------------- duration on the monotonic clock

  lemma {:induction false} LeadNeverFalls(w: World, events: seq<Event>)
    requires forall e :: e in events ==> !e.Restart?
    ensures Lead(Run(w, events).clock) >= Lead(w.clock)
    decreases |events|
  {
    if events != [] {
      var before := events[..|events| - 1];
      assert forall e :: e in before ==> e in events;
      LeadNeverFalls(w, before);
      assert events[|events| - 1] in events;
      StepFacts(Run(w, before), events[|events| - 1]);
    }
  }

  /** The guard looks at this lease. */
  predicate Guards(l: Leases, guard: Guard, lease: Lease) {
    l.control == Some(lease) || (guard.ToolGuard? && l.permission == Some(lease))
  }

  /** The lease stays in place: a permission lease always does, a control lease until it is renewed. */
  predicate Stays(l: Leases, guard: Guard, lease: Lease, id: AssignmentId, events: seq<Event>) {
    (guard.ToolGuard? && l.permission == Some(lease)) || (forall e :: e in events ==> !Renews(e, id))
  }

  lemma {:induction false} PermissionKept(w: World, id: AssignmentId, events: seq<Event>)
    requires LeasesOf(w, id).permission.Some?
    ensures LeasesOf(Run(w, events), id).permission == LeasesOf(w, id).permission
    decreases |events|
  {
    if events != [] {
      PermissionKept(w, id, events[..|events| - 1]);
      StepFacts(Run(w, events[..|events| - 1]), events[|events| - 1]);
    }
  }

  /** However wall time moves, a guard does not pass once the duration of any lease it looks at has elapsed on the
      monotonic clock since a reading that already showed at least the lease's start. */
  lemma DurationBound(w: World, id: AssignmentId, guard: Guard, lease: Lease, events: seq<Event>, first: Reading,
      second: Reading, crash: bool)
    requires Guards(LeasesOf(w, id), guard, lease) && Stays(LeasesOf(w, id), guard, lease, id, events)
    requires forall e :: e in events ==> !e.Restart?
    requires w.clock.time >= lease.acceptedAt as real && first.monotonic - w.clock.monotonic >= lease.validFor as real
    ensures Check(Run(w, events), id, guard, first, second, crash).0 != Active
  {
    LeadNeverFalls(w, events);
    var later := Run(w, events);
    if guard.ToolGuard? && LeasesOf(w, id).permission == Some(lease) {
      PermissionKept(w, id, events);
    } else {
      LeasesKept(w, id, events);
    }
    if Read(later, id, first).Some? {
      var shown := Read(later, id, first).value.clock;
      assert shown.time >= later.clock.time + first.monotonic - later.clock.monotonic;
      assert shown.time >= lease.Expiry() as real;
    }
  }

  lemma {:induction false} LeasesKept(w: World, id: AssignmentId, events: seq<Event>)
    requires forall e :: e in events ==> !Renews(e, id)
    ensures LeasesOf(Run(w, events), id) == LeasesOf(w, id)
    decreases |events|
  {
    if events != [] {
      var before := events[..|events| - 1];
      assert forall e :: e in before ==> e in events;
      LeasesKept(w, id, before);
      assert events[|events| - 1] in events;
      StepFacts(Run(w, before), events[|events| - 1]);
    }
  }

  /** Every lease lies at or before its assignment's acceptance floor. */
  ghost predicate FloorsCover(w: World) {
    forall id :: id in w.leases ==>
      && (w.leases[id].control.Some? ==> w.leases[id].control.value.acceptedAt <= w.leases[id].acceptanceFloor)
      && (w.leases[id].permission.Some? ==> w.leases[id].permission.value.acceptedAt <= w.leases[id].acceptanceFloor)
  }

  lemma {:induction false} FloorsStayCovering(w: World, events: seq<Event>)
    requires FloorsCover(w)
    ensures FloorsCover(Run(w, events))
    decreases |events|
  {
    if events != [] {
      var before, e := Run(w, events[..|events| - 1]), events[|events| - 1];
      FloorsStayCovering(w, events[..|events| - 1]);
      match e
      case Guarded(id, guard, first, second, crash) => CheckFacts(before, id, guard, first, second, crash);
      case _ =>
    }
  }

  /** Any reading for an assignment, in whatever process, shows the start of each of its leases. */
  lemma ReadingShowsStart(w: World, id: AssignmentId, r: Reading, guard: Guard, lease: Lease)
    requires FloorsCover(w) && Read(w, id, r).Some? && Guards(LeasesOf(w, id), guard, lease)
    ensures Read(w, id, r).value.clock.time >= lease.acceptedAt as real
            && Read(w, id, r).value.clock.monotonic == r.monotonic
  {
    ReadFacts(w, id, r);
  }

  /** So does accepting one. */
  lemma AcceptanceShowsStart(w: World, id: AssignmentId, control: Option<nat>, permission: Option<nat>, r: Reading,
      guard: Guard, lease: Lease)
    requires FloorsCover(w) && Accept(w, id, control, permission, r).Some?
    requires Guards(LeasesOf(Accept(w, id, control, permission, r).value, id), guard, lease)
    ensures var n := Accept(w, id, control, permission, r).value;
            n.clock.time >= lease.acceptedAt as real && n.clock.monotonic == r.monotonic
  {
    ReadFacts(w, id, r);
  }

  /** From a world without leases, through any history of restarts, guards and acceptances: a lease that was
      accepted, or seen by any process, at monotonic time `r` lets no guard of that process pass once its own
      duration has elapsed since. */
  lemma LeaseEnds(start: World, history: seq<Event>, id: AssignmentId, accepted: Option<(Option<nat>, Option<nat>)>,
      r: Reading, n: World,
                  guard: Guard, lease: Lease, events: seq<Event>, first: Reading, second: Reading, crash: bool)
    requires start.leases == map[]
    requires var w := Run(start, history);
             Some(n) ==
               match accepted
               case None => Read(w, id, r)
               case Some((control, permission)) => Accept(w, id, control, permission, r)
    requires Guards(LeasesOf(n, id), guard, lease) && Stays(LeasesOf(n, id), guard, lease, id, events)
    requires (forall e :: e in events ==> !e.Restart?) && first.monotonic - r.monotonic >= lease.validFor as real
    ensures Check(Run(n, events), id, guard, first, second, crash).0 != Active
  {
    FloorsStayCovering(start, history);
    var w := Run(start, history);
    match accepted {
      case None => ReadingShowsStart(w, id, r, guard, lease);
      case Some((control, permission)) => AcceptanceShowsStart(w, id, control, permission, r, guard, lease);
    }
    DurationBound(n, id, guard, lease, events, first, second, crash);
  }

  /** A lease is not cut short either: while neither wall time, the frontier, the acceptance floor nor the elapsed
      clock has reached the expiry a guard looks at, the guard passes. */
  lemma UnexpiredIsActive(w: World, id: AssignmentId, guard: Guard, expiry: int, first: Reading, second: Reading,
      crash: bool)
    requires ExpiryOf(LeasesOf(w, id), guard) == Some(expiry) && first.monotonic >= w.clock.monotonic
    requires first.wall < expiry && FloorOf(w, id) < expiry
             && w.clock.time + first.monotonic - w.clock.monotonic < expiry as real
    ensures Check(w, id, guard, first, second, crash).0 == Active
  {
    var read := Read(w, id, first).value;
    assert read.clock.time < expiry as real;
    assert Shown(read.clock) < expiry;
  }
}
