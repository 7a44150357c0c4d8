/** The permission snapshot catalog: content-addressed snapshots, three families of pointers and a head, written
    under a write-ahead intent so that a crash between any two durable writes can be rolled forward. */
module SnapshotCatalog {
  import opened Options

  /** A validated snapshot.  Its digest is injective, so the snapshot stands for its own digest. */
  datatype Snapshot = Snapshot(version: nat, content: int, payload: int)

  datatype Head = Head(highWater: nat, digest: Option<Snapshot>, position: nat)

  /** The files of an established layout; each is replaced or removed atomically. */
  datatype Disk = Disk(
    head: Head,
    intent: Option<Snapshot>,
    snapshots: set<Snapshot>,
    versions: map<nat, Snapshot>,
    contents: map<int, Snapshot>,
    positions: map<nat, Snapshot>)

  const EmptyDisk := Disk(Head(0, None, 0), None, {}, map[], map[], map[])

  datatype Write =
    | PutIntent(s: Snapshot)
    | PutSnapshot(s: Snapshot)
    | PutVersion(s: Snapshot)
    | PutContent(s: Snapshot)
    | PutPosition(position: nat, s: Snapshot)
    | PutHead(head: Head)
    | ClearIntent

  function Applied(d: Disk, w: Write): Disk {
    match w
    case PutIntent(s) => d.(intent := Some(s))
    case PutSnapshot(s) => d.(snapshots := d.snapshots + {s})
    case PutVersion(s) => d.(versions := d.versions[s.version := s])
    case PutContent(s) => d.(contents := d.contents[s.content := s])
    case PutPosition(position, s) => d.(positions := d.positions[position := s])
    case PutHead(head) => d.(head := head)
    case ClearIntent => d.(intent := None)
  }

  // ---------------------------------------------------------------- what holds between any two writes

  predicate Linked(d: Disk, s: Snapshot) {
    && s.version in d.versions && d.versions[s.version] == s
    && s.content in d.contents && d.contents[s.content] == s
  }

  /** No pointer under the snapshot's version or content names another one. */
  predicate Unopposed(d: Disk, s: Snapshot) {
    && (s.version in d.versions ==> d.versions[s.version] == s)
    && (s.content in d.contents ==> d.contents[s.content] == s)
  }

  predicate Pending(d: Disk, s: Snapshot) { d.intent == Some(s) }

  /** Pointers name stored snapshots under their own keys. */
  ghost predicate PointersBound(d: Disk) {
    && (forall v :: v in d.versions ==> d.versions[v].version == v && d.versions[v] in d.snapshots)
    && (forall c :: c in d.contents ==> d.contents[c].content == c && d.contents[c] in d.snapshots)
    && (forall s :: s in d.snapshots ==> s.version > 0)
  }

  /** Only the snapshot of a pending intent may lack a pointer or lie above the head. */
  ghost predicate OnlyPendingOpen(d: Disk) {
    && (forall s :: s in d.snapshots ==> Linked(d, s) || Pending(d, s))
    && (forall v :: v in d.versions ==> v <= d.head.highWater || Pending(d, d.versions[v]))
    && (d.intent.Some? ==> d.intent.value.version > 0 && Unopposed(d, d.intent.value))
  }

  /** Positions are dense up to the head, with at most the pending publication beyond. */
  ghost predicate PositionsDense(d: Disk) {
    && (forall n :: 1 <= n <= d.head.position ==> n in d.positions)
    && (forall n :: n in d.positions ==>
          || 1 <= n <= d.head.position
          || (n == d.head.position + 1 && Pending(d, d.positions[n]) && d.positions[n].version > d.head.highWater))
    && (forall n :: n in d.positions ==> Linked(d, d.positions[n]))
    && (forall m, n ::
         m in d.positions && n in d.positions && m < n ==> d.positions[m].version < d.positions[n].version)
  }

  ghost predicate HeadBound(d: Disk) {
    && (d.head.position == 0 <==> d.head.highWater == 0)
    && (d.head.highWater == 0 ==> d.head.digest == None)
    && (d.head.highWater > 0 ==>
          && d.head.digest.Some?
          && d.head.digest.value.version == d.head.highWater
          && Linked(d, d.head.digest.value)
          && d.head.position in d.positions
          && d.positions[d.head.position] == d.head.digest.value)
  }

  ghost predicate Inv(d: Disk) {
    PointersBound(d) && OnlyPendingOpen(d) && PositionsDense(d) && HeadBound(d)
  }

  /** What no operation and no crash ever takes back. */
  ghost predicate Grows(a: Disk, b: Disk) {
    && a.head.highWater <= b.head.highWater && a.head.position <= b.head.position
    && a.snapshots <= b.snapshots
    && (forall v :: v in a.versions ==> v in b.versions && b.versions[v] == a.versions[v])
    && (forall c :: c in a.contents ==> c in b.contents && b.contents[c] == a.contents[c])
    && (forall n :: n in a.positions ==> n in b.positions && b.positions[n] == a.positions[n])
  }

  lemma GrowsTrans(a: Disk, b: Disk, c: Disk)
    requires Grows(a, b) && Grows(b, c)
    ensures Grows(a, c)
  {
  }

  /** Version, content and digest are bound one to one. */
  lemma OneToOne(d: Disk, s: Snapshot, t: Snapshot)
    requires Inv(d) && s in d.snapshots && t in d.snapshots
    ensures s.version == t.version ==> s == t
    ensures s.content == t.content ==> s == t
  {
  }

  // ---------------------------------------------------------------- single writes

  predicate Ready(d: Disk, w: Write) {
    match w
    case PutIntent(s) => d.intent.None? && s.version > 0 && Unopposed(d, s)
    case PutSnapshot(s) => Pending(d, s)
    case PutVersion(s) => Pending(d, s) && s in d.snapshots && s.version !in d.versions
    case PutContent(s) => Pending(d, s) && s in d.snapshots && s.content !in d.contents
    case PutPosition(position, s) =>
      Pending(d, s) && Linked(d, s) && s.version > d.head.highWater && position == d.head.position + 1
      && position !in d.positions
    case PutHead(head) =>
      && d.intent.Some? && Linked(d, d.intent.value) && d.intent.value.version > d.head.highWater
      && head == Head(d.intent.value.version, d.intent, d.head.position + 1)
      && head.position in d.positions && d.positions[head.position] == d.intent.value
    case ClearIntent =>
      d.intent.Some?
      && (d.intent.value !in d.snapshots || (Linked(d, d.intent.value) && d.intent.value.version <= d.head.highWater))
  }

  lemma PointersKept(d: Disk, w: Write)
    requires PointersBound(d) && Ready(d, w)
    requires d.intent.Some? ==> d.intent.value.version > 0
    ensures PointersBound(Applied(d, w)) && Grows(d, Applied(d, w))
  {
  }

  lemma OpenKept(d: Disk, w: Write)
    requires PointersBound(d) && OnlyPendingOpen(d) && Ready(d, w)
    ensures OnlyPendingOpen(Applied(d, w))
  {
    var e := Applied(d, w);
    forall s | s in e.snapshots ensures Linked(e, s) || Pending(e, s) {
      if s in d.snapshots { assert Linked(d, s) || Pending(d, s); }
    }
    forall v | v in e.versions ensures v <= e.head.highWater || Pending(e, e.versions[v]) {
      if v in d.versions { assert v <= d.head.highWater || Pending(d, d.versions[v]); }
    }
  }

  lemma LinkedKept(d: Disk, e: Disk, s: Snapshot)
    requires Linked(d, s) && Grows(d, e)
    ensures Linked(e, s)
  {
  }

  lemma PositionsLinked(d: Disk, e: Disk, w: Write)
    requires PositionsDense(d) && Ready(d, w) && e == Applied(d, w) && Grows(d, e)
    ensures forall n :: n in e.positions ==> Linked(e, e.positions[n])
  {
    forall n | n in e.positions ensures Linked(e, e.positions[n]) {
      if n in d.positions { LinkedKept(d, e, d.positions[n]); }
    }
  }

  lemma PositionsKept(d: Disk, w: Write)
    requires Inv(d) && Ready(d, w) && Grows(d, Applied(d, w))
    ensures PositionsDense(Applied(d, w))
  {
    PositionsLinked(d, Applied(d, w), w);
    if w.PutPosition? {
      PositionAdded(d, w.position, w.s);
    } else if w.PutHead? {
      PositionReached(d, Applied(d, w));
    } else if w.ClearIntent? {
      PositionSettled(d, Applied(d, w));
    }
  }

  lemma PositionReached(d: Disk, e: Disk)
    requires PositionsDense(d) && e == d.(head := e.head) && e.head.position == d.head.position + 1
             && e.head.position in d.positions
    ensures PositionsDense(e)
  {
  }

  /** An intent that may be cleared has no position beyond the head. */
  lemma PositionSettled(d: Disk, e: Disk)
    requires PointersBound(d) && PositionsDense(d) && Ready(d, ClearIntent) && e == d.(intent := None)
    ensures PositionsDense(e)
  {
  }

  lemma PositionAdded(d: Disk, position: nat, s: Snapshot)
    requires PositionsDense(d) && HeadBound(d) && Pending(d, s) && s.version > d.head.highWater
    requires position == d.head.position + 1 && position !in d.positions
    ensures var e := d.positions[position := s];
            && (forall n :: n in e ==> n <= position)
            && (forall m, n :: m in e && n in e && m < n ==> e[m].version < e[n].version)
  {
    forall m | m in d.positions ensures m < position && d.positions[m].version < s.version {
      BelowHead(d, m);
    }
  }

  /** Positions up to the head hold versions up to the head's. */
  lemma BelowHead(d: Disk, n: nat)
    requires PositionsDense(d) && HeadBound(d) && n in d.positions && n <= d.head.position
    ensures d.positions[n].version <= d.head.highWater
  {
    if n < d.head.position { assert d.head.position in d.positions; }
  }

  lemma HeadKept(d: Disk, w: Write)
    requires Inv(d) && Ready(d, w) && Grows(d, Applied(d, w))
    ensures HeadBound(Applied(d, w))
  {
    var e := Applied(d, w);
    if d.head.highWater > 0 { LinkedKept(d, e, d.head.digest.value); }
    if w.PutHead? { LinkedKept(d, e, d.intent.value); }
  }

  /** Every write made in its place keeps the layout: a crash right after it leaves nothing to repair but the intent. */
  lemma WriteKeepsInv(d: Disk, w: Write)
    requires Inv(d) && Ready(d, w)
    ensures Inv(Applied(d, w)) && Grows(d, Applied(d, w))
  {
    PointersKept(d, w);
    OpenKept(d, w);
    PositionsKept(d, w);
    HeadKept(d, w);
  }

  // ---------------------------------------------------------------- the catalog

  /** An operation completes, is refused, or dies with the process. */
  datatype Result<+T> = Done(value: T) | Refused | Crashed

  const CacheLimit: nat := 32

  /** At most `needed` writes are used, and only running out of them is a crash. */
  predicate Survives(before: nat, after: nat, needed: nat, crashed: bool) {
    after <= before && (if crashed then before < needed else before <= after + needed)
  }

  /** With no intent pending, every stored snapshot is fully published. */
  lemma Settled(d: Disk, s: Snapshot)
    requires Inv(d) && d.intent.None? && s in d.snapshots
    ensures Linked(d, s) && s.version <= d.head.highWater
  {
    assert Linked(d, s);
    assert d.versions[s.version] == s;
  }

  class FileTrustRuleSnapshotCatalog {
    var disk: Disk
    /** Validated snapshots, least recently used first; lost on restart. */
    var cache: seq<Snapshot>
    /** How many more durable writes this process survives. */
    var writesLeft: nat

    constructor (disk: Disk, writesLeft: nat)
      requires Inv(disk)
      ensures Valid() && this.disk == disk && this.writesLeft == writesLeft
    {
      this.disk, this.cache, this.writesLeft := disk, [], writesLeft;
    }

    ghost predicate Valid()
      reads this
    {
      Inv(disk) && |cache| <= CacheLimit && (forall s :: s in cache ==> s in disk.snapshots)
    }

    /** One atomic durable write, or the crash that prevents it. */
    method Durably(w: Write) returns (ok: bool)
      requires Valid() && Ready(disk, w)
      modifies this
      ensures Valid() && cache == old(cache)
      ensures ok ==> disk == Applied(old(disk), w)
      ensures !ok ==> disk == old(disk)
      ensures Grows(old(disk), disk)
      ensures ok <==> old(writesLeft) > 0
      ensures writesLeft == if ok then old(writesLeft) - 1 else old(writesLeft)
    {
      if writesLeft == 0 { return false; }
      WriteKeepsInv(disk, w);
      disk := Applied(disk, w);
      writesLeft := writesLeft - 1;
      ok := true;
    }

    method Remember(s: Snapshot)
      requires Valid() && s in disk.snapshots
      modifies this`cache
      ensures Valid() && s in cache
    {
      var kept := Dropping(cache, s);
      DroppingKeeps(cache, s);
      var renewed := kept + [s];
      assert renewed[|kept|] == s;
      cache := if |renewed| > CacheLimit then renewed[1..] else renewed;
      assert cache[|cache| - 1] == s;
    }

    /** A snapshot by digest, from memory or from its file. */
    method Load(s: Snapshot) returns (found: bool)
      requires Valid()
      modifies this`cache
      ensures Valid()
      ensures found <==> s in disk.snapshots
    {
      found := s in cache || s in disk.snapshots;
      if found { Remember(s); }
    }

    method LinkVersion(s: Snapshot) returns (r: Result<bool>)
      requires Valid() && Pending(disk, s) && s in disk.snapshots
      modifies this
      ensures Valid() && Grows(old(disk), disk) && disk.head == old(disk).head && Pending(disk, s)
              && s in disk.snapshots
      ensures r != Refused && (r.Done? ==> s.version in disk.versions && disk.versions[s.version] == s)
      ensures Survives(old(writesLeft), writesLeft, 1, r.Crashed?)
    {
      if s.version !in disk.versions {
        var ok := Durably(PutVersion(s));
        return if ok then Done(true) else Crashed;
      }
      return if disk.versions[s.version] == s then Done(false) else Refused;
    }

    method LinkContent(s: Snapshot) returns (r: Result<bool>)
      requires Valid() && Pending(disk, s) && s in disk.snapshots
      modifies this
      ensures Valid() && Grows(old(disk), disk) && disk.head == old(disk).head && Pending(disk, s)
              && s in disk.snapshots
      ensures r != Refused && (r.Done? ==> s.content in disk.contents && disk.contents[s.content] == s)
      ensures Survives(old(writesLeft), writesLeft, 1, r.Crashed?)
    {
      if s.content !in disk.contents {
        var ok := Durably(PutContent(s));
        return if ok then Done(true) else Crashed;
      }
      return if disk.contents[s.content] == s then Done(false) else Refused;
    }

    /** Completes the pointers of a stored snapshot and raises the head if its version is higher. */
    method Link(s: Snapshot) returns (r: Result<Head>)
      requires Valid() && Pending(disk, s) && s in disk.snapshots
      modifies this
      ensures Valid() && Grows(old(disk), disk) && Pending(disk, s) && s in disk.snapshots
      ensures r != Refused
      ensures r.Done? ==> r.value == disk.head && Linked(disk, s) && s.version <= disk.head.highWater
      ensures r.Done? ==> disk.head == if s.version <= old(disk).head.highWater then old(disk).head
                                       else Head(s.version, Some(s), old(disk).head.position + 1)
      ensures Survives(old(writesLeft), writesLeft, 4, r.Crashed?)
    {
      ghost var before := disk;
      var pointed := Point(s);
      if !pointed.Done? { return if pointed.Refused? then Refused else Crashed; }
      if s.version <= disk.head.highWater { return Done(disk.head); }
      ghost var middle := disk;
      r := Raise(s);
      GrowsTrans(before, middle, disk);
    }

    method Point(s: Snapshot) returns (r: Result<bool>)
      requires Valid() && Pending(disk, s) && s in disk.snapshots
      modifies this
      ensures Valid() && Grows(old(disk), disk) && disk.head == old(disk).head && Pending(disk, s)
              && s in disk.snapshots
      ensures r != Refused && (r.Done? ==> Linked(disk, s))
      ensures Survives(old(writesLeft), writesLeft, 2, r.Crashed?)
    {
      ghost var before := disk;
      r := LinkVersion(s);
      if !r.Done? { return; }
      ghost var middle := disk;
      r := LinkContent(s);
      GrowsTrans(before, middle, disk);
    }

    /** The position pointer is written before the head. */
    method Raise(s: Snapshot) returns (r: Result<Head>)
      requires Valid() && Pending(disk, s) && Linked(disk, s) && s in disk.snapshots && s.version > disk.head.highWater
      modifies this
      ensures Valid() && Grows(old(disk), disk) && Pending(disk, s) && s in disk.snapshots && Linked(disk, s)
      ensures r != Refused
      ensures r.Done? ==> r.value == disk.head == Head(s.version, Some(s), old(disk).head.position + 1)
      ensures Survives(old(writesLeft), writesLeft, 2, r.Crashed?)
    {
      var position := disk.head.position + 1;
      if position !in disk.positions {
        var ok := Durably(PutPosition(position, s));
        if !ok { return Crashed; }
      } else if disk.positions[position] != s {
        return Refused;
      }
      var next := Head(s.version, Some(s), position);
      var ok := Durably(PutHead(next));
      if !ok { return Crashed; }
      r := Done(next);
    }

    /** Rolls a pending intent forward or drops it, then checks the head against its pointers. */
    method Prepare() returns (r: Result<Head>)
      requires Valid()
      modifies this
      ensures Valid() && Grows(old(disk), disk)
      ensures r != Refused
      ensures r.Done? ==> disk.intent.None? && r.value == disk.head
      ensures old(disk).intent.None? ==> r.Done? && disk == old(disk)
      ensures Survives(old(writesLeft), writesLeft, 5, r.Crashed?)
    {
      if disk.intent.Some? {
        var rolled := RollForward();
        if !rolled.Done? { return if rolled.Refused? then Refused else Crashed; }
      }
      ChecksPass(disk);
      r := if HeadConsistent(disk) then Done(disk.head) else Refused;
    }

    /** A stored snapshot is linked; an intent whose snapshot was never written is dropped. */
    method RollForward() returns (r: Result<bool>)
      requires Valid() && disk.intent.Some?
      modifies this
      ensures Valid() && Grows(old(disk), disk)
      ensures r != Refused && (r.Done? ==> disk.intent.None?)
      ensures Survives(old(writesLeft), writesLeft, 5, r.Crashed?)
    {
      ghost var before := disk;
      var s := disk.intent.value;
      var found := Load(s);
      if found {
        var linked := Link(s);
        if !linked.Done? { return if linked.Refused? then Refused else Crashed; }
      }
      ghost var middle := disk;
      var ok := Durably(ClearIntent);
      GrowsTrans(before, middle, disk);
      r := if ok then Done(found) else Crashed;
    }

    /** Stores a validated snapshot and its pointers; refused if its version or content already names another. */
    method Install(s: Snapshot) returns (r: Result<Head>)
      requires Valid() && disk.intent.None? && s.version > 0
      modifies this
      ensures Valid() && Grows(old(disk), disk)
      ensures r.Refused? <==> !Unopposed(old(disk), s)
      ensures r.Refused? ==> disk == old(disk)
      ensures r.Done? ==>
                disk.intent.None? && s in disk.snapshots && Linked(disk, s) && r.value == disk.head
                && s.version <= disk.head.highWater
      ensures r.Done? && s.version > old(disk).head.highWater ==> disk.head.highWater == s.version
      ensures Survives(old(writesLeft), writesLeft, 7, r.Crashed?)
    {
      if !Unopposed(disk, s) { return Refused; }
      var stored := Load(s);
      if stored && s.version in disk.versions && s.content in disk.contents && disk.head.highWater >= s.version {
        return Done(disk.head);
      }
      ghost var before := disk;
      var ok := Intend(s, stored);
      if !ok { return Crashed; }
      ghost var middle := disk;
      r := CarryOut(s);
      GrowsTrans(before, middle, disk);
    }

    /** Links a snapshot whose intent is written, and clears the intent. */
    method CarryOut(s: Snapshot) returns (r: Result<Head>)
      requires Valid() && Pending(disk, s) && s in disk.snapshots
      modifies this
      ensures Valid() && Grows(old(disk), disk) && !r.Refused?
      ensures r.Done? ==>
                disk.intent.None? && s in disk.snapshots && Linked(disk, s) && r.value == disk.head
                && s.version <= disk.head.highWater
      ensures r.Done? && s.version > old(disk).head.highWater ==> disk.head.highWater == s.version
      ensures Survives(old(writesLeft), writesLeft, 5, r.Crashed?)
    {
      ghost var before := disk;
      r := Link(s);
      if !r.Done? { return Crashed; }
      ghost var middle := disk;
      var ok := Durably(ClearIntent);
      GrowsTrans(before, middle, disk);
      if !ok { return Crashed; }
    }

    /** Writes the intent and, unless it is already stored, the snapshot file. */
    method Intend(s: Snapshot, stored: bool) returns (ok: bool)
      requires Valid() && disk.intent.None? && s.version > 0 && Unopposed(disk, s) && (stored <==> s in disk.snapshots)
      modifies this
      ensures Valid() && Grows(old(disk), disk) && disk.head == old(disk).head
      ensures ok ==> Pending(disk, s) && s in disk.snapshots
      ensures Survives(old(writesLeft), writesLeft, 2, !ok)
    {
      ok := Durably(PutIntent(s));
      if !ok || stored { return; }
      ok := KeepSnapshot(s);
    }

    method KeepSnapshot(s: Snapshot) returns (ok: bool)
      requires Valid() && Pending(disk, s)
      modifies this
      ensures Valid() && Grows(old(disk), disk) && disk.head == old(disk).head
      ensures disk.intent == old(disk.intent) && (ok ==> s in disk.snapshots)
      ensures Survives(old(writesLeft), writesLeft, 1, !ok)
    {
      ok := Durably(PutSnapshot(s));
      if ok { Remember(s); }
    }

    method Publish(s: Snapshot) returns (r: Result<Head>)
      requires Valid() && s.version > 0
      modifies this
      ensures Valid() && Grows(old(disk), disk)
      ensures r.Done? ==> disk.intent.None? && s in disk.snapshots && Linked(disk, s)
      ensures r.Refused? ==> disk.intent.None? && !Unopposed(disk, s)
      ensures Survives(old(writesLeft), writesLeft, 12, r.Crashed?)
    {
      r := Prepare();
      if !r.Done? { return Crashed; }
      r := Install(s);
    }

    /** Publishes rules under the next version, or returns the snapshot that already holds them. */
    method PublishRules(content: int, payload: int) returns (r: Result<(Snapshot, nat)>)
      requires Valid()
      modifies this
      ensures Valid() && Grows(old(disk), disk)
      ensures r != Refused
      ensures r.Done? ==>
                && r.value.0.content == content && r.value.0 in disk.snapshots && Linked(disk, r.value.0)
                && r.value.1 == disk.head.highWater && disk.intent.None?
      ensures r.Done? && content !in old(disk).contents && old(disk).intent.None? ==>
                r.value.0.version == disk.head.highWater == old(disk).head.highWater + 1
      ensures Survives(old(writesLeft), writesLeft, 12, r.Crashed?)
    {
      var head := Prepare();
      if !head.Done? { return Crashed; }
      ghost var before := old(disk);
      ghost var middle := disk;
      if content in disk.contents {
        var existing := disk.contents[content];
        var found := Load(existing);
        Settled(disk, existing);
        return if found && existing.content == content then Done((existing, disk.head.highWater)) else Refused;
      }
      var s := Snapshot(disk.head.highWater + 1, content, payload);
      NoVersionAbove(disk, s.version);
      var next := Install(s);
      GrowsTrans(before, middle, disk);
      if !next.Done? { return Crashed; }
      r := Done((s, next.value.highWater));
    }

    /** The snapshot of the highest version, after repairing what a crash left behind. */
    method Latest() returns (r: Result<Option<Snapshot>>)
      requires Valid()
      modifies this
      ensures Valid() && Grows(old(disk), disk)
      ensures r != Refused
      ensures r.Done? ==> (r.value.None? <==> disk.snapshots == {})
      ensures r.Done? && r.value.Some? ==> r.value.value in disk.snapshots && forall s ::
                s in disk.snapshots ==> s.version <= r.value.value.version
      ensures Survives(old(writesLeft), writesLeft, 5, r.Crashed?)
    {
      var head := Prepare();
      if !head.Done? { return Crashed; }
      forall s | s in disk.snapshots ensures s.version <= disk.head.highWater {
        Settled(disk, s);
      }
      if head.value.digest.None? {
        assert disk.snapshots == {} by { NothingYet(disk); }
        return Done(None);
      }
      var found := Load(head.value.digest.value);
      if !found || head.value.digest.value.version != head.value.highWater { return Refused; }
      r := Done(head.value.digest);
    }
  }

  function Dropping(cache: seq<Snapshot>, s: Snapshot): seq<Snapshot> {
    if cache == [] then [] else if cache[0] == s then Dropping(cache[1..], s) else [cache[0]] + Dropping(cache[1..], s)
  }

  lemma {:induction false} DroppingKeeps(cache: seq<Snapshot>, s: Snapshot)
    ensures |Dropping(cache, s)| <= |cache| && forall t :: t in Dropping(cache, s) ==> t in cache
  {
    if cache != [] { DroppingKeeps(cache[1..], s); }
  }

  lemma NoVersionAbove(d: Disk, v: nat)
    requires Inv(d) && d.intent.None? && v > d.head.highWater
    ensures v !in d.versions
  {
  }

  lemma NothingYet(d: Disk)
    requires Inv(d) && d.intent.None? && d.head.digest.None?
    ensures d.snapshots == {}
  {
    forall s | s in d.snapshots ensures false { Settled(d, s); }
  }

  /** The bounded consistency check: the head's version and position pointers name it, and none follows. */
  predicate HeadConsistent(d: Disk) {
    && (d.head.highWater > 0 ==> d.head.highWater in d.versions && d.head.digest == Some(d.versions[d.head.highWater]))
    && d.head.highWater + 1 !in d.versions
    && (d.head.position > 0 ==>
          && d.head.position in d.positions
          && d.head.digest == Some(d.positions[d.head.position])
          && d.positions[d.head.position].version == d.head.highWater)
    && d.head.position + 1 !in d.positions
  }

  lemma ChecksPass(d: Disk)
    requires Inv(d) && d.intent.None?
    ensures HeadConsistent(d)
  {
    NoVersionAbove(d, d.head.highWater + 1);
  }

  // ---------------------------------------------------------------- whole histories

  datatype Operation = PublishSnapshot(s: Snapshot) | PublishContent(content: int, payload: int) | ReadLatest

  /** An operation in a process that survives `writes` durable writes from its start. */
  datatype Attempt = Attempt(operation: Operation, writes: nat)

  /** Any mix of operations on a new catalog with a crash between any two durable writes, also during recovery: the
      layout holds, the next process prepares successfully, and what any prefix of the history had published is
      still there. */
  method History(attempts: seq<Attempt>) returns (disks: seq<Disk>, head: Head)
    requires forall i ::
               0 <= i < |attempts| && attempts[i].operation.PublishSnapshot? ==> attempts[i].operation.s.version > 0
    ensures |disks| == |attempts| + 2 && disks[0] == EmptyDisk && Growing(disks)
    ensures var last := disks[|attempts| + 1]; last.intent.None? && head == last.head
  {
    EmptyLayout();
    disks := [EmptyDisk];
    for i := 0 to |attempts|
      invariant |disks| == i + 1 && disks[0] == EmptyDisk && Growing(disks)
    {
      var after := Try(disks[i], attempts[i]);
      GrowingMore(disks, after);
      disks := disks + [after];
    }
    var last, ready := Reopen(disks[|attempts|]);
    GrowingMore(disks, last);
    disks, head := disks + [last], ready;
  }

  /** Each layout holds, and nothing published is ever taken back. */
  ghost predicate Growing(disks: seq<Disk>) {
    && (forall i :: 0 <= i < |disks| ==> Inv(disks[i]))
    && (forall i, j :: 0 <= i <= j < |disks| ==> Grows(disks[i], disks[j]))
  }

  lemma GrowingMore(disks: seq<Disk>, after: Disk)
    requires disks != [] && Growing(disks) && Inv(after) && Grows(disks[|disks| - 1], after)
    ensures Growing(disks + [after])
  {
    forall i | 0 <= i < |disks| ensures Grows(disks[i], after) {
      GrowsTrans(disks[i], disks[|disks| - 1], after);
    }
  }

  method Reopen(d: Disk) returns (after: Disk, head: Head)
    requires Inv(d)
    ensures Inv(after) && Grows(d, after) && after.intent.None? && head == after.head
  {
    var catalog := new FileTrustRuleSnapshotCatalog(d, 5);
    var r := catalog.Prepare();
    after, head := catalog.disk, r.value;
  }

  method Try(d: Disk, attempt: Attempt) returns (after: Disk)
    requires Inv(d) && (attempt.operation.PublishSnapshot? ==> attempt.operation.s.version > 0)
    ensures Inv(after) && Grows(d, after)
  {
    var catalog := new FileTrustRuleSnapshotCatalog(d, attempt.writes);
    match attempt.operation {
      case PublishSnapshot(s) => var _ := catalog.Publish(s);
      case PublishContent(content, payload) => var _ := catalog.PublishRules(content, payload);
      case ReadLatest => var _ := catalog.Latest();
    }
    after := catalog.disk;
  }

  /** Without a pending intent the published positions are exactly 1..head and no version lies above the head. */
  lemma SettledShape(d: Disk)
    requires Inv(d) && d.intent.None?
    ensures forall n :: n in d.positions <==> 1 <= n <= d.head.position
    ensures forall v :: v in d.versions ==> v <= d.head.highWater
    ensures forall s :: s in d.snapshots <==> s.version in d.versions && d.versions[s.version] == s
  {
    forall s | s in d.snapshots ensures s.version in d.versions && d.versions[s.version] == s { Settled(d, s); }
  }

  lemma EmptyLayout()
    ensures Inv(EmptyDisk)
  {
  }
}
