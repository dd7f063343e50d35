/** The persistent registry of editor slots (`unity_slot_manager`): what survives on disk when an
    operation fails or the process dies after any of its saves. */
module SlotRegistry {
  import opened Prelude
  import opened Manifest

  datatype SlotStatus = Idle | Ready | Starting | InUse | BlockedHuman | Disabled

  /** `place` is where the worktree was last put or seen, and `transient` marks a last error that a later
      acquisition may retry by itself. */
  datatype Slot = Slot(
    id: SlotId, status: SlotStatus, lease: Option<Lease>, released: Option<Lease>, place: Place, transient: bool)

  /** Only the first `limit` slots may be used. */
  datatype Registry = Registry(slots: seq<Slot>, limit: nat)

  /** What putting a slot's worktree at the requested place comes to: it is there, or nothing is claimed. */
  datatype Preparation = Prepared | Fails(transient: bool)

  type Outside = nat -> Preparation

  datatype AcquireResult = Acquired(index: nat) | AlreadyAcquired(index: nat) | AcquireFailed

  datatype ReleaseResult = Released(index: nat) | AlreadyReleased(index: nat) | ReleaseFailed

  // ----- lookups -----

  predicate Owns(s: Slot, owner: Owner) {
    s.lease.Some? && s.lease.value.owner == owner
  }

  /** The first slot leased to the owner. */
  function Owned(slots: seq<Slot>, owner: Owner): (r: Option<nat>)
    ensures r.Some? ==> r.value < |slots| && Owns(slots[r.value], owner)
    ensures r.None? ==> forall i :: 0 <= i < |slots| ==> !Owns(slots[i], owner)
  {
    if slots == [] then None
    else if Owns(slots[0], owner) then Some(0)
    else
      var r := Owned(slots[1..], owner);
      if r.Some? then Some(r.value + 1) else None
  }

  predicate Free(s: Slot) {
    s.lease.None? && (s.status.Idle? || s.status.Ready? || (s.status.BlockedHuman? && s.transient))
  }

  /** Free slots among the first `n`, in list order, with or without the branch. */
  function FreeSlots(slots: seq<Slot>, n: nat, branch: Option<Reference>, matching: bool): (r: seq<nat>)
    requires n <= |slots|
    ensures forall k :: 0 <= k < |r| ==> r[k] < n && Free(slots[r[k]])
  {
    if n == 0 then []
    else
      var s := slots[n - 1];
      FreeSlots(slots, n - 1, branch, matching) + if Free(s) && ((branch.Some? ==> s.place.branch == branch) == matching) then [n - 1] else []
  }

  function Usable(r: Registry): nat {
    if r.limit <= |r.slots| then r.limit else |r.slots|
  }

  /** The slots an acquisition tries: its own unfinished one, or the free ones, those already on
      the branch first. */
  function Candidates(r: Registry, owner: Owner, branch: Option<Reference>): (c: seq<nat>)
    ensures forall k :: 0 <= k < |c| ==> c[k] < |r.slots|
  {
    var own := Owned(r.slots, owner);
    if own.Some? then [own.value]
    else FreeSlots(r.slots, Usable(r), branch, true) + FreeSlots(r.slots, Usable(r), branch, false)
  }

  // ----- the states an operation saves, one after the other -----

  function With(r: Registry, i: nat, s: Slot): (n: Registry)
    requires i < |r.slots|
    ensures |n.slots| == |r.slots| && n.limit == r.limit
  {
    r.(slots := r.slots[i := s])
  }

  function Quarantined(r: Registry, i: nat, transient: bool): Registry
    requires i < |r.slots|
  {
    With(r, i, r.slots[i].(status := BlockedHuman, transient := transient))
  }

  /** Tries the candidates in turn; every failure is saved before the next is tried. */
  function Preparing(r: Registry, candidates: seq<nat>, outside: Outside): (p: (seq<Registry>, Option<nat>))
    requires forall k :: 0 <= k < |candidates| ==> candidates[k] < |r.slots|
    ensures p.1.Some? ==> p.1.value in candidates && outside(p.1.value).Prepared?
    ensures forall k :: 0 <= k < |p.0| ==> |p.0[k].slots| == |r.slots|
    decreases |candidates|
  {
    if candidates == [] then ([], None)
    else
      match outside(candidates[0])
      case Prepared => ([], Some(candidates[0]))
      case Fails(transient) =>
        var r1 := Quarantined(r, candidates[0], transient);
        var rest := Preparing(r1, candidates[1..], outside);
        ([r1] + rest.0, rest.1)
  }

  function Last(r: Registry, saves: seq<Registry>): Registry {
    if saves == [] then r else saves[|saves| - 1]
  }

  function LeaseFor(s: Slot, owner: Owner, unused: Reference): Lease {
    if s.lease.Some? then Lease(s.lease.value.id, owner) else Lease(unused, owner)
  }

  function LeasedTo(r: Registry, i: nat, owner: Owner, unused: Reference, place: Place): (n: Registry)
    requires i < |r.slots|
    ensures |n.slots| == |r.slots|
  {
    With(r, i, r.slots[i].(status := Starting, lease := Some(LeaseFor(r.slots[i], owner, unused)), place := place, transient := false))
  }

  function EditorStarted(r: Registry, i: nat, ready: bool): (n: Registry)
    requires i < |r.slots|
    ensures |n.slots| == |r.slots|
  {
    With(r, i, r.slots[i].(status := if ready then InUse else BlockedHuman))
  }

  /** `unused` is the identifier a new lease would get and `ready` the outcome of starting the editor. */
  datatype Acquisition = Acquisition(owner: Owner, place: Place, unused: Reference, ready: bool)

  function AcquireSaves(r: Registry, a: Acquisition, outside: Outside): (p: (seq<Registry>, AcquireResult)) {
    var own := Owned(r.slots, a.owner);
    if own.Some? && r.slots[own.value].status.InUse? then ([], AlreadyAcquired(own.value))
    else
      var (saves, chosen) := Preparing(r, Candidates(r, a.owner, a.place.branch), outside);
      match chosen
      case None => (saves, AcquireFailed)
      case Some(i) =>
        var before := Last(r, saves);
        var starting := LeasedTo(before, i, a.owner, a.unused, a.place);
        (saves + [starting, EditorStarted(starting, i, a.ready)], if a.ready then Acquired(i) else AcquireFailed)
  }

  predicate RemembersRelease(s: Slot, owner: Owner, lease: Option<Reference>) {
    s.released.Some? && s.released.value.owner == owner && (lease.Some? ==> s.released.value.id == lease.value)
  }

  function ReleasedBefore(slots: seq<Slot>, owner: Owner, lease: Option<Reference>): (r: Option<nat>)
    ensures r.Some? ==> r.value < |slots| && RemembersRelease(slots[r.value], owner, lease)
    ensures r.None? ==> forall i :: 0 <= i < |slots| ==> !RemembersRelease(slots[i], owner, lease)
  {
    if slots == [] then None
    else if RemembersRelease(slots[0], owner, lease) then Some(0)
    else
      var r := ReleasedBefore(slots[1..], owner, lease);
      if r.Some? then Some(r.value + 1) else None
  }

  /** `clean` says that the worktree has no uncommitted changes and the editor could be closed. */
  datatype Release = Release(owner: Owner, lease: Option<Reference>, close: bool, clean: bool)

  function ReleaseSaves(r: Registry, a: Release): (seq<Registry>, ReleaseResult) {
    match Owned(r.slots, a.owner)
    case None =>
      (match ReleasedBefore(r.slots, a.owner, a.lease)
       case None => ([], ReleaseFailed)
       case Some(i) => ([], AlreadyReleased(i)))
    case Some(i) =>
      var s := r.slots[i];
      if (a.lease.Some? && s.lease.value.id != a.lease.value) || !a.clean then ([], ReleaseFailed)
      else ([With(r, i, s.(status := if a.close then Idle else Ready, released := s.lease, lease := None))], Released(i))
  }

  /** One slot as initialization leaves it when it is within the limit, and when it is not. */
  function Refreshed(s: Slot, place: Place): Slot {
    s.(status := if s.lease.None? then Idle else s.status, place := place, transient := false)
  }

  /** Slot `i` after initialization with these `names`: refreshed, created or disabled. */
  function InitSlot(r: Registry, names: seq<SlotId>, worktrees: nat -> Place, i: nat): Slot
    requires i < |names| || i < |r.slots|
  {
    if i >= |r.slots| then Slot(names[i], Idle, None, None, worktrees(i), false)
    else if i < |names| then Refreshed(r.slots[i], worktrees(i))
    else r.slots[i].(status := Disabled)
  }

  /** `names` are the identifiers `unity-slot-1`, `unity-slot-2` and so on up to the new limit, and
      `worktrees` what git reports. A leased slot above the limit is refused before anything is saved. */
  function InitSaves(r: Registry, names: seq<SlotId>, worktrees: nat -> Place): seq<Registry> {
    if exists i :: |names| <= i < |r.slots| && r.slots[i].lease.Some? then []
    else
      var n := if |names| <= |r.slots| then |r.slots| else |names|;
      [Registry(seq(n, i requires 0 <= i < n => InitSlot(r, names, worktrees, i)), |names|)]
  }

  // ----- the invariant of every saved registry -----

  predicate StatusFits(s: Slot) {
    && (s.status.InUse? || s.status.Starting? ==> s.lease.Some?)
    && (s.status.Idle? || s.status.Ready? || s.status.Disabled? ==> s.lease.None?)
  }

  ghost predicate OwnersDistinct(slots: seq<Slot>) {
    forall i, j :: 0 <= i < j < |slots| && slots[i].lease.Some? && slots[j].lease.Some? ==> slots[i].lease.value.owner != slots[j].lease.value.owner
  }

  /** Leased owners are pairwise distinct, only slots within the limit are leased, and a slot's
      status fits its lease. */
  ghost predicate WellFormed(r: Registry) {
    && r.limit <= |r.slots|
    && (forall i :: 0 <= i < |r.slots| ==> StatusFits(r.slots[i]))
    && (forall i :: r.limit <= i < |r.slots| ==> r.slots[i].lease.None?)
    && OwnersDistinct(r.slots)
  }

  /** `owner` has this lease of this slot. */
  predicate Holds(r: Registry, owner: Owner, i: nat, lease: Reference) {
    i < |r.slots| && r.slots[i].lease == Some(Lease(lease, owner))
  }

  ghost predicate KeepsLeases(a: Registry, b: Registry, except: Option<Owner>) {
    forall owner, i, lease :: Holds(a, owner, i, lease) && except != Some(owner) ==> Holds(b, owner, i, lease)
  }

  /** Every saved state is well formed and keeps every lease, except that of an owner who releases. */
  ghost predicate SavesAreGood(r: Registry, saves: seq<Registry>, except: Option<Owner>) {
    forall k :: 0 <= k < |saves| ==> WellFormed(saves[k]) && KeepsLeases(r, saves[k], except)
  }

  lemma QuarantineIsGood(r: Registry, i: nat, transient: bool)
    requires WellFormed(r) && i < |r.slots|
    ensures WellFormed(Quarantined(r, i, transient)) && KeepsLeases(r, Quarantined(r, i, transient), None)
  {
  }

  lemma GoodFromLater(r: Registry, r1: Registry, saves: seq<Registry>, except: Option<Owner>)
    requires KeepsLeases(r, r1, None) && SavesAreGood(r1, saves, except)
    ensures SavesAreGood(r, saves, except)
  {
    forall k | 0 <= k < |saves| ensures KeepsLeases(r, saves[k], except) {
      assert KeepsLeases(r1, saves[k], except);
    }
  }

  /** Preparing changes no lease and not the limit. */
  ghost predicate SameLeases(a: Registry, b: Registry) {
    a.limit == b.limit && |a.slots| == |b.slots| && forall i :: 0 <= i < |a.slots| ==> a.slots[i].lease == b.slots[i].lease && a.slots[i].id == b.slots[i].id
  }

  lemma {:induction false} PreparingIsGood(r: Registry, candidates: seq<nat>, outside: Outside)
    requires WellFormed(r) && forall k :: 0 <= k < |candidates| ==> candidates[k] < |r.slots|
    ensures var saves := Preparing(r, candidates, outside).0;
            SavesAreGood(r, saves, None) && forall k :: 0 <= k < |saves| ==> SameLeases(r, saves[k])
    decreases |candidates|
  {
    if candidates != [] && outside(candidates[0]).Fails? {
      var r1 := Quarantined(r, candidates[0], outside(candidates[0]).transient);
      QuarantineIsGood(r, candidates[0], outside(candidates[0]).transient);
      PreparingIsGood(r1, candidates[1..], outside);
      var rest := Preparing(r1, candidates[1..], outside).0;
      var saves := Preparing(r, candidates, outside).0;
      GoodFromLater(r, r1, rest, None);
      assert saves == [r1] + rest;
      forall k | 0 <= k < |saves| ensures SameLeases(r, saves[k]) {
        if k > 0 { assert SameLeases(r1, rest[k - 1]); }
      }
    }
  }

  lemma LeasedToIsGood(r: Registry, i: nat, a: Acquisition)
    requires WellFormed(r) && i < |r.slots|
    requires Owns(r.slots[i], a.owner) || (i < r.limit && r.slots[i].lease.None? && forall k :: 0 <= k < |r.slots| ==> !Owns(r.slots[k], a.owner))
    ensures var n := LeasedTo(r, i, a.owner, a.unused, a.place);
            && WellFormed(n) && KeepsLeases(r, n, None) && WellFormed(EditorStarted(n, i, a.ready)) && KeepsLeases(r, EditorStarted(n, i, a.ready), None)
            && Holds(EditorStarted(n, i, a.ready), a.owner, i, LeaseFor(r.slots[i], a.owner, a.unused).id)
  {
  }

  lemma LastIsGood(r: Registry, saves: seq<Registry>)
    requires WellFormed(r) && SavesAreGood(r, saves, None) && forall k :: 0 <= k < |saves| ==> SameLeases(r, saves[k])
    ensures WellFormed(Last(r, saves)) && KeepsLeases(r, Last(r, saves), None) && SameLeases(r, Last(r, saves))
  {
  }

  lemma TwoMoreAreGood(r: Registry, saves: seq<Registry>, x: Registry, y: Registry)
    requires SavesAreGood(r, saves, None) && KeepsLeases(r, Last(r, saves), None)
    requires WellFormed(x) && KeepsLeases(Last(r, saves), x, None) && WellFormed(y) && KeepsLeases(Last(r, saves), y, None)
    ensures SavesAreGood(r, saves + [x, y], None)
  {
    hide WellFormed;
  }

  /** A chosen candidate is the owner's own slot or a free one within the limit. */
  lemma ChosenIsFree(r: Registry, a: Acquisition, i: nat)
    requires WellFormed(r) && i in Candidates(r, a.owner, a.place.branch)
    ensures i < |r.slots|
    ensures Owns(r.slots[i], a.owner) || (i < r.limit && r.slots[i].lease.None? && forall k :: 0 <= k < |r.slots| ==> !Owns(r.slots[k], a.owner))
  {
    var c := Candidates(r, a.owner, a.place.branch);
    var k :| 0 <= k < |c| && c[k] == i;
    if Owned(r.slots, a.owner).None? {
      var first := FreeSlots(r.slots, Usable(r), a.place.branch, true);
      if k < |first| { assert c[k] == first[k]; } else { assert c[k] == FreeSlots(r.slots, Usable(r), a.place.branch, false)[k - |first|]; }
    }
  }

  lemma AcquireSavesAreGood(r: Registry, a: Acquisition, outside: Outside)
    requires WellFormed(r)
    ensures var (saves, result) := AcquireSaves(r, a, outside);
            && SavesAreGood(r, saves, None)
            && (result.Acquired? || result.AlreadyAcquired? ==> exists lease :: Holds(Last(r, saves), a.owner, result.index, lease))
  {
    hide WellFormed, SavesAreGood, KeepsLeases, SameLeases, LeaseFor, FreeSlots;
    var own := Owned(r.slots, a.owner);
    if own.Some? && r.slots[own.value].status.InUse? {
      NothingSaved(r);
      assert AcquireSaves(r, a, outside) == ([], AlreadyAcquired(own.value)) && Last(r, []) == r;
      assert Holds(r, a.owner, own.value, r.slots[own.value].lease.value.id);
    } else {
      var (saves, chosen) := Preparing(r, Candidates(r, a.owner, a.place.branch), outside);
      PreparingIsGood(r, Candidates(r, a.owner, a.place.branch), outside);
      if chosen.Some? {
        var i, before := chosen.value, Last(r, saves);
        LastIsGood(r, saves);
        ChosenIsFree(r, a, i);
        StillFree(r, before, a, i);
        LeasedToIsGood(before, i, a);
        var starting := LeasedTo(before, i, a.owner, a.unused, a.place);
        var started := EditorStarted(starting, i, a.ready);
        TwoMoreAreGood(r, saves, starting, started);
        assert Last(r, saves + [starting, started]) == started;
        assert AcquireSaves(r, a, outside) == (saves + [starting, started], if a.ready then Acquired(i) else AcquireFailed);
        assert Holds(started, a.owner, i, LeaseFor(before.slots[i], a.owner, a.unused).id);
      }
    }
  }

  lemma NothingSaved(r: Registry)
    ensures SavesAreGood(r, [], None)
  {
  }

  lemma StillFree(r: Registry, b: Registry, a: Acquisition, i: nat)
    requires SameLeases(r, b) && i < |r.slots|
    requires Owns(r.slots[i], a.owner) || (i < r.limit && r.slots[i].lease.None? && forall k :: 0 <= k < |r.slots| ==> !Owns(r.slots[k], a.owner))
    ensures i < |b.slots|
    ensures Owns(b.slots[i], a.owner) || (i < b.limit && b.slots[i].lease.None? && forall k :: 0 <= k < |b.slots| ==> !Owns(b.slots[k], a.owner))
  {
  }

  lemma HeldOnce(r: Registry, owner: Owner, i: nat, j: nat, x: Reference, y: Reference)
    requires WellFormed(r) && Holds(r, owner, i, x) && Holds(r, owner, j, y)
    ensures i == j && x == y
  {
  }

  /** Whoever holds a lease gets the same slot and lease back from every later acquisition that
      does not fail. */
  lemma AcquiringAgainReturnsTheLease(r: Registry, a: Acquisition, outside: Outside, i: nat, lease: Reference)
    requires WellFormed(r) && Holds(r, a.owner, i, lease)
    ensures var (saves, result) := AcquireSaves(r, a, outside);
            !result.AcquireFailed? ==> result.index == i && Holds(Last(r, saves), a.owner, i, lease)
  {
    hide WellFormed, AcquireSaves;
    AcquireSavesAreGood(r, a, outside);
    var (saves, result) := AcquireSaves(r, a, outside);
    if !result.AcquireFailed? {
      var y :| Holds(Last(r, saves), a.owner, result.index, y);
      assert Holds(Last(r, saves), a.owner, i, lease);
      HeldOnce(Last(r, saves), a.owner, i, result.index, lease, y);
    }
  }

  lemma ReleaseIsGood(r: Registry, a: Release)
    requires WellFormed(r)
    ensures var (saves, result) := ReleaseSaves(r, a);
            && SavesAreGood(r, saves, Some(a.owner))
            && (result.Released? ==> forall i, lease :: !Holds(Last(r, saves), a.owner, i, lease))
  {
  }

  lemma InitIsGood(r: Registry, names: seq<SlotId>, worktrees: nat -> Place)
    requires WellFormed(r)
    ensures SavesAreGood(r, InitSaves(r, names, worktrees), None)
  {
    hide Holds, StatusFits;
    var saves := InitSaves(r, names, worktrees);
    if saves != [] {
      var n := saves[0];
      InitStatusFits(r, names, worktrees, n);
      forall owner: Owner, i: nat, lease: Reference | Holds(r, owner, i, lease) ensures Holds(n, owner, i, lease) {
        HeldIsInside(r, owner, i, lease);
        assert n.slots[i].lease == r.slots[i].lease;
        SlotKeepsLease(r, n, owner, i, lease);
      }
      forall i: nat, j: nat | i < j < |n.slots| && n.slots[i].lease.Some? && n.slots[j].lease.Some?
        ensures n.slots[i].lease.value.owner != n.slots[j].lease.value.owner
      {
        assert n.slots[i].lease == r.slots[i].lease && n.slots[j].lease == r.slots[j].lease;
      }
    }
  }

  lemma HeldIsInside(r: Registry, owner: Owner, i: nat, lease: Reference)
    requires Holds(r, owner, i, lease)
    ensures i < |r.slots|
  {
  }

  lemma InitStatusFits(r: Registry, names: seq<SlotId>, worktrees: nat -> Place, n: Registry)
    requires WellFormed(r) && InitSaves(r, names, worktrees) == [n]
    ensures forall i :: 0 <= i < |n.slots| ==> StatusFits(n.slots[i])
  {
  }

  lemma SlotKeepsLease(r: Registry, n: Registry, owner: Owner, i: nat, lease: Reference)
    requires Holds(r, owner, i, lease) && |r.slots| <= |n.slots| && n.slots[i].lease == r.slots[i].lease
    ensures Holds(n, owner, i, lease)
  {
  }

  // ----- runs of operations, each of which may die after any of its saves -----

  /** What is on disk when the process survives `life` of the saves. */
  function After(r: Registry, saves: seq<Registry>, life: nat): Registry {
    if life < |saves| then Last(r, saves[..life]) else Last(r, saves)
  }

  datatype Operation =
    | Initializing(names: seq<SlotId>, worktrees: nat -> Place)
    | Acquiring(acquisition: Acquisition, outside: Outside)
    | Releasing(release: Release)

  function Saves(r: Registry, o: Operation): seq<Registry> {
    match o
    case Initializing(names, worktrees) => InitSaves(r, names, worktrees)
    case Acquiring(a, outside) => AcquireSaves(r, a, outside).0
    case Releasing(a) => ReleaseSaves(r, a).0
  }

  function RunAll(r: Registry, operations: seq<(Operation, nat)>): Registry
    decreases |operations|
  {
    if operations == [] then r
    else RunAll(After(r, Saves(r, operations[0].0), operations[0].1), operations[1..])
  }

  predicate Releases(o: Operation, owner: Owner) {
    o.Releasing? && o.release.owner == owner
  }

  lemma OperationIsGood(r: Registry, o: Operation, life: nat, owner: Owner)
    requires WellFormed(r)
    ensures var n := After(r, Saves(r, o), life);
            WellFormed(n) && (!Releases(o, owner) ==> forall i, lease :: Holds(r, owner, i, lease) ==> Holds(n, owner, i, lease))
  {
    hide WellFormed, InitSaves, AcquireSaves, ReleaseSaves;
    match o
    case Initializing(names, worktrees) => InitIsGood(r, names, worktrees);
    case Acquiring(a, outside) => AcquireSavesAreGood(r, a, outside);
    case Releasing(a) => ReleaseIsGood(r, a);
  }

  /** However operations are interleaved and wherever they die, the saved registry is well formed
      and a lease lasts until its own owner releases it. */
  lemma {:induction false} LeasesSurvive(r: Registry, operations: seq<(Operation, nat)>, owner: Owner)
    requires WellFormed(r)
    ensures WellFormed(RunAll(r, operations))
    ensures (forall k :: 0 <= k < |operations| ==> !Releases(operations[k].0, owner)) ==>
              forall i, lease :: Holds(r, owner, i, lease) ==> Holds(RunAll(r, operations), owner, i, lease)
    decreases |operations|
  {
    hide WellFormed, Saves, After, Releases;
    if operations != [] {
      var n := After(r, Saves(r, operations[0].0), operations[0].1);
      OperationIsGood(r, operations[0].0, operations[0].1, owner);
      LeasesSurvive(n, operations[1..], owner);
    }
  }

  function Below(n: nat): (r: set<nat>)
    ensures |r| == n && forall i: nat :: i in r <==> i < n
  {
    if n == 0 then {} else Below(n - 1) + {n - 1}
  }

  function LeasedIndices(r: Registry): set<nat> {
    set i: nat | i < |r.slots| && r.slots[i].lease.Some?
  }

  /** At most `limit` slots are leased at any time. */
  lemma LeasesAreBounded(r: Registry)
    requires WellFormed(r)
    ensures |LeasedIndices(r)| <= r.limit
  {
    forall i | i in LeasedIndices(r) ensures i in Below(r.limit) {
      assert r.slots[i].lease.Some?;
    }
    Within(LeasedIndices(r), Below(r.limit));
  }

  // ----- the operations in place -----

  /** One process: the registry it has loaded, the file it saves to, and how many saves it lives to make. */
  class Process {
    var slots: seq<Slot>
    var limit: nat
    var disk: Registry
    var life: nat

    constructor (disk: Registry, life: nat)
      ensures this.disk == disk && this.life == life
    {
      slots, limit := disk.slots, disk.limit;
      this.disk, this.life := disk, life;
    }

    method Save() returns (alive: bool)
      modifies `disk, `life
      ensures alive == (old(life) > 0)
      ensures if alive then disk == Registry(slots, limit) && life == old(life) - 1 else disk == old(disk) && life == old(life)
    {
      if life == 0 { return false; }
      disk := Registry(slots, limit);
      life := life - 1;
      return true;
    }

    /** Tries the candidates in turn, saving after every failure. */
    method Prepare(candidates: seq<nat>, outside: Outside) returns (alive: bool, chosen: Option<nat>)
      requires disk == Registry(slots, limit) && forall k :: 0 <= k < |candidates| ==> candidates[k] < |slots|
      modifies this
      ensures var (saves, choice) := Preparing(old(disk), candidates, outside);
              && alive == (|saves| <= old(life))
              && (alive ==> chosen == choice && disk == Last(old(disk), saves) == Registry(slots, limit) && life == old(life) - |saves|)
              && (!alive ==> disk == Last(old(disk), saves[..old(life)]))
    {
      ghost var r := disk;
      ghost var saved: seq<Registry> := [];
      assert candidates[0..] == candidates;
      ghost var rest := Preparing(disk, candidates, outside);
      assert saved + rest.0 == rest.0;
      for k := 0 to |candidates|
        invariant |slots| == |r.slots| && disk == Registry(slots, limit) == Last(r, saved)
        invariant rest == Preparing(disk, candidates[k..], outside)
        invariant Preparing(r, candidates, outside) == (saved + rest.0, rest.1)
        invariant old(life) == life + |saved|
      {
        var i := candidates[k];
        assert candidates[k..][0] == i && candidates[k..][1..] == candidates[k + 1..];
        if outside(i).Prepared? {
          assert rest.0 == [];
          return true, Some(i);
        }
        slots := slots[i := slots[i].(status := BlockedHuman, transient := outside(i).transient)];
        assert Registry(slots, limit) == Quarantined(disk, i, outside(i).transient);
        rest := Preparing(Registry(slots, limit), candidates[k + 1..], outside);
        assert saved + ([Registry(slots, limit)] + rest.0) == (saved + [Registry(slots, limit)]) + rest.0;
        alive := Save();
        if !alive {
          assert Preparing(r, candidates, outside).0[..|saved|] == saved;
          return false, None;
        }
        saved := saved + [disk];
      }
      return true, None;
    }

    /** `None` means that the process died on the way. */
    method Acquire(a: Acquisition, outside: Outside) returns (result: Option<AcquireResult>)
      modifies this
      ensures var (saves, answer) := AcquireSaves(old(disk), a, outside);
              && disk == After(old(disk), saves, old(life))
              && result == if old(life) < |saves| then None else Some(answer)
    {
      hide FreeSlots, Preparing;
      ghost var r := disk;
      slots, limit := disk.slots, disk.limit;
      var own := Owned(slots, a.owner);
      if own.Some? && slots[own.value].status.InUse? { return Some(AlreadyAcquired(own.value)); }
      ghost var (prepared, choice) := Preparing(r, Candidates(r, a.owner, a.place.branch), outside);
      ghost var all := AcquireSaves(r, a, outside).0;
      var alive, chosen := Prepare(Candidates(disk, a.owner, a.place.branch), outside);
      if !alive {
        assert all[..old(life)] == prepared[..old(life)];
        return None;
      }
      if chosen.None? { return Some(AcquireFailed); }
      var i := chosen.value;
      ghost var starting := LeasedTo(disk, i, a.owner, a.unused, a.place);
      ghost var started := EditorStarted(starting, i, a.ready);
      assert all == prepared + [starting, started];
      slots := slots[i := slots[i].(status := Starting, lease := Some(LeaseFor(slots[i], a.owner, a.unused)), place := a.place, transient := false)];
      alive := Save();
      if !alive {
        DiesAt(r, prepared, all);
        return None;
      }
      slots := slots[i := slots[i].(status := if a.ready then InUse else BlockedHuman)];
      alive := Save();
      if !alive {
        assert prepared + [starting] < all;
        DiesAt(r, prepared + [starting], all);
        return None;
      }
      return Some(if a.ready then Acquired(i) else AcquireFailed);
    }

    method ReleaseLease(a: Release) returns (result: Option<ReleaseResult>)
      modifies this
      ensures var (saves, answer) := ReleaseSaves(old(disk), a);
              && disk == After(old(disk), saves, old(life))
              && result == if old(life) < |saves| then None else Some(answer)
    {
      slots, limit := disk.slots, disk.limit;
      var own := Owned(slots, a.owner);
      if own.None? {
        var prior := ReleasedBefore(slots, a.owner, a.lease);
        return Some(if prior.Some? then AlreadyReleased(prior.value) else ReleaseFailed);
      }
      var i := own.value;
      if a.lease.Some? && slots[i].lease.value.id != a.lease.value { return Some(ReleaseFailed); }
      if !a.clean { return Some(ReleaseFailed); }
      var s := slots[i].(status := if a.close then Idle else Ready);
      s := s.(released := s.lease);
      slots := slots[i := s.(lease := None)];
      var alive := Save();
      return if alive then Some(Released(i)) else None;
    }

    method Init(names: seq<SlotId>, worktrees: nat -> Place) returns (alive: bool)
      modifies this
      ensures disk == After(old(disk), InitSaves(old(disk), names, worktrees), old(life))
    {
      slots, limit := disk.slots, disk.limit;
      ghost var r := disk;
      for index := 0 to |names|
        invariant limit == r.limit && disk == r && life == old(life)
        invariant |slots| == if index <= |r.slots| then |r.slots| else index
        invariant forall i :: 0 <= i < |slots| ==> slots[i] == if i < index then InitSlot(r, names, worktrees, i) else r.slots[i]
      {
        if index < |slots| {
          slots := slots[index := Refreshed(slots[index], worktrees(index))];
        } else {
          slots := slots + [Slot(names[index], Idle, None, None, worktrees(index), false)];
        }
      }
      var index := |names|;
      while index < |slots|
        invariant limit == r.limit && disk == r && life == old(life)
        invariant |slots| == (if |names| <= |r.slots| then |r.slots| else |names|) && |names| <= index <= |slots|
        invariant forall i :: 0 <= i < |slots| ==> slots[i] == if i < index then InitSlot(r, names, worktrees, i) else r.slots[i]
        invariant forall i :: |names| <= i < index ==> r.slots[i].lease.None?
      {
        if slots[index].lease.Some? { return true; }
        slots := slots[index := slots[index].(status := Disabled)];
        index := index + 1;
      }
      limit := |names|;
      ghost var n := |slots|;
      assert slots == seq(n, i requires 0 <= i < n => InitSlot(r, names, worktrees, i));
      assert InitSaves(r, names, worktrees) == [Registry(slots, limit)];
      alive := Save();
    }
  }

  /** A process that dies at its next save leaves what it saved so far. */
  lemma DiesAt(r: Registry, saved: seq<Registry>, all: seq<Registry>)
    requires saved < all
    ensures After(r, all, |saved|) == Last(r, saved)
  {
    assert all[..|saved|] == saved;
  }
}
