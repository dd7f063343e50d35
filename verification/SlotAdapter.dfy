/** Keeping the slot manager's registry and the controller's lease table in step
    (`unity_slot_adapter`): the adapter first makes the manager act and then tells the controller,
    and it can die before, during or between the two. */
module SlotAdapter {
  import opened Prelude
  import opened Manifest
  import opened SlotEvents
  import opened Events
  import opened SlotRegistry
  import opened Controller
  import opened PhaseHistory

  datatype World = World(registry: Registry, manifest: Manifest)

  ghost predicate IdsDistinct(r: Registry) {
    forall i, j :: 0 <= i < j < |r.slots| ==> r.slots[i].id != r.slots[j].id
  }

  /** The controller knows exactly the slots within the limit, and the same limit. */
  ghost predicate SameSlots(w: World) {
    && WellFormed(w.registry) && IdsDistinct(w.registry) && w.registry.limit == w.manifest.run.maxEditors
    && (forall i :: 0 <= i < |w.registry.slots| ==> (w.registry.slots[i].id in w.manifest.slots <==> i < w.registry.limit))
    && (forall id :: id in w.manifest.slots ==> exists i :: 0 <= i < |w.registry.slots| && w.registry.slots[i].id == id)
  }

  function TableEntry(w: World, i: nat): Option<Lease>
    requires i < |w.registry.slots|
  {
    var id := w.registry.slots[i].id;
    if id in w.manifest.slots then w.manifest.slots[id] else None
  }

  /** Both lease tables are the same. */
  ghost predicate Synced(w: World) {
    SameSlots(w) && forall i :: 0 <= i < |w.registry.slots| ==> TableEntry(w, i) == w.registry.slots[i].lease
  }

  /** They differ at most in a lease of `owner` that the controller has not been told about. */
  ghost predicate AcquirePending(w: World, owner: Owner) {
    SameSlots(w) && forall i :: 0 <= i < |w.registry.slots| ==>
      TableEntry(w, i) == w.registry.slots[i].lease || (Owns(w.registry.slots[i], owner) && TableEntry(w, i).None?)
  }

  /** They differ at most in that the controller still shows the lease at `id`, which the manager
      remembers releasing. */
  ghost predicate ReleasePending(w: World, id: SlotId, lease: Lease) {
    && SameSlots(w)
    && (forall i :: 0 <= i < |w.registry.slots| && Owns(w.registry.slots[i], lease.owner) ==>
          w.registry.slots[i].id == id && w.registry.slots[i].lease == Some(lease))
    && forall i :: 0 <= i < |w.registry.slots| ==>
         || TableEntry(w, i) == w.registry.slots[i].lease
         || (w.registry.slots[i].id == id && w.registry.slots[i].lease.None? && TableEntry(w, i) == Some(lease)
             && w.registry.slots[i].released == Some(lease))
  }

  // ----- one attempt of the adapter -----

  /** `life` is how many saves the manager lives to make, and `reaches` whether the adapter lives to
      tell the controller. */
  datatype Attempt = Attempt(life: nat, reaches: bool)

  function Slotted(a: SlotsAction): Event {
    Event(true, Slotting(a))
  }

  lemma SlottingIs(m: Manifest, a: SlotsAction)
    ensures Step(m, Slotted(a)) == if m.anomalies > 0 then Refused else HandleSlots(m, a)
  {
    hide HandleSlots;
  }

  /** The head that was asked for is reported as expected, and where the registry says that the slot's
      worktree is as observed. */
  function AcquisitionEvent(s: Slot, lease: Lease, requirement: Requirement, expected: Commit): Event {
    Slotted(SlotAcquired(lease.owner, s.id, lease.id, requirement, expected, s.place))
  }

  function TellAcquired(m: Manifest, s: Slot, lease: Lease, requirement: Requirement, expected: Commit): Manifest {
    // The event's identifier is the lease's: told before, it changes nothing.
    if s.id in m.slots && m.slots[s.id] == Some(lease) then m
    else
      var o := Step(m, AcquisitionEvent(s, lease, requirement, expected));
      if o.Accepted? then o.m else m
  }

  function TryAcquire(w: World, a: Acquisition, outside: Outside, requirement: Requirement, t: Attempt): World {
    var (saves, result) := AcquireSaves(w.registry, a, outside);
    var r := After(w.registry, saves, t.life);
    if t.life < |saves| || !t.reaches || result.AcquireFailed? || result.index >= |r.slots| || r.slots[result.index].lease.None? then w.(registry := r)
    else World(r, TellAcquired(w.manifest, r.slots[result.index], r.slots[result.index].lease.value, requirement, a.place.head))
  }

  function TellReleased(m: Manifest, id: SlotId, lease: Lease): Manifest {
    var o := Step(m, Slotted(SlotReleased(lease.owner, id, lease.id)));
    if o.Accepted? then o.m else m
  }

  /** `id` and `lease` are what the controller's own table shows. */
  function TryRelease(w: World, id: SlotId, lease: Lease, close: bool, clean: bool, t: Attempt): World {
    var (saves, result) := ReleaseSaves(w.registry, Release(lease.owner, Some(lease.id), close, clean));
    var r := After(w.registry, saves, t.life);
    if t.life < |saves| || !t.reaches || result.ReleaseFailed? then w.(registry := r)
    else World(r, TellReleased(w.manifest, id, lease))
  }

  // ----- what the manager's operations leave alone -----

  /** Same slots in the same places; only leases of `owner` may differ. */
  ghost predicate OnlyOwnerMoves(a: Registry, b: Registry, owner: Owner) {
    b.limit == a.limit && |b.slots| == |a.slots|
    && forall i :: 0 <= i < |a.slots| ==>
         b.slots[i].id == a.slots[i].id && (b.slots[i].lease == a.slots[i].lease || (a.slots[i].lease.None? && Owns(b.slots[i], owner)))
  }

  lemma PreparingMovesNothing(r: Registry, candidates: seq<nat>, outside: Outside)
    requires WellFormed(r) && forall k :: 0 <= k < |candidates| ==> candidates[k] < |r.slots|
    ensures var saves := Preparing(r, candidates, outside).0; forall k :: 0 <= k < |saves| ==> SameLeases(r, saves[k])
  {
    PreparingIsGood(r, candidates, outside);
  }

  lemma LeasingMovesOwner(r: Registry, before: Registry, i: nat, a: Acquisition)
    requires WellFormed(r) && SameLeases(r, before) && i in Candidates(r, a.owner, a.place.branch)
    ensures i < |r.slots|
    ensures var n := LeasedTo(before, i, a.owner, a.unused, a.place);
            OnlyOwnerMoves(r, n, a.owner) && OnlyOwnerMoves(r, EditorStarted(n, i, a.ready), a.owner)
  {
    ChosenIsFree(r, a, i);
  }

  lemma AcquiringMovesOwner(r: Registry, a: Acquisition, outside: Outside, life: nat)
    requires WellFormed(r)
    ensures OnlyOwnerMoves(r, After(r, AcquireSaves(r, a, outside).0, life), a.owner)
  {
    hide WellFormed, SameLeases, OnlyOwnerMoves, LeasedTo, EditorStarted;
    NothingMoves(r, a.owner);
    var own := Owned(r.slots, a.owner);
    if own.None? || !r.slots[own.value].status.InUse? {
      var candidates := Candidates(r, a.owner, a.place.branch);
      var (saves, chosen) := Preparing(r, candidates, outside);
      PreparingMovesNothing(r, candidates, outside);
      SameLeasesReflexive(r);
      assert saves == Preparing(r, candidates, outside).0;
      assert forall k :: 0 <= k < |saves| ==> SameLeases(r, saves[k]);
      forall k: nat | k < |saves| ensures OnlyOwnerMoves(r, saves[k], a.owner) {
        assert SameLeases(r, saves[k]);
        SameLeasesMoveNothing(r, saves[k], a.owner);
      }
      if chosen.Some? {
        LeasingMovesOwner(r, Last(r, saves), chosen.value, a);
      }
    }
  }

  lemma NothingMoves(r: Registry, owner: Owner)
    ensures OnlyOwnerMoves(r, r, owner)
  {
  }

  lemma SameLeasesReflexive(r: Registry)
    ensures SameLeases(r, r)
  {
  }

  lemma SameLeasesMoveNothing(a: Registry, b: Registry, owner: Owner)
    requires SameLeases(a, b)
    ensures OnlyOwnerMoves(a, b, owner)
  {
  }

  // ----- acquisition -----

  lemma ManagerKeepsPending(w: World, r: Registry, owner: Owner)
    requires AcquirePending(w, owner) && OnlyOwnerMoves(w.registry, r, owner) && WellFormed(r)
    ensures AcquirePending(World(r, w.manifest), owner)
  {
    var n := World(r, w.manifest);
    forall i | 0 <= i < |r.slots| ensures TableEntry(n, i) == r.slots[i].lease || (Owns(r.slots[i], owner) && TableEntry(n, i).None?) {
      assert TableEntry(n, i) == TableEntry(w, i);
    }
  }

  lemma TellingSyncs(w: World, owner: Owner, i: nat, m: Manifest)
    requires AcquirePending(w, owner) && i < |w.registry.slots| && Owns(w.registry.slots[i], owner)
    requires m.run == w.manifest.run && w.registry.slots[i].id in w.manifest.slots
    requires m.slots == w.manifest.slots[w.registry.slots[i].id := w.registry.slots[i].lease]
    ensures Synced(World(w.registry, m))
  {
    var n := World(w.registry, m);
    forall k | 0 <= k < |w.registry.slots| ensures TableEntry(n, k) == w.registry.slots[k].lease {
      if k < i { assert w.registry.slots[k].id != w.registry.slots[i].id; }
      if k > i { assert w.registry.slots[k].id != w.registry.slots[i].id; }
      if k != i { assert TableEntry(n, k) == TableEntry(w, k); }
    }
  }

  /** Whatever happens to an attempt, the tables differ at most in the pending lease. */
  lemma AttemptKeepsPending(w: World, a: Acquisition, outside: Outside, requirement: Requirement, t: Attempt)
    requires AcquirePending(w, a.owner)
    ensures AcquirePending(TryAcquire(w, a, outside, requirement, t), a.owner)
  {
    hide AcquireSaves, OnlyOwnerMoves, LeasedSlots, MayAcquire, Expects, OnePhase, Step;
    var (saves, result) := AcquireSaves(w.registry, a, outside);
    var r := After(w.registry, saves, t.life);
    AcquiringMovesOwner(w.registry, a, outside, t.life);
    OperationIsGood(w.registry, Acquiring(a, outside), t.life, a.owner);
    ManagerKeepsPending(w, r, a.owner);
    var n := TryAcquire(w, a, outside, requirement, t);
    if n.manifest != w.manifest {
      var s := r.slots[result.index];
      SlottingIs(w.manifest, SlotAcquired(s.lease.value.owner, s.id, s.lease.value.id, requirement, a.place.head, s.place));
      AcquireSavesAreGood(w.registry, a, outside);
      TellingSyncs(World(r, w.manifest), a.owner, result.index, n.manifest);
      SyncedIsPending(n, a.owner);
    }
  }

  lemma SyncedIsPending(w: World, owner: Owner)
    requires Synced(w)
    ensures AcquirePending(w, owner)
  {
  }

  lemma {:induction false} Image(slots: seq<Slot>, indices: set<nat>, ids: set<SlotId>)
    requires forall id :: id in ids ==> exists i :: i in indices && i < |slots| && slots[i].id == id
    ensures |ids| <= |indices|
    decreases ids
  {
    if ids != {} {
      var id :| id in ids;
      var i :| i in indices && i < |slots| && slots[i].id == id;
      forall x | x in ids - {id} ensures exists j :: j in indices - {i} && j < |slots| && slots[j].id == x {
        var j :| j in indices && j < |slots| && slots[j].id == x;
        assert j in indices - {i};
      }
      Image(slots, indices - {i}, ids - {id});
    }
  }

  /** A lease the controller has not been told about leaves it room for one more. */
  lemma RoomForPending(w: World, owner: Owner, i: nat)
    requires AcquirePending(w, owner) && i < |w.registry.slots| && w.registry.slots[i].lease.Some? && TableEntry(w, i).None?
    ensures |LeasedSlots(w.manifest)| < w.manifest.run.maxEditors
  {
    var r := w.registry;
    LeasesAreBounded(r);
    assert i in LeasedIndices(r);
    forall id | id in LeasedSlots(w.manifest) ensures exists k :: k in LeasedIndices(r) - {i} && k < |r.slots| && r.slots[k].id == id {
      var k :| 0 <= k < |r.slots| && r.slots[k].id == id;
      assert TableEntry(w, k).Some?;
      assert k in LeasedIndices(r) - {i};
    }
    Image(r.slots, LeasedIndices(r) - {i}, LeasedSlots(w.manifest));
  }

  /** The planner proposes something about editor slots only while the run goes on, no cost anomaly
      is open and the slots are set up. */
  predicate SlotsInUse(m: Manifest) {
    m.run.editors && m.editorsReady && m.anomalies == 0 && !m.completed
  }

  /** Finalization has come to the verification of its pull request. */
  predicate FinalVerificationDue(m: Manifest) {
    && (forall t :: t in m.tickets ==> TerminalTicket(m.tickets[t].status))
    && !(m.final.status.NotStarted? || m.final.status.NeedsFinalRemediation? || m.final.status.FinalVerificationFailed?
         || m.final.status.AwaitingFeedbackCollection? || m.final.status.FeedbackCollection? || m.final.status.AwaitingFinalFindings?
         || m.final.status.AwaitingFinalPrUpdate?)
    && m.final.pr.Some? && !m.final.pr.value.draft && m.final.records.verification.None?
  }

  /** Where the planner asks for the owner's editor. A phase goes on from what it last reported, if
      it has reported, whether it is to be launched or resumed. */
  predicate PlannedAt(m: Manifest, owner: Owner, place: Place) {
    if owner.OfPhase? then owner.key in m.phases && place == Place(m.phases[owner.key].base.branch, ResumeHead(m.phases[owner.key]))
    else Expects(m, owner, place)
  }

  /** What the planner checks before it proposes an acquisition. */
  predicate Proposed(m: Manifest, owner: Owner, requirement: Requirement, place: Place) {
    && SlotsInUse(m) && !requirement.NoEditor? && MayAcquire(m, owner, requirement) && PlannedAt(m, owner, place)
    && (owner.OfFinalVerification? ==> FinalVerificationDue(m))
    && !HoldsSlot(m, owner) && |LeasedSlots(m)| < m.run.maxEditors
  }

  /** The controller expects the editor where the planner asks for it. */
  lemma PlannedIsExpected(m: Manifest, owner: Owner, requirement: Requirement, place: Place)
    requires Remembering(m) && MayAcquire(m, owner, requirement) && PlannedAt(m, owner, place)
    ensures Expects(m, owner, place)
  {
    if owner.OfPhase? { EachRemembers(m, owner.key); }
  }

  // ----- where a lease of one owner is -----

  /** Whatever slot the owner has in use is at the place. */
  ghost predicate HeldAt(r: Registry, owner: Owner, place: Place) {
    forall i :: 0 <= i < |r.slots| && Owns(r.slots[i], owner) && r.slots[i].status.InUse? ==> r.slots[i].place == place
  }

  /** Preparing leaves a slot as it is or quarantines it. */
  ghost predicate OnlyQuarantines(a: Registry, b: Registry) {
    |b.slots| == |a.slots| && forall i :: 0 <= i < |a.slots| ==>
      b.slots[i] == a.slots[i] || (b.slots[i].status.BlockedHuman? && b.slots[i].lease == a.slots[i].lease)
  }

  lemma {:induction false} PreparingQuarantines(r: Registry, candidates: seq<nat>, outside: Outside, k: nat)
    requires forall j :: 0 <= j < |candidates| ==> candidates[j] < |r.slots|
    requires k < |Preparing(r, candidates, outside).0|
    ensures OnlyQuarantines(r, Preparing(r, candidates, outside).0[k])
    decreases |candidates|
  {
    var r1 := Quarantined(r, candidates[0], outside(candidates[0]).transient);
    if k > 0 { PreparingQuarantines(r1, candidates[1..], outside, k - 1); }
  }

  lemma QuarantineKeepsPlace(a: Registry, b: Registry, owner: Owner, place: Place)
    requires HeldAt(a, owner, place) && OnlyQuarantines(a, b)
    ensures HeldAt(b, owner, place)
  {
  }

  lemma NothingIsQuarantined(r: Registry)
    ensures OnlyQuarantines(r, r)
  {
  }

  /** The owner's lease, once it is the only one, is where it was asked for. */
  lemma LeasingPlaces(b: Registry, i: nat, a: Acquisition)
    requires i < |b.slots| && forall k :: 0 <= k < |b.slots| && k != i ==> !Owns(b.slots[k], a.owner)
    ensures var n := LeasedTo(b, i, a.owner, a.unused, a.place);
            && HeldAt(n, a.owner, a.place) && HeldAt(EditorStarted(n, i, a.ready), a.owner, a.place)
            && EditorStarted(n, i, a.ready).slots[i].place == a.place
  {
  }

  lemma OthersDoNotOwn(r: Registry, b: Registry, a: Acquisition, i: nat)
    requires WellFormed(r) && SameLeases(r, b) && i in Candidates(r, a.owner, a.place.branch)
    ensures i < |b.slots| && forall k :: 0 <= k < |b.slots| && k != i ==> !Owns(b.slots[k], a.owner)
  {
    ChosenIsFree(r, a, i);
  }

  lemma LastQuarantines(r: Registry, candidates: seq<nat>, outside: Outside)
    requires WellFormed(r) && forall k :: 0 <= k < |candidates| ==> candidates[k] < |r.slots|
    ensures var saves := Preparing(r, candidates, outside).0;
            && SameLeases(r, Last(r, saves))
            && forall k :: 0 <= k < |saves| ==> OnlyQuarantines(r, saves[k])
  {
    hide WellFormed;
    var saves := Preparing(r, candidates, outside).0;
    PreparingIsGood(r, candidates, outside);
    SameLeasesReflexive(r);
    forall k: nat | k < |saves| ensures OnlyQuarantines(r, saves[k]) { PreparingQuarantines(r, candidates, outside, k); }
  }

  /** An acquisition asked for at one place never leaves its owner's slot in use anywhere else, and
      the slot that it reports is there. */
  lemma AcquiringKeepsPlace(r: Registry, a: Acquisition, outside: Outside, life: nat)
    requires WellFormed(r) && HeldAt(r, a.owner, a.place)
    ensures var (saves, result) := AcquireSaves(r, a, outside);
            && HeldAt(After(r, saves, life), a.owner, a.place)
            && (|saves| <= life && !result.AcquireFailed? ==>
                  result.index < |After(r, saves, life).slots| && After(r, saves, life).slots[result.index].place == a.place)
  {
    hide WellFormed, HeldAt, SameLeases, OnlyQuarantines, LeasedTo, EditorStarted;
    var own := Owned(r.slots, a.owner);
    if own.Some? && r.slots[own.value].status.InUse? {
      assert r.slots[own.value].place == a.place by { InUseIsHeld(r, a.owner, a.place, own.value); }
    } else {
      var candidates := Candidates(r, a.owner, a.place.branch);
      var (saves, chosen) := Preparing(r, candidates, outside);
      LastQuarantines(r, candidates, outside);
      assert saves == Preparing(r, candidates, outside).0;
      forall k: nat | k < |saves| ensures HeldAt(saves[k], a.owner, a.place) {
        QuarantineKeepsPlace(r, saves[k], a.owner, a.place);
      }
      if chosen.Some? {
        OthersDoNotOwn(r, Last(r, saves), a, chosen.value);
        LeasingPlaces(Last(r, saves), chosen.value, a);
        var starting := LeasedTo(Last(r, saves), chosen.value, a.owner, a.unused, a.place);
        TwoMoreKeepPlace(r, saves, starting, EditorStarted(starting, chosen.value, a.ready), a.owner, a.place, life);
      } else {
        SavesKeepPlace(r, saves, a.owner, a.place, life);
      }
    }
  }

  lemma SavesKeepPlace(r: Registry, saves: seq<Registry>, owner: Owner, place: Place, life: nat)
    requires HeldAt(r, owner, place) && forall k :: 0 <= k < |saves| ==> HeldAt(saves[k], owner, place)
    ensures HeldAt(After(r, saves, life), owner, place)
  {
    hide HeldAt;
  }

  lemma TwoMoreKeepPlace(r: Registry, saves: seq<Registry>, x: Registry, y: Registry, owner: Owner, place: Place, life: nat)
    requires HeldAt(r, owner, place) && HeldAt(x, owner, place) && HeldAt(y, owner, place)
    requires forall k :: 0 <= k < |saves| ==> HeldAt(saves[k], owner, place)
    ensures HeldAt(After(r, saves + [x, y], life), owner, place) && (|saves| + 2 <= life ==> After(r, saves + [x, y], life) == y)
  {
    hide HeldAt;
    SavesKeepPlace(r, saves + [x, y], owner, place, life);
  }

  lemma InUseIsHeld(r: Registry, owner: Owner, place: Place, i: nat)
    requires HeldAt(r, owner, place) && i < |r.slots| && Owns(r.slots[i], owner) && r.slots[i].status.InUse?
    ensures r.slots[i].place == place
  {
  }

  // ----- acquisitions that complete -----

  /** The manager's operation went through and the adapter lived to tell the controller. */
  predicate Completes(w: World, a: Acquisition, outside: Outside, t: Attempt) {
    var (saves, result) := AcquireSaves(w.registry, a, outside);
    |saves| <= t.life && t.reaches && !result.AcquireFailed?
  }

  lemma TellingIsAccepted(w: World, i: nat, lease: Lease, requirement: Requirement, place: Place)
    requires AcquirePending(w, lease.owner) && i < |w.registry.slots| && w.registry.slots[i].lease == Some(lease)
    requires Proposed(w.manifest, lease.owner, requirement, place) && Expects(w.manifest, lease.owner, place) && w.registry.slots[i].place == place
    ensures var m := TellAcquired(w.manifest, w.registry.slots[i], lease, requirement, place.head);
            m.slots == w.manifest.slots[w.registry.slots[i].id := Some(lease)] && m.run == w.manifest.run
    ensures w.registry.slots[i].id in w.manifest.slots
  {
    hide MayAcquire, Expects, PlannedAt, FinalVerificationDue, OnePhase, LeasedSlots, Step;
    var s := w.registry.slots[i];
    SlottingIs(w.manifest, SlotAcquired(lease.owner, s.id, lease.id, requirement, place.head, s.place));
    assert i < w.registry.limit;
    assert !Leases(w.manifest, s.id, lease.owner);
  }

  /** After any number of interrupted attempts at one place, the first one that completes brings the
      controller's table back to the manager's. */
  lemma CompletedAcquisitionSyncs(w: World, a: Acquisition, outside: Outside, requirement: Requirement, t: Attempt)
    requires AcquirePending(w, a.owner) && HeldAt(w.registry, a.owner, a.place) && Remembering(w.manifest)
    requires Proposed(w.manifest, a.owner, requirement, a.place) && Completes(w, a, outside, t)
    ensures Synced(TryAcquire(w, a, outside, requirement, t)) && HoldsSlot(TryAcquire(w, a, outside, requirement, t).manifest, a.owner)
  {
    hide AcquireSaves, OnlyOwnerMoves, LeasedSlots, Proposed, TellAcquired, HeldAt, Remembering;
    var (saves, result) := AcquireSaves(w.registry, a, outside);
    var r := After(w.registry, saves, t.life);
    AcquiringMovesOwner(w.registry, a, outside, t.life);
    OperationIsGood(w.registry, Acquiring(a, outside), t.life, a.owner);
    ManagerKeepsPending(w, r, a.owner);
    AcquireSavesAreGood(w.registry, a, outside);
    AcquiringKeepsPlace(w.registry, a, outside, t.life);
    assert Expects(w.manifest, a.owner, a.place) by { ProposedIsExpected(w.manifest, a.owner, requirement, a.place); }
    var i := result.index;
    var lease := r.slots[i].lease.value;
    TellingIsAccepted(World(r, w.manifest), i, lease, requirement, a.place);
    var m := TellAcquired(w.manifest, r.slots[i], lease, requirement, a.place.head);
    TellingSyncs(World(r, w.manifest), a.owner, i, m);
    assert Leases(m, r.slots[i].id, a.owner);
  }

  lemma ProposedIsExpected(m: Manifest, owner: Owner, requirement: Requirement, place: Place)
    requires Remembering(m) && Proposed(m, owner, requirement, place)
    ensures Expects(m, owner, place)
  {
    hide Expects, MayAcquire, PlannedAt, FinalVerificationDue, LeasedSlots;
    PlannedIsExpected(m, owner, requirement, place);
  }

  function TryAll(w: World, owner: Owner, requirement: Requirement, attempts: seq<(Acquisition, Outside, Attempt)>): World
    decreases |attempts|
  {
    if attempts == [] then w
    else
      var (a, outside, t) := attempts[0];
      TryAll(TryAcquire(w, a.(owner := owner), outside, requirement, t), owner, requirement, attempts[1..])
  }

  lemma {:induction false} InterruptedAcquisitionsKeepPending(w: World, owner: Owner, requirement: Requirement, attempts: seq<(Acquisition, Outside, Attempt)>)
    requires AcquirePending(w, owner)
    ensures AcquirePending(TryAll(w, owner, requirement, attempts), owner)
    decreases |attempts|
  {
    hide AcquirePending, TryAcquire;
    if attempts != [] {
      var (a, outside, t) := attempts[0];
      AttemptKeepsPending(w, a.(owner := owner), outside, requirement, t);
      InterruptedAcquisitionsKeepPending(TryAcquire(w, a.(owner := owner), outside, requirement, t), owner, requirement, attempts[1..]);
    }
  }

  // ----- release -----

  /** The owner still needs the slot that the controller's table shows for it. */
  predicate StillNeeds(m: Manifest, owner: Owner) {
    match owner
    case OfPhase(p) => p in m.phases && (ActivePhase(m.phases[p].launch) || m.phases[p].launch.InputReady?)
    case OfVerification(t) => t in m.tickets && (m.tickets[t].status.AwaitingVerification? || m.tickets[t].status.AwaitingRemediationVerification?)
    case OfFinalVerification => m.final.pr.Some? && m.final.records.verification.None?
  }

  /** The planner proposes a release from the controller's own table, once its owner needs it no more. */
  predicate ReleaseProposed(m: Manifest, id: SlotId, lease: Lease) {
    SlotsInUse(m) && id in m.slots && m.slots[id] == Some(lease) && !StillNeeds(m, lease.owner)
  }

  lemma SyncedReleaseIsPending(w: World, id: SlotId, lease: Lease)
    requires Synced(w) && ReleaseProposed(w.manifest, id, lease)
    ensures ReleasePending(w, id, lease)
  {
    var k :| 0 <= k < |w.registry.slots| && w.registry.slots[k].id == id;
    assert TableEntry(w, k) == Some(lease);
  }

  lemma ReleasedSlotIsPending(w: World, id: SlotId, lease: Lease, k: nat, r: Registry, status: SlotStatus)
    requires ReleasePending(w, id, lease) && k < |w.registry.slots| && Owns(w.registry.slots[k], lease.owner) && WellFormed(r)
    requires r == With(w.registry, k, w.registry.slots[k].(status := status, released := w.registry.slots[k].lease, lease := None))
    ensures ReleasePending(World(r, w.manifest), id, lease) && forall i :: 0 <= i < |r.slots| ==> !Owns(r.slots[i], lease.owner)
  {
    hide TableEntry, WellFormed;
    var n := World(r, w.manifest);
    assert SameSlots(n) by {
      forall x | x in n.manifest.slots ensures exists i :: 0 <= i < |r.slots| && r.slots[i].id == x {
        var i :| 0 <= i < |w.registry.slots| && w.registry.slots[i].id == x;
        assert r.slots[i].id == x;
      }
    }
    forall i | 0 <= i < |r.slots| ensures TableEntry(n, i) == TableEntry(w, i) {
      SameEntry(w, r, i);
    }
  }

  lemma ManagerKeepsRelease(w: World, id: SlotId, lease: Lease, close: bool, clean: bool, life: nat)
    requires ReleasePending(w, id, lease)
    ensures var (saves, result) := ReleaseSaves(w.registry, Release(lease.owner, Some(lease.id), close, clean));
            var r := After(w.registry, saves, life);
            && ReleasePending(World(r, w.manifest), id, lease)
            && (|saves| <= life && !result.ReleaseFailed? ==> forall i :: 0 <= i < |r.slots| ==> !Owns(r.slots[i], lease.owner))
  {
    hide TableEntry, ReleasedBefore, OwnersDistinct, ReleasePending;
    var a := Release(lease.owner, Some(lease.id), close, clean);
    OperationIsGood(w.registry, Releasing(a), life, lease.owner) by { ReleaseIsWellFormed(w, id, lease); }
    var saves := ReleaseSaves(w.registry, a).0;
    var r := After(w.registry, saves, life);
    if saves != [] && life > 0 {
      assert r == saves[0];
      ReleasedSlotIsPending(w, id, lease, Owned(w.registry.slots, lease.owner).value, r, if close then Idle else Ready);
    } else {
      assert r == w.registry;
    }
  }

  lemma ReleaseIsWellFormed(w: World, id: SlotId, lease: Lease)
    requires ReleasePending(w, id, lease)
    ensures WellFormed(w.registry)
  {
  }

  lemma SameEntry(w: World, r: Registry, i: nat)
    requires i < |w.registry.slots| && i < |r.slots| && r.slots[i].id == w.registry.slots[i].id
    ensures TableEntry(World(r, w.manifest), i) == TableEntry(w, i)
  {
  }

  lemma TellingReleaseSyncs(w: World, id: SlotId, lease: Lease)
    requires ReleasePending(w, id, lease) && ReleaseProposed(w.manifest, id, lease)
    requires forall i :: 0 <= i < |w.registry.slots| ==> !Owns(w.registry.slots[i], lease.owner)
    ensures var m := TellReleased(w.manifest, id, lease); m == w.manifest.(slots := w.manifest.slots[id := None]) && Synced(World(w.registry, m))
  {
    hide Step;
    SlottingIs(w.manifest, SlotReleased(lease.owner, id, lease.id));
    var m := TellReleased(w.manifest, id, lease);
    var n := World(w.registry, m);
    forall i | 0 <= i < |n.registry.slots| ensures TableEntry(n, i) == n.registry.slots[i].lease {
      if n.registry.slots[i].id != id {
        assert TableEntry(n, i) == TableEntry(w, i);
      }
    }
  }

  /** An attempt at a release leaves at most the pending difference, and one that completes brings
      the controller's table back to the manager's. */
  lemma ReleaseAttemptSyncs(w: World, id: SlotId, lease: Lease, close: bool, clean: bool, t: Attempt)
    requires ReleasePending(w, id, lease) && ReleaseProposed(w.manifest, id, lease)
    ensures var n := TryRelease(w, id, lease, close, clean, t);
            var (saves, result) := ReleaseSaves(w.registry, Release(lease.owner, Some(lease.id), close, clean));
            if t.life < |saves| || !t.reaches || result.ReleaseFailed?
            then n.manifest == w.manifest && ReleasePending(n, id, lease)
            else Synced(n) && n.manifest.slots == w.manifest.slots[id := None]
  {
    hide ReleasePending, ReleaseProposed, Synced, TellReleased, ReleaseSaves;
    ManagerKeepsRelease(w, id, lease, close, clean, t.life);
    var (saves, result) := ReleaseSaves(w.registry, Release(lease.owner, Some(lease.id), close, clean));
    if !(t.life < |saves| || !t.reaches || result.ReleaseFailed?) {
      TellingReleaseSyncs(World(After(w.registry, saves, t.life), w.manifest), id, lease);
    }
  }

  // ----- initialization -----

  predicate Enabled(s: Slot) {
    s.status.Idle? || s.status.Ready?
  }

  /** The indices of the slots that initialization hands to the controller. */
  function EnabledIndices(r: Registry): set<nat> {
    set i: nat | i < |r.slots| && Enabled(r.slots[i])
  }

  function EnabledIds(r: Registry): set<SlotId> {
    set s | s in r.slots && Enabled(s) :: s.id
  }

  lemma {:induction false} FullSubset(a: set<nat>, b: set<nat>)
    requires a <= b && |a| >= |b|
    ensures a == b
    decreases a
  {
    if a != {} {
      var x :| x in a;
      FullSubset(a - {x}, b - {x});
    } else {
      assert |b| == 0;
    }
  }

  lemma EmptyTablesAreSynced(n: Registry, m: Manifest)
    requires WellFormed(n) && IdsDistinct(n) && m.run.maxEditors == n.limit
    requires forall i :: 0 <= i < |n.slots| ==> n.slots[i].lease.None? && (Enabled(n.slots[i]) <==> i < n.limit)
    requires m.slots == map s | s in EnabledIds(n) :: None
    ensures Synced(World(n, m))
  {
    hide WellFormed;
    forall i | 0 <= i < |n.slots| && i < n.limit ensures n.slots[i].id in m.slots {
      assert n.slots[i] in n.slots;
    }
  }

  lemma FullMeansUnleased(n: Registry)
    requires WellFormed(n) && EnabledIndices(n) == Below(n.limit)
    ensures forall i :: 0 <= i < |n.slots| ==> n.slots[i].lease.None? && (Enabled(n.slots[i]) <==> i < n.limit)
  {
    forall i: nat | i < |n.slots| ensures n.slots[i].lease.None? && (Enabled(n.slots[i]) <==> i < n.limit) {
      assert i in EnabledIndices(n) <==> i in Below(n.limit);
    }
  }

  /** When the manager hands over at least as many enabled slots as the limit, there are exactly the
      slots within the limit and none is leased, so both tables start out empty and the same. */
  lemma InitializationSyncs(r: Registry, names: seq<SlotId>, worktrees: nat -> Place, m: Manifest)
    requires WellFormed(r) && InitSaves(r, names, worktrees) != [] && IdsDistinct(InitSaves(r, names, worktrees)[0])
    requires var n := InitSaves(r, names, worktrees)[0];
             |EnabledIndices(n)| >= |names| && m.run.maxEditors == |names| && ConfigureEnvironment(m, EnabledIds(n)).Accepted?
    ensures var n := InitSaves(r, names, worktrees)[0]; Synced(World(n, ConfigureEnvironment(m, EnabledIds(n)).m))
  {
    hide WellFormed, IdsDistinct, Synced, EnabledIndices;
    var n := InitSaves(r, names, worktrees)[0];
    InitIsGood(r, names, worktrees);
    OnlyEnabledWithinLimit(r, names, worktrees);
    FullSubset(EnabledIndices(n), Below(n.limit));
    FullMeansUnleased(n);
    EmptyTablesAreSynced(n, ConfigureEnvironment(m, EnabledIds(n)).m);
  }

  lemma OnlyEnabledWithinLimit(r: Registry, names: seq<SlotId>, worktrees: nat -> Place)
    requires WellFormed(r) && InitSaves(r, names, worktrees) != []
    ensures var n := InitSaves(r, names, worktrees)[0]; n.limit == |names| && EnabledIndices(n) <= Below(n.limit)
  {
  }

  // ----- the adapter in place -----

  class Adapter {
    var registry: Registry
    var manifest: Manifest

    function Tables(): World
      reads this
    {
      World(registry, manifest)
    }

    method Acquire(a: Acquisition, outside: Outside, requirement: Requirement, t: Attempt)
      modifies this
      ensures Tables() == TryAcquire(old(Tables()), a, outside, requirement, t)
    {
      hide AcquireSaves, Step;
      var manager := new Process(registry, t.life);
      var result := manager.Acquire(a, outside);
      registry := manager.disk;
      if result.None? || result.value.AcquireFailed? || !t.reaches { return; }
      var i := result.value.index;
      if i >= |registry.slots| || registry.slots[i].lease.None? { return; }
      var slot, lease := registry.slots[i], registry.slots[i].lease.value;
      if slot.id in manifest.slots && manifest.slots[slot.id] == Some(lease) { return; }
      var controller := new LoadedManifest(manifest);
      var ok := controller.HandleEvent(AcquisitionEvent(slot, lease, requirement, a.place.head));
      if ok { manifest := controller.View(); }
    }

    method Release(id: SlotId, lease: Lease, close: bool, clean: bool, t: Attempt)
      modifies this
      ensures Tables() == TryRelease(old(Tables()), id, lease, close, clean, t)
    {
      hide ReleaseSaves, Step;
      var manager := new Process(registry, t.life);
      var result := manager.ReleaseLease(SlotRegistry.Release(lease.owner, Some(lease.id), close, clean));
      registry := manager.disk;
      if result.None? || result.value.ReleaseFailed? || !t.reaches { return; }
      var controller := new LoadedManifest(manifest);
      var ok := controller.HandleEvent(Slotted(SlotReleased(lease.owner, id, lease.id)));
      if ok { manifest := controller.View(); }
    }
  }
}
