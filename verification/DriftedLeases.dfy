/** A lease that the manager has granted and the controller expects elsewhere. Nothing that the
    adapter does repairs it, and a drift of the final head is enough to bring it about. */
module DriftedLeases {
  import opened Prelude
  import opened Manifest
  import opened PhaseEvents
  import opened SlotEvents
  import opened FinalizationEvents
  import opened Events
  import opened SlotRegistry
  import opened SlotAdapter
  import opened SlotSteps
  import opened Progress
  import opened Completion
  import opened StrandedLeases
  import opened VerificationLeases
  import Runs

  // ----- a stuck lease -----

  /** The slot `i` is in use by `owner` at `place`, and the controller has not been told. */
  ghost predicate Stuck(w: World, owner: Owner, i: nat, place: Place) {
    && WellFormed(w.registry) && Named(w.registry) && w.manifest.editorsReady && !HoldsSlot(w.manifest, owner)
    && i < |w.registry.slots| && Owns(w.registry.slots[i], owner) && w.registry.slots[i].status.InUse? && w.registry.slots[i].place == place
  }

  lemma StuckIsApart(w: World, owner: Owner, i: nat, place: Place)
    requires Stuck(w, owner, i, place)
    ensures !Synced(w)
  {
    assert !Leases(w.manifest, w.registry.slots[i].id, owner);
    assert TableEntry(w, i) != w.registry.slots[i].lease;
  }

  lemma {:induction false} FreeSlotsAreUnleased(slots: seq<Slot>, n: nat, branch: Option<Reference>, matching: bool, i: nat)
    requires n <= |slots| && i < |slots| && slots[i].lease.Some?
    ensures i !in FreeSlots(slots, n, branch, matching)
    decreases n
  {
    if n > 0 { FreeSlotsAreUnleased(slots, n - 1, branch, matching, i); }
  }

  lemma OthersAreNoCandidates(r: Registry, owner: Owner, branch: Option<Reference>, i: nat)
    requires i < |r.slots| && r.slots[i].lease.Some? && !Owns(r.slots[i], owner)
    ensures i !in Candidates(r, owner, branch)
  {
    FreeSlotsAreUnleased(r.slots, Usable(r), branch, true, i);
    FreeSlotsAreUnleased(r.slots, Usable(r), branch, false, i);
  }

  lemma {:induction false} PreparingLeavesAlone(r: Registry, candidates: seq<nat>, outside: Outside, i: nat)
    requires forall k :: 0 <= k < |candidates| ==> candidates[k] < |r.slots|
    requires i < |r.slots| && i !in candidates
    ensures forall k :: 0 <= k < |Preparing(r, candidates, outside).0| ==> Preparing(r, candidates, outside).0[k].slots[i] == r.slots[i]
    decreases |candidates|
  {
    if candidates != [] && outside(candidates[0]).Fails? {
      assert candidates[0] != i;
      var r1 := Quarantined(r, candidates[0], outside(candidates[0]).transient);
      PreparingLeavesAlone(r1, candidates[1..], outside, i);
    }
  }

  /** An acquisition leaves the slots leased to others exactly as they are. */
  lemma AcquiringLeavesOthersAlone(r: Registry, a: Acquisition, outside: Outside, life: nat, i: nat)
    requires i < |r.slots| && r.slots[i].lease.Some? && !Owns(r.slots[i], a.owner)
    ensures var n := After(r, AcquireSaves(r, a, outside).0, life); |n.slots| == |r.slots| && n.slots[i] == r.slots[i]
  {
    hide FreeSlots;
    var own := Owned(r.slots, a.owner);
    if own.None? || !r.slots[own.value].status.InUse? {
      var candidates := Candidates(r, a.owner, a.place.branch);
      OthersAreNoCandidates(r, a.owner, a.place.branch, i);
      PreparingLeavesAlone(r, candidates, outside, i);
      var saves := AcquireSaves(r, a, outside).0;
      assert forall k :: 0 <= k < |saves| ==> |saves[k].slots| == |r.slots| && saves[k].slots[i] == r.slots[i];
    }
  }

  lemma ReleasingLeavesOthersAlone(r: Registry, a: Release, life: nat, i: nat)
    requires i < |r.slots| && r.slots[i].lease.Some? && !Owns(r.slots[i], a.owner)
    ensures var n := After(r, ReleaseSaves(r, a).0, life); |n.slots| == |r.slots| && n.slots[i] == r.slots[i]
  {
  }

  lemma TellingOthersShowsNothing(m: Manifest, s: Slot, lease: Lease, requirement: Requirement, expected: Commit, owner: Owner)
    requires !HoldsSlot(m, owner) && lease.owner != owner
    ensures var n := TellAcquired(m, s, lease, requirement, expected); !HoldsSlot(n, owner) && n.editorsReady == m.editorsReady
  {
    hide Step, Expects, MayAcquire, LeasedSlots, OnePhase;
    SlottingIs(m, SlotAcquired(lease.owner, s.id, lease.id, requirement, expected, s.place));
    var n := TellAcquired(m, s, lease, requirement, expected);
    forall id | id in n.slots ensures !Leases(n, id, owner) {
      assert id in m.slots ==> !Leases(m, id, owner);
    }
  }

  lemma TellingReleasesShowsNothing(m: Manifest, id: SlotId, lease: Lease, owner: Owner)
    requires !HoldsSlot(m, owner)
    ensures var n := TellReleased(m, id, lease); !HoldsSlot(n, owner) && n.editorsReady == m.editorsReady
  {
    hide Step;
    SlottingIs(m, SlotReleased(lease.owner, id, lease.id));
    var n := TellReleased(m, id, lease);
    forall x | x in n.slots ensures !Leases(n, x, owner) {
      assert x in m.slots ==> !Leases(m, x, owner);
    }
  }

  lemma OtherAcquisitionLeavesStuck(w: World, a: Acquisition, outside: Outside, requirement: Requirement, t: Attempt, owner: Owner, i: nat, place: Place)
    requires Stuck(w, owner, i, place) && a.owner != owner
    ensures Stuck(TryAcquire(w, a, outside, requirement, t), owner, i, place)
  {
    hide AcquireSaves, TellAcquired, HoldsSlot, Named, WellFormed;
    AcquiringLeavesOthersAlone(w.registry, a, outside, t.life, i);
    OperationIsGood(w.registry, Acquiring(a, outside), t.life, a.owner);
    AcquisitionKeepsNames(w.registry, a, outside, t.life);
    AcquireSavesAreGood(w.registry, a, outside);
    var (saves, result) := AcquireSaves(w.registry, a, outside);
    var r := After(w.registry, saves, t.life);
    if !(t.life < |saves| || !t.reaches || result.AcquireFailed? || result.index >= |r.slots| || r.slots[result.index].lease.None?) {
      TellingOthersShowsNothing(w.manifest, r.slots[result.index], r.slots[result.index].lease.value, requirement, a.place.head, owner);
    }
  }

  lemma OtherReleaseLeavesStuck(w: World, id: SlotId, lease: Lease, clean: bool, t: Attempt, owner: Owner, i: nat, place: Place)
    requires Stuck(w, owner, i, place) && lease.owner != owner
    ensures Stuck(TryRelease(w, id, lease, false, clean, t), owner, i, place)
  {
    hide ReleaseSaves, TellReleased, HoldsSlot, Named, WellFormed;
    var a := Release(lease.owner, Some(lease.id), false, clean);
    ReleasingLeavesOthersAlone(w.registry, a, t.life, i);
    OperationIsGood(w.registry, Releasing(a), t.life, lease.owner);
    ReleaseKeepsNames(w.registry, a, t.life);
    TellingReleasesShowsNothing(w.manifest, id, lease, owner);
  }

  lemma StuckIsInUse(w: World, owner: Owner, i: nat, place: Place)
    requires Stuck(w, owner, i, place)
    ensures UsesSlot(w.registry, owner) && HeldAt(w.registry, owner, place)
  {
    forall k | 0 <= k < |w.registry.slots| && Owns(w.registry.slots[k], owner) ensures k == i {
      OnlySlot(w.registry, owner, k);
      OnlySlot(w.registry, owner, i);
    }
  }

  lemma SteppingLeavesStuck(choose: Choice, w: World, o: Moment, owner: Owner, i: nat, place: Place)
    requires Plans(choose) && Stuck(w, owner, i, place) && !Expects(w.manifest, owner, place)
    ensures Stuck(StepOnce(choose, w, o), owner, i, place)
  {
    hide Stuck, TryInitialize, TryAcquire, TryRelease, Expects, MayAcquire, PlannedAt, FinalVerificationDue, StillNeeds, HoldsSlot, LeasedSlots;
    assert WellFormed(w.registry) && w.manifest.editorsReady && !HoldsSlot(w.manifest, owner) by { StuckMeans(w, owner, i, place); }
    hide WellFormed;
    var command := choose(w.manifest);
    assert Offers(w.manifest, command);
    if command.AcquireFor? {
      if command.owner == owner {
        StuckIsInUse(w, owner, i, place);
        MovedLeaseIsRefused(w, Wanted(owner, command.place, o), o.outside, command.requirement, o.attempt, place);
      } else {
        OtherAcquisitionLeavesStuck(w, Wanted(command.owner, command.place, o), o.outside, command.requirement, o.attempt, owner, i, place);
      }
    } else if command.ReleaseLease? {
      assert command.lease.owner != owner by { ReleasedIsHeld(w.manifest, command.slot, command.lease); }
      OtherReleaseLeavesStuck(w, command.slot, command.lease, o.clean, o.attempt, owner, i, place);
    }
  }

  lemma StuckMeans(w: World, owner: Owner, i: nat, place: Place)
    requires Stuck(w, owner, i, place)
    ensures WellFormed(w.registry) && w.manifest.editorsReady && !HoldsSlot(w.manifest, owner)
  {
  }

  lemma ReleasedIsHeld(m: Manifest, id: SlotId, lease: Lease)
    requires id in m.slots && m.slots[id] == Some(lease)
    ensures HoldsSlot(m, lease.owner)
  {
    assert Leases(m, id, lease.owner);
  }

  lemma HappeningLeavesStuck(choose: Choice, w: World, h: Happening, owner: Owner, i: nat, place: Place)
    requires Plans(choose) && Stuck(w, owner, i, place) && !Expects(w.manifest, owner, place)
    requires h.Telling? ==> !h.event.action.Slotting?
    ensures Stuck(Happen(choose, w, h), owner, i, place)
  {
    hide Step, StepOnce, Expects, HoldsSlot, WellFormed, Named;
    match h
    case Stepping(o) => SteppingLeavesStuck(choose, w, o, owner, i, place);
    case Telling(e) =>
      if Step(w.manifest, e).Accepted? {
        OtherEventsKeepSlots(w.manifest, e);
        SameTableHolds(w.manifest, Step(w.manifest, e).m, owner);
      }
  }

  /** At no moment of the run does the controller expect the owner's editor at the place. */
  ghost predicate NeverExpected(choose: Choice, w: World, hs: seq<Happening>, owner: Owner, place: Place)
    decreases |hs|
  {
    hs == [] ||
    (&& !Expects(w.manifest, owner, place) && (hs[0].Telling? ==> !hs[0].event.action.Slotting?)
     && NeverExpected(choose, Happen(choose, w, hs[0]), hs[1..], owner, place))
  }

  /** However often the adapter is run and whatever the controller is told, a lease that is in use at
      one place never reaches the controller as long as it is not expected there. */
  lemma {:induction false} StuckStays(choose: Choice, w: World, hs: seq<Happening>, owner: Owner, i: nat, place: Place)
    requires Plans(choose) && Stuck(w, owner, i, place) && NeverExpected(choose, w, hs, owner, place)
    ensures Stuck(HappenAll(choose, w, hs), owner, i, place) && !Synced(HappenAll(choose, w, hs))
    decreases |hs|
  {
    hide Happen, Stuck, Expects, Synced;
    if hs == [] {
      StuckIsApart(w, owner, i, place);
    } else {
      HappeningLeavesStuck(choose, w, hs[0], owner, i, place);
      StuckStays(choose, Happen(choose, w, hs[0]), hs[1..], owner, i, place);
    }
  }

  // ----- a run that leaves such a lease -----

  /** The place of the first final head, at which the editor is first wanted. */
  const FIRST := Detached(1)

  /** Slots as a first initialization makes them. */
  function FreshRegistry(n: nat): Registry {
    Registry(seq(n, i requires 0 <= i < n => Slot(SlotName(i), Idle, None, None, Detached(0), false)), n)
  }

  lemma FreshIsInitialized(n: nat)
    ensures InitSaves(Registry([], 0), Names(n), i => Detached(0)) == [FreshRegistry(n)]
    ensures WellFormed(FreshRegistry(n)) && Named(FreshRegistry(n)) && EnabledIndices(FreshRegistry(n)) == Below(n)
  {
    var r := Registry([], 0);
    assert InitSaves(r, Names(n), i => Detached(0))[0].slots == FreshRegistry(n).slots;
  }

  /** The run is delivered, and its slots are set up and all free. */
  ghost predicate SetUp(m: Manifest, n: Manifest, r: Registry) {
    && n == m.(slots := n.slots, editorsReady := true) && Synced(World(r, n)) && Named(r) && r == FreshRegistry(m.run.maxEditors)
    && forall s :: s in n.slots ==> n.slots[s].None?
  }

  lemma SlotsAreSetUp(m: Manifest) returns (e: Event)
    requires Deliverable(m) && m.run.editors
    ensures Step(m, e).Accepted? && SetUp(m, Step(m, e).m, FreshRegistry(m.run.maxEditors))
  {
    assert WellFormed(Registry([], 0));
    hide WellFormed, Synced, Named, EnabledIndices, Step, HandleSlots, EnabledIds;
    var k := m.run.maxEditors;
    var r := FreshRegistry(k);
    FreshIsInitialized(k);
    NamedMeansDistinct(r);
    ConfigurationIsAccepted(r, m);
    e := Slotted(EnvironmentConfigured(EnabledIds(r)));
    SlottingIs(m, EnvironmentConfigured(EnabledIds(r)));
    assert HandleSlots(m, EnvironmentConfigured(EnabledIds(r))) == ConfigureEnvironment(m, EnabledIds(r)) by { ConfiguringIs(m, EnabledIds(r)); }
    InitializationSyncs(Registry([], 0), Names(k), i => Detached(0), m);
  }

  lemma ConfiguringIs(m: Manifest, ids: set<SlotId>)
    ensures HandleSlots(m, EnvironmentConfigured(ids)) == ConfigureEnvironment(m, ids)
  {
  }

  /** The delivered run with its final pull request open at the first head and an editor required. */
  function PrOpened(m: Manifest): Manifest {
    WithFinal(m, m.final.(status := FinalPrOpen, requirement := Some(EditorRead), pr := Some(FinalPr(1, false))))
  }

  lemma PrIsOpened(m0: Manifest, m: Manifest) returns (events: seq<Event>)
    requires Deliverable(m0) && m.run.editors && m == m0.(slots := m.slots, editorsReady := true)
    ensures Run(m, events) == Accepted(PrOpened(m))
  {
    hide Run, Step;
    var m1 := WithFinal(m, m.final.(status := Started, requirement := Some(EditorRead)));
    EditorIsRequired(m0, m);
    RunNothing(m);
    ThenStep(m, [], m, Finalized(FinalizationStarted(EditorRead)), m1);
    PrIsAccepted(m1, 1);
    events := [] + [Finalized(FinalizationStarted(EditorRead))] + [Finalized(FinalPrRecorded(1, false))];
    ThenStep(m, [] + [Finalized(FinalizationStarted(EditorRead))], m1, Finalized(FinalPrRecorded(1, false)), PrOpened(m));
  }

  lemma EditorIsRequired(m0: Manifest, m: Manifest)
    requires Deliverable(m0) && m.run.editors && m == m0.(slots := m.slots, editorsReady := true)
    ensures Step(m, Finalized(FinalizationStarted(EditorRead)))
         == Accepted(WithFinal(m, m.final.(status := Started, requirement := Some(EditorRead))))
  {
    forall t | t in m.tickets ensures m.tickets[t].status.MergedIntoTrain? {
      assert t !in Unmerged(m0);
    }
    var t :| t in m.tickets;
    assert m.tickets[t].status.MergedIntoTrain?;
  }

  lemma FreeTableHoldsNothing(m: Manifest)
    requires forall s :: s in m.slots ==> m.slots[s].None?
    ensures !HoldsSlot(m, OfFinalVerification) && LeasedSlots(m) == {}
  {
  }

  lemma EditorIsProposed(m0: Manifest, m: Manifest)
    requires Deliverable(m0) && m.run.editors && m.run.maxEditors > 0 && m == m0.(slots := m.slots, editorsReady := true)
    requires forall s :: s in m.slots ==> m.slots[s].None?
    ensures FinalProposed(PrOpened(m)) && Proposed(PrOpened(m), OfFinalVerification, EditorRead, FIRST)
  {
    hide HoldsSlot, LeasedSlots;
    FreeTableHoldsNothing(PrOpened(m));
    forall t | t in m.tickets ensures TerminalTicket(m.tickets[t].status) {
      assert t !in Unmerged(m0);
    }
  }

  /** The adapter dies after the manager has the slot in use, before it tells the controller. */
  const INTERRUPTED := Attempt(2, false)
  const FINAL_WISH := Acquisition(OfFinalVerification, FIRST, 0, true)

  function AlwaysPrepared(): Outside {
    (i: nat) => Prepared
  }

  lemma SomeSlotIsFree(n: nat)
    requires n > 0
    ensures var r := FreshRegistry(n);
            Owned(r.slots, OfFinalVerification).None? && Candidates(r, OfFinalVerification, None) != []
  {
    var r := FreshRegistry(n);
    assert FreeSlots(r.slots, n, None, true) == FreeSlots(r.slots, n - 1, None, true) + [n - 1];
  }

  lemma FinalSlotIsTaken(n: nat) returns (i: nat)
    requires n > 0
    ensures var r := After(FreshRegistry(n), AcquireSaves(FreshRegistry(n), FINAL_WISH, AlwaysPrepared()).0, 2);
            i < |r.slots| && Owns(r.slots[i], OfFinalVerification) && r.slots[i].status.InUse? && r.slots[i].place == FIRST
  {
    hide FreeSlots;
    var r := FreshRegistry(n);
    SomeSlotIsFree(n);
    i := Candidates(r, OfFinalVerification, None)[0];
    var starting := LeasedTo(r, i, OfFinalVerification, 0, FIRST);
    assert AcquireSaves(r, FINAL_WISH, AlwaysPrepared()).0 == [] + [starting, EditorStarted(starting, i, true)];
  }

  lemma TakenIsStuck(m: Manifest, i: nat)
    requires var r := FreshRegistry(m.run.maxEditors); Synced(World(r, m)) && Named(r) && Proposed(m, OfFinalVerification, EditorRead, FIRST)
    requires var r := After(FreshRegistry(m.run.maxEditors), AcquireSaves(FreshRegistry(m.run.maxEditors), FINAL_WISH, AlwaysPrepared()).0, 2);
             i < |r.slots| && Owns(r.slots[i], OfFinalVerification) && r.slots[i].status.InUse? && r.slots[i].place == FIRST
    ensures var w := TryAcquire(World(FreshRegistry(m.run.maxEditors), m), FINAL_WISH, AlwaysPrepared(), EditorRead, INTERRUPTED);
            w.manifest == m && Stuck(w, OfFinalVerification, i, FIRST)
  {
    hide AcquireSaves, Named, WellFormed, HoldsSlot, TellAcquired, MayAcquire, PlannedAt, FinalVerificationDue, LeasedSlots;
    var r := FreshRegistry(m.run.maxEditors);
    assert WellFormed(r) by { SyncedIsWellFormed(World(r, m)); }
    OperationIsGood(r, Acquiring(FINAL_WISH, AlwaysPrepared()), 2, OfFinalVerification);
    AcquisitionKeepsNames(r, FINAL_WISH, AlwaysPrepared(), 2);
  }

  function Drift(head: Commit): FinalizationAction {
    FinalHeadDrifted(1, head)
  }

  lemma DriftIsAccepted(m0: Manifest, m: Manifest, head: Commit)
    requires Deliverable(m0) && m == m0.(slots := m.slots, editorsReady := true) && head != 1
    ensures Handle(PrOpened(m), Finalizing(Drift(head))).Accepted?
    ensures Step(PrOpened(m), Finalized(Drift(head))) == Handle(PrOpened(m), Finalizing(Drift(head)))
    ensures Handle(PrOpened(m), Finalizing(Drift(head))).m.final.pr == Some(FinalPr(head, false))
    ensures Handle(PrOpened(m), Finalizing(Drift(head))).m.final.requirement == Some(EditorRead)
  {
  }

  lemma DriftLeavesStatus(m: Manifest, head: Commit)
    requires FinalProposed(m)
    ensures !StopsSlotWork(m, Finalizing(Drift(head))) && !LeavesFinalVerification(m, Finalizing(Drift(head)))
  {
    hide HoldsSlot, LeasedSlots, PrAwaitsVerification, SlotsInUse;
  }

  /** After the drift the planner proposes the acquisition at the new head. */
  lemma DriftIsProposed(m0: Manifest, m: Manifest, head: Commit)
    requires Deliverable(m0) && m.run.editors && m.run.maxEditors > 0 && m == m0.(slots := m.slots, editorsReady := true) && head != 1
    requires forall s :: s in m.slots ==> m.slots[s].None?
    ensures var o := Step(PrOpened(m), Finalized(Drift(head)));
            && o.Accepted? && SameTable(PrOpened(m), o.m) && Proposed(o.m, OfFinalVerification, EditorRead, Detached(head))
            && !Expects(o.m, OfFinalVerification, FIRST)
  {
    hide Handle, Step, Deliverable, FinalProposed, Proposed, StopsSlotWork, LeavesFinalVerification;
    DriftIsAccepted(m0, m, head);
    EditorIsProposed(m0, m);
    DriftLeavesStatus(PrOpened(m), head);
    FinalProposalGoesOnExactly(PrOpened(m), Finalizing(Drift(head)));
    OtherActionsKeepSlots(PrOpened(m), Finalizing(Drift(head)));
    FinalIsProposed(Handle(PrOpened(m), Finalizing(Drift(head))).m);
  }

  lemma SameTableStaysStuck(w: World, m: Manifest, i: nat)
    requires Stuck(w, OfFinalVerification, i, FIRST) && SameTable(w.manifest, m)
    ensures Stuck(w.(manifest := m), OfFinalVerification, i, FIRST)
  {
    hide WellFormed, Named, HoldsSlot;
    SameTableHolds(w.manifest, m, OfFinalVerification);
  }

  /** The world of a run with fresh slots, and the same after the interrupted acquisition and a drift. */
  function Begun(m: Manifest): World {
    World(FreshRegistry(m.run.maxEditors), m)
  }

  function LeftUntold(m: Manifest): World {
    TryAcquire(Begun(m), FINAL_WISH, AlwaysPrepared(), EditorRead, INTERRUPTED)
  }

  lemma DriftStrands(m0: Manifest, m: Manifest, head: Commit, choose: Choice, hs: seq<Happening>)
    requires Deliverable(m0) && m.run.editors && m.run.maxEditors > 0 && SetUp(m0, m, FreshRegistry(m0.run.maxEditors)) && head != 1
    requires Step(PrOpened(m), Finalized(Drift(head))).Accepted? && Plans(choose)
    requires NeverExpected(choose, LeftUntold(PrOpened(m)).(manifest := Step(PrOpened(m), Finalized(Drift(head))).m), hs, OfFinalVerification, FIRST)
    ensures !Synced(HappenAll(choose, LeftUntold(PrOpened(m)).(manifest := Step(PrOpened(m), Finalized(Drift(head))).m), hs))
  {
    hide Step, Deliverable, FinalProposed, Proposed, Synced, Named, HappenAll, NeverExpected, AcquireSaves, Expects, TryAcquire, Stuck;
    EditorIsProposed(m0, m);
    SameSlotsStaySynced(Begun(m), PrOpened(m));
    var i := FinalSlotIsTaken(m.run.maxEditors);
    TakenIsStuck(PrOpened(m), i);
    DriftIsProposed(m0, m, head);
    var n := Step(PrOpened(m), Finalized(Drift(head))).m;
    SameTableStaysStuck(LeftUntold(PrOpened(m)), n, i);
    StuckStays(choose, LeftUntold(PrOpened(m)).(manifest := n), hs, OfFinalVerification, i, FIRST);
  }

  /** From every bootstrapped live manifest with a ticket and editors, some accepted run comes to the
      final verification with both tables the same. There an acquisition interrupted before it is told,
      and a drift of the head before its re-run, leave the planner proposing the acquisition and the
      tables apart for good: until the head is the first one again, nothing that the adapter does or
      the controller is told brings them together. */
  lemma SomeFinalLeaseIsStranded(m: Manifest, head: Commit) returns (events: seq<Event>, n: Manifest)
    requires Bootstrapped(m) && m.run.live && m.run.editors && m.run.maxEditors > 0 && m.tickets != map[] && head != 1
    ensures Run(m, events) == Accepted(n)
    ensures Synced(Begun(n)) && Proposed(n, OfFinalVerification, EditorRead, FIRST) && LeftUntold(n).manifest == n
    ensures var o := Step(n, Finalized(Drift(head)));
            && o.Accepted? && Proposed(o.m, OfFinalVerification, EditorRead, Detached(head))
            && forall choose, hs :: Plans(choose) && NeverExpected(choose, LeftUntold(n).(manifest := o.m), hs, OfFinalVerification, FIRST) ==>
                 !Synced(HappenAll(choose, LeftUntold(n).(manifest := o.m), hs))
  {
    hide Run, Step, Deliverable, Proposed, Synced, Named, HappenAll, NeverExpected, TryAcquire, Expects, AcquireSaves, Stuck, FinalProposed;
    events := BootstrapIsDelivered(m);
    var m0 := Run(m, events).m;
    assert m0.run == m.run by { RunsKeepSettings(m, events); }
    var e := SlotsAreSetUp(m0);
    var m1 := Step(m0, e).m;
    ThenStep(m, events, m0, e, m1);
    var opening := PrIsOpened(m0, m1);
    RunConcat(m, events + [e], opening);
    events := events + [e] + opening;
    n := PrOpened(m1);
    EditorIsProposed(m0, m1);
    SameSlotsStaySynced(Begun(m1), n);
    var i := FinalSlotIsTaken(n.run.maxEditors);
    TakenIsStuck(n, i);
    DriftIsProposed(m0, m1, head);
    var o := Step(n, Finalized(Drift(head)));
    forall choose, hs | Plans(choose) && NeverExpected(choose, LeftUntold(n).(manifest := o.m), hs, OfFinalVerification, FIRST)
      ensures !Synced(HappenAll(choose, LeftUntold(n).(manifest := o.m), hs))
    {
      DriftStrands(m0, m1, head, choose, hs);
    }
  }

  lemma {:induction false} RunsKeepSettings(m: Manifest, events: seq<Event>)
    requires Run(m, events).Accepted?
    ensures Run(m, events).m.run == m.run
    decreases |events|
  {
    hide Handle;
    if events != [] {
      Runs.SettingsNeverChange(m, events[0].action);
      RunsKeepSettings(Step(m, events[0]).m, events[1..]);
    }
  }
}
