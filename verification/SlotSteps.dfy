/** Re-running `step` of one adapter: whatever it was interrupted in, the first run that goes through
    brings the controller's lease table back to the manager's. */
module SlotSteps {
  import opened Prelude
  import opened Manifest
  import opened SlotEvents
  import opened Events
  import opened SlotRegistry
  import opened SlotAdapter
  import opened PhaseHistory

  // ----- the names of the slots -----

  function Digit(n: nat): char
    requires n < 10
  {
    "0123456789"[n]
  }

  function Decimal(n: nat): (s: string)
    ensures |s| > 0
  {
    if n < 10 then [Digit(n)] else Decimal(n / 10) + [Digit(n % 10)]
  }

  lemma DigitsDiffer(a: nat, b: nat)
    requires a < 10 && b < 10 && Digit(a) == Digit(b)
    ensures a == b
  {
  }

  lemma {:induction false} DecimalsDiffer(a: nat, b: nat)
    requires Decimal(a) == Decimal(b)
    ensures a == b
    decreases a
  {
    var s, t := Decimal(a), Decimal(b);
    assert s[|s| - 1] == t[|t| - 1];
    DigitsDiffer(a % 10, b % 10);
    if a >= 10 && b >= 10 {
      assert s[..|s| - 1] == Decimal(a / 10) && t[..|t| - 1] == Decimal(b / 10);
      DecimalsDiffer(a / 10, b / 10);
    }
  }

  /** The identifier of the slot at position `i`. */
  function SlotName(i: nat): SlotId {
    "unity-slot-" + Decimal(i + 1)
  }

  lemma SlotNamesDiffer(i: nat, j: nat)
    requires SlotName(i) == SlotName(j)
    ensures i == j
  {
    var prefix := "unity-slot-";
    assert SlotName(i)[|prefix|..] == Decimal(i + 1) && SlotName(j)[|prefix|..] == Decimal(j + 1);
    DecimalsDiffer(i + 1, j + 1);
  }

  function Names(n: nat): seq<SlotId> {
    seq(n, i requires 0 <= i < n => SlotName(i))
  }

  /** Every slot bears the name of its position. */
  ghost predicate Named(r: Registry) {
    forall i: nat :: i < |r.slots| ==> r.slots[i].id == SlotName(i)
  }

  lemma NamedMeansDistinct(r: Registry)
    requires Named(r)
    ensures IdsDistinct(r)
  {
    forall i, j | 0 <= i < j < |r.slots| ensures r.slots[i].id != r.slots[j].id {
      if SlotName(i) == SlotName(j) { SlotNamesDiffer(i, j); }
    }
  }

  // ----- what the planner may tell the adapter to do -----

  datatype Command =
    | Initialize
    | AcquireFor(owner: Owner, requirement: Requirement, place: Place)
    | ReleaseLease(slot: SlotId, lease: Lease)
    | NoSlotAction

  /** The guards under which the planner emits the command. */
  predicate Offers(m: Manifest, command: Command) {
    match command
    case Initialize => m.run.editors && !m.editorsReady && m.anomalies == 0 && !m.completed
    case AcquireFor(owner, requirement, place) => Proposed(m, owner, requirement, place)
    case ReleaseLease(id, lease) => ReleaseProposed(m, id, lease)
    case NoSlotAction => true
  }

  /** A planner's first action, which depends on the manifest alone. */
  type Choice = Manifest -> Command

  ghost predicate Plans(choose: Choice) {
    forall m :: Offers(m, choose(m))
  }

  // ----- one run of `step` -----

  /** Everything that one run of `step` meets: what git and the editors do, and how long it lives. */
  datatype Moment = Moment(
    unused: Reference, ready: bool, outside: Outside, worktrees: nat -> Place, clean: bool, attempt: Attempt)

  function Wanted(owner: Owner, place: Place, o: Moment): Acquisition {
    Acquisition(owner, place, o.unused, o.ready)
  }

  function TellConfigured(m: Manifest, ids: set<SlotId>): Manifest {
    var o := Step(m, Slotted(EnvironmentConfigured(ids)));
    if o.Accepted? then o.m else m
  }

  /** The manager's initialization went through, handed over enough slots, and the adapter lived on. */
  predicate Initializes(w: World, o: Moment) {
    var n := w.manifest.run.maxEditors;
    var saves := InitSaves(w.registry, Names(n), o.worktrees);
    saves != [] && |saves| <= o.attempt.life && o.attempt.reaches && |EnabledIndices(saves[0])| >= n
  }

  function TryInitialize(w: World, o: Moment): World {
    var r := After(w.registry, InitSaves(w.registry, Names(w.manifest.run.maxEditors), o.worktrees), o.attempt.life);
    if Initializes(w, o) then World(r, TellConfigured(w.manifest, EnabledIds(r))) else w.(registry := r)
  }

  /** The editor is left running on a release. */
  function StepOnce(choose: Choice, w: World, o: Moment): World {
    match choose(w.manifest)
    case Initialize => TryInitialize(w, o)
    case AcquireFor(owner, requirement, place) => TryAcquire(w, Wanted(owner, place, o), o.outside, requirement, o.attempt)
    case ReleaseLease(id, lease) => TryRelease(w, id, lease, false, o.clean, o.attempt)
    case NoSlotAction => w
  }

  predicate ReleaseCompletes(w: World, lease: Lease, clean: bool, t: Attempt) {
    var (saves, result) := ReleaseSaves(w.registry, Release(lease.owner, Some(lease.id), false, clean));
    |saves| <= t.life && t.reaches && !result.ReleaseFailed?
  }

  /** This run of `step` goes through to the controller. */
  predicate GoesThrough(choose: Choice, w: World, o: Moment) {
    match choose(w.manifest)
    case Initialize => Initializes(w, o)
    case AcquireFor(owner, _, place) => Completes(w, Wanted(owner, place, o), o.outside, o.attempt)
    case ReleaseLease(_, lease) => ReleaseCompletes(w, lease, o.clean, o.attempt)
    case NoSlotAction => true
  }

  // ----- what an interrupted run leaves -----

  /** The tables differ at most in what the command is about, and a lease that its owner already has
      in use is where the command wants it. */
  ghost predicate DiffersOnlyIn(w: World, command: Command) {
    match command
    case Initialize => WellFormed(w.registry) && Named(w.registry)
    case AcquireFor(owner, _, place) => AcquirePending(w, owner) && HeldAt(w.registry, owner, place)
    case ReleaseLease(id, lease) => ReleasePending(w, id, lease)
    case NoSlotAction => Synced(w)
  }

  /** What the adapter is told to do again is all that the tables may differ in. */
  ghost predicate Recoverable(choose: Choice, w: World) {
    DiffersOnlyIn(w, choose(w.manifest))
  }

  lemma SyncedIsRecoverable(choose: Choice, w: World)
    requires Plans(choose) && Synced(w) && Named(w.registry)
    ensures Recoverable(choose, w)
  {
    hide Synced, SameSlots, AcquirePending, ReleasePending, Proposed;
    assert Offers(w.manifest, choose(w.manifest));
    match choose(w.manifest)
    case Initialize => assert WellFormed(w.registry) by { SyncedIsWellFormed(w); }
    case AcquireFor(owner, requirement, place) =>
      SyncedIsPending(w, owner);
      SyncedHoldsNothing(w, owner, requirement, place);
    case ReleaseLease(id, lease) => SyncedReleaseIsPending(w, id, lease);
    case NoSlotAction =>
  }

  lemma SyncedHoldsNothing(w: World, owner: Owner, requirement: Requirement, place: Place)
    requires Synced(w) && Proposed(w.manifest, owner, requirement, place)
    ensures HeldAt(w.registry, owner, place)
  {
    hide MayAcquire, PlannedAt, FinalVerificationDue, LeasedSlots;
    forall i | 0 <= i < |w.registry.slots| ensures !Owns(w.registry.slots[i], owner) {
      assert TableEntry(w, i) == w.registry.slots[i].lease;
      assert !Leases(w.manifest, w.registry.slots[i].id, owner);
    }
  }

  lemma SyncedIsWellFormed(w: World)
    requires Synced(w)
    ensures WellFormed(w.registry)
  {
  }

  // ----- initialization -----

  lemma {:induction false} IndicesAreCounted(slots: seq<Slot>, indices: set<nat>, ids: set<SlotId>)
    requires forall i :: i in indices ==> i < |slots| && slots[i].id in ids
    requires forall i, j :: i in indices && j in indices && i != j ==> slots[i].id != slots[j].id
    ensures |indices| <= |ids|
    decreases indices
  {
    if indices != {} {
      var i :| i in indices;
      IndicesAreCounted(slots, indices - {i}, ids - {slots[i].id});
    }
  }

  lemma InitializationKeepsNames(r: Registry, n: nat, worktrees: nat -> Place)
    requires Named(r) && InitSaves(r, Names(n), worktrees) != []
    ensures Named(InitSaves(r, Names(n), worktrees)[0])
  {
    var s := InitSaves(r, Names(n), worktrees)[0];
    forall i: nat | i < |s.slots| ensures s.slots[i].id == SlotName(i) {
      assert s.slots[i] == InitSlot(r, Names(n), worktrees, i);
    }
  }

  lemma ConfigurationIsAccepted(r: Registry, m: Manifest)
    requires Named(r) && m.run.editors && !m.editorsReady && |EnabledIndices(r)| >= m.run.maxEditors
    ensures ConfigureEnvironment(m, EnabledIds(r)).Accepted?
  {
    NamedMeansDistinct(r);
    forall i | i in EnabledIndices(r) ensures i < |r.slots| && r.slots[i].id in EnabledIds(r) {
      assert r.slots[i] in r.slots;
    }
    forall i, j | i in EnabledIndices(r) && j in EnabledIndices(r) && i != j ensures r.slots[i].id != r.slots[j].id {
      if i < j { assert r.slots[i].id != r.slots[j].id; } else { assert r.slots[j].id != r.slots[i].id; }
    }
    IndicesAreCounted(r.slots, EnabledIndices(r), EnabledIds(r));
  }

  lemma InitializationStepSyncs(w: World, o: Moment)
    requires w.manifest.run.editors && !w.manifest.editorsReady && w.manifest.anomalies == 0 && WellFormed(w.registry) && Named(w.registry)
    ensures var n := TryInitialize(w, o);
            && WellFormed(n.registry) && Named(n.registry)
            && if Initializes(w, o) then Synced(n) else n.manifest == w.manifest
  {
    hide WellFormed, Synced, EnabledIndices, EnabledIds, ConfigureEnvironment, Step;
    var names := Names(w.manifest.run.maxEditors);
    var saves := InitSaves(w.registry, names, o.worktrees);
    InitIsGood(w.registry, names, o.worktrees);
    if saves != [] {
      InitializationKeepsNames(w.registry, w.manifest.run.maxEditors, o.worktrees);
      assert saves == [saves[0]] && After(w.registry, saves, o.attempt.life) == if o.attempt.life < 1 then w.registry else saves[0];
      if Initializes(w, o) {
        NamedMeansDistinct(saves[0]);
        ConfigurationIsAccepted(saves[0], w.manifest);
        SlottingIs(w.manifest, EnvironmentConfigured(EnabledIds(saves[0])));
        InitializationSyncs(w.registry, names, o.worktrees, w.manifest);
      }
    }
  }

  // ----- acquisition and release -----

  lemma AcquisitionKeepsNames(r: Registry, a: Acquisition, outside: Outside, life: nat)
    requires WellFormed(r) && Named(r)
    ensures Named(After(r, AcquireSaves(r, a, outside).0, life))
  {
    hide WellFormed, AcquireSaves;
    AcquiringMovesOwner(r, a, outside, life);
  }

  lemma ReleaseKeepsNames(r: Registry, a: Release, life: nat)
    requires Named(r)
    ensures Named(After(r, ReleaseSaves(r, a).0, life))
  {
  }

  lemma PendingIsWellFormed(w: World, owner: Owner)
    requires AcquirePending(w, owner)
    ensures WellFormed(w.registry)
  {
  }

  lemma AcquisitionStepSyncs(w: World, owner: Owner, requirement: Requirement, place: Place, o: Moment)
    requires AcquirePending(w, owner) && HeldAt(w.registry, owner, place) && Remembering(w.manifest)
    requires Proposed(w.manifest, owner, requirement, place) && Named(w.registry)
    ensures var n := TryAcquire(w, Wanted(owner, place, o), o.outside, requirement, o.attempt);
            && Named(n.registry)
            && if Completes(w, Wanted(owner, place, o), o.outside, o.attempt) then Synced(n)
               else n.manifest == w.manifest && AcquirePending(n, owner) && HeldAt(n.registry, owner, place)
  {
    hide AcquireSaves, AcquirePending, HeldAt, Proposed, Synced, TellAcquired, WellFormed, Remembering;
    var a := Wanted(owner, place, o);
    PendingIsWellFormed(w, owner);
    AcquisitionKeepsNames(w.registry, a, o.outside, o.attempt.life);
    AttemptKeepsPending(w, a, o.outside, requirement, o.attempt);
    AcquiringKeepsPlace(w.registry, a, o.outside, o.attempt.life);
    if Completes(w, a, o.outside, o.attempt) {
      CompletedAcquisitionSyncs(w, a, o.outside, requirement, o.attempt);
    }
  }

  lemma ReleaseStepSyncs(w: World, id: SlotId, lease: Lease, o: Moment)
    requires ReleasePending(w, id, lease) && ReleaseProposed(w.manifest, id, lease) && Named(w.registry)
    ensures var n := TryRelease(w, id, lease, false, o.clean, o.attempt);
            && Named(n.registry)
            && if ReleaseCompletes(w, lease, o.clean, o.attempt) then Synced(n) else n.manifest == w.manifest && ReleasePending(n, id, lease)
  {
    hide ReleaseSaves, ReleasePending, ReleaseProposed, Synced, TellReleased;
    ReleaseKeepsNames(w.registry, Release(lease.owner, Some(lease.id), false, o.clean), o.attempt.life);
    ReleaseAttemptSyncs(w, id, lease, false, o.clean, o.attempt);
  }

  // ----- main result -----

  lemma SteppingRemembers(choose: Choice, w: World, o: Moment)
    requires Remembering(w.manifest)
    ensures Remembering(StepOnce(choose, w, o).manifest)
  {
    hide Remembering, Step, AcquireSaves, ReleaseSaves, InitSaves, Initializes;
    forall e | Step(w.manifest, e).Accepted? ensures Remembering(Step(w.manifest, e).m) { StepKeeps(w.manifest, e); }
  }

  /** A run of `step` that goes through leaves both tables the same. One that does not leaves the
      manifest as it was, so that `step` is told to do the same again, and the tables differing at
      most in what that is about. */
  lemma StepRecovers(choose: Choice, w: World, o: Moment)
    requires Plans(choose) && Recoverable(choose, w) && Named(w.registry) && Remembering(w.manifest)
    ensures var n := StepOnce(choose, w, o);
            && Named(n.registry) && Recoverable(choose, n) && Remembering(n.manifest)
            && if GoesThrough(choose, w, o) then Synced(n) else n.manifest == w.manifest
  {
    hide TryInitialize, TryAcquire, TryRelease, Initializes, Completes, ReleaseCompletes, Synced, AcquirePending, ReleasePending, HeldAt, WellFormed, Named, Remembering;
    assert Offers(w.manifest, choose(w.manifest));
    match choose(w.manifest) {
      case Initialize => InitializationStepSyncs(w, o);
      case AcquireFor(owner, requirement, place) => AcquisitionStepSyncs(w, owner, requirement, place, o);
      case ReleaseLease(id, lease) => ReleaseStepSyncs(w, id, lease, o);
      case NoSlotAction =>
    }
    var n := StepOnce(choose, w, o);
    SteppingRemembers(choose, w, o);
    if GoesThrough(choose, w, o) { SyncedIsRecoverable(choose, n); }
  }

  /** A run of the adapter, or an event of the controller that is not about slots. */
  datatype Happening = Stepping(moment: Moment) | Telling(event: Event)

  function Happen(choose: Choice, w: World, h: Happening): World {
    match h
    case Stepping(o) => StepOnce(choose, w, o)
    case Telling(e) => var answer := Step(w.manifest, e); if answer.Accepted? then w.(manifest := answer.m) else w
  }

  function HappenAll(choose: Choice, w: World, hs: seq<Happening>): World
    decreases |hs|
  {
    if hs == [] then w else HappenAll(choose, Happen(choose, w, hs[0]), hs[1..])
  }

  predicate Interrupted(choose: Choice, w: World, h: Happening, pending: bool) {
    if h.Stepping? then !GoesThrough(choose, w, h.moment) else pending
  }

  /** The second command is about the same slots and the same lease as the first, and a lease whose
      slot is in use already is where the second one wants it. */
  ghost predicate TaskRemains(r: Registry, a: Command, b: Command) {
    match a
    case AcquireFor(owner, _, _) => b.AcquireFor? && b.owner == owner && HeldAt(r, owner, b.place)
    case _ => a == b
  }

  /** Slots are the adapter's business alone, and whatever the controller is told between an
      interrupted `step` and its re-run, the planner still wants the same of the adapter after it. */
  ghost predicate Orderly(choose: Choice, w: World, hs: seq<Happening>, pending: bool)
    decreases |hs|
  {
    hs == [] ||
    (&& (hs[0].Telling? ==> !hs[0].event.action.Slotting?)
     && (hs[0].Telling? && pending ==> TaskRemains(w.registry, choose(w.manifest), choose(Happen(choose, w, hs[0]).manifest)))
     && Orderly(choose, Happen(choose, w, hs[0]), hs[1..], Interrupted(choose, w, hs[0], pending)))
  }

  function PendingAfter(choose: Choice, w: World, hs: seq<Happening>, pending: bool): bool
    decreases |hs|
  {
    if hs == [] then pending else PendingAfter(choose, Happen(choose, w, hs[0]), hs[1..], Interrupted(choose, w, hs[0], pending))
  }

  /** As far as slots go, `n` is the same manifest as `m`. */
  predicate SameTable(m: Manifest, n: Manifest) {
    n.slots == m.slots && n.run == m.run && n.editorsReady == m.editorsReady
  }

  lemma OtherActionsKeepSlots(m: Manifest, a: Action)
    requires Handle(m, a).Accepted? && !a.Slotting?
    ensures SameTable(m, Handle(m, a).m)
  {
    hide PlanningEvents.HandlePlanning, GateEvents.HandleGates, PhaseEvents.HandlePhases, HandleSlots,
         DeliveryEvents.HandleDelivery, FinalizationEvents.HandleFinalization, CompleteRun;
  }

  lemma OtherEventsKeepSlots(m: Manifest, e: Event)
    requires Step(m, e).Accepted? && !e.action.Slotting?
    ensures SameTable(m, Step(m, e).m)
  {
    hide Handle;
    OtherActionsKeepSlots(m, e.action);
  }

  lemma SameSlotsStaySynced(w: World, m: Manifest)
    requires SameTable(w.manifest, m)
    ensures Synced(w.(manifest := m)) <==> Synced(w)
    ensures forall owner :: AcquirePending(w.(manifest := m), owner) <==> AcquirePending(w, owner)
    ensures forall id, lease :: ReleasePending(w.(manifest := m), id, lease) <==> ReleasePending(w, id, lease)
  {
    var n := w.(manifest := m);
    forall i | 0 <= i < |w.registry.slots| ensures TableEntry(n, i) == TableEntry(w, i) {
    }
  }

  /** Tables that differ do so in one lease, which was either acquired or released. */
  lemma OneLeaseIsOutstanding(w: World, a: Command, b: Command)
    requires !Synced(w) && DiffersOnlyIn(w, a) && DiffersOnlyIn(w, b) && !a.Initialize? && !b.Initialize?
    ensures TaskRemains(w.registry, a, b)
  {
    var i :| 0 <= i < |w.registry.slots| && TableEntry(w, i) != w.registry.slots[i].lease;
  }

  /** With the tables apart and the slots left alone, the adapter can recover from another manifest
      exactly when the planner wants the same of it there, with a slot in use at the same place. */
  lemma RecoverableExactly(choose: Choice, w: World, m: Manifest)
    requires Plans(choose) && Named(w.registry) && Recoverable(choose, w) && !Synced(w) && SameTable(w.manifest, m)
    ensures Recoverable(choose, w.(manifest := m)) <==> TaskRemains(w.registry, choose(w.manifest), choose(m))
  {
    hide Synced, AcquirePending, ReleasePending, HeldAt, Named, MayAcquire, PlannedAt, FinalVerificationDue, StillNeeds;
    var n, a, b := w.(manifest := m), choose(w.manifest), choose(m);
    assert Offers(w.manifest, a) && Offers(m, b);
    SameSlotsStaySynced(w, m);
    if Recoverable(choose, n) && !a.Initialize? && !b.Initialize? {
      OneLeaseIsOutstanding(w, a, b);
    }
  }

  lemma HappeningRecovers(choose: Choice, w: World, h: Happening, pending: bool)
    requires Plans(choose) && Named(w.registry) && Remembering(w.manifest) && Recoverable(choose, w) && (pending || Synced(w))
    requires h.Telling? ==> !h.event.action.Slotting?
    requires h.Telling? && pending ==> TaskRemains(w.registry, choose(w.manifest), choose(Happen(choose, w, h).manifest))
    ensures var n := Happen(choose, w, h);
            Named(n.registry) && Remembering(n.manifest) && Recoverable(choose, n) && (Interrupted(choose, w, h, pending) || Synced(n))
  {
    hide Step, Synced, Recoverable, Named, StepOnce, GoesThrough, TaskRemains, Remembering;
    match h
    case Stepping(o) => StepRecovers(choose, w, o);
    case Telling(e) =>
      if Step(w.manifest, e).Accepted? {
        StepKeeps(w.manifest, e);
        OtherEventsKeepSlots(w.manifest, e);
        SameSlotsStaySynced(w, Step(w.manifest, e).m);
        if Synced(w) { SyncedIsRecoverable(choose, Happen(choose, w, h)); } else { RecoverableExactly(choose, w, Step(w.manifest, e).m); }
      }
  }

  /** Over any number of initializations, acquisitions, releases and other events, with the adapter
      dying wherever it may and being re-run, the tables agree whenever its last run went through. */
  lemma {:induction false} TablesStayInStep(choose: Choice, w: World, hs: seq<Happening>, pending: bool)
    requires Plans(choose) && Named(w.registry) && Remembering(w.manifest) && Recoverable(choose, w) && (pending || Synced(w)) && Orderly(choose, w, hs, pending)
    ensures var n := HappenAll(choose, w, hs);
            Recoverable(choose, n) && (PendingAfter(choose, w, hs, pending) || Synced(n))
    decreases |hs|
  {
    hide Happen, Interrupted, Synced, Recoverable, Named, TaskRemains, Remembering;
    if hs != [] {
      HappeningRecovers(choose, w, hs[0], pending);
      TablesStayInStep(choose, Happen(choose, w, hs[0]), hs[1..], Interrupted(choose, w, hs[0], pending));
    }
  }
}
