/** Editors are never oversubscribed: at every moment of every run each queued or running phase
    that needs an editor owns a leased slot, and no more slots are leased than the limit. */
module EditorPool {
  import opened Prelude
  import opened Manifest
  import opened PlanningEvents
  import opened GateEvents
  import opened PhaseEvents
  import opened SlotEvents
  import opened DeliveryEvents
  import opened FinalizationEvents
  import opened Events
  import Effects

  /** The phases that are using an editor right now. */
  function EditorPhases(m: Manifest): set<PhaseKey> {
    set p | p in m.phases && Launched(m.phases[p].launch) && !m.phases[p].requirement.NoEditor?
  }

  ghost predicate PoolBounded(m: Manifest) {
    && |LeasedSlots(m)| <= m.run.maxEditors
    && (forall p :: p in EditorPhases(m) ==> HoldsSlot(m, OfPhase(p)))
    && (!m.editorsReady ==> LeasedSlots(m) == {})
  }

  // ----- counting -----

  function Backing(m: Manifest, ps: set<PhaseKey>): set<SlotId> {
    set s | s in m.slots && m.slots[s].Some? && m.slots[s].value.owner.OfPhase? && m.slots[s].value.owner.key in ps
  }

  lemma {:induction false} OwnersAreBacked(m: Manifest, ps: set<PhaseKey>)
    requires forall p :: p in ps ==> HoldsSlot(m, OfPhase(p))
    ensures |ps| <= |Backing(m, ps)|
    decreases ps
  {
    if ps != {} {
      var p :| p in ps;
      OwnersAreBacked(m, ps - {p});
      var s :| s in m.slots && Leases(m, s, OfPhase(p));
      var rest := Backing(m, ps - {p});
      assert s !in rest && rest + {s} <= Backing(m, ps);
      Within(rest + {s}, Backing(m, ps));
    }
  }

  /** No more phases use an editor at the same time than there may be editors. */
  lemma EditorPhasesAreBounded(m: Manifest)
    requires PoolBounded(m)
    ensures |EditorPhases(m)| <= |LeasedSlots(m)| <= m.run.maxEditors
  {
    OwnersAreBacked(m, EditorPhases(m));
    Within(Backing(m, EditorPhases(m)), LeasedSlots(m));
  }

  // ----- one event -----

  /** With the slot table untouched it is enough that no phase starts. */
  lemma SettledPoolKeeps(m: Manifest, n: Manifest)
    requires PoolBounded(m) && StartsNone(m.phases, n.phases)
    requires n.slots == m.slots && n.run == m.run && n.editorsReady == m.editorsReady
    ensures PoolBounded(n)
  {
    assert LeasedSlots(n) == LeasedSlots(m);
    forall p | p in EditorPhases(n) ensures HoldsSlot(n, OfPhase(p)) {
      assert p in EditorPhases(m);
      var s :| s in m.slots && Leases(m, s, OfPhase(p));
      assert Leases(n, s, OfPhase(p));
    }
  }

  lemma StartingKeeps(m: Manifest, n: Manifest, p: PhaseKey)
    requires PoolBounded(m)
    requires n.slots == m.slots && n.run == m.run && n.editorsReady == m.editorsReady
    requires forall q :: q in EditorPhases(n) && q != p ==> q in EditorPhases(m)
    requires p in EditorPhases(n) ==> HoldsSlot(m, OfPhase(p))
    ensures PoolBounded(n)
  {
    assert LeasedSlots(n) == LeasedSlots(m);
    forall q | q in EditorPhases(n) ensures HoldsSlot(n, OfPhase(q)) {
      var s :| s in m.slots && Leases(m, s, OfPhase(q));
      assert Leases(n, s, OfPhase(q));
    }
  }

  lemma LaunchKeeps(m: Manifest, p: PhaseKey, launch: LaunchState, thread: Option<Reference>, client: Option<Reference>, reconciled: bool)
    requires PoolBounded(m) && ObserveLaunch(m, p, launch, thread, client, reconciled).Accepted?
    ensures PoolBounded(ObserveLaunch(m, p, launch, thread, client, reconciled).m)
  {
    hide PoolBounded;
    var n := ObserveLaunch(m, p, launch, thread, client, reconciled).m;
    StartingKeeps(m, n, p);
  }

  lemma ResumptionKeeps(m: Manifest, p: PhaseKey, thread: Option<Reference>, g: GateId)
    requires PoolBounded(m) && ResumePhase(m, p, thread, g).Accepted?
    ensures PoolBounded(ResumePhase(m, p, thread, g).m)
  {
    hide PoolBounded, FirstGateOf, OrdinaryChanges;
    StartingKeeps(m, ResumePhase(m, p, thread, g).m, p);
  }

  lemma HoldersLease(m: Manifest, owner: Owner)
    ensures HoldsSlot(m, owner) ==> LeasedSlots(m) != {}
  {
    if HoldsSlot(m, owner) {
      var s :| s in m.slots && Leases(m, s, owner);
      assert s in LeasedSlots(m);
    }
  }

  lemma ConfigurationKeeps(m: Manifest, slotIds: set<SlotId>)
    requires PoolBounded(m) && ConfigureEnvironment(m, slotIds).Accepted?
    ensures PoolBounded(ConfigureEnvironment(m, slotIds).m)
  {
    var n := ConfigureEnvironment(m, slotIds).m;
    assert LeasedSlots(n) == {};
    forall p ensures p !in EditorPhases(n) {
      HoldersLease(m, OfPhase(p));
      assert EditorPhases(n) == EditorPhases(m);
    }
  }

  lemma AcquisitionKeeps(m: Manifest, owner: Owner, slot: SlotId, lease: Reference, requirement: Requirement, expected: Commit, observed: Place)
    requires PoolBounded(m) && AcquireSlot(m, owner, slot, lease, requirement, expected, observed).Accepted?
    ensures PoolBounded(AcquireSlot(m, owner, slot, lease, requirement, expected, observed).m)
  {
    var n := AcquireSlot(m, owner, slot, lease, requirement, expected, observed).m;
    assert LeasedSlots(n) == LeasedSlots(m) + {slot};
    forall p | p in EditorPhases(n) ensures HoldsSlot(n, OfPhase(p)) {
      assert p in EditorPhases(m);
      var s :| s in m.slots && Leases(m, s, OfPhase(p));
      assert Leases(n, s, OfPhase(p));
    }
  }

  lemma ReleaseKeeps(m: Manifest, owner: Owner, slot: SlotId, lease: Reference)
    requires PoolBounded(m) && ReleaseSlot(m, owner, slot, lease).Accepted?
    ensures PoolBounded(ReleaseSlot(m, owner, slot, lease).m)
  {
    var n := ReleaseSlot(m, owner, slot, lease).m;
    assert LeasedSlots(n) == LeasedSlots(m) - {slot};
    forall p | p in EditorPhases(n) ensures HoldsSlot(n, OfPhase(p)) {
      assert p in EditorPhases(m) && ActivePhase(m.phases[p].launch);
      var s :| s in m.slots && Leases(m, s, OfPhase(p));
      assert s != slot;
      assert Leases(n, s, OfPhase(p));
    }
  }

  lemma SlotsKeep(m: Manifest, a: SlotsAction)
    requires PoolBounded(m) && HandleSlots(m, a).Accepted?
    ensures PoolBounded(HandleSlots(m, a).m)
  {
    hide PoolBounded, ConfigureEnvironment, AcquireSlot, ReleaseSlot;
    match a
    case EnvironmentConfigured(slotIds) => ConfigurationKeeps(m, slotIds);
    case SlotAcquired(owner, slot, lease, requirement, expected, observed) => AcquisitionKeeps(m, owner, slot, lease, requirement, expected, observed);
    case SlotReleased(owner, slot, lease) => ReleaseKeeps(m, owner, slot, lease);
  }

  lemma GatesKeep(m: Manifest, a: GatesAction)
    requires PoolBounded(m) && HandleGates(m, a).Accepted?
    ensures PoolBounded(HandleGates(m, a).m)
  {
    hide PoolBounded, PhasesPersist, StartsNone, RearmsNone, OpensAtMost, Closes, RequestInput, AnnounceGate, ResolveGate, ProvideInput, ResumePhase;
    if a.PhaseResumed? {
      ResumptionKeeps(m, a.p, a.thread, a.g);
    } else {
      Effects.GatesPersist(m, a);
      SettledPoolKeeps(m, HandleGates(m, a).m);
    }
  }

  lemma PhasesKeep(m: Manifest, a: PhasesAction)
    requires PoolBounded(m) && HandlePhases(m, a).Accepted?
    ensures PoolBounded(HandlePhases(m, a).m)
  {
    hide PoolBounded, StartsNone, RearmsNone, OpensAtMost, DispatchPhase, ObserveLaunch, RecordCompletion, TerminatePhase, ReclassifyAcceptance;
    if a.LaunchObserved? {
      LaunchKeeps(m, a.p, a.launch, a.thread, a.client, a.reconciled);
    } else {
      Effects.PhasesPersisted(m, a);
      SettledPoolKeeps(m, HandlePhases(m, a).m);
    }
  }

  lemma HandleKeeps(m: Manifest, a: Action)
    requires PoolBounded(m) && Handle(m, a).Accepted?
    ensures PoolBounded(Handle(m, a).m)
  {
    hide PoolBounded, StartsNone, RearmsNone, PhasesPersist, HandlePlanning, HandleGates, HandlePhases, HandleSlots, HandleDelivery, HandleFinalization, CompleteRun;
    assert StartsNone(m.phases, m.phases) by { Effects.PhasesStay(m.phases); }
    match a
    case Planning(x) => Effects.PlanningSettles(m, x); SettledPoolKeeps(m, HandlePlanning(m, x).m);
    case Gating(x) => GatesKeep(m, x);
    case Phasing(x) => PhasesKeep(m, x);
    case Slotting(x) => SlotsKeep(m, x);
    case Delivering(x) => Effects.DeliverySettles(m, x); SettledPoolKeeps(m, HandleDelivery(m, x).m);
    case Finalizing(x) => Effects.FinalizationSettles(m, x); SettledPoolKeeps(m, HandleFinalization(m, x).m);
    case _ => SettledPoolKeeps(m, Handle(m, a).m);
  }
}
