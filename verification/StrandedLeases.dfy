/** What the controller may be told between an interrupted `step` of the slot adapter and its re-run:
    which events leave the manager's half-told acquisition or release to be told again, and which
    strand it until the planner wants the same once more. */
module StrandedLeases {
  import opened Prelude
  import opened Manifest
  import opened PlanningEvents
  import opened GateEvents
  import opened PhaseEvents
  import opened SlotEvents
  import opened DeliveryEvents
  import opened FinalizationEvents
  import opened Events
  import opened SlotRegistry
  import opened SlotAdapter
  import opened SlotSteps
  import opened PhaseHistory
  import opened Aftermath
  import opened Places

  // ----- recovering from another manifest -----

  /** In `m`, some planner that wanted `command` of the adapter in `w` lets it take its work up again. */
  ghost predicate CanRecover(w: World, command: Command, m: Manifest) {
    exists choose: Choice :: Plans(choose) && choose(w.manifest) == command && Recoverable(choose, w.(manifest := m))
  }

  /** The planner may ask in `m` for what is left of the task. */
  ghost predicate MayBeAskedAgain(w: World, command: Command, m: Manifest) {
    exists again :: TaskRemains(w.registry, command, again) && Offers(m, again)
  }

  /** The adapter can take up its work again exactly when the planner may ask for what is left of it. */
  lemma RecoversExactly(choose: Choice, w: World, m: Manifest)
    requires Plans(choose) && Named(w.registry) && Recoverable(choose, w) && !Synced(w) && SameTable(w.manifest, m)
    ensures CanRecover(w, choose(w.manifest), m) <==> MayBeAskedAgain(w, choose(w.manifest), m)
  {
    hide Synced, DiffersOnlyIn, TaskRemains, Offers, Named, SameTable;
    var command := choose(w.manifest);
    if CanRecover(w, command, m) {
      var other: Choice :| Plans(other) && other(w.manifest) == command && Recoverable(other, w.(manifest := m));
      RecoverableExactly(other, w, m);
      assert Offers(m, other(m));
    }
    if MayBeAskedAgain(w, command, m) {
      var again :| TaskRemains(w.registry, command, again) && Offers(m, again);
      var other: Choice := x => if x == m && x != w.manifest then again else choose(x);
      forall x ensures Offers(x, other(x)) {
        assert Offers(x, choose(x));
      }
      RecoverableExactly(other, w, m);
      if m == w.manifest { assert w.(manifest := m) == w; }
      assert Plans(other) && other(w.manifest) == command && Recoverable(other, w.(manifest := m));
    }
  }

  /** The planner's slot work goes on through every event but one that opens an anomaly or ends the run. */
  predicate StopsSlotWork(m: Manifest, a: Action) {
    Excess(m, a) > 0 || a.RunCompleted?
  }

  lemma SlotWorkGoesOnExactly(m: Manifest, a: Action)
    requires SlotsInUse(m) && Handle(m, a).Accepted? && !a.Slotting?
    ensures SlotsInUse(Handle(m, a).m) <==> !StopsSlotWork(m, a)
  {
    hide Handle, Excess;
    OtherActionsKeepSlots(m, a);
    AnomaliesAfter(m, a);
    CompletionAfter(m, a);
  }

  lemma SameTableHolds(m: Manifest, n: Manifest, owner: Owner)
    requires SameTable(m, n)
    ensures HoldsSlot(n, owner) <==> HoldsSlot(m, owner)
    ensures LeasedSlots(n) == LeasedSlots(m)
  {
    forall s | s in m.slots ensures Leases(n, s, owner) <==> Leases(m, s, owner) {
    }
  }

  /** The owner's slot is in use, so that acquiring it again only reports where it is. */
  ghost predicate UsesSlot(r: Registry, owner: Owner) {
    exists i :: 0 <= i < |r.slots| && Owns(r.slots[i], owner) && r.slots[i].status.InUse?
  }

  /** A slot that is in use at one place is not held anywhere else. */
  lemma HeldElsewhereExactly(r: Registry, owner: Owner, place: Place, other: Place)
    requires HeldAt(r, owner, place)
    ensures HeldAt(r, owner, other) <==> (UsesSlot(r, owner) ==> other == place)
  {
    if UsesSlot(r, owner) {
      var i :| 0 <= i < |r.slots| && Owns(r.slots[i], owner) && r.slots[i].status.InUse?;
      assert r.slots[i].place == place;
    }
  }

  // ----- acquisitions for phases -----

  predicate AwaitsSlot(l: LaunchState) {
    l.IntentRecorded? || l.InputReady?
  }

  /** The event moves a phase that awaits its slot on without one. */
  predicate MovesOn(m: Manifest, a: Action, p: PhaseKey)
    requires p in m.phases
  {
    || (a.Phasing? && a.phasing.LaunchObserved? && a.phasing.p == p)
    || (a.Finalizing? && a.finalizing.FinalHeadDrifted? && m.phases[p].kind.FinalReview? && m.phases[p].launch.IntentRecorded?)
  }

  /** The phase waits where it did, or no longer waits. */
  predicate Waits(v: Phase, n: Phase, moves: bool) {
    if moves then !AwaitsSlot(n.launch) else n == v
  }

  lemma PlanningLeavesWaiting(m: Manifest, a: PlanningAction, p: PhaseKey)
    requires HandlePlanning(m, a).Accepted? && p in m.phases && AwaitsSlot(m.phases[p].launch)
    ensures PhaseAfter(m, Planning(a), p) == m.phases[p]
  {
    hide OneTicket, OnePhase, OpensAtMost;
    hide RecordTriage, RecordAnalysis, DecideSpecification, RecordRouteValidation, ReconcileRouteValidation, Consolidate,
         ReconcileReadiness, RecordContractValidation, AmendContract;
  }

  lemma GatesLeaveWaiting(m: Manifest, a: GatesAction, p: PhaseKey)
    requires HandleGates(m, a).Accepted? && p in m.phases && AwaitsSlot(m.phases[p].launch)
    requires !m.phases[p].requirement.NoEditor? && !HoldsSlot(m, OfPhase(p))
    ensures PhaseAfter(m, Gating(a), p) == m.phases[p]
  {
    hide OneTicket, OnlyStatus, Closes, OpensAtMost, RequestInput, AnnounceGate, ResolveGate, HoldsSlot, FirstGateOf;
  }

  lemma UnheldIsUnconfirmed(m: Manifest, p: PhaseKey)
    requires p in m.phases && !HoldsSlot(m, OfPhase(p))
    ensures !LeaseConfirmed(m, p)
  {
  }

  lemma PhasesLeaveWaiting(m: Manifest, a: PhasesAction, p: PhaseKey)
    requires HandlePhases(m, a).Accepted? && p in m.phases && AwaitsSlot(m.phases[p].launch)
    requires !m.phases[p].requirement.NoEditor? && !HoldsSlot(m, OfPhase(p))
    ensures Waits(m.phases[p], PhaseAfter(m, Phasing(a), p), MovesOn(m, Phasing(a), p))
    ensures MovesOn(m, Phasing(a), p) ==> a.launch.Blocked? || a.launch.LaunchUnknown?
  {
    hide OneTicket, OnePhase, OpensAtMost, DispatchAllowed, LeaseConfirmed, HoldsSlot, StopForInput, StopForGood;
    UnheldIsUnconfirmed(m, p);
  }

  lemma DeliveryLeavesWaiting(m: Manifest, a: DeliveryAction, p: PhaseKey)
    requires HandleDelivery(m, a).Accepted? && p in m.phases && AwaitsSlot(m.phases[p].launch)
    ensures PhaseAfter(m, Delivering(a), p) == m.phases[p]
  {
    hide OneTicket, OnePhase, OpensAtMost, DispatchPair, IntegratePair, RecordVerification, ClassifyFailure, IsolateContinuation, DispatchReview,
         ReconcileFindings, GrantException, DispatchRemediation, MergeTicket;
  }

  lemma FinalizationLeavesWaiting(m: Manifest, a: FinalizationAction, p: PhaseKey)
    requires HandleFinalization(m, a).Accepted? && p in m.phases && AwaitsSlot(m.phases[p].launch)
    ensures Waits(m.phases[p], PhaseAfter(m, Finalizing(a), p), MovesOn(m, Finalizing(a), p))
  {
    hide OnePhase, RecordDryRunEvidence, StartFinalization, RecordFinalPr, RecordRemediationPr, MergeRemediation, RemediateMetadata, MarkFinalPrReady,
         RecordFinalVerification, ClassifyFinalFailure, DispatchFinalReview, StartFeedback, RecordFeedback, ReconcileFinalFindings,
         DispatchFinalRemediation, RecordFinalEvidence, DriftFinalHead, AuthorizeBaseMerge, MergeIntoBase;
  }

  /** A phase that awaits a slot the controller does not show goes on as it is, unless its launch is
      reported as blocked or unknown or its final review is superseded. */
  lemma WaitsForItsSlotExactly(m: Manifest, a: Action, p: PhaseKey)
    requires Handle(m, a).Accepted? && !a.Slotting? && p in m.phases && AwaitsSlot(m.phases[p].launch)
    requires !m.phases[p].requirement.NoEditor? && !HoldsSlot(m, OfPhase(p))
    ensures Waits(m.phases[p], PhaseAfter(m, a, p), MovesOn(m, a, p))
    ensures MovesOn(m, a, p) ==> a.Finalizing? || a.phasing.launch.Blocked? || a.phasing.launch.LaunchUnknown?
  {
    hide HandlePlanning, HandleGates, HandlePhases, HandleSlots, HandleDelivery, HandleFinalization, CompleteRun, HoldsSlot;
    match a
    case Planning(x) => PlanningLeavesWaiting(m, x, p);
    case Gating(x) => GatesLeaveWaiting(m, x, p);
    case Phasing(x) => PhasesLeaveWaiting(m, x, p);
    case Delivering(x) => DeliveryLeavesWaiting(m, x, p);
    case Finalizing(x) => FinalizationLeavesWaiting(m, x, p);
    case _ =>
  }

  /** While the acquisition has not reached the controller, its owner holds no slot there. */
  lemma UntoldOwnerHoldsNothing(w: World, owner: Owner)
    requires AcquirePending(w, owner) && !Synced(w)
    ensures !HoldsSlot(w.manifest, owner)
  {
    var i :| 0 <= i < |w.registry.slots| && TableEntry(w, i) != w.registry.slots[i].lease;
    forall id | id in w.manifest.slots ensures !Leases(w.manifest, id, owner) {
      var k :| 0 <= k < |w.registry.slots| && w.registry.slots[k].id == id;
      if k < i { assert !Owns(w.registry.slots[k], owner); }
      if k > i { assert !Owns(w.registry.slots[k], owner); }
    }
  }

  lemma PhaseAcquisitionGoesOnExactly(m: Manifest, a: Action, p: PhaseKey, requirement: Requirement, place: Place)
    requires Proposed(m, OfPhase(p), requirement, place) && Handle(m, a).Accepted? && !a.Slotting?
    ensures p in m.phases
    ensures Proposed(Handle(m, a).m, OfPhase(p), requirement, place) <==> !StopsSlotWork(m, a) && !MovesOn(m, a, p)
    ensures !MovesOn(m, a, p) ==> p in Handle(m, a).m.phases && Handle(m, a).m.phases[p] == m.phases[p]
    ensures MovesOn(m, a, p) ==> p in Handle(m, a).m.phases && !AwaitsSlot(Handle(m, a).m.phases[p].launch)
  {
    hide Handle, StopsSlotWork, SlotsInUse, PhaseAfter, HoldsSlot, LeasedSlots, ResumeHead;
    SlotWorkGoesOnExactly(m, a);
    OtherActionsKeepSlots(m, a);
    SameTableHolds(m, Handle(m, a).m, OfPhase(p));
    PhaseAfterIs(m, a, p);
    WaitsForItsSlotExactly(m, a, p);
  }

  /** After an accepted event, the interrupted acquisition of a phase's lease can be taken up again
      exactly unless the event opens a cost anomaly, ends the run, reports the launch as blocked or
      unknown, or supersedes the phase's final review; those strand the lease. */
  lemma AcquisitionStrandsExactly(choose: Choice, w: World, a: Action, p: PhaseKey)
    requires Plans(choose) && Named(w.registry) && Recoverable(choose, w) && !Synced(w)
    requires choose(w.manifest).AcquireFor? && choose(w.manifest).owner == OfPhase(p)
    requires Handle(w.manifest, a).Accepted? && !a.Slotting?
    ensures p in w.manifest.phases
    ensures CanRecover(w, choose(w.manifest), Handle(w.manifest, a).m) <==> !StopsSlotWork(w.manifest, a) && !MovesOn(w.manifest, a, p)
    ensures MovesOn(w.manifest, a, p) ==> a.Finalizing? || a.phasing.launch.Blocked? || a.phasing.launch.LaunchUnknown?
  {
    hide Handle, StopsSlotWork, MovesOn, CanRecover, Synced, Named, SlotsInUse, HeldAt, LeasedSlots, HoldsSlot, ResumeHead;
    var m, command := Handle(w.manifest, a).m, choose(w.manifest);
    assert Offers(w.manifest, command);
    OtherActionsKeepSlots(w.manifest, a);
    PhaseAcquisitionGoesOnExactly(w.manifest, a, p, command.requirement, command.place);
    WaitsForItsSlotExactly(w.manifest, a, p);
    RecoversExactly(choose, w, m);
    if Proposed(m, OfPhase(p), command.requirement, command.place) {
      assert TaskRemains(w.registry, command, command) && Offers(m, command);
    }
    if MayBeAskedAgain(w, command, m) {
      var again :| TaskRemains(w.registry, command, again) && Offers(m, again);
      assert Proposed(m, OfPhase(p), again.requirement, again.place);
    }
  }

  // ----- releases -----

  predicate HasDone(l: LaunchState) {
    !ActivePhase(l) && !l.InputReady?
  }

  /** The event makes a phase that had done with its slot, or is not there yet, need it. */
  predicate PhaseNeedsAgain(m: Manifest, a: Action, p: PhaseKey) {
    if p !in m.phases then Adds(a, p)
    else
      || (a.Phasing? && a.phasing.LaunchObserved? && a.phasing.p == p && !a.phasing.launch.Blocked?)
      || (a.Gating? && a.gating.InputProvided? && ForPhase(m, a.gating.g, p)
          && (m.gates[a.gating.g].resume.SameThread? || m.gates[a.gating.g].resume.PrelaunchRetry?))
  }

  predicate AwaitsVerification(s: TicketStatus) {
    s.AwaitingVerification? || s.AwaitingRemediationVerification?
  }

  /** The event leaves the final pull request without a verification that it had, or opens it. */
  predicate FinalNeedsAgain(m: Manifest, a: Action) {
    a.Finalizing? &&
    match a.finalizing
    case FinalPrRecorded(_, _) => m.final.status.AwaitingFinalPrUpdate? || m.final.records.verification.None?
    case FinalFailureClassified(_, next) => next.Retry? && m.final.pr.Some?
    case FinalHeadDrifted(_, _) => true
    case _ => false
  }

  /** The event makes an owner that had done with its slot need it again. */
  predicate NeedsAgain(m: Manifest, a: Action, owner: Owner) {
    match owner
    case OfPhase(p) => PhaseNeedsAgain(m, a, p)
    case OfVerification(t) => t in m.tickets && AwaitsVerification(StandingAfter(m, a, t).status)
    case OfFinalVerification => FinalNeedsAgain(m, a)
  }

  lemma PlanningLeavesDone(m: Manifest, a: PlanningAction, p: PhaseKey)
    requires HandlePlanning(m, a).Accepted? && p in m.phases && HasDone(m.phases[p].launch)
    ensures HasDone(PhaseAfter(m, Planning(a), p).launch)
  {
    hide HandlePlanning;
  }

  lemma GatesLeaveDone(m: Manifest, a: GatesAction, p: PhaseKey)
    requires HandleGates(m, a).Accepted? && p in m.phases && HasDone(m.phases[p].launch)
    ensures HasDone(PhaseAfter(m, Gating(a), p).launch) <==> !PhaseNeedsAgain(m, Gating(a), p)
  {
    hide OneTicket, OnlyStatus, Closes, OpensAtMost, RequestInput, AnnounceGate, ResolveGate, HoldsSlot, FirstGateOf;
  }

  lemma PhasesLeaveDone(m: Manifest, a: PhasesAction, p: PhaseKey)
    requires HandlePhases(m, a).Accepted? && p in m.phases && HasDone(m.phases[p].launch)
    ensures HasDone(PhaseAfter(m, Phasing(a), p).launch) <==> !PhaseNeedsAgain(m, Phasing(a), p)
  {
    hide OneTicket, OnePhase, OpensAtMost, DispatchAllowed, LeaseConfirmed, DispatchPhase, RecordCompletion, TerminatePhase, ReclassifyAcceptance;
  }

  lemma HasDoneExactly(m: Manifest, a: Action, p: PhaseKey)
    requires Handle(m, a).Accepted? && p in m.phases && HasDone(m.phases[p].launch)
    ensures HasDone(PhaseAfter(m, a, p).launch) <==> !PhaseNeedsAgain(m, a, p)
  {
    hide HandlePlanning, HandleGates, HandlePhases, HandleSlots, HandleDelivery, HandleFinalization, CompleteRun;
    match a
    case Planning(x) => PlanningLeavesDone(m, x, p);
    case Gating(x) => GatesLeaveDone(m, x, p);
    case Phasing(x) => PhasesLeaveDone(m, x, p);
    case _ =>
  }

  lemma PhaseNeedsExactly(m: Manifest, a: Action, p: PhaseKey)
    requires Handle(m, a).Accepted? && !StillNeeds(m, OfPhase(p))
    ensures StillNeeds(Handle(m, a).m, OfPhase(p)) <==> PhaseNeedsAgain(m, a, p)
  {
    hide Handle, PhaseAfter, Adds;
    if p in m.phases {
      PhaseAfterIs(m, a, p);
      HasDoneExactly(m, a, p);
    } else {
      AddsExactly(m, a, p);
    }
  }

  lemma TicketNeedsExactly(m: Manifest, a: Action, t: TicketId)
    requires Handle(m, a).Accepted? && t in m.tickets
    ensures StillNeeds(Handle(m, a).m, OfVerification(t)) <==> AwaitsVerification(StandingAfter(m, a, t).status)
  {
    hide Handle, StandingAfter;
    StandingAfterIs(m, a, t);
  }

  lemma SameFinal(m: Manifest, n: Manifest)
    requires n.final == m.final
    ensures StillNeeds(n, OfFinalVerification) <==> StillNeeds(m, OfFinalVerification)
  {
  }

  lemma OpeningNeeds(m: Manifest, a: FinalizationAction)
    requires HandleFinalization(m, a).Accepted? && OpensFinalPr(a) && !StillNeeds(m, OfFinalVerification)
    ensures StillNeeds(HandleFinalization(m, a).m, OfFinalVerification) <==> FinalNeedsAgain(m, Finalizing(a))
  {
    hide NoActivePhase, HasCompletedFinalRemediation, HoldsSlot;
    hide DispatchFinalReview, RecordFinalReview, StartFeedback, RecordFeedback, ReconcileFinalFindings,
         DispatchFinalRemediation, RecordFinalEvidence, DriftFinalHead, AuthorizeBaseMerge, MergeIntoBase;
  }

  lemma ReviewingNeeds(m: Manifest, a: FinalizationAction)
    requires HandleFinalization(m, a).Accepted? && !OpensFinalPr(a) && !StillNeeds(m, OfFinalVerification)
    ensures StillNeeds(HandleFinalization(m, a).m, OfFinalVerification) <==> FinalNeedsAgain(m, Finalizing(a))
  {
    hide OnePhase, RecordDryRunEvidence, StartFinalization, RecordFinalPr, RecordRemediationPr, MergeRemediation, RemediateMetadata, MarkFinalPrReady,
         RecordFinalVerification, ClassifyFinalFailure;
  }

  lemma CompletionNeeds(m: Manifest, p: PhaseKey, report: Report)
    requires RecordCompletion(m, p, report).Accepted?
    ensures StillNeeds(RecordCompletion(m, p, report).m, OfFinalVerification) <==> StillNeeds(m, OfFinalVerification)
  {
    hide OneTicket, OnePhase, PairCompleted;
  }

  lemma PhasesNeed(m: Manifest, a: PhasesAction)
    requires HandlePhases(m, a).Accepted?
    ensures StillNeeds(HandlePhases(m, a).m, OfFinalVerification) <==> StillNeeds(m, OfFinalVerification)
  {
    hide StillNeeds, OneTicket, OnePhase, OpensAtMost, DispatchPhase, ObserveLaunch, RecordCompletion, TerminatePhase, ReclassifyAcceptance;
    if a.PhaseCompleted? { CompletionNeeds(m, a.p, a.report); } else { SameFinal(m, HandlePhases(m, a).m); }
  }

  lemma FinalNeedsExactly(m: Manifest, a: Action)
    requires Handle(m, a).Accepted? && !a.RunCompleted? && !StillNeeds(m, OfFinalVerification)
    ensures StillNeeds(Handle(m, a).m, OfFinalVerification) <==> FinalNeedsAgain(m, a)
  {
    hide StillNeeds, HandlePlanning, HandleGates, HandlePhases, HandleSlots, HandleDelivery, HandleFinalization, CompleteRun;
    if a.Finalizing? {
      if OpensFinalPr(a.finalizing) { OpeningNeeds(m, a.finalizing); } else { ReviewingNeeds(m, a.finalizing); }
    } else if a.Phasing? {
      PhasesNeed(m, a.phasing);
    } else {
      SameFinal(m, Handle(m, a).m);
    }
  }

  lemma NeedsExactly(m: Manifest, a: Action, owner: Owner)
    requires Handle(m, a).Accepted? && !a.RunCompleted? && !StillNeeds(m, owner) && (owner.OfVerification? ==> owner.ticket in m.tickets)
    ensures StillNeeds(Handle(m, a).m, owner) <==> NeedsAgain(m, a, owner)
  {
    hide Handle, StillNeeds, PhaseNeedsAgain, FinalNeedsAgain, StandingAfter;
    match owner
    case OfPhase(p) => PhaseNeedsExactly(m, a, p);
    case OfVerification(t) => TicketNeedsExactly(m, a, t);
    case OfFinalVerification => FinalNeedsExactly(m, a);
  }

  /** With a release proposed, made by the manager or not, the planner goes on proposing it exactly
      unless the event opens a cost anomaly, ends the run, or makes the owner need its slot again. */
  lemma ReleaseGoesOnExactly(m: Manifest, a: Action, id: SlotId, lease: Lease)
    requires ReleaseProposed(m, id, lease) && (lease.owner.OfVerification? ==> lease.owner.ticket in m.tickets)
    requires Handle(m, a).Accepted? && !a.Slotting?
    ensures ReleaseProposed(Handle(m, a).m, id, lease) <==> !StopsSlotWork(m, a) && !NeedsAgain(m, a, lease.owner)
  {
    hide Handle, Excess, NeedsAgain, SlotsInUse, StillNeeds;
    SlotWorkGoesOnExactly(m, a);
    OtherActionsKeepSlots(m, a);
    if !a.RunCompleted? { NeedsExactly(m, a, lease.owner); }
  }

  /** After an accepted event, an interrupted release can be taken up again exactly unless the event
      is one of those; they strand the lease at the controller, which the manager has given up. */
  lemma ReleaseStrandsExactly(choose: Choice, w: World, a: Action)
    requires Plans(choose) && Named(w.registry) && Recoverable(choose, w) && !Synced(w) && choose(w.manifest).ReleaseLease?
    requires var owner := choose(w.manifest).lease.owner; owner.OfVerification? ==> owner.ticket in w.manifest.tickets
    requires Handle(w.manifest, a).Accepted? && !a.Slotting?
    ensures CanRecover(w, choose(w.manifest), Handle(w.manifest, a).m)
       <==> !StopsSlotWork(w.manifest, a) && !NeedsAgain(w.manifest, a, choose(w.manifest).lease.owner)
  {
    hide Handle, StopsSlotWork, NeedsAgain, CanRecover, Synced, Named, ReleaseProposed;
    var m, command := Handle(w.manifest, a).m, choose(w.manifest);
    assert Offers(w.manifest, command);
    OtherActionsKeepSlots(w.manifest, a);
    ReleaseGoesOnExactly(w.manifest, a, command.slot, command.lease);
    RecoversExactly(choose, w, m);
    if Offers(m, command) { assert TaskRemains(w.registry, command, command); }
    if MayBeAskedAgain(w, command, m) {
      var again :| TaskRemains(w.registry, command, again) && Offers(m, again);
      assert again == command;
    }
  }

  // ----- any events -----

  function TellAll(m: Manifest, events: seq<Event>): Manifest
    decreases |events|
  {
    if events == [] then m
    else
      var answer := Step(m, events[0]);
      TellAll(if answer.Accepted? then answer.m else m, events[1..])
  }

  lemma {:induction false} TellingKeepsSlots(m: Manifest, events: seq<Event>)
    requires forall e :: e in events ==> !e.action.Slotting?
    ensures SameTable(m, TellAll(m, events))
    decreases |events|
  {
    hide Step;
    if events != [] {
      var answer := Step(m, events[0]);
      if answer.Accepted? { OtherEventsKeepSlots(m, events[0]); }
      TellingKeepsSlots(if answer.Accepted? then answer.m else m, events[1..]);
    }
  }

  /** An interrupted `step` stays interrupted whatever else the controller is told, and the adapter
      can take it up again exactly while the planner wants the same of it, with a slot that is
      already in use at the same place. */
  lemma InterruptedStepWaits(choose: Choice, w: World, events: seq<Event>)
    requires Plans(choose) && Named(w.registry) && Recoverable(choose, w) && !Synced(w)
    requires forall e :: e in events ==> !e.action.Slotting?
    ensures var n := w.(manifest := TellAll(w.manifest, events));
            && !Synced(n)
            && (Recoverable(choose, n) <==> TaskRemains(w.registry, choose(w.manifest), choose(n.manifest)))
  {
    hide Synced, Recoverable, TaskRemains, Step, Named;
    TellingKeepsSlots(w.manifest, events);
    SameSlotsStaySynced(w, TellAll(w.manifest, events));
    RecoverableExactly(choose, w, TellAll(w.manifest, events));
  }
}
