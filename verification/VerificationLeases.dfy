/** Interrupted acquisitions for verifications. Here the place at which the editor is wanted can move
    while the planner goes on proposing the acquisition, and a slot that the manager has in use
    already stays where it is. */
module VerificationLeases {
  import opened Prelude
  import opened Manifest
  import opened PlanningEvents
  import opened GateEvents
  import opened PhaseEvents
  import opened SlotEvents
  import opened DeliveryEvents
  import opened FinalizationEvents
  import opened Events
  import opened SlotRegistry
  import opened SlotAdapter
  import opened SlotSteps
  import opened PhaseHistory
  import opened Aftermath
  import opened Places
  import opened StrandedLeases

  // ----- what a slot in use elsewhere means -----

  lemma OnlySlot(r: Registry, owner: Owner, i: nat)
    requires WellFormed(r) && i < |r.slots| && Owns(r.slots[i], owner)
    ensures Owned(r.slots, owner) == Some(i)
  {
    var own := Owned(r.slots, owner);
    assert own.value == i;
  }

  lemma AcquiredAlready(r: Registry, a: Acquisition, outside: Outside)
    requires WellFormed(r) && UsesSlot(r, a.owner)
    ensures var own := Owned(r.slots, a.owner); own.Some? && AcquireSaves(r, a, outside) == ([], AlreadyAcquired(own.value))
  {
    var i :| 0 <= i < |r.slots| && Owns(r.slots[i], a.owner) && r.slots[i].status.InUse?;
    OnlySlot(r, a.owner, i);
  }

  lemma UnexpectedIsRefused(m: Manifest, s: Slot, lease: Lease, requirement: Requirement, expected: Commit)
    requires !Expects(m, lease.owner, s.place) && !(s.id in m.slots && m.slots[s.id] == Some(lease))
    ensures TellAcquired(m, s, lease, requirement, expected) == m
  {
    hide Step, Expects, MayAcquire, LeasedSlots;
    SlottingIs(m, SlotAcquired(lease.owner, s.id, lease.id, requirement, expected, s.place));
  }

  /** While the owner's slot is in use at one place and expected at another, every attempt to acquire
      it comes to nothing: the manager answers that it is acquired, and the controller refuses it. */
  lemma MovedLeaseIsRefused(w: World, a: Acquisition, outside: Outside, requirement: Requirement, t: Attempt, place: Place)
    requires WellFormed(w.registry) && !HoldsSlot(w.manifest, a.owner) && UsesSlot(w.registry, a.owner) && HeldAt(w.registry, a.owner, place)
    requires !Expects(w.manifest, a.owner, place)
    ensures TryAcquire(w, a, outside, requirement, t) == w
  {
    hide AcquireSaves, Expects, TellAcquired, HoldsSlot;
    AcquiredAlready(w.registry, a, outside);
    var s := w.registry.slots[Owned(w.registry.slots, a.owner).value];
    var lease := s.lease.value;
    assert s.place == place by { OnlyUse(w.registry, a.owner, place); }
    assert !(s.id in w.manifest.slots && w.manifest.slots[s.id] == Some(lease)) by { UntoldIsNotShown(w.manifest, s.id, lease); }
    UnexpectedIsRefused(w.manifest, s, lease, requirement, a.place.head);
  }

  lemma UntoldIsNotShown(m: Manifest, id: SlotId, lease: Lease)
    requires !HoldsSlot(m, lease.owner)
    ensures !(id in m.slots && m.slots[id] == Some(lease))
  {
    assert id in m.slots ==> !Leases(m, id, lease.owner);
  }

  lemma OnlyUse(r: Registry, owner: Owner, place: Place)
    requires WellFormed(r) && UsesSlot(r, owner) && HeldAt(r, owner, place)
    ensures var own := Owned(r.slots, owner); own.Some? && r.slots[own.value].place == place
  {
    var i :| 0 <= i < |r.slots| && Owns(r.slots[i], owner) && r.slots[i].status.InUse?;
    OnlySlot(r, owner, i);
  }

  // ----- the final verification -----

  /** The event makes a ticket of the run unfinished again. */
  predicate Reopens(m: Manifest, a: Action) {
    exists t :: t in m.tickets && !TerminalTicket(StandingAfter(m, a, t).status)
  }

  /** The event takes finalization away from the verification of its pull request. */
  predicate LeavesFinalVerification(m: Manifest, a: Action) {
    || Reopens(m, a)
    || (a.Phasing? && a.phasing.PhaseCompleted? && a.phasing.p in m.phases && m.phases[a.phasing.p].kind.FinalRemediation?)
    || (a.Finalizing? && (a.finalizing.DryRunEvidence? || (a.finalizing.FinalizationStarted? && a.finalizing.requirement.NoEditor?)
                          || (a.finalizing.FinalPrRecorded? && a.finalizing.draft)))
  }

  /** The head of the final pull request after the event. */
  function FinalHeadAfter(m: Manifest, a: Action): Commit
    requires m.final.pr.Some?
  {
    if a.Finalizing? && (a.finalizing.FinalPrRecorded? || a.finalizing.FinalHeadDrifted?) then a.finalizing.head else m.final.pr.value.head
  }

  /** The pull request is ready to be verified, as far as finalization itself goes. */
  predicate PrAwaitsVerification(f: Finalization) {
    && !(f.status.NotStarted? || f.status.NeedsFinalRemediation? || f.status.FinalVerificationFailed?
         || f.status.AwaitingFeedbackCollection? || f.status.FeedbackCollection? || f.status.AwaitingFinalFindings? || f.status.AwaitingFinalPrUpdate?)
    && f.pr.Some? && !f.pr.value.draft && f.records.verification.None?
  }

  /** An editor is asked for. */
  predicate AsksForEditor(f: Finalization) {
    f.requirement.Some? ==> !f.requirement.value.NoEditor?
  }

  /** What finalization looks like after the event, when it still awaits its verification. */
  predicate GoesOn(m: Manifest, a: Action, f: Finalization) {
    PrAwaitsVerification(f) && AsksForEditor(f) && m.final.pr.Some? && f.pr.value.head == FinalHeadAfter(m, a)
  }

  lemma OpeningGoesOn(m: Manifest, a: FinalizationAction)
    requires PrAwaitsVerification(m.final) && AsksForEditor(m.final) && m.run.editors && !HoldsSlot(m, OfFinalVerification)
    requires HandleFinalization(m, a).Accepted? && OpensFinalPr(a)
    ensures var f := HandleFinalization(m, a).m.final;
            if a.DryRunEvidence? || (a.FinalizationStarted? && a.requirement.NoEditor?) || (a.FinalPrRecorded? && a.draft)
            then !(PrAwaitsVerification(f) && AsksForEditor(f)) else GoesOn(m, Finalizing(a), f)
  {
    hide NoActivePhase, HasCompletedFinalRemediation, HoldsSlot;
    hide DispatchFinalReview, RecordFinalReview, StartFeedback, RecordFeedback, ReconcileFinalFindings,
         DispatchFinalRemediation, RecordFinalEvidence, DriftFinalHead, AuthorizeBaseMerge, MergeIntoBase;
  }

  lemma ReviewingGoesOn(m: Manifest, a: FinalizationAction)
    requires PrAwaitsVerification(m.final) && AsksForEditor(m.final) && HandleFinalization(m, a).Accepted? && !OpensFinalPr(a)
    ensures GoesOn(m, Finalizing(a), HandleFinalization(m, a).m.final)
  {
    hide OnePhase, RecordDryRunEvidence, StartFinalization, RecordFinalPr, RecordRemediationPr, MergeRemediation, RemediateMetadata, MarkFinalPrReady,
         RecordFinalVerification, ClassifyFinalFailure;
  }

  lemma CompletionGoesOn(m: Manifest, p: PhaseKey, report: Report)
    requires PrAwaitsVerification(m.final) && AsksForEditor(m.final) && RecordCompletion(m, p, report).Accepted?
    ensures var f := RecordCompletion(m, p, report).m.final;
            if p in m.phases && m.phases[p].kind.FinalRemediation? then !PrAwaitsVerification(f) else f == m.final
  {
    hide OneTicket, OnePhase, PairCompleted;
  }

  lemma PhasesGoOn(m: Manifest, a: PhasesAction)
    requires PrAwaitsVerification(m.final) && AsksForEditor(m.final) && HandlePhases(m, a).Accepted?
    ensures var f := HandlePhases(m, a).m.final;
            if a.PhaseCompleted? && a.p in m.phases && m.phases[a.p].kind.FinalRemediation? then !PrAwaitsVerification(f) else f == m.final
  {
    hide PrAwaitsVerification, OneTicket, OnePhase, OpensAtMost, DispatchPhase, ObserveLaunch, RecordCompletion, TerminatePhase, ReclassifyAcceptance;
    if a.PhaseCompleted? { CompletionGoesOn(m, a.p, a.report); }
  }

  /** Finalization goes on awaiting its verification exactly unless the event takes it away, and the
      head to verify is then the event's, if it names one. */
  lemma FinalGoesOnExactly(m: Manifest, a: Action)
    requires PrAwaitsVerification(m.final) && AsksForEditor(m.final) && m.run.editors && !HoldsSlot(m, OfFinalVerification)
    requires Handle(m, a).Accepted? && !a.RunCompleted? && !Reopens(m, a)
    ensures var f := Handle(m, a).m.final;
            if LeavesFinalVerification(m, a) then !(PrAwaitsVerification(f) && AsksForEditor(f)) else GoesOn(m, a, f)
  {
    hide PrAwaitsVerification, HandlePlanning, HandleGates, HandlePhases, HandleSlots, HandleDelivery, HandleFinalization, CompleteRun, Reopens, HoldsSlot, AsksForEditor;
    assert m.final.pr.Some? by { AwaitedPrIsOpen(m.final); }
    if a.Finalizing? {
      if OpensFinalPr(a.finalizing) { OpeningGoesOn(m, a.finalizing); } else { ReviewingGoesOn(m, a.finalizing); }
    } else if a.Phasing? {
      PhasesGoOn(m, a.phasing);
    } else {
      assert Handle(m, a).m.final == m.final;
    }
  }

  lemma AwaitedPrIsOpen(f: Finalization)
    requires PrAwaitsVerification(f)
    ensures f.pr.Some?
  {
  }

  lemma FinalProposal(m: Manifest, requirement: Requirement, place: Place)
    requires Proposed(m, OfFinalVerification, requirement, place)
    ensures SlotsInUse(m) && PrAwaitsVerification(m.final) && AsksForEditor(m.final) && place == Detached(m.final.pr.value.head)
    ensures !HoldsSlot(m, OfFinalVerification) && |LeasedSlots(m)| < m.run.maxEditors
    ensures forall t :: t in m.tickets ==> TerminalTicket(m.tickets[t].status)
  {
    hide HoldsSlot, LeasedSlots;
  }

  /** The planner may propose the acquisition, with the requirement that finalization has now. */
  predicate FinalProposed(m: Manifest) {
    && SlotsInUse(m) && PrAwaitsVerification(m.final) && AsksForEditor(m.final)
    && !HoldsSlot(m, OfFinalVerification) && |LeasedSlots(m)| < m.run.maxEditors
    && forall t :: t in m.tickets ==> TerminalTicket(m.tickets[t].status)
  }

  /** A requirement that the planner may name. */
  function FinalNeeds(f: Finalization): Requirement {
    if f.requirement.Some? then f.requirement.value else EditorRead
  }

  lemma FinalIsProposed(m: Manifest)
    requires FinalProposed(m)
    ensures m.final.pr.Some? && Proposed(m, OfFinalVerification, FinalNeeds(m.final), Detached(m.final.pr.value.head))
  {
    hide HoldsSlot, LeasedSlots;
  }

  lemma ReopenedExactly(m: Manifest, a: Action)
    requires Handle(m, a).Accepted?
    ensures Reopens(m, a) <==> exists t :: t in m.tickets && t in Handle(m, a).m.tickets && !TerminalTicket(Handle(m, a).m.tickets[t].status)
  {
    hide Handle, StandingAfter, TerminalTicket;
    forall t | t in m.tickets ensures t in Handle(m, a).m.tickets && Handle(m, a).m.tickets[t].status == StandingAfter(m, a, t).status {
      StandingAfterIs(m, a, t);
    }
  }

  lemma FinalProposalGoesOnExactly(m: Manifest, a: Action)
    requires FinalProposed(m) && Handle(m, a).Accepted? && !a.Slotting?
    ensures m.final.pr.Some?
    ensures FinalProposed(Handle(m, a).m) <==> !StopsSlotWork(m, a) && !LeavesFinalVerification(m, a)
    ensures FinalProposed(Handle(m, a).m) ==> Handle(m, a).m.final.pr == Some(FinalPr(FinalHeadAfter(m, a), false))
  {
    assert m.run.editors;
    hide Handle, Excess, SlotsInUse, HoldsSlot, LeasedSlots, AsksForEditor, TerminalTicket, StandingAfter;
    var n := Handle(m, a).m;
    SlotWorkGoesOnExactly(m, a);
    OtherActionsKeepSlots(m, a);
    SameTableHolds(m, n, OfFinalVerification);
    ReopenedExactly(m, a);
    TicketsStay(m, a);
    if !Reopens(m, a) && !a.RunCompleted? { FinalGoesOnExactly(m, a); }
  }

  /** After an accepted event, the interrupted acquisition for the final verification can be taken up
      again exactly unless the event opens a cost anomaly, ends the run, takes finalization away from
      this verification, or moves the head while the manager has the slot in use at the old one. */
  lemma FinalAcquisitionStrandsExactly(choose: Choice, w: World, a: Action)
    requires Plans(choose) && Named(w.registry) && Recoverable(choose, w) && !Synced(w)
    requires choose(w.manifest).AcquireFor? && choose(w.manifest).owner == OfFinalVerification
    requires Handle(w.manifest, a).Accepted? && !a.Slotting?
    ensures w.manifest.final.pr.Some?
    ensures CanRecover(w, choose(w.manifest), Handle(w.manifest, a).m)
       <==> && !StopsSlotWork(w.manifest, a) && !LeavesFinalVerification(w.manifest, a)
            && (UsesSlot(w.registry, OfFinalVerification) ==> FinalHeadAfter(w.manifest, a) == w.manifest.final.pr.value.head)
  {
    hide Handle, StopsSlotWork, LeavesFinalVerification, CanRecover, Synced, Named, SlotsInUse, HeldAt, LeasedSlots, HoldsSlot, UsesSlot;
    hide PrAwaitsVerification, AsksForEditor;
    var m, n, command := w.manifest, Handle(w.manifest, a).m, choose(w.manifest);
    assert Offers(m, command);
    FinalProposal(m, command.requirement, command.place);
    FinalProposalGoesOnExactly(m, a);
    OtherActionsKeepSlots(m, a);
    RecoversExactly(choose, w, n);
    HeldElsewhereExactly(w.registry, OfFinalVerification, command.place, Detached(FinalHeadAfter(m, a)));
    if FinalProposed(n) {
      FinalIsProposed(n);
      var again := AcquireFor(OfFinalVerification, FinalNeeds(n.final), Detached(FinalHeadAfter(m, a)));
      assert Offers(n, again);
      assert HeldAt(w.registry, OfFinalVerification, again.place) ==> TaskRemains(w.registry, command, again);
    }
    if MayBeAskedAgain(w, command, n) {
      var again :| TaskRemains(w.registry, command, again) && Offers(n, again);
      FinalProposal(n, again.requirement, again.place);
    }
  }

  // ----- the verification of a ticket -----

  /** The planner may propose the acquisition, at whatever place it is due. */
  predicate TicketProposed(m: Manifest, t: TicketId) {
    && SlotsInUse(m) && t in m.tickets && AwaitsVerification(m.tickets[t].status)
    && m.tickets[t].records.execution.Some? && !m.tickets[t].records.execution.value.verification.NoEditor?
    && !HoldsSlot(m, OfVerification(t)) && |LeasedSlots(m)| < m.run.maxEditors
  }

  /** The place is one at which the planner proposes it. */
  predicate TicketProposedAt(m: Manifest, t: TicketId, place: Place) {
    TicketProposed(m, t) && VerifiedAt(m, t, place)
  }

  lemma TicketProposal(m: Manifest, t: TicketId, requirement: Requirement, place: Place)
    requires Proposed(m, OfVerification(t), requirement, place)
    ensures TicketProposedAt(m, t, place) && requirement == m.tickets[t].records.execution.value.verification
  {
    hide HoldsSlot, LeasedSlots, VerifiedAt, SlotsInUse;
  }

  lemma TicketIsProposed(m: Manifest, t: TicketId, place: Place)
    requires TicketProposedAt(m, t, place)
    ensures Proposed(m, OfVerification(t), m.tickets[t].records.execution.value.verification, place)
  {
    hide HoldsSlot, LeasedSlots, VerifiedAt, SlotsInUse;
  }

  lemma DeliveryKeepsPair(m: Manifest, a: DeliveryAction, t: TicketId)
    requires HandleDelivery(m, a).Accepted? && t in m.tickets && AwaitsVerification(m.tickets[t].status)
    requires AwaitsVerification(DeliveredStanding(m, a, t).status)
    ensures DeliveredStanding(m, a, t).execution == m.tickets[t].records.execution && DeliveredStanding(m, a, t).integrated == m.tickets[t].facts.integrated
  {
    hide OneTicket, OnePhase, OpensAtMost, ScheduleSatisfied, HeadKnown, HoldsSlot;
    hide DispatchPair, RecordVerification, ClassifyFailure, IsolateContinuation, DispatchReview, RecordReview, ReconcileFindings, GrantException, DispatchRemediation, MergeTicket;
  }

  /** A ticket that goes on awaiting its verification keeps its pair and the integrated head. */
  lemma PairIsKept(m: Manifest, a: Action, t: TicketId)
    requires Handle(m, a).Accepted? && t in m.tickets && AwaitsVerification(m.tickets[t].status) && AwaitsVerification(StandingAfter(m, a, t).status)
    ensures StandingAfter(m, a, t).execution == m.tickets[t].records.execution && StandingAfter(m, a, t).integrated == m.tickets[t].facts.integrated
  {
    hide HandlePlanning, HandleGates, HandlePhases, HandleSlots, HandleDelivery, HandleFinalization, CompleteRun;
    hide PlannedStatus, GatedStatus, PhasedStatus, DeliveredStanding;
    if a.Delivering? { DeliveryKeepsPair(m, a.delivering, t); }
  }

  lemma TicketProposalGoesOnExactly(m: Manifest, a: Action, t: TicketId)
    requires TicketProposed(m, t) && Handle(m, a).Accepted? && !a.Slotting?
    ensures TicketProposed(Handle(m, a).m, t) <==> !StopsSlotWork(m, a) && AwaitsVerification(StandingAfter(m, a, t).status)
  {
    hide Handle, StopsSlotWork, SlotsInUse, HoldsSlot, LeasedSlots, StandingAfter;
    SlotWorkGoesOnExactly(m, a);
    OtherActionsKeepSlots(m, a);
    SameTableHolds(m, Handle(m, a).m, OfVerification(t));
    StandingAfterIs(m, a, t);
    if AwaitsVerification(StandingAfter(m, a, t).status) { PairIsKept(m, a, t); }
  }

  /** After an accepted event, the interrupted acquisition for a ticket's verification can be taken up
      again exactly unless the event opens a cost anomaly, ends the run, moves the ticket on, or leaves
      no head to verify or, while the manager has the slot in use, another one. */
  lemma VerificationStrandsExactly(choose: Choice, w: World, a: Action, t: TicketId)
    requires Plans(choose) && Named(w.registry) && Recoverable(choose, w) && !Synced(w)
    requires choose(w.manifest).AcquireFor? && choose(w.manifest).owner == OfVerification(t)
    requires Handle(w.manifest, a).Accepted? && !a.Slotting?
    ensures t in w.manifest.tickets && Known(Handle(w.manifest, a).m, t)
    ensures CanRecover(w, choose(w.manifest), Handle(w.manifest, a).m)
       <==> && !StopsSlotWork(w.manifest, a) && AwaitsVerification(StandingAfter(w.manifest, a, t).status)
            && (if UsesSlot(w.registry, OfVerification(t)) then VerifiedAt(Handle(w.manifest, a).m, t, choose(w.manifest).place)
                else HeadKnown(Handle(w.manifest, a).m, t))
  {
    hide Handle, StopsSlotWork, CanRecover, Synced, Named, SlotsInUse, HeldAt, LeasedSlots, HoldsSlot, UsesSlot, VerifiedAt, HeadKnown, StandingAfter;
    var m, n, command, owner := w.manifest, Handle(w.manifest, a).m, choose(w.manifest), OfVerification(t);
    assert Offers(m, command);
    TicketProposal(m, t, command.requirement, command.place);
    TicketProposalGoesOnExactly(m, a, t);
    StaysKnown(m, a, t);
    OtherActionsKeepSlots(m, a);
    RecoversExactly(choose, w, n);
    KnownHeadHasAPlace(n, t);
    forall place | VerifiedAt(n, t, place) && TicketProposed(n, t) && (UsesSlot(w.registry, owner) ==> place == command.place)
      ensures MayBeAskedAgain(w, command, n)
    {
      TicketIsProposed(n, t, place);
      HeldElsewhereExactly(w.registry, owner, command.place, place);
      var again := AcquireFor(owner, n.tickets[t].records.execution.value.verification, place);
      assert TaskRemains(w.registry, command, again) && Offers(n, again);
    }
    if MayBeAskedAgain(w, command, n) {
      var again :| TaskRemains(w.registry, command, again) && Offers(n, again);
      TicketProposal(n, t, again.requirement, again.place);
      HeldElsewhereExactly(w.registry, owner, command.place, again.place);
    }
  }

  /** The ticket has an execution pair. */
  predicate Known(m: Manifest, t: TicketId) {
    t in m.tickets && m.tickets[t].records.execution.Some?
  }

  lemma StaysKnown(m: Manifest, a: Action, t: TicketId)
    requires Known(m, t) && Handle(m, a).Accepted?
    ensures Known(Handle(m, a).m, t)
  {
    hide Handle, PlannedStatus, GatedStatus, PhasedStatus;
    StandingAfterIs(m, a, t);
  }

  // ----- which events move the head of a ticket -----

  /** The head at which the ticket is verified may depend on the phase. */
  predicate Bears(m: Manifest, p: PhaseKey, t: TicketId)
    requires Known(m, t)
  {
    p in m.phases
    && (p == m.tickets[t].records.execution.value.implementation || (m.phases[p].kind.Remediation? && m.phases[p].ticket == Some(t)))
  }

  /** The event leaves what the phase reported, and whether it is complete, as it was. */
  predicate LeavesReport(m: Manifest, a: Action, p: PhaseKey)
    requires p in m.phases
  {
    PhaseAfter(m, a, p).result == m.phases[p].result && PhaseAfter(m, a, p).launch.Completed? == m.phases[p].launch.Completed?
  }

  lemma RepairsAreKept(m: Manifest, a: Action, t: TicketId, p: PhaseKey)
    requires Handle(m, a).Accepted? && Known(m, t) && forall q :: Bears(m, q, t) ==> LeavesReport(m, a, q)
    ensures CompletedRepair(Handle(m, a).m, p, t) <==> CompletedRepair(m, p, t)
    ensures CompletedRepair(m, p, t) ==> Handle(m, a).m.phases[p].result == m.phases[p].result && Handle(m, a).m.phases[p].base == m.phases[p].base
  {
    hide Handle, Adds;
    if p in m.phases {
      PhaseAfterIs(m, a, p);
      assert Bears(m, p, t) ==> LeavesReport(m, a, p);
    } else {
      AddsExactly(m, a, p);
    }
  }

  lemma UnrepairedHeadIsKept(m: Manifest, a: Action, t: TicketId)
    requires Handle(m, a).Accepted? && Known(m, t) && AwaitsVerification(m.tickets[t].status)
    requires StandingAfter(m, a, t).status == m.tickets[t].status && forall q :: Bears(m, q, t) ==> LeavesReport(m, a, q)
    requires Remembering(m)
    ensures Known(Handle(m, a).m, t) && UnrepairedHead(Handle(m, a).m, t) == UnrepairedHead(m, t)
    ensures Handle(m, a).m.tickets[t].records.execution == m.tickets[t].records.execution
  {
    hide Handle, Adds, StandingAfter, PhaseAfter, Remembering;
    StandingAfterIs(m, a, t);
    PairIsKept(m, a, t);
    var n, p := Handle(m, a).m, m.tickets[t].records.execution.value.implementation;
    if p in m.phases {
      PhaseAfterIs(m, a, p);
      assert Bears(m, p, t);
    } else {
      AddsExactly(m, a, p);
      HandleKeeps(m, a);
      if p in n.phases { EachRemembers(n, p); }
    }
  }

  /** The place at which a ticket is to be verified stays the same unless its status changes, or a
      repair of it or its implementation reports, is completed or is no longer complete. */
  lemma VerifiedPlaceIsKept(m: Manifest, a: Action, t: TicketId, place: Place)
    requires Handle(m, a).Accepted? && Known(m, t) && AwaitsVerification(m.tickets[t].status) && Remembering(m)
    requires StandingAfter(m, a, t).status == m.tickets[t].status && forall q :: Bears(m, q, t) ==> LeavesReport(m, a, q)
    ensures Known(Handle(m, a).m, t) && (VerifiedAt(Handle(m, a).m, t, place) <==> VerifiedAt(m, t, place))
  {
    hide Handle, StandingAfter, LeavesReport, Bears, UnrepairedHead, CompletedRepair, Remembering;
    UnrepairedHeadIsKept(m, a, t);
    forall p ensures CompletedRepair(Handle(m, a).m, p, t) <==> CompletedRepair(m, p, t)
             ensures CompletedRepair(m, p, t) ==> p in m.phases && p in Handle(m, a).m.phases
             ensures CompletedRepair(m, p, t) ==> Handle(m, a).m.phases[p].result == m.phases[p].result && Handle(m, a).m.phases[p].base == m.phases[p].base
    {
      RepairsAreKept(m, a, t, p);
      RepairIsThere(m, p, t);
      RepairIsThere(Handle(m, a).m, p, t);
    }
  }

  lemma RepairIsThere(m: Manifest, p: PhaseKey, t: TicketId)
    ensures CompletedRepair(m, p, t) ==> p in m.phases
  {
  }

  /** A repair that completes after all others with a commit moves the head there. */
  lemma CompletedRepairMovesHead(m: Manifest, p: PhaseKey, report: Report, t: TicketId)
    requires Known(m, t) && RecordCompletion(m, p, report).Accepted? && report.commit.Some?
    requires m.phases[p].kind.Remediation? && m.phases[p].ticket == Some(t) && forall q :: CompletedRepair(m, q, t) ==> !Before(p, q)
    ensures var n := RecordCompletion(m, p, report).m;
            Known(n, t) && AwaitsVerification(n.tickets[t].status) && VerifiedAt(n, t, Place(m.phases[p].base.branch, report.commit.value))
  {
    hide OneTicket, OnePhase, PairCompleted, UnrepairedHead;
    var n := RecordCompletion(m, p, report).m;
    NeverBeforeItself(p);
    assert CompletedRepair(n, p, t) && LatestRepair(n, p, t);
  }
}
