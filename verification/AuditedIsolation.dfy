/** What the audited isolation of a blocked ticket guarantees, and for how long.

    An isolation lets a later ticket start because the isolated one is blocked and nothing of it
    runs. Neither part is final: `HatchIsKeptExactly` says, for every event, when it ends. */
module AuditedIsolation {
  import opened Prelude
  import opened Manifest
  import opened PlanningEvents
  import opened GateEvents
  import opened PhaseEvents
  import opened SlotEvents
  import opened DeliveryEvents
  import opened FinalizationEvents
  import opened Events
  import opened SettledTickets
  import opened Completion
  import opened Progress
  import Effects

  // ----- the isolation itself -----

  /** The isolation record of a ticket is written once and stands. */
  predicate IsolationStands(a: map<TicketId, Ticket>, b: map<TicketId, Ticket>) {
    forall t :: t in a && a[t].records.isolatedFor.Some? ==> t in b && b[t].records.isolatedFor == a[t].records.isolatedFor
  }

  lemma OrdinaryChangesKeepIsolation(c: bool, a: map<TicketId, Ticket>, b: map<TicketId, Ticket>)
    requires OrdinaryChanges(c, a, b)
    ensures IsolationStands(a, b)
  {
  }

  lemma PlanningKeepsIsolation(m: Manifest, a: PlanningAction)
    requires HandlePlanning(m, a).Accepted?
    ensures IsolationStands(m.tickets, HandlePlanning(m, a).m.tickets)
  {
    hide OpensAtMost, OneTicket, OnePhase, OrdinaryChanges, CollisionFree, ValidPlan, ReadyToConsolidate;
    if !a.DependenciesConsolidated? {
      hide IsolationStands, HandlePlanning;
      Effects.PlanningIsOrdinary(m, a);
      OrdinaryChangesKeepIsolation(m.consolidated, m.tickets, HandlePlanning(m, a).m.tickets);
    }
  }

  lemma StatusChangeKeepsIsolation(a: map<TicketId, Ticket>, b: map<TicketId, Ticket>, t: TicketId)
    requires OnlyStatus(a, b, t)
    ensures IsolationStands(a, b)
  {
  }

  lemma GatesKeepIsolation(m: Manifest, a: GatesAction)
    requires HandleGates(m, a).Accepted?
    ensures IsolationStands(m.tickets, HandleGates(m, a).m.tickets)
  {
    hide OneTicket, OpensAtMost, OnlyStatus, OrdinaryChanges, IsolationStands, RequestInput, AnnounceGate, ResolveGate, ProvideInput, ResumePhase;
    var n := HandleGates(m, a).m;
    match a
    case InputProvided(g) => StatusChangeKeepsIsolation(m.tickets, n.tickets, m.gates[g].ticket);
    case PhaseResumed(_, _, g) => StatusChangeKeepsIsolation(m.tickets, n.tickets, m.gates[g].ticket);
    case _ =>
      Effects.GatesAreOrdinary(m, a);
      OrdinaryChangesKeepIsolation(m.consolidated, m.tickets, n.tickets);
  }

  lemma RecordingKeepsIsolation(m: Manifest, a: DeliveryAction)
    requires HandleDelivery(m, a).Accepted? && (Effects.ChangesRecords(a) || Effects.ChangesBudget(a))
    ensures IsolationStands(m.tickets, HandleDelivery(m, a).m.tickets)
  {
    hide OneTicket, OpensAtMost, OnePhase, ScheduleSatisfied, DependenciesSatisfied, ScopeAuthorized;
    hide IntegratePair, RecordVerification, ClassifyFailure, DispatchReview, RecordReview, ReconcileFindings;
  }

  lemma DeliveryKeepsIsolation(m: Manifest, a: DeliveryAction)
    requires HandleDelivery(m, a).Accepted?
    ensures IsolationStands(m.tickets, HandleDelivery(m, a).m.tickets)
  {
    hide HandleDelivery, IsolationStands, OrdinaryChanges;
    if Effects.ChangesRecords(a) || Effects.ChangesBudget(a) {
      RecordingKeepsIsolation(m, a);
    } else {
      Effects.DeliveryIsOrdinary(m, a);
      OrdinaryChangesKeepIsolation(m.consolidated, m.tickets, HandleDelivery(m, a).m.tickets);
    }
  }

  lemma HandleKeepsIsolation(m: Manifest, a: Action)
    requires Handle(m, a).Accepted?
    ensures IsolationStands(m.tickets, Handle(m, a).m.tickets)
  {
    hide HandlePlanning, HandleGates, HandlePhases, HandleSlots, HandleDelivery, HandleFinalization, CompleteRun, OrdinaryChanges, IsolationStands;
    var n := Handle(m, a).m;
    SameTicketsKeepIsolation(m.tickets);
    match a
    case Planning(x) => PlanningKeepsIsolation(m, x);
    case Gating(x) => GatesKeepIsolation(m, x);
    case Phasing(x) =>
      Effects.PhasesAreOrdinary(m, x);
      OrdinaryChangesKeepIsolation(m.consolidated, m.tickets, n.tickets);
    case Delivering(x) => DeliveryKeepsIsolation(m, x);
    case Finalizing(x) =>
      Effects.FinalizationIsOrdinary(m, x);
      OrdinaryChangesKeepIsolation(m.consolidated, m.tickets, n.tickets);
    case _ =>
  }

  lemma SameTicketsKeepIsolation(a: map<TicketId, Ticket>)
    ensures IsolationStands(a, a)
  {
  }

  // ----- the quiet of a blocked ticket -----

  /** The event makes a phase of the quiet, blocked ticket `t` active. */
  predicate Reactivates(m: Manifest, a: Action, t: TicketId) {
    match a
    case Phasing(PhaseDispatched(_, _, ticket, _, _)) => ticket == Some(t)
    case Phasing(LaunchObserved(p, launch, _, _, _)) => BelongsTo(m, p, t) && !launch.Blocked?
    case Gating(InputProvided(g)) =>
      g in m.gates && m.gates[g].resume.PrelaunchRetry? && m.gates[g].phase.Some? && BelongsTo(m, m.gates[g].phase.value, t)
    case Gating(PhaseResumed(p, _, _)) => BelongsTo(m, p, t)
    case _ => false
  }

  lemma SamePhasesStayQuiet(m: Manifest, n: Manifest, t: TicketId)
    requires n.phases == m.phases
    ensures HasActivePhase(n, t) <==> HasActivePhase(m, t)
  {
  }

  lemma OnePhaseDecides(m: Manifest, n: Manifest, p: PhaseKey, v: Phase, t: TicketId)
    requires n.phases == m.phases[p := v] && !HasActivePhase(m, t)
    ensures HasActivePhase(n, t) <==> v.ticket == Some(t) && ActivePhase(v.launch)
  {
    assert n.phases[p] == v;
  }

  lemma PlanningStaysQuiet(m: Manifest, a: PlanningAction, t: TicketId)
    requires HandlePlanning(m, a).Accepted? && !HasActivePhase(m, t)
    ensures !HasActivePhase(HandlePlanning(m, a).m, t)
  {
    hide OneTicket, OpensAtMost, OnePhase, HasActivePhase, RecordTriage, RecordAnalysis, DecideSpecification, RecordRouteValidation,
         ReconcileRouteValidation, Consolidate, ReconcileReadiness, RecordContractValidation, AmendContract;
    var n := HandlePlanning(m, a).m;
    if a.ContractResultCollected? {
      OnePhaseDecides(m, n, a.p, m.phases[a.p].(launch := Completed, result := a.report.commit), t);
    } else {
      SamePhasesStayQuiet(m, n, t);
    }
  }

  lemma AnswerReactivatesExactly(m: Manifest, g: GateId, t: TicketId)
    requires ProvideInput(m, g).Accepted? && !HasActivePhase(m, t)
    ensures HasActivePhase(ProvideInput(m, g).m, t) <==> Reactivates(m, Gating(InputProvided(g)), t)
  {
    hide Closes, OnlyStatus, NeverLaunched, HasActivePhase;
    var n := ProvideInput(m, g).m;
    if m.gates[g].resume.PrelaunchRetry? {
      var p := m.gates[g].phase.value;
      OnePhaseDecides(m, n, p, m.phases[p].(launch := IntentRecorded), t);
    } else if m.gates[g].resume.SameThread? {
      var p := m.gates[g].phase.value;
      OnePhaseDecides(m, n, p, m.phases[p].(launch := InputReady), t);
    } else {
      SamePhasesStayQuiet(m, n, t);
    }
  }

  lemma GatesReactivateExactly(m: Manifest, a: GatesAction, t: TicketId)
    requires HandleGates(m, a).Accepted? && !HasActivePhase(m, t)
    ensures HasActivePhase(HandleGates(m, a).m, t) <==> Reactivates(m, Gating(a), t)
  {
    hide OneTicket, OpensAtMost, OnlyStatus, Closes, HasActivePhase, HoldsSlot, FirstGateOf, RequestInput, AnnounceGate, ResolveGate, ProvideInput;
    var n := HandleGates(m, a).m;
    match a
    case InputProvided(g) => AnswerReactivatesExactly(m, g, t);
    case PhaseResumed(p, _, _) => OnePhaseDecides(m, n, p, m.phases[p].(launch := Running), t);
    case _ => SamePhasesStayQuiet(m, n, t);
  }

  lemma CompletionStaysQuiet(m: Manifest, p: PhaseKey, report: Report, t: TicketId)
    requires RecordCompletion(m, p, report).Accepted? && !HasActivePhase(m, t)
    ensures !HasActivePhase(RecordCompletion(m, p, report).m, t)
  {
    hide OneTicket, OnePhase, PairCompleted, HasActivePhase;
    OnePhaseDecides(m, RecordCompletion(m, p, report).m, p, m.phases[p].(launch := Completed, result := report.commit), t);
  }

  lemma EndingStaysQuiet(m: Manifest, a: PhasesAction, t: TicketId)
    requires (a.PhaseTerminated? || a.AcceptanceReclassified?) && HandlePhases(m, a).Accepted? && !HasActivePhase(m, t)
    ensures !HasActivePhase(HandlePhases(m, a).m, t)
  {
    hide OneTicket, OnePhase, OpensAtMost, HasActivePhase, DispatchPhase, ObserveLaunch, RecordCompletion;
    var v := if a.PhaseTerminated? then m.phases[a.p].(launch := EndedLaunch(a.outcome), result := a.commit) else m.phases[a.p].(launch := Completed);
    OnePhaseDecides(m, HandlePhases(m, a).m, a.p, v, t);
  }

  lemma PhasesReactivateExactly(m: Manifest, a: PhasesAction, t: TicketId)
    requires HandlePhases(m, a).Accepted? && !HasActivePhase(m, t)
    ensures HasActivePhase(HandlePhases(m, a).m, t) <==> Reactivates(m, Phasing(a), t)
  {
    hide OneTicket, OnePhase, OpensAtMost, HasActivePhase, DispatchAllowed, LeaseConfirmed, RecordCompletion, TerminatePhase, ReclassifyAcceptance;
    var n := HandlePhases(m, a).m;
    match a
    case PhaseDispatched(p, kind, ticket, requirement, base) => OnePhaseDecides(m, n, p, NewPhase(ticket, kind, requirement, Detached(base)), t);
    case LaunchObserved(p, launch, thread, client, _) => OnePhaseDecides(m, n, p, n.phases[p], t);
    case PhaseCompleted(p, report) => CompletionStaysQuiet(m, p, report, t);
    case _ => EndingStaysQuiet(m, a, t);
  }

  lemma SlotsStayQuiet(m: Manifest, a: SlotsAction, t: TicketId)
    requires HandleSlots(m, a).Accepted? && !HasActivePhase(m, t)
    ensures !HasActivePhase(HandleSlots(m, a).m, t)
  {
    hide LeasedSlots, OnePhase;
    var n := HandleSlots(m, a).m;
    if a.SlotAcquired? && a.owner.OfPhase? && a.owner.key in m.phases {
      var p := a.owner.key;
      assert !(m.phases[p].ticket == Some(t) && ActivePhase(m.phases[p].launch));
      OnePhaseDecides(m, n, p, n.phases[p], t);
    }
  }

  lemma DispatchStaysQuiet(m: Manifest, a: DeliveryAction, t: TicketId)
    requires HandleDelivery(m, a).Accepted? && a.PairDispatched? && a.t != t && !HasActivePhase(m, t)
    ensures !HasActivePhase(HandleDelivery(m, a).m, t)
  {
    hide ScheduleSatisfied, HasActivePhase, OneTicket, OnePhase, OpensAtMost;
    hide IntegratePair, RecordVerification, ClassifyFailure, IsolateContinuation, DispatchReview, RecordReview, ReconcileFindings,
         GrantException, DispatchRemediation, MergeTicket;
    var half := NewPhase(Some(a.t), Implementation, a.implementationNeeds, Place(Some(a.fork.implementation), a.fork.commit));
    var mid := WithPhase(m, a.implementation, half);
    OnePhaseDecides(m, mid, a.implementation, half, t);
    OnePhaseDecides(mid, HandleDelivery(m, a).m, a.acceptance, NewPhase(Some(a.t), AcceptanceTests, a.acceptanceNeeds, Place(Some(a.fork.acceptance), a.fork.commit)), t);
  }

  lemma ReviewStaysQuiet(m: Manifest, p: PhaseKey, report: Report, t: TicketId)
    requires RecordReview(m, p, report).Accepted? && !HasActivePhase(m, t)
    ensures !HasActivePhase(RecordReview(m, p, report).m, t)
  {
    hide OneTicket, OnePhase, HasActivePhase;
    var n := RecordReview(m, p, report).m;
    if m.phases[p].launch.Completed? { SamePhasesStayQuiet(m, n, t); } else { OnePhaseDecides(m, n, p, m.phases[p].(launch := Completed, result := report.commit), t); }
  }

  lemma NewPhaseStaysQuiet(m: Manifest, a: DeliveryAction, t: TicketId)
    requires HandleDelivery(m, a).Accepted? && (a.ReviewDispatched? || a.RemediationDispatched?) && a.t != t && !HasActivePhase(m, t)
    ensures !HasActivePhase(HandleDelivery(m, a).m, t)
  {
    hide ScopeAuthorized, HasActivePhase, OneTicket, OnePhase, OpensAtMost;
    hide DispatchPair, IntegratePair, RecordVerification, ClassifyFailure, IsolateContinuation, RecordReview, ReconcileFindings,
         GrantException, MergeTicket;
    var n := HandleDelivery(m, a).m;
    OnePhaseDecides(m, n, a.p, n.phases[a.p], t);
  }

  lemma DeliveryStaysQuiet(m: Manifest, a: DeliveryAction, t: TicketId)
    requires Settled(m, t) && HandleDelivery(m, a).Accepted? && !HasActivePhase(m, t)
    ensures !HasActivePhase(HandleDelivery(m, a).m, t)
  {
    hide OneTicket, OnePhase, OpensAtMost, HasActivePhase, Settled;
    hide DispatchPair, IntegratePair, RecordVerification, ClassifyFailure, IsolateContinuation, DispatchReview, RecordReview, ReconcileFindings,
         GrantException, DispatchRemediation, MergeTicket;
    match a {
      case PairDispatched(u, _, _, _, _, _, _) =>
        DeliveryLooksAtStatus(m, a);
        DispatchStaysQuiet(m, a, t);
      case ReviewRecorded(p, report) => ReviewStaysQuiet(m, p, report, t);
      case ReviewDispatched(_, _, _, _, _) =>
        DeliveryLooksAtStatus(m, a);
        NewPhaseStaysQuiet(m, a, t);
      case RemediationDispatched(_, _, _, _) =>
        DeliveryLooksAtStatus(m, a);
        NewPhaseStaysQuiet(m, a, t);
      case _ => SamePhasesStayQuiet(m, HandleDelivery(m, a).m, t);
    }
  }

  lemma DriftStaysQuiet(m: Manifest, previous: Commit, head: Commit, t: TicketId)
    requires DriftFinalHead(m, previous, head).Accepted? && !HasActivePhase(m, t)
    ensures !HasActivePhase(DriftFinalHead(m, previous, head).m, t)
  {
  }

  lemma FinalPhasesStayQuiet(m: Manifest, a: FinalizationAction, t: TicketId)
    requires HandleFinalization(m, a).Accepted? && !HasActivePhase(m, t)
    requires a.FinalReviewDispatched? || a.FinalReviewRecorded? || a.FinalRemediationDispatched?
    ensures !HasActivePhase(HandleFinalization(m, a).m, t)
  {
    hide OnePhase, HasActivePhase;
    hide RecordDryRunEvidence, StartFinalization, RecordFinalPr, RecordRemediationPr, MergeRemediation, RemediateMetadata, MarkFinalPrReady,
         RecordFinalVerification, ClassifyFinalFailure, StartFeedback, RecordFeedback, ReconcileFinalFindings,
         RecordFinalEvidence, DriftFinalHead, AuthorizeBaseMerge, MergeIntoBase;
    var n := HandleFinalization(m, a).m;
    if n.phases == m.phases { SamePhasesStayQuiet(m, n, t); } else { OnePhaseDecides(m, n, a.p, n.phases[a.p], t); }
  }

  lemma FinalizationStaysQuiet(m: Manifest, a: FinalizationAction, t: TicketId)
    requires HandleFinalization(m, a).Accepted? && !HasActivePhase(m, t)
    ensures !HasActivePhase(HandleFinalization(m, a).m, t)
  {
    hide OnePhase, HasActivePhase;
    hide RecordDryRunEvidence, StartFinalization, RecordFinalPr, RecordRemediationPr, MergeRemediation, RemediateMetadata, MarkFinalPrReady,
         RecordFinalVerification, ClassifyFinalFailure, DispatchFinalReview, RecordFinalReview, StartFeedback, RecordFeedback, ReconcileFinalFindings,
         DispatchFinalRemediation, RecordFinalEvidence, DriftFinalHead, AuthorizeBaseMerge, MergeIntoBase;
    if a.FinalReviewDispatched? || a.FinalReviewRecorded? || a.FinalRemediationDispatched? {
      FinalPhasesStayQuiet(m, a, t);
    } else if a.FinalHeadDrifted? {
      DriftStaysQuiet(m, a.previous, a.head, t);
    } else {
      SamePhasesStayQuiet(m, HandleFinalization(m, a).m, t);
    }
  }

  /** A quiet, blocked or merged ticket stays quiet exactly when the event is none of those listed. */
  lemma QuietIsKeptExactly(m: Manifest, a: Action, t: TicketId)
    requires Settled(m, t) && !HasActivePhase(m, t) && Handle(m, a).Accepted?
    ensures HasActivePhase(Handle(m, a).m, t) <==> Reactivates(m, a, t)
  {
    hide HandlePlanning, HandleGates, HandlePhases, HandleSlots, HandleDelivery, HandleFinalization, CompleteRun, HasActivePhase, BelongsTo, Settled;
    SamePhasesStayQuiet(m, m, t);
    match a
    case Planning(x) => PlanningStaysQuiet(m, x, t);
    case Gating(x) => GatesReactivateExactly(m, x, t);
    case Phasing(x) => PhasesReactivateExactly(m, x, t);
    case Slotting(x) => SlotsStayQuiet(m, x, t);
    case Delivering(x) => DeliveryStaysQuiet(m, x, t);
    case Finalizing(x) => FinalizationStaysQuiet(m, x, t);
    case _ => SamePhasesStayQuiet(m, Handle(m, a).m, t);
  }

  // ----- the escape hatch -----

  predicate ReleasedIn(m: Manifest, other: TicketId, t: TicketId) {
    other in m.tickets && ReleasedBy(m, other, t)
  }

  /** The isolation of `other` goes on releasing `t` through an accepted event exactly when the
      event neither revives nor reactivates `other`. */
  lemma HatchIsKeptExactly(m: Manifest, a: Action, other: TicketId, t: TicketId)
    requires ReleasedIn(m, other, t) && Handle(m, a).Accepted?
    ensures ReleasedIn(Handle(m, a).m, other, t) <==> !Revives(m, a, other) && !Reactivates(m, a, other)
  {
    hide Handle, Revives, Reactivates, HasActivePhase;
    StatusIsKeptExactly(m, a, other);
    QuietIsKeptExactly(m, a, other);
    HandleKeepsIsolation(m, a);
  }

  /** No accepted event of the run revives or reactivates `t`. */
  ghost predicate LeftAlone(m: Manifest, events: seq<Event>, t: TicketId)
    decreases |events|
  {
    t in m.tickets
    && (events == [] || (Step(m, events[0]).Accepted? ==>
          !Revives(m, events[0].action, t) && !Reactivates(m, events[0].action, t) && LeftAlone(Step(m, events[0]).m, events[1..], t)))
  }

  ghost predicate ReleasedThroughout(m: Manifest, events: seq<Event>, other: TicketId, t: TicketId)
    decreases |events|
  {
    ReleasedIn(m, other, t)
    && (events == [] || (Step(m, events[0]).Accepted? ==> ReleasedThroughout(Step(m, events[0]).m, events[1..], other, t)))
  }

  lemma {:induction false} ReleasedExactly(m: Manifest, events: seq<Event>, other: TicketId, t: TicketId)
    requires ReleasedIn(m, other, t)
    ensures ReleasedThroughout(m, events, other, t) <==> LeftAlone(m, events, other)
    decreases |events|
  {
    hide Handle, Revives, Reactivates, ReleasedBy;
    if events != [] && Step(m, events[0]).Accepted? {
      var n := Step(m, events[0]).m;
      HatchIsKeptExactly(m, events[0].action, other, t);
      if ReleasedIn(n, other, t) { ReleasedExactly(n, events[1..], other, t); }
    }
  }

  // ----- what the isolation does not prevent -----

  const REPAIR_START := Place(Some(0), 0)

  /** The ticket as a review recorded again and its reconciliation leave it. */
  function Reopened(v: Ticket, status: TicketStatus): Ticket {
    v.(facts := v.facts.(reviewed := true), status := status)
  }

  lemma ReviewIsRecordedAgain(m: Manifest, t: TicketId, review: PhaseKey)
    requires t in m.tickets && m.tickets[t].facts.analysis.Some? && IsCompleted(m, review, Review, t)
    ensures RecordReview(m, review, DONE) == Accepted(WithTicket(m, t, Reopened(m.tickets[t], AwaitingFindingReconciliation)))
  {
    hide OneTicket, OnePhase;
  }

  lemma FindingsAreReconciled(m: Manifest, t: TicketId, v: Ticket, blocking: bool)
    requires m.tickets == m.tickets[t := Reopened(v, AwaitingFindingReconciliation)]
    ensures ReconcileFindings(m, t, blocking, UNGATED)
         == Accepted(WithTicket(m, t, Reopened(v, if blocking then NeedsRemediation else ReadyToMerge)))
  {
    hide OneTicket, OpensAtMost;
    assert t in m.tickets[t := Reopened(v, AwaitingFindingReconciliation)];
  }

  function Reopening(t: TicketId, review: PhaseKey, blocking: bool): seq<Event> {
    [] + [Deliver(ReviewRecorded(review, DONE))] + [Deliver(FindingsReconciled(t, blocking, UNGATED))]
  }

  lemma RecordingReopens(m: Manifest, t: TicketId, review: PhaseKey)
    requires m.anomalies == 0 && t in m.tickets && m.tickets[t].facts.analysis.Some? && IsCompleted(m, review, Review, t)
    ensures Step(m, Deliver(ReviewRecorded(review, DONE))) == Accepted(WithTicket(m, t, Reopened(m.tickets[t], AwaitingFindingReconciliation)))
  {
    hide Step, RecordReview, IsCompleted;
    ReviewIsRecordedAgain(m, t, review);
    DeliveringSteps(m, ReviewRecorded(review, DONE), RecordReview(m, review, DONE).m);
  }

  lemma ReconcilingReopens(m: Manifest, t: TicketId, v: Ticket, blocking: bool)
    requires m.anomalies == 0 && m.tickets == m.tickets[t := Reopened(v, AwaitingFindingReconciliation)]
    ensures Step(m, Deliver(FindingsReconciled(t, blocking, UNGATED)))
         == Accepted(WithTicket(m, t, Reopened(v, if blocking then NeedsRemediation else ReadyToMerge)))
  {
    hide Step, ReconcileFindings, Reopened;
    FindingsAreReconciled(m, t, v, blocking);
    DeliveringSteps(m, FindingsReconciled(t, blocking, UNGATED), ReconcileFindings(m, t, blocking, UNGATED).m);
  }

  /** A completed review of a ticket can be recorded again, whatever the ticket's status. */
  lemma ReviewReopens(m: Manifest, t: TicketId, review: PhaseKey, blocking: bool)
    requires m.anomalies == 0 && t in m.tickets && m.tickets[t].facts.analysis.Some? && IsCompleted(m, review, Review, t)
    ensures Run(m, Reopening(t, review, blocking))
         == Accepted(WithTicket(m, t, Reopened(m.tickets[t], if blocking then NeedsRemediation else ReadyToMerge)))
  {
    hide Step, Run, IsCompleted;
    var m1 := WithTicket(m, t, Reopened(m.tickets[t], AwaitingFindingReconciliation));
    var m2 := WithTicket(m, t, Reopened(m.tickets[t], if blocking then NeedsRemediation else ReadyToMerge));
    RunNothing(m);
    RecordingReopens(m, t, review);
    ThenStep(m, [], m, Deliver(ReviewRecorded(review, DONE)), m1);
    assert m1.tickets == m1.tickets[t := Reopened(m.tickets[t], AwaitingFindingReconciliation)];
    ReconcilingReopens(m1, t, m.tickets[t], blocking);
    assert WithTicket(m1, t, m2.tickets[t]).tickets == m2.tickets;
    ThenStep(m, [] + [Deliver(ReviewRecorded(review, DONE))], m1, Deliver(FindingsReconciled(t, blocking, UNGATED)), m2);
  }

  lemma RepairIsDispatched(m: Manifest, t: TicketId, repair: PhaseKey)
    requires t in m.tickets && m.tickets[t].status.NeedsRemediation? && ScopeAuthorized(m.tickets[t]) && repair !in m.phases
    requires m.tickets[t].budget.cycles < AUTOMATIC_CYCLES
    requires m.tickets[t].records.execution.Some? && m.tickets[t].records.execution.value.implementation in m.phases
    ensures var o := DispatchRemediation(m, t, repair, NoEditor, REPAIR_START);
            && o.Accepted? && t in o.m.tickets && o.m.tickets[t].status.Fixing? && HasActivePhase(o.m, t)
            && o.m.tickets[t].records == m.tickets[t].records
  {
    hide OnePhase;
    var n := DispatchRemediation(m, t, repair, NoEditor, REPAIR_START).m;
    assert repair in n.phases && n.phases[repair].ticket == Some(t) && n.phases[repair].launch.IntentRecorded?;
  }

  /** While its isolation stands, a blocked ticket can be reviewed again and given a new, active
      repair: the isolation is still on record, but nothing is held still any more. */
  lemma IsolatedTicketIsRepairedAgain(m: Manifest, t: TicketId, review: PhaseKey, repair: PhaseKey)
    requires m.anomalies == 0 && Settled(m, t) && m.tickets[t].records.isolatedFor.Some?
    requires IsCompleted(m, review, Review, t) && repair !in m.phases
    requires m.tickets[t].facts.analysis.Some? && ScopeAuthorized(m.tickets[t]) && m.tickets[t].budget.cycles < AUTOMATIC_CYCLES
    requires m.tickets[t].records.execution.Some? && m.tickets[t].records.execution.value.implementation in m.phases
    ensures var o := Run(m, Reopening(t, review, true) + [Deliver(RemediationDispatched(t, repair, NoEditor, REPAIR_START))]);
            && o.Accepted? && t in o.m.tickets && o.m.tickets[t].status.Fixing? && HasActivePhase(o.m, t)
            && o.m.tickets[t].records.isolatedFor == m.tickets[t].records.isolatedFor
  {
    hide Run, Step, Reopening, HasActivePhase, IsCompleted, DispatchRemediation;
    ReviewReopens(m, t, review, true);
    var m1 := Run(m, Reopening(t, review, true)).m;
    RepairIsDispatched(m1, t, repair);
    var m2 := DispatchRemediation(m1, t, repair, NoEditor, REPAIR_START).m;
    DeliveringSteps(m1, RemediationDispatched(t, repair, NoEditor, REPAIR_START), m2);
    ThenStep(m, Reopening(t, review, true), m1, Deliver(RemediationDispatched(t, repair, NoEditor, REPAIR_START)), m2);
  }

  /** In the same way a merged ticket can be merged once more. */
  lemma MergedTicketIsMergedAgain(m: Manifest, t: TicketId, review: PhaseKey, commit: Commit, head: Commit)
    requires m.anomalies == 0 && Settled(m, t) && m.tickets[t].facts.analysis.Some? && IsCompleted(m, review, Review, t)
    ensures var o := Run(m, Reopening(t, review, false) + [Deliver(TicketMerged(t, commit, head))]);
            && o.Accepted? && t in o.m.tickets && o.m.tickets[t].status.MergedIntoTrain?
            && o.m.tickets[t].records.merge == Some(commit) && o.m.train == Some(head)
  {
    hide Run, Step, Reopening, IsCompleted;
    ReviewReopens(m, t, review, false);
    var m1 := Run(m, Reopening(t, review, false)).m;
    var m2 := MergeTicket(m1, t, commit, head).m;
    DeliveringSteps(m1, TicketMerged(t, commit, head), m2);
    ThenStep(m, Reopening(t, review, false), m1, Deliver(TicketMerged(t, commit, head)), m2);
  }
}
