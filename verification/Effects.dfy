/** What each group of branches can do to tickets, gates and phases, as far as the whole-run
    invariants need to know. */
module Effects {
  import opened Prelude
  import opened Manifest
  import opened PlanningEvents
  import opened GateEvents
  import opened PhaseEvents
  import opened SlotEvents
  import opened DeliveryEvents
  import opened FinalizationEvents

  // ----- tickets -----

  predicate ChangesRecords(a: DeliveryAction) {
    a.PairDispatched? || a.ContinuationIsolated? || a.TicketMerged?
  }

  predicate ChangesBudget(a: DeliveryAction) {
    a.ExceptionGranted? || a.RemediationDispatched?
  }

  predicate RestoresStatus(a: GatesAction) {
    a.InputProvided? || a.PhaseResumed?
  }

  lemma OneTicketIsOrdinary(c: bool, a: map<TicketId, Ticket>, b: map<TicketId, Ticket>, t: TicketId)
    requires OneTicket(c, a, b, t)
    ensures OrdinaryChanges(c, a, b)
  {
  }

  lemma PlanningIsOrdinary(m: Manifest, a: PlanningAction)
    requires HandlePlanning(m, a).Accepted? && !a.DependenciesConsolidated?
    ensures OrdinaryChanges(m.consolidated, m.tickets, HandlePlanning(m, a).m.tickets)
  {
    hide OrdinaryChanges, OneTicket, OpensAtMost, RecordTriage, RecordAnalysis, DecideSpecification, RecordRouteValidation,
         ReconcileRouteValidation, Consolidate, ReconcileReadiness, RecordContractValidation, CollectContractResult, AmendContract;
    OneTicketIsOrdinary(m.consolidated, m.tickets, HandlePlanning(m, a).m.tickets, a.t);
  }

  lemma GatesAreOrdinary(m: Manifest, a: GatesAction)
    requires HandleGates(m, a).Accepted? && !RestoresStatus(a)
    ensures OrdinaryChanges(m.consolidated, m.tickets, HandleGates(m, a).m.tickets)
  {
    hide OrdinaryChanges, OpensAtMost, RequestInput, AnnounceGate, ResolveGate, ProvideInput, ResumePhase;
    var t := match a
      case InputRequested(t, _, _) => t
      case GateResolved(g, _) => if g in m.gates then m.gates[g].ticket else ""
      case _ => "";
    OneTicketIsOrdinary(m.consolidated, m.tickets, HandleGates(m, a).m.tickets, t);
  }

  lemma PhasesAreOrdinary(m: Manifest, a: PhasesAction)
    requires HandlePhases(m, a).Accepted?
    ensures OrdinaryChanges(m.consolidated, m.tickets, HandlePhases(m, a).m.tickets)
  {
    hide OrdinaryChanges, OpensAtMost, OnePhase, DispatchPhase, ObserveLaunch, RecordCompletion, TerminatePhase, ReclassifyAcceptance;
    var t := if a.AcceptanceReclassified? then a.t else TicketOf(m, a.p);
    OneTicketIsOrdinary(m.consolidated, m.tickets, HandlePhases(m, a).m.tickets, t);
  }

  lemma DeliveryIsOrdinary(m: Manifest, a: DeliveryAction)
    requires HandleDelivery(m, a).Accepted? && !ChangesRecords(a) && !ChangesBudget(a)
    ensures OrdinaryChanges(m.consolidated, m.tickets, HandleDelivery(m, a).m.tickets)
  {
    hide OrdinaryChanges, OneTicket, OpensAtMost, OnePhase, DispatchPair, IntegratePair, RecordVerification, ClassifyFailure, IsolateContinuation,
         DispatchReview, RecordReview, ReconcileFindings, GrantException, DispatchRemediation, MergeTicket;
    var t := if a.ReviewRecorded? then TicketOf(m, a.p) else a.t;
    OneTicketIsOrdinary(m.consolidated, m.tickets, HandleDelivery(m, a).m.tickets, t);
  }

  lemma FinalizationIsOrdinary(m: Manifest, a: FinalizationAction)
    requires HandleFinalization(m, a).Accepted?
    ensures OrdinaryChanges(m.consolidated, m.tickets, HandleFinalization(m, a).m.tickets)
  {
    hide OnePhase, StartFinalization, RecordFinalPr, RecordRemediationPr, MergeRemediation, RemediateMetadata, MarkFinalPrReady, RecordFinalVerification,
         ClassifyFinalFailure, DispatchFinalReview, RecordFinalReview, StartFeedback, RecordFeedback, ReconcileFinalFindings,
         DispatchFinalRemediation, RecordFinalEvidence, DriftFinalHead, AuthorizeBaseMerge, MergeIntoBase;
  }

  // ----- gates -----

  /** Every gate of `b` was there with the same question or has just been opened. */
  predicate GatesGrow(tickets: map<TicketId, Ticket>, a: map<GateId, Gate>, b: map<GateId, Gate>) {
    forall g :: g in b ==> (g in a && SameQuestion(a[g], b[g])) || NewGate(tickets, b[g])
  }

  /** Every gate of `a` is still there as it was, and the others have just been opened. */
  predicate OnlyOpens(tickets: map<TicketId, Ticket>, a: map<GateId, Gate>, b: map<GateId, Gate>) {
    && (forall g :: g in a ==> g in b && b[g] == a[g])
    && (forall g :: g in b && g !in a ==> NewGate(tickets, b[g]))
  }

  lemma OpeningGrows(tickets: map<TicketId, Ticket>, a: map<GateId, Gate>, b: map<GateId, Gate>)
    requires OnlyOpens(tickets, a, b)
    ensures GatesGrow(tickets, a, b)
  {
  }

  lemma OpensOne(tickets: map<TicketId, Ticket>, a: map<GateId, Gate>, b: map<GateId, Gate>, g: GateId)
    requires OpensAtMost(tickets, a, b, g)
    ensures OnlyOpens(tickets, a, b)
  {
  }

  lemma PlanningOnlyOpens(m: Manifest, a: PlanningAction)
    requires HandlePlanning(m, a).Accepted? && !a.SpecificationDecided?
    ensures OnlyOpens(m.tickets, m.gates, HandlePlanning(m, a).m.gates)
  {
    hide OnlyOpens, RecordTriage, RecordAnalysis, DecideSpecification, RecordRouteValidation, ReconcileRouteValidation, Consolidate,
         ReconcileReadiness, RecordContractValidation, CollectContractResult, AmendContract;
    var g := match a
      case AnalysisRecorded(_, _, _, approval, _, rule) => if approval.gated then approval.gate else rule.gate
      case RouteValidationRecorded(_, _, _, rule) => rule.gate
      case _ => "";
    OpensOne(m.tickets, m.gates, HandlePlanning(m, a).m.gates, g);
  }

  lemma PlanningGrows(m: Manifest, a: PlanningAction)
    requires HandlePlanning(m, a).Accepted?
    ensures GatesGrow(m.tickets, m.gates, HandlePlanning(m, a).m.gates)
  {
    hide RecordTriage, RecordAnalysis, DecideSpecification, RecordRouteValidation, ReconcileRouteValidation, Consolidate,
         ReconcileReadiness, RecordContractValidation, CollectContractResult, AmendContract;
    if !a.SpecificationDecided? { PlanningOnlyOpens(m, a); }
  }

  lemma GatesGrown(m: Manifest, a: GatesAction)
    requires HandleGates(m, a).Accepted?
    ensures GatesGrow(m.tickets, m.gates, HandleGates(m, a).m.gates)
  {
    hide OneTicket, RequestInput, ResolveGate, ProvideInput, ResumePhase;
  }

  lemma PhasesOnlyOpen(m: Manifest, a: PhasesAction)
    requires HandlePhases(m, a).Accepted?
    ensures OnlyOpens(m.tickets, m.gates, HandlePhases(m, a).m.gates)
  {
    hide OnlyOpens, OneTicket, OnePhase, DispatchPhase, ObserveLaunch, RecordCompletion, TerminatePhase, ReclassifyAcceptance;
    var g := if a.PhaseTerminated? then GateOf(a.outcome) else "";
    OpensOne(m.tickets, m.gates, HandlePhases(m, a).m.gates, g);
  }

  lemma DeliveryOnlyOpens(m: Manifest, a: DeliveryAction)
    requires HandleDelivery(m, a).Accepted?
    ensures OnlyOpens(m.tickets, m.gates, HandleDelivery(m, a).m.gates)
  {
    hide OnlyOpens, OneTicket, OnePhase, DispatchPair, IntegratePair, RecordVerification, ClassifyFailure, IsolateContinuation, DispatchReview, RecordReview,
         ReconcileFindings, GrantException, DispatchRemediation, MergeTicket;
    var g := if a.FindingsReconciled? then a.rule.gate else "";
    OpensOne(m.tickets, m.gates, HandleDelivery(m, a).m.gates, g);
  }

  // ----- phases -----

  lemma PhasesStay(a: map<PhaseKey, Phase>)
    ensures PhasesSettle(a, a)
  {
  }

  lemma SettlingTwice(a: map<PhaseKey, Phase>, b: map<PhaseKey, Phase>, c: map<PhaseKey, Phase>)
    requires PhasesSettle(a, b) && PhasesSettle(b, c)
    ensures PhasesSettle(a, c)
  {
  }

  lemma OnePhaseSettles(a: map<PhaseKey, Phase>, b: map<PhaseKey, Phase>, p: PhaseKey)
    requires OnePhase(a, b, p)
    ensures PhasesSettle(a, b)
  {
  }

  lemma PlanningSettles(m: Manifest, a: PlanningAction)
    requires HandlePlanning(m, a).Accepted?
    ensures PhasesSettle(m.phases, HandlePlanning(m, a).m.phases)
  {
    hide PhasesSettle, OneTicket, OpensAtMost, RecordTriage, RecordAnalysis, DecideSpecification, RecordRouteValidation,
         ReconcileRouteValidation, Consolidate, ReconcileReadiness, RecordContractValidation, CollectContractResult, AmendContract;
    OnePhaseSettles(m.phases, HandlePlanning(m, a).m.phases, if a.ContractResultCollected? then a.p else "");
  }

  lemma GatesPersist(m: Manifest, a: GatesAction)
    requires HandleGates(m, a).Accepted?
    ensures var n := HandleGates(m, a).m;
            && PhasesPersist(m.phases, n.phases)
            && (!a.PhaseResumed? ==> StartsNone(m.phases, n.phases))
            && (!a.InputProvided? ==> RearmsNone(m.phases, n.phases))
  {
    hide PhasesPersist, StartsNone, RearmsNone, OneTicket, OpensAtMost, Closes, RequestInput, AnnounceGate, ResolveGate, ProvideInput, ResumePhase;
    assert PhasesSettle(m.phases, m.phases) by { PhasesStay(m.phases); }
    match a
    case InputProvided(g) => AnswerPersists(m, g);
    case PhaseResumed(p, thread, g) => ResumptionPersists(m, p, thread, g);
    case _ =>
  }

  lemma AnswerPersists(m: Manifest, g: GateId)
    requires ProvideInput(m, g).Accepted?
    ensures var n := ProvideInput(m, g).m; PhasesPersist(m.phases, n.phases) && StartsNone(m.phases, n.phases)
  {
    hide PhasesPersist, StartsNone, RearmsNone, Closes;
    if m.gates[g].phase.Some? && m.gates[g].phase.value in m.phases {
      SettingLaunchPersists(m.phases, m.gates[g].phase.value, IntentRecorded);
      SettingLaunchPersists(m.phases, m.gates[g].phase.value, InputReady);
    }
    assert PhasesSettle(m.phases, m.phases) by { PhasesStay(m.phases); }
  }

  lemma SettingLaunchPersists(a: map<PhaseKey, Phase>, p: PhaseKey, l: LaunchState)
    requires p in a && !Launched(l)
    ensures var b := a[p := a[p].(launch := l)]; PhasesPersist(a, b) && StartsNone(a, b)
  {
  }

  lemma ResumptionPersists(m: Manifest, p: PhaseKey, thread: Option<Reference>, g: GateId)
    requires ResumePhase(m, p, thread, g).Accepted?
    ensures var n := ResumePhase(m, p, thread, g).m; PhasesPersist(m.phases, n.phases) && RearmsNone(m.phases, n.phases)
  {
    hide HoldsSlot;
  }

  lemma PhasesPersisted(m: Manifest, a: PhasesAction)
    requires HandlePhases(m, a).Accepted? && !a.LaunchObserved?
    ensures PhasesSettle(m.phases, HandlePhases(m, a).m.phases)
  {
    hide PhasesSettle, OneTicket, OpensAtMost, DispatchPhase, ObserveLaunch, RecordCompletion, TerminatePhase, ReclassifyAcceptance;
    OnePhaseSettles(m.phases, HandlePhases(m, a).m.phases, a.p);
  }

  lemma ObservationPersists(m: Manifest, p: PhaseKey, launch: LaunchState, thread: Option<Reference>, client: Option<Reference>, reconciled: bool)
    requires ObserveLaunch(m, p, launch, thread, client, reconciled).Accepted?
    ensures var n := ObserveLaunch(m, p, launch, thread, client, reconciled).m;
            PhasesPersist(m.phases, n.phases) && RearmsNone(m.phases, n.phases)
  {
  }

  lemma SlotsSettle(m: Manifest, a: SlotsAction)
    requires HandleSlots(m, a).Accepted?
    ensures PhasesSettle(m.phases, HandleSlots(m, a).m.phases)
  {
    hide PhasesSettle, ConfigureEnvironment, AcquireSlot, ReleaseSlot;
    OnePhaseSettles(m.phases, HandleSlots(m, a).m.phases, if a.SlotAcquired? && a.owner.OfPhase? then a.owner.key else "");
  }

  lemma DispatchSettles(m: Manifest, a: DeliveryAction)
    requires HandleDelivery(m, a).Accepted? && a.PairDispatched?
    ensures PhasesSettle(m.phases, HandleDelivery(m, a).m.phases)
  {
    hide PhasesSettle, ScheduleSatisfied;
    var n := HandleDelivery(m, a).m;
    var mid := m.phases[a.implementation := NewPhase(Some(a.t), Implementation, a.implementationNeeds, Place(Some(a.fork.implementation), a.fork.commit))];
    OnePhaseSettles(m.phases, mid, a.implementation);
    OnePhaseSettles(mid, n.phases, a.acceptance);
    SettlingTwice(m.phases, mid, n.phases);
  }

  lemma DeliverySettles(m: Manifest, a: DeliveryAction)
    requires HandleDelivery(m, a).Accepted?
    ensures PhasesSettle(m.phases, HandleDelivery(m, a).m.phases)
  {
    hide PhasesSettle, OneTicket, OpensAtMost, DispatchPair, IntegratePair, RecordVerification, ClassifyFailure, IsolateContinuation,
         DispatchReview, RecordReview, ReconcileFindings, GrantException, DispatchRemediation, MergeTicket;
    var n := HandleDelivery(m, a).m;
    match a
    case PairDispatched(_, _, _, _, _, _, _) => DispatchSettles(m, a);
    case ReviewDispatched(_, p, _, _, _) => OnePhaseSettles(m.phases, n.phases, p);
    case ReviewRecorded(p, _) => OnePhaseSettles(m.phases, n.phases, p);
    case RemediationDispatched(_, p, _, _) => OnePhaseSettles(m.phases, n.phases, p);
    case _ => PhasesStay(m.phases);
  }

  lemma FinalizationSettles(m: Manifest, a: FinalizationAction)
    requires HandleFinalization(m, a).Accepted?
    ensures PhasesSettle(m.phases, HandleFinalization(m, a).m.phases)
  {
    hide PhasesSettle, RecordDryRunEvidence, StartFinalization, RecordFinalPr, RecordRemediationPr, MergeRemediation, RemediateMetadata, MarkFinalPrReady, RecordFinalVerification,
         ClassifyFinalFailure, DispatchFinalReview, RecordFinalReview, StartFeedback, RecordFeedback, ReconcileFinalFindings,
         DispatchFinalRemediation, RecordFinalEvidence, DriftFinalHead, AuthorizeBaseMerge, MergeIntoBase;
    var n := HandleFinalization(m, a).m;
    match a
    case FinalReviewDispatched(p, _) => OnePhaseSettles(m.phases, n.phases, p);
    case FinalReviewRecorded(p, _, _) => OnePhaseSettles(m.phases, n.phases, p);
    case FinalRemediationDispatched(p, _, _, _) => OnePhaseSettles(m.phases, n.phases, p);
    case FinalHeadDrifted(previous, head) => DriftSettles(m, previous, head);
    case _ => PhasesStay(m.phases);
  }

  lemma DriftSettles(m: Manifest, previous: Commit, head: Commit)
    requires DriftFinalHead(m, previous, head).Accepted?
    ensures PhasesSettle(m.phases, DriftFinalHead(m, previous, head).m.phases)
  {
  }
}
