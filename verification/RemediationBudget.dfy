/** Remediation beyond the automatic limit is always paid for by a recorded exception. */
module RemediationBudget {
  import opened Prelude
  import opened Manifest
  import opened PlanningEvents
  import opened GateEvents
  import opened PhaseEvents
  import opened SlotEvents
  import opened DeliveryEvents
  import opened FinalizationEvents
  import opened Events
  import Effects

  /** Exceptions used up so far: the archived ones and the current one once it is consumed. */
  function Spent(b: Budget): nat {
    b.history + if b.exception.Consumed? then 1 else 0
  }

  ghost predicate BudgetExact(b: Budget) {
    && Spent(b) == (if b.cycles > AUTOMATIC_CYCLES then b.cycles - AUTOMATIC_CYCLES else 0)
    && (b.exception.Granted? ==> b.cycles >= AUTOMATIC_CYCLES)
  }

  ghost predicate FinalBudgetExact(f: Finalization) {
    && f.repair.cycles <= TEST_ONLY_FINAL_CYCLES
    && (f.repair.cycles == TEST_ONLY_FINAL_CYCLES ==> f.repair.extensionUsed)
  }

  ghost predicate TicketBudgets(ts: map<TicketId, Ticket>) {
    forall t :: t in ts ==> BudgetExact(ts[t].budget)
  }

  ghost predicate Budgeted(m: Manifest) {
    TicketBudgets(m.tickets) && FinalBudgetExact(m.final)
  }

  predicate BudgetsKept(a: map<TicketId, Ticket>, b: map<TicketId, Ticket>) {
    b.Keys == a.Keys && forall t :: t in a ==> b[t].budget == a[t].budget
  }

  lemma OrdinaryKeepsBudgets(c: bool, a: map<TicketId, Ticket>, b: map<TicketId, Ticket>)
    requires OrdinaryChanges(c, a, b)
    ensures BudgetsKept(a, b)
  {
  }

  lemma KeptBudgetsAreExact(a: map<TicketId, Ticket>, b: map<TicketId, Ticket>)
    requires TicketBudgets(a) && BudgetsKept(a, b)
    ensures TicketBudgets(b)
  {
  }

  // ----- tickets -----

  lemma ConsolidationKeepsBudgets(m: Manifest, schedule: seq<TicketId>, plans: map<TicketId, Plan>)
    requires Consolidate(m, schedule, plans).Accepted?
    ensures BudgetsKept(m.tickets, Consolidate(m, schedule, plans).m.tickets)
  {
  }

  lemma AnswerKeepsBudgets(m: Manifest, a: GatesAction)
    requires HandleGates(m, a).Accepted? && Effects.RestoresStatus(a)
    ensures BudgetsKept(m.tickets, HandleGates(m, a).m.tickets)
  {
    hide OneTicket, RequestInput, AnnounceGate, ResolveGate, ProvideInput, ResumePhase;
  }

  lemma RecordsKeepBudgets(m: Manifest, a: DeliveryAction)
    requires HandleDelivery(m, a).Accepted? && Effects.ChangesRecords(a)
    ensures BudgetsKept(m.tickets, HandleDelivery(m, a).m.tickets)
  {
    hide OnePhase, ScheduleSatisfied, DependenciesSatisfied, ScopeAuthorized, ContractSettled;
    hide IntegratePair, RecordVerification, ClassifyFailure, DispatchReview, RecordReview, ReconcileFindings, GrantException, DispatchRemediation;
  }

  lemma GrantIsExact(m: Manifest, t: TicketId, g: GateId)
    requires TicketBudgets(m.tickets) && GrantException(m, t, g).Accepted?
    ensures TicketBudgets(GrantException(m, t, g).m.tickets)
  {
    hide OrdinaryChanges;
  }

  lemma RemediationIsExact(m: Manifest, t: TicketId, p: PhaseKey, requirement: Requirement, start: Place)
    requires TicketBudgets(m.tickets) && DispatchRemediation(m, t, p, requirement, start).Accepted?
    ensures TicketBudgets(DispatchRemediation(m, t, p, requirement, start).m.tickets)
  {
    hide OnePhase;
  }

  lemma DeliveryKeeps(m: Manifest, a: DeliveryAction)
    requires TicketBudgets(m.tickets) && HandleDelivery(m, a).Accepted?
    ensures TicketBudgets(HandleDelivery(m, a).m.tickets)
  {
    hide TicketBudgets, BudgetsKept, OrdinaryChanges, DispatchPair, IntegratePair, RecordVerification, ClassifyFailure,
         IsolateContinuation, DispatchReview, RecordReview, ReconcileFindings, GrantException, DispatchRemediation, MergeTicket;
    match a
    case ExceptionGranted(t, g) => GrantIsExact(m, t, g);
    case RemediationDispatched(t, p, requirement, start) => RemediationIsExact(m, t, p, requirement, start);
    case _ =>
      var n := HandleDelivery(m, a).m;
      if Effects.ChangesRecords(a) {
        RecordsKeepBudgets(m, a);
      } else {
        Effects.DeliveryIsOrdinary(m, a);
        OrdinaryKeepsBudgets(m.consolidated, m.tickets, n.tickets);
      }
      KeptBudgetsAreExact(m.tickets, n.tickets);
  }

  lemma TicketsKeep(m: Manifest, a: Action)
    requires TicketBudgets(m.tickets) && Handle(m, a).Accepted?
    ensures TicketBudgets(Handle(m, a).m.tickets)
  {
    hide TicketBudgets, BudgetsKept, OrdinaryChanges, HandlePlanning, HandleGates, HandlePhases, HandleSlots, HandleDelivery, HandleFinalization, CompleteRun;
    var n := Handle(m, a).m;
    match a
    case Planning(x) => PlanningKeeps(m, x);
    case Gating(x) =>
      if Effects.RestoresStatus(x) {
        AnswerKeepsBudgets(m, x);
      } else {
        Effects.GatesAreOrdinary(m, x);
        OrdinaryKeepsBudgets(m.consolidated, m.tickets, n.tickets);
      }
      KeptBudgetsAreExact(m.tickets, n.tickets);
    case Phasing(x) =>
      Effects.PhasesAreOrdinary(m, x);
      OrdinaryKeepsBudgets(m.consolidated, m.tickets, n.tickets);
      KeptBudgetsAreExact(m.tickets, n.tickets);
    case Delivering(x) => DeliveryKeeps(m, x);
    case Finalizing(x) =>
      Effects.FinalizationIsOrdinary(m, x);
      OrdinaryKeepsBudgets(m.consolidated, m.tickets, n.tickets);
      KeptBudgetsAreExact(m.tickets, n.tickets);
    case _ => assert n.tickets == m.tickets;
  }

  lemma PlanningKeeps(m: Manifest, a: PlanningAction)
    requires TicketBudgets(m.tickets) && HandlePlanning(m, a).Accepted?
    ensures TicketBudgets(HandlePlanning(m, a).m.tickets)
  {
    hide TicketBudgets, BudgetsKept, OrdinaryChanges, RecordTriage, RecordAnalysis, DecideSpecification, RecordRouteValidation,
         ReconcileRouteValidation, Consolidate, ReconcileReadiness, RecordContractValidation, CollectContractResult, AmendContract;
    var n := HandlePlanning(m, a).m;
    if a.DependenciesConsolidated? {
      ConsolidationKeepsBudgets(m, a.schedule, a.plans);
    } else {
      Effects.PlanningIsOrdinary(m, a);
      OrdinaryKeepsBudgets(m.consolidated, m.tickets, n.tickets);
    }
    KeptBudgetsAreExact(m.tickets, n.tickets);
  }

  // ----- finalization -----

  lemma OpeningKeeps(m: Manifest, a: FinalizationAction)
    requires FinalBudgetExact(m.final) && HandleFinalization(m, a).Accepted? && OpensFinalPr(a)
    ensures FinalBudgetExact(HandleFinalization(m, a).m.final)
  {
    hide NoActivePhase, HasCompletedFinalRemediation, HoldsSlot;
    hide DispatchFinalReview, RecordFinalReview, StartFeedback, RecordFeedback, ReconcileFinalFindings, DispatchFinalRemediation,
         RecordFinalEvidence, DriftFinalHead, AuthorizeBaseMerge, MergeIntoBase;
  }

  lemma FinalizationKeeps(m: Manifest, a: FinalizationAction)
    requires FinalBudgetExact(m.final) && HandleFinalization(m, a).Accepted?
    ensures FinalBudgetExact(HandleFinalization(m, a).m.final)
  {
    hide PhasesSettle;
    hide RecordDryRunEvidence, StartFinalization, RecordFinalPr, RecordRemediationPr, MergeRemediation, RemediateMetadata,
         MarkFinalPrReady, RecordFinalVerification, ClassifyFinalFailure;
    if OpensFinalPr(a) { OpeningKeeps(m, a); }
  }

  lemma FinalKeeps(m: Manifest, a: Action)
    requires FinalBudgetExact(m.final) && Handle(m, a).Accepted?
    ensures FinalBudgetExact(Handle(m, a).m.final)
  {
    hide OnePhase, HandlePlanning, HandleGates, HandleSlots, HandleDelivery, HandleFinalization, Completable;
    hide DispatchPhase, ObserveLaunch, TerminatePhase, ReclassifyAcceptance;
    match a
    case Finalizing(x) => FinalizationKeeps(m, x);
    case _ =>
  }

  lemma HandleKeeps(m: Manifest, a: Action)
    requires Budgeted(m) && Handle(m, a).Accepted?
    ensures Budgeted(Handle(m, a).m)
  {
    hide Handle, TicketBudgets, FinalBudgetExact;
    TicketsKeep(m, a);
    FinalKeeps(m, a);
  }

  /** A final remediation beyond the automatic limit repairs a test defect and touches tests only. */
  lemma ThirdFinalCycleIsTestOnly(m: Manifest, p: PhaseKey, base: Place, testOnly: bool, requirement: Requirement)
    requires FinalBudgetExact(m.final) && m.final.repair.cycles >= AUTOMATIC_CYCLES
    requires DispatchFinalRemediation(m, p, base, testOnly, requirement).Accepted?
    ensures testOnly && m.final.repair.testDefect && m.final.repair.cycles == AUTOMATIC_CYCLES
    ensures DispatchFinalRemediation(m, p, base, testOnly, requirement).m.final.repair.extensionUsed
  {
    hide PhasesSettle;
  }
}
