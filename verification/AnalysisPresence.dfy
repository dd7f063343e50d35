/** A ticket that is ready for implementation has been analysed, in every manifest that a run can
    reach. The handler of a dispatch asks for the analysis and the planner does not; in a run this
    makes no difference. */
module AnalysisPresence {
  import opened Prelude
  import opened Manifest
  import opened PlanningEvents
  import opened GateEvents
  import opened PhaseEvents
  import opened SlotEvents
  import opened DeliveryEvents
  import opened FinalizationEvents
  import opened Events
  import opened Planner
  import Effects

  type Tickets = map<TicketId, Ticket>

  /** The statuses that a recorded analysis leads to, up to readiness. */
  predicate AfterAnalysis(s: TicketStatus) {
    s.RouteValidationRequired? || s.ReconciliationRequired? || s.Analyzed? || s.ReadyForImplementation? || s.NeedsContractAmendment?
  }

  predicate HasAnalysis(ts: Tickets, t: TicketId) {
    t in ts && ts[t].facts.analysis.Some?
  }

  /** What a gate can bring about is supported by an analysis of its ticket. */
  predicate GateSupported(ts: Tickets, g: Gate) {
    && (g.kind.AnalysisGate? ==> HasAnalysis(ts, g.ticket))
    && (g.prior.Some? && AfterAnalysis(g.prior.value) ==> HasAnalysis(ts, g.ticket))
    && (g.kind.InputGate? ==> g.prior.Some?)
  }

  ghost predicate GatesSupported(ts: Tickets, gates: map<GateId, Gate>) {
    forall g :: g in gates ==> GateSupported(ts, gates[g])
  }

  ghost predicate TicketsSupported(ts: Tickets) {
    forall t :: t in ts && AfterAnalysis(ts[t].status) ==> ts[t].facts.analysis.Some?
  }

  ghost predicate Analysed(m: Manifest) {
    TicketsSupported(m.tickets) && GatesSupported(m.tickets, m.gates)
  }

  // ----- steps that keep analyses -----

  /** No analysis is lost, and only an analysed ticket comes into one of the statuses. */
  predicate Supports(a: Ticket, b: Ticket) {
    && (a.facts.analysis.Some? ==> b.facts.analysis.Some?)
    && (AfterAnalysis(b.status) ==> AfterAnalysis(a.status) || b.facts.analysis.Some?)
  }

  ghost predicate AllSupport(a: Tickets, b: Tickets) {
    forall t :: t in a ==> t in b && Supports(a[t], b[t])
  }

  /** At most the ticket `t` changes, and it keeps its analysis. */
  predicate OneSupports(a: Tickets, b: Tickets, t: TicketId) {
    b == a || (t in a && t in b && b == a[t := b[t]] && Supports(a[t], b[t]))
  }

  lemma OneIsAll(a: Tickets, b: Tickets, t: TicketId)
    requires OneSupports(a, b, t)
    ensures AllSupport(a, b) && b.Keys == a.Keys
  {
  }

  /** Every gate was there with the same question, is a request for input, or is supported. */
  predicate NewGateSupported(a: map<GateId, Gate>, b: map<GateId, Gate>, ts: Tickets, g: GateId)
    requires g in b
  {
    (g in a && SameQuestion(a[g], b[g])) || (b[g].kind.AnalysisGate? ==> HasAnalysis(ts, b[g].ticket))
  }

  ghost predicate NewGatesSupported(a: map<GateId, Gate>, b: map<GateId, Gate>, ts: Tickets) {
    forall g :: g in b ==> NewGateSupported(a, b, ts, g)
  }

  lemma SupportIsKept(m: Manifest, n: Manifest)
    requires Analysed(m) && AllSupport(m.tickets, n.tickets) && n.tickets.Keys == m.tickets.Keys
    requires Effects.GatesGrow(m.tickets, m.gates, n.gates) && NewGatesSupported(m.gates, n.gates, n.tickets)
    ensures Analysed(n)
  {
    forall g | g in n.gates ensures GateSupported(n.tickets, n.gates[g]) {
      assert NewGateSupported(m.gates, n.gates, n.tickets, g);
      if g in m.gates { assert GateSupported(m.tickets, m.gates[g]); }
    }
  }

  lemma SameQuestionsSupported(a: map<GateId, Gate>, ts: Tickets)
    ensures NewGatesSupported(a, a, ts)
  {
  }

  // ----- planning -----

  lemma FinalizingSupports(m: Manifest, t: TicketId, v: Ticket, rule: GateRule)
    requires t in m.tickets && v.facts.analysis.Some? && FinalizeAnalysis(m, t, v, rule).Accepted?
    ensures var n := FinalizeAnalysis(m, t, v, rule).m;
            OneSupports(m.tickets, n.tickets, t) && HasAnalysis(n.tickets, t) && NewGatesSupported(m.gates, n.gates, n.tickets)
  {
    hide OneTicket, OpensAtMost;
  }

  lemma RoutingSupports(m: Manifest, t: TicketId, v: Ticket, covered: bool, rule: GateRule)
    requires t in m.tickets && v.facts.analysis.Some? && RouteOrFinalize(m, t, v, covered, rule).Accepted?
    ensures var n := RouteOrFinalize(m, t, v, covered, rule).m;
            OneSupports(m.tickets, n.tickets, t) && NewGatesSupported(m.gates, n.gates, n.tickets)
  {
    hide OneTicket, OpensAtMost, FinalizeAnalysis, NewGatesSupported;
    if covered { FinalizingSupports(m, t, v, rule); } else { SameQuestionsSupported(m.gates, RouteOrFinalize(m, t, v, covered, rule).m.tickets); }
  }

  lemma AnalysisSupports(m: Manifest, t: TicketId, p: PhaseKey, needs: bool, approval: GateRule, covered: bool, rule: GateRule)
    requires RecordAnalysis(m, t, p, needs, approval, covered, rule).Accepted?
    ensures var n := RecordAnalysis(m, t, p, needs, approval, covered, rule).m;
            OneSupports(m.tickets, n.tickets, t) && NewGatesSupported(m.gates, n.gates, n.tickets)
  {
    hide OneTicket, OpensAtMost, RouteOrFinalize;
    var v := m.tickets[t].(facts := m.tickets[t].facts.(analysis := Some(AnalysisRecord(needs, ScopeClear))));
    if !approval.gated { RoutingSupports(m, t, v, covered, rule); }
  }

  lemma DecisionSupports(m: Manifest, t: TicketId, g: GateId, needs: bool, covered: bool, rule: GateRule)
    requires DecideSpecification(m, t, g, needs, covered, rule).Accepted?
    ensures var n := DecideSpecification(m, t, g, needs, covered, rule).m;
            OneSupports(m.tickets, n.tickets, t) && NewGatesSupported(m.gates, n.gates, n.tickets)
  {
    hide OneTicket, OpensAtMost, RouteOrFinalize;
    var v := m.tickets[t].(facts := m.tickets[t].facts.(analysis := Some(AnalysisRecord(needs, ScopeResolved))));
    RoutingSupports(CloseGate(m, g, Resolved), t, v, covered, rule);
  }

  lemma ValidationSupports(m: Manifest, t: TicketId, p: PhaseKey, passed: bool, rule: GateRule)
    requires TicketsSupported(m.tickets) && RecordRouteValidation(m, t, p, passed, rule).Accepted?
    ensures var n := RecordRouteValidation(m, t, p, passed, rule).m;
            OneSupports(m.tickets, n.tickets, t) && NewGatesSupported(m.gates, n.gates, n.tickets)
  {
    hide OneTicket, OpensAtMost, FinalizeAnalysis;
    if passed { FinalizingSupports(m, t, m.tickets[t], rule); }
  }

  predicate OpensAnalysisGate(a: PlanningAction) {
    a.AnalysisRecorded? || a.SpecificationDecided? || a.RouteValidationRecorded?
  }

  lemma CollectionSupports(m: Manifest, t: TicketId, p: PhaseKey, passed: bool, report: Report)
    requires CollectContractResult(m, t, p, passed, report).Accepted?
    ensures var n := CollectContractResult(m, t, p, passed, report).m; OneSupports(m.tickets, n.tickets, t) && n.gates == m.gates
  {
    hide OneTicket, OnePhase, IsCompleted;
  }

  lemma StatusSupports(m: Manifest, a: PlanningAction)
    requires HandlePlanning(m, a).Accepted? && !OpensAnalysisGate(a) && !a.DependenciesConsolidated?
    ensures OneSupports(m.tickets, HandlePlanning(m, a).m.tickets, a.t) && HandlePlanning(m, a).m.gates == m.gates
  {
    hide OneTicket, OpensAtMost, OnePhase, IsCompleted, RecordAnalysis, DecideSpecification, RecordRouteValidation, Consolidate, CollectContractResult;
    if a.ContractResultCollected? { CollectionSupports(m, a.t, a.p, a.passed, a.report); }
  }

  lemma PlansSupport(m: Manifest, schedule: seq<TicketId>, plans: map<TicketId, Plan>)
    requires Consolidate(m, schedule, plans).Accepted?
    ensures var n := Consolidate(m, schedule, plans).m; AllSupport(m.tickets, n.tickets) && n.tickets.Keys == m.tickets.Keys && n.gates == m.gates
  {
    hide CollisionFree, ValidPlan;
  }

  lemma PlanningKeeps(m: Manifest, a: PlanningAction)
    requires Analysed(m) && HandlePlanning(m, a).Accepted?
    ensures Analysed(HandlePlanning(m, a).m)
  {
    hide OneTicket, OpensAtMost, OnePhase, AllSupport, OneSupports, NewGatesSupported, GatesSupported, Effects.GatesGrow, RecordTriage, RecordAnalysis, DecideSpecification, RecordRouteValidation,
         ReconcileRouteValidation, Consolidate, ReconcileReadiness, RecordContractValidation, CollectContractResult, AmendContract;
    var n := HandlePlanning(m, a).m;
    Effects.PlanningGrows(m, a);
    SameQuestionsSupported(m.gates, n.tickets);
    match a {
      case AnalysisRecorded(t, p, needs, approval, covered, rule) => AnalysisSupports(m, t, p, needs, approval, covered, rule);
      case SpecificationDecided(t, g, needs, covered, rule) => DecisionSupports(m, t, g, needs, covered, rule);
      case RouteValidationRecorded(t, p, passed, rule) => ValidationSupports(m, t, p, passed, rule);
      case DependenciesConsolidated(schedule, plans) => PlansSupport(m, schedule, plans);
      case _ => StatusSupports(m, a);
    }
    if !a.DependenciesConsolidated? { OneIsAll(m.tickets, n.tickets, a.t); }
    SupportIsKept(m, n);
  }

  // ----- gates -----

  lemma ResolutionSupports(m: Manifest, g: GateId, approved: bool)
    requires GatesSupported(m.tickets, m.gates) && ResolveGate(m, g, approved).Accepted?
    ensures var n := ResolveGate(m, g, approved).m;
            OneSupports(m.tickets, n.tickets, m.gates[g].ticket) && NewGatesSupported(m.gates, n.gates, n.tickets)
  {
    hide OneTicket;
    assert GateSupported(m.tickets, m.gates[g]);
  }

  lemma AnswerSupports(m: Manifest, g: GateId)
    requires GatesSupported(m.tickets, m.gates) && ProvideInput(m, g).Accepted?
    ensures var n := ProvideInput(m, g).m;
            OneSupports(m.tickets, n.tickets, m.gates[g].ticket) && NewGatesSupported(m.gates, n.gates, n.tickets)
  {
    hide OnlyStatus, NeverLaunched;
    assert GateSupported(m.tickets, m.gates[g]);
  }

  lemma ResumptionSupports(m: Manifest, p: PhaseKey, thread: Option<Reference>, g: GateId)
    requires GatesSupported(m.tickets, m.gates) && ResumePhase(m, p, thread, g).Accepted?
    ensures var n := ResumePhase(m, p, thread, g).m; OneSupports(m.tickets, n.tickets, m.gates[g].ticket) && n.gates == m.gates
  {
    hide OnlyStatus, HoldsSlot, FirstGateOf;
    assert g in m.gates;
    assert GateSupported(m.tickets, m.gates[g]);
  }

  lemma RequestSupports(m: Manifest, t: TicketId, g: GateId, phase: Option<PhaseKey>)
    requires RequestInput(m, t, g, phase).Accepted?
    ensures var n := RequestInput(m, t, g, phase).m; OneSupports(m.tickets, n.tickets, t) && NewGatesSupported(m.gates, n.gates, n.tickets)
  {
    hide OneTicket, OpensAtMost, NeverLaunched;
  }

  lemma GatesKeep(m: Manifest, a: GatesAction)
    requires Analysed(m) && HandleGates(m, a).Accepted?
    ensures Analysed(HandleGates(m, a).m)
  {
    hide OneTicket, OpensAtMost, OnlyStatus, AllSupport, OneSupports, TicketsSupported, GatesSupported, Effects.GatesGrow,
         RequestInput, ResolveGate, ProvideInput, ResumePhase;
    var n := HandleGates(m, a).m;
    Effects.GatesGrown(m, a);
    SameQuestionsSupported(m.gates, n.tickets);
    match a {
      case InputRequested(t, g, phase) => RequestSupports(m, t, g, phase); OneIsAll(m.tickets, n.tickets, t);
      case GateAnnounced(g) => NothingChanges(m.tickets); OneIsAll(m.tickets, n.tickets, "");
      case GateResolved(g, approved) => ResolutionSupports(m, g, approved); OneIsAll(m.tickets, n.tickets, m.gates[g].ticket);
      case InputProvided(g) => AnswerSupports(m, g); OneIsAll(m.tickets, n.tickets, m.gates[g].ticket);
      case PhaseResumed(p, thread, g) => ResumptionSupports(m, p, thread, g); OneIsAll(m.tickets, n.tickets, m.gates[g].ticket);
    }
    SupportIsKept(m, n);
  }

  lemma NothingChanges(ts: Tickets)
    ensures forall t :: OneSupports(ts, ts, t)
  {
  }

  // ----- phases, delivery and finalization -----

  lemma CompletionSupports(m: Manifest, p: PhaseKey, report: Report)
    requires RecordCompletion(m, p, report).Accepted?
    ensures OneSupports(m.tickets, RecordCompletion(m, p, report).m.tickets, TicketOf(m, p))
  {
    hide OneTicket, OnePhase, PairCompleted;
  }

  lemma StopSupports(m: Manifest, p: PhaseKey, t: TicketId, g: GateId, commit: Option<Commit>)
    requires p in m.phases && StopForInput(m, p, t, g, commit).Accepted?
    ensures var n := StopForInput(m, p, t, g, commit).m; OneSupports(m.tickets, n.tickets, t) && NewGatesSupported(m.gates, n.gates, n.tickets)
  {
    hide OneTicket, OnePhase, OpensAtMost;
  }

  lemma TerminationSupports(m: Manifest, p: PhaseKey, outcome: Termination, commit: Option<Commit>)
    requires TerminatePhase(m, p, outcome, commit).Accepted?
    ensures var n := TerminatePhase(m, p, outcome, commit).m; OneSupports(m.tickets, n.tickets, TicketOf(m, p)) && NewGatesSupported(m.gates, n.gates, n.tickets)
  {
    hide OneTicket, OnePhase, OpensAtMost, StopForInput;
    if outcome.EndsNeedsInput? { StopSupports(m, p, m.phases[p].ticket.value, outcome.gate, commit); }
  }

  lemma ReclassificationSupports(m: Manifest, t: TicketId, p: PhaseKey)
    requires ReclassifyAcceptance(m, t, p).Accepted?
    ensures var n := ReclassifyAcceptance(m, t, p).m; OneSupports(m.tickets, n.tickets, t) && NewGatesSupported(m.gates, n.gates, n.tickets)
  {
    hide OneTicket, OnePhase;
  }

  lemma PhasesKeep(m: Manifest, a: PhasesAction)
    requires Analysed(m) && HandlePhases(m, a).Accepted?
    ensures Analysed(HandlePhases(m, a).m)
  {
    hide OneTicket, OnePhase, OpensAtMost, AllSupport, OneSupports, TicketsSupported, GatesSupported, NewGatesSupported, Effects.GatesGrow, Effects.OnlyOpens,
         DispatchPhase, ObserveLaunch, RecordCompletion, TerminatePhase, ReclassifyAcceptance;
    var n := HandlePhases(m, a).m;
    Effects.PhasesOnlyOpen(m, a);
    Effects.OpeningGrows(m.tickets, m.gates, n.gates);
    SameQuestionsSupported(m.gates, n.tickets);
    NothingChanges(m.tickets);
    match a {
      case PhaseCompleted(p, report) => CompletionSupports(m, p, report); OneIsAll(m.tickets, n.tickets, TicketOf(m, p));
      case PhaseTerminated(p, outcome, commit) => TerminationSupports(m, p, outcome, commit); OneIsAll(m.tickets, n.tickets, TicketOf(m, p));
      case AcceptanceReclassified(t, p) => ReclassificationSupports(m, t, p); OneIsAll(m.tickets, n.tickets, t);
      case _ => OneIsAll(m.tickets, n.tickets, "");
    }
    SupportIsKept(m, n);
  }

  /** The ticket that a delivery event is about. */
  function Delivered(m: Manifest, a: DeliveryAction): TicketId {
    if a.ReviewRecorded? then TicketOf(m, a.p) else a.t
  }

  predicate Records(a: DeliveryAction) {
    a.PairDispatched? || a.ContinuationIsolated? || a.ExceptionGranted? || a.RemediationDispatched? || a.TicketMerged?
  }

  lemma RecordingSupports(m: Manifest, a: DeliveryAction)
    requires HandleDelivery(m, a).Accepted? && Records(a)
    ensures OneSupports(m.tickets, HandleDelivery(m, a).m.tickets, a.t) && HandleDelivery(m, a).m.gates == m.gates
  {
    hide OnePhase, OneTicket, OpensAtMost, ScheduleSatisfied, DependenciesSatisfied, ScopeAuthorized, ContractSettled, RequirementAllowed;
    hide IntegratePair, RecordVerification, ClassifyFailure, DispatchReview, RecordReview, ReconcileFindings;
  }

  predicate ReviewsTicket(a: DeliveryAction) {
    a.ReviewDispatched? || a.ReviewRecorded? || a.FindingsReconciled?
  }

  lemma RecordingReviewSupports(m: Manifest, p: PhaseKey, report: Report)
    requires RecordReview(m, p, report).Accepted?
    ensures OneSupports(m.tickets, RecordReview(m, p, report).m.tickets, TicketOf(m, p))
  {
    hide OneTicket, OnePhase;
  }

  lemma ReconcilingSupports(m: Manifest, t: TicketId, blocking: bool, rule: GateRule)
    requires ReconcileFindings(m, t, blocking, rule).Accepted?
    ensures var n := ReconcileFindings(m, t, blocking, rule).m; OneSupports(m.tickets, n.tickets, t) && NewGatesSupported(m.gates, n.gates, n.tickets)
  {
    hide OneTicket, OpensAtMost;
  }

  lemma DispatchingReviewSupports(m: Manifest, t: TicketId, p: PhaseKey, initial: bool, requirement: Requirement, base: Commit)
    requires DispatchReview(m, t, p, initial, requirement, base).Accepted?
    ensures OneSupports(m.tickets, DispatchReview(m, t, p, initial, requirement, base).m.tickets, t)
  {
    hide OneTicket, OnePhase, RequirementAllowed;
  }

  lemma ReviewingSupports(m: Manifest, a: DeliveryAction)
    requires HandleDelivery(m, a).Accepted? && ReviewsTicket(a)
    ensures var n := HandleDelivery(m, a).m; OneSupports(m.tickets, n.tickets, Delivered(m, a)) && NewGatesSupported(m.gates, n.gates, n.tickets)
  {
    hide OnePhase, OneTicket, OpensAtMost, OneSupports, NewGatesSupported, TicketOf;
    hide DispatchPair, IntegratePair, RecordVerification, ClassifyFailure, IsolateContinuation, DispatchReview, RecordReview, ReconcileFindings,
         GrantException, DispatchRemediation, MergeTicket;
    SameQuestionsSupported(m.gates, HandleDelivery(m, a).m.tickets);
    match a
    case ReviewRecorded(p, report) => RecordingReviewSupports(m, p, report);
    case FindingsReconciled(t, blocking, rule) => ReconcilingSupports(m, t, blocking, rule);
    case ReviewDispatched(t, p, initial, requirement, base) => DispatchingReviewSupports(m, t, p, initial, requirement, base);
    case _ =>
  }

  lemma VerifyingSupports(m: Manifest, a: DeliveryAction)
    requires HandleDelivery(m, a).Accepted? && !Records(a) && !ReviewsTicket(a)
    ensures OneSupports(m.tickets, HandleDelivery(m, a).m.tickets, a.t) && HandleDelivery(m, a).m.gates == m.gates
  {
    hide OnePhase, OneTicket, OpensAtMost, HoldsSlot;
    hide DispatchPair, IsolateContinuation, DispatchReview, RecordReview, ReconcileFindings, GrantException, DispatchRemediation, MergeTicket;
  }

  lemma CheckingSupports(m: Manifest, a: DeliveryAction)
    requires HandleDelivery(m, a).Accepted? && !Records(a)
    ensures var n := HandleDelivery(m, a).m; OneSupports(m.tickets, n.tickets, Delivered(m, a)) && NewGatesSupported(m.gates, n.gates, n.tickets)
  {
    hide HandleDelivery, OneSupports, NewGatesSupported;
    SameQuestionsSupported(m.gates, HandleDelivery(m, a).m.tickets);
    if ReviewsTicket(a) { ReviewingSupports(m, a); } else { VerifyingSupports(m, a); }
  }

  lemma DeliveryKeeps(m: Manifest, a: DeliveryAction)
    requires Analysed(m) && HandleDelivery(m, a).Accepted?
    ensures Analysed(HandleDelivery(m, a).m)
  {
    hide AllSupport, OneSupports, TicketsSupported, GatesSupported, NewGatesSupported, Effects.GatesGrow, Effects.OnlyOpens, HandleDelivery, Delivered;
    var n := HandleDelivery(m, a).m;
    Effects.DeliveryOnlyOpens(m, a);
    Effects.OpeningGrows(m.tickets, m.gates, n.gates);
    SameQuestionsSupported(m.gates, n.tickets);
    if Records(a) {
      RecordingSupports(m, a);
      OneIsAll(m.tickets, n.tickets, a.t);
    } else {
      CheckingSupports(m, a);
      OneIsAll(m.tickets, n.tickets, Delivered(m, a));
    }
    SupportIsKept(m, n);
  }

  lemma FinalizationKeeps(m: Manifest, a: FinalizationAction)
    requires Analysed(m) && HandleFinalization(m, a).Accepted?
    ensures Analysed(HandleFinalization(m, a).m)
  {
    hide OnePhase, StartFinalization, RecordFinalPr, RecordRemediationPr, MergeRemediation, RemediateMetadata, MarkFinalPrReady, RecordFinalVerification,
         ClassifyFinalFailure, DispatchFinalReview, RecordFinalReview, StartFeedback, RecordFeedback, ReconcileFinalFindings,
         DispatchFinalRemediation, RecordFinalEvidence, DriftFinalHead, AuthorizeBaseMerge, MergeIntoBase;
  }

  // ----- every event and every run -----

  lemma HandleKeeps(m: Manifest, a: Action)
    requires Analysed(m) && Handle(m, a).Accepted?
    ensures Analysed(Handle(m, a).m)
  {
    hide TicketsSupported, GatesSupported, HandlePlanning, HandleGates, HandlePhases, HandleSlots, HandleDelivery, HandleFinalization, CompleteRun;
    match a
    case Planning(x) => PlanningKeeps(m, x);
    case Gating(x) => GatesKeep(m, x);
    case Phasing(x) => PhasesKeep(m, x);
    case Delivering(x) => DeliveryKeeps(m, x);
    case Finalizing(x) => FinalizationKeeps(m, x);
    case _ =>
  }

  lemma {:induction false} RunKeeps(m: Manifest, events: seq<Event>)
    requires Analysed(m) && Run(m, events).Accepted?
    ensures Analysed(Run(m, events).m)
    decreases |events|
  {
    hide Handle, Analysed;
    if events != [] {
      HandleKeeps(m, events[0].action);
      RunKeeps(Step(m, events[0]).m, events[1..]);
    }
  }

  /** In every manifest that a run reaches, a ready ticket has an analysis. */
  lemma ReadyTicketsAreAnalysed(m: Manifest, events: seq<Event>)
    requires Bootstrapped(m) && Run(m, events).Accepted?
    ensures forall t :: t in Run(m, events).m.tickets && Run(m, events).m.tickets[t].status.ReadyForImplementation? ==>
      Run(m, events).m.tickets[t].facts.analysis.Some?
  {
    hide Run, GatesSupported;
    assert Analysed(m) by { BootstrappedIsAnalysed(m); }
    RunKeeps(m, events);
  }

  lemma BootstrappedIsAnalysed(m: Manifest)
    requires Bootstrapped(m)
    ensures Analysed(m)
  {
  }

  /** So a batch of the planner's offers is accepted, in any order, exactly when the scope of every
      ticket in it is authorized. */
  lemma ReachableBatchIsAccepted(m: Manifest, events: seq<Event>, listing: seq<TicketId>, ds: seq<Pair>)
    requires Bootstrapped(m) && Run(m, events).Accepted?
    requires var n := Run(m, events).m;
             && n.run.live && n.anomalies == 0
             && (forall d :: d in ds ==> d.t in OfferedPairs(n, listing) && ChosenPair(n, d))
             && forall i, j :: 0 <= i < j < |ds| ==> Unrelated(ds[i], ds[j])
    ensures var n := Run(m, events).m;
            Run(n, DispatchesOf(ds)).Accepted? <==> forall d :: d in ds ==> d.t in n.tickets && ScopeAuthorized(n.tickets[d.t])
  {
    hide Run, ScheduleSatisfied, ChosenPair, Unrelated, ScopeAuthorized;
    ReadyTicketsAreAnalysed(m, events);
    OfferedBatchIsAccepted(Run(m, events).m, listing, ds);
  }
}
