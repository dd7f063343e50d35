/** What one accepted event leaves of each phase and each ticket, and what it costs. */
module Aftermath {
  import opened Prelude
  import opened Manifest
  import opened PlanningEvents
  import opened GateEvents
  import opened PhaseEvents
  import opened SlotEvents
  import opened DeliveryEvents
  import opened FinalizationEvents
  import opened Events
  import opened SettledTickets
  import Effects

  // ----- phases -----

  /** The launch that an answered gate of the phase leaves. */
  function AnsweredLaunch(m: Manifest, g: GateId, p: PhaseKey): LaunchState
    requires p in m.phases
  {
    if g !in m.gates || m.gates[g].phase != Some(p) then m.phases[p].launch
    else match m.gates[g].resume
      case SameThread => InputReady
      case PrelaunchRetry => IntentRecorded
      case _ => m.phases[p].launch
  }

  function Observed(v: Phase, launch: LaunchState, thread: Option<Reference>, client: Option<Reference>): Phase {
    v.(launch := launch, thread := if thread.Some? then thread else v.thread, client := if client.Some? then client else v.client)
  }

  function Reported(v: Phase, report: Report): Phase {
    v.(launch := Completed, result := report.commit)
  }

  /** Recording the result of a phase completes it, unless it was completed before. */
  function Recorded(v: Phase, report: Report): Phase {
    if v.launch.Completed? then v else Reported(v, report)
  }

  function Leased(v: Phase, slot: SlotId, lease: Reference): Phase {
    v.(lease := Some(PhaseLease(slot, lease)))
  }

  /** A phase after an accepted event. */
  function PhaseAfter(m: Manifest, a: Action, p: PhaseKey): Phase
    requires p in m.phases
  {
    var v := m.phases[p];
    match a
    case Planning(ContractResultCollected(_, q, _, report)) => if q == p then Reported(v, report) else v
    case Gating(InputProvided(g)) => v.(launch := AnsweredLaunch(m, g, p))
    case Gating(PhaseResumed(q, _, _)) => if q == p then v.(launch := Running) else v
    case Phasing(LaunchObserved(q, launch, thread, client, _)) => if q == p then Observed(v, launch, thread, client) else v
    case Phasing(PhaseCompleted(q, report)) => if q == p then Reported(v, report) else v
    case Phasing(PhaseTerminated(q, outcome, commit)) => if q == p then v.(launch := EndedLaunch(outcome), result := commit) else v
    case Phasing(AcceptanceReclassified(_, q)) => if q == p then v.(launch := Completed) else v
    case Slotting(SlotAcquired(owner, slot, lease, _, _, _)) => if owner == OfPhase(p) then Leased(v, slot, lease) else v
    case Delivering(ReviewRecorded(q, report)) => if q == p then Recorded(v, report) else v
    case Finalizing(FinalReviewRecorded(q, _, report)) => if q == p then Recorded(v, report) else v
    case Finalizing(FinalHeadDrifted(_, _)) => Supersede(v)
    case _ => v
  }

  predicate PhaseIs(m: Manifest, p: PhaseKey, v: Phase) {
    p in m.phases && m.phases[p] == v
  }

  lemma PlanningPhases(m: Manifest, a: PlanningAction, p: PhaseKey)
    requires HandlePlanning(m, a).Accepted? && p in m.phases
    ensures PhaseIs(HandlePlanning(m, a).m, p, PhaseAfter(m, Planning(a), p))
  {
    hide OneTicket, OnePhase, OpensAtMost;
    hide RecordTriage, RecordAnalysis, DecideSpecification, RecordRouteValidation, ReconcileRouteValidation, Consolidate,
         ReconcileReadiness, RecordContractValidation, AmendContract;
  }

  lemma AnsweredPhases(m: Manifest, g: GateId, p: PhaseKey)
    requires ProvideInput(m, g).Accepted? && p in m.phases
    ensures PhaseIs(ProvideInput(m, g).m, p, m.phases[p].(launch := AnsweredLaunch(m, g, p)))
  {
    hide Closes, OnlyStatus;
  }

  lemma ResumedPhases(m: Manifest, q: PhaseKey, thread: Option<Reference>, g: GateId, p: PhaseKey)
    requires ResumePhase(m, q, thread, g).Accepted? && p in m.phases
    ensures PhaseIs(ResumePhase(m, q, thread, g).m, p, if q == p then m.phases[p].(launch := Running) else m.phases[p])
  {
    hide OnlyStatus, HoldsSlot, FirstGateOf;
  }

  lemma GatePhases(m: Manifest, a: GatesAction, p: PhaseKey)
    requires HandleGates(m, a).Accepted? && p in m.phases
    ensures PhaseIs(HandleGates(m, a).m, p, PhaseAfter(m, Gating(a), p))
  {
    hide OneTicket, OnlyStatus, Closes, OpensAtMost, RequestInput, AnnounceGate, ResolveGate, ProvideInput, ResumePhase, AnsweredLaunch;
    match a
    case InputProvided(g) => AnsweredPhases(m, g, p);
    case PhaseResumed(q, thread, g) => ResumedPhases(m, q, thread, g, p);
    case _ =>
  }

  lemma CompletedPhases(m: Manifest, q: PhaseKey, report: Report, p: PhaseKey)
    requires RecordCompletion(m, q, report).Accepted? && p in m.phases
    ensures PhaseIs(RecordCompletion(m, q, report).m, p, if q == p then Reported(m.phases[p], report) else m.phases[p])
  {
    hide OneTicket, OnePhase;
  }

  lemma TerminatedPhases(m: Manifest, q: PhaseKey, outcome: Termination, commit: Option<Commit>, p: PhaseKey)
    requires TerminatePhase(m, q, outcome, commit).Accepted? && p in m.phases
    ensures PhaseIs(TerminatePhase(m, q, outcome, commit).m, p,
                    if q == p then m.phases[p].(launch := EndedLaunch(outcome), result := commit) else m.phases[p])
  {
    hide OneTicket, OnePhase, OpensAtMost;
  }

  lemma PhasePhases(m: Manifest, a: PhasesAction, p: PhaseKey)
    requires HandlePhases(m, a).Accepted? && p in m.phases
    ensures PhaseIs(HandlePhases(m, a).m, p, PhaseAfter(m, Phasing(a), p))
  {
    hide OneTicket, OnePhase, OpensAtMost, DispatchAllowed, LeaseConfirmed, RecordCompletion, TerminatePhase, EndedLaunch;
    match a
    case PhaseCompleted(q, report) => CompletedPhases(m, q, report, p);
    case PhaseTerminated(q, outcome, commit) => TerminatedPhases(m, q, outcome, commit, p);
    case _ =>
  }

  lemma SlotPhases(m: Manifest, a: SlotsAction, p: PhaseKey)
    requires HandleSlots(m, a).Accepted? && p in m.phases
    ensures PhaseIs(HandleSlots(m, a).m, p, PhaseAfter(m, Slotting(a), p))
  {
    hide OnePhase, LeasedSlots, Expects;
  }

  lemma ReviewedPhases(m: Manifest, q: PhaseKey, report: Report, p: PhaseKey)
    requires RecordReview(m, q, report).Accepted? && p in m.phases
    ensures PhaseIs(RecordReview(m, q, report).m, p, if q == p then Recorded(m.phases[p], report) else m.phases[p])
  {
    hide OneTicket, OnePhase;
  }

  lemma DeliveryPhases(m: Manifest, a: DeliveryAction, p: PhaseKey)
    requires HandleDelivery(m, a).Accepted? && p in m.phases
    ensures PhaseIs(HandleDelivery(m, a).m, p, PhaseAfter(m, Delivering(a), p))
  {
    hide OneTicket, OnePhase, OpensAtMost, ScheduleSatisfied;
    hide IntegratePair, RecordVerification, ClassifyFailure, IsolateContinuation, RecordReview, ReconcileFindings, GrantException, MergeTicket;
    if a.ReviewRecorded? { ReviewedPhases(m, a.p, a.report, p); }
  }

  lemma FinallyReviewedPhases(m: Manifest, q: PhaseKey, head: Commit, report: Report, p: PhaseKey)
    requires RecordFinalReview(m, q, head, report).Accepted? && p in m.phases
    ensures PhaseIs(RecordFinalReview(m, q, head, report).m, p, if q == p then Recorded(m.phases[p], report) else m.phases[p])
  {
    hide OnePhase;
  }

  lemma DriftedPhases(m: Manifest, previous: Commit, head: Commit, p: PhaseKey)
    requires DriftFinalHead(m, previous, head).Accepted? && p in m.phases
    ensures PhaseIs(DriftFinalHead(m, previous, head).m, p, Supersede(m.phases[p]))
  {
  }

  lemma FinalDispatchPhases(m: Manifest, a: FinalizationAction, p: PhaseKey)
    requires a.FinalReviewDispatched? || a.FinalRemediationDispatched?
    requires HandleFinalization(m, a).Accepted? && p in m.phases
    ensures PhaseIs(HandleFinalization(m, a).m, p, m.phases[p])
  {
    hide OnePhase, RecordDryRunEvidence, StartFinalization, RecordFinalPr, RecordRemediationPr, MergeRemediation, RemediateMetadata, MarkFinalPrReady,
         RecordFinalVerification, ClassifyFinalFailure, RecordFinalReview, StartFeedback, RecordFeedback, ReconcileFinalFindings,
         RecordFinalEvidence, DriftFinalHead, AuthorizeBaseMerge, MergeIntoBase;
  }

  lemma FinalPhases(m: Manifest, a: FinalizationAction, p: PhaseKey)
    requires HandleFinalization(m, a).Accepted? && p in m.phases
    ensures PhaseIs(HandleFinalization(m, a).m, p, PhaseAfter(m, Finalizing(a), p))
  {
    hide OnePhase, RecordDryRunEvidence, StartFinalization, RecordFinalPr, RecordRemediationPr, MergeRemediation, RemediateMetadata, MarkFinalPrReady,
         RecordFinalVerification, ClassifyFinalFailure, DispatchFinalReview, RecordFinalReview, StartFeedback, RecordFeedback, ReconcileFinalFindings,
         DispatchFinalRemediation, RecordFinalEvidence, DriftFinalHead, AuthorizeBaseMerge, MergeIntoBase, Supersede;
    match a
    case FinalReviewDispatched(_, _) => FinalDispatchPhases(m, a, p);
    case FinalRemediationDispatched(_, _, _, _) => FinalDispatchPhases(m, a, p);
    case FinalReviewRecorded(q, head, report) => FinallyReviewedPhases(m, q, head, report, p);
    case FinalHeadDrifted(previous, head) => DriftedPhases(m, previous, head, p);
    case _ =>
  }

  /** Every accepted event leaves every phase exactly so. */
  lemma PhaseAfterIs(m: Manifest, a: Action, p: PhaseKey)
    requires Handle(m, a).Accepted? && p in m.phases
    ensures p in Handle(m, a).m.phases && Handle(m, a).m.phases[p] == PhaseAfter(m, a, p)
  {
    hide HandlePlanning, HandleGates, HandlePhases, HandleSlots, HandleDelivery, HandleFinalization, CompleteRun;
    match a
    case Planning(x) => PlanningPhases(m, x, p);
    case Gating(x) => GatePhases(m, x, p);
    case Phasing(x) => PhasePhases(m, x, p);
    case Slotting(x) => SlotPhases(m, x, p);
    case Delivering(x) => DeliveryPhases(m, x, p);
    case Finalizing(x) => FinalPhases(m, x, p);
    case _ =>
  }

  // ----- tickets -----

  /** Where a ticket stands in its delivery. */
  datatype Standing = Standing(status: TicketStatus, execution: Option<Execution>, integrated: Option<Commit>)

  function StandingOf(v: Ticket): Standing {
    Standing(v.status, v.records.execution, v.facts.integrated)
  }

  function FinalizedStatus(m: Manifest, rule: GateRule): TicketStatus {
    if rule.gated then AwaitingAnalysisApproval else AnalyzedStatus(m)
  }

  function RoutedStatus(m: Manifest, covered: bool, rule: GateRule): TicketStatus {
    if covered then FinalizedStatus(m, rule) else RouteValidationRequired
  }

  function PlannedStatus(m: Manifest, a: PlanningAction, t: TicketId): TicketStatus
    requires t in m.tickets
  {
    var s := m.tickets[t].status;
    match a
    case TicketTriaged(u, _) => if u == t then Triaged else s
    case AnalysisRecorded(u, _, _, approval, covered, rule) =>
      if u != t then s else if approval.gated then AwaitingSpecificationDecision else RoutedStatus(m, covered, rule)
    case SpecificationDecided(u, _, _, covered, rule) => if u == t then RoutedStatus(m, covered, rule) else s
    case RouteValidationRecorded(u, _, passed, rule) => if u != t then s else if passed then FinalizedStatus(m, rule) else ReconciliationRequired
    case RouteValidationReconciled(u) => if u == t then RouteValidationRequired else s
    case DependenciesConsolidated(_, _) => if s.Analyzed? then ReadyForImplementation else s
    case ReadinessReconciled(u) => if u == t then ReadyForImplementation else s
    case ContractResultCollected(u, _, passed, _) => if u == t && !passed then NeedsContractAmendment else s
    case ContractValidationRecorded(u, _, passed) => if u == t && !passed then NeedsContractAmendment else s
    case ContractAmended(u) => if u == t then ReadyForImplementation else s
  }

  predicate AsksOf(m: Manifest, g: GateId, t: TicketId) {
    g in m.gates && m.gates[g].ticket == t
  }

  function GatedStatus(m: Manifest, a: GatesAction, t: TicketId): TicketStatus
    requires t in m.tickets
  {
    var s := m.tickets[t].status;
    match a
    case InputRequested(u, _, _) => if u == t then AwaitingRequiredInput else s
    case GateAnnounced(_) => s
    case GateResolved(g, approved) =>
      if !AsksOf(m, g, t) then s
      else if !approved then TicketBlocked
      else if m.gates[g].kind.PreMergeGate? then ReadyToMerge else AnalyzedStatus(m)
    case InputProvided(g) =>
      if AsksOf(m, g, t) && !m.gates[g].resume.SameThread? then RestoredStatus(m.gates[g], ReadyForImplementation) else s
    case PhaseResumed(_, _, g) => if AsksOf(m, g, t) then RestoredStatus(m.gates[g], ExecutionPairRunning) else s
  }

  function CompletedStatus(m: Manifest, p: PhaseKey, t: TicketId): TicketStatus
    requires t in m.tickets && p in m.phases
  {
    match m.phases[p].kind
    case Remediation => AwaitingRemediationVerification
    case Implementation | AcceptanceTests => if CompletesPair(m, p, t) then AwaitingExecutionIntegration else m.tickets[t].status
    case _ => m.tickets[t].status
  }

  function PhasedStatus(m: Manifest, a: PhasesAction, t: TicketId): TicketStatus
    requires t in m.tickets
  {
    var s := m.tickets[t].status;
    match a
    case PhaseCompleted(p, _) => if BelongsTo(m, p, t) then CompletedStatus(m, p, t) else s
    case PhaseTerminated(p, outcome, _) => if BelongsTo(m, p, t) then EndedStatus(outcome) else s
    case AcceptanceReclassified(u, _) => if u == t then AwaitingExecutionIntegration else s
    case _ => s
  }

  function DeliveredStanding(m: Manifest, a: DeliveryAction, t: TicketId): Standing
    requires t in m.tickets
  {
    var v := StandingOf(m.tickets[t]);
    if a.ReviewRecorded? then if BelongsTo(m, a.p, t) then v.(status := AwaitingFindingReconciliation) else v
    else if a.t != t then v
    else match a
      case PairDispatched(_, i, acc, fork, _, _, needs) => Standing(ExecutionPairRunning, Some(Execution(i, acc, needs, fork.implementation)), None)
      case PairIntegrated(_, head) => v.(status := AwaitingVerification, integrated := Some(head))
      case VerificationRecorded(_, passed) => v.(status := if passed then FunctionalReady else VerificationFailed)
      case FailureClassified(_, next) => v.(status := if next.Remediate? then NeedsRemediation else if next.Retry? then AwaitingVerification else TicketBlocked)
      case ReviewDispatched(_, _, _, _, _) => v.(status := AutoReview)
      case FindingsReconciled(_, blocking, rule) =>
        v.(status := if blocking then NeedsRemediation else if rule.gated then AwaitingPreMergeApproval else ReadyToMerge)
      case RemediationDispatched(_, _, _, _) => v.(status := Fixing)
      case TicketMerged(_, _, _) => v.(status := MergedIntoTrain)
      case _ => v
  }

  /** Where a ticket stands after an accepted event. */
  function StandingAfter(m: Manifest, a: Action, t: TicketId): Standing
    requires t in m.tickets
  {
    var v := StandingOf(m.tickets[t]);
    match a
    case Planning(x) => v.(status := PlannedStatus(m, x, t))
    case Gating(x) => v.(status := GatedStatus(m, x, t))
    case Phasing(x) => v.(status := PhasedStatus(m, x, t))
    case Delivering(x) => DeliveredStanding(m, x, t)
    case Finalizing(x) => if x.DryRunEvidence? then v.(status := AnalysisReported) else v
    case _ => v
  }

  predicate Stands(m: Manifest, t: TicketId, v: Standing) {
    t in m.tickets && StandingOf(m.tickets[t]) == v
  }

  lemma RoutingStands(m: Manifest, u: TicketId, v: Ticket, covered: bool, rule: GateRule, t: TicketId)
    requires u in m.tickets && t in m.tickets && RouteOrFinalize(m, u, v, covered, rule).Accepted?
    ensures Stands(RouteOrFinalize(m, u, v, covered, rule).m, t,
                   if u == t then StandingOf(v).(status := RoutedStatus(m, covered, rule)) else StandingOf(m.tickets[t]))
  {
    hide OneTicket, OpensAtMost;
  }

  lemma AnalysisStands(m: Manifest, a: PlanningAction, t: TicketId)
    requires a.AnalysisRecorded? || a.SpecificationDecided?
    requires HandlePlanning(m, a).Accepted? && t in m.tickets
    ensures Stands(HandlePlanning(m, a).m, t, StandingOf(m.tickets[t]).(status := PlannedStatus(m, a, t)))
  {
    hide OneTicket, OnePhase, OpensAtMost, RouteOrFinalize, RoutedStatus;
    hide RecordTriage, RecordRouteValidation, ReconcileRouteValidation, Consolidate, ReconcileReadiness, RecordContractValidation,
         CollectContractResult, AmendContract;
    if a.SpecificationDecided? {
      var v := m.tickets[a.t].(facts := m.tickets[a.t].facts.(analysis := Some(AnalysisRecord(a.needsContract, ScopeResolved))));
      RoutingStands(CloseGate(m, a.g, Resolved), a.t, v, a.covered, a.rule, t);
      SameRouting(m, CloseGate(m, a.g, Resolved), a.covered, a.rule);
    } else if !a.approval.gated {
      var v := m.tickets[a.t].(facts := m.tickets[a.t].facts.(analysis := Some(AnalysisRecord(a.needsContract, ScopeClear))));
      RoutingStands(m, a.t, v, a.covered, a.rule, t);
    }
  }

  lemma SameRouting(m: Manifest, n: Manifest, covered: bool, rule: GateRule)
    requires n.consolidated == m.consolidated
    ensures RoutedStatus(n, covered, rule) == RoutedStatus(m, covered, rule)
  {
  }

  lemma VerdictStands(m: Manifest, u: TicketId, p: PhaseKey, passed: bool, t: TicketId)
    requires RecordContractValidation(m, u, p, passed).Accepted? && t in m.tickets
    ensures Stands(RecordContractValidation(m, u, p, passed).m, t,
                   StandingOf(m.tickets[t]).(status := if u == t && !passed then NeedsContractAmendment else m.tickets[t].status))
  {
    hide OneTicket, IsCompleted;
  }

  lemma CollectionStands(m: Manifest, u: TicketId, p: PhaseKey, passed: bool, report: Report, t: TicketId)
    requires CollectContractResult(m, u, p, passed, report).Accepted? && t in m.tickets
    ensures Stands(CollectContractResult(m, u, p, passed, report).m, t,
                   StandingOf(m.tickets[t]).(status := if u == t && !passed then NeedsContractAmendment else m.tickets[t].status))
  {
    hide OneTicket, OnePhase, RecordContractValidation;
    VerdictStands(CompletePhase(m, p, report).m, u, p, passed, t);
  }

  lemma ContractStands(m: Manifest, a: PlanningAction, t: TicketId)
    requires a.ContractResultCollected? || a.ContractValidationRecorded? || a.ContractAmended?
    requires HandlePlanning(m, a).Accepted? && t in m.tickets
    ensures Stands(HandlePlanning(m, a).m, t, StandingOf(m.tickets[t]).(status := PlannedStatus(m, a, t)))
  {
    hide OneTicket, OnePhase, OpensAtMost;
    hide RecordTriage, RecordAnalysis, DecideSpecification, RecordRouteValidation, ReconcileRouteValidation, Consolidate, ReconcileReadiness,
         RecordContractValidation, CollectContractResult;
    match a
    case ContractResultCollected(u, p, passed, report) => CollectionStands(m, u, p, passed, report, t);
    case ContractValidationRecorded(u, p, passed) => VerdictStands(m, u, p, passed, t);
    case _ =>
  }

  lemma TriageStands(m: Manifest, a: PlanningAction, t: TicketId)
    requires a.TicketTriaged? || a.RouteValidationRecorded? || a.RouteValidationReconciled? || a.ReadinessReconciled?
    requires HandlePlanning(m, a).Accepted? && t in m.tickets
    ensures Stands(HandlePlanning(m, a).m, t, StandingOf(m.tickets[t]).(status := PlannedStatus(m, a, t)))
  {
    hide OneTicket, OnePhase, OpensAtMost;
    hide RecordAnalysis, DecideSpecification, Consolidate, RecordContractValidation, CollectContractResult, AmendContract;
  }

  lemma ConsolidationStands(m: Manifest, schedule: seq<TicketId>, plans: map<TicketId, Plan>, t: TicketId)
    requires Consolidate(m, schedule, plans).Accepted? && t in m.tickets
    ensures Stands(Consolidate(m, schedule, plans).m, t,
                   StandingOf(m.tickets[t]).(status := PlannedStatus(m, DependenciesConsolidated(schedule, plans), t)))
  {
    hide CollisionFree, ValidPlan, ReadyToConsolidate, DependencyGraph;
  }

  lemma PlanningStands(m: Manifest, a: PlanningAction, t: TicketId)
    requires HandlePlanning(m, a).Accepted? && t in m.tickets
    ensures Stands(HandlePlanning(m, a).m, t, StandingOf(m.tickets[t]).(status := PlannedStatus(m, a, t)))
  {
    if a.DependenciesConsolidated? {
      hide PlannedStatus, RecordTriage, RecordAnalysis, DecideSpecification, RecordRouteValidation, ReconcileRouteValidation, Consolidate,
           ReconcileReadiness, RecordContractValidation, CollectContractResult, AmendContract;
      ConsolidationStands(m, a.schedule, a.plans, t);
    } else {
      hide HandlePlanning, PlannedStatus;
      if a.AnalysisRecorded? || a.SpecificationDecided? {
        AnalysisStands(m, a, t);
      } else if a.ContractResultCollected? || a.ContractValidationRecorded? || a.ContractAmended? {
        ContractStands(m, a, t);
      } else {
        TriageStands(m, a, t);
      }
    }
  }

  lemma RequestStands(m: Manifest, u: TicketId, g: GateId, phase: Option<PhaseKey>, t: TicketId)
    requires RequestInput(m, u, g, phase).Accepted? && t in m.tickets
    ensures Stands(RequestInput(m, u, g, phase).m, t, StandingOf(m.tickets[t]).(status := GatedStatus(m, InputRequested(u, g, phase), t)))
  {
    hide OneTicket, OpensAtMost;
  }

  lemma DecisionStands(m: Manifest, g: GateId, approved: bool, t: TicketId)
    requires ResolveGate(m, g, approved).Accepted? && t in m.tickets
    ensures Stands(ResolveGate(m, g, approved).m, t, StandingOf(m.tickets[t]).(status := GatedStatus(m, GateResolved(g, approved), t)))
  {
    hide OneTicket, Closes;
  }

  lemma AnswerStands(m: Manifest, g: GateId, t: TicketId)
    requires ProvideInput(m, g).Accepted? && t in m.tickets
    ensures Stands(ProvideInput(m, g).m, t, StandingOf(m.tickets[t]).(status := GatedStatus(m, InputProvided(g), t)))
  {
    hide Closes, OnlyStatus, NeverLaunched, RestoredStatus;
  }

  lemma ResumptionStands(m: Manifest, p: PhaseKey, thread: Option<Reference>, g: GateId, t: TicketId)
    requires ResumePhase(m, p, thread, g).Accepted? && t in m.tickets
    ensures Stands(ResumePhase(m, p, thread, g).m, t, StandingOf(m.tickets[t]).(status := GatedStatus(m, PhaseResumed(p, thread, g), t)))
  {
    hide OnlyStatus, HoldsSlot, FirstGateOf, RestoredStatus;
  }

  lemma GatesStand(m: Manifest, a: GatesAction, t: TicketId)
    requires HandleGates(m, a).Accepted? && t in m.tickets
    ensures Stands(HandleGates(m, a).m, t, StandingOf(m.tickets[t]).(status := GatedStatus(m, a, t)))
  {
    if a.GateAnnounced? {
      hide RequestInput, ResolveGate, ProvideInput, ResumePhase;
    } else {
      hide RequestInput, AnnounceGate, ResolveGate, ProvideInput, ResumePhase, GatedStatus;
      match a
      case InputRequested(u, g, phase) => RequestStands(m, u, g, phase, t);
      case GateResolved(g, approved) => DecisionStands(m, g, approved, t);
      case InputProvided(g) => AnswerStands(m, g, t);
      case PhaseResumed(p, thread, g) => ResumptionStands(m, p, thread, g, t);
      case _ =>
    }
  }

  lemma PairHalfStands(m: Manifest, p: PhaseKey, report: Report, t: TicketId)
    requires RecordCompletion(m, p, report).Accepted? && t in m.tickets && (m.phases[p].kind.Implementation? || m.phases[p].kind.AcceptanceTests?)
    ensures Stands(RecordCompletion(m, p, report).m, t, StandingOf(m.tickets[t]).(
              status := if BelongsTo(m, p, t) && CompletesPair(m, p, t) then AwaitingExecutionIntegration else m.tickets[t].status))
  {
    hide OneTicket, OnePhase, PairCompleted, CompletesPair;
    if BelongsTo(m, p, t) && m.tickets[t].records.execution.Some? { CompletingThePair(m, p, report, t); }
  }

  lemma OtherCompletionStands(m: Manifest, p: PhaseKey, report: Report, t: TicketId)
    requires RecordCompletion(m, p, report).Accepted? && t in m.tickets && !(m.phases[p].kind.Implementation? || m.phases[p].kind.AcceptanceTests?)
    ensures Stands(RecordCompletion(m, p, report).m, t, StandingOf(m.tickets[t]).(
              status := if BelongsTo(m, p, t) && m.phases[p].kind.Remediation? then AwaitingRemediationVerification else m.tickets[t].status))
  {
    hide OneTicket, OnePhase, PairCompleted;
  }

  lemma CompletionStands(m: Manifest, p: PhaseKey, report: Report, t: TicketId)
    requires RecordCompletion(m, p, report).Accepted? && t in m.tickets
    ensures Stands(RecordCompletion(m, p, report).m, t, StandingOf(m.tickets[t]).(status := PhasedStatus(m, PhaseCompleted(p, report), t)))
  {
    assert p in m.phases;
    hide RecordCompletion, CompletesPair;
    if m.phases[p].kind.Implementation? || m.phases[p].kind.AcceptanceTests? {
      PairHalfStands(m, p, report, t);
    } else {
      OtherCompletionStands(m, p, report, t);
    }
  }

  lemma StopStands(m: Manifest, p: PhaseKey, u: TicketId, g: GateId, commit: Option<Commit>, t: TicketId)
    requires p in m.phases && t in m.tickets && StopForInput(m, p, u, g, commit).Accepted?
    ensures Stands(StopForInput(m, p, u, g, commit).m, t,
                   StandingOf(m.tickets[t]).(status := if u == t then AwaitingRequiredInput else m.tickets[t].status))
  {
    hide OneTicket, OnePhase, OpensAtMost;
  }

  lemma EndStands(m: Manifest, p: PhaseKey, outcome: Termination, commit: Option<Commit>, t: TicketId)
    requires p in m.phases && t in m.tickets && !outcome.EndsNeedsInput? && StopForGood(m, p, outcome, commit).Accepted?
    ensures Stands(StopForGood(m, p, outcome, commit).m, t,
                   StandingOf(m.tickets[t]).(status := if BelongsTo(m, p, t) then EndedStatus(outcome) else m.tickets[t].status))
  {
    hide OneTicket, OnePhase;
  }

  lemma TerminationStands(m: Manifest, p: PhaseKey, outcome: Termination, commit: Option<Commit>, t: TicketId)
    requires TerminatePhase(m, p, outcome, commit).Accepted? && t in m.tickets
    ensures Stands(TerminatePhase(m, p, outcome, commit).m, t,
                   StandingOf(m.tickets[t]).(status := PhasedStatus(m, PhaseTerminated(p, outcome, commit), t)))
  {
    hide OneTicket, OnePhase, OpensAtMost, StopForInput, StopForGood;
    if outcome.EndsNeedsInput? {
      StopStands(m, p, m.phases[p].ticket.value, outcome.gate, commit, t);
    } else {
      EndStands(m, p, outcome, commit, t);
    }
  }

  lemma PhasesStand(m: Manifest, a: PhasesAction, t: TicketId)
    requires HandlePhases(m, a).Accepted? && t in m.tickets
    ensures Stands(HandlePhases(m, a).m, t, StandingOf(m.tickets[t]).(status := PhasedStatus(m, a, t)))
  {
    if a.PhaseCompleted? || a.PhaseTerminated? {
      hide DispatchPhase, ObserveLaunch, RecordCompletion, TerminatePhase, ReclassifyAcceptance, PhasedStatus;
      match a
      case PhaseCompleted(p, report) => CompletionStands(m, p, report, t);
      case PhaseTerminated(p, outcome, commit) => TerminationStands(m, p, outcome, commit, t);
      case _ =>
    } else {
      hide OneTicket, OnePhase, DispatchAllowed, LeaseConfirmed, RecordCompletion, TerminatePhase;
    }
  }

  lemma ReviewStands(m: Manifest, p: PhaseKey, report: Report, t: TicketId)
    requires RecordReview(m, p, report).Accepted? && t in m.tickets
    ensures Stands(RecordReview(m, p, report).m, t, DeliveredStanding(m, ReviewRecorded(p, report), t))
  {
    hide OneTicket, OnePhase;
  }

  /** Events that give work on a ticket out, or end it. */
  predicate GivesOut(a: DeliveryAction) {
    a.PairDispatched? || a.ReviewDispatched? || a.RemediationDispatched? || a.TicketMerged? || a.ContinuationIsolated? || a.ExceptionGranted?
  }

  lemma GivingOutStands(m: Manifest, a: DeliveryAction, t: TicketId)
    requires GivesOut(a) && HandleDelivery(m, a).Accepted? && t in m.tickets
    ensures Stands(HandleDelivery(m, a).m, t, DeliveredStanding(m, a, t))
  {
    hide OneTicket, OnePhase, OpensAtMost, ScheduleSatisfied;
    hide IntegratePair, RecordVerification, ClassifyFailure, RecordReview, ReconcileFindings;
  }

  lemma ReconciliationStands(m: Manifest, t0: TicketId, blocking: bool, rule: GateRule, t: TicketId)
    requires ReconcileFindings(m, t0, blocking, rule).Accepted? && t in m.tickets
    ensures Stands(ReconcileFindings(m, t0, blocking, rule).m, t, DeliveredStanding(m, FindingsReconciled(t0, blocking, rule), t))
  {
    hide OneTicket, OpensAtMost;
  }

  lemma CheckingStands(m: Manifest, a: DeliveryAction, t: TicketId)
    requires !GivesOut(a) && !a.ReviewRecorded? && HandleDelivery(m, a).Accepted? && t in m.tickets
    ensures Stands(HandleDelivery(m, a).m, t, DeliveredStanding(m, a, t))
  {
    if a.FindingsReconciled? {
      hide DispatchPair, IntegratePair, RecordVerification, ClassifyFailure, IsolateContinuation, DispatchReview, RecordReview, ReconcileFindings,
           GrantException, DispatchRemediation, MergeTicket, DeliveredStanding;
      ReconciliationStands(m, a.t, a.blocking, a.rule, t);
    } else {
      hide OneTicket, HeadKnown, HoldsSlot, PairReported;
      hide DispatchPair, IsolateContinuation, DispatchReview, RecordReview, ReconcileFindings, GrantException, DispatchRemediation, MergeTicket;
    }
  }

  lemma DeliveryStands(m: Manifest, a: DeliveryAction, t: TicketId)
    requires HandleDelivery(m, a).Accepted? && t in m.tickets
    ensures Stands(HandleDelivery(m, a).m, t, DeliveredStanding(m, a, t))
  {
    if a.ReviewRecorded? {
      hide DispatchPair, IntegratePair, RecordVerification, ClassifyFailure, IsolateContinuation, DispatchReview, RecordReview, ReconcileFindings,
           GrantException, DispatchRemediation, MergeTicket, DeliveredStanding;
      ReviewStands(m, a.p, a.report, t);
    } else {
      hide HandleDelivery, DeliveredStanding;
      if GivesOut(a) { GivingOutStands(m, a, t); } else { CheckingStands(m, a, t); }
    }
  }

  lemma FinalizationStands(m: Manifest, a: FinalizationAction, t: TicketId)
    requires HandleFinalization(m, a).Accepted? && t in m.tickets
    ensures Stands(HandleFinalization(m, a).m, t, StandingAfter(m, Finalizing(a), t))
  {
    hide OnePhase, StartFinalization, RecordFinalPr, RecordRemediationPr, MergeRemediation, RemediateMetadata, MarkFinalPrReady,
         RecordFinalVerification, ClassifyFinalFailure, DispatchFinalReview, RecordFinalReview, StartFeedback, RecordFeedback, ReconcileFinalFindings,
         DispatchFinalRemediation, RecordFinalEvidence, DriftFinalHead, AuthorizeBaseMerge, MergeIntoBase;
  }

  /** Every accepted event leaves every ticket exactly so, as far as its delivery goes. */
  lemma StandingAfterIs(m: Manifest, a: Action, t: TicketId)
    requires Handle(m, a).Accepted? && t in m.tickets
    ensures t in Handle(m, a).m.tickets && StandingOf(Handle(m, a).m.tickets[t]) == StandingAfter(m, a, t)
  {
    hide HandlePlanning, HandleGates, HandlePhases, HandleSlots, HandleDelivery, HandleFinalization, CompleteRun;
    hide PlannedStatus, GatedStatus, PhasedStatus, DeliveredStanding;
    match a
    case Planning(x) => PlanningStands(m, x, t);
    case Gating(x) => GatesStand(m, x, t);
    case Phasing(x) => PhasesStand(m, x, t);
    case Delivering(x) => DeliveryStands(m, x, t);
    case Finalizing(x) => FinalizationStands(m, x, t);
    case _ =>
  }

  lemma GatesKeepTickets(m: Manifest, a: GatesAction)
    requires HandleGates(m, a).Accepted?
    ensures HandleGates(m, a).m.tickets.Keys == m.tickets.Keys
  {
    hide OneTicket, OpensAtMost, Closes, RequestInput, AnnounceGate, ResolveGate, ProvideInput, ResumePhase;
    if !Effects.RestoresStatus(a) { Effects.GatesAreOrdinary(m, a); }
  }

  lemma DeliveryKeepsTickets(m: Manifest, a: DeliveryAction)
    requires HandleDelivery(m, a).Accepted?
    ensures HandleDelivery(m, a).m.tickets.Keys == m.tickets.Keys
  {
    if Effects.ChangesRecords(a) || Effects.ChangesBudget(a) {
      hide OneTicket, OpensAtMost, OnePhase, ScheduleSatisfied, DependenciesSatisfied, ScopeAuthorized;
      hide IntegratePair, RecordVerification, ClassifyFailure, DispatchReview, RecordReview, ReconcileFindings;
    } else {
      hide HandleDelivery;
      Effects.DeliveryIsOrdinary(m, a);
    }
  }

  lemma PlanningKeepsTickets(m: Manifest, a: PlanningAction)
    requires HandlePlanning(m, a).Accepted?
    ensures HandlePlanning(m, a).m.tickets.Keys == m.tickets.Keys
  {
    if a.DependenciesConsolidated? {
      hide RecordTriage, RecordAnalysis, DecideSpecification, RecordRouteValidation, ReconcileRouteValidation, ReconcileReadiness,
           RecordContractValidation, CollectContractResult, AmendContract, CollisionFree, ValidPlan, ReadyToConsolidate, DependencyGraph;
    } else {
      hide HandlePlanning;
      Effects.PlanningIsOrdinary(m, a);
    }
  }

  /** No event adds or loses a ticket. */
  lemma TicketsStay(m: Manifest, a: Action)
    requires Handle(m, a).Accepted?
    ensures Handle(m, a).m.tickets.Keys == m.tickets.Keys
  {
    hide HandlePlanning, HandleGates, HandlePhases, HandleSlots, HandleDelivery, HandleFinalization, CompleteRun;
    match a
    case Planning(x) => PlanningKeepsTickets(m, x);
    case Gating(x) => GatesKeepTickets(m, x);
    case Phasing(x) => Effects.PhasesAreOrdinary(m, x);
    case Delivering(x) => DeliveryKeepsTickets(m, x);
    case Finalizing(x) => Effects.FinalizationIsOrdinary(m, x);
    case _ =>
  }

  // ----- new phases -----

  /** The event adds the phase `p`. */
  predicate Adds(a: Action, p: PhaseKey) {
    match a
    case Phasing(PhaseDispatched(q, _, _, _, _)) => q == p
    case Delivering(PairDispatched(_, i, acc, _, _, _, _)) => i == p || acc == p
    case Delivering(ReviewDispatched(_, q, _, _, _)) => q == p
    case Delivering(RemediationDispatched(_, q, _, _)) => q == p
    case Finalizing(FinalReviewDispatched(q, _)) => q == p
    case Finalizing(FinalRemediationDispatched(q, _, _, _)) => q == p
    case _ => false
  }

  predicate Added(m: Manifest, p: PhaseKey, added: bool) {
    if added then p in m.phases && m.phases[p].launch.IntentRecorded? else p !in m.phases
  }

  lemma GatesAdd(m: Manifest, a: GatesAction, p: PhaseKey)
    requires HandleGates(m, a).Accepted? && p !in m.phases
    ensures Added(HandleGates(m, a).m, p, false)
  {
    hide OneTicket, OnlyStatus, Closes, OpensAtMost, RequestInput, AnnounceGate, ResolveGate, HoldsSlot, FirstGateOf, NeverLaunched;
  }

  lemma PhasesAdd(m: Manifest, a: PhasesAction, p: PhaseKey)
    requires HandlePhases(m, a).Accepted? && p !in m.phases
    ensures Added(HandlePhases(m, a).m, p, Adds(Phasing(a), p))
  {
    if EndsPhase(a) {
      EndedIsThere(m, a);
      hide OneTicket, OpensAtMost, DispatchPhase, ObserveLaunch, RecordCompletion, TerminatePhase, ReclassifyAcceptance;
      OnePhaseAdds(m, HandlePhases(m, a).m, a.p, p);
    } else {
      hide OneTicket, OpensAtMost, DispatchAllowed, LeaseConfirmed, RecordCompletion, TerminatePhase, ReclassifyAcceptance;
    }
  }

  predicate EndsPhase(a: PhasesAction) {
    a.PhaseCompleted? || a.PhaseTerminated? || a.AcceptanceReclassified?
  }

  lemma EndedIsThere(m: Manifest, a: PhasesAction)
    requires EndsPhase(a) && HandlePhases(m, a).Accepted?
    ensures a.p in m.phases
  {
    hide OneTicket, OnePhase, OpensAtMost, DispatchPhase, ObserveLaunch, StopForInput, StopForGood;
  }

  lemma OnePhaseAdds(m: Manifest, n: Manifest, q: PhaseKey, p: PhaseKey)
    requires OnePhase(m.phases, n.phases, q) && q != p && p !in m.phases
    ensures p !in n.phases
  {
  }

  lemma DeliveryAdds(m: Manifest, a: DeliveryAction, p: PhaseKey)
    requires HandleDelivery(m, a).Accepted? && p !in m.phases
    ensures Added(HandleDelivery(m, a).m, p, Adds(Delivering(a), p))
  {
    hide OneTicket, OpensAtMost, ScheduleSatisfied;
    hide IntegratePair, RecordVerification, ClassifyFailure, IsolateContinuation, ReconcileFindings, GrantException, MergeTicket;
  }

  lemma FinalizationAdds(m: Manifest, a: FinalizationAction, p: PhaseKey)
    requires HandleFinalization(m, a).Accepted? && p !in m.phases
    ensures Added(HandleFinalization(m, a).m, p, Adds(Finalizing(a), p))
  {
    hide RecordDryRunEvidence, StartFinalization, RecordFinalPr, RecordRemediationPr, MergeRemediation, RemediateMetadata, MarkFinalPrReady,
         RecordFinalVerification, ClassifyFinalFailure, StartFeedback, RecordFeedback, ReconcileFinalFindings,
         RecordFinalEvidence, AuthorizeBaseMerge, MergeIntoBase;
  }

  lemma PlanningAdds(m: Manifest, a: PlanningAction, p: PhaseKey)
    requires HandlePlanning(m, a).Accepted? && p !in m.phases
    ensures p !in HandlePlanning(m, a).m.phases
  {
    hide OneTicket, OpensAtMost, RecordTriage, RecordAnalysis, DecideSpecification, RecordRouteValidation, ReconcileRouteValidation, Consolidate,
         ReconcileReadiness, RecordContractValidation, CollectContractResult, AmendContract;
    if a.ContractResultCollected? { CollectionAdds(m, a, p); }
  }

  lemma CollectionAdds(m: Manifest, a: PlanningAction, p: PhaseKey)
    requires a.ContractResultCollected? && CollectContractResult(m, a.t, a.p, a.passed, a.report).Accepted? && p !in m.phases
    ensures p !in CollectContractResult(m, a.t, a.p, a.passed, a.report).m.phases
  {
    hide OneTicket, RecordContractValidation;
  }

  /** Every accepted event adds exactly those phases, each with its launch intended. */
  lemma AddsExactly(m: Manifest, a: Action, p: PhaseKey)
    requires Handle(m, a).Accepted? && p !in m.phases
    ensures Added(Handle(m, a).m, p, Adds(a, p))
  {
    hide HandlePlanning, HandleGates, HandlePhases, HandleSlots, HandleDelivery, HandleFinalization, CompleteRun;
    match a
    case Planning(x) => PlanningAdds(m, x, p);
    case Gating(x) => GatesAdd(m, x, p);
    case Phasing(x) => PhasesAdd(m, x, p);
    case Slotting(x) => SlotsAdd(m, x, p);
    case Delivering(x) => DeliveryAdds(m, x, p);
    case Finalizing(x) => FinalizationAdds(m, x, p);
    case _ =>
  }

  lemma SlotsAdd(m: Manifest, a: SlotsAction, p: PhaseKey)
    requires HandleSlots(m, a).Accepted? && p !in m.phases
    ensures p !in HandleSlots(m, a).m.phases
  {
    hide OnePhase, LeasedSlots, Expects;
  }

  // ----- costs -----

  /** Recording a review completes its phase, unless that was completed before. */
  function ReviewExcess(m: Manifest, p: PhaseKey, report: Report): nat {
    if p in m.phases && m.phases[p].launch.Completed? then 0 else report.excess
  }

  /** The cost anomalies that an accepted event opens. */
  function Excess(m: Manifest, a: Action): nat {
    if a.Phasing? && a.phasing.PhaseCompleted? then a.phasing.report.excess
    else if a.Delivering? && a.delivering.ReviewRecorded? then ReviewExcess(m, a.delivering.p, a.delivering.report)
    else if a.Finalizing? && a.finalizing.FinalReviewRecorded? then ReviewExcess(m, a.finalizing.p, a.finalizing.report)
    else 0
  }

  /** A collected contract result opens no anomaly: it would have been refused. */
  lemma PlanningCostsNothing(m: Manifest, a: PlanningAction)
    requires HandlePlanning(m, a).Accepted? && m.anomalies == 0
    ensures HandlePlanning(m, a).m.anomalies == 0
  {
    hide OneTicket, OnePhase, OpensAtMost;
    hide RecordTriage, RecordAnalysis, DecideSpecification, RecordRouteValidation, ReconcileRouteValidation, Consolidate,
         ReconcileReadiness, RecordContractValidation, AmendContract;
  }

  lemma PhasesCost(m: Manifest, a: PhasesAction)
    requires HandlePhases(m, a).Accepted?
    ensures HandlePhases(m, a).m.anomalies == m.anomalies + Excess(m, Phasing(a))
  {
    hide OneTicket, OnePhase, OpensAtMost, DispatchPhase, ObserveLaunch, TerminatePhase, ReclassifyAcceptance;
  }

  lemma DeliveryCosts(m: Manifest, a: DeliveryAction)
    requires HandleDelivery(m, a).Accepted?
    ensures HandleDelivery(m, a).m.anomalies == m.anomalies + Excess(m, Delivering(a))
  {
    hide OneTicket, OnePhase, OpensAtMost, DispatchPair, IntegratePair, RecordVerification, ClassifyFailure, IsolateContinuation, DispatchReview,
         ReconcileFindings, GrantException, DispatchRemediation, MergeTicket;
  }

  lemma FinalizationCosts(m: Manifest, a: FinalizationAction)
    requires HandleFinalization(m, a).Accepted?
    ensures HandleFinalization(m, a).m.anomalies == m.anomalies + Excess(m, Finalizing(a))
  {
    hide OnePhase, RecordDryRunEvidence, StartFinalization, RecordFinalPr, RecordRemediationPr, MergeRemediation, RemediateMetadata, MarkFinalPrReady,
         RecordFinalVerification, ClassifyFinalFailure, DispatchFinalReview, StartFeedback, RecordFeedback, ReconcileFinalFindings,
         DispatchFinalRemediation, RecordFinalEvidence, DriftFinalHead, AuthorizeBaseMerge, MergeIntoBase;
  }

  lemma AnomaliesAfter(m: Manifest, a: Action)
    requires m.anomalies == 0 && Handle(m, a).Accepted?
    ensures Handle(m, a).m.anomalies == Excess(m, a)
  {
    hide HandlePlanning, HandleGates, HandlePhases, HandleSlots, HandleDelivery, HandleFinalization, CompleteRun, ReviewExcess;
    match a
    case Planning(x) => PlanningCostsNothing(m, x);
    case Phasing(x) => PhasesCost(m, x);
    case Delivering(x) => DeliveryCosts(m, x);
    case Finalizing(x) => FinalizationCosts(m, x);
    case _ =>
  }

  lemma CompletionAfter(m: Manifest, a: Action)
    requires Handle(m, a).Accepted?
    ensures Handle(m, a).m.completed <==> m.completed || a.RunCompleted?
  {
    hide HandlePlanning, HandleGates, HandlePhases, HandleSlots, HandleDelivery, HandleFinalization, Completable;
  }
}
