/** How long a ticket stays blocked or merged.

    Several branches set a ticket's status without looking at the one it has, so neither status is
    final. `Revives` says, for every event, exactly when such a status is lost. */
module SettledTickets {
  import opened Prelude
  import opened Manifest
  import opened PlanningEvents
  import opened GateEvents
  import opened PhaseEvents
  import opened SlotEvents
  import opened DeliveryEvents
  import opened FinalizationEvents
  import opened Events

  predicate Settled(m: Manifest, t: TicketId) {
    t in m.tickets && (m.tickets[t].status.TicketBlocked? || m.tickets[t].status.MergedIntoTrain?)
  }

  predicate BelongsTo(m: Manifest, p: PhaseKey, t: TicketId) {
    p in m.phases && m.phases[p].ticket == Some(t)
  }

  predicate DoneOr(m: Manifest, q: PhaseKey, p: PhaseKey) {
    q in m.phases && (q == p || m.phases[q].launch.Completed?)
  }

  /** Completing `p` leaves both halves of the ticket's pair complete. */
  predicate CompletesPair(m: Manifest, p: PhaseKey, t: TicketId)
    requires t in m.tickets
  {
    m.tickets[t].records.execution.Some?
    && DoneOr(m, m.tickets[t].records.execution.value.implementation, p)
    && DoneOr(m, m.tickets[t].records.execution.value.acceptance, p)
  }

  predicate GateRevives(m: Manifest, a: GatesAction, t: TicketId)
    requires t in m.tickets
  {
    match a
    case GateResolved(g, approved) =>
      g in m.gates && m.gates[g].ticket == t && (approved || !m.tickets[t].status.TicketBlocked?)
    case InputProvided(g) =>
      g in m.gates && m.gates[g].ticket == t && !m.gates[g].resume.SameThread?
      && RestoredStatus(m.gates[g], ReadyForImplementation) != m.tickets[t].status
    case PhaseResumed(_, _, g) =>
      g in m.gates && m.gates[g].ticket == t && RestoredStatus(m.gates[g], ExecutionPairRunning) != m.tickets[t].status
    case _ => false
  }

  predicate PhaseRevives(m: Manifest, a: PhasesAction, t: TicketId)
    requires t in m.tickets
  {
    match a
    case PhaseCompleted(p, _) =>
      BelongsTo(m, p, t)
      && (m.phases[p].kind.Remediation? || ((m.phases[p].kind.Implementation? || m.phases[p].kind.AcceptanceTests?) && CompletesPair(m, p, t)))
    case PhaseTerminated(p, outcome, _) => BelongsTo(m, p, t) && EndedStatus(outcome) != m.tickets[t].status
    case AcceptanceReclassified(u, _) => u == t
    case _ => false
  }

  /** The event takes the settled ticket `t` out of its status. */
  predicate Revives(m: Manifest, a: Action, t: TicketId)
    requires t in m.tickets
  {
    match a
    case Planning(x) => x.TicketTriaged? && x.t == t
    case Gating(x) => GateRevives(m, x, t)
    case Phasing(x) => PhaseRevives(m, x, t)
    case Delivering(x) => x.ReviewRecorded? && BelongsTo(m, x.p, t)
    case Finalizing(x) => x.DryRunEvidence?
    case _ => false
  }

  /** `t` is still a ticket, and has kept its status. */
  predicate KeepsStatus(m: Manifest, n: Manifest, t: TicketId)
    requires t in m.tickets
  {
    t in n.tickets && n.tickets[t].status == m.tickets[t].status
  }

  /** A branch that changes another ticket leaves this one alone. */
  lemma OthersKeep(c: bool, m: Manifest, n: Manifest, u: TicketId, t: TicketId)
    requires OneTicket(c, m.tickets, n.tickets, u) && t in m.tickets && u != t
    ensures KeepsStatus(m, n, t)
  {
  }

  // ----- planning -----

  lemma PlanningLooksAtStatus(m: Manifest, a: PlanningAction)
    requires HandlePlanning(m, a).Accepted? && !a.TicketTriaged? && !a.DependenciesConsolidated?
    ensures !Settled(m, a.t)
  {
    hide OpensAtMost, OnePhase, OneTicket, RouteOrFinalize, FinalizeAnalysis, IsCompleted;
  }

  lemma ConsolidationKeepsStatus(m: Manifest, schedule: seq<TicketId>, plans: map<TicketId, Plan>, t: TicketId)
    requires Settled(m, t) && Consolidate(m, schedule, plans).Accepted?
    ensures KeepsStatus(m, Consolidate(m, schedule, plans).m, t)
  {
    hide CollisionFree, ValidPlan, ReadyToConsolidate;
  }

  lemma PlanningRevivesExactly(m: Manifest, a: PlanningAction, t: TicketId)
    requires Settled(m, t) && HandlePlanning(m, a).Accepted?
    ensures t in HandlePlanning(m, a).m.tickets && (KeepsStatus(m, HandlePlanning(m, a).m, t) <==> !(a.TicketTriaged? && a.t == t))
  {
    assert t in m.tickets;
    hide OneTicket, OpensAtMost, OnePhase, KeepsStatus, Settled;
    hide RecordAnalysis, DecideSpecification, RecordRouteValidation, ReconcileRouteValidation, Consolidate,
         ReconcileReadiness, RecordContractValidation, CollectContractResult, AmendContract;
    var n := HandlePlanning(m, a).m;
    if a.DependenciesConsolidated? {
      ConsolidationKeepsStatus(m, a.schedule, a.plans, t);
    } else if a.TicketTriaged? && a.t == t {
      TriageRevives(m, t, a.p);
    } else {
      if !a.TicketTriaged? { PlanningLooksAtStatus(m, a); }
      OthersKeep(m.consolidated, m, n, a.t, t);
    }
    KeptIsThere(m, n, t);
  }

  lemma TriageRevives(m: Manifest, t: TicketId, p: PhaseKey)
    requires Settled(m, t) && RecordTriage(m, t, p).Accepted?
    ensures t in RecordTriage(m, t, p).m.tickets && !KeepsStatus(m, RecordTriage(m, t, p).m, t)
  {
  }

  lemma KeptIsThere(m: Manifest, n: Manifest, t: TicketId)
    requires t in m.tickets
    ensures KeepsStatus(m, n, t) ==> t in n.tickets
  {
  }

  // ----- gates -----

  lemma RequestKeeps(m: Manifest, t: TicketId, u: TicketId, g: GateId, phase: Option<PhaseKey>)
    requires Settled(m, t) && RequestInput(m, u, g, phase).Accepted?
    ensures KeepsStatus(m, RequestInput(m, u, g, phase).m, t)
  {
    hide OpensAtMost, OneTicket, NeverLaunched;
  }

  lemma ResolutionRevivesExactly(m: Manifest, g: GateId, approved: bool, t: TicketId)
    requires Settled(m, t) && ResolveGate(m, g, approved).Accepted?
    ensures t in ResolveGate(m, g, approved).m.tickets
    ensures KeepsStatus(m, ResolveGate(m, g, approved).m, t) <==> !GateRevives(m, GateResolved(g, approved), t)
  {
    hide OneTicket;
  }

  lemma AnswerRevivesExactly(m: Manifest, g: GateId, t: TicketId)
    requires Settled(m, t) && ProvideInput(m, g).Accepted?
    ensures t in ProvideInput(m, g).m.tickets
    ensures KeepsStatus(m, ProvideInput(m, g).m, t) <==> !GateRevives(m, InputProvided(g), t)
  {
    hide Closes, OnlyStatus, NeverLaunched;
  }

  lemma ResumptionRevivesExactly(m: Manifest, p: PhaseKey, thread: Option<Reference>, g: GateId, t: TicketId)
    requires Settled(m, t) && ResumePhase(m, p, thread, g).Accepted?
    ensures t in ResumePhase(m, p, thread, g).m.tickets
    ensures KeepsStatus(m, ResumePhase(m, p, thread, g).m, t) <==> !GateRevives(m, PhaseResumed(p, thread, g), t)
  {
    hide OnlyStatus, HoldsSlot, FirstGateOf;
  }

  lemma NothingToRevive(m: Manifest, a: GatesAction, t: TicketId)
    requires t in m.tickets && (a.InputRequested? || a.GateAnnounced?)
    ensures !GateRevives(m, a, t)
  {
  }

  lemma GatesReviveExactly(m: Manifest, a: GatesAction, t: TicketId)
    requires Settled(m, t) && HandleGates(m, a).Accepted?
    ensures t in HandleGates(m, a).m.tickets && (KeepsStatus(m, HandleGates(m, a).m, t) <==> !GateRevives(m, a, t))
  {
    hide OneTicket, OpensAtMost, OnlyStatus, Closes, GateRevives, RequestInput, ResolveGate, ProvideInput, ResumePhase;
    match a
    case InputRequested(u, g, phase) =>
      RequestKeeps(m, t, u, g, phase);
      NothingToRevive(m, a, t);
    case GateAnnounced(g) => NothingToRevive(m, a, t);
    case GateResolved(g, approved) => ResolutionRevivesExactly(m, g, approved, t);
    case InputProvided(g) => AnswerRevivesExactly(m, g, t);
    case PhaseResumed(p, thread, g) => ResumptionRevivesExactly(m, p, thread, g, t);
  }

  // ----- phases -----

  lemma HalfOfPairRevivesExactly(m: Manifest, p: PhaseKey, report: Report, t: TicketId)
    requires Settled(m, t) && RecordCompletion(m, p, report).Accepted? && (m.phases[p].kind.Implementation? || m.phases[p].kind.AcceptanceTests?)
    ensures t in RecordCompletion(m, p, report).m.tickets
    ensures KeepsStatus(m, RecordCompletion(m, p, report).m, t) <==> !(BelongsTo(m, p, t) && CompletesPair(m, p, t))
  {
    hide OneTicket, OnePhase, PairCompleted, CompletesPair;
    if BelongsTo(m, p, t) && m.tickets[t].records.execution.Some? { CompletingThePair(m, p, report, t); }
  }

  lemma CompletingThePair(m: Manifest, p: PhaseKey, report: Report, t: TicketId)
    requires t in m.tickets && m.tickets[t].records.execution.Some? && CompletePhase(m, p, report).Accepted?
    ensures PairCompleted(CompletePhase(m, p, report).m, m.tickets[t].records.execution.value) <==> CompletesPair(m, p, t)
  {
    hide OnePhase;
  }

  lemma OtherCompletionRevivesExactly(m: Manifest, p: PhaseKey, report: Report, t: TicketId)
    requires Settled(m, t) && RecordCompletion(m, p, report).Accepted? && !(m.phases[p].kind.Implementation? || m.phases[p].kind.AcceptanceTests?)
    ensures t in RecordCompletion(m, p, report).m.tickets
    ensures KeepsStatus(m, RecordCompletion(m, p, report).m, t) <==> !(BelongsTo(m, p, t) && m.phases[p].kind.Remediation?)
  {
    hide OneTicket, OnePhase, PairCompleted;
  }

  lemma CompletionRevivesExactly(m: Manifest, p: PhaseKey, report: Report, t: TicketId)
    requires Settled(m, t) && RecordCompletion(m, p, report).Accepted?
    ensures t in RecordCompletion(m, p, report).m.tickets
    ensures KeepsStatus(m, RecordCompletion(m, p, report).m, t) <==> !PhaseRevives(m, PhaseCompleted(p, report), t)
  {
    assert p in m.phases;
    hide RecordCompletion, KeepsStatus, CompletesPair, Settled;
    if m.phases[p].kind.Implementation? || m.phases[p].kind.AcceptanceTests? {
      HalfOfPairRevivesExactly(m, p, report, t);
    } else {
      OtherCompletionRevivesExactly(m, p, report, t);
    }
  }

  lemma StopRevivesExactly(m: Manifest, p: PhaseKey, u: TicketId, g: GateId, commit: Option<Commit>, t: TicketId)
    requires Settled(m, t) && p in m.phases && StopForInput(m, p, u, g, commit).Accepted?
    ensures t in StopForInput(m, p, u, g, commit).m.tickets
    ensures KeepsStatus(m, StopForInput(m, p, u, g, commit).m, t) <==> u != t
  {
    hide OneTicket, OnePhase, OpensAtMost;
  }

  lemma EndRevivesExactly(m: Manifest, p: PhaseKey, outcome: Termination, commit: Option<Commit>, t: TicketId)
    requires Settled(m, t) && p in m.phases && !outcome.EndsNeedsInput? && StopForGood(m, p, outcome, commit).Accepted?
    ensures t in StopForGood(m, p, outcome, commit).m.tickets
    ensures KeepsStatus(m, StopForGood(m, p, outcome, commit).m, t) <==> !(BelongsTo(m, p, t) && EndedStatus(outcome) != m.tickets[t].status)
  {
    hide OneTicket, OnePhase;
  }

  lemma TerminationRevivesExactly(m: Manifest, p: PhaseKey, outcome: Termination, commit: Option<Commit>, t: TicketId)
    requires Settled(m, t) && TerminatePhase(m, p, outcome, commit).Accepted?
    ensures t in TerminatePhase(m, p, outcome, commit).m.tickets
    ensures KeepsStatus(m, TerminatePhase(m, p, outcome, commit).m, t) <==> !PhaseRevives(m, PhaseTerminated(p, outcome, commit), t)
  {
    hide OneTicket, OnePhase, OpensAtMost, StopForInput, StopForGood, KeepsStatus;
    if outcome.EndsNeedsInput? {
      StopRevivesExactly(m, p, m.phases[p].ticket.value, outcome.gate, commit, t);
    } else {
      EndRevivesExactly(m, p, outcome, commit, t);
    }
  }

  lemma ReclassificationRevivesExactly(m: Manifest, u: TicketId, p: PhaseKey, t: TicketId)
    requires Settled(m, t) && ReclassifyAcceptance(m, u, p).Accepted?
    ensures t in ReclassifyAcceptance(m, u, p).m.tickets
    ensures KeepsStatus(m, ReclassifyAcceptance(m, u, p).m, t) <==> u != t
  {
    hide OneTicket, OnePhase;
  }

  lemma PhasesReviveExactly(m: Manifest, a: PhasesAction, t: TicketId)
    requires Settled(m, t) && HandlePhases(m, a).Accepted?
    ensures t in HandlePhases(m, a).m.tickets && (KeepsStatus(m, HandlePhases(m, a).m, t) <==> !PhaseRevives(m, a, t))
  {
    hide OpensAtMost, OneTicket, OnePhase, BelongsTo, CompletesPair, DispatchPhase, ObserveLaunch, RecordCompletion, TerminatePhase, ReclassifyAcceptance;
    match a
    case PhaseCompleted(p, report) => CompletionRevivesExactly(m, p, report, t);
    case PhaseTerminated(p, outcome, commit) => TerminationRevivesExactly(m, p, outcome, commit, t);
    case AcceptanceReclassified(u, p) => ReclassificationRevivesExactly(m, u, p, t);
    case _ =>
  }

  // ----- delivery -----

  lemma DeliveryLooksAtStatus(m: Manifest, a: DeliveryAction)
    requires HandleDelivery(m, a).Accepted? && !a.ReviewRecorded? && !a.ContinuationIsolated?
    ensures !Settled(m, a.t)
  {
    hide OpensAtMost, OneTicket, OnePhase, ScheduleSatisfied, HoldsSlot, RecordReview, IsolateContinuation;
  }

  lemma DispatchChangesItsTicket(m: Manifest, a: DeliveryAction, t: TicketId)
    requires Settled(m, t) && HandleDelivery(m, a).Accepted? && (a.PairDispatched? || a.RemediationDispatched?)
    ensures KeepsStatus(m, HandleDelivery(m, a).m, t)
  {
    hide OnePhase, OneTicket, OpensAtMost, ScheduleSatisfied;
    hide IntegratePair, RecordVerification, ClassifyFailure, IsolateContinuation, DispatchReview, RecordReview, ReconcileFindings, GrantException, MergeTicket;
  }

  lemma GrantOrMergeChangesItsTicket(m: Manifest, a: DeliveryAction, t: TicketId)
    requires Settled(m, t) && HandleDelivery(m, a).Accepted? && (a.ExceptionGranted? || a.TicketMerged? || a.ContinuationIsolated?)
    ensures KeepsStatus(m, HandleDelivery(m, a).m, t)
  {
    hide OnePhase, OneTicket, OpensAtMost, DependenciesSatisfied;
    hide DispatchPair, IntegratePair, RecordVerification, ClassifyFailure, DispatchReview, RecordReview, ReconcileFindings, DispatchRemediation;
  }

  lemma ReviewRevivesExactly(m: Manifest, p: PhaseKey, report: Report, t: TicketId)
    requires Settled(m, t) && RecordReview(m, p, report).Accepted?
    ensures t in RecordReview(m, p, report).m.tickets
    ensures KeepsStatus(m, RecordReview(m, p, report).m, t) <==> !BelongsTo(m, p, t)
  {
    hide OneTicket, OnePhase;
  }

  lemma DeliveryRevivesExactly(m: Manifest, a: DeliveryAction, t: TicketId)
    requires Settled(m, t) && HandleDelivery(m, a).Accepted?
    ensures t in HandleDelivery(m, a).m.tickets && (KeepsStatus(m, HandleDelivery(m, a).m, t) <==> !(a.ReviewRecorded? && BelongsTo(m, a.p, t)))
  {
    assert t in m.tickets;
    hide OneTicket, OnePhase, OpensAtMost, KeepsStatus, Settled, BelongsTo;
    hide DispatchPair, IntegratePair, RecordVerification, ClassifyFailure, IsolateContinuation, DispatchReview, RecordReview, ReconcileFindings,
         GrantException, DispatchRemediation, MergeTicket;
    var n := HandleDelivery(m, a).m;
    match a {
      case ReviewRecorded(p, report) => ReviewRevivesExactly(m, p, report, t);
      case PairDispatched(_, _, _, _, _, _, _) => DispatchChangesItsTicket(m, a, t);
      case RemediationDispatched(_, _, _, _) => DispatchChangesItsTicket(m, a, t);
      case ExceptionGranted(_, _) => GrantOrMergeChangesItsTicket(m, a, t);
      case TicketMerged(_, _, _) => GrantOrMergeChangesItsTicket(m, a, t);
      case ContinuationIsolated(_, _, _) => GrantOrMergeChangesItsTicket(m, a, t);
      case _ =>
        DeliveryLooksAtStatus(m, a);
        OthersKeep(m.consolidated, m, n, a.t, t);
    }
    KeptIsThere(m, n, t);
  }

  // ----- finalization, and every event -----

  lemma FinalizationRevivesExactly(m: Manifest, a: FinalizationAction, t: TicketId)
    requires Settled(m, t) && HandleFinalization(m, a).Accepted?
    ensures t in HandleFinalization(m, a).m.tickets && (KeepsStatus(m, HandleFinalization(m, a).m, t) <==> !a.DryRunEvidence?)
  {
    hide OnePhase, StartFinalization, RecordFinalPr, RecordRemediationPr, MergeRemediation, RemediateMetadata, MarkFinalPrReady, RecordFinalVerification,
         ClassifyFinalFailure, DispatchFinalReview, RecordFinalReview, StartFeedback, RecordFeedback, ReconcileFinalFindings,
         DispatchFinalRemediation, RecordFinalEvidence, DriftFinalHead, AuthorizeBaseMerge, MergeIntoBase;
  }

  /** A blocked or merged ticket keeps its status through an accepted event exactly when the event
      is none of those listed. */
  lemma StatusIsKeptExactly(m: Manifest, a: Action, t: TicketId)
    requires Settled(m, t) && Handle(m, a).Accepted?
    ensures t in Handle(m, a).m.tickets && (KeepsStatus(m, Handle(m, a).m, t) <==> !Revives(m, a, t))
  {
    hide HandlePlanning, HandleGates, HandlePhases, HandleSlots, HandleDelivery, HandleFinalization, CompleteRun, GateRevives, PhaseRevives, BelongsTo;
    match a
    case Planning(x) => PlanningRevivesExactly(m, x, t);
    case Gating(x) => GatesReviveExactly(m, x, t);
    case Phasing(x) => PhasesReviveExactly(m, x, t);
    case Delivering(x) => DeliveryRevivesExactly(m, x, t);
    case Finalizing(x) => FinalizationRevivesExactly(m, x, t);
    case _ =>
  }

  // ----- over whole runs -----

  /** No accepted event of the run revives `t`. */
  ghost predicate NeverRevived(m: Manifest, events: seq<Event>, t: TicketId)
    decreases |events|
  {
    t in m.tickets
    && (events == [] || (Step(m, events[0]).Accepted? ==>
          !Revives(m, events[0].action, t) && NeverRevived(Step(m, events[0]).m, events[1..], t)))
  }

  /** `t` has the status `s` at every moment of the run. */
  ghost predicate StaysThroughout(m: Manifest, events: seq<Event>, t: TicketId, s: TicketStatus)
    decreases |events|
  {
    t in m.tickets && m.tickets[t].status == s
    && (events == [] || (Step(m, events[0]).Accepted? ==> StaysThroughout(Step(m, events[0]).m, events[1..], t, s)))
  }

  lemma {:induction false} StaysExactly(m: Manifest, events: seq<Event>, t: TicketId)
    requires Settled(m, t)
    ensures StaysThroughout(m, events, t, m.tickets[t].status) <==> NeverRevived(m, events, t)
    decreases |events|
  {
    hide Handle, Revives;
    if events != [] && Step(m, events[0]).Accepted? {
      var n := Step(m, events[0]).m;
      StatusIsKeptExactly(m, events[0].action, t);
      if KeepsStatus(m, n, t) { StaysExactly(n, events[1..], t); }
    }
  }
}
