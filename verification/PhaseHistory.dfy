/** What a phase's record says about its past: a phase whose launch is still intended has never
    reported, so it starts where it was dispatched. */
module PhaseHistory {
  import opened Prelude
  import opened Manifest
  import opened PlanningEvents
  import opened GateEvents
  import opened PhaseEvents
  import opened SlotEvents
  import opened DeliveryEvents
  import opened FinalizationEvents
  import opened Events

  /** A phase reports from the thread it runs in, and keeps that thread. */
  predicate Remembers(v: Phase) {
    && (v.launch.IntentRecorded? ==> v.result.None?)
    && (v.result.Some? ==> v.thread.Some?)
    && (v.launch.Running? || v.launch.NeedsInput? || v.launch.InputReady? ==> v.thread.Some?)
  }

  ghost predicate Remembering(m: Manifest) {
    forall p :: p in m.phases ==> Remembers(m.phases[p])
  }

  lemma OnePhaseRemembers(m: Manifest, n: Manifest, p: PhaseKey, v: Phase)
    requires Remembering(m) && Remembers(v) && n.phases == m.phases[p := v]
    ensures Remembering(n)
  {
  }

  lemma SamePhasesRemember(m: Manifest, n: Manifest)
    requires Remembering(m) && n.phases == m.phases
    ensures Remembering(n)
  {
  }

  lemma CompletionRemembers(m: Manifest, p: PhaseKey, report: Report, n: Manifest)
    requires Remembering(m) && CompletePhase(m, p, report).Accepted? && n.phases == CompletePhase(m, p, report).m.phases
    ensures Remembering(n)
  {
    hide OnePhase;
    OnePhaseRemembers(m, n, p, m.phases[p].(launch := Completed, result := report.commit));
  }

  lemma PlanningRemembers(m: Manifest, a: PlanningAction)
    requires Remembering(m) && HandlePlanning(m, a).Accepted?
    ensures Remembering(HandlePlanning(m, a).m)
  {
    hide Remembering, OneTicket, OnePhase, OpensAtMost, CompletePhase, RecordTriage, RecordAnalysis, DecideSpecification, RecordRouteValidation,
         ReconcileRouteValidation, Consolidate, ReconcileReadiness, RecordContractValidation, AmendContract;
    var n := HandlePlanning(m, a).m;
    if a.ContractResultCollected? { CompletionRemembers(m, a.p, a.report, n); } else { SamePhasesRemember(m, n); }
  }

  lemma AnswerRemembers(m: Manifest, g: GateId)
    requires Remembering(m) && ProvideInput(m, g).Accepted?
    ensures Remembering(ProvideInput(m, g).m)
  {
    hide Closes, OnlyStatus;
    var n := ProvideInput(m, g).m;
    if m.gates[g].resume.SameThread? || m.gates[g].resume.PrelaunchRetry? {
      OnePhaseRemembers(m, n, m.gates[g].phase.value, n.phases[m.gates[g].phase.value]);
    }
  }

  lemma GatesRemember(m: Manifest, a: GatesAction)
    requires Remembering(m) && HandleGates(m, a).Accepted?
    ensures Remembering(HandleGates(m, a).m)
  {
    hide OneTicket, OnlyStatus, Closes, OpensAtMost, RequestInput, AnnounceGate, ResolveGate, ProvideInput, HoldsSlot, FirstGateOf, Remembering;
    var n := HandleGates(m, a).m;
    match a
    case InputProvided(g) => AnswerRemembers(m, g);
    case PhaseResumed(p, _, _) =>
      assert Remembers(m.phases[p]) by { EachRemembers(m, p); }
      OnePhaseRemembers(m, n, p, m.phases[p].(launch := Running));
    case _ => SamePhasesRemember(m, n);
  }

  lemma EachRemembers(m: Manifest, p: PhaseKey)
    requires Remembering(m) && p in m.phases
    ensures Remembers(m.phases[p])
  {
  }

  lemma ObservationRemembers(m: Manifest, p: PhaseKey, launch: LaunchState, thread: Option<Reference>, client: Option<Reference>, reconciled: bool)
    requires Remembering(m) && ObserveLaunch(m, p, launch, thread, client, reconciled).Accepted?
    ensures Remembering(ObserveLaunch(m, p, launch, thread, client, reconciled).m)
  {
    hide Remembering, LeaseConfirmed;
    var n := ObserveLaunch(m, p, launch, thread, client, reconciled).m;
    EachRemembers(m, p);
    OnePhaseRemembers(m, n, p, n.phases[p]);
  }

  lemma TerminationRemembers(m: Manifest, p: PhaseKey, outcome: Termination, commit: Option<Commit>)
    requires Remembering(m) && TerminatePhase(m, p, outcome, commit).Accepted?
    ensures Remembering(TerminatePhase(m, p, outcome, commit).m)
  {
    hide Remembering, OneTicket, OnePhase, OpensAtMost;
    var n := TerminatePhase(m, p, outcome, commit).m;
    EachRemembers(m, p);
    OnePhaseRemembers(m, n, p, m.phases[p].(launch := EndedLaunch(outcome), result := commit));
  }

  lemma PhasesRemember(m: Manifest, a: PhasesAction)
    requires Remembering(m) && HandlePhases(m, a).Accepted?
    ensures Remembering(HandlePhases(m, a).m)
  {
    hide Remembering, OneTicket, OnePhase, OpensAtMost, DispatchAllowed, CompletePhase, ObserveLaunch, TerminatePhase;
    var n := HandlePhases(m, a).m;
    match a
    case PhaseDispatched(p, kind, ticket, requirement, base) => OnePhaseRemembers(m, n, p, NewPhase(ticket, kind, requirement, Detached(base)));
    case LaunchObserved(p, launch, thread, client, reconciled) => ObservationRemembers(m, p, launch, thread, client, reconciled);
    case PhaseCompleted(p, report) => CompletionRemembers(m, p, report, n);
    case PhaseTerminated(p, outcome, commit) => TerminationRemembers(m, p, outcome, commit);
    case AcceptanceReclassified(_, p) =>
      EachRemembers(m, p);
      OnePhaseRemembers(m, n, p, m.phases[p].(launch := Completed));
  }

  lemma SlotsRemember(m: Manifest, a: SlotsAction)
    requires Remembering(m) && HandleSlots(m, a).Accepted?
    ensures Remembering(HandleSlots(m, a).m)
  {
    hide OnePhase, LeasedSlots, Expects;
    var n := HandleSlots(m, a).m;
    if a.SlotAcquired? && a.owner.OfPhase? { OnePhaseRemembers(m, n, a.owner.key, n.phases[a.owner.key]); }
  }

  lemma PairRemembers(m: Manifest, a: DeliveryAction)
    requires Remembering(m) && a.PairDispatched? && HandleDelivery(m, a).Accepted?
    ensures Remembering(HandleDelivery(m, a).m)
  {
    hide Remembering, ScheduleSatisfied, OneTicket, OnePhase, OpensAtMost;
    hide IntegratePair, RecordVerification, ClassifyFailure, IsolateContinuation, DispatchReview, RecordReview, ReconcileFindings,
         GrantException, DispatchRemediation, MergeTicket;
    var half := NewPhase(Some(a.t), Implementation, a.implementationNeeds, Place(Some(a.fork.implementation), a.fork.commit));
    var mid := WithPhase(m, a.implementation, half);
    OnePhaseRemembers(m, mid, a.implementation, half);
    OnePhaseRemembers(mid, HandleDelivery(m, a).m, a.acceptance,
      NewPhase(Some(a.t), AcceptanceTests, a.acceptanceNeeds, Place(Some(a.fork.acceptance), a.fork.commit)));
  }

  lemma ReviewRemembers(m: Manifest, p: PhaseKey, report: Report)
    requires Remembering(m) && RecordReview(m, p, report).Accepted?
    ensures Remembering(RecordReview(m, p, report).m)
  {
    hide Remembering, OneTicket, OnePhase, CompletePhase;
    var n := RecordReview(m, p, report).m;
    if m.phases[p].launch.Completed? { SamePhasesRemember(m, n); } else { CompletionRemembers(m, p, report, n); }
  }

  lemma DeliveryRemembers(m: Manifest, a: DeliveryAction)
    requires Remembering(m) && HandleDelivery(m, a).Accepted?
    ensures Remembering(HandleDelivery(m, a).m)
  {
    hide Remembering, OneTicket, OnePhase, OpensAtMost;
    hide DispatchPair, IntegratePair, RecordVerification, ClassifyFailure, IsolateContinuation, RecordReview, ReconcileFindings,
         GrantException, MergeTicket;
    var n := HandleDelivery(m, a).m;
    match a
    case PairDispatched(_, _, _, _, _, _, _) => PairRemembers(m, a);
    case ReviewRecorded(p, report) => ReviewRemembers(m, p, report);
    case ReviewDispatched(_, p, _, _, _) => OnePhaseRemembers(m, n, p, n.phases[p]);
    case RemediationDispatched(_, p, _, _) => OnePhaseRemembers(m, n, p, n.phases[p]);
    case _ => SamePhasesRemember(m, n);
  }

  lemma FinalReviewRemembers(m: Manifest, p: PhaseKey, head: Commit, report: Report)
    requires Remembering(m) && RecordFinalReview(m, p, head, report).Accepted?
    ensures Remembering(RecordFinalReview(m, p, head, report).m)
  {
    hide Remembering, OnePhase, CompletePhase;
    var n := RecordFinalReview(m, p, head, report).m;
    if m.phases[p].launch.Completed? { SamePhasesRemember(m, n); } else { CompletionRemembers(m, p, report, n); }
  }

  lemma DriftRemembers(m: Manifest, previous: Commit, head: Commit)
    requires Remembering(m) && DriftFinalHead(m, previous, head).Accepted?
    ensures Remembering(DriftFinalHead(m, previous, head).m)
  {
  }

  lemma FinalizationRemembers(m: Manifest, a: FinalizationAction)
    requires Remembering(m) && HandleFinalization(m, a).Accepted?
    ensures Remembering(HandleFinalization(m, a).m)
  {
    hide Remembering, OnePhase, RecordDryRunEvidence, StartFinalization, RecordFinalPr, RecordRemediationPr, MergeRemediation, RemediateMetadata,
         MarkFinalPrReady, RecordFinalVerification, ClassifyFinalFailure, RecordFinalReview, StartFeedback, RecordFeedback, ReconcileFinalFindings,
         RecordFinalEvidence, DriftFinalHead, AuthorizeBaseMerge, MergeIntoBase;
    var n := HandleFinalization(m, a).m;
    match a
    case FinalReviewDispatched(p, _) => OnePhaseRemembers(m, n, p, n.phases[p]);
    case FinalRemediationDispatched(p, _, _, _) => OnePhaseRemembers(m, n, p, n.phases[p]);
    case FinalReviewRecorded(p, head, report) => FinalReviewRemembers(m, p, head, report);
    case FinalHeadDrifted(previous, head) => DriftRemembers(m, previous, head);
    case _ => SamePhasesRemember(m, n);
  }

  lemma HandleKeeps(m: Manifest, a: Action)
    requires Remembering(m) && Handle(m, a).Accepted?
    ensures Remembering(Handle(m, a).m)
  {
    hide Remembering, HandlePlanning, HandleGates, HandlePhases, HandleSlots, HandleDelivery, HandleFinalization, CompleteRun;
    match a
    case Planning(x) => PlanningRemembers(m, x);
    case Gating(x) => GatesRemember(m, x);
    case Phasing(x) => PhasesRemember(m, x);
    case Slotting(x) => SlotsRemember(m, x);
    case Delivering(x) => DeliveryRemembers(m, x);
    case Finalizing(x) => FinalizationRemembers(m, x);
    case _ => SamePhasesRemember(m, Handle(m, a).m);
  }

  lemma StepKeeps(m: Manifest, e: Event)
    requires Remembering(m) && Step(m, e).Accepted?
    ensures Remembering(Step(m, e).m)
  {
    hide Handle, Remembering;
    HandleKeeps(m, e.action);
  }

  lemma {:induction false} RunKeeps(m: Manifest, events: seq<Event>)
    requires Remembering(m) && Run(m, events).Accepted?
    ensures Remembering(Run(m, events).m)
    decreases |events|
  {
    hide Step, Remembering;
    if events != [] {
      StepKeeps(m, events[0]);
      RunKeeps(Step(m, events[0]).m, events[1..]);
    }
  }

  /** After any accepted events from bootstrap, an intended phase has reported nothing. */
  lemma IntendedPhasesAreNew(m: Manifest, events: seq<Event>, p: PhaseKey)
    requires Bootstrapped(m) && Run(m, events).Accepted?
    requires p in Run(m, events).m.phases && Run(m, events).m.phases[p].launch.IntentRecorded?
    ensures Run(m, events).m.phases[p].result.None?
  {
    hide Run;
    assert Remembering(m);
    RunKeeps(m, events);
  }
}
