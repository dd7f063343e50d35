/** Whether a run that awaits completion has a passed verification of its final head.

    Recording a final review asks for a verification but not for a passed one, so the answer is not
    always yes; it is yes exactly as long as every recorded review meets a passed verification. */
module FinalVerdict {
  import opened Prelude
  import opened Manifest
  import opened PlanningEvents
  import opened GateEvents
  import opened PhaseEvents
  import opened SlotEvents
  import opened DeliveryEvents
  import opened FinalizationEvents
  import opened Events
  import opened FinalizationCoherence
  import opened Completion
  import Runs

  predicate Passed(f: Finalization) {
    f.records.verification.Some? && f.records.verification.value.passed
  }

  /** From the recorded review to completion, the verification is one that passed. */
  predicate PassedWhenReviewed(f: Finalization) {
    Reviewed(f.status) ==> Passed(f)
  }

  predicate RecordsReview(a: Action) {
    a.Finalizing? && a.finalizing.FinalReviewRecorded?
  }

  lemma StartPasses(m: Manifest, requirement: Requirement)
    requires StartFinalization(m, requirement).Accepted?
    ensures PassedWhenReviewed(StartFinalization(m, requirement).m.final)
  {
    hide NoActivePhase;
  }

  lemma PrPasses(m: Manifest, head: Commit, draft: bool)
    requires RecordFinalPr(m, head, draft).Accepted?
    ensures PassedWhenReviewed(RecordFinalPr(m, head, draft).m.final)
  {
  }

  lemma RepairPrPasses(m: Manifest, head: Commit)
    requires RecordRemediationPr(m, head).Accepted?
    ensures PassedWhenReviewed(RecordRemediationPr(m, head).m.final)
  {
    hide HasCompletedFinalRemediation;
  }

  lemma RepairMergePasses(m: Manifest, head: Commit, merge: Commit)
    requires MergeRemediation(m, head, merge).Accepted?
    ensures PassedWhenReviewed(MergeRemediation(m, head, merge).m.final)
  {
  }

  lemma OpeningPasses(m: Manifest, a: FinalizationAction)
    requires m.run.live && PassedWhenReviewed(m.final) && HandleFinalization(m, a).Accepted? && (a.DryRunEvidence? || Opens(a))
    ensures PassedWhenReviewed(HandleFinalization(m, a).m.final)
  {
    hide PassedWhenReviewed, StartFinalization, RecordFinalPr, RecordRemediationPr, MergeRemediation;
    hide RemediateMetadata, MarkFinalPrReady, RecordFinalVerification, ClassifyFinalFailure;
    hide DispatchFinalReview, RecordFinalReview, StartFeedback, RecordFeedback, ReconcileFinalFindings,
         DispatchFinalRemediation, RecordFinalEvidence, DriftFinalHead, AuthorizeBaseMerge, MergeIntoBase;
    match a
    case FinalizationStarted(requirement) => StartPasses(m, requirement);
    case FinalPrRecorded(head, draft) => PrPasses(m, head, draft);
    case FinalRemediationPrRecorded(head) => RepairPrPasses(m, head);
    case FinalRemediationMerged(head, merge) => RepairMergePasses(m, head, merge);
    case _ =>
  }

  lemma VerificationPasses(m: Manifest, head: Commit, passed: bool)
    requires PassedWhenReviewed(m.final) && RecordFinalVerification(m, head, passed).Accepted?
    ensures PassedWhenReviewed(RecordFinalVerification(m, head, passed).m.final)
  {
    hide HoldsSlot;
  }

  lemma MetadataPasses(m: Manifest, p: PhaseKey, head: Commit)
    requires RemediateMetadata(m, p, head).Accepted?
    ensures PassedWhenReviewed(RemediateMetadata(m, p, head).m.final)
  {
  }

  lemma FailurePasses(m: Manifest, defectInTests: bool, next: NextStep)
    requires ClassifyFinalFailure(m, defectInTests, next).Accepted?
    ensures PassedWhenReviewed(ClassifyFinalFailure(m, defectInTests, next).m.final)
  {
  }

  lemma MarkingPasses(m: Manifest, head: Commit)
    requires PassedWhenReviewed(m.final) && MarkFinalPrReady(m, head).Accepted?
    ensures PassedWhenReviewed(MarkFinalPrReady(m, head).m.final)
  {
  }

  lemma CheckingPasses(m: Manifest, a: FinalizationAction)
    requires PassedWhenReviewed(m.final) && HandleFinalization(m, a).Accepted? && Checks(a)
    ensures PassedWhenReviewed(HandleFinalization(m, a).m.final)
  {
    hide PassedWhenReviewed, RecordDryRunEvidence, StartFinalization, RecordFinalPr, RecordRemediationPr, MergeRemediation;
    hide RemediateMetadata, MarkFinalPrReady, RecordFinalVerification, ClassifyFinalFailure;
    hide DispatchFinalReview, RecordFinalReview, StartFeedback, RecordFeedback, ReconcileFinalFindings,
         DispatchFinalRemediation, RecordFinalEvidence, DriftFinalHead, AuthorizeBaseMerge, MergeIntoBase;
    match a
    case FinalMetadataRemediated(p, head) => MetadataPasses(m, p, head);
    case FinalPrReady(head) => MarkingPasses(m, head);
    case FinalVerificationRecorded(head, passed) => VerificationPasses(m, head, passed);
    case FinalFailureClassified(defect, next) => FailurePasses(m, defect, next);
    case _ =>
  }

  lemma ReviewPassesExactly(m: Manifest, p: PhaseKey, head: Commit, report: Report)
    requires RecordFinalReview(m, p, head, report).Accepted?
    ensures PassedWhenReviewed(RecordFinalReview(m, p, head, report).m.final) <==> Passed(m.final)
  {
    hide OnePhase, CompletePhase;
  }

  lemma FinalizationPassesExactly(m: Manifest, a: FinalizationAction)
    requires m.run.live && PassedWhenReviewed(m.final) && HandleFinalization(m, a).Accepted?
    ensures PassedWhenReviewed(HandleFinalization(m, a).m.final) <==> (a.FinalReviewRecorded? ==> Passed(m.final))
  {
    hide RecordDryRunEvidence, StartFinalization, RecordFinalPr, RecordRemediationPr, MergeRemediation, RemediateMetadata,
         MarkFinalPrReady, RecordFinalVerification, ClassifyFinalFailure, RecordFinalReview, OnePhase;
    if a.DryRunEvidence? || Opens(a) {
      hide HandleFinalization, PassedWhenReviewed;
      OpeningPasses(m, a);
    } else if Checks(a) {
      hide HandleFinalization, PassedWhenReviewed;
      CheckingPasses(m, a);
    } else if a.FinalReviewRecorded? {
      ReviewPassesExactly(m, a.p, a.head, a.report);
    }
  }

  /** Every event of a live run keeps the verification passed from review to completion, except
      exactly the recording of a review that meets no passed verification. */
  lemma HandlePassesExactly(m: Manifest, a: Action)
    requires m.run.live && PassedWhenReviewed(m.final) && Handle(m, a).Accepted?
    ensures PassedWhenReviewed(Handle(m, a).m.final) <==> (RecordsReview(a) ==> Passed(m.final))
  {
    hide HandlePlanning, HandleGates, HandlePhases, HandleSlots, HandleDelivery, HandleFinalization, CompleteRun, PassedWhenReviewed, Passed;
    match a
    case Finalizing(x) => FinalizationPassesExactly(m, x);
    case Phasing(x) => PhasesPass(m, x);
    case RunCompleted => CompletionPasses(m);
    case _ =>
  }

  lemma RepairPasses(m: Manifest, p: PhaseKey, report: Report)
    requires PassedWhenReviewed(m.final) && RecordCompletion(m, p, report).Accepted?
    ensures PassedWhenReviewed(RecordCompletion(m, p, report).m.final)
  {
    hide OneTicket, OnePhase, PairCompleted;
  }

  lemma PhasesPass(m: Manifest, a: PhasesAction)
    requires PassedWhenReviewed(m.final) && HandlePhases(m, a).Accepted?
    ensures PassedWhenReviewed(HandlePhases(m, a).m.final)
  {
    hide PassedWhenReviewed, OneTicket, OnePhase, OpensAtMost, DispatchPhase, ObserveLaunch, RecordCompletion, TerminatePhase, ReclassifyAcceptance;
    if a.PhaseCompleted? { RepairPasses(m, a.p, a.report); }
  }

  /** Completion itself asks for a passed verification. */
  lemma CompletionPasses(m: Manifest)
    requires m.run.live && CompleteRun(m).Accepted?
    ensures Passed(m.final) && PassedWhenReviewed(CompleteRun(m).m.final)
  {
    hide NoActivePhase, LeasedSlots;
  }

  // ----- over whole runs -----

  /** Every final review that the run records meets a passed verification. */
  ghost predicate ReviewsMeetPassed(m: Manifest, events: seq<Event>)
    decreases |events|
  {
    events == [] || (Step(m, events[0]).Accepted? ==>
      (RecordsReview(events[0].action) ==> Passed(m.final)) && ReviewsMeetPassed(Step(m, events[0]).m, events[1..]))
  }

  /** At every moment of the run, a reviewed final head has a passed verification. */
  ghost predicate PassedThroughout(m: Manifest, events: seq<Event>)
    decreases |events|
  {
    PassedWhenReviewed(m.final)
    && (events == [] || (Step(m, events[0]).Accepted? ==> PassedThroughout(Step(m, events[0]).m, events[1..])))
  }

  lemma StepPassesExactly(m: Manifest, e: Event)
    requires m.run.live && PassedWhenReviewed(m.final) && Step(m, e).Accepted?
    ensures Step(m, e).m.run.live
    ensures PassedWhenReviewed(Step(m, e).m.final) <==> (RecordsReview(e.action) ==> Passed(m.final))
  {
    hide Handle, PassedWhenReviewed, Passed;
    HandlePassesExactly(m, e.action);
    Runs.SettingsNeverChange(m, e.action);
  }

  lemma {:induction false} PassedThroughoutExactly(m: Manifest, events: seq<Event>)
    requires m.run.live && PassedWhenReviewed(m.final)
    ensures PassedThroughout(m, events) <==> ReviewsMeetPassed(m, events)
    decreases |events|
  {
    hide Step, PassedWhenReviewed, Passed;
    if events != [] && Step(m, events[0]).Accepted? {
      StepPassesExactly(m, events[0]);
      var n := Step(m, events[0]).m;
      if PassedWhenReviewed(n.final) {
        PassedThroughoutExactly(n, events[1..]);
      }
    }
  }

  lemma {:induction false} ThroughoutMeansAtTheEnd(m: Manifest, events: seq<Event>)
    requires PassedThroughout(m, events) && Run(m, events).Accepted?
    ensures PassedWhenReviewed(Run(m, events).m.final)
    decreases |events|
  {
    hide Step, PassedWhenReviewed;
    if events != [] { ThroughoutMeansAtTheEnd(Step(m, events[0]).m, events[1..]); }
  }

  /** When completion is awaited and every recorded review met a passed verification, the final head
      is verified as passed. */
  lemma AwaitedCompletionIsVerified(m: Manifest, events: seq<Event>)
    requires Bootstrapped(m) && m.run.live && ReviewsMeetPassed(m, events) && Run(m, events).Accepted?
    requires AwaitsCompletion(Run(m, events).m.final.status)
    ensures Passed(Run(m, events).m.final)
  {
    hide Run, ReviewsMeetPassed, PassedThroughout, Passed;
    PassedThroughoutExactly(m, events);
    ThroughoutMeansAtTheEnd(m, events);
  }

  /** The condition can fail: some run of every bootstrapped live manifest with a ticket comes to
      await completion with a failed verification, by recording a review that met it. */
  lemma SomeReviewMeetsAFailure(m: Manifest) returns (events: seq<Event>)
    requires Bootstrapped(m) && m.run.live && m.tickets != map[]
    ensures Run(m, events).Accepted? && !ReviewsMeetPassed(m, events)
    ensures var n := Run(m, events).m;
            n.final.status.ReadyForCompletion? && HeadsAgree(n.final) && !Passed(n.final) && Step(n, Event(true, RunCompleted)).Refused?
  {
    hide Run, Step, ReviewsMeetPassed, HeadsAgree;
    events := EveryRunCanAwaitCompletion(m, false);
    assert Run(m, events).m.final.records.verification.Some? by { AgreedIsVerified(Run(m, events).m.final); }
    if ReviewsMeetPassed(m, events) { AwaitedCompletionIsVerified(m, events); }
  }

  lemma AgreedIsVerified(f: Finalization)
    requires HeadsAgree(f)
    ensures f.records.verification.Some?
  {
  }
}
