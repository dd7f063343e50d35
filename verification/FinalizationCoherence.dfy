/** Everything collected about the final pull request is about its current head. */
module FinalizationCoherence {
  import opened Prelude
  import opened Manifest
  import opened PhaseEvents
  import opened PlanningEvents
  import opened GateEvents
  import opened SlotEvents
  import opened DeliveryEvents
  import opened FinalizationEvents
  import opened Events

  /** Every record that names a head names this one. */
  predicate RecordsAt(r: FinalRecords, head: Commit) {
    && (r.verification.Some? ==> r.verification.value.head == head)
    && (r.review.Some? ==> r.review.value == head)
    && (r.collection.Some? ==> r.collection.value.head == head)
    && (r.snapshot.Some? ==> r.snapshot.value.head == head)
    && (r.ledger.Some? ==> r.ledger.value.head == head)
  }

  predicate NamesNoHead(r: FinalRecords) {
    r.verification.None? && r.review.None? && r.collection.None? && r.snapshot.None? && r.ledger.None?
  }

  predicate HeadsCoherent(f: Finalization) {
    if f.pr.Some? then RecordsAt(f.records, f.pr.value.head) else NamesNoHead(f.records)
  }

  predicate AwaitsCompletion(s: FinalStatus) {
    s.ReadyForCompletion? || s.FinalCompleted?
  }

  predicate Reconciled(s: FinalStatus) {
    s.FinalReviewClean? || AwaitsCompletion(s)
  }

  predicate Collected(s: FinalStatus) {
    s.AwaitingFinalFindings? || Reconciled(s)
  }

  predicate Reviewed(s: FinalStatus) {
    s.AwaitingFeedbackCollection? || s.FeedbackCollection? || Collected(s)
  }

  /** What each stage on the way to completion has put in place. */
  predicate StageComplete(f: Finalization) {
    && (f.status.NotStarted? || f.status.Started? ==> f.pr.None?)
    && (Reviewed(f.status) ==> f.pr.Some? && f.records.verification.Some? && f.records.review.Some?)
    && (Collected(f.status) ==> f.records.snapshot.Some?)
    && (Reconciled(f.status) ==> f.records.ledger.Some? && f.records.ledger.value.snapshotId == f.records.snapshot.value.id)
    && (AwaitsCompletion(f.status) ==> f.records.evidence)
  }

  predicate Coherent(f: Finalization) {
    HeadsCoherent(f) && StageComplete(f)
  }

  /** The head clauses of the completion check cannot fail once completion is awaited. */
  lemma ReadyMeansHeadsAgree(f: Finalization)
    requires Coherent(f) && AwaitsCompletion(f.status)
    ensures HeadsAgree(f) && f.records.evidence
  {
  }

  predicate StartsAgain(m: Manifest, a: FinalizationAction) {
    a.FinalizationStarted? && m.final.pr.Some?
  }

  predicate Opens(a: FinalizationAction) {
    a.FinalizationStarted? || a.FinalPrRecorded? || a.FinalRemediationPrRecorded? || a.FinalRemediationMerged?
  }

  predicate Checks(a: FinalizationAction) {
    a.FinalMetadataRemediated? || a.FinalPrReady? || a.FinalVerificationRecorded? || a.FinalFailureClassified?
  }

  predicate Reviews(a: FinalizationAction) {
    a.FinalReviewDispatched? || a.FinalReviewRecorded? || a.FeedbackStarted? || a.FeedbackRecorded? || a.FinalFindingsReconciled?
  }

  lemma StartKeeps(m: Manifest, requirement: Requirement)
    requires Coherent(m.final) && m.final.pr.None? && StartFinalization(m, requirement).Accepted?
    ensures Coherent(StartFinalization(m, requirement).m.final)
  {
    hide NoActivePhase, RecordsAt;
  }

  lemma PrKeeps(m: Manifest, head: Commit, draft: bool)
    requires Coherent(m.final) && RecordFinalPr(m, head, draft).Accepted?
    ensures Coherent(RecordFinalPr(m, head, draft).m.final)
  {
    if m.final.status.Started? { assert m.final.pr.None?; }
  }

  lemma OpeningKeeps(m: Manifest, a: FinalizationAction)
    requires m.run.live && Coherent(m.final) && HandleFinalization(m, a).Accepted? && Opens(a) && !StartsAgain(m, a)
    ensures Coherent(HandleFinalization(m, a).m.final)
  {
    hide HasCompletedFinalRemediation, RecordDryRunEvidence, StartFinalization, RecordFinalPr;
    hide RemediateMetadata, MarkFinalPrReady, RecordFinalVerification, ClassifyFinalFailure, DriftFinalHead;
    hide DispatchFinalReview, RecordFinalReview, StartFeedback, RecordFeedback, ReconcileFinalFindings;
    hide DispatchFinalRemediation, RecordFinalEvidence, AuthorizeBaseMerge, MergeIntoBase;
    match a
    case FinalizationStarted(requirement) => StartKeeps(m, requirement);
    case FinalPrRecorded(head, draft) => PrKeeps(m, head, draft);
    case _ =>
  }

  lemma MetadataKeeps(m: Manifest, p: PhaseKey, head: Commit)
    requires Coherent(m.final) && RemediateMetadata(m, p, head).Accepted?
    ensures Coherent(RemediateMetadata(m, p, head).m.final)
  {
    assert m.final.status.AwaitingFinalPrUpdate?;
  }

  lemma CheckingKeeps(m: Manifest, a: FinalizationAction)
    requires m.run.live && Coherent(m.final) && HandleFinalization(m, a).Accepted? && Checks(a)
    ensures Coherent(HandleFinalization(m, a).m.final)
  {
    hide HoldsSlot, OnePhase, RemediateMetadata;
    if a.FinalMetadataRemediated? { MetadataKeeps(m, a.p, a.head); }
    hide RecordDryRunEvidence, StartFinalization, RecordFinalPr, RecordRemediationPr, MergeRemediation;
    hide DispatchFinalReview, RecordFinalReview, StartFeedback, RecordFeedback, ReconcileFinalFindings;
    hide DispatchFinalRemediation, RecordFinalEvidence, AuthorizeBaseMerge, MergeIntoBase;
  }

  lemma ReviewingKeeps(m: Manifest, a: FinalizationAction)
    requires m.run.live && Coherent(m.final) && HandleFinalization(m, a).Accepted? && Reviews(a)
    ensures Coherent(HandleFinalization(m, a).m.final)
  {
    hide OnePhase, CompletePhase;
    hide RecordDryRunEvidence, StartFinalization, RecordFinalPr, RecordRemediationPr, MergeRemediation;
    hide RemediateMetadata, MarkFinalPrReady, RecordFinalVerification, ClassifyFinalFailure, DriftFinalHead;
    hide DispatchFinalRemediation, RecordFinalEvidence, AuthorizeBaseMerge, MergeIntoBase;
  }

  lemma FinalizationKeeps(m: Manifest, a: FinalizationAction)
    requires m.run.live && Coherent(m.final) && HandleFinalization(m, a).Accepted? && !StartsAgain(m, a)
    ensures Coherent(HandleFinalization(m, a).m.final)
  {
    hide OnePhase;
    hide StartFinalization, RecordFinalPr, RecordRemediationPr, MergeRemediation;
    hide RemediateMetadata, MarkFinalPrReady, RecordFinalVerification, ClassifyFinalFailure;
    hide DispatchFinalReview, RecordFinalReview, StartFeedback, RecordFeedback, ReconcileFinalFindings;
    if Opens(a) { OpeningKeeps(m, a); }
    else if Checks(a) { CheckingKeeps(m, a); }
    else if Reviews(a) { ReviewingKeeps(m, a); }
  }

  lemma PhasesKeep(m: Manifest, a: PhasesAction)
    requires m.run.live && Coherent(m.final) && HandlePhases(m, a).Accepted?
    ensures Coherent(HandlePhases(m, a).m.final)
  {
    hide Coherent, DispatchPhase, ObserveLaunch, RecordCompletion, TerminatePhase, ReclassifyAcceptance;
    if a.PhaseCompleted? { RemediatedKeeps(m, a.p, a.report); }
  }

  lemma RemediatedKeeps(m: Manifest, p: PhaseKey, report: Report)
    requires Coherent(m.final) && RecordCompletion(m, p, report).Accepted?
    ensures Coherent(RecordCompletion(m, p, report).m.final)
  {
    hide RecordsAt, NamesNoHead, OneTicket, OnePhase, PairCompleted;
  }

  lemma HandleKeeps(m: Manifest, a: Action)
    requires m.run.live && Coherent(m.final) && Handle(m, a).Accepted?
    requires a.Finalizing? ==> !StartsAgain(m, a.finalizing)
    ensures Coherent(Handle(m, a).m.final)
  {
    hide Coherent, HandlePlanning, HandleGates, HandlePhases, HandleSlots, HandleDelivery, HandleFinalization, CompleteRun;
    match a
    case Finalizing(x) => FinalizationKeeps(m, x);
    case Phasing(x) => PhasesKeep(m, x);
    case RunCompleted => CompletionKeeps(m);
    case _ =>
  }

  lemma CompletionKeeps(m: Manifest)
    requires m.run.live && Coherent(m.final) && CompleteRun(m).Accepted?
    ensures Coherent(CompleteRun(m).m.final)
  {
    hide NoActivePhase, LeasedSlots;
  }

  // ----- starting finalization again -----

  /** A second start is the only way to lose coherence. It makes the next recorded pull request
      the current one without dropping what was collected about the earlier one, so the records
      stay coherent exactly when there are none or the head is unchanged. */
  lemma RestartIsCoherentExactly(m: Manifest, requirement: Requirement, head: Commit, draft: bool)
    requires Coherent(m.final) && m.final.pr.Some? && StartFinalization(m, requirement).Accepted?
    ensures var n := RecordFinalPr(StartFinalization(m, requirement).m, head, draft);
            && n.Accepted?
            && (HeadsCoherent(n.m.final) <==> NamesNoHead(m.final.records) || head == m.final.pr.value.head)
  {
    hide NoActivePhase;
  }
}
