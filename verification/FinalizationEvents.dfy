/** Finalization of the train: the final pull request, its verification, review, feedback and repair. */
module FinalizationEvents {
  import opened Prelude
  import opened Manifest
  import opened PhaseEvents

  datatype FinalizationAction =
    | DryRunEvidence
    | FinalizationStarted(requirement: Requirement)
    | FinalPrRecorded(head: Commit, draft: bool)
    | FinalRemediationPrRecorded(head: Commit)
    | FinalRemediationMerged(head: Commit, merge: Commit)
    | FinalMetadataRemediated(p: PhaseKey, head: Commit)
    | FinalPrReady(head: Commit)
    | FinalVerificationRecorded(head: Commit, passed: bool)
    | FinalFailureClassified(defectInTests: bool, next: NextStep)
    | FinalReviewDispatched(p: PhaseKey, requirement: Requirement)
    | FinalReviewRecorded(p: PhaseKey, head: Commit, report: Report)
    | FeedbackStarted(id: Reference, head: Commit)
    | FeedbackRecorded(id: Reference, window: Reference, head: Commit)
    | FinalFindingsReconciled(head: Commit, snapshotId: Reference, blocking: bool)
    | FinalRemediationDispatched(p: PhaseKey, base: Place, testOnly: bool, requirement: Requirement)
    | FinalEvidenceRecorded(snapshotId: Reference)
    | FinalHeadDrifted(previous: Commit, head: Commit)
    | BaseMergeAuthorized(head: Commit)
    | BaseMerged(head: Commit)

  function RecordDryRunEvidence(m: Manifest): (o: Outcome)
    ensures o.Accepted? ==> o.m == m.(tickets := o.m.tickets, final := o.m.final)
  {
    if m.run.live || !m.consolidated || exists g :: g in m.gates && (m.gates[g].status.Unannounced? || m.gates[g].status.Announced?) then Refused
    else if exists t :: t in m.tickets && m.tickets[t].facts.analysis.None? then Refused
    else Accepted(m.(tickets := map t | t in m.tickets :: m.tickets[t].(status := AnalysisReported),
                     final := FRESH_FINALIZATION.(status := ReadyForCompletion, records := NO_FINAL_RECORDS.(evidence := true))))
  }

  function StartFinalization(m: Manifest, requirement: Requirement): (o: Outcome)
    ensures o.Accepted? ==> o.m == m.(final := o.m.final)
  {
    if !NoActivePhase(m) || !(forall t :: t in m.tickets ==> TerminalTicket(m.tickets[t].status)) then Refused
    else if !exists t :: t in m.tickets && m.tickets[t].status.MergedIntoTrain? then Refused
    else
      var required := if m.run.editors then Some(requirement) else m.final.requirement;
      Accepted(m.(final := m.final.(requirement := required, status := Started)))
  }

  /** The verification alone, with nothing collected after it. */
  function WithoutReview(r: FinalRecords): FinalRecords {
    NO_FINAL_RECORDS.(verification := r.verification)
  }

  function RecordFinalPr(m: Manifest, head: Commit, draft: bool): (o: Outcome)
    ensures o.Accepted? ==> o.m == m.(final := o.m.final)
  {
    var f := m.final;
    if f.status.Started? then Accepted(m.(final := f.(pr := Some(FinalPr(head, draft)), status := FinalPrOpen)))
    else if !f.status.AwaitingFinalPrUpdate? || f.repair.merge != Some(head) then Refused
    else if f.pr.Some? && f.pr.value.head == head then Refused
    else Accepted(m.(final := f.(records := NO_FINAL_RECORDS, pr := Some(FinalPr(head, draft)), status := FinalPrOpen)))
  }

  predicate HasCompletedFinalRemediation(m: Manifest) {
    exists p :: p in m.phases && m.phases[p].kind.FinalRemediation? && m.phases[p].launch.Completed?
  }

  function RecordRemediationPr(m: Manifest, head: Commit): (o: Outcome)
    ensures o.Accepted? ==> o.m == m.(final := o.m.final)
  {
    if m.final.status.AwaitingFinalPrUpdate? && HasCompletedFinalRemediation(m)
    then Accepted(m.(final := m.final.(repair := m.final.repair.(pr := Some(head), merge := None)))) else Refused
  }

  function MergeRemediation(m: Manifest, head: Commit, merge: Commit): (o: Outcome)
    ensures o.Accepted? ==> o.m == m.(final := o.m.final, train := o.m.train)
  {
    if m.final.status.AwaitingFinalPrUpdate? && m.final.repair.pr == Some(head) && m.final.repair.merge.None?
    then Accepted(m.(final := m.final.(repair := m.final.repair.(merge := Some(merge))), train := Some(merge))) else Refused
  }

  function RemediateMetadata(m: Manifest, p: PhaseKey, head: Commit): (o: Outcome)
    ensures o.Accepted? ==> o.m == m.(final := o.m.final)
  {
    var f := m.final;
    if !f.status.AwaitingFinalPrUpdate? || f.pr.None? || f.pr.value.head != head then Refused
    else if p !in m.phases || !m.phases[p].kind.FinalRemediation? || !m.phases[p].launch.Completed? || m.phases[p].base.head != head then Refused
    else Accepted(m.(final := f.(records := WithoutReview(f.records), status := FinalPrOpen)))
  }

  function MarkFinalPrReady(m: Manifest, head: Commit): (o: Outcome)
    ensures o.Accepted? ==> o.m == m.(final := o.m.final)
  {
    if m.final.status.FinalPrOpen? && m.final.pr.Some? && m.final.pr.value.head == head
    then Accepted(m.(final := m.final.(pr := Some(FinalPr(head, false))))) else Refused
  }

  function RecordFinalVerification(m: Manifest, head: Commit, passed: bool): (o: Outcome)
    ensures o.Accepted? ==> o.m == m.(final := o.m.final)
  {
    var f := m.final;
    if f.pr.None? || f.pr.value.head != head then Refused
    else if m.run.editors && f.requirement != Some(NoEditor) && !HoldsSlot(m, OfFinalVerification) then Refused
    else
      var status := if passed then f.status else FinalVerificationFailed;
      Accepted(m.(final := f.(records := f.records.(verification := Some(FinalVerification(head, passed))), status := status)))
  }

  function ClassifyFinalFailure(m: Manifest, defectInTests: bool, next: NextStep): (o: Outcome)
    ensures o.Accepted? ==> o.m == m.(final := o.m.final)
  {
    if !m.final.status.FinalVerificationFailed? then Refused
    else
      var f := m.final.(repair := m.final.repair.(testDefect := defectInTests));
      Accepted(m.(final := match next
        case Remediate => f.(status := NeedsFinalRemediation)
        case Retry => f.(records := f.records.(verification := None), status := FinalPrOpen)
        case Block => f.(status := FinalBlocked)))
  }

  function DispatchFinalReview(m: Manifest, p: PhaseKey, requirement: Requirement): (o: Outcome)
    ensures o.Accepted? ==> o.m == m.(phases := o.m.phases, final := o.m.final)
    ensures o.Accepted? ==> OnePhase(m.phases, o.m.phases, p)
  {
    var f := m.final;
    if f.pr.None? || f.pr.value.draft || f.records.verification.None? || !f.records.verification.value.passed then Refused
    else if !exists t :: t in m.tickets && m.tickets[t].status.MergedIntoTrain? then Refused
    else if p in m.phases || !RequirementAllowed(m, requirement) then Refused
    else Accepted(WithPhase(m, p, NewPhase(None, FinalReview, requirement, Detached(f.pr.value.head))).(final := f.(status := FinalPrReview)))
  }

  function RecordFinalReview(m: Manifest, p: PhaseKey, head: Commit, report: Report): (o: Outcome)
    ensures o.Accepted? ==> o.m == m.(phases := o.m.phases, final := o.m.final, anomalies := o.m.anomalies)
    ensures o.Accepted? ==> OnePhase(m.phases, o.m.phases, p)
  {
    var f := m.final;
    if f.pr.None? || f.pr.value.head != head || f.records.verification.None? || p !in m.phases || !m.phases[p].kind.FinalReview? then Refused
    else
      var completed := if m.phases[p].launch.Completed? then Accepted(m) else CompletePhase(m, p, report);
      if completed.Refused? then Refused
      else Accepted(completed.m.(final := f.(records := f.records.(review := Some(head)), status := AwaitingFeedbackCollection)))
  }

  function StartFeedback(m: Manifest, id: Reference, head: Commit): (o: Outcome)
    ensures o.Accepted? ==> o.m == m.(final := o.m.final)
  {
    var f := m.final;
    if !f.status.AwaitingFeedbackCollection? || f.pr.None? || f.pr.value.head != head then Refused
    else Accepted(m.(final := f.(records := f.records.(collection := Some(FeedbackWindow(id, head))), status := FeedbackCollection)))
  }

  function RecordFeedback(m: Manifest, id: Reference, window: Reference, head: Commit): (o: Outcome)
    ensures o.Accepted? ==> o.m == m.(final := o.m.final)
  {
    var f := m.final;
    if !f.status.FeedbackCollection? || f.records.collection.None? || f.records.collection.value.id != window then Refused
    else if f.pr.None? || f.pr.value.head != head then Refused
    else Accepted(m.(final := f.(records := f.records.(snapshot := Some(FeedbackSnapshot(id, head))), status := AwaitingFinalFindings)))
  }

  function ReconcileFinalFindings(m: Manifest, head: Commit, snapshotId: Reference, blocking: bool): (o: Outcome)
    ensures o.Accepted? ==> o.m == m.(final := o.m.final)
  {
    var f := m.final;
    if !f.status.AwaitingFinalFindings? || f.pr.None? || f.pr.value.head != head then Refused
    else if f.records.snapshot.None? || f.records.snapshot.value.id != snapshotId then Refused
    else Accepted(m.(final := f.(records := f.records.(ledger := Some(FindingLedger(head, snapshotId))),
                                 status := if blocking then NeedsFinalRemediation else FinalReviewClean)))
  }

  function DispatchFinalRemediation(m: Manifest, p: PhaseKey, base: Place, testOnly: bool, requirement: Requirement): (o: Outcome)
    ensures o.Accepted? ==> o.m == m.(phases := o.m.phases, final := o.m.final)
    ensures o.Accepted? ==> OnePhase(m.phases, o.m.phases, p)
  {
    var f := m.final;
    var extension := f.repair.cycles == AUTOMATIC_CYCLES && f.repair.testDefect && testOnly;
    if !f.status.NeedsFinalRemediation? || f.repair.cycles >= (if extension then TEST_ONLY_FINAL_CYCLES else AUTOMATIC_CYCLES) then Refused
    else if f.pr.None? || f.pr.value.head != base.head || base.branch.None? || p in m.phases || !RequirementAllowed(m, requirement) then Refused
    else Accepted(WithPhase(m, p, NewPhase(None, FinalRemediation, requirement, base)).(
      final := f.(repair := f.repair.(pr := None, merge := None, cycles := f.repair.cycles + 1, extensionUsed := f.repair.extensionUsed || extension),
                  status := FinalFixing)))
  }

  function RecordFinalEvidence(m: Manifest, snapshotId: Reference): (o: Outcome)
    ensures o.Accepted? ==> o.m == m.(final := o.m.final)
  {
    var f := m.final;
    if f.status.FinalReviewClean? && f.records.ledger.Some? && f.records.snapshot.Some? && f.records.snapshot.value.id == snapshotId
    then Accepted(m.(final := f.(records := f.records.(evidence := true), status := ReadyForCompletion))) else Refused
  }

  function Supersede(p: Phase): Phase {
    if p.kind.FinalReview? && ActivePhase(p.launch) then p.(launch := Superseded) else p
  }

  function DriftFinalHead(m: Manifest, previous: Commit, head: Commit): (o: Outcome)
    ensures o.Accepted? ==> o.m == m.(phases := o.m.phases, final := o.m.final, train := o.m.train)
  {
    var f := m.final;
    if !(f.status.FinalPrOpen? || f.status.FinalPrReview? || f.status.AwaitingFeedbackCollection? || f.status.FeedbackCollection? || f.status.AwaitingFinalFindings? || f.status.FinalReviewClean?) then Refused
    else if f.pr.None? || f.pr.value.head != previous || head == previous then Refused
    else if exists p :: p in m.phases && m.phases[p].kind.FinalReview? && m.phases[p].launch.Running? then Refused
    else Accepted(m.(phases := map p | p in m.phases :: Supersede(m.phases[p]), train := Some(head),
                     final := f.(records := NO_FINAL_RECORDS, pr := Some(FinalPr(head, f.pr.value.draft)), status := FinalPrOpen)))
  }

  function AuthorizeBaseMerge(m: Manifest, head: Commit): (o: Outcome)
    ensures o.Accepted? ==> o.m == m.(final := o.m.final)
  {
    if (m.final.status.ReadyForCompletion? || m.final.status.FinalCompleted?) && m.final.pr.Some? && m.final.pr.value.head == head && m.final.baseMerge.NotAuthorized?
    then Accepted(m.(final := m.final.(baseMerge := Authorized(head)))) else Refused
  }

  function MergeIntoBase(m: Manifest, head: Commit): (o: Outcome)
    ensures o.Accepted? ==> o.m == m.(final := o.m.final)
  {
    if m.final.baseMerge == Authorized(head) && m.final.pr.Some? && m.final.pr.value.head == head
    then Accepted(m.(final := m.final.(baseMerge := AuthorizationConsumed(head), status := DeliveredInBase))) else Refused
  }

  /** Up to the verification of the final head, and not about its review or later. */
  predicate OpensFinalPr(a: FinalizationAction) {
    a.DryRunEvidence? || a.FinalizationStarted? || a.FinalPrRecorded? || a.FinalRemediationPrRecorded? || a.FinalRemediationMerged?
    || a.FinalMetadataRemediated? || a.FinalPrReady? || a.FinalVerificationRecorded? || a.FinalFailureClassified?
  }

  function HandleFinalization(m: Manifest, a: FinalizationAction): (o: Outcome)
    ensures o.Accepted? ==> o.m == m.(tickets := o.m.tickets, phases := o.m.phases, final := o.m.final, train := o.m.train, anomalies := o.m.anomalies)
  {
    match a
    case DryRunEvidence => RecordDryRunEvidence(m)
    case FinalizationStarted(requirement) => StartFinalization(m, requirement)
    case FinalPrRecorded(head, draft) => RecordFinalPr(m, head, draft)
    case FinalRemediationPrRecorded(head) => RecordRemediationPr(m, head)
    case FinalRemediationMerged(head, merge) => MergeRemediation(m, head, merge)
    case FinalMetadataRemediated(p, head) => RemediateMetadata(m, p, head)
    case FinalPrReady(head) => MarkFinalPrReady(m, head)
    case FinalVerificationRecorded(head, passed) => RecordFinalVerification(m, head, passed)
    case FinalFailureClassified(defect, next) => ClassifyFinalFailure(m, defect, next)
    case FinalReviewDispatched(p, requirement) => DispatchFinalReview(m, p, requirement)
    case FinalReviewRecorded(p, head, report) => RecordFinalReview(m, p, head, report)
    case FeedbackStarted(id, head) => StartFeedback(m, id, head)
    case FeedbackRecorded(id, window, head) => RecordFeedback(m, id, window, head)
    case FinalFindingsReconciled(head, snapshotId, blocking) => ReconcileFinalFindings(m, head, snapshotId, blocking)
    case FinalRemediationDispatched(p, base, testOnly, requirement) => DispatchFinalRemediation(m, p, base, testOnly, requirement)
    case FinalEvidenceRecorded(snapshotId) => RecordFinalEvidence(m, snapshotId)
    case FinalHeadDrifted(previous, head) => DriftFinalHead(m, previous, head)
    case BaseMergeAuthorized(head) => AuthorizeBaseMerge(m, head)
    case BaseMerged(head) => MergeIntoBase(m, head)
  }
}
