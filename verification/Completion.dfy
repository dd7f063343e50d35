/** A live run can always be brought to the point where completion is awaited, and whether it can
    then be completed is decided by the last verification of the final pull request. */
module Completion {
  import opened Prelude
  import opened DependencyOrder
  import opened Manifest
  import opened PlanningEvents
  import opened PhaseEvents
  import opened FinalizationEvents
  import opened Events
  import opened Planner
  import opened Progress

  const UNGATED := GateRule(false, "")

  function Planned(a: PlanningAction): Event {
    Event(true, Planning(a))
  }

  function Finalized(a: FinalizationAction): Event {
    Event(true, Finalizing(a))
  }

  lemma ThenStep(m: Manifest, events: seq<Event>, x: Manifest, e: Event, y: Manifest)
    requires Run(m, events) == Accepted(x) && Step(x, e) == Accepted(y)
    ensures Run(m, events + [e]) == Accepted(y)
  {
    hide Step, Run;
    RunNothing(y);
    RunNext(x, e, y, []);
    RunConcat(m, events, [e] + []);
    assert [e] + [] == [e];
  }

  lemma PlainCompletionIsAccepted(m: Manifest, p: PhaseKey)
    requires m.anomalies == 0 && p in m.phases && m.phases[p].launch.Running?
    requires m.phases[p].kind.Triage? || m.phases[p].kind.Analysis?
    ensures Step(m, Phased(PhaseCompleted(p, DONE))) == Accepted(Completing(m, p))
  {
    hide OnePhase, OneTicket, OpensAtMost, DispatchPhase, ObserveLaunch, TerminatePhase, ReclassifyAcceptance;
  }

  lemma DispatchIsAllowed(m: Manifest, p: PhaseKey, kind: PhaseKind, t: Option<TicketId>)
    requires m.anomalies == 0 && p !in m.phases && DispatchAllowed(m, kind, t, NoEditor)
    ensures Step(m, Phased(PhaseDispatched(p, kind, t, NoEditor, 0))) == Accepted(WithPhase(m, p, NewPhase(t, kind, NoEditor, Detached(0))))
  {
    hide DispatchAllowed, OnePhase, OneTicket, OpensAtMost, ObserveLaunch, RecordCompletion, TerminatePhase, ReclassifyAcceptance;
  }

  function Done(kind: PhaseKind, t: Option<TicketId>): Phase {
    Finished(NewPhase(t, kind, NoEditor, Detached(0)), 0)
  }

  /** A generic phase is dispatched, launched and completed. */
  lemma PhaseIsDone(m: Manifest, p: PhaseKey, kind: PhaseKind, t: Option<TicketId>) returns (events: seq<Event>)
    requires m.anomalies == 0 && p !in m.phases && DispatchAllowed(m, kind, t, NoEditor) && (kind.Triage? || kind.Analysis?)
    ensures Run(m, events) == Accepted(WithPhase(m, p, Done(kind, t)))
  {
    hide Run, Step, DispatchAllowed;
    var m1 := WithPhase(m, p, NewPhase(t, kind, NoEditor, Detached(0)));
    var m2 := Launch(m1, p, 0);
    var m3 := Completing(m2, p);
    RunNothing(m);
    DispatchIsAllowed(m, p, kind, t);
    ThenStep(m, [], m, Phased(PhaseDispatched(p, kind, t, NoEditor, 0)), m1);
    events := [] + [Phased(PhaseDispatched(p, kind, t, NoEditor, 0))];
    LaunchIsAccepted(m1, p, 0);
    ThenStep(m, events, m1, Phased(LaunchObserved(p, Running, Some(0), None, false)), m2);
    events := events + [Phased(LaunchObserved(p, Running, Some(0), None, false))];
    PlainCompletionIsAccepted(m2, p);
    ThenStep(m, events, m2, Phased(PhaseCompleted(p, DONE)), m3);
    events := events + [Phased(PhaseCompleted(p, DONE))];
    assert m3.phases == m.phases[p := Done(kind, t)];
  }

  // ----- triage and analysis of every ticket -----

  const TRIAGED := NEW_TICKET.(status := Triaged, facts := NEW_TICKET.facts.(triaged := true))

  const ANALYZED := TRIAGED.(status := Analyzed, facts := TRIAGED.facts.(analysis := Some(AnalysisRecord(false, ScopeClear))))

  /** Triage is complete, nothing runs, and exactly the tickets in `done` are analysed. */
  ghost predicate Analysing(m: Manifest, triage: PhaseKey, done: set<TicketId>) {
    && m.run.live && m.run.maxPairs == 2 && m.run.maxAnalyses == 5 && m.anomalies == 0 && !m.consolidated && !m.completed && !m.editorsReady
    && Elements(m.order) == m.tickets.Keys && m.final == FRESH_FINALIZATION && m.slots == map[]
    && NoActivePhase(m) && triage in m.phases && m.phases[triage].kind.Triage? && m.phases[triage].launch.Completed?
    && forall t :: t in m.tickets ==> m.tickets[t] == if t in done then ANALYZED else NEW_TICKET
  }

  /** As consolidation without any dependency leaves a ticket. */
  const READY := ANALYZED.(status := ReadyForImplementation)

  /** A consolidated run in which nothing has been delivered. */
  ghost predicate Undelivered(m: Manifest) {
    Idle(m) && NoActivePhase(m) && m.consolidated && !m.completed && !m.editorsReady && m.final == FRESH_FINALIZATION && m.slots == map[]
    && forall t :: t in m.tickets ==> m.tickets[t] == READY
  }

  lemma TriageIsAccepted(m: Manifest, triage: PhaseKey, t: TicketId)
    requires m.anomalies == 0 && t in m.tickets && m.tickets[t] == NEW_TICKET
    requires triage in m.phases && m.phases[triage].kind.Triage? && m.phases[triage].launch.Completed?
    ensures Step(m, Planned(TicketTriaged(t, triage))) == Accepted(WithTicket(m, t, TRIAGED))
  {
    hide OneTicket;
  }

  lemma AnalysisIsAccepted(m: Manifest, p: PhaseKey, t: TicketId)
    requires m.anomalies == 0 && !m.consolidated && t in m.tickets && m.tickets[t] == TRIAGED && p in m.phases && m.phases[p] == Done(Analysis, Some(t))
    ensures Step(m, Planned(AnalysisRecorded(t, p, false, UNGATED, true, UNGATED))) == Accepted(WithTicket(m, t, ANALYZED))
  {
    hide OneTicket, OpensAtMost;
  }

  lemma TicketIsAnalysed(m: Manifest, triage: PhaseKey, done: set<TicketId>, t: TicketId) returns (events: seq<Event>)
    requires Analysing(m, triage, done) && t in m.tickets && t !in done
    ensures Run(m, events).Accepted? && Analysing(Run(m, events).m, triage, done + {t}) && Run(m, events).m.tickets.Keys == m.tickets.Keys
  {
    hide Run, Step;
    var n := LengthsAreBounded(m.phases.Keys);
    var p := Key(n);
    var m1 := WithTicket(m, t, TRIAGED);
    var m2 := WithPhase(m1, p, Done(Analysis, Some(t)));
    var m3 := WithTicket(m2, t, ANALYZED);
    RunNothing(m);
    TriageIsAccepted(m, triage, t);
    ThenStep(m, [], m, Planned(TicketTriaged(t, triage)), m1);
    events := [] + [Planned(TicketTriaged(t, triage))];
    assert ActiveAnalyses(m1) == {};
    var analysis := PhaseIsDone(m1, p, Analysis, Some(t));
    RunConcat(m, events, analysis);
    events := events + analysis;
    AnalysisIsAccepted(m2, p, t);
    ThenStep(m, events, m2, Planned(AnalysisRecorded(t, p, false, UNGATED, true, UNGATED)), m3);
    events := events + [Planned(AnalysisRecorded(t, p, false, UNGATED, true, UNGATED))];
  }

  lemma {:induction false} EveryTicketIsAnalysed(m: Manifest, triage: PhaseKey, done: set<TicketId>) returns (events: seq<Event>)
    requires Analysing(m, triage, done) && done <= m.tickets.Keys
    ensures Run(m, events).Accepted? && Analysing(Run(m, events).m, triage, m.tickets.Keys) && Run(m, events).m.tickets.Keys == m.tickets.Keys
    decreases m.tickets.Keys - done
  {
    hide Run, Analysing;
    if done == m.tickets.Keys {
      events := [];
      RunNothing(m);
    } else {
      assert exists t :: t in m.tickets && t !in done;
      var t :| t in m.tickets && t !in done;
      events := TicketIsAnalysed(m, triage, done, t);
      var n := Run(m, events).m;
      var rest := EveryTicketIsAnalysed(n, triage, done + {t});
      RunConcat(m, events, rest);
      events := events + rest;
    }
  }

  lemma NoDependenciesNoCycle(g: Graph)
    requires forall t :: t in g ==> g[t] == []
    ensures Closed(g) && !HasCycle(g)
  {
    forall path: seq<TicketId> | |path| >= 2 ensures !IsPath(g, path) {
      assert !(path[0] in g && path[1] in g[path[0]]);
    }
  }

  function Unplanned(m: Manifest): map<TicketId, Plan> {
    map t | t in m.tickets :: NO_PLAN
  }

  lemma NoPlansAreValid(m: Manifest)
    requires forall t :: t in m.tickets ==> m.tickets[t] == ANALYZED
    ensures forall t :: t in m.tickets ==> ReadyToConsolidate(m.tickets[t]) && ValidPlan(m.tickets.Keys, t, Unplanned(m)[t])
    ensures CollisionFree(m.tickets.Keys, Unplanned(m))
  {
  }

  lemma UnplannedIs(m: Manifest)
    requires forall t :: t in m.tickets ==> m.tickets[t] == ANALYZED
    ensures var n := WithPlans(m, m.order, Unplanned(m));
            && n.tickets.Keys == m.tickets.Keys && (forall t :: t in m.tickets ==> n.tickets[t] == READY)
            && DependencyGraph(n).Keys == m.tickets.Keys && forall t :: t in m.tickets ==> DependencyGraph(n)[t] == []
  {
  }

  lemma SameGraph(m: Manifest, o: seq<TicketId>)
    ensures DependencyGraph(m.(order := o, consolidated := true)) == DependencyGraph(m)
  {
  }

  /** Consolidating without any dependency keeps the priority acceptable and readies every ticket. */
  lemma ConsolidationIs(m: Manifest)
    requires !m.consolidated && Elements(m.order) == m.tickets.Keys && forall t :: t in m.tickets ==> m.tickets[t] == ANALYZED
    ensures var o := Consolidate(m, m.order, Unplanned(m));
            && o.Accepted? && o.m.consolidated && Schedulable(o.m) && o.m.tickets.Keys == m.tickets.Keys
            && forall t :: t in m.tickets ==> o.m.tickets[t] == READY
  {
    hide HasCycle, Closed, ReadyToConsolidate, ValidPlan, CollisionFree, WithPlans, DependencyGraph;
    NoPlansAreValid(m);
    UnplannedIs(m);
    var m1 := WithPlans(m, m.order, Unplanned(m));
    NoDependenciesNoCycle(DependencyGraph(m1));
    OrderIsExact(DependencyGraph(m1), m.order);
    SameGraph(m1, Order(DependencyGraph(m1), m.order).tickets);
  }

  lemma ConsolidationIsAccepted(m: Manifest, triage: PhaseKey)
    requires Analysing(m, triage, m.tickets.Keys)
    ensures var o := Step(m, Planned(DependenciesConsolidated(m.order, Unplanned(m))));
            o.Accepted? && Undelivered(o.m) && o.m.tickets.Keys == m.tickets.Keys
  {
    hide Consolidate, Schedulable;
    ConsolidationIs(m);
  }

  lemma BootstrapIsAnalysed(m: Manifest) returns (events: seq<Event>)
    requires Bootstrapped(m) && m.run.live
    ensures Run(m, events).Accepted? && Undelivered(Run(m, events).m) && Run(m, events).m.tickets.Keys == m.tickets.Keys
  {
    hide Run, Step, Undelivered;
    events := PhaseIsDone(m, "triage", Triage, None);
    var m1 := WithPhase(m, "triage", Done(Triage, None));
    assert Analysing(m1, "triage", {});
    var analyses := EveryTicketIsAnalysed(m1, "triage", {});
    RunConcat(m, events, analyses);
    events := events + analyses;
    var m2 := Run(m, events).m;
    ConsolidationIsAccepted(m2, "triage");
    var e := Planned(DependenciesConsolidated(m2.order, Unplanned(m2)));
    ThenStep(m, events, m2, e, Step(m2, e).m);
    events := events + [e];
  }

  // ----- finalization -----

  /** Every ticket is merged, nothing runs, and finalization has not started. */
  predicate Deliverable(m: Manifest) {
    && m.run.live && m.anomalies == 0 && m.tickets != map[] && Unmerged(m) == {}
    && NoActivePhase(m) && m.final == FRESH_FINALIZATION && m.slots == map[] && !m.completed && !m.editorsReady
  }

  function WithFinal(m: Manifest, f: Finalization): Manifest {
    m.(final := f)
  }

  lemma StartIsAccepted(m: Manifest)
    requires Deliverable(m)
    ensures Step(m, Finalized(FinalizationStarted(NoEditor)))
         == Accepted(WithFinal(m, m.final.(status := Started, requirement := if m.run.editors then Some(NoEditor) else None)))
  {
    forall t | t in m.tickets ensures m.tickets[t].status.MergedIntoTrain? {
      assert t !in Unmerged(m);
    }
    var t :| t in m.tickets;
    assert m.tickets[t].status.MergedIntoTrain?;
  }

  /** The final pull request is open at `head`, ready, and its verification may be recorded. */
  predicate Open(m: Manifest, head: Commit) {
    && m.run.live && m.anomalies == 0 && m.final.pr == Some(FinalPr(head, false))
    && (m.run.editors ==> m.final.requirement == Some(NoEditor))
  }

  lemma PrIsAccepted(m: Manifest, head: Commit)
    requires m.anomalies == 0 && m.final.status.Started?
    ensures Step(m, Finalized(FinalPrRecorded(head, false))) == Accepted(WithFinal(m, m.final.(pr := Some(FinalPr(head, false)), status := FinalPrOpen)))
  {
  }

  function Verified(m: Manifest, head: Commit, passed: bool): Manifest {
    WithFinal(m, m.final.(records := m.final.records.(verification := Some(FinalVerification(head, passed))),
                          status := if passed then m.final.status else FinalVerificationFailed))
  }

  lemma VerificationIsAccepted(m: Manifest, head: Commit, passed: bool)
    requires Open(m, head)
    ensures Step(m, Finalized(FinalVerificationRecorded(head, passed))) == Accepted(Verified(m, head, passed))
  {
    hide HoldsSlot;
  }

  function UnderReview(m: Manifest, p: PhaseKey, head: Commit): Manifest {
    WithPhase(m, p, NewPhase(None, FinalReview, NoEditor, Detached(head))).(final := m.final.(status := FinalPrReview))
  }

  lemma ReviewIsDispatched(m: Manifest, p: PhaseKey, head: Commit)
    requires Open(m, head) && p !in m.phases && m.tickets != map[] && Unmerged(m) == {}
    requires m.final.records.verification == Some(FinalVerification(head, true))
    ensures Step(m, Finalized(FinalReviewDispatched(p, NoEditor))) == Accepted(UnderReview(m, p, head))
  {
    hide OnePhase;
    var t :| t in m.tickets;
    assert t !in Unmerged(m);
  }

  function FinallyReviewed(m: Manifest, p: PhaseKey, head: Commit): Manifest
    requires p in m.phases
  {
    WithFinal(Completing(m, p), m.final.(records := m.final.records.(review := Some(head)), status := AwaitingFeedbackCollection))
  }

  lemma FinalReviewIsRecorded(m: Manifest, p: PhaseKey, head: Commit)
    requires Open(m, head) && m.final.records.verification.Some? && p in m.phases && m.phases[p].kind.FinalReview? && m.phases[p].launch.Running?
    ensures Step(m, Finalized(FinalReviewRecorded(p, head, DONE))) == Accepted(FinallyReviewed(m, p, head))
  {
    hide OnePhase;
  }

  /** Feedback has been collected for `head` and found clean. */
  function FeedbackDone(m: Manifest, head: Commit): Manifest {
    WithFinal(m, m.final.(status := ReadyForCompletion, records := m.final.records.(
      collection := Some(FeedbackWindow(0, head)), snapshot := Some(FeedbackSnapshot(0, head)), ledger := Some(FindingLedger(head, 0)), evidence := true)))
  }

  function FeedbackEvents(head: Commit): seq<Event> {
    [Finalized(FeedbackStarted(0, head)), Finalized(FeedbackRecorded(0, 0, head)),
     Finalized(FinalFindingsReconciled(head, 0, false)), Finalized(FinalEvidenceRecorded(0))]
  }

  lemma FeedbackStarts(m: Manifest, head: Commit)
    requires Open(m, head) && m.final.status.AwaitingFeedbackCollection?
    ensures Step(m, Finalized(FeedbackStarted(0, head))) == Accepted(WithFinal(m, m.final.(
              records := m.final.records.(collection := Some(FeedbackWindow(0, head))), status := FeedbackCollection)))
  {
  }

  lemma FeedbackEnds(m: Manifest, head: Commit)
    requires Open(m, head) && m.final.status.FeedbackCollection? && m.final.records.collection == Some(FeedbackWindow(0, head))
    ensures Step(m, Finalized(FeedbackRecorded(0, 0, head))) == Accepted(WithFinal(m, m.final.(
              records := m.final.records.(snapshot := Some(FeedbackSnapshot(0, head))), status := AwaitingFinalFindings)))
  {
  }

  lemma FindingsAreClean(m: Manifest, head: Commit)
    requires Open(m, head) && m.final.status.AwaitingFinalFindings? && m.final.records.snapshot == Some(FeedbackSnapshot(0, head))
    ensures Step(m, Finalized(FinalFindingsReconciled(head, 0, false))) == Accepted(WithFinal(m, m.final.(
              records := m.final.records.(ledger := Some(FindingLedger(head, 0))), status := FinalReviewClean)))
  {
  }

  lemma EvidenceIsRecorded(m: Manifest, head: Commit)
    requires Open(m, head) && m.final.status.FinalReviewClean? && m.final.records.ledger.Some? && m.final.records.snapshot == Some(FeedbackSnapshot(0, head))
    ensures Step(m, Finalized(FinalEvidenceRecorded(0))) == Accepted(WithFinal(m, m.final.(
              records := m.final.records.(evidence := true), status := ReadyForCompletion)))
  {
  }

  lemma FeedbackIsCollected(m: Manifest, head: Commit)
    requires Open(m, head) && m.final.status.AwaitingFeedbackCollection?
    ensures Run(m, FeedbackEvents(head)) == Accepted(FeedbackDone(m, head))
  {
    hide Step, Run;
    var s := FeedbackEvents(head);
    var m1 := WithFinal(m, m.final.(records := m.final.records.(collection := Some(FeedbackWindow(0, head))), status := FeedbackCollection));
    var m2 := WithFinal(m1, m1.final.(records := m1.final.records.(snapshot := Some(FeedbackSnapshot(0, head))), status := AwaitingFinalFindings));
    var m3 := WithFinal(m2, m2.final.(records := m2.final.records.(ledger := Some(FindingLedger(head, 0))), status := FinalReviewClean));
    FeedbackStarts(m, head);
    FeedbackEnds(m1, head);
    FindingsAreClean(m2, head);
    EvidenceIsRecorded(m3, head);
    RunNothing(m);
    ThenStep(m, [], m, s[0], m1);
    ThenStep(m, [] + [s[0]], m1, s[1], m2);
    ThenStep(m, [] + [s[0]] + [s[1]], m2, s[2], m3);
    ThenStep(m, [] + [s[0]] + [s[1]] + [s[2]], m3, s[3], FeedbackDone(m, head));
    assert s == [] + [s[0]] + [s[1]] + [s[2]] + [s[3]];
  }

  /** What a finalized manifest needs before completion is asked for. */
  predicate Finalizable(m: Manifest) {
    && m.run.live && m.anomalies == 0 && Unmerged(m) == {} && NoActivePhase(m) && m.slots == map[]
    && m.final.status.ReadyForCompletion? && m.final.records.evidence && HeadsAgree(m.final) && !m.final.pr.value.draft
  }

  lemma CompletionIsDecided(m: Manifest)
    requires Finalizable(m)
    ensures Step(m, Event(true, RunCompleted)).Accepted? <==> m.final.records.verification.value.passed
  {
    assert LeasedSlots(m) == {};
    forall t | t in m.tickets ensures m.tickets[t].status.MergedIntoTrain? {
      assert t !in Unmerged(m);
    }
  }

  lemma OneReviewIsQuiet(m: Manifest, p: PhaseKey, v: Phase)
    requires NoActivePhase(m) && v.launch.Completed?
    ensures NoActivePhase(WithPhase(m, p, v))
  {
  }

  /** `n` is `m` with the final pull request open and verified, and the review `p` of its head dispatched. */
  predicate FinalReviewIntended(m: Manifest, n: Manifest, p: PhaseKey) {
    && Open(n, 1) && n.final.status.FinalPrReview? && n.final.records.verification.Some? && !n.completed
    && n.tickets == m.tickets && n.slots == map[] && n.phases == m.phases[p := NewPhase(None, FinalReview, NoEditor, Detached(1))]
  }

  lemma DeliveredRunIsReviewed(m: Manifest) returns (events: seq<Event>, p: PhaseKey)
    requires Deliverable(m)
    ensures Run(m, events).Accepted? && FinalReviewIntended(m, Run(m, events).m, p)
  {
    hide Run, Step;
    var n := LengthsAreBounded(m.phases.Keys);
    p := Key(n);
    var e := Finalized(FinalizationStarted(NoEditor));
    var m1 := WithFinal(m, m.final.(status := Started, requirement := if m.run.editors then Some(NoEditor) else None));
    StartIsAccepted(m);
    RunNothing(m);
    ThenStep(m, [], m, e, m1);
    events := [] + [e];
    e := Finalized(FinalPrRecorded(1, false));
    var m2 := WithFinal(m1, m1.final.(pr := Some(FinalPr(1, false)), status := FinalPrOpen));
    PrIsAccepted(m1, 1);
    ThenStep(m, events, m1, e, m2);
    events := events + [e];
    e := Finalized(FinalVerificationRecorded(1, true));
    var m3 := Verified(m2, 1, true);
    VerificationIsAccepted(m2, 1, true);
    ThenStep(m, events, m2, e, m3);
    events := events + [e];
    e := Finalized(FinalReviewDispatched(p, NoEditor));
    assert Unmerged(m3) == Unmerged(m);
    ReviewIsDispatched(m3, p, 1);
    ThenStep(m, events, m3, e, UnderReview(m3, p, 1));
    events := events + [e];
  }

  lemma DeliveredRunAwaitsCompletion(m: Manifest, passes: bool) returns (events: seq<Event>)
    requires Deliverable(m)
    ensures Run(m, events).Accepted? && Finalizable(Run(m, events).m)
    ensures Run(m, events).m.final.records.verification.value.passed == passes
  {
    hide Run, Step, FinalReviewIntended;
    var p: PhaseKey;
    events, p := DeliveredRunIsReviewed(m);
    var rest := ReviewedRunAwaitsCompletion(m, Run(m, events).m, p, passes);
    RunConcat(m, events, rest);
    events := events + rest;
  }

  lemma ReviewedRunAwaitsCompletion(m0: Manifest, m4: Manifest, p: PhaseKey, passes: bool) returns (events: seq<Event>)
    requires Deliverable(m0) && FinalReviewIntended(m0, m4, p)
    ensures Run(m4, events).Accepted? && Finalizable(Run(m4, events).m)
    ensures Run(m4, events).m.final.records.verification.value.passed == passes
  {
    hide Run, Step, Finalizable, Deliverable, FeedbackEvents;
    var e := Phased(LaunchObserved(p, Running, Some(0), None, false));
    var m5 := Launch(m4, p, 0);
    LaunchIsAccepted(m4, p, 0);
    RunNothing(m4);
    ThenStep(m4, [], m4, e, m5);
    events := [] + [e];
    e := Finalized(FinalVerificationRecorded(1, passes));
    var m6 := Verified(m5, 1, passes);
    VerificationIsAccepted(m5, 1, passes);
    ThenStep(m4, events, m5, e, m6);
    events := events + [e];
    e := Finalized(FinalReviewRecorded(p, 1, DONE));
    var m7 := FinallyReviewed(m6, p, 1);
    FinalReviewIsRecorded(m6, p, 1);
    ThenStep(m4, events, m6, e, m7);
    events := events + [e];
    FeedbackIsCollected(m7, 1);
    RunConcat(m4, events, FeedbackEvents(1));
    events := events + FeedbackEvents(1);
    assert m7.phases == m0.phases[p := m7.phases[p]];
    AwaitedIsFinalizable(m0, m7, p);
  }

  lemma AwaitedIsFinalizable(m0: Manifest, m7: Manifest, p: PhaseKey)
    requires Deliverable(m0) && Open(m7, 1) && m7.tickets == m0.tickets && m7.slots == map[]
    requires m7.final.records.verification.Some? && m7.final.records.verification.value.head == 1 && m7.final.records.review == Some(1)
    requires p in m7.phases && m7.phases[p].launch.Completed? && m7.phases == m0.phases[p := m7.phases[p]]
    ensures Finalizable(FeedbackDone(m7, 1))
  {
    OneReviewIsQuiet(m0, p, m7.phases[p]);
    assert Unmerged(m7) == Unmerged(m0);
  }

  lemma BootstrapIsDelivered(m: Manifest) returns (events: seq<Event>)
    requires Bootstrapped(m) && m.run.live && m.tickets != map[]
    ensures Run(m, events).Accepted? && Deliverable(Run(m, events).m)
  {
    hide Run, Step, Idle;
    events := BootstrapIsAnalysed(m);
    var m1 := Run(m, events).m;
    var merges := EverythingCanBeMerged(m1);
    RunConcat(m, events, merges);
    events := events + merges;
    assert Deliverable(Run(m1, merges).m) by { IdleIsLive(m1); }
  }

  /** Every live run with a ticket can be brought to the point where completion is awaited, with the
      final head verified either way: a repeated verification that fails does not keep the review
      and the feedback from being recorded. Completion itself is then accepted exactly when that
      verification passed. */
  lemma EveryRunCanAwaitCompletion(m: Manifest, passes: bool) returns (events: seq<Event>)
    requires Bootstrapped(m) && m.run.live && m.tickets != map[]
    ensures Run(m, events).Accepted?
    ensures var n := Run(m, events).m;
            && n.final.status.ReadyForCompletion? && HeadsAgree(n.final) && n.final.records.verification.value.passed == passes
            && (Step(n, Event(true, RunCompleted)).Accepted? <==> passes)
  {
    hide Run, Step, Deliverable, Finalizable;
    events := BootstrapIsDelivered(m);
    var m2 := Run(m, events).m;
    var finals := DeliveredRunAwaitsCompletion(m2, passes);
    RunConcat(m, events, finals);
    events := events + finals;
    CompletionIsDecided(Run(m2, finals).m);
    FinalizableIs(Run(m2, finals).m);
  }

  lemma IdleIsLive(m: Manifest)
    requires Idle(m)
    ensures m.run.live && m.anomalies == 0
  {
  }

  lemma FinalizableIs(m: Manifest)
    requires Finalizable(m)
    ensures m.final.status.ReadyForCompletion? && HeadsAgree(m.final)
  {
  }
}
