/** A run in which the planner offers a ticket whose scope nobody has authorized.

    An input request remembers the status of its ticket and brings it back whenever it is answered,
    and a resumed phase brings back the status of the first request made for it. Two old requests and
    a second analysis are enough to make a ticket ready while its latest analysis still waits for a
    decision on its scope. */
module StaleAnswer {
  import opened Prelude
  import opened DependencyOrder
  import opened Manifest
  import opened PlanningEvents
  import opened GateEvents
  import opened PhaseEvents
  import opened Events
  import opened Planner
  import opened Progress
  import opened Completion

  // ----- single events -----

  lemma GatingSteps(m: Manifest, a: GatesAction, n: Manifest)
    requires m.anomalies == 0 && HandleGates(m, a) == Accepted(n)
    ensures Step(m, Gated(a)) == Accepted(n)
  {
    hide HandleGates;
  }

  lemma PhasingSteps(m: Manifest, a: PhasesAction, n: Manifest)
    requires m.anomalies == 0 && HandlePhases(m, a) == Accepted(n)
    ensures Step(m, Phased(a)) == Accepted(n)
  {
    hide HandlePhases;
  }

  lemma PlanningSteps(m: Manifest, a: PlanningAction, n: Manifest)
    requires m.anomalies == 0 && HandlePlanning(m, a) == Accepted(n)
    ensures Step(m, Completion.Planned(a)) == Accepted(n)
  {
    hide HandlePlanning;
  }

  lemma StopIs(m: Manifest, p: PhaseKey, t: TicketId, g: GateId)
    requires m.anomalies == 0 && p in m.phases && m.phases[p].launch.Running? && m.phases[p].ticket == Some(t) && t in m.tickets && g !in m.gates
    requires m.phases[p].requirement.NoEditor?
    ensures Step(m, Phased(PhaseTerminated(p, EndsNeedsInput(g), None))) == Accepted(WithStatus(WithEnd(
              WithGate(m, g, Gate(InputGate, t, Some(p), Some(m.tickets[t].status), SameThread, Unannounced)), p, NeedsInput, None), t, AwaitingRequiredInput))
  {
    hide OneTicket, OnePhase, OpensAtMost, DispatchPhase, ObserveLaunch, RecordCompletion, ReclassifyAcceptance;
    PhasingSteps(m, PhaseTerminated(p, EndsNeedsInput(g), None), StopForInput(m, p, t, g, None).m);
  }

  lemma RequestIs(m: Manifest, t: TicketId, g: GateId)
    requires m.anomalies == 0 && t in m.tickets && !TerminalTicket(m.tickets[t].status) && g !in m.gates
    ensures Step(m, Gated(InputRequested(t, g, None))) == Accepted(WithStatus(
              WithGate(m, g, Gate(InputGate, t, None, Some(m.tickets[t].status), TicketState, Unannounced)), t, AwaitingRequiredInput))
  {
    hide OneTicket, OpensAtMost, AnnounceGate, ResolveGate, ProvideInput, ResumePhase;
    GatingSteps(m, InputRequested(t, g, None), RequestInput(m, t, g, None).m);
  }

  function Shown(m: Manifest, g: GateId): Manifest
    requires g in m.gates
  {
    WithGate(m, g, m.gates[g].(status := Announced)).(pending := Some(g))
  }

  function Closed(m: Manifest, g: GateId): Manifest
    requires g in m.gates
  {
    WithGate(m, g, m.gates[g].(status := Provided))
  }

  lemma AnnouncementIs(m: Manifest, g: GateId)
    requires m.anomalies == 0 && m.pending.None? && g in m.gates && m.gates[g].status.Unannounced?
    ensures Step(m, Gated(GateAnnounced(g))) == Accepted(Shown(m, g))
  {
    hide RequestInput, ResolveGate, ProvideInput, ResumePhase;
    GatingSteps(m, GateAnnounced(g), Shown(m, g));
  }

  lemma AnswerClosesShown(m: Manifest, g: GateId)
    requires m.pending.None? && g in m.gates
    ensures CloseGate(Shown(m, g), g, Provided) == Closed(m, g)
  {
    assert m.gates[g := m.gates[g].(status := Announced)][g := m.gates[g].(status := Provided)] == m.gates[g := m.gates[g].(status := Provided)];
  }

  lemma ThreadAnswerIs(m: Manifest, g: GateId, p: PhaseKey)
    requires m.anomalies == 0 && m.pending.None? && g in m.gates && m.gates[g].kind.InputGate? && m.gates[g].status.Unannounced?
    requires m.gates[g].resume.SameThread? && m.gates[g].phase == Some(p) && p in m.phases && m.phases[p].launch.NeedsInput? && m.gates[g].ticket in m.tickets
    ensures Step(Shown(m, g), Gated(InputProvided(g))) == Accepted(WithLaunch(Closed(m, g), p, InputReady))
  {
    hide Closes, OnlyStatus, RequestInput, AnnounceGate, ResolveGate, ResumePhase;
    AnswerClosesShown(m, g);
    GatingSteps(Shown(m, g), InputProvided(g), WithLaunch(Closed(m, g), p, InputReady));
  }

  lemma TicketAnswerIs(m: Manifest, g: GateId)
    requires m.anomalies == 0 && m.pending.None? && g in m.gates && m.gates[g].kind.InputGate? && m.gates[g].status.Unannounced?
    requires m.gates[g].resume.TicketState? && m.gates[g].prior.Some? && m.gates[g].ticket in m.tickets
    ensures Step(Shown(m, g), Gated(InputProvided(g))) == Accepted(WithStatus(Closed(m, g), m.gates[g].ticket, m.gates[g].prior.value))
  {
    hide Closes, OnlyStatus, RequestInput, AnnounceGate, ResolveGate, ResumePhase;
    AnswerClosesShown(m, g);
    GatingSteps(Shown(m, g), InputProvided(g), WithStatus(Closed(m, g), m.gates[g].ticket, m.gates[g].prior.value));
  }

  lemma ResumptionIs(m: Manifest, p: PhaseKey, g: GateId)
    requires m.anomalies == 0 && p in m.phases && m.phases[p].launch.InputReady? && m.phases[p].requirement.NoEditor?
    requires FirstGateOf(m, g, p) && m.gates[g].status.Provided? && m.gates[g].prior.Some? && m.gates[g].ticket in m.tickets
    ensures Step(m, Gated(PhaseResumed(p, m.phases[p].thread, g)))
         == Accepted(WithStatus(WithLaunch(m, p, Running), m.gates[g].ticket, m.gates[g].prior.value))
  {
    hide OnlyStatus, HoldsSlot, FirstGateOf, RequestInput, AnnounceGate, ResolveGate, ProvideInput;
    assert g in m.gates by { FirstIsThere(m, g, p); }
    GatingSteps(m, PhaseResumed(p, m.phases[p].thread, g), WithStatus(WithLaunch(m, p, Running), m.gates[g].ticket, m.gates[g].prior.value));
  }

  lemma FirstIsThere(m: Manifest, g: GateId, p: PhaseKey)
    requires FirstGateOf(m, g, p)
    ensures g in m.gates
  {
  }

  /** The ticket after an analysis that asks for a scope decision. */
  function Undecided(v: Ticket): Ticket {
    v.(facts := v.facts.(analysis := Some(AnalysisRecord(false, ScopeApprovalRequired))), status := AwaitingSpecificationDecision)
  }

  lemma ScopeRequestIs(m: Manifest, p: PhaseKey, t: TicketId, g: GateId)
    requires m.anomalies == 0 && t in m.tickets && m.tickets[t].status.Triaged? && IsCompleted(m, p, Analysis, t) && g !in m.gates
    ensures Step(m, Completion.Planned(AnalysisRecorded(t, p, false, GateRule(true, g), true, UNGATED)))
         == Accepted(WithGate(WithTicket(m, t, Undecided(m.tickets[t])), g, Gate(SpecificationGate, t, None, None, NotResuming, Unannounced)))
  {
    hide OneTicket, OpensAtMost, OnePhase, IsCompleted, RecordTriage, DecideSpecification, RecordRouteValidation, ReconcileRouteValidation, Consolidate,
         ReconcileReadiness, RecordContractValidation, CollectContractResult, AmendContract;
    PlanningSteps(m, AnalysisRecorded(t, p, false, GateRule(true, g), true, UNGATED), RecordAnalysis(m, t, p, false, GateRule(true, g), true, UNGATED).m);
  }

  // ----- the run -----

  /** A manifest of one ticket with a completed triage, a completed analysis and the analysis `late`. */
  function Stage(m: Manifest, t: TicketId, v: Ticket, late: Phase, gates: map<GateId, Gate>): Manifest {
    m.(tickets := map[t := v], gates := gates,
       phases := map["triage" := Done(Triage, None), "early" := Done(Analysis, Some(t)), "late" := late])
  }

  function Live(t: TicketId): Phase {
    NewPhase(Some(t), Analysis, NoEditor, Detached(0)).(launch := Running, thread := Some(0))
  }

  /** The request made of the ready ticket, and the decision that the late analysis asks for. */
  function OldRequest(t: TicketId, s: GateStatus): Gate {
    Gate(InputGate, t, None, Some(ReadyForImplementation), TicketState, s)
  }

  function Decision(t: TicketId, s: GateStatus): Gate {
    Gate(SpecificationGate, t, None, None, NotResuming, s)
  }

  /** Nothing keeps the handler back, and no gate waits for an answer. */
  predicate Free(m: Manifest) {
    m.anomalies == 0 && m.pending.None? && !m.consolidated && m.run.maxAnalyses == 5
  }

  lemma LateAnalysisRuns(m: Manifest, t: TicketId) returns (events: seq<Event>)
    requires Bootstrapped(m) && m.tickets.Keys == {t}
    ensures Free(m) && Run(m, events) == Accepted(Stage(m, t, TRIAGED, Live(t), map[]))
  {
    hide Run, Step;
    assert m.tickets == map[t := NEW_TICKET];
    events := PhaseIsDone(m, "triage", Triage, None);
    var m1 := WithPhase(m, "triage", Done(Triage, None));
    var e := Completion.Planned(TicketTriaged(t, "triage"));
    var m2 := WithTicket(m1, t, TRIAGED);
    TriageIsAccepted(m1, "triage", t);
    ThenStep(m, events, m1, e, m2);
    events := events + [e];
    assert ActiveAnalyses(m2) == {};
    var early := PhaseIsDone(m2, "early", Analysis, Some(t));
    RunConcat(m, events, early);
    events := events + early;
    var m3 := WithPhase(m2, "early", Done(Analysis, Some(t)));
    assert ActiveAnalyses(m3) == {};
    e := Phased(PhaseDispatched("late", Analysis, Some(t), NoEditor, 0));
    var m4 := WithPhase(m3, "late", NewPhase(Some(t), Analysis, NoEditor, Detached(0)));
    DispatchIsAllowed(m3, "late", Analysis, Some(t));
    ThenStep(m, events, m3, e, m4);
    events := events + [e];
    e := Phased(LaunchObserved("late", Running, Some(0), None, false));
    LaunchIsAccepted(m4, "late", 0);
    ThenStep(m, events, m4, e, Launch(m4, "late", 0));
    events := events + [e];
    assert Launch(m4, "late", 0) == Stage(m, t, TRIAGED, Live(t), map[]);
  }

  function Asking(t: TicketId, prior: TicketStatus, s: GateStatus): Gate {
    Gate(InputGate, t, Some("late"), Some(prior), SameThread, s)
  }

  lemma StageAsks(m: Manifest, t: TicketId, v: Ticket, gates: map<GateId, Gate>, g: GateId)
    requires m.anomalies == 0 && g !in gates
    ensures Step(Stage(m, t, v, Live(t), gates), Phased(PhaseTerminated("late", EndsNeedsInput(g), None)))
         == Accepted(Stage(m, t, v.(status := AwaitingRequiredInput), Live(t).(launch := NeedsInput), gates[g := Asking(t, v.status, Unannounced)]))
  {
    hide Step;
    StopIs(Stage(m, t, v, Live(t), gates), "late", t, g);
  }

  lemma StageIsAnswered(m: Manifest, t: TicketId, v: Ticket, gates: map<GateId, Gate>, g: GateId)
    requires m.anomalies == 0 && m.pending.None? && g in gates && gates[g].status.Unannounced?
    requires gates[g].kind.InputGate? && gates[g].resume.SameThread? && gates[g].phase == Some("late") && gates[g].ticket == t
    ensures var x := Stage(m, t, v, Live(t).(launch := NeedsInput), gates);
            && Step(x, Gated(GateAnnounced(g))) == Accepted(Shown(x, g))
            && Step(Shown(x, g), Gated(InputProvided(g)))
               == Accepted(Stage(m, t, v, Live(t).(launch := InputReady), gates[g := gates[g].(status := Provided)]))
  {
    hide Step;
    var x := Stage(m, t, v, Live(t).(launch := NeedsInput), gates);
    AnnouncementIs(x, g);
    ThreadAnswerIs(x, g, "late");
  }

  /** The phase goes back to the status of its first request. */
  lemma StageIsResumed(m: Manifest, t: TicketId, v: Ticket, gates: map<GateId, Gate>)
    requires m.anomalies == 0 && "a" in gates && gates["a"] == Asking(t, Triaged, Provided)
    requires forall h :: h in gates && gates[h].phase == Some("late") ==> !Before(h, "a")
    ensures Step(Stage(m, t, v, Live(t).(launch := InputReady), gates), Gated(PhaseResumed("late", Some(0), "a")))
         == Accepted(Stage(m, t, v.(status := Triaged), Live(t), gates))
  {
    hide Step;
    var x := Stage(m, t, v, Live(t).(launch := InputReady), gates);
    assert x.phases["late"] == Live(t).(launch := InputReady);
    ResumptionIs(x, "late", "a");
  }

  /** The late analysis asks, is answered, and is resumed with the status of its first request. */
  lemma LateAnalysisAsks(m0: Manifest, done: seq<Event>, m: Manifest, t: TicketId, v: Ticket, gates: map<GateId, Gate>, g: GateId) returns (events: seq<Event>)
    requires m.anomalies == 0 && m.pending.None? && g !in gates && Run(m0, done) == Accepted(Stage(m, t, v, Live(t), gates))
    requires var all := gates[g := Asking(t, v.status, Provided)];
             && "a" in all && all["a"] == Asking(t, Triaged, Provided)
             && forall h :: h in all && all[h].phase == Some("late") ==> !Before(h, "a")
    ensures Run(m0, events) == Accepted(Stage(m, t, v.(status := Triaged), Live(t), gates[g := Asking(t, v.status, Provided)]))
  {
    hide Run, Step, Stage, Shown, Before;
    var asked := gates[g := Asking(t, v.status, Unannounced)];
    var w := v.(status := AwaitingRequiredInput);
    var x := Stage(m, t, v, Live(t), gates);
    var x1 := Stage(m, t, w, Live(t).(launch := NeedsInput), asked);
    StageAsks(m, t, v, gates, g);
    ThenStep(m0, done, x, Phased(PhaseTerminated("late", EndsNeedsInput(g), None)), x1);
    events := done + [Phased(PhaseTerminated("late", EndsNeedsInput(g), None))];
    StageIsAnswered(m, t, w, asked, g);
    assert x1.gates == asked by { StageGates(m, t, w, Live(t).(launch := NeedsInput), asked); }
    ThenStep(m0, events, x1, Gated(GateAnnounced(g)), Shown(x1, g));
    events := events + [Gated(GateAnnounced(g))];
    var all := gates[g := Asking(t, v.status, Provided)];
    assert asked[g := asked[g].(status := Provided)] == all;
    var x2 := Stage(m, t, w, Live(t).(launch := InputReady), all);
    ThenStep(m0, events, Shown(x1, g), Gated(InputProvided(g)), x2);
    events := events + [Gated(InputProvided(g))];
    StageIsResumed(m, t, w, all);
    ThenStep(m0, events, x2, Gated(PhaseResumed("late", Some(0), "a")), Stage(m, t, w.(status := Triaged), Live(t), all));
    events := events + [Gated(PhaseResumed("late", Some(0), "a"))];
  }

  lemma StageGates(m: Manifest, t: TicketId, v: Ticket, late: Phase, gates: map<GateId, Gate>)
    ensures Stage(m, t, v, late, gates).gates == gates
  {
  }

  // ----- readiness, and what the old request brings back -----

  lemma EarlyAnalysisIsRecorded(m: Manifest, t: TicketId, gates: map<GateId, Gate>)
    requires m.anomalies == 0 && !m.consolidated
    ensures Step(Stage(m, t, TRIAGED, Live(t), gates), Completion.Planned(AnalysisRecorded(t, "early", false, UNGATED, true, UNGATED)))
         == Accepted(Stage(m, t, ANALYZED, Live(t), gates))
  {
    hide Step;
    AnalysisIsAccepted(Stage(m, t, TRIAGED, Live(t), gates), "early", t);
  }

  /** The consolidated run: what `m` fixes apart from its tickets, gates and phases. */
  function Consolidated(m: Manifest, o: seq<TicketId>): Manifest {
    m.(order := o, consolidated := true)
  }

  lemma StageIsConsolidated(m: Manifest, t: TicketId, gates: map<GateId, Gate>) returns (o: seq<TicketId>)
    requires !m.consolidated && Elements(m.order) == {t}
    ensures var x := Stage(m, t, ANALYZED, Live(t), gates);
            Consolidate(x, m.order, Unplanned(x)) == Accepted(Stage(Consolidated(m, o), t, READY, Live(t), gates))
    ensures Elements(o) == {t}
  {
    hide Consolidate, HasCycle, Closed, DependencyGraph;
    var x := Stage(m, t, ANALYZED, Live(t), gates);
    ConsolidationIs(x);
    var n := Consolidate(x, m.order, Unplanned(x)).m;
    o := n.order;
    assert n.tickets == map[t := READY];
  }

  lemma ConsolidationIsPlanned(m: Manifest, schedule: seq<TicketId>, plans: map<TicketId, Plan>)
    requires m.anomalies == 0 && Consolidate(m, schedule, plans).Accepted?
    ensures Step(m, Completion.Planned(DependenciesConsolidated(schedule, plans))) == Consolidate(m, schedule, plans)
  {
    hide Step, Consolidate, RecordTriage, RecordAnalysis, DecideSpecification, RecordRouteValidation, ReconcileRouteValidation,
         ReconcileReadiness, RecordContractValidation, CollectContractResult, AmendContract;
    PlanningSteps(m, DependenciesConsolidated(schedule, plans), Consolidate(m, schedule, plans).m);
  }

  lemma TicketBecomesReady(m: Manifest, t: TicketId, gates: map<GateId, Gate>) returns (o: seq<TicketId>)
    requires m.anomalies == 0 && !m.consolidated && Elements(m.order) == {t}
    ensures var x := Stage(m, t, ANALYZED, Live(t), gates);
            Step(x, Completion.Planned(DependenciesConsolidated(m.order, Unplanned(x)))) == Accepted(Stage(Consolidated(m, o), t, READY, Live(t), gates))
    ensures Elements(o) == {t}
  {
    var x := Stage(m, t, ANALYZED, Live(t), gates);
    assert x.anomalies == 0;
    hide Step, Stage, Consolidated, Consolidate, Unplanned;
    o := StageIsConsolidated(m, t, gates);
    ConsolidationIsPlanned(x, m.order, Unplanned(x));
  }

  lemma ReadyTicketIsAsked(m: Manifest, t: TicketId, gates: map<GateId, Gate>, g: GateId)
    requires m.anomalies == 0 && g !in gates
    ensures Step(Stage(m, t, READY, Live(t), gates), Gated(InputRequested(t, g, None)))
         == Accepted(Stage(m, t, READY.(status := AwaitingRequiredInput), Live(t), gates[g := OldRequest(t, Unannounced)]))
  {
    hide Step;
    RequestIs(Stage(m, t, READY, Live(t), gates), t, g);
  }

  lemma LateAnalysisCompletes(m: Manifest, t: TicketId, v: Ticket, gates: map<GateId, Gate>)
    requires m.anomalies == 0
    ensures Step(Stage(m, t, v, Live(t), gates), Phased(PhaseCompleted("late", DONE))) == Accepted(Stage(m, t, v, Done(Analysis, Some(t)), gates))
  {
    hide Step;
    PlainCompletionIsAccepted(Stage(m, t, v, Live(t), gates), "late");
  }

  lemma LateAnalysisIsRecorded(m: Manifest, t: TicketId, v: Ticket, gates: map<GateId, Gate>, g: GateId)
    requires m.anomalies == 0 && v.status.Triaged? && g !in gates
    ensures Step(Stage(m, t, v, Done(Analysis, Some(t)), gates), Completion.Planned(AnalysisRecorded(t, "late", false, GateRule(true, g), true, UNGATED)))
         == Accepted(Stage(m, t, Undecided(v), Done(Analysis, Some(t)), gates[g := Decision(t, Unannounced)]))
  {
    hide Step;
    var x := Stage(m, t, v, Done(Analysis, Some(t)), gates);
    assert x.phases["late"] == Done(Analysis, Some(t));
    ScopeRequestIs(x, "late", t, g);
  }

  lemma OldRequestIsAnswered(m: Manifest, t: TicketId, v: Ticket, late: Phase, gates: map<GateId, Gate>, g: GateId)
    requires m.anomalies == 0 && m.pending.None? && g in gates && gates[g] == OldRequest(t, Unannounced)
    ensures var x := Stage(m, t, v, late, gates);
            && Step(x, Gated(GateAnnounced(g))) == Accepted(Shown(x, g))
            && Step(Shown(x, g), Gated(InputProvided(g)))
               == Accepted(Stage(m, t, v.(status := ReadyForImplementation), late, gates[g := OldRequest(t, Provided)]))
  {
    hide Step;
    AnnouncementIs(Stage(m, t, v, late, gates), g);
    TicketAnswerIs(Stage(m, t, v, late, gates), g);
  }

  /** From the first resumption to the ready ticket's request. */
  lemma TicketIsAskedWhileReady(m0: Manifest, done: seq<Event>, m: Manifest, t: TicketId, gates: map<GateId, Gate>, g: GateId)
    returns (events: seq<Event>, o: seq<TicketId>)
    requires m.anomalies == 0 && !m.consolidated && Elements(m.order) == {t} && g !in gates
    requires Run(m0, done) == Accepted(Stage(m, t, TRIAGED, Live(t), gates))
    ensures Elements(o) == {t}
    ensures Run(m0, events) == Accepted(Stage(Consolidated(m, o), t, READY.(status := AwaitingRequiredInput), Live(t), gates[g := OldRequest(t, Unannounced)]))
  {
    hide Run, Step, Stage;
    var x1 := Stage(m, t, ANALYZED, Live(t), gates);
    EarlyAnalysisIsRecorded(m, t, gates);
    var e := Completion.Planned(AnalysisRecorded(t, "early", false, UNGATED, true, UNGATED));
    ThenStep(m0, done, Stage(m, t, TRIAGED, Live(t), gates), e, x1);
    events := done + [e];
    o := TicketBecomesReady(m, t, gates);
    e := Completion.Planned(DependenciesConsolidated(m.order, Unplanned(x1)));
    var x2 := Stage(Consolidated(m, o), t, READY, Live(t), gates);
    ThenStep(m0, events, x1, e, x2);
    events := events + [e];
    ReadyTicketIsAsked(Consolidated(m, o), t, gates, g);
    e := Gated(InputRequested(t, g, None));
    ThenStep(m0, events, x2, e, Stage(Consolidated(m, o), t, READY.(status := AwaitingRequiredInput), Live(t), gates[g := OldRequest(t, Unannounced)]));
    events := events + [e];
  }

  /** From the second resumption to the answer to the old request and the announced decision. */
  lemma OldRequestRestoresReadiness(m0: Manifest, done: seq<Event>, m: Manifest, t: TicketId, v: Ticket, gates: map<GateId, Gate>, g: GateId, h: GateId)
    returns (events: seq<Event>)
    requires m.anomalies == 0 && m.pending.None? && v.status.Triaged? && g in gates && gates[g] == OldRequest(t, Unannounced) && h !in gates
    requires Run(m0, done) == Accepted(Stage(m, t, v, Live(t), gates))
    ensures var all := gates[h := Decision(t, Unannounced)][g := OldRequest(t, Provided)];
            && h in all && all[h].status.Unannounced?
            && h in Stage(m, t, Undecided(v).(status := ReadyForImplementation), Done(Analysis, Some(t)), all).gates
            && Run(m0, events) == Accepted(Shown(Stage(m, t, Undecided(v).(status := ReadyForImplementation), Done(Analysis, Some(t)), all), h))
  {
    hide Run, Step, Stage, Shown;
    var late := Done(Analysis, Some(t));
    var x1 := Stage(m, t, v, late, gates);
    LateAnalysisCompletes(m, t, v, gates);
    ThenStep(m0, done, Stage(m, t, v, Live(t), gates), Phased(PhaseCompleted("late", DONE)), x1);
    events := done + [Phased(PhaseCompleted("late", DONE))];
    LateAnalysisIsRecorded(m, t, v, gates, h);
    var e := Completion.Planned(AnalysisRecorded(t, "late", false, GateRule(true, h), true, UNGATED));
    var open := gates[h := Decision(t, Unannounced)];
    var x2 := Stage(m, t, Undecided(v), late, open);
    ThenStep(m0, events, x1, e, x2);
    events := events + [e];
    OldRequestIsAnswered(m, t, Undecided(v), late, open, g);
    StageGates(m, t, Undecided(v), late, open);
    ThenStep(m0, events, x2, Gated(GateAnnounced(g)), Shown(x2, g));
    events := events + [Gated(GateAnnounced(g))];
    var all := open[g := OldRequest(t, Provided)];
    var x3 := Stage(m, t, Undecided(v).(status := ReadyForImplementation), late, all);
    ThenStep(m0, events, Shown(x2, g), Gated(InputProvided(g)), x3);
    events := events + [Gated(InputProvided(g))];
    StageGates(m, t, Undecided(v).(status := ReadyForImplementation), late, all);
    assert x3.pending.None? && x3.anomalies == 0 by { StageIsFree(m, t, Undecided(v).(status := ReadyForImplementation), late, all); }
    AnnouncementIs(x3, h);
    ThenStep(m0, events, x3, Gated(GateAnnounced(h)), Shown(x3, h));
    events := events + [Gated(GateAnnounced(h))];
  }

  lemma StageIsFree(m: Manifest, t: TicketId, v: Ticket, late: Phase, gates: map<GateId, Gate>)
    ensures Stage(m, t, v, late, gates).pending == m.pending && Stage(m, t, v, late, gates).anomalies == m.anomalies
  {
  }

  // ----- main result -----

  lemma OnlyTicketIsOffered(m: Manifest, t: TicketId, v: Ticket, late: Phase, gates: map<GateId, Gate>, h: GateId)
    requires m.run.maxPairs == 2 && Elements(m.order) == {t} && h in gates
    requires v.status.ReadyForImplementation? && v.records.plan == NO_PLAN && v.facts.analysis == Some(AnalysisRecord(false, ScopeApprovalRequired))
    ensures h in Stage(m, t, v, late, gates).gates
    ensures OfferedPairs(Shown(Stage(m, t, v, late, gates), h), [t]) == [t]
  {
    var n := Shown(Stage(m, t, v, late, gates), h);
    var g := DependencyGraph(n);
    assert g == map[t := []];
    NoDependenciesNoCycle(g);
    OrderIsExact(g, m.order);
    var o := Order(g, m.order).tickets;
    forall k | 0 <= k < |o| ensures o[k] == t { assert o[k] in Elements(o); }
    assert ReadyToDispatch(n, t);
    assert RunningPairs(n) == {};
    OneReadyPair(n, t);
  }

  lemma OneReadyPair(m: Manifest, t: TicketId)
    requires ReadyToDispatch(m, t) && |RunningPairs(m)| == 0 && m.run.maxPairs == 2
    ensures OfferedPairs(m, [t]) == [t]
  {
    hide ReadyToDispatch;
    assert [t][1..] == [] && ReadyPairs(m, []) == [];
    assert ReadyPairs(m, [t]) == [t] + ReadyPairs(m, []);
  }

  lemma UnauthorizedIsRefused(n: Manifest, d: Pair)
    requires d.t in n.tickets && !ScopeAuthorized(n.tickets[d.t])
    ensures Step(n, DispatchOf(d)).Refused?
  {
    if Step(n, DispatchOf(d)).Accepted? { AcceptedDispatchIsApproved(n, d); }
  }

  /** From every bootstrapped live manifest of one ticket, some accepted run leads to where the planner
      offers the ticket and the handler refuses every dispatch of it, because the scope that its
      latest analysis asks for is still undecided. */
  lemma UnauthorizedScopeIsOffered(m: Manifest, t: TicketId) returns (events: seq<Event>)
    requires Bootstrapped(m) && m.run.live && m.tickets.Keys == {t}
    ensures Run(m, events).Accepted?
    ensures var n := Run(m, events).m;
            && n.run.live && n.anomalies == 0 && t in n.tickets
            && OfferedPairs(n, [t]) == [t] && !ScopeAuthorized(n.tickets[t])
            && forall d: Pair :: d.t == t ==> Step(n, DispatchOf(d)).Refused?
  {
    hide Run, Step, OfferedPairs, Bootstrapped;
    assert Elements(m.order) == {t} && m.run.maxPairs == 2 by { BootstrappedFixes(m); }
    events := LateAnalysisRuns(m, t);
    assert !Before("a", "a") && !Before("b", "a");
    assert TRIAGED.(status := Triaged) == TRIAGED;
    events := LateAnalysisAsks(m, events, m, t, TRIAGED, map[], "a");
    var g1 := map["a" := Asking(t, Triaged, Provided)];
    assert map[]["a" := Asking(t, TRIAGED.status, Provided)] == g1;
    var o: seq<TicketId>;
    events, o := TicketIsAskedWhileReady(m, events, m, t, g1, "c");
    var c := Consolidated(m, o);
    var g2 := g1["c" := OldRequest(t, Unannounced)];
    var v := READY.(status := AwaitingRequiredInput);
    events := LateAnalysisAsks(m, events, c, t, v, g2, "b");
    var g3 := g2["b" := Asking(t, AwaitingRequiredInput, Provided)];
    events := OldRequestRestoresReadiness(m, events, c, t, v.(status := Triaged), g3, "c", "d");
    var last := Undecided(v.(status := Triaged)).(status := ReadyForImplementation);
    var all := g3["d" := Decision(t, Unannounced)]["c" := OldRequest(t, Provided)];
    OnlyTicketIsOffered(c, t, last, Done(Analysis, Some(t)), all, "d");
    var n := Run(m, events).m;
    assert n.tickets == map[t := last];
    forall d: Pair | d.t == t ensures Step(n, DispatchOf(d)).Refused? { UnauthorizedIsRefused(n, d); }
  }

  lemma BootstrappedFixes(m: Manifest)
    requires Bootstrapped(m)
    ensures Elements(m.order) == m.tickets.Keys && m.run.maxPairs == 2
  {
  }
}
