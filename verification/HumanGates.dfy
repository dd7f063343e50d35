/** One human decision is put to the user at a time, and every gate is decided at most once. */
module HumanGates {
  import opened Prelude
  import opened Manifest
  import opened PlanningEvents
  import opened GateEvents
  import opened PhaseEvents
  import opened SlotEvents
  import opened DeliveryEvents
  import opened FinalizationEvents
  import opened Events
  import Effects

  /** The pending human action names the announced gate, and there is none without one. */
  ghost predicate OneAnnouncedGate(m: Manifest) {
    && (forall g :: g in m.gates && m.gates[g].status.Announced? ==> m.pending == Some(g))
    && (m.pending.Some? ==> m.pending.value in m.gates && m.gates[m.pending.value].status.Announced?)
  }

  predicate Decided(g: Gate) {
    !(g.status.Unannounced? || g.status.Announced?)
  }

  /** From `a` to `b` no gate is lost or asks something else, an announcement is never taken
      back, and a decided gate stays exactly as it is. */
  ghost predicate GatesProgress(a: map<GateId, Gate>, b: map<GateId, Gate>) {
    forall g :: g in a ==>
      && g in b
      && SameQuestion(a[g], b[g])
      && (a[g].status.Announced? ==> !b[g].status.Unannounced?)
      && (Decided(a[g]) ==> b[g] == a[g])
  }

  lemma OpeningKeeps(m: Manifest, n: Manifest)
    requires OneAnnouncedGate(m) && Effects.OnlyOpens(m.tickets, m.gates, n.gates) && n.pending == m.pending
    ensures OneAnnouncedGate(n) && GatesProgress(m.gates, n.gates)
  {
  }

  lemma ClosingKeeps(m: Manifest, g: GateId, outcome: GateStatus)
    requires OneAnnouncedGate(m) && g in m.gates && m.gates[g].status.Announced?
    requires outcome !in {Unannounced, Announced}
    ensures var n := CloseGate(m, g, outcome); OneAnnouncedGate(n) && GatesProgress(m.gates, n.gates)
  {
  }

  lemma PlanningKeeps(m: Manifest, a: PlanningAction)
    requires OneAnnouncedGate(m) && HandlePlanning(m, a).Accepted?
    ensures var n := HandlePlanning(m, a).m; OneAnnouncedGate(n) && GatesProgress(m.gates, n.gates)
  {
    hide OneTicket, RecordTriage, RecordAnalysis, DecideSpecification, RecordRouteValidation, ReconcileRouteValidation, Consolidate,
         ReconcileReadiness, RecordContractValidation, CollectContractResult, AmendContract;
    var n := HandlePlanning(m, a).m;
    if a.SpecificationDecided? {
      var closed := CloseGate(m, a.g, Resolved);
      ClosingKeeps(m, a.g, Resolved);
      Effects.OpensOne(m.tickets, closed.gates, n.gates, a.rule.gate);
      OpeningKeeps(closed, n);
    } else {
      Effects.PlanningOnlyOpens(m, a);
      OpeningKeeps(m, n);
    }
  }

  lemma GatesKeep(m: Manifest, a: GatesAction)
    requires OneAnnouncedGate(m) && HandleGates(m, a).Accepted?
    ensures var n := HandleGates(m, a).m; OneAnnouncedGate(n) && GatesProgress(m.gates, n.gates)
  {
    hide ResumePhase, RequestInput, ResolveGate, ProvideInput;
    match a
    case GateAnnounced(g) =>
    case GateResolved(g, approved) => ClosingKeeps(m, g, if approved then Approved else Rejected);
    case InputProvided(g) => ClosingKeeps(m, g, Provided);
    case InputRequested(_, g, _) => Effects.OpensOne(m.tickets, m.gates, HandleGates(m, a).m.gates, g); OpeningKeeps(m, HandleGates(m, a).m);
    case PhaseResumed(_, _, _) => assert HandleGates(m, a).m.gates == m.gates;
  }

  lemma HandleKeeps(m: Manifest, a: Action)
    requires OneAnnouncedGate(m) && Handle(m, a).Accepted?
    ensures var n := Handle(m, a).m; OneAnnouncedGate(n) && GatesProgress(m.gates, n.gates)
  {
    hide HandlePlanning, HandleGates, HandlePhases, HandleSlots, HandleDelivery, HandleFinalization, CompleteRun;
    match a
    case Planning(x) => PlanningKeeps(m, x);
    case Gating(x) => GatesKeep(m, x);
    case Phasing(x) => Effects.PhasesOnlyOpen(m, x); OpeningKeeps(m, HandlePhases(m, x).m);
    case Delivering(x) => Effects.DeliveryOnlyOpens(m, x); OpeningKeeps(m, HandleDelivery(m, x).m);
    case _ => assert Handle(m, a).m.gates == m.gates && Handle(m, a).m.pending == m.pending;
  }

  lemma StepKeeps(m: Manifest, e: Event)
    requires OneAnnouncedGate(m) && Step(m, e).Accepted?
    ensures var n := Step(m, e).m; OneAnnouncedGate(n) && GatesProgress(m.gates, n.gates)
  {
    hide Handle;
    HandleKeeps(m, e.action);
  }

  /** In every run at most one gate is announced at any time, the pending human action names
      exactly that gate, and no gate is decided twice. */
  lemma {:induction false} RunKeeps(m: Manifest, events: seq<Event>)
    requires OneAnnouncedGate(m) && Run(m, events).Accepted?
    ensures var n := Run(m, events).m; OneAnnouncedGate(n) && GatesProgress(m.gates, n.gates)
    decreases |events|
  {
    hide Step;
    if events != [] {
      StepKeeps(m, events[0]);
      RunKeeps(Step(m, events[0]).m, events[1..]);
    }
  }

  function DecisionsAt(a: map<GateId, Gate>, b: map<GateId, Gate>, g: GateId): nat {
    if g in b && Decided(b[g]) && (g in a ==> !Decided(a[g])) then 1 else 0
  }

  /** How often gate `g` leaves the pending states in a run. */
  function Decisions(m: Manifest, events: seq<Event>, g: GateId): nat
    decreases |events|
  {
    if events == [] then 0
    else
      var first := Step(m, events[0]);
      if first.Refused? then 0
      else DecisionsAt(m.gates, first.m.gates, g) + Decisions(first.m, events[1..], g)
  }

  /** A gate is decided at most once, whatever events follow. */
  lemma {:induction false} DecidedOnce(m: Manifest, events: seq<Event>, g: GateId)
    requires OneAnnouncedGate(m)
    ensures Decisions(m, events, g) <= if g in m.gates && Decided(m.gates[g]) then 0 else 1
    decreases |events|
  {
    hide Step, OneAnnouncedGate;
    if events != [] && Step(m, events[0]).Accepted? {
      StepKeeps(m, events[0]);
      DecidedOnce(Step(m, events[0]).m, events[1..], g);
    }
  }
}
