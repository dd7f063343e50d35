/** Triage, analysis, specification decisions, contract validation and dependency consolidation. */
module PlanningEvents {
  import opened Prelude
  import opened DependencyOrder
  import opened Manifest
  import opened PhaseEvents

  datatype PlanningAction =
    | TicketTriaged(t: TicketId, p: PhaseKey)
    | AnalysisRecorded(t: TicketId, p: PhaseKey, needsContract: bool, approval: GateRule, covered: bool, rule: GateRule)
    | SpecificationDecided(t: TicketId, g: GateId, needsContract: bool, covered: bool, rule: GateRule)
    | RouteValidationRecorded(t: TicketId, p: PhaseKey, passed: bool, rule: GateRule)
    | RouteValidationReconciled(t: TicketId)
    | DependenciesConsolidated(schedule: seq<TicketId>, plans: map<TicketId, Plan>)
    | ReadinessReconciled(t: TicketId)
    | ContractResultCollected(t: TicketId, p: PhaseKey, passed: bool, report: Report)
    | ContractValidationRecorded(t: TicketId, p: PhaseKey, passed: bool)
    | ContractAmended(t: TicketId)

  /** `v` is the ticket to be finalized or sent to route validation. */
  function FinalizeAnalysis(m: Manifest, t: TicketId, v: Ticket, rule: GateRule): (o: Outcome)
    ensures o.Accepted? ==> o.m == m.(tickets := o.m.tickets, gates := o.m.gates)
    ensures o.Accepted? && t in m.tickets && v.records == m.tickets[t].records && v.budget == m.tickets[t].budget
      ==> OneTicket(m.consolidated, m.tickets, o.m.tickets, t)
    ensures o.Accepted? ==> OpensAtMost(m.tickets, m.gates, o.m.gates, rule.gate)
  {
    if !rule.gated then Accepted(WithTicket(m, t, v.(status := AnalyzedStatus(m))))
    else if rule.gate in m.gates then Refused
    else Accepted(WithGate(WithTicket(m, t, v.(status := AwaitingAnalysisApproval)),
                           rule.gate, Gate(AnalysisGate, t, None, None, NotResuming, Unannounced)))
  }

  function RouteOrFinalize(m: Manifest, t: TicketId, v: Ticket, covered: bool, rule: GateRule): (o: Outcome)
    ensures o.Accepted? ==> o.m == m.(tickets := o.m.tickets, gates := o.m.gates)
    ensures o.Accepted? && t in m.tickets && v.records == m.tickets[t].records && v.budget == m.tickets[t].budget
      ==> OneTicket(m.consolidated, m.tickets, o.m.tickets, t)
    ensures o.Accepted? ==> OpensAtMost(m.tickets, m.gates, o.m.gates, rule.gate)
  {
    if covered then FinalizeAnalysis(m, t, v, rule) else Accepted(WithTicket(m, t, v.(status := RouteValidationRequired)))
  }

  function RecordTriage(m: Manifest, t: TicketId, p: PhaseKey): (o: Outcome)
    ensures o.Accepted? ==> o.m == m.(tickets := o.m.tickets)
    ensures o.Accepted? ==> OneTicket(m.consolidated, m.tickets, o.m.tickets, t)
  {
    if t in m.tickets && !m.tickets[t].facts.triaged && p in m.phases && m.phases[p].kind.Triage? && m.phases[p].launch.Completed?
    then Accepted(WithTicket(m, t, m.tickets[t].(facts := m.tickets[t].facts.(triaged := true), status := Triaged)))
    else Refused
  }

  function RecordAnalysis(m: Manifest, t: TicketId, p: PhaseKey, needsContract: bool, approval: GateRule, covered: bool, rule: GateRule): (o: Outcome)
    ensures o.Accepted? ==> o.m == m.(tickets := o.m.tickets, gates := o.m.gates)
    ensures o.Accepted? ==> OneTicket(m.consolidated, m.tickets, o.m.tickets, t)
    ensures o.Accepted? ==> OpensAtMost(m.tickets, m.gates, o.m.gates, if approval.gated then approval.gate else rule.gate)
  {
    if t !in m.tickets || !m.tickets[t].status.Triaged? || !IsCompleted(m, p, Analysis, t) then Refused
    else
      var v := m.tickets[t];
      if !approval.gated then RouteOrFinalize(m, t, v.(facts := v.facts.(analysis := Some(AnalysisRecord(needsContract, ScopeClear)))), covered, rule)
      else if approval.gate in m.gates then Refused
      else Accepted(WithGate(
        WithTicket(m, t, v.(facts := v.facts.(analysis := Some(AnalysisRecord(needsContract, ScopeApprovalRequired))), status := AwaitingSpecificationDecision)),
        approval.gate, Gate(SpecificationGate, t, None, None, NotResuming, Unannounced)))
  }

  function DecideSpecification(m: Manifest, t: TicketId, g: GateId, needsContract: bool, covered: bool, rule: GateRule): (o: Outcome)
    ensures o.Accepted? ==> o.m == m.(tickets := o.m.tickets, gates := o.m.gates, pending := o.m.pending)
    ensures o.Accepted? ==> g in m.gates && m.gates[g].status.Announced? && OpensAtMost(m.tickets, CloseGate(m, g, Resolved).gates, o.m.gates, rule.gate)
    ensures o.Accepted? ==> o.m.pending == CloseGate(m, g, Resolved).pending
    ensures o.Accepted? ==> OneTicket(m.consolidated, m.tickets, o.m.tickets, t)
  {
    if t !in m.tickets || !m.tickets[t].status.AwaitingSpecificationDecision? || m.tickets[t].facts.analysis.None? then Refused
    else if g !in m.gates || !m.gates[g].kind.SpecificationGate? || !m.gates[g].status.Announced? then Refused
    else if m.tickets[t].facts.analysis.value.needsContract && !needsContract then Refused
    else
      var v := m.tickets[t].(facts := m.tickets[t].facts.(analysis := Some(AnalysisRecord(needsContract, ScopeResolved))));
      RouteOrFinalize(CloseGate(m, g, Resolved), t, v, covered, rule)
  }

  function RecordRouteValidation(m: Manifest, t: TicketId, p: PhaseKey, passed: bool, rule: GateRule): (o: Outcome)
    ensures o.Accepted? ==> o.m == m.(tickets := o.m.tickets, gates := o.m.gates)
    ensures o.Accepted? ==> OneTicket(m.consolidated, m.tickets, o.m.tickets, t)
    ensures o.Accepted? ==> OpensAtMost(m.tickets, m.gates, o.m.gates, rule.gate)
  {
    if t !in m.tickets || !m.tickets[t].status.RouteValidationRequired? || !IsCompleted(m, p, RouteValidation, t) then Refused
    else if passed then FinalizeAnalysis(m, t, m.tickets[t], rule)
    else Accepted(WithStatus(m, t, ReconciliationRequired))
  }

  function ReconcileRouteValidation(m: Manifest, t: TicketId): (o: Outcome)
    ensures o.Accepted? ==> o.m == m.(tickets := o.m.tickets)
    ensures o.Accepted? ==> OneTicket(m.consolidated, m.tickets, o.m.tickets, t)
  {
    if t in m.tickets && m.tickets[t].status.ReconciliationRequired? then Accepted(WithStatus(m, t, RouteValidationRequired)) else Refused
  }

  predicate ReadyToConsolidate(t: Ticket) {
    t.facts.analysis.Some?
    && !(t.status.Triaged? || t.status.RouteValidationRequired? || t.status.ReconciliationRequired? || t.status.AwaitingSpecificationDecision?)
  }

  predicate ValidPlan(ids: set<TicketId>, t: TicketId, plan: Plan) {
    && (forall d :: d in plan.dependencies ==> d in ids && d != t)
    && (plan.group.Some? ==> plan.group.value != "")
  }

  /** No two members of one parallel group share a collision domain or a material file. */
  predicate CollisionFree(ids: set<TicketId>, plans: map<TicketId, Plan>)
    requires ids <= plans.Keys
  {
    forall a, b :: a in ids && b in ids && a != b && plans[a].group.Some? && plans[a].group == plans[b].group ==>
      plans[a].domains !! plans[b].domains && plans[a].files !! plans[b].files
  }

  function Planned(t: Ticket, plan: Plan): Ticket {
    t.(records := t.records.(plan := plan), status := if t.status.Analyzed? then ReadyForImplementation else t.status)
  }

  function WithPlans(m: Manifest, schedule: seq<TicketId>, plans: map<TicketId, Plan>): Manifest
    requires m.tickets.Keys <= plans.Keys
  {
    m.(tickets := map t | t in m.tickets :: Planned(m.tickets[t], plans[t]), order := schedule)
  }

  function Consolidate(m: Manifest, schedule: seq<TicketId>, plans: map<TicketId, Plan>): (o: Outcome)
    ensures o.Accepted? ==> o.m == m.(tickets := o.m.tickets, order := o.m.order, consolidated := o.m.consolidated)
  {
    if m.consolidated || !(forall t :: t in m.tickets ==> ReadyToConsolidate(m.tickets[t])) then Refused
    else if Elements(schedule) != m.tickets.Keys || !(m.tickets.Keys <= plans.Keys) then Refused
    else if !(forall t :: t in m.tickets ==> ValidPlan(m.tickets.Keys, t, plans[t])) then Refused
    else if !CollisionFree(m.tickets.Keys, plans) then Refused
    else
      var m1 := WithPlans(m, schedule, plans);
      var o := Order(DependencyGraph(m1), schedule);
      if o.Ordered? then Accepted(m1.(order := o.tickets, consolidated := true)) else Refused
  }

  function ReconcileReadiness(m: Manifest, t: TicketId): (o: Outcome)
    ensures o.Accepted? ==> o.m == m.(tickets := o.m.tickets)
    ensures o.Accepted? ==> OneTicket(m.consolidated, m.tickets, o.m.tickets, t)
  {
    if m.consolidated && t in m.tickets && m.tickets[t].status.Analyzed? && m.tickets[t].facts.analysis.Some?
    then Accepted(WithStatus(m, t, ReadyForImplementation)) else Refused
  }

  function RecordContractValidation(m: Manifest, t: TicketId, p: PhaseKey, passed: bool): (o: Outcome)
    ensures o.Accepted? ==> o.m == m.(tickets := o.m.tickets)
    ensures o.Accepted? ==> OneTicket(m.consolidated, m.tickets, o.m.tickets, t)
  {
    if t !in m.tickets || !m.tickets[t].status.ReadyForImplementation? || !IsCompleted(m, p, ContractValidation, t) || m.tickets[t].facts.analysis.None? then Refused
    else if passed then Accepted(WithTicket(m, t, m.tickets[t].(facts := m.tickets[t].facts.(contract := PassedVerdict))))
    else Accepted(WithTicket(m, t, m.tickets[t].(facts := m.tickets[t].facts.(contract := FailedVerdict), status := NeedsContractAmendment)))
  }

  /** Completion of the phase and its verdict, handled as nested events of one event: the second
      is refused when the first has opened a cost anomaly. */
  function CollectContractResult(m: Manifest, t: TicketId, p: PhaseKey, passed: bool, report: Report): (o: Outcome)
    ensures o.Accepted? ==> o.m == m.(tickets := o.m.tickets, phases := o.m.phases, anomalies := o.m.anomalies)
    ensures o.Accepted? ==> OneTicket(m.consolidated, m.tickets, o.m.tickets, t)
    ensures o.Accepted? ==> OnePhase(m.phases, o.m.phases, p)
  {
    if p !in m.phases || !m.phases[p].kind.ContractValidation? || m.phases[p].ticket != Some(t) then Refused
    else
      var completed := CompletePhase(m, p, report);
      if completed.Refused? || completed.m.anomalies > 0 then Refused
      else RecordContractValidation(completed.m, t, p, passed)
  }

  function AmendContract(m: Manifest, t: TicketId): (o: Outcome)
    ensures o.Accepted? ==> o.m == m.(tickets := o.m.tickets)
    ensures o.Accepted? ==> OneTicket(m.consolidated, m.tickets, o.m.tickets, t)
  {
    if t in m.tickets && m.tickets[t].status.NeedsContractAmendment? && m.tickets[t].facts.analysis.Some? && m.tickets[t].facts.contract.FailedVerdict?
    then Accepted(WithStatus(m, t, ReadyForImplementation)) else Refused
  }

  function HandlePlanning(m: Manifest, a: PlanningAction): (o: Outcome)
    ensures o.Accepted? ==> o.m == m.(tickets := o.m.tickets, order := o.m.order, consolidated := o.m.consolidated, phases := o.m.phases, gates := o.m.gates, pending := o.m.pending, anomalies := o.m.anomalies)
  {
    match a
    case TicketTriaged(t, p) => RecordTriage(m, t, p)
    case AnalysisRecorded(t, p, needs, approval, covered, rule) => RecordAnalysis(m, t, p, needs, approval, covered, rule)
    case SpecificationDecided(t, g, needs, covered, rule) => DecideSpecification(m, t, g, needs, covered, rule)
    case RouteValidationRecorded(t, p, passed, rule) => RecordRouteValidation(m, t, p, passed, rule)
    case RouteValidationReconciled(t) => ReconcileRouteValidation(m, t)
    case DependenciesConsolidated(schedule, plans) => Consolidate(m, schedule, plans)
    case ReadinessReconciled(t) => ReconcileReadiness(m, t)
    case ContractResultCollected(t, p, passed, report) => CollectContractResult(m, t, p, passed, report)
    case ContractValidationRecorded(t, p, passed) => RecordContractValidation(m, t, p, passed)
    case ContractAmended(t) => AmendContract(m, t)
  }
}
