/** Technical phases: dispatch, launch, completion and termination. */
module PhaseEvents {
  import opened Prelude
  import opened Manifest

  datatype Termination = EndsNeedsInput(gate: GateId) | EndsBlocked | EndsFailed | EndsCancelled

  datatype PhasesAction =
    | PhaseDispatched(p: PhaseKey, kind: PhaseKind, ticket: Option<TicketId>, requirement: Requirement, base: Commit)
    | LaunchObserved(p: PhaseKey, launch: LaunchState, thread: Option<Reference>, client: Option<Reference>, reconciled: bool)
    | PhaseCompleted(p: PhaseKey, report: Report)
    | PhaseTerminated(p: PhaseKey, outcome: Termination, commit: Option<Commit>)
    | AcceptanceReclassified(t: TicketId, p: PhaseKey)

  function ActiveAnalyses(m: Manifest): set<PhaseKey> {
    set p | p in m.phases && m.phases[p].kind.Analysis? && ActivePhase(m.phases[p].launch)
  }

  predicate DispatchAllowed(m: Manifest, kind: PhaseKind, ticket: Option<TicketId>, requirement: Requirement) {
    match kind
    case Triage => ticket.None? && requirement == NoEditor && forall p :: p in m.phases ==> !m.phases[p].kind.Triage?
    case Analysis => ticket.Some? && ticket.value in m.tickets && m.tickets[ticket.value].status.Triaged? && |ActiveAnalyses(m)| < m.run.maxAnalyses
    case RouteValidation => ticket.Some? && ticket.value in m.tickets && m.tickets[ticket.value].status.RouteValidationRequired?
    case ContractValidation =>
      ticket.Some? && ticket.value in m.tickets && m.tickets[ticket.value].status.ReadyForImplementation?
      && m.tickets[ticket.value].facts.analysis.Some? && m.tickets[ticket.value].facts.analysis.value.needsContract
    case AnalysisReconciliation => ticket.Some? && ticket.value in m.tickets
    case _ => false
  }

  function DispatchPhase(m: Manifest, p: PhaseKey, kind: PhaseKind, ticket: Option<TicketId>, requirement: Requirement, base: Commit): (o: Outcome)
    ensures o.Accepted? ==> o.m == m.(phases := o.m.phases)
    ensures o.Accepted? ==> OnePhase(m.phases, o.m.phases, p)
  {
    if DispatchAllowed(m, kind, ticket, requirement) && RequirementAllowed(m, requirement) && p !in m.phases
    then Accepted(WithPhase(m, p, NewPhase(ticket, kind, requirement, Detached(base))))
    else Refused
  }

  /** The phase's own lease is the one its owner key finds in the slot table. */
  predicate LeaseConfirmed(m: Manifest, p: PhaseKey)
    requires p in m.phases
  {
    m.phases[p].lease.Some?
    && var l := m.phases[p].lease.value;
       FirstSlotOf(m, l.slot, OfPhase(p)) && m.slots[l.slot].value.id == l.id
  }

  function ObserveLaunch(m: Manifest, p: PhaseKey, launch: LaunchState, thread: Option<Reference>, client: Option<Reference>, reconciled: bool): (o: Outcome)
    ensures o.Accepted? ==> o.m == m.(phases := o.m.phases)
  {
    if p !in m.phases || !(Launched(launch) || launch.LaunchUnknown? || launch.Blocked?) then Refused
    else if Launched(launch) && !m.phases[p].requirement.NoEditor? && !LeaseConfirmed(m, p) then Refused
    else if launch.Queued? && client.None? then Refused
    else if launch.Running? && (thread.None? || thread == m.phases[p].forbiddenThread) then Refused
    else if m.phases[p].launch.LaunchUnknown? && launch.Queued? && !reconciled then Refused
    else Accepted(WithPhase(m, p, m.phases[p].(
      launch := launch,
      thread := if thread.Some? then thread else m.phases[p].thread,
      client := if client.Some? then client else m.phases[p].client)))
  }

  /** Shared by every event that completes a phase. */
  function CompletePhase(m: Manifest, p: PhaseKey, report: Report): (o: Outcome)
    ensures o.Accepted? ==> o.m == m.(phases := o.m.phases, anomalies := o.m.anomalies)
    ensures o.Accepted? ==> OnePhase(m.phases, o.m.phases, p)
  {
    if p in m.phases && m.phases[p].launch.Running?
    then Accepted(WithEnd(m, p, Completed, report.commit).(anomalies := m.anomalies + report.excess))
    else Refused
  }

  function TicketOf(m: Manifest, p: PhaseKey): TicketId {
    if p in m.phases && m.phases[p].ticket.Some? then m.phases[p].ticket.value else ""
  }

  predicate PairCompleted(m: Manifest, e: Execution) {
    e.implementation in m.phases && e.acceptance in m.phases
    && m.phases[e.implementation].launch.Completed? && m.phases[e.acceptance].launch.Completed?
  }

  function RecordCompletion(m: Manifest, p: PhaseKey, report: Report): (o: Outcome)
    ensures o.Accepted? ==> o.m == m.(tickets := o.m.tickets, phases := o.m.phases, final := o.m.final, anomalies := o.m.anomalies)
    ensures o.Accepted? ==> OneTicket(m.consolidated, m.tickets, o.m.tickets, TicketOf(m, p))
    ensures o.Accepted? ==> OnePhase(m.phases, o.m.phases, p)
  {
    var completed := CompletePhase(m, p, report);
    if completed.Refused? then Refused
    else
      var m1, t := completed.m, m.phases[p].ticket;
      match m.phases[p].kind
      case FinalRemediation => Accepted(m1.(final := m1.final.(status := AwaitingFinalPrUpdate)))
      case Remediation =>
        if t.None? || t.value !in m1.tickets then Refused
        else Accepted(WithStatus(m1, t.value, AwaitingRemediationVerification))
      case Implementation | AcceptanceTests =>
        if t.None? || t.value !in m1.tickets || m1.tickets[t.value].records.execution.None? then Refused
        else if PairCompleted(m1, m1.tickets[t.value].records.execution.value) then Accepted(WithStatus(m1, t.value, AwaitingExecutionIntegration))
        else completed
      case _ => completed
  }

  /** A phase that writes with an editor must leave a commit to go on from when it stops to ask. */
  predicate MustLeaveCommit(m: Manifest, p: PhaseKey)
    requires p in m.phases
  {
    m.run.editors && !m.phases[p].requirement.NoEditor? && m.phases[p].base.branch.Some?
  }

  /** The phase stops to ask; its ticket waits until the answer brings its status back. */
  function StopForInput(m: Manifest, p: PhaseKey, t: TicketId, g: GateId, commit: Option<Commit>): (o: Outcome)
    requires p in m.phases
    ensures o.Accepted? ==> o.m == m.(tickets := o.m.tickets, phases := o.m.phases, gates := o.m.gates)
    ensures o.Accepted? ==> OneTicket(m.consolidated, m.tickets, o.m.tickets, t)
    ensures o.Accepted? ==> OnePhase(m.phases, o.m.phases, p)
    ensures o.Accepted? ==> OpensAtMost(m.tickets, m.gates, o.m.gates, g)
  {
    if t !in m.tickets || g in m.gates then Refused
    else
      var gate := Gate(InputGate, t, Some(p), Some(m.tickets[t].status), SameThread, Unannounced);
      Accepted(WithStatus(WithEnd(WithGate(m, g, gate), p, NeedsInput, commit), t, AwaitingRequiredInput))
  }

  function EndedLaunch(outcome: Termination): LaunchState {
    match outcome
    case EndsNeedsInput(_) => NeedsInput
    case EndsBlocked => Blocked
    case EndsFailed => Failed
    case EndsCancelled => Cancelled
  }

  function EndedStatus(outcome: Termination): TicketStatus {
    match outcome
    case EndsNeedsInput(_) => AwaitingRequiredInput
    case EndsBlocked => TicketBlocked
    case EndsFailed => TicketFailed
    case EndsCancelled => TicketCancelled
  }

  function StopForGood(m: Manifest, p: PhaseKey, outcome: Termination, commit: Option<Commit>): (o: Outcome)
    requires p in m.phases && !outcome.EndsNeedsInput?
    ensures o.Accepted? ==> o.m == m.(tickets := o.m.tickets, phases := o.m.phases)
    ensures o.Accepted? ==> OneTicket(m.consolidated, m.tickets, o.m.tickets, TicketOf(m, p))
    ensures o.Accepted? ==> OnePhase(m.phases, o.m.phases, p)
  {
    var t := m.phases[p].ticket;
    if t.None? then Accepted(WithEnd(m, p, EndedLaunch(outcome), commit))
    else if t.value !in m.tickets then Refused
    else Accepted(WithStatus(WithEnd(m, p, EndedLaunch(outcome), commit), t.value, EndedStatus(outcome)))
  }

  function GateOf(outcome: Termination): GateId {
    if outcome.EndsNeedsInput? then outcome.gate else ""
  }

  function TerminatePhase(m: Manifest, p: PhaseKey, outcome: Termination, commit: Option<Commit>): (o: Outcome)
    ensures o.Accepted? ==> o.m == m.(tickets := o.m.tickets, phases := o.m.phases, gates := o.m.gates)
    ensures o.Accepted? ==> OneTicket(m.consolidated, m.tickets, o.m.tickets, TicketOf(m, p))
    ensures o.Accepted? ==> OnePhase(m.phases, o.m.phases, p)
    ensures o.Accepted? ==> OpensAtMost(m.tickets, m.gates, o.m.gates, GateOf(outcome))
  {
    if p !in m.phases || !m.phases[p].launch.Running? then Refused
    else if !outcome.EndsNeedsInput? then StopForGood(m, p, outcome, commit)
    else if m.phases[p].ticket.None? || (MustLeaveCommit(m, p) && commit.None?) then Refused
    else StopForInput(m, p, m.phases[p].ticket.value, outcome.gate, commit)
  }

  function ReclassifyAcceptance(m: Manifest, t: TicketId, p: PhaseKey): (o: Outcome)
    ensures o.Accepted? ==> o.m == m.(tickets := o.m.tickets, phases := o.m.phases)
    ensures o.Accepted? ==> OneTicket(m.consolidated, m.tickets, o.m.tickets, t)
    ensures o.Accepted? ==> OnePhase(m.phases, o.m.phases, p)
  {
    if p !in m.phases || !m.phases[p].kind.AcceptanceTests? || m.phases[p].ticket != Some(t) || !m.phases[p].launch.Blocked? || m.phases[p].result.None? then Refused
    else if t !in m.tickets || m.tickets[t].records.execution.None? || m.tickets[t].records.execution.value.acceptance != p then Refused
    else
      var implementation := m.tickets[t].records.execution.value.implementation;
      if implementation in m.phases && m.phases[implementation].launch.Completed?
      then Accepted(WithStatus(WithLaunch(m, p, Completed), t, AwaitingExecutionIntegration))
      else Refused
  }

  function HandlePhases(m: Manifest, a: PhasesAction): (o: Outcome)
    ensures o.Accepted? ==> o.m == m.(tickets := o.m.tickets, phases := o.m.phases, gates := o.m.gates, final := o.m.final, anomalies := o.m.anomalies)
  {
    match a
    case PhaseDispatched(p, kind, ticket, requirement, base) => DispatchPhase(m, p, kind, ticket, requirement, base)
    case LaunchObserved(p, launch, thread, client, reconciled) => ObserveLaunch(m, p, launch, thread, client, reconciled)
    case PhaseCompleted(p, report) => RecordCompletion(m, p, report)
    case PhaseTerminated(p, outcome, commit) => TerminatePhase(m, p, outcome, commit)
    case AcceptanceReclassified(t, p) => ReclassifyAcceptance(m, t, p)
  }
}
