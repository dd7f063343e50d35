/** Delivery of one ticket, from the dispatch of its execution pair to its merge. */
module DeliveryEvents {
  import opened Prelude
  import opened Manifest
  import opened PhaseEvents

  /** A commit and the two branches that a pair starts from it. */
  datatype Fork = Fork(commit: Commit, implementation: Reference, acceptance: Reference)

  datatype DeliveryAction =
    | PairDispatched(t: TicketId, implementation: PhaseKey, acceptance: PhaseKey, fork: Fork,
                     implementationNeeds: Requirement, acceptanceNeeds: Requirement, verificationNeeds: Requirement)
    | PairIntegrated(t: TicketId, head: Commit)
    | VerificationRecorded(t: TicketId, passed: bool)
    | FailureClassified(t: TicketId, next: NextStep)
    | ContinuationIsolated(t: TicketId, released: TicketId, head: Commit)
    | ReviewDispatched(t: TicketId, p: PhaseKey, initial: bool, requirement: Requirement, base: Commit)
    | ReviewRecorded(p: PhaseKey, report: Report)
    | FindingsReconciled(t: TicketId, blocking: bool, rule: GateRule)
    | ExceptionGranted(t: TicketId, g: GateId)
    | RemediationDispatched(t: TicketId, p: PhaseKey, requirement: Requirement, start: Place)
    | TicketMerged(t: TicketId, commit: Commit, head: Commit)

  /** The ticket with a new pair running and nothing integrated yet. */
  function WithPair(v: Ticket, execution: Execution): Ticket {
    v.(status := ExecutionPairRunning, facts := v.facts.(integrated := None), records := v.records.(execution := Some(execution)))
  }

  /** Both halves of the pair name the commit they leave. */
  predicate PairReported(m: Manifest, e: Execution) {
    e.implementation in m.phases && e.acceptance in m.phases
    && m.phases[e.implementation].result.Some? && m.phases[e.acceptance].result.Some?
  }

  function DispatchPair(m: Manifest, t: TicketId, implementation: PhaseKey, acceptance: PhaseKey, fork: Fork,
                        implementationNeeds: Requirement, acceptanceNeeds: Requirement, verificationNeeds: Requirement): (o: Outcome)
    ensures o.Accepted? ==> o.m == m.(tickets := o.m.tickets, phases := o.m.phases)
  {
    if !m.run.live || t !in m.tickets || !m.tickets[t].status.ReadyForImplementation? || !ScopeAuthorized(m.tickets[t]) then Refused
    else if !ScheduleSatisfied(m, t) || |RunningPairs(m)| >= m.run.maxPairs || !ContractSettled(m.tickets[t]) then Refused
    else if implementation == acceptance || fork.implementation == fork.acceptance || implementation in m.phases || acceptance in m.phases then Refused
    else if !RequirementAllowed(m, implementationNeeds) || !RequirementAllowed(m, acceptanceNeeds) || !RequirementAllowed(m, verificationNeeds) then Refused
    else
      Accepted(WithTicket(
        WithPhase(WithPhase(m, implementation, NewPhase(Some(t), Implementation, implementationNeeds, Place(Some(fork.implementation), fork.commit))),
                  acceptance, NewPhase(Some(t), AcceptanceTests, acceptanceNeeds, Place(Some(fork.acceptance), fork.commit))),
        t, WithPair(m.tickets[t], Execution(implementation, acceptance, verificationNeeds, fork.implementation))))
  }

  function IntegratePair(m: Manifest, t: TicketId, head: Commit): (o: Outcome)
    ensures o.Accepted? ==> o.m == m.(tickets := o.m.tickets)
    ensures o.Accepted? ==> OneTicket(m.consolidated, m.tickets, o.m.tickets, t)
  {
    if t !in m.tickets || !m.tickets[t].status.AwaitingExecutionIntegration? || m.tickets[t].records.execution.None? then Refused
    else if !PairReported(m, m.tickets[t].records.execution.value) then Refused
    else Accepted(WithTicket(m, t, m.tickets[t].(facts := m.tickets[t].facts.(integrated := Some(head)), status := AwaitingVerification)))
  }

  function RecordVerification(m: Manifest, t: TicketId, passed: bool): (o: Outcome)
    ensures o.Accepted? ==> o.m == m.(tickets := o.m.tickets)
    ensures o.Accepted? ==> OneTicket(m.consolidated, m.tickets, o.m.tickets, t)
  {
    if t !in m.tickets || !(m.tickets[t].status.AwaitingVerification? || m.tickets[t].status.AwaitingRemediationVerification?) || m.tickets[t].records.execution.None? then Refused
    else if m.run.editors && !HeadKnown(m, t) then Refused
    else if m.run.editors && m.tickets[t].records.execution.value.verification != NoEditor && !HoldsSlot(m, OfVerification(t)) then Refused
    else Accepted(WithStatus(m, t, if passed then FunctionalReady else VerificationFailed))
  }

  function ClassifyFailure(m: Manifest, t: TicketId, next: NextStep): (o: Outcome)
    ensures o.Accepted? ==> o.m == m.(tickets := o.m.tickets)
    ensures o.Accepted? ==> OneTicket(m.consolidated, m.tickets, o.m.tickets, t)
  {
    if t !in m.tickets || !m.tickets[t].status.VerificationFailed? then Refused
    else
      var status := if next.Remediate? then NeedsRemediation else if next.Retry? then AwaitingVerification else TicketBlocked;
      Accepted(WithTicket(m, t, m.tickets[t].(facts := m.tickets[t].facts.(blockedByFailure := next.Block?), status := status)))
  }

  function IsolateContinuation(m: Manifest, t: TicketId, released: TicketId, head: Commit): (o: Outcome)
    ensures o.Accepted? ==> o.m == m.(tickets := o.m.tickets)
  {
    if t !in m.tickets || !m.tickets[t].status.TicketBlocked? || !m.consolidated || m.tickets[t].records.isolatedFor.Some? then Refused
    else if released == t || released !in m.tickets || !m.tickets[released].status.ReadyForImplementation? then Refused
    else if m.train != Some(head) || !m.tickets[t].facts.blockedByFailure then Refused
    else if exists p :: p in m.phases && ActivePhase(m.phases[p].launch) then Refused
    else if t in m.tickets[released].records.plan.dependencies || !DependenciesSatisfied(m, released) then Refused
    else Accepted(WithTicket(m, t, m.tickets[t].(records := m.tickets[t].records.(isolatedFor := Some(released)))))
  }

  function DispatchReview(m: Manifest, t: TicketId, p: PhaseKey, initial: bool, requirement: Requirement, base: Commit): (o: Outcome)
    ensures o.Accepted? ==> o.m == m.(tickets := o.m.tickets, phases := o.m.phases)
    ensures o.Accepted? ==> OneTicket(m.consolidated, m.tickets, o.m.tickets, t)
    ensures o.Accepted? ==> OnePhase(m.phases, o.m.phases, p)
  {
    if t !in m.tickets || !m.tickets[t].status.FunctionalReady? || p in m.phases || !RequirementAllowed(m, requirement) then Refused
    else if initial && m.tickets[t].facts.reviewed then Refused
    else if !initial && (!m.tickets[t].facts.reviewed || m.tickets[t].budget.cycles == 0) then Refused
    else Accepted(WithStatus(WithPhase(m, p, NewPhase(Some(t), Review, requirement, Detached(base))), t, AutoReview))
  }

  function RecordReview(m: Manifest, p: PhaseKey, report: Report): (o: Outcome)
    ensures o.Accepted? ==> o.m == m.(tickets := o.m.tickets, phases := o.m.phases, anomalies := o.m.anomalies)
    ensures o.Accepted? ==> OneTicket(m.consolidated, m.tickets, o.m.tickets, TicketOf(m, p))
    ensures o.Accepted? ==> OnePhase(m.phases, o.m.phases, p)
  {
    if p !in m.phases then Refused
    else
      var completed := if m.phases[p].launch.Completed? then Accepted(m) else CompletePhase(m, p, report);
      var t := m.phases[p].ticket;
      if completed.Refused? || !m.phases[p].kind.Review? || t.None? || t.value !in m.tickets || m.tickets[t.value].facts.analysis.None? then Refused
      else Accepted(WithTicket(completed.m, t.value, m.tickets[t.value].(facts := m.tickets[t.value].facts.(reviewed := true), status := AwaitingFindingReconciliation)))
  }

  function ReconcileFindings(m: Manifest, t: TicketId, blocking: bool, rule: GateRule): (o: Outcome)
    ensures o.Accepted? ==> o.m == m.(tickets := o.m.tickets, gates := o.m.gates)
    ensures o.Accepted? ==> OneTicket(m.consolidated, m.tickets, o.m.tickets, t)
    ensures o.Accepted? ==> OpensAtMost(m.tickets, m.gates, o.m.gates, rule.gate)
  {
    if t !in m.tickets || !m.tickets[t].status.AwaitingFindingReconciliation? then Refused
    else if blocking then Accepted(WithStatus(m, t, NeedsRemediation))
    else if !rule.gated then Accepted(WithStatus(m, t, ReadyToMerge))
    else if rule.gate in m.gates then Refused
    else Accepted(WithStatus(
      WithGate(m, rule.gate, Gate(PreMergeGate, t, None, None, NotResuming, Unannounced)), t, AwaitingPreMergeApproval))
  }

  function GrantException(m: Manifest, t: TicketId, g: GateId): (o: Outcome)
    ensures o.Accepted? ==> o.m == m.(tickets := o.m.tickets)
  {
    if t !in m.tickets || !m.tickets[t].status.NeedsRemediation? || m.tickets[t].budget.cycles < AUTOMATIC_CYCLES || m.tickets[t].budget.exception.Granted? then Refused
    else if g !in m.gates || !m.gates[g].kind.InputGate? || m.gates[g].ticket != t then Refused
    else if m.gates[g].prior != Some(NeedsRemediation) || !m.gates[g].status.Provided? then Refused
    else
      var history := m.tickets[t].budget.history + if m.tickets[t].budget.exception.Consumed? then 1 else 0;
      Accepted(WithTicket(m, t, m.tickets[t].(budget := m.tickets[t].budget.(exception := Granted, history := history))))
  }

  function DispatchRemediation(m: Manifest, t: TicketId, p: PhaseKey, requirement: Requirement, start: Place): (o: Outcome)
    ensures o.Accepted? ==> o.m == m.(tickets := o.m.tickets, phases := o.m.phases)
    ensures o.Accepted? ==> OnePhase(m.phases, o.m.phases, p)
  {
    if t !in m.tickets || !m.tickets[t].status.NeedsRemediation? || !ScopeAuthorized(m.tickets[t]) || p in m.phases || !RequirementAllowed(m, requirement) then Refused
    else if start.branch.None? then Refused
    else
      var v := m.tickets[t];
      var limit := if v.budget.exception.Granted? then v.budget.cycles + 1 else AUTOMATIC_CYCLES;
      if v.budget.cycles >= limit || v.records.execution.None? || v.records.execution.value.implementation !in m.phases then Refused
      else
        var forbidden := m.phases[v.records.execution.value.implementation].thread;
        var exception := if v.budget.cycles >= AUTOMATIC_CYCLES then Consumed else v.budget.exception;
        Accepted(WithTicket(
          WithPhase(m, p, NewPhase(Some(t), Remediation, requirement, start).(forbiddenThread := forbidden)),
          t, v.(budget := v.budget.(exception := exception, cycles := v.budget.cycles + 1), status := Fixing)))
  }

  function MergeTicket(m: Manifest, t: TicketId, commit: Commit, head: Commit): (o: Outcome)
    ensures o.Accepted? ==> o.m == m.(tickets := o.m.tickets, train := o.m.train)
  {
    if t in m.tickets && m.tickets[t].status.ReadyToMerge?
    then Accepted(WithTicket(m, t, m.tickets[t].(records := m.tickets[t].records.(merge := Some(commit)), status := MergedIntoTrain)).(train := Some(head)))
    else Refused
  }

  function HandleDelivery(m: Manifest, a: DeliveryAction): (o: Outcome)
    ensures o.Accepted? ==> o.m == m.(tickets := o.m.tickets, phases := o.m.phases, gates := o.m.gates, train := o.m.train, anomalies := o.m.anomalies)
  {
    match a
    case PairDispatched(t, i, acc, fork, ni, na, nv) => DispatchPair(m, t, i, acc, fork, ni, na, nv)
    case PairIntegrated(t, head) => IntegratePair(m, t, head)
    case VerificationRecorded(t, passed) => RecordVerification(m, t, passed)
    case FailureClassified(t, next) => ClassifyFailure(m, t, next)
    case ContinuationIsolated(t, released, head) => IsolateContinuation(m, t, released, head)
    case ReviewDispatched(t, p, initial, requirement, base) => DispatchReview(m, t, p, initial, requirement, base)
    case ReviewRecorded(p, report) => RecordReview(m, p, report)
    case FindingsReconciled(t, blocking, rule) => ReconcileFindings(m, t, blocking, rule)
    case ExceptionGranted(t, g) => GrantException(m, t, g)
    case RemediationDispatched(t, p, requirement, start) => DispatchRemediation(m, t, p, requirement, start)
    case TicketMerged(t, commit, head) => MergeTicket(m, t, commit, head)
  }
}
