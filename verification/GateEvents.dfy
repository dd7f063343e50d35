/** Human gates: requests for input, announcements, decisions, and resuming what they interrupted. */
module GateEvents {
  import opened Prelude
  import opened Manifest

  datatype GatesAction =
    | InputRequested(t: TicketId, g: GateId, phase: Option<PhaseKey>)
    | GateAnnounced(g: GateId)
    | GateResolved(g: GateId, approved: bool)
    | InputProvided(g: GateId)
    | PhaseResumed(p: PhaseKey, thread: Option<Reference>, g: GateId)

  predicate NeverLaunched(p: Phase) {
    p.launch.Blocked? && p.thread.None? && p.client.None?
  }

  function RequestInput(m: Manifest, t: TicketId, g: GateId, phase: Option<PhaseKey>): (o: Outcome)
    ensures o.Accepted? ==> o.m == m.(tickets := o.m.tickets, gates := o.m.gates)
    ensures o.Accepted? ==> OneTicket(m.consolidated, m.tickets, o.m.tickets, t)
    ensures o.Accepted? ==> OpensAtMost(m.tickets, m.gates, o.m.gates, g)
  {
    if t !in m.tickets || TerminalTicket(m.tickets[t].status) || g in m.gates then Refused
    else if phase.Some? && (phase.value !in m.phases || !NeverLaunched(m.phases[phase.value])) then Refused
    else
      var mode := if phase.Some? then PrelaunchRetry else TicketState;
      Accepted(WithStatus(
        WithGate(m, g, Gate(InputGate, t, phase, Some(m.tickets[t].status), mode, Unannounced)), t, AwaitingRequiredInput))
  }

  function AnnounceGate(m: Manifest, g: GateId): (o: Outcome)
    ensures o.Accepted? ==> o.m == m.(gates := o.m.gates, pending := o.m.pending)
  {
    if g !in m.gates || !m.gates[g].status.Unannounced? || m.pending.Some? then Refused
    else Accepted(WithGate(m, g, m.gates[g].(status := Announced)).(pending := Some(g)))
  }

  function ResolveGate(m: Manifest, g: GateId, approved: bool): (o: Outcome)
    ensures o.Accepted? ==> o.m == m.(tickets := o.m.tickets, gates := o.m.gates, pending := o.m.pending)
    ensures o.Accepted? ==> Closes(m, g, if approved then Approved else Rejected, o.m)
    ensures o.Accepted? ==> OneTicket(m.consolidated, m.tickets, o.m.tickets, m.gates[g].ticket)
  {
    if g !in m.gates || !m.gates[g].status.Announced? || m.gates[g].kind.SpecificationGate? then Refused
    else if (m.gates[g].kind.InputGate? && approved) || m.gates[g].ticket !in m.tickets then Refused
    else
      var t := m.gates[g].ticket;
      if !approved then Accepted(WithStatus(CloseGate(m, g, Rejected), t, TicketBlocked))
      else if m.gates[g].kind.PreMergeGate? then Accepted(WithStatus(CloseGate(m, g, Approved), t, ReadyToMerge))
      else Accepted(WithStatus(CloseGate(m, g, Approved), t, AnalyzedStatus(m)))
  }

  function RestoredStatus(g: Gate, otherwise: TicketStatus): TicketStatus {
    if g.prior.Some? then g.prior.value else otherwise
  }

  /** At most the status of the ticket `t` changes. */
  predicate OnlyStatus(a: map<TicketId, Ticket>, b: map<TicketId, Ticket>, t: TicketId) {
    b == a || (t in a && t in b && b == a[t := a[t].(status := b[t].status)])
  }

  function ProvideInput(m: Manifest, g: GateId): (o: Outcome)
    ensures o.Accepted? ==> o.m == m.(tickets := o.m.tickets, phases := o.m.phases, gates := o.m.gates, pending := o.m.pending)
    ensures o.Accepted? ==> Closes(m, g, Provided, o.m) && OnlyStatus(m.tickets, o.m.tickets, m.gates[g].ticket)
  {
    if g !in m.gates || !m.gates[g].kind.InputGate? || !m.gates[g].status.Announced? || m.gates[g].ticket !in m.tickets then Refused
    else
      var gate := m.gates[g];
      var m1 := CloseGate(m, g, Provided);
      var restored := RestoredStatus(gate, ReadyForImplementation);
      match gate.resume
      case SameThread =>
        if gate.phase.None? || gate.phase.value !in m.phases || !m.phases[gate.phase.value].launch.NeedsInput? then Refused
        else Accepted(WithLaunch(m1, gate.phase.value, InputReady))
      case PrelaunchRetry =>
        if gate.phase.None? || gate.phase.value !in m.phases || !NeverLaunched(m.phases[gate.phase.value]) then Refused
        else Accepted(WithStatus(WithLaunch(m1, gate.phase.value, IntentRecorded), gate.ticket, restored))
      case _ => Accepted(WithStatus(m1, gate.ticket, restored))
  }

  /** `g` is the gate found first among those of the phase. */
  function ResumePhase(m: Manifest, p: PhaseKey, thread: Option<Reference>, g: GateId): (o: Outcome)
    ensures o.Accepted? ==> o.m == m.(tickets := o.m.tickets, phases := o.m.phases)
    ensures o.Accepted? ==> g in m.gates && OnlyStatus(m.tickets, o.m.tickets, m.gates[g].ticket)
  {
    if p !in m.phases || !m.phases[p].launch.InputReady? || m.phases[p].thread != thread then Refused
    else if !m.phases[p].requirement.NoEditor? && !HoldsSlot(m, OfPhase(p)) then Refused
    else if !FirstGateOf(m, g, p) || !m.gates[g].status.Provided? || m.gates[g].ticket !in m.tickets then Refused
    else Accepted(WithStatus(WithLaunch(m, p, Running), m.gates[g].ticket, RestoredStatus(m.gates[g], ExecutionPairRunning)))
  }

  function HandleGates(m: Manifest, a: GatesAction): (o: Outcome)
    ensures o.Accepted? ==> o.m == m.(tickets := o.m.tickets, phases := o.m.phases, gates := o.m.gates, pending := o.m.pending)
  {
    match a
    case InputRequested(t, g, phase) => RequestInput(m, t, g, phase)
    case GateAnnounced(g) => AnnounceGate(m, g)
    case GateResolved(g, approved) => ResolveGate(m, g, approved)
    case InputProvided(g) => ProvideInput(m, g)
    case PhaseResumed(p, thread, g) => ResumePhase(m, p, thread, g)
  }
}
