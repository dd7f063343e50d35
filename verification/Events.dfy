/** One controller event and sequences of them (`handle_event`).

    An event's evidence fields (references, digests, report flags, routing settings) are one
    boolean, and so are decisions read off fixed tables (`covered`, `gated`); every identifier,
    status, head and counter that a branch looks at is a field of the action. */
module Events {
  import opened Prelude
  import opened Manifest
  import opened PlanningEvents
  import opened GateEvents
  import opened PhaseEvents
  import opened SlotEvents
  import opened DeliveryEvents
  import opened FinalizationEvents

  datatype Action =
    | Planning(planning: PlanningAction)
    | Gating(gating: GatesAction)
    | Phasing(phasing: PhasesAction)
    | Slotting(slotting: SlotsAction)
    | Delivering(delivering: DeliveryAction)
    | Finalizing(finalizing: FinalizationAction)
    | CostAnomalyResolved
    | RunCompleted
    | RuntimeObserved
    /** Any event that changes nothing modelled: supervision, authorizations, ticket pull requests. */
    | OtherRecorded

  datatype Event = Event(evidence: bool, action: Action)

  /** The clauses of `completion_issues` that compare a record with the final head. */
  predicate HeadsAgree(f: Finalization) {
    && f.pr.Some?
    && f.records.verification.Some? && f.records.verification.value.head == f.pr.value.head
    && f.records.review == Some(f.pr.value.head)
    && f.records.snapshot.Some? && f.records.snapshot.value.head == f.pr.value.head
    && f.records.ledger.Some? && f.records.ledger.value.snapshotId == f.records.snapshot.value.id
  }

  /** No completion issue is left. */
  predicate Completable(m: Manifest) {
    && (forall t :: t in m.tickets ==> TerminalTicket(m.tickets[t].status) && (m.run.live ==> !m.tickets[t].status.AnalysisReported?))
    && NoActivePhase(m) && m.anomalies == 0
    && (m.final.status.ReadyForCompletion? || m.final.status.FinalCompleted?)
    && m.final.records.evidence
    && (m.run.live ==> HeadsAgree(m.final) && !m.final.pr.value.draft && m.final.records.verification.value.passed && LeasedSlots(m) == {})
  }

  function CompleteRun(m: Manifest): (o: Outcome)
    ensures o.Accepted? ==> o.m == m.(completed := o.m.completed, final := o.m.final)
  {
    if Completable(m) then Accepted(m.(completed := true, final := m.final.(status := FinalCompleted))) else Refused
  }

  function Handle(m: Manifest, a: Action): Outcome {
    match a
    case Planning(x) => HandlePlanning(m, x)
    case Gating(x) => HandleGates(m, x)
    case Phasing(x) => HandlePhases(m, x)
    case Slotting(x) => HandleSlots(m, x)
    case Delivering(x) => HandleDelivery(m, x)
    case Finalizing(x) => HandleFinalization(m, x)
    case CostAnomalyResolved => if m.anomalies > 0 then Accepted(m.(anomalies := m.anomalies - 1)) else Refused
    case RunCompleted => CompleteRun(m)
    case RuntimeObserved => Accepted(m)
    case OtherRecorded => Accepted(m)
  }

  /** An open cost anomaly holds every event back except its own resolution and observations. */
  function Step(m: Manifest, e: Event): Outcome {
    if !e.evidence then Refused
    else if m.anomalies > 0 && !e.action.CostAnomalyResolved? && !e.action.RuntimeObserved? then Refused
    else Handle(m, e.action)
  }

  /** The manifest after a sequence of events, or `Refused` as soon as one is. */
  function Run(m: Manifest, events: seq<Event>): Outcome
    decreases |events|
  {
    if events == [] then Accepted(m)
    else
      var first := Step(m, events[0]);
      if first.Refused? then Refused else Run(first.m, events[1..])
  }
}
