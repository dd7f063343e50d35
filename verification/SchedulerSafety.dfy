/** What the execution schedule guarantees over whole runs, stated on the durable execution and
    merge records because statuses come and go. */
module SchedulerSafety {
  import opened Prelude
  import opened DependencyOrder
  import opened Manifest
  import opened PlanningEvents
  import opened GateEvents
  import opened PhaseEvents
  import opened SlotEvents
  import opened DeliveryEvents
  import opened FinalizationEvents
  import opened Events
  import Effects

  type Tickets = map<TicketId, Ticket>

  /** A ticket said to be merged, now or in a gate that can bring the status back, has a merge record. */
  ghost predicate MergesRecorded(ts: Tickets, gates: map<GateId, Gate>) {
    && (forall t :: t in ts && ts[t].status.MergedIntoTrain? ==> ts[t].records.merge.Some?)
    && (forall g :: g in gates && gates[g].prior == Some(MergedIntoTrain) ==>
          gates[g].ticket in ts && ts[gates[g].ticket].records.merge.Some?)
    && (forall g :: g in gates && gates[g].kind.InputGate? ==> gates[g].prior.Some?)
  }

  /** Before consolidation nothing is ready, dispatched or isolated. */
  ghost predicate NothingEarly(consolidated: bool, ts: Tickets, gates: map<GateId, Gate>) {
    !consolidated ==>
      && (forall t :: t in ts ==> !AfterConsolidation(ts[t].status) && ts[t].records.execution.None? && ts[t].records.isolatedFor.None?)
      && (forall g :: g in gates && gates[g].prior.Some? ==> !AfterConsolidation(gates[g].prior.value))
  }

  /** A dispatched ticket has every hard dependency merged into the train. */
  ghost predicate DependenciesMerged(ts: Tickets) {
    forall t, d :: t in ts && ts[t].records.execution.Some? && d in ts[t].records.plan.dependencies ==>
      d in ts && ts[d].records.merge.Some?
  }

  /** `x` may have started although `y` comes before it and is not merged. */
  predicate MayOvertake(ts: Tickets, y: TicketId, x: TicketId)
    requires x in ts && y in ts
  {
    ParallelProven(ts[x].records.plan, ts[y].records.plan) || ts[y].records.isolatedFor == Some(x)
  }

  /** A ticket is dispatched ahead of an earlier unmerged one only if that is proven or audited. */
  ghost predicate OvertakingJustified(ts: Tickets, order: seq<TicketId>) {
    forall i, j :: (0 <= i < j < |order| && order[i] in ts && order[j] in ts
                    && ts[order[j]].records.execution.Some? && ts[order[i]].records.merge.None?) ==>
      MayOvertake(ts, order[i], order[j])
  }

  function GraphOf(ts: Tickets): Graph {
    map t | t in ts :: ts[t].records.plan.dependencies
  }

  ghost predicate OrderFixed(consolidated: bool, ts: Tickets, order: seq<TicketId>) {
    consolidated ==> TopologicalOrder(GraphOf(ts), order)
  }

  ghost predicate Scheduled(m: Manifest) {
    && MergesRecorded(m.tickets, m.gates)
    && NothingEarly(m.consolidated, m.tickets, m.gates)
    && OrderFixed(m.consolidated, m.tickets, m.order)
    && DependenciesMerged(m.tickets)
    && OvertakingJustified(m.tickets, m.order)
  }

  // ----- what the invariant gives -----

  predicate InFlight(m: Manifest, t: TicketId) {
    t in m.tickets && m.tickets[t].records.execution.Some? && m.tickets[t].records.merge.None?
  }

  /** Two tickets whose lifecycles overlap are proven parallel, or one was isolated for the other. */
  lemma OverlapIsJustified(m: Manifest, a: TicketId, b: TicketId)
    requires Scheduled(m) && InFlight(m, a) && InFlight(m, b) && a != b
    ensures ParallelProven(m.tickets[a].records.plan, m.tickets[b].records.plan)
         || m.tickets[a].records.isolatedFor == Some(b) || m.tickets[b].records.isolatedFor == Some(a)
  {
    assert m.consolidated;
    assert a in Elements(m.order) && b in Elements(m.order);
    var i :| 0 <= i < |m.order| && m.order[i] == a;
    var j :| 0 <= j < |m.order| && m.order[j] == b;
    if i < j {
      assert MayOvertake(m.tickets, m.order[i], m.order[j]);
    } else {
      assert MayOvertake(m.tickets, m.order[j], m.order[i]);
    }
  }

  /** Overlapping tickets never touch a common file, collision domain or structural domain, unless
      one of them was isolated. How long an isolated ticket stays blocked and quiet is another
      matter (`AuditedIsolation`). */
  lemma OverlapSharesNothing(m: Manifest, a: TicketId, b: TicketId)
    requires Scheduled(m) && InFlight(m, a) && InFlight(m, b) && a != b
    requires m.tickets[a].records.isolatedFor == None && m.tickets[b].records.isolatedFor == None
    ensures var p, q := m.tickets[a].records.plan, m.tickets[b].records.plan;
            p.files !! q.files && p.domains !! q.domains && p.structures !! q.structures && p.group == q.group && p.group.Some?
  {
    OverlapIsJustified(m, a, b);
  }

  // ----- branches that leave the durable records alone -----

  predicate RecordsKept(consolidated: bool, a: Ticket, b: Ticket) {
    && b.records == a.records
    && (b.status.MergedIntoTrain? ==> a.status.MergedIntoTrain? || a.records.merge.Some?)
    && (AfterConsolidation(b.status) ==> AfterConsolidation(a.status) || consolidated)
  }

  predicate AllRecordsKept(consolidated: bool, a: Tickets, b: Tickets) {
    b.Keys == a.Keys && forall t :: t in a ==> RecordsKept(consolidated, a[t], b[t])
  }

  lemma OrdinaryKeepsRecords(consolidated: bool, a: Tickets, b: Tickets)
    requires OrdinaryChanges(consolidated, a, b)
    ensures AllRecordsKept(consolidated, a, b)
  {
  }

  lemma GrowingGatesKeep(c: bool, ts: Tickets, a: map<GateId, Gate>, b: map<GateId, Gate>)
    requires MergesRecorded(ts, a) && NothingEarly(c, ts, a) && Effects.GatesGrow(ts, a, b)
    ensures MergesRecorded(ts, b) && NothingEarly(c, ts, b)
  {
  }

  lemma KeptRecordsKeep(c: bool, a: Tickets, b: Tickets, gates: map<GateId, Gate>, order: seq<TicketId>)
    requires MergesRecorded(a, gates) && NothingEarly(c, a, gates) && OrderFixed(c, a, order) && DependenciesMerged(a) && OvertakingJustified(a, order)
    requires AllRecordsKept(c, a, b)
    ensures MergesRecorded(b, gates) && NothingEarly(c, b, gates) && OrderFixed(c, b, order) && DependenciesMerged(b) && OvertakingJustified(b, order)
  {
    assert GraphOf(a) == GraphOf(b);
    forall i, j | 0 <= i < j < |order| && order[i] in b && order[j] in b
      && b[order[j]].records.execution.Some? && b[order[i]].records.merge.None?
      ensures MayOvertake(b, order[i], order[j])
    {
      assert MayOvertake(a, order[i], order[j]);
    }
  }

  lemma KeepingRecordsIsSafe(m: Manifest, n: Manifest)
    requires Scheduled(m) && n.order == m.order && n.consolidated == m.consolidated
    requires AllRecordsKept(m.consolidated, m.tickets, n.tickets) && Effects.GatesGrow(m.tickets, m.gates, n.gates)
    ensures Scheduled(n)
  {
    hide MergesRecorded, NothingEarly, OrderFixed, DependenciesMerged, OvertakingJustified, AllRecordsKept, Effects.GatesGrow;
    GrowingGatesKeep(m.consolidated, m.tickets, m.gates, n.gates);
    KeptRecordsKeep(m.consolidated, m.tickets, n.tickets, n.gates, m.order);
  }

  lemma SameGates(ts: Tickets, gates: map<GateId, Gate>)
    ensures Effects.GatesGrow(ts, gates, gates)
  {
  }

  lemma SameTickets(c: bool, ts: Tickets)
    ensures AllRecordsKept(c, ts, ts)
  {
  }

  /** A status brought back by a gate is one the ticket has had, so its records still support it. */
  lemma RestoringKeepsRecords(m: Manifest, g: GateId, s: TicketStatus)
    requires Scheduled(m) && g in m.gates && m.gates[g].ticket in m.tickets
    requires m.gates[g].prior == Some(s)
    ensures AllRecordsKept(m.consolidated, m.tickets, WithStatus(m, m.gates[g].ticket, s).tickets)
  {
  }

  lemma AnswerKeepsRecords(m: Manifest, g: GateId)
    requires Scheduled(m) && ProvideInput(m, g).Accepted?
    ensures AllRecordsKept(m.consolidated, m.tickets, ProvideInput(m, g).m.tickets)
  {
    hide AllRecordsKept, Closes, OrdinaryChanges;
    SameTickets(m.consolidated, m.tickets);
    assert m.gates[g].prior.Some?;
    RestoringKeepsRecords(m, g, m.gates[g].prior.value);
  }

  lemma ResumptionKeepsRecords(m: Manifest, p: PhaseKey, thread: Option<Reference>, g: GateId)
    requires Scheduled(m) && ResumePhase(m, p, thread, g).Accepted?
    ensures AllRecordsKept(m.consolidated, m.tickets, ResumePhase(m, p, thread, g).m.tickets)
  {
    hide AllRecordsKept, HoldsSlot, MergesRecorded, NothingEarly, OrderFixed, DependenciesMerged, OvertakingJustified;
    if m.gates[g].prior.Some? {
      RestoringKeepsRecords(m, g, m.gates[g].prior.value);
    } else {
      OrdinaryKeepsRecords(m.consolidated, m.tickets, WithStatus(m, m.gates[g].ticket, ExecutionPairRunning).tickets);
    }
  }

  lemma BudgetKeepsRecords(m: Manifest, a: DeliveryAction)
    requires HandleDelivery(m, a).Accepted? && Effects.ChangesBudget(a)
    ensures AllRecordsKept(m.consolidated, m.tickets, HandleDelivery(m, a).m.tickets)
  {
    hide OnePhase, ScopeAuthorized;
    hide DispatchPair, IntegratePair, RecordVerification, ClassifyFailure, IsolateContinuation, DispatchReview, RecordReview, ReconcileFindings, MergeTicket;
  }

  // ----- branches that write a durable record -----

  /** The order that a dispatch is checked against is the stored one. */
  lemma ScheduleUsesOrder(m: Manifest)
    requires Scheduled(m) && m.consolidated
    ensures Order(DependencyGraph(m), m.order) == Ordered(m.order) && Distinct(m.order)
  {
    assert DependencyGraph(m) == GraphOf(m.tickets);
    TopologicalPriorityIsKept(DependencyGraph(m), m.order);
  }

  lemma DispatchIsJustified(m: Manifest, t: TicketId, i: nat, j: nat)
    requires Scheduled(m) && t in m.tickets && m.tickets[t].status.ReadyForImplementation? && ScheduleSatisfied(m, t)
    requires i < j < |m.order| && m.order[j] == t && m.order[i] in m.tickets && m.tickets[m.order[i]].records.merge.None?
    ensures MayOvertake(m.tickets, m.order[i], t)
  {
    hide OvertakingJustified, DependenciesMerged;
    assert AfterConsolidation(m.tickets[t].status);
    ScheduleUsesOrder(m);
    assert t !in m.order[..i];
    assert DoesNotHoldBack(m, t, m.order[i], t !in m.order[..i]);
  }

  lemma ExecutionKeeps(m: Manifest, t: TicketId, e: Execution)
    requires Scheduled(m) && t in m.tickets && m.tickets[t].status.ReadyForImplementation? && ScheduleSatisfied(m, t)
    ensures Scheduled(m.(tickets := m.tickets[t := WithPair(m.tickets[t], e)]))
  {
    hide ScheduleSatisfied;
    var a := m.tickets;
    var b := a[t := WithPair(a[t], e)];
    assert m.consolidated by { assert AfterConsolidation(a[t].status); }
    assert GraphOf(a) == GraphOf(b);
    assert DependenciesSatisfied(m, t) by { ScheduleNeedsDependencies(m, t); }
    forall i, j | 0 <= i < j < |m.order| && m.order[i] in b && m.order[j] in b
      && b[m.order[j]].records.execution.Some? && b[m.order[i]].records.merge.None?
      ensures MayOvertake(b, m.order[i], m.order[j])
    {
      if m.order[j] == t {
        DispatchIsJustified(m, t, i, j);
      } else {
        assert MayOvertake(a, m.order[i], m.order[j]);
      }
    }
  }

  lemma ScheduleNeedsDependencies(m: Manifest, t: TicketId)
    requires t in m.tickets && ScheduleSatisfied(m, t)
    ensures DependenciesSatisfied(m, t)
  {
  }

  lemma DispatchKeeps(m: Manifest, a: DeliveryAction)
    requires Scheduled(m) && a.PairDispatched? && HandleDelivery(m, a).Accepted?
    ensures Scheduled(HandleDelivery(m, a).m)
  {
    hide OnePhase, ScheduleSatisfied;
    hide MergesRecorded, NothingEarly, OrderFixed, DependenciesMerged, OvertakingJustified;
    ExecutionKeeps(m, a.t, Execution(a.implementation, a.acceptance, a.verificationNeeds, a.fork.implementation));
  }

  /** `b` has the plans and executions of `a`, and is merged or isolated wherever `a` is. */
  predicate RecordsGrow(a: Tickets, b: Tickets) {
    b.Keys == a.Keys && forall t :: t in a ==>
      && b[t].records.plan == a[t].records.plan && b[t].records.execution == a[t].records.execution
      && (a[t].records.merge.Some? ==> b[t].records.merge.Some?)
      && (a[t].records.isolatedFor.Some? ==> b[t].records.isolatedFor == a[t].records.isolatedFor)
  }

  lemma GrowingRecordsKeep(c: bool, a: Tickets, b: Tickets, order: seq<TicketId>)
    requires OrderFixed(c, a, order) && DependenciesMerged(a) && OvertakingJustified(a, order)
    requires RecordsGrow(a, b)
    ensures OrderFixed(c, b, order) && DependenciesMerged(b) && OvertakingJustified(b, order)
  {
    assert GraphOf(a) == GraphOf(b);
    forall i, j | 0 <= i < j < |order| && order[i] in b && order[j] in b
      && b[order[j]].records.execution.Some? && b[order[i]].records.merge.None?
      ensures MayOvertake(b, order[i], order[j])
    {
      assert MayOvertake(a, order[i], order[j]);
    }
  }

  lemma IsolationKeeps(m: Manifest, t: TicketId, released: TicketId, head: Commit)
    requires Scheduled(m) && IsolateContinuation(m, t, released, head).Accepted?
    ensures Scheduled(IsolateContinuation(m, t, released, head).m)
  {
    hide OneTicket, OrderFixed, DependenciesMerged, OvertakingJustified;
    GrowingRecordsKeep(m.consolidated, m.tickets, IsolateContinuation(m, t, released, head).m.tickets, m.order);
  }

  lemma MergeKeeps(m: Manifest, t: TicketId, commit: Commit, head: Commit)
    requires Scheduled(m) && MergeTicket(m, t, commit, head).Accepted?
    ensures Scheduled(MergeTicket(m, t, commit, head).m)
  {
    hide OneTicket, MergesRecorded, NothingEarly, OrderFixed, DependenciesMerged, OvertakingJustified, RecordsGrow;
    MergeIsRecorded(m.consolidated, m.tickets, m.gates, t, commit);
    GrowingRecordsKeep(m.consolidated, m.tickets, Merged(m.tickets, t, commit), m.order);
  }

  function Merged(ts: Tickets, t: TicketId, commit: Commit): Tickets
    requires t in ts
  {
    ts[t := ts[t].(records := ts[t].records.(merge := Some(commit)), status := MergedIntoTrain)]
  }

  lemma MergeIsRecorded(c: bool, ts: Tickets, gates: map<GateId, Gate>, t: TicketId, commit: Commit)
    requires t in ts && MergesRecorded(ts, gates) && NothingEarly(c, ts, gates)
    ensures var b := Merged(ts, t, commit); MergesRecorded(b, gates) && NothingEarly(c, b, gates) && RecordsGrow(ts, b)
  {
  }

  lemma ConsolidationKeeps(m: Manifest, schedule: seq<TicketId>, plans: map<TicketId, Plan>)
    requires Scheduled(m) && Consolidate(m, schedule, plans).Accepted?
    ensures Scheduled(Consolidate(m, schedule, plans).m)
  {
    var m1 := WithPlans(m, schedule, plans);
    var n := Consolidate(m, schedule, plans).m;
    OrderIsExact(DependencyGraph(m1), schedule);
    assert DependencyGraph(m1) == GraphOf(n.tickets);
  }

  // ----- every event -----

  lemma PlanningKeeps(m: Manifest, a: PlanningAction)
    requires Scheduled(m) && HandlePlanning(m, a).Accepted?
    ensures Scheduled(HandlePlanning(m, a).m)
  {
    hide Scheduled, AllRecordsKept, OrdinaryChanges, Effects.GatesGrow, RecordTriage, RecordAnalysis, DecideSpecification, RecordRouteValidation,
         ReconcileRouteValidation, Consolidate, ReconcileReadiness, RecordContractValidation, CollectContractResult, AmendContract;
    if a.DependenciesConsolidated? {
      ConsolidationKeeps(m, a.schedule, a.plans);
    } else {
      Effects.PlanningIsOrdinary(m, a);
      Effects.PlanningGrows(m, a);
      var n := HandlePlanning(m, a).m;
      OrdinaryKeepsRecords(m.consolidated, m.tickets, n.tickets);
      KeepingRecordsIsSafe(m, n);
    }
  }

  lemma GatesKeep(m: Manifest, a: GatesAction)
    requires Scheduled(m) && HandleGates(m, a).Accepted?
    ensures Scheduled(HandleGates(m, a).m)
  {
    hide Scheduled, AllRecordsKept, OrdinaryChanges, Effects.GatesGrow, OpensAtMost, Closes, RequestInput, AnnounceGate, ResolveGate, ProvideInput, ResumePhase;
    var n := HandleGates(m, a).m;
    Effects.GatesGrown(m, a);
    match a
    case InputProvided(g) => AnswerKeepsRecords(m, g); KeepingRecordsIsSafe(m, n);
    case PhaseResumed(p, thread, g) => ResumptionKeepsRecords(m, p, thread, g); KeepingRecordsIsSafe(m, n);
    case _ =>
      Effects.GatesAreOrdinary(m, a);
      OrdinaryKeepsRecords(m.consolidated, m.tickets, n.tickets);
      KeepingRecordsIsSafe(m, n);
  }

  lemma DeliveryKeeps(m: Manifest, a: DeliveryAction)
    requires Scheduled(m) && HandleDelivery(m, a).Accepted?
    ensures Scheduled(HandleDelivery(m, a).m)
  {
    hide Scheduled, AllRecordsKept, OrdinaryChanges, Effects.GatesGrow, OpensAtMost, DispatchPair, IntegratePair, RecordVerification, ClassifyFailure,
         IsolateContinuation, DispatchReview, RecordReview, ReconcileFindings, GrantException, DispatchRemediation, MergeTicket;
    var n := HandleDelivery(m, a).m;
    match a
    case PairDispatched(_, _, _, _, _, _, _) => DispatchKeeps(m, a);
    case ContinuationIsolated(t, released, head) => IsolationKeeps(m, t, released, head);
    case TicketMerged(t, commit, head) => MergeKeeps(m, t, commit, head);
    case _ =>
      if Effects.ChangesBudget(a) {
        BudgetKeepsRecords(m, a);
      } else {
        Effects.DeliveryIsOrdinary(m, a);
        OrdinaryKeepsRecords(m.consolidated, m.tickets, n.tickets);
      }
      Effects.DeliveryOnlyOpens(m, a);
      Effects.OpeningGrows(m.tickets, m.gates, n.gates);
      KeepingRecordsIsSafe(m, n);
  }

  lemma HandleKeeps(m: Manifest, a: Action)
    requires Scheduled(m) && Handle(m, a).Accepted?
    ensures Scheduled(Handle(m, a).m)
  {
    hide Scheduled, AllRecordsKept, OrdinaryChanges, Effects.GatesGrow, OpensAtMost, HandlePlanning, HandleGates, HandlePhases, HandleSlots, HandleDelivery, HandleFinalization, CompleteRun;
    var n := Handle(m, a).m;
    SameGates(m.tickets, m.gates);
    SameTickets(m.consolidated, m.tickets);
    match a
    case Planning(x) => PlanningKeeps(m, x);
    case Gating(x) => GatesKeep(m, x);
    case Phasing(x) =>
      Effects.PhasesAreOrdinary(m, x);
      Effects.PhasesOnlyOpen(m, x);
      Effects.OpeningGrows(m.tickets, m.gates, n.gates);
      OrdinaryKeepsRecords(m.consolidated, m.tickets, n.tickets);
      KeepingRecordsIsSafe(m, n);
    case Delivering(x) => DeliveryKeeps(m, x);
    case Finalizing(x) =>
      Effects.FinalizationIsOrdinary(m, x);
      OrdinaryKeepsRecords(m.consolidated, m.tickets, n.tickets);
      KeepingRecordsIsSafe(m, n);
    case _ => KeepingRecordsIsSafe(m, n);
  }
}
