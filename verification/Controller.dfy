/** The controller in place: a loaded manifest that `handle_event` changes branch by branch.

    Every branch is proved against the function that specifies it. A branch that raises may leave
    the loaded manifest half changed, because the caller never saves it. */
module Controller {
  import opened Prelude
  import opened DependencyOrder
  import opened Manifest
  import opened PlanningEvents
  import opened GateEvents
  import opened PhaseEvents
  import opened SlotEvents
  import opened DeliveryEvents
  import opened FinalizationEvents
  import opened Events
  import opened Planner
  import FinalizationCoherence
  import Runs

  /** Writing the analysis first and routing then is routing with the new analysis. */
  lemma RouteAfterUpdate(m: Manifest, t: TicketId, v: Ticket, covered: bool, rule: GateRule)
    requires t in m.tickets
    ensures PlanningEvents.RouteOrFinalize(WithTicket(m, t, v), t, v, covered, rule) == PlanningEvents.RouteOrFinalize(m, t, v, covered, rule)
  {
    var s := if !covered then RouteValidationRequired else if rule.gated then AwaitingAnalysisApproval else AnalyzedStatus(m);
    assert m.tickets[t := v][t := v.(status := s)] == m.tickets[t := v.(status := s)];
  }

  /** Two tickets of one parallel group share no collision domain and no material file. */
  predicate MayShareGroup(a: Plan, b: Plan) {
    a.group.Some? && a.group == b.group ==> a.domains !! b.domains && a.files !! b.files
  }

  class LoadedManifest {
    const run: Settings
    var editorsReady: bool
    var tickets: map<TicketId, Ticket>
    var order: seq<TicketId>
    var consolidated: bool
    var phases: map<PhaseKey, Phase>
    var gates: map<GateId, Gate>
    var pending: Option<GateId>
    var slots: map<SlotId, Option<Lease>>
    var train: Option<Commit>
    var final: Finalization
    var anomalies: nat
    var completed: bool

    function View(): Manifest
      reads this
    {
      Manifest(run, editorsReady, tickets, order, consolidated, phases, gates, pending, slots, train, final, anomalies, completed)
    }

    constructor (m: Manifest)
      ensures View() == m
    {
      run, editorsReady, tickets, order, consolidated := m.run, m.editorsReady, m.tickets, m.order, m.consolidated;
      phases, gates, pending, slots := m.phases, m.gates, m.pending, m.slots;
      train, final, anomalies, completed := m.train, m.final, m.anomalies, m.completed;
    }

    // ----- helpers of the branches -----

    method SetStatus(t: TicketId, s: TicketStatus)
      requires t in tickets
      modifies `tickets
      ensures View() == WithStatus(old(View()), t, s)
    {
      tickets := tickets[t := tickets[t].(status := s)];
    }

    method SetLaunch(p: PhaseKey, l: LaunchState)
      requires p in phases
      modifies `phases
      ensures View() == WithLaunch(old(View()), p, l)
    {
      phases := phases[p := phases[p].(launch := l)];
    }

    method SetEnd(p: PhaseKey, l: LaunchState, commit: Option<Commit>)
      requires p in phases
      modifies `phases
      ensures View() == WithEnd(old(View()), p, l, commit)
    {
      phases := phases[p := phases[p].(launch := l, result := commit)];
    }

    method AddPhase(p: PhaseKey, v: Phase) returns (ok: bool)
      modifies `phases
      ensures ok == (p !in old(phases))
      ensures View() == if ok then WithPhase(old(View()), p, v) else old(View())
    {
      if p in phases { return false; }
      phases := phases[p := v];
      return true;
    }

    method CreateGate(g: GateId, v: Gate) returns (ok: bool)
      modifies `gates
      ensures ok == (g !in old(gates))
      ensures View() == if ok then WithGate(old(View()), g, v) else old(View())
    {
      if g in gates { return false; }
      gates := gates[g := v];
      return true;
    }

    /** The gate takes its outcome and stops being the pending action. */
    method Close(g: GateId, outcome: GateStatus)
      requires g in gates
      modifies `gates, `pending
      ensures View() == CloseGate(old(View()), g, outcome)
    {
      gates := gates[g := gates[g].(status := outcome)];
      if pending == Some(g) { pending := None; }
    }

    // ----- the schedule -----

    method ExecutionScheduleSatisfied(t: TicketId) returns (ok: bool)
      requires t in tickets
      ensures ok == ScheduleSatisfied(View(), t)
    {
      if exists d :: d in tickets[t].records.plan.dependencies && !(d in tickets && tickets[d].status.MergedIntoTrain?) { return false; }
      var o := OrderedExecutionTickets(DependencyGraph(View()), order);
      if !o.Ordered? { return false; }
      var earlier := true;
      for k := 0 to |o.tickets|
        invariant earlier == (t !in o.tickets[..k])
        invariant forall j :: 0 <= j < k && o.tickets[j] != t ==> DoesNotHoldBack(View(), t, o.tickets[j], t !in o.tickets[..j])
      {
        var other := o.tickets[k];
        assert o.tickets[..k + 1] == o.tickets[..k] + [other];
        if other == t {
          earlier := false;
        } else {
          if other !in tickets { return false; }
          if !(tickets[other].status.MergedIntoTrain? || other in tickets[t].records.plan.dependencies) && !ReleasedBy(View(), other, t) {
            if (earlier || tickets[other].records.execution.Some?) && !ParallelProven(tickets[t].records.plan, tickets[other].records.plan) {
              assert !DoesNotHoldBack(View(), t, o.tickets[k], t !in o.tickets[..k]);
              return false;
            }
          }
        }
      }
      return true;
    }

    /** The execution pairs offered in one plan. */
    method OfferPairs(listing: seq<TicketId>) returns (offers: seq<TicketId>)
      ensures offers == OfferedPairs(View(), listing)
    {
      var ready: seq<TicketId> := [];
      var left := listing;
      for k := 0 to |listing|
        invariant left == listing[k..]
        invariant ReadyPairs(View(), listing) == ready + ReadyPairs(View(), left)
      {
        var t := listing[k];
        assert left[0] == t && left[1..] == listing[k + 1..];
        if t in tickets && tickets[t].status.ReadyForImplementation? {
          var fits := ExecutionScheduleSatisfied(t);
          if fits && (tickets[t].facts.analysis.Some? && tickets[t].facts.analysis.value.needsContract ==> tickets[t].facts.contract.PassedVerdict?) {
            ready := ready + [t];
          }
        }
        left := left[1..];
      }
      assert left == [];
      var capacity := run.maxPairs - |RunningPairs(View())|;
      if ready != [] && capacity > 0 {
        return if |ready| <= capacity then ready else ready[..capacity];
      }
      return [];
    }

    // ----- triage, analysis and contracts -----

    method FinalizeAnalysis(t: TicketId, rule: GateRule) returns (ok: bool)
      requires t in tickets
      modifies this
      ensures var spec := PlanningEvents.FinalizeAnalysis(old(View()), t, old(tickets[t]), rule); ok == spec.Accepted? && (ok ==> View() == spec.m)
    {
      if rule.gated {
        tickets := tickets[t := tickets[t].(status := AwaitingAnalysisApproval)];
        ok := CreateGate(rule.gate, Gate(AnalysisGate, t, None, None, NotResuming, Unannounced));
      } else {
        tickets := tickets[t := tickets[t].(status := if consolidated then ReadyForImplementation else Analyzed)];
        ok := true;
      }
    }

    method RouteOrFinalize(t: TicketId, covered: bool, rule: GateRule) returns (ok: bool)
      requires t in tickets
      modifies this
      ensures var spec := PlanningEvents.RouteOrFinalize(old(View()), t, old(tickets[t]), covered, rule); ok == spec.Accepted? && (ok ==> View() == spec.m)
    {
      if covered {
        ok := FinalizeAnalysis(t, rule);
      } else {
        SetStatus(t, RouteValidationRequired);
        ok := true;
      }
    }

    method RecordTriage(t: TicketId, p: PhaseKey) returns (ok: bool)
      modifies this
      ensures var spec := PlanningEvents.RecordTriage(old(View()), t, p); ok == spec.Accepted? && (ok ==> View() == spec.m)
    {
      if t !in tickets || tickets[t].facts.triaged { return false; }
      if p !in phases || !phases[p].kind.Triage? || !phases[p].launch.Completed? { return false; }
      tickets := tickets[t := tickets[t].(facts := tickets[t].facts.(triaged := true), status := Triaged)];
      return true;
    }

    method RecordAnalysis(t: TicketId, p: PhaseKey, needsContract: bool, approval: GateRule, covered: bool, rule: GateRule) returns (ok: bool)
      modifies this
      ensures var spec := PlanningEvents.RecordAnalysis(old(View()), t, p, needsContract, approval, covered, rule); ok == spec.Accepted? && (ok ==> View() == spec.m)
    {
      if t !in tickets || !tickets[t].status.Triaged? || !IsCompleted(View(), p, Analysis, t) { return false; }
      if approval.gated {
        tickets := tickets[t := tickets[t].(facts := tickets[t].facts.(analysis := Some(AnalysisRecord(needsContract, ScopeApprovalRequired))),
                                            status := AwaitingSpecificationDecision)];
        ok := CreateGate(approval.gate, Gate(SpecificationGate, t, None, None, NotResuming, Unannounced));
      } else {
        hide PlanningEvents.RouteOrFinalize;
        tickets := tickets[t := tickets[t].(facts := tickets[t].facts.(analysis := Some(AnalysisRecord(needsContract, ScopeClear))))];
        RouteAfterUpdate(old(View()), t, tickets[t], covered, rule);
        ok := RouteOrFinalize(t, covered, rule);
      }
    }

    method DecideSpecification(t: TicketId, g: GateId, needsContract: bool, covered: bool, rule: GateRule) returns (ok: bool)
      modifies this
      ensures var spec := PlanningEvents.DecideSpecification(old(View()), t, g, needsContract, covered, rule); ok == spec.Accepted? && (ok ==> View() == spec.m)
    {
      if t !in tickets || !tickets[t].status.AwaitingSpecificationDecision? || tickets[t].facts.analysis.None? { return false; }
      if g !in gates || !gates[g].kind.SpecificationGate? || !gates[g].status.Announced? { return false; }
      if tickets[t].facts.analysis.value.needsContract && !needsContract { return false; }
      hide PlanningEvents.RouteOrFinalize;
      Close(g, Resolved);
      ghost var closed := View();
      tickets := tickets[t := tickets[t].(facts := tickets[t].facts.(analysis := Some(AnalysisRecord(needsContract, ScopeResolved))))];
      RouteAfterUpdate(closed, t, tickets[t], covered, rule);
      ok := RouteOrFinalize(t, covered, rule);
    }

    method RecordRouteValidation(t: TicketId, p: PhaseKey, passed: bool, rule: GateRule) returns (ok: bool)
      modifies this
      ensures var spec := PlanningEvents.RecordRouteValidation(old(View()), t, p, passed, rule); ok == spec.Accepted? && (ok ==> View() == spec.m)
    {
      if t !in tickets || !tickets[t].status.RouteValidationRequired? || !IsCompleted(View(), p, RouteValidation, t) { return false; }
      if passed {
        ok := FinalizeAnalysis(t, rule);
      } else {
        SetStatus(t, ReconciliationRequired);
        ok := true;
      }
    }

    method ReconcileRouteValidation(t: TicketId) returns (ok: bool)
      modifies this
      ensures var spec := PlanningEvents.ReconcileRouteValidation(old(View()), t); ok == spec.Accepted? && (ok ==> View() == spec.m)
    {
      if t !in tickets || !tickets[t].status.ReconciliationRequired? { return false; }
      SetStatus(t, RouteValidationRequired);
      return true;
    }

    method ReconcileReadiness(t: TicketId) returns (ok: bool)
      modifies this
      ensures var spec := PlanningEvents.ReconcileReadiness(old(View()), t); ok == spec.Accepted? && (ok ==> View() == spec.m)
    {
      if !consolidated || t !in tickets || !tickets[t].status.Analyzed? || tickets[t].facts.analysis.None? { return false; }
      SetStatus(t, ReadyForImplementation);
      return true;
    }

    method RecordContractValidation(t: TicketId, p: PhaseKey, passed: bool) returns (ok: bool)
      modifies this
      ensures var spec := PlanningEvents.RecordContractValidation(old(View()), t, p, passed); ok == spec.Accepted? && (ok ==> View() == spec.m)
    {
      if t !in tickets || !tickets[t].status.ReadyForImplementation? || !IsCompleted(View(), p, ContractValidation, t) { return false; }
      if tickets[t].facts.analysis.None? { return false; }
      tickets := tickets[t := tickets[t].(facts := tickets[t].facts.(contract := if passed then PassedVerdict else FailedVerdict))];
      if !passed { SetStatus(t, NeedsContractAmendment); }
      return true;
    }

    method CompletePhase(p: PhaseKey, report: Report) returns (ok: bool)
      modifies this
      ensures var spec := PhaseEvents.CompletePhase(old(View()), p, report); ok == spec.Accepted? && (ok ==> View() == spec.m)
    {
      if p !in phases || !phases[p].launch.Running? { return false; }
      anomalies := anomalies + report.excess;
      SetEnd(p, Completed, report.commit);
      return true;
    }

    /** Two nested events and one save: completion of the phase and its verdict. */
    method CollectContractResult(t: TicketId, p: PhaseKey, passed: bool, report: Report) returns (ok: bool)
      modifies this
      ensures var spec := PlanningEvents.CollectContractResult(old(View()), t, p, passed, report); ok == spec.Accepted? && (ok ==> View() == spec.m)
    {
      if p !in phases || !phases[p].kind.ContractValidation? || phases[p].ticket != Some(t) { return false; }
      ok := CompletePhase(p, report);
      if !ok || anomalies > 0 { return false; }
      ok := RecordContractValidation(t, p, passed);
    }

    method AmendContract(t: TicketId) returns (ok: bool)
      modifies this
      ensures var spec := PlanningEvents.AmendContract(old(View()), t); ok == spec.Accepted? && (ok ==> View() == spec.m)
    {
      if t !in tickets || !tickets[t].status.NeedsContractAmendment? { return false; }
      if tickets[t].facts.analysis.None? || !tickets[t].facts.contract.FailedVerdict? { return false; }
      SetStatus(t, ReadyForImplementation);
      return true;
    }

    // ----- human gates -----

    method RequestInput(t: TicketId, g: GateId, phase: Option<PhaseKey>) returns (ok: bool)
      modifies this
      ensures var spec := GateEvents.RequestInput(old(View()), t, g, phase); ok == spec.Accepted? && (ok ==> View() == spec.m)
    {
      if t !in tickets || TerminalTicket(tickets[t].status) { return false; }
      var mode := if phase.Some? then PrelaunchRetry else TicketState;
      ok := CreateGate(g, Gate(InputGate, t, phase, Some(tickets[t].status), mode, Unannounced));
      if !ok { return false; }
      if phase.Some? && (phase.value !in phases || !NeverLaunched(phases[phase.value])) { return false; }
      SetStatus(t, AwaitingRequiredInput);
    }

    /** The gate is marked before the pending action is looked at, so a refusal leaves it marked. */
    method AnnounceGate(g: GateId) returns (ok: bool)
      modifies this
      ensures var spec := GateEvents.AnnounceGate(old(View()), g); ok == spec.Accepted? && (ok ==> View() == spec.m)
    {
      if g !in gates || !gates[g].status.Unannounced? { return false; }
      gates := gates[g := gates[g].(status := Announced)];
      if pending.Some? { return false; }
      pending := Some(g);
      return true;
    }

    method ResolveGate(g: GateId, approved: bool) returns (ok: bool)
      modifies this
      ensures var spec := GateEvents.ResolveGate(old(View()), g, approved); ok == spec.Accepted? && (ok ==> View() == spec.m)
    {
      if g !in gates || !gates[g].status.Announced? || gates[g].kind.SpecificationGate? { return false; }
      if gates[g].kind.InputGate? && approved { return false; }
      Close(g, if approved then Approved else Rejected);
      var t := gates[g].ticket;
      if t !in tickets { return false; }
      if !approved {
        SetStatus(t, TicketBlocked);
      } else if gates[g].kind.AnalysisGate? {
        SetStatus(t, if consolidated then ReadyForImplementation else Analyzed);
      } else if gates[g].kind.PreMergeGate? {
        SetStatus(t, ReadyToMerge);
      }
      return true;
    }

    method ProvideInput(g: GateId) returns (ok: bool)
      modifies this
      ensures var spec := GateEvents.ProvideInput(old(View()), g); ok == spec.Accepted? && (ok ==> View() == spec.m)
    {
      if g !in gates || !gates[g].kind.InputGate? || !gates[g].status.Announced? { return false; }
      Close(g, Provided);
      var gate := gates[g];
      if gate.ticket !in tickets { return false; }
      match gate.resume {
        case SameThread =>
          if gate.phase.None? || gate.phase.value !in phases || !phases[gate.phase.value].launch.NeedsInput? { return false; }
          SetLaunch(gate.phase.value, InputReady);
        case PrelaunchRetry =>
          if gate.phase.None? || gate.phase.value !in phases || !NeverLaunched(phases[gate.phase.value]) { return false; }
          SetLaunch(gate.phase.value, IntentRecorded);
          SetStatus(gate.ticket, if gate.prior.Some? then gate.prior.value else ReadyForImplementation);
        case _ =>
          SetStatus(gate.ticket, if gate.prior.Some? then gate.prior.value else ReadyForImplementation);
      }
      return true;
    }

    method ResumePhase(p: PhaseKey, thread: Option<Reference>, g: GateId) returns (ok: bool)
      modifies this
      ensures var spec := GateEvents.ResumePhase(old(View()), p, thread, g); ok == spec.Accepted? && (ok ==> View() == spec.m)
    {
      if p !in phases || !phases[p].launch.InputReady? { return false; }
      if !phases[p].requirement.NoEditor? && !HoldsSlot(View(), OfPhase(p)) { return false; }
      if phases[p].thread != thread { return false; }
      SetLaunch(p, Running);
      if !FirstGateOf(View(), g, p) || !gates[g].status.Provided? || gates[g].ticket !in tickets { return false; }
      SetStatus(gates[g].ticket, if gates[g].prior.Some? then gates[g].prior.value else ExecutionPairRunning);
      return true;
    }

    // ----- phases -----

    method DispatchPhase(p: PhaseKey, kind: PhaseKind, ticket: Option<TicketId>, requirement: Requirement, base: Commit) returns (ok: bool)
      modifies this
      ensures var spec := PhaseEvents.DispatchPhase(old(View()), p, kind, ticket, requirement, base); ok == spec.Accepted? && (ok ==> View() == spec.m)
    {
      if !DispatchAllowed(View(), kind, ticket, requirement) || !RequirementAllowed(View(), requirement) { return false; }
      ok := AddPhase(p, NewPhase(ticket, kind, requirement, Detached(base)));
    }

    method ObserveLaunch(p: PhaseKey, launch: LaunchState, thread: Option<Reference>, client: Option<Reference>, reconciled: bool) returns (ok: bool)
      modifies this
      ensures var spec := PhaseEvents.ObserveLaunch(old(View()), p, launch, thread, client, reconciled); ok == spec.Accepted? && (ok ==> View() == spec.m)
    {
      hide LeaseConfirmed;
      if p !in phases || !(Launched(launch) || launch.LaunchUnknown? || launch.Blocked?) { return false; }
      if Launched(launch) && !phases[p].requirement.NoEditor? && !LeaseConfirmed(View(), p) { return false; }
      if launch.Queued? && client.None? { return false; }
      if launch.Running? && (thread.None? || thread == phases[p].forbiddenThread) { return false; }
      if phases[p].launch.LaunchUnknown? && launch.Queued? && !reconciled { return false; }
      var v := phases[p].(launch := launch);
      if thread.Some? { v := v.(thread := thread); }
      if client.Some? { v := v.(client := client); }
      phases := phases[p := v];
      return true;
    }

    method RecordCompletion(p: PhaseKey, report: Report) returns (ok: bool)
      modifies this
      ensures var spec := PhaseEvents.RecordCompletion(old(View()), p, report); ok == spec.Accepted? && (ok ==> View() == spec.m)
    {
      ok := CompletePhase(p, report);
      if !ok { return false; }
      var t := phases[p].ticket;
      match phases[p].kind {
        case FinalRemediation =>
          final := final.(status := AwaitingFinalPrUpdate);
        case Remediation =>
          if t.None? || t.value !in tickets { return false; }
          SetStatus(t.value, AwaitingRemediationVerification);
        case Implementation | AcceptanceTests =>
          if t.None? || t.value !in tickets || tickets[t.value].records.execution.None? { return false; }
          if PairCompleted(View(), tickets[t.value].records.execution.value) { SetStatus(t.value, AwaitingExecutionIntegration); }
        case _ =>
      }
      return true;
    }

    method TerminatePhase(p: PhaseKey, outcome: Termination, commit: Option<Commit>) returns (ok: bool)
      modifies this
      ensures var spec := PhaseEvents.TerminatePhase(old(View()), p, outcome, commit); ok == spec.Accepted? && (ok ==> View() == spec.m)
    {
      if p !in phases || !phases[p].launch.Running? { return false; }
      var t := phases[p].ticket;
      if outcome.EndsNeedsInput? {
        if MustLeaveCommit(View(), p) && commit.None? { return false; }
        if t.None? || t.value !in tickets { return false; }
        ok := CreateGate(outcome.gate, Gate(InputGate, t.value, Some(p), Some(tickets[t.value].status), SameThread, Unannounced));
        if !ok { return false; }
        SetEnd(p, NeedsInput, commit);
        SetStatus(t.value, AwaitingRequiredInput);
      } else {
        SetEnd(p, EndedLaunch(outcome), commit);
        if t.Some? {
          if t.value !in tickets { return false; }
          SetStatus(t.value, EndedStatus(outcome));
        }
      }
      return true;
    }

    method ReclassifyAcceptance(t: TicketId, p: PhaseKey) returns (ok: bool)
      modifies this
      ensures var spec := PhaseEvents.ReclassifyAcceptance(old(View()), t, p); ok == spec.Accepted? && (ok ==> View() == spec.m)
    {
      if p !in phases || !phases[p].kind.AcceptanceTests? || phases[p].ticket != Some(t) || !phases[p].launch.Blocked? || phases[p].result.None? { return false; }
      if t !in tickets || tickets[t].records.execution.None? || tickets[t].records.execution.value.acceptance != p { return false; }
      var implementation := tickets[t].records.execution.value.implementation;
      if implementation !in phases || !phases[implementation].launch.Completed? { return false; }
      SetLaunch(p, Completed);
      SetStatus(t, AwaitingExecutionIntegration);
      return true;
    }

    // ----- editor slots -----

    method ConfigureEnvironment(slotIds: set<SlotId>) returns (ok: bool)
      modifies this
      ensures var spec := SlotEvents.ConfigureEnvironment(old(View()), slotIds); ok == spec.Accepted? && (ok ==> View() == spec.m)
    {
      if !run.editors || editorsReady || |slotIds| < run.maxEditors { return false; }
      slots := map s | s in slotIds :: None;
      editorsReady := true;
      return true;
    }

    method AcquireSlot(owner: Owner, slot: SlotId, lease: Reference, requirement: Requirement, expected: Commit, observed: Place) returns (ok: bool)
      modifies this
      ensures var spec := SlotEvents.AcquireSlot(old(View()), owner, slot, lease, requirement, expected, observed); ok == spec.Accepted? && (ok ==> View() == spec.m)
    {
      if !run.editors || !editorsReady || requirement.NoEditor? || !MayAcquire(View(), owner, requirement) { return false; }
      if !Expects(View(), owner, observed) || expected != observed.head { return false; }
      if |LeasedSlots(View())| >= run.maxEditors || slot !in slots || slots[slot].Some? { return false; }
      slots := slots[slot := Some(Lease(lease, owner))];
      if owner.OfPhase? { phases := phases[owner.key := phases[owner.key].(lease := Some(PhaseLease(slot, lease)))]; }
      return true;
    }

    method ReleaseSlot(owner: Owner, slot: SlotId, lease: Reference) returns (ok: bool)
      modifies this
      ensures var spec := SlotEvents.ReleaseSlot(old(View()), owner, slot, lease); ok == spec.Accepted? && (ok ==> View() == spec.m)
    {
      if slot !in slots || slots[slot] != Some(Lease(lease, owner)) { return false; }
      if owner.OfPhase? && owner.key in phases && ActivePhase(phases[owner.key].launch) { return false; }
      slots := slots[slot := None];
      return true;
    }

    // ----- delivery of a ticket -----

    /** Everything a dispatch requires of its ticket and of the run. */
    method PairAllowed(t: TicketId) returns (ok: bool)
      ensures ok == (&& run.live && t in tickets && tickets[t].status.ReadyForImplementation? && ScopeAuthorized(tickets[t])
                     && ScheduleSatisfied(View(), t) && |RunningPairs(View())| < run.maxPairs && ContractSettled(tickets[t]))
    {
      hide ScheduleSatisfied, ScopeAuthorized, ContractSettled, RunningPairs;
      if !run.live || t !in tickets || !tickets[t].status.ReadyForImplementation? || !ScopeAuthorized(tickets[t]) { return false; }
      ok := ExecutionScheduleSatisfied(t);
      if !ok || |RunningPairs(View())| >= run.maxPairs || !ContractSettled(tickets[t]) { return false; }
    }

    method AddPair(t: TicketId, implementation: PhaseKey, acceptance: PhaseKey, fork: Fork, implementationNeeds: Requirement, acceptanceNeeds: Requirement) returns (ok: bool)
      requires implementation != acceptance
      modifies `phases
      ensures ok == (implementation !in old(phases) && acceptance !in old(phases))
      ensures ok ==> View() == WithPhase(
        WithPhase(old(View()), implementation, NewPhase(Some(t), Implementation, implementationNeeds, Place(Some(fork.implementation), fork.commit))),
        acceptance, NewPhase(Some(t), AcceptanceTests, acceptanceNeeds, Place(Some(fork.acceptance), fork.commit)))
    {
      ok := AddPhase(implementation, NewPhase(Some(t), Implementation, implementationNeeds, Place(Some(fork.implementation), fork.commit)));
      if !ok { return false; }
      ok := AddPhase(acceptance, NewPhase(Some(t), AcceptanceTests, acceptanceNeeds, Place(Some(fork.acceptance), fork.commit)));
    }

    method DispatchPair(t: TicketId, implementation: PhaseKey, acceptance: PhaseKey, fork: Fork, implementationNeeds: Requirement, acceptanceNeeds: Requirement, verificationNeeds: Requirement) returns (ok: bool)
      modifies this
      ensures var spec := DeliveryEvents.DispatchPair(old(View()), t, implementation, acceptance, fork, implementationNeeds, acceptanceNeeds, verificationNeeds); ok == spec.Accepted? && (ok ==> View() == spec.m)
    {
      hide ScheduleSatisfied, ScopeAuthorized, ContractSettled, RequirementAllowed, RunningPairs, Order, DependencyGraph;
      ok := PairAllowed(t);
      if !ok || implementation == acceptance || fork.implementation == fork.acceptance { return false; }
      if !RequirementAllowed(View(), implementationNeeds) || !RequirementAllowed(View(), acceptanceNeeds) { return false; }
      if !RequirementAllowed(View(), verificationNeeds) { return false; }
      ok := AddPair(t, implementation, acceptance, fork, implementationNeeds, acceptanceNeeds);
      if !ok { return false; }
      var execution := Execution(implementation, acceptance, verificationNeeds, fork.implementation);
      tickets := tickets[t := tickets[t].(records := tickets[t].records.(execution := Some(execution)), facts := tickets[t].facts.(integrated := None), status := ExecutionPairRunning)];
    }

    method IntegratePair(t: TicketId, head: Commit) returns (ok: bool)
      modifies this
      ensures var spec := DeliveryEvents.IntegratePair(old(View()), t, head); ok == spec.Accepted? && (ok ==> View() == spec.m)
    {
      if t !in tickets || !tickets[t].status.AwaitingExecutionIntegration? || tickets[t].records.execution.None? { return false; }
      if !PairReported(View(), tickets[t].records.execution.value) { return false; }
      tickets := tickets[t := tickets[t].(facts := tickets[t].facts.(integrated := Some(head)))];
      SetStatus(t, AwaitingVerification);
      return true;
    }

    method RecordVerification(t: TicketId, passed: bool) returns (ok: bool)
      modifies this
      ensures var spec := DeliveryEvents.RecordVerification(old(View()), t, passed); ok == spec.Accepted? && (ok ==> View() == spec.m)
    {
      if t !in tickets || !(tickets[t].status.AwaitingVerification? || tickets[t].status.AwaitingRemediationVerification?) { return false; }
      if tickets[t].records.execution.None? { return false; }
      if run.editors && !HeadKnown(View(), t) { return false; }
      if run.editors && !tickets[t].records.execution.value.verification.NoEditor? && !HoldsSlot(View(), OfVerification(t)) { return false; }
      SetStatus(t, if passed then FunctionalReady else VerificationFailed);
      return true;
    }

    method ClassifyFailure(t: TicketId, next: NextStep) returns (ok: bool)
      modifies this
      ensures var spec := DeliveryEvents.ClassifyFailure(old(View()), t, next); ok == spec.Accepted? && (ok ==> View() == spec.m)
    {
      if t !in tickets || !tickets[t].status.VerificationFailed? { return false; }
      tickets := tickets[t := tickets[t].(facts := tickets[t].facts.(blockedByFailure := next.Block?))];
      match next {
        case Remediate => SetStatus(t, NeedsRemediation);
        case Retry => SetStatus(t, AwaitingVerification);
        case Block => SetStatus(t, TicketBlocked);
      }
      return true;
    }

    method IsolateContinuation(t: TicketId, released: TicketId, head: Commit) returns (ok: bool)
      modifies this
      ensures var spec := DeliveryEvents.IsolateContinuation(old(View()), t, released, head); ok == spec.Accepted? && (ok ==> View() == spec.m)
    {
      if t !in tickets || !tickets[t].status.TicketBlocked? || !consolidated || tickets[t].records.isolatedFor.Some? { return false; }
      if released == t || released !in tickets || !tickets[released].status.ReadyForImplementation? { return false; }
      if train != Some(head) || !tickets[t].facts.blockedByFailure { return false; }
      if exists p :: p in phases && ActivePhase(phases[p].launch) { return false; }
      if t in tickets[released].records.plan.dependencies || !DependenciesSatisfied(View(), released) { return false; }
      tickets := tickets[t := tickets[t].(records := tickets[t].records.(isolatedFor := Some(released)))];
      return true;
    }

    method DispatchReview(t: TicketId, p: PhaseKey, initial: bool, requirement: Requirement, base: Commit) returns (ok: bool)
      modifies this
      ensures var spec := DeliveryEvents.DispatchReview(old(View()), t, p, initial, requirement, base); ok == spec.Accepted? && (ok ==> View() == spec.m)
    {
      if t !in tickets || !tickets[t].status.FunctionalReady? || !RequirementAllowed(View(), requirement) { return false; }
      if initial && tickets[t].facts.reviewed { return false; }
      if !initial && (!tickets[t].facts.reviewed || tickets[t].budget.cycles == 0) { return false; }
      ok := AddPhase(p, NewPhase(Some(t), Review, requirement, Detached(base)));
      if !ok { return false; }
      SetStatus(t, AutoReview);
    }

    method RecordReview(p: PhaseKey, report: Report) returns (ok: bool)
      modifies this
      ensures var spec := DeliveryEvents.RecordReview(old(View()), p, report); ok == spec.Accepted? && (ok ==> View() == spec.m)
    {
      if p !in phases { return false; }
      if !phases[p].launch.Completed? {
        ok := CompletePhase(p, report);
        if !ok { return false; }
      }
      var t := phases[p].ticket;
      if !phases[p].kind.Review? || t.None? || t.value !in tickets || tickets[t.value].facts.analysis.None? { return false; }
      tickets := tickets[t.value := tickets[t.value].(facts := tickets[t.value].facts.(reviewed := true))];
      SetStatus(t.value, AwaitingFindingReconciliation);
      return true;
    }

    method ReconcileFindings(t: TicketId, blocking: bool, rule: GateRule) returns (ok: bool)
      modifies this
      ensures var spec := DeliveryEvents.ReconcileFindings(old(View()), t, blocking, rule); ok == spec.Accepted? && (ok ==> View() == spec.m)
    {
      if t !in tickets || !tickets[t].status.AwaitingFindingReconciliation? { return false; }
      if blocking {
        SetStatus(t, NeedsRemediation);
      } else if rule.gated {
        SetStatus(t, AwaitingPreMergeApproval);
        ok := CreateGate(rule.gate, Gate(PreMergeGate, t, None, None, NotResuming, Unannounced));
        return;
      } else {
        SetStatus(t, ReadyToMerge);
      }
      return true;
    }

    method GrantException(t: TicketId, g: GateId) returns (ok: bool)
      modifies this
      ensures var spec := DeliveryEvents.GrantException(old(View()), t, g); ok == spec.Accepted? && (ok ==> View() == spec.m)
    {
      if t !in tickets || !tickets[t].status.NeedsRemediation? || tickets[t].budget.cycles < AUTOMATIC_CYCLES { return false; }
      if tickets[t].budget.exception.Granted? { return false; }
      if g !in gates || !gates[g].kind.InputGate? || gates[g].ticket != t { return false; }
      if gates[g].prior != Some(NeedsRemediation) || !gates[g].status.Provided? { return false; }
      if tickets[t].budget.exception.Consumed? {
        tickets := tickets[t := tickets[t].(budget := tickets[t].budget.(history := tickets[t].budget.history + 1))];
      }
      tickets := tickets[t := tickets[t].(budget := tickets[t].budget.(exception := Granted))];
      return true;
    }

    method DispatchRemediation(t: TicketId, p: PhaseKey, requirement: Requirement, start: Place) returns (ok: bool)
      modifies this
      ensures var spec := DeliveryEvents.DispatchRemediation(old(View()), t, p, requirement, start); ok == spec.Accepted? && (ok ==> View() == spec.m)
    {
      hide ScopeAuthorized, RequirementAllowed, OnePhase;
      if t !in tickets || !tickets[t].status.NeedsRemediation? || !ScopeAuthorized(tickets[t]) || !RequirementAllowed(View(), requirement) { return false; }
      if start.branch.None? { return false; }
      var cycles := tickets[t].budget.cycles;
      var limit := if tickets[t].budget.exception.Granted? then cycles + 1 else AUTOMATIC_CYCLES;
      if cycles >= limit || tickets[t].records.execution.None? { return false; }
      var implementation := tickets[t].records.execution.value.implementation;
      if implementation !in phases { return false; }
      var forbidden := phases[implementation].thread;
      ok := AddPhase(p, NewPhase(Some(t), Remediation, requirement, start));
      if !ok { return false; }
      phases := phases[p := phases[p].(forbiddenThread := forbidden)];
      assert phases == old(phases)[p := NewPhase(Some(t), Remediation, requirement, start).(forbiddenThread := forbidden)];
      var budget := tickets[t].budget.(cycles := cycles + 1);
      if cycles >= AUTOMATIC_CYCLES { budget := budget.(exception := Consumed); }
      tickets := tickets[t := tickets[t].(budget := budget, status := Fixing)];
    }

    method MergeTicket(t: TicketId, commit: Commit, head: Commit) returns (ok: bool)
      modifies this
      ensures var spec := DeliveryEvents.MergeTicket(old(View()), t, commit, head); ok == spec.Accepted? && (ok ==> View() == spec.m)
    {
      if t !in tickets || !tickets[t].status.ReadyToMerge? { return false; }
      tickets := tickets[t := tickets[t].(records := tickets[t].records.(merge := Some(commit)))];
      SetStatus(t, MergedIntoTrain);
      train := Some(head);
      return true;
    }

    // ----- consolidation -----

    /** Writes one plan, or refuses it. */
    method WritePlan(t: TicketId, plans: map<TicketId, Plan>) returns (ok: bool)
      requires t in tickets
      modifies `tickets
      ensures ok == (t in plans && ValidPlan(old(tickets).Keys, t, plans[t]))
      ensures tickets == if ok then old(tickets)[t := Planned(old(tickets[t]), plans[t])] else old(tickets)
    {
      if t !in plans { return false; }
      var plan := plans[t];
      if exists d :: d in plan.dependencies && (d !in tickets || d == t) { return false; }
      if plan.group.Some? && plan.group.value == "" { return false; }
      tickets := tickets[t := tickets[t].(records := tickets[t].records.(plan := plan))];
      if tickets[t].status.Analyzed? { tickets := tickets[t := tickets[t].(status := ReadyForImplementation)]; }
      return true;
    }

    method WritePlans(plans: map<TicketId, Plan>) returns (ok: bool)
      modifies `tickets
      ensures ok == (old(tickets).Keys <= plans.Keys && forall t :: t in old(tickets) ==> ValidPlan(old(tickets).Keys, t, plans[t]))
      ensures ok ==> tickets == map t | t in old(tickets) :: Planned(old(tickets)[t], plans[t])
    {
      hide ValidPlan, Planned;
      var todo := tickets.Keys;
      while todo != {}
        invariant todo <= tickets.Keys == old(tickets).Keys
        invariant forall t :: t in tickets && t !in todo ==>
          t in plans && ValidPlan(old(tickets).Keys, t, plans[t]) && tickets[t] == Planned(old(tickets)[t], plans[t])
        invariant forall t :: t in todo ==> tickets[t] == old(tickets)[t]
        decreases |todo|
      {
        var t :| t in todo;
        ok := WritePlan(t, plans);
        if !ok { return false; }
        todo := todo - {t};
      }
      return true;
    }

    method GroupsCollisionFree(plans: map<TicketId, Plan>) returns (ok: bool)
      requires tickets.Keys <= plans.Keys
      ensures ok == CollisionFree(tickets.Keys, plans)
    {
      var left := tickets.Keys;
      while left != {}
        invariant left <= tickets.Keys
        invariant forall a, b :: a in tickets && b in tickets && a !in left && a != b ==> MayShareGroup(plans[a], plans[b])
        decreases |left|
      {
        var a :| a in left;
        left := left - {a};
        var others := tickets.Keys - {a};
        while others != {}
          invariant others <= tickets.Keys - {a}
          invariant forall b :: b in tickets && b != a && b !in others ==> MayShareGroup(plans[a], plans[b])
          decreases |others|
        {
          var b :| b in others;
          others := others - {b};
          if !MayShareGroup(plans[a], plans[b]) { return false; }
        }
      }
      return true;
    }

    method Consolidate(schedule: seq<TicketId>, plans: map<TicketId, Plan>) returns (ok: bool)
      modifies this
      ensures var spec := PlanningEvents.Consolidate(old(View()), schedule, plans); ok == spec.Accepted? && (ok ==> View() == spec.m)
    {
      hide ValidPlan, CollisionFree, Order, DependencyGraph, ReadyToConsolidate;
      if consolidated || !(forall t :: t in tickets ==> ReadyToConsolidate(tickets[t])) { return false; }
      if Elements(schedule) != tickets.Keys { return false; }
      order := schedule;
      ok := WritePlans(plans);
      if !ok { return false; }
      assert tickets.Keys == old(tickets).Keys;
      ok := GroupsCollisionFree(plans);
      if !ok { return false; }
      assert View() == WithPlans(old(View()), schedule, plans);
      var o := OrderedExecutionTickets(DependencyGraph(View()), order);
      if !o.Ordered? { return false; }
      order := o.tickets;
      consolidated := true;
      return true;
    }

    // ----- finalization -----

    method RecordDryRunEvidence() returns (ok: bool)
      modifies this
      ensures var spec := FinalizationEvents.RecordDryRunEvidence(old(View())); ok == spec.Accepted? && (ok ==> View() == spec.m)
    {
      if run.live || !consolidated || exists g :: g in gates && (gates[g].status.Unannounced? || gates[g].status.Announced?) { return false; }
      if exists t :: t in tickets && tickets[t].facts.analysis.None? { return false; }
      tickets := map t | t in tickets :: tickets[t].(status := AnalysisReported);
      final := FRESH_FINALIZATION.(status := ReadyForCompletion, records := NO_FINAL_RECORDS.(evidence := true));
      return true;
    }

    method StartFinalization(requirement: Requirement) returns (ok: bool)
      modifies this
      ensures var spec := FinalizationEvents.StartFinalization(old(View()), requirement); ok == spec.Accepted? && (ok ==> View() == spec.m)
    {
      hide NoActivePhase, TerminalTicket;
      if !NoActivePhase(View()) || !(forall t :: t in tickets ==> TerminalTicket(tickets[t].status)) { return false; }
      if !exists t :: t in tickets && tickets[t].status.MergedIntoTrain? { return false; }
      if run.editors { final := final.(requirement := Some(requirement)); }
      final := final.(status := Started);
      return true;
    }

    method RecordFinalPr(head: Commit, draft: bool) returns (ok: bool)
      modifies this
      ensures var spec := FinalizationEvents.RecordFinalPr(old(View()), head, draft); ok == spec.Accepted? && (ok ==> View() == spec.m)
    {
      if !(final.status.Started? || final.status.AwaitingFinalPrUpdate?) { return false; }
      if final.status.AwaitingFinalPrUpdate? {
        if final.repair.merge != Some(head) || (final.pr.Some? && final.pr.value.head == head) { return false; }
        final := final.(records := NO_FINAL_RECORDS);
      }
      final := final.(pr := Some(FinalPr(head, draft)), status := FinalPrOpen);
      return true;
    }

    method RecordRemediationPr(head: Commit) returns (ok: bool)
      modifies this
      ensures var spec := FinalizationEvents.RecordRemediationPr(old(View()), head); ok == spec.Accepted? && (ok ==> View() == spec.m)
    {
      if !final.status.AwaitingFinalPrUpdate? || !HasCompletedFinalRemediation(View()) { return false; }
      final := final.(repair := final.repair.(pr := Some(head), merge := None));
      return true;
    }

    method MergeRemediation(head: Commit, merge: Commit) returns (ok: bool)
      modifies this
      ensures var spec := FinalizationEvents.MergeRemediation(old(View()), head, merge); ok == spec.Accepted? && (ok ==> View() == spec.m)
    {
      if !final.status.AwaitingFinalPrUpdate? || final.repair.pr != Some(head) || final.repair.merge.Some? { return false; }
      final := final.(repair := final.repair.(merge := Some(merge)));
      train := Some(merge);
      return true;
    }

    method RemediateMetadata(p: PhaseKey, head: Commit) returns (ok: bool)
      modifies this
      ensures var spec := FinalizationEvents.RemediateMetadata(old(View()), p, head); ok == spec.Accepted? && (ok ==> View() == spec.m)
    {
      if !final.status.AwaitingFinalPrUpdate? { return false; }
      if p !in phases || !phases[p].kind.FinalRemediation? || !phases[p].launch.Completed? { return false; }
      if final.pr.None? || final.pr.value.head != head || phases[p].base.head != head { return false; }
      final := final.(records := NO_FINAL_RECORDS.(verification := final.records.verification));
      final := final.(status := FinalPrOpen);
      return true;
    }

    method MarkFinalPrReady(head: Commit) returns (ok: bool)
      modifies this
      ensures var spec := FinalizationEvents.MarkFinalPrReady(old(View()), head); ok == spec.Accepted? && (ok ==> View() == spec.m)
    {
      if !final.status.FinalPrOpen? || final.pr.None? || final.pr.value.head != head { return false; }
      final := final.(pr := Some(final.pr.value.(draft := false)));
      return true;
    }

    method RecordFinalVerification(head: Commit, passed: bool) returns (ok: bool)
      modifies this
      ensures var spec := FinalizationEvents.RecordFinalVerification(old(View()), head, passed); ok == spec.Accepted? && (ok ==> View() == spec.m)
    {
      if final.pr.None? { return false; }
      if run.editors && final.requirement != Some(NoEditor) && !HoldsSlot(View(), OfFinalVerification) { return false; }
      if final.pr.value.head != head { return false; }
      final := final.(records := final.records.(verification := Some(FinalVerification(head, passed))));
      if !passed { final := final.(status := FinalVerificationFailed); }
      return true;
    }

    method ClassifyFinalFailure(defectInTests: bool, next: NextStep) returns (ok: bool)
      modifies this
      ensures var spec := FinalizationEvents.ClassifyFinalFailure(old(View()), defectInTests, next); ok == spec.Accepted? && (ok ==> View() == spec.m)
    {
      if !final.status.FinalVerificationFailed? { return false; }
      final := final.(repair := final.repair.(testDefect := defectInTests));
      match next {
        case Remediate => final := final.(status := NeedsFinalRemediation);
        case Retry =>
          final := final.(records := final.records.(verification := None));
          final := final.(status := FinalPrOpen);
        case Block => final := final.(status := FinalBlocked);
      }
      return true;
    }

    method DispatchFinalReview(p: PhaseKey, requirement: Requirement) returns (ok: bool)
      modifies this
      ensures var spec := FinalizationEvents.DispatchFinalReview(old(View()), p, requirement); ok == spec.Accepted? && (ok ==> View() == spec.m)
    {
      if final.pr.None? || final.pr.value.draft || final.records.verification.None? || !final.records.verification.value.passed { return false; }
      if !exists t :: t in tickets && tickets[t].status.MergedIntoTrain? { return false; }
      if !RequirementAllowed(View(), requirement) { return false; }
      ok := AddPhase(p, NewPhase(None, FinalReview, requirement, Detached(final.pr.value.head)));
      if !ok { return false; }
      final := final.(status := FinalPrReview);
    }

    method RecordFinalReview(p: PhaseKey, head: Commit, report: Report) returns (ok: bool)
      modifies this
      ensures var spec := FinalizationEvents.RecordFinalReview(old(View()), p, head, report); ok == spec.Accepted? && (ok ==> View() == spec.m)
    {
      if final.pr.None? || final.records.verification.None? || p !in phases { return false; }
      if !phases[p].launch.Completed? {
        ok := CompletePhase(p, report);
        if !ok { return false; }
      }
      if !phases[p].kind.FinalReview? || final.pr.value.head != head { return false; }
      final := final.(records := final.records.(review := Some(head)));
      final := final.(status := AwaitingFeedbackCollection);
      return true;
    }

    method StartFeedback(id: Reference, head: Commit) returns (ok: bool)
      modifies this
      ensures var spec := FinalizationEvents.StartFeedback(old(View()), id, head); ok == spec.Accepted? && (ok ==> View() == spec.m)
    {
      if !final.status.AwaitingFeedbackCollection? || final.pr.None? || final.pr.value.head != head { return false; }
      final := final.(records := final.records.(collection := Some(FeedbackWindow(id, head))));
      final := final.(status := FeedbackCollection);
      return true;
    }

    method RecordFeedback(id: Reference, window: Reference, head: Commit) returns (ok: bool)
      modifies this
      ensures var spec := FinalizationEvents.RecordFeedback(old(View()), id, window, head); ok == spec.Accepted? && (ok ==> View() == spec.m)
    {
      if !final.status.FeedbackCollection? || final.records.collection.None? || final.records.collection.value.id != window { return false; }
      if final.pr.None? || final.pr.value.head != head { return false; }
      final := final.(records := final.records.(snapshot := Some(FeedbackSnapshot(id, head))));
      final := final.(status := AwaitingFinalFindings);
      return true;
    }

    method ReconcileFinalFindings(head: Commit, snapshotId: Reference, blocking: bool) returns (ok: bool)
      modifies this
      ensures var spec := FinalizationEvents.ReconcileFinalFindings(old(View()), head, snapshotId, blocking); ok == spec.Accepted? && (ok ==> View() == spec.m)
    {
      if !final.status.AwaitingFinalFindings? || final.pr.None? || final.pr.value.head != head { return false; }
      if final.records.snapshot.None? || final.records.snapshot.value.id != snapshotId { return false; }
      final := final.(records := final.records.(ledger := Some(FindingLedger(head, snapshotId))));
      final := final.(status := if blocking then NeedsFinalRemediation else FinalReviewClean);
      return true;
    }

    method DispatchFinalRemediation(p: PhaseKey, base: Place, testOnly: bool, requirement: Requirement) returns (ok: bool)
      modifies this
      ensures var spec := FinalizationEvents.DispatchFinalRemediation(old(View()), p, base, testOnly, requirement); ok == spec.Accepted? && (ok ==> View() == spec.m)
    {
      if !final.status.NeedsFinalRemediation? { return false; }
      var cycles := final.repair.cycles;
      var extension := cycles == AUTOMATIC_CYCLES && final.repair.testDefect && testOnly;
      var limit := if extension then TEST_ONLY_FINAL_CYCLES else AUTOMATIC_CYCLES;
      if cycles >= limit || !RequirementAllowed(View(), requirement) || final.pr.None? || final.pr.value.head != base.head || base.branch.None? { return false; }
      ok := AddPhase(p, NewPhase(None, FinalRemediation, requirement, base));
      if !ok { return false; }
      final := final.(repair := final.repair.(pr := None, merge := None, cycles := cycles + 1));
      if extension { final := final.(repair := final.repair.(extensionUsed := true)); }
      final := final.(status := FinalFixing);
    }

    method RecordFinalEvidence(snapshotId: Reference) returns (ok: bool)
      modifies this
      ensures var spec := FinalizationEvents.RecordFinalEvidence(old(View()), snapshotId); ok == spec.Accepted? && (ok ==> View() == spec.m)
    {
      if !final.status.FinalReviewClean? || final.records.ledger.None? { return false; }
      if final.records.snapshot.None? || final.records.snapshot.value.id != snapshotId { return false; }
      final := final.(records := final.records.(evidence := true));
      final := final.(status := ReadyForCompletion);
      return true;
    }

    method SupersedeFinalReviews()
      modifies `phases
      ensures phases == map p | p in old(phases) :: Supersede(old(phases)[p])
    {
      var todo := phases.Keys;
      while todo != {}
        invariant todo <= phases.Keys == old(phases).Keys
        invariant forall p :: p in phases ==> phases[p] == if p in todo then old(phases)[p] else Supersede(old(phases)[p])
        decreases |todo|
      {
        var p :| p in todo;
        if phases[p].kind.FinalReview? && ActivePhase(phases[p].launch) { phases := phases[p := phases[p].(launch := Superseded)]; }
        todo := todo - {p};
      }
    }

    method DriftFinalHead(previous: Commit, head: Commit) returns (ok: bool)
      modifies this
      ensures var spec := FinalizationEvents.DriftFinalHead(old(View()), previous, head); ok == spec.Accepted? && (ok ==> View() == spec.m)
    {
      if !(final.status.FinalPrOpen? || final.status.FinalPrReview? || final.status.AwaitingFeedbackCollection? || final.status.FeedbackCollection?
           || final.status.AwaitingFinalFindings? || final.status.FinalReviewClean?) { return false; }
      if final.pr.None? || final.pr.value.head != previous || head == previous { return false; }
      if exists p :: p in phases && phases[p].kind.FinalReview? && phases[p].launch.Running? { return false; }
      SupersedeFinalReviews();
      final := final.(pr := Some(final.pr.value.(head := head)));
      train := Some(head);
      final := final.(records := NO_FINAL_RECORDS);
      final := final.(status := FinalPrOpen);
      return true;
    }

    method AuthorizeBaseMerge(head: Commit) returns (ok: bool)
      modifies this
      ensures var spec := FinalizationEvents.AuthorizeBaseMerge(old(View()), head); ok == spec.Accepted? && (ok ==> View() == spec.m)
    {
      if !(final.status.ReadyForCompletion? || final.status.FinalCompleted?) || final.pr.None? || final.pr.value.head != head { return false; }
      if !final.baseMerge.NotAuthorized? { return false; }
      final := final.(baseMerge := Authorized(head));
      return true;
    }

    method MergeIntoBase(head: Commit) returns (ok: bool)
      modifies this
      ensures var spec := FinalizationEvents.MergeIntoBase(old(View()), head); ok == spec.Accepted? && (ok ==> View() == spec.m)
    {
      if final.baseMerge != Authorized(head) || final.pr.None? || final.pr.value.head != head { return false; }
      final := final.(baseMerge := AuthorizationConsumed(head));
      final := final.(status := DeliveredInBase);
      return true;
    }

    method CompleteRun() returns (ok: bool)
      modifies this
      ensures var spec := Events.CompleteRun(old(View())); ok == spec.Accepted? && (ok ==> View() == spec.m)
    {
      if !Completable(View()) { return false; }
      completed := true;
      final := final.(status := FinalCompleted);
      return true;
    }

    // ----- handle_event -----

    method HandlePlanning(a: PlanningAction) returns (ok: bool)
      modifies this
      ensures var spec := PlanningEvents.HandlePlanning(old(View()), a); ok == spec.Accepted? && (ok ==> View() == spec.m)
    {
      hide PlanningEvents.RecordTriage, PlanningEvents.RecordAnalysis, PlanningEvents.DecideSpecification, PlanningEvents.RecordRouteValidation, PlanningEvents.ReconcileRouteValidation, PlanningEvents.Consolidate, PlanningEvents.ReconcileReadiness, PlanningEvents.CollectContractResult, PlanningEvents.RecordContractValidation, PlanningEvents.AmendContract;
      match a {
        case TicketTriaged(t, p) => ok := RecordTriage(t, p);
        case AnalysisRecorded(t, p, needs, approval, covered, rule) => ok := RecordAnalysis(t, p, needs, approval, covered, rule);
        case SpecificationDecided(t, g, needs, covered, rule) => ok := DecideSpecification(t, g, needs, covered, rule);
        case RouteValidationRecorded(t, p, passed, rule) => ok := RecordRouteValidation(t, p, passed, rule);
        case RouteValidationReconciled(t) => ok := ReconcileRouteValidation(t);
        case DependenciesConsolidated(schedule, plans) => ok := Consolidate(schedule, plans);
        case ReadinessReconciled(t) => ok := ReconcileReadiness(t);
        case ContractResultCollected(t, p, passed, report) => ok := CollectContractResult(t, p, passed, report);
        case ContractValidationRecorded(t, p, passed) => ok := RecordContractValidation(t, p, passed);
        case ContractAmended(t) => ok := AmendContract(t);
      }
    }

    method HandleGates(a: GatesAction) returns (ok: bool)
      modifies this
      ensures var spec := GateEvents.HandleGates(old(View()), a); ok == spec.Accepted? && (ok ==> View() == spec.m)
    {
      hide GateEvents.RequestInput, GateEvents.AnnounceGate, GateEvents.ResolveGate, GateEvents.ProvideInput, GateEvents.ResumePhase;
      match a {
        case InputRequested(t, g, phase) => ok := RequestInput(t, g, phase);
        case GateAnnounced(g) => ok := AnnounceGate(g);
        case GateResolved(g, approved) => ok := ResolveGate(g, approved);
        case InputProvided(g) => ok := ProvideInput(g);
        case PhaseResumed(p, thread, g) => ok := ResumePhase(p, thread, g);
      }
    }

    method HandlePhases(a: PhasesAction) returns (ok: bool)
      modifies this
      ensures var spec := PhaseEvents.HandlePhases(old(View()), a); ok == spec.Accepted? && (ok ==> View() == spec.m)
    {
      hide PhaseEvents.DispatchPhase, PhaseEvents.ObserveLaunch, PhaseEvents.RecordCompletion, PhaseEvents.TerminatePhase, PhaseEvents.ReclassifyAcceptance;
      match a {
        case PhaseDispatched(p, kind, ticket, requirement, base) => ok := DispatchPhase(p, kind, ticket, requirement, base);
        case LaunchObserved(p, launch, thread, client, reconciled) => ok := ObserveLaunch(p, launch, thread, client, reconciled);
        case PhaseCompleted(p, report) => ok := RecordCompletion(p, report);
        case PhaseTerminated(p, outcome, commit) => ok := TerminatePhase(p, outcome, commit);
        case AcceptanceReclassified(t, p) => ok := ReclassifyAcceptance(t, p);
      }
    }

    method HandleSlots(a: SlotsAction) returns (ok: bool)
      modifies this
      ensures var spec := SlotEvents.HandleSlots(old(View()), a); ok == spec.Accepted? && (ok ==> View() == spec.m)
    {
      hide SlotEvents.ConfigureEnvironment, SlotEvents.AcquireSlot, SlotEvents.ReleaseSlot;
      match a {
        case EnvironmentConfigured(slotIds) => ok := ConfigureEnvironment(slotIds);
        case SlotAcquired(owner, slot, lease, requirement, expected, observed) => ok := AcquireSlot(owner, slot, lease, requirement, expected, observed);
        case SlotReleased(owner, slot, lease) => ok := ReleaseSlot(owner, slot, lease);
      }
    }

    method HandleDelivery(a: DeliveryAction) returns (ok: bool)
      modifies this
      ensures var spec := DeliveryEvents.HandleDelivery(old(View()), a); ok == spec.Accepted? && (ok ==> View() == spec.m)
    {
      hide DeliveryEvents.DispatchPair, DeliveryEvents.IntegratePair, DeliveryEvents.RecordVerification, DeliveryEvents.ClassifyFailure, DeliveryEvents.IsolateContinuation, DeliveryEvents.DispatchReview, DeliveryEvents.RecordReview, DeliveryEvents.ReconcileFindings, DeliveryEvents.GrantException, DeliveryEvents.DispatchRemediation, DeliveryEvents.MergeTicket;
      match a {
        case PairDispatched(t, i, acc, fork, ni, na, nv) => ok := DispatchPair(t, i, acc, fork, ni, na, nv);
        case PairIntegrated(t, head) => ok := IntegratePair(t, head);
        case VerificationRecorded(t, passed) => ok := RecordVerification(t, passed);
        case FailureClassified(t, next) => ok := ClassifyFailure(t, next);
        case ContinuationIsolated(t, released, head) => ok := IsolateContinuation(t, released, head);
        case ReviewDispatched(t, p, initial, requirement, base) => ok := DispatchReview(t, p, initial, requirement, base);
        case ReviewRecorded(p, report) => ok := RecordReview(p, report);
        case FindingsReconciled(t, blocking, rule) => ok := ReconcileFindings(t, blocking, rule);
        case ExceptionGranted(t, g) => ok := GrantException(t, g);
        case RemediationDispatched(t, p, requirement, start) => ok := DispatchRemediation(t, p, requirement, start);
        case TicketMerged(t, commit, head) => ok := MergeTicket(t, commit, head);
      }
    }

    method HandleOpening(a: FinalizationAction) returns (ok: bool)
      requires OpensFinalPr(a)
      modifies this
      ensures var spec := FinalizationEvents.HandleFinalization(old(View()), a); ok == spec.Accepted? && (ok ==> View() == spec.m)
    {
      hide FinalizationEvents.RecordDryRunEvidence, FinalizationEvents.StartFinalization, FinalizationEvents.RecordFinalPr,
           FinalizationEvents.RecordRemediationPr, FinalizationEvents.MergeRemediation, FinalizationEvents.RemediateMetadata,
           FinalizationEvents.MarkFinalPrReady, FinalizationEvents.RecordFinalVerification, FinalizationEvents.ClassifyFinalFailure;
      match a {
        case DryRunEvidence => ok := RecordDryRunEvidence();
        case FinalizationStarted(requirement) => ok := StartFinalization(requirement);
        case FinalPrRecorded(head, draft) => ok := RecordFinalPr(head, draft);
        case FinalRemediationPrRecorded(head) => ok := RecordRemediationPr(head);
        case FinalRemediationMerged(head, merge) => ok := MergeRemediation(head, merge);
        case FinalMetadataRemediated(p, head) => ok := RemediateMetadata(p, head);
        case FinalPrReady(head) => ok := MarkFinalPrReady(head);
        case FinalVerificationRecorded(head, passed) => ok := RecordFinalVerification(head, passed);
        case FinalFailureClassified(defect, next) => ok := ClassifyFinalFailure(defect, next);
      }
    }

    method HandleFinalization(a: FinalizationAction) returns (ok: bool)
      modifies this
      ensures var spec := FinalizationEvents.HandleFinalization(old(View()), a); ok == spec.Accepted? && (ok ==> View() == spec.m)
    {
      hide FinalizationEvents.DispatchFinalReview, FinalizationEvents.RecordFinalReview, FinalizationEvents.StartFeedback,
           FinalizationEvents.RecordFeedback, FinalizationEvents.ReconcileFinalFindings, FinalizationEvents.DispatchFinalRemediation,
           FinalizationEvents.RecordFinalEvidence, FinalizationEvents.DriftFinalHead, FinalizationEvents.AuthorizeBaseMerge,
           FinalizationEvents.MergeIntoBase;
      if OpensFinalPr(a) {
        hide FinalizationEvents.HandleFinalization;
        ok := HandleOpening(a);
        return;
      }
      match a {
        case FinalReviewDispatched(p, requirement) => ok := DispatchFinalReview(p, requirement);
        case FinalReviewRecorded(p, head, report) => ok := RecordFinalReview(p, head, report);
        case FeedbackStarted(id, head) => ok := StartFeedback(id, head);
        case FeedbackRecorded(id, window, head) => ok := RecordFeedback(id, window, head);
        case FinalFindingsReconciled(head, snapshotId, blocking) => ok := ReconcileFinalFindings(head, snapshotId, blocking);
        case FinalRemediationDispatched(p, base, testOnly, requirement) => ok := DispatchFinalRemediation(p, base, testOnly, requirement);
        case FinalEvidenceRecorded(snapshotId) => ok := RecordFinalEvidence(snapshotId);
        case FinalHeadDrifted(previous, head) => ok := DriftFinalHead(previous, head);
        case BaseMergeAuthorized(head) => ok := AuthorizeBaseMerge(head);
        case BaseMerged(head) => ok := MergeIntoBase(head);
      }
    }

    method ChangeManifest(e: Event) returns (ok: bool)
      modifies this
      ensures var spec := Step(old(View()), e); ok == spec.Accepted? && (ok ==> View() == spec.m)
    {
      hide PlanningEvents.HandlePlanning, GateEvents.HandleGates, PhaseEvents.HandlePhases, SlotEvents.HandleSlots,
           DeliveryEvents.HandleDelivery, FinalizationEvents.HandleFinalization, Events.CompleteRun;
      if !e.evidence { return false; }
      if e.action.RuntimeObserved? { return true; }
      if anomalies > 0 && !e.action.CostAnomalyResolved? { return false; }
      match e.action {
        case Planning(a) => ok := HandlePlanning(a);
        case Gating(a) => ok := HandleGates(a);
        case Phasing(a) => ok := HandlePhases(a);
        case Slotting(a) => ok := HandleSlots(a);
        case Delivering(a) => ok := HandleDelivery(a);
        case Finalizing(a) => ok := HandleFinalization(a);
        case CostAnomalyResolved =>
          if anomalies == 0 { return false; }
          anomalies := anomalies - 1;
          ok := true;
        case RunCompleted => ok := CompleteRun();
        case RuntimeObserved | OtherRecorded => ok := true;
      }
    }

    /** One event, handled in place: refused exactly when the specification refuses it, and otherwise
        the invariants of the whole run are kept. */
    method HandleEvent(e: Event) returns (ok: bool)
      modifies this
      ensures var spec := Step(old(View()), e); ok == spec.Accepted? && (ok ==> View() == spec.m)
      ensures ok && Runs.Sound(old(View())) ==> Runs.Sound(View())
      ensures ok && run.live && FinalizationCoherence.Coherent(old(final)) && !Runs.Restarts(old(View()), e) ==>
                FinalizationCoherence.Coherent(final)
    {
      hide Step, Runs.Sound, FinalizationCoherence.Coherent, Runs.Restarts;
      ghost var before := View();
      ok := ChangeManifest(e);
      if ok {
        if Runs.Sound(before) { Runs.StepIsSound(before, e); }
        if run.live && FinalizationCoherence.Coherent(before.final) && !Runs.Restarts(before, e) { Runs.CoherentStep(before, e); }
      }
    }
  }
}
