/** What holds at every moment of every run, from the manifest that `bootstrap` writes. */
module Runs {
  import opened Prelude
  import opened Manifest
  import opened Events
  import opened HumanGates
  import opened EditorPool
  import opened SchedulerSafety
  import opened RemediationBudget
  import opened FinalizationCoherence
  import opened PhaseHistory

  ghost predicate Sound(m: Manifest) {
    OneAnnouncedGate(m) && PoolBounded(m) && Scheduled(m) && Budgeted(m) && Remembering(m)
  }

  lemma BootstrappedIsSound(m: Manifest)
    requires Bootstrapped(m)
    ensures Sound(m) && Coherent(m.final)
  {
    assert LeasedSlots(m) == {};
  }

  lemma StepIsSound(m: Manifest, e: Event)
    requires Sound(m) && Step(m, e).Accepted?
    ensures Sound(Step(m, e).m)
  {
    hide Handle, OneAnnouncedGate, PoolBounded, Scheduled, Budgeted, Remembering, GatesProgress;
    HumanGates.HandleKeeps(m, e.action);
    EditorPool.HandleKeeps(m, e.action);
    SchedulerSafety.HandleKeeps(m, e.action);
    RemediationBudget.HandleKeeps(m, e.action);
    PhaseHistory.HandleKeeps(m, e.action);
  }

  lemma {:induction false} RunIsSound(m: Manifest, events: seq<Event>)
    requires Sound(m) && Run(m, events).Accepted?
    ensures Sound(Run(m, events).m)
    decreases |events|
  {
    hide Step, Sound;
    if events != [] {
      StepIsSound(m, events[0]);
      RunIsSound(Step(m, events[0]).m, events[1..]);
    }
  }

  /** Everything the controller promises about itself, after any accepted events: one announced
      gate, bounded editors, exact budgets, dependencies merged before dispatch, no dispatch ahead of
      an earlier unmerged ticket without proof or audit, and overlapping tickets either proven
      parallel or separated by an audited isolation. */
  lemma EveryReachableManifestIsSound(m: Manifest, events: seq<Event>)
    requires Bootstrapped(m) && Run(m, events).Accepted?
    ensures var n := Run(m, events).m;
            && OneAnnouncedGate(n)
            && |EditorPhases(n)| <= |LeasedSlots(n)| <= n.run.maxEditors
            && (forall t :: t in n.tickets ==> BudgetExact(n.tickets[t].budget)) && FinalBudgetExact(n.final)
            && DependenciesMerged(n.tickets) && OvertakingJustified(n.tickets, n.order)
            && forall a, b :: InFlight(n, a) && InFlight(n, b) && a != b ==>
                 || ParallelProven(n.tickets[a].records.plan, n.tickets[b].records.plan)
                 || n.tickets[a].records.isolatedFor == Some(b) || n.tickets[b].records.isolatedFor == Some(a)
  {
    hide Run, OneAnnouncedGate, PoolBounded, Scheduled, BudgetExact, FinalBudgetExact, ParallelProven, OvertakingJustified;
    BootstrappedIsSound(m);
    RunIsSound(m, events);
    var n := Run(m, events).m;
    EditorPhasesAreBounded(n);
    assert DependenciesMerged(n.tickets) && OvertakingJustified(n.tickets, n.order) by { ScheduledMeansDispatchesJustified(n); }
    forall a, b | InFlight(n, a) && InFlight(n, b) && a != b
      ensures || ParallelProven(n.tickets[a].records.plan, n.tickets[b].records.plan)
              || n.tickets[a].records.isolatedFor == Some(b) || n.tickets[b].records.isolatedFor == Some(a)
    {
      OverlapIsJustified(n, a, b);
    }
  }

  lemma ScheduledMeansDispatchesJustified(m: Manifest)
    requires Scheduled(m)
    ensures DependenciesMerged(m.tickets) && OvertakingJustified(m.tickets, m.order)
  {
  }

  // ----- live runs that start finalization once -----

  /** The event starts finalization over an existing final pull request. */
  predicate Restarts(m: Manifest, e: Event) {
    e.action.Finalizing? && StartsAgain(m, e.action.finalizing)
  }

  ghost predicate NeverRestarts(m: Manifest, events: seq<Event>)
    decreases |events|
  {
    events == [] || (!Restarts(m, events[0]) && (Step(m, events[0]).Accepted? ==> NeverRestarts(Step(m, events[0]).m, events[1..])))
  }

  /** What the planner has found before it proposes to start finalization: no checkpoint, phase or
      gate comes first, every ticket is terminal, and finalization has not been started. */
  predicate OffersStart(m: Manifest) {
    && !m.completed && m.anomalies == 0 && m.consolidated && NoActivePhase(m)
    && (forall g :: g in m.gates ==> !m.gates[g].status.Announced?)
    && (forall t :: t in m.tickets ==> TerminalTicket(m.tickets[t].status))
    && m.final.status.NotStarted?
  }

  /** Finalization is started only where the planner proposes it. */
  ghost predicate StartsAsPlanned(m: Manifest, events: seq<Event>)
    decreases |events|
  {
    events == []
    || ((events[0].action.Finalizing? && events[0].action.finalizing.FinalizationStarted? ==> OffersStart(m))
        && (Step(m, events[0]).Accepted? ==> StartsAsPlanned(Step(m, events[0]).m, events[1..])))
  }

  lemma OfferedStartIsFirst(m: Manifest, e: Event)
    requires Coherent(m.final) && (e.action.Finalizing? && e.action.finalizing.FinalizationStarted? ==> OffersStart(m))
    ensures !Restarts(m, e)
  {
    hide HeadsCoherent;
  }

  /** A live run that follows the planner starts finalization over no pull request. */
  lemma {:induction false} PlannedRunNeverRestarts(m: Manifest, events: seq<Event>)
    requires m.run.live && Coherent(m.final) && StartsAsPlanned(m, events)
    ensures NeverRestarts(m, events)
    decreases |events|
  {
    hide Step, Coherent, OffersStart, Restarts;
    if events != [] {
      OfferedStartIsFirst(m, events[0]);
      if Step(m, events[0]).Accepted? {
        CoherentStep(m, events[0]);
        PlannedRunNeverRestarts(Step(m, events[0]).m, events[1..]);
      }
    }
  }

  lemma {:induction false} LiveRunIsCoherent(m: Manifest, events: seq<Event>)
    requires m.run.live && Coherent(m.final) && NeverRestarts(m, events) && Run(m, events).Accepted?
    ensures Run(m, events).m.run.live && Coherent(Run(m, events).m.final)
    decreases |events|
  {
    hide Step, Coherent, StartsAgain;
    if events != [] {
      CoherentStep(m, events[0]);
      LiveRunIsCoherent(Step(m, events[0]).m, events[1..]);
    }
  }

  lemma CoherentStep(m: Manifest, e: Event)
    requires m.run.live && Coherent(m.final) && !Restarts(m, e) && Step(m, e).Accepted?
    ensures Step(m, e).m.run.live && Coherent(Step(m, e).m.final)
  {
    hide Handle, Coherent, StartsAgain;
    FinalizationCoherence.HandleKeeps(m, e.action);
    SettingsNeverChange(m, e.action);
  }

  lemma SettingsNeverChange(m: Manifest, a: Action)
    requires Handle(m, a).Accepted?
    ensures Handle(m, a).m.run == m.run
  {
    hide PlanningEvents.HandlePlanning, GateEvents.HandleGates, PhaseEvents.HandlePhases, SlotEvents.HandleSlots,
         DeliveryEvents.HandleDelivery, FinalizationEvents.HandleFinalization, CompleteRun;
  }

  /** When completion is awaited, none of the completion check's head clauses can fail. */
  lemma ReadyRunsAgreeOnTheHead(m: Manifest, events: seq<Event>)
    requires Bootstrapped(m) && m.run.live && NeverRestarts(m, events) && Run(m, events).Accepted?
    requires AwaitsCompletion(Run(m, events).m.final.status)
    ensures HeadsAgree(Run(m, events).m.final)
  {
    hide Run, NeverRestarts;
    BootstrappedIsSound(m);
    LiveRunIsCoherent(m, events);
    ReadyMeansHeadsAgree(Run(m, events).m.final);
  }

  /** In a run that follows the planner, awaiting completion means that all heads agree. */
  lemma PlannedRunsAgreeOnTheHead(m: Manifest, events: seq<Event>)
    requires Bootstrapped(m) && m.run.live && StartsAsPlanned(m, events) && Run(m, events).Accepted?
    requires AwaitsCompletion(Run(m, events).m.final.status)
    ensures HeadsAgree(Run(m, events).m.final)
  {
    hide Run, NeverRestarts, StartsAsPlanned, HeadsAgree, Bootstrapped;
    assert Coherent(m.final) by { BootstrappedIsSound(m); }
    PlannedRunNeverRestarts(m, events);
    ReadyRunsAgreeOnTheHead(m, events);
  }
}
