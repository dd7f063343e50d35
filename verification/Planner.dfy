/** The execution-pair part of the planner (`_next_actions`) and its agreement with the event
    handler: what it offers together is accepted in any order, and it does not offer a launch twice
    without being asked to. */
module Planner {
  import opened Prelude
  import opened DependencyOrder
  import opened Manifest
  import opened PlanningEvents
  import opened GateEvents
  import opened PhaseEvents
  import opened SlotEvents
  import opened DeliveryEvents
  import opened FinalizationEvents
  import opened Events
  import Effects

  // ----- what is offered -----

  /** The planner's own test of one ticket; `analysis` decides whether a contract is needed. */
  predicate ReadyToDispatch(m: Manifest, t: TicketId) {
    t in m.tickets && m.tickets[t].status.ReadyForImplementation? && ScheduleSatisfied(m, t)
    && (m.tickets[t].facts.analysis.Some? && m.tickets[t].facts.analysis.value.needsContract ==> m.tickets[t].facts.contract.PassedVerdict?)
  }

  function ReadyPairs(m: Manifest, listing: seq<TicketId>): (r: seq<TicketId>)
    ensures forall t :: t in r <==> t in listing && ReadyToDispatch(m, t)
    ensures Distinct(listing) ==> Distinct(r)
  {
    if listing == [] then []
    else if ReadyToDispatch(m, listing[0]) then [listing[0]] + ReadyPairs(m, listing[1..])
    else ReadyPairs(m, listing[1..])
  }

  /** The pairs offered in one plan; `listing` is the stored order of the tickets. */
  function OfferedPairs(m: Manifest, listing: seq<TicketId>): (r: seq<TicketId>)
    ensures forall t :: t in r ==> t in listing && ReadyToDispatch(m, t)
    ensures r == [] || |RunningPairs(m)| + |r| <= m.run.maxPairs
    ensures Distinct(listing) ==> Distinct(r)
  {
    var ready := ReadyPairs(m, listing);
    var capacity := m.run.maxPairs - |RunningPairs(m)|;
    if capacity <= 0 then [] else if |ready| <= capacity then ready else ready[..capacity]
  }

  // ----- a batch is accepted in any order -----

  datatype Pair = Pair(t: TicketId, implementation: PhaseKey, acceptance: PhaseKey, fork: Fork,
                       implementationNeeds: Requirement, acceptanceNeeds: Requirement, verificationNeeds: Requirement)

  function DispatchOf(d: Pair): Event {
    Event(true, Delivering(PairDispatched(d.t, d.implementation, d.acceptance, d.fork, d.implementationNeeds, d.acceptanceNeeds, d.verificationNeeds)))
  }

  function DispatchesOf(ds: seq<Pair>): (r: seq<Event>)
    ensures |r| == |ds|
  {
    if ds == [] then [] else [DispatchOf(ds[0])] + DispatchesOf(ds[1..])
  }

  /** The handler asks for an analysis and an authorized scope, which the planner does not look at. */
  predicate Approved(m: Manifest, t: TicketId) {
    t in m.tickets && m.tickets[t].facts.analysis.Some? && ScopeAuthorized(m.tickets[t])
  }

  /** What the caller chooses for a pair: new phase keys and allowed editors. */
  predicate ChosenPair(m: Manifest, d: Pair) {
    && d.implementation != d.acceptance && d.fork.implementation != d.fork.acceptance && d.implementation !in m.phases && d.acceptance !in m.phases
    && RequirementAllowed(m, d.implementationNeeds) && RequirementAllowed(m, d.acceptanceNeeds) && RequirementAllowed(m, d.verificationNeeds)
  }

  predicate WellFormedPair(m: Manifest, d: Pair) {
    Approved(m, d.t) && ChosenPair(m, d)
  }

  /** Pairs of different tickets with different phases. */
  predicate Unrelated(d: Pair, e: Pair) {
    d.t != e.t && {d.implementation, d.acceptance} !! {e.implementation, e.acceptance}
  }

  ghost predicate Dispatchable(m: Manifest, ds: seq<Pair>) {
    && m.run.live && m.anomalies == 0
    && (ds == [] || |RunningPairs(m)| + |ds| <= m.run.maxPairs)
    && (forall d :: d in ds ==> WellFormedPair(m, d) && ReadyToDispatch(m, d.t))
    && forall i, j :: 0 <= i < j < |ds| ==> Unrelated(ds[i], ds[j])
  }

  lemma ReadyPairsAreProvenParallel(m: Manifest, a: TicketId, b: TicketId)
    requires ReadyToDispatch(m, a) && ReadyToDispatch(m, b) && a != b
    ensures ParallelProven(m.tickets[a].records.plan, m.tickets[b].records.plan)
  {
    OrderIsExact(DependencyGraph(m), m.order);
    var o := Order(DependencyGraph(m), m.order).tickets;
    assert a in Elements(o) && b in Elements(o);
    var i :| 0 <= i < |o| && o[i] == a;
    var j :| 0 <= j < |o| && o[j] == b;
    if i < j {
      assert a !in m.tickets[b].records.plan.dependencies;
      assert b !in o[..i];
      assert DoesNotHoldBack(m, b, o[i], b !in o[..i]);
    } else {
      assert b !in m.tickets[a].records.plan.dependencies;
      assert a !in o[..j];
      assert DoesNotHoldBack(m, a, o[j], a !in o[..j]);
    }
  }

  /** `n` is `m` after the pair `d` was dispatched. */
  predicate Dispatched(m: Manifest, n: Manifest, d: Pair) {
    d.t in m.tickets
    && n == m.(tickets := n.tickets, phases := n.phases)
    && n.tickets == m.tickets[d.t := WithPair(m.tickets[d.t], Execution(d.implementation, d.acceptance, d.verificationNeeds, d.fork.implementation))]
    && n.phases == m.phases[d.implementation := NewPhase(Some(d.t), Implementation, d.implementationNeeds, Place(Some(d.fork.implementation), d.fork.commit))]
                           [d.acceptance := NewPhase(Some(d.t), AcceptanceTests, d.acceptanceNeeds, Place(Some(d.fork.acceptance), d.fork.commit))]
  }

  lemma DispatchIsAccepted(m: Manifest, d: Pair)
    requires m.run.live && m.anomalies == 0 && |RunningPairs(m)| < m.run.maxPairs
    requires WellFormedPair(m, d) && ReadyToDispatch(m, d.t)
    ensures Step(m, DispatchOf(d)).Accepted? && Dispatched(m, Step(m, DispatchOf(d)).m, d)
  {
    hide ScheduleSatisfied;
  }

  lemma OthersStayReady(m: Manifest, n: Manifest, d: Pair, t: TicketId)
    requires Dispatched(m, n, d) && ReadyToDispatch(m, d.t) && ReadyToDispatch(m, t) && t != d.t
    ensures ReadyToDispatch(n, t)
  {
    ReadyPairsAreProvenParallel(m, d.t, t);
    assert DependencyGraph(n) == DependencyGraph(m);
    var o := Order(DependencyGraph(m), m.order).tickets;
    forall k | 0 <= k < |o| && o[k] != t ensures DoesNotHoldBack(n, t, o[k], t !in o[..k]) {
      assert DoesNotHoldBack(m, t, o[k], t !in o[..k]);
      if o[k] != d.t && ReleasedBy(m, o[k], t) {
        StillReleased(m, n, d, o[k], t);
      }
    }
  }

  lemma StillReleased(m: Manifest, n: Manifest, d: Pair, other: TicketId, t: TicketId)
    requires Dispatched(m, n, d) && other in m.tickets && other != d.t && ReleasedBy(m, other, t)
    ensures ReleasedBy(n, other, t)
  {
    forall p | p in n.phases && n.phases[p].ticket == Some(other) ensures !ActivePhase(n.phases[p].launch) {
      assert p in m.phases && n.phases[p] == m.phases[p];
    }
  }

  lemma OneMoreRunning(m: Manifest, n: Manifest, d: Pair)
    requires Dispatched(m, n, d)
    ensures |RunningPairs(n)| <= |RunningPairs(m)| + 1
  {
    assert RunningPairs(n) == RunningPairs(m) + {d.t};
  }

  lemma RestStaysDispatchable(m: Manifest, n: Manifest, ds: seq<Pair>)
    requires ds != [] && Dispatchable(m, ds) && Dispatched(m, n, ds[0])
    ensures Dispatchable(n, ds[1..])
  {
    hide ReadyToDispatch;
    OneMoreRunning(m, n, ds[0]);
    forall d | d in ds[1..] ensures WellFormedPair(n, d) && ReadyToDispatch(n, d.t) {
      var i :| 0 < i < |ds| && ds[i] == d;
      assert Unrelated(ds[0], ds[i]);
      assert d.implementation in {d.implementation, d.acceptance} && d.acceptance in {d.implementation, d.acceptance};
      OthersStayReady(m, n, ds[0], d.t);
    }
    forall i, j | 0 <= i < j < |ds[1..]| ensures Unrelated(ds[1..][i], ds[1..][j]) {
      assert Unrelated(ds[i + 1], ds[j + 1]);
    }
  }

  /** Dispatches of tickets that were ready together are all accepted, whatever their order. */
  lemma {:induction false} DispatchableIsAccepted(m: Manifest, ds: seq<Pair>)
    requires Dispatchable(m, ds)
    ensures Run(m, DispatchesOf(ds)).Accepted?
    decreases |ds|
  {
    hide Step, ReadyToDispatch, WellFormedPair;
    if ds != [] {
      DispatchIsAccepted(m, ds[0]);
      var n := Step(m, DispatchOf(ds[0])).m;
      RestStaysDispatchable(m, n, ds);
      DispatchableIsAccepted(n, ds[1..]);
      assert DispatchesOf(ds)[0] == DispatchOf(ds[0]) && DispatchesOf(ds)[1..] == DispatchesOf(ds[1..]);
    }
  }

  lemma BatchFits(ds: seq<Pair>, offered: seq<TicketId>)
    requires forall d :: d in ds ==> d.t in offered
    requires forall i, j :: 0 <= i < j < |ds| ==> Unrelated(ds[i], ds[j])
    ensures |ds| <= |offered|
  {
    var ts := seq(|ds|, i requires 0 <= i < |ds| => ds[i].t);
    assert Distinct(ts) by {
      forall i, j | 0 <= i < j < |ts| ensures ts[i] != ts[j] { assert Unrelated(ds[i], ds[j]); }
    }
    assert Elements(ts) <= Elements(offered) by {
      forall t | t in ts ensures t in offered {
        var i :| 0 <= i < |ts| && ts[i] == t;
        assert ds[i] in ds;
      }
    }
    CountDistinct(ts);
    CountDistinct(offered);
    Within(Elements(ts), Elements(offered));
  }

  lemma AcceptedDispatchIsApproved(m: Manifest, d: Pair)
    requires Step(m, DispatchOf(d)).Accepted?
    ensures Approved(m, d.t) && Dispatched(m, Step(m, DispatchOf(d)).m, d)
  {
    hide ScheduleSatisfied;
  }

  lemma ApprovalStays(m: Manifest, n: Manifest, d: Pair, t: TicketId)
    requires Dispatched(m, n, d)
    ensures Approved(n, t) <==> Approved(m, t)
  {
  }

  lemma {:induction false} AcceptedBatchIsApproved(m: Manifest, ds: seq<Pair>)
    requires Run(m, DispatchesOf(ds)).Accepted?
    ensures forall d :: d in ds ==> Approved(m, d.t)
    decreases |ds|
  {
    hide Step, Approved, Dispatched;
    if ds != [] {
      assert DispatchesOf(ds)[0] == DispatchOf(ds[0]) && DispatchesOf(ds)[1..] == DispatchesOf(ds[1..]);
      AcceptedDispatchIsApproved(m, ds[0]);
      var n := Step(m, DispatchOf(ds[0])).m;
      AcceptedBatchIsApproved(n, ds[1..]);
      forall d | d in ds ensures Approved(m, d.t) {
        if d != ds[0] {
          assert d in ds[1..];
          ApprovalStays(m, n, ds[0], d.t);
        }
      }
    }
  }

  /** A batch of the planner's own offers, taken in any order, is accepted as a whole exactly when
      every ticket in it has an analysis and an authorized scope. */
  lemma OfferedBatchIsAccepted(m: Manifest, listing: seq<TicketId>, ds: seq<Pair>)
    requires m.run.live && m.anomalies == 0
    requires forall d :: d in ds ==> d.t in OfferedPairs(m, listing) && ChosenPair(m, d)
    requires forall i, j :: 0 <= i < j < |ds| ==> Unrelated(ds[i], ds[j])
    ensures Run(m, DispatchesOf(ds)).Accepted? <==> forall d :: d in ds ==> Approved(m, d.t)
  {
    hide OfferedPairs, ReadyToDispatch, Run, Unrelated, Approved, ChosenPair;
    BatchFits(ds, OfferedPairs(m, listing));
    if forall d :: d in ds ==> Approved(m, d.t) { DispatchableIsAccepted(m, ds); }
    if Run(m, DispatchesOf(ds)).Accepted? { AcceptedBatchIsApproved(m, ds); }
  }

  // ----- a launch is offered only while it is intended -----

  /** The event re-arms `p`: the answer to a request made because `p` could not be launched. */
  predicate Rearms(m: Manifest, e: Event, p: PhaseKey) {
    e.action.Gating? && e.action.gating.InputProvided?
    && var g := e.action.gating.g;
       g in m.gates && m.gates[g].resume.PrelaunchRetry? && m.gates[g].phase == Some(p)
  }

  predicate Intended(m: Manifest, p: PhaseKey) {
    p in m.phases && m.phases[p].launch.IntentRecorded?
  }

  /** The planner may offer to create the task of `p`: the launch is intended, its editor, if it needs
      one, is leased, and neither an anomaly nor the end of the run comes first. */
  predicate OffersLaunch(m: Manifest, p: PhaseKey) {
    Intended(m, p) && (m.phases[p].requirement.NoEditor? || HoldsSlot(m, OfPhase(p))) && m.anomalies == 0 && !m.completed
  }

  lemma AnswerRearmsOnlyItsPhase(m: Manifest, g: GateId, p: PhaseKey)
    requires ProvideInput(m, g).Accepted? && p in m.phases && !Intended(m, p)
    requires !(m.gates[g].resume.PrelaunchRetry? && m.gates[g].phase == Some(p))
    ensures p in ProvideInput(m, g).m.phases && !Intended(ProvideInput(m, g).m, p)
  {
    hide Closes, OnlyStatus;
  }

  lemma GatesDoNotRearm(m: Manifest, a: GatesAction, p: PhaseKey)
    requires HandleGates(m, a).Accepted? && p in m.phases && !Intended(m, p) && !Rearms(m, Event(true, Gating(a)), p)
    ensures p in HandleGates(m, a).m.phases && !Intended(HandleGates(m, a).m, p)
  {
    hide ProvideInput, RequestInput, AnnounceGate, ResolveGate, ResumePhase, StartsNone;
    if a.InputProvided? {
      AnswerRearmsOnlyItsPhase(m, a.g, p);
    } else {
      Effects.GatesPersist(m, a);
    }
  }

  lemma PhasesDoNotRearm(m: Manifest, a: PhasesAction, p: PhaseKey)
    requires HandlePhases(m, a).Accepted? && p in m.phases && !Intended(m, p)
    ensures p in HandlePhases(m, a).m.phases && !Intended(HandlePhases(m, a).m, p)
  {
    hide DispatchPhase, ObserveLaunch, RecordCompletion, TerminatePhase, ReclassifyAcceptance, StartsNone;
    if a.LaunchObserved? {
      Effects.ObservationPersists(m, a.p, a.launch, a.thread, a.client, a.reconciled);
    } else {
      Effects.PhasesPersisted(m, a);
    }
  }

  lemma HandleDoesNotRearm(m: Manifest, a: Action, p: PhaseKey)
    requires Handle(m, a).Accepted? && p in m.phases && !Intended(m, p) && !Rearms(m, Event(true, a), p)
    ensures p in Handle(m, a).m.phases && !Intended(Handle(m, a).m, p)
  {
    hide HandlePlanning, HandleGates, HandlePhases, HandleSlots, HandleDelivery, HandleFinalization, CompleteRun;
    hide StartsNone;
    match a
    case Planning(x) => Effects.PlanningSettles(m, x);
    case Gating(x) => GatesDoNotRearm(m, x, p);
    case Phasing(x) => PhasesDoNotRearm(m, x, p);
    case Slotting(x) => Effects.SlotsSettle(m, x);
    case Delivering(x) => Effects.DeliverySettles(m, x);
    case Finalizing(x) => Effects.FinalizationSettles(m, x);
    case _ =>
  }

  ghost predicate NeverRearmed(m: Manifest, events: seq<Event>, p: PhaseKey)
    decreases |events|
  {
    events == [] || (!Rearms(m, events[0], p) && (Step(m, events[0]).Accepted? ==> NeverRearmed(Step(m, events[0]).m, events[1..], p)))
  }

  /** Once the launch of a phase has been observed in any way, the planner never offers to create
      its task again unless an explicit pre-launch retry re-arms it. */
  lemma {:induction false} ObservedLaunchIsNeverReoffered(m: Manifest, events: seq<Event>, p: PhaseKey)
    requires p in m.phases && !Intended(m, p) && NeverRearmed(m, events, p) && Run(m, events).Accepted?
    ensures p in Run(m, events).m.phases && !Intended(Run(m, events).m, p)
    decreases |events|
  {
    hide Handle;
    if events != [] {
      HandleDoesNotRearm(m, events[0].action, p);
      ObservedLaunchIsNeverReoffered(Step(m, events[0]).m, events[1..], p);
    }
  }
}
