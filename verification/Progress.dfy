/** The schedule never deadlocks: while consolidated work is idle some ticket is offered, and
    delivering offered tickets one after the other merges them all. */
module Progress {
  import opened Prelude
  import opened DependencyOrder
  import opened Manifest
  import opened GateEvents
  import opened PhaseEvents
  import opened DeliveryEvents
  import opened Events
  import opened Planner
  import Places

  /** A ticket that can be dispatched as soon as the schedule lets it. */
  predicate Waiting(t: Ticket) {
    && t.status.ReadyForImplementation? && t.records.execution.None? && !t.facts.reviewed
    && ContractSettled(t) && ScopeAuthorized(t)
  }

  /** The stored order lists the tickets, and their dependencies are known and acyclic. */
  ghost predicate Schedulable(m: Manifest) {
    Elements(m.order) == m.tickets.Keys && Closed(DependencyGraph(m)) && !HasCycle(DependencyGraph(m))
  }

  /** A live run between deliveries: every ticket is merged or waits. */
  ghost predicate Idle(m: Manifest) {
    && m.run.live && m.anomalies == 0 && m.run.maxPairs > 0 && Schedulable(m)
    && forall t :: t in m.tickets ==> m.tickets[t].status.MergedIntoTrain? || Waiting(m.tickets[t])
  }

  function Unmerged(m: Manifest): set<TicketId> {
    set t | t in m.tickets && !m.tickets[t].status.MergedIntoTrain?
  }

  /** The first unmerged ticket of an order. */
  predicate IsNext(m: Manifest, o: seq<TicketId>, i: nat) {
    && i < |o| && o[i] in Unmerged(m)
    && forall k :: 0 <= k < i ==> o[k] !in Unmerged(m)
  }

  lemma {:induction false} FindNext(m: Manifest, o: seq<TicketId>, from: nat) returns (i: nat)
    requires from <= |o| && exists k :: from <= k < |o| && o[k] in Unmerged(m)
    requires forall k :: 0 <= k < from ==> o[k] !in Unmerged(m)
    ensures IsNext(m, o, i)
    decreases |o| - from
  {
    if o[from] in Unmerged(m) { i := from; } else { i := FindNext(m, o, from + 1); }
  }

  lemma NextMayStart(m: Manifest, o: seq<TicketId>, i: nat)
    requires Idle(m) && Order(DependencyGraph(m), m.order) == Ordered(o) && TopologicalOrder(DependencyGraph(m), o) && IsNext(m, o, i)
    ensures ScheduleSatisfied(m, o[i])
  {
    hide Schedulable, Order;
    var t := o[i];
    forall d | d in m.tickets[t].records.plan.dependencies ensures d in m.tickets && m.tickets[d].status.MergedIntoTrain? {
      assert d in DependencyGraph(m)[o[i]];
      assert d in o[..i];
      assert d in Elements(o);
    }
    forall k | 0 <= k < |o| && o[k] != t ensures DoesNotHoldBack(m, t, o[k], t !in o[..k]) {
      assert o[k] in Elements(o);
      if k > i { assert o[..k][i] == t; }
    }
  }

  /** The first unmerged ticket of the computed order passes the planner's test. */
  lemma NextIsReady(m: Manifest) returns (t: TicketId)
    requires Idle(m) && Unmerged(m) != {}
    ensures t in Unmerged(m) && ReadyToDispatch(m, t) && |RunningPairs(m)| == 0
  {
    hide HasCycle, Closed, ScheduleSatisfied, TopologicalOrder, Order;
    OrderIsExact(DependencyGraph(m), m.order);
    var o := Order(DependencyGraph(m), m.order).tickets;
    var u :| u in Unmerged(m);
    assert u in o by { OrderListsAll(DependencyGraph(m), o, u); }
    var i := FindNext(m, o, 0);
    NextMayStart(m, o, i);
    t := o[i];
    assert RunningPairs(m) == {};
  }

  lemma OrderListsAll(g: Graph, o: seq<TicketId>, u: TicketId)
    requires TopologicalOrder(g, o) && u in g
    ensures u in o
  {
    assert u in Elements(o);
  }

  /** While a ticket is unmerged, the planner offers at least one pair. */
  lemma SomethingIsOffered(m: Manifest, listing: seq<TicketId>)
    requires Idle(m) && Unmerged(m) != {} && Elements(listing) == m.tickets.Keys
    ensures OfferedPairs(m, listing) != []
  {
    hide Schedulable, ReadyToDispatch;
    var t := NextIsReady(m);
    assert t in Elements(listing);
    assert t in ReadyPairs(m, listing);
  }

  // ----- delivering one ticket -----

  function Deliver(a: DeliveryAction): Event {
    Event(true, Delivering(a))
  }

  function Phased(a: PhasesAction): Event {
    Event(true, Phasing(a))
  }

  function Gated(a: GatesAction): Event {
    Event(true, Gating(a))
  }

  lemma DeliveringSteps(m: Manifest, a: DeliveryAction, n: Manifest)
    requires m.anomalies == 0 && HandleDelivery(m, a) == Accepted(n)
    ensures Step(m, Deliver(a)) == Accepted(n)
  {
    hide HandleDelivery;
  }

  lemma RunNext(m: Manifest, e: Event, n: Manifest, rest: seq<Event>)
    requires Step(m, e) == Accepted(n)
    ensures Run(m, [e] + rest) == Run(n, rest)
  {
    hide Step;
    assert ([e] + rest)[1..] == rest;
  }

  lemma {:induction false} RunConcat(m: Manifest, a: seq<Event>, b: seq<Event>)
    requires Run(m, a).Accepted?
    ensures Run(m, a + b) == Run(Run(m, a).m, b)
    decreases |a|
  {
    hide Step;
    if a == [] {
      assert a + b == b;
    } else {
      assert (a + b)[0] == a[0] && (a + b)[1..] == a[1..] + b;
      RunConcat(Step(m, a[0]).m, a[1..], b);
    }
  }

  datatype Delivery = Delivery(pair: Pair, review: PhaseKey, commit: Commit, thread: Reference)

  predicate Fresh(m: Manifest, d: Delivery) {
    && WellFormedPair(m, d.pair)
    && d.pair.implementationNeeds.NoEditor? && d.pair.acceptanceNeeds.NoEditor? && d.pair.verificationNeeds.NoEditor?
    && d.review !in m.phases && d.review != d.pair.implementation && d.review != d.pair.acceptance
  }

  /** The events from the dispatch of a pair to the merge of its ticket, with nothing going wrong. */
  function DeliveryOf(d: Delivery): seq<Event> {
    UpToReview(d) + Merging(d)
  }

  function UpToReview(d: Delivery): seq<Event> {
    [DispatchOf(d.pair)] + Authoring(d) + Checking(d)
  }

  function Authoring(d: Delivery): seq<Event> {
    [Phased(LaunchObserved(d.pair.implementation, Running, Some(d.thread), None, false)),
     Phased(PhaseCompleted(d.pair.implementation, DONE)),
     Phased(LaunchObserved(d.pair.acceptance, Running, Some(d.thread), None, false)),
     Phased(PhaseCompleted(d.pair.acceptance, DONE))]
  }

  function Checking(d: Delivery): seq<Event> {
    [Deliver(PairIntegrated(d.pair.t, d.commit)),
     Deliver(VerificationRecorded(d.pair.t, true)),
     Deliver(ReviewDispatched(d.pair.t, d.review, true, NoEditor, d.pair.fork.commit)),
     Phased(LaunchObserved(d.review, Running, Some(d.thread), None, false)),
     Deliver(ReviewRecorded(d.review, DONE))]
  }

  function Merging(d: Delivery): seq<Event> {
    [Deliver(FindingsReconciled(d.pair.t, false, GateRule(false, ""))),
     Deliver(TicketMerged(d.pair.t, d.commit, d.commit))]
  }

  /** A report that names a commit and opens no cost anomaly. */
  const DONE := Report(Some(0), 0)

  /** The phase completes with that report. */
  function Completing(m: Manifest, p: PhaseKey): Manifest
    requires p in m.phases
  {
    WithEnd(m, p, Completed, DONE.commit)
  }

  function Launch(m: Manifest, p: PhaseKey, thread: Reference): Manifest
    requires p in m.phases
  {
    WithPhase(m, p, m.phases[p].(launch := Running, thread := Some(thread)))
  }

  lemma LaunchIsAccepted(m: Manifest, p: PhaseKey, thread: Reference)
    requires p in m.phases && m.anomalies == 0
    requires m.phases[p].launch.IntentRecorded? && m.phases[p].requirement.NoEditor? && m.phases[p].forbiddenThread.None?
    ensures Step(m, Phased(LaunchObserved(p, Running, Some(thread), None, false))) == Accepted(Launch(m, p, thread))
  {
    hide OnePhase, OneTicket, OpensAtMost;
  }

  predicate Authors(m: Manifest, p: PhaseKey, t: TicketId) {
    && p in m.phases && m.phases[p].ticket == Some(t) && (m.phases[p].kind.Implementation? || m.phases[p].kind.AcceptanceTests?)
    && m.phases[p].launch.Running? && t in m.tickets && m.tickets[t].records.execution.Some?
  }

  /** The completion of one half of a pair, and of the second half. */
  lemma CompletionIsAccepted(m: Manifest, p: PhaseKey, t: TicketId)
    requires m.anomalies == 0 && Authors(m, p, t)
    ensures var done := Completing(m, p);
            Step(m, Phased(PhaseCompleted(p, DONE))) == Accepted(
              if PairCompleted(done, m.tickets[t].records.execution.value) then WithStatus(done, t, AwaitingExecutionIntegration) else done)
  {
    hide OnePhase, OneTicket, OpensAtMost;
    hide DispatchPhase, ObserveLaunch, TerminatePhase, ReclassifyAcceptance;
  }

  function Finished(p: Phase, thread: Reference): Phase {
    p.(launch := Completed, thread := Some(thread), result := DONE.commit)
  }

  /** A new pair of phases for `d`, with nothing launched yet. */
  predicate PairIntended(m: Manifest, d: Delivery) {
    && d.pair.t in m.tickets && m.anomalies == 0 && d.pair.implementation != d.pair.acceptance
    && m.tickets[d.pair.t].records.execution == Some(Execution(d.pair.implementation, d.pair.acceptance, d.pair.verificationNeeds, d.pair.fork.implementation))
    && d.pair.implementation in m.phases && m.phases[d.pair.implementation] == NewPhase(Some(d.pair.t), Implementation, NoEditor, Place(Some(d.pair.fork.implementation), d.pair.fork.commit))
    && d.pair.acceptance in m.phases && m.phases[d.pair.acceptance] == NewPhase(Some(d.pair.t), AcceptanceTests, NoEditor, Place(Some(d.pair.fork.acceptance), d.pair.fork.commit))
  }

  function Authored(m: Manifest, d: Delivery): Manifest
    requires PairIntended(m, d)
  {
    WithStatus(m.(phases := m.phases[d.pair.implementation := Finished(m.phases[d.pair.implementation], d.thread)]
                                    [d.pair.acceptance := Finished(m.phases[d.pair.acceptance], d.thread)]),
               d.pair.t, AwaitingExecutionIntegration)
  }

  lemma PairIsAuthored(m: Manifest, d: Delivery)
    requires PairIntended(m, d)
    ensures Run(m, Authoring(d)) == Accepted(Authored(m, d))
  {
    hide Step, Run;
    var i, a, t := d.pair.implementation, d.pair.acceptance, d.pair.t;
    var m1 := Launch(m, i, d.thread);
    LaunchIsAccepted(m, i, d.thread);
    var m2 := Completing(m1, i);
    CompletionIsAccepted(m1, i, t);
    var m3 := Launch(m2, a, d.thread);
    LaunchIsAccepted(m2, a, d.thread);
    CompletionIsAccepted(m3, a, t);
    var m4 := WithStatus(Completing(m3, a), t, AwaitingExecutionIntegration);
    assert m4.phases == Authored(m, d).phases;
    var s := Authoring(d);
    RunNothing(m4);
    RunNext(m3, s[3], m4, []);
    RunNext(m2, s[2], m3, [s[3]] + []);
    RunNext(m1, s[1], m2, [s[2]] + ([s[3]] + []));
    RunNext(m, s[0], m1, [s[1]] + ([s[2]] + ([s[3]] + [])));
    assert s == [s[0]] + ([s[1]] + ([s[2]] + ([s[3]] + [])));
  }

  lemma RunNothing(m: Manifest)
    ensures Run(m, []) == Accepted(m)
  {
    hide Step;
  }

  /** The pair of `d` is written and nothing of the review exists yet. */
  predicate PairAuthored(m: Manifest, d: Delivery) {
    && d.pair.t in m.tickets && m.anomalies == 0 && m.tickets[d.pair.t].status.AwaitingExecutionIntegration?
    && m.tickets[d.pair.t].records.execution.Some? && m.tickets[d.pair.t].records.execution.value.verification.NoEditor?
    && PairReported(m, m.tickets[d.pair.t].records.execution.value)
    && !m.tickets[d.pair.t].facts.reviewed && m.tickets[d.pair.t].facts.analysis.Some? && d.review !in m.phases
  }

  function ReviewOf(d: Delivery): Phase {
    NewPhase(Some(d.pair.t), Review, NoEditor, Detached(d.pair.fork.commit))
  }

  /** The integrated head of the pair is on record. */
  function Combined(m: Manifest, d: Delivery): Manifest
    requires d.pair.t in m.tickets
  {
    WithTicket(m, d.pair.t, m.tickets[d.pair.t].(facts := m.tickets[d.pair.t].facts.(integrated := Some(d.commit))))
  }

  lemma IntegrationIsAccepted(m: Manifest, d: Delivery)
    requires PairAuthored(m, d)
    ensures Step(m, Deliver(PairIntegrated(d.pair.t, d.commit))) == Accepted(WithStatus(Combined(m, d), d.pair.t, AwaitingVerification))
    ensures PairAuthored(Combined(m, d), d)
  {
    hide OneTicket;
    hide DispatchPair, RecordVerification, ClassifyFailure, IsolateContinuation, DispatchReview, RecordReview, ReconcileFindings, GrantException, DispatchRemediation, MergeTicket;
  }

  /** `m` has the integrated head on record. */
  lemma VerifiedIsAccepted(m: Manifest, d: Delivery)
    requires PairAuthored(m, d) && m.tickets[d.pair.t].facts.integrated.Some?
    ensures Step(WithStatus(m, d.pair.t, AwaitingVerification), Deliver(VerificationRecorded(d.pair.t, true))) == Accepted(WithStatus(m, d.pair.t, FunctionalReady))
  {
    Places.IntegratedHeadIsKnown(WithStatus(m, d.pair.t, AwaitingVerification), d.pair.t);
    hide OnePhase, OneTicket, OpensAtMost, HoldsSlot, HeadKnown;
    hide DispatchPair, IntegratePair, ClassifyFailure, IsolateContinuation, DispatchReview, RecordReview, ReconcileFindings, GrantException, DispatchRemediation, MergeTicket;
  }

  function Reviewing(m: Manifest, d: Delivery): Manifest
    requires d.pair.t in m.tickets
  {
    WithStatus(WithPhase(m, d.review, ReviewOf(d)), d.pair.t, AutoReview)
  }

  lemma ReviewIsAccepted(m: Manifest, d: Delivery)
    requires PairAuthored(m, d)
    ensures Step(WithStatus(m, d.pair.t, FunctionalReady), Deliver(ReviewDispatched(d.pair.t, d.review, true, NoEditor, d.pair.fork.commit)))
         == Accepted(Reviewing(m, d))
  {
    hide OnePhase, OneTicket, OpensAtMost;
    hide DispatchPair, IntegratePair, RecordVerification, ClassifyFailure, IsolateContinuation, RecordReview, ReconcileFindings, GrantException, DispatchRemediation, MergeTicket;
  }

  function Reviewed(m: Manifest, d: Delivery): Manifest
    requires d.pair.t in m.tickets
  {
    WithTicket(WithPhase(m, d.review, Finished(ReviewOf(d), d.thread)), d.pair.t,
      m.tickets[d.pair.t].(facts := m.tickets[d.pair.t].facts.(reviewed := true), status := AwaitingFindingReconciliation))
  }

  lemma ReviewRecords(m: Manifest, d: Delivery)
    requires PairAuthored(m, d)
    ensures RecordReview(Launch(Reviewing(m, d), d.review, d.thread), d.review, DONE) == Accepted(Reviewed(m, d))
  {
    hide OnePhase, OneTicket, PairReported;
  }

  lemma ReviewIsRecorded(m: Manifest, d: Delivery)
    requires PairAuthored(m, d)
    ensures Step(Launch(Reviewing(m, d), d.review, d.thread), Deliver(ReviewRecorded(d.review, DONE))) == Accepted(Reviewed(m, d))
  {
    hide Step, RecordReview, PairReported, Reviewed;
    ReviewRecords(m, d);
    DeliveringSteps(Launch(Reviewing(m, d), d.review, d.thread), ReviewRecorded(d.review, DONE), Reviewed(m, d));
  }

  function Delivered(m: Manifest, d: Delivery): Manifest
    requires d.pair.t in m.tickets
  {
    var v := m.tickets[d.pair.t];
    WithTicket(WithPhase(m, d.review, Finished(ReviewOf(d), d.thread)), d.pair.t,
      v.(facts := v.facts.(reviewed := true), records := v.records.(merge := Some(d.commit)), status := MergedIntoTrain)).(train := Some(d.commit))
  }

  lemma MergeIsAccepted(m: Manifest, d: Delivery)
    requires PairAuthored(m, d)
    ensures var n := WithStatus(Reviewed(m, d), d.pair.t, ReadyToMerge);
            && Step(Reviewed(m, d), Deliver(FindingsReconciled(d.pair.t, false, GateRule(false, "")))) == Accepted(n)
            && Step(n, Deliver(TicketMerged(d.pair.t, d.commit, d.commit))) == Accepted(Delivered(m, d))
  {
    hide OnePhase, OneTicket, OpensAtMost;
    hide DispatchPair, IntegratePair, RecordVerification, ClassifyFailure, IsolateContinuation, DispatchReview, RecordReview, GrantException, DispatchRemediation;
  }

  lemma AuthoredIsThere(m: Manifest, d: Delivery)
    requires PairAuthored(m, d)
    ensures d.pair.t in m.tickets && m.anomalies == 0
  {
  }

  lemma AuthoredPairIsReviewed(m: Manifest, d: Delivery)
    requires PairAuthored(m, d)
    ensures Run(m, Checking(d)) == Accepted(Reviewed(Combined(m, d), d)) && PairAuthored(Combined(m, d), d)
  {
    hide Step, Run, PairAuthored;
    assert d.pair.t in m.tickets && m.anomalies == 0 by { AuthoredIsThere(m, d); }
    var t, s, c := d.pair.t, Checking(d), Combined(m, d);
    var m1 := WithStatus(c, t, AwaitingVerification);
    var m2 := WithStatus(c, t, FunctionalReady);
    var m3 := Reviewing(c, d);
    var m4 := Launch(m3, d.review, d.thread);
    IntegrationIsAccepted(m, d);
    VerifiedIsAccepted(c, d);
    ReviewIsAccepted(c, d);
    LaunchIsAccepted(m3, d.review, d.thread);
    ReviewIsRecorded(c, d);
    RunNothing(Reviewed(c, d));
    var r4 := [s[4]] + [];
    var r3 := [s[3]] + r4;
    var r2 := [s[2]] + r3;
    var r1 := [s[1]] + r2;
    RunNext(m4, s[4], Reviewed(c, d), []);
    RunNext(m3, s[3], m4, r4);
    RunNext(m2, s[2], m3, r3);
    RunNext(m1, s[1], m2, r2);
    RunNext(m, s[0], m1, r1);
    assert s == [s[0]] + r1;
  }

  lemma ReviewedPairMerges(m: Manifest, d: Delivery)
    requires PairAuthored(m, d)
    ensures Run(Reviewed(m, d), Merging(d)) == Accepted(Delivered(m, d))
  {
    hide Step, Run;
    var s := Merging(d);
    MergeIsAccepted(m, d);
    RunNothing(Delivered(m, d));
    RunNext(WithStatus(Reviewed(m, d), d.pair.t, ReadyToMerge), s[1], Delivered(m, d), []);
    RunNext(Reviewed(m, d), s[0], WithStatus(Reviewed(m, d), d.pair.t, ReadyToMerge), [s[1]] + []);
    assert s == [s[0]] + ([s[1]] + []);
  }

  // ----- delivering everything -----

  /** No phase of `n` is active that was not active in `m`. */
  predicate AddsNoActivity(m: Manifest, n: Manifest) {
    forall p :: p in n.phases && ActivePhase(n.phases[p].launch) ==> p in m.phases && ActivePhase(m.phases[p].launch)
  }

  /** `n` is `m` with one more ticket merged; nothing is left running. */
  ghost predicate OneMoreMerged(m: Manifest, n: Manifest, t: TicketId) {
    && t in m.tickets && n.run == m.run && n.order == m.order && n.anomalies == 0
    && n.consolidated == m.consolidated && n.completed == m.completed && n.editorsReady == m.editorsReady
    && n.final == m.final && n.slots == m.slots && AddsNoActivity(m, n)
    && n.tickets.Keys == m.tickets.Keys
    && (forall u :: u in m.tickets && u != t ==> n.tickets[u] == m.tickets[u])
    && n.tickets[t].status.MergedIntoTrain? && n.tickets[t].records.plan == m.tickets[t].records.plan
  }

  lemma DispatchIntendsPair(m: Manifest, n: Manifest, d: Delivery)
    requires m.anomalies == 0 && Fresh(m, d) && Waiting(m.tickets[d.pair.t]) && Dispatched(m, n, d.pair)
    ensures PairIntended(n, d) && PairAuthored(Authored(n, d), d)
  {
  }

  lemma DeliveredIsMerged(m: Manifest, n: Manifest, d: Delivery)
    requires m.anomalies == 0 && Dispatched(m, n, d.pair) && PairIntended(n, d) && PairAuthored(Authored(n, d), d)
    ensures OneMoreMerged(m, Delivered(Combined(Authored(n, d), d), d), d.pair.t) && OnRecord(Delivered(Combined(Authored(n, d), d), d), d)
  {
  }

  /** What the delivery leaves on record: the analysis, the completed review and the new train head. */
  predicate OnRecord(n: Manifest, d: Delivery) {
    IsCompleted(n, d.review, Review, d.pair.t) && d.pair.t in n.tickets && n.tickets[d.pair.t].facts.analysis.Some? && n.train == Some(d.commit)
  }

  /** A dispatched pair gets as far as its recorded review. */
  lemma ReadyTicketIsReviewed(m: Manifest, d: Delivery) returns (n: Manifest)
    requires Idle(m) && Fresh(m, d) && ReadyToDispatch(m, d.pair.t) && Waiting(m.tickets[d.pair.t])
    ensures Dispatched(m, n, d.pair) && PairIntended(n, d) && PairAuthored(Authored(n, d), d) && PairAuthored(Combined(Authored(n, d), d), d)
    ensures Run(m, UpToReview(d)) == Accepted(Reviewed(Combined(Authored(n, d), d), d))
  {
    hide Run, Step, ReadyToDispatch, Dispatched, PairIntended, PairAuthored, Reviewed;
    assert RunningPairs(m) == {};
    DispatchIsAccepted(m, d.pair);
    n := Step(m, DispatchOf(d.pair)).m;
    DispatchIntendsPair(m, n, d);
    PairIsAuthored(n, d);
    AuthoredPairIsReviewed(Authored(n, d), d);
    RunConcat(n, Authoring(d), Checking(d));
    RunNext(m, DispatchOf(d.pair), n, Authoring(d) + Checking(d));
    assert UpToReview(d) == [DispatchOf(d.pair)] + (Authoring(d) + Checking(d));
  }

  lemma ReadyTicketIsDelivered(m: Manifest, d: Delivery)
    requires Idle(m) && Fresh(m, d) && ReadyToDispatch(m, d.pair.t) && Waiting(m.tickets[d.pair.t])
    ensures Run(m, DeliveryOf(d)).Accepted? && OneMoreMerged(m, Run(m, DeliveryOf(d)).m, d.pair.t) && OnRecord(Run(m, DeliveryOf(d)).m, d)
  {
    hide Run, Step, ReadyToDispatch, Dispatched, PairIntended, PairAuthored, OneMoreMerged, OnRecord, Reviewed, Delivered, UpToReview, Merging;
    var n := ReadyTicketIsReviewed(m, d);
    ReviewedPairMerges(Combined(Authored(n, d), d), d);
    RunConcat(m, UpToReview(d), Merging(d));
    DeliveredIsMerged(m, n, d);
  }

  lemma DeliveryStaysIdle(m: Manifest, n: Manifest, t: TicketId)
    requires Idle(m) && t in Unmerged(m) && OneMoreMerged(m, n, t)
    ensures Idle(n) && Unmerged(n) == Unmerged(m) - {t}
  {
    hide Closed, HasCycle;
    assert DependencyGraph(n) == DependencyGraph(m);
  }

  lemma {:induction false} LengthsAreBounded(s: set<string>) returns (n: nat)
    ensures forall x :: x in s ==> |x| < n
    decreases s
  {
    if s == {} {
      n := 0;
    } else {
      var x :| x in s;
      n := LengthsAreBounded(s - {x});
      if n <= |x| { n := |x| + 1; }
    }
  }

  function Key(n: nat): (k: PhaseKey)
    ensures |k| == n
  {
    if n == 0 then "" else "k" + Key(n - 1)
  }

  lemma FreshDelivery(m: Manifest, t: TicketId) returns (d: Delivery)
    requires t in m.tickets && Waiting(m.tickets[t])
    ensures d.pair.t == t && Fresh(m, d) && d.thread == 0
  {
    var n := LengthsAreBounded(m.phases.Keys);
    d := Delivery(Pair(t, Key(n), Key(n + 1), Fork(0, 0, 1), NoEditor, NoEditor, NoEditor), Key(n + 2), 0, 0);
  }

  /** From every idle manifest with acyclic dependencies, some run merges every ticket, delivering
      in each round a ticket that the planner offers. */
  lemma {:induction false} EverythingCanBeMerged(m: Manifest) returns (events: seq<Event>)
    requires Idle(m)
    ensures Run(m, events).Accepted?
    ensures var n := Run(m, events).m;
            && Unmerged(n) == {} && n.tickets.Keys == m.tickets.Keys && AddsNoActivity(m, n)
            && n.run == m.run && n.anomalies == 0 && n.final == m.final && n.slots == m.slots && n.completed == m.completed && n.editorsReady == m.editorsReady
    decreases |Unmerged(m)|
  {
    hide Run, Step, ReadyToDispatch, Waiting, Schedulable;
    if Unmerged(m) == {} {
      events := [];
      RunNothing(m);
    } else {
      var t := NextIsReady(m);
      var d := FreshDelivery(m, t);
      ReadyTicketIsDelivered(m, d);
      var n := Run(m, DeliveryOf(d)).m;
      DeliveryStaysIdle(m, n, t);
      var rest := EverythingCanBeMerged(n);
      RunConcat(m, DeliveryOf(d), rest);
      events := DeliveryOf(d) + rest;
    }
  }
}
