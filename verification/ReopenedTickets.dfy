/** Runs from bootstrap in which a merged ticket is merged once more, and in which an isolated,
    blocked ticket is given another repair. */
module ReopenedTickets {
  import opened Prelude
  import opened Manifest
  import opened PhaseEvents
  import opened DeliveryEvents
  import opened Events
  import opened Planner
  import opened Progress
  import opened Completion
  import opened SettledTickets
  import opened AuditedIsolation
  import Places
  import StaleAnswer

  // ----- merged once more -----

  lemma FirstTicketIsMerged(m: Manifest) returns (events: seq<Event>, d: Delivery)
    requires Undelivered(m) && m.tickets != map[]
    ensures Run(m, events).Accepted? && OneMoreMerged(m, Run(m, events).m, d.pair.t) && OnRecord(Run(m, events).m, d)
    ensures Idle(Run(m, events).m) && Unmerged(Run(m, events).m) == m.tickets.Keys - {d.pair.t}
  {
    hide Run, Step, ReadyToDispatch, Waiting, Schedulable, OneMoreMerged, OnRecord, Fresh;
    assert Unmerged(m) == m.tickets.Keys;
    assert forall t :: t in m.tickets ==> Waiting(m.tickets[t]) by { UndeliveredWaits(m); }
    var t := NextIsReady(m);
    d := FreshDelivery(m, t);
    events := DeliveryOf(d);
    ReadyTicketIsDelivered(m, d);
    DeliveryStaysIdle(m, Run(m, events).m, t);
  }

  lemma UndeliveredWaits(m: Manifest)
    requires Undelivered(m)
    ensures forall t :: t in m.tickets ==> Waiting(m.tickets[t])
  {
  }

  lemma MergedIsSettled(m: Manifest, n: Manifest, d: Delivery)
    requires OneMoreMerged(m, n, d.pair.t) && OnRecord(n, d)
    ensures n.anomalies == 0 && Settled(n, d.pair.t) && n.tickets[d.pair.t].facts.analysis.Some? && IsCompleted(n, d.review, Review, d.pair.t)
  {
  }

  /** From every bootstrapped live manifest with a ticket, some accepted run merges a ticket and goes
      on to merge it again, with whatever commits. */
  lemma SomeTicketIsMergedAgain(m: Manifest, commit: Commit, head: Commit) returns (first: seq<Event>, again: seq<Event>, t: TicketId)
    requires Bootstrapped(m) && m.run.live && m.tickets != map[]
    ensures Run(m, first).Accepted? && t in Run(m, first).m.tickets && Run(m, first).m.tickets[t].status.MergedIntoTrain?
    ensures var o := Run(m, first + again);
            && o.Accepted? && t in o.m.tickets && o.m.tickets[t].status.MergedIntoTrain?
            && o.m.tickets[t].records.merge == Some(commit) && o.m.train == Some(head)
  {
    hide Run, Step, Undelivered, OneMoreMerged, OnRecord, Idle, Settled, Reopening;
    first := BootstrapIsAnalysed(m);
    var m1 := Run(m, first).m;
    var merge, d := FirstTicketIsMerged(m1);
    t := d.pair.t;
    RunConcat(m, first, merge);
    first := first + merge;
    var m2 := Run(m, first).m;
    MergedIsSettled(m1, m2, d);
    assert m2.tickets[t].status.MergedIntoTrain? by { OneIsMerged(m1, m2, t); }
    again := Reopening(t, d.review, false) + [Deliver(TicketMerged(t, commit, head))];
    MergedTicketIsMergedAgain(m2, t, d.review, commit, head);
    RunConcat(m, first, again);
  }

  lemma OneIsMerged(m: Manifest, n: Manifest, t: TicketId)
    requires OneMoreMerged(m, n, t)
    ensures t in n.tickets && n.tickets[t].status.MergedIntoTrain?
  {
  }

  // ----- repaired once more -----

  /** `m` with the ticket `t` and the repair `p` as given. */
  function Patched(m: Manifest, t: TicketId, v: Ticket, p: PhaseKey, repair: Phase): Manifest {
    WithTicket(WithPhase(m, p, repair), t, v)
  }

  lemma PatchedTwice(m: Manifest, t: TicketId, v: Ticket, w: Ticket, p: PhaseKey, a: Phase, b: Phase)
    ensures Patched(Patched(m, t, v, p, a), t, w, p, b) == Patched(m, t, w, p, b)
    ensures WithTicket(Patched(m, t, v, p, a), t, w) == Patched(m, t, w, p, a)
    ensures WithPhase(Patched(m, t, v, p, a), p, b) == Patched(m, t, v, p, b)
  {
    assert m.tickets[t := v][t := w] == m.tickets[t := w];
    assert m.phases[p := a][p := b] == m.phases[p := b];
  }

  /** A repair of `t` that may not run on the implementation's thread 0. */
  function Repair(t: TicketId): Phase {
    NewPhase(Some(t), Remediation, NoEditor, REPAIR_START).(forbiddenThread := Some(0))
  }

  /** The reviewed ticket with the repair under way or over. */
  function Repaired(v: Ticket, status: TicketStatus): Ticket {
    v.(budget := v.budget.(cycles := 1), status := status)
  }

  /** The reviewed ticket `t` may be sent to its first repair, which is to be the phase `p`. */
  predicate Repairable(m: Manifest, t: TicketId, p: PhaseKey) {
    && m.anomalies == 0 && t in m.tickets && p !in m.phases
    && m.tickets[t].status.AwaitingFindingReconciliation? && m.tickets[t].budget == Budget(0, NoException, 0) && ScopeAuthorized(m.tickets[t])
    && m.tickets[t].records.execution.Some? && m.tickets[t].records.execution.value.verification.NoEditor?
    && m.tickets[t].records.execution.value.implementation in m.phases
    && m.phases[m.tickets[t].records.execution.value.implementation].thread == Some(0)
    && m.phases[m.tickets[t].records.execution.value.implementation].result.Some?
  }

  lemma RepairIsAskedFor(m: Manifest, t: TicketId, p: PhaseKey)
    requires Repairable(m, t, p)
    ensures var n := WithStatus(m, t, NeedsRemediation);
            && Step(m, Deliver(FindingsReconciled(t, true, UNGATED))) == Accepted(n)
            && Step(n, Deliver(RemediationDispatched(t, p, NoEditor, REPAIR_START))) == Accepted(Patched(m, t, Repaired(m.tickets[t], Fixing), p, Repair(t)))
  {
    hide Step, ScopeAuthorized;
    var n := WithStatus(m, t, NeedsRemediation);
    assert ReconcileFindings(m, t, true, UNGATED) == Accepted(n);
    DeliveringSteps(m, FindingsReconciled(t, true, UNGATED), n);
    var x := Patched(m, t, Repaired(m.tickets[t], Fixing), p, Repair(t));
    assert n.tickets[t := x.tickets[t]] == x.tickets;
    assert DispatchRemediation(n, t, p, NoEditor, REPAIR_START) == Accepted(x) by { ScopeIsKept(m, t); }
    DeliveringSteps(n, RemediationDispatched(t, p, NoEditor, REPAIR_START), x);
  }

  lemma ScopeIsKept(m: Manifest, t: TicketId)
    requires t in m.tickets && ScopeAuthorized(m.tickets[t])
    ensures ScopeAuthorized(WithStatus(m, t, NeedsRemediation).tickets[t])
  {
  }

  lemma RepairIsLaunched(m: Manifest, t: TicketId, v: Ticket, p: PhaseKey)
    requires m.anomalies == 0
    ensures Step(Patched(m, t, v, p, Repair(t)), Phased(LaunchObserved(p, Running, Some(1), None, false)))
         == Accepted(Patched(m, t, v, p, Repair(t).(launch := Running, thread := Some(1))))
  {
    hide Step, LeaseConfirmed;
    var n := Patched(m, t, v, p, Repair(t));
    var b := Repair(t).(launch := Running, thread := Some(1));
    PatchedTwice(m, t, v, v, p, Repair(t), b);
    assert ObserveLaunch(n, p, Running, Some(1), None, false) == Accepted(WithPhase(n, p, b));
    StaleAnswer.PhasingSteps(n, LaunchObserved(p, Running, Some(1), None, false), WithPhase(n, p, b));
  }

  /** The completed repair of a ticket. */
  function RepairDone(t: TicketId): Phase {
    Repair(t).(launch := Completed, thread := Some(1), result := DONE.commit)
  }

  lemma RepairIsCompleted(m: Manifest, t: TicketId, v: Ticket, p: PhaseKey)
    requires m.anomalies == 0
    ensures Step(Patched(m, t, v, p, Repair(t).(launch := Running, thread := Some(1))), Phased(PhaseCompleted(p, DONE)))
         == Accepted(Patched(m, t, v.(status := AwaitingRemediationVerification), p, RepairDone(t)))
  {
    hide Step, OnePhase, OneTicket;
    var a := Repair(t).(launch := Running, thread := Some(1));
    var n := Patched(m, t, v, p, a);
    var w := v.(status := AwaitingRemediationVerification);
    PatchedTwice(m, t, v, w, p, a, RepairDone(t));
    assert RecordCompletion(n, p, DONE) == Accepted(WithTicket(WithPhase(n, p, RepairDone(t)), t, w));
    StaleAnswer.PhasingSteps(n, PhaseCompleted(p, DONE), WithTicket(WithPhase(n, p, RepairDone(t)), t, w));
  }

  lemma RepairFails(m: Manifest, t: TicketId, v: Ticket, p: PhaseKey)
    requires m.anomalies == 0 && v.status.AwaitingRemediationVerification? && v.records.execution.Some? && v.records.execution.value.verification.NoEditor?
    requires v.records.execution.value.implementation in m.phases && m.phases[v.records.execution.value.implementation].result.Some?
    ensures Step(Patched(m, t, v, p, RepairDone(t)), Deliver(VerificationRecorded(t, false)))
         == Accepted(Patched(m, t, v.(status := VerificationFailed), p, RepairDone(t)))
  {
    hide Step, OneTicket, HoldsSlot, HeadKnown;
    var n := Patched(m, t, v, p, RepairDone(t));
    Places.UnrepairedHeadIsKnown(n, t);
    PatchedTwice(m, t, v, v.(status := VerificationFailed), p, RepairDone(t), RepairDone(t));
    assert RecordVerification(n, t, false) == Accepted(WithStatus(n, t, VerificationFailed));
    DeliveringSteps(n, VerificationRecorded(t, false), WithStatus(n, t, VerificationFailed));
  }

  /** The ticket is blocked because its verification failed. */
  function BlockedByFailure(v: Ticket): Ticket {
    v.(facts := v.facts.(blockedByFailure := true), status := TicketBlocked)
  }

  lemma FailureBlocks(m: Manifest, t: TicketId, v: Ticket, p: PhaseKey)
    requires m.anomalies == 0 && v.status.VerificationFailed?
    ensures Step(Patched(m, t, v, p, RepairDone(t)), Deliver(FailureClassified(t, Block)))
         == Accepted(Patched(m, t, BlockedByFailure(v), p, RepairDone(t)))
  {
    hide Step, OneTicket;
    var n := Patched(m, t, v, p, RepairDone(t));
    PatchedTwice(m, t, v, BlockedByFailure(v), p, RepairDone(t), RepairDone(t));
    assert ClassifyFailure(n, t, Block) == Accepted(WithTicket(n, t, BlockedByFailure(v)));
    DeliveringSteps(n, FailureClassified(t, Block), WithTicket(n, t, BlockedByFailure(v)));
  }

  /** From a recorded review through a repair whose verification fails to the ticket's block. */
  function FailedRepair(t: TicketId, p: PhaseKey): seq<Event> {
    [] + [Deliver(FindingsReconciled(t, true, UNGATED))]
    + [Deliver(RemediationDispatched(t, p, NoEditor, REPAIR_START))]
    + [Phased(LaunchObserved(p, Running, Some(1), None, false))]
    + [Phased(PhaseCompleted(p, DONE))]
    + [Deliver(VerificationRecorded(t, false))]
    + [Deliver(FailureClassified(t, Block))]
  }

  lemma RepairedTicketIsBlocked(m: Manifest, t: TicketId, p: PhaseKey)
    requires Repairable(m, t, p)
    ensures Run(m, FailedRepair(t, p)) == Accepted(Patched(m, t, BlockedByFailure(Repaired(m.tickets[t], VerificationFailed)), p, RepairDone(t)))
  {
    var v := m.tickets[t];
    var m1 := WithStatus(m, t, NeedsRemediation);
    RepairIsAskedFor(m, t, p);
    assert m.anomalies == 0 && v.records.execution.Some? && v.records.execution.value.verification.NoEditor?;
    assert v.records.execution.value.implementation in m.phases && m.phases[v.records.execution.value.implementation].result.Some?;
    hide Step, Run, Patched, Repairable;
    var m2 := Patched(m, t, Repaired(v, Fixing), p, Repair(t));
    var m3 := Patched(m, t, Repaired(v, Fixing), p, Repair(t).(launch := Running, thread := Some(1)));
    var m4 := Patched(m, t, Repaired(v, AwaitingRemediationVerification), p, RepairDone(t));
    var m5 := Patched(m, t, Repaired(v, VerificationFailed), p, RepairDone(t));
    var m6 := Patched(m, t, BlockedByFailure(Repaired(v, VerificationFailed)), p, RepairDone(t));
    RepairIsLaunched(m, t, Repaired(v, Fixing), p);
    RepairIsCompleted(m, t, Repaired(v, Fixing), p);
    RepairFails(m, t, Repaired(v, AwaitingRemediationVerification), p);
    FailureBlocks(m, t, Repaired(v, VerificationFailed), p);
    RunNothing(m);
    var s := [] + [Deliver(FindingsReconciled(t, true, UNGATED))];
    ThenStep(m, [], m, Deliver(FindingsReconciled(t, true, UNGATED)), m1);
    ThenStep(m, s, m1, Deliver(RemediationDispatched(t, p, NoEditor, REPAIR_START)), m2);
    s := s + [Deliver(RemediationDispatched(t, p, NoEditor, REPAIR_START))];
    ThenStep(m, s, m2, Phased(LaunchObserved(p, Running, Some(1), None, false)), m3);
    s := s + [Phased(LaunchObserved(p, Running, Some(1), None, false))];
    ThenStep(m, s, m3, Phased(PhaseCompleted(p, DONE)), m4);
    s := s + [Phased(PhaseCompleted(p, DONE))];
    ThenStep(m, s, m4, Deliver(VerificationRecorded(t, false)), m5);
    s := s + [Deliver(VerificationRecorded(t, false))];
    ThenStep(m, s, m5, Deliver(FailureClassified(t, Block)), m6);
  }

  // ----- the isolation -----

  lemma IsolationIsAccepted(m: Manifest, t: TicketId, s: TicketId, head: Commit)
    requires m.anomalies == 0 && m.consolidated && m.train == Some(head) && NoActivePhase(m) && s != t
    requires t in m.tickets && m.tickets[t].status.TicketBlocked? && m.tickets[t].records.isolatedFor.None? && m.tickets[t].facts.blockedByFailure
    requires s in m.tickets && m.tickets[s] == READY
    ensures Step(m, Deliver(ContinuationIsolated(t, s, head)))
         == Accepted(WithTicket(m, t, m.tickets[t].(records := m.tickets[t].records.(isolatedFor := Some(s)))))
  {
    hide Step;
    var n := WithTicket(m, t, m.tickets[t].(records := m.tickets[t].records.(isolatedFor := Some(s))));
    assert IsolateContinuation(m, t, s, head) == Accepted(n);
    DeliveringSteps(m, ContinuationIsolated(t, s, head), n);
  }

  /** One ticket is merged, the others have not been started. */
  ghost predicate OneDelivered(m: Manifest, u: TicketId) {
    && Idle(m) && NoActivePhase(m) && m.consolidated && m.train.Some?
    && u in m.tickets && m.tickets[u].status.MergedIntoTrain? && forall t :: t in m.tickets && t != u ==> m.tickets[t] == READY
  }

  /** The ticket `t` has been reviewed, `s` has not been started, and a commit is on the train. */
  ghost predicate ReviewedBeside(m: Manifest, t: TicketId, s: TicketId, review: PhaseKey, p: PhaseKey) {
    && Repairable(m, t, p) && NoActivePhase(m) && m.consolidated && m.train.Some? && s != t && s in m.tickets && m.tickets[s] == READY
    && IsCompleted(m, review, Review, t) && m.tickets[t].facts.analysis.Some? && m.tickets[t].records.isolatedFor.None?
  }

  /** What the audited isolation of a blocked ticket leaves. */
  ghost predicate IsolatedFor(m: Manifest, t: TicketId, s: TicketId, review: PhaseKey) {
    && m.anomalies == 0 && t in m.tickets && m.tickets[t].status.TicketBlocked? && m.tickets[t].records.isolatedFor == Some(s)
    && IsCompleted(m, review, Review, t) && m.tickets[t].facts.analysis.Some? && ScopeAuthorized(m.tickets[t]) && m.tickets[t].budget.cycles == 1
    && m.tickets[t].records.execution.Some? && m.tickets[t].records.execution.value.implementation in m.phases
  }

  lemma ReviewedIsBeside(n: Manifest, x: Manifest, d: Delivery, u: TicketId, s: TicketId, p: PhaseKey)
    requires OneDelivered(n, u) && Fresh(n, d) && d.thread == 0 && d.pair.t in n.tickets && d.pair.t != u
    requires s in n.tickets && s != u && s != d.pair.t
    requires Dispatched(n, x, d.pair) && PairIntended(x, d) && p !in Reviewed(Combined(Authored(x, d), d), d).phases
    ensures ReviewedBeside(Reviewed(Combined(Authored(x, d), d), d), d.pair.t, s, d.review, p)
  {
    hide Idle;
    assert n.tickets[d.pair.t] == READY;
    assert x.anomalies == 0;
    var r := Reviewed(Combined(Authored(x, d), d), d);
    forall q | q in r.phases ensures !ActivePhase(r.phases[q].launch) {
      assert q == d.pair.implementation || q == d.pair.acceptance || q == d.review || (q in n.phases && r.phases[q] == n.phases[q]);
    }
  }

  function Isolation(t: TicketId, s: TicketId, head: Commit): Event {
    Deliver(ContinuationIsolated(t, s, head))
  }

  lemma BesideIsIsolated(m: Manifest, t: TicketId, s: TicketId, review: PhaseKey, p: PhaseKey) returns (events: seq<Event>)
    requires ReviewedBeside(m, t, s, review, p)
    ensures Run(m, events).Accepted? && IsolatedFor(Run(m, events).m, t, s, review) && NoActivePhase(Run(m, events).m)
  {
    hide Run, Step, FailedRepair;
    RepairedTicketIsBlocked(m, t, p);
    var n := Patched(m, t, BlockedByFailure(Repaired(m.tickets[t], VerificationFailed)), p, RepairDone(t));
    assert NoActivePhase(n);
    var head := m.train.value;
    IsolationIsAccepted(n, t, s, head);
    events := FailedRepair(t, p) + [Isolation(t, s, head)];
    ThenStep(m, FailedRepair(t, p), n, Isolation(t, s, head), Step(n, Isolation(t, s, head)).m);
  }

  lemma DeliveredOnce(m: Manifest, n: Manifest, d: Delivery)
    requires Undelivered(m) && OneMoreMerged(m, n, d.pair.t) && OnRecord(n, d) && Idle(n)
    ensures OneDelivered(n, d.pair.t)
  {
    hide Idle;
  }

  /** The next ticket is reviewed while another one has not been started. */
  lemma AnotherIsReviewed(n: Manifest, u: TicketId, s: TicketId, t: TicketId) returns (events: seq<Event>, review: PhaseKey, p: PhaseKey)
    requires OneDelivered(n, u) && t in Unmerged(n) && ReadyToDispatch(n, t) && s in Unmerged(n) && s != t
    ensures Run(n, events).Accepted? && ReviewedBeside(Run(n, events).m, t, s, review, p)
  {
    hide Run, Step, ReadyToDispatch, Idle, Dispatched, PairIntended, PairAuthored, Reviewed, Fresh, UpToReview;
    assert n.tickets[t] == READY && n.tickets[s] == READY && s != u && t != u;
    assert Waiting(n.tickets[t]);
    var d := FreshDelivery(n, t);
    var x := ReadyTicketIsReviewed(n, d);
    events := UpToReview(d);
    review := d.review;
    var r := Reviewed(Combined(Authored(x, d), d), d);
    var length := LengthsAreBounded(r.phases.Keys);
    p := Key(length);
    ReviewedIsBeside(n, x, d, u, s, p);
  }

  lemma SomeTicketIsIsolated(m: Manifest) returns (events: seq<Event>, t: TicketId, s: TicketId, review: PhaseKey)
    requires Undelivered(m) && |m.tickets| >= 3
    ensures Run(m, events).Accepted? && IsolatedFor(Run(m, events).m, t, s, review) && NoActivePhase(Run(m, events).m)
  {
    hide Run, Step, Idle, ReadyToDispatch, Undelivered, OneDelivered, OneMoreMerged, OnRecord, ReviewedBeside, IsolatedFor, NoActivePhase;
    var d: Delivery;
    events, d := FirstTicketIsMerged(m);
    var u, n := d.pair.t, Run(m, events).m;
    DeliveredOnce(m, n, d);
    assert |Unmerged(n)| >= 2 by { assert |m.tickets.Keys| >= 3; }
    t := NextIsReady(n);
    s := Another(Unmerged(n), t);
    var reviewed, p;
    reviewed, review, p := AnotherIsReviewed(n, u, s, t);
    RunConcat(m, events, reviewed);
    var rest := BesideIsIsolated(Run(n, reviewed).m, t, s, review, p);
    RunConcat(m, events + reviewed, rest);
    events := events + reviewed + rest;
  }

  lemma Another(ts: set<TicketId>, t: TicketId) returns (s: TicketId)
    requires |ts| >= 2
    ensures s in ts && s != t
  {
    assert |ts - {t}| >= 1;
    s :| s in ts - {t};
  }

  lemma IsolatedIsReleased(m: Manifest, t: TicketId, s: TicketId, review: PhaseKey)
    requires IsolatedFor(m, t, s, review) && NoActivePhase(m)
    ensures ReleasedIn(m, t, s) && Settled(m, t)
  {
  }

  /** From every bootstrapped live manifest of three tickets or more, some accepted run isolates a
      blocked ticket, which releases another one, and goes on to give the isolated ticket a new,
      active repair: the isolation is still on record and releases nothing any more. */
  lemma SomeIsolatedTicketIsRepairedAgain(m: Manifest) returns (first: seq<Event>, again: seq<Event>, t: TicketId, s: TicketId)
    requires Bootstrapped(m) && m.run.live && |m.tickets| >= 3
    ensures Run(m, first).Accepted? && ReleasedIn(Run(m, first).m, t, s)
    ensures var o := Run(m, first + again);
            && o.Accepted? && t in o.m.tickets && o.m.tickets[t].records.isolatedFor == Some(s)
            && HasActivePhase(o.m, t) && !ReleasedIn(o.m, t, s)
  {
    hide Run, Step, Undelivered, Reopening, HasActivePhase, NoActivePhase, Settled, IsCompleted;
    first := BootstrapIsAnalysed(m);
    var m1 := Run(m, first).m;
    assert |m1.tickets| == |m1.tickets.Keys|;
    var events, review;
    events, t, s, review := SomeTicketIsIsolated(m1);
    RunConcat(m, first, events);
    first := first + events;
    var n := Run(m, first).m;
    IsolatedIsReleased(n, t, s, review);
    var length := LengthsAreBounded(n.phases.Keys);
    again := Reopening(t, review, true) + [Deliver(RemediationDispatched(t, Key(length), NoEditor, REPAIR_START))];
    IsolatedTicketIsRepairedAgain(n, t, review, Key(length));
    RunConcat(m, first, again);
  }
}
