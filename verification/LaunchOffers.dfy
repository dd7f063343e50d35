/** When the planner offers a launch again after it was armed, and how a superseded phase comes to
    run again. */
module LaunchOffers {
  import opened Prelude
  import opened Manifest
  import opened PhaseEvents
  import opened GateEvents
  import opened FinalizationEvents
  import opened Events
  import opened Planner
  import opened LaunchProtocol
  import opened LaunchRecording
  import Completion
  import PlanningEvents
  import Progress

  // ----- when the launch is offered again -----

  /** The effect answers a pre-launch retry of the phase. */
  predicate Retries(w: World, a: Effect) {
    a.Elsewhere? && Step(w.manifest, a.event).Accepted? && Rearms(w.manifest, a.event, w.phase)
  }

  lemma ToldIntendsExactly(m: Manifest, e: Event, p: PhaseKey)
    requires p in m.phases && !Intended(m, p)
    ensures p in Told(m, e).phases
    ensures Intended(Told(m, e), p) <==> Step(m, e).Accepted? && Rearms(m, e, p)
  {
    hide Handle, Rearms;
    if Step(m, e).Accepted? {
      if Rearms(m, e, p) {
        AnswerRearms(m, e, p);
      } else {
        RearmingIsByAction(m, e, p);
        HandleDoesNotRearm(m, e.action, p);
      }
    }
  }

  lemma RearmingIsByAction(m: Manifest, e: Event, p: PhaseKey)
    ensures Rearms(m, e, p) <==> Rearms(m, Event(true, e.action), p)
  {
  }

  lemma AnswerRearms(m: Manifest, e: Event, p: PhaseKey)
    requires Handle(m, e.action).Accepted? && Rearms(m, e, p)
    ensures Intended(Handle(m, e.action).m, p)
  {
    hide Closes, OnlyStatus, NeverLaunched, RequestInput, AnnounceGate, ResolveGate, ResumePhase;
  }

  /** Once the launch is not intended any more, an effect makes it intended again exactly when it is
      the answer to a pre-launch retry. */
  lemma ActIntendsExactly(w: World, c: ClientId, a: Effect)
    requires w.phase in w.manifest.phases && !Intended(w.manifest, w.phase)
    ensures var n := Act(w, c, a);
            && n.phase == w.phase && n.phase in n.manifest.phases
            && (Intended(n.manifest, n.phase) <==> Retries(w, a))
  {
    hide Step, OffersLaunch, Told, Rearms, Recordable, RecordForbidden, Intended;
    ArmingDoesNotRearm(w.manifest, w.phase);
    if a.Elsewhere? { ToldIntendsExactly(w.manifest, a.event, w.phase); }
    if a.Apply? && At(w, c).Applying? { ReceiptDoesNotRearm(w.manifest, w.phase, At(w, c).event.receipt); }
  }

  lemma ArmingDoesNotRearm(m: Manifest, p: PhaseKey)
    requires p in m.phases && !Intended(m, p)
    ensures p in Told(m, ArmingEvent(p)).phases && !Intended(Told(m, ArmingEvent(p)), p)
  {
    hide Step, Told, Intended;
    ToldIntendsExactly(m, ArmingEvent(p), p);
  }

  lemma ReceiptDoesNotRearm(m: Manifest, p: PhaseKey, r: Receipt)
    requires p in m.phases && !Intended(m, p)
    ensures p in Told(m, ReceiptEvent(p, r)).phases && !Intended(Told(m, ReceiptEvent(p, r)), p)
  {
    hide Step, Told, Intended;
    ToldIntendsExactly(m, ReceiptEvent(p, r), p);
  }

  ghost predicate NeverRetried(w: World, steps: seq<(ClientId, Effect)>)
    decreases |steps|
  {
    steps == [] || (!Retries(w, steps[0].1) && NeverRetried(Act(w, steps[0].0, steps[0].1), steps[1..]))
  }

  lemma {:induction false} NotIntendedAgain(w: World, steps: seq<(ClientId, Effect)>)
    requires w.phase in w.manifest.phases && !Intended(w.manifest, w.phase) && NeverRetried(w, steps)
    ensures !Intended(Perform(w, steps).manifest, w.phase)
    decreases |steps|
  {
    hide Act, Retries, Intended;
    if steps != [] {
      ActIntendsExactly(w, steps[0].0, steps[0].1);
      NotIntendedAgain(Act(w, steps[0].0, steps[0].1), steps[1..]);
    }
  }

  /** Arming leaves the launch intended exactly when it was intended until then and this
      specification has armed the phase before: the event's identifier is the specification's digest,
      so a second arming is taken for a duplicate. */
  lemma ArmingEndsTheOfferExactly(w: World, c: ClientId, timely: bool)
    requires At(w, c).HandedOff? && At(Act(w, c, Arm(timely)), c).Armed?
    ensures var n := Act(w, c, Arm(timely));
            && n.phase == w.phase
            && (Intended(n.manifest, w.phase) <==> Intended(w.manifest, w.phase) && At(w, c).spec in w.armedBy)
            && (At(w, c).spec !in w.armedBy ==> w.phase in n.manifest.phases)
  {
    hide LeaseConfirmed, OnePhase, OneTicket, OpensAtMost, DispatchPhase, RecordCompletion, TerminatePhase, ReclassifyAcceptance;
  }

  /** Armed for the first time with its specification, the launch is never on offer again, whatever
      clients and the controller do, unless a pre-launch retry is answered. */
  lemma ArmedLaunchIsNeverReoffered(w: World, c: ClientId, timely: bool, steps: seq<(ClientId, Effect)>)
    requires At(w, c).HandedOff? && At(w, c).spec !in w.armedBy && At(Act(w, c, Arm(timely)), c).Armed?
    requires NeverRetried(Act(w, c, Arm(timely)), steps)
    ensures !OffersLaunch(Perform(Act(w, c, Arm(timely)), steps).manifest, w.phase)
  {
    hide Act, Perform, NeverRetried;
    ArmingEndsTheOfferExactly(w, c, timely);
    NotIntendedAgain(Act(w, c, Arm(timely)), steps);
  }

  // ----- a launch that is offered again -----

  lemma {:induction false} PerformConcat(w: World, a: seq<(ClientId, Effect)>, b: seq<(ClientId, Effect)>)
    ensures Perform(w, a + b) == Perform(Perform(w, a), b)
    decreases |a|
  {
    hide Act;
    if a == [] {
      assert a + b == b;
    } else {
      assert (a + b)[0] == a[0] && (a + b)[1..] == a[1..] + b;
      PerformConcat(Act(w, a[0].0, a[0].1), a[1..], b);
    }
  }

  /** The phase can be launched, and its ticket asked for input. */
  predicate Retryable(m: Manifest, p: PhaseKey, t: TicketId, g: GateId) {
    && OffersLaunch(m, p) && m.phases[p].requirement.NoEditor? && m.phases[p].thread.None? && m.phases[p].client.None?
    && t in m.tickets && !TerminalTicket(m.tickets[t].status) && g !in m.gates && m.pending.None?
  }

  lemma ArmingTold(m: Manifest, p: PhaseKey)
    requires p in m.phases && m.anomalies == 0
    ensures Step(m, ArmingEvent(p)) == Accepted(WithLaunch(m, p, LaunchUnknown)) && Told(m, ArmingEvent(p)) == WithLaunch(m, p, LaunchUnknown)
  {
    hide LeaseConfirmed, OnePhase, OneTicket, OpensAtMost, DispatchPhase, RecordCompletion, TerminatePhase, ReclassifyAcceptance;
  }

  /** What the controller is told to retry an unlaunched phase. */
  function RetryEvents(p: PhaseKey, t: TicketId, g: GateId): seq<Event> {
    [Event(true, Phasing(LaunchObserved(p, LaunchState.Blocked, None, None, false))), Progress.Gated(InputRequested(t, g, Some(p))),
     Progress.Gated(GateAnnounced(g)), Progress.Gated(InputProvided(g))]
  }

  lemma BlockingTold(m: Manifest, p: PhaseKey)
    requires p in m.phases && m.anomalies == 0
    ensures Told(m, Event(true, Phasing(LaunchObserved(p, LaunchState.Blocked, None, None, false)))) == WithLaunch(m, p, LaunchState.Blocked)
  {
    hide LeaseConfirmed, OnePhase, OneTicket, OpensAtMost, DispatchPhase, RecordCompletion, TerminatePhase, ReclassifyAcceptance;
  }

  function Request(m: Manifest, p: PhaseKey, t: TicketId): Gate
    requires t in m.tickets
  {
    Gate(InputGate, t, Some(p), Some(m.tickets[t].status), PrelaunchRetry, Unannounced)
  }

  lemma RequestTold(m: Manifest, p: PhaseKey, t: TicketId, g: GateId)
    requires m.anomalies == 0 && t in m.tickets && !TerminalTicket(m.tickets[t].status) && g !in m.gates && p in m.phases && NeverLaunched(m.phases[p])
    ensures Told(m, Progress.Gated(InputRequested(t, g, Some(p)))) == WithStatus(WithGate(m, g, Request(m, p, t)), t, AwaitingRequiredInput)
  {
    hide OneTicket, OpensAtMost, AnnounceGate, ResolveGate, ProvideInput, ResumePhase;
  }

  lemma AnswerTold(m: Manifest, p: PhaseKey, t: TicketId, g: GateId)
    requires m.anomalies == 0 && m.pending.None? && t in m.tickets && g in m.gates && p in m.phases && NeverLaunched(m.phases[p])
    requires m.gates[g].kind.InputGate? && m.gates[g].status.Unannounced? && m.gates[g].resume.PrelaunchRetry? && m.gates[g].phase == Some(p) && m.gates[g].ticket == t
    ensures var n := Told(Told(m, Progress.Gated(GateAnnounced(g))), Progress.Gated(InputProvided(g)));
            n == m.(tickets := n.tickets, gates := n.gates, phases := m.phases[p := m.phases[p].(launch := IntentRecorded)])
  {
    hide OneTicket, OpensAtMost, RequestInput, ResolveGate, ResumePhase, RestoredStatus, Closes, OnlyStatus;
  }

  lemma RetryRearms(m: Manifest, p: PhaseKey, t: TicketId, g: GateId)
    requires Retryable(m, p, t, g)
    ensures var e := RetryEvents(p, t, g);
            OffersLaunch(Told(Told(Told(Told(WithLaunch(m, p, LaunchUnknown), e[0]), e[1]), e[2]), e[3]), p)
  {
    hide Step, Told;
    var m1 := WithLaunch(m, p, LaunchUnknown);
    BlockingTold(m1, p);
    var m2 := WithLaunch(m1, p, LaunchState.Blocked);
    RequestTold(m2, p, t, g);
    var m3 := WithStatus(WithGate(m2, g, Request(m2, p, t)), t, AwaitingRequiredInput);
    AnswerTold(m3, p, t, g);
  }

  function FirstAttempt(spec: SpecDigest): seq<(ClientId, Effect)> {
    [(0, Ask(spec))] + [(0, LockToBegin)] + [(0, CheckHandoff(true))] + [(0, Arm(true))] + [(0, Crash)]
  }

  function Retry(p: PhaseKey, t: TicketId, g: GateId): seq<(ClientId, Effect)> {
    var e := RetryEvents(p, t, g);
    [(1, RemoveStaleLock)] + [(1, Elsewhere(e[0]))] + [(1, Elsewhere(e[1]))] + [(1, Elsewhere(e[2]))] + [(1, Elsewhere(e[3]))]
  }

  function SecondAttempt(spec: SpecDigest, answer: Receipt): seq<(ClientId, Effect)> {
    [(1, Ask(spec))] + BeginSteps(1, None, true, true) + [(1, Create(answer))]
  }

  lemma PerformFive(w: World, s: seq<(ClientId, Effect)>)
    requires |s| == 5
    ensures Perform(w, [s[0]] + [s[1]] + [s[2]] + [s[3]] + [s[4]])
         == Act(Act(Act(Act(Act(w, s[0].0, s[0].1), s[1].0, s[1].1), s[2].0, s[2].1), s[3].0, s[3].1), s[4].0, s[4].1)
  {
    hide Act, Perform;
    PerformNothing(w);
    ThenAct(w, [], s[0].0, s[0].1);
    assert [] + [s[0]] == [s[0]];
    ThenAct(w, [s[0]], s[1].0, s[1].1);
    ThenAct(w, [s[0]] + [s[1]], s[2].0, s[2].1);
    ThenAct(w, [s[0]] + [s[1]] + [s[2]], s[3].0, s[3].1);
    ThenAct(w, [s[0]] + [s[1]] + [s[2]] + [s[3]], s[4].0, s[4].1);
  }

  lemma FirstAttemptDies(w: World, spec: SpecDigest)
    requires Fresh(w) && OffersLaunch(w.manifest, w.phase) && spec !in w.armedBy
    ensures Perform(w, FirstAttempt(spec))
         == w.(manifest := WithLaunch(w.manifest, w.phase, LaunchUnknown), armedBy := w.armedBy + {spec}, lock := Some(0), clients := map[0 := Crashed])
  {
    ArmingTold(w.manifest, w.phase);
    PerformFive(w, FirstAttempt(spec));
    hide Step, Told, OffersLaunch, Perform, IntentEvent, ArmingEvent;
    var w1 := Act(w, 0, Ask(spec));
    var w2 := Act(w1, 0, LockToBegin);
    assert w2 == w.(lock := Some(0), clients := map[0 := Beginning(spec)]);
    var w3 := Act(w2, 0, CheckHandoff(true));
    assert w3 == w.(lock := Some(0), clients := map[0 := HandedOff(spec)]);
    var w4 := Act(w3, 0, Arm(true));
    assert w4.clients == map[0 := Armed(spec)];
  }

  lemma ElsewhereIs(w: World, c: ClientId, e: Event)
    ensures Act(w, c, Elsewhere(e)) == w.(manifest := Told(w.manifest, e))
  {
    hide Told;
  }

  lemma StaleLockIsRemoved(w: World, c: ClientId)
    requires w.lock == Some(0) && At(w, 0).Crashed?
    ensures Act(w, c, RemoveStaleLock) == w.(lock := None)
  {
  }

  lemma RetryIsOffered(w: World, t: TicketId, g: GateId, m: Manifest)
    requires Retryable(m, w.phase, t, g) && w.manifest == WithLaunch(m, w.phase, LaunchUnknown)
    requires w.lock == Some(0) && At(w, 0).Crashed?
    ensures var n := Perform(w, Retry(w.phase, t, g)); n == w.(lock := None, manifest := n.manifest) && OffersLaunch(n.manifest, w.phase)
  {
    PerformFive(w, Retry(w.phase, t, g));
    RetryRearms(m, w.phase, t, g);
    hide Perform, Told, Step, RetryEvents, OffersLaunch, Act, Retryable;
    var e := RetryEvents(w.phase, t, g);
    var w1 := w.(lock := None);
    StaleLockIsRemoved(w, 1);
    var w2 := w1.(manifest := Told(w1.manifest, e[0]));
    ElsewhereIs(w1, 1, e[0]);
    var w3 := w2.(manifest := Told(w2.manifest, e[1]));
    ElsewhereIs(w2, 1, e[1]);
    var w4 := w3.(manifest := Told(w3.manifest, e[2]));
    ElsewhereIs(w3, 1, e[2]);
    ElsewhereIs(w4, 1, e[3]);
  }

  lemma SecondAttemptCreates(w: World, spec: SpecDigest, answer: Receipt)
    requires w.lock.None? && w.journal.None? && At(w, 1).Idle? && w.created == [] && OffersLaunch(w.manifest, w.phase) && spec in w.armedBy
    ensures var n := Perform(w, SecondAttempt(spec, answer)); n.created == [answer] && n.manifest == w.manifest && n.phase == w.phase
  {
    hide Perform, Step, Told, OffersLaunch, BeginSteps;
    var w1 := Act(w, 1, Ask(spec));
    PerformNothing(w);
    ThenAct(w, [], 1, Ask(spec));
    assert [] + [(1, Ask(spec))] == [(1, Ask(spec))];
    PerformConcat(w, [(1, Ask(spec))], BeginSteps(1, None, true, true));
    BeginIs(w1, 1, spec, None, true, true);
    ThenAct(w, [(1, Ask(spec))] + BeginSteps(1, None, true, true), 1, Create(answer));
    assert OffersLaunch(w.manifest, w.phase) ==> w.phase in w.manifest.phases by { OfferedIsThere(w.manifest, w.phase); }
  }

  lemma OfferedIsThere(m: Manifest, p: PhaseKey)
    ensures OffersLaunch(m, p) ==> p in m.phases
  {
  }

  /** The condition can fail: a first attempt dies before its journal is written, a pre-launch retry
      is answered, and a second attempt with the same specification creates the task, once, while
      the planner goes on offering the launch. */
  lemma RetriedArmingIsStillOffered(w: World, spec: SpecDigest, answer: Receipt, t: TicketId, g: GateId)
    requires Fresh(w) && Retryable(w.manifest, w.phase, t, g) && spec !in w.armedBy
    ensures var n := Perform(w, FirstAttempt(spec) + Retry(w.phase, t, g) + SecondAttempt(spec, answer));
            n.created == [answer] && OffersLaunch(n.manifest, w.phase)
  {
    hide Perform, Step, Told, OffersLaunch, FirstAttempt, Retry, SecondAttempt;
    var a, b, d := FirstAttempt(spec), Retry(w.phase, t, g), SecondAttempt(spec, answer);
    PerformConcat(w, a + b, d);
    PerformConcat(w, a, b);
    FirstAttemptDies(w, spec);
    RetryIsOffered(Perform(w, a), t, g, w.manifest);
    SecondAttemptCreates(Perform(w, a + b), spec, answer);
  }

  // ----- a superseded phase that runs again -----

  /** The final review `p` is about to be launched for the head `previous`, and no final review runs. */
  predicate ReviewAwaitsLaunch(m: Manifest, p: PhaseKey, previous: Commit) {
    && OffersLaunch(m, p) && m.phases[p].kind.FinalReview? && m.phases[p].requirement.NoEditor?
    && m.final.status.FinalPrReview? && m.final.pr.Some? && m.final.pr.value.head == previous
    && forall q :: q in m.phases && m.phases[q].kind.FinalReview? ==> !m.phases[q].launch.Running?
  }

  function Drift(previous: Commit, head: Commit): Event {
    Event(true, Finalizing(FinalHeadDrifted(previous, head)))
  }

  lemma DriftSupersedes(m: Manifest, p: PhaseKey, previous: Commit, head: Commit)
    requires ReviewAwaitsLaunch(m, p, previous) && head != previous
    ensures var n := Told(WithLaunch(m, p, LaunchUnknown), Drift(previous, head));
            && p in n.phases && n.phases[p] == m.phases[p].(launch := Superseded) && n.anomalies == 0
            && n.final.pr.Some? && n.final.pr.value.head == head
  {
    hide HoldsSlot, OnePhase;
    hide RecordDryRunEvidence, StartFinalization, RecordFinalPr, RecordRemediationPr, MergeRemediation, RemediateMetadata, MarkFinalPrReady,
         RecordFinalVerification, ClassifyFinalFailure, DispatchFinalReview, RecordFinalReview, StartFeedback, RecordFeedback, ReconcileFinalFindings,
         DispatchFinalRemediation, RecordFinalEvidence, AuthorizeBaseMerge, MergeIntoBase;
  }

  /** Begin, create, persist; the final head drifts before the launch is recorded. */
  function Overtaken(spec: SpecDigest, thread: Reference, previous: Commit, head: Commit): seq<(ClientId, Effect)> {
    [(0, Ask(spec))] + BeginSteps(0, None, true, true) + [(0, Create(Task(thread)))] + [(0, PersistReceipt)] + [(0, Elsewhere(Drift(previous, head)))]
  }

  lemma BegunAlone(w: World, spec: SpecDigest)
    requires Fresh(w) && OffersLaunch(w.manifest, w.phase) && spec !in w.armedBy
    ensures Perform(w, [(0, Ask(spec))] + BeginSteps(0, None, true, true))
         == w.(manifest := WithLaunch(w.manifest, w.phase, LaunchUnknown), armedBy := w.armedBy + {spec},
               journal := Some(Journal(spec, None, false)), clients := map[0 := MayCreate(spec)])
  {
    ArmingTold(w.manifest, w.phase);
    hide Perform, Step, Told, OffersLaunch, BeginSteps, ArmingEvent;
    var w1 := Act(w, 0, Ask(spec));
    PerformNothing(w);
    ThenAct(w, [], 0, Ask(spec));
    assert [] + [(0, Ask(spec))] == [(0, Ask(spec))];
    PerformConcat(w, [(0, Ask(spec))], BeginSteps(0, None, true, true));
    BeginIs(w1, 0, spec, None, true, true);
    OfferedIsThere(w.manifest, w.phase);
  }

  lemma OvertakenIs(w: World, spec: SpecDigest, thread: Reference, previous: Commit, head: Commit)
    requires Fresh(w) && OffersLaunch(w.manifest, w.phase) && spec !in w.armedBy
    ensures Perform(w, Overtaken(spec, thread, previous, head))
         == w.(manifest := Told(WithLaunch(w.manifest, w.phase, LaunchUnknown), Drift(previous, head)), armedBy := w.armedBy + {spec},
               journal := Some(Journal(spec, None, false)), receipt := Some(Task(thread)), created := [Task(thread)],
               clients := map[0 := WantsRecord(spec)])
  {
    hide Perform, Step, Told, OffersLaunch, BeginSteps, Drift;
    var s := [(0, Ask(spec))] + BeginSteps(0, None, true, true);
    BegunAlone(w, spec);
    ThenAct(w, s, 0, Create(Task(thread)));
    ThenAct(w, s + [(0, Create(Task(thread)))], 0, PersistReceipt);
    ThenAct(w, s + [(0, Create(Task(thread)))] + [(0, PersistReceipt)], 0, Elsewhere(Drift(previous, head)));
    OfferedIsThere(w.manifest, w.phase);
    var m := WithLaunch(w.manifest, w.phase, LaunchUnknown);
    var w1 := w.(manifest := m, armedBy := w.armedBy + {spec}, journal := Some(Journal(spec, None, false)));
    assert Perform(w, s + [(0, Create(Task(thread)))]) == w1.(created := [Task(thread)], clients := map[0 := HasReceipt(spec, Task(thread))]);
  }

  /** A review launched for one head is superseded when the head drifts, and runs again when its
      launch is recorded afterwards. */
  lemma SupersededReviewRunsAgain(w: World, spec: SpecDigest, thread: Reference, previous: Commit, head: Commit, observation: Reference)
    requires Fresh(w) && ReviewAwaitsLaunch(w.manifest, w.phase, previous) && head != previous && spec !in w.armedBy
    requires w.manifest.phases[w.phase].forbiddenThread != Some(thread)
    ensures var before := Perform(w, Overtaken(spec, thread, previous, head));
            var after := Perform(before, RecordSteps(0, Some(observation), true));
            && w.phase in before.manifest.phases && before.manifest.phases[w.phase].launch.Superseded?
            && w.phase in after.manifest.phases && after.manifest.phases[w.phase].launch.Running?
            && after.manifest.final.pr.Some? && after.manifest.final.pr.value.head == head
  {
    hide Perform, Step, Told, BeginSteps, RecordSteps, Overtaken, Drift, WorldSound;
    assert WorldSound(w) by { FreshIsSound(w); }
    EveryWorldIsSound(w, Overtaken(spec, thread, previous, head));
    OvertakenIs(w, spec, thread, previous, head);
    DriftSupersedes(w.manifest, w.phase, previous, head);
    RecordCompletesExactly(Perform(w, Overtaken(spec, thread, previous, head)), 0, Some(observation), true);
  }

  lemma FreshIsSound(w: World)
    requires Fresh(w)
    ensures WorldSound(w)
  {
  }

  // ----- both from bootstrap -----

  /** The world of one launch, before anybody has asked for it. */
  function Untouched(m: Manifest, p: PhaseKey): World {
    World(p, m, {}, map[], None, None, None, [], map[])
  }

  /** The final review of a delivered run is about to be launched. */
  lemma DeliveredReviewAwaitsLaunch(m: Manifest, n: Manifest, p: PhaseKey)
    requires Completion.Deliverable(m) && Completion.FinalReviewIntended(m, n, p)
    ensures ReviewAwaitsLaunch(n, p, 1) && n.phases[p].forbiddenThread.None?
  {
    forall q | q in n.phases && n.phases[q].kind.FinalReview? ensures !n.phases[q].launch.Running? {
      assert q == p || (q in m.phases && n.phases[q] == m.phases[q]);
    }
  }

  /** From every bootstrapped live manifest with a ticket, some accepted run leads to a final review
      that is superseded before its launch is recorded and then runs for the drifted head. */
  lemma SomeSupersededReviewRunsAgain(m: Manifest, spec: SpecDigest, thread: Reference, head: Commit, observation: Reference)
      returns (events: seq<Event>, p: PhaseKey)
    requires Bootstrapped(m) && m.run.live && m.tickets != map[] && head != 1
    ensures Run(m, events).Accepted?
    ensures var before := Perform(Untouched(Run(m, events).m, p), Overtaken(spec, thread, 1, head));
            var after := Perform(before, RecordSteps(0, Some(observation), true));
            && p in before.manifest.phases && before.manifest.phases[p].launch.Superseded?
            && p in after.manifest.phases && after.manifest.phases[p].launch.Running?
            && after.manifest.final.pr.Some? && after.manifest.final.pr.value.head == head
  {
    hide Run, Step, Perform, Overtaken, RecordSteps, Completion.Deliverable, Completion.FinalReviewIntended, ReviewAwaitsLaunch;
    events := Completion.BootstrapIsDelivered(m);
    var n := Run(m, events).m;
    var review;
    review, p := Completion.DeliveredRunIsReviewed(n);
    Progress.RunConcat(m, events, review);
    events := events + review;
    DeliveredReviewAwaitsLaunch(n, Run(m, events).m, p);
    assert p in Run(m, events).m.phases by { AwaitedIsThere(Run(m, events).m, p); }
    SupersededReviewRunsAgain(Untouched(Run(m, events).m, p), spec, thread, 1, head, observation);
  }

  lemma AwaitedIsThere(m: Manifest, p: PhaseKey)
    requires ReviewAwaitsLaunch(m, p, 1)
    ensures p in m.phases
  {
  }

  /** From every bootstrapped manifest, some accepted run leads to the intended analysis of any of its
      tickets whose launch, retried, is still on offer after its task was created. */
  lemma SomeRetriedAnalysisIsStillOffered(m: Manifest, t: TicketId, spec: SpecDigest, answer: Receipt) returns (events: seq<Event>)
    requires Bootstrapped(m) && t in m.tickets
    ensures Run(m, events).Accepted?
    ensures var n := Perform(Untouched(Run(m, events).m, "analysis"), FirstAttempt(spec) + Retry("analysis", t, "gate") + SecondAttempt(spec, answer));
            n.created == [answer] && OffersLaunch(n.manifest, "analysis")
  {
    hide Run, Step, Perform, FirstAttempt, Retry, SecondAttempt;
    events := Completion.PhaseIsDone(m, "triage", Triage, None);
    var m1 := WithPhase(m, "triage", Completion.Done(Triage, None));
    var e := Completion.Planned(PlanningEvents.TicketTriaged(t, "triage"));
    var m2 := WithTicket(m1, t, Completion.TRIAGED);
    Completion.TriageIsAccepted(m1, "triage", t);
    Completion.ThenStep(m, events, m1, e, m2);
    events := events + [e];
    assert ActiveAnalyses(m2) == {};
    e := Progress.Phased(PhaseDispatched("analysis", Analysis, Some(t), NoEditor, 0));
    var m3 := WithPhase(m2, "analysis", NewPhase(Some(t), Analysis, NoEditor, Detached(0)));
    Completion.DispatchIsAllowed(m2, "analysis", Analysis, Some(t));
    Completion.ThenStep(m, events, m2, e, m3);
    events := events + [e];
    RetriedArmingIsStillOffered(Untouched(m3, "analysis"), spec, answer, t, "gate");
  }
}
