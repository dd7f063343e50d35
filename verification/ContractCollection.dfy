/** Collecting a contract validator's result through a replay journal (`collect_contract`).

    One collector, re-run after crashes: it fixes the event in a journal first and applies the
    journalled event to the stored manifest afterwards. Other events may be applied in between.
    Whether the captured snapshot is still fresh enough changes with time, so the trial run of the
    handler and its final run may come out differently. */
module ContractCollection {
  import opened Prelude
  import opened EventStore
  import Events
  import Manifest
  import PlanningEvents

  /** The digest of a result file, written out. */
  type Digest = s: string | |s| == 64 witness seq(64, i => '0')

  /** The event a collection applies; `snapshot` is the captured task state. */
  datatype Collection = Collection(result: Digest, snapshot: Reference)

  function Prefix(phase: PhaseKey): EventId {
    "contract-collected:" + phase
  }

  /** The event's identifier names the phase and the result, not the snapshot. */
  function IdOf(phase: PhaseKey, result: Digest): EventId {
    Prefix(phase) + result
  }

  /** The identifier belongs to a collection of this phase. */
  predicate IsCollectionId(phase: PhaseKey, id: EventId) {
    Prefix(phase) <= id && |id| == |Prefix(phase)| + 64
  }

  lemma CollectionIds(phase: PhaseKey, id: EventId)
    ensures IsCollectionId(phase, id) <==> exists result: Digest :: id == IdOf(phase, result)
  {
    if IsCollectionId(phase, id) {
      var result: Digest := id[|Prefix(phase)|..];
      assert id == IdOf(phase, result);
    }
    forall result: Digest | id == IdOf(phase, result) ensures IsCollectionId(phase, id) {
      assert id[..|Prefix(phase)|] == Prefix(phase);
    }
  }

  lemma IdsDiffer(phase: PhaseKey, a: Digest, b: Digest)
    requires IdOf(phase, a) == IdOf(phase, b)
    ensures a == b
  {
    assert IdOf(phase, a)[|Prefix(phase)|..] == a && IdOf(phase, b)[|Prefix(phase)|..] == b;
  }

  /** Two phases never share an identifier, because every digest has the same length. */
  lemma PhasesDiffer(p: PhaseKey, q: PhaseKey, a: Digest, b: Digest)
    requires IdOf(p, a) == IdOf(q, b)
    ensures p == q && a == b
  {
    var x, y := IdOf(p, a), IdOf(q, b);
    var k := |"contract-collected:"|;
    assert |x| == k + |p| + 64 && |y| == k + |q| + 64;
    assert x[k..|x| - 64] == p && y[k..|y| - 64] == q;
    assert x[|x| - 64..] == a && y[|y| - 64..] == b;
  }

  /** A collection of another phase is one of the other events. */
  lemma OtherPhasesAreElsewhere(phase: PhaseKey, other: PhaseKey, result: Digest)
    requires other != phase
    ensures !IsCollectionId(phase, IdOf(other, result))
  {
    CollectionIds(phase, IdOf(other, result));
    forall own: Digest ensures IdOf(phase, own) != IdOf(other, result) {
      if IdOf(phase, own) == IdOf(other, result) { PhasesDiffer(phase, other, own, result); }
    }
  }

  /** The stored manifest and the journal file. */
  datatype World<S> = World(phase: PhaseKey, file: Stored<S, Collection>, journal: Option<Collection>)

  /** One run of the collector. `valid` says that the result file passes its own checks, `passes`
      and `accepts` whether the time-dependent checks of the handler hold in the trial and in the
      final run, and `life` how many durable writes the process lives to make. */
  datatype Attempt = Attempt(result: Digest, snapshot: Option<Reference>, expected: nat, valid: bool, passes: bool, accepts: bool, life: nat)

  datatype Outcome = Refused | Died | Replied(reply: Reply)

  /** The handler as it answers while the time-dependent checks hold or do not. */
  function Timely<S(!new)>(handle: Handler<S, Collection>, holds: bool): Handler<S, Collection> {
    (s: S, e: Collection) => if holds then handle(s, e) else None
  }

  /** The event that this attempt journals, or `None` when it is refused before writing anything. */
  function Journalled<S(!new)>(handle: Handler<S, Collection>, w: World<S>, t: Attempt): Option<Collection> {
    if !t.valid then None
    else
      match w.journal
      case Some(e) =>
        if e.result != t.result then None
        else if IdOf(w.phase, e.result) in w.file.applied || t.snapshot.None? then Some(e)
        else
          var renewed := e.(snapshot := t.snapshot.value);
          if Timely(handle, t.passes)(w.file.procedure, renewed).Some? then Some(renewed) else None
      case None =>
        if t.snapshot.None? then None
        else
          var first := Collection(t.result, t.snapshot.value);
          if Timely(handle, t.passes)(w.file.procedure, first).Some? then Some(first) else None
  }

  function Collect<S(!new)>(handle: Handler<S, Collection>, w: World<S>, t: Attempt): (World<S>, Outcome) {
    match Journalled(handle, w, t)
    case None => (w, Refused)
    case Some(e) =>
      var writes := if w.journal == Some(e) then 0 else 1;
      if t.life < writes then (w, Died)
      else
        var journalled := w.(journal := Some(e));
        var (file, reply) := Answer(Timely(handle, t.accepts), w.file, Request(IdOf(w.phase, e.result), e, t.expected));
        if reply.Applied? && t.life < writes + 1 then (journalled, Died)
        else (journalled.(file := file), Replied(reply))
  }

  /** Any other event is applied to the manifest. */
  function Elsewhere<S(!new)>(w: World<S>, r: Request<Collection>, p: S): World<S> {
    if IsCollectionId(w.phase, r.id) || r.id in w.file.applied then w else w.(file := Extend(w.file, r, p))
  }

  datatype Happening<S> = Run(attempt: Attempt) | Other(request: Request<Collection>, procedure: S)

  function Happen<S(!new)>(handle: Handler<S, Collection>, w: World<S>, h: Happening<S>): World<S> {
    match h
    case Run(t) => Collect(handle, w, t).0
    case Other(r, p) => Elsewhere(w, r, p)
  }

  function HappenAll<S(!new)>(handle: Handler<S, Collection>, w: World<S>, hs: seq<Happening<S>>): World<S>
    decreases |hs|
  {
    if hs == [] then w else HappenAll(handle, Happen(handle, w, hs[0]), hs[1..])
  }

  // ----- the invariant -----

  /** An applied collection is the journalled one, and there is at most one. */
  ghost predicate JournalSound<S(!new)>(w: World<S>) {
    forall result: Digest :: IdOf(w.phase, result) in w.file.applied ==>
      w.journal.Some? && w.journal.value.result == result && w.file.applied[IdOf(w.phase, result)] == w.journal.value
  }

  predicate Committed<S(!new)>(w: World<S>) {
    w.journal.Some? && IdOf(w.phase, w.journal.value.result) in w.file.applied
  }

  /** The result in the journal never changes, and once it is applied nothing in the journal does. */
  predicate JournalKept<S(!new)>(a: World<S>, b: World<S>) {
    && b.phase == a.phase
    && (a.journal.Some? ==> b.journal.Some? && b.journal.value.result == a.journal.value.result)
    && (Committed(a) ==> b.journal == a.journal && Committed(b))
  }

  lemma HappeningKeeps<S(!new)>(handle: Handler<S, Collection>, w: World<S>, h: Happening<S>)
    requires JournalSound(w)
    ensures JournalSound(Happen(handle, w, h)) && JournalKept(w, Happen(handle, w, h))
  {
    var n := Happen(handle, w, h);
    forall result: Digest | IdOf(w.phase, result) in n.file.applied
      ensures n.journal.Some? && n.journal.value.result == result && n.file.applied[IdOf(w.phase, result)] == n.journal.value
    {
      if IdOf(w.phase, result) !in w.file.applied && h.Run? { IdsDiffer(w.phase, result, n.journal.value.result); }
      if h.Other? { CollectionIds(w.phase, IdOf(w.phase, result)); }
    }
  }

  /** However often the collector is re-run, with whatever results and snapshots and wherever it
      dies, the manifest gets at most one collection, with the journalled payload. */
  lemma {:induction false} CollectionIsSound<S(!new)>(handle: Handler<S, Collection>, w: World<S>, hs: seq<Happening<S>>)
    requires JournalSound(w)
    ensures JournalSound(HappenAll(handle, w, hs)) && JournalKept(w, HappenAll(handle, w, hs))
    decreases |hs|
  {
    hide JournalSound, Happen;
    if hs != [] {
      HappeningKeeps(handle, w, hs[0]);
      CollectionIsSound(handle, Happen(handle, w, hs[0]), hs[1..]);
    }
  }

  // ----- what single attempts do -----

  /** A different result is refused and changes nothing. */
  lemma DifferentResultIsRefused<S(!new)>(handle: Handler<S, Collection>, w: World<S>, t: Attempt)
    requires w.journal.Some? && w.journal.value.result != t.result
    ensures Collect(handle, w, t) == (w, Refused)
  {
  }

  /** A replay of an applied collection is a duplicate: it consumes no revision and changes nothing. */
  lemma ReplayConsumesNothing<S(!new)>(handle: Handler<S, Collection>, w: World<S>, t: Attempt)
    requires JournalSound(w) && Committed(w) && t.valid && t.result == w.journal.value.result
    ensures Collect(handle, w, t) == (w, Replied(Duplicate))
  {
  }

  /** An attempt changes the stored manifest exactly when it reports the event as applied, and then
      one revision is consumed and the procedure is the handler's result as a whole. */
  lemma AttemptCommitsAllOrNothing<S(!new)>(handle: Handler<S, Collection>, w: World<S>, t: Attempt)
    ensures var (n, o) := Collect(handle, w, t);
            if o == Replied(Applied)
            then n.file.revision == w.file.revision + 1 && Committed(n) && n.journal.value.result == t.result
                 && handle(w.file.procedure, n.journal.value) == Some(n.file.procedure)
            else n.file == w.file
  {
  }

  /** After any interruption a run with a fresh snapshot completes the collection, exactly when the
      handler still accepts it. */
  lemma RetryCompletesExactly<S(!new)>(handle: Handler<S, Collection>, w: World<S>, result: Digest, snapshot: Reference)
    requires JournalSound(w) && !Committed(w) && (w.journal.Some? ==> w.journal.value.result == result)
    ensures var t := Attempt(result, Some(snapshot), w.file.revision, true, true, true, 2);
            var (n, o) := Collect(handle, w, t);
            && (o == Replied(Applied) <==> handle(w.file.procedure, Collection(result, snapshot)).Some?)
            && (o == Replied(Applied) ==> n.journal == Some(Collection(result, snapshot)) && Committed(n))
            && (o != Replied(Applied) ==> n == w)
  {
  }

  // ----- the controller's side -----

  /** The phase runs, its ticket waits for the verdict, and no cost anomaly is open or found. */
  predicate Collectable(m: Manifest.Manifest, t: TicketId, p: PhaseKey, excess: nat) {
    && p in m.phases && m.phases[p].kind.ContractValidation? && m.phases[p].ticket == Some(t) && m.phases[p].launch.Running?
    && t in m.tickets && m.tickets[t].status.ReadyForImplementation? && m.tickets[t].facts.analysis.Some?
    && m.anomalies + excess == 0
  }

  /** In the controller the phase's completion and the ticket's verdict commit together, exactly when
      the collection is possible. */
  lemma PhaseAndVerdictCommitTogether(m: Manifest.Manifest, t: TicketId, p: PhaseKey, passed: bool, report: Manifest.Report)
    ensures var o := PlanningEvents.CollectContractResult(m, t, p, passed, report);
            && (o.Accepted? <==> Collectable(m, t, p, report.excess))
            && (o.Accepted? ==>
                  && o.m.phases == m.phases[p := m.phases[p].(launch := Manifest.Completed, result := report.commit)]
                  && t in o.m.tickets && (if passed then o.m.tickets[t].facts.contract.PassedVerdict? else o.m.tickets[t].facts.contract.FailedVerdict?)
                  && (o.m.tickets[t].status.NeedsContractAmendment? <==> !passed))
  {
    hide Manifest.OneTicket, Manifest.OnePhase;
  }

  /** What a result file says, by its digest: the verdict, and the cost anomalies in its usage. */
  datatype Contents = Contents(passed: Digest -> bool, excess: Digest -> nat)

  /** The report that the collector makes of a result names no commit. */
  function ReportOf(contents: Contents, result: Digest): Manifest.Report {
    Manifest.Report(None, contents.excess(result))
  }

  function CollectionEvent(t: TicketId, p: PhaseKey, contents: Contents, result: Digest): Events.Event {
    Events.Event(true, Events.Planning(PlanningEvents.ContractResultCollected(t, p, contents.passed(result), ReportOf(contents, result))))
  }

  /** The controller as the handler of collections for the validation phase `p` of ticket `t`. */
  function ControllerHandler(t: TicketId, p: PhaseKey, contents: Contents): Handler<Manifest.Manifest, Collection> {
    (m: Manifest.Manifest, c: Collection) =>
      var o := Events.Step(m, CollectionEvent(t, p, contents, c.result));
      if o.Accepted? then Some(o.m) else None
  }

  lemma ControllerCollectsExactly(m: Manifest.Manifest, t: TicketId, p: PhaseKey, contents: Contents, result: Digest)
    ensures var o := Events.Step(m, CollectionEvent(t, p, contents, result));
            && (o.Accepted? <==> Collectable(m, t, p, contents.excess(result)))
            && (o.Accepted? ==> o == PlanningEvents.CollectContractResult(m, t, p, contents.passed(result), ReportOf(contents, result)))
  {
    hide PlanningEvents.CollectContractResult;
    PhaseAndVerdictCommitTogether(m, t, p, contents.passed(result), ReportOf(contents, result));
  }

  /** With the controller as the handler: after any interruption, a run with a fresh snapshot
      completes the collection exactly when the phase still runs, its ticket still waits and no cost
      anomaly stands in the way; completion and verdict are then stored as one revision. */
  lemma ControllerRetryCompletesExactly(w: World<Manifest.Manifest>, t: TicketId, contents: Contents, result: Digest, snapshot: Reference)
    requires JournalSound(w) && !Committed(w) && (w.journal.Some? ==> w.journal.value.result == result)
    ensures var (n, o) := Collect(ControllerHandler(t, w.phase, contents), w, Attempt(result, Some(snapshot), w.file.revision, true, true, true, 2));
            var before, after := w.file.procedure, n.file.procedure;
            && (o == Replied(Applied) <==> Collectable(before, t, w.phase, contents.excess(result)))
            && (o != Replied(Applied) ==> n == w)
            && (o == Replied(Applied) ==>
                  && n.file.revision == w.file.revision + 1 && n.journal == Some(Collection(result, snapshot))
                  && after.phases == before.phases[w.phase := before.phases[w.phase].(launch := Manifest.Completed, result := None)]
                  && t in after.tickets
                  && (if contents.passed(result) then after.tickets[t].facts.contract.PassedVerdict? else after.tickets[t].facts.contract.FailedVerdict?))
  {
    hide Events.Step, Collect, JournalSound, Collectable;
    var handle := ControllerHandler(t, w.phase, contents);
    RetryCompletesExactly(handle, w, result, snapshot);
    AttemptCommitsAllOrNothing(handle, w, Attempt(result, Some(snapshot), w.file.revision, true, true, true, 2));
    ControllerCollectsExactly(w.file.procedure, t, w.phase, contents, result);
    PhaseAndVerdictCommitTogether(w.file.procedure, t, w.phase, contents.passed(result), ReportOf(contents, result));
  }

  // ----- the collector in place -----

  class Collector<S(!new)> {
    const handle: Handler<S, Collection>
    const phase: PhaseKey
    var file: Stored<S, Collection>
    var journal: Option<Collection>

    constructor (handle: Handler<S, Collection>, phase: PhaseKey, file: Stored<S, Collection>)
      ensures this.handle == handle && this.phase == phase && this.file == file && journal == None
    {
      this.handle, this.phase, this.file, journal := handle, phase, file, None;
    }

    function Files(): World<S>
      reads this
    {
      World.World(phase, file, journal)
    }

    method CollectContract(t: Attempt) returns (o: Outcome)
      modifies this
      ensures (Files(), o) == Collect(handle, old(Files()), t)
    {
      var state, before := file, journal;
      if !t.valid { return Refused; }
      var event: Collection;
      if journal.Some? {
        event := journal.value;
        if event.result != t.result { return Refused; }
        if IdOf(phase, event.result) !in state.applied && t.snapshot.Some? {
          event := event.(snapshot := t.snapshot.value);
          if !t.passes || handle(state.procedure, event).None? { return Refused; }
          if event != journal.value {
            if t.life == 0 { return Died; }
            journal := Some(event);
          }
        }
      } else {
        if t.snapshot.None? { return Refused; }
        event := Collection(t.result, t.snapshot.value);
        if !t.passes || handle(state.procedure, event).None? { return Refused; }
        if t.life == 0 { return Died; }
        journal := Some(event);
      }
      var writes := if before == journal then 0 else 1;
      var (next, reply) := Answer(Timely(handle, t.accepts), file, Request(IdOf(phase, event.result), event, t.expected));
      if reply.Applied? && t.life == writes { return Died; }
      file := next;
      return Replied(reply);
    }
  }
}
