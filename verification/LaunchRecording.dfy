/** Recording a launch from its saved receipt: when it completes, and what it overwrites. */
module LaunchRecording {
  import opened Prelude
  import opened Manifest
  import opened PhaseEvents
  import opened Events
  import opened Planner
  import opened Controller
  import opened LaunchProtocol

  // ----- the uninterrupted operations -----

  lemma {:induction false} ThenAct(w: World, steps: seq<(ClientId, Effect)>, c: ClientId, a: Effect)
    ensures Perform(w, steps + [(c, a)]) == Act(Perform(w, steps), c, a)
    decreases |steps|
  {
    hide Act;
    if steps == [] {
      assert [] + [(c, a)] == [(c, a)] && [(c, a)][1..] == [];
      assert Perform(w, [(c, a)]) == Perform(Act(w, c, a), []);
    } else {
      assert (steps + [(c, a)])[0] == steps[0] && (steps + [(c, a)])[1..] == steps[1..] + [(c, a)];
      ThenAct(Act(w, steps[0].0, steps[0].1), steps[1..], c, a);
    }
  }

  function BeginSteps(c: ClientId, intent: Option<Intent>, offered: bool, timely: bool): seq<(ClientId, Effect)> {
    [] + [(c, LockToBegin)] + [(c, RecordIntent(intent))] + [(c, CheckHandoff(offered))] + [(c, Arm(timely))] + [(c, WriteJournal)]
  }

  function RecordSteps(c: ClientId, observation: Option<Reference>, timely: bool): seq<(ClientId, Effect)> {
    [] + [(c, LockToRecord)] + [(c, Prepare(observation))] + [(c, Apply(timely))] + [(c, WriteRecorded)]
  }

  /** The manifest after the intent was recorded where the phase does not exist, if it could be. */
  function Planned(m: Manifest, p: PhaseKey, intent: Option<Intent>): Option<Manifest> {
    if p in m.phases then Some(m)
    else if intent.Some? && Step(m, IntentEvent(p, intent.value)).Accepted? then Some(Told(m, IntentEvent(p, intent.value)))
    else None
  }

  /** One uninterrupted `begin` in a directory without a journal, said without its steps. */
  function FirstBegun(w: World, c: ClientId, spec: SpecDigest, intent: Option<Intent>, offered: bool, timely: bool): World {
    match Planned(w.manifest, w.phase, intent)
    case None => Become(w, c, Finished(RefusedSafely))
    case Some(m) =>
      if !offered || !OffersLaunch(m, w.phase) then Become(w.(manifest := m), c, Finished(RefusedSafely))
      else if spec in w.armedBy then Become(w.(manifest := m, journal := Some(Journal(spec, None, false))), c, MayCreate(spec))
      else if !timely || Step(m, ArmingEvent(w.phase)).Refused? then Become(w.(manifest := m), c, Finished(RefusedSafely))
      else Become(w.(manifest := Told(m, ArmingEvent(w.phase)), armedBy := w.armedBy + {spec}, journal := Some(Journal(spec, None, false))), c, MayCreate(spec))
  }

  function Begun(w: World, c: ClientId, spec: SpecDigest, intent: Option<Intent>, offered: bool, timely: bool): World {
    match w.journal
    case Some(j) =>
      Become(w, c, if j.spec == spec && j.recorded then Finished(AlreadyRecorded)
                   else if j.spec == spec && w.receipt.Some? then WantsRecord(spec) else Finished(RefusedSafely))
    case None => FirstBegun(w, c, spec, intent, offered, timely)
  }

  lemma NothingLeftToBegin(w: World, c: ClientId, a: Effect)
    requires At(w, c).Finished? || At(w, c).WantsRecord?
    requires a.RecordIntent? || a.CheckHandoff? || a.Arm? || a.WriteJournal?
    ensures Act(w, c, a) == w
  {
  }

  lemma ArmingIs(w: World, c: ClientId, spec: SpecDigest, timely: bool)
    requires w.journal.None? && At(w, c) == HandedOff(spec)
    ensures Act(Act(w, c, Arm(timely)), c, WriteJournal)
         == if spec in w.armedBy then Become(w.(lock := None, journal := Some(Journal(spec, None, false))), c, MayCreate(spec))
            else if !timely || Step(w.manifest, ArmingEvent(w.phase)).Refused? then Leave(w, c, RefusedSafely)
            else Become(w.(lock := None, manifest := Told(w.manifest, ArmingEvent(w.phase)), armedBy := w.armedBy + {spec},
                           journal := Some(Journal(spec, None, false))), c, MayCreate(spec))
  {
    hide Step, Told, ArmingEvent;
    assert w.clients[c := Armed(spec)][c := MayCreate(spec)] == w.clients[c := MayCreate(spec)];
  }

  lemma HandingOffIs(w: World, c: ClientId, spec: SpecDigest, offered: bool, timely: bool)
    requires w.journal.None? && At(w, c) == Beginning(spec) && w.phase in w.manifest.phases
    ensures Act(Act(Act(w, c, CheckHandoff(offered)), c, Arm(timely)), c, WriteJournal)
         == FirstBegun(w.(lock := None), c, spec, None, offered, timely)
  {
    hide Step, Told, ArmingEvent, OffersLaunch, ActToRecord;
    var n := Act(w, c, CheckHandoff(offered));
    if offered && OffersLaunch(w.manifest, w.phase) {
      assert n == Become(w, c, HandedOff(spec));
      hide Act;
      ArmingIs(n, c, spec, timely);
      var y := FirstBegun(w, c, spec, None, offered, timely).clients[c];
      assert n.clients[c := y] == w.clients[c := y];
    } else {
      hide Act;
      NothingLeftToBegin(n, c, Arm(timely));
      NothingLeftToBegin(n, c, WriteJournal);
    }
  }

  lemma FirstBeginIs(w: World, c: ClientId, spec: SpecDigest, intent: Option<Intent>, offered: bool, timely: bool)
    requires w.lock.None? && w.journal.None? && At(w, c) == WantsBegin(spec)
    ensures var n := Act(Act(w, c, LockToBegin), c, RecordIntent(intent));
            Act(Act(Act(n, c, CheckHandoff(offered)), c, Arm(timely)), c, WriteJournal) == FirstBegun(w, c, spec, intent, offered, timely)
  {
    hide Step, Told, IntentEvent, ArmingEvent, OffersLaunch, ActToRecord;
    var n := Act(Act(w, c, LockToBegin), c, RecordIntent(intent));
    match Planned(w.manifest, w.phase, intent)
    case None =>
      assert w.clients[c := Beginning(spec)][c := Finished(RefusedSafely)] == w.clients[c := Finished(RefusedSafely)];
      assert n == Become(w, c, Finished(RefusedSafely));
      hide Act;
      NothingLeftToBegin(n, c, CheckHandoff(offered));
      NothingLeftToBegin(n, c, Arm(timely));
      NothingLeftToBegin(n, c, WriteJournal);
    case Some(m) =>
      assert n == Become(w.(lock := Some(c), manifest := m), c, Beginning(spec));
      PlannedIsThere(w.manifest, w.phase, intent);
      hide Act;
      HandingOffIs(n, c, spec, offered, timely);
      var y := FirstBegun(w, c, spec, intent, offered, timely).clients[c];
      assert n.clients[c := y] == w.clients[c := y];
  }

  lemma PlannedIsThere(m: Manifest, p: PhaseKey, intent: Option<Intent>)
    ensures Planned(m, p, intent).Some? ==> p in Planned(m, p, intent).value.phases
  {
    hide OnePhase, DispatchAllowed;
  }

  lemma BeginIs(w: World, c: ClientId, spec: SpecDigest, intent: Option<Intent>, offered: bool, timely: bool)
    requires w.lock.None? && At(w, c) == WantsBegin(spec)
    ensures Perform(w, BeginSteps(c, intent, offered, timely)) == Begun(w, c, spec, intent, offered, timely)
  {
    hide FirstBegun, Act, Perform;
    assert Perform(w, []) == w by { PerformNothing(w); }
    ThenAct(w, [], c, LockToBegin);
    ThenAct(w, [] + [(c, LockToBegin)], c, RecordIntent(intent));
    ThenAct(w, [] + [(c, LockToBegin)] + [(c, RecordIntent(intent))], c, CheckHandoff(offered));
    ThenAct(w, [] + [(c, LockToBegin)] + [(c, RecordIntent(intent))] + [(c, CheckHandoff(offered))], c, Arm(timely));
    ThenAct(w, [] + [(c, LockToBegin)] + [(c, RecordIntent(intent))] + [(c, CheckHandoff(offered))] + [(c, Arm(timely))], c, WriteJournal);
    if w.journal.None? {
      FirstBeginIs(w, c, spec, intent, offered, timely);
    } else {
      LaterBeginIs(w, c, spec, intent, offered, timely);
      var n := Act(w, c, LockToBegin);
      NothingLeftToBegin(n, c, RecordIntent(intent));
      NothingLeftToBegin(n, c, CheckHandoff(offered));
      NothingLeftToBegin(n, c, Arm(timely));
      NothingLeftToBegin(n, c, WriteJournal);
    }
  }

  lemma LaterBeginIs(w: World, c: ClientId, spec: SpecDigest, intent: Option<Intent>, offered: bool, timely: bool)
    requires w.lock.None? && w.journal.Some? && At(w, c) == WantsBegin(spec)
    ensures var n := Act(w, c, LockToBegin);
            n == Begun(w, c, spec, intent, offered, timely) && (At(n, c).Finished? || At(n, c).WantsRecord?)
  {
  }

  lemma PerformNothing(w: World)
    ensures Perform(w, []) == w
  {
  }

  /** What `record` decides under the lock before it applies anything. */
  function Prepared(w: World, c: ClientId, spec: SpecDigest, observation: Option<Reference>): World {
    if !Recordable(w, spec) then Become(w, c, Finished(RefusedSafely))
    else if w.journal.value.recorded then Become(w, c, Finished(AlreadyRecorded))
    else if RecordForbidden(w.manifest.phases[w.phase].launch) || (w.receipt.value.Task? && observation.None?) then Become(w, c, Finished(RefusedSafely))
    else
      var fixed := w.journal.value.receiptEvent;
      if fixed.Some? && fixed.value.receipt != w.receipt.value then Become(w, c, Finished(RefusedSafely))
      else
        var e := if fixed.Some? then fixed.value else LaunchEvent(w.receipt.value, observation);
        Become(w.(lock := Some(c), journal := Some(w.journal.value.(receiptEvent := Some(e)))), c, Applying(spec, e))
  }

  /** What applying the prepared event leaves. */
  function Answered(w: World, c: ClientId, e: LaunchEvent, timely: bool): World
    requires w.journal.Some?
  {
    var free := w.(lock := None);
    var done := Some(w.journal.value.(recorded := true));
    if e.receipt in w.receipts && w.receipts[e.receipt] != e then Become(free, c, Finished(RefusedSafely))
    else if e.receipt in w.receipts then Become(free.(journal := done), c, Finished(RecordedNow))
    else if !timely || Step(w.manifest, ReceiptEvent(w.phase, e.receipt)).Refused? then Become(free, c, Finished(RefusedSafely))
    else Become(free.(journal := done, manifest := Told(w.manifest, ReceiptEvent(w.phase, e.receipt)), receipts := w.receipts[e.receipt := e]),
                c, Finished(RecordedNow))
  }

  lemma PreparationIs(w: World, c: ClientId, spec: SpecDigest, observation: Option<Reference>)
    requires w.lock.None? && At(w, c) == WantsRecord(spec)
    ensures Act(Act(w, c, LockToRecord), c, Prepare(observation)) == Prepared(w, c, spec, observation)
  {
    hide Step, ReceiptEvent, Told, ActToCreate;
    var x := Act(Act(w, c, LockToRecord), c, Prepare(observation)).clients[c];
    assert w.clients[c := Recording(spec)][c := x] == w.clients[c := x];
  }

  lemma AnswerIs(w: World, c: ClientId, timely: bool)
    requires At(w, c).Applying? && w.journal.Some?
    ensures Act(Act(w, c, Apply(timely)), c, WriteRecorded) == Answered(w, c, At(w, c).event, timely)
  {
    hide Step, ReceiptEvent, Told, ActToCreate;
    var x := w.clients[c];
    var y := Finished(RecordedNow);
    assert w.clients[c := Applied(x.spec, x.event)][c := y] == w.clients[c := y];
  }

  lemma RefusalStays(w: World, c: ClientId, timely: bool)
    requires At(w, c).Finished?
    ensures Act(Act(w, c, Apply(timely)), c, WriteRecorded) == w
  {
    hide Step, ActToCreate;
  }

  /** One uninterrupted `record`, said without its steps. */
  function Recorded(w: World, c: ClientId, spec: SpecDigest, observation: Option<Reference>, timely: bool): World {
    var p := Prepared(w, c, spec, observation);
    if At(p, c).Applying? && p.journal.Some? then Answered(p, c, At(p, c).event, timely) else p
  }

  lemma RecordIs(w: World, c: ClientId, spec: SpecDigest, observation: Option<Reference>, timely: bool)
    requires w.lock.None? && At(w, c) == WantsRecord(spec)
    ensures Perform(w, RecordSteps(c, observation, timely)) == Recorded(w, c, spec, observation, timely)
  {
    hide Act, Answered, Perform, Step;
    PerformNothing(w);
    ThenAct(w, [], c, LockToRecord);
    ThenAct(w, [] + [(c, LockToRecord)], c, Prepare(observation));
    ThenAct(w, [] + [(c, LockToRecord)] + [(c, Prepare(observation))], c, Apply(timely));
    ThenAct(w, [] + [(c, LockToRecord)] + [(c, Prepare(observation))] + [(c, Apply(timely))], c, WriteRecorded);
    PreparationIs(w, c, spec, observation);
    var p := Prepared(w, c, spec, observation);
    if At(p, c).Applying? { AnswerIs(p, c, timely); } else { RefusalStays(p, c, timely); }
  }

  // ----- when recording completes -----

  predicate LaunchRecorded(w: World, receipt: Receipt) {
    w.journal.Some? && w.journal.value.recorded && receipt in w.receipts && w.receipts[receipt].receipt == receipt
  }

  /** The controller's own guards on the launch that a receipt reports. */
  predicate LaunchAllowed(m: Manifest, p: PhaseKey, r: Receipt)
    requires p in m.phases
  {
    && m.anomalies == 0
    && (m.phases[p].requirement.NoEditor? || LeaseConfirmed(m, p))
    && (r.Task? ==> Some(r.thread) != m.phases[p].forbiddenThread)
  }

  /** The phase as the reported launch leaves it. */
  function Shown(v: Phase, r: Receipt): Phase {
    v.(launch := ReportedLaunch(r), thread := if r.Task? then Some(r.thread) else v.thread,
       client := if r.QueuedTask? then Some(r.client) else v.client)
  }

  lemma ReceiptIsAcceptedExactly(m: Manifest, p: PhaseKey, r: Receipt)
    requires p in m.phases && !r.Unreadable?
    ensures Step(m, ReceiptEvent(p, r)).Accepted? <==> LaunchAllowed(m, p, r)
    ensures LaunchAllowed(m, p, r) ==> Told(m, ReceiptEvent(p, r)) == WithPhase(m, p, Shown(m.phases[p], r))
  {
    hide LeaseConfirmed, OnePhase, OneTicket, OpensAtMost, DispatchPhase, RecordCompletion, TerminatePhase, ReclassifyAcceptance;
  }

  /** A saved receipt of a readable answer, ready to be recorded by `c` and by nobody else. */
  ghost predicate ReadyToRecord(w: World, c: ClientId, observation: Option<Reference>) {
    && WorldSound(w) && w.lock.None? && w.journal.Some? && !w.journal.value.recorded && Recordable(w, w.journal.value.spec)
    && At(w, c) == WantsRecord(w.journal.value.spec) && (w.receipt.value.Task? ==> observation.Some?)
  }

  /** Whether `record` gets through: the phase has not ended in a way that forbids it, and its launch
      event has been applied before or is one that the controller accepts. */
  predicate RecordSucceeds(w: World, timely: bool)
    requires w.receipt.Some? && w.phase in w.manifest.phases
  {
    !RecordForbidden(w.manifest.phases[w.phase].launch)
    && (w.receipt.value in w.receipts || (timely && LaunchAllowed(w.manifest, w.phase, w.receipt.value)))
  }

  /** The journal with its launch event fixed. */
  function Fixed(j: Journal, r: Receipt, observation: Option<Reference>): Journal {
    if j.receiptEvent.Some? then j else j.(receiptEvent := Some(LaunchEvent(r, observation)))
  }

  lemma PreparedIs(w: World, c: ClientId, observation: Option<Reference>)
    requires ReadyToRecord(w, c, observation) && !RecordForbidden(w.manifest.phases[w.phase].launch)
    ensures var j := Fixed(w.journal.value, w.receipt.value, observation);
            && j.receiptEvent.Some? && j.receiptEvent.value.receipt == w.receipt.value
            && Prepared(w, c, w.journal.value.spec, observation)
               == Become(w.(lock := Some(c), journal := Some(j)), c, Applying(w.journal.value.spec, j.receiptEvent.value))
            && (w.receipt.value in w.receipts ==> w.receipts[w.receipt.value] == j.receiptEvent.value)
  {
    hide ClientsSound, OneCreator, LaunchAllowed, ActToCreate, ActToRecord;
  }

  /** Re-running `record` from a saved receipt completes exactly when `RecordSucceeds`. Completed,
      the one launch event carries the receipt, and unless it was applied before the phase shows the
      receipt's task. Refused because the phase ended, nothing changes; refused by the controller,
      only the journal has its launch event fixed. */
  lemma RecordCompletesExactly(w: World, c: ClientId, observation: Option<Reference>, timely: bool)
    requires ReadyToRecord(w, c, observation)
    ensures var n, r := Perform(w, RecordSteps(c, observation, timely)), w.receipt.value;
            && (At(n, c) == Finished(RecordedNow) <==> RecordSucceeds(w, timely))
            && (RecordSucceeds(w, timely) ==> n.created == w.created && LaunchRecorded(n, r))
            && (RecordSucceeds(w, timely) ==>
                  n.manifest == if r in w.receipts then w.manifest else WithPhase(w.manifest, w.phase, Shown(w.manifest.phases[w.phase], r)))
            && (RecordForbidden(w.manifest.phases[w.phase].launch) ==> n == Become(w, c, Finished(RefusedSafely)))
            && (!RecordForbidden(w.manifest.phases[w.phase].launch) && !RecordSucceeds(w, timely) ==>
                  n == Become(w.(journal := Some(Fixed(w.journal.value, r, observation))), c, Finished(RefusedSafely)))
  {
    hide WorldSound, LaunchAllowed, Step, Told, ReceiptEvent, Perform, ActToCreate, ActToRecord, Shown;
    var r := w.receipt.value;
    RecordIs(w, c, w.journal.value.spec, observation, timely);
    ReceiptIsAcceptedExactly(w.manifest, w.phase, r);
    if !RecordForbidden(w.manifest.phases[w.phase].launch) {
      PreparedIs(w, c, observation);
      var p := Prepared(w, c, w.journal.value.spec, observation);
      var n := Recorded(w, c, w.journal.value.spec, observation, timely);
      assert p.clients[c := n.clients[c]] == w.clients[c := n.clients[c]];
    }
  }

  /** The phase has come to an end of any kind. */
  predicate HasEnded(l: LaunchState) {
    RecordForbidden(l) || l.Cancelled? || l.Superseded?
  }

  /** `record` looks for four of the six ends only. It turns an ended phase back into a launched one
      exactly when the phase was cancelled or superseded, its launch event is new, and the
      controller's guards hold. */
  lemma RecordOverwritesExactly(w: World, c: ClientId, observation: Option<Reference>, timely: bool)
    requires ReadyToRecord(w, c, observation) && HasEnded(w.manifest.phases[w.phase].launch)
    ensures var n := Perform(w, RecordSteps(c, observation, timely));
            && n.phase == w.phase && w.phase in n.manifest.phases
            && (!HasEnded(n.manifest.phases[w.phase].launch) <==>
                  && (w.manifest.phases[w.phase].launch.Cancelled? || w.manifest.phases[w.phase].launch.Superseded?)
                  && w.receipt.value !in w.receipts && timely && LaunchAllowed(w.manifest, w.phase, w.receipt.value))
  {
    hide WorldSound, LaunchAllowed, Perform, ActToCreate, ActToRecord;
    RecordCompletesExactly(w, c, observation, timely);
    PhaseIsFixed(w, RecordSteps(c, observation, timely));
  }

  lemma {:induction false} PhaseIsFixed(w: World, steps: seq<(ClientId, Effect)>)
    ensures Perform(w, steps).phase == w.phase
    decreases |steps|
  {
    hide Act;
    if steps != [] {
      ActFixesPhase(w, steps[0].0, steps[0].1);
      PhaseIsFixed(Act(w, steps[0].0, steps[0].1), steps[1..]);
    }
  }

  lemma ActFixesPhase(w: World, c: ClientId, a: Effect)
    ensures Act(w, c, a).phase == w.phase
  {
    hide Step, OffersLaunch, Told, IntentEvent, ArmingEvent, ReceiptEvent, RecordForbidden, Recordable;
  }

  // ----- begin and record in place -----

  datatype BeginResult = LaunchArmed | RecoverReceipt | BegunBefore | BeginRejected

  /** One phase's directory and the controller's manifest, used by one client without interruption. */
  class LaunchDirectory {
    const phase: PhaseKey
    var manifest: Manifest
    var armedBy: set<SpecDigest>
    var receipts: map<Receipt, LaunchEvent>
    var journal: Option<Journal>
    var receipt: Option<Receipt>
    var created: seq<Receipt>

    constructor (phase: PhaseKey, manifest: Manifest)
      ensures this.phase == phase && this.manifest == manifest && armedBy == {} && receipts == map[]
      ensures journal.None? && receipt.None? && created == []
    {
      this.phase, this.manifest, armedBy, receipts := phase, manifest, {}, map[];
      journal, receipt, created := None, None, [];
    }

    /** The world in which client 0 is at `x` and nobody else is there. */
    function Alone(x: Client): World
      reads this
    {
      World(phase, manifest, armedBy, receipts, journal, receipt, None, created, map[0 := x])
    }

    static function Position(spec: SpecDigest, r: BeginResult): Client {
      match r
      case LaunchArmed => MayCreate(spec)
      case RecoverReceipt => WantsRecord(spec)
      case BegunBefore => Finished(AlreadyRecorded)
      case BeginRejected => Finished(RefusedSafely)
    }

    /** The stored manifest is loaded, changed by the handler and saved, or left as it was. */
    method ApplyEvent(e: Event) returns (ok: bool)
      modifies `manifest
      ensures ok == Step(old(manifest), e).Accepted? && manifest == Told(old(manifest), e)
      ensures !ok ==> manifest == old(manifest)
    {
      hide Step;
      var loaded := new LoadedManifest(manifest);
      ok := loaded.HandleEvent(e);
      if ok { manifest := loaded.View(); }
    }

    lemma AloneBecomes(x: Client, y: Client)
      ensures Become(Alone(x), 0, y) == Alone(y)
    {
    }

    /** The phase is there, or its dispatch is recorded now. */
    method EnsurePhase(intent: Option<Intent>) returns (ok: bool)
      modifies `manifest
      ensures ok == Planned(old(manifest), phase, intent).Some?
      ensures manifest == if ok then Planned(old(manifest), phase, intent).value else old(manifest)
    {
      hide Step, Told, IntentEvent;
      if phase in manifest.phases { return true; }
      if intent.None? { return false; }
      ok := ApplyEvent(IntentEvent(phase, intent.value));
    }

    /** `begin` in a directory without a journal. */
    method BeginFirst(spec: SpecDigest, intent: Option<Intent>, offered: bool, timely: bool) returns (r: BeginResult)
      requires journal.None?
      modifies this
      ensures Alone(Position(spec, r)) == FirstBegun(old(Alone(WantsBegin(spec))), 0, spec, intent, offered, timely)
    {
      hide Planned, Step, Told, OffersLaunch, ArmingEvent;
      var ok := EnsurePhase(intent);
      if !ok { return BeginRejected; }
      if !offered || !OffersLaunch(manifest, phase) { return BeginRejected; }
      if spec !in armedBy {
        if !timely { return BeginRejected; }
        ok := ApplyEvent(ArmingEvent(phase));
        if !ok { return BeginRejected; }
        armedBy := armedBy + {spec};
      }
      journal := Some(Journal(spec, None, false));
      return LaunchArmed;
    }

    method Begin(spec: SpecDigest, intent: Option<Intent>, offered: bool, timely: bool) returns (r: BeginResult)
      modifies this
      ensures Alone(Position(spec, r)) == Perform(old(Alone(WantsBegin(spec))), BeginSteps(0, intent, offered, timely))
    {
      BeginIs(Alone(WantsBegin(spec)), 0, spec, intent, offered, timely);
      hide Perform, FirstBegun, Act;
      if journal.Some? {
        AloneBecomes(WantsBegin(spec), Position(spec, BeginRejected));
        AloneBecomes(WantsBegin(spec), Position(spec, BegunBefore));
        AloneBecomes(WantsBegin(spec), Position(spec, RecoverReceipt));
        if journal.value.spec != spec { return BeginRejected; }
        if journal.value.recorded { return BegunBefore; }
        return if receipt.Some? then RecoverReceipt else BeginRejected;
      }
      r := BeginFirst(spec, intent, offered, timely);
    }

    /** The prepared launch event is applied, unless it was before, and the journal closed. */
    method Finish(spec: SpecDigest, event: LaunchEvent, timely: bool) returns (result: Result)
      requires journal.Some?
      modifies this
      ensures Alone(Finished(result)) == Answered(old(Alone(Applying(spec, event))), 0, event, timely)
    {
      hide Step, Told, ReceiptEvent;
      if event.receipt in receipts {
        if receipts[event.receipt] != event { return RefusedSafely; }
      } else {
        if !timely { return RefusedSafely; }
        var ok := ApplyEvent(ReceiptEvent(phase, event.receipt));
        if !ok { return RefusedSafely; }
        receipts := receipts[event.receipt := event];
      }
      journal := Some(journal.value.(recorded := true));
      return RecordedNow;
    }

    /** Under the lock: the event to apply, fixed in the journal, or the end of this `record`. */
    method PrepareEvent(spec: SpecDigest, observation: Option<Reference>) returns (end: Option<Result>, event: LaunchEvent)
      modifies `journal
      ensures Prepared(old(Alone(WantsRecord(spec))), 0, spec, observation)
           == if end.Some? then Alone(Finished(end.value)) else Alone(Applying(spec, event)).(lock := Some(0))
      ensures end.None? ==> journal.Some?
    {
      AloneBecomes(WantsRecord(spec), Finished(RefusedSafely));
      AloneBecomes(WantsRecord(spec), Finished(AlreadyRecorded));
      event := LaunchEvent(Unreadable, observation);
      if journal.None? || journal.value.spec != spec || phase !in manifest.phases || receipt.None? || receipt.value.Unreadable? {
        return Some(RefusedSafely), event;
      }
      if journal.value.recorded { return Some(AlreadyRecorded), event; }
      if RecordForbidden(manifest.phases[phase].launch) || (receipt.value.Task? && observation.None?) { return Some(RefusedSafely), event; }
      if journal.value.receiptEvent.Some? {
        if journal.value.receiptEvent.value.receipt != receipt.value { return Some(RefusedSafely), event; }
        event := journal.value.receiptEvent.value;
      } else {
        event := LaunchEvent(receipt.value, observation);
        journal := Some(journal.value.(receiptEvent := Some(event)));
      }
      end := None;
    }

    method Record(spec: SpecDigest, observation: Option<Reference>, timely: bool) returns (result: Result)
      modifies this
      ensures Alone(Finished(result)) == Perform(old(Alone(WantsRecord(spec))), RecordSteps(0, observation, timely))
    {
      RecordIs(Alone(WantsRecord(spec)), 0, spec, observation, timely);
      hide Perform, Prepared, Answered, Act;
      var end, event := PrepareEvent(spec, observation);
      if end.Some? { return end.value; }
      AnswerFreesTheLock(Alone(Applying(spec, event)), spec, event, timely);
      result := Finish(spec, event, timely);
    }
  }

  lemma AnswerFreesTheLock(w: World, spec: SpecDigest, e: LaunchEvent, timely: bool)
    requires w.journal.Some? && w.clients == map[0 := Applying(spec, e)]
    ensures Answered(w.(lock := Some(0)), 0, e, timely) == Answered(w.(lock := None), 0, e, timely)
  {
    hide Step, Told, ReceiptEvent;
  }
}
