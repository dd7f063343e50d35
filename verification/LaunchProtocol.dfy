/** Launching the task of one phase across a boundary that has no transactions (`phase_dispatch`).

    Any number of clients run the same sequence of effects: begin (check the hand-off, arm the
    controller, write the journal), create the task, persist its raw receipt, record the launch.
    Each durable write and each external call is a step of its own, a client can die between any
    two, and any other controller event can be applied in between. Everything is about one phase
    key, because journal, receipt and lock live in that phase's own directory; the controller's
    answers are those of `Step` on its manifest. */
module LaunchProtocol {
  import opened Prelude
  import opened Manifest
  import opened PhaseEvents
  import opened Events
  import opened Planner

  type ClientId = nat
  type SpecDigest = nat

  /** What the desktop tool returned. An error or an unreadable answer names no task. */
  datatype Receipt = Task(thread: Reference) | QueuedTask(client: Reference) | Unreadable

  /** The launch event made from a receipt; `observation` is the visibility evidence used for it. */
  datatype LaunchEvent = LaunchEvent(receipt: Receipt, observation: Option<Reference>)

  datatype Journal = Journal(spec: SpecDigest, receiptEvent: Option<LaunchEvent>, recorded: bool)

  /** The contract validation that a specification may ask the controller to add. */
  datatype Intent = Intent(ticket: TicketId, requirement: Requirement, base: Commit)

  datatype Result = RecordedNow | AlreadyRecorded | RefusedSafely

  datatype Client =
    | Idle
    | WantsBegin(spec: SpecDigest)
    | Beginning(spec: SpecDigest)
    | HandedOff(spec: SpecDigest)
    | Armed(spec: SpecDigest)
    | MayCreate(spec: SpecDigest)
    | HasReceipt(spec: SpecDigest, receipt: Receipt)
    | WantsRecord(spec: SpecDigest)
    | Recording(spec: SpecDigest)
    | Applying(spec: SpecDigest, event: LaunchEvent)
    | Applied(spec: SpecDigest, event: LaunchEvent)
    | Finished(result: Result)
    | Crashed

  /** `armedBy` and `receipts` are the launch events among the controller's applied events; the
      identifier of the first kind is the specification's digest, of the second the receipt's. */
  datatype World = World(
    phase: PhaseKey, manifest: Manifest, armedBy: set<SpecDigest>, receipts: map<Receipt, LaunchEvent>,
    journal: Option<Journal>, receipt: Option<Receipt>, lock: Option<ClientId>,
    created: seq<Receipt>, clients: map<ClientId, Client>)

  /** `offered` says that nothing outside the model keeps the planner from offering the launch, and
      `timely` that no other event was applied between a client's reading and its own event. */
  datatype Effect =
    | Ask(spec: SpecDigest)
    | LockToBegin
    | RecordIntent(intent: Option<Intent>)
    | CheckHandoff(offered: bool)
    | Arm(timely: bool)
    | WriteJournal
    | Create(answer: Receipt)
    | PersistReceipt
    | LockToRecord
    | Prepare(observation: Option<Reference>)
    | Apply(timely: bool)
    | WriteRecorded
    | Crash
    | RemoveStaleLock
    /** Any other event that the controller accepts or refuses meanwhile. */
    | Elsewhere(event: Event)

  function At(w: World, c: ClientId): Client {
    if c in w.clients then w.clients[c] else Idle
  }

  function Become(w: World, c: ClientId, x: Client): World {
    w.(clients := w.clients[c := x])
  }

  /** The client leaves the lock and stops. */
  function Leave(w: World, c: ClientId, result: Result): World {
    Become(w.(lock := None), c, Finished(result))
  }

  predicate InLock(x: Client) {
    x.Beginning? || x.HandedOff? || x.Armed? || x.Recording? || x.Applying? || x.Applied?
  }

  // ----- what the controller is told -----

  function Told(m: Manifest, e: Event): Manifest {
    var o := Step(m, e);
    if o.Accepted? then o.m else m
  }

  function IntentEvent(p: PhaseKey, i: Intent): Event {
    Event(true, Phasing(PhaseDispatched(p, ContractValidation, Some(i.ticket), i.requirement, i.base)))
  }

  function ArmingEvent(p: PhaseKey): Event {
    Event(true, Phasing(LaunchObserved(p, LaunchUnknown, None, None, false)))
  }

  /** The launch that a receipt reports: a visible task runs, a client identifier is queued. */
  function ReportedLaunch(r: Receipt): LaunchState {
    match r
    case Task(_) => Running
    case QueuedTask(_) => Queued
    case Unreadable => LaunchUnknown
  }

  function ReceiptEvent(p: PhaseKey, r: Receipt): Event {
    Event(true, Phasing(LaunchObserved(p, ReportedLaunch(r), if r.Task? then Some(r.thread) else None,
                                       if r.QueuedTask? then Some(r.client) else None, true)))
  }

  // ----- one effect -----

  /** What `begin` finds in the phase's directory once it holds the lock. */
  function Begin(w: World, c: ClientId, spec: SpecDigest): World {
    match w.journal
    case None => Become(w.(lock := Some(c)), c, Beginning(spec))
    case Some(j) =>
      if j.spec != spec then Become(w, c, Finished(RefusedSafely))
      else if j.recorded then Become(w, c, Finished(AlreadyRecorded))
      else if w.receipt.Some? then Become(w, c, WantsRecord(spec))
      else Become(w, c, Finished(RefusedSafely))
  }

  /** The states in which `record` does not overwrite a phase. */
  predicate RecordForbidden(l: LaunchState) {
    l.Completed? || l.Failed? || l.Blocked? || l.NeedsInput?
  }

  /** Journal, receipt and phase are there, and the receipt names a task that can be observed. */
  predicate Recordable(w: World, spec: SpecDigest) {
    && w.journal.Some? && w.journal.value.spec == spec && w.phase in w.manifest.phases
    && w.receipt.Some? && !w.receipt.value.Unreadable?
  }

  /** The effects up to the persisted receipt. */
  predicate Creates(a: Effect) {
    a.Ask? || a.LockToBegin? || a.RecordIntent? || a.CheckHandoff? || a.Arm? || a.WriteJournal? || a.Create? || a.PersistReceipt?
  }

  function ActToCreate(w: World, c: ClientId, a: Effect): World
    requires Creates(a)
  {
    var x := At(w, c);
    match a
    case Ask(spec) => if x.Idle? || x.Finished? then Become(w, c, WantsBegin(spec)) else w
    case LockToBegin => if x.WantsBegin? && w.lock.None? then Begin(w, c, x.spec) else w
    case RecordIntent(intent) =>
      if !x.Beginning? || w.phase in w.manifest.phases then w
      else if intent.Some? && Step(w.manifest, IntentEvent(w.phase, intent.value)).Accepted?
      then w.(manifest := Told(w.manifest, IntentEvent(w.phase, intent.value)))
      else Leave(w, c, RefusedSafely)
    case CheckHandoff(offered) =>
      if !x.Beginning? then w
      else if offered && OffersLaunch(w.manifest, w.phase) then Become(w, c, HandedOff(x.spec))
      else Leave(w, c, RefusedSafely)
    case Arm(timely) =>
      if !x.HandedOff? then w
      // The event identifier names only the specification: applied before, it changes nothing.
      else if x.spec in w.armedBy then Become(w, c, Armed(x.spec))
      else if !timely || Step(w.manifest, ArmingEvent(w.phase)).Refused? then Leave(w, c, RefusedSafely)
      else Become(w.(manifest := Told(w.manifest, ArmingEvent(w.phase)), armedBy := w.armedBy + {x.spec}), c, Armed(x.spec))
    case WriteJournal => if x.Armed? then Become(w.(journal := Some(Journal(x.spec, None, false)), lock := None), c, MayCreate(x.spec)) else w
    case Create(answer) => if x.MayCreate? then Become(w.(created := w.created + [answer]), c, HasReceipt(x.spec, answer)) else w
    case PersistReceipt => if x.HasReceipt? then Become(w.(receipt := Some(x.receipt)), c, WantsRecord(x.spec)) else w
  }

  function ActToRecord(w: World, c: ClientId, a: Effect): World
    requires !Creates(a)
  {
    var x := At(w, c);
    match a
    case LockToRecord => if x.WantsRecord? && w.lock.None? then Become(w.(lock := Some(c)), c, Recording(x.spec)) else w
    case Prepare(observation) =>
      if !x.Recording? then w
      else if !Recordable(w, x.spec) then Leave(w, c, RefusedSafely)
      else if w.journal.value.recorded then Leave(w, c, AlreadyRecorded)
      else if RecordForbidden(w.manifest.phases[w.phase].launch) || (w.receipt.value.Task? && observation.None?) then Leave(w, c, RefusedSafely)
      else
        var j := w.journal.value;
        if j.receiptEvent.Some? then
          (if j.receiptEvent.value.receipt == w.receipt.value then Become(w, c, Applying(x.spec, j.receiptEvent.value)) else Leave(w, c, RefusedSafely))
        else
          var e := LaunchEvent(w.receipt.value, observation);
          Become(w.(journal := Some(j.(receiptEvent := Some(e)))), c, Applying(x.spec, e))
    case Apply(timely) =>
      if !x.Applying? then w
      else if x.event.receipt in w.receipts then
        (if w.receipts[x.event.receipt] == x.event then Become(w, c, Applied(x.spec, x.event)) else Leave(w, c, RefusedSafely))
      else if !timely || Step(w.manifest, ReceiptEvent(w.phase, x.event.receipt)).Refused? then Leave(w, c, RefusedSafely)
      else Become(w.(manifest := Told(w.manifest, ReceiptEvent(w.phase, x.event.receipt)), receipts := w.receipts[x.event.receipt := x.event]),
                  c, Applied(x.spec, x.event))
    case WriteRecorded =>
      if x.Applied? && w.journal.Some? then Leave(w.(journal := Some(w.journal.value.(recorded := true))), c, RecordedNow) else w
    case Crash => Become(w, c, Crashed)
    case RemoveStaleLock => if w.lock.Some? && At(w, w.lock.value).Crashed? then w.(lock := None) else w
    case Elsewhere(event) => w.(manifest := Told(w.manifest, event))
  }

  function Act(w: World, c: ClientId, a: Effect): World {
    if Creates(a) then ActToCreate(w, c, a) else ActToRecord(w, c, a)
  }

  function Perform(w: World, steps: seq<(ClientId, Effect)>): World
    decreases |steps|
  {
    if steps == [] then w else Perform(Act(w, steps[0].0, steps[0].1), steps[1..])
  }

  // ----- what holds in every world -----

  predicate RecordedAs(w: World, e: LaunchEvent) {
    w.journal.Some? && w.journal.value.receiptEvent == Some(e)
  }

  /** What a client's position says about the files, the controller and the outside world. */
  predicate ClientSound(w: World, c: ClientId, x: Client) {
    && (InLock(x) ==> w.lock == Some(c))
    && match x
       case Beginning(_) => w.journal.None?
       case HandedOff(_) => w.journal.None?
       case Armed(_) => w.journal.None?
       case MayCreate(_) => w.created == [] && w.journal.Some?
       case HasReceipt(_, receipt) => w.created == [receipt] && w.journal.Some?
       case Applying(_, event) => RecordedAs(w, event)
       case Applied(_, event) => RecordedAs(w, event) && event.receipt in w.receipts
       case Finished(result) => result.RefusedSafely? || (w.journal.Some? && w.journal.value.recorded)
       case _ => true
  }

  /** The files, the controller and the created tasks agree: nothing is created before the journal
      is written, the receipt is the created task's, and the controller's launch event, if any, is
      the one the journal fixed for that receipt. */
  ghost predicate FilesSound(w: World) {
    && |w.created| <= 1
    && (w.created != [] ==> w.journal.Some?)
    && (w.receipt.Some? ==> w.created == [w.receipt.value])
    && (w.journal.Some? && w.journal.value.receiptEvent.Some? ==> w.receipt == Some(w.journal.value.receiptEvent.value.receipt))
    && (forall r :: r in w.receipts ==> RecordedAs(w, w.receipts[r]) && w.receipts[r].receipt == r)
    && (w.journal.Some? && w.journal.value.recorded ==>
          w.journal.value.receiptEvent.Some? && w.journal.value.receiptEvent.value.receipt in w.receipts)
  }

  /** The right to create exists at most once. */
  ghost predicate OneCreator(w: World) {
    forall c, d :: c in w.clients && d in w.clients && w.clients[c].MayCreate? && w.clients[d].MayCreate? ==> c == d
  }

  ghost predicate ClientsSound(w: World) {
    forall c :: c in w.clients ==> ClientSound(w, c, w.clients[c])
  }

  ghost predicate WorldSound(w: World) {
    FilesSound(w) && ClientsSound(w) && OneCreator(w)
  }

  lemma FilesKept(w: World, c: ClientId, a: Effect)
    requires FilesSound(w) && ClientsSound(w)
    ensures FilesSound(Act(w, c, a))
  {
    hide Step, OffersLaunch, Told, IntentEvent, ArmingEvent, ReceiptEvent, RecordForbidden;
    if c in w.clients { assert ClientSound(w, c, w.clients[c]); }
  }

  /** The right to create comes only from writing the journal. */
  lemma CreatorsCome(w: World, c: ClientId, a: Effect, d: ClientId)
    requires At(Act(w, c, a), d).MayCreate?
    ensures At(w, d).MayCreate? || (d == c && At(w, c).Armed?)
  {
    hide Step, OffersLaunch, Told, IntentEvent, ArmingEvent, ReceiptEvent, RecordForbidden, Recordable;
  }

  lemma CreatorKept(w: World, c: ClientId, a: Effect)
    requires ClientsSound(w) && OneCreator(w)
    ensures OneCreator(Act(w, c, a))
  {
    hide Act;
    var n := Act(w, c, a);
    if c in w.clients { assert ClientSound(w, c, w.clients[c]); }
    forall d, e | d in n.clients && e in n.clients && n.clients[d].MayCreate? && n.clients[e].MayCreate? ensures d == e {
      CreatorsCome(w, c, a, d);
      CreatorsCome(w, c, a, e);
      if d in w.clients { assert ClientSound(w, d, w.clients[d]); }
      if e in w.clients { assert ClientSound(w, e, w.clients[e]); }
    }
  }

  lemma OthersKeptToCreate(w: World, c: ClientId, a: Effect, d: ClientId)
    requires Creates(a) && FilesSound(w) && OneCreator(w) && d in w.clients && d != c
    requires ClientSound(w, d, w.clients[d]) && (c in w.clients ==> ClientSound(w, c, w.clients[c]))
    ensures var n := ActToCreate(w, c, a); d in n.clients && n.clients[d] == w.clients[d] && ClientSound(n, d, n.clients[d])
  {
    hide Step, OffersLaunch, Told, IntentEvent, ArmingEvent;
  }

  lemma OthersKeptToRecord(w: World, c: ClientId, a: Effect, d: ClientId)
    requires !Creates(a) && FilesSound(w) && d in w.clients && d != c
    requires ClientSound(w, d, w.clients[d]) && (c in w.clients ==> ClientSound(w, c, w.clients[c]))
    ensures var n := ActToRecord(w, c, a); d in n.clients && n.clients[d] == w.clients[d] && ClientSound(n, d, n.clients[d])
  {
    hide Step, Told, ReceiptEvent, RecordForbidden;
  }

  lemma ActorKeptToCreate(w: World, c: ClientId, a: Effect)
    requires Creates(a) && FilesSound(w) && (c in w.clients ==> ClientSound(w, c, w.clients[c]))
    ensures var n := ActToCreate(w, c, a); c in n.clients ==> ClientSound(n, c, n.clients[c])
  {
    hide Step, OffersLaunch, Told, IntentEvent, ArmingEvent;
  }

  lemma ActorKeptToRecord(w: World, c: ClientId, a: Effect)
    requires !Creates(a) && FilesSound(w) && (c in w.clients ==> ClientSound(w, c, w.clients[c]))
    ensures var n := ActToRecord(w, c, a); c in n.clients ==> ClientSound(n, c, n.clients[c])
  {
    hide Step, Told, ReceiptEvent, RecordForbidden;
  }

  lemma ActKeeps(w: World, c: ClientId, a: Effect)
    requires WorldSound(w)
    ensures WorldSound(Act(w, c, a))
  {
    hide FilesSound, OneCreator, ClientSound, ActToCreate, ActToRecord, Creates;
    FilesKept(w, c, a);
    CreatorKept(w, c, a);
    var n := Act(w, c, a);
    forall d | d in n.clients ensures ClientSound(n, d, n.clients[d]) {
      if d != c {
        OnlyActorMoves(w, c, a);
        if Creates(a) { OthersKeptToCreate(w, c, a, d); } else { OthersKeptToRecord(w, c, a, d); }
      } else {
        if Creates(a) { ActorKeptToCreate(w, c, a); } else { ActorKeptToRecord(w, c, a); }
      }
    }
  }

  lemma OnlyActorMoves(w: World, c: ClientId, a: Effect)
    ensures forall d :: d in Act(w, c, a).clients && d != c ==> d in w.clients
  {
    hide Step, OffersLaunch, Told, IntentEvent, ArmingEvent, ReceiptEvent, RecordForbidden;
  }

  // ----- main results -----

  /** Before anything of this phase's launch happened. */
  predicate Fresh(w: World) {
    w.journal.None? && w.receipt.None? && w.created == [] && w.receipts == map[] && w.lock.None? && w.clients == map[]
  }

  lemma {:induction false} EveryWorldIsSound(w: World, steps: seq<(ClientId, Effect)>)
    requires WorldSound(w)
    ensures WorldSound(Perform(w, steps))
    decreases |steps|
  {
    hide WorldSound, Act;
    if steps != [] {
      ActKeeps(w, steps[0].0, steps[0].1);
      EveryWorldIsSound(Act(w, steps[0].0, steps[0].1), steps[1..]);
    }
  }

  /** Whatever clients run, retry and crash, and whatever the controller is told meanwhile, the external
      creation happens at most once, and the controller has at most one launch event from a
      receipt: the created task's own. */
  lemma TaskIsCreatedAtMostOnce(w: World, steps: seq<(ClientId, Effect)>)
    requires Fresh(w)
    ensures var n := Perform(w, steps);
            && |n.created| <= 1
            && (n.receipt.Some? ==> n.created == [n.receipt.value])
            && forall r :: r in n.receipts ==> n.created == [r] && n.receipts[r].receipt == r && n.receipts.Keys == {r}
  {
    hide Perform;
    EveryWorldIsSound(w, steps);
    var n := Perform(w, steps);
    forall r | r in n.receipts ensures n.created == [r] && n.receipts[r].receipt == r && n.receipts.Keys == {r} {
      forall q | q in n.receipts ensures q == r {
        assert RecordedAs(n, n.receipts[q]) && RecordedAs(n, n.receipts[r]);
      }
    }
  }

  /** Whoever is told that the launch is recorded finds its one launch event applied. */
  lemma RecordedMeansApplied(w: World, c: ClientId)
    requires WorldSound(w) && c in w.clients && w.clients[c].Finished? && !w.clients[c].result.RefusedSafely?
    ensures |w.created| == 1 && w.created[0] in w.receipts && w.receipts[w.created[0]].receipt == w.created[0]
  {
    assert ClientSound(w, c, w.clients[c]);
  }

  /** What was created and what the journal fixed as its launch event never change again. */
  predicate KeepsLaunch(w: World, n: World) {
    && (w.created != [] ==> n.created == w.created)
    && (w.journal.Some? ==> n.journal.Some? && n.journal.value.spec == w.journal.value.spec)
    && (w.journal.Some? && w.journal.value.receiptEvent.Some? ==> n.journal.value.receiptEvent == w.journal.value.receiptEvent)
    && (forall r :: r in w.receipts ==> r in n.receipts && n.receipts[r] == w.receipts[r])
  }

  lemma ActKeepsLaunch(w: World, c: ClientId, a: Effect)
    requires WorldSound(w)
    ensures KeepsLaunch(w, Act(w, c, a))
  {
    hide Step, OffersLaunch, Told, IntentEvent, ArmingEvent, ReceiptEvent, RecordForbidden;
    hide OneCreator;
    if c in w.clients { assert ClientSound(w, c, w.clients[c]); }
  }

  lemma {:induction false} LaunchIsNeverRewritten(w: World, steps: seq<(ClientId, Effect)>)
    requires WorldSound(w)
    ensures KeepsLaunch(w, Perform(w, steps))
    decreases |steps|
  {
    hide WorldSound, Act;
    if steps != [] {
      var mid := Act(w, steps[0].0, steps[0].1);
      ActKeeps(w, steps[0].0, steps[0].1);
      ActKeepsLaunch(w, steps[0].0, steps[0].1);
      LaunchIsNeverRewritten(mid, steps[1..]);
    }
  }
}
