/** The part of a run manifest that the controller's decisions depend on. */
module Manifest {
  import opened Prelude
  import opened DependencyOrder

  datatype TicketStatus =
    | Discovered | Triaged | RouteValidationRequired | ReconciliationRequired
    | AwaitingSpecificationDecision | AwaitingAnalysisApproval | Analyzed
    | ReadyForImplementation | NeedsContractAmendment | AwaitingRequiredInput
    | ExecutionPairRunning | AwaitingExecutionIntegration | AwaitingVerification
    | VerificationFailed | AwaitingRemediationVerification | FunctionalReady | AutoReview
    | AwaitingFindingReconciliation | NeedsRemediation | Fixing | AwaitingPreMergeApproval
    | ReadyToMerge | MergedIntoTrain | TicketBlocked | TicketFailed | TicketCancelled
    | AnalysisReported

  predicate TerminalTicket(s: TicketStatus) {
    s.AnalysisReported? || s.MergedIntoTrain? || s.TicketBlocked? || s.TicketFailed? || s.TicketCancelled?
  }

  datatype LaunchState =
    | IntentRecorded | Queued | Running | LaunchUnknown
    | NeedsInput | InputReady | Completed | Blocked | Failed | Cancelled | Superseded

  predicate ActivePhase(l: LaunchState) {
    l.IntentRecorded? || l.Queued? || l.Running? || l.LaunchUnknown?
  }

  datatype PhaseKind =
    | Triage | Analysis | RouteValidation | AnalysisReconciliation | ContractValidation
    | Implementation | AcceptanceTests | Review | Remediation | FinalReview | FinalRemediation

  // ----- editor slots -----

  datatype Requirement = NoEditor | EditorRead | EditorWrite | PlaymodeUi | Build

  datatype Owner = OfPhase(key: PhaseKey) | OfVerification(ticket: TicketId) | OfFinalVerification

  datatype Lease = Lease(id: Reference, owner: Owner)

  datatype PhaseLease = PhaseLease(slot: SlotId, id: Reference)

  /** A worktree at a commit, on a branch or detached. */
  datatype Place = Place(branch: Option<Reference>, head: Commit)

  /** `base` is where the phase starts and `result` the commit that its latest report names. */
  datatype Phase = Phase(
    ticket: Option<TicketId>, kind: PhaseKind, launch: LaunchState, requirement: Requirement,
    base: Place, lease: Option<PhaseLease>, thread: Option<Reference>, client: Option<Reference>,
    forbiddenThread: Option<Reference>, result: Option<Commit>)

  /** What a completed phase hands over: the commit it leaves, and how many cost anomalies its usage opens. */
  datatype Report = Report(commit: Option<Commit>, excess: nat)

  // ----- tickets -----

  datatype ScopeStatus = ScopeClear | ScopeApprovalRequired | ScopeResolved

  /** `needsContract` is a HIGH or MAXIMUM complexity. */
  datatype AnalysisRecord = AnalysisRecord(needsContract: bool, scope: ScopeStatus)

  datatype Verdict = NoVerdict | PassedVerdict | FailedVerdict

  /** What dependency consolidation records about a ticket. `group` is the parallel group of a
      parallel-safe ticket. */
  datatype Plan = Plan(
    dependencies: seq<TicketId>, group: Option<string>,
    domains: set<string>, files: set<string>, structures: set<string>)

  const NO_PLAN := Plan([], None, {}, {}, {})

  /** `branch` is the branch of the implementation, on which the pair is integrated. */
  datatype Execution = Execution(implementation: PhaseKey, acceptance: PhaseKey, verification: Requirement, branch: Reference)

  datatype LimitException = NoException | Granted | Consumed

  /** The durable records of a ticket's delivery. */
  datatype Records = Records(plan: Plan, execution: Option<Execution>, isolatedFor: Option<TicketId>, merge: Option<Commit>)

  /** Remediation cycles used, the current limit exception and the number of earlier ones. */
  datatype Budget = Budget(cycles: nat, exception: LimitException, history: nat)

  /** What triage, analysis, contract validation, integration, verification and review have established. */
  datatype Facts = Facts(
    triaged: bool, analysis: Option<AnalysisRecord>, contract: Verdict, integrated: Option<Commit>, blockedByFailure: bool, reviewed: bool)

  datatype Ticket = Ticket(status: TicketStatus, facts: Facts, records: Records, budget: Budget)

  // ----- gates -----

  datatype GateKind = AnalysisGate | PreMergeGate | InputGate | SpecificationGate

  datatype GateStatus = Unannounced | Announced | Approved | Rejected | Provided | Resolved

  datatype ResumeMode = NotResuming | TicketState | SameThread | PrelaunchRetry

  datatype Gate = Gate(
    kind: GateKind, ticket: TicketId, phase: Option<PhaseKey>, prior: Option<TicketStatus>,
    resume: ResumeMode, status: GateStatus)

  // ----- finalization -----

  datatype FinalStatus =
    | NotStarted | Started | FinalPrOpen | FinalVerificationFailed | FinalPrReview
    | AwaitingFeedbackCollection | FeedbackCollection | AwaitingFinalFindings
    | FinalReviewClean | NeedsFinalRemediation | FinalFixing | AwaitingFinalPrUpdate
    | FinalBlocked | ReadyForCompletion | FinalCompleted | DeliveredInBase

  datatype FinalPr = FinalPr(head: Commit, draft: bool)
  datatype FinalVerification = FinalVerification(head: Commit, passed: bool)
  datatype FeedbackWindow = FeedbackWindow(id: Reference, head: Commit)
  datatype FeedbackSnapshot = FeedbackSnapshot(id: Reference, head: Commit)
  datatype FindingLedger = FindingLedger(head: Commit, snapshotId: Reference)
  datatype BaseMerge = NotAuthorized | Authorized(head: Commit) | AuthorizationConsumed(head: Commit)

  /** What has been collected about the final head. */
  datatype FinalRecords = FinalRecords(
    verification: Option<FinalVerification>, review: Option<Commit>, collection: Option<FeedbackWindow>,
    snapshot: Option<FeedbackSnapshot>, ledger: Option<FindingLedger>, evidence: bool)

  /** The current repair of the final head and what repairs have cost so far. */
  datatype Repair = Repair(testDefect: bool, pr: Option<Commit>, merge: Option<Commit>, cycles: nat, extensionUsed: bool)

  datatype Finalization = Finalization(
    status: FinalStatus, pr: Option<FinalPr>, records: FinalRecords, repair: Repair,
    requirement: Option<Requirement>, baseMerge: BaseMerge)

  const NO_FINAL_RECORDS := FinalRecords(None, None, None, None, None, false)

  const FRESH_FINALIZATION := Finalization(NotStarted, None, NO_FINAL_RECORDS, Repair(false, None, None, 0, false), None, NotAuthorized)

  // ----- the whole manifest -----

  /** What never changes during a run: `live` is the execution mode, `editors` the
      unity-mcp-local profile. */
  datatype Settings = Settings(live: bool, editors: bool, maxPairs: nat, maxAnalyses: nat, maxEditors: nat)

  /** `editorsReady` is the status of the editor environment; `anomalies` counts open cost anomalies. */
  datatype Manifest = Manifest(
    run: Settings, editorsReady: bool, tickets: map<TicketId, Ticket>, order: seq<TicketId>, consolidated: bool,
    phases: map<PhaseKey, Phase>, gates: map<GateId, Gate>, pending: Option<GateId>,
    slots: map<SlotId, Option<Lease>>, train: Option<Commit>, final: Finalization,
    anomalies: nat, completed: bool)

  const NEW_TICKET :=
    Ticket(Discovered, Facts(false, None, NoVerdict, None, false, false), Records(NO_PLAN, None, None, None), Budget(0, NoException, 0))

  /** A manifest as `bootstrap` writes it; `order` lists the tickets. */
  ghost predicate Bootstrapped(m: Manifest) {
    && (forall t :: t in m.tickets ==> m.tickets[t] == NEW_TICKET)
    && Distinct(m.order) && Elements(m.order) == m.tickets.Keys
    && m.phases == map[] && m.gates == map[] && m.slots == map[]
    && !m.editorsReady && !m.consolidated && m.pending == None && m.train == None
    && m.final == FRESH_FINALIZATION && m.anomalies == 0 && !m.completed
    && m.run.maxPairs == 2 && m.run.maxAnalyses == 5
  }

  // ----- readings of the manifest -----

  function DependencyGraph(m: Manifest): Graph {
    map t | t in m.tickets :: m.tickets[t].records.plan.dependencies
  }

  predicate DependenciesSatisfied(m: Manifest, t: TicketId)
    requires t in m.tickets
  {
    forall d :: d in m.tickets[t].records.plan.dependencies ==> d in m.tickets && m.tickets[d].status.MergedIntoTrain?
  }

  /** Two tickets may overlap only inside one validated parallel group and with nothing shared. */
  predicate ParallelProven(a: Plan, b: Plan) {
    && a.group.Some? && a.group == b.group && a.group.value != ""
    && a.domains !! b.domains && a.files !! b.files && a.structures !! b.structures
  }

  predicate HasActivePhase(m: Manifest, t: TicketId) {
    exists p :: p in m.phases && m.phases[p].ticket == Some(t) && ActivePhase(m.phases[p].launch)
  }

  /** The audited escape hatch: `other` is blocked, was isolated for `t`, and nothing of it runs. */
  predicate ReleasedBy(m: Manifest, other: TicketId, t: TicketId)
    requires other in m.tickets
  {
    && m.tickets[other].status.TicketBlocked?
    && m.tickets[other].records.isolatedFor == Some(t)
    && !HasActivePhase(m, other)
  }

  /** `other` does not hold `t` back; `earlier` says that it precedes `t` in the fixed order. */
  predicate DoesNotHoldBack(m: Manifest, t: TicketId, other: TicketId, earlier: bool)
    requires t in m.tickets
  {
    other in m.tickets
    && (|| m.tickets[other].status.MergedIntoTrain?
        || other in m.tickets[t].records.plan.dependencies
        || ReleasedBy(m, other, t)
        || (!earlier && m.tickets[other].records.execution == None)
        || ParallelProven(m.tickets[t].records.plan, m.tickets[other].records.plan))
  }

  predicate ScheduleSatisfied(m: Manifest, t: TicketId)
    requires t in m.tickets
  {
    var o := Order(DependencyGraph(m), m.order);
    && DependenciesSatisfied(m, t)
    && o.Ordered?
    && forall k :: 0 <= k < |o.tickets| && o.tickets[k] != t ==>
         DoesNotHoldBack(m, t, o.tickets[k], t !in o.tickets[..k])
  }

  function RunningPairs(m: Manifest): set<TicketId> {
    set t | t in m.tickets && m.tickets[t].status.ExecutionPairRunning?
  }

  function LeasedSlots(m: Manifest): set<SlotId> {
    set s | s in m.slots && m.slots[s].Some?
  }

  predicate Leases(m: Manifest, s: SlotId, owner: Owner) {
    s in m.slots && m.slots[s].Some? && m.slots[s].value.owner == owner
  }

  predicate HoldsSlot(m: Manifest, owner: Owner) {
    exists s :: s in m.slots && Leases(m, s, owner)
  }

  /** `s` is the slot that looking up the owner's lease finds, the first in stored order. */
  predicate FirstSlotOf(m: Manifest, s: SlotId, owner: Owner) {
    Leases(m, s, owner) && forall r :: r in m.slots && Leases(m, r, owner) ==> !Before(r, s)
  }

  predicate ForPhase(m: Manifest, g: GateId, p: PhaseKey) {
    g in m.gates && m.gates[g].phase == Some(p)
  }

  predicate FirstGateOf(m: Manifest, g: GateId, p: PhaseKey) {
    ForPhase(m, g, p) && forall h :: h in m.gates && ForPhase(m, h, p) ==> !Before(h, g)
  }

  predicate IsCompleted(m: Manifest, p: PhaseKey, kind: PhaseKind, t: TicketId) {
    p in m.phases && m.phases[p].kind == kind && m.phases[p].ticket == Some(t)
    && m.phases[p].launch.Completed?
  }

  // ----- where an editor is wanted -----

  predicate CompletedRepair(m: Manifest, p: PhaseKey, t: TicketId) {
    IsCompleted(m, p, Remediation, t)
  }

  /** The completed repair of the ticket that is found last. */
  predicate LatestRepair(m: Manifest, p: PhaseKey, t: TicketId) {
    CompletedRepair(m, p, t) && forall q :: q in m.phases && CompletedRepair(m, q, t) ==> !Before(p, q)
  }

  /** The head to verify when no repair names one: the integrated head, or the implementation's commit. */
  function UnrepairedHead(m: Manifest, t: TicketId): Option<Commit>
    requires t in m.tickets && m.tickets[t].records.execution.Some?
  {
    var implementation := m.tickets[t].records.execution.value.implementation;
    if m.tickets[t].status.AwaitingVerification? && m.tickets[t].facts.integrated.Some? then m.tickets[t].facts.integrated
    else if implementation in m.phases then m.phases[implementation].result
    else None
  }

  function RepairedHead(m: Manifest, t: TicketId, p: PhaseKey): Option<Commit>
    requires t in m.tickets && m.tickets[t].records.execution.Some? && p in m.phases
  {
    if m.phases[p].result.Some? then m.phases[p].result else UnrepairedHead(m, t)
  }

  predicate HasRepair(m: Manifest, t: TicketId) {
    exists p :: p in m.phases && CompletedRepair(m, p, t)
  }

  /** Some head is known at which the ticket can be verified. */
  predicate HeadKnown(m: Manifest, t: TicketId)
    requires t in m.tickets && m.tickets[t].records.execution.Some?
  {
    if HasRepair(m, t) then exists p :: p in m.phases && LatestRepair(m, p, t) && RepairedHead(m, t, p).Some?
    else UnrepairedHead(m, t).Some?
  }

  /** The ticket is to be verified at this place. */
  predicate VerifiedAt(m: Manifest, t: TicketId, place: Place)
    requires t in m.tickets && m.tickets[t].records.execution.Some?
  {
    if HasRepair(m, t) then
      exists p :: p in m.phases && LatestRepair(m, p, t) && place.branch == m.phases[p].base.branch && RepairedHead(m, t, p) == Some(place.head)
    else place.branch == Some(m.tickets[t].records.execution.value.branch) && UnrepairedHead(m, t) == Some(place.head)
  }

  /** Where an interrupted phase goes on: at the commit it left, or where it started. */
  function ResumeHead(p: Phase): Commit {
    if p.result.Some? then p.result.value else p.base.head
  }

  /** The controller expects the owner's editor at this place. */
  predicate Expects(m: Manifest, owner: Owner, place: Place) {
    match owner
    case OfPhase(p) =>
      p in m.phases && place == Place(m.phases[p].base.branch, if m.phases[p].launch.InputReady? then ResumeHead(m.phases[p]) else m.phases[p].base.head)
    case OfVerification(t) => t in m.tickets && m.tickets[t].records.execution.Some? && VerifiedAt(m, t, place)
    case OfFinalVerification => m.final.pr.Some? && place == Detached(m.final.pr.value.head)
  }

  predicate ScopeAuthorized(t: Ticket) {
    t.facts.analysis.None? || (t.facts.analysis.value.scope.ScopeClear? || t.facts.analysis.value.scope.ScopeResolved?)
  }

  predicate ContractSettled(t: Ticket) {
    t.facts.analysis.Some? && (t.facts.analysis.value.needsContract ==> t.facts.contract.PassedVerdict?)
  }

  /** Without the editor profile nothing may ask for an editor. */
  predicate RequirementAllowed(m: Manifest, r: Requirement) {
    m.run.editors || r.NoEditor?
  }

  predicate NoActivePhase(m: Manifest) {
    forall p :: p in m.phases ==> !ActivePhase(m.phases[p].launch)
  }

  /** Remediation cycles allowed without an exception, and at most for a final test-only repair. */
  const AUTOMATIC_CYCLES: nat := 2
  const TEST_ONLY_FINAL_CYCLES: nat := 3

  // ----- elementary changes -----

  /** What an analysed ticket becomes: ready once the dependencies are consolidated. */
  function AnalyzedStatus(m: Manifest): TicketStatus {
    if m.consolidated then ReadyForImplementation else Analyzed
  }

  /** The result of one event: a refusal, or the manifest it leaves. */
  datatype Outcome = Refused | Accepted(m: Manifest)

  // What branches do to phases: none is lost, and apart from the exceptions named where they
  // occur, none starts to run and none goes back to awaiting its launch.

  predicate PhasesPersist(a: map<PhaseKey, Phase>, b: map<PhaseKey, Phase>) {
    forall p :: p in a ==>
      p in b && b[p].kind == a[p].kind && b[p].ticket == a[p].ticket && b[p].requirement == a[p].requirement && b[p].base == a[p].base
  }

  predicate Launched(l: LaunchState) {
    l.Queued? || l.Running?
  }

  predicate StartsNone(a: map<PhaseKey, Phase>, b: map<PhaseKey, Phase>) {
    forall p :: p in b && Launched(b[p].launch) ==> p in a && Launched(a[p].launch) && b[p].requirement == a[p].requirement
  }

  predicate RearmsNone(a: map<PhaseKey, Phase>, b: map<PhaseKey, Phase>) {
    forall p :: p in a && p in b && b[p].launch.IntentRecorded? ==> a[p].launch.IntentRecorded?
  }

  predicate PhasesSettle(a: map<PhaseKey, Phase>, b: map<PhaseKey, Phase>) {
    PhasesPersist(a, b) && StartsNone(a, b) && RearmsNone(a, b)
  }

  predicate SettlesPhase(a: map<PhaseKey, Phase>, p: PhaseKey, v: Phase) {
    if p in a then
      && v.kind == a[p].kind && v.ticket == a[p].ticket && v.requirement == a[p].requirement && v.base == a[p].base
      && (Launched(v.launch) ==> Launched(a[p].launch)) && (v.launch.IntentRecorded? ==> a[p].launch.IntentRecorded?)
    else !Launched(v.launch)
  }

  /** At most the phase `p` is changed or added. */
  predicate OnePhase(a: map<PhaseKey, Phase>, b: map<PhaseKey, Phase>, p: PhaseKey) {
    b == a || (p in b && b == a[p := b[p]] && SettlesPhase(a, p, b[p]))
  }

  // What branches do to tickets: most of them leave the durable records and budgets alone and
  // neither declare a ticket merged nor, before consolidation, ready.

  predicate AfterConsolidation(s: TicketStatus) {
    s.ReadyForImplementation? || s.NeedsContractAmendment?
  }

  predicate OrdinaryChange(consolidated: bool, a: Ticket, b: Ticket) {
    && b.records == a.records && b.budget == a.budget
    && (b.status.MergedIntoTrain? ==> a.status.MergedIntoTrain?)
    && (AfterConsolidation(b.status) ==> AfterConsolidation(a.status) || consolidated)
  }

  predicate OrdinaryChanges(consolidated: bool, a: map<TicketId, Ticket>, b: map<TicketId, Ticket>) {
    b.Keys == a.Keys && forall t :: t in a ==> OrdinaryChange(consolidated, a[t], b[t])
  }

  /** At most the ticket `t` changes, in an ordinary way. */
  predicate OneTicket(consolidated: bool, a: map<TicketId, Ticket>, b: map<TicketId, Ticket>, t: TicketId) {
    b == a || (t in a && t in b && b == a[t := b[t]] && OrdinaryChange(consolidated, a[t], b[t]))
  }

  /** The same gate, apart from how far it has been decided. */
  predicate SameQuestion(a: Gate, b: Gate) {
    a.kind == b.kind && a.ticket == b.ticket && a.phase == b.phase && a.prior == b.prior && a.resume == b.resume
  }

  /** A gate as it is opened: a request for input remembers its ticket's status at that moment. */
  predicate NewGate(tickets: map<TicketId, Ticket>, g: Gate) {
    && g.status.Unannounced?
    && (g.kind.InputGate? ==> g.ticket in tickets && g.prior == Some(tickets[g.ticket].status))
    && (!g.kind.InputGate? ==> g.prior == None)
  }

  /** At most the gate `g` is opened, and nothing else happens to gates. */
  predicate OpensAtMost(tickets: map<TicketId, Ticket>, a: map<GateId, Gate>, b: map<GateId, Gate>, g: GateId) {
    b == a || (g !in a && g in b && b == a[g := b[g]] && NewGate(tickets, b[g]))
  }

  datatype NextStep = Remediate | Retry | Block

  /** A gate that a branch opens when `gated` holds. */
  datatype GateRule = GateRule(gated: bool, gate: GateId)

  function Detached(head: Commit): Place {
    Place(None, head)
  }

  function NewPhase(ticket: Option<TicketId>, kind: PhaseKind, requirement: Requirement, base: Place): Phase {
    Phase(ticket, kind, IntentRecorded, requirement, base, None, None, None, None, None)
  }

  function WithTicket(m: Manifest, t: TicketId, v: Ticket): Manifest {
    m.(tickets := m.tickets[t := v])
  }

  function WithStatus(m: Manifest, t: TicketId, s: TicketStatus): Manifest
    requires t in m.tickets
  {
    WithTicket(m, t, m.tickets[t].(status := s))
  }

  function WithPhase(m: Manifest, p: PhaseKey, v: Phase): Manifest {
    m.(phases := m.phases[p := v])
  }

  function WithLaunch(m: Manifest, p: PhaseKey, l: LaunchState): Manifest
    requires p in m.phases
  {
    WithPhase(m, p, m.phases[p].(launch := l))
  }

  /** The phase ends with a report of the commit it leaves. */
  function WithEnd(m: Manifest, p: PhaseKey, l: LaunchState, commit: Option<Commit>): Manifest
    requires p in m.phases
  {
    WithPhase(m, p, m.phases[p].(launch := l, result := commit))
  }

  function WithGate(m: Manifest, g: GateId, v: Gate): Manifest {
    m.(gates := m.gates[g := v])
  }

  /** A gate leaves the pending states: it takes its outcome and stops being the pending action. */
  function CloseGate(m: Manifest, g: GateId, outcome: GateStatus): Manifest
    requires g in m.gates
  {
    m.(gates := m.gates[g := m.gates[g].(status := outcome)],
       pending := if m.pending == Some(g) then None else m.pending)
  }

  /** `n` has closed the announced gate `g` and touched no other gate. */
  predicate Closes(m: Manifest, g: GateId, outcome: GateStatus, n: Manifest) {
    && g in m.gates && m.gates[g].status.Announced?
    && n.gates == CloseGate(m, g, outcome).gates && n.pending == CloseGate(m, g, outcome).pending
  }
}
