# Verified model of the ticket-train control plane

The control plane runs long multi-agent work from one manifest: a controller that applies events
to it, a planner that reads it, adapters that cross boundaries which have no transactions, a pool
of editor slots and a token ledger. This project models those parts in Dafny and proves what they
promise over whole runs.

## What is modelled

- **Scheduler and lifecycle** (`DependencyOrder`, `Manifest`, `PlanningEvents`, `GateEvents`,
  `PhaseEvents`, `SlotEvents`, `DeliveryEvents`, `FinalizationEvents`, `Events`). Every branch of
  `handle_event` that changes tickets, phases, gates, slots or finalization is a function from a
  manifest to its outcome, with the branch's own order of checks, limits and statuses. The class
  `Controller.LoadedManifest` is the handler itself, changing its fields in place; each of its
  methods is proved to refuse exactly when the function refuses and otherwise to leave exactly the
  function's manifest. `Effects` says what each group of branches can change, `HumanGates`,
  `EditorPool`, `SchedulerSafety`, `RemediationBudget` and `FinalizationCoherence` are the
  invariants, and `Runs` puts them together for every run from a bootstrapped manifest.
  `SettledTickets` and `AuditedIsolation` say exactly which events end a blocked or merged status and
  an audited isolation. `FinalVerdict` says when a run that awaits completion has a passed final
  verification, and `Completion` builds whole runs from bootstrap to completion; `ReopenedTickets`
  builds the runs in which a merged or isolated ticket is taken up again.
- **Planner** (`Planner`, `Progress`, `AnalysisPresence`, `StaleAnswer`). Which execution pairs are
  offered, why they can be applied in any order, why the schedule never deadlocks, and when the
  handler refuses an offer.
- **Exactly-once application** (`EventStore`, `ManifestStore`). Clients with stale revisions,
  retries and crashes share a manifest file, a temporary file and a lock file. `ManifestStore`
  closes the circle: whatever the clients do, the stored manifest keeps the controller's invariants.
- **Launch protocol** (`LaunchProtocol`, `LaunchRecording`, `LaunchOffers`). Hand-off, arming,
  journal, creation, raw receipt and recording as steps with a crash or any other controller event
  allowed between any two; what the controller answers is what `Events.Step` says.
- **Editor slots** (`SlotRegistry`, `SlotAdapter`, `SlotSteps`, `Places`, `PhaseHistory`). The
  persistent registry with every save it makes and the branch and head it left each slot at, the
  adapter that keeps the controller's table in step with it, re-run after every interruption, and the
  place at which the controller expects each owner's editor.
- **Interrupted leases** (`Aftermath`, `StrandedLeases`, `VerificationLeases`, `DriftedLeases`). What
  every event leaves of phases and tickets, and exactly which events keep a re-run from repairing an
  interrupted acquisition or release, for each kind of owner.
- **Contract collection** (`ContractCollection`) and **orchestrator ownership** (`Ownership`).
- **Token accounting** (`Measurements`, `UsageMatrix`, `SingleCharge`, `SessionRecords`).
- **Scope decisions** (`ScopeAssessment`).

An event carries one boolean for its evidence fields (references, digests, report flags, routing
settings), and one boolean for each decision that the code reads off a fixed routing table; all
such booleans are unconstrained inputs. Statuses, heads, counters, identifiers and durable records
are exact. Time, clocks, git, editors and desktop tools appear as inputs of the operation that
consults them. Digests are taken to be injective.

Manifests are written with sorted keys, so walking a reloaded dictionary means walking it in
code-point order; that decides which gate a resumed phase uses and which lease a lookup finds.

## Where the code does less than its texts suggest

Each of these is a lemma; the code is modelled as it is.

- Collecting a contract result is refused as a whole when the completed phase opens a cost anomaly,
  because the nested second event meets the anomaly checkpoint
  (`ContractCollection.PhaseAndVerdictCommitTogether`).
- A final review can be recorded after its verification has failed again, so the completion stage
  can be reached with a failed verification (`FinalVerdict.SomeReviewMeetsAFailure`); completion
  itself then refuses. A reviewed head is verified as passed throughout a run exactly when every
  recorded review meets a passed verification (`FinalVerdict.PassedThroughoutExactly`).
- A blocked or merged status is not final, and neither is the quiet of an isolated ticket: recording
  a completed review again, answering an old request and other events look at no status
  (`SettledTickets.StatusIsKeptExactly`, `AuditedIsolation.HatchIsKeptExactly`,
  `ReopenedTickets.SomeIsolatedTicketIsRepairedAgain`, `ReopenedTickets.SomeTicketIsMergedAgain`).
- The planner offers ready pairs without looking for an authorized scope, and the handler refuses
  exactly those that lack it (`AnalysisPresence.ReachableBatchIsAccepted`). Such a pair is reachable: an
  input request answered late brings back the ready status it remembers, although a second analysis
  has asked for a scope decision in between (`StaleAnswer.UnauthorizedScopeIsOffered`).
- An editor lease that the manager granted or gave up, and that the controller has not been told
  about, is repaired by re-running the adapter only while the planner still proposes it. A launch
  reported as blocked, or an answer to the phase's input request, can come in between
  (`StrandedLeases.AcquisitionStrandsExactly`, `StrandedLeases.ReleaseStrandsExactly`).
- Nor does it help that the planner still proposes it when the head has moved: the manager answers
  that the slot is acquired and returns the old head, which the controller refuses every time. A drift
  of the final head is enough (`DriftedLeases.SomeFinalLeaseIsStranded`), and so is a repair that
  completes (`VerificationLeases.VerificationStrandsExactly`).
- Recording a launch protects four of the six ways in which a phase ends: a cancelled or superseded
  phase is set running again (`LaunchRecording.RecordOverwritesExactly`,
  `LaunchOffers.SomeSupersededReviewRunsAgain`).
- Starting finalization again keeps the records of the earlier pull request
  (`FinalizationCoherence.RestartIsCoherentExactly`).
- The arming event is identified by the dispatch specification alone, so arming again after a
  pre-launch retry is a duplicate and leaves the launch on offer
  (`LaunchOffers.ArmingEndsTheOfferExactly`, `LaunchOffers.SomeRetriedAnalysisIsStillOffered`).
  The journal still prevents a second creation.
- A hand-off history records the thread identifier as written and the lease the stripped one, so the
  path of owners breaks exactly for identifiers that are not normalized (`Ownership.ChainIsKeptExactly`).
- A phase of a ticket named "run" is counted in its own row and among the run-level rows, and one
  hosted by an orchestrator's thread in its row and the orchestrator's
  (`SingleCharge.TicketNamedRunIsCountedTwice`, `SingleCharge.HostedPhaseIsCountedTwice`); nothing
  else is counted twice (`SingleCharge.NothingIsCountedTwiceExactly`).
- Every item that names a proposal follows its decision, also one that was already authorized and
  classified (`ScopeAssessment.StrayProposalDefersClassifiedItem`).

## Model

| member | source | states |
|---|---|---|
| DependencyOrder.OrderIsExact | scripts/train_controller.py:995-1016 | the order exists exactly when the priority covers the tickets, every dependency is known and there is no cycle; a failure on a closed graph is a cycle; a success lists every ticket once, each after all its dependencies |
| DependencyOrder.OvertakingIsNeeded | scripts/train_controller.py:995-1016 | a ticket comes before one of higher priority only if a ticket ranked at least that high depends on it |
| DependencyOrder.TopologicalPriorityIsKept | scripts/train_controller.py:2030 | an already topological priority is returned unchanged, so storing the computed order is a fixed point |
| DependencyOrder.OrderBuilder.VisitTicket | scripts/train_controller.py:1001-1010 | the recursive visit, growing its three collections in place, computes the specified search and restores the visiting set |
| DependencyOrder.OrderedExecutionTickets | scripts/train_controller.py:995-1016 | the in-place search returns exactly the specified order or the same failure |
| Controller.LoadedManifest.ExecutionScheduleSatisfied | scripts/train_controller.py:1019-1058 | the loop with its `earlier` flag decides exactly whether dependencies are merged and every other ticket is merged, a dependency, released by an audited isolation, later and not started, or proven parallel |
| Controller.LoadedManifest.OfferPairs | scripts/train_controller.py:4390-4402 | the pairs offered are the ready tickets that pass the schedule and contract tests, cut to the free capacity |
| Controller.LoadedManifest.WritePlans | scripts/train_controller.py:1983-2017 | all plans are written, or the event is refused |
| Controller.LoadedManifest.GroupsCollisionFree | scripts/train_controller.py:2019-2029 | two members of one parallel group are refused when they share a domain or a file |
| Controller.LoadedManifest.Consolidate | scripts/train_controller.py:1952-2034 | consolidation checks every analysis, plan and group, stores the dependency order it computes and happens once |
| Controller.LoadedManifest.CollectContractResult | scripts/train_controller.py:2214-2237 | completion and verdict are one event, refused as a whole when a cost anomaly opens in between |
| Controller.LoadedManifest.ResolveGate | scripts/train_controller.py:2104-2129 | approval moves the ticket on by gate kind, rejection blocks it, and the pending action is cleared |
| Controller.LoadedManifest.RecordCompletion | scripts/train_controller.py:2490-2503 | a pair goes to integration when both halves are complete; repairs go to their own verification |
| Controller.LoadedManifest.TerminatePhase | scripts/train_controller.py:1138-1204 | a stopped phase asks for input through a new gate or takes its ticket with it |
| Controller.LoadedManifest.DispatchPair | scripts/train_controller.py:2337-2424 | an allowed dispatch adds both phases and the execution record |
| Controller.LoadedManifest.RecordReview | scripts/train_controller.py:2894-2941 | a recorded review completes its phase and asks for reconciliation |
| Controller.LoadedManifest.DispatchRemediation | scripts/train_controller.py:3125-3180 | a remediation stays within the limit or uses up the granted exception, in a fresh thread |
| Controller.LoadedManifest.DispatchFinalRemediation | scripts/train_controller.py:3716-3769 | a final repair stays within the limit or is a test-only extension |
| Controller.LoadedManifest.SupersedeFinalReviews | scripts/train_controller.py:2758-2771 | every active final review is superseded and nothing else |
| Controller.LoadedManifest.DriftFinalHead | scripts/train_controller.py:2730-2795 | a drifted head drops everything collected about the earlier one |
| Controller.LoadedManifest.HandleEvent | scripts/train_controller.py:1265-3864 | handling any event in place refuses exactly when the specification does, and otherwise has its effect, keeps every whole-run invariant and, in a live run that does not restart finalization, the coherence of the final records |
| HumanGates.RunKeeps | scripts/train_controller.py:2070-2174 | in every run at most one gate is announced, the pending human action names exactly it, no gate is lost or changes its question, and a decided gate never changes again |
| HumanGates.DecidedOnce | scripts/train_controller.py:2104-2174 | a gate leaves the pending states at most once in any sequence of events |
| EditorPool.HandleKeeps | scripts/train_controller.py:1425-1541 | every event keeps the leased slots within the limit and a leased slot behind every queued or running editor phase |
| EditorPool.EditorPhasesAreBounded | scripts/train_controller.py:828-835 | editor phases in flight are at most as many as leased slots, which are at most the editor limit |
| SchedulerSafety.HandleKeeps | scripts/train_controller.py:2337-2424 | every event keeps the whole schedule invariant, through restored statuses, gates, isolation and merges |
| SchedulerSafety.OverlapIsJustified | scripts/train_controller.py:978-1058 | two dispatched unmerged tickets are proven parallel or one was isolated for the other |
| SchedulerSafety.OverlapSharesNothing | scripts/train_controller.py:978-992 | overlapping tickets that were not isolated share no file, collision domain or structural domain |
| SchedulerSafety.DispatchIsJustified | scripts/train_controller.py:1019-1058 | a ticket that passes the schedule test may overtake every earlier unmerged ticket |
| SchedulerSafety.ConsolidationKeeps | scripts/train_controller.py:1952-2034 | consolidation establishes the fixed topological order on which the invariant rests |
| SettledTickets.StatusIsKeptExactly | scripts/train_controller.py:1265-3864 | a blocked or merged ticket keeps its status through an accepted event exactly when the event is not one of the listed revivers: a late triage, a resolved gate, an answered or resumed input with another remembered status, a completion or termination of one of its phases, a reclassified suite, a recorded review, or a dry-run report |
| SettledTickets.StaysExactly | scripts/train_controller.py:1265-3864 | over a whole run it keeps the status exactly when no accepted event revives it |
| AuditedIsolation.HandleKeepsIsolation | scripts/train_controller.py:2604-2673 | the record of an isolation is never changed or removed |
| AuditedIsolation.QuietIsKeptExactly | scripts/train_controller.py:2604-2673 | a blocked or merged ticket without active phases stays without them exactly when no event dispatches, launches, re-arms or resumes one of its phases |
| AuditedIsolation.HatchIsKeptExactly | scripts/train_controller.py:1036-1056 | an isolation goes on releasing its ticket through an event exactly when the event neither revives nor reactivates the isolated one |
| AuditedIsolation.ReleasedExactly | scripts/train_controller.py:1036-1056 | and over a whole run exactly when no accepted event does |
| AuditedIsolation.IsolatedTicketIsRepairedAgain | scripts/train_controller.py:2894-2941 | while its isolation stands, a blocked ticket can have a completed review recorded again, be reconciled as blocking and get a new active remediation phase |
| AuditedIsolation.MergedTicketIsMergedAgain | scripts/train_controller.py:2894-2941 | a merged ticket can have a completed review recorded again and be merged a second time |
| ReopenedTickets.SomeTicketIsMergedAgain | scripts/train_controller.py:2894-2941 | from every bootstrapped live manifest with a ticket some accepted run merges a ticket and then merges it again |
| ReopenedTickets.SomeIsolatedTicketIsRepairedAgain | scripts/train_controller.py:2604-2673 | from every bootstrapped live manifest of three tickets or more some accepted run isolates a blocked ticket for another one and then gives it a new active repair, which ends the release while the isolation stays on record |
| RemediationBudget.HandleKeeps | scripts/train_controller.py:764-773 | every event keeps the number of spent exceptions equal to the cycles beyond the automatic limit |
| RemediationBudget.RemediationIsExact | scripts/train_controller.py:3125-3180 | dispatching a remediation keeps the balance |
| RemediationBudget.GrantIsExact | scripts/train_controller.py:3072-3123 | granting an exception keeps the balance |
| RemediationBudget.ThirdFinalCycleIsTestOnly | scripts/train_controller.py:3716-3769 | a final repair beyond the automatic limit repairs a test defect, touches tests only and is flagged |
| FinalizationCoherence.HandleKeeps | scripts/train_controller.py:3283-3833 | in live runs every event but a second start keeps every collected record on the current final head and every stage complete |
| FinalizationCoherence.ReadyMeansHeadsAgree | scripts/train_controller.py:3905-3912 | when completion is awaited the head clauses of the completion check hold |
| FinalizationCoherence.RestartIsCoherentExactly | scripts/train_controller.py:3283-3314 | after a second start the records stay coherent exactly when there are none or the head is unchanged |
| Runs.EveryReachableManifestIsSound | scripts/train_controller.py:1265-3864 | after any accepted events from a bootstrapped manifest: one announced gate, editors within the limit, exact budgets, dependencies merged before dispatch, overtaking only with proof or audit, and overlapping tickets proven parallel or isolated |
| Runs.PlannedRunNeverRestarts | scripts/train_controller.py:4474-4480 | a live run in which finalization is started only where the planner proposes it never starts it over an existing pull request |
| Runs.PlannedRunsAgreeOnTheHead | scripts/train_controller.py:4474-4480 | so in such a run all heads agree when completion is awaited |
| FinalVerdict.HandlePassesExactly | scripts/train_controller.py:3542-3574 | a passed verification behind a recorded review is kept by every event of a live run, except exactly the recording of a review that meets no passed verification |
| FinalVerdict.PassedThroughoutExactly | scripts/train_controller.py:3542-3574 | over a whole live run, a reviewed head is verified as passed at every moment exactly when every recorded final review meets a passed verification |
| FinalVerdict.AwaitedCompletionIsVerified | scripts/train_controller.py:3867-3912 | when completion is awaited and every recorded review met a passed verification, the final head is verified as passed |
| FinalVerdict.SomeReviewMeetsAFailure | scripts/train_controller.py:3542-3574 | from every bootstrapped live manifest with a ticket some run comes to await completion with agreeing heads and a failed verification, and completing it is refused |
| Completion.EveryRunCanAwaitCompletion | scripts/train_controller.py:1265-3864 | from every bootstrapped live manifest with a ticket some accepted run comes to await completion with a passed, or with a failed, final verification, and completion is accepted exactly in the first case |
| Runs.ReadyRunsAgreeOnTheHead | scripts/train_controller.py:3867-3912 | a live run that never restarts finalization agrees on the final head when completion is awaited |
| Planner.ReadyPairsAreProvenParallel | scripts/train_controller.py:4390-4398 | two tickets that are ready at the same time are proven parallel |
| Planner.OfferedBatchIsAccepted | scripts/train_controller.py:4390-4407 | pairs offered together are accepted by the handler as a whole, in any order, exactly when each ticket has an analysis and an authorized scope |
| AnalysisPresence.ReadyTicketsAreAnalysed | scripts/train_controller.py:1649-1708 | after any accepted events from bootstrap a ticket that is ready has a recorded analysis, also when an answered gate or a resumed phase restored its status |
| AnalysisPresence.ReachableBatchIsAccepted | scripts/train_controller.py:4390-4407 | so on reachable manifests pairs offered together are accepted, in any order, exactly when each ticket has an authorized scope |
| StaleAnswer.UnauthorizedScopeIsOffered | scripts/train_controller.py:2131-2192 | from every bootstrapped live manifest of one ticket some accepted run, with an old request answered after a second analysis, leads to where the planner offers the ticket and every dispatch of it is refused |
| Planner.DispatchableIsAccepted | scripts/train_controller.py:2337-2424 | dispatches that were ready together are accepted one after the other |
| Planner.ObservedLaunchIsNeverReoffered | scripts/train_controller.py:2445-2488 | once a launch has been observed the planner never offers it again without an explicit pre-launch retry |
| Progress.SomethingIsOffered | scripts/train_controller.py:4390-4407 | while consolidated idle work is unmerged the planner offers at least one pair |
| Progress.ReadyTicketIsDelivered | scripts/train_controller.py:2337-3190 | a concrete sequence of events takes an offered ticket from dispatch to merge |
| Progress.DeliveryStaysIdle | scripts/train_controller.py:1019-1058 | delivering a ticket removes exactly it from the unmerged ones and leaves the rest deliverable |
| Progress.EverythingCanBeMerged | scripts/train_controller.py:1019-1058 | whenever the dependencies are known and acyclic some accepted run merges every ticket: the schedule does not deadlock |
| EventStore.EveryWorldIsSound | scripts/train_controller.py:4861-4892 | under every interleaving of clients, crashes and retries the stored procedure is the fold of the handler over the log, events occur once with one payload, and sequences run from 1 to the revision |
| EventStore.ToldMeansLoggedOnce | scripts/train_controller.py:4873-4892 | a client told that its event is applied or a duplicate finds it in the log exactly once |
| EventStore.ClientsAreSerializable | scripts/run_registry.py:82-114 | the file is what the committed requests alone leave one after the other; refused, conflicting, timed-out and crashed requests leave no trace |
| EventStore.ReplaceKeeps | scripts/run_registry.py:82-91 | replacing the file commits exactly the writer's own event on top of what is stored |
| ManifestStore.ManifestFile.ApplyEvent | scripts/train_controller.py:4861-4892 | one application in place: duplicate, collision, stale revision, refusal or exactly one more logged event |
| ManifestStore.StoredManifestIsSound | scripts/train_controller.py:4861-4892 | whatever clients do, the stored manifest is a run of the controller over the log and keeps all controller invariants |
| LaunchProtocol.TaskIsCreatedAtMostOnce | scripts/phase_dispatch.py:70-114 | the external creation happens at most once per phase, and at most one launch event, the created task's own, is applied |
| LaunchProtocol.EveryWorldIsSound | scripts/phase_dispatch.py:70-162 | journal, receipt, launch events and created tasks agree after every crash and interleaving, with other controller events anywhere in between |
| LaunchProtocol.LaunchIsNeverRewritten | scripts/phase_dispatch.py:147-156 | what was created and the event fixed for it never change |
| LaunchProtocol.RecordedMeansApplied | scripts/phase_dispatch.py:157-162 | whoever is told that the launch is recorded finds its event applied |
| LaunchRecording.RecordCompletesExactly | scripts/phase_dispatch.py:117-162 | recording from a saved receipt completes exactly when the phase has not ended in one of the four checked ways and its launch event was applied before or meets the controller's guards; it then shows the receipt's task, a phase that ended changes nothing, and a refusal by the controller leaves only the fixed launch event in the journal |
| LaunchRecording.RecordOverwritesExactly | scripts/phase_dispatch.py:131 | recording turns an ended phase back into a launched one exactly when the phase was cancelled or superseded, its launch event is new and the controller's guards hold |
| LaunchRecording.LaunchDirectory.Begin | scripts/phase_dispatch.py:70-114 | one uninterrupted begin in place has the effect of its steps |
| LaunchRecording.LaunchDirectory.Record | scripts/phase_dispatch.py:117-162 | one uninterrupted record in place has the effect of its steps |
| LaunchOffers.ActIntendsExactly | scripts/phase_dispatch.py:70-162 | once a launch is not intended any more, an effect of any client or event of the controller makes it intended again exactly when it is the answer to a pre-launch retry |
| LaunchOffers.ArmingEndsTheOfferExactly | scripts/phase_dispatch.py:108-111 | arming leaves the launch intended exactly when it was until then and this specification has armed the phase before |
| LaunchOffers.ArmedLaunchIsNeverReoffered | scripts/phase_dispatch.py:108-111 | armed for the first time with its specification, a launch is never offered again, whatever clients and controller do, unless a pre-launch retry is answered |
| LaunchOffers.RetriedArmingIsStillOffered | scripts/phase_dispatch.py:108-114 | after an answered pre-launch retry with the same specification the task is created, once, and still offered |
| LaunchOffers.SupersededReviewRunsAgain | scripts/phase_dispatch.py:131 | a review launched for one head, superseded by a drift of the head before its receipt is recorded, runs again |
| LaunchOffers.SomeSupersededReviewRunsAgain | scripts/phase_dispatch.py:131 | from every bootstrapped live manifest with a ticket some accepted run leads to a final review to which exactly that happens |
| LaunchOffers.SomeRetriedAnalysisIsStillOffered | scripts/phase_dispatch.py:108-114 | from every bootstrapped manifest some accepted run leads to the analysis of any chosen ticket whose launch, retried, is still offered after its task was created |
| LaunchProtocol.ActKeeps | scripts/phase_dispatch.js:36-67 | each effect of the bridge, in its order, keeps the files and the controller in agreement |
| SlotRegistry.LeasesSurvive | scripts/unity_slot_manager.py:254-577 | through any operations dying at any save, leased owners stay distinct, only slots within the limit are leased, statuses fit leases, and a lease lasts until its owner releases it |
| SlotRegistry.AcquiringAgainReturnsTheLease | scripts/unity_slot_manager.py:406-518 | a later acquisition by a leaseholder fails or returns the same slot and lease |
| SlotRegistry.LeasesAreBounded | scripts/unity_slot_manager.py:406-518 | at most as many slots are leased as the limit allows |
| SlotRegistry.AcquireSavesAreGood | scripts/unity_slot_manager.py:406-518 | every state an acquisition saves is well formed and keeps every earlier lease |
| SlotRegistry.ReleaseIsGood | scripts/unity_slot_manager.py:521-577 | a release gives up only its owner's lease |
| SlotRegistry.InitIsGood | scripts/unity_slot_manager.py:254-308 | initialization keeps every lease and is refused when the limit would exclude one |
| SlotRegistry.Process.Prepare | scripts/unity_slot_manager.py:448-476 | candidates are tried in turn and each failure is saved before the next |
| SlotRegistry.Process.Acquire | scripts/unity_slot_manager.py:406-518 | the staged acquisition saves exactly the specified states, up to the save it dies at |
| SlotRegistry.Process.ReleaseLease | scripts/unity_slot_manager.py:521-577 | a release saves once, and a repeated one is recognized |
| SlotRegistry.Process.Init | scripts/unity_slot_manager.py:262-308 | the loops refresh, add and disable slots and save once |
| SlotAdapter.InterruptedAcquisitionsKeepPending | scripts/unity_slot_adapter.py:118-157 | whatever attempts of one owner are interrupted, the tables differ at most in its pending lease |
| SlotAdapter.RoomForPending | scripts/unity_slot_adapter.py:118-157 | the controller always has room for a lease that the manager has already granted |
| SlotAdapter.ReleaseAttemptSyncs | scripts/unity_slot_adapter.py:160-189 | a completed release brings the tables together, an interrupted one leaves only the released lease showing |
| SlotAdapter.AcquiringKeepsPlace | scripts/unity_slot_manager.py:406-518 | an acquisition asked for at one place never leaves its owner with a slot in use anywhere else, and the slot it reports, new or acquired before, is there |
| Places.ExpectationIsUnique | scripts/train_controller.py:843-888 | no owner is expected at two places: a phase starts at its base or goes on where it reported, a ticket is verified where its latest repair, its integration or its implementation left it, and the run at its final head |
| PhaseHistory.IntendedPhasesAreNew | scripts/train_controller.py:1489-1497 | after any accepted events from bootstrap a phase whose launch is intended has never reported, so the head that the planner asks for is the one the controller expects |
| SlotSteps.StepRecovers | scripts/unity_slot_adapter.py:192-225 | a run of `step` that goes through leaves both tables the same, the controller having compared branch and heads; one that does not leaves the manifest, and so the planner's command, as it was and the tables differing at most in what that command is about, with a slot in use where it is wanted |
| SlotSteps.TablesStayInStep | scripts/unity_slot_adapter.py:192-225 | over any sequence of initializations, acquisitions, releases and other events, with the adapter dying anywhere and being re-run, the tables agree whenever its last run went through; events may also fall between an interrupted run and its re-run as long as the planner still wants the same of the adapter, and wants a slot that is already in use where it is |
| SlotSteps.RecoverableExactly | scripts/unity_slot_adapter.py:192-225 | with the tables apart, the adapter can recover from a changed manifest exactly when the planner wants the same lease acquired or released there and a slot that is already in use stays where it is wanted |
| StrandedLeases.InterruptedStepWaits | scripts/unity_slot_adapter.py:192-225 | whatever else the controller is told after an interrupted run, the tables stay apart, and the adapter can take up its work again exactly when the planner wants the same of it at the same place |
| Aftermath.PhaseAfterIs | scripts/train_controller.py:1265-3864 | every field of every phase after every accepted event |
| Aftermath.StandingAfterIs | scripts/train_controller.py:1265-3864 | the status, the execution pair and the integrated head of every ticket after every accepted event |
| Aftermath.AddsExactly | scripts/train_controller.py:891-919 | an accepted event adds exactly the phases that it dispatches, each with its launch intended |
| StrandedLeases.AcquisitionStrandsExactly | scripts/train_controller.py:4114-4188 | with a phase lease granted by the manager and not told, an accepted event keeps the adapter from telling it, until the planner proposes it again, exactly when it opens a cost anomaly, completes the run, reports the launch as blocked or unknown, or supersedes the final review; the place of a waiting phase never moves |
| VerificationLeases.VerificationStrandsExactly | scripts/train_controller.py:4419-4437 | with a lease for a ticket's verification granted and not told, an accepted event strands it exactly when it opens a cost anomaly, completes the run, moves the ticket on, or leaves no head to verify or, when the slot is in use, another place |
| VerificationLeases.VerifiedPlaceIsKept | scripts/train_controller.py:843-875 | that place stays the same unless the ticket changes status, or a repair of it or its implementation reports, is completed or stops being complete |
| VerificationLeases.CompletedRepairMovesHead | scripts/train_controller.py:858-867 | a repair that completes with a commit and is found last moves the head to verify to that commit |
| VerificationLeases.FinalAcquisitionStrandsExactly | scripts/train_controller.py:4469-4526 | with the lease for the final verification granted and not told, an accepted event strands it exactly when it opens a cost anomaly, completes the run, makes a ticket unfinished, completes a final repair, reports a dry run, restarts finalization without an editor, records a draft, or moves the final head while the slot is in use |
| VerificationLeases.MovedLeaseIsRefused | scripts/train_controller.py:1501-1503 | while a slot is in use at one place and expected at another, every attempt to acquire it changes nothing: the manager returns the old head and the controller refuses it |
| DriftedLeases.StuckStays | scripts/unity_slot_adapter.py:118-157 | however often the adapter is run, for whatever owner, and whatever else the controller is told, such a lease never reaches the controller as long as it is not expected where the slot is |
| DriftedLeases.SomeFinalLeaseIsStranded | scripts/train_controller.py:2730-2795 | from every bootstrapped live manifest with a ticket and editors some accepted run comes to the final verification; an acquisition interrupted there and a drift of the head leave the planner proposing the acquisition and the tables apart until the first head returns |
| StrandedLeases.ReleaseStrandsExactly | scripts/train_controller.py:3930-3962 | an interrupted release is held up in the same way exactly by an event that opens a cost anomaly, completes the run or makes the owner need its slot again: a phase launched, in doubt, answered or newly dispatched, a ticket that awaits its verification again, or a final pull request without its verification |
| SlotSteps.InitializationStepSyncs | scripts/unity_slot_adapter.py:75-115 | an initialization that hands over enough slots is accepted and leaves both tables the same, because slots are named by their position |
| SlotAdapter.Adapter.Acquire | scripts/unity_slot_adapter.py:118-157 | the adapter calls manager and controller in order and tells the controller the head it asked for and the branch and head that the manager returned, with the specified effect |
| SlotAdapter.Adapter.Release | scripts/unity_slot_adapter.py:160-189 | the same for a release |
| ContractCollection.CollectionIsSound | scripts/continuation_adapter.py:66-110 | however often the collector is re-run, the manifest gets at most one collection, with the journalled payload, and an applied journal never changes |
| ContractCollection.DifferentResultIsRefused | scripts/continuation_adapter.py:70-72 | a different result is refused and changes nothing |
| ContractCollection.ReplayConsumesNothing | scripts/continuation_adapter.py:118-139 | a replay of an applied collection is a duplicate and consumes no revision |
| ContractCollection.AttemptCommitsAllOrNothing | scripts/continuation_adapter.py:66-110 | an attempt consumes one revision exactly when it reports the event as applied |
| ContractCollection.RetryCompletesExactly | scripts/continuation_adapter.py:73-80 | after an interruption a fresh snapshot completes the collection exactly when the handler still accepts it |
| ContractCollection.ControllerRetryCompletesExactly | scripts/continuation_adapter.py:66-110 | with the controller as the handler, a retry with a fresh snapshot completes exactly when the phase still runs, its ticket still waits and no cost anomaly is open or found, and completion and verdict are stored as one revision |
| ContractCollection.OtherPhasesAreElsewhere | scripts/continuation_adapter.py:98-99 | the collection of one phase never bears an identifier that the collection of another one could |
| ContractCollection.PhaseAndVerdictCommitTogether | scripts/train_controller.py:2214-2237 | the exact condition under which completion and verdict commit together |
| ContractCollection.Collector.CollectContract | scripts/continuation_adapter.py:66-110 | the collector in place: journal first, then the stored manifest |
| Ownership.OwnersFormAChain | scripts/run_registry.py:370-564 | with normalized thread identifiers the history is a path without self-loops from the first owner to the current one |
| Ownership.ChainIsKeptExactly | scripts/run_registry.py:398-410 | an accepted operation keeps the path exactly when the identifier it makes owner is normalized |
| Ownership.PreparedMeansOnlyAcceptance | scripts/run_registry.py:375-378 | while a hand-off is prepared only its acceptance changes the owner |
| Ownership.TokensAreSingleUse | scripts/run_registry.py:485-535 | a token is accepted at most as often as it was prepared |
| Ownership.RunFile.ClaimRun | scripts/run_registry.py:370-424 | claiming in place: refused, renewed, taken over or adopted |
| Ownership.RunFile.Prepare | scripts/run_registry.py:427-482 | only the current owner prepares, one hand-off at a time |
| Ownership.RunFile.Accept | scripts/run_registry.py:485-535 | the prepared hand-off is accepted with its token before it expires, by another thread |
| Ownership.RunFile.Cancel | scripts/run_registry.py:538-564 | only the preparing owner cancels, with the token |
| Measurements.SumUsage | scripts/token_usage.py:236-241 | the loop adds up every field |
| Measurements.CombineIs | scripts/token_usage.py:434-465 | status, usage and keys of a combination, each from its own condition |
| Measurements.CombineConcat | scripts/token_usage.py:434-465 | combining respects concatenation |
| Measurements.CombinePermuted | scripts/token_usage.py:434-465 | combining does not depend on the order |
| Measurements.CombineParts | scripts/token_usage.py:434-465 | combining combined parts is combining the whole |
| UsageMatrix.RowsAndPhasesAgree | scripts/token_usage.py:559-577 | row totals and phase totals add up to the same usage |
| UsageMatrix.DisplayedColumnsMakeTheTotal | scripts/token_usage.py:826-840 | a row's displayed columns combine to exactly the row's total |
| UsageMatrix.CellIsWellFormed | scripts/token_usage.py:526-557 | every cell is a well-formed measurement |
| SingleCharge.CellHoldsItsPhases | scripts/token_usage.py:468-485 | a cell holds the usage of exactly its own phases |
| SingleCharge.ChargedThreadsAreDistinct | scripts/token_usage.py:482-485 | a session shared by phases is charged to none of them |
| SingleCharge.ReportedIsListed | scripts/token_usage.py:512-646 | the reported total is the usage of the sessions behind it, each as often as cells, run-level rows and orchestrator report it |
| SingleCharge.EachOnceExactly | scripts/token_usage.py:512-646 | no session with usage is reported twice exactly when every phase with usage is reported once and hosted by no orchestrator |
| SingleCharge.NothingIsCountedTwiceExactly | scripts/token_usage.py:512-646 | the matrix reports at most what the distinct sessions behind it used exactly under that condition |
| SingleCharge.ReportedOnceExactly | scripts/token_usage.py:583-592 | the condition fails exactly for a phase with usage that is a categorized phase of a ticket named "run", or reported and hosted by an orchestrator |
| SingleCharge.NothingIsCountedTwice | scripts/token_usage.py:512-646 | under the condition the matrix stays within the usage of every ledger that knows its sessions |
| SingleCharge.TicketNamedRunIsCountedTwice | scripts/token_usage.py:583-592 | every categorized, charged phase of a ticket named "run" is reported twice |
| SingleCharge.HostedPhaseIsCountedTwice | scripts/token_usage.py:512-646 | every reported phase hosted by an orchestrator is counted twice |
| SingleCharge.BuildTicketRows | scripts/token_usage.py:526-566 | the loops over tickets, columns and phases fill exactly the specified rows |
| SessionRecords.RecordsAreExact | scripts/token_usage.py:257-313 | the search finds a record exactly for the objects inside the document that name a thread |
| SessionRecords.Search.Visit | scripts/token_usage.py:263-297 | the recursive visit appends each new record once |
| SessionRecords.CollectRecords | scripts/token_usage.py:257-313 | the collected records are distinct and complete |
| SessionRecords.LedgerKnowsItsPhases | scripts/token_usage.py:335-376 | every session of the ledger names all the phases that ran in its thread |
| ScopeAssessment.ValidateScopeAssessment | scripts/train_controller.py:400-578 | an assessment is accepted exactly when proposals and deviations correspond one to one to their proposed items and the classification lists distinct authorized items |
| ScopeAssessment.ValidateProposedItems | scripts/train_controller.py:514-545 | the loop decides exactly whether proposals and proposed items correspond one to one |
| ScopeAssessment.ValidateDeviationItems | scripts/train_controller.py:460-549 | the same for deviations and the items they name |
| ScopeAssessment.ValidateClassification | scripts/train_controller.py:554-575 | the classification is non-empty, distinct and authorized |
| ScopeAssessment.NothingStaysProposed | scripts/train_controller.py:1783-1805 | an accepted decision leaves no item proposed |
| ScopeAssessment.ClassificationStaysAuthorizedExactly | scripts/train_controller.py:1806-1838 | the classification stays authorized exactly when something was approved or settled or no classified item names a proposal |
| ScopeAssessment.StrayProposalDefersClassifiedItem | scripts/train_controller.py:1784-1792 | a classified item that also names a rejected proposal is deferred while it stays classified |
| ScopeAssessment.CleanAssessmentStaysAuthorized | scripts/train_controller.py:1783-1838 | if only proposed items name proposals the classification stays authorized whatever is decided |
| ScopeAssessment.RecordedScope.RecordDecisions | scripts/train_controller.py:1732-1842 | decisions are checked and the items changed in place as specified |

## Left out

- Controller.LoadedManifest.HandleEvent: events that change nothing modelled (supervision, reasoning and hidden-fallback authorizations, orchestrator confirmation, ticket pull requests and their head drift, runtime observations) are one event without effect.
- Controller.LoadedManifest.RecordVerification: the heads that a verification, a review or a merge reports for a ticket's branch and pull request are part of the evidence boolean; exact are bases, reported commits, integrated heads and the heads of the final pull request.
- Controller.LoadedManifest.RecordFinalVerification: a final requirement missing from a recovered legacy manifest is treated as needing a slot; `StartFinalization` always records one.
- Controller.LoadedManifest.ProvideInput: the inference of a resume mode for gates written before the mode was stored is not modelled.
- Controller.LoadedManifest.ObserveLaunch: a launch event that carries an explicit null identifier is not distinguished from one without it.
- Controller.LoadedManifest.RecordRemediationPr: which completed repair phase is the latest, and its branch and base, belong to the evidence boolean.
- Controller.LoadedManifest.AcquireSlot: an owner is a phase, a ticket verification or the final verification by construction, so a phase key spelled like a verification owner is not modelled.
- Controller.LoadedManifest.OfferPairs: the other actions of the planner and the conditions under which it returns before reaching this one.
- EventStore.EveryWorldIsSound: nothing is claimed about progress when a lock file is left behind, nor about registry commands, which lock another directory and save the same manifest; the check that the caller still owns the run is part of refusal.
- EventStore.ToldMeansLoggedOnce: the log's time stamps and copied fields.
- LaunchProtocol.TaskIsCreatedAtMostOnce: creation through any other path than this phase's directory; what the planner looks at outside the model before it offers a launch is one boolean of the hand-off check.
- SlotRegistry.LeasesSurvive: the git and editor commands behind preparation, readiness and release are inputs; a worktree that could be switched is taken to be on the branch, or detached, at the commit asked for.
- SlotAdapter.Adapter.Acquire: the adapter's events carry their evidence; the path of a slot is the one that the registry gave at initialization.
- SlotSteps.TablesStayInStep: one adapter at a time; which slot action the planner puts first is any choice that depends on the manifest and meets the planner's guards.
- ContractCollection.CollectionIsSound: one collector at a time; the manifest it reads first and the one it applies to are the same within a run.
- Ownership.OwnersFormAChain: white space is space, tab and line ends, and case folding is that of ASCII letters; the packet file, control-plane rotation and time stamps are left out.
- SingleCharge.NothingIsCountedTwice: rows that are zero or included in the orchestrator (final verification, usage reporting, consolidation, feedback) add nothing and are not listed.
- SessionRecords.RecordsAreExact: values other than text under a text field read as one fixed text, and only one of the remaining fields of a record, its title, is kept.
- ScopeAssessment.ValidateScopeAssessment: required descriptive fields, categories and projected classifications of proposals, options and items.
- Routing matrices, context packets, report formats, number formatting and command-line parsing: finite tables and text.
- `control_guard.py`, `train_supervisor.py`, `orchestration_metrics.py`, `verification_runner.py`, `merge_pull_request.py` and legacy migration are not part of this model.
