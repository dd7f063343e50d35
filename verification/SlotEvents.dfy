/** The controller's table of editor-slot leases. */
module SlotEvents {
  import opened Prelude
  import opened Manifest

  datatype SlotsAction =
    | EnvironmentConfigured(slotIds: set<SlotId>)
    | SlotAcquired(owner: Owner, slot: SlotId, lease: Reference, requirement: Requirement, expected: Commit, observed: Place)
    | SlotReleased(owner: Owner, slot: SlotId, lease: Reference)

  function ConfigureEnvironment(m: Manifest, slotIds: set<SlotId>): (o: Outcome)
    ensures o.Accepted? ==> o.m == m.(slots := o.m.slots, editorsReady := o.m.editorsReady)
  {
    if !m.run.editors || m.editorsReady || |slotIds| < m.run.maxEditors then Refused
    else Accepted(m.(editorsReady := true, slots := map s | s in slotIds :: None))
  }

  predicate MayAcquire(m: Manifest, owner: Owner, requirement: Requirement) {
    match owner
    case OfPhase(p) =>
      p in m.phases && (m.phases[p].launch.IntentRecorded? || m.phases[p].launch.InputReady?) && m.phases[p].requirement == requirement
    case OfVerification(t) =>
      t in m.tickets && (m.tickets[t].status.AwaitingVerification? || m.tickets[t].status.AwaitingRemediationVerification?)
      && m.tickets[t].records.execution.Some? && m.tickets[t].records.execution.value.verification == requirement
    case OfFinalVerification => m.final.pr.Some? && (m.final.requirement.Some? ==> m.final.requirement == Some(requirement))
  }

  /** `expected` is the head that was asked for and `observed` where the slot's worktree is. */
  function AcquireSlot(m: Manifest, owner: Owner, slot: SlotId, lease: Reference, requirement: Requirement, expected: Commit, observed: Place): (o: Outcome)
    ensures o.Accepted? ==> o.m == m.(phases := o.m.phases, slots := o.m.slots)
    ensures o.Accepted? && owner.OfPhase? ==> OnePhase(m.phases, o.m.phases, owner.key)
    ensures o.Accepted? && !owner.OfPhase? ==> o.m.phases == m.phases
  {
    if !m.run.editors || !m.editorsReady || requirement.NoEditor? || !MayAcquire(m, owner, requirement) then Refused
    else if !Expects(m, owner, observed) || expected != observed.head then Refused
    else if |LeasedSlots(m)| >= m.run.maxEditors || slot !in m.slots || m.slots[slot].Some? then Refused
    else
      var m1 := m.(slots := m.slots[slot := Some(Lease(lease, owner))]);
      if owner.OfPhase? then Accepted(WithPhase(m1, owner.key, m.phases[owner.key].(lease := Some(PhaseLease(slot, lease)))))
      else Accepted(m1)
  }

  function ReleaseSlot(m: Manifest, owner: Owner, slot: SlotId, lease: Reference): (o: Outcome)
    ensures o.Accepted? ==> o.m == m.(slots := o.m.slots)
  {
    if slot !in m.slots || m.slots[slot] != Some(Lease(lease, owner)) then Refused
    else if owner.OfPhase? && owner.key in m.phases && ActivePhase(m.phases[owner.key].launch) then Refused
    else Accepted(m.(slots := m.slots[slot := None]))
  }

  function HandleSlots(m: Manifest, a: SlotsAction): (o: Outcome)
    ensures o.Accepted? ==> o.m == m.(phases := o.m.phases, slots := o.m.slots, editorsReady := o.m.editorsReady)
  {
    match a
    case EnvironmentConfigured(slotIds) => ConfigureEnvironment(m, slotIds)
    case SlotAcquired(owner, slot, lease, requirement, expected, observed) => AcquireSlot(m, owner, slot, lease, requirement, expected, observed)
    case SlotReleased(owner, slot, lease) => ReleaseSlot(m, owner, slot, lease)
  }
}
