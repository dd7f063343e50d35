/** Scope assessments and the user's decisions about them (`validate_scope_assessment` and the
    specification-decision events): nothing proposed is left undecided, and nothing undecided
    counts towards a ticket's classification. */
module ScopeAssessment {
  import opened Prelude

  type Id = string

  datatype Origin =
    | SourceExplicit | ProjectMandated | UserApproved | DerivedNecessary
    | ScopeExpansionProposed | DeviationProposed | OptionalScope | Deferred

  predicate AuthorizedOrigin(o: Origin) {
    o.SourceExplicit? || o.ProjectMandated? || o.UserApproved? || o.DerivedNecessary?
  }

  predicate ProposedOrigin(o: Origin) {
    o.ScopeExpansionProposed? || o.DeviationProposed?
  }

  datatype Item = Item(id: Id, origin: Origin, proposal: Option<Id>, deviation: Option<Id>)

  datatype Deviation = Deviation(id: Id, item: Id, options: seq<Id>, recommended: Id)

  datatype Assessment = Assessment(
    items: seq<Item>, proposals: seq<Id>, deviations: seq<Deviation>, classification: seq<Id>, decisionRequired: bool)

  // ----- what a valid assessment is -----

  function DeviationIds(ds: seq<Deviation>): seq<Id> {
    seq(|ds|, k requires 0 <= k < |ds| => ds[k].id)
  }

  function ItemIds(items: seq<Item>): seq<Id> {
    seq(|items|, k requires 0 <= k < |items| => items[k].id)
  }

  predicate DeviationFits(d: Deviation) {
    |d.options| >= 2 && (forall i, j :: 0 <= i < j < |d.options| ==> d.options[i] != d.options[j]) && d.recommended in d.options
  }

  /** `k` is the item proposed for the scope expansion `p`. */
  predicate ProposedFor(items: seq<Item>, k: nat, p: Id) {
    k < |items| && items[k].origin.ScopeExpansionProposed? && items[k].proposal == Some(p)
  }

  /** `k` is the item in which the deviation `d` would be settled. */
  predicate SettledIn(items: seq<Item>, k: nat, d: Id) {
    k < |items| && items[k].origin.DeviationProposed? && items[k].deviation == Some(d)
  }

  /** Each proposal has exactly one proposed item, and each proposed item exactly one proposal. */
  ghost predicate ProposalsMatch(a: Assessment) {
    && (forall k :: 0 <= k < |a.items| && a.items[k].origin.ScopeExpansionProposed? ==>
          a.items[k].proposal.Some? && a.items[k].proposal.value in a.proposals)
    && (forall i: nat, j: nat, p :: i < j && ProposedFor(a.items, i, p) ==> !ProposedFor(a.items, j, p))
    && (forall p :: p in a.proposals ==> exists k :: ProposedFor(a.items, k, p))
  }

  /** The deviation `d` is about this item. */
  predicate NamesItem(ds: seq<Deviation>, d: Id, item: Id) {
    exists j :: 0 <= j < |ds| && ds[j].id == d && ds[j].item == item
  }

  /** The same for deviations, whose items are the ones they name. */
  ghost predicate DeviationsMatch(a: Assessment) {
    && (forall k :: 0 <= k < |a.items| && a.items[k].origin.DeviationProposed? ==>
          a.items[k].deviation.Some? && NamesItem(a.deviations, a.items[k].deviation.value, a.items[k].id))
    && (forall i: nat, j: nat, d :: i < j && SettledIn(a.items, i, d) ==> !SettledIn(a.items, j, d))
    && (forall d :: d in DeviationIds(a.deviations) ==> exists k :: SettledIn(a.items, k, d))
  }

  ghost predicate ItemAuthorized(items: seq<Item>, id: Id) {
    exists k :: 0 <= k < |items| && items[k].id == id && AuthorizedOrigin(items[k].origin)
  }

  ghost predicate Valid(a: Assessment) {
    && Distinct(a.proposals) && Distinct(DeviationIds(a.deviations)) && Distinct(ItemIds(a.items))
    && (forall k :: 0 <= k < |a.deviations| ==> DeviationFits(a.deviations[k]))
    && ProposalsMatch(a) && DeviationsMatch(a)
    && a.decisionRequired == (a.deviations != [])
    && a.classification != [] && Distinct(a.classification)
    && forall id :: id in a.classification ==> ItemAuthorized(a.items, id)
  }

  // ----- the validator, loop by loop -----

  method DistinctIds(ids: seq<Id>) returns (ok: bool, known: set<Id>)
    ensures ok == Distinct(ids)
    ensures ok ==> known == Elements(ids)
  {
    known := {};
    for k := 0 to |ids|
      invariant Distinct(ids[..k]) && known == Elements(ids[..k])
    {
      if ids[k] in known {
        var i :| 0 <= i < k && ids[i] == ids[k];
        return false, known;
      }
      known := known + {ids[k]};
      assert ids[..k + 1] == ids[..k] + [ids[k]];
    }
    assert ids[..|ids|] == ids;
    return true, known;
  }

  method ValidateProposedItems(a: Assessment) returns (ok: bool)
    ensures ok == ProposalsMatch(a)
  {
    var referenced: set<Id> := {};
    for k := 0 to |a.items|
      invariant forall i :: 0 <= i < k && a.items[i].origin.ScopeExpansionProposed? ==> a.items[i].proposal.Some? && a.items[i].proposal.value in referenced
      invariant forall p :: p in referenced ==> exists i: nat :: i < k && ProposedFor(a.items, i, p)
      invariant forall i: nat, j: nat, p :: i < j < k && ProposedFor(a.items, i, p) ==> !ProposedFor(a.items, j, p)
    {
      if a.items[k].origin.ScopeExpansionProposed? {
        if a.items[k].proposal.None? { return false; }
        var p := a.items[k].proposal.value;
        if p in referenced {
          ghost var i: nat :| i < k && ProposedFor(a.items, i, p);
          assert ProposedFor(a.items, k, p);
          return false;
        }
        assert ProposedFor(a.items, k, p);
        referenced := referenced + {p};
      }
    }
    ok := referenced == Elements(a.proposals);
    if !ok {
      if p :| p in referenced && p !in a.proposals {
        ghost var i: nat :| i < |a.items| && ProposedFor(a.items, i, p);
      } else {
        ghost var p :| p in a.proposals && p !in referenced;
        assert forall k :: !ProposedFor(a.items, k, p);
      }
    } else {
      forall p | p in a.proposals ensures exists k :: ProposedFor(a.items, k, p) { assert p in referenced; }
      forall k | 0 <= k < |a.items| && a.items[k].origin.ScopeExpansionProposed? ensures a.items[k].proposal.value in a.proposals {
        assert a.items[k].proposal.value in Elements(a.proposals);
      }
    }
  }

  method ValidateDeviationItems(a: Assessment) returns (ok: bool)
    requires Distinct(DeviationIds(a.deviations))
    ensures ok == DeviationsMatch(a)
  {
    var items: map<Id, Id> := map[];
    for k := 0 to |a.deviations|
      invariant forall d :: d in items <==> d in DeviationIds(a.deviations)[..k]
      invariant forall d :: d in items ==> NamesItem(a.deviations, d, items[d])
    {
      assert DeviationIds(a.deviations)[..k + 1] == DeviationIds(a.deviations)[..k] + [a.deviations[k].id];
      items := items[a.deviations[k].id := a.deviations[k].item];
    }
    assert DeviationIds(a.deviations)[..|a.deviations|] == DeviationIds(a.deviations);
    var referenced: set<Id> := {};
    for k := 0 to |a.items|
      invariant forall i :: 0 <= i < k && a.items[i].origin.DeviationProposed? ==>
        a.items[i].deviation.Some? && a.items[i].deviation.value in referenced && NamesItem(a.deviations, a.items[i].deviation.value, a.items[i].id)
      invariant forall d :: d in referenced ==> exists i: nat :: i < k && SettledIn(a.items, i, d)
      invariant forall i: nat, j: nat, d :: i < j < k && SettledIn(a.items, i, d) ==> !SettledIn(a.items, j, d)
    {
      if a.items[k].origin.DeviationProposed? {
        if a.items[k].deviation.None? { return false; }
        var d := a.items[k].deviation.value;
        if d in referenced {
          ghost var i: nat :| i < k && SettledIn(a.items, i, d);
          assert SettledIn(a.items, k, d);
          return false;
        }
        if d !in items || items[d] != a.items[k].id {
          NamesOneItem(a.deviations, d, a.items[k].id);
          return false;
        }
        assert SettledIn(a.items, k, d);
        referenced := referenced + {d};
      }
    }
    ok := referenced == Elements(DeviationIds(a.deviations));
    forall d | d in DeviationIds(a.deviations) ensures d in referenced <==> exists k :: SettledIn(a.items, k, d) {
    }
    if !ok {
      forall d | d in referenced ensures d in DeviationIds(a.deviations) {
        var i: nat :| i < |a.items| && SettledIn(a.items, i, d);
        NamesOneItem(a.deviations, d, a.items[i].id);
      }
      ghost var d :| d in DeviationIds(a.deviations) && d !in referenced;
      assert forall k :: !SettledIn(a.items, k, d);
    }
  }

  /** With distinct identifiers a deviation names one item only. */
  lemma NamesOneItem(ds: seq<Deviation>, d: Id, item: Id)
    requires Distinct(DeviationIds(ds))
    ensures forall other :: NamesItem(ds, d, other) && NamesItem(ds, d, item) ==> other == item
    ensures NamesItem(ds, d, item) ==> d in DeviationIds(ds)
  {
    if NamesItem(ds, d, item) {
      var j :| 0 <= j < |ds| && ds[j].id == d && ds[j].item == item;
      assert DeviationIds(ds)[j] == d;
      forall other | NamesItem(ds, d, other) ensures other == item {
        var k :| 0 <= k < |ds| && ds[k].id == d && ds[k].item == other;
        assert DeviationIds(ds)[k] == d;
      }
    }
  }

  method ValidateClassification(items: seq<Item>, classification: seq<Id>) returns (ok: bool)
    requires Distinct(ItemIds(items))
    ensures ok == (classification != [] && Distinct(classification) && forall id :: id in classification ==> ItemAuthorized(items, id))
  {
    if classification == [] { return false; }
    var distinct, _ := DistinctIds(classification);
    if !distinct { return false; }
    var origins: map<Id, Origin> := map[];
    for k := 0 to |items|
      invariant forall id :: id in origins <==> id in ItemIds(items)[..k]
      invariant forall i :: 0 <= i < k ==> items[i].id in origins && origins[items[i].id] == items[i].origin
    {
      assert ItemIds(items)[..k + 1] == ItemIds(items)[..k] + [items[k].id];
      assert forall i :: 0 <= i < k ==> ItemIds(items)[i] != ItemIds(items)[k];
      origins := origins[items[k].id := items[k].origin];
    }
    assert ItemIds(items)[..|items|] == ItemIds(items);
    ok := forall id :: id in classification ==> id in origins && AuthorizedOrigin(origins[id]);
    forall id | id in classification ensures ItemAuthorized(items, id) <==> id in origins && AuthorizedOrigin(origins[id]) {
      if id in origins {
        var k :| 0 <= k < |items| && ItemIds(items)[k] == id;
        assert items[k].id == id;
        if ItemAuthorized(items, id) {
          var j :| 0 <= j < |items| && items[j].id == id && AuthorizedOrigin(items[j].origin);
          assert ItemIds(items)[j] == id;
        }
      }
    }
  }

  /** Accepts an assessment exactly when it is valid. */
  method ValidateScopeAssessment(a: Assessment) returns (ok: bool)
    ensures ok == Valid(a)
  {
    hide ItemAuthorized, ProposalsMatch, DeviationsMatch;
    var known;
    ok, known := DistinctIds(a.proposals);
    if !ok { return false; }
    ok, known := DistinctIds(DeviationIds(a.deviations));
    if !ok { return false; }
    if !(forall k :: 0 <= k < |a.deviations| ==> DeviationFits(a.deviations[k])) { return false; }
    ok, known := DistinctIds(ItemIds(a.items));
    if !ok { return false; }
    ok := ValidateProposedItems(a);
    if !ok { return false; }
    ok := ValidateDeviationItems(a);
    if !ok || a.decisionRequired != (a.deviations != []) { return false; }
    ok := ValidateClassification(a.items, a.classification);
  }

  // ----- the user's decisions -----

  datatype Verdict = ScopeApproved | ScopeRejected | ScopeDeferred

  datatype Decision = Decision(proposal: Id, verdict: Verdict, expanded: bool)

  datatype Choice = Choice(deviation: Id, option: Id)

  /** `ids` and `lowers` are the new classification, read only when something was approved. */
  datatype DecisionEvent = DecisionEvent(decisions: seq<Decision>, choices: seq<Choice>, scopeOnly: bool, ids: seq<Id>, lowers: bool)

  function DecidedIds(ds: seq<Decision>): seq<Id> {
    seq(|ds|, k requires 0 <= k < |ds| => ds[k].proposal)
  }

  function ChosenIds(cs: seq<Choice>): seq<Id> {
    seq(|cs|, k requires 0 <= k < |cs| => cs[k].deviation)
  }

  /** One well-formed decision for every proposal. */
  ghost predicate DecisionsComplete(a: Assessment, ds: seq<Decision>) {
    && Distinct(DecidedIds(ds)) && Elements(DecidedIds(ds)) == Elements(a.proposals)
    && forall k :: 0 <= k < |ds| ==> (ds[k].verdict.ScopeApproved? <==> ds[k].expanded)
  }

  predicate OffersOption(ds: seq<Deviation>, c: Choice) {
    exists j :: 0 <= j < |ds| && ds[j].id == c.deviation && c.option in ds[j].options
  }

  /** One of the offered options for every deviation. */
  ghost predicate ChoicesComplete(a: Assessment, cs: seq<Choice>) {
    && Distinct(ChosenIds(cs)) && Elements(ChosenIds(cs)) == Elements(DeviationIds(a.deviations))
    && forall k :: 0 <= k < |cs| ==> OffersOption(a.deviations, cs[k])
  }

  predicate Approves(ds: seq<Decision>) {
    exists k :: 0 <= k < |ds| && ds[k].verdict.ScopeApproved?
  }

  predicate ApprovesProposal(ds: seq<Decision>, p: Id) {
    exists k :: 0 <= k < |ds| && ds[k].proposal == p && ds[k].verdict.ScopeApproved?
  }

  /** An item after the decisions: whatever names a decided proposal becomes approved or deferred, and
      whatever names a settled deviation becomes approved. */
  function DecidedItem(i: Item, e: DecisionEvent): Item {
    var byProposal :=
      if i.proposal.Some? && i.proposal.value in DecidedIds(e.decisions) then
        i.(origin := if ApprovesProposal(e.decisions, i.proposal.value) then UserApproved else Deferred)
      else i;
    if i.deviation.Some? && i.deviation.value in ChosenIds(e.choices) then byProposal.(origin := UserApproved) else byProposal
  }

  function DecidedItems(items: seq<Item>, e: DecisionEvent): seq<Item> {
    seq(|items|, k requires 0 <= k < |items| => DecidedItem(items[k], e))
  }

  predicate Reclassifies(e: DecisionEvent) {
    Approves(e.decisions) || e.choices != []
  }

  ghost predicate DecisionAccepted(a: Assessment, e: DecisionEvent) {
    && DecisionsComplete(a, e.decisions) && ChoicesComplete(a, e.choices) && (e.scopeOnly ==> a.deviations == [])
    && (Reclassifies(e) ==> !e.lowers && e.ids != [] && forall id :: id in e.ids ==> ItemAuthorized(DecidedItems(a.items, e), id))
  }

  function Decided(a: Assessment, e: DecisionEvent): Assessment {
    a.(items := DecidedItems(a.items, e), classification := if Reclassifies(e) then e.ids else a.classification)
  }

  // ----- what an accepted decision leaves -----

  /** No item is left proposed. */
  lemma NothingStaysProposed(a: Assessment, e: DecisionEvent)
    requires Valid(a) && DecisionAccepted(a, e)
    ensures forall k :: 0 <= k < |a.items| ==> !ProposedOrigin(Decided(a, e).items[k].origin)
  {
    forall k | 0 <= k < |a.items| ensures !ProposedOrigin(DecidedItem(a.items[k], e).origin) {
      var i := a.items[k];
      if i.origin.ScopeExpansionProposed? {
        assert i.proposal.value in Elements(a.proposals);
      }
      if i.origin.DeviationProposed? {
        NamesOneItem(a.deviations, i.deviation.value, i.id);
        assert i.deviation.value in Elements(DeviationIds(a.deviations));
      }
    }
  }

  /** The item of a classification identifier, and whether it names a proposal. */
  predicate NamesProposal(a: Assessment, id: Id) {
    exists k :: 0 <= k < |a.items| && a.items[k].id == id && a.items[k].proposal.Some? && a.items[k].proposal.value in a.proposals
  }

  lemma ItemOf(items: seq<Item>, id: Id, k: nat)
    requires Distinct(ItemIds(items)) && k < |items| && items[k].id == id
    ensures ItemAuthorized(items, id) <==> AuthorizedOrigin(items[k].origin)
  {
    if ItemAuthorized(items, id) {
      var j :| 0 <= j < |items| && items[j].id == id && AuthorizedOrigin(items[j].origin);
      assert ItemIds(items)[j] == id && ItemIds(items)[k] == id;
    }
  }

  /** Every classification item keeps an authorized origin exactly when something was approved or
      settled, or no classification item names a proposal: one that does is deferred with it. */
  lemma ClassificationStaysAuthorizedExactly(a: Assessment, e: DecisionEvent)
    requires Valid(a) && DecisionAccepted(a, e)
    ensures (forall id :: id in Decided(a, e).classification ==> ItemAuthorized(Decided(a, e).items, id))
       <==> (Reclassifies(e) || forall id :: id in a.classification ==> !NamesProposal(a, id))
  {
    if !Reclassifies(e) {
      forall id | id in a.classification ensures ItemAuthorized(Decided(a, e).items, id) <==> !NamesProposal(a, id) {
        UnapprovedItem(a, e, id);
      }
    }
  }

  lemma UnapprovedItem(a: Assessment, e: DecisionEvent, id: Id)
    requires Valid(a) && DecisionAccepted(a, e) && !Reclassifies(e) && id in a.classification
    ensures ItemAuthorized(Decided(a, e).items, id) <==> !NamesProposal(a, id)
  {
    hide ProposalsMatch, DeviationsMatch;
    assert ItemAuthorized(a.items, id);
    var k :| 0 <= k < |a.items| && a.items[k].id == id && AuthorizedOrigin(a.items[k].origin);
    var n := Decided(a, e).items;
    assert ItemIds(n) == ItemIds(a.items);
    ItemOf(n, id, k);
    assert e.choices == [] && ChosenIds(e.choices) == [];
    if a.items[k].proposal.Some? {
      var p := a.items[k].proposal.value;
      assert p in DecidedIds(e.decisions) <==> p in Elements(DecidedIds(e.decisions));
      assert p in a.proposals <==> p in Elements(a.proposals);
    }
    if NamesProposal(a, id) {
      var j :| 0 <= j < |a.items| && a.items[j].id == id && a.items[j].proposal.Some? && a.items[j].proposal.value in a.proposals;
      assert ItemIds(a.items)[j] == ItemIds(a.items)[k];
    }
  }

  /** A valid assessment whose classified item also names a proposal: rejecting the proposal takes
      the item out of the authorized scope, and the classification still lists it. */
  lemma StrayProposalDefersClassifiedItem()
    ensures var a := Assessment([Item("a", SourceExplicit, Some("p"), None), Item("b", ScopeExpansionProposed, Some("p"), None)], ["p"], [], ["a"], false);
            var e := DecisionEvent([Decision("p", ScopeRejected, false)], [], true, [], false);
            Valid(a) && DecisionAccepted(a, e) && "a" in Decided(a, e).classification && !ItemAuthorized(Decided(a, e).items, "a")
  {
    var a := Assessment([Item("a", SourceExplicit, Some("p"), None), Item("b", ScopeExpansionProposed, Some("p"), None)], ["p"], [], ["a"], false);
    var e := DecisionEvent([Decision("p", ScopeRejected, false)], [], true, [], false);
    assert DeviationIds(a.deviations) == [] && ChosenIds(e.choices) == [] && DecidedIds(e.decisions) == ["p"];
    assert ProposedFor(a.items, 1, "p");
    assert a.items[0].id == "a" && AuthorizedOrigin(a.items[0].origin);
    assert ItemAuthorized(a.items, "a");
    assert Valid(a) && DecisionAccepted(a, e);
    assert NamesProposal(a, "a");
    UnapprovedItem(a, e, "a");
  }

  /** When only proposed items carry proposal identifiers, the classification stays authorized
      whatever is decided. */
  lemma CleanAssessmentStaysAuthorized(a: Assessment, e: DecisionEvent)
    requires Valid(a) && DecisionAccepted(a, e)
    requires forall k :: 0 <= k < |a.items| && a.items[k].proposal.Some? ==> a.items[k].origin.ScopeExpansionProposed?
    ensures forall id :: id in Decided(a, e).classification ==> ItemAuthorized(Decided(a, e).items, id)
  {
    forall id | id in a.classification ensures !NamesProposal(a, id) {
      if NamesProposal(a, id) {
        var k :| 0 <= k < |a.items| && a.items[k].id == id && a.items[k].proposal.Some?;
        ItemOf(a.items, id, k);
        assert false;
      }
    }
    ClassificationStaysAuthorizedExactly(a, e);
  }

  // ----- recording the decisions in place -----

  class RecordedScope {
    var items: seq<Item>
    var classification: seq<Id>
    const proposals: seq<Id>
    const deviations: seq<Deviation>
    const decisionRequired: bool

    constructor (a: Assessment)
      ensures View() == a
    {
      items, classification, proposals, deviations, decisionRequired := a.items, a.classification, a.proposals, a.deviations, a.decisionRequired;
    }

    function View(): Assessment
      reads this
    {
      Assessment(items, proposals, deviations, classification, decisionRequired)
    }

    method CheckDecisions(ds: seq<Decision>) returns (ok: bool)
      ensures ok == DecisionsComplete(View(), ds)
    {
      var known;
      ok, known := DistinctIds(DecidedIds(ds));
      if !ok || known != (set p | p in proposals) { return false; }
      return forall k :: 0 <= k < |ds| ==> (ds[k].verdict.ScopeApproved? <==> ds[k].expanded);
    }

    method CheckChoices(cs: seq<Choice>) returns (ok: bool)
      ensures ok == ChoicesComplete(View(), cs)
    {
      var known;
      ok, known := DistinctIds(ChosenIds(cs));
      if !ok || known != (set d | d in DeviationIds(deviations)) { return false; }
      return forall k :: 0 <= k < |cs| ==> OffersOption(deviations, cs[k]);
    }

    /** The items are changed before the new classification is checked against them. */
    method RecordDecisions(e: DecisionEvent) returns (ok: bool)
      modifies this
      ensures ok == DecisionAccepted(old(View()), e)
      ensures ok ==> View() == Decided(old(View()), e)
    {
      hide DecidedItem, OffersOption, ItemAuthorized;
      ok := CheckDecisions(e.decisions);
      if !ok { return false; }
      ok := CheckChoices(e.choices);
      if !ok || (e.scopeOnly && deviations != []) { return false; }
      for k := 0 to |items|
        invariant |items| == |old(items)| && classification == old(classification)
        invariant forall i :: 0 <= i < |items| ==> items[i] == if i < k then DecidedItem(old(items)[i], e) else old(items)[i]
      {
        items := items[k := DecidedItem(items[k], e)];
      }
      assert items == DecidedItems(old(items), e);
      if Approves(e.decisions) || e.choices != [] {
        if e.lowers || e.ids == [] { return false; }
        var authorized := AuthorizedIds(items);
        if !(forall id :: id in e.ids ==> id in authorized) { return false; }
        classification := e.ids;
      }
      return true;
    }
  }

  function AuthorizedIds(items: seq<Item>): (r: set<Id>)
    ensures forall id :: id in r <==> ItemAuthorized(items, id)
  {
    set k | 0 <= k < |items| && AuthorizedOrigin(items[k].origin) :: items[k].id
  }
}
