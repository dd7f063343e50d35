/** Where an owner's editor is expected is one place. */
module Places {
  import opened Prelude
  import opened Manifest

  // ----- the order of keys -----

  lemma {:induction false} OneComesBefore(a: string, b: string)
    ensures a == b || Before(a, b) || Before(b, a)
    decreases a
  {
    if a != [] && b != [] && a[0] == b[0] {
      OneComesBefore(a[1..], b[1..]);
      assert a == [a[0]] + a[1..] && b == [b[0]] + b[1..];
    }
  }

  lemma {:induction false} NeverBeforeItself(a: string)
    ensures !Before(a, a)
    decreases a
  {
    if a != [] { NeverBeforeItself(a[1..]); }
  }

  lemma {:induction false} BeforeInTurn(a: string, b: string, c: string)
    requires Before(a, b) && Before(b, c)
    ensures Before(a, c)
    decreases a
  {
    if a != [] && b != [] && c != [] && a[0] == b[0] && b[0] == c[0] { BeforeInTurn(a[1..], b[1..], c[1..]); }
  }

  lemma {:induction false} SomeKeyIsLast(keys: set<string>) returns (last: string)
    requires keys != {}
    ensures last in keys && forall k :: k in keys ==> !Before(last, k)
    decreases keys
  {
    var k :| k in keys;
    if keys == {k} {
      last := k;
      NeverBeforeItself(k);
    } else {
      var other := SomeKeyIsLast(keys - {k});
      NeverBeforeItself(k);
      if Before(other, k) {
        last := k;
        forall x | x in keys ensures !Before(k, x) {
          if Before(k, x) { BeforeInTurn(other, k, x); }
        }
      } else {
        last := other;
      }
    }
  }

  // ----- the latest repair -----

  lemma LatestRepairExists(m: Manifest, t: TicketId) returns (p: PhaseKey)
    requires HasRepair(m, t)
    ensures p in m.phases && LatestRepair(m, p, t)
  {
    var repairs := set q | q in m.phases && CompletedRepair(m, q, t);
    var q :| q in m.phases && CompletedRepair(m, q, t);
    assert q in repairs;
    p := SomeKeyIsLast(repairs);
  }

  lemma LatestRepairIsUnique(m: Manifest, t: TicketId, p: PhaseKey, q: PhaseKey)
    requires LatestRepair(m, p, t) && LatestRepair(m, q, t)
    ensures p == q
  {
    OneComesBefore(p, q);
  }

  /** A head at which a ticket can be verified is known exactly when some place for it is. */
  lemma KnownHeadHasAPlace(m: Manifest, t: TicketId)
    requires t in m.tickets && m.tickets[t].records.execution.Some?
    ensures HeadKnown(m, t) <==> exists place :: VerifiedAt(m, t, place)
  {
    hide UnrepairedHead;
    if HasRepair(m, t) {
      if HeadKnown(m, t) {
        var p :| p in m.phases && LatestRepair(m, p, t) && RepairedHead(m, t, p).Some?;
        assert VerifiedAt(m, t, Place(m.phases[p].base.branch, RepairedHead(m, t, p).value));
      }
    } else if HeadKnown(m, t) {
      assert VerifiedAt(m, t, Place(Some(m.tickets[t].records.execution.value.branch), UnrepairedHead(m, t).value));
    }
  }

  /** No owner is expected at two places. */
  lemma ExpectationIsUnique(m: Manifest, owner: Owner, a: Place, b: Place)
    requires Expects(m, owner, a) && Expects(m, owner, b)
    ensures a == b
  {
    if owner.OfVerification? && HasRepair(m, owner.ticket) {
      var p :| p in m.phases && LatestRepair(m, p, owner.ticket) && a.branch == m.phases[p].base.branch && RepairedHead(m, owner.ticket, p) == Some(a.head);
      var q :| q in m.phases && LatestRepair(m, q, owner.ticket) && b.branch == m.phases[q].base.branch && RepairedHead(m, owner.ticket, q) == Some(b.head);
      LatestRepairIsUnique(m, owner.ticket, p, q);
    }
  }

  /** With a head known that no repair names, every ticket has a head to verify. */
  lemma UnrepairedHeadIsKnown(m: Manifest, t: TicketId)
    requires t in m.tickets && m.tickets[t].records.execution.Some? && UnrepairedHead(m, t).Some?
    ensures HeadKnown(m, t)
  {
    hide UnrepairedHead;
    if HasRepair(m, t) {
      var p := LatestRepairExists(m, t);
      assert RepairedHead(m, t, p).Some?;
    }
  }

  /** An integrated ticket that awaits its verification has a head to verify. */
  lemma IntegratedHeadIsKnown(m: Manifest, t: TicketId)
    requires t in m.tickets && m.tickets[t].records.execution.Some? && m.tickets[t].status.AwaitingVerification? && m.tickets[t].facts.integrated.Some?
    ensures HeadKnown(m, t)
  {
    UnrepairedHeadIsKnown(m, t);
  }
}
