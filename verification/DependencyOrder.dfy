/** The stable topological order of tickets (`ordered_execution_tickets`).

    `Visit`, `VisitAll` and `Order` say what the depth-first search computes, and the class
    `OrderBuilder` is the search itself, growing `ordered`, `visiting` and `visited` in place. */
module DependencyOrder {
  import opened Prelude

  /** Each selected ticket with its hard dependencies. */
  type Graph = map<TicketId, seq<TicketId>>

  datatype OrderResult =
    | Ordered(tickets: seq<TicketId>)
    | DependencyCycle
    | UnknownTicket
    | PriorityMismatch

  // ----- the search as a function -----

  function Visit(g: Graph, visiting: set<TicketId>, ordered: seq<TicketId>, t: TicketId): OrderResult
    decreases g.Keys - visiting, 0
  {
    if t in visiting then DependencyCycle
    else if t in ordered then Ordered(ordered)
    else if t !in g then UnknownTicket
    else
      assert t in g.Keys - visiting && t !in g.Keys - (visiting + {t});
      var r := VisitAll(g, visiting + {t}, ordered, g[t]);
      if r.Ordered? then Ordered(r.tickets + [t]) else r
  }

  function VisitAll(g: Graph, visiting: set<TicketId>, ordered: seq<TicketId>, ts: seq<TicketId>): OrderResult
    decreases g.Keys - visiting, |ts| + 1
  {
    if ts == [] then Ordered(ordered)
    else
      var r := Visit(g, visiting, ordered, ts[0]);
      if r.Ordered? then VisitAll(g, visiting, r.tickets, ts[1..]) else r
  }

  function Order(g: Graph, priority: seq<TicketId>): OrderResult {
    if Elements(priority) != g.Keys then PriorityMismatch else VisitAll(g, {}, [], priority)
  }

  // ----- what an order should be, said without the search -----

  /** Every ticket of `o` is known, occurs once and follows all its dependencies. */
  ghost predicate Settled(g: Graph, o: seq<TicketId>) {
    && Distinct(o)
    && (forall t :: t in o ==> t in g)
    && forall i, d :: 0 <= i < |o| && d in g[o[i]] ==> d in o[..i]
  }

  /** `o` lists every ticket exactly once, each after its dependencies. */
  ghost predicate TopologicalOrder(g: Graph, o: seq<TicketId>) {
    Settled(g, o) && Elements(o) == g.Keys
  }

  /** Every dependency is itself a selected ticket. */
  ghost predicate Closed(g: Graph) {
    forall t, d :: t in g && d in g[t] ==> d in g
  }

  ghost predicate IsPath(g: Graph, p: seq<TicketId>) {
    forall i :: 0 <= i < |p| - 1 ==> p[i] in g && p[i + 1] in g[p[i]]
  }

  ghost predicate PathBetween(g: Graph, p: seq<TicketId>, a: TicketId, b: TicketId) {
    |p| >= 2 && IsPath(g, p) && p[0] == a && p[|p| - 1] == b
  }

  /** `a` depends on `b`, directly or through other tickets. */
  ghost predicate DependsOn(g: Graph, a: TicketId, b: TicketId) {
    exists p :: PathBetween(g, p, a, b)
  }

  ghost predicate HasCycle(g: Graph) {
    exists t :: DependsOn(g, t, t)
  }

  // ----- paths -----

  lemma StepIsDependency(g: Graph, a: TicketId, b: TicketId)
    requires a in g && b in g[a]
    ensures DependsOn(g, a, b)
  {
    assert PathBetween(g, [a, b], a, b);
  }

  lemma ExtendDependency(g: Graph, a: TicketId, b: TicketId, c: TicketId)
    requires DependsOn(g, a, b) && b in g && c in g[b]
    ensures DependsOn(g, a, c)
  {
    var p :| PathBetween(g, p, a, b);
    var q := p + [c];
    forall i | 0 <= i < |q| - 1 ensures q[i] in g && q[i + 1] in g[q[i]] {
      if i < |p| - 1 { assert q[i] == p[i] && q[i + 1] == p[i + 1]; }
    }
    assert PathBetween(g, q, a, c);
  }

  lemma PrependDependency(g: Graph, a: TicketId, b: TicketId, c: TicketId)
    requires a in g && b in g[a] && DependsOn(g, b, c)
    ensures DependsOn(g, a, c)
  {
    var p :| PathBetween(g, p, b, c);
    var q := [a] + p;
    forall i | 0 <= i < |q| - 1 ensures q[i] in g && q[i + 1] in g[q[i]] {
      if i > 0 { assert q[i] == p[i - 1] && q[i + 1] == p[i]; }
    }
    assert PathBetween(g, q, a, c);
  }

  // ----- a search that succeeds builds a topological order -----

  /** `o` continues `ordered`, and only with tickets outside `visiting` that are wanted. */
  ghost predicate Grows(g: Graph, visiting: set<TicketId>, ordered: seq<TicketId>, o: seq<TicketId>, wanted: set<TicketId>) {
    && Settled(g, o)
    && ordered <= o
    && wanted <= Elements(o)
    && forall x :: x in o && x !in ordered ==> x !in visiting && Wanted(g, wanted, x)
  }

  ghost predicate Wanted(g: Graph, wanted: set<TicketId>, x: TicketId) {
    x in wanted || exists w :: w in wanted && DependsOn(g, w, x)
  }

  lemma {:induction false} VisitGrows(g: Graph, visiting: set<TicketId>, ordered: seq<TicketId>, t: TicketId)
    requires Settled(g, ordered) && visiting !! Elements(ordered)
    requires Visit(g, visiting, ordered, t).Ordered?
    ensures Grows(g, visiting, ordered, Visit(g, visiting, ordered, t).tickets, {t})
    decreases g.Keys - visiting, 0
  {
    if t !in ordered {
      assert t in g.Keys - visiting && t !in g.Keys - (visiting + {t});
      VisitAllGrows(g, visiting + {t}, ordered, g[t]);
      var o := VisitAll(g, visiting + {t}, ordered, g[t]).tickets;
      var r := o + [t];
      assert Visit(g, visiting, ordered, t) == Ordered(r);
      assert t !in o;
      forall x | x in g[t] ensures x in o { assert x in Elements(g[t]); }
      forall i, d | 0 <= i < |r| && d in g[r[i]] ensures d in r[..i] {
        if i < |o| { assert r[i] == o[i] && r[..i] == o[..i]; } else { assert r[..i] == o; }
      }
      forall x | x in r && x !in ordered ensures x !in visiting && Wanted(g, {t}, x) {
        if x in o {
          assert Wanted(g, Elements(g[t]), x);
          if x in Elements(g[t]) {
            StepIsDependency(g, t, x);
          } else {
            var w :| w in Elements(g[t]) && DependsOn(g, w, x);
            PrependDependency(g, t, w, x);
          }
          assert t in {t};
        }
      }
    } else {
      assert Visit(g, visiting, ordered, t) == Ordered(ordered);
    }
  }

  lemma {:induction false} VisitAllGrows(g: Graph, visiting: set<TicketId>, ordered: seq<TicketId>, ts: seq<TicketId>)
    requires Settled(g, ordered) && visiting !! Elements(ordered)
    requires VisitAll(g, visiting, ordered, ts).Ordered?
    ensures Grows(g, visiting, ordered, VisitAll(g, visiting, ordered, ts).tickets, Elements(ts))
    decreases g.Keys - visiting, |ts| + 1
  {
    if ts != [] {
      VisitGrows(g, visiting, ordered, ts[0]);
      var mid := Visit(g, visiting, ordered, ts[0]).tickets;
      VisitAllGrows(g, visiting, mid, ts[1..]);
      var o := VisitAll(g, visiting, mid, ts[1..]).tickets;
      forall x | x in o && x !in ordered ensures x !in visiting && Wanted(g, Elements(ts), x) {
        if x in mid {
          assert Wanted(g, {ts[0]}, x);
        } else {
          assert Wanted(g, Elements(ts[1..]), x);
        }
      }
    }
  }

  // ----- a search that fails has met a cycle or an unknown ticket -----

  lemma {:induction false} VisitFails(g: Graph, visiting: set<TicketId>, ordered: seq<TicketId>, t: TicketId)
    requires forall v :: v in visiting ==> DependsOn(g, v, t)
    ensures Visit(g, visiting, ordered, t).DependencyCycle? ==> HasCycle(g)
    ensures Visit(g, visiting, ordered, t).UnknownTicket? ==> t !in g || !Closed(g)
    ensures !Visit(g, visiting, ordered, t).PriorityMismatch?
    decreases g.Keys - visiting, 0
  {
    if t !in visiting && t !in ordered && t in g {
      assert t in g.Keys - visiting && t !in g.Keys - (visiting + {t});
      forall v, d | v in visiting + {t} && d in g[t] ensures DependsOn(g, v, d) {
        if v == t { StepIsDependency(g, t, d); } else { ExtendDependency(g, v, t, d); }
      }
      VisitAllFails(g, visiting + {t}, ordered, g[t]);
    }
  }

  lemma {:induction false} VisitAllFails(g: Graph, visiting: set<TicketId>, ordered: seq<TicketId>, ts: seq<TicketId>)
    requires forall v, d :: v in visiting && d in ts ==> DependsOn(g, v, d)
    ensures VisitAll(g, visiting, ordered, ts).DependencyCycle? ==> HasCycle(g)
    ensures VisitAll(g, visiting, ordered, ts).UnknownTicket? ==> !Closed(g) || !(Elements(ts) <= g.Keys)
    ensures !VisitAll(g, visiting, ordered, ts).PriorityMismatch?
    decreases g.Keys - visiting, |ts| + 1
  {
    if ts != [] {
      VisitFails(g, visiting, ordered, ts[0]);
      var r := Visit(g, visiting, ordered, ts[0]);
      if r.Ordered? { VisitAllFails(g, visiting, r.tickets, ts[1..]); }
    }
  }

  // ----- a topological order excludes cycles -----

  lemma {:induction false} PathDescends(g: Graph, o: seq<TicketId>, p: seq<TicketId>, i: nat)
    requires Settled(g, o) && IsPath(g, p) && |p| >= 2
    requires i < |o| && o[i] == p[0]
    ensures p[|p| - 1] in o[..i]
    decreases |p|
  {
    assert p[1] in g[o[i]];
    var j :| 0 <= j < i && o[j] == p[1];
    if |p| > 2 {
      assert IsPath(g, p[1..]) by {
        forall k | 0 <= k < |p[1..]| - 1 ensures p[1..][k] in g && p[1..][k + 1] in g[p[1..][k]] {
          assert p[k + 1] in g && p[k + 2] in g[p[k + 1]];
        }
      }
      PathDescends(g, o, p[1..], j);
      assert p[|p| - 1] in o[..j];
    }
  }

  lemma TopologicalMeansAcyclic(g: Graph, o: seq<TicketId>)
    requires TopologicalOrder(g, o)
    ensures Closed(g) && !HasCycle(g)
  {
    forall t, d | t in g && d in g[t] ensures d in g {
      assert t in Elements(o);
      var i :| 0 <= i < |o| && o[i] == t;
      assert d in o[..i];
      assert d in Elements(o);
    }
    if HasCycle(g) {
      var t :| DependsOn(g, t, t);
      var p :| PathBetween(g, p, t, t);
      assert p[0] in g;
      assert t in Elements(o);
      var i :| 0 <= i < |o| && o[i] == t;
      PathDescends(g, o, p, i);
      assert false;
    }
  }

  // ----- main results -----

  /** The search succeeds exactly when the priority covers the tickets, no dependency is
      unknown and there is no cycle; on a closed graph it fails on cycles and nothing else.
      A success lists every ticket once, each after its dependencies. */
  lemma OrderIsExact(g: Graph, priority: seq<TicketId>)
    ensures Order(g, priority).Ordered? <==> Elements(priority) == g.Keys && Closed(g) && !HasCycle(g)
    ensures Elements(priority) == g.Keys && Closed(g) ==> (Order(g, priority).DependencyCycle? <==> HasCycle(g))
    ensures Order(g, priority).Ordered? ==> TopologicalOrder(g, Order(g, priority).tickets)
  {
    if Elements(priority) == g.Keys {
      VisitAllFails(g, {}, [], priority);
      if Order(g, priority).Ordered? {
        VisitAllGrows(g, {}, [], priority);
        var o := Order(g, priority).tickets;
        assert Elements(o) == g.Keys by {
          forall x ensures x in Elements(o) <==> x in g.Keys {
            if x in o {
              assert x in g;
            }
            if x in g.Keys { assert x in Elements(priority); }
          }
        }
        TopologicalMeansAcyclic(g, o);
      }
    }
  }

  /** Dependencies are the only reason for leaving the priority order: if a ticket of lower
      priority comes first, a ticket ranked at least as high as the overtaken one needs it. */
  lemma OvertakingIsNeeded(g: Graph, priority: seq<TicketId>, i: nat, x: TicketId)
    requires Order(g, priority).Ordered? && i < |priority|
    requires x !in priority[..i + 1]
    requires var o := Order(g, priority).tickets;
             exists m, n :: 0 <= m < n < |o| && o[m] == x && o[n] == priority[i]
    ensures exists k :: 0 <= k <= i && DependsOn(g, priority[k], x)
  {
    var top, rest := priority[..i + 1], priority[i + 1..];
    assert priority == top + rest;
    VisitAllSplits(g, {}, [], top, rest);
    VisitAllGrows(g, {}, [], top);
    var mid := VisitAll(g, {}, [], top).tickets;
    VisitAllGrows(g, {}, mid, rest);
    var o := Order(g, priority).tickets;
    var m, n :| 0 <= m < n < |o| && o[m] == x && o[n] == priority[i];
    assert priority[i] == top[i];
    assert priority[i] in Elements(top);
    var j :| 0 <= j < |mid| && mid[j] == priority[i];
    assert o[j] == mid[j];
    assert m < |mid| && mid[m] == x;
    assert Wanted(g, Elements(top), x) && x !in Elements(top);
    var w :| w in Elements(top) && DependsOn(g, w, x);
    var k :| 0 <= k < |top| && top[k] == w;
    assert priority[k] == w;
  }

  lemma {:induction false} VisitAllSplits(g: Graph, visiting: set<TicketId>, ordered: seq<TicketId>, a: seq<TicketId>, b: seq<TicketId>)
    ensures VisitAll(g, visiting, ordered, a + b)
         == var r := VisitAll(g, visiting, ordered, a); if r.Ordered? then VisitAll(g, visiting, r.tickets, b) else r
    decreases a
  {
    if a == [] {
      assert a + b == b;
    } else {
      assert (a + b)[0] == a[0] && (a + b)[1..] == a[1..] + b;
      var r := Visit(g, visiting, ordered, a[0]);
      if r.Ordered? { VisitAllSplits(g, visiting, r.tickets, a[1..], b); }
    }
  }

  lemma {:induction false} AlreadyVisited(g: Graph, visiting: set<TicketId>, ordered: seq<TicketId>, ts: seq<TicketId>)
    requires Elements(ts) <= Elements(ordered) && visiting !! Elements(ts)
    ensures VisitAll(g, visiting, ordered, ts) == Ordered(ordered)
    decreases ts
  {
    if ts != [] {
      assert ts[0] in Elements(ts);
      assert Elements(ts[1..]) <= Elements(ts);
      AlreadyVisited(g, visiting, ordered, ts[1..]);
    }
  }

  lemma {:induction false} SettledPrefixIsKept(g: Graph, o: seq<TicketId>, k: nat)
    requires Settled(g, o) && k <= |o|
    ensures VisitAll(g, {}, [], o[..k]) == Ordered(o[..k])
    decreases k
  {
    if k > 0 {
      var done, t := o[..k - 1], o[k - 1];
      SettledPrefixIsKept(g, o, k - 1);
      assert o[..k] == done + [t];
      VisitAllSplits(g, {}, [], done, [t]);
      assert t !in done && t !in g[t];
      AlreadyVisited(g, {t}, done, g[t]);
      assert {} + {t} == {t};
      assert Visit(g, {}, done, t) == Ordered(done + [t]);
      assert [t][1..] == [];
    }
  }

  /** An order that is already topological is kept as it is, so storing the computed order as
      the next priority changes nothing. */
  lemma TopologicalPriorityIsKept(g: Graph, o: seq<TicketId>)
    requires TopologicalOrder(g, o)
    ensures Order(g, o) == Ordered(o)
  {
    SettledPrefixIsKept(g, o, |o|);
    assert o[..|o|] == o;
  }

  // ----- the search in place -----

  class OrderBuilder {
    const g: Graph
    var ordered: seq<TicketId>
    var visiting: set<TicketId>
    var visited: set<TicketId>

    ghost predicate Valid()
      reads this
    {
      visited == Elements(ordered)
    }

    constructor (g: Graph)
      ensures Valid() && this.g == g && ordered == [] && visiting == {}
    {
      this.g := g;
      ordered, visiting, visited := [], {}, {};
    }

    /** On success the three collections are as the search left them; after a failure they
        keep whatever the interrupted search had put in them. */
    method VisitTicket(t: TicketId) returns (r: OrderResult)
      requires Valid()
      modifies this
      ensures var spec := Visit(g, old(visiting), old(ordered), t);
              if r.Ordered?
              then spec == Ordered(ordered) && r == spec && Valid() && visiting == old(visiting)
              else r == spec
      decreases g.Keys - visiting
    {
      if t in visiting { return DependencyCycle; }
      if t in visited { return Ordered(ordered); }
      visiting := visiting + {t};
      if t !in g { return UnknownTicket; }
      ghost var start, inner := ordered, visiting;
      ghost var before := old(visiting);
      assert t in g.Keys - before && t !in g.Keys - inner;
      assert g[t][0..] == g[t];
      for i := 0 to |g[t]|
        invariant Valid() && visiting == inner
        invariant VisitAll(g, inner, start, g[t]) == VisitAll(g, inner, ordered, g[t][i..])
      {
        assert g[t][i..][0] == g[t][i] && g[t][i..][1..] == g[t][i + 1..];
        assert g.Keys - inner < g.Keys - before;
        var visit := VisitTicket(g[t][i]);
        if !visit.Ordered? { return visit; }
      }
      visiting := visiting - {t};
      visited := visited + {t};
      ordered := ordered + [t];
      assert visiting == old(visiting);
      return Ordered(ordered);
    }
  }

  method OrderedExecutionTickets(g: Graph, priority: seq<TicketId>) returns (r: OrderResult)
    ensures r == Order(g, priority)
  {
    if (set x | x in priority) != g.Keys { return PriorityMismatch; }
    var builder := new OrderBuilder(g);
    assert priority[0..] == priority;
    for i := 0 to |priority|
      invariant builder.Valid() && builder.visiting == {} && builder.g == g
      invariant Order(g, priority) == VisitAll(g, {}, builder.ordered, priority[i..])
    {
      assert priority[i..][0] == priority[i] && priority[i..][1..] == priority[i + 1..];
      var visit := builder.VisitTicket(priority[i]);
      if !visit.Ordered? { return visit; }
    }
    return Ordered(builder.ordered);
  }
}
