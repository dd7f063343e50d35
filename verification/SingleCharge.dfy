/** No session's usage is reported twice: everything in a matrix together stays within what the
    available sessions used. */
module SingleCharge {
  import opened Prelude
  import opened Measurements
  import opened UsageMatrix

  type Sessions = map<ThreadId, Session>

  /** What a phase contributes to the matrix. */
  function PhaseUsage(p: Phase, sessions: Sessions): Usage {
    UsageOf(PhaseMeasurement(p, sessions))
  }

  type Place = (TicketId, Column)

  predicate BelongsTo(p: Phase, places: set<Place>) {
    p.ticket.Some? && Category(p).Some? && (p.ticket.value, Category(p).value) in places
  }

  /** The usage of the phases that belong to these cells. */
  function UsageAt(phases: seq<Phase>, sessions: Sessions, places: set<Place>): Usage {
    if phases == [] then NO_USAGE
    else Add(if BelongsTo(phases[0], places) then PhaseUsage(phases[0], sessions) else NO_USAGE, UsageAt(phases[1..], sessions, places))
  }

  lemma {:induction false} UsageAtDisjoint(phases: seq<Phase>, sessions: Sessions, a: set<Place>, b: set<Place>)
    requires a !! b
    ensures UsageAt(phases, sessions, a + b) == Add(UsageAt(phases, sessions, a), UsageAt(phases, sessions, b))
    decreases |phases|
  {
    hide Add, PhaseUsage, Category;
    AddNothing(NO_USAGE);
    if phases != [] {
      UsageAtDisjoint(phases[1..], sessions, a, b);
      var u := if BelongsTo(phases[0], a) then PhaseUsage(phases[0], sessions) else NO_USAGE;
      var v := if BelongsTo(phases[0], b) then PhaseUsage(phases[0], sessions) else NO_USAGE;
      AddNothing(u);
      AddNothing(v);
      Swap(u, v, UsageAt(phases[1..], sessions, a), UsageAt(phases[1..], sessions, b));
      assert (if BelongsTo(phases[0], a + b) then PhaseUsage(phases[0], sessions) else NO_USAGE) == Add(u, v);
    }
  }

  lemma {:induction false} CellUsage(phases: seq<Phase>, sessions: Sessions, t: TicketId, c: Column)
    ensures Total(MeasuredPhases(phases, sessions, t, c)) == UsageAt(phases, sessions, {(t, c)})
    decreases |phases|
  {
    hide Add, PhaseMeasurement, Category;
    if phases != [] {
      CellUsage(phases[1..], sessions, t, c);
      AddNothing(UsageAt(phases[1..], sessions, {(t, c)}));
      if Matches(phases[0], t, c) {
        assert MeasuredPhases(phases, sessions, t, c)[1..] == MeasuredPhases(phases[1..], sessions, t, c);
      } else {
        assert MeasuredPhases(phases, sessions, t, c) == MeasuredPhases(phases[1..], sessions, t, c);
      }
    }
  }

  lemma {:induction false} NoVerificationPhases(phases: seq<Phase>, sessions: Sessions, t: TicketId)
    ensures UsageAt(phases, sessions, {(t, VerificationColumn)}) == NO_USAGE
    decreases |phases|
  {
    hide Add, PhaseUsage;
    if phases != [] {
      NoVerificationPhases(phases[1..], sessions, t);
      AddNothing(NO_USAGE);
      assert !BelongsTo(phases[0], {(t, VerificationColumn)});
    }
  }

  /** A cell holds the usage of its own phases, no more and no less. */
  lemma CellHoldsItsPhases(phases: seq<Phase>, sessions: Sessions, t: TicketId, state: TicketState, c: Column)
    requires Keyed(phases)
    ensures UsageOf(Cell(phases, sessions, t, state, c)) == UsageAt(phases, sessions, {(t, c)})
  {
    hide Combine, Add, UsageAt, MeasuredPhases;
    CellUsage(phases, sessions, t, c);
    NoVerificationPhases(phases, sessions, t);
    PhasesAreWellFormed(phases, sessions, t, c);
    CombineKeepsUsage(MeasuredPhases(phases, sessions, t, c));
  }

  function Places(t: TicketId, columns: seq<Column>): set<Place> {
    set c | c in columns :: (t, c)
  }

  lemma {:induction false} RowHoldsItsPhases(phases: seq<Phase>, sessions: Sessions, t: TicketId, state: TicketState, n: nat)
    requires Keyed(phases) && n <= |COLUMNS|
    ensures Total(Row(phases, sessions, t, state)[..n]) == UsageAt(phases, sessions, Places(t, COLUMNS[..n]))
    decreases n
  {
    hide Add, Cell, UsageOf, UsageAt;
    if n == 0 {
      assert Row(phases, sessions, t, state)[..0] == [];
      assert Places(t, COLUMNS[..0]) == {};
      NothingAtNoPlace(phases, sessions);
    } else {
      var row, c := Row(phases, sessions, t, state), COLUMNS[n - 1];
      RowHoldsItsPhases(phases, sessions, t, state, n - 1);
      assert row[..n] == row[..n - 1] + [row[n - 1]];
      TotalConcat(row[..n - 1], [row[n - 1]]);
      TotalOfOne(row[n - 1]);
      CellHoldsItsPhases(phases, sessions, t, state, c);
      ColumnsAreDistinct();
      assert COLUMNS[..n] == COLUMNS[..n - 1] + [c];
      assert Places(t, COLUMNS[..n]) == Places(t, COLUMNS[..n - 1]) + {(t, c)};
      assert c !in COLUMNS[..n - 1];
      UsageAtDisjoint(phases, sessions, Places(t, COLUMNS[..n - 1]), {(t, c)});
    }
  }

  lemma ColumnsAreDistinct()
    ensures Distinct(COLUMNS)
  {
  }

  lemma TotalOfOne(m: Measurement)
    ensures Total([m]) == UsageOf(m)
  {
    hide Add, UsageOf;
    assert [m][1..] == [];
    AddNothing(UsageOf(m));
    assert Total([m]) == Add(UsageOf(m), NO_USAGE);
  }

  lemma {:induction false} NothingAtNoPlace(phases: seq<Phase>, sessions: Sessions)
    ensures UsageAt(phases, sessions, {}) == NO_USAGE
    decreases |phases|
  {
    hide Add;
    if phases != [] {
      NothingAtNoPlace(phases[1..], sessions);
      AddNothing(NO_USAGE);
    }
  }

  // ----- all ticket rows -----

  function Rows(phases: seq<Phase>, sessions: Sessions, tickets: seq<TicketId>, states: map<TicketId, TicketState>): seq<seq<Measurement>>
    requires Elements(tickets) <= states.Keys
    decreases |tickets|
  {
    if tickets == [] then []
    else
      assert tickets[0] in Elements(tickets) && Elements(tickets[1..]) <= Elements(tickets);
      [Row(phases, sessions, tickets[0], states[tickets[0]])] + Rows(phases, sessions, tickets[1..], states)
  }

  lemma {:induction false} MeasuredConcat(a: seq<Phase>, p: Phase, sessions: Sessions, t: TicketId, c: Column)
    ensures MeasuredPhases(a + [p], sessions, t, c)
         == MeasuredPhases(a, sessions, t, c) + if Matches(p, t, c) then [PhaseMeasurement(p, sessions)] else []
    decreases |a|
  {
    hide PhaseMeasurement, Matches;
    if a == [] {
      assert a + [p] == [p] && [p][1..] == [];
      assert MeasuredPhases([], sessions, t, c) == [];
    } else {
      assert (a + [p])[1..] == a[1..] + [p];
      MeasuredConcat(a[1..], p, sessions, t, c);
    }
  }

  method BuildCell(phases: seq<Phase>, sessions: Sessions, t: TicketId, state: TicketState, c: Column) returns (cell: Measurement)
    ensures cell == Cell(phases, sessions, t, state, c)
  {
    hide Combine, PhaseMeasurement, Matches, Category;
    if c.VerificationColumn? { return Cell(phases, sessions, t, state, c); }
    var measurements: seq<Measurement> := [];
    for k := 0 to |phases|
      invariant measurements == MeasuredPhases(phases[..k], sessions, t, c)
    {
      if Matches(phases[k], t, c) { measurements := measurements + [PhaseMeasurement(phases[k], sessions)]; }
      MeasuredConcat(phases[..k], phases[k], sessions, t, c);
      assert phases[..k + 1] == phases[..k] + [phases[k]];
    }
    assert phases[..|phases|] == phases;
    if measurements != [] { return Combine(measurements); }
    if Optional(c) { return NotApplicableFor(PhaseNotRequired); }
    if state.merged { return UnavailableFor(PhaseMissing, {}); }
    return NotApplicableFor(StoppedBefore);
  }

  /** The ticket rows, filled cell by cell. */
  method BuildTicketRows(phases: seq<Phase>, sessions: Sessions, tickets: seq<TicketId>, states: map<TicketId, TicketState>)
    returns (rows: seq<seq<Measurement>>)
    requires Elements(tickets) <= states.Keys
    ensures rows == Rows(phases, sessions, tickets, states)
  {
    hide Cell;
    rows := [];
    ghost var left := tickets;
    for k := 0 to |tickets|
      invariant left == tickets[k..] && Elements(left) <= states.Keys
      invariant Rows(phases, sessions, tickets, states) == rows + Rows(phases, sessions, left, states)
    {
      var t := tickets[k];
      assert t in Elements(left) && left[1..] == tickets[k + 1..] && Elements(left[1..]) <= Elements(left);
      var cells: seq<Measurement> := [];
      for i := 0 to |COLUMNS|
        invariant |cells| == i && forall j :: 0 <= j < i ==> cells[j] == Cell(phases, sessions, t, states[t], COLUMNS[j])
      {
        var cell := BuildCell(phases, sessions, t, states[t], COLUMNS[i]);
        cells := cells + [cell];
      }
      assert cells == Row(phases, sessions, t, states[t]);
      rows := rows + [cells];
      left := left[1..];
    }
  }

  function AllPlaces(tickets: seq<TicketId>): set<Place>
    decreases |tickets|
  {
    if tickets == [] then {} else Places(tickets[0], COLUMNS) + AllPlaces(tickets[1..])
  }

  lemma {:induction false} PlacesOf(tickets: seq<TicketId>)
    ensures forall t, c :: (t, c) in AllPlaces(tickets) <==> t in tickets && c in COLUMNS
    decreases |tickets|
  {
    if tickets != [] { PlacesOf(tickets[1..]); }
  }

  lemma {:induction false} RowsHoldTheirPhases(phases: seq<Phase>, sessions: Sessions, tickets: seq<TicketId>, states: map<TicketId, TicketState>)
    requires Keyed(phases) && Elements(tickets) <= states.Keys && Distinct(tickets)
    ensures Total(Flat(Rows(phases, sessions, tickets, states))) == UsageAt(phases, sessions, AllPlaces(tickets))
    decreases |tickets|
  {
    hide Add, Cell, UsageOf, UsageAt;
    if tickets == [] {
      NothingAtNoPlace(phases, sessions);
    } else {
      var t, rest := tickets[0], tickets[1..];
      assert t in Elements(tickets) && Elements(rest) <= Elements(tickets);
      var row := Row(phases, sessions, t, states[t]);
      RowsHoldTheirPhases(phases, sessions, rest, states);
      assert Rows(phases, sessions, tickets, states)[1..] == Rows(phases, sessions, rest, states);
      TotalConcat(row, Flat(Rows(phases, sessions, rest, states)));
      RowHoldsItsPhases(phases, sessions, t, states[t], |COLUMNS|);
      assert row[..|COLUMNS|] == row && COLUMNS[..|COLUMNS|] == COLUMNS;
      PlacesOf(rest);
      assert t !in rest;
      UsageAtDisjoint(phases, sessions, Places(t, COLUMNS), AllPlaces(rest));
    }
  }

  // ----- run-level phases and the orchestrator -----

  predicate RunLevel(p: Phase) {
    p.ticket.None? || p.ticket == Some("run")
  }

  function TransverseRows(phases: seq<Phase>, sessions: Sessions): seq<Measurement> {
    if phases == [] then []
    else (if RunLevel(phases[0]) && phases[0].key != "" then [PhaseMeasurement(phases[0], sessions)] else []) + TransverseRows(phases[1..], sessions)
  }

  predicate Counted(t: ThreadId, sessions: Sessions) {
    t in sessions && sessions[t].available && sessions[t].usage.Some?
  }

  function ThreadUsage(t: ThreadId, sessions: Sessions): Usage {
    if Counted(t, sessions) then sessions[t].usage.value else NO_USAGE
  }

  function ThreadsUsage(threads: seq<ThreadId>, sessions: Sessions): Usage {
    if threads == [] then NO_USAGE else Add(ThreadUsage(threads[0], sessions), ThreadsUsage(threads[1..], sessions))
  }

  function OrchestratorRow(threads: seq<ThreadId>, sessions: Sessions): seq<Measurement> {
    if threads == [] then []
    else [if Counted(threads[0], sessions) then Exact(sessions[threads[0]].usage.value, {}) else UnavailableFor(SegmentUnavailable, {})]
         + OrchestratorRow(threads[1..], sessions)
  }

  lemma {:induction false} OrchestratorUsage(threads: seq<ThreadId>, sessions: Sessions)
    ensures AllWellFormed(OrchestratorRow(threads, sessions)) && Total(OrchestratorRow(threads, sessions)) == ThreadsUsage(threads, sessions)
    decreases |threads|
  {
    hide Add;
    if threads != [] {
      OrchestratorUsage(threads[1..], sessions);
      assert OrchestratorRow(threads, sessions)[1..] == OrchestratorRow(threads[1..], sessions);
    }
  }

  // ----- every charge is another session's -----

  /** The threads whose usage phases are charged with, in the order of the phases. */
  function ChargedThreads(phases: seq<Phase>, sessions: Sessions): seq<ThreadId> {
    if phases == [] then []
    else (if PhaseMeasurement(phases[0], sessions).status.Complete? then [phases[0].thread.value] else []) + ChargedThreads(phases[1..], sessions)
  }

  lemma AtMostAdds(a: Usage, b: Usage, c: Usage, d: Usage)
    requires AtMost(a, b) && AtMost(c, d)
    ensures AtMost(Add(a, c), Add(b, d))
  {
  }

  lemma NothingAtMost(a: Usage)
    ensures AtMost(NO_USAGE, a) && AtMost(a, a)
  {
  }

  /** What the ledger's session records promise: a session names every phase that ran in its thread. */
  ghost predicate SessionsKnowTheirPhases(phases: seq<Phase>, sessions: Sessions) {
    forall k :: 0 <= k < |phases| && phases[k].thread.Some? && phases[k].thread.value in sessions ==>
      phases[k].key in sessions[phases[k].thread.value].keys
  }

  ghost predicate KeysDistinct(phases: seq<Phase>) {
    forall i, j :: 0 <= i < j < |phases| ==> phases[i].key != phases[j].key
  }

  lemma {:induction false} ChargedThreadsComeFromPhases(phases: seq<Phase>, sessions: Sessions)
    ensures forall t :: t in ChargedThreads(phases, sessions) ==>
      Counted(t, sessions) && |sessions[t].keys| <= 1 && exists k :: 0 <= k < |phases| && phases[k].thread == Some(t)
    decreases |phases|
  {
    if phases != [] {
      ChargedThreadsComeFromPhases(phases[1..], sessions);
      forall t | t in ChargedThreads(phases, sessions)
        ensures Counted(t, sessions) && |sessions[t].keys| <= 1 && exists k :: 0 <= k < |phases| && phases[k].thread == Some(t)
      {
        if t in ChargedThreads(phases[1..], sessions) {
          var k :| 0 <= k < |phases[1..]| && phases[1..][k].thread == Some(t);
          assert phases[k + 1].thread == Some(t);
        } else {
          assert phases[0].thread == Some(t);
        }
      }
    }
  }

  lemma TwoKeys<T>(s: set<T>, a: T, b: T)
    requires a in s && b in s && a != b
    ensures |s| >= 2
  {
    Prelude.Within({a, b}, s);
  }

  /** A thread shared by two phases is charged to neither, so no thread is charged twice. */
  lemma {:induction false} ChargedThreadsAreDistinct(phases: seq<Phase>, sessions: Sessions)
    requires KeysDistinct(phases) && SessionsKnowTheirPhases(phases, sessions)
    ensures Distinct(ChargedThreads(phases, sessions))
    decreases |phases|
  {
    if phases != [] {
      var rest := phases[1..];
      assert SessionsKnowTheirPhases(rest, sessions) by {
        forall k | 0 <= k < |rest| && rest[k].thread.Some? && rest[k].thread.value in sessions
          ensures rest[k].key in sessions[rest[k].thread.value].keys
        {
          assert phases[k + 1] == rest[k];
        }
      }
      ChargedThreadsAreDistinct(rest, sessions);
      if PhaseMeasurement(phases[0], sessions).status.Complete? {
        var t := phases[0].thread.value;
        ChargedThreadsComeFromPhases(rest, sessions);
        if t in ChargedThreads(rest, sessions) {
          var k :| 0 <= k < |rest| && rest[k].thread == Some(t);
          assert phases[k + 1] == rest[k];
          TwoKeys(sessions[t].keys, phases[0].key, phases[k + 1].key);
        }
        assert ChargedThreads(phases, sessions) == [t] + ChargedThreads(rest, sessions);
      } else {
        assert ChargedThreads(phases, sessions) == ChargedThreads(rest, sessions);
      }
    }
  }

  lemma {:induction false} ThreadsConcat(a: seq<ThreadId>, b: seq<ThreadId>, sessions: Sessions)
    ensures ThreadsUsage(a + b, sessions) == Add(ThreadsUsage(a, sessions), ThreadsUsage(b, sessions))
    decreases |a|
  {
    hide Add;
    if a == [] {
      assert a + b == b;
      AddNothing(ThreadsUsage(b, sessions));
    } else {
      assert (a + b)[1..] == a[1..] + b;
      ThreadsConcat(a[1..], b, sessions);
      AddAssociates(ThreadUsage(a[0], sessions), ThreadsUsage(a[1..], sessions), ThreadsUsage(b, sessions));
    }
  }

  /** Distinct threads use at most what all the listed threads use. */
  lemma {:induction false} DistinctThreadsFit(some: seq<ThreadId>, all: seq<ThreadId>, sessions: Sessions)
    requires Distinct(some) && Elements(some) <= Elements(all)
    ensures AtMost(ThreadsUsage(some, sessions), ThreadsUsage(all, sessions))
    decreases |some|
  {
    hide Add, AtMost, ThreadUsage;
    NothingAtMost(ThreadsUsage(all, sessions));
    if some != [] {
      var t := some[0];
      assert t in Elements(some);
      var i :| 0 <= i < |all| && all[i] == t;
      var rest := all[..i] + all[i + 1..];
      assert Elements(some[1..]) <= Elements(rest) by {
        forall x | x in some[1..] ensures x in rest {
          var j :| 0 <= j < |some[1..]| && some[1..][j] == x;
          assert some[j + 1] == x && x in Elements(some) && x in all && x != t;
          var k :| 0 <= k < |all| && all[k] == x;
          if k < i { assert all[..i][k] == x; } else { assert all[i + 1..][k - i - 1] == x; }
        }
      }
      DistinctThreadsFit(some[1..], rest, sessions);
      assert all == all[..i] + ([t] + all[i + 1..]);
      ThreadsConcat(all[..i], [t] + all[i + 1..], sessions);
      ThreadsConcat(all[..i], all[i + 1..], sessions);
      assert ([t] + all[i + 1..])[1..] == all[i + 1..];
      AddAssociates(ThreadUsage(t, sessions), ThreadsUsage(all[..i], sessions), ThreadsUsage(all[i + 1..], sessions));
      AddAssociates(ThreadsUsage(all[..i], sessions), ThreadUsage(t, sessions), ThreadsUsage(all[i + 1..], sessions));
      AddCommutes(ThreadsUsage(all[..i], sessions), ThreadUsage(t, sessions));
      NothingAtMost(ThreadUsage(t, sessions));
      AtMostAdds(ThreadUsage(t, sessions), ThreadUsage(t, sessions), ThreadsUsage(some[1..], sessions), ThreadsUsage(rest, sessions));
    }
  }

  // ----- how often a phase is reported -----

  /** The phase is in the cell of its ticket and category. */
  predicate InItsCell(p: Phase, tickets: seq<TicketId>) {
    p.ticket.Some? && p.ticket.value in tickets && Category(p).Some?
  }

  /** How often the matrix reports a phase: in its cell, and among the run-level rows. */
  function Appearances(p: Phase, tickets: seq<TicketId>): nat {
    (if InItsCell(p, tickets) then 1 else 0) + (if RunLevel(p) && p.key != "" then 1 else 0)
  }

  /** The only way to appear twice is a ticket that bears the name of the run-level rows. */
  lemma TwiceMeansTicketNamedRun(p: Phase, tickets: seq<TicketId>)
    requires p.key != ""
    ensures Appearances(p, tickets) <= 2
    ensures Appearances(p, tickets) == 2 <==> p.ticket == Some("run") && "run" in tickets && Category(p).Some?
  {
  }

  /** The phase's session, as often as the matrix reports it. */
  function Listed(p: Phase, sessions: Sessions, tickets: seq<TicketId>): seq<ThreadId> {
    if !PhaseMeasurement(p, sessions).status.Complete? then []
    else (if InItsCell(p, tickets) then [p.thread.value] else []) + (if RunLevel(p) && p.key != "" then [p.thread.value] else [])
  }

  function PhaseThreads(phases: seq<Phase>, sessions: Sessions, tickets: seq<TicketId>): seq<ThreadId> {
    if phases == [] then [] else Listed(phases[0], sessions, tickets) + PhaseThreads(phases[1..], sessions, tickets)
  }

  /** Every session behind the matrix, as often as it is reported. */
  function ReportedThreads(phases: seq<Phase>, sessions: Sessions, tickets: seq<TicketId>, orchestrators: seq<ThreadId>): seq<ThreadId> {
    PhaseThreads(phases, sessions, tickets) + orchestrators
  }

  lemma CategoryIsAColumn(p: Phase)
    requires Category(p).Some?
    ensures Category(p).value in COLUMNS
  {
    assert COLUMNS[0] == AnalysisColumn && COLUMNS[1] == AnalysisValidationColumn && COLUMNS[2] == ContractValidationColumn;
    assert COLUMNS[3] == AcceptanceColumn && COLUMNS[4] == ImplementationColumn && COLUMNS[6] == InitialReviewColumn;
    assert COLUMNS[7] == RemediationColumn && COLUMNS[8] == FollowupReviewColumn;
  }

  lemma CellsAre(p: Phase, tickets: seq<TicketId>)
    ensures BelongsTo(p, AllPlaces(tickets)) <==> InItsCell(p, tickets)
  {
    PlacesOf(tickets);
    if Category(p).Some? { CategoryIsAColumn(p); }
  }

  lemma ListedUsage(p: Phase, sessions: Sessions, tickets: seq<TicketId>)
    ensures ThreadsUsage(Listed(p, sessions, tickets), sessions)
         == Add(if InItsCell(p, tickets) then PhaseUsage(p, sessions) else NO_USAGE,
                if RunLevel(p) && p.key != "" then PhaseUsage(p, sessions) else NO_USAGE)
  {
    hide Add, Category;
    AddNothing(PhaseUsage(p, sessions));
    AddNothing(NO_USAGE);
    if PhaseMeasurement(p, sessions).status.Complete? {
      var t := p.thread.value;
      assert ThreadUsage(t, sessions) == PhaseUsage(p, sessions);
      assert [t][1..] == [] && ([t] + [t])[1..] == [t];
      assert ThreadsUsage([t], sessions) == Add(ThreadUsage(t, sessions), NO_USAGE);
      assert [t] + [] == [t] && [] + [t] == [t];
      assert ThreadsUsage([t] + [t], sessions) == Add(ThreadUsage(t, sessions), ThreadsUsage([t], sessions));
    }
  }

  /** Ticket cells and run-level rows report exactly the listed sessions. */
  lemma {:induction false} CellsAndRowsAreListed(phases: seq<Phase>, sessions: Sessions, tickets: seq<TicketId>)
    ensures Add(UsageAt(phases, sessions, AllPlaces(tickets)), Total(TransverseRows(phases, sessions)))
         == ThreadsUsage(PhaseThreads(phases, sessions, tickets), sessions)
    decreases |phases|
  {
    hide Add, PhaseMeasurement, Category, UsageOf, Listed, AllPlaces, BelongsTo, InItsCell;
    AddNothing(NO_USAGE);
    if phases != [] {
      var p, rest := phases[0], phases[1..];
      CellsAndRowsAreListed(rest, sessions, tickets);
      CellsAre(p, tickets);
      ListedUsage(p, sessions, tickets);
      ThreadsConcat(Listed(p, sessions, tickets), PhaseThreads(rest, sessions, tickets), sessions);
      var u := if InItsCell(p, tickets) then PhaseUsage(p, sessions) else NO_USAGE;
      var v := if RunLevel(p) && p.key != "" then PhaseUsage(p, sessions) else NO_USAGE;
      AddNothing(Total(TransverseRows(rest, sessions)));
      if RunLevel(p) && p.key != "" {
        assert TransverseRows(phases, sessions)[1..] == TransverseRows(rest, sessions);
      } else {
        assert TransverseRows(phases, sessions) == TransverseRows(rest, sessions);
      }
      assert Total(TransverseRows(phases, sessions)) == Add(v, Total(TransverseRows(rest, sessions)));
      Swap(u, UsageAt(rest, sessions, AllPlaces(tickets)), v, Total(TransverseRows(rest, sessions)));
    }
  }

  // ----- reported once or more often -----

  predicate Positive(t: ThreadId, sessions: Sessions) {
    ThreadUsage(t, sessions) != NO_USAGE
  }

  /** No session with usage is listed twice. */
  ghost predicate EachOnce(threads: seq<ThreadId>, sessions: Sessions) {
    forall i, j :: 0 <= i < j < |threads| && threads[i] == threads[j] ==> !Positive(threads[i], sessions)
  }

  lemma EachOnceConcat(a: seq<ThreadId>, b: seq<ThreadId>, sessions: Sessions)
    ensures EachOnce(a + b, sessions) <==>
      EachOnce(a, sessions) && EachOnce(b, sessions) && forall t :: t in a && t in b ==> !Positive(t, sessions)
  {
    var c := a + b;
    if EachOnce(c, sessions) {
      forall i, j | 0 <= i < j < |a| && a[i] == a[j] ensures !Positive(a[i], sessions) { assert c[i] == c[j]; }
      forall i, j | 0 <= i < j < |b| && b[i] == b[j] ensures !Positive(b[i], sessions) { assert c[|a| + i] == c[|a| + j]; }
      forall t | t in a && t in b ensures !Positive(t, sessions) {
        var i :| 0 <= i < |a| && a[i] == t;
        var j :| 0 <= j < |b| && b[j] == t;
        assert c[i] == c[|a| + j];
      }
    }
    if EachOnce(a, sessions) && EachOnce(b, sessions) && forall t :: t in a && t in b ==> !Positive(t, sessions) {
      forall i, j | 0 <= i < j < |c| && c[i] == c[j] ensures !Positive(c[i], sessions) {
        if j < |a| { assert a[i] == a[j]; }
        else if i >= |a| { assert b[i - |a|] == b[j - |a|]; }
        else { assert c[i] in a && c[i] in b; }
      }
    }
  }

  function Positives(threads: seq<ThreadId>, sessions: Sessions): seq<ThreadId> {
    if threads == [] then []
    else (if Positive(threads[0], sessions) then [threads[0]] else []) + Positives(threads[1..], sessions)
  }

  lemma {:induction false} PositivesAreAll(threads: seq<ThreadId>, sessions: Sessions)
    ensures ThreadsUsage(Positives(threads, sessions), sessions) == ThreadsUsage(threads, sessions)
    ensures forall t :: t in Positives(threads, sessions) <==> t in threads && Positive(t, sessions)
    ensures EachOnce(threads, sessions) ==> Distinct(Positives(threads, sessions))
    decreases |threads|
  {
    hide Add, ThreadUsage;
    if threads != [] {
      var t, rest := threads[0], threads[1..];
      PositivesAreAll(rest, sessions);
      AddNothing(ThreadsUsage(rest, sessions));
      assert threads == [t] + rest;
      EachOnceConcat([t], rest, sessions);
      assert t in [t];
      if Positive(t, sessions) {
        assert Positives(threads, sessions)[1..] == Positives(rest, sessions);
      } else {
        assert Positives(threads, sessions) == Positives(rest, sessions);
      }
    }
  }

  /** The listed usage is at most that of the distinct sessions behind it exactly when no session
      with usage is listed twice. */
  lemma OnceIsExact(threads: seq<ThreadId>, drawn: seq<ThreadId>, sessions: Sessions)
    requires Distinct(drawn) && Elements(drawn) == Elements(threads)
    ensures AtMost(ThreadsUsage(threads, sessions), ThreadsUsage(drawn, sessions)) <==> EachOnce(threads, sessions)
  {
    hide Add, AtMost, ThreadsUsage, ThreadUsage, Positive;
    if EachOnce(threads, sessions) {
      OnceFits(threads, drawn, sessions);
    } else {
      var i, j :| 0 <= i < j < |threads| && threads[i] == threads[j] && Positive(threads[i], sessions);
      TwiceDoesNotFit(threads, drawn, sessions, i, j);
    }
  }

  /** Sessions listed once fit into every ledger that knows them. */
  lemma OnceFits(threads: seq<ThreadId>, ledger: seq<ThreadId>, sessions: Sessions)
    requires EachOnce(threads, sessions) && Elements(threads) <= Elements(ledger)
    ensures AtMost(ThreadsUsage(threads, sessions), ThreadsUsage(ledger, sessions))
  {
    hide Add, AtMost, ThreadsUsage, ThreadUsage, Positive;
    PositivesAreAll(threads, sessions);
    forall t | t in Positives(threads, sessions) ensures t in Elements(ledger) {
      assert t in Elements(threads);
    }
    DistinctThreadsFit(Positives(threads, sessions), ledger, sessions);
  }

  lemma TwiceDoesNotFit(threads: seq<ThreadId>, drawn: seq<ThreadId>, sessions: Sessions, i: nat, j: nat)
    requires Distinct(drawn) && Elements(drawn) == Elements(threads)
    requires i < j < |threads| && threads[i] == threads[j] && Positive(threads[i], sessions)
    ensures !AtMost(ThreadsUsage(threads, sessions), ThreadsUsage(drawn, sessions))
  {
    hide ThreadUsage;
    var t := threads[i];
    var rest := threads[..i] + threads[i + 1..];
    assert threads[i + 1..][j - i - 1] == t;
    forall x | x in drawn ensures x in rest {
      assert x in Elements(drawn) && x in threads;
      var k :| 0 <= k < |threads| && threads[k] == x;
      if k < i { assert threads[..i][k] == x; }
      else if k > i { assert threads[i + 1..][k - i - 1] == x; }
    }
    DistinctThreadsFit(drawn, rest, sessions);
    assert threads == threads[..i] + ([t] + threads[i + 1..]);
    assert ([t] + threads[i + 1..])[1..] == threads[i + 1..];
    ThreadsConcat(threads[..i], [t] + threads[i + 1..], sessions);
    ThreadsConcat(threads[..i], threads[i + 1..], sessions);
  }

  // ----- when sessions are listed once -----

  /** The phase's usage, if any, is reported at most once, and not again by the orchestrator's row. */
  predicate ReportedOnce(p: Phase, sessions: Sessions, tickets: seq<TicketId>, orchestrators: seq<ThreadId>) {
    PhaseUsage(p, sessions) != NO_USAGE ==>
      Appearances(p, tickets) <= 1 && (Appearances(p, tickets) == 1 ==> p.thread.Some? && p.thread.value !in orchestrators)
  }

  /** What the condition excludes: a categorized phase of a ticket named "run", and a reported phase
      that ran in an orchestrator's thread. */
  lemma ReportedOnceExactly(p: Phase, sessions: Sessions, tickets: seq<TicketId>, orchestrators: seq<ThreadId>)
    requires p.key != ""
    ensures ReportedOnce(p, sessions, tickets, orchestrators) <==>
      || PhaseUsage(p, sessions) == NO_USAGE
      || (&& !(p.ticket == Some("run") && "run" in tickets && Category(p).Some?)
          && !(Appearances(p, tickets) > 0 && p.thread.Some? && p.thread.value in orchestrators))
  {
    hide PhaseUsage, Category, Appearances;
    TwiceMeansTicketNamedRun(p, tickets);
    if PhaseUsage(p, sessions) != NO_USAGE { UsageNeedsAThread(p, sessions); }
  }

  lemma {:induction false} ListedAreCharged(phases: seq<Phase>, sessions: Sessions, tickets: seq<TicketId>)
    ensures forall t :: t in PhaseThreads(phases, sessions, tickets) ==> t in ChargedThreads(phases, sessions)
    decreases |phases|
  {
    hide PhaseMeasurement, InItsCell, RunLevel;
    if phases != [] { ListedAreCharged(phases[1..], sessions, tickets); }
  }

  lemma ListedOnceExactly(p: Phase, sessions: Sessions, tickets: seq<TicketId>)
    ensures EachOnce(Listed(p, sessions, tickets), sessions) <==> (PhaseUsage(p, sessions) != NO_USAGE ==> Appearances(p, tickets) <= 1)
  {
    hide Category, RunLevel;
    var l := Listed(p, sessions, tickets);
    if PhaseMeasurement(p, sessions).status.Complete? {
      assert ThreadUsage(p.thread.value, sessions) == PhaseUsage(p, sessions);
      if Appearances(p, tickets) == 2 {
        assert l[0] == l[1] == p.thread.value;
      }
    }
  }

  lemma NothingIsListedTwice(sessions: Sessions)
    ensures EachOnce([], sessions)
  {
  }

  lemma {:induction false} PhasesListedOnceExactly(phases: seq<Phase>, sessions: Sessions, tickets: seq<TicketId>)
    requires Distinct(ChargedThreads(phases, sessions))
    ensures EachOnce(PhaseThreads(phases, sessions, tickets), sessions) <==>
      forall p :: p in phases ==> (PhaseUsage(p, sessions) != NO_USAGE ==> Appearances(p, tickets) <= 1)
    decreases |phases|
  {
    hide PhaseUsage, Appearances, Positive, EachOnce;
    if phases == [] {
      NothingIsListedTwice(sessions);
    } else {
      var p, rest := phases[0], phases[1..];
      var charged := ChargedThreads(phases, sessions);
      var head := if PhaseMeasurement(p, sessions).status.Complete? then [p.thread.value] else [];
      assert charged == head + ChargedThreads(rest, sessions);
      forall i, j | 0 <= i < j < |ChargedThreads(rest, sessions)| ensures ChargedThreads(rest, sessions)[i] != ChargedThreads(rest, sessions)[j] {
        assert charged[|head| + i] != charged[|head| + j];
      }
      PhasesListedOnceExactly(rest, sessions, tickets);
      ListedOnceExactly(p, sessions, tickets);
      EachOnceConcat(Listed(p, sessions, tickets), PhaseThreads(rest, sessions, tickets), sessions);
      ListedAreCharged(rest, sessions, tickets);
      if head != [] {
        forall k | 0 <= k < |ChargedThreads(rest, sessions)| ensures ChargedThreads(rest, sessions)[k] != head[0] {
          assert charged[0] != charged[1 + k];
        }
        assert head[0] !in PhaseThreads(rest, sessions, tickets);
      }
      assert phases == [p] + rest;
    }
  }

  lemma ListedIsReported(p: Phase, sessions: Sessions, tickets: seq<TicketId>, t: ThreadId)
    ensures t in Listed(p, sessions, tickets) && Positive(t, sessions)
       <==> PhaseUsage(p, sessions) != NO_USAGE && Appearances(p, tickets) >= 1 && p.thread == Some(t)
  {
    hide Category, RunLevel, InItsCell;
    if PhaseMeasurement(p, sessions).status.Complete? {
      assert ThreadUsage(p.thread.value, sessions) == PhaseUsage(p, sessions);
    }
  }

  lemma {:induction false} ListedAmongPhases(phases: seq<Phase>, sessions: Sessions, tickets: seq<TicketId>, t: ThreadId)
    ensures t in PhaseThreads(phases, sessions, tickets) <==> exists p :: p in phases && t in Listed(p, sessions, tickets)
    decreases |phases|
  {
    hide Listed;
    if phases != [] {
      ListedAmongPhases(phases[1..], sessions, tickets, t);
      assert phases == [phases[0]] + phases[1..];
    }
  }

  lemma HostsDisjointExactly(phases: seq<Phase>, sessions: Sessions, tickets: seq<TicketId>, orchestrators: seq<ThreadId>)
    ensures (forall t :: t in PhaseThreads(phases, sessions, tickets) && t in orchestrators ==> !Positive(t, sessions)) <==>
      forall p :: p in phases && PhaseUsage(p, sessions) != NO_USAGE && Appearances(p, tickets) >= 1 ==>
        p.thread.Some? && p.thread.value !in orchestrators
  {
    hide PhaseThreads, Listed, Positive, PhaseUsage, Appearances;
    if forall t :: t in PhaseThreads(phases, sessions, tickets) && t in orchestrators ==> !Positive(t, sessions) {
      forall p | p in phases && PhaseUsage(p, sessions) != NO_USAGE && Appearances(p, tickets) >= 1
        ensures p.thread.Some? && p.thread.value !in orchestrators
      {
        assert p.thread.Some? by { UsageNeedsAThread(p, sessions); }
        ListedIsReported(p, sessions, tickets, p.thread.value);
        ListedAmongPhases(phases, sessions, tickets, p.thread.value);
      }
    }
    if forall p :: p in phases && PhaseUsage(p, sessions) != NO_USAGE && Appearances(p, tickets) >= 1 ==> p.thread.Some? && p.thread.value !in orchestrators {
      forall t | t in PhaseThreads(phases, sessions, tickets) && t in orchestrators ensures !Positive(t, sessions) {
        ListedAmongPhases(phases, sessions, tickets, t);
        var p :| p in phases && t in Listed(p, sessions, tickets);
        ListedIsReported(p, sessions, tickets, t);
      }
    }
  }

  lemma UsageNeedsAThread(p: Phase, sessions: Sessions)
    requires PhaseUsage(p, sessions) != NO_USAGE
    ensures p.thread.Some?
  {
  }

  /** No session with usage is behind two places of the matrix exactly when every phase with usage is
      reported once and hosted by no orchestrator. */
  lemma EachOnceExactly(phases: seq<Phase>, sessions: Sessions, tickets: seq<TicketId>, orchestrators: seq<ThreadId>)
    requires KeysDistinct(phases) && SessionsKnowTheirPhases(phases, sessions) && Distinct(orchestrators)
    ensures EachOnce(ReportedThreads(phases, sessions, tickets, orchestrators), sessions)
       <==> forall p :: p in phases ==> ReportedOnce(p, sessions, tickets, orchestrators)
  {
    hide PhaseThreads, Positive, PhaseUsage, Appearances;
    ChargedThreadsAreDistinct(phases, sessions);
    PhasesListedOnceExactly(phases, sessions, tickets);
    HostsDisjointExactly(phases, sessions, tickets, orchestrators);
    assert EachOnce(orchestrators, sessions);
    EachOnceConcat(PhaseThreads(phases, sessions, tickets), orchestrators, sessions);
  }

  // ----- main results -----

  /** Everything the matrix reports as independent: all ticket cells, the run-level phases and the
      orchestrator. The remaining rows are zero or included in the orchestrator. */
  function Reported(phases: seq<Phase>, sessions: Sessions, tickets: seq<TicketId>, states: map<TicketId, TicketState>, orchestrators: seq<ThreadId>): Usage
    requires Elements(tickets) <= states.Keys
  {
    Add(Add(Total(Flat(Rows(phases, sessions, tickets, states))), Total(TransverseRows(phases, sessions))),
        UsageOf(Combine(OrchestratorRow(orchestrators, sessions))))
  }

  /** The reported total is the usage of the listed sessions, each as often as it is listed. */
  lemma ReportedIsListed(phases: seq<Phase>, sessions: Sessions, tickets: seq<TicketId>, states: map<TicketId, TicketState>, orchestrators: seq<ThreadId>)
    requires Keyed(phases) && Elements(tickets) <= states.Keys && Distinct(tickets)
    ensures Reported(phases, sessions, tickets, states, orchestrators)
         == ThreadsUsage(ReportedThreads(phases, sessions, tickets, orchestrators), sessions)
  {
    hide Add, UsageAt, Rows, Combine, UsageOf, PhaseMeasurement;
    RowsHoldTheirPhases(phases, sessions, tickets, states);
    CellsAndRowsAreListed(phases, sessions, tickets);
    OrchestratorUsage(orchestrators, sessions);
    CombineKeepsUsage(OrchestratorRow(orchestrators, sessions));
    ThreadsConcat(PhaseThreads(phases, sessions, tickets), orchestrators, sessions);
  }

  /** The matrix reports at most what the distinct sessions behind it used exactly when every phase
      with usage is reported once and hosted by no orchestrator. */
  lemma NothingIsCountedTwiceExactly(phases: seq<Phase>, sessions: Sessions, tickets: seq<TicketId>, states: map<TicketId, TicketState>,
                                     orchestrators: seq<ThreadId>, drawn: seq<ThreadId>)
    requires Keyed(phases) && KeysDistinct(phases) && SessionsKnowTheirPhases(phases, sessions)
    requires Elements(tickets) <= states.Keys && Distinct(tickets) && Distinct(orchestrators)
    requires Distinct(drawn) && Elements(drawn) == Elements(ReportedThreads(phases, sessions, tickets, orchestrators))
    ensures AtMost(Reported(phases, sessions, tickets, states, orchestrators), ThreadsUsage(drawn, sessions))
       <==> forall p :: p in phases ==> ReportedOnce(p, sessions, tickets, orchestrators)
  {
    hide AtMost, Reported, ReportedThreads, ReportedOnce, EachOnce;
    ReportedIsListed(phases, sessions, tickets, states, orchestrators);
    OnceIsExact(ReportedThreads(phases, sessions, tickets, orchestrators), drawn, sessions);
    EachOnceExactly(phases, sessions, tickets, orchestrators);
  }

  /** Then it also stays within the usage of every ledger that knows those sessions. */
  lemma NothingIsCountedTwice(phases: seq<Phase>, sessions: Sessions, tickets: seq<TicketId>, states: map<TicketId, TicketState>,
                              orchestrators: seq<ThreadId>, ledger: seq<ThreadId>)
    requires Keyed(phases) && KeysDistinct(phases) && SessionsKnowTheirPhases(phases, sessions)
    requires Elements(tickets) <= states.Keys && Distinct(tickets) && Distinct(orchestrators)
    requires forall p :: p in phases ==> ReportedOnce(p, sessions, tickets, orchestrators)
    requires sessions.Keys + Elements(orchestrators) <= Elements(ledger)
    ensures AtMost(Reported(phases, sessions, tickets, states, orchestrators), ThreadsUsage(ledger, sessions))
  {
    hide AtMost, Reported, ReportedOnce, EachOnce, PhaseThreads;
    ReportedIsListed(phases, sessions, tickets, states, orchestrators);
    EachOnceExactly(phases, sessions, tickets, orchestrators);
    ListedAreCharged(phases, sessions, tickets);
    ChargedThreadsComeFromPhases(phases, sessions);
    forall t | t in ReportedThreads(phases, sessions, tickets, orchestrators) ensures t in Elements(ledger) {
      assert t in sessions.Keys || t in Elements(orchestrators);
    }
    OnceFits(ReportedThreads(phases, sessions, tickets, orchestrators), ledger, sessions);
  }

  // ----- the two ways to be counted twice -----

  /** The sessions of a run with the one phase `p`, all of whose usage belongs to it. */
  function Alone(p: Phase, t: ThreadId, usage: Usage): Sessions {
    map[t := Session(true, Some(usage), {p.key})]
  }

  predicate RunsAlone(p: Phase, t: ThreadId) {
    p.key != "" && p.thread == Some(t) && t != "" && p.captured && Category(p).Some?
  }

  lemma OnePhaseIsListed(p: Phase, t: ThreadId, usage: Usage, ticket: TicketId, state: TicketState, orchestrators: seq<ThreadId>)
    requires RunsAlone(p, t)
    ensures Keyed([p]) && KeysDistinct([p]) && SessionsKnowTheirPhases([p], Alone(p, t, usage)) && Elements([ticket]) == {ticket}
    ensures Reported([p], Alone(p, t, usage), [ticket], map[ticket := state], orchestrators)
         == ThreadsUsage(Listed(p, Alone(p, t, usage), [ticket]) + orchestrators, Alone(p, t, usage))
  {
    hide Reported, Listed;
    assert Elements([ticket]) == {ticket};
    ReportedIsListed([p], Alone(p, t, usage), [ticket], map[ticket := state], orchestrators);
    assert [p][1..] == [] && PhaseThreads([], Alone(p, t, usage), [ticket]) == [];
    assert PhaseThreads([p], Alone(p, t, usage), [ticket]) == Listed(p, Alone(p, t, usage), [ticket]) + [];
    assert Listed(p, Alone(p, t, usage), [ticket]) + [] == Listed(p, Alone(p, t, usage), [ticket]);
  }

  lemma TwoListedUsages(p: Phase, t: ThreadId, usage: Usage)
    requires usage != NO_USAGE
    ensures ThreadsUsage([t, t], Alone(p, t, usage)) == Add(usage, usage)
    ensures !AtMost(Add(usage, usage), ThreadsUsage([t], Alone(p, t, usage)))
  {
    assert [t][1..] == [] && [t, t][1..] == [t];
    assert ThreadsUsage([t], Alone(p, t, usage)) == Add(usage, NO_USAGE);
  }

  /** A phase of a ticket named "run" is counted in its cell and among the run-level rows. */
  lemma TicketNamedRunIsCountedTwice(p: Phase, t: ThreadId, usage: Usage, state: TicketState)
    requires RunsAlone(p, t) && p.ticket == Some("run") && usage != NO_USAGE
    ensures Keyed([p]) && KeysDistinct([p]) && SessionsKnowTheirPhases([p], Alone(p, t, usage)) && Elements(["run"]) == {"run"}
    ensures var reported := Reported([p], Alone(p, t, usage), ["run"], map["run" := state], []);
            reported == Add(usage, usage) && !AtMost(reported, ThreadsUsage([t], Alone(p, t, usage)))
  {
    hide Reported, AtMost, ThreadsUsage;
    OnePhaseIsListed(p, t, usage, "run", state, []);
    assert Listed(p, Alone(p, t, usage), ["run"]) + [] == [t, t];
    TwoListedUsages(p, t, usage);
  }

  /** A phase that ran in an orchestrator's thread is counted in its cell and in the orchestrator's row. */
  lemma HostedPhaseIsCountedTwice(p: Phase, t: ThreadId, usage: Usage, ticket: TicketId, state: TicketState)
    requires RunsAlone(p, t) && p.ticket == Some(ticket) && ticket != "run" && usage != NO_USAGE
    ensures Keyed([p]) && KeysDistinct([p]) && SessionsKnowTheirPhases([p], Alone(p, t, usage)) && Elements([ticket]) == {ticket}
    ensures var reported := Reported([p], Alone(p, t, usage), [ticket], map[ticket := state], [t]);
            reported == Add(usage, usage) && !AtMost(reported, ThreadsUsage([t], Alone(p, t, usage)))
  {
    hide Reported, AtMost, ThreadsUsage;
    OnePhaseIsListed(p, t, usage, ticket, state, [t]);
    assert Listed(p, Alone(p, t, usage), [ticket]) + [t] == [t, t];
    TwoListedUsages(p, t, usage);
  }
}
