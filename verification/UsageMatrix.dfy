/** The token usage matrix of a run (`build_usage_matrix` and the totals of its report): nothing is
    lost between its rows and columns, and no session is charged twice. */
module UsageMatrix {
  import opened Prelude
  import opened Measurements

  type ThreadId = string

  datatype Column =
    | AnalysisColumn | AnalysisValidationColumn | ContractValidationColumn | AcceptanceColumn | ImplementationColumn
    | VerificationColumn | InitialReviewColumn | RemediationColumn | FollowupReviewColumn

  const COLUMNS: seq<Column> :=
    [AnalysisColumn, AnalysisValidationColumn, ContractValidationColumn, AcceptanceColumn, ImplementationColumn,
     VerificationColumn, InitialReviewColumn, RemediationColumn, FollowupReviewColumn]

  datatype Kind = Analysis | RouteValidation | ContractValidation | AcceptanceTests | Implementation | Remediation | Review | OtherKind

  datatype Phase = Phase(key: PhaseKey, ticket: Option<TicketId>, kind: Kind, followup: bool, thread: Option<ThreadId>, captured: bool)

  /** `keys` are the phases whose records name the session's thread. */
  datatype Session = Session(available: bool, usage: Option<Usage>, keys: set<PhaseKey>)

  datatype Evidence = NoVerification | ZeroTokens | UnboundedTokens

  datatype TicketState = TicketState(merged: bool, verification: Evidence)

  function Category(p: Phase): Option<Column> {
    match p.kind
    case Analysis => Some(AnalysisColumn)
    case RouteValidation => Some(AnalysisValidationColumn)
    case ContractValidation => Some(ContractValidationColumn)
    case AcceptanceTests => Some(AcceptanceColumn)
    case Implementation => Some(ImplementationColumn)
    case Remediation => Some(RemediationColumn)
    case Review => Some(if p.followup then FollowupReviewColumn else InitialReviewColumn)
    case OtherKind => None
  }

  /** The session's usage belongs to the phase alone. */
  predicate Charged(p: Phase, sessions: map<ThreadId, Session>) {
    && p.thread.Some? && p.thread.value in sessions
    && var s := sessions[p.thread.value]; s.available && p.captured && s.usage.Some? && |s.keys| <= 1
  }

  function PhaseMeasurement(p: Phase, sessions: map<ThreadId, Session>): Measurement {
    if p.thread.None? || p.thread.value == "" then UnavailableFor(ThreadIdMissing, {p.key})
    else if p.thread.value !in sessions || !sessions[p.thread.value].available then UnavailableFor(SessionUnavailable, {p.key})
    else if !p.captured then UnavailableFor(BoundaryNotCaptured, {p.key})
    else if sessions[p.thread.value].usage.None? then UnavailableFor(InvalidCounters, {p.key})
    else if |sessions[p.thread.value].keys| > 1 then UnavailableFor(SharedSession, {p.key})
    else Exact(sessions[p.thread.value].usage.value, {p.key})
  }

  predicate Matches(p: Phase, t: TicketId, c: Column) {
    p.ticket == Some(t) && Category(p) == Some(c)
  }

  function MeasuredPhases(phases: seq<Phase>, sessions: map<ThreadId, Session>, t: TicketId, c: Column): seq<Measurement> {
    if phases == [] then []
    else (if Matches(phases[0], t, c) then [PhaseMeasurement(phases[0], sessions)] else []) + MeasuredPhases(phases[1..], sessions, t, c)
  }

  predicate Optional(c: Column) {
    c.AnalysisValidationColumn? || c.RemediationColumn? || c.FollowupReviewColumn?
  }

  function Cell(phases: seq<Phase>, sessions: map<ThreadId, Session>, t: TicketId, state: TicketState, c: Column): Measurement {
    if c.VerificationColumn? then
      match state.verification
      case ZeroTokens => Exact(NO_USAGE, {})
      case UnboundedTokens => UnavailableFor(VerificationUnbounded, {})
      case NoVerification =>
        if state.merged then UnavailableFor(VerificationMissing, {})
        else NotApplicableFor(VerificationNotReached)
    else
      var matching := MeasuredPhases(phases, sessions, t, c);
      if matching != [] then Combine(matching)
      else if Optional(c) then NotApplicableFor(PhaseNotRequired)
      else if state.merged then UnavailableFor(PhaseMissing, {})
      else NotApplicableFor(StoppedBefore)
  }

  function Applicable(ms: seq<Measurement>): seq<Measurement> {
    if ms == [] then [] else (if ms[0].status.NotApplicable? then [] else [ms[0]]) + Applicable(ms[1..])
  }

  function Row(phases: seq<Phase>, sessions: map<ThreadId, Session>, t: TicketId, state: TicketState): (row: seq<Measurement>)
    ensures |row| == |COLUMNS|
  {
    seq(|COLUMNS|, i requires 0 <= i < |COLUMNS| => Cell(phases, sessions, t, state, COLUMNS[i]))
  }

  // ----- every measurement is well formed -----

  predicate Keyed(phases: seq<Phase>) {
    forall k :: 0 <= k < |phases| ==> phases[k].key != ""
  }

  lemma {:induction false} PhasesAreWellFormed(phases: seq<Phase>, sessions: map<ThreadId, Session>, t: TicketId, c: Column)
    requires Keyed(phases)
    ensures AllWellFormed(MeasuredPhases(phases, sessions, t, c))
    decreases |phases|
  {
    if phases != [] { PhasesAreWellFormed(phases[1..], sessions, t, c); }
  }

  lemma CellIsWellFormed(phases: seq<Phase>, sessions: map<ThreadId, Session>, t: TicketId, state: TicketState, c: Column)
    requires Keyed(phases)
    ensures WellFormed(Cell(phases, sessions, t, state, c))
  {
    hide Combine, MeasuredPhases, PhaseMeasurement, AllWellFormed;
    PhasesAreWellFormed(phases, sessions, t, c);
    CombineIs(MeasuredPhases(phases, sessions, t, c));
  }

  lemma {:induction false} ApplicableKeepsTotal(ms: seq<Measurement>)
    requires AllWellFormed(ms)
    ensures AllWellFormed(Applicable(ms)) && Total(Applicable(ms)) == Total(ms)
    decreases |ms|
  {
    hide Add;
    if ms != [] {
      ApplicableKeepsTotal(ms[1..]);
      AddNothing(Total(ms[1..]));
      if ms[0].status.NotApplicable? {
        assert Applicable(ms) == Applicable(ms[1..]);
      } else {
        assert Applicable(ms)[1..] == Applicable(ms[1..]);
      }
    }
  }

  // ----- rows against columns -----

  /** A rectangle of measurements, one row for each ticket. */
  ghost predicate Rectangle(rows: seq<seq<Measurement>>, width: nat) {
    forall k :: 0 <= k < |rows| ==> |rows[k]| == width && AllWellFormed(rows[k])
  }

  function ColumnAt(rows: seq<seq<Measurement>>, c: nat): (r: seq<Measurement>)
    requires forall k :: 0 <= k < |rows| ==> c < |rows[k]|
    ensures |r| == |rows| && forall k :: 0 <= k < |rows| ==> r[k] == rows[k][c]
  {
    seq(|rows|, k requires 0 <= k < |rows| => rows[k][c])
  }

  /** Row totals and phase totals, each combined from the cells that apply. */
  function RowTotals(rows: seq<seq<Measurement>>): seq<Measurement> {
    if rows == [] then [] else [Combine(Applicable(rows[0]))] + RowTotals(rows[1..])
  }

  function PhaseTotals(rows: seq<seq<Measurement>>, width: nat): seq<Measurement>
    requires forall k :: 0 <= k < |rows| ==> width <= |rows[k]|
  {
    if width == 0 then [] else PhaseTotals(rows, width - 1) + [Combine(Applicable(ColumnAt(rows, width - 1)))]
  }

  lemma {:induction false} RowTotalsAddUp(rows: seq<seq<Measurement>>, width: nat)
    requires Rectangle(rows, width)
    ensures AllWellFormed(RowTotals(rows)) && Total(RowTotals(rows)) == Total(Flat(rows))
    decreases |rows|
  {
    hide Add, Combine;
    if rows != [] {
      RowTotalsAddUp(rows[1..], width);
      ApplicableKeepsTotal(rows[0]);
      CombineIs(Applicable(rows[0]));
      CombineKeepsUsage(Applicable(rows[0]));
      TotalConcat(rows[0], Flat(rows[1..]));
      assert RowTotals(rows)[1..] == RowTotals(rows[1..]);
    }
  }

  function Narrow(rows: seq<seq<Measurement>>, width: nat): (r: seq<seq<Measurement>>)
    requires forall k :: 0 <= k < |rows| ==> width <= |rows[k]|
    ensures |r| == |rows| && forall k :: 0 <= k < |rows| ==> r[k] == rows[k][..width]
  {
    seq(|rows|, k requires 0 <= k < |rows| => rows[k][..width])
  }

  /** Taking the last column off a rectangle takes its total off the total. */
  lemma {:induction false} LastColumn(rows: seq<seq<Measurement>>, width: nat)
    requires forall k :: 0 <= k < |rows| ==> |rows[k]| == width + 1
    ensures Total(Flat(rows)) == Add(Total(Flat(Narrow(rows, width))), Total(ColumnAt(rows, width)))
    decreases |rows|
  {
    hide Add, UsageOf;
    if rows == [] {
      AddNothing(NO_USAGE);
    } else {
      LastColumn(rows[1..], width);
      var first, narrow, last := rows[0], Narrow(rows, width), ColumnAt(rows, width);
      assert narrow[1..] == Narrow(rows[1..], width) && last[1..] == ColumnAt(rows[1..], width);
      assert first == first[..width] + [first[width]];
      TotalConcat(first[..width], [first[width]]);
      assert [first[width]][1..] == [];
      AddNothing(UsageOf(first[width]));
      TotalConcat(first, Flat(rows[1..]));
      TotalConcat(narrow[0], Flat(narrow[1..]));
      Swap(Total(first[..width]), UsageOf(first[width]), Total(Flat(narrow[1..])), Total(last[1..]));
    }
  }

  lemma Swap(a: Usage, b: Usage, c: Usage, d: Usage)
    ensures Add(Add(a, b), Add(c, d)) == Add(Add(a, c), Add(b, d))
  {
  }

  lemma {:induction false} PhaseTotalsAddUp(rows: seq<seq<Measurement>>, width: nat)
    requires Rectangle(rows, width)
    ensures AllWellFormed(PhaseTotals(rows, width)) && Total(PhaseTotals(rows, width)) == Total(Flat(rows))
    decreases width
  {
    hide Add, Combine;
    if width == 0 {
      EmptyRows(rows);
    } else {
      var narrow, last := Narrow(rows, width - 1), ColumnAt(rows, width - 1);
      PhaseTotalsAddUp(narrow, width - 1);
      SamePhaseTotals(rows, narrow, width - 1);
      LastColumn(rows, width - 1);
      assert AllWellFormed(last);
      ApplicableKeepsTotal(last);
      CombineIs(Applicable(last));
      CombineKeepsUsage(Applicable(last));
      TotalConcat(PhaseTotals(rows, width - 1), [Combine(Applicable(last))]);
      assert [Combine(Applicable(last))][1..] == [];
      AddNothing(UsageOf(Combine(Applicable(last))));
    }
  }

  lemma {:induction false} EmptyRows(rows: seq<seq<Measurement>>)
    requires forall k :: 0 <= k < |rows| ==> |rows[k]| == 0
    ensures Flat(rows) == []
    decreases |rows|
  {
    if rows != [] { EmptyRows(rows[1..]); }
  }

  lemma {:induction false} SamePhaseTotals(a: seq<seq<Measurement>>, b: seq<seq<Measurement>>, width: nat)
    requires |a| == |b| && forall k :: 0 <= k < |a| ==> width <= |a[k]| && width <= |b[k]| && a[k][..width] == b[k][..width]
    ensures PhaseTotals(a, width) == PhaseTotals(b, width)
    decreases width
  {
    if width > 0 {
      forall k | 0 <= k < |a| ensures a[k][..width - 1] == b[k][..width - 1] && a[k][width - 1] == b[k][width - 1] {
        assert a[k][..width][..width - 1] == a[k][..width - 1] && b[k][..width][..width - 1] == b[k][..width - 1];
        assert a[k][width - 1] == a[k][..width][width - 1] && b[k][width - 1] == b[k][..width][width - 1];
      }
      SamePhaseTotals(a, b, width - 1);
      assert ColumnAt(a, width - 1) == ColumnAt(b, width - 1);
    }
  }

  /** The row totals and the phase totals of a matrix add up to the same usage. */
  lemma RowsAndPhasesAgree(rows: seq<seq<Measurement>>, width: nat)
    requires Rectangle(rows, width)
    ensures Total(RowTotals(rows)) == Total(PhaseTotals(rows, width)) == Total(Flat(rows))
  {
    RowTotalsAddUp(rows, width);
    PhaseTotalsAddUp(rows, width);
  }

  // ----- the columns of the report -----

  /** The report's five columns as groups of the matrix's nine. */
  function DisplayGroups(row: seq<Measurement>): seq<seq<Measurement>>
    requires |row| == 9
  {
    [[row[0], row[1], row[2]], [row[4]], [row[3], row[5]], [row[7]], [row[6], row[8]]]
  }

  function ApplicableEach(parts: seq<seq<Measurement>>): seq<seq<Measurement>> {
    if parts == [] then [] else [Applicable(parts[0])] + ApplicableEach(parts[1..])
  }

  lemma {:induction false} ApplicableMembers(ms: seq<Measurement>)
    ensures forall m :: m in Applicable(ms) <==> m in ms && !m.status.NotApplicable?
    decreases |ms|
  {
    if ms != [] { ApplicableMembers(ms[1..]); }
  }

  /** Cells that do not apply make no difference to a combination. */
  lemma ApplicableIsSame(ms: seq<Measurement>)
    requires AllWellFormed(ms)
    ensures AllWellFormed(Applicable(ms)) && Same(Combine(Applicable(ms)), Combine(ms))
  {
    hide Combine, Add;
    ApplicableMembers(ms);
    ApplicableKeepsTotal(ms);
    CombineIs(ms);
    CombineIs(Applicable(ms));
    forall m | m in ms && m.status.NotApplicable? ensures m.keys == {} { assert WellFormed(m); }
    assert PhaseKeys(ms) == PhaseKeys(Applicable(ms));
  }

  lemma {:induction false} ApplicableConcat(a: seq<Measurement>, b: seq<Measurement>)
    ensures Applicable(a + b) == Applicable(a) + Applicable(b)
    decreases |a|
  {
    if a == [] {
      assert a + b == b;
    } else {
      assert (a + b)[1..] == a[1..] + b;
      ApplicableConcat(a[1..], b);
    }
  }

  lemma {:induction false} ApplicableFlat(parts: seq<seq<Measurement>>)
    ensures Flat(ApplicableEach(parts)) == Applicable(Flat(parts))
    decreases |parts|
  {
    if parts != [] {
      ApplicableFlat(parts[1..]);
      ApplicableConcat(parts[0], Flat(parts[1..]));
      assert ApplicableEach(parts)[1..] == ApplicableEach(parts[1..]);
    }
  }

  lemma {:induction false} ApplicableEachIsWellFormed(parts: seq<seq<Measurement>>)
    requires forall k :: 0 <= k < |parts| ==> AllWellFormed(parts[k])
    ensures forall k :: 0 <= k < |ApplicableEach(parts)| ==> AllWellFormed(ApplicableEach(parts)[k])
    decreases |parts|
  {
    if parts != [] {
      ApplicableKeepsTotal(parts[0]);
      ApplicableEachIsWellFormed(parts[1..]);
    }
  }

  lemma FlatFive(a: seq<Measurement>, b: seq<Measurement>, c: seq<Measurement>, d: seq<Measurement>, e: seq<Measurement>)
    ensures Flat([a, b, c, d, e]) == a + b + c + d + e
  {
    assert [a, b, c, d, e][1..] == [b, c, d, e] && [b, c, d, e][1..] == [c, d, e] && [c, d, e][1..] == [d, e] && [d, e][1..] == [e];
    assert Flat([e]) == e;
    assert Flat([d, e]) == d + e;
    assert Flat([c, d, e]) == c + (d + e);
    assert Flat([b, c, d, e]) == b + (c + (d + e));
  }

  /** The group order is a reordering of pieces of the row. */
  lemma Reordered<T>(x: seq<T>, d: seq<T>, e: seq<T>, f: seq<T>, g: seq<T>, h: seq<T>, i: seq<T>)
    ensures multiset(x + e + (d + f) + h + (g + i)) == multiset(x + d + e + f + g + h + i)
  {
  }

  lemma GroupsPermuteRow(row: seq<Measurement>)
    requires |row| == 9
    ensures multiset(Flat(DisplayGroups(row))) == multiset(row)
  {
    hide Flat;
    var x, d, e, f, g, h, i := row[..3], [row[3]], [row[4]], [row[5]], [row[6]], [row[7]], [row[8]];
    assert [row[0], row[1], row[2]] == x && [row[3], row[5]] == d + f && [row[6], row[8]] == g + i;
    FlatFive(x, e, d + f, h, g + i);
    Reordered(x, d, e, f, g, h, i);
    RowPieces(row);
  }

  lemma RowPieces<T>(row: seq<T>)
    requires |row| == 9
    ensures row == row[..3] + [row[3]] + [row[4]] + [row[5]] + [row[6]] + [row[7]] + [row[8]]
  {
  }

  /** A row's displayed columns combine to exactly the row's total: each cell is shown in one
      column and no cell in two. */
  lemma DisplayedColumnsMakeTheTotal(row: seq<Measurement>)
    requires |row| == 9 && AllWellFormed(row)
    ensures Same(Combine(CombineEach(ApplicableEach(DisplayGroups(row)))), Combine(Applicable(row)))
    ensures Total(CombineEach(ApplicableEach(DisplayGroups(row)))) == UsageOf(Combine(Applicable(row)))
  {
    hide Combine, Add, Applicable;
    var groups := DisplayGroups(row);
    GroupsAreWellFormed(row);
    GroupsPermuteRow(row);
    ApplicableEachIsWellFormed(groups);
    CombineParts(ApplicableEach(groups));
    ApplicableFlat(groups);
    CombinePermuted(row, Flat(groups));
    ApplicableIsSame(Flat(groups));
    ApplicableIsSame(row);
    CombineKeepsUsage(CombineEach(ApplicableEach(groups)));
  }

  lemma GroupsAreWellFormed(row: seq<Measurement>)
    requires |row| == 9 && AllWellFormed(row)
    ensures forall k :: 0 <= k < 5 ==> AllWellFormed(DisplayGroups(row)[k])
  {
    var groups := DisplayGroups(row);
    forall k, j | 0 <= k < 5 && 0 <= j < |groups[k]| ensures WellFormed(groups[k][j]) {
      assert groups[k][j] in row;
    }
  }
}
