/** Token measurements and how they combine (`sum_usage` and `combine_measurements`). */
module Measurements {
  import opened Prelude

  /** One value for each usage field; a normalized usage has no negative counter. */
  datatype Usage = Usage(input: nat, cachedInput: nat, cacheWriteInput: nat, output: nat, reasoningOutput: nat, total: nat)

  const NO_USAGE := Usage(0, 0, 0, 0, 0, 0)

  function Add(a: Usage, b: Usage): Usage {
    Usage(a.input + b.input, a.cachedInput + b.cachedInput, a.cacheWriteInput + b.cacheWriteInput,
          a.output + b.output, a.reasoningOutput + b.reasoningOutput, a.total + b.total)
  }

  lemma AddAssociates(a: Usage, b: Usage, c: Usage)
    ensures Add(Add(a, b), c) == Add(a, Add(b, c))
  {
  }

  lemma AddNothing(a: Usage)
    ensures Add(NO_USAGE, a) == a && Add(a, NO_USAGE) == a
  {
  }

  /** No counter of `a` exceeds that of `b`. */
  predicate AtMost(a: Usage, b: Usage) {
    && a.input <= b.input && a.cachedInput <= b.cachedInput && a.cacheWriteInput <= b.cacheWriteInput
    && a.output <= b.output && a.reasoningOutput <= b.reasoningOutput && a.total <= b.total
  }

  function Sum(items: seq<Usage>): Usage {
    if items == [] then NO_USAGE else Add(items[0], Sum(items[1..]))
  }

  lemma {:induction false} SumConcat(a: seq<Usage>, b: seq<Usage>)
    ensures Sum(a + b) == Add(Sum(a), Sum(b))
    decreases |a|
  {
    hide Add;
    if a == [] {
      assert a + b == b;
      AddNothing(Sum(b));
    } else {
      assert (a + b)[1..] == a[1..] + b;
      SumConcat(a[1..], b);
      AddAssociates(a[0], Sum(a[1..]), Sum(b));
    }
  }

  method SumUsage(items: seq<Usage>) returns (result: Usage)
    ensures result == Sum(items)
  {
    result := NO_USAGE;
    for k := 0 to |items|
      invariant result == Sum(items[..k])
    {
      var usage := items[k];
      result := Usage(result.input + usage.input, result.cachedInput + usage.cachedInput, result.cacheWriteInput + usage.cacheWriteInput,
                      result.output + usage.output, result.reasoningOutput + usage.reasoningOutput, result.total + usage.total);
      SumConcat(items[..k], [usage]);
      assert items[..k + 1] == items[..k] + [usage];
    }
    assert items[..|items|] == items;
  }

  // ----- measurements -----

  datatype Status = Complete | Partial | Unavailable | NotApplicable

  /** Why a counter is missing; several reasons are joined into one text. */
  datatype Reason =
    | NoApplicablePhase | NoExactCounters | ThreadIdMissing | SessionUnavailable | BoundaryNotCaptured | InvalidCounters
    | SharedSession | VerificationUnbounded | VerificationMissing | VerificationNotReached | PhaseNotRequired | PhaseMissing
    | StoppedBefore | SegmentUnavailable
    | Joined(reasons: set<Reason>)

  datatype Measurement = Measurement(status: Status, usage: Option<Usage>, keys: set<PhaseKey>, missing: set<Reason>)

  function UnavailableFor(reason: Reason, keys: set<PhaseKey>): Measurement {
    Measurement(Unavailable, None, keys, {reason})
  }

  function Exact(usage: Usage, keys: set<PhaseKey>): Measurement {
    Measurement(Complete, Some(usage), keys, {})
  }

  function NotApplicableFor(reason: Reason): Measurement {
    Measurement(NotApplicable, None, {}, {reason})
  }

  /** What the constructors and combination itself produce: usage comes with the statuses that claim
      it, and every gap has a reason. */
  predicate WellFormed(m: Measurement) {
    && "" !in m.keys
    && match m.status
       case Complete => m.usage.Some? && m.missing == {}
       case Partial => m.usage.Some? && m.missing != {}
       case Unavailable => m.usage.None? && m.missing != {}
       case NotApplicable => m.usage.None? && m.keys == {}
  }

  predicate AllWellFormed(ms: seq<Measurement>) {
    forall k :: 0 <= k < |ms| ==> WellFormed(ms[k])
  }

  predicate Measured(m: Measurement) {
    (m.status.Complete? || m.status.Partial?) && m.usage.Some?
  }

  /** The usage a measurement contributes to a sum. */
  function UsageOf(m: Measurement): Usage {
    if Measured(m) then m.usage.value else NO_USAGE
  }

  function ExactUsages(ms: seq<Measurement>): seq<Usage> {
    if ms == [] then []
    else (if Measured(ms[0]) then [ms[0].usage.value] else []) + ExactUsages(ms[1..])
  }

  function MissingReasons(ms: seq<Measurement>): set<Reason> {
    set m, r | m in ms && (m.status.Partial? || m.status.Unavailable?) && r in m.missing :: r
  }

  function PhaseKeys(ms: seq<Measurement>): set<PhaseKey> {
    set m, k | m in ms && k in m.keys && k != "" :: k
  }

  predicate NoneApplies(ms: seq<Measurement>) {
    forall m :: m in ms ==> m.status.NotApplicable?
  }

  function Combine(ms: seq<Measurement>): Measurement {
    if NoneApplies(ms) then NotApplicableFor(NoApplicablePhase)
    else if ExactUsages(ms) != [] then
      Measurement(if MissingReasons(ms) != {} then Partial else Complete, Some(Sum(ExactUsages(ms))), PhaseKeys(ms), MissingReasons(ms))
    else
      UnavailableFor(if MissingReasons(ms) != {} then Joined(MissingReasons(ms)) else NoExactCounters, PhaseKeys(ms))
  }

  /** The part of a measurement that reports show: everything but the wording of its gaps. */
  predicate Same(a: Measurement, b: Measurement) {
    a.status == b.status && a.usage == b.usage && a.keys == b.keys
  }

  // ----- what combining amounts to -----

  predicate AnyMeasured(ms: seq<Measurement>) {
    exists m :: m in ms && Measured(m)
  }

  predicate AnyMissing(ms: seq<Measurement>) {
    exists m :: m in ms && (m.status.Partial? || m.status.Unavailable?)
  }

  function Total(ms: seq<Measurement>): Usage {
    if ms == [] then NO_USAGE else Add(UsageOf(ms[0]), Total(ms[1..]))
  }

  lemma {:induction false} ExactUsagesSum(ms: seq<Measurement>)
    ensures Sum(ExactUsages(ms)) == Total(ms)
    ensures ExactUsages(ms) != [] <==> AnyMeasured(ms)
    decreases |ms|
  {
    hide Add;
    if ms != [] {
      ExactUsagesSum(ms[1..]);
      AddNothing(Total(ms[1..]));
      if Measured(ms[0]) {
        assert ExactUsages(ms)[1..] == ExactUsages(ms[1..]);
        assert ms[0] in ms;
      } else {
        assert ExactUsages(ms) == ExactUsages(ms[1..]);
      }
      assert AnyMeasured(ms[1..]) ==> AnyMeasured(ms);
      if AnyMeasured(ms) {
        var m :| m in ms && Measured(m);
        if m != ms[0] { assert m in ms[1..]; }
      }
    } else {
      assert ExactUsages(ms) == [];
    }
  }

  /** The combined status, usage and keys, each said on its own. */
  lemma CombineIs(ms: seq<Measurement>)
    requires AllWellFormed(ms)
    ensures Combine(ms).status == (if NoneApplies(ms) then NotApplicable
                                   else if !AnyMeasured(ms) then Unavailable
                                   else if AnyMissing(ms) then Partial else Complete)
    ensures Combine(ms).usage == (if AnyMeasured(ms) then Some(Total(ms)) else None)
    ensures Combine(ms).keys == PhaseKeys(ms)
    ensures WellFormed(Combine(ms))
  {
    ExactUsagesSum(ms);
    assert AnyMissing(ms) <==> MissingReasons(ms) != {} by {
      if AnyMissing(ms) {
        var m :| m in ms && (m.status.Partial? || m.status.Unavailable?);
        assert WellFormed(m);
        var r :| r in m.missing;
        assert r in MissingReasons(ms);
      }
    }
    if AnyMeasured(ms) { assert !NoneApplies(ms); }
    if NoneApplies(ms) {
      forall m | m in ms ensures m.keys == {} { assert WellFormed(m); }
      assert PhaseKeys(ms) == {};
    }
  }

  /** Combining never changes how much was used. */
  lemma CombineKeepsUsage(ms: seq<Measurement>)
    requires AllWellFormed(ms)
    ensures UsageOf(Combine(ms)) == Total(ms)
  {
    CombineIs(ms);
    NothingMeasured(ms);
  }

  lemma {:induction false} NothingMeasured(ms: seq<Measurement>)
    ensures !AnyMeasured(ms) ==> Total(ms) == NO_USAGE
    decreases |ms|
  {
    hide Add;
    if ms != [] && !AnyMeasured(ms) {
      assert ms[0] in ms;
      NothingMeasured(ms[1..]);
      AddNothing(NO_USAGE);
    }
  }

  lemma {:induction false} TotalConcat(a: seq<Measurement>, b: seq<Measurement>)
    ensures Total(a + b) == Add(Total(a), Total(b))
    decreases |a|
  {
    hide Add, UsageOf;
    if a == [] {
      assert a + b == b;
      AddNothing(Total(b));
    } else {
      assert (a + b)[1..] == a[1..] + b;
      TotalConcat(a[1..], b);
      AddAssociates(UsageOf(a[0]), Total(a[1..]), Total(b));
    }
  }

  // ----- the algebra -----

  /** Combining respects concatenation: parts may be combined first. */
  lemma CombineConcat(a: seq<Measurement>, b: seq<Measurement>)
    requires AllWellFormed(a) && AllWellFormed(b)
    ensures AllWellFormed(a + b) && AllWellFormed([Combine(a), Combine(b)])
    ensures Same(Combine(a + b), Combine([Combine(a), Combine(b)]))
  {
    hide Combine, Add;
    var x, y := Combine(a), Combine(b);
    CombineIs(a);
    CombineIs(b);
    CombineIs(a + b);
    CombineIs([x, y]);
    TotalConcat(a, b);
    TotalOfTwo(x, y);
    CombineKeepsUsage(a);
    CombineKeepsUsage(b);
    assert x in [x, y] && y in [x, y];
    KeysConcat(a, b);
    assert PhaseKeys([x, y]) == x.keys + y.keys by { assert "" !in x.keys && "" !in y.keys; }
    assert NoneApplies(a + b) <==> NoneApplies(a) && NoneApplies(b);
    AnyConcat(a, b);
  }

  lemma TotalOfTwo(x: Measurement, y: Measurement)
    ensures Total([x, y]) == Add(UsageOf(x), UsageOf(y))
  {
    hide Add;
    assert [x, y][1..] == [y] && [y][1..] == [];
    AddNothing(UsageOf(y));
    assert Total([y]) == UsageOf(y);
  }

  lemma KeysConcat(a: seq<Measurement>, b: seq<Measurement>)
    ensures PhaseKeys(a + b) == PhaseKeys(a) + PhaseKeys(b)
  {
  }

  lemma AnyConcat(a: seq<Measurement>, b: seq<Measurement>)
    ensures AnyMeasured(a + b) <==> AnyMeasured(a) || AnyMeasured(b)
    ensures AnyMissing(a + b) <==> AnyMissing(a) || AnyMissing(b)
  {
    forall m | m in a || m in b ensures m in a + b {}
  }

  lemma AddCommutes(a: Usage, b: Usage)
    ensures Add(a, b) == Add(b, a)
  {
  }

  lemma RemoveOne<T>(a: seq<T>, b: seq<T>, i: nat)
    requires a != [] && i < |b| && b[i] == a[0] && multiset(a) == multiset(b)
    ensures multiset(a[1..]) == multiset(b[..i] + b[i + 1..])
  {
    assert a == [a[0]] + a[1..];
    assert b == b[..i] + ([b[i]] + b[i + 1..]);
    assert multiset(a) == multiset{a[0]} + multiset(a[1..]);
    assert multiset(b) == multiset(b[..i]) + (multiset{b[i]} + multiset(b[i + 1..]));
    assert multiset(b) - multiset{b[i]} == multiset(b[..i]) + multiset(b[i + 1..]);
    assert multiset(a) - multiset{a[0]} == multiset(a[1..]);
  }

  lemma {:induction false} TotalPermuted(a: seq<Measurement>, b: seq<Measurement>)
    requires multiset(a) == multiset(b)
    ensures Total(a) == Total(b)
    decreases |a|
  {
    hide Add, UsageOf;
    if a == [] {
      assert |multiset(b)| == 0;
    } else {
      assert a[0] in multiset(a);
      var i :| 0 <= i < |b| && b[i] == a[0];
      var rest := b[..i] + b[i + 1..];
      assert b == b[..i] + ([b[i]] + b[i + 1..]);
      RemoveOne(a, b, i);
      TotalPermuted(a[1..], rest);
      TotalConcat(b[..i], b[i + 1..]);
      TotalConcat(b[..i], [b[i]] + b[i + 1..]);
      assert ([b[i]] + b[i + 1..])[1..] == b[i + 1..];
      AddAssociates(UsageOf(b[i]), Total(b[..i]), Total(b[i + 1..]));
      AddAssociates(Total(b[..i]), UsageOf(b[i]), Total(b[i + 1..]));
      AddCommutes(Total(b[..i]), UsageOf(b[i]));
    }
  }

  /** The order of measurements does not matter. */
  lemma CombinePermuted(a: seq<Measurement>, b: seq<Measurement>)
    requires AllWellFormed(a) && multiset(a) == multiset(b)
    ensures AllWellFormed(b) && Same(Combine(a), Combine(b))
  {
    hide Combine, Add, WellFormed;
    SameMembers(a, b);
    forall k | 0 <= k < |b| ensures WellFormed(b[k]) { assert b[k] in a; }
    TotalPermuted(a, b);
    CombineIs(a);
    CombineIs(b);
    assert PhaseKeys(a) == PhaseKeys(b);
  }

  lemma SameMembers<T>(a: seq<T>, b: seq<T>)
    requires multiset(a) == multiset(b)
    ensures forall x :: x in a <==> x in b
  {
    forall x ensures x in a <==> x in b {
      assert x in a <==> x in multiset(a);
      assert x in b <==> x in multiset(b);
    }
  }

  // ----- parts of a list, combined one by one -----

  function Flat(parts: seq<seq<Measurement>>): seq<Measurement> {
    if parts == [] then [] else parts[0] + Flat(parts[1..])
  }

  function CombineEach(parts: seq<seq<Measurement>>): seq<Measurement> {
    if parts == [] then [] else [Combine(parts[0])] + CombineEach(parts[1..])
  }

  lemma SameIsEnough(a: Measurement, b: Measurement, c: Measurement)
    requires WellFormed(a) && WellFormed(b) && WellFormed(c) && Same(b, c)
    ensures Same(Combine([a, b]), Combine([a, c]))
  {
    hide Combine, Add;
    CombineIs([a, b]);
    CombineIs([a, c]);
    TotalOfTwo(a, b);
    TotalOfTwo(a, c);
    assert a in [a, b] && b in [a, b] && a in [a, c] && c in [a, c];
  }

  /** Combining the combined parts of a list is combining the whole list. */
  lemma {:induction false} CombineParts(parts: seq<seq<Measurement>>)
    requires forall k :: 0 <= k < |parts| ==> AllWellFormed(parts[k])
    ensures AllWellFormed(Flat(parts)) && AllWellFormed(CombineEach(parts))
    ensures Same(Combine(CombineEach(parts)), Combine(Flat(parts)))
    decreases |parts|
  {
    hide Combine, Add, WellFormed;
    if parts != [] {
      var first, rest := parts[0], parts[1..];
      CombineParts(rest);
      CombineIs(first);
      CombineIs(Flat(rest));
      CombineIs(CombineEach(rest));
      CombineConcat(first, Flat(rest));
      CombineOne(Combine(first));
      CombineConcat([Combine(first)], CombineEach(rest));
      SameIsEnough(Combine(first), Combine(CombineEach(rest)), Combine(Flat(rest)));
      SameFirst(Combine([Combine(first)]), Combine(first), Combine(CombineEach(rest)));
    }
  }

  lemma CombineOne(m: Measurement)
    requires WellFormed(m)
    ensures WellFormed(Combine([m])) && Same(Combine([m]), m)
  {
    hide Add;
    CombineIs([m]);
    assert m in [m];
    assert [m][1..] == [];
    assert Total([m]) == Add(UsageOf(m), NO_USAGE);
    AddNothing(UsageOf(m));
    assert PhaseKeys([m]) == m.keys;
  }

  lemma SameFirst(a: Measurement, b: Measurement, c: Measurement)
    requires WellFormed(a) && WellFormed(b) && WellFormed(c) && Same(a, b)
    ensures Same(Combine([a, c]), Combine([b, c]))
  {
    hide Combine, Add;
    CombineIs([a, c]);
    CombineIs([b, c]);
    TotalOfTwo(a, c);
    TotalOfTwo(b, c);
    assert a in [a, c] && c in [a, c] && b in [b, c] && c in [b, c];
  }
}