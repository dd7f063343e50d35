/** Finding every session that a manifest mentions (`collect_manifest_session_records`): the search
    walks the whole document, and misses no object that names a thread. */
module SessionRecords {
  import opened Prelude
  import U = UsageMatrix
  import S = SingleCharge

  /** A JSON value; a scalar only matters for being true or false as a condition. */
  datatype Json =
    | Text(value: string)
    | Object(fields: seq<(string, Json)>)
    | Array(items: seq<Json>)
    | Scalar(truthy: bool)

  datatype Record = Record(thread: string, phase: PhaseKey, title: string)

  // ----- reading one object -----

  predicate Truthy(v: Json) {
    match v
    case Text(s) => s != ""
    case Object(fields) => fields != []
    case Array(items) => items != []
    case Scalar(truthy) => truthy
  }

  function Get(fields: seq<(string, Json)>, key: string): Json {
    if fields == [] then Scalar(false)
    else if fields[0].0 == key then fields[0].1
    else Get(fields[1..], key)
  }

  /** The first of these fields that is true as a condition. */
  function FirstTrue(fields: seq<(string, Json)>, keys: seq<string>): Json {
    if keys == [] then Scalar(false)
    else if Truthy(Get(fields, keys[0])) then Get(fields, keys[0])
    else FirstTrue(fields, keys[1..])
  }

  predicate IsAlnum(c: char) {
    'A' <= c <= 'Z' || 'a' <= c <= 'z' || '0' <= c <= '9'
  }

  predicate IsThreadId(s: string) {
    && 6 <= |s| <= 128 && IsAlnum(s[0])
    && forall k :: 1 <= k < |s| ==> IsAlnum(s[k]) || s[k] == '.' || s[k] == '_' || s[k] == '-'
  }

  /** A field used as text; other values that are not empty read as one fixed text. */
  function Shown(v: Json): string {
    if !Truthy(v) then "" else if v.Text? then v.value else "?"
  }

  predicate NamesThread(v: Json) {
    v.Object? && FirstTrue(v.fields, ["thread_id", "threadId"]).Text? && IsThreadId(FirstTrue(v.fields, ["thread_id", "threadId"]).value)
  }

  function RecordOf(v: Json): Record
    requires NamesThread(v)
  {
    var thread := FirstTrue(v.fields, ["thread_id", "threadId"]).value;
    var phase := Shown(FirstTrue(v.fields, ["phase_key", "phaseKey"]));
    var title := Shown(FirstTrue(v.fields, ["label", "phase", "display_title"]));
    Record(thread, phase, if title != "" then title else if phase != "" then phase else thread)
  }

  // ----- what the search should find -----

  function Children(v: Json): (r: seq<Json>)
    ensures forall k :: 0 <= k < |r| ==> r[k] < v
  {
    match v
    case Object(fields) =>
      assert forall k :: 0 <= k < |fields| ==> fields[k].1 < fields[k];
      seq(|fields|, k requires 0 <= k < |fields| => fields[k].1)
    case Array(items) => items
    case _ => []
  }

  /** `n` is `v` or lies somewhere inside it. */
  ghost predicate Inside(n: Json, v: Json)
    decreases v
  {
    n == v || exists k :: 0 <= k < |Children(v)| && Inside(n, Children(v)[k])
  }

  function Own(v: Json): set<Record> {
    if NamesThread(v) then {RecordOf(v)} else {}
  }

  function RecordsIn(v: Json): set<Record>
    decreases v, 1
  {
    Own(v) + RecordsInFirst(v, |Children(v)|)
  }

  /** The records in the first `n` children. */
  function RecordsInFirst(v: Json, n: nat): set<Record>
    requires n <= |Children(v)|
    decreases v, 0, n
  {
    if n == 0 then {} else RecordsInFirst(v, n - 1) + RecordsIn(Children(v)[n - 1])
  }

  ghost predicate Mentions(v: Json, n: Json, r: Record) {
    Inside(n, v) && NamesThread(n) && RecordOf(n) == r
  }

  lemma {:induction false} FirstRecordsAreThere(v: Json, n: nat, k: nat)
    requires k < n <= |Children(v)|
    ensures RecordsIn(Children(v)[k]) <= RecordsInFirst(v, n)
    decreases n
  {
    if k < n - 1 { FirstRecordsAreThere(v, n - 1, k); }
  }

  lemma {:induction false} NothingIsMissed(v: Json, n: Json)
    requires Inside(n, v) && NamesThread(n)
    ensures RecordOf(n) in RecordsIn(v)
    decreases v
  {
    if n != v {
      var k :| 0 <= k < |Children(v)| && Inside(n, Children(v)[k]);
      NothingIsMissed(Children(v)[k], n);
      FirstRecordsAreThere(v, |Children(v)|, k);
    }
  }

  lemma {:induction false} NothingIsInvented(v: Json, r: Record) returns (n: Json)
    requires r in RecordsIn(v)
    ensures Mentions(v, n, r)
    decreases v, 1
  {
    if r in Own(v) {
      n := v;
    } else {
      n := NothingIsInventedFirst(v, |Children(v)|, r);
    }
  }

  lemma {:induction false} NothingIsInventedFirst(v: Json, m: nat, r: Record) returns (n: Json)
    requires m <= |Children(v)| && r in RecordsInFirst(v, m)
    ensures Mentions(v, n, r)
    decreases v, 0, m
  {
    if r in RecordsInFirst(v, m - 1) {
      n := NothingIsInventedFirst(v, m - 1, r);
    } else {
      n := NothingIsInvented(Children(v)[m - 1], r);
    }
  }

  /** The search finds a record exactly for the objects inside the document that name a thread. */
  lemma RecordsAreExact(v: Json, r: Record)
    ensures r in RecordsIn(v) <==> exists n :: Mentions(v, n, r)
  {
    if r in RecordsIn(v) { var n := NothingIsInvented(v, r); }
    if exists n :: Mentions(v, n, r) {
      var n :| Mentions(v, n, r);
      NothingIsMissed(v, n);
    }
  }

  // ----- the search in place -----

  class Search {
    var records: seq<Record>
    var seen: set<Record>

    ghost predicate Valid()
      reads this
    {
      Distinct(records) && Elements(records) == seen
    }

    constructor ()
      ensures Valid() && records == []
    {
      records, seen := [], {};
    }

    /** Every object is visited, and its record appended unless the same one was met before. */
    method Visit(v: Json)
      requires Valid()
      modifies this
      ensures Valid() && old(records) <= records && seen == old(seen) + RecordsIn(v)
      decreases v
    {
      hide NamesThread, RecordOf;
      if NamesThread(v) {
        var r := RecordOf(v);
        if r !in seen {
          seen := seen + {r};
          records := records + [r];
        }
      }
      ghost var own := seen;
      for k := 0 to |Children(v)|
        invariant Valid() && old(records) <= records && seen == own + RecordsInFirst(v, k)
      {
        Visit(Children(v)[k]);
      }
    }
  }

  method CollectRecords(manifest: Json) returns (records: seq<Record>)
    ensures Distinct(records) && Elements(records) == RecordsIn(manifest)
  {
    var search := new Search();
    search.Visit(manifest);
    return search.records;
  }

  // ----- what the ledger makes of the records -----

  /** The phases that a thread's session is known by. */
  function PhasesOf(records: set<Record>, thread: string): set<PhaseKey> {
    set r | r in records && r.thread == thread && r.phase != "" :: r.phase
  }

  /** `n` is the manifest's object for the phase. */
  predicate Describes(n: Json, p: U.Phase) {
    && n.Object? && Shown(FirstTrue(n.fields, ["phase_key", "phaseKey"])) == p.key
    && (p.thread.Some? ==> FirstTrue(n.fields, ["thread_id", "threadId"]) == Text(p.thread.value))
  }

  /** Since no object is missed, every session of the ledger names all the phases of its thread,
      which is what makes a shared session recognizable. */
  lemma LedgerKnowsItsPhases(manifest: Json, phases: seq<U.Phase>, sessions: map<string, U.Session>)
    requires forall k :: 0 <= k < |phases| ==> phases[k].key != "" && exists n :: Inside(n, manifest) && Describes(n, phases[k])
    requires forall t :: t in sessions ==> IsThreadId(t) && PhasesOf(RecordsIn(manifest), t) <= sessions[t].keys
    ensures S.SessionsKnowTheirPhases(phases, sessions)
  {
    forall k | 0 <= k < |phases| && phases[k].thread.Some? && phases[k].thread.value in sessions
      ensures phases[k].key in sessions[phases[k].thread.value].keys
    {
      var n :| Inside(n, manifest) && Describes(n, phases[k]);
      NothingIsMissed(manifest, n);
      assert RecordOf(n).phase in PhasesOf(RecordsIn(manifest), phases[k].thread.value);
    }
  }
}
