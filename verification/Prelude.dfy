/** Names and small types shared by every component of the model. */
module Prelude {

  type TicketId = string
  type PhaseKey = string
  type GateId = string
  type SlotId = string

  /** Commits and the identifiers that are only ever compared for equality: threads, leases,
      feedback windows and snapshots. */
  type Commit = nat
  type Reference = nat

  datatype Option<+T> = None | Some(value: T)

  /** True iff `a` comes strictly before `b` in the code-point order of Python strings.
      Manifests are written with sorted keys, so this is the order in which a reloaded
      dictionary is walked. */
  predicate Before(a: string, b: string) {
    if b == [] then false
    else if a == [] then true
    else a[0] < b[0] || (a[0] == b[0] && Before(a[1..], b[1..]))
  }

  /** No value occurs twice. */
  ghost predicate Distinct<T>(s: seq<T>) {
    forall i, j :: 0 <= i < j < |s| ==> s[i] != s[j]
  }

  /** The values occurring in a sequence. */
  function Elements<T>(s: seq<T>): set<T> {
    set x | x in s
  }

  lemma {:induction false} CountDistinct<T>(s: seq<T>)
    ensures |Elements(s)| <= |s|
    ensures Distinct(s) ==> |Elements(s)| == |s|
    decreases |s|
  {
    if s == [] {
      assert Elements(s) == {};
    } else {
      CountDistinct(s[1..]);
      assert Elements(s) == {s[0]} + Elements(s[1..]);
      if Distinct(s) {
        forall k | 0 <= k < |s[1..]| ensures s[1..][k] != s[0] { assert s[k + 1] != s[0]; }
      }
    }
  }

  lemma {:induction false} Within<T>(a: set<T>, b: set<T>)
    requires a <= b
    ensures |a| <= |b|
    decreases a
  {
    if a != {} {
      var x :| x in a;
      Within(a - {x}, b - {x});
    }
  }
}
