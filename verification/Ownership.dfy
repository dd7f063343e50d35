/** Who orchestrates a run: the lease, its controlled hand-off and the hand-off history
    (`claim`, `prepare_handoff`, `accept_handoff` and `cancel_handoff`). */
module Ownership {
  import opened Prelude

  type Time = nat
  type Token = nat

  datatype Lease = Lease(owner: string, expires: Time)

  datatype Handoff = Handoff(from: string, token: Token, expires: Time)

  datatype Transfer = Transfer(from: string, to: string)

  datatype State = State(lease: Option<Lease>, pending: Option<Handoff>, history: seq<Transfer>)

  // ----- thread identifiers -----

  predicate IsSpace(c: char) {
    c == ' ' || c == '\t' || c == '\n' || c == '\r'
  }

  function StripLeft(s: string): string {
    if s != [] && IsSpace(s[0]) then StripLeft(s[1..]) else s
  }

  function StripRight(s: string): string {
    if s != [] && IsSpace(s[|s| - 1]) then StripRight(s[..|s| - 1]) else s
  }

  function Strip(s: string): string {
    StripRight(StripLeft(s))
  }

  function Lower(s: string): string {
    if s == [] then []
    else [if 'A' <= s[0] <= 'Z' then s[0] - 'A' + 'a' else s[0]] + Lower(s[1..])
  }

  /** The owner that a lease for this thread names, unless the identifier is an agent path. */
  function VisibleThread(raw: string): Option<string> {
    var value := Strip(raw);
    if value == "" || value[0] == '/' || value[0] == '\\' || Lower(value) == "root" || Lower(value) == "agent" || Lower(value) == "orchestrator"
    then None else Some(value)
  }

  predicate Normalized(raw: string) {
    Strip(raw) == raw
  }

  // ----- the operations -----

  datatype Operation =
    | Claim(thread: string, takeover: bool, authorized: bool, now: Time, minutes: nat)
    | PrepareHandoff(from: string, token: Token, now: Time, minutes: nat)
    | AcceptHandoff(to: string, token: Token, now: Time, minutes: nat)
    | CancelHandoff(from: string, token: Token)

  function Owner(s: State): Option<string> {
    if s.lease.Some? then Some(s.lease.value.owner) else None
  }

  predicate Expired(lease: Option<Lease>, now: Time) {
    lease.None? || lease.value.expires <= now
  }

  /** The state after an operation, or `None` when it is refused and nothing is saved. */
  function Perform(s: State, o: Operation): Option<State> {
    match o
    case Claim(thread, takeover, authorized, now, minutes) =>
      if s.pending.Some? then None
      else if s.lease.Some? && s.lease.value.owner != thread && !Expired(s.lease, now) && !takeover then None
      else if takeover && !authorized then None
      else
        var visible := VisibleThread(thread);
        if visible.None? then None
        else
          var moved := s.lease.Some? && s.lease.value.owner != thread;
          Some(s.(lease := Some(Lease(visible.value, now + minutes)),
                  history := if moved then s.history + [Transfer(s.lease.value.owner, thread)] else s.history))
    case PrepareHandoff(from, token, now, minutes) =>
      if Owner(s) != Some(from) || s.pending.Some? then None
      else Some(s.(pending := Some(Handoff(from, token, now + minutes))))
    case AcceptHandoff(to, token, now, minutes) =>
      if s.pending.None? || s.pending.value.expires <= now || s.pending.value.token != token || s.pending.value.from == to then None
      else
        var visible := VisibleThread(to);
        if visible.None? then None
        else Some(State(Some(Lease(visible.value, now + minutes)), None, s.history + [Transfer(s.pending.value.from, to)]))
    case CancelHandoff(from, token) =>
      if s.pending.None? || s.pending.value.from != from || s.pending.value.token != token then None
      else Some(s.(pending := None))
  }

  /** A sequence of operations; refused ones change nothing. */
  function Run(s: State, operations: seq<Operation>): State
    decreases |operations|
  {
    if operations == [] then s
    else
      var next := Perform(s, operations[0]);
      Run(if next.Some? then next.value else s, operations[1..])
  }

  // ----- the chain of owners -----

  /** `history` is a path without self-loops that leads from `first` to the current owner. */
  ghost predicate Chain(first: string, s: State) {
    && s.lease.Some?
    && (forall k :: 0 <= k < |s.history| ==> s.history[k].from != s.history[k].to)
    && (forall k :: 0 <= k < |s.history| - 1 ==> s.history[k].to == s.history[k + 1].from)
    && (s.history == [] ==> s.lease.value.owner == first)
    && (s.history != [] ==> s.history[0].from == first && s.history[|s.history| - 1].to == s.lease.value.owner)
  }

  /** The owner is stored normalized, and a prepared hand-off is the owner's. */
  ghost predicate Sound(s: State) {
    && (s.lease.Some? ==> Normalized(s.lease.value.owner))
    && (s.pending.Some? ==> Owner(s) == Some(s.pending.value.from))
  }

  /** The thread that an operation makes the owner, as the caller wrote it. */
  function NewOwner(o: Operation): Option<string> {
    match o
    case Claim(thread, _, _, _, _) => Some(thread)
    case AcceptHandoff(to, _, _, _) => Some(to)
    case _ => None
  }

  lemma {:induction false} StripLeftStarts(s: string)
    ensures StripLeft(s) == [] || !IsSpace(StripLeft(s)[0])
    decreases |s|
  {
    if s != [] && IsSpace(s[0]) { StripLeftStarts(s[1..]); }
  }

  lemma {:induction false} StripRightKeepsStart(s: string)
    requires s == [] || !IsSpace(s[0])
    ensures StripRight(s) == [] || (StripRight(s)[0] == s[0] && !IsSpace(StripRight(s)[|StripRight(s)| - 1]))
    decreases |s|
  {
    if s != [] && IsSpace(s[|s| - 1]) { StripRightKeepsStart(s[..|s| - 1]); }
  }

  lemma StrippedIsNormalized(s: string)
    ensures Normalized(Strip(s))
  {
    StripLeftStarts(s);
    StripRightKeepsStart(StripLeft(s));
  }

  lemma SoundStaysSound(s: State, o: Operation)
    requires Sound(s) && Perform(s, o).Some?
    ensures Sound(Perform(s, o).value)
  {
    if NewOwner(o).Some? { StrippedIsNormalized(NewOwner(o).value); }
  }

  lemma ExtendedChain(first: string, s: State, n: State, to: string)
    requires Chain(first, s) && n.lease.Some? && s.lease.value.owner != to
    requires n.history == s.history + [Transfer(s.lease.value.owner, to)]
    ensures Chain(first, n) <==> n.lease.value.owner == to
  {
    var k := |s.history|;
    assert n.history[k] == Transfer(s.lease.value.owner, to);
    assert forall i :: 0 <= i < k ==> n.history[i] == s.history[i];
    if n.lease.value.owner == to {
      forall i | 0 <= i < |n.history| - 1 ensures n.history[i].to == n.history[i + 1].from {
        if i == k - 1 { assert s.history[k - 1].to == s.lease.value.owner; }
      }
    }
  }

  /** An accepted operation keeps the chain exactly when the identifier it makes owner is
      normalized: the lease stores the stripped identifier and the history the one written. */
  lemma ChainIsKeptExactly(first: string, s: State, o: Operation)
    requires Sound(s) && Chain(first, s) && Perform(s, o).Some?
    ensures Chain(first, Perform(s, o).value) <==> NewOwner(o).None? || Normalized(NewOwner(o).value)
  {
    hide Strip, Lower;
    var n := Perform(s, o).value;
    if NewOwner(o).Some? && n.history != s.history {
      ExtendedChain(first, s, n, NewOwner(o).value);
    }
  }

  lemma {:induction false} OwnersFormAChain(first: string, s: State, operations: seq<Operation>)
    requires Sound(s) && Chain(first, s)
    requires forall k :: 0 <= k < |operations| && NewOwner(operations[k]).Some? ==> Normalized(NewOwner(operations[k]).value)
    ensures Sound(Run(s, operations)) && Chain(first, Run(s, operations))
    decreases |operations|
  {
    hide Sound, Chain, Perform, Normalized, NewOwner;
    if operations != [] {
      var next := Perform(s, operations[0]);
      if next.Some? {
        SoundStaysSound(s, operations[0]);
        ChainIsKeptExactly(first, s, operations[0]);
        OwnersFormAChain(first, next.value, operations[1..]);
      } else {
        OwnersFormAChain(first, s, operations[1..]);
      }
    }
  }

  /** While a hand-off is prepared, only accepting it changes the owner, and the transfer that is
      recorded is from the owner who prepared it. */
  lemma PreparedMeansOnlyAcceptance(s: State, o: Operation)
    requires Sound(s) && s.pending.Some? && Perform(s, o).Some?
    ensures var n := Perform(s, o).value;
            && (o.AcceptHandoff? || o.CancelHandoff?)
            && (Owner(n) != Owner(s) || n.history != s.history ==> o.AcceptHandoff? && o.token == s.pending.value.token)
            && (o.AcceptHandoff? ==> n.history == s.history + [Transfer(Owner(s).value, o.to)])
  {
  }

  // ----- tokens -----

  predicate Accepts(s: State, o: Operation, token: Token) {
    o.AcceptHandoff? && o.token == token && Perform(s, o).Some?
  }

  /** How often a token is accepted in a run. */
  function Acceptances(s: State, operations: seq<Operation>, token: Token): nat
    decreases |operations|
  {
    if operations == [] then 0
    else
      var next := Perform(s, operations[0]);
      (if Accepts(s, operations[0], token) then 1 else 0) + Acceptances(if next.Some? then next.value else s, operations[1..], token)
  }

  function Preparations(operations: seq<Operation>, token: Token): nat
    decreases |operations|
  {
    if operations == [] then 0
    else (if operations[0].PrepareHandoff? && operations[0].token == token then 1 else 0) + Preparations(operations[1..], token)
  }

  /** A token is accepted at most as often as it was prepared; tokens being drawn once, at most once. */
  lemma {:induction false} TokensAreSingleUse(s: State, operations: seq<Operation>, token: Token)
    ensures Acceptances(s, operations, token)
         <= Preparations(operations, token) + if s.pending.Some? && s.pending.value.token == token then 1 else 0
    decreases |operations|
  {
    hide VisibleThread;
    if operations != [] {
      var next := Perform(s, operations[0]);
      TokensAreSingleUse(if next.Some? then next.value else s, operations[1..], token);
    }
  }

  // ----- the operations in place -----

  /** The stored run state: a refused operation raises before it saves. */
  class RunFile {
    var lease: Option<Lease>
    var pending: Option<Handoff>
    var history: seq<Transfer>

    constructor (owner: string, now: Time, minutes: nat)
      requires VisibleThread(owner).Some?
      ensures Stored() == State(Some(Lease(Strip(owner), now + minutes)), None, [])
      ensures Sound(Stored()) && Chain(Strip(owner), Stored())
    {
      lease, pending, history := Some(Lease(Strip(owner), now + minutes)), None, [];
      new;
      StrippedIsNormalized(owner);
    }

    function Stored(): State
      reads this
    {
      State(lease, pending, history)
    }

    method ClaimRun(thread: string, takeover: bool, authorized: bool, now: Time, minutes: nat) returns (ok: bool)
      modifies this
      ensures var next := Perform(old(Stored()), Claim(thread, takeover, authorized, now, minutes));
              ok == next.Some? && Stored() == if ok then next.value else old(Stored())
    {
      hide Strip, Lower;
      if pending.Some? { return false; }
      var owned := lease.Some? && lease.value.owner != thread;
      if owned && !Expired(lease, now) && !takeover { return false; }
      if takeover && !authorized { return false; }
      var visible := VisibleThread(thread);
      if visible.None? { return false; }
      if owned { history := history + [Transfer(lease.value.owner, thread)]; }
      lease := Some(Lease(visible.value, now + minutes));
      return true;
    }

    method Prepare(from: string, token: Token, now: Time, minutes: nat) returns (ok: bool)
      modifies `pending
      ensures var next := Perform(old(Stored()), PrepareHandoff(from, token, now, minutes));
              ok == next.Some? && Stored() == if ok then next.value else old(Stored())
    {
      if lease.None? || lease.value.owner != from || pending.Some? { return false; }
      pending := Some(Handoff(from, token, now + minutes));
      return true;
    }

    method Accept(to: string, token: Token, now: Time, minutes: nat) returns (ok: bool)
      modifies this
      ensures var next := Perform(old(Stored()), AcceptHandoff(to, token, now, minutes));
              ok == next.Some? && Stored() == if ok then next.value else old(Stored())
    {
      hide Strip, Lower;
      if pending.None? || pending.value.expires <= now || pending.value.token != token || pending.value.from == to { return false; }
      var visible := VisibleThread(to);
      if visible.None? { return false; }
      history := history + [Transfer(pending.value.from, to)];
      lease := Some(Lease(visible.value, now + minutes));
      pending := None;
      return true;
    }

    method Cancel(from: string, token: Token) returns (ok: bool)
      modifies `pending
      ensures var next := Perform(old(Stored()), CancelHandoff(from, token));
              ok == next.Some? && Stored() == if ok then next.value else old(Stored())
    {
      if pending.None? || pending.value.from != from || pending.value.token != token { return false; }
      pending := None;
      return true;
    }
  }
}
