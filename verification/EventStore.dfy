/** Applying events to one stored manifest from many processes (`apply_event`, `directory_lock`
    and `save_json`).

    Any number of clients share a manifest file, its temporary file and a lock file. A client can
    die between any two of its actions, and what retries is another client; a lock left behind
    stays until somebody removes it. The
    procedure and its events are parameters, and `handle` is `None` when an event is refused.
    Digests are taken to identify payloads, so the table of applied events keeps the payload. */
module EventStore {
  import opened Prelude

  type ClientId = nat
  type EventId = string

  datatype Entry = Entry(sequence: nat, id: EventId)

  /** The stored manifest. */
  datatype Stored<S, E> = Stored(procedure: S, revision: nat, applied: map<EventId, E>, log: seq<Entry>)

  datatype Request<E> = Request(id: EventId, event: E, expected: nat)

  datatype Reply = Applied | Duplicate | Collision | RevisionConflict | HandlerRefused | LockTimeout

  type Handler<!S, !E> = (S, E) -> Option<S>

  // ----- one application, as if nobody else were there -----

  function Extend<S, E>(s: Stored<S, E>, r: Request<E>, p: S): Stored<S, E> {
    Stored(p, s.revision + 1, s.applied[r.id := r.event], s.log + [Entry(s.revision + 1, r.id)])
  }

  /** What a client that holds the lock decides to store and to answer. */
  function Answer<S, E(==)>(handle: Handler<S, E>, s: Stored<S, E>, r: Request<E>): (Stored<S, E>, Reply) {
    if r.id in s.applied then (s, if s.applied[r.id] == r.event then Duplicate else Collision)
    else if r.expected != s.revision then (s, RevisionConflict)
    else
      match handle(s.procedure, r.event)
      case None => (s, HandlerRefused)
      case Some(p) => (Extend(s, r, p), Applied)
  }

  // ----- what the stored manifest should be -----

  /** The procedure after the first `n` logged events, or `None` if one of them is refused. */
  function Fold<S, E>(handle: Handler<S, E>, initial: S, applied: map<EventId, E>, log: seq<Entry>): Option<S>
    requires forall k :: 0 <= k < |log| ==> log[k].id in applied
  {
    if log == [] then Some(initial)
    else
      var n := |log| - 1;
      match Fold(handle, initial, applied, log[..n])
      case None => None
      case Some(p) => handle(p, applied[log[n].id])
  }

  predicate Logged(log: seq<Entry>, id: EventId) {
    exists k :: 0 <= k < |log| && log[k].id == id
  }

  ghost predicate LogIsExact<S, E>(s: Stored<S, E>) {
    && |s.log| == s.revision
    && (forall k :: 0 <= k < |s.log| ==> s.log[k].sequence == k + 1 && s.log[k].id in s.applied)
    && (forall i, j :: 0 <= i < j < |s.log| ==> s.log[i].id != s.log[j].id)
    && forall id :: id in s.applied ==> Logged(s.log, id)
  }

  /** The stored procedure is the fold of the handler over the log; every event occurs in it once,
      with one payload; sequences run from 1 to the revision. */
  ghost predicate Exact<S(!new), E(!new)>(handle: Handler<S, E>, initial: S, s: Stored<S, E>) {
    LogIsExact(s) && Fold(handle, initial, s.applied, s.log) == Some(s.procedure)
  }

  /** `b` has everything `a` has logged, with the same payloads. */
  ghost predicate Continues<S(!new), E(!new)>(a: Stored<S, E>, b: Stored<S, E>) {
    a.log <= b.log && forall id :: id in a.applied ==> id in b.applied && b.applied[id] == a.applied[id]
  }

  lemma {:induction false} FoldIgnoresNewPayloads<S(!new), E(!new)>(handle: Handler<S, E>, initial: S, a: map<EventId, E>, b: map<EventId, E>, log: seq<Entry>)
    requires forall k :: 0 <= k < |log| ==> log[k].id in a && log[k].id in b && a[log[k].id] == b[log[k].id]
    ensures Fold(handle, initial, a, log) == Fold(handle, initial, b, log)
    decreases |log|
  {
    if log != [] { FoldIgnoresNewPayloads(handle, initial, a, b, log[..|log| - 1]); }
  }

  lemma StillLogged(log: seq<Entry>, e: Entry, id: EventId)
    requires Logged(log, id) || id == e.id
    ensures Logged(log + [e], id)
  {
    if id == e.id {
      assert (log + [e])[|log|].id == id;
    } else {
      var k :| 0 <= k < |log| && log[k].id == id;
      assert (log + [e])[k].id == id;
    }
  }

  lemma ExtendedLogIsExact<S(!new), E(!new)>(s: Stored<S, E>, r: Request<E>, p: S)
    requires LogIsExact(s) && r.id !in s.applied
    ensures LogIsExact(Extend(s, r, p)) && Continues(s, Extend(s, r, p))
  {
    hide Logged;
    var n := Extend(s, r, p);
    forall id | id in n.applied ensures Logged(n.log, id) {
      StillLogged(s.log, Entry(s.revision + 1, r.id), id);
    }
  }

  lemma ExtendIsExact<S(!new), E(!new)>(handle: Handler<S, E>, initial: S, s: Stored<S, E>, r: Request<E>, p: S)
    requires Exact(handle, initial, s) && r.id !in s.applied && handle(s.procedure, r.event) == Some(p)
    ensures Exact(handle, initial, Extend(s, r, p)) && Continues(s, Extend(s, r, p))
  {
    hide Continues;
    var n := Extend(s, r, p);
    ExtendedLogIsExact(s, r, p);
    FoldIgnoresNewPayloads(handle, initial, s.applied, n.applied, s.log);
    assert n.log[..|s.log|] == s.log;
  }

  // ----- many clients -----

  datatype Client<S, E> =
    | Idle
    | Waiting(r: Request<E>)
    | Locked(r: Request<E>)
    | Loaded(r: Request<E>, seen: Stored<S, E>)
    | Writing(r: Request<E>, next: Stored<S, E>)
    | Written(r: Request<E>, next: Stored<S, E>)
    | Unlocking(r: Request<E>, reply: Reply)
    | Answered(r: Request<E>, reply: Reply)
    | Crashed

  /** The temporary file: a crash while it is written leaves it torn. */
  datatype Temporary<S, E> = Absent | Torn | Whole(content: Stored<S, E>)

  datatype World<S, E> = World(file: Stored<S, E>, temporary: Temporary<S, E>, lock: Option<ClientId>, clients: map<ClientId, Client<S, E>>)

  datatype Action<E> =
    | Ask(r: Request<E>)
    | TakeLock | GiveUp | Load | Decide | StartWriting | FinishWriting | Replace | Unlock
    | Crash
    | RemoveStaleLock

  function At<S, E>(w: World<S, E>, c: ClientId): Client<S, E> {
    if c in w.clients then w.clients[c] else Idle
  }

  function Become<S, E>(w: World<S, E>, c: ClientId, x: Client<S, E>): World<S, E> {
    w.(clients := w.clients[c := x])
  }

  predicate HoldsLock<S, E>(x: Client<S, E>) {
    x.Locked? || x.Loaded? || x.Writing? || x.Written? || x.Unlocking?
  }

  /** `c` can replace the file by the temporary one. */
  predicate Commits<S, E>(w: World<S, E>, c: ClientId) {
    At(w, c).Written? && w.temporary.Whole?
  }

  /** One action of client `c`; an action that is not possible changes nothing. */
  function Act<S, E(==)>(handle: Handler<S, E>, w: World<S, E>, c: ClientId, a: Action<E>): World<S, E> {
    var x := At(w, c);
    match a
    case Ask(r) => if x.Idle? || x.Answered? then Become(w, c, Waiting(r)) else w
    case TakeLock => if x.Waiting? && w.lock.None? then Become(w.(lock := Some(c)), c, Locked(x.r)) else w
    case GiveUp => if x.Waiting? && w.lock.Some? then Become(w, c, Answered(x.r, LockTimeout)) else w
    case Load => if x.Locked? then Become(w, c, Loaded(x.r, w.file)) else w
    case Decide =>
      if !x.Loaded? then w
      else
        var (next, reply) := Answer(handle, x.seen, x.r);
        if reply.Applied? then Become(w, c, Writing(x.r, next)) else Become(w, c, Unlocking(x.r, reply))
    case StartWriting => if x.Writing? then w.(temporary := Torn) else w
    case FinishWriting => if x.Writing? then Become(w.(temporary := Whole(x.next)), c, Written(x.r, x.next)) else w
    case Replace =>
      if Commits(w, c) then Become(w.(file := w.temporary.content, temporary := Absent), c, Unlocking(x.r, Applied)) else w
    case Unlock => if x.Unlocking? then Become(w.(lock := None), c, Answered(x.r, x.reply)) else w
    case Crash => Become(w, c, Crashed)
    case RemoveStaleLock => if w.lock.Some? && At(w, w.lock.value).Crashed? then w.(lock := None) else w
  }

  function Perform<S, E(==)>(handle: Handler<S, E>, w: World<S, E>, steps: seq<(ClientId, Action<E>)>): World<S, E>
    decreases |steps|
  {
    if steps == [] then w else Perform(handle, Act(handle, w, steps[0].0, steps[0].1), steps[1..])
  }

  // ----- what holds in every world -----

  ghost predicate ClientSound<S(!new), E(!new)>(handle: Handler<S, E>, w: World<S, E>, c: ClientId)
    requires c in w.clients
  {
    var x := w.clients[c];
    && (HoldsLock(x) ==> w.lock == Some(c))
    && (x.Loaded? ==> x.seen == w.file)
    && (x.Writing? || x.Written? ==> Answer(handle, w.file, x.r) == (x.next, Applied))
    && (x.Written? ==> w.temporary == Whole(x.next))
    && ((x.Unlocking? || x.Answered?) && (x.reply.Applied? || x.reply.Duplicate?) ==> x.r.id in w.file.applied && w.file.applied[x.r.id] == x.r.event)
  }

  ghost predicate WorldSound<S(!new), E(!new)>(handle: Handler<S, E>, initial: S, w: World<S, E>) {
    Exact(handle, initial, w.file) && forall c :: c in w.clients ==> ClientSound(handle, w, c)
  }

  lemma SameFileKeeps<S(!new), E(!new)>(handle: Handler<S, E>, initial: S, w: World<S, E>, c: ClientId, a: Action<E>)
    requires WorldSound(handle, initial, w) && !a.Replace?
    ensures WorldSound(handle, initial, Act(handle, w, c, a)) && Act(handle, w, c, a).file == w.file
  {
    hide Exact;
    var n := Act(handle, w, c, a);
    forall d | d in n.clients ensures ClientSound(handle, n, d) {
      if d in w.clients { assert ClientSound(handle, w, d); }
    }
  }

  /** The file that a replacement stores is the writer's own event on top of what is stored. */
  lemma ReplacedFileIsExact<S(!new), E(!new)>(handle: Handler<S, E>, initial: S, w: World<S, E>, c: ClientId)
    requires Exact(handle, initial, w.file) && Commits(w, c) && ClientSound(handle, w, c)
    ensures var r, next := w.clients[c].r, w.clients[c].next;
            && w.temporary == Whole(next) && Answer(handle, w.file, r) == (next, Applied)
            && Exact(handle, initial, next) && Continues(w.file, next)
            && r.id in next.applied && next.applied[r.id] == r.event
  {
    hide Exact, Continues;
    var r := w.clients[c].r;
    ExtendIsExact(handle, initial, w.file, r, handle(w.file.procedure, r.event).value);
  }

  lemma OthersSurviveReplacement<S(!new), E(!new)>(handle: Handler<S, E>, w: World<S, E>, c: ClientId, d: ClientId)
    requires Commits(w, c) && ClientSound(handle, w, c) && d in w.clients && ClientSound(handle, w, d) && d != c
    requires Continues(w.file, w.temporary.content)
    ensures var n := Act(handle, w, c, Replace); d in n.clients && ClientSound(handle, n, d)
  {
    hide Answer;
  }

  lemma WriterSurvivesReplacement<S(!new), E(!new)>(handle: Handler<S, E>, w: World<S, E>, c: ClientId)
    requires Commits(w, c) && ClientSound(handle, w, c)
    requires var r, next := w.clients[c].r, w.clients[c].next; r.id in next.applied && next.applied[r.id] == r.event
    ensures var n := Act(handle, w, c, Replace); c in n.clients && ClientSound(handle, n, c)
  {
    hide Answer;
  }

  /** Replacing the file commits exactly the writer's own event, on top of what is stored. */
  lemma ReplaceKeeps<S(!new), E(!new)>(handle: Handler<S, E>, initial: S, w: World<S, E>, c: ClientId)
    requires WorldSound(handle, initial, w)
    ensures var n := Act(handle, w, c, Replace);
            && WorldSound(handle, initial, n) && Continues(w.file, n.file)
            && (Commits(w, c) ==> Answer(handle, w.file, At(w, c).r) == (n.file, Applied) && At(n, c) == Unlocking(At(w, c).r, Applied))
            && (!Commits(w, c) ==> n == w)
  {
    hide Exact, ClientSound, Answer;
    var n := Act(handle, w, c, Replace);
    if Commits(w, c) {
      ReplacedFileIsExact(handle, initial, w, c);
      WriterSurvivesReplacement(handle, w, c);
      forall d | d in n.clients ensures ClientSound(handle, n, d) {
        if d != c { OthersSurviveReplacement(handle, w, c, d); }
      }
    }
  }

  lemma ActKeeps<S(!new), E(!new)>(handle: Handler<S, E>, initial: S, w: World<S, E>, c: ClientId, a: Action<E>)
    requires WorldSound(handle, initial, w)
    ensures WorldSound(handle, initial, Act(handle, w, c, a)) && Continues(w.file, Act(handle, w, c, a).file)
  {
    hide WorldSound;
    if a.Replace? {
      ReplaceKeeps(handle, initial, w, c);
    } else {
      SameFileKeeps(handle, initial, w, c, a);
    }
  }

  lemma ContinuesTransitively<S(!new), E(!new)>(a: Stored<S, E>, b: Stored<S, E>, c: Stored<S, E>)
    requires Continues(a, b) && Continues(b, c)
    ensures Continues(a, c)
  {
  }

  // ----- main results -----

  ghost predicate Fresh<S(!new), E(!new)>(initial: S, w: World<S, E>) {
    w.file == Stored(initial, 0, map[], []) && w.lock.None? && w.clients == map[]
  }

  lemma FreshIsSound<S(!new), E(!new)>(handle: Handler<S, E>, initial: S, w: World<S, E>)
    requires Fresh(initial, w)
    ensures WorldSound(handle, initial, w)
  {
  }

  /** Under every interleaving of clients, retries, stale revisions and crashes, the file stays
      exact and only ever continues what it held. */
  lemma {:induction false} EveryWorldIsSound<S(!new), E(!new)>(handle: Handler<S, E>, initial: S, w: World<S, E>, steps: seq<(ClientId, Action<E>)>)
    requires WorldSound(handle, initial, w)
    ensures var n := Perform(handle, w, steps); WorldSound(handle, initial, n) && Continues(w.file, n.file)
    decreases |steps|
  {
    hide WorldSound, Continues, Act;
    if steps == [] {
      assert Continues(w.file, w.file) by { SameContinues(w.file); }
    } else {
      var mid := Act(handle, w, steps[0].0, steps[0].1);
      ActKeeps(handle, initial, w, steps[0].0, steps[0].1);
      EveryWorldIsSound(handle, initial, mid, steps[1..]);
      ContinuesTransitively(w.file, mid.file, Perform(handle, mid, steps[1..]).file);
    }
  }

  lemma SameContinues<S(!new), E(!new)>(s: Stored<S, E>)
    ensures Continues(s, s)
  {
  }

  /** A client told that its event was applied, now or before, finds it in the log exactly once
      and with its own payload. */
  lemma ToldMeansLoggedOnce<S(!new), E(!new)>(handle: Handler<S, E>, initial: S, w: World<S, E>, c: ClientId)
    requires WorldSound(handle, initial, w) && c in w.clients && w.clients[c].Answered?
    requires w.clients[c].reply.Applied? || w.clients[c].reply.Duplicate?
    ensures var r := w.clients[c].r;
            && r.id in w.file.applied && w.file.applied[r.id] == r.event
            && exists k :: 0 <= k < |w.file.log| && w.file.log[k] == Entry(k + 1, r.id)
                 && forall j :: 0 <= j < |w.file.log| && w.file.log[j].id == r.id ==> j == k
  {
    hide Fold;
    assert ClientSound(handle, w, c);
    var r := w.clients[c].r;
    assert Logged(w.file.log, r.id);
    var k :| 0 <= k < |w.file.log| && w.file.log[k].id == r.id;
    assert w.file.log[k] == Entry(k + 1, r.id);
  }

  /** Applying requests one after the other, as if each client had the file to itself. */
  function OneAfterTheOther<S, E(==)>(handle: Handler<S, E>, s: Stored<S, E>, rs: seq<Request<E>>): Stored<S, E>
    decreases |rs|
  {
    if rs == [] then s else OneAfterTheOther(handle, Answer(handle, s, rs[0]).0, rs[1..])
  }

  /** The requests that `steps` commit, in the order of their commits. */
  function Committed<S, E(==)>(handle: Handler<S, E>, w: World<S, E>, steps: seq<(ClientId, Action<E>)>): seq<Request<E>>
    decreases |steps|
  {
    if steps == [] then []
    else
      var (c, a) := steps[0];
      (if a.Replace? && Commits(w, c) then [At(w, c).r] else []) + Committed(handle, Act(handle, w, c, a), steps[1..])
  }

  /** Concurrent clients leave what the committed requests alone would leave one after the other:
      refused, conflicting, duplicate, timed-out and crashed requests leave no trace. */
  lemma {:induction false} ClientsAreSerializable<S(!new), E(!new)>(handle: Handler<S, E>, initial: S, w: World<S, E>, steps: seq<(ClientId, Action<E>)>)
    requires WorldSound(handle, initial, w)
    ensures Perform(handle, w, steps).file == OneAfterTheOther(handle, w.file, Committed(handle, w, steps))
    decreases |steps|
  {
    if steps != [] {
      var (c, a) := steps[0];
      var mid := Act(handle, w, c, a);
      CommitIsOneRequest(handle, initial, w, c, a);
      ClientsAreSerializable(handle, initial, mid, steps[1..]);
      var first := if a.Replace? && Commits(w, c) then [At(w, c).r] else [];
      assert Committed(handle, w, steps) == first + Committed(handle, mid, steps[1..]);
      if first != [] {
        assert (first + Committed(handle, mid, steps[1..]))[1..] == Committed(handle, mid, steps[1..]);
      } else {
        assert first + Committed(handle, mid, steps[1..]) == Committed(handle, mid, steps[1..]);
      }
    }
  }

  lemma CommitIsOneRequest<S(!new), E(!new)>(handle: Handler<S, E>, initial: S, w: World<S, E>, c: ClientId, a: Action<E>)
    requires WorldSound(handle, initial, w)
    ensures var n := Act(handle, w, c, a);
            WorldSound(handle, initial, n)
            && n.file == if a.Replace? && Commits(w, c) then Answer(handle, w.file, At(w, c).r).0 else w.file
  {
    hide WorldSound;
    ActKeeps(handle, initial, w, c, a);
    if a.Replace? {
      ReplaceKeeps(handle, initial, w, c);
    } else {
      SameFileKeeps(handle, initial, w, c, a);
    }
  }
}
