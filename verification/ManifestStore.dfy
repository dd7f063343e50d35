/** The stored run manifest: concurrent application of controller events, and what it inherits
    from the controller's own invariants. */
module ManifestStore {
  import opened Prelude
  import opened Manifest
  import opened Events
  import opened EventStore
  import opened Controller
  import Runs
  import Progress

  function HandleEvent(m: Manifest, e: Event): Option<Manifest> {
    var o := Step(m, e);
    if o.Accepted? then Some(o.m) else None
  }

  /** One application in place: load, handle, and save the whole manifest only when every check
      has passed. A refused event leaves the stored manifest as it was. */
  class ManifestFile {
    var stored: Stored<Manifest, Event>

    constructor (initial: Manifest)
      ensures stored == Stored(initial, 0, map[], [])
    {
      stored := Stored(initial, 0, map[], []);
    }

    method ApplyEvent(r: Request<Event>) returns (reply: Reply)
      modifies this
      ensures (stored, reply) == Answer(HandleEvent, old(stored), r)
    {
      hide Step;
      var state := stored;
      if r.id in state.applied {
        if state.applied[r.id] != r.event { return Collision; }
        return Duplicate;
      }
      if r.expected != state.revision { return RevisionConflict; }
      var loaded := new LoadedManifest(state.procedure);
      var ok := loaded.HandleEvent(r.event);
      if !ok { return HandlerRefused; }
      state := state.(procedure := loaded.View(), revision := state.revision + 1);
      state := state.(applied := state.applied[r.id := r.event]);
      state := state.(log := state.log + [Entry(state.revision, r.id)]);
      stored := state;
      return Applied;
    }
  }

  // ----- the log as a run of the controller -----

  function LoggedEvents(applied: map<EventId, Event>, log: seq<Entry>): (events: seq<Event>)
    requires forall k :: 0 <= k < |log| ==> log[k].id in applied
  {
    seq(|log|, k requires 0 <= k < |log| => applied[log[k].id])
  }

  lemma {:induction false} FoldIsRun(m: Manifest, applied: map<EventId, Event>, log: seq<Entry>)
    requires forall k :: 0 <= k < |log| ==> log[k].id in applied
    requires Fold(HandleEvent, m, applied, log).Some?
    ensures Run(m, LoggedEvents(applied, log)) == Accepted(Fold(HandleEvent, m, applied, log).value)
    decreases |log|
  {
    hide Step;
    var events := LoggedEvents(applied, log);
    if log == [] {
      assert events == [];
    } else {
      var n := |log| - 1;
      FoldIsRun(m, applied, log[..n]);
      var before := LoggedEvents(applied, log[..n]);
      assert events == before + [applied[log[n].id]];
      var p := Fold(HandleEvent, m, applied, log[..n]).value;
      Progress.RunConcat(m, before, [applied[log[n].id]]);
      RunOne(p, applied[log[n].id]);
    }
  }

  lemma RunOne(m: Manifest, e: Event)
    requires Step(m, e).Accepted?
    ensures Run(m, [e]) == Step(m, e)
  {
    hide Step;
    assert [e][1..] == [];
    assert Run(Step(m, e).m, []) == Accepted(Step(m, e).m);
  }

  // ----- the capstone -----

  /** However many clients apply events to the manifest, with whatever retries and crashes, what is
      stored is the result of a run of the controller over the logged events, and so it keeps all
      of the controller's invariants. */
  lemma StoredManifestIsSound(initial: Manifest, w: World<Manifest, Event>, steps: seq<(ClientId, EventStore.Action<Event>)>)
    requires Bootstrapped(initial) && Fresh(initial, w)
    ensures var s := Perform(HandleEvent, w, steps).file;
            && Exact(HandleEvent, initial, s)
            && Run(initial, LoggedEvents(s.applied, s.log)) == Accepted(s.procedure)
            && Runs.Sound(s.procedure)
  {
    hide Run, Runs.Sound, Perform;
    FreshIsSound(HandleEvent, initial, w);
    EveryWorldIsSound(HandleEvent, initial, w, steps);
    var s := Perform(HandleEvent, w, steps).file;
    FoldIsRun(initial, s.applied, s.log);
    Runs.BootstrappedIsSound(initial);
    Runs.RunIsSound(initial, LoggedEvents(s.applied, s.log));
  }
}
