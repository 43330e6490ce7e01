/** Two instances of an application that load the same version and both persist: no version is compared. */
module FlowStale {
  import opened Wrappers
  import opened FlowTypes
  import opened FlowMachines
  import opened FlowSpec
  import opened FlowReplay

  /** What both loaded, where the runs of the two end, and the row after the one and after the other. The second one
      draws its timeuuids after the first. */
  function One(w: World, acts: seq<Act>): App { Run(Load(w.store, w.clock), acts) }

  function Other(w: World, acts: seq<Act>, more: seq<Act>): App { Run(Load(w.store, One(w, acts).clock), more) }

  function First(w: World, acts: seq<Act>): Row { Persist(w.store, GetApp(w.store, false), One(w, acts)) }

  function Second(w: World, acts: seq<Act>, more: seq<Act>): Row {
    Persist(Some(First(w, acts)), GetApp(w.store, false), Other(w, acts, more))
  }

  /** What an instance logged. */
  function LogOf(app: App): seq<Stamped> { Grouped(app.repository, app.keys) }

  /** What a run from the stored row ends in. */
  lemma RunEnds(w: World, clock: nat, acts: seq<Act>)
    requires StoredWorld(w) && w.clock <= clock
    ensures var app := Run(Load(w.store, clock), acts);
      clock <= app.clock && Tracks(app, PastOf(w.store)) && DistinctStamps(LogOf(app), clock, app.clock)
  {
    var start := Load(w.store, clock);
    if w.store.Some? {
      LaterStored(w.store.value, w.clock, clock);
      LoadGivesBackModels(w.store.value, clock);
    }
    NothingGrouped(start.repository, start.keys);
    hide Run, Load;
    RunTracks(start, PastOf(w.store), acts);
    RunStamps(start, PastOf(w.store), acts, clock);
  }

  lemma LaterStored(row: Row, clock: nat, later: nat)
    requires Stored(row, clock) && clock <= later
    ensures Stored(row, later)
  {
  }

  /** The second persist succeeds with the version of the first, appends behind its events and replaces its models.
      What the first one logged is handed out as tail exactly if the second one logged nothing. */
  lemma StalePersist(w: World, acts: seq<Act>, more: seq<Act>)
    requires StoredWorld(w)
    ensures var a, b := One(w, acts), Other(w, acts, more);
      var second := Second(w, acts, more);
      && second.version == First(w, acts).version == GetApp(w.store, false).version + 1
      && second.events == PastOf(w.store) + LogOf(a) + LogOf(b)
      && (forall k :: k in second.snapshot <==> k in b.repository)
      && GetApp(Some(second), false).events == if LogOf(b) == [] then LogOf(a) else []
  {
    hide Stored, DistinctStamps, Grouped, Load, Run, Tracks;
    var a := One(w, acts);
    RunEnds(w, w.clock, acts);
    RunEnds(w, a.clock, more);
    StoredStamps(w);
    TailAfter(Second(w, acts, more), PastOf(w.store), LogOf(a), LogOf(Other(w, acts, more)), w.clock, a.clock,
              Other(w, acts, more).clock);
  }

  lemma StoredStamps(w: World)
    requires StoredWorld(w)
    ensures DistinctStamps(PastOf(w.store), 0, w.clock) && GetApp(w.store, false).timeuuid == LastStamp(PastOf(w.store))
  {
  }

  lemma TailAfter(row: Row, past: seq<Stamped>, one: seq<Stamped>, other: seq<Stamped>, lo: nat, mid: nat, hi: nat)
    requires DistinctStamps(past, 0, lo) && DistinctStamps(one, lo, mid) && DistinctStamps(other, mid, hi)
    requires lo <= mid <= hi && row.events == past + one + other
    requires row.timeuuid == LastStamp(if other == [] then past else other)
    ensures GetApp(Some(row), false).events == if other == [] then one else []
  {
    hide DistinctStamps, IndexOf;
    AppendStamps(past, one, lo, mid);
    if other == [] {
      assert row.events == past + one;
      LastFound(past, one, mid);
    } else {
      AppendStamps(past + one, other, mid, hi);
      LastAtEnd(row.events, other, hi);
    }
  }

  lemma LastAtEnd(events: seq<Stamped>, other: seq<Stamped>, hi: nat)
    requires other != [] && |other| <= |events| && other == events[|events|-|other|..]
    requires DistinctStamps(events, 0, hi)
    ensures IndexOf(events, LastStamp(other)) == |events| - 1
  {
    hide DistinctStamps, IndexOf;
    assert events + [] == events;
    LastFound(events, [], hi);
  }

  /** What the whole log says of a model the second one stores: where its events lead to from where the first one had
      left it; a model the first one does not have is as the second one stores it. */
  lemma StaleFold(w: World, acts: seq<Act>, more: seq<Act>, k: Id)
    requires StoredWorld(w)
    requires var a, b := One(w, acts).repository, Other(w, acts, more).repository;
      && k in b && Grounded(b[k].machine, b[k].meta)
      && (k in a ==> a[k].machine == b[k].machine && a[k].meta == b[k].meta)
    ensures var a, b := One(w, acts).repository, Other(w, acts, more).repository;
      var second := Second(w, acts, more);
      && k in second.snapshot && second.snapshot[k] == SnapOf(b[k])
      && Shaped(b[k].machine, b[k].meta, b[k].core)
      && FoldCore(b[k].machine, Birth(b[k].machine, b[k].meta), EventsOf(k, second.events)) ==
           if k in a then FoldCore(b[k].machine, a[k].core, b[k].localEvents) else b[k].core
  {
    hide Stored, DistinctStamps, Load, Run, FoldCore, ModelTracks, LogsOwned;
    var past := PastOf(w.store);
    var a, b := One(w, acts), Other(w, acts, more);
    RunEnds(w, w.clock, acts);
    RunEnds(w, a.clock, more);
    StalePersist(w, acts, more);
    LoggedOf(k, past, a, b);
    TrackedModel(k, b, past);
    if k in a.repository {
      TrackedModel(k, a, past);
    }
    hide LogOf, EventsOf, Tracks, StoredWorld;
    StaleModel(k, a, b, past, EventsOf(k, past + LogOf(a) + LogOf(b)));
    assert Second(w, acts, more).snapshot[k] == SnapOf(b.repository[k]);
  }

  /** So it is what the whole log says exactly if that is the same. */
  lemma StaleSnapshotTracksIff(w: World, acts: seq<Act>, more: seq<Act>, k: Id)
    requires StoredWorld(w)
    requires var a, b := One(w, acts).repository, Other(w, acts, more).repository;
      && k in b && Grounded(b[k].machine, b[k].meta)
      && (k in a ==> a[k].machine == b[k].machine && a[k].meta == b[k].meta)
    ensures var a, b := One(w, acts).repository, Other(w, acts, more).repository;
      var second := Second(w, acts, more);
      && k in second.snapshot
      && (SnapTracks(k, second.snapshot[k], second.events) <==>
            (k in a ==> b[k].core == FoldCore(b[k].machine, a[k].core, b[k].localEvents)))
  {
    StaleFold(w, acts, more, k);
    hide Stored, Run, Load, Second, FoldCore, Shaped, EventsOf, Birth, Grouped;
  }

  lemma TrackedModel(k: Id, app: App, past: seq<Stamped>)
    requires Tracks(app, past) && k in app.repository
    ensures app.repository[k].uid == k && ModelTracks(app.repository[k], past)
  {
    hide ModelTracks;
  }

  lemma LoggedOf(k: Id, past: seq<Stamped>, a: App, b: App)
    requires Tracks(a, past) && Tracks(b, past)
    ensures EventsOf(k, past + LogOf(a) + LogOf(b))
      == EventsOf(k, past) + LocalEvents(a.repository, k) + LocalEvents(b.repository, k)
  {
    hide EventsOf, Grouped, ModelTracks, LogsOwned;
    GroupedByModel(a.repository, a.keys, k);
    GroupedByModel(b.repository, b.keys, k);
    EventsOfConcat(k, past, LogOf(a));
    EventsOfConcat(k, past + LogOf(a), LogOf(b));
  }

  lemma StaleModel(k: Id, a: App, b: App, past: seq<Stamped>, log: seq<Stamped>)
    requires k in b.repository && b.repository[k].uid == k && ModelTracks(b.repository[k], past)
    requires Grounded(b.repository[k].machine, b.repository[k].meta)
    requires k in a.repository ==>
      && a.repository[k].uid == k && ModelTracks(a.repository[k], past)
      && a.repository[k].machine == b.repository[k].machine && a.repository[k].meta == b.repository[k].meta
    requires log == EventsOf(k, past) + LocalEvents(a.repository, k) + LocalEvents(b.repository, k)
    ensures var m := b.repository[k];
      Shaped(m.machine, m.meta, m.core) &&
      FoldCore(m.machine, Birth(m.machine, m.meta), log) ==
        if k in a.repository then FoldCore(m.machine, a.repository[k].core, m.localEvents) else m.core
  {
    hide FoldCore, EventsOf, Shaped, Birth;
    var m := b.repository[k];
    FoldCoreConcat(m.machine, Birth(m.machine, m.meta), EventsOf(k, past) + LocalEvents(a.repository, k),
      m.localEvents);
    if k !in a.repository {
      assert EventsOf(k, past) + [] == EventsOf(k, past);
    }
  }

  /** If the first one logged nothing for a model, the second one stores what the whole log says. */
  lemma StaleSnapshotHolds(w: World, acts: seq<Act>, more: seq<Act>, k: Id)
    requires StoredWorld(w)
    requires var a, b := One(w, acts).repository, Other(w, acts, more).repository;
      k in b && Grounded(b[k].machine, b[k].meta) && (k in a ==> a[k].localEvents == [])
    ensures var second := Second(w, acts, more);
      k in second.snapshot && SnapTracks(k, second.snapshot[k], second.events)
  {
    hide Stored, DistinctStamps, Load, Run, FoldCore, ModelTracks, LogsOwned;
    var past := PastOf(w.store);
    var a, b := One(w, acts), Other(w, acts, more);
    RunEnds(w, w.clock, acts);
    RunEnds(w, a.clock, more);
    StalePersist(w, acts, more);
    LoggedOf(k, past, a, b);
    TrackedModel(k, b, past);
    hide LogOf, EventsOf, Tracks, StoredWorld;
    assert EventsOf(k, past) + [] == EventsOf(k, past);
    PersistedModel(b.repository[k], past, past + LogOf(a) + LogOf(b));
    assert Second(w, acts, more).snapshot[k] == SnapOf(b.repository[k]);
  }

  /** If it is the second one that logged nothing for a model, exactly if the first one left it as it was. */
  lemma StaleUntouchedIff(w: World, acts: seq<Act>, more: seq<Act>, k: Id)
    requires StoredWorld(w)
    requires var a, b := One(w, acts).repository, Other(w, acts, more).repository;
      && k in b && Grounded(b[k].machine, b[k].meta) && b[k].localEvents == []
      && (k in a ==> a[k].machine == b[k].machine && a[k].meta == b[k].meta)
    ensures var a, b := One(w, acts).repository, Other(w, acts, more).repository;
      var second := Second(w, acts, more);
      && k in second.snapshot
      && (SnapTracks(k, second.snapshot[k], second.events) <==> (k in a ==> a[k].core == b[k].core))
  {
    StaleSnapshotTracksIff(w, acts, more, k);
    hide Stored, Run, Load, SnapTracks, Second;
  }

  // ---- sequences ----

  predicate OfSequence(e: Event) { e.SequenceActivated? || e.SequenceCompleted? }

  ghost predicate SequenceLogs(m: ModelValue) {
    m.machine.SequenceMachine? ==> forall s <- m.localEvents :: OfSequence(s.event)
  }

  ghost predicate SequencesLog(app: App) { forall k :: k in app.repository ==> SequenceLogs(app.repository[k]) }

  lemma AppliedToSequence(m: ModelValue, s: Stamped)
    requires SequenceLogs(m) && (m.machine.SequenceMachine? ==> m.core.typ.NoType?)
    ensures SequenceLogs(Apply(m, s))
  {
    if !m.machine.SequenceMachine? {
      AppliedOnce(m, s);
      hide HandleEvent, Apply;
    }
  }

  lemma SequenceStep(app: App, past: seq<Stamped>, act: Act)
    requires Tracks(app, past) && SequencesLog(app)
    ensures SequencesLog(Step(app, act))
  {
    if act.Raise? {
      var uid := Target(act.event);
      var known := AddModel(app, uid, MachineOf(act.event), EMPTY_META, None);
      AddTracks(app, past, uid, MachineOf(act.event), EMPTY_META);
      SequenceShape(uid, known, past);
      hide Tracks, Apply, HandleEvent;
      assert SequencesLog(known);
      AppliedToSequence(known.repository[uid], Stamp(known.repository[uid], act.event, known.clock));
      hide SequenceLogs;
    } else {
      hide Tracks;
    }
  }

  lemma SequenceShape(k: Id, app: App, past: seq<Stamped>)
    requires Tracks(app, past) && k in app.repository
    ensures app.repository[k].uid == k
    ensures app.repository[k].machine.SequenceMachine? ==> app.repository[k].core.typ.NoType?
  {
    TrackedModel(k, app, past);
    hide Tracks, EventsOf, FoldCore;
  }

  lemma {:induction false} SequenceRun(app: App, past: seq<Stamped>, acts: seq<Act>)
    requires Tracks(app, past) && SequencesLog(app)
    ensures SequencesLog(Run(app, acts))
  {
    if acts != [] {
      SequenceRun(app, past, acts[..|acts|-1]);
      RunTracks(app, past, acts[..|acts|-1]);
      SequenceStep(Run(app, acts[..|acts|-1]), past, acts[|acts|-1]);
      hide Tracks, SequencesLog, Step;
    }
  }

  lemma LoadedSequences(w: World, clock: nat, acts: seq<Act>)
    requires StoredWorld(w) && w.clock <= clock
    ensures SequencesLog(Run(Load(w.store, clock), acts))
  {
    var start := Load(w.store, clock);
    if w.store.Some? {
      LaterStored(w.store.value, w.clock, clock);
      LoadGivesBackModels(w.store.value, clock);
    } else {
      NothingLoaded(clock);
    }
    hide Load, Run;
    SequenceRun(start, PastOf(w.store), acts);
  }

  /** A sequence is as it was created, but for its state, which the last event sets. */
  lemma {:induction false} SequenceFold(core: Core, log: seq<Stamped>)
    requires core.typ.NoType? && core.state in {Idle, Active}
    ensures var end := FoldCore(SequenceMachine, core, log);
      && end.state in {Idle, Active} && end == core.(state := end.state)
      && (log != [] && OfSequence(log[|log|-1].event) ==>
            end.state == if log[|log|-1].event.SequenceActivated? then Active else Idle)
  {
    if log != [] {
      SequenceFold(core, log[..|log|-1]);
    }
  }

  /** For a sequence: exactly if the second one logged for it, or the first one left it as it was. */
  lemma StaleSequenceIff(w: World, acts: seq<Act>, more: seq<Act>, k: Id)
    requires StoredWorld(w)
    requires var a, b := One(w, acts).repository, Other(w, acts, more).repository;
      && k in b && b[k].machine.SequenceMachine? && Grounded(b[k].machine, b[k].meta)
      && (k in a ==> a[k].machine == b[k].machine && a[k].meta == b[k].meta)
    ensures var a, b := One(w, acts).repository, Other(w, acts, more).repository;
      var second := Second(w, acts, more);
      && k in second.snapshot
      && (SnapTracks(k, second.snapshot[k], second.events) <==>
            b[k].localEvents != [] || (k in a ==> a[k].core == b[k].core))
  {
    var a, b := One(w, acts), Other(w, acts, more);
    RunEnds(w, w.clock, acts);
    RunEnds(w, a.clock, more);
    LoadedSequences(w, a.clock, more);
    StaleSnapshotTracksIff(w, acts, more, k);
    TrackedModel(k, b, PastOf(w.store));
    if k in a.repository {
      TrackedModel(k, a, PastOf(w.store));
      hide Load, Run, Stored, Tracks, SnapTracks, Second, DistinctStamps;
      TwoSequences(a.repository[k], b.repository[k], PastOf(w.store));
    }
  }

  lemma TwoSequences(a: ModelValue, b: ModelValue, past: seq<Stamped>)
    requires a.machine == b.machine == SequenceMachine && a.meta == b.meta && Grounded(a.machine, a.meta)
    requires ModelTracks(a, past) && ModelTracks(b, past) && forall s <- b.localEvents :: OfSequence(s.event)
    ensures b.core == FoldCore(SequenceMachine, a.core, b.localEvents) <==> b.localEvents != [] || a.core == b.core
  {
    var birth := Birth(SequenceMachine, a.meta);
    assert birth.typ.NoType? && birth.state.Idle?;
    var log := EventsOf(b.uid, past) + b.localEvents;
    SequenceFold(birth, EventsOf(a.uid, past) + a.localEvents);
    SequenceFold(birth, log);
    SequenceFold(a.core, b.localEvents);
    if b.localEvents != [] {
      assert log[|log|-1] == b.localEvents[|b.localEvents|-1];
      assert b.localEvents[|b.localEvents|-1] in b.localEvents;
    }
    hide EventsOf, HandleEvent, Birth;
    assert b.localEvents == [] ==> FoldCore(SequenceMachine, a.core, b.localEvents) == a.core;
  }

  // ---- models of one instance only ----

  lemma {:induction false} ReplayedModels(app: App, snapshot: map<Id, Snap>, events: seq<Stamped>, k: Id)
    ensures k in Replay(app, snapshot, events).repository
      <==> k in app.repository || exists s <- events :: s.modelId == k
  {
    if events != [] {
      var init, s := events[..|events|-1], events[|events|-1];
      ReplayedModels(app, snapshot, init, k);
      assert events == init + [s];
      hide Replay, Apply;
    }
  }

  /** A model that only the first one has, with its events in the log: loading knows it exactly if the second one
      logged nothing. */
  lemma StaleModelLostIff(w: World, acts: seq<Act>, more: seq<Act>, k: Id)
    requires StoredWorld(w)
    requires var a, b := One(w, acts).repository, Other(w, acts, more).repository;
      k in a && a[k].localEvents != [] && k !in b
    ensures var second := Second(w, acts, more);
      && EventsOf(k, second.events) != []
      && (k in Load(Some(second), Other(w, acts, more).clock).repository <==> LogOf(Other(w, acts, more)) == [])
  {
    hide Stored, DistinctStamps, Load, Run, FoldCore, ModelTracks, EventsOf, Grouped;
    var a, b := One(w, acts), Other(w, acts, more);
    RunEnds(w, w.clock, acts);
    RunEnds(w, a.clock, more);
    StalePersist(w, acts, more);
    LoggedOf(k, PastOf(w.store), a, b);
    GroupedByModel(a.repository, a.keys, k);
    if forall s <- LogOf(a) :: s.modelId != k {
      NoEventsOf(k, LogOf(a));
    }
    LoadedKeys(Second(w, acts, more), b.clock, k);
  }

  lemma LoadedKeys(row: Row, clock: nat, k: Id)
    requires Distinct(row.order) && forall x :: x in row.order <==> x in row.snapshot
    ensures k in Load(Some(row), clock).repository
      <==> k in row.snapshot || exists s <- GetApp(Some(row), false).events :: s.modelId == k
  {
    var tail := GetApp(Some(row), false).events;
    hide IndexOf, RestoreModels, Replay;
    RestoredModels(row.order, row.snapshot, clock);
    ReplayedModels(RestoreModels(row.order, row.snapshot, clock), row.snapshot, tail, k);
  }

  /** One event each, for different models: both are in the log, and the first model is lost on loading. */
  lemma StaleModelLost(k: Id, other: Id)
    requires k != other
    ensures var w, acts, more := World(None, 0), [Raise(SequenceActivated(k))], [Raise(SequenceActivated(other))];
      var second := Second(w, acts, more);
      && EventsOf(k, second.events) != [] && k !in Load(Some(second), Other(w, acts, more).clock).repository
  {
    var w, acts, more := World(None, 0), [Raise(SequenceActivated(k))], [Raise(SequenceActivated(other))];
    OneEvent(k, 0);
    OneEvent(other, 1);
    NothingLoaded(0);
    NothingLoaded(1);
    hide Run, Load, EventsOf, Grouped;
    StaleModelLostIff(w, acts, more, k);
  }

  lemma NothingLoaded(clock: nat)
    ensures Load(None, clock) == App(NO_MODELS, [], clock)
  {
    assert GetApp(None, false) == Row(0, map[], [], None, []);
  }

  lemma OneEvent(k: Id, clock: nat)
    ensures var end := Run(App(NO_MODELS, [], clock), [Raise(SequenceActivated(k))]);
      && end.clock == clock + 1 && end.keys == [k] && end.repository.Keys == {k}
      && end.repository[k].localEvents != [] && LogOf(end) != []
  {
    UngroundedHandlers(k);
    hide HandleEvent, Birth;
    var start := App(NO_MODELS, [], clock);
    RunConcat(start, [], Raise(SequenceActivated(k)));
    assert [] + [Raise(SequenceActivated(k))] == [Raise(SequenceActivated(k))];
    assert Run(start, []) == start;
    hide Run;
    var end := Step(start, Raise(SequenceActivated(k)));
    assert |end.repository[k].localEvents| == 1;
    assert [k][..0] == [];
    assert Grouped(end.repository, [k]) == Grouped(end.repository, [k][..0]) + LocalEvents(end.repository, k);
  }
}
