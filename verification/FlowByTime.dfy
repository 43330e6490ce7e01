/** The store that keeps the events of an application in the order of their timeuuids and hands out those behind the
    position of the snapshot. The position is the last event of the log grouped by model, so events that are in the
    snapshot already may be handed out once more. */
module FlowByTime {
  import opened Wrappers
  import opened FlowTypes
  import opened FlowMachines
  import opened FlowSpec
  import opened FlowReplay
  import opened FlowRedo
  import opened FlowTimeline

  /** The rows of an application: an event is stored under its timeuuid, the snapshot under none. */
  datatype Table = Table(
    version: nat, snapshot: map<Id, Snap>, order: seq<Id>, position: Option<nat>, log: map<nat, Stamped>)

  /** A stored application; without a position the snapshot is ignored and everything is handed out. Timeuuids are
      below `clock`. */
  function GetByTime(store: Option<Table>, clock: nat): Row {
    match store
    case None => EMPTY_ROW
    case Some(t) =>
      if t.position.None? then Row(t.version, map[], [], None, InOrder(t.log, 0, clock))
      else Row(t.version, t.snapshot, t.order, t.position, InOrder(t.log, t.position.value + 1, clock))
  }

  function LoadByTime(store: Option<Table>, clock: nat): App {
    var loaded := GetByTime(store, clock);
    Replay(RestoreModels(loaded.order, loaded.snapshot, clock), loaded.snapshot, loaded.events)
  }

  /** Writing an event that is there already changes nothing. */
  function Put(log: map<nat, Stamped>, events: seq<Stamped>): map<nat, Stamped> {
    if events == [] then log
    else Put(log, events[..|events|-1])[events[|events|-1].timeuuid := events[|events|-1]]
  }

  function LogIn(store: Option<Table>): map<nat, Stamped> { if store.Some? then store.value.log else map[] }

  function PersistByTime(store: Option<Table>, loaded: Row, app: App): Table {
    var events := Grouped(app.repository, app.keys);
    Table(loaded.version + 1,
          map k | k in app.repository :: SnapOf(app.repository[k]),
          app.keys,
          if events != [] then Some(events[|events|-1].timeuuid) else loaded.timeuuid,
          Put(LogIn(store), events))
  }

  datatype TimedWorld = TimedWorld(store: Option<Table>, clock: nat)

  function CycleByTime(w: TimedWorld, acts: seq<Act>): TimedWorld {
    var app := Run(LoadByTime(w.store, w.clock), acts);
    TimedWorld(Some(PersistByTime(w.store, GetByTime(w.store, w.clock), app)), app.clock)
  }

  function CyclesByTime(w: TimedWorld, runs: seq<seq<Act>>): TimedWorld {
    if runs == [] then w else CycleByTime(CyclesByTime(w, runs[..|runs|-1]), runs[|runs|-1])
  }

  // ---- the tail ----

  /** What is handed out behind a snapshot are the events with a greater timeuuid than its position: none, exactly if
      the last event of the log grouped by model is the newest of all. */
  lemma TailEmptyIffNewest(t: Table, clock: nat)
    requires t.position.Some? && forall u <- t.log :: u < clock
    ensures GetByTime(Some(t), clock).events == [] <==> forall u <- t.log :: u <= t.position.value
  {
    var tail := InOrder(t.log, t.position.value + 1, clock);
    InOrderHas(t.log, t.position.value + 1, clock);
    if tail != [] {
      assert tail[0] in tail;
    }
  }

  // ---- writing ----

  lemma {:induction false} PutHolds(before: map<nat, Stamped>, events: seq<Stamped>, log: map<nat, Stamped>)
    requires forall u <- before :: u in log && log[u] == before[u]
    requires forall s <- events :: s.timeuuid in log && log[s.timeuuid] == s
    ensures var put := Put(before, events);
      && (forall u <- put :: u in log && log[u] == put[u])
      && (forall u <- before :: u in put) && (forall s <- events :: s.timeuuid in put)
  {
    if events != [] {
      var init, last := events[..|events|-1], events[|events|-1];
      assert events == init + [last];
      PutHolds(before, init, log);
    }
  }

  lemma {:induction false} GroupedHas(repository: map<Id, ModelValue>, keys: seq<Id>, k: Id, s: Stamped)
    requires k in keys && k in repository && s in repository[k].localEvents
    ensures s in Grouped(repository, keys)
  {
    GroupedMore(repository, keys);
    var init, last := keys[..|keys|-1], keys[|keys|-1];
    assert keys == init + [last];
    if k != last {
      GroupedHas(repository, init, k, s);
    }
  }

  lemma {:induction false} GroupedFrom(repository: map<Id, ModelValue>, keys: seq<Id>)
    ensures forall s <- Grouped(repository, keys) :: exists k <- repository :: s in repository[k].localEvents
  {
    if keys != [] {
      GroupedMore(repository, keys);
      GroupedFrom(repository, keys[..|keys|-1]);
    }
  }

  /** Writing the log grouped by model gives the log of the run, though it may hold events that were there before. */
  lemma PutIsLog(app: App, log: map<nat, Stamped>, before: map<nat, Stamped>)
    requires Mirrors(app, log, before) && KeysMatch(app) && forall u <- log :: log[u].timeuuid == u
    ensures Put(before, Grouped(app.repository, app.keys)) == log
  {
    var events := Grouped(app.repository, app.keys);
    GroupedFrom(app.repository, app.keys);
    PutHolds(before, events, log);
    var put := Put(before, events);
    hide Put, Grouped;
    forall u | u in log ensures u in put {
      if u !in before {
        var s := log[u];
        assert s in app.repository[s.modelId].localEvents;
        GroupedHas(app.repository, app.keys, s.modelId, s);
        assert s.timeuuid in put && s.timeuuid == u;
      }
    }
  }

  // ---- loading ----

  /** The models of the snapshot. */
  function AsStored(t: Table, clock: nat): App {
    App(map k | k in t.snapshot :: ModelValue(k, t.snapshot[k].machine, t.snapshot[k].meta, t.snapshot[k].core, []),
        t.order, clock)
  }

  /** What holds of the stored rows between cycles. */
  ghost predicate Kept(t: Table, clock: nat, types: Id -> ModelType) {
    Good(AsStored(t, clock), t.log, types) && (t.position.None? ==> t.log == map[])
  }

  ghost predicate KeptWorld(w: TimedWorld, types: Id -> ModelType) {
    w.store.Some? ==> Kept(w.store.value, w.clock, types)
  }

  /** A model to which events of its own were applied that are in the log already. */
  ghost predicate Replayed(m: ModelValue, stored: ModelValue, events: seq<Stamped>) {
    && m.uid == stored.uid && m.machine == stored.machine && m.meta == stored.meta
    && m.core == FoldCore(m.machine, stored.core, EventsOf(m.uid, events))
    && forall s <- m.localEvents :: s in events && s.modelId == m.uid
  }

  ghost predicate AllReplayed(app: App, stored: App, events: seq<Stamped>) {
    && app.keys == stored.keys && app.clock == stored.clock && app.repository.Keys == stored.repository.Keys
    && forall k <- app.repository :: Replayed(app.repository[k], stored.repository[k], events)
  }

  lemma ReplayedMore(m: ModelValue, stored: ModelValue, events: seq<Stamped>, s: Stamped)
    requires Replayed(m, stored, events)
    ensures Replayed(if s.modelId == m.uid then Apply(m, s) else m, stored, events + [s])
  {
    OneMore(m.uid, m.machine, stored.core, events, EventsOf(m.uid, events), s);
    AppliedOnce(m, s);
    hide FoldCore, EventsOf, Apply, HandleEvent, After;
  }

  lemma {:induction false} TailReplayed(stored: App, snapshot: map<Id, Snap>, events: seq<Stamped>)
    requires forall s <- events :: s.modelId in stored.repository
    requires forall k <- stored.repository :: stored.repository[k].uid == k && stored.repository[k].localEvents == []
    ensures AllReplayed(Replay(stored, snapshot, events), stored, events)
  {
    if events != [] {
      var init, s := events[..|events|-1], events[|events|-1];
      assert events == init + [s];
      TailReplayed(stored, snapshot, init);
      ReplayedStep(Replay(stored, snapshot, init), stored, snapshot, init, s);
      hide AllReplayed, ReplayEvent;
    } else {
      assert forall m: ModelValue :: FoldCore(m.machine, m.core, EventsOf(m.uid, [])) == m.core;
    }
  }

  lemma ReplayedStep(app: App, stored: App, snapshot: map<Id, Snap>, events: seq<Stamped>, s: Stamped)
    requires AllReplayed(app, stored, events) && s.modelId in app.repository
    requires forall k <- stored.repository :: stored.repository[k].uid == k
    ensures AllReplayed(ReplayEvent(app, snapshot, s), stored, events + [s])
  {
    hide Replayed, Apply;
    assert forall k <- app.repository :: app.repository[k].uid == k by {
      forall k | k in app.repository ensures app.repository[k].uid == k {
        assert Replayed(app.repository[k], stored.repository[k], events);
        ReplayedUid(app.repository[k], stored.repository[k], events);
      }
    }
    forall k | k in app.repository
      ensures Replayed(if s.modelId == k then Apply(app.repository[k], s) else app.repository[k], stored.repository[k],
                       events + [s])
    {
      ReplayedMore(app.repository[k], stored.repository[k], events, s);
    }
  }

  lemma ReplayedUid(m: ModelValue, stored: ModelValue, events: seq<Stamped>)
    requires Replayed(m, stored, events)
    ensures m.uid == stored.uid
  {
  }

  /** Applying the tail once more leaves a model where its log leads to. */
  lemma ReplayedGood(m: ModelValue, stored: ModelValue, log: seq<Stamped>, i: nat, events: seq<Stamped>, typ: ModelType)
    requires GoodModel(stored, log, typ) && Replayed(m, stored, events) && i <= |log|
      && log[i..] == EventsOf(m.uid, events)
    ensures GoodModel(m, log, typ)
  {
    FoldShaped(m.machine, m.meta, stored.core, log[i..]);
    if Grounded(m.machine, m.meta) {
      var birth := Birth(m.machine, m.meta);
      var end := FoldCore(m.machine, birth, log);
      BirthIsIdle(m.machine, m.meta);
      TypeSettles(m.machine, birth, log, typ);
      RedoLeavesAlike(m.machine, birth, log, typ, i);
      assert Join(m.machine, stored.core) ==> AllTyped(log[i..], ParallelGateway);
      AlikeFold(m.machine, stored.core, end, log[i..]);
      AlikeTrans(m.machine, m.core, FoldCore(m.machine, end, log[i..]), end);
    }
    hide FoldCore, EventsOf, Birth, Shaped, Logged;
  }

  lemma {:induction false} FoldShaped(machine: Machine, meta: Meta, core: Core, log: seq<Stamped>)
    requires Shaped(machine, meta, core)
    ensures Shaped(machine, meta, FoldCore(machine, core, log))
  {
    if log != [] {
      FoldShaped(machine, meta, core, log[..|log|-1]);
      HandlersKeepShape(machine, meta, FoldCore(machine, core, log[..|log|-1]), log[|log|-1].event);
      hide Shaped, After;
    }
  }

  lemma StoredModel(k: Id, snap: Snap)
    requires Shaped(snap.machine, snap.meta, snap.core)
    ensures NewModel(k, snap.machine, snap.meta, Some(snap)) == ModelValue(k, snap.machine, snap.meta, snap.core, [])
  {
  }

  lemma StoredShaped(t: Table, clock: nat, types: Id -> ModelType)
    requires Kept(t, clock, types)
    ensures Distinct(t.order) && (forall k :: k in t.order <==> k in t.snapshot)
    ensures forall k <- t.snapshot :: Shaped(t.snapshot[k].machine, t.snapshot[k].meta, t.snapshot[k].core)
  {
    hide Shaped, OwnLog, LogFits, LogsOwned, Distinct, Logged, FoldCore;
    var stored := AsStored(t, clock);
    assert forall k :: k in t.order <==> k in stored.repository;
    forall k | k in t.snapshot ensures Shaped(t.snapshot[k].machine, t.snapshot[k].meta, t.snapshot[k].core) {
      assert GoodModel(stored.repository[k], OwnLog(k, t.log, clock), types(k));
    }
  }

  lemma RestoresStored(t: Table, clock: nat, types: Id -> ModelType)
    requires Kept(t, clock, types)
    ensures RestoreModels(t.order, t.snapshot, clock) == AsStored(t, clock)
  {
    StoredShaped(t, clock, types);
    RestoredModels(t.order, t.snapshot, clock);
    SameApp(t, clock, RestoreModels(t.order, t.snapshot, clock));
    hide *;
  }

  lemma SameApp(t: Table, clock: nat, app: App)
    requires app.keys == t.order && app.clock == clock && (forall k :: k in t.order <==> k in app.repository)
    requires forall k :: k in t.order <==> k in t.snapshot
    requires forall k <- t.snapshot :: Shaped(t.snapshot[k].machine, t.snapshot[k].meta, t.snapshot[k].core)
    requires forall k <- t.order ::
      app.repository[k] == NewModel(k, t.snapshot[k].machine, t.snapshot[k].meta, Some(t.snapshot[k]))
    ensures app == AsStored(t, clock)
  {
    hide NewModel, Shaped;
    var stored := AsStored(t, clock).repository;
    forall k | k in t.snapshot ensures app.repository[k] == stored[k] {
      StoredModel(k, t.snapshot[k]);
    }
    assert app.repository.Keys == stored.Keys;
  }

  /** The events of a model behind the position are the end of its log. */
  lemma OwnTail(k: Id, log: map<nat, Stamped>, from: nat, clock: nat)
    ensures var own, i := OwnLog(k, log, clock), |EventsOf(k, InOrder(log, 0, from))|;
      from <= clock ==> i <= |own| && own[i..] == EventsOf(k, InOrder(log, from, clock))
    ensures from > clock ==> InOrder(log, from, clock) == []
  {
    if from <= clock {
      InOrderSplit(log, 0, from, clock);
      EventsOfConcat(k, InOrder(log, 0, from), InOrder(log, from, clock));
    }
  }

  lemma TailReplayedGood(t: Table, clock: nat, types: Id -> ModelType, app: App, from: nat)
    requires Kept(t, clock, types) && AllReplayed(app, AsStored(t, clock), InOrder(t.log, from, clock))
    ensures ModelsGood(app.repository, t.log, clock, types)
  {
    var stored := AsStored(t, clock);
    var tail := InOrder(t.log, from, clock);
    hide GoodModel, OwnLog, Replayed, EventsOf, InOrder, LogFits, LogsOwned, Distinct;
    forall k | k in app.repository ensures GoodModel(app.repository[k], OwnLog(k, t.log, clock), types(k)) {
      assert Replayed(app.repository[k], stored.repository[k], tail);
      ReplayedUid(app.repository[k], stored.repository[k], tail);
      OwnTail(k, t.log, from, clock);
      var own := OwnLog(k, t.log, clock);
      if from <= clock {
        ReplayedGood(app.repository[k], stored.repository[k], own, |EventsOf(k, InOrder(t.log, 0, from))|, tail,
          types(k));
      } else {
        NoTail(k);
        assert own[|own|..] == [];
        ReplayedGood(app.repository[k], stored.repository[k], own, |own|, tail, types(k));
      }
    }
  }

  lemma NoTail(k: Id)
    ensures EventsOf(k, []) == []
  {
  }

  lemma TailMirrors(t: Table, clock: nat, types: Id -> ModelType, app: App, from: nat)
    requires Kept(t, clock, types) && AllReplayed(app, AsStored(t, clock), InOrder(t.log, from, clock))
    ensures Mirrors(app, t.log, t.log) && LogsOwned(app.repository)
  {
    var tail := InOrder(t.log, from, clock);
    InOrderHas(t.log, from, clock);
    var stored := AsStored(t, clock);
    assert forall k <- stored.repository :: stored.repository[k].uid == k;
    hide FoldCore, ModelsGood, InOrder, EventsOf, AsStored, AllReplayed, LogsOwned, Distinct;
    assert forall s <- tail :: s.timeuuid in t.log && t.log[s.timeuuid] == s;
    ReplayedMirrors(app, stored, t.log, clock, tail);
  }

  lemma ReplayedMirrors(app: App, stored: App, log: map<nat, Stamped>, clock: nat, tail: seq<Stamped>)
    requires AllReplayed(app, stored, tail) && LogFits(stored.repository, log, clock)
    requires forall k <- stored.repository :: stored.repository[k].uid == k
    requires forall s <- tail :: s.timeuuid in log && log[s.timeuuid] == s
    ensures Mirrors(app, log, log) && LogsOwned(app.repository)
  {
    hide FoldCore, EventsOf;
    forall k | k in app.repository
      ensures app.repository[k].uid == k
      ensures forall s <- app.repository[k].localEvents :: s in tail && Own(app.repository[k], s)
    {
      assert Replayed(app.repository[k], stored.repository[k], tail);
    }
  }

  lemma LoadsGood(t: Table, clock: nat, types: Id -> ModelType)
    requires Kept(t, clock, types) && t.position.Some?
    ensures var app := LoadByTime(Some(t), clock);
      && Good(app, t.log, types) && Mirrors(app, t.log, t.log) && app.clock == clock
      && AllReplayed(app, AsStored(t, clock), InOrder(t.log, t.position.value + 1, clock))
  {
    var stored, from := AsStored(t, clock), t.position.value + 1;
    var tail := InOrder(t.log, from, clock);
    RestoresStored(t, clock, types);
    InOrderHas(t.log, from, clock);
    assert forall s <- tail :: s.modelId in stored.repository;
    assert forall k <- stored.repository :: stored.repository[k].uid == k && stored.repository[k].localEvents == [];
    TailReplayed(stored, t.snapshot, tail);
    var app := Replay(stored, t.snapshot, tail);
    assert LoadByTime(Some(t), clock) == app;
    hide Replay, LoadByTime, InOrder;
    TailReplayedGood(t, clock, types, app, from);
    TailMirrors(t, clock, types, app, from);
    StoredFits(app, stored, t.log, tail);
    hide ModelsGood, AllReplayed, Mirrors, LogFits;
  }

  lemma StoredFits(app: App, stored: App, log: map<nat, Stamped>, tail: seq<Stamped>)
    requires AllReplayed(app, stored, tail) && LogFits(stored.repository, log, stored.clock)
    requires KeysMatch(stored) && Distinct(stored.keys)
    ensures LogFits(app.repository, log, app.clock) && KeysMatch(app) && Distinct(app.keys)
  {
    hide EventsOf, FoldCore;
    forall k | k in app.repository
      ensures app.repository[k].uid == stored.repository[k].uid
        && app.repository[k].machine == stored.repository[k].machine
      ensures app.repository[k].meta == stored.repository[k].meta
    {
      assert Replayed(app.repository[k], stored.repository[k], tail);
    }
  }

  // ---- persisting ----

  lemma NothingStored(clock: nat, types: Id -> ModelType)
    ensures var app := App(NO_MODELS, [], clock); Good(app, map[], types) && Mirrors(app, map[], map[])
    ensures InOrder(map[], 0, clock) == []
    decreases clock
  {
    if clock > 0 {
      NothingStored(clock - 1, types);
    }
  }

  /** Whatever is stored, loading it leaves the models where the log leads to, and what is in the log stays the same. */
  lemma LoadsKept(w: TimedWorld, types: Id -> ModelType)
    requires KeptWorld(w, types)
    ensures var app := LoadByTime(w.store, w.clock);
      Good(app, LogIn(w.store), types) && Mirrors(app, LogIn(w.store), LogIn(w.store)) && app.clock == w.clock
  {
    if w.store.Some? && w.store.value.position.Some? {
      LoadsGood(w.store.value, w.clock, types);
    } else {
      NothingStored(w.clock, types);
      var loaded := GetByTime(w.store, w.clock);
      assert LogIn(w.store) == map[];
      assert loaded.order == [] && loaded.snapshot == map[] && loaded.events == [];
      assert LoadByTime(w.store, w.clock) == App(NO_MODELS, [], w.clock);
    }
  }

  lemma DroppedGood(app: App, log: map<nat, Stamped>, types: Id -> ModelType, t: Table)
    requires Good(app, log, types) && t.log == log && t.order == app.keys
    requires t.snapshot == map k | k in app.repository :: SnapOf(app.repository[k])
    ensures Good(AsStored(t, app.clock), log, types)
  {
    hide OwnLog, Shaped, Logged, FoldCore;
    var stored := AsStored(t, app.clock);
    forall k | k in stored.repository ensures GoodModel(stored.repository[k], OwnLog(k, log, app.clock), types(k)) {
      assert GoodModel(app.repository[k], OwnLog(k, log, app.clock), types(k));
    }
  }

  lemma Written(store: Option<Table>, loaded: Row, app: App)
    ensures var t, events := PersistByTime(store, loaded, app), Grouped(app.repository, app.keys);
      && t.version == loaded.version + 1 && t.order == app.keys
      && t.snapshot == (map k | k in app.repository :: SnapOf(app.repository[k]))
      && t.log == Put(LogIn(store), events)
      && (t.position.None? ==> events == [] && loaded.timeuuid.None?)
  {
  }

  lemma PersistsKept(w: TimedWorld, types: Id -> ModelType, app: App, log: map<nat, Stamped>)
    requires KeptWorld(w, types) && Good(app, log, types) && Mirrors(app, log, LogIn(w.store))
    ensures var t := PersistByTime(w.store, GetByTime(w.store, w.clock), app); Kept(t, app.clock, types) && t.log == log
  {
    var t := PersistByTime(w.store, GetByTime(w.store, w.clock), app);
    Written(w.store, GetByTime(w.store, w.clock), app);
    LogStamped(app, log, types);
    hide KeptWorld, Good, GetByTime, InOrder, Grouped, Mirrors, Put, PersistByTime;
    PutIsLog(app, log, LogIn(w.store));
    DroppedGood(app, log, types, t);
    if t.position.None? {
      NothingLogged(w, types, app, log);
    }
  }

  lemma LogStamped(app: App, log: map<nat, Stamped>, types: Id -> ModelType)
    requires Good(app, log, types)
    ensures KeysMatch(app) && forall u <- log :: log[u].timeuuid == u
  {
    hide ModelsGood, LogsOwned;
  }

  /** One cycle: the rows stay right, the version grows by one, and the log grows by exactly what the run logged. */
  lemma CycleKeeps(w: TimedWorld, types: Id -> ModelType, acts: seq<Act>)
    requires KeptWorld(w, types) && AllTypedActs(acts, types)
    ensures var next := CycleByTime(w, acts);
      && KeptWorld(next, types) && next.store.value.version == GetByTime(w.store, w.clock).version + 1
      && next.store.value.log == RunEntered(LoadByTime(w.store, w.clock), acts, LogIn(w.store))
      && w.clock <= next.clock
  {
    hide Good, Mirrors, LoadByTime, Run, RunEntered, Put, Kept, InOrder;
    var start, before := LoadByTime(w.store, w.clock), LogIn(w.store);
    LoadsKept(w, types);
    RunGood(start, before, before, types, acts);
    PersistsKept(w, types, Run(start, acts), RunEntered(start, acts, before));
  }

  lemma NothingLogged(w: TimedWorld, types: Id -> ModelType, app: App, log: map<nat, Stamped>)
    requires KeptWorld(w, types) && Mirrors(app, log, LogIn(w.store)) && KeysMatch(app)
    requires Grouped(app.repository, app.keys) == [] && GetByTime(w.store, w.clock).timeuuid.None?
    ensures log == map[]
  {
    hide Good, Grouped;
    assert LogIn(w.store) == map[];
    if u :| u in log {
      assert log[u] in app.repository[log[u].modelId].localEvents;
      GroupedHas(app.repository, app.keys, log[u].modelId, log[u]);
    }
  }

  lemma {:induction false} CyclesKeep(types: Id -> ModelType, runs: seq<seq<Act>>)
    requires forall acts <- runs :: AllTypedActs(acts, types)
    ensures var w := CyclesByTime(TimedWorld(None, 0), runs);
      && KeptWorld(w, types) && GetByTime(w.store, w.clock).version == |runs| && (runs != [] ==> w.store.Some?)
  {
    if runs != [] {
      var init := runs[..|runs|-1];
      assert runs == init + [runs[|runs|-1]];
      CyclesKeep(types, init);
      hide KeptWorld, LoadByTime, RunEntered, AllTypedActs, PersistByTime;
      CycleKeeps(CyclesByTime(TimedWorld(None, 0), init), types, runs[|runs|-1]);
    }
  }

  // ---- theorem ----

  /** Every stored model stands where its own events in the log, each taken once, lead to; and so does every loaded one,
      though the tail may have been applied to it once more. */
  ghost predicate AsLogSays(t: Table, clock: nat, loaded: map<Id, ModelValue>) {
    && (forall k <- t.snapshot :: Grounded(t.snapshot[k].machine, t.snapshot[k].meta) ==>
          var snap := t.snapshot[k];
          Alike(snap.machine, snap.core,
            FoldCore(snap.machine, Birth(snap.machine, snap.meta), OwnLog(k, t.log, clock))))
    && (forall k <- loaded :: Grounded(loaded[k].machine, loaded[k].meta) ==>
          var m := loaded[k];
          Alike(m.machine, m.core, FoldCore(m.machine, Birth(m.machine, m.meta), OwnLog(k, t.log, clock))))
  }

  /** After any number of cycles with the store in the order of time: the version counts them, and though events that
      the snapshot contains are handed out, applied and written once more, neither a model nor the log shows it. */
  lemma TailDoesNoHarm(types: Id -> ModelType, runs: seq<seq<Act>>)
    requires runs != [] && forall acts <- runs :: AllTypedActs(acts, types)
    ensures var w := CyclesByTime(TimedWorld(None, 0), runs);
      && w.store.Some? && w.store.value.version == |runs|
      && AsLogSays(w.store.value, w.clock, LoadByTime(w.store, w.clock).repository)
      && var last := CyclesByTime(TimedWorld(None, 0), runs[..|runs|-1]);
         w.store.value.log == RunEntered(LoadByTime(last.store, last.clock), runs[|runs|-1], LogIn(last.store))
  {
    AllButLast(types, runs);
    CyclesNext(TimedWorld(None, 0), runs);
    hide *;
    CyclesKeep(types, runs[..|runs|-1]);
    CyclesKeep(types, runs);
    LastCycle(types, CyclesByTime(TimedWorld(None, 0), runs[..|runs|-1]), runs[|runs|-1]);
    var w := CyclesByTime(TimedWorld(None, 0), runs);
    StoredVersion(w);
  }

  lemma AllButLast(types: Id -> ModelType, runs: seq<seq<Act>>)
    requires runs != [] && forall acts <- runs :: AllTypedActs(acts, types)
    ensures AllTypedActs(runs[|runs|-1], types) && forall acts <- runs[..|runs|-1] :: AllTypedActs(acts, types)
  {
    hide *;
    assert forall acts <- runs[..|runs|-1] :: acts in runs;
  }

  lemma CyclesNext(w: TimedWorld, runs: seq<seq<Act>>)
    requires runs != []
    ensures CyclesByTime(w, runs) == CycleByTime(CyclesByTime(w, runs[..|runs|-1]), runs[|runs|-1])
  {
    hide CycleByTime;
  }

  lemma LastCycle(types: Id -> ModelType, last: TimedWorld, acts: seq<Act>)
    requires KeptWorld(last, types) && AllTypedActs(acts, types)
    ensures var w := CycleByTime(last, acts);
      && w.store.Some? && AsLogSays(w.store.value, w.clock, LoadByTime(w.store, w.clock).repository)
      && w.store.value.log == RunEntered(LoadByTime(last.store, last.clock), acts, LogIn(last.store))
  {
    CycleKeeps(last, types, acts);
    var w := CycleByTime(last, acts);
    assert w.store.Some?;
    StoredKept(w, types);
    hide *;
    LoadsKept(w, types);
    SaysSo(w.store.value, w.clock, types, LoadByTime(w.store, w.clock));
  }

  lemma StoredKept(w: TimedWorld, types: Id -> ModelType)
    requires KeptWorld(w, types) && w.store.Some?
    ensures Kept(w.store.value, w.clock, types) && LogIn(w.store) == w.store.value.log
  {
    hide Kept;
  }

  lemma StoredVersion(w: TimedWorld)
    ensures w.store.Some? ==> GetByTime(w.store, w.clock).version == w.store.value.version
  {
  }

  lemma SaysSo(t: Table, clock: nat, types: Id -> ModelType, loaded: App)
    requires Kept(t, clock, types) && Good(loaded, t.log, types) && loaded.clock == clock
    ensures AsLogSays(t, clock, loaded.repository)
  {
    hide OwnLog, FoldCore, Logged, Alike, Birth, Shaped, LogFits, LogsOwned, Distinct;
    var stored := AsStored(t, clock);
    forall k | k in t.snapshot ensures GoodModel(stored.repository[k], OwnLog(k, t.log, clock), types(k)) {
      assert k in stored.repository;
    }
  }

  /** The position can lie before other events: of two models the first one logs last, and its event, though in the
      snapshot, is handed out again. */
  lemma TailCanRepeat(a: Id, b: Id)
    requires a != b
    ensures var acts := [Add(a, SequenceMachine, EMPTY_META), Raise(SequenceActivated(b)), Raise(SequenceActivated(a))];
      var w := CycleByTime(TimedWorld(None, 0), acts);
      && w.store.Some? && w.store.value.position == Some(0)
      && GetByTime(w.store, w.clock).events ==
           [Stamped(SequenceActivated(a), 1, SequenceMachine, a, EMPTY_META)]
  {
    var acts := [Add(a, SequenceMachine, EMPTY_META), Raise(SequenceActivated(b)), Raise(SequenceActivated(a))];
    var start := App(NO_MODELS, [], 0);
    ThreeSteps(start, acts[0], acts[1], acts[2]);
    assert LoadByTime(None, 0) == start by { EmptyLoad(); }
    TwoActivated(a, b);
    var end := Step(Step(Step(start, acts[0]), acts[1]), acts[2]);
    var x := Stamped(SequenceActivated(a), 1, SequenceMachine, a, EMPTY_META);
    var y := Stamped(SequenceActivated(b), 0, SequenceMachine, b, EMPTY_META);
    TwoGroups(end, a, b, x, y);
    TwoWritten(end, x, y);
    hide Run, Step, LoadByTime, Grouped, PersistByTime, GetByTime;
  }

  lemma TwoWritten(end: App, x: Stamped, y: Stamped)
    requires Grouped(end.repository, end.keys) == [x, y] && x.timeuuid == 1 && y.timeuuid == 0
    ensures var t := PersistByTime(None, GetByTime(None, 0), end);
      t.position == Some(0) && GetByTime(Some(t), 2).events == [x]
  {
    var t := PersistByTime(None, GetByTime(None, 0), end);
    assert [x, y][..1] == [x] && [x][..0] == [];
    assert Put(map[], []) == map[] && Put(map[], [x]) == map[1 := x];
    assert t.log == map[1 := x][0 := y];
    assert InOrder(t.log, 1, 1) == [];
    assert InOrder(t.log, 1, 2) == [x];
  }

  lemma EmptyLoad()
    ensures LoadByTime(None, 0) == App(NO_MODELS, [], 0)
  {
    assert GetByTime(None, 0) == Row(0, map[], [], None, []);
  }

  lemma TwoGroups(end: App, a: Id, b: Id, x: Stamped, y: Stamped)
    requires end.keys == [a, b] && a in end.repository && b in end.repository
    requires end.repository[a].localEvents == [x] && end.repository[b].localEvents == [y]
    ensures Grouped(end.repository, end.keys) == [x, y]
  {
    assert [a, b][..1] == [a] && [a][..0] == [];
    assert Grouped(end.repository, []) == [];
    assert Grouped(end.repository, [a]) == [x];
  }

  /** What the three steps lead to. */
  lemma TwoActivated(a: Id, b: Id)
    requires a != b
    ensures var end := Step(Step(Step(App(NO_MODELS, [], 0), Add(a, SequenceMachine, EMPTY_META)),
                                 Raise(SequenceActivated(b))), Raise(SequenceActivated(a)));
      && end.keys == [a, b] && end.clock == 2 && a in end.repository && b in end.repository
      && end.repository[a].localEvents == [Stamped(SequenceActivated(a), 1, SequenceMachine, a, EMPTY_META)]
      && end.repository[b].localEvents == [Stamped(SequenceActivated(b), 0, SequenceMachine, b, EMPTY_META)]
  {
    UngroundedHandlers(a);
    UngroundedHandlers(b);
    hide HandleEvent, Birth;
    var one := Step(App(NO_MODELS, [], 0), Add(a, SequenceMachine, EMPTY_META));
    var two := Step(one, Raise(SequenceActivated(b)));
    assert two.keys == [a, b] && two.repository[a] == one.repository[a];
  }
}
