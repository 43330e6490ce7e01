/** Commands and jobs on the store that hands out events in the order of their timeuuids. */
module FlowTimed {
  import opened Wrappers
  import opened FlowTypes
  import opened FlowMachines
  import opened FlowSpec
  import opened FlowReplay
  import opened FlowRedo
  import opened FlowTimeline
  import opened FlowByTime
  import opened FlowTokens
  import opened FlowJobs
  import opened FlowCommands

  // ---- cycles of commands ----

  function MoveCycle(w: TimedWorld, moves: seq<Move>): TimedWorld {
    var app := ExecutedAll(LoadByTime(w.store, w.clock), moves);
    TimedWorld(Some(PersistByTime(w.store, GetByTime(w.store, w.clock), app)), app.clock)
  }

  function MoveCycles(runs: seq<seq<Move>>): TimedWorld {
    if runs == [] then TimedWorld(None, 0) else MoveCycle(MoveCycles(runs[..|runs|-1]), runs[|runs|-1])
  }

  function LoadedAt(w: TimedWorld): App { LoadByTime(w.store, w.clock) }

  /** The type a machine gives to an element. */
  function TypeIn(machine: Machine, el: Element): ModelType {
    match machine
    case EventMachine => EventType(el)
    case GatewayMachine => GatewayType(el)
    case TaskMachine => TaskType(el)
    case _ => NoType
  }

  /** The element a command brings along, if any. */
  function ElementOf(c: Command): Option<Element> {
    match c
    case ActivateElement(el, _, _) => Some(el)
    case RaiseEvent(el, _) => Some(el)
    case _ => None
  }

  /** The model that gets a command activates its element as what it always is. */
  ghost predicate TypedMove(app: App, move: Move, types: Id -> ModelType) {
    match move
    case Outside(act) => Typed(act, types)
    case Routed(c) =>
      var machine := if c.uid in app.repository then app.repository[c.uid].machine else c.machine;
      machine in {EventMachine, GatewayMachine, TaskMachine} && ElementOf(c.command).Some? ==>
        TypeIn(machine, ElementOf(c.command).value) == types(ElementOf(c.command).value.id)
  }

  ghost predicate TypedMoves(app: App, moves: seq<Move>, types: Id -> ModelType) {
    moves == [] ||
    var init := moves[..|moves|-1];
    TypedMoves(app, init, types) && TypedMove(ExecutedAll(app, init), moves[|moves|-1], types)
  }

  ghost predicate TypedCycles(runs: seq<seq<Move>>, types: Id -> ModelType) {
    runs == [] ||
    var init := runs[..|runs|-1];
    TypedCycles(init, types) && TypedMoves(LoadedAt(MoveCycles(init)), runs[|runs|-1], types)
  }

  /** What the actions emit carries the type of its element. */
  ghost predicate AllTypedEmits(actions: seq<Action>, types: Id -> ModelType) {
    forall a <- actions :: a.Emit? ==> TypedAs(a.event, types(Target(a.event)))
  }

  lemma TypedStateEmits(uid: Id, machine: Machine, core: Core, c: Command, env: Env, types: Id -> ModelType)
    ensures var found := TypeStateCommand(uid, machine, core, c, env); found.Some? ==> AllTypedEmits(found.value, types)
  {
    if machine.EventMachine? && core.state.Activated? {
      hide TaskCommand;
    } else if machine.TaskMachine? && core.context.element.Some? {
      TaskEmits(uid, core, core.context.element.value, c, env, types);
      hide TaskCommand;
    }
  }

  lemma TaskEmits(uid: Id, core: Core, el: Element, c: Command, env: Env, types: Id -> ModelType)
    ensures var found := TaskCommand(uid, core, el, c, env); found.Some? ==> AllTypedEmits(found.value, types)
  {
  }

  /** Only activations carry a type, and they are emitted for the element of the command. */
  lemma HandlersTyped(uid: Id, machine: Machine, core: Core, c: Command, env: Env, types: Id -> ModelType)
    requires machine in {EventMachine, GatewayMachine, TaskMachine} && ElementOf(c).Some? ==>
      TypeIn(machine, ElementOf(c).value) == types(ElementOf(c).value.id)
    ensures var found := HandleCommand(uid, machine, core, c, env); found.Some? ==> AllTypedEmits(found.value, types)
  {
    TypedStateEmits(uid, machine, core, c, env, types);
    hide TypeStateCommand;
  }

  lemma EmittedTyped(e: Event, actions: seq<Action>, types: Id -> ModelType)
    requires EmittedBy(e, actions) && AllTypedEmits(actions, types)
    ensures TypedAs(e, types(Target(e)))
  {
  }

  ghost predicate Ids(app: App) { forall k :: k in app.repository ==> app.repository[k].uid == k }

  lemma MoveTyped(app: App, move: Move, types: Id -> ModelType) returns (acts: seq<Act>)
    requires Ids(app) && TypedMove(app, move, types)
    ensures Run(app, acts) == Moved(app, move) && AllTypedActs(acts, types)
  {
    match move
    case Outside(act) =>
      acts := [act];
      RunConcat(app, [], act);
      assert [] + [act] == [act];
      assert Run(app, []) == app;
    case Routed(c) =>
      ActionsTyped(app, c, types);
      acts := ExecutedIsRun(app, c);
      hide *;
      RaisedTyped(acts, Add(c.uid, c.machine, c.meta), ActionsOf(app, c), types);
  }

  lemma ActionsTyped(app: App, c: Call, types: Id -> ModelType)
    requires TypedMove(app, Routed(c), types)
    ensures AllTypedEmits(ActionsOf(app, c), types) && Moved(app, Routed(c)) == Executed(app, c)
  {
    var m := AddModel(app, c.uid, c.machine, c.meta, None).repository[c.uid];
    HandlersTyped(c.uid, m.machine, m.core, c.command, c.env, types);
    hide HandleCommand, AllTypedEmits, Executed;
  }

  lemma RaisedTyped(acts: seq<Act>, first: Act, actions: seq<Action>, types: Id -> ModelType)
    requires acts != [] && acts[0] == first && first.Add? && AllTypedEmits(actions, types)
    requires forall a <- acts[1..] :: a.Raise? && EmittedBy(a.event, actions)
    ensures AllTypedActs(acts, types)
  {
    hide AllTypedEmits, EmittedBy, TypedAs;
    forall a | a in acts ensures Typed(a, types) {
      if a != acts[0] {
        assert a in acts[1..];
        EmittedTyped(a.event, actions, types);
      }
    }
  }

  lemma {:induction false} MovesTyped(app: App, moves: seq<Move>, types: Id -> ModelType) returns (acts: seq<Act>)
    requires Ids(app) && TypedMoves(app, moves, types)
    ensures Run(app, acts) == ExecutedAll(app, moves) && AllTypedActs(acts, types)
  {
    if moves == [] {
      acts := [];
    } else {
      acts := MovesTyped(app, moves[..|moves|-1], types);
      RunKeepsIds(app, acts);
      hide Run, Moved, TypedMove, Typed;
      var more := MoveTyped(Run(app, acts), moves[|moves|-1], types);
      RunsCompose(app, acts, more);
      assert forall a <- acts + more :: a in acts || a in more;
      acts := acts + more;
    }
  }

  /** One cycle of commands is a cycle. */
  lemma MoveCycleKeeps(w: TimedWorld, moves: seq<Move>, types: Id -> ModelType) returns (acts: seq<Act>)
    requires KeptWorld(w, types) && TypedMoves(LoadedAt(w), moves, types)
    ensures AllTypedActs(acts, types) && MoveCycle(w, moves) == CycleByTime(w, acts)
    ensures var next := MoveCycle(w, moves);
      KeptWorld(next, types) && next.store.value.version == GetByTime(w.store, w.clock).version + 1
    ensures Run(LoadedAt(w), acts) == ExecutedAll(LoadedAt(w), moves)
  {
    LoadsKept(w, types);
    LoadedIds(LoadedAt(w), LogIn(w.store), types);
    hide KeptWorld, LoadByTime, ExecutedAll, Run, AllTypedActs, TypedMoves, PersistByTime, GetByTime, Good, Mirrors;
    acts := MovesTyped(LoadedAt(w), moves, types);
    CycleKeeps(w, types, acts);
  }

  lemma LoadedIds(app: App, log: map<nat, Stamped>, types: Id -> ModelType)
    requires Good(app, log, types)
    ensures Ids(app)
  {
    hide ModelsGood, LogFits, Distinct;
  }

  lemma {:induction false} MoveCyclesAreCycles(runs: seq<seq<Move>>, types: Id -> ModelType)
      returns (acts: seq<seq<Act>>)
    requires TypedCycles(runs, types)
    ensures |acts| == |runs| && CyclesByTime(TimedWorld(None, 0), acts) == MoveCycles(runs)
    ensures forall a <- acts :: AllTypedActs(a, types)
    ensures var w := MoveCycles(runs); KeptWorld(w, types) && GetByTime(w.store, w.clock).version == |runs|
  {
    if runs == [] {
      acts := [];
    } else {
      var init := MoveCyclesAreCycles(runs[..|runs|-1], types);
      hide MoveCycle, CycleByTime, KeptWorld, TypedMoves, AllTypedActs;
      var last := MoveCycleKeeps(MoveCycles(runs[..|runs|-1]), runs[|runs|-1], types);
      acts := init + [last];
      assert acts[..|acts|-1] == init;
      StoredVersion(MoveCycles(runs));
      MoveCycleStored(MoveCycles(runs[..|runs|-1]), runs[|runs|-1]);
    }
  }

  lemma MoveCycleStored(w: TimedWorld, moves: seq<Move>)
    ensures MoveCycle(w, moves).store.Some?
  {
    hide PersistByTime;
  }

  /** After any number of cycles of commands, mixed with whatever the instance machine does: the version counts them,
      and neither a stored nor a loaded model shows that events were handed out and applied once more. */
  lemma TailDoesNoHarmToCommands(types: Id -> ModelType, runs: seq<seq<Move>>)
    requires runs != [] && TypedCycles(runs, types)
    ensures var w := MoveCycles(runs);
      && w.store.Some? && w.store.value.version == |runs|
      && AsLogSays(w.store.value, w.clock, LoadByTime(w.store, w.clock).repository)
  {
    var acts := MoveCyclesAreCycles(runs, types);
    hide *;
    TailDoesNoHarm(types, acts);
  }

  // ---- jobs ----

  /** Ids of jobs are new, jobs carry the version of the application, and only jobs there are get committed. */
  ghost predicate JobCycles(runs: seq<seq<Move>>) {
    runs == [] ||
    var w := MoveCycles(runs[..|runs|-1]);
    JobCycles(runs[..|runs|-1]) && JobMoves(LoadedAt(w), runs[|runs|-1], GetByTime(w.store, w.clock).version)
  }

  /** The jobs the commands of one cycle create, and those of all. */
  function JobsOfCycle(runs: seq<seq<Move>>, v: nat): set<Job>
    requires v < |runs|
  {
    JobsOfMoves(LoadedAt(MoveCycles(runs[..v])), runs[v])
  }

  function Made(runs: seq<seq<Move>>): set<Job> {
    if runs == [] then {}
    else Made(runs[..|runs|-1]) + JobsOfMoves(LoadedAt(MoveCycles(runs[..|runs|-1])), runs[|runs|-1])
  }

  /** A job model that stands alike with its log stands exactly there. */
  lemma JobAlike(m: ModelValue, other: ModelValue, log: seq<Stamped>, typ: ModelType)
    requires GoodModel(m, log, typ) && GoodModel(other, log, typ)
    requires m.machine.JobMachine? && other.machine == m.machine && other.meta == m.meta
    ensures m.core == other.core
  {
    hide FoldCore, Logged, Shaped, Birth;
  }

  /** Loading gives the job models back exactly, even where their events were applied once more. */
  lemma JobsLoaded(t: Table, clock: nat, types: Id -> ModelType, before: App)
    requires Kept(t, clock, types) && t.position.Some? && Good(before, t.log, types) && before.clock == clock
    requires t.order == before.keys && t.snapshot == map k | k in before.repository :: SnapOf(before.repository[k])
    ensures var after := LoadByTime(Some(t), clock);
      && after.keys == before.keys && after.repository.Keys == before.repository.Keys
      && forall k <- after.repository ::
           after.repository[k].machine == before.repository[k].machine
           && (after.repository[k].machine.JobMachine? ==> after.repository[k].core == before.repository[k].core)
  {
    LoadsGood(t, clock, types);
    var after, stored := LoadByTime(Some(t), clock), AsStored(t, clock);
    assert after.repository.Keys == stored.repository.Keys == before.repository.Keys;
    hide LoadByTime, GoodModel, OwnLog, InOrder, Mirrors, LogFits, LogsOwned, Distinct, KeysMatch;
    forall k | k in after.repository
      ensures after.repository[k].machine == before.repository[k].machine
      ensures after.repository[k].machine.JobMachine? ==> after.repository[k].core == before.repository[k].core
    {
      assert Replayed(after.repository[k], stored.repository[k], InOrder(t.log, t.position.value + 1, clock));
      KindReplayed(after.repository[k], stored.repository[k], InOrder(t.log, t.position.value + 1, clock));
      if after.repository[k].machine.JobMachine? {
        JobAlike(after.repository[k], before.repository[k], OwnLog(k, t.log, clock), types(k));
      }
    }
  }

  lemma KindReplayed(m: ModelValue, stored: ModelValue, events: seq<Stamped>)
    requires Replayed(m, stored, events)
    ensures m.machine == stored.machine && m.meta == stored.meta
  {
  }

  lemma NoEventNoJob(m: ModelValue, typ: ModelType)
    requires GoodModel(m, [], typ) && m.machine.JobMachine?
    ensures m.core.context.job.None?
  {
    hide HandleEvent;
  }

  /** Without a single event there is no job. */
  lemma NoJobYet(app: App, types: Id -> ModelType, made: set<Job>)
    requires Good(app, map[], types) && Holds(app.repository, made)
    ensures made == {}
  {
    hide GoodModel, OwnLog, LogFits, LogsOwned;
    if j :| j in made {
      var m := app.repository[j.jobId];
      NothingOwned(j.jobId, app.clock);
      NoEventNoJob(m, types(j.jobId));
      assert false;
    }
  }

  lemma NothingOwned(k: Id, clock: nat)
    ensures OwnLog(k, map[], clock) == []
  {
    NothingStored(clock, _ => NoType);
  }

  lemma JobsReloaded(w: TimedWorld, moves: seq<Move>, types: Id -> ModelType, made: set<Job>)
    requires KeptWorld(w, types) && TypedMoves(LoadedAt(w), moves, types)
    requires Holds(ExecutedAll(LoadedAt(w), moves).repository, made)
    ensures Holds(LoadedAt(MoveCycle(w, moves)).repository, made)
  {
    hide *;
    var acts := MoveCycleKeeps(w, moves, types);
    LoadsKept(w, types);
    var start, app := LoadedAt(w), ExecutedAll(LoadedAt(w), moves);
    var log := RunEntered(start, acts, LogIn(w.store));
    PersistedTable(w, moves);
    RunGood(start, LogIn(w.store), LogIn(w.store), types, acts);
    PersistsKept(w, types, app, log);
    TableHolds(MoveCycle(w, moves), app, log, types, made);
  }

  lemma PersistedTable(w: TimedWorld, moves: seq<Move>)
    ensures var app, next := ExecutedAll(LoadedAt(w), moves), MoveCycle(w, moves);
      && next.store == Some(PersistByTime(w.store, GetByTime(w.store, w.clock), app))
      && next.clock == app.clock && next.store.value.order == app.keys
      && next.store.value.snapshot == map k | k in app.repository :: SnapOf(app.repository[k])
    ensures LoadedAt(w) == LoadByTime(w.store, w.clock)
  {
    hide ExecutedAll, LoadByTime, GetByTime, Grouped, Put;
  }

  lemma TableHolds(w: TimedWorld, app: App, log: map<nat, Stamped>, types: Id -> ModelType, made: set<Job>)
    requires w.store.Some? && Kept(w.store.value, w.clock, types) && w.store.value.log == log && w.clock == app.clock
    requires Good(app, log, types) && Holds(app.repository, made)
    requires w.store.value.order == app.keys
    requires w.store.value.snapshot == map k | k in app.repository :: SnapOf(app.repository[k])
    ensures Holds(LoadedAt(w).repository, made)
  {
    var t := w.store.value;
    assert w.store == Some(t);
    if t.position.Some? {
      hide Kept, Good, LoadByTime, Holds;
      JobsLoaded(t, w.clock, types, app);
      SameJobsHold(app.repository, LoadByTime(w.store, w.clock).repository, made);
    } else {
      assert t.log == map[];
      NoJobYet(app, types, made);
      LoadedNothing(w);
      NothingHolds();
    }
  }

  lemma NothingHolds()
    ensures Holds(NO_MODELS, {})
  {
  }

  lemma LoadedNothing(w: TimedWorld)
    requires w.store.Some? && w.store.value.position.None? && w.store.value.log == map[]
    ensures LoadedAt(w) == App(NO_MODELS, [], w.clock)
  {
    NothingStored(w.clock, _ => NoType);
    var loaded := GetByTime(w.store, w.clock);
    assert loaded.order == [] && loaded.snapshot == map[] && loaded.events == [];
  }

  lemma SameJobsHold(a: map<Id, ModelValue>, b: map<Id, ModelValue>, made: set<Job>)
    requires Holds(a, made) && b.Keys == a.Keys
    requires forall k <- b :: b[k].machine == a[k].machine && (b[k].machine.JobMachine? ==> b[k].core == a[k].core)
    ensures Holds(b, made)
  {
  }

  lemma JobCycle(w: TimedWorld, moves: seq<Move>, types: Id -> ModelType, made: set<Job>)
    requires KeptWorld(w, types) && TypedMoves(LoadedAt(w), moves, types) && Holds(LoadedAt(w).repository, made)
    requires JobMoves(LoadedAt(w), moves, GetByTime(w.store, w.clock).version)
    ensures Holds(LoadedAt(MoveCycle(w, moves)).repository, made + JobsOfMoves(LoadedAt(w), moves))
    ensures forall j <- JobsOfMoves(LoadedAt(w), moves) :: j.version == GetByTime(w.store, w.clock).version
  {
    LoadsKept(w, types);
    LoadedIds(LoadedAt(w), LogIn(w.store), types);
    assert Ids(LoadedAt(w)) ==> forall k :: k in LoadedAt(w).repository ==> LoadedAt(w).repository[k].uid == k;
    hide *;
    var version := GetByTime(w.store, w.clock).version;
    var acts := MovesAreJobRun(LoadedAt(w), moves, version);
    RunHolds(LoadedAt(w), acts, version, made);
    JobsReloaded(w, moves, types, made + JobsOfMoves(LoadedAt(w), moves));
  }

  /** The jobs of a cycle are those that carry its number. */
  ghost predicate ByVersion(made: set<Job>, runs: seq<seq<Move>>) {
    && (forall j <- made :: j.version < |runs| && j in JobsOfCycle(runs, j.version))
    && forall v: nat, j: Job :: v < |runs| && j in JobsOfCycle(runs, v) ==> j in made && j.version == v
  }

  lemma {:induction false} MadeHold(runs: seq<seq<Move>>, types: Id -> ModelType)
    requires TypedCycles(runs, types) && JobCycles(runs)
    ensures Holds(LoadedAt(MoveCycles(runs)).repository, Made(runs)) && ByVersion(Made(runs), runs)
  {
    if runs == [] {
      NothingAtStart();
    } else {
      LastOfJobs(runs, types);
      hide *;
      var init := runs[..|runs|-1];
      var w := MoveCycles(init);
      MadeHold(init, types);
      var acts := MoveCyclesAreCycles(init, types);
      JobCycle(w, runs[|runs|-1], types, Made(init));
      VersionMore(runs, Made(init));
    }
  }

  lemma VersionMore(runs: seq<seq<Move>>, made: set<Job>)
    requires runs != [] && ByVersion(made, runs[..|runs|-1])
    requires forall j <- JobsOfCycle(runs, |runs| - 1) :: j.version == |runs| - 1
    ensures ByVersion(made + JobsOfCycle(runs, |runs| - 1), runs)
  {
    hide JobsOfCycle;
    var all := made + JobsOfCycle(runs, |runs| - 1);
    forall j | j in all ensures j.version < |runs| && j in JobsOfCycle(runs, j.version) {
      if j in made {
        EarlierCycle(runs, j.version);
      }
    }
    forall v: nat, j: Job | v < |runs| && j in JobsOfCycle(runs, v) ensures j in all && j.version == v {
      if v + 1 < |runs| {
        EarlierCycle(runs, v);
      }
    }
  }

  lemma NothingAtStart()
    ensures LoadedAt(MoveCycles([])) == App(NO_MODELS, [], 0) && Made([]) == {} && Holds(NO_MODELS, {})
    ensures ByVersion({}, [])
  {
    EmptyLoad();
  }

  /** The last of some cycles. */
  lemma LastOfJobs(runs: seq<seq<Move>>, types: Id -> ModelType)
    requires runs != [] && TypedCycles(runs, types) && JobCycles(runs)
    ensures var init, moves := runs[..|runs|-1], runs[|runs|-1];
      var w := MoveCycles(init);
      && MoveCycles(runs) == MoveCycle(w, moves)
      && TypedCycles(init, types) && JobCycles(init)
      && TypedMoves(LoadedAt(w), moves, types) && JobMoves(LoadedAt(w), moves, GetByTime(w.store, w.clock).version)
      && Made(runs) == Made(init) + JobsOfMoves(LoadedAt(w), moves)
      && JobsOfCycle(runs, |runs| - 1) == JobsOfMoves(LoadedAt(w), moves)
  {
    hide MoveCycle, LoadedAt, TypedMoves, JobMoves, JobsOfMoves, GetByTime;
  }

  lemma EarlierCycle(runs: seq<seq<Move>>, v: nat)
    requires v + 1 < |runs|
    ensures JobsOfCycle(runs[..|runs|-1], v) == JobsOfCycle(runs, v)
  {
    hide MoveCycles, LoadedAt, JobsOfMoves;
    assert runs[..|runs|-1][..v] == runs[..v];
  }

  /** On this store too, over any number of cycles of commands: the list of a version holds exactly the jobs the
      commands of that cycle created, each once, so every job is in exactly one list. */
  lemma JobsInOneListByTime(runs: seq<seq<Move>>, types: Id -> ModelType, version: nat)
    requires TypedCycles(runs, types) && JobCycles(runs)
    ensures var app := LoadedAt(MoveCycles(runs));
      var list := JobsOf(AllJobs(app.repository, app.keys), version);
      && list.Some? && NoDuplicates(list.value)
      && forall j :: j in list.value <==> version < |runs| && j in JobsOfCycle(runs, version)
  {
    hide *;
    var acts := MoveCyclesAreCycles(runs, types);
    var w := MoveCycles(runs);
    LoadsKept(w, types);
    LoadedAs(w);
    LoadedKeys(LoadedAt(w), LogIn(w.store), types);
    var app := LoadedAt(w);
    MadeHold(runs, types);
    HeldIds(app.repository, Made(runs));
    JobsListed(app.repository, app.keys, Made(runs), version);
    SaysVersion(Made(runs), runs, version);
  }

  lemma LoadedAs(w: TimedWorld)
    ensures LoadedAt(w) == LoadByTime(w.store, w.clock)
  {
  }

  lemma LoadedKeys(app: App, log: map<nat, Stamped>, types: Id -> ModelType)
    requires Good(app, log, types)
    ensures Distinct(app.keys) && forall k :: k in app.repository ==> k in app.keys
  {
    hide ModelsGood, LogFits, LogsOwned, Distinct;
  }

  lemma SaysVersion(made: set<Job>, runs: seq<seq<Move>>, version: nat)
    requires ByVersion(made, runs)
    ensures forall j :: j in made && j.version == version <==> version < |runs| && j in JobsOfCycle(runs, version)
  {
    hide JobsOfCycle;
  }

  lemma HeldIds(repository: map<Id, ModelValue>, made: set<Job>)
    requires Holds(repository, made)
    ensures forall j <- made :: j.jobId in repository
  {
  }
}
