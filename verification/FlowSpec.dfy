/** The application as a value: what the methods of the classes compute. */
module FlowSpec {
  import opened Wrappers
  import opened FlowTypes
  import opened FlowMachines

  datatype ModelValue = ModelValue(uid: Id, machine: Machine, meta: Meta, core: Core, localEvents: seq<Stamped>)

  /** The state a model is created with when no snapshot exists. */
  function Birth(machine: Machine, meta: Meta): Core {
    Init(machine, meta, Core(NoType, InitialState(machine), EMPTY_CONTEXT))
  }

  /** The init function of a machine; only sequences have one that does something. */
  function Init(machine: Machine, meta: Meta, core: Core): Core {
    if machine.SequenceMachine? then core.(context := core.context.(element := meta.element)) else core
  }

  function NewModel(uid: Id, machine: Machine, meta: Meta, snapshot: Option<Snap>): ModelValue {
    var core := if snapshot.Some? then Init(machine, meta, snapshot.value.core) else Birth(machine, meta);
    ModelValue(uid, machine, meta, core, [])
  }

  function Stamp(m: ModelValue, e: Event, clock: nat): Stamped {
    Stamped(e, clock, m.machine, m.uid, m.meta)
  }

  /** Applying an event: it is logged exactly when a handler ran to its end. */
  function Apply(m: ModelValue, s: Stamped): ModelValue {
    match HandleEvent(m.machine, m.core, s.event)
    case NotHandled => m
    case Threw(core) => m.(core := core)
    case Handled(core, _) => m.(core := core, localEvents := m.localEvents + [s])
  }

  function Issued(m: ModelValue, e: Event): seq<Command> {
    var outcome := HandleEvent(m.machine, m.core, e);
    if outcome.Handled? then outcome.executes else []
  }

  /** A command handler under way: the model, the commands issued so far, the events applied to the model,
      and the events for other models. */
  datatype Ran = Ran(model: ModelValue, executes: seq<Command>, applied: seq<Event>, others: seq<Event>, clock: nat)

  function EmitFrom(r: Ran, e: Event): Ran {
    if Target(e) != r.model.uid then r.(others := r.others + [e])
    else Ran(Apply(r.model, Stamp(r.model, e, r.clock)), r.executes + Issued(r.model, e),
             r.applied + (if HandleEvent(r.model.machine, r.model.core, e).Handled? then [e] else []), r.others,
             r.clock + 1)
  }

  function Perform(r: Ran, action: Action): Ran {
    match action
    case Emit(e) => EmitFrom(r, e)
    case Execute(c) => r.(executes := r.executes + [c])
    case JoinCheck =>
      var ctx := r.model.core.context;
      if ctx.element.Some? && |ctx.incoming| == |ctx.element.value.incoming|
      then EmitFrom(r, GatewayCompleted(ctx.element.value.id)) else r
  }

  function PerformAll(r: Ran, actions: seq<Action>): Ran {
    if actions == [] then r else Perform(PerformAll(r, actions[..|actions|-1]), actions[|actions|-1])
  }

  /** A command dispatched to a model and run to completion. */
  function Dispatch(m: ModelValue, c: Command, env: Env, clock: nat): Ran {
    var actions := HandleCommand(m.uid, m.machine, m.core, c, env);
    PerformAll(Ran(m, [], [], [], clock), if actions.Some? then actions.value else [])
  }

  /** The model after its application was persisted and loaded. */
  function Reloaded(m: ModelValue): ModelValue { NewModel(m.uid, m.machine, m.meta, Some(SnapOf(m))) }

  /** `keys` is the insertion order of the repository; `clock` gives the next timeuuid. */
  datatype App = App(repository: map<Id, ModelValue>, keys: seq<Id>, clock: nat)

  const NO_MODELS: map<Id, ModelValue> := map[]

  function AddModel(app: App, uid: Id, machine: Machine, meta: Meta, snapshot: Option<Snap>): App {
    if uid in app.repository then app
    else app.(repository := app.repository[uid := NewModel(uid, machine, meta, snapshot)], keys := app.keys + [uid])
  }

  /** Emitting: the event handler adds a missing model without meta data and applies the event. */
  function Emitted(app: App, e: Event): App {
    var uid := Target(e);
    var known := AddModel(app, uid, MachineOf(e), EMPTY_META, None);
    var m := known.repository[uid];
    known.(repository := known.repository[uid := Apply(m, Stamp(m, e, known.clock))], clock := known.clock + 1)
  }

  /** What a run does to the repository: models are added and events emitted. Which command or which
      machine causes it makes no difference, so the runs quantify over every sequence of acts. */
  datatype Act = Add(uid: Id, machine: Machine, meta: Meta) | Raise(event: Event)

  function Step(app: App, act: Act): App {
    match act
    case Add(uid, machine, meta) => AddModel(app, uid, machine, meta, None)
    case Raise(e) => Emitted(app, e)
  }

  function Run(app: App, acts: seq<Act>): App {
    if acts == [] then app else Step(Run(app, acts[..|acts|-1]), acts[|acts|-1])
  }

  /** The local events of the models in `keys`, one model after the other. */
  function Grouped(repository: map<Id, ModelValue>, keys: seq<Id>): seq<Stamped> {
    if keys == [] then [] else
    Grouped(repository, keys[..|keys|-1]) + LocalEvents(repository, keys[|keys|-1])
  }

  function LocalEvents(repository: map<Id, ModelValue>, k: Id): seq<Stamped> {
    if k in repository then repository[k].localEvents else []
  }

  function EmitAll(app: App, events: seq<Event>): App {
    if events == [] then app else Emitted(EmitAll(app, events[..|events|-1]), events[|events|-1])
  }

  /** A command and the model it is routed to. `meta` is what the model is added with if it is missing: the
      instance machine adds the model of an element together with the element, the bus adds one without. */
  datatype Call = Call(uid: Id, machine: Machine, meta: Meta, command: Command, env: Env)

  /** The model is looked up or added, the command dispatched to it, and the events it emitted for other models
      are applied. */
  function Executed(app: App, c: Call): App {
    var known := AddModel(app, c.uid, c.machine, c.meta, None);
    var r := Dispatch(known.repository[c.uid], c.command, c.env, known.clock);
    EmitAll(App(known.repository[c.uid := r.model], known.keys, r.clock), r.others)
  }

  /** What may come next: a command for an element or a job, or whatever the instance machine does, whose handlers
      are not modelled. */
  datatype Move = Routed(call: Call) | Outside(act: Act)

  function Moved(app: App, move: Move): App {
    match move
    case Routed(call) => Executed(app, call)
    case Outside(act) => Step(app, act)
  }

  function ExecutedAll(app: App, moves: seq<Move>): App {
    if moves == [] then app else Moved(ExecutedAll(app, moves[..|moves|-1]), moves[|moves|-1])
  }

  // ---- the commands issued on the way ----

  function EmittedIssues(app: App, e: Event): seq<Command> {
    Issued(AddModel(app, Target(e), MachineOf(e), EMPTY_META, None).repository[Target(e)], e)
  }

  function EmitAllIssues(app: App, events: seq<Event>): seq<Command> {
    if events == [] then []
    else
      var init := events[..|events|-1];
      EmitAllIssues(app, init) + EmittedIssues(EmitAll(app, init), events[|events|-1])
  }

  function ExecutedIssues(app: App, c: Call): seq<Command> {
    var known := AddModel(app, c.uid, c.machine, c.meta, None);
    var r := Dispatch(known.repository[c.uid], c.command, c.env, known.clock);
    r.executes + EmitAllIssues(App(known.repository[c.uid := r.model], known.keys, r.clock), r.others)
  }

  // ---- restore ----

  function RestoreModels(order: seq<Id>, snapshot: map<Id, Snap>, clock: nat): App {
    if order == [] then App(NO_MODELS, [], clock) else
    var uid := order[|order|-1];
    var before := RestoreModels(order[..|order|-1], snapshot, clock);
    if uid in snapshot then AddModel(before, uid, snapshot[uid].machine, snapshot[uid].meta, Some(snapshot[uid]))
    else before
  }

  function Lookup(snapshot: map<Id, Snap>, uid: Id): Option<Snap> {
    if uid in snapshot then Some(snapshot[uid]) else None
  }

  function ReplayEvent(app: App, snapshot: map<Id, Snap>, s: Stamped): App {
    var known := AddModel(app, s.modelId, s.machine, s.meta, Lookup(snapshot, s.modelId));
    known.(repository := known.repository[s.modelId := Apply(known.repository[s.modelId], s)])
  }

  function Replay(app: App, snapshot: map<Id, Snap>, events: seq<Stamped>): App {
    if events == [] then app else ReplayEvent(Replay(app, snapshot, events[..|events|-1]), snapshot, events[|events|-1])
  }

  // ---- database ----

  /** The stored application. `order` is the key order of the snapshot object. */
  datatype Row = Row(version: nat, snapshot: map<Id, Snap>, order: seq<Id>, timeuuid: Option<nat>, events: seq<Stamped>)

  const EMPTY_ROW := Row(0, map[], [], None, [])

  /** `findIndex`: the first event with this timeuuid, -1 if there is none. */
  function IndexOf(events: seq<Stamped>, timeuuid: Option<nat>): (i: int)
    ensures -1 <= i < |events|
    ensures i == -1 <==> forall j :: 0 <= j < |events| ==> Some(events[j].timeuuid) != timeuuid
    ensures i >= 0 ==>
      Some(events[i].timeuuid) == timeuuid && forall j :: 0 <= j < i ==> Some(events[j].timeuuid) != timeuuid
  {
    if events == [] then -1
    else if Some(events[0].timeuuid) == timeuuid then 0
    else var i := IndexOf(events[1..], timeuuid); if i == -1 then -1 else i + 1
  }

  /** What `getApp` hands out: the snapshot with the events after its position, or everything logged. */
  function GetApp(store: Option<Row>, fromBeginning: bool): Row {
    match store
    case None => EMPTY_ROW
    case Some(row) =>
      if fromBeginning then Row(row.version, map[], [], None, row.events)
      else row.(events := row.events[IndexOf(row.events, row.timeuuid) + 1..])
  }

  function Load(store: Option<Row>, clock: nat): App {
    var loaded := GetApp(store, false);
    Replay(RestoreModels(loaded.order, loaded.snapshot, clock), loaded.snapshot, loaded.events)
  }

  function SnapOf(m: ModelValue): Snap { Snap(m.core, m.machine, m.meta) }

  /** `persist`: the grouped local events are appended and every model enters the snapshot. The position is
      the last event of the list, because sorting uuid strings by subtraction leaves the list as it is. */
  function Persist(store: Option<Row>, loaded: Row, app: App): Row {
    var events := Grouped(app.repository, app.keys);
    Row(loaded.version + 1,
        map k | k in app.repository :: SnapOf(app.repository[k]),
        app.keys,
        if events != [] then Some(events[|events|-1].timeuuid) else loaded.timeuuid,
        (if store.Some? then store.value.events else []) + events)
  }

  /** The jobs of the job models, in repository order; an absent job is the source's undefined. */
  function AllJobs(repository: map<Id, ModelValue>, keys: seq<Id>): seq<Option<Job>> {
    if keys == [] then [] else
    var k := keys[|keys|-1];
    AllJobs(repository, keys[..|keys|-1])
      + if k in repository && repository[k].machine.JobMachine? then [repository[k].core.context.job] else []
  }

  /** `getJobs`: the jobs of one version; None where reading the version of an absent job throws. */
  function JobsOf(jobs: seq<Option<Job>>, version: nat): Option<seq<Job>> {
    if jobs == [] then Some([]) else
    var before, job := JobsOf(jobs[..|jobs|-1], version), jobs[|jobs|-1];
    if before.None? || job.None? then None
    else if job.value.version == version then Some(before.value + [job.value]) else before
  }

  /** The store between two cycles, and the next free timeuuid. */
  datatype World = World(store: Option<Row>, clock: nat)

  /** One cycle: load, run, persist. */
  function Cycle(w: World, acts: seq<Act>): World {
    var app := Run(Load(w.store, w.clock), acts);
    World(Some(Persist(w.store, GetApp(w.store, false), app)), app.clock)
  }

  function Cycles(w: World, runs: seq<seq<Act>>): World {
    if runs == [] then w else Cycle(Cycles(w, runs[..|runs|-1]), runs[|runs|-1])
  }
}
