/** One model of an application, seen alone: what whole cycles of commands do to it is a run of its own steps, so the
    theorems on joins and tokens hold of every model of a running application. */
module FlowProjection {
  import opened Wrappers
  import opened FlowTypes
  import opened FlowMachines
  import opened FlowSpec
  import opened FlowReplay
  import opened FlowRedo
  import opened FlowTokens
  import opened FlowCommands

  // ---- routing ----

  /** The command goes to the model it names, with an id nobody has. */
  ghost predicate WellRouted(c: Call) {
    && Addressed(c.uid, Do(c.command, c.env))
    && (c.command.CommitJob? ==> c.command.jobId == c.uid)
    && (c.meta.element.Some? ==> c.meta.element.value.id == c.uid)
  }

  /** An activation brings the element of the model it is for. */
  ghost predicate Fitting(e: Event) { ActivatedElement(e).Some? ==> ActivatedElement(e).value.id == Target(e) }

  /** The move is well routed, and nobody but the command routed to a model changes it: ids drawn by the engine are new,
      and the instance machine leaves the models of elements and jobs to their commands. */
  ghost predicate Spares(move: Move, uid: Id) {
    match move
    case Routed(c) => WellRouted(c) && c.env.freshId != uid
    case Outside(Add(u, _, meta)) => u != uid && (meta.element.Some? ==> meta.element.value.id == u)
    case Outside(Raise(e)) => Target(e) != uid && Fitting(e)
  }

  /** Every model is registered under the id of its element. */
  ghost predicate Rooted(app: App) {
    forall k :: k in app.repository ==> app.repository[k].uid == k && Registered(app.repository[k])
  }

  /** What a handler emits is for its own model, or creates a job under the new id. */
  ghost predicate OwnOrJob(e: Event, uid: Id, newId: Id) {
    (Target(e) == uid && Fitting(e)) || (e.JobCreated? && Target(e) == newId)
  }

  ghost predicate AllOwnOrJob(actions: seq<Action>, uid: Id, newId: Id) {
    forall a <- actions :: a.Emit? ==> OwnOrJob(a.event, uid, newId)
  }

  lemma TaskEmitsOwn(uid: Id, core: Core, el: Element, c: Command, env: Env)
    requires el.id == uid
    ensures var found := TaskCommand(uid, core, el, c, env);
      found.Some? ==> AllOwnOrJob(found.value, uid, env.freshId)
  {
  }

  lemma EventEmitsOwn(uid: Id, core: Core, c: Command, env: Env)
    requires core.state.Activated? && Addressed(uid, Do(c, env))
    requires core.context.element.Some? ==> core.context.element.value.id == uid
    ensures var found := TypeStateCommand(uid, EventMachine, core, c, env);
      found.Some? ==> AllOwnOrJob(found.value, uid, env.freshId)
  {
    hide TaskCommand;
  }

  lemma HandlersEmitOwn(uid: Id, machine: Machine, core: Core, c: Command, env: Env)
    requires Addressed(uid, Do(c, env)) && (c.CommitJob? ==> c.jobId == uid)
    requires core.context.element.Some? ==> core.context.element.value.id == uid
    ensures var found := HandleCommand(uid, machine, core, c, env);
      found.Some? ==> AllOwnOrJob(found.value, uid, env.freshId)
  {
    if machine.EventMachine? && core.state.Activated? {
      EventEmitsOwn(uid, core, c, env);
      hide TypeStateCommand;
    } else if machine.TaskMachine? && core.context.element.Some? {
      TaskEmitsOwn(uid, core, core.context.element.value, c, env);
      hide TaskCommand;
    }
  }

  /** An event keeps a model registered. */
  lemma AppliedRegistered(m: ModelValue, s: Stamped)
    requires Registered(m) && (Target(s.event) == m.uid ==> Fitting(s.event)) && Target(s.event) == m.uid
    ensures Registered(Apply(m, s)) && Apply(m, s).uid == m.uid
  {
    AppliedOnce(m, s);
    ElementWritten(m.machine, m.core, s.event);
    hide HandleEvent, Apply, After;
  }

  lemma ElementWritten(machine: Machine, core: Core, e: Event)
    ensures var next := After(machine, core, e).context.element;
      next == core.context.element || next == ActivatedElement(e)
  {
    TypedLookup(machine, core, e);
    hide TypeStateHandler;
  }

  lemma EmitRegistered(r: Ran, e: Event, newId: Id)
    requires Registered(r.model) && OwnOrJob(e, r.model.uid, newId)
    ensures var next := EmitFrom(r, e);
      && next.model.uid == r.model.uid && next.model.machine == r.model.machine && next.model.meta == r.model.meta
      && Registered(next.model)
      && forall x <- next.others :: x in r.others || (x.JobCreated? && Target(x) == newId)
  {
    if Target(e) == r.model.uid {
      AppliedRegistered(r.model, Stamp(r.model, e, r.clock));
      AppliedOnce(r.model, Stamp(r.model, e, r.clock));
    }
    hide HandleEvent, Apply, Issued, Registered;
  }

  lemma {:induction false} OthersAreJobs(r: Ran, actions: seq<Action>, newId: Id)
    requires Registered(r.model) && AllOwnOrJob(actions, r.model.uid, newId)
    ensures var done := PerformAll(r, actions);
      && done.model.uid == r.model.uid && done.model.machine == r.model.machine && done.model.meta == r.model.meta
      && Registered(done.model)
      && forall x <- done.others :: x in r.others || (x.JobCreated? && Target(x) == newId)
  {
    if actions != [] {
      var init, last := actions[..|actions|-1], actions[|actions|-1];
      assert actions == init + [last];
      OthersAreJobs(r, init, newId);
      var before := PerformAll(r, init);
      if last.Emit? {
        EmitRegistered(before, last.event, newId);
      } else if last.JoinCheck? && before.model.core.context.element.Some? {
        EmitRegistered(before, GatewayCompleted(before.model.uid), newId);
      }
      hide EmitFrom, PerformAll, OwnOrJob;
    }
  }

  lemma DispatchSpares(m: ModelValue, c: Call, clock: nat)
    requires Registered(m) && m.uid == c.uid && WellRouted(c)
    ensures var r := Dispatch(m, c.command, c.env, clock);
      && r.model.uid == m.uid && r.model.machine == m.machine && r.model.meta == m.meta && Registered(r.model)
      && forall x <- r.others :: x.JobCreated? && Target(x) == c.env.freshId
  {
    HandlersEmitOwn(m.uid, m.machine, m.core, c.command, c.env);
    var found := HandleCommand(m.uid, m.machine, m.core, c.command, c.env);
    OthersAreJobs(Ran(m, [], [], [], clock), if found.Some? then found.value else [], c.env.freshId);
    hide HandleCommand, PerformAll;
  }

  /** Two applications that agree on one model. */
  ghost predicate SameAt(a: App, b: App, uid: Id) {
    (uid in a.repository <==> uid in b.repository) && (uid in a.repository ==> a.repository[uid] == b.repository[uid])
  }

  lemma EmitSpares(app: App, e: Event, uid: Id)
    requires Rooted(app) && Fitting(e) && Target(e) != uid
    ensures Rooted(Emitted(app, e)) && SameAt(Emitted(app, e), app, uid)
  {
    var known := AddModel(app, Target(e), MachineOf(e), EMPTY_META, None);
    assert Rooted(known);
    var m := known.repository[Target(e)];
    AppliedRegistered(m, Stamp(m, e, known.clock));
    hide Apply, Registered;
  }

  lemma {:induction false} EmitAllSpares(app: App, events: seq<Event>, uid: Id)
    requires Rooted(app) && forall e <- events :: e.JobCreated? && Target(e) != uid
    ensures Rooted(EmitAll(app, events)) && SameAt(EmitAll(app, events), app, uid)
  {
    if events != [] {
      var init, e := events[..|events|-1], events[|events|-1];
      assert events == init + [e];
      EmitAllSpares(app, init, uid);
      hide Rooted, Emitted;
      EmitSpares(EmitAll(app, init), e, uid);
    }
  }

  /** A routed command leaves every other model alone, but for the job it creates. */
  lemma ExecutedSpares(app: App, c: Call, uid: Id)
    requires Rooted(app) && WellRouted(c) && c.env.freshId != uid
    ensures var known := AddModel(app, c.uid, c.machine, c.meta, None);
      var m := known.repository[c.uid];
      && Rooted(Executed(app, c)) && m.uid == c.uid && Registered(m)
      && (uid != c.uid ==> SameAt(Executed(app, c), app, uid))
      && (uid == c.uid ==>
            && uid in Executed(app, c).repository
            && Executed(app, c).repository[uid] == Dispatch(m, c.command, c.env, known.clock).model)
  {
    var known := AddModel(app, c.uid, c.machine, c.meta, None);
    assert Rooted(known);
    var m := known.repository[c.uid];
    DispatchSpares(m, c, known.clock);
    var r := Dispatch(m, c.command, c.env, known.clock);
    var own := App(known.repository[c.uid := r.model], known.keys, r.clock);
    hide Dispatch, Registered, WellRouted;
    assert Rooted(own);
    EmitAllSpares(own, r.others, uid);
    hide EmitAll, Rooted;
  }

  // ---- one model, whenever and with whatever log ----

  /** The same but for the local events. */
  ghost predicate SameModel(a: ModelValue, b: ModelValue) {
    a.uid == b.uid && a.machine == b.machine && a.meta == b.meta && a.core == b.core
  }

  ghost predicate SameRan(a: Ran, b: Ran) {
    SameModel(a.model, b.model) && a.executes == b.executes && a.applied == b.applied && a.others == b.others
  }

  lemma EmitSame(a: Ran, b: Ran, e: Event)
    requires SameRan(a, b)
    ensures SameRan(EmitFrom(a, e), EmitFrom(b, e))
  {
    AppliedOnce(a.model, Stamp(a.model, e, a.clock));
    AppliedOnce(b.model, Stamp(b.model, e, b.clock));
    hide HandleEvent, Apply;
  }

  lemma {:induction false} PerformSame(a: Ran, b: Ran, actions: seq<Action>)
    requires SameRan(a, b)
    ensures SameRan(PerformAll(a, actions), PerformAll(b, actions))
  {
    if actions != [] {
      var init, last := actions[..|actions|-1], actions[|actions|-1];
      PerformSame(a, b, init);
      var x, y := PerformAll(a, init), PerformAll(b, init);
      if last.Emit? {
        EmitSame(x, y, last.event);
      } else if last.JoinCheck? && x.model.core.context.element.Some? {
        EmitSame(x, y, GatewayCompleted(x.model.core.context.element.value.id));
      }
      hide EmitFrom, PerformAll;
    }
  }

  /** A handler looks neither at the clock nor at the local events. */
  lemma DispatchSame(a: ModelValue, b: ModelValue, c: Command, env: Env, clock: nat, other: nat)
    requires SameModel(a, b)
    ensures SameRan(Dispatch(a, c, env, clock), Dispatch(b, c, env, other))
  {
    var found := HandleCommand(a.uid, a.machine, a.core, c, env);
    PerformSame(Ran(a, [], [], [], clock), Ran(b, [], [], [], other), if found.Some? then found.value else []);
    hide HandleCommand, PerformAll;
  }

  // ---- the steps of one model ----

  function StepOf(move: Move, uid: Id): seq<ModelStep> {
    if move.Routed? && move.call.uid == uid then [Do(move.call.command, move.call.env)] else []
  }

  function StepsFor(moves: seq<Move>, uid: Id): seq<ModelStep> {
    if moves == [] then [] else StepsFor(moves[..|moves|-1], uid) + StepOf(moves[|moves|-1], uid)
  }

  /** What the model itself issues when a move reaches it. */
  function IssuesAt(app: App, move: Move, uid: Id): seq<Command> {
    if move.Routed? && move.call.uid == uid then
      var known := AddModel(app, uid, move.call.machine, move.call.meta, None);
      Dispatch(known.repository[uid], move.call.command, move.call.env, known.clock).executes
    else []
  }

  function IssuesIn(app: App, moves: seq<Move>, uid: Id): seq<Command> {
    if moves == [] then []
    else IssuesIn(app, moves[..|moves|-1], uid) + IssuesAt(ExecutedAll(app, moves[..|moves|-1]), moves[|moves|-1], uid)
  }

  /** The model stands as `m`; if it is not there yet, `m` is what it is added as. */
  ghost predicate Stands(app: App, m: ModelValue) {
    if m.uid in app.repository then SameModel(app.repository[m.uid], m)
    else m == NewModel(m.uid, m.machine, m.meta, None)
  }

  /** A command that adds the model adds it as what it is. */
  ghost predicate AddedAs(app: App, move: Move, uid: Id, machine: Machine, meta: Meta) {
    move.Routed? && move.call.uid == uid && uid !in app.repository ==>
      move.call.machine == machine && move.call.meta == meta
  }

  ghost predicate Alone(app: App, moves: seq<Move>, uid: Id, machine: Machine, meta: Meta) {
    moves == [] ||
    var init, move := moves[..|moves|-1], moves[|moves|-1];
    Alone(app, init, uid, machine, meta) && Spares(move, uid)
      && AddedAs(ExecutedAll(app, init), move, uid, machine, meta)
  }

  ghost predicate AllAddressed(steps: seq<ModelStep>, uid: Id) { forall s <- steps :: Addressed(uid, s) }

  function Taken(m: ModelValue, steps: seq<ModelStep>): (r: (ModelValue, seq<Command>)) {
    if steps == [] then (m, []) else var r := TakeStep(m, steps[0]); (r.model, r.executes)
  }

  lemma MoveProjects(app: App, move: Move, m: ModelValue)
    requires Rooted(app) && Stands(app, m) && Spares(move, m.uid) && AddedAs(app, move, m.uid, m.machine, m.meta)
    ensures var (next, issued) := Taken(m, StepOf(move, m.uid));
      && Rooted(Moved(app, move)) && Stands(Moved(app, move), next) && next.uid == m.uid
      && next.machine == m.machine && next.meta == m.meta && issued == IssuesAt(app, move, m.uid)
      && AllAddressed(StepOf(move, m.uid), m.uid)
  {
    match move
    case Outside(Add(u, machine, meta)) =>
      assert Rooted(Moved(app, move));
    case Outside(Raise(e)) =>
      EmitSpares(app, e, m.uid);
      hide Emitted, Rooted;
    case Routed(c) =>
      ExecutedSpares(app, c, m.uid);
      if c.uid == m.uid {
        var known := AddModel(app, c.uid, c.machine, c.meta, None);
        DispatchSame(known.repository[c.uid], m, c.command, c.env, known.clock, 0);
        DispatchSpares(known.repository[c.uid], c, known.clock);
      }
      hide Executed, Dispatch, Rooted, WellRouted;
  }

  lemma TakenOver(m: ModelValue, before: seq<ModelStep>, more: seq<ModelStep>)
    requires |more| <= 1
    ensures var (x, issued) := IssuedOver(m, before);
      var (y, now) := Taken(x, more);
      IssuedOver(m, before + more) == (y, issued + now)
  {
    hide TakeStep;
    var (x, issued) := IssuedOver(m, before);
    if more == [] {
      assert before + more == before && issued + [] == issued;
    } else {
      assert (before + more)[..|before|] == before && before + more == before + [more[0]];
    }
  }

  /** Whatever else happens to the application: the model does what it does alone. */
  lemma {:induction false} MovesProject(app: App, moves: seq<Move>, m: ModelValue)
    requires Rooted(app) && Stands(app, m) && Alone(app, moves, m.uid, m.machine, m.meta)
    ensures var (end, issued) := IssuedOver(m, StepsFor(moves, m.uid));
      && Rooted(ExecutedAll(app, moves)) && Stands(ExecutedAll(app, moves), end)
      && end.uid == m.uid && end.machine == m.machine && end.meta == m.meta && issued == IssuesIn(app, moves, m.uid)
      && AllAddressed(StepsFor(moves, m.uid), m.uid)
  {
    if moves != [] {
      var init, move := moves[..|moves|-1], moves[|moves|-1];
      MovesProject(app, init, m);
      var (end, issued) := IssuedOver(m, StepsFor(init, m.uid));
      hide Rooted, Stands, Spares, AddedAs, IssuedOver, Moved, IssuesAt;
      MoveProjects(ExecutedAll(app, init), move, end);
      TakenOver(m, StepsFor(init, m.uid), StepOf(move, m.uid));
      AddressedConcat(StepsFor(init, m.uid), StepOf(move, m.uid), m.uid);
    } else {
      hide Rooted, Stands;
    }
  }

  lemma AddressedConcat(a: seq<ModelStep>, b: seq<ModelStep>, uid: Id)
    requires AllAddressed(a, uid) && AllAddressed(b, uid)
    ensures AllAddressed(a + b, uid) && AllAddressed(a + [Reload], uid)
  {
  }

  // ---- over cycles ----

  /** The steps of one model over cycles: its commands, and a persist and load at the end of each. */
  function StepsOfRuns(runs: seq<seq<Move>>, uid: Id): seq<ModelStep> {
    if runs == [] then []
    else StepsOfRuns(runs[..|runs|-1], uid) + (StepsFor(runs[|runs|-1], uid) + [Reload])
  }

  function Loaded(runs: seq<seq<Move>>): App { var w := CallCycles(runs); Load(w.store, w.clock) }

  function IssuesOfRuns(runs: seq<seq<Move>>, uid: Id): seq<Command> {
    if runs == [] then []
    else
      var init := runs[..|runs|-1];
      IssuesOfRuns(init, uid) + IssuesIn(Loaded(init), runs[|runs|-1], uid)
  }

  ghost predicate AloneInRuns(runs: seq<seq<Move>>, uid: Id, machine: Machine, meta: Meta) {
    runs == [] ||
    var init := runs[..|runs|-1];
    AloneInRuns(init, uid, machine, meta) && Alone(Loaded(init), runs[|runs|-1], uid, machine, meta)
  }

  lemma CyclesStored(runs: seq<seq<Move>>)
    ensures StoredWorld(CallCycles(runs))
  {
    var acts := CallCyclesAreCycles(runs);
    CyclesStore(World(None, 0), acts);
  }

  lemma ReloadedSame(m: ModelValue, stored: ModelValue)
    requires SameModel(stored, m) && Shaped(m.machine, m.meta, m.core)
    ensures SameModel(stored, Reloaded(m)) && Reloaded(m).uid == m.uid
  {
  }

  lemma ReloadedNew(uid: Id, machine: Machine, meta: Meta)
    ensures var m := NewModel(uid, machine, meta, None); Reloaded(m) == m && m.uid == uid
  {
  }

  /** Persisting and loading an application is a reload of each of its models. */
  lemma CycleReloads(w: World, moves: seq<Move>, m: ModelValue)
    requires StoredWorld(CallCycle(w, moves))
    requires var app := ExecutedAll(Load(w.store, w.clock), moves); Rooted(app) && Stands(app, m)
    ensures var next := CallCycle(w, moves);
      var app := Load(next.store, next.clock);
      Rooted(app) && Stands(app, Reloaded(m)) && Reloaded(m).uid == m.uid
  {
    PersistedRow(w, moves);
    var next := CallCycle(w, moves);
    StoredIs(next);
    hide *;
    var row := next.store.value;
    LoadGivesBackModels(row, next.clock);
    StoredShapes(row, next.clock);
    ReloadStands(row, ExecutedAll(Load(w.store, w.clock), moves), Load(next.store, next.clock), m);
  }

  lemma PersistedRow(w: World, moves: seq<Move>)
    ensures var next, before := CallCycle(w, moves), ExecutedAll(Load(w.store, w.clock), moves);
      next.store.Some? && next.store.value.snapshot == map k | k in before.repository :: SnapOf(before.repository[k])
  {
    hide ExecutedAll, Load, Grouped;
  }

  lemma StoredIs(w: World)
    requires StoredWorld(w)
    ensures w.store.Some? ==> Stored(w.store.value, w.clock)
  {
    hide Stored;
  }

  lemma ReloadStands(row: Row, before: App, after: App, m: ModelValue)
    requires row.snapshot == map k | k in before.repository :: SnapOf(before.repository[k])
    requires forall k :: k in after.repository <==> k in row.snapshot
    requires forall k :: k in after.repository ==>
      after.repository[k] == ModelValue(k, row.snapshot[k].machine, row.snapshot[k].meta, row.snapshot[k].core, [])
    requires forall k <- row.snapshot :: Shaped(row.snapshot[k].machine, row.snapshot[k].meta, row.snapshot[k].core)
    requires Rooted(before) && Stands(before, m)
    ensures Rooted(after) && Stands(after, Reloaded(m)) && Reloaded(m).uid == m.uid
  {
    hide Shaped, NewModel;
    if m.uid in before.repository {
      ReloadedSame(m, after.repository[m.uid]);
    } else {
      ReloadedNew(m.uid, m.machine, m.meta);
    }
  }

  lemma StoredShapes(row: Row, clock: nat)
    requires Stored(row, clock)
    ensures forall k <- row.snapshot :: Shaped(row.snapshot[k].machine, row.snapshot[k].meta, row.snapshot[k].core)
  {
    hide DistinctStamps, LogKnown, Shaped;
    forall k | k in row.snapshot ensures Shaped(row.snapshot[k].machine, row.snapshot[k].meta, row.snapshot[k].core) {
      assert SnapTracks(k, row.snapshot[k], row.events);
    }
  }

  lemma {:induction false} IssuedConcat(m: ModelValue, a: seq<ModelStep>, b: seq<ModelStep>)
    ensures var (x, issued) := IssuedOver(m, a);
      var (y, more) := IssuedOver(x, b);
      IssuedOver(m, a + b) == (y, issued + more)
  {
    hide TakeStep;
    if b == [] {
      assert a + b == a;
      assert IssuedOver(m, a).1 + [] == IssuedOver(m, a).1;
    } else {
      assert (a + b)[..|a + b|-1] == a + b[..|b|-1];
      IssuedConcat(m, a, b[..|b|-1]);
      var (x, issued) := IssuedOver(m, a);
      var (y, more) := IssuedOver(x, b[..|b|-1]);
      var now := TakeStep(y, b[|b|-1]).executes;
      assert issued + more + now == issued + (more + now);
    }
  }

  lemma ReloadStep(m: ModelValue, steps: seq<ModelStep>)
    ensures IssuedOver(m, steps + [Reload]) == (Reloaded(IssuedOver(m, steps).0), IssuedOver(m, steps).1)
  {
    assert (steps + [Reload])[..|steps|] == steps;
    assert IssuedOver(m, steps).1 + [] == IssuedOver(m, steps).1;
    hide Reloaded;
  }

  /** Over any number of cycles of an application, whatever the commands for other models: a model is where its own
      steps lead to, and has issued what they issue. */
  lemma {:induction false} RunsProject(runs: seq<seq<Move>>, m: ModelValue)
    requires m == NewModel(m.uid, m.machine, m.meta, None) && AloneInRuns(runs, m.uid, m.machine, m.meta)
    ensures var (end, issued) := IssuedOver(m, StepsOfRuns(runs, m.uid));
      && Rooted(Loaded(runs)) && Stands(Loaded(runs), end)
      && end.uid == m.uid && end.machine == m.machine && end.meta == m.meta && issued == IssuesOfRuns(runs, m.uid)
      && AllAddressed(StepsOfRuns(runs, m.uid), m.uid)
  {
    if runs == [] {
      NoneLoaded();
    } else {
      var init, moves := runs[..|runs|-1], runs[|runs|-1];
      RunsProject(init, m);
      CyclesStored(runs);
      RunProjects(runs, m);
    }
  }

  lemma NoneLoaded()
    ensures Loaded([]) == App(NO_MODELS, [], 0)
  {
    assert GetApp(None, false) == Row(0, map[], [], None, []);
  }

  lemma RunProjects(runs: seq<seq<Move>>, m: ModelValue)
    requires runs != [] && StoredWorld(CallCycles(runs)) && AloneInRuns(runs, m.uid, m.machine, m.meta)
    requires var init := runs[..|runs|-1];
      var (end, issued) := IssuedOver(m, StepsOfRuns(init, m.uid));
      && Rooted(Loaded(init)) && Stands(Loaded(init), end)
      && end.uid == m.uid && end.machine == m.machine && end.meta == m.meta && issued == IssuesOfRuns(init, m.uid)
      && AllAddressed(StepsOfRuns(init, m.uid), m.uid)
    ensures var (end, issued) := IssuedOver(m, StepsOfRuns(runs, m.uid));
      && Rooted(Loaded(runs)) && Stands(Loaded(runs), end)
      && end.uid == m.uid && end.machine == m.machine && end.meta == m.meta && issued == IssuesOfRuns(runs, m.uid)
      && AllAddressed(StepsOfRuns(runs, m.uid), m.uid)
  {
    var init, moves := runs[..|runs|-1], runs[|runs|-1];
    var start := IssuedOver(m, StepsOfRuns(init, m.uid)).0;
    assert CallCycles(runs) == CallCycle(CallCycles(init), moves);
    hide Rooted, Stands, Load, CallCycle, IssuedOver, StoredWorld, ExecutedAll;
    MovesProject(Loaded(init), moves, start);
    var steps := StepsFor(moves, m.uid);
    var end := IssuedOver(start, steps).0;
    CycleReloads(CallCycles(init), moves, end);
    ReloadStep(start, steps);
    IssuedConcat(m, StepsOfRuns(init, m.uid), steps + [Reload]);
    AddressedConcat(steps, [], m.uid);
    AddressedConcat(StepsOfRuns(init, m.uid), steps + [Reload], m.uid);
    KindOf(end);
    hide IssuesIn;
  }

  lemma KindOf(m: ModelValue)
    ensures Reloaded(m).uid == m.uid && Reloaded(m).machine == m.machine && Reloaded(m).meta == m.meta
  {
  }

  // ---- joins and tokens of an application ----

  /** All steps of one model so far: those of the cycles before and those of this one. */
  function StepsSoFar(runs: seq<seq<Move>>, moves: seq<Move>, uid: Id): seq<ModelStep> {
    StepsOfRuns(runs, uid) + StepsFor(moves, uid)
  }

  /** The application in its current cycle. */
  function Now(runs: seq<seq<Move>>, moves: seq<Move>): App { ExecutedAll(Loaded(runs), moves) }

  ghost predicate AloneSoFar(runs: seq<seq<Move>>, moves: seq<Move>, uid: Id, machine: Machine, meta: Meta) {
    AloneInRuns(runs, uid, machine, meta) && Alone(Loaded(runs), moves, uid, machine, meta)
  }

  lemma NowProjects(runs: seq<seq<Move>>, moves: seq<Move>, m: ModelValue)
    requires m == NewModel(m.uid, m.machine, m.meta, None) && AloneSoFar(runs, moves, m.uid, m.machine, m.meta)
    ensures var (end, issued) := IssuedOver(m, StepsSoFar(runs, moves, m.uid));
      && Rooted(Now(runs, moves)) && Stands(Now(runs, moves), end)
      && end.uid == m.uid && end.machine == m.machine && end.meta == m.meta
      && issued == IssuesOfRuns(runs, m.uid) + IssuesIn(Loaded(runs), moves, m.uid)
      && AllAddressed(StepsSoFar(runs, moves, m.uid), m.uid)
  {
    hide Rooted, Stands, IssuedOver, NewModel, Alone, AloneInRuns, ExecutedAll, IssuesIn, Loaded;
    RunsProject(runs, m);
    var start := IssuedOver(m, StepsOfRuns(runs, m.uid)).0;
    MovesProject(Loaded(runs), moves, start);
    IssuedConcat(m, StepsOfRuns(runs, m.uid), StepsFor(moves, m.uid));
    AddressedConcat(StepsOfRuns(runs, m.uid), StepsFor(moves, m.uid), m.uid);
  }

  lemma OneMove(runs: seq<seq<Move>>, moves: seq<Move>, c: Call, machine: Machine, meta: Meta)
    requires AloneSoFar(runs, moves + [Routed(c)], c.uid, machine, meta)
    ensures var move := Routed(c);
      && AloneSoFar(runs, moves, c.uid, machine, meta)
      && Spares(move, c.uid) && AddedAs(Now(runs, moves), move, c.uid, machine, meta)
    ensures StepsSoFar(runs, moves + [Routed(c)], c.uid) == StepsSoFar(runs, moves, c.uid) + [Do(c.command, c.env)]
  {
    var move := Routed(c);
    hide Spares, AddedAs, ExecutedAll, StepsOfRuns, AloneInRuns, Loaded, Alone, StepsFor;
    AloneMore(Loaded(runs), moves, move, c.uid, machine, meta);
    assert StepOf(move, c.uid) == [Do(c.command, c.env)];
    Appended(StepsOfRuns(runs, c.uid), StepsFor(moves, c.uid), StepOf(move, c.uid));
  }

  lemma Appended(a: seq<ModelStep>, b: seq<ModelStep>, c: seq<ModelStep>)
    ensures a + (b + c) == a + b + c
  {
  }

  lemma AloneMore(app: App, moves: seq<Move>, move: Move, uid: Id, machine: Machine, meta: Meta)
    requires Alone(app, moves + [move], uid, machine, meta)
    ensures Alone(app, moves, uid, machine, meta) && Spares(move, uid)
    ensures AddedAs(ExecutedAll(app, moves), move, uid, machine, meta)
    ensures StepsFor(moves + [move], uid) == StepsFor(moves, uid) + StepOf(move, uid)
  {
    assert (moves + [move])[..|moves|] == moves;
    hide Spares, AddedAs, ExecutedAll, StepOf;
  }

  /** In an application, over any number of cycles: a command routed to a parallel gateway makes it fire exactly if the
      branches seen since it last fired, in this cycle or an earlier one, now cover all incoming ones for the first
      time. */
  lemma JoinFiresInApplication(runs: seq<seq<Move>>, moves: seq<Move>, c: Call, el: Element, meta: Meta)
    requires el.kind.ParallelKind? && NoDuplicates(el.incoming) && c.uid == el.id
    requires AloneSoFar(runs, moves + [Routed(c)], el.id, GatewayMachine, meta)
    requires forall s <- StepsSoFar(runs, moves + [Routed(c)], el.id) :: ForJoin(el, s)
    ensures IssuesAt(Now(runs, moves), Routed(c), el.id) ==
      JoinIssues(el, Do(c.command, c.env), Fires(el.incoming, StepsSoFar(runs, moves + [Routed(c)], el.id)))
  {
    var m := NewModel(el.id, GatewayMachine, meta, None);
    assert m.uid == el.id && m.machine == GatewayMachine && m.meta == meta;
    hide *;
    OneMove(runs, moves, c, GatewayMachine, meta);
    var steps, step := StepsSoFar(runs, moves, el.id), Do(c.command, c.env);
    NowProjects(runs, moves, m);
    JoinFiresOnCover(m, el, steps + [step]);
    assert (steps + [step])[..|steps|] == steps;
    var end := IssuedOver(m, steps).0;
    MoveProjects(Now(runs, moves), Routed(c), end);
    OneStepOf(c, end);
  }

  lemma OneStepOf(c: Call, m: ModelValue)
    ensures Taken(m, StepOf(Routed(c), c.uid)).1 == TakeStep(m, Do(c.command, c.env)).executes
  {
    hide TakeStep;
  }

  lemma {:induction false} TallyIsIssued(m: ModelValue, steps: seq<ModelStep>)
    ensures TallyOf(m, steps).model == IssuedOver(m, steps).0
    ensures TallyOf(m, steps).onward == Count(IssuedOver(m, steps).1, IsOnward)
  {
    if steps != [] {
      var init := steps[..|steps|-1];
      TallyIsIssued(m, init);
      hide TakeStep;
      CountConcat(IssuedOver(m, init).1, TakeStep(IssuedOver(m, init).0, steps[|steps|-1]).executes, IsOnward);
    }
  }

  /** In an application, over any number of cycles: an event element issues no more onward commands than it has
      occurred, and occurs no more often than it was activated; the one that is missing is still active. */
  lemma TokensPaidInApplication(runs: seq<seq<Move>>, moves: seq<Move>, uid: Id, meta: Meta)
    requires AloneSoFar(runs, moves, uid, EventMachine, meta)
    ensures var app := Now(runs, moves);
      var t := TallyOf(NewModel(uid, EventMachine, meta, None), StepsSoFar(runs, moves, uid));
      && Count(IssuesOfRuns(runs, uid) + IssuesIn(Loaded(runs), moves, uid), IsOnward) == t.onward <= t.occurrences
      && t.occurrences + TokenAt(app, uid) <= t.activations
  {
    var m := NewModel(uid, EventMachine, meta, None);
    var steps := StepsSoFar(runs, moves, uid);
    NewToken(uid, meta);
    hide *;
    NowProjects(runs, moves, m);
    SaysAddressed(steps, uid);
    TokensPaid(m, steps);
    TallyIsIssued(m, steps);
    TokenStands(Now(runs, moves), TallyOf(m, steps).model);
  }

  lemma NewToken(uid: Id, meta: Meta)
    ensures var m := NewModel(uid, EventMachine, meta, None);
      Registered(m) && Token(m) == 0 && m.uid == uid && m.machine == EventMachine && m.meta == meta
  {
  }

  lemma SaysAddressed(steps: seq<ModelStep>, uid: Id)
    requires AllAddressed(steps, uid)
    ensures forall s <- steps :: Addressed(uid, s)
  {
  }

  /** The token an element holds; one that is not there yet holds none. */
  function TokenAt(app: App, uid: Id): nat { if uid in app.repository then Token(app.repository[uid]) else 0 }

  lemma TokenStands(app: App, m: ModelValue)
    requires Stands(app, m) && m.machine.EventMachine?
    ensures TokenAt(app, m.uid) == Token(m)
  {
  }
}
