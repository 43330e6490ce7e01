/** Whole lives of tasks, exclusive gateways, start events and jobs inside an application. */
module FlowLives {
  import opened Wrappers
  import opened FlowTypes
  import opened FlowMachines
  import opened FlowSpec
  import opened FlowReplay
  import opened FlowTokens
  import opened FlowTasks
  import opened FlowJobs
  import opened FlowCommands
  import opened FlowProjection

  // ---- what is seen of a model ----

  /** A model without its local events, which no command looks at. */
  function Plain(m: ModelValue): ModelValue { m.(localEvents := []) }

  /** Something that shows when a command reaches a model. */
  type Sight<T> = (ModelValue, Command, Env) -> seq<T>

  function SeenOf<T>(f: Sight<T>, m: ModelValue, steps: seq<ModelStep>): seq<T> {
    if steps == [] then []
    else
      var init, s := steps[..|steps|-1], steps[|steps|-1];
      SeenOf(f, m, init) + if s.Do? then f(Plain(IssuedOver(m, init).0), s.command, s.env) else []
  }

  /** What shows in an application when a move reaches the model. */
  function SeenAt<T>(f: Sight<T>, app: App, move: Move, uid: Id): seq<T> {
    if move.Routed? && move.call.uid == uid then
      var known := AddModel(app, uid, move.call.machine, move.call.meta, None);
      f(Plain(known.repository[uid]), move.call.command, move.call.env)
    else []
  }

  function SeenIn<T>(f: Sight<T>, app: App, moves: seq<Move>, uid: Id): seq<T> {
    if moves == [] then []
    else
      var init := moves[..|moves|-1];
      SeenIn(f, app, init, uid) + SeenAt(f, ExecutedAll(app, init), moves[|moves|-1], uid)
  }

  function SeenInRuns<T>(f: Sight<T>, runs: seq<seq<Move>>, uid: Id): seq<T> {
    if runs == [] then []
    else
      var init := runs[..|runs|-1];
      SeenInRuns(f, init, uid) + SeenIn(f, Loaded(init), runs[|runs|-1], uid)
  }

  lemma SeenMove<T>(f: Sight<T>, app: App, move: Move, m: ModelValue, before: seq<ModelStep>, start: ModelValue)
    requires Stands(app, m) && AddedAs(app, move, m.uid, m.machine, m.meta) && m == IssuedOver(start, before).0
    ensures SeenOf(f, start, before + StepOf(move, m.uid)) == SeenOf(f, start, before) + SeenAt(f, app, move, m.uid)
  {
    hide IssuedOver, NewModel;
    var more := StepOf(move, m.uid);
    if more == [] {
      assert before + more == before;
    } else {
      assert (before + more)[..|before|] == before && (before + more)[|before|] == more[0];
    }
  }

  lemma {:induction false} SeenMoves<T>(f: Sight<T>, app: App, moves: seq<Move>, m: ModelValue)
    requires Rooted(app) && Stands(app, m) && Alone(app, moves, m.uid, m.machine, m.meta)
    ensures SeenOf(f, m, StepsFor(moves, m.uid)) == SeenIn(f, app, moves, m.uid)
  {
    if moves != [] {
      var init, move := moves[..|moves|-1], moves[|moves|-1];
      SeenMoves(f, app, init, m);
      MovesProject(app, init, m);
      hide Rooted, Stands, Spares, AddedAs, SeenAt, SeenOf;
      SeenMove(f, ExecutedAll(app, init), move, IssuedOver(m, StepsFor(init, m.uid)).0, StepsFor(init, m.uid), m);
    }
  }

  lemma {:induction false} SeenConcat<T>(f: Sight<T>, m: ModelValue, a: seq<ModelStep>, b: seq<ModelStep>)
    ensures SeenOf(f, m, a + b) == SeenOf(f, m, a) + SeenOf(f, IssuedOver(m, a).0, b)
  {
    if b == [] {
      assert a + b == a;
      assert SeenOf(f, m, a) + [] == SeenOf(f, m, a);
    } else {
      var init := b[..|b|-1];
      assert (a + b)[..|a + b|-1] == a + init;
      SeenConcat(f, m, a, init);
      IssuedConcat(m, a, init);
      hide IssuedOver;
      var x := IssuedOver(m, a).0;
      var now := if b[|b|-1].Do? then f(Plain(IssuedOver(x, init).0), b[|b|-1].command, b[|b|-1].env) else [];
      assert SeenOf(f, m, a) + SeenOf(f, x, init) + now == SeenOf(f, m, a) + (SeenOf(f, x, init) + now);
    }
  }

  lemma SeenReload<T>(f: Sight<T>, m: ModelValue, steps: seq<ModelStep>)
    ensures SeenOf(f, m, steps + [Reload]) == SeenOf(f, m, steps)
  {
    assert (steps + [Reload])[..|steps|] == steps;
    assert SeenOf(f, m, steps) + [] == SeenOf(f, m, steps);
  }

  /** Over any number of cycles of an application: whatever shows of a model shows of it alone. */
  lemma {:induction false} SeenRuns<T>(f: Sight<T>, runs: seq<seq<Move>>, m: ModelValue)
    requires m == NewModel(m.uid, m.machine, m.meta, None) && AloneInRuns(runs, m.uid, m.machine, m.meta)
    ensures SeenOf(f, m, StepsOfRuns(runs, m.uid)) == SeenInRuns(f, runs, m.uid)
  {
    if runs != [] {
      var init, moves := runs[..|runs|-1], runs[|runs|-1];
      SeenRuns(f, init, m);
      RunsProject(init, m);
      hide Rooted, Stands, Alone, SeenOf, IssuedOver, NewModel, SeenIn, Loaded;
      var before := StepsOfRuns(init, m.uid);
      var start := IssuedOver(m, before).0;
      SeenMoves(f, Loaded(init), moves, start);
      SeenReload(f, start, StepsFor(moves, m.uid));
      SeenConcat(f, m, before, StepsFor(moves, m.uid) + [Reload]);
    }
  }

  lemma SeenNow<T>(f: Sight<T>, runs: seq<seq<Move>>, moves: seq<Move>, m: ModelValue)
    requires m == NewModel(m.uid, m.machine, m.meta, None) && AloneSoFar(runs, moves, m.uid, m.machine, m.meta)
    ensures SeenOf(f, m, StepsSoFar(runs, moves, m.uid)) ==
      SeenInRuns(f, runs, m.uid) + SeenIn(f, Loaded(runs), moves, m.uid)
  {
    SeenRuns(f, runs, m);
    RunsProject(runs, m);
    hide Rooted, Stands, Alone, AloneInRuns, SeenOf, IssuedOver, NewModel, SeenIn, SeenInRuns, Loaded;
    var start := IssuedOver(m, StepsOfRuns(runs, m.uid)).0;
    SeenMoves(f, Loaded(runs), moves, start);
    SeenConcat(f, m, StepsOfRuns(runs, m.uid), StepsFor(moves, m.uid));
  }

  // ---- tasks ----

  function Emits(m: ModelValue, c: Command, env: Env): seq<Event> { Dispatch(m, c, env, 0).others }

  lemma {:induction false} EmitsOver(m: ModelValue, steps: seq<ModelStep>)
    ensures var r := Over(m, steps);
      && r.model == IssuedOver(m, steps).0 && r.executes == IssuedOver(m, steps).1
      && r.others == SeenOf(Emits, m, steps)
  {
    if steps != [] {
      var init, s := steps[..|steps|-1], steps[|steps|-1];
      EmitsOver(m, init);
      var x := IssuedOver(m, init).0;
      if s.Do? {
        DispatchSame(Plain(x), x, s.command, s.env, 0, 0);
      }
      hide Dispatch;
    }
  }

  /** All a model has emitted for others and issued so far. */
  function EmittedSoFar(runs: seq<seq<Move>>, moves: seq<Move>, uid: Id): seq<Event> {
    SeenInRuns(Emits, runs, uid) + SeenIn(Emits, Loaded(runs), moves, uid)
  }

  function IssuedSoFar(runs: seq<seq<Move>>, moves: seq<Move>, uid: Id): seq<Command> {
    IssuesOfRuns(runs, uid) + IssuesIn(Loaded(runs), moves, uid)
  }

  function BusyAt(app: App, uid: Id): nat { if uid in app.repository then Busy(app.repository[uid]) else 0 }

  lemma BusyStands(app: App, m: ModelValue)
    requires Stands(app, m) && m.machine.TaskMachine?
    ensures BusyAt(app, m.uid) == Busy(m)
  {
  }

  /** In an application, over any number of cycles: a service or rule task has created as many jobs as it has issued
      onward and boundary commands, and one more while it is active. */
  lemma JobsPaidBackInApplication(runs: seq<seq<Move>>, moves: seq<Move>, el: Element, meta: Meta)
    requires el.kind in {ServiceTaskKind, RuleTaskKind} && AloneSoFar(runs, moves, el.id, TaskMachine, meta)
    requires forall s <- StepsSoFar(runs, moves, el.id) :: ForTask(el, s)
    ensures var issued := IssuedSoFar(runs, moves, el.id);
      Count(EmittedSoFar(runs, moves, el.id), IsJob) ==
        Count(issued, IsOnward) + Count(issued, IsBoundary) + BusyAt(Now(runs, moves), el.id)
  {
    var m, steps := NewModel(el.id, TaskMachine, meta, None), StepsSoFar(runs, moves, el.id);
    assert m.uid == el.id && m.machine == TaskMachine && m.meta == meta;
    assert EmittedSoFar(runs, moves, el.id)
      == SeenInRuns(Emits, runs, el.id) + SeenIn(Emits, Loaded(runs), moves, el.id);
    assert IssuedSoFar(runs, moves, el.id) == IssuesOfRuns(runs, el.id) + IssuesIn(Loaded(runs), moves, el.id);
    hide *;
    NowProjects(runs, moves, m);
    SeenNow(Emits, runs, moves, m);
    EmitsOver(m, steps);
    JobsPaidBack(el, meta, steps);
    BusyStands(Now(runs, moves), IssuedOver(m, steps).0);
  }

  // ---- exclusive gateways ----

  /** In an application, over any number of cycles: an exclusive gateway issues one ProcessGateway per activation and
      one onward command per ProcessGateway that finds it activated. */
  lemma ExclusiveInApplication(runs: seq<seq<Move>>, moves: seq<Move>, el: Element, meta: Meta)
    requires el.kind.ExclusiveKind? && AloneSoFar(runs, moves, el.id, GatewayMachine, meta)
    requires forall s <- StepsSoFar(runs, moves, el.id) :: ForGateway(el, s)
    ensures var issued, steps := IssuedSoFar(runs, moves, el.id), StepsSoFar(runs, moves, el.id);
      Count(issued, IsOnward) == Processed(steps) && Count(issued, IsProcess) == Count(steps, IsActivation)
  {
    var m, steps := NewModel(el.id, GatewayMachine, meta, None), StepsSoFar(runs, moves, el.id);
    assert m.uid == el.id && m.machine == GatewayMachine && m.meta == meta;
    assert IssuedSoFar(runs, moves, el.id) == IssuesOfRuns(runs, el.id) + IssuesIn(Loaded(runs), moves, el.id);
    hide *;
    NowProjects(runs, moves, m);
    ExclusiveLife(m, el, steps);
  }

  // ---- start events ----

  /** A RaiseEvent the model has a handler for. */
  function Reaction(m: ModelValue, c: Command, env: Env): seq<Command> {
    if c.RaiseEvent? && HandleCommand(m.uid, m.machine, m.core, c, env).Some? then [c] else []
  }

  lemma {:induction false} ReactionsSeen(m: ModelValue, steps: seq<ModelStep>)
    ensures |SeenOf(Reaction, m, steps)| == Reactions(m, steps)
  {
    if steps != [] {
      var init := steps[..|steps|-1];
      ReactionsSeen(m, init);
      TallyIsIssued(m, init);
      hide HandleCommand, TallyOf, IssuedOver;
    }
  }

  /** In an application, over any number of cycles: a start event reacts to at most one RaiseEvent in its life. */
  lemma StartReactsOnceInApplication(runs: seq<seq<Move>>, moves: seq<Move>, uid: Id, meta: Meta)
    requires AloneSoFar(runs, moves, uid, EventMachine, meta)
    requires forall s <- StepsSoFar(runs, moves, uid) :: ForStart(s)
    ensures |SeenInRuns(Reaction, runs, uid) + SeenIn(Reaction, Loaded(runs), moves, uid)| <= 1
  {
    var m, steps := NewModel(uid, EventMachine, meta, None), StepsSoFar(runs, moves, uid);
    assert m.uid == uid && m.machine == EventMachine && m.meta == meta;
    hide *;
    NowProjects(runs, moves, m);
    SaysAddressed(steps, uid);
    SeenNow(Reaction, runs, moves, m);
    ReactionsSeen(m, steps);
    StartReactsOnce(m, steps);
  }

  // ---- from the middle of a run ----

  /** The move is well routed; every model stays registered under the id of its element. */
  ghost predicate Fits(move: Move) {
    match move
    case Routed(c) => WellRouted(c)
    case Outside(Add(u, _, meta)) => meta.element.Some? ==> meta.element.value.id == u
    case Outside(Raise(e)) => Fitting(e)
  }

  ghost predicate AllFit(moves: seq<Move>) { forall k :: 0 <= k < |moves| ==> Fits(moves[k]) }

  lemma MoveRooted(app: App, move: Move)
    requires Rooted(app) && Fits(move)
    ensures Rooted(Moved(app, move))
  {
    match move
    case Outside(Add(u, machine, meta)) =>
    case Outside(Raise(e)) => EmitSpares(app, e, Target(e) + 1);
    case Routed(c) => ExecutedSpares(app, c, c.env.freshId + 1);
  }

  lemma {:induction false} MovesRooted(app: App, moves: seq<Move>)
    requires Rooted(app) && AllFit(moves)
    ensures Rooted(ExecutedAll(app, moves))
  {
    if moves != [] {
      MovesRooted(app, moves[..|moves|-1]);
      hide Rooted, Fits, Moved;
      MoveRooted(ExecutedAll(app, moves[..|moves|-1]), moves[|moves|-1]);
    }
  }

  lemma {:induction false} RunsRooted(runs: seq<seq<Move>>)
    requires forall k :: 0 <= k < |runs| ==> AllFit(runs[k])
    ensures Rooted(Loaded(runs))
  {
    if runs == [] {
      NoneLoaded();
    } else {
      var init, moves := runs[..|runs|-1], runs[|runs|-1];
      RunsRooted(init);
      CyclesStored(runs);
      assert CallCycles(runs) == CallCycle(CallCycles(init), moves);
      hide Rooted, Load, CallCycle, StoredWorld, ExecutedAll, AllFit;
      MovesRooted(Loaded(init), moves);
      var m := SomeModel(ExecutedAll(Loaded(init), moves));
      CycleReloads(CallCycles(init), moves, m);
    }
  }

  lemma SomeModel(app: App) returns (m: ModelValue)
    requires Rooted(app)
    ensures Stands(app, m)
  {
    m := if 0 in app.repository then app.repository[0] else NewModel(0, JobMachine, EMPTY_META, None);
  }

  lemma {:induction false} ExecutedConcat(app: App, a: seq<Move>, b: seq<Move>)
    ensures ExecutedAll(app, a + b) == ExecutedAll(ExecutedAll(app, a), b)
  {
    if b == [] {
      assert a + b == a;
    } else {
      assert (a + b)[..|a + b|-1] == a + b[..|b|-1];
      ExecutedConcat(app, a, b[..|b|-1]);
      hide Moved;
    }
  }

  /** The rest of a cycle, with its persist and the load of the next one. */
  lemma RestOfCycle(runs: seq<seq<Move>>, first: seq<Move>, rest: seq<Move>, m: ModelValue)
    requires Rooted(Now(runs, first)) && Stands(Now(runs, first), m)
    requires Alone(Now(runs, first), rest, m.uid, m.machine, m.meta)
    ensures var (end, issued) := IssuedOver(m, StepsFor(rest, m.uid) + [Reload]);
      var next := Loaded(runs + [first + rest]);
      && Rooted(next) && Stands(next, end)
      && end.uid == m.uid && end.machine == m.machine && end.meta == m.meta
      && issued == IssuesIn(Now(runs, first), rest, m.uid)
  {
    CyclesStored(runs + [first + rest]);
    assert (runs + [first + rest])[..|runs|] == runs;
    assert CallCycles(runs + [first + rest]) == CallCycle(CallCycles(runs), first + rest);
    hide Rooted, Stands, Load, CallCycle, IssuedOver, StoredWorld, ExecutedAll, Alone, IssuesIn, Reloaded;
    ExecutedConcat(Loaded(runs), first, rest);
    MovesProject(Now(runs, first), rest, m);
    var steps := StepsFor(rest, m.uid);
    var end := IssuedOver(m, steps).0;
    CycleReloads(CallCycles(runs), first + rest, end);
    ReloadStep(m, steps);
    KindOf(end);
  }

  ghost predicate AloneLater(runs: seq<seq<Move>>, later: seq<seq<Move>>, uid: Id, machine: Machine, meta: Meta) {
    later == [] ||
    var init := later[..|later|-1];
    AloneLater(runs, init, uid, machine, meta) && Alone(Loaded(runs + init), later[|later|-1], uid, machine, meta)
  }

  function IssuesLater(runs: seq<seq<Move>>, later: seq<seq<Move>>, uid: Id): seq<Command> {
    if later == [] then []
    else
      var init := later[..|later|-1];
      IssuesLater(runs, init, uid) + IssuesIn(Loaded(runs + init), later[|later|-1], uid)
  }

  lemma WholeCycle(runs: seq<seq<Move>>, moves: seq<Move>, m: ModelValue)
    requires Rooted(Loaded(runs)) && Stands(Loaded(runs), m) && Alone(Loaded(runs), moves, m.uid, m.machine, m.meta)
    ensures var (end, issued) := IssuedOver(m, StepsFor(moves, m.uid) + [Reload]);
      && Rooted(Loaded(runs + [moves])) && Stands(Loaded(runs + [moves]), end)
      && end.uid == m.uid && end.machine == m.machine && end.meta == m.meta
      && issued == IssuesIn(Loaded(runs), moves, m.uid)
  {
    assert Now(runs, []) == Loaded(runs);
    hide *;
    assert [] + moves == moves;
    RestOfCycle(runs, [], moves, m);
  }

  /** The last of some later cycles. */
  lemma LaterLast(runs: seq<seq<Move>>, later: seq<seq<Move>>, uid: Id, machine: Machine, meta: Meta)
    requires later != [] && AloneLater(runs, later, uid, machine, meta)
    ensures var init, moves := later[..|later|-1], later[|later|-1];
      && AloneLater(runs, init, uid, machine, meta) && Alone(Loaded(runs + init), moves, uid, machine, meta)
      && IssuesLater(runs, later, uid) == IssuesLater(runs, init, uid) + IssuesIn(Loaded(runs + init), moves, uid)
      && StepsOfRuns(later, uid) == StepsOfRuns(init, uid) + (StepsFor(moves, uid) + [Reload])
      && runs + later == runs + init + [moves]
  {
    hide Alone, Loaded, IssuesIn, StepsFor;
  }

  lemma NothingLater(runs: seq<seq<Move>>, uid: Id, m: ModelValue)
    ensures runs + [] == runs && StepsOfRuns([], uid) == [] && IssuesLater(runs, [], uid) == []
    ensures IssuedOver(m, []) == (m, [])
  {
  }

  /** Cycles after some others: a model goes on from where it stood. */
  lemma {:induction false} LaterProject(runs: seq<seq<Move>>, later: seq<seq<Move>>, m: ModelValue)
    requires Rooted(Loaded(runs)) && Stands(Loaded(runs), m) && AloneLater(runs, later, m.uid, m.machine, m.meta)
    ensures var (end, issued) := IssuedOver(m, StepsOfRuns(later, m.uid));
      && Rooted(Loaded(runs + later)) && Stands(Loaded(runs + later), end)
      && end.uid == m.uid && end.machine == m.machine && end.meta == m.meta && issued == IssuesLater(runs, later, m.uid)
  {
    hide *;
    if later == [] {
      NothingLater(runs, m.uid, m);
    } else {
      var init, moves := later[..|later|-1], later[|later|-1];
      LaterLast(runs, later, m.uid, m.machine, m.meta);
      LaterProject(runs, init, m);
      var start := IssuedOver(m, StepsOfRuns(init, m.uid)).0;
      WholeCycle(runs + init, moves, start);
      IssuedConcat(m, StepsOfRuns(init, m.uid), StepsFor(moves, m.uid) + [Reload]);
    }
  }

  // ---- jobs ----

  /** The steps of a job from some moment on. */
  function StepsSince(rest: seq<Move>, later: seq<seq<Move>>, uid: Id): seq<ModelStep> {
    StepsFor(rest, uid) + [Reload] + StepsOfRuns(later, uid)
  }

  /** In an application, from the moment a job waits and over any number of cycles: however often it is committed,
      exactly one commit reaches the origin, it carries the outcome of the first, and the job stays closed with it. */
  lemma CommittedOnceInApplication(
    runs: seq<seq<Move>>, first: seq<Move>, rest: seq<Move>, later: seq<seq<Move>>, k: Id, job: Job)
    requires (forall i :: 0 <= i < |runs| ==> AllFit(runs[i])) && AllFit(first)
    requires k in Now(runs, first).repository
    requires var m := Now(runs, first).repository[k];
      && m.machine.JobMachine? && m.core.typ.NoType? && m.core.state.Waiting? && m.core.context.job == Some(job)
      && Alone(Now(runs, first), rest, k, JobMachine, m.meta)
      && AloneLater(runs + [first + rest], later, k, JobMachine, m.meta)
    requires forall s <- StepsSince(rest, later, k) :: ToJob(k, s)
    ensures var commit, before := FirstCommit(StepsSince(rest, later, k)), Now(runs, first).repository[k];
      var app := Loaded(runs + [first + rest] + later);
      && (commit.Some? ==> commit.value.CommitJob?)
      && IssuesIn(Now(runs, first), rest, k) + IssuesLater(runs + [first + rest], later, k) ==
           (if commit.None? then [] else [ToOrigin(job, commit.value)])
      && k in app.repository && app.repository[k].core == JobAfter(before.core, commit)
  {
    var m := Now(runs, first).repository[k];
    RunsRooted(runs);
    MovesRooted(Loaded(runs), first);
    assert m.uid == k && Stands(Now(runs, first), m);
    assert StepsSince(rest, later, k) == StepsFor(rest, k) + [Reload] + StepsOfRuns(later, k);
    hide *;
    var steps := StepsFor(rest, k) + [Reload];
    RestOfCycle(runs, first, rest, m);
    var next := IssuedOver(m, steps).0;
    LaterProject(runs + [first + rest], later, next);
    IssuedConcat(m, steps, StepsOfRuns(later, k));
    CommittedOnce(m, StepsSince(rest, later, k), job);
    var end := IssuedOver(m, StepsSince(rest, later, k)).0;
    JobStands(Loaded(runs + [first + rest] + later), end, m, FirstCommit(StepsSince(rest, later, k)));
  }

  lemma JobStands(app: App, end: ModelValue, m: ModelValue, commit: Option<Command>)
    requires Stands(app, end) && m.core.state.Waiting? && end.machine.JobMachine?
    requires (commit.Some? ==> commit.value.CommitJob?) && end.core == JobAfter(m.core, commit)
    ensures end.uid in app.repository && app.repository[end.uid].core == end.core
  {
  }
}
