/** What follows when no commit carries an error, as none from the queue does. */
module FlowOutcomes {
  import opened Wrappers
  import opened FlowTypes
  import opened FlowMachines
  import opened FlowSpec
  import opened FlowReplay
  import opened FlowTokens
  import opened FlowCommands
  import opened FlowProjection

  /** The command carries no error, be it a commit. */
  predicate WithoutError(c: Command) {
    match c
    case CommitJob(_, _, error) => error.None?
    case CommitTask(_, _, error) => error.None?
    case CommitEvent(_, _, error) => error.None?
    case ActivateBoundary(_, _) => false
    case _ => true
  }

  /** A routed command without error, and nobody else who fails a job. */
  predicate Successful(move: Move) {
    match move
    case Routed(c) => WithoutError(c.command)
    case Outside(act) => !(act.Raise? && act.event.JobFailed?)
  }

  predicate AllSuccessful(moves: seq<Move>) { forall k :: 0 <= k < |moves| ==> Successful(moves[k]) }

  /** No job has failed: each is waiting or finished, once it was created. */
  ghost predicate NoneFailed(app: App) {
    forall k :: k in app.repository ==> JobState(app.repository[k])
  }

  ghost predicate JobState(m: ModelValue) {
    m.machine.JobMachine? ==> m.core.state in {Created, Waiting, Finished}
  }

  /** The actions of a handler: no failure is emitted, no error is passed on. */
  ghost predicate Clean(actions: seq<Action>) {
    forall a <- actions :: (a.Emit? ==> !a.event.JobFailed?) && (a.Execute? ==> WithoutError(a.command))
  }

  lemma TypedClean(uid: Id, machine: Machine, core: Core, c: Command, env: Env)
    requires WithoutError(c)
    ensures var found := TypeStateCommand(uid, machine, core, c, env); found.Some? ==> Clean(found.value)
  {
    if machine.EventMachine? && core.state.Activated? {
      EventClean(uid, core, c, env);
    } else if machine.TaskMachine? && core.context.element.Some? {
      TaskClean(uid, core, core.context.element.value, c, env);
      hide TaskCommand;
    }
  }

  lemma TaskClean(uid: Id, core: Core, el: Element, c: Command, env: Env)
    requires WithoutError(c)
    ensures var found := TaskCommand(uid, core, el, c, env); found.Some? ==> Clean(found.value)
  {
  }

  lemma EventClean(uid: Id, core: Core, c: Command, env: Env)
    requires WithoutError(c) && core.state.Activated?
    ensures var found := TypeStateCommand(uid, EventMachine, core, c, env); found.Some? ==> Clean(found.value)
  {
    hide TaskCommand;
  }

  /** A handler of a command without error fails no job and passes no error on. */
  lemma HandlersClean(uid: Id, machine: Machine, core: Core, c: Command, env: Env)
    requires WithoutError(c)
    ensures var found := HandleCommand(uid, machine, core, c, env); found.Some? ==> Clean(found.value)
  {
    TypedClean(uid, machine, core, c, env);
    UntypedClean(machine, core, c);
    hide TypeStateCommand, TypeCommand, StateCommand, GlobalCommand, Clean;
  }

  lemma UntypedClean(machine: Machine, core: Core, c: Command)
    requires WithoutError(c)
    ensures TypeCommand(machine, core, c).Some? ==> Clean(TypeCommand(machine, core, c).value)
    ensures StateCommand(machine, core, c).Some? ==> Clean(StateCommand(machine, core, c).value)
    ensures GlobalCommand(machine, core, c).Some? ==> Clean(GlobalCommand(machine, core, c).value)
  {
  }

  // ---- the commands issued ----

  lemma IssuedOnward(machine: Machine, core: Core, e: Event)
    ensures var out := HandleEvent(machine, core, e); out.Handled? ==> forall c <- out.executes :: IsOnward(c)
  {
    TypedOnward(machine, core, e);
    hide TypeStateHandler;
  }

  lemma TypedOnward(machine: Machine, core: Core, e: Event)
    ensures var out := TypeStateHandler(machine, core, e); out.Handled? ==> forall c <- out.executes :: IsOnward(c)
  {
  }

  lemma {:induction false} PerformedClean(r: Ran, actions: seq<Action>)
    requires Clean(actions)
    ensures forall c <- PerformAll(r, actions).executes :: c in r.executes || WithoutError(c)
  {
    if actions != [] {
      var init, last := actions[..|actions|-1], actions[|actions|-1];
      assert actions == init + [last];
      PerformedClean(r, init);
      PerformClean(PerformAll(r, init), last);
      hide Perform, Clean, WithoutError;
    }
  }

  lemma PerformClean(r: Ran, action: Action)
    requires action.Execute? ==> WithoutError(action.command)
    ensures forall c <- Perform(r, action).executes :: c in r.executes || WithoutError(c)
  {
    if action.Emit? {
      IssuedOnward(r.model.machine, r.model.core, action.event);
    } else if action.JoinCheck? && r.model.core.context.element.Some? {
      IssuedOnward(r.model.machine, r.model.core, GatewayCompleted(r.model.core.context.element.value.id));
    }
    hide HandleEvent, Apply;
  }

  lemma {:induction false} EmittedClean(app: App, events: seq<Event>)
    ensures forall c <- EmitAllIssues(app, events) :: WithoutError(c)
  {
    if events != [] {
      var init, e := events[..|events|-1], events[|events|-1];
      EmittedClean(app, init);
      var m := AddModel(EmitAll(app, init), Target(e), MachineOf(e), EMPTY_META, None).repository[Target(e)];
      IssuedOnward(m.machine, m.core, e);
      hide HandleEvent, EmitAll, AddModel;
    }
  }

  /** All that a command without error leads to, in its own model and in those its events reach. */
  lemma IssuesWithoutError(app: App, c: Call)
    requires WithoutError(c.command)
    ensures forall x <- ExecutedIssues(app, c) :: WithoutError(x)
  {
    var known := AddModel(app, c.uid, c.machine, c.meta, None);
    var m := known.repository[c.uid];
    HandlersClean(m.uid, m.machine, m.core, c.command, c.env);
    var found := HandleCommand(m.uid, m.machine, m.core, c.command, c.env);
    PerformedClean(Ran(m, [], [], [], known.clock), if found.Some? then found.value else []);
    var r := Dispatch(m, c.command, c.env, known.clock);
    EmittedClean(App(known.repository[c.uid := r.model], known.keys, r.clock), r.others);
    hide HandleCommand, PerformAll, EmitAllIssues, WithoutError;
  }

  // ---- the jobs ----

  lemma AppliedState(m: ModelValue, s: Stamped)
    requires JobState(m) && !s.event.JobFailed?
    ensures JobState(Apply(m, s))
  {
    AppliedOnce(m, s);
    if m.machine.JobMachine? {
      JobNext(m.core, s.event);
    }
    hide HandleEvent, Apply, After;
  }

  lemma JobNext(core: Core, e: Event)
    requires core.state in {Created, Waiting, Finished} && !e.JobFailed?
    ensures After(JobMachine, core, e).state in {Created, Waiting, Finished}
  {
  }

  lemma NewState(uid: Id, machine: Machine, meta: Meta)
    ensures JobState(NewModel(uid, machine, meta, None))
  {
  }

  lemma StepState(app: App, act: Act)
    requires NoneFailed(app) && !(act.Raise? && act.event.JobFailed?)
    ensures NoneFailed(Step(app, act))
  {
    match act
    case Add(uid, machine, meta) =>
      NewState(uid, machine, meta);
      hide JobState, NewModel;
    case Raise(e) =>
      NewState(Target(e), MachineOf(e), EMPTY_META);
      var known := AddModel(app, Target(e), MachineOf(e), EMPTY_META, None);
      hide JobState, NewModel, Apply;
      assert NoneFailed(known);
      AppliedState(known.repository[Target(e)], Stamp(known.repository[Target(e)], e, known.clock));
  }

  lemma {:induction false} RunState(app: App, acts: seq<Act>)
    requires NoneFailed(app) && forall a <- acts :: !(a.Raise? && a.event.JobFailed?)
    ensures NoneFailed(Run(app, acts))
  {
    if acts != [] {
      var init, act := acts[..|acts|-1], acts[|acts|-1];
      assert acts == init + [act];
      RunState(app, init);
      hide Step, NoneFailed;
      StepState(Run(app, init), act);
    }
  }

  lemma EmittedByClean(e: Event, actions: seq<Action>)
    requires EmittedBy(e, actions) && Clean(actions)
    ensures !e.JobFailed?
  {
  }

  lemma MoveState(app: App, move: Move)
    requires NoneFailed(app) && Successful(move) && forall k :: k in app.repository ==> app.repository[k].uid == k
    ensures NoneFailed(Moved(app, move))
  {
    match move
    case Outside(act) => StepState(app, act);
    case Routed(c) =>
      var acts := ExecutedIsRun(app, c);
      var m := AddModel(app, c.uid, c.machine, c.meta, None).repository[c.uid];
      HandlersClean(c.uid, m.machine, m.core, c.command, c.env);
      assert Clean(ActionsOf(app, c)) by { hide HandleCommand, NoneFailed; }
      hide NoneFailed, Run, Executed, ActionsOf, Clean, WithoutError, EmittedBy;
      forall a | a in acts ensures !(a.Raise? && a.event.JobFailed?) {
        if a != acts[0] {
          assert a in acts[1..];
          EmittedByClean(a.event, ActionsOf(app, c));
        }
      }
      RunState(app, acts);
  }

  ghost predicate Ids(app: App) { forall k :: k in app.repository ==> app.repository[k].uid == k }

  lemma MoveIds(app: App, move: Move)
    requires Ids(app)
    ensures Ids(Moved(app, move))
  {
    match move
    case Outside(act) =>
      RunKeepsIds(app, [act]);
      OneAct(app, act);
    case Routed(c) =>
      var acts := ExecutedIsRun(app, c);
      RunKeepsIds(app, acts);
  }

  lemma OneAct(app: App, act: Act)
    ensures Run(app, [act]) == Step(app, act)
  {
    hide Step;
    RunConcat(app, [], act);
    assert [] + [act] == [act];
  }

  lemma {:induction false} MovesState(app: App, moves: seq<Move>)
    requires NoneFailed(app) && Ids(app) && AllSuccessful(moves)
    ensures NoneFailed(ExecutedAll(app, moves)) && Ids(ExecutedAll(app, moves))
  {
    if moves != [] {
      MovesState(app, moves[..|moves|-1]);
      assert Successful(moves[|moves|-1]);
      hide NoneFailed, Moved, Successful;
      MoveState(ExecutedAll(app, moves[..|moves|-1]), moves[|moves|-1]);
      MoveIds(ExecutedAll(app, moves[..|moves|-1]), moves[|moves|-1]);
    }
  }

  lemma CycleState(w: World, moves: seq<Move>)
    requires StoredWorld(CallCycle(w, moves)) && NoneFailed(ExecutedAll(Load(w.store, w.clock), moves))
    ensures var next := CallCycle(w, moves); NoneFailed(Load(next.store, next.clock))
  {
    PersistedRow(w, moves);
    var next := CallCycle(w, moves);
    StoredIs(next);
    hide *;
    var row := next.store.value;
    LoadGivesBackModels(row, next.clock);
    StatesKept(row, ExecutedAll(Load(w.store, w.clock), moves), Load(next.store, next.clock));
  }

  lemma StatesKept(row: Row, before: App, after: App)
    requires row.snapshot == map k | k in before.repository :: SnapOf(before.repository[k])
    requires forall k :: k in after.repository <==> k in row.snapshot
    requires forall k :: k in after.repository ==>
      after.repository[k] == ModelValue(k, row.snapshot[k].machine, row.snapshot[k].meta, row.snapshot[k].core, [])
    requires NoneFailed(before)
    ensures NoneFailed(after)
  {
    forall k | k in after.repository ensures JobState(after.repository[k]) {
      assert JobState(before.repository[k]);
    }
  }

  /** Over any number of cycles in which no commit carries an error: no job fails, so every job that is closed has
      finished with a result. */
  lemma {:induction false} NoErrorNoFailure(runs: seq<seq<Move>>)
    requires forall k :: 0 <= k < |runs| ==> AllSuccessful(runs[k])
    ensures NoneFailed(Loaded(runs)) && Ids(Loaded(runs))
  {
    if runs == [] {
      NoneLoaded();
    } else {
      var init, moves := runs[..|runs|-1], runs[|runs|-1];
      NoErrorNoFailure(init);
      CyclesStored(runs);
      LoadedIds(CallCycles(runs));
      hide NoneFailed, Load, CallCycle, StoredWorld, AllSuccessful;
      assert CallCycles(runs) == CallCycle(CallCycles(init), moves);
      MovesState(Loaded(init), moves);
      CycleState(CallCycles(init), moves);
    }
  }
}
