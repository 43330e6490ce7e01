/** The theorems on runs, said of moves: the commands routed to elements and jobs between a load and a persist, with
    whatever the instance machine does in between. */
module FlowCommands {
  import opened Wrappers
  import opened FlowTypes
  import opened FlowMachines
  import opened FlowSpec
  import opened FlowReplay
  import opened FlowTokens
  import opened FlowJobs

  /** Whatever commands are executed, replaying the grouped log rebuilds exactly the models that logged an event. */
  lemma ReplayAgreesWithCommands(moves: seq<Move>, order: seq<Id>)
    requires Enumerates(order, ExecutedAll(App(NO_MODELS, [], 0), moves).repository)
    ensures var live := ExecutedAll(App(NO_MODELS, [], 0), moves).repository;
      var back := Replay(App(NO_MODELS, [], 0), map[], Grouped(live, order)).repository;
      && (forall k :: k in back ==> k in live && live[k].localEvents != [])
      && forall k :: k in live && live[k].localEvents != [] ==>
           k in back && (Grounded(live[k].machine, live[k].meta) ==> SnapOf(back[k]) == SnapOf(live[k]))
  {
    var acts := ExecutedAllIsRun(App(NO_MODELS, [], 0), moves);
    hide Run, ExecutedAll, Replay, Grouped;
    ReplayAgreesWithRun(acts, order);
  }

  /** The first activation of a sequence, which the instance machine routes to it together with its element: the token
      passes through, and both events are logged. */
  lemma RoutedSequencePassesOn(app: App, c: Call, el: Element)
    requires c.uid !in app.repository && c.machine.SequenceMachine? && c.meta == Meta(Some(el)) && el.id == c.uid
    requires c.command.ActivateElement?
    ensures var after := Executed(app, c).repository;
      && ExecutedIssues(app, c) == [ActivateNext(el.id)]
      && c.uid in after && after[c.uid].core.state.Idle?
      && |after[c.uid].localEvents| == 2
      && after[c.uid].localEvents[0].event == SequenceActivated(el.id)
      && after[c.uid].localEvents[1].event == SequenceCompleted(el.id)
  {
    var known := AddModel(app, c.uid, c.machine, c.meta, None);
    var m := known.repository[c.uid];
    SequencePassesOn(m, c.command, c.env, known.clock);
    SequenceLogs(m, c.command, c.env, known.clock);
    hide Dispatch;
    assert [ActivateNext(el.id)] + [] == [ActivateNext(el.id)];
  }

  lemma SequenceLogs(m: ModelValue, c: Command, env: Env, clock: nat)
    requires m.machine.SequenceMachine? && m.core.typ.NoType? && m.core.state.Idle? && c.ActivateElement?
    requires m.core.context.element.Some? && m.core.context.element.value.id == m.uid && m.localEvents == []
    ensures var r := Dispatch(m, c, env, clock);
      && r.others == [] && |r.model.localEvents| == 2
      && r.model.localEvents[0].event == SequenceActivated(m.uid)
      && r.model.localEvents[1].event == SequenceCompleted(m.uid)
  {
    var actions := [Emit(SequenceActivated(m.uid)), Emit(SequenceCompleted(m.uid))];
    var start := Ran(m, [], [], [], clock);
    assert HandleCommand(m.uid, m.machine, m.core, c, env) == Some(actions);
    SequenceEffect(m.core, m.uid);
    hide HandleCommand;
    TwoPerformed(start, actions[0], actions[1]);
    hide PerformAll, HandleEvent;
  }

  // ---- cycles of commands ----

  function CallCycle(w: World, moves: seq<Move>): World {
    var app := ExecutedAll(Load(w.store, w.clock), moves);
    World(Some(Persist(w.store, GetApp(w.store, false), app)), app.clock)
  }

  function CallCycles(runs: seq<seq<Move>>): World {
    if runs == [] then World(None, 0) else CallCycle(CallCycles(runs[..|runs|-1]), runs[|runs|-1])
  }

  lemma LoadedIds(w: World)
    requires StoredWorld(w)
    ensures var app := Load(w.store, w.clock); forall k :: k in app.repository ==> app.repository[k].uid == k
  {
    if w.store.Some? {
      LoadGivesBackModels(w.store.value, w.clock);
    }
  }

  /** Whatever is executed in each, cycles of commands are cycles. */
  lemma {:induction false} CallCyclesAreCycles(runs: seq<seq<Move>>) returns (acts: seq<seq<Act>>)
    ensures |acts| == |runs| && Cycles(World(None, 0), acts) == CallCycles(runs)
  {
    if runs == [] {
      acts := [];
    } else {
      var init := CallCyclesAreCycles(runs[..|runs|-1]);
      var w := CallCycles(runs[..|runs|-1]);
      CyclesStore(World(None, 0), init);
      LoadedIds(w);
      hide Load, GetApp, Persist, StoredWorld, ExecutedAll, Run;
      var last := ExecutedAllIsRun(Load(w.store, w.clock), runs[|runs|-1]);
      acts := init + [last];
      assert acts[..|acts|-1] == init;
    }
  }

  /** After any number of cycles of any commands: the version counts them, loading gives back every persisted model
      with an empty tail, and replaying the whole log from the beginning gives the snapshot. */
  lemma SnapshotIsReplayOfCommands(runs: seq<seq<Move>>)
    requires runs != []
    ensures var w := CallCycles(runs);
      && w.store.Some? && w.store.value.version == |runs|
      && GetApp(w.store, false).events == []
      && LoadedAsStored(w.store.value, Load(w.store, w.clock).repository)
      && forall k :: RebuiltAt(w.store.value,
           Replay(App(NO_MODELS, [], w.clock), map[], GetApp(w.store, true).events).repository, k)
  {
    var acts := CallCyclesAreCycles(runs);
    hide Load, GetApp, CallCycles, Cycles, Replay, RebuiltAt, LoadedAsStored;
    SnapshotIsReplayOfWholeLog(acts);
  }

  // ---- jobs ----

  /** A command as the engine and the queue send it: it carries the version of the application and an id nobody has;
      a commit goes to the job it names, and only to a job there is. */
  ghost predicate JobCall(app: App, c: Call, version: nat) {
    && c.env.version == version && c.env.freshId !in app.repository && c.env.freshId != c.uid
    && (c.command.CommitJob? ==> c.command.jobId == c.uid)
    && (c.machine.JobMachine? ==> c.uid in app.repository)
  }

  /** What else happens creates jobs under new ids and with the version of the application, and commits only jobs
      there are. */
  ghost predicate JobMove(app: App, move: Move, version: nat) {
    match move
    case Routed(call) => JobCall(app, call, version)
    case Outside(act) => JobAct(app, act, version)
  }

  ghost predicate JobMoves(app: App, moves: seq<Move>, version: nat) {
    moves == [] ||
    var init := moves[..|moves|-1];
    JobMoves(app, init, version) && JobMove(ExecutedAll(app, init), moves[|moves|-1], version)
  }

  /** An event that creates no job, and closes none but the model's own. */
  ghost predicate Harmless(e: Event, uid: Id) {
    !e.JobCreated? && (MachineOf(e).JobMachine? ==> Target(e) == uid)
  }

  /** One job first, under the fresh id and with the version given, and none after it. */
  ghost predicate OneJob(actions: seq<Action>, uid: Id, env: Env) {
    actions != [] && NoJobs(actions[1..], uid)
    && exists job :: actions[0] == Emit(JobCreated(job)) && job.jobId == env.freshId && job.version == env.version
  }

  ghost predicate NoJobs(actions: seq<Action>, uid: Id) {
    forall a <- actions :: a.Emit? ==> Harmless(a.event, uid)
  }

  lemma TaskOnJobs(uid: Id, core: Core, el: Element, c: Command, env: Env)
    ensures var found := TaskCommand(uid, core, el, c, env);
      found.Some? ==> OneJob(found.value, uid, env) || NoJobs(found.value, uid)
  {
    var found := TaskCommand(uid, core, el, c, env);
    if found.Some? && |found.value| == 2 && found.value[0].Emit? && found.value[0].event.JobCreated? {
      assert found.value[1..] == [found.value[1]];
    }
  }

  lemma TypedOnJobs(uid: Id, machine: Machine, core: Core, c: Command, env: Env)
    ensures var found := TypeStateCommand(uid, machine, core, c, env);
      found.Some? ==> OneJob(found.value, uid, env) || NoJobs(found.value, uid)
  {
    if machine.EventMachine? && core.state.Activated? {
      EventOnJobs(uid, core, c, env);
    } else if machine.TaskMachine? && core.context.element.Some? {
      TaskOnJobs(uid, core, core.context.element.value, c, env);
      hide TaskCommand, OneJob;
    }
  }

  lemma EventOnJobs(uid: Id, core: Core, c: Command, env: Env)
    requires core.state.Activated?
    ensures var found := TypeStateCommand(uid, EventMachine, core, c, env);
      found.Some? ==> OneJob(found.value, uid, env) || NoJobs(found.value, uid)
  {
    hide TaskCommand;
    if c.ProcessEvent? && core.typ in {MessageThrowing, EndMessageThrowing} {
      var actions := CreateJob(uid, core.context, env);
      if actions != [] {
        assert actions[0] == Emit(JobCreated(actions[0].event.job)) && actions[1..] == [];
      }
    }
  }

  /** A handler either creates one job, before anything else it emits, or it creates none; it closes none but its
      own. */
  lemma HandlersOnJobs(uid: Id, machine: Machine, core: Core, c: Command, env: Env)
    requires c.CommitJob? ==> c.jobId == uid
    ensures var found := HandleCommand(uid, machine, core, c, env);
      found.Some? ==> OneJob(found.value, uid, env) || NoJobs(found.value, uid)
  {
    TypedOnJobs(uid, machine, core, c, env);
    hide TypeStateCommand, OneJob;
  }

  lemma {:induction false} HarmlessActs(app: App, acts: seq<Act>, uid: Id, version: nat)
    requires uid in app.repository && forall a <- acts :: a.Raise? && Harmless(a.event, uid)
    ensures JobActs(app, acts, version) && uid in Run(app, acts).repository
  {
    if acts != [] {
      HarmlessActs(app, acts[..|acts|-1], uid, version);
      assert acts[|acts|-1] in acts;
      hide HandleEvent;
    }
  }

  lemma {:induction false} JobActsConcat(app: App, a: seq<Act>, b: seq<Act>, version: nat)
    requires JobActs(app, a, version) && JobActs(Run(app, a), b, version)
    ensures JobActs(app, a + b, version)
  {
    hide Run, JobAct;
    if b == [] {
      assert a + b == a;
    } else {
      var init, last := b[..|b|-1], b[|b|-1];
      JobActsConcat(app, a, init, version);
      RunsCompose(app, a, init);
      assert (a + b)[..|a + b|-1] == a + init;
    }
  }

  lemma OneJobAct(app: App, act: Act, version: nat)
    requires JobAct(app, act, version)
    ensures JobActs(app, [act], version) && Run(app, [act]) == Step(app, act)
  {
    hide Step;
    assert [act][..0] == [];
  }

  /** An event for another model, emitted first, only comes before what the rest of the handler emits. */
  lemma {:induction false} EmittedFirst(r: Ran, e: Event, rest: seq<Action>)
    requires Target(e) != r.model.uid
    ensures var plain, done := PerformAll(r, rest), PerformAll(r.(others := r.others + [e]), rest);
      && plain.model.uid == r.model.uid && r.others <= plain.others
      && done == plain.(others := r.others + [e] + plain.others[|r.others|..])
  {
    if rest == [] {
      assert r.others + [e] + [] == r.others + [e];
    } else {
      EmittedFirst(r, e, rest[..|rest|-1]);
      var plain := PerformAll(r, rest[..|rest|-1]);
      hide Apply, Issued, HandleEvent, PerformAll;
      var action := rest[|rest|-1];
      OtherOne(plain, r.others, [e], action);
    }
  }

  lemma OtherOne(plain: Ran, before: seq<Event>, more: seq<Event>, action: Action)
    requires before <= plain.others
    ensures var after := Perform(plain, action);
      && after.model.uid == plain.model.uid && before <= after.others
      && Perform(plain.(others := before + more + plain.others[|before|..]), action)
           == after.(others := before + more + after.others[|before|..])
  {
    hide Issued, HandleEvent;
    var moved := plain.(others := before + more + plain.others[|before|..]);
    var e := if action.Emit? then Some(action.event)
             else if action.JoinCheck? && Perform(plain, action) != plain
             then Some(GatewayCompleted(plain.model.core.context.element.value.id)) else None;
    if e.Some? && Target(e.value) != plain.model.uid {
      assert (plain.others + [e.value])[|before|..] == plain.others[|before|..] + [e.value];
      assert moved.others + [e.value] == before + more + (plain.others[|before|..] + [e.value]);
    }
  }

  lemma PerformFirst(r: Ran, first: Action, rest: seq<Action>)
    ensures PerformAll(r, [first] + rest) == PerformAll(Perform(r, first), rest)
  {
    hide Perform;
    PerformConcat(r, [first], rest);
    Performed(r, first, []);
  }

  /** The jobs the handler of a command creates. */
  function JobsOfCall(app: App, c: Call): set<Job> {
    set a <- ActionsOf(app, c) | a.Emit? && a.event.JobCreated? :: a.event.job
  }

  function JobsOfMove(app: App, move: Move): set<Job> {
    match move
    case Routed(call) => JobsOfCall(app, call)
    case Outside(act) => FlowJobs.Created([act])
  }

  function JobsOfMoves(app: App, moves: seq<Move>): set<Job> {
    if moves == [] then {}
    else
      var init := moves[..|moves|-1];
      JobsOfMoves(app, init) + JobsOfMove(ExecutedAll(app, init), moves[|moves|-1])
  }

  lemma CreatedConcat(a: seq<Act>, b: seq<Act>)
    ensures FlowJobs.Created(a + b) == FlowJobs.Created(a) + FlowJobs.Created(b)
  {
  }

  lemma Prefixed(app: App, first: Act, rest: seq<Act>, version: nat)
    requires JobAct(app, first, version) && JobActs(Step(app, first), rest, version)
    ensures JobActs(app, [first] + rest, version)
  {
    OneJobAct(app, first, version);
    hide JobAct, Step, Run;
    JobActsConcat(app, [first], rest, version);
  }

  lemma HarmlessCreate(acts: seq<Act>, uid: Id)
    requires forall a <- acts :: a.Raise? && Harmless(a.event, uid)
    ensures FlowJobs.Created(acts) == {}
  {
  }

  lemma EmittedHarmless(e: Event, actions: seq<Action>, uid: Id)
    requires EmittedBy(e, actions) && NoJobs(actions, uid)
    ensures Harmless(e, uid)
  {
  }

  /** A handler that creates a job, once its model is there: its own events, the job, and what else it emits. */
  lemma JobHandlerIsRun(known: App, uid: Id, c: Command, env: Env, job: Job, rest: seq<Action>) returns (acts: seq<Act>)
    requires uid in known.repository && known.repository[uid].uid == uid
    requires var m := known.repository[uid];
      HandleCommand(uid, m.machine, m.core, c, env) == Some([Emit(JobCreated(job))] + rest)
    requires NoJobs(rest, uid) && job.jobId !in known.repository
    ensures var r := Dispatch(known.repository[uid], c, env, known.clock);
      Run(known, acts) == EmitAll(App(known.repository[uid := r.model], known.keys, r.clock), r.others)
    ensures JobActs(known, acts, job.version) && FlowJobs.Created(acts) == {job}
  {
    var start := Ran(known.repository[uid], [], [], [], known.clock);
    var e := JobCreated(job);
    PerformFirst(start, Emit(e), rest);
    assert [] + [e] == [e];
    EmittedFirst(start, e, rest);
    var plain := PerformAll(start, rest);
    OthersEmitted(start, rest);
    var own := PerformIsRun(known, start, rest);
    hide HandleCommand, PerformAll, HandleEvent, NoJobs, EmittedBy;
    forall a | a in own ensures a.Raise? && Harmless(a.event, uid) { EmittedHarmless(a.event, rest, uid); }
    forall o | o in plain.others ensures Harmless(o, uid) { EmittedHarmless(o, rest, uid); }
    acts := JobRaised(known, uid, job, own, plain.others);
    assert plain.others[0..] == plain.others && [] + [e] + plain.others == [e] + plain.others;
  }

  /** Own events, then the job, then the events for other models. */
  lemma JobRaised(known: App, uid: Id, job: Job, own: seq<Act>, others: seq<Event>) returns (acts: seq<Act>)
    requires uid in known.repository && job.jobId !in Run(known, own).repository
    requires forall a <- own :: a.Raise? && Harmless(a.event, uid)
    requires forall e <- others :: Harmless(e, uid)
    ensures Run(known, acts) == EmitAll(Run(known, own), [JobCreated(job)] + others)
    ensures JobActs(known, acts, job.version) && FlowJobs.Created(acts) == {job}
  {
    var mid := Run(known, own);
    var raise := Raise(JobCreated(job));
    HarmlessActs(known, own, uid, job.version);
    HarmlessCreate(own, uid);
    assert JobAct(mid, raise, job.version) && uid in Step(mid, raise).repository;
    var rest := EmitAllIsRun(Step(mid, raise), [], others);
    EmitFirst(mid, JobCreated(job), others);
    HarmlessActs(Step(mid, raise), rest, uid, job.version);
    HarmlessCreate(rest, uid);
    hide Step, JobAct, Harmless, EmitAll;
    Prefixed(mid, raise, rest, job.version);
    StepThenRun(mid, raise, rest);
    RunsCompose(known, own, [raise] + rest);
    JobActsConcat(known, own, [raise] + rest, job.version);
    acts := own + ([raise] + rest);
    hide Run, JobActs;
    CreatedConcat([raise], rest);
    CreatedConcat(own, [raise] + rest);
    assert raise in [raise];
  }

  lemma {:induction false} EmitFirst(app: App, e: Event, rest: seq<Event>)
    ensures EmitAll(app, [e] + rest) == EmitAll(Emitted(app, e), rest)
  {
    hide Emitted;
    if rest == [] {
      assert [e] + [] == [e] && [e][..0] == [];
    } else {
      EmitFirst(app, e, rest[..|rest|-1]);
      assert ([e] + rest)[..|rest|] == [e] + rest[..|rest|-1];
    }
  }

  lemma CreatingCall(app: App, c: Call, version: nat) returns (acts: seq<Act>)
    requires JobCall(app, c, version) && forall k :: k in app.repository ==> app.repository[k].uid == k
    requires OneJob(ActionsOf(app, c), c.uid, c.env)
    ensures Run(app, acts) == Executed(app, c) && JobActs(app, acts, version)
    ensures FlowJobs.Created(acts) == JobsOfCall(app, c)
  {
    var first := Add(c.uid, c.machine, c.meta);
    var known := Step(app, first);
    var actions := ActionsOf(app, c);
    var job := actions[0].event.job;
    assert actions == [Emit(JobCreated(job))] + actions[1..];
    var raised := JobHandlerIsRun(known, c.uid, c.command, c.env, job, actions[1..]);
    assert Run(known, raised) == Executed(app, c);
    assert JobAct(app, first, version);
    OnlyJob(actions, c.uid, job);
    hide Executed, Step, JobAct, JobCall, ActionsOf;
    Prefixed(app, first, raised, version);
    StepThenRun(app, first, raised);
    acts := [first] + raised;
    hide Run, JobActs;
    CreatedConcat([first], raised);
    assert FlowJobs.Created([first]) == {};
  }

  lemma OnlyJob(actions: seq<Action>, uid: Id, job: Job)
    requires actions != [] && actions[0] == Emit(JobCreated(job)) && NoJobs(actions[1..], uid)
    ensures (set a <- actions | a.Emit? && a.event.JobCreated? :: a.event.job) == {job}
  {
    assert actions == [actions[0]] + actions[1..];
    assert actions[0] in actions;
  }

  lemma OtherCall(app: App, c: Call, version: nat) returns (acts: seq<Act>)
    requires JobCall(app, c, version) && forall k :: k in app.repository ==> app.repository[k].uid == k
    requires NoJobs(ActionsOf(app, c), c.uid)
    ensures Run(app, acts) == Executed(app, c) && JobActs(app, acts, version)
    ensures FlowJobs.Created(acts) == JobsOfCall(app, c)
  {
    var first := Add(c.uid, c.machine, c.meta);
    assert JobAct(app, first, version) && c.uid in Step(app, first).repository;
    acts := ExecutedIsRun(app, c);
    var rest := acts[1..];
    forall a | a in rest ensures a.Raise? && Harmless(a.event, c.uid) {
      EmittedHarmless(a.event, ActionsOf(app, c), c.uid);
    }
    assert JobsOfCall(app, c) == {};
    hide ActionsOf, Executed, Run, JobAct, Step, JobCall, JobsOfCall, EmittedBy, NoJobs;
    assert acts == [first] + rest;
    HarmlessActs(Step(app, first), rest, c.uid, version);
    HarmlessCreate(rest, c.uid);
    Prefixed(app, first, rest, version);
    CreatedConcat([first], rest);
    assert FlowJobs.Created([first]) == {};
  }

  /** One such command is a run that keeps to the rules for jobs and creates the jobs its handler emits. */
  lemma CallIsJobRun(app: App, c: Call, version: nat) returns (acts: seq<Act>)
    requires JobCall(app, c, version) && forall k :: k in app.repository ==> app.repository[k].uid == k
    ensures Run(app, acts) == Executed(app, c) && JobActs(app, acts, version)
    ensures FlowJobs.Created(acts) == JobsOfCall(app, c)
  {
    var m := AddModel(app, c.uid, c.machine, c.meta, None).repository[c.uid];
    HandlersOnJobs(c.uid, m.machine, m.core, c.command, c.env);
    assert OneJob(ActionsOf(app, c), c.uid, c.env) || NoJobs(ActionsOf(app, c), c.uid);
    hide HandleCommand, Executed, Run, JobActs, FlowJobs.Created, ActionsOf, OneJob, NoJobs, JobsOfCall;
    if OneJob(ActionsOf(app, c), c.uid, c.env) {
      acts := CreatingCall(app, c, version);
    } else {
      acts := OtherCall(app, c, version);
    }
  }

  lemma MoveIsJobRun(app: App, move: Move, version: nat) returns (acts: seq<Act>)
    requires JobMove(app, move, version) && forall k :: k in app.repository ==> app.repository[k].uid == k
    ensures Run(app, acts) == Moved(app, move) && JobActs(app, acts, version)
    ensures FlowJobs.Created(acts) == JobsOfMove(app, move)
  {
    match move
    case Routed(call) => acts := CallIsJobRun(app, call, version);
    case Outside(act) =>
      acts := [act];
      OneJobAct(app, act, version);
  }

  lemma {:induction false} MovesAreJobRun(app: App, moves: seq<Move>, version: nat) returns (acts: seq<Act>)
    requires JobMoves(app, moves, version) && forall k :: k in app.repository ==> app.repository[k].uid == k
    ensures Run(app, acts) == ExecutedAll(app, moves) && JobActs(app, acts, version)
    ensures FlowJobs.Created(acts) == JobsOfMoves(app, moves)
  {
    if moves == [] {
      acts := [];
    } else {
      acts := MovesAreJobRun(app, moves[..|moves|-1], version);
      RunKeepsIds(app, acts);
      hide Run, Moved, JobMove, JobAct, JobsOfMove, FlowJobs.Created;
      var more := MoveIsJobRun(Run(app, acts), moves[|moves|-1], version);
      RunsCompose(app, acts, more);
      JobActsConcat(app, acts, more, version);
      CreatedConcat(acts, more);
      acts := acts + more;
    }
  }

  ghost predicate JobCallRuns(runs: seq<seq<Move>>) {
    runs == [] ||
    var w := CallCycles(runs[..|runs|-1]);
    JobCallRuns(runs[..|runs|-1]) && JobMoves(Load(w.store, w.clock), runs[|runs|-1], GetApp(w.store, false).version)
  }

  /** The jobs the commands of one cycle create. */
  function JobsIn(runs: seq<seq<Move>>, v: nat): set<Job>
    requires v < |runs|
  {
    var w := CallCycles(runs[..v]);
    JobsOfMoves(Load(w.store, w.clock), runs[v])
  }

  /** One more cycle. */
  lemma CallCycleIsJobRun(runs: seq<seq<Move>>, init: seq<seq<Act>>) returns (last: seq<Act>)
    requires runs != [] && JobCallRuns(runs) && Cycles(World(None, 0), init) == CallCycles(runs[..|runs|-1])
    ensures Cycle(CallCycles(runs[..|runs|-1]), last) == CallCycles(runs)
    ensures var w := CallCycles(runs[..|runs|-1]); JobActs(Load(w.store, w.clock), last, GetApp(w.store, false).version)
    ensures FlowJobs.Created(last) == JobsIn(runs, |runs| - 1)
  {
    CyclesStore(World(None, 0), init);
    var w := CallCycles(runs[..|runs|-1]);
    LoadedIds(w);
    hide Load, GetApp, Persist, JobActs, StoredWorld, ExecutedAll, Run, FlowJobs.Created, JobsOfMoves, JobMoves;
    last := MovesAreJobRun(Load(w.store, w.clock), runs[|runs|-1], GetApp(w.store, false).version);
  }

  /** Cycles of commands that keep to the rules for jobs are cycles the theorems on jobs speak of. */
  lemma {:induction false} CallCyclesAreJobRuns(runs: seq<seq<Move>>) returns (acts: seq<seq<Act>>)
    requires JobCallRuns(runs)
    ensures |acts| == |runs| && Cycles(World(None, 0), acts) == CallCycles(runs) && JobRuns(acts)
    ensures forall v :: 0 <= v < |runs| ==> FlowJobs.Created(acts[v]) == JobsIn(runs, v)
  {
    if runs == [] {
      acts := [];
    } else {
      var init := CallCyclesAreJobRuns(runs[..|runs|-1]);
      var last := CallCycleIsJobRun(runs, init);
      acts := init + [last];
      NextJobRun(init, last);
      hide *;
      forall v | 0 <= v < |runs| ensures FlowJobs.Created(acts[v]) == JobsIn(runs, v) {
        if v < |runs| - 1 {
          EarlierJobs(runs, v);
        }
      }
    }
  }

  lemma NextJobRun(init: seq<seq<Act>>, last: seq<Act>)
    requires JobRuns(init)
    requires var w := Cycles(World(None, 0), init);
      JobActs(Load(w.store, w.clock), last, GetApp(w.store, false).version)
    ensures Cycles(World(None, 0), init + [last]) == Cycle(Cycles(World(None, 0), init), last)
    ensures JobRuns(init + [last])
  {
    hide Cycle, Load, GetApp, JobActs;
    assert (init + [last])[..|init|] == init;
  }

  lemma EarlierJobs(runs: seq<seq<Move>>, v: nat)
    requires v + 1 < |runs|
    ensures JobsIn(runs[..|runs|-1], v) == JobsIn(runs, v)
  {
    hide CallCycles, JobsOfMoves, Load;
    assert runs[..|runs|-1][..v] == runs[..v];
  }

  /** Over any number of cycles of commands: the list of a version holds exactly the jobs that the commands of that
      cycle created, each once, so every job is in exactly one list. */
  lemma CommandsJobsInOneList(runs: seq<seq<Move>>, version: nat)
    requires JobCallRuns(runs)
    ensures var w := CallCycles(runs);
      var app := Load(w.store, w.clock);
      var list := JobsOf(AllJobs(app.repository, app.keys), version);
      && list.Some? && NoDuplicates(list.value)
      && forall j :: j in list.value <==> version < |runs| && j in JobsIn(runs, version)
  {
    var acts := CallCyclesAreJobRuns(runs);
    hide Load, CallCycles, Cycles, JobsOf, AllJobs, NoDuplicates, FlowJobs.Created, JobsIn, JobRuns;
    EveryJobInOneList(acts, version);
  }
}
