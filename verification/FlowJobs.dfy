/** Jobs: handed out for exactly one version, committed to their origin exactly once. */
module FlowJobs {
  import opened Wrappers
  import opened FlowTypes
  import opened FlowMachines
  import opened FlowSpec
  import opened FlowReplay
  import opened FlowTokens

  // ---- commits ----

  /** The first commit among the steps. */
  function FirstCommit(steps: seq<ModelStep>): Option<Command> {
    if steps == [] then None else
    var before, s := FirstCommit(steps[..|steps|-1]), steps[|steps|-1];
    if before.Some? then before else if s.Do? && s.command.CommitJob? then Some(s.command) else None
  }

  /** The command that carries the outcome of a commit to the element that created the job. */
  function ToOrigin(job: Job, c: Command): Command
    requires c.CommitJob?
  {
    var result := if c.error.None? then c.result else None;
    if job.kind.EventJob? then CommitEvent(job.origin, result, c.error) else CommitTask(job.origin, result, c.error)
  }

  /** A job after its commits: waiting, or closed with the outcome of the first one. */
  function JobAfter(core: Core, first: Option<Command>): Core
    requires first.Some? ==> first.value.CommitJob?
  {
    match first
    case None => core
    case Some(c) =>
      if c.error.None? then core.(state := Finished, context := core.context.(result := c.result))
      else core.(state := Failed, context := core.context.(error := c.error))
  }

  ghost predicate ToJob(uid: Id, s: ModelStep) {
    s.Do? ==> s.command.CommitJob? && s.command.jobId == uid
  }

  lemma CommitActions(m: ModelValue, c: Command, env: Env, job: Job)
    requires m.machine.JobMachine? && m.core.typ.NoType? && m.core.state.Waiting? && m.core.context.job == Some(job)
    requires c.CommitJob?
    ensures HandleCommand(m.uid, m.machine, m.core, c, env) ==
      Some([Execute(ToOrigin(job, c)),
        Emit(if c.error.None? then JobFinished(c.jobId, c.result) else JobFailed(c.jobId, c.error))])
  {
  }

  lemma CommitEffect(core: Core, c: Command)
    requires core.typ.NoType? && core.state.Waiting? && c.CommitJob?
    ensures HandleEvent(JobMachine, core, if c.error.None? then JobFinished(c.jobId, c.result)
      else JobFailed(c.jobId, c.error))
         == Handled(JobAfter(core, Some(c)), [])
  {
  }

  lemma FirstCommitWaiting(m: ModelValue, c: Command, env: Env, job: Job)
    requires m.machine.JobMachine? && m.core.typ.NoType? && m.core.state.Waiting? && m.core.context.job == Some(job)
    requires c.CommitJob? && c.jobId == m.uid
    ensures var r := Dispatch(m, c, env, 0);
      r.executes == [ToOrigin(job, c)] && r.model.core == JobAfter(m.core, Some(c)) && r.model.uid == m.uid
        && r.model.machine == m.machine
  {
    var outcome := if c.error.None? then JobFinished(c.jobId, c.result) else JobFailed(c.jobId, c.error);
    var actions := [Execute(ToOrigin(job, c)), Emit(outcome)];
    var start := Ran(m, [], [], [], 0);
    CommitActions(m, c, env, job);
    CommitEffect(m.core, c);
    hide HandleCommand, ToOrigin, HandleEvent;
    TwoPerformed(start, actions[0], actions[1]);
    hide PerformAll;
  }

  lemma ClosedIgnores(m: ModelValue, c: Command, env: Env)
    requires m.machine.JobMachine? && m.core.typ.NoType? && m.core.state in {Finished, Failed} && c.CommitJob?
    ensures Dispatch(m, c, env, 0) == Ran(m, [], [], [], 0)
  {
    assert HandleCommand(m.uid, m.machine, m.core, c, env).None?;
  }

  /** However often a created job is committed, and however often the process is persisted and loaded in between:
      exactly one commit reaches the origin, it carries the outcome of the first, and the job stays closed with it. */
  lemma {:induction false} CommittedOnce(m: ModelValue, steps: seq<ModelStep>, job: Job)
    requires m.machine.JobMachine? && m.core.typ.NoType? && m.core.state.Waiting? && m.core.context.job == Some(job)
    requires forall s <- steps :: ToJob(m.uid, s)
    ensures FirstCommit(steps).Some? ==> FirstCommit(steps).value.CommitJob?
    ensures var (end, issued) := IssuedOver(m, steps);
      && end.uid == m.uid && end.machine == m.machine
      && issued == (if FirstCommit(steps).None? then [] else [ToOrigin(job, FirstCommit(steps).value)])
      && end.core == JobAfter(m.core, FirstCommit(steps))
  {
    if steps != [] {
      var init, s := steps[..|steps|-1], steps[|steps|-1];
      assert ToJob(m.uid, s);
      CommittedOnce(m, init, job);
      var (before, issued) := IssuedOver(m, init);
      if s.Do? && FirstCommit(init).None? {
        FirstCommitWaiting(before, s.command, s.env, job);
        assert issued + [ToOrigin(job, s.command)] == [ToOrigin(job, s.command)];
      } else if s.Do? {
        ClosedIgnores(before, s.command, s.env);
        assert issued + [] == issued;
      } else {
        assert issued + [] == issued;
      }
    }
  }

  // ---- one list per job ----

  /** The jobs a run creates. */
  function Created(acts: seq<Act>): set<Job> {
    set a <- acts | a.Raise? && a.event.JobCreated? :: a.event.job
  }

  function CreatedIn(runs: seq<seq<Act>>): set<Job> {
    set i, j | 0 <= i < |runs| && j in Created(runs[i]) :: j
  }

  /** Job ids are new, jobs carry the version of the application, and only created jobs are committed. */
  ghost predicate JobAct(app: App, act: Act, version: nat) {
    match act
    case Add(uid, machine, _) => machine.JobMachine? ==> uid in app.repository
    case Raise(e) =>
      if e.JobCreated? then e.job.jobId !in app.repository && e.job.version == version
      else MachineOf(e).JobMachine? ==> Target(e) in app.repository
  }

  ghost predicate JobActs(app: App, acts: seq<Act>, version: nat) {
    acts == [] || (JobActs(app, acts[..|acts|-1], version)
      && JobAct(Run(app, acts[..|acts|-1]), acts[|acts|-1], version))
  }

  ghost predicate JobRuns(runs: seq<seq<Act>>) {
    runs == [] ||
    var w := Cycles(World(None, 0), runs[..|runs|-1]);
    JobRuns(runs[..|runs|-1]) && JobActs(Load(w.store, w.clock), runs[|runs|-1], GetApp(w.store, false).version)
  }

  /** The job models hold exactly the jobs made. */
  ghost predicate Holds(repository: map<Id, ModelValue>, made: set<Job>) {
    && (forall k :: k in repository && repository[k].machine.JobMachine? ==> HoldsOne(repository[k].core, k, made))
    && (forall j <- made :: j.jobId in repository && repository[j.jobId].machine.JobMachine?
         && repository[j.jobId].core.context.job == Some(j))
  }

  ghost predicate HoldsOne(core: Core, k: Id, made: set<Job>) {
    core.context.job.Some? && core.context.job.value.jobId == k && core.context.job.value in made
  }

  /** Events other than JobCreated leave the job of a model alone. */
  lemma JobKept(machine: Machine, core: Core, e: Event)
    requires !e.JobCreated? || !machine.JobMachine?
    ensures After(machine, core, e).context.job == core.context.job
  {
    TypedKeepsJob(machine, core, e);
    hide TypeStateHandler;
  }

  lemma TypedKeepsJob(machine: Machine, core: Core, e: Event)
    ensures var out := TypeStateHandler(machine, core, e); !out.NotHandled? ==> out.core.context.job == core.context.job
  {
  }

  lemma SameJobHolds(a: map<Id, ModelValue>, k: Id, m: ModelValue, made: set<Job>)
    requires Holds(a, made) && k in a && m.machine == a[k].machine && m.core.context.job == a[k].core.context.job
    ensures Holds(a[k := m], made)
  {
  }

  lemma OtherModelHolds(a: map<Id, ModelValue>, k: Id, m: ModelValue, made: set<Job>)
    requires Holds(a, made) && k !in a && !m.machine.JobMachine?
    ensures Holds(a[k := m], made)
  {
  }

  lemma NewJobHolds(a: map<Id, ModelValue>, job: Job, m: ModelValue, made: set<Job>)
    requires Holds(a, made) && job.jobId !in a && m.machine.JobMachine? && m.core.context.job == Some(job)
    ensures Holds(a[job.jobId := m], made + {job})
  {
  }

  lemma StepHolds(app: App, act: Act, version: nat, made: set<Job>)
    requires Holds(app.repository, made) && JobAct(app, act, version)
    ensures Holds(Step(app, act).repository, made + Created([act]))
  {
    hide Holds, HandleEvent, Apply, After;
    match act
    case Add(uid, machine, meta) =>
      assert Created([act]) == {} && made + {} == made;
      if uid !in app.repository {
        OtherModelHolds(app.repository, uid, NewModel(uid, machine, meta, None), made);
      }
    case Raise(e) =>
      var known := AddModel(app, Target(e), MachineOf(e), EMPTY_META, None);
      var m := known.repository[Target(e)];
      var next := Apply(m, Stamp(m, e, known.clock));
      AppliedCore(m, e, known.clock);
      if e.JobCreated? {
        assert act in [act] && Created([act]) == {e.job};
        CreatedJob(m.core, e.job);
        NewJobHolds(app.repository, e.job, next, made);
        assert known.repository[Target(e) := next] == app.repository[Target(e) := next];
      } else {
        assert Created([act]) == {} && made + {} == made;
        JobKept(m.machine, m.core, e);
        if Target(e) !in app.repository {
          OtherModelHolds(app.repository, Target(e), m, made);
        }
        SameJobHolds(known.repository, Target(e), next, made);
      }
  }

  lemma AppliedCore(m: ModelValue, e: Event, clock: nat)
    ensures var next := Apply(m, Stamp(m, e, clock));
      next.core == After(m.machine, m.core, e) && next.machine == m.machine
  {
    hide HandleEvent;
  }

  lemma CreatedJob(core: Core, job: Job)
    requires core == Birth(JobMachine, EMPTY_META)
    ensures After(JobMachine, core, JobCreated(job)).context.job == Some(job)
  {
  }

  lemma {:induction false} RunHolds(app: App, acts: seq<Act>, version: nat, made: set<Job>)
    requires Holds(app.repository, made) && JobActs(app, acts, version)
    ensures Holds(Run(app, acts).repository, made + Created(acts))
    ensures forall j <- Created(acts) :: j.version == version
  {
    if acts != [] {
      var init, last := acts[..|acts|-1], acts[|acts|-1];
      RunHolds(app, init, version, made);
      StepHolds(Run(app, init), last, version, made + Created(init));
      assert acts == init + [last];
      assert made + Created(init) + Created([last]) == made + Created(acts);
    } else {
      assert made + Created(acts) == made;
    }
  }

  lemma CreatedSplits(runs: seq<seq<Act>>)
    requires runs != []
    ensures CreatedIn(runs[..|runs|-1]) + Created(runs[|runs|-1]) == CreatedIn(runs)
  {
    var init, last := runs[..|runs|-1], runs[|runs|-1];
    forall j | j in CreatedIn(runs) ensures j in CreatedIn(init) + Created(last) {
      var i :| 0 <= i < |runs| && j in Created(runs[i]);
      assert i < |init| ==> runs[i] == init[i];
    }
    forall j | j in CreatedIn(init) ensures j in CreatedIn(runs) {
      var i :| 0 <= i < |init| && j in Created(init[i]);
      assert runs[i] == init[i];
    }
    forall j | j in Created(last) ensures j in CreatedIn(runs) {
      assert j in Created(runs[|runs|-1]);
    }
  }

  /** Holding depends on the machines and the cores only. */
  lemma SameCoresHold(a: map<Id, ModelValue>, b: map<Id, ModelValue>, made: set<Job>)
    requires Holds(a, made)
    requires forall k :: k in b <==> k in a
    requires forall k :: k in b ==> b[k].machine == a[k].machine && b[k].core == a[k].core
    ensures Holds(b, made)
  {
  }

  lemma ReloadHolds(app: App, w: World, made: set<Job>)
    requires w.store.Some? && Stored(w.store.value, w.clock) && Holds(app.repository, made)
    requires w.store.value.snapshot == map k | k in app.repository :: SnapOf(app.repository[k])
    ensures Holds(Load(w.store, w.clock).repository, made)
  {
    LoadGivesBackModels(w.store.value, w.clock);
    hide Stored, Tracks, Load, GetApp, Holds;
    var loaded := Load(w.store, w.clock).repository;
    SameCoresHold(app.repository, loaded, made);
  }

  lemma CycleHolds(w: World, acts: seq<Act>, made: set<Job>)
    requires StoredWorld(w) && Holds(Load(w.store, w.clock).repository, made)
    requires JobActs(Load(w.store, w.clock), acts, GetApp(w.store, false).version)
    ensures var next := Cycle(w, acts); Holds(Load(next.store, next.clock).repository, made + Created(acts))
    ensures forall j <- Created(acts) :: j.version == GetApp(w.store, false).version
  {
    hide Holds, Stored, Load;
    CycleStores(w, acts);
    RunHolds(Load(w.store, w.clock), acts, GetApp(w.store, false).version, made);
    ReloadHolds(Run(Load(w.store, w.clock), acts), Cycle(w, acts), made + Created(acts));
  }

  /** The jobs of a cycle carry its number as version. */
  ghost predicate VersionIsCycle(runs: seq<seq<Act>>) {
    forall v, j :: 0 <= v < |runs| && j in Created(runs[v]) ==> j.version == v
  }

  lemma VersionStep(runs: seq<seq<Act>>)
    requires runs != [] && VersionIsCycle(runs[..|runs|-1])
    requires forall j <- Created(runs[|runs|-1]) :: j.version == |runs| - 1
    ensures VersionIsCycle(runs)
  {
    var init := runs[..|runs|-1];
    assert forall v :: 0 <= v < |init| ==> init[v] == runs[v];
  }

  lemma {:induction false} CyclesHold(runs: seq<seq<Act>>)
    requires JobRuns(runs)
    ensures var w := Cycles(World(None, 0), runs); Holds(Load(w.store, w.clock).repository, CreatedIn(runs))
    ensures VersionIsCycle(runs)
  {
    hide Holds, Stored, Load, VersionIsCycle, CreatedIn, Created;
    if runs != [] {
      var init, last := runs[..|runs|-1], runs[|runs|-1];
      CyclesHold(init);
      CyclesStore(World(None, 0), init);
      CycleHolds(Cycles(World(None, 0), init), last, CreatedIn(init));
      CreatedSplits(runs);
      VersionStep(runs);
    } else {
      NothingHeld(Cycles(World(None, 0), runs));
    }
  }

  lemma NothingHeld(w: World)
    requires w.store.None?
    ensures Holds(Load(w.store, w.clock).repository, CreatedIn([])) && VersionIsCycle([])
  {
    assert CreatedIn([]) == {};
  }

  lemma JobsOfMore(jobs: seq<Option<Job>>, job: Option<Job>, version: nat)
    ensures var before := JobsOf(jobs, version);
      JobsOf(jobs + [job], version) ==
        if before.None? || job.None? then None
        else if job.value.version == version then Some(before.value + [job.value]) else before
  {
    assert (jobs + [job])[..|jobs|] == jobs;
  }

  lemma AllJobsMore(repository: map<Id, ModelValue>, keys: seq<Id>)
    requires keys != []
    ensures var k := keys[|keys|-1];
      AllJobs(repository, keys) == AllJobs(repository, keys[..|keys|-1])
        + if k in repository && repository[k].machine.JobMachine? then [repository[k].core.context.job] else []
  {
  }

  /** A list holds exactly the jobs of its version. */
  lemma {:induction false} JobsFound(repository: map<Id, ModelValue>, keys: seq<Id>, made: set<Job>, version: nat)
    requires Holds(repository, made)
    ensures var list := JobsOf(AllJobs(repository, keys), version);
      list.Some? && forall j :: j in list.value <==> j in made && j.version == version && j.jobId in keys
  {
    if keys != [] {
      var init, k := keys[..|keys|-1], keys[|keys|-1];
      JobsFound(repository, init, made, version);
      AllJobsMore(repository, keys);
      assert keys == init + [k];
      var all := AllJobs(repository, init);
      hide AllJobs;
      if k in repository && repository[k].machine.JobMachine? {
        assert HoldsOne(repository[k].core, k, made);
        JobsOfMore(all, repository[k].core.context.job, version);
      } else {
        assert all + [] == all;
      }
      hide JobsOf;
    }
  }

  lemma {:induction false} JobsListed(repository: map<Id, ModelValue>, keys: seq<Id>, made: set<Job>, version: nat)
    requires Holds(repository, made)
    ensures var list := JobsOf(AllJobs(repository, keys), version);
      && list.Some?
      && (forall j :: j in list.value <==> j in made && j.version == version && j.jobId in keys)
      && (Distinct(keys) ==> NoDuplicates(list.value))
  {
    JobsFound(repository, keys, made, version);
    if keys != [] && Distinct(keys) {
      var init, k := keys[..|keys|-1], keys[|keys|-1];
      JobsListed(repository, init, made, version);
      AllJobsMore(repository, keys);
      assert keys == init + [k] && k !in init;
      var all := AllJobs(repository, init);
      hide AllJobs;
      if k in repository && repository[k].machine.JobMachine? {
        assert HoldsOne(repository[k].core, k, made);
        JobsOfMore(all, repository[k].core.context.job, version);
      } else {
        assert all + [] == all;
      }
      hide JobsOf, Holds, Distinct;
    }
  }

  /** Over any sequence of cycles, the list for a version holds exactly the jobs of the cycle that had it, each
      once: the lists of all versions partition the jobs created. */
  lemma EveryJobInOneList(runs: seq<seq<Act>>, version: nat)
    requires JobRuns(runs)
    ensures var w := Cycles(World(None, 0), runs);
      var app := Load(w.store, w.clock);
      var list := JobsOf(AllJobs(app.repository, app.keys), version);
      && list.Some? && NoDuplicates(list.value)
      && forall j :: j in list.value <==> version < |runs| && j in Created(runs[version])
  {
    hide Stored, Load, VersionIsCycle;
    CyclesHold(runs);
    CyclesStore(World(None, 0), runs);
    var w := Cycles(World(None, 0), runs);
    KeysOfLoaded(w);
    var app := Load(w.store, w.clock);
    JobsListed(app.repository, app.keys, CreatedIn(runs), version);
    forall j
      ensures j in CreatedIn(runs) && j.version == version <==> version < |runs| && j in Created(runs[version])
      ensures j in CreatedIn(runs) ==> j.jobId in app.keys
    {
      CreatedWithVersion(runs, version, j);
    }
  }

  lemma KeysOfLoaded(w: World)
    requires StoredWorld(w)
    ensures var app := Load(w.store, w.clock); KeysMatch(app) && Distinct(app.keys)
  {
    if w.store.Some? {
      LoadGivesBackModels(w.store.value, w.clock);
    }
  }

  lemma CreatedWithVersion(runs: seq<seq<Act>>, version: nat, j: Job)
    requires VersionIsCycle(runs)
    ensures j in CreatedIn(runs) && j.version == version <==> version < |runs| && j in Created(runs[version])
  {
    if j in CreatedIn(runs) {
      var i :| 0 <= i < |runs| && j in Created(runs[i]);
    }
  }

  lemma {:induction false} UndefinedJobThrows(jobs: seq<Option<Job>>, version: nat)
    ensures JobsOf(jobs, version).None? <==> None in jobs
  {
    if jobs != [] {
      UndefinedJobThrows(jobs[..|jobs|-1], version);
      assert jobs == jobs[..|jobs|-1] + [jobs[|jobs|-1]];
    }
  }

  lemma {:induction false} AllJobsHave(repository: map<Id, ModelValue>, keys: seq<Id>)
    ensures None in AllJobs(repository, keys) <==>
      exists k <- keys :: k in repository && repository[k].machine.JobMachine? && repository[k].core.context.job.None?
  {
    if keys != [] {
      AllJobsHave(repository, keys[..|keys|-1]);
      assert keys == keys[..|keys|-1] + [keys[|keys|-1]];
      assert keys[|keys|-1] in keys;
    }
  }

  /** `getJobs` fails exactly when some job model was never created by a JobCreated, as after a CommitJob for an
      unknown job. */
  lemma GetJobsFailsIff(repository: map<Id, ModelValue>, keys: seq<Id>, version: nat)
    ensures JobsOf(AllJobs(repository, keys), version).None? <==>
      exists k <- keys :: k in repository && repository[k].machine.JobMachine? && repository[k].core.context.job.None?
  {
    UndefinedJobThrows(AllJobs(repository, keys), version);
    AllJobsHave(repository, keys);
  }

  // ---- a commit for an unknown job ----

  /** A job model that never got its job. */
  ghost predicate Jobless(repository: map<Id, ModelValue>, uid: Id) {
    uid in repository && repository[uid].machine.JobMachine? && repository[uid].core.context.job.None?
  }

  /** The commit is not handled: all it does is to leave a job model without a job. */
  lemma UnknownCommitOnlyAdds(app: App, c: Call)
    requires c.uid !in app.repository && c.machine.JobMachine? && c.command.CommitJob?
    ensures Executed(app, c) == Step(app, Add(c.uid, c.machine, c.meta))
    ensures Jobless(Executed(app, c).repository, c.uid)
  {
    var known := AddModel(app, c.uid, c.machine, c.meta, None);
    assert HandleCommand(c.uid, c.machine, known.repository[c.uid].core, c.command, c.env).None?;
    hide HandleCommand;
    assert known.repository[c.uid := known.repository[c.uid]] == known.repository;
  }

  /** The acts create no job under this id. */
  ghost predicate Creates(acts: seq<Act>, uid: Id) {
    exists a <- acts :: a.Raise? && a.event.JobCreated? && a.event.job.jobId == uid
  }

  lemma JoblessStep(app: App, act: Act, uid: Id)
    requires Jobless(app.repository, uid) && !Creates([act], uid)
    ensures Jobless(Step(app, act).repository, uid)
  {
    if act.Raise? && Target(act.event) == uid {
      var m := app.repository[uid];
      assert act in [act];
      AppliedCore(m, act.event, app.clock);
      if !act.event.JobCreated? {
        JobKept(m.machine, m.core, act.event);
      }
      hide After;
    }
    hide Apply;
  }

  lemma {:induction false} JoblessRun(app: App, acts: seq<Act>, uid: Id)
    requires Jobless(app.repository, uid) && !Creates(acts, uid)
    ensures Jobless(Run(app, acts).repository, uid)
  {
    if acts != [] {
      var init, last := acts[..|acts|-1], acts[|acts|-1];
      assert forall a <- init :: a in acts;
      JoblessRun(app, init, uid);
      assert last in acts && !Creates([last], uid);
      hide Step, Jobless, Creates;
      JoblessStep(Run(app, init), last, uid);
    }
  }

  lemma JoblessReload(w: World, acts: seq<Act>, uid: Id)
    requires StoredWorld(w) && Jobless(Run(Load(w.store, w.clock), acts).repository, uid)
    ensures var next := Cycle(w, acts); Jobless(Load(next.store, next.clock).repository, uid)
  {
    var next := Cycle(w, acts);
    CycleStores(w, acts);
    LoadGivesBackModels(next.store.value, next.clock);
    hide Stored, Load, GetApp, Run, Tracks;
    assert next.store.value.snapshot[uid] == SnapOf(Run(Load(w.store, w.clock), acts).repository[uid]);
  }

  lemma {:induction false} JoblessCycles(w: World, runs: seq<seq<Act>>, uid: Id)
    requires StoredWorld(w) && Jobless(Load(w.store, w.clock).repository, uid)
    requires forall acts <- runs :: !Creates(acts, uid)
    ensures var end := Cycles(w, runs); Jobless(Load(end.store, end.clock).repository, uid)
  {
    if runs != [] {
      var init, last := runs[..|runs|-1], runs[|runs|-1];
      JoblessCycles(w, init, uid);
      CyclesStore(w, init);
      var before := Cycles(w, init);
      hide Stored, Load, GetApp, StoredWorld, Cycle, Jobless, Creates;
      assert last in runs;
      JoblessRun(Load(before.store, before.clock), last, uid);
      JoblessReload(before, last, uid);
    }
  }

  lemma JoblessFails(app: App, uid: Id, version: nat)
    requires Jobless(app.repository, uid) && KeysMatch(app)
    ensures JobsOf(AllJobs(app.repository, app.keys), version).None?
  {
    GetJobsFailsIff(app.repository, app.keys, version);
    assert uid in app.keys;
  }

  /** Once a commit named an unknown job, every later list of every version fails, in the cycle of the commit and in
      all cycles after it, as long as no job is created under that id. */
  lemma UnknownCommitBreaksLists(w: World, acts: seq<Act>, c: Call, after: seq<Act>, later: seq<seq<Act>>, version: nat)
    requires StoredWorld(w)
    requires var app := Run(Load(w.store, w.clock), acts); c.uid !in app.repository
    requires c.machine.JobMachine? && c.command.CommitJob?
    requires !Creates(after, c.uid) && forall acts <- later :: !Creates(acts, c.uid)
    ensures var broken := Executed(Run(Load(w.store, w.clock), acts), c);
      var app := Run(broken, after);
      JobsOf(AllJobs(app.repository, app.keys), version).None?
    ensures var end := Cycles(Cycle(w, acts + [Add(c.uid, c.machine, c.meta)] + after), later);
      var app := Load(end.store, end.clock);
      JobsOf(AllJobs(app.repository, app.keys), version).None?
  {
    var start := Load(w.store, w.clock);
    var add := Add(c.uid, c.machine, c.meta);
    UnknownCommitOnlyAdds(Run(start, acts), c);
    JoblessRun(Executed(Run(start, acts), c), after, c.uid);
    RunConcat(start, acts, add);
    RunsCompose(start, acts + [add], after);
    hide Jobless, Creates, Executed, Load, Stored, StoredWorld, Run, Step, JobsOf, AllJobs, Cycle, Cycles;
    RunsTrack(w, acts + [add] + after);
    JoblessFails(Run(start, acts + [add] + after), c.uid, version);
    var next := Cycle(w, acts + [add] + after);
    JoblessReload(w, acts + [add] + after, c.uid);
    CycleStores(w, acts + [add] + after);
    JoblessCycles(next, later, c.uid);
    CyclesStore(next, later);
    var end := Cycles(next, later);
    KeysOfLoaded(end);
    JoblessFails(Load(end.store, end.clock), c.uid, version);
  }

  lemma RunsTrack(w: World, acts: seq<Act>)
    requires StoredWorld(w)
    ensures KeysMatch(Run(Load(w.store, w.clock), acts))
  {
    var start := Load(w.store, w.clock);
    if w.store.Some? {
      LoadGivesBackModels(w.store.value, w.clock);
    }
    hide ModelTracks, GetApp, Load, Stored;
    RunTracks(start, PastOf(w.store), acts);
  }
}
