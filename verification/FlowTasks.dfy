/** Tasks: the jobs a task creates against the commands it passes the token on with. */
module FlowTasks {
  import opened Wrappers
  import opened FlowTypes
  import opened FlowMachines
  import opened FlowSpec
  import opened FlowTokens

  predicate IsJob(e: Event) { e.JobCreated? }
  predicate IsBoundary(c: Command) { c.ActivateBoundary? }

  /** The command was routed to this task, and ids created by the engine are new. */
  ghost predicate ForTask(el: Element, step: ModelStep) {
    step.Do? ==>
      && step.env.freshId != el.id
      && match step.command
         case ActivateElement(e, _, _) => e == el
         case ProcessTask(id) => id == el.id
         case CommitTask(id, _, _) => id == el.id
         case _ => false
  }

  /** A task of this element: without type until its first activation, with type and element from then on. */
  ghost predicate TaskOf(m: ModelValue, el: Element) {
    && m.machine.TaskMachine? && m.uid == el.id
    && (m.core.state.Idle? || m.core.state.Active?)
    && (m.core.typ.NoType? ==> m.core.state.Idle?)
    && (!m.core.typ.NoType? ==> m.core.typ == TaskType(el) && m.core.context.element == Some(el))
  }

  function Busy(m: ModelValue): nat { if m.core.state.Active? then 1 else 0 }

  /** Each job a step creates makes the task busy, and each onward or boundary command it issues ends that. */
  ghost predicate Settled(m: ModelValue, r: Ran) {
    Count(r.others, IsJob) + Busy(m) == Count(r.executes, IsOnward) + Count(r.executes, IsBoundary) + Busy(r.model)
  }

  // ---- what the handlers do ----

  lemma TaskEffect(core: Core, el: Element)
    requires core.context.element == Some(el) && core.typ == TaskType(el) && !core.typ.NoType?
    ensures forall id: Id, job: Option<Id> :: core.state.Idle? && !core.typ.SimpleTask? ==>
      HandleEvent(TaskMachine, core, TaskStarted(id, job)) ==
      Handled(core.(state := Active, context := core.context.(jobs := [job])), [])
    ensures forall id: Id :: core.state.Active? ==>
      HandleEvent(TaskMachine, core, TaskCompleted(id)) ==
      Handled(core.(state := Idle), if core.typ.ServiceTask? then [] else [ActivateNext(el.id)])
    ensures forall id: Id :: core.state.Active? && !core.typ.SimpleTask? ==>
      HandleEvent(TaskMachine, core, TaskFailed(id)) ==
      if core.typ.ServiceTask? then Handled(core.(state := Idle), []) else NotHandled
  {
  }

  lemma ActivatedEffect(core: Core, el: Element, scoped: Option<Value>)
    ensures HandleEvent(TaskMachine, core, TaskActivated(el.id, el, TaskType(el), scoped)) ==
      Handled(core.(typ := TaskType(el), context := core.context.(element := Some(el), scoped := scoped)), [])
  {
  }

  /** The actions for a command routed to a task. */
  lemma TaskActions(m: ModelValue, el: Element, c: Command, env: Env)
    requires TaskOf(m, el)
    ensures var found := HandleCommand(m.uid, TaskMachine, m.core, c, env);
      if c.ActivateElement? then
        found == Some([Emit(TaskActivated(c.element.id, c.element, TaskType(c.element), c.scoped)),
                       Execute(ProcessTask(c.element.id))])
      else if m.core.typ.NoType? then found.None?
      else found == TaskCommand(m.uid, m.core, el, c, env)
  {
  }

  // ---- activation ----

  /** An activation sets type and element, leaves the state, and issues one ProcessTask. */
  lemma TaskActivation(m: ModelValue, el: Element, previous: Option<Id>, scoped: Option<Value>, env: Env)
    requires TaskOf(m, el)
    ensures var r := Dispatch(m, ActivateElement(el, previous, scoped), env, 0);
      && r.executes == [ProcessTask(el.id)] && r.others == []
      && r.model.uid == m.uid && r.model.machine == m.machine
      && r.model.core == m.core.(typ := TaskType(el), context := m.core.context.(element := Some(el), scoped := scoped))
  {
    TaskActions(m, el, ActivateElement(el, previous, scoped), env);
    ActivatedEffect(m.core, el, scoped);
    var actions := [Emit(TaskActivated(el.id, el, TaskType(el), scoped)), Execute(ProcessTask(el.id))];
    TwoPerformed(Ran(m, [], [], [], 0), actions[0], actions[1]);
    hide HandleCommand, HandleEvent, PerformAll, TaskType;
  }

  // ---- the job ----

  /** Processing an idle task that has a definition: one job for a new id, and the task is active. */
  lemma TaskStarts(m: ModelValue, el: Element, env: Env, kind: JobKind, definition: Value)
    requires TaskOf(m, el) && m.core.state.Idle? && m.core.typ in {ServiceTask, RuleTask} && env.freshId != m.uid
    requires TaskCommand(m.uid, m.core, el, ProcessTask(el.id), env) ==
      Some(StartTask(m.uid, m.core.context, el, kind, definition, env))
    ensures var r := Dispatch(m, ProcessTask(el.id), env, 0);
      && r.executes == []
      && r.others == [JobCreated(Job(env.freshId, env.version, m.uid, kind, definition, m.core.context.scoped))]
      && r.model.uid == m.uid && r.model.machine == m.machine
      && r.model.core == m.core.(state := Active, context := m.core.context.(jobs := [Some(env.freshId)]))
  {
    TaskActions(m, el, ProcessTask(el.id), env);
    TaskEffect(m.core, el);
    var actions := StartTask(m.uid, m.core.context, el, kind, definition, env);
    TwoPerformed(Ran(m, [], [], [], 0), actions[0], actions[1]);
    hide HandleCommand, HandleEvent, PerformAll, TaskCommand, TaskType;
  }

  // ---- the commit ----

  lemma {:induction false} OutputsPass(r: Ran, el: Element, k: nat)
    requires k <= |el.output|
    ensures var done := PerformAll(r, Outputs(el)[..k]);
      && done.model == r.model && done.others == r.others
      && Count(done.executes, IsOnward) == Count(r.executes, IsOnward)
      && Count(done.executes, IsBoundary) == Count(r.executes, IsBoundary)
  {
    if k > 0 {
      assert Outputs(el)[..k][..k-1] == Outputs(el)[..k-1];
      OutputsPass(r, el, k - 1);
      ContextPasses(PerformAll(r, Outputs(el)[..k-1]), AddContext(el.id, el.output[k-1]));
      hide Perform;
    } else {
      assert Outputs(el)[..0] == [];
    }
  }

  lemma AllOutputsPass(r: Ran, el: Element)
    ensures var done := PerformAll(r, Outputs(el));
      && done.model == r.model && done.others == r.others
      && Count(done.executes, IsOnward) == Count(r.executes, IsOnward)
      && Count(done.executes, IsBoundary) == Count(r.executes, IsBoundary)
  {
    OutputsPass(r, el, |el.output|);
    assert Outputs(el)[..|el.output|] == Outputs(el);
  }

  lemma ContextPasses(r: Ran, c: Command)
    requires c.AddContext?
    ensures var done := Perform(r, Execute(c));
      && done.model == r.model && done.others == r.others
      && Count(done.executes, IsOnward) == Count(r.executes, IsOnward)
      && Count(done.executes, IsBoundary) == Count(r.executes, IsBoundary)
  {
    CountConcat(r.executes, [c], IsOnward);
    CountOne(c, IsOnward);
    CountConcat(r.executes, [c], IsBoundary);
    CountOne(c, IsBoundary);
  }

  /** The completion, whichever of handler and event issues the ActivateNext. */
  lemma Completes(r: Ran, el: Element)
    requires TaskOf(r.model, el) && r.model.core.state.Active? && r.model.core.typ in {ServiceTask, RuleTask}
    ensures var out := EmitFrom(r, TaskCompleted(el.id));
      var done := if r.model.core.typ.ServiceTask? then Perform(out, Execute(ActivateNext(el.id))) else out;
      && done.executes == r.executes + [ActivateNext(el.id)] && done.others == r.others
      && done.model.uid == el.id && done.model.machine.TaskMachine?
      && done.model.core == r.model.core.(state := Idle)
  {
    TaskEffect(r.model.core, el);
    hide HandleEvent, TaskType;
  }

  lemma CommitActions(m: ModelValue, el: Element, result: Option<Value>, env: Env)
    requires TaskOf(m, el) && m.core.state.Active? && m.core.typ in {ServiceTask, RuleTask}
    ensures m.machine.TaskMachine?
    ensures HandleCommand(m.uid, TaskMachine, m.core, CommitTask(el.id, result, None), env) ==
      Some(Outputs(el) + if m.core.typ.ServiceTask? then [Emit(TaskCompleted(el.id)), Execute(ActivateNext(el.id))]
                         else [Emit(TaskCompleted(el.id))])
  {
    TaskActions(m, el, CommitTask(el.id, result, None), env);
    hide HandleCommand, Outputs, TaskType;
  }

  lemma ThenEmit(r: Ran, first: seq<Action>, e: Event)
    ensures PerformAll(r, first + [Emit(e)]) == EmitFrom(PerformAll(r, first), e)
  {
    Performed(r, Emit(e), first);
    hide PerformAll, EmitFrom;
  }

  /** What a commit without error does: the outputs, the completion, and the ActivateNext of a service task. */
  lemma CommitDispatched(m: ModelValue, el: Element, result: Option<Value>, env: Env)
    requires TaskOf(m, el) && m.core.state.Active? && m.core.typ in {ServiceTask, RuleTask}
    ensures var out := EmitFrom(PerformAll(Ran(m, [], [], [], 0), Outputs(el)), TaskCompleted(el.id));
      Dispatch(m, CommitTask(el.id, result, None), env, 0) ==
      if m.core.typ.ServiceTask? then Perform(out, Execute(ActivateNext(el.id))) else out
  {
    CommitActions(m, el, result, env);
    var start := Ran(m, [], [], [], 0);
    hide HandleCommand, EmitFrom, Outputs, TaskType, PerformAll, TaskOf, Perform;
    if m.core.typ.ServiceTask? {
      ThenTwo(start, Outputs(el), TaskCompleted(el.id), ActivateNext(el.id));
    } else {
      ThenEmit(start, Outputs(el), TaskCompleted(el.id));
    }
  }

  lemma OnwardMore(executes: seq<Command>, id: Id)
    ensures Count(executes + [ActivateNext(id)], IsOnward) == Count(executes, IsOnward) + 1
    ensures Count(executes + [ActivateNext(id)], IsBoundary) == Count(executes, IsBoundary)
  {
    CountConcat(executes, [ActivateNext(id)], IsOnward);
    CountOne(ActivateNext(id), IsOnward);
    CountConcat(executes, [ActivateNext(id)], IsBoundary);
    CountOne(ActivateNext(id), IsBoundary);
  }

  lemma ThenTwo(r: Ran, first: seq<Action>, e: Event, c: Command)
    ensures PerformAll(r, first + [Emit(e), Execute(c)]) == Perform(EmitFrom(PerformAll(r, first), e), Execute(c))
  {
    PerformConcat(r, first, [Emit(e), Execute(c)]);
    TwoPerformed(PerformAll(r, first), Emit(e), Execute(c));
    hide PerformAll, EmitFrom;
  }

  /** A commit without error passes the token on, once. */
  lemma CommitPassesOn(m: ModelValue, el: Element, result: Option<Value>, env: Env)
    requires TaskOf(m, el) && m.core.state.Active? && m.core.typ in {ServiceTask, RuleTask}
    ensures var r := Dispatch(m, CommitTask(el.id, result, None), env, 0);
      && r.model.uid == m.uid && r.model.machine == m.machine && r.model.core == m.core.(state := Idle)
      && r.others == [] && Count(r.executes, IsOnward) == 1 && Count(r.executes, IsBoundary) == 0
  {
    var start := Ran(m, [], [], [], 0);
    NothingCounted(start);
    hide *;
    var passed := PerformAll(start, Outputs(el));
    AllOutputsPass(start, el);
    CommitDispatched(m, el, result, env);
    Completes(passed, el);
    OnwardMore(passed.executes, el.id);
  }

  /** A commit with an error: a service task goes to its boundary events and is idle again, a rule task has no handler
      for its own failure and stays as it is. */
  lemma FailureEndsServiceOnly(m: ModelValue, el: Element, result: Option<Value>, error: Value, env: Env)
    requires TaskOf(m, el) && m.core.state.Active? && m.core.typ in {ServiceTask, RuleTask}
    ensures var r := Dispatch(m, CommitTask(el.id, result, Some(error)), env, 0);
      if m.core.typ.ServiceTask? then
        && r.executes == [ActivateBoundary(el.id, Some(error))] && r.others == []
        && r.model.uid == m.uid && r.model.machine == m.machine && r.model.core == m.core.(state := Idle)
      else r.model == m && r.executes == [] && r.others == []
  {
    FailureDispatched(m, el, result, error, env);
    TaskEffect(m.core, el);
    hide Dispatch, HandleEvent, TaskType;
  }

  lemma FailureDispatched(m: ModelValue, el: Element, result: Option<Value>, error: Value, env: Env)
    requires TaskOf(m, el) && m.core.state.Active? && m.core.typ in {ServiceTask, RuleTask}
    ensures var out := EmitFrom(Ran(m, [], [], [], 0), TaskFailed(el.id));
      Dispatch(m, CommitTask(el.id, result, Some(error)), env, 0) ==
      if m.core.typ.ServiceTask? then Perform(out, Execute(ActivateBoundary(el.id, Some(error)))) else out
  {
    TaskActions(m, el, CommitTask(el.id, result, Some(error)), env);
    hide HandleCommand, EmitFrom, TaskType, PerformAll;
    var start := Ran(m, [], [], [], 0);
    if m.core.typ.ServiceTask? {
      TwoPerformed(start, Emit(TaskFailed(el.id)), Execute(ActivateBoundary(el.id, Some(error))));
    } else {
      Performed(start, Emit(TaskFailed(el.id)), []);
    }
  }

  // ---- a whole life ----

  lemma NothingCounted(r: Ran)
    requires r.executes == [] && r.others == []
    ensures Count(r.executes, IsOnward) == 0 && Count(r.executes, IsBoundary) == 0 && Count(r.others, IsJob) == 0
  {
  }

  lemma Ignored(m: ModelValue, el: Element, c: Command, env: Env)
    requires TaskOf(m, el) && !c.ActivateElement?
    requires m.core.typ.NoType? || TaskCommand(m.uid, m.core, el, c, env) in {None, Some([])}
    ensures Dispatch(m, c, env, 0) == Ran(m, [], [], [], 0)
  {
    TaskActions(m, el, c, env);
    hide HandleCommand, TaskCommand, TaskType;
  }

  lemma StartMove(m: ModelValue, el: Element, env: Env)
    requires TaskOf(m, el) && el.kind in {ServiceTaskKind, RuleTaskKind} && env.freshId != m.uid
    ensures var r := Dispatch(m, ProcessTask(el.id), env, 0); TaskOf(r.model, el) && Settled(m, r)
  {
    var r := Dispatch(m, ProcessTask(el.id), env, 0);
    var undefined := el.definition.None? && (el.kind.ServiceTaskKind? || el.decision.None?);
    if m.core.typ.NoType? || m.core.state.Active? || undefined {
      Ignored(m, el, ProcessTask(el.id), env);
      NothingCounted(r);
    } else {
      var kind, definition := if el.definition.Some? then TaskJob else RuleJob,
        if el.definition.Some? then el.definition.value else el.decision.value;
      TaskStarts(m, el, env, kind, definition);
      hide Dispatch;
      CountOne(r.others[0], IsJob);
      assert r.others == [r.others[0]];
      assert Count(r.executes, IsOnward) == 0 && Count(r.executes, IsBoundary) == 0;
    }
  }

  lemma CommitMove(m: ModelValue, el: Element, result: Option<Value>, error: Option<Value>, env: Env)
    requires TaskOf(m, el) && el.kind in {ServiceTaskKind, RuleTaskKind}
    ensures var r := Dispatch(m, CommitTask(el.id, result, error), env, 0); TaskOf(r.model, el) && Settled(m, r)
  {
    var r := Dispatch(m, CommitTask(el.id, result, error), env, 0);
    if m.core.typ.NoType? || m.core.state.Idle? {
      Ignored(m, el, CommitTask(el.id, result, error), env);
      NothingCounted(r);
    } else if error.None? {
      CommitPassesOn(m, el, result, env);
      hide Dispatch;
      assert Count(r.others, IsJob) == 0;
    } else {
      FailureEndsServiceOnly(m, el, result, error.value, env);
      hide Dispatch;
      if m.core.typ.ServiceTask? {
        CountOne(r.executes[0], IsOnward);
        CountOne(r.executes[0], IsBoundary);
        assert r.executes == [r.executes[0]] && Count(r.others, IsJob) == 0;
      } else {
        NothingCounted(r);
      }
    }
  }

  lemma ActivationMove(m: ModelValue, el: Element, previous: Option<Id>, scoped: Option<Value>, env: Env)
    requires TaskOf(m, el) && el.kind in {ServiceTaskKind, RuleTaskKind}
    ensures var r := Dispatch(m, ActivateElement(el, previous, scoped), env, 0);
      TaskOf(r.model, el) && Settled(m, r)
  {
    TaskActivation(m, el, previous, scoped, env);
    hide Dispatch;
    CountOne(ProcessTask(el.id), IsOnward);
    CountOne(ProcessTask(el.id), IsBoundary);
    assert Count(Dispatch(m, ActivateElement(el, previous, scoped), env, 0).others, IsJob) == 0;
  }

  lemma TaskMove(m: ModelValue, el: Element, step: ModelStep)
    requires TaskOf(m, el) && el.kind in {ServiceTaskKind, RuleTaskKind} && ForTask(el, step)
    ensures TaskOf(TakeStep(m, step).model, el) && Settled(m, TakeStep(m, step))
  {
    match step
    case Reload => NothingCounted(TakeStep(m, step));
    case Do(c, env) =>
      hide Dispatch, Settled;
      match c
      case ActivateElement(_, previous, scoped) => ActivationMove(m, el, previous, scoped, env);
      case ProcessTask(_) => StartMove(m, el, env);
      case CommitTask(_, result, error) => CommitMove(m, el, result, error, env);
  }

  /** A task after a run, with all it issued and all it emitted for others. */
  function Over(m: ModelValue, steps: seq<ModelStep>): Ran {
    if steps == [] then Ran(m, [], [], [], 0) else
    var before := Over(m, steps[..|steps|-1]);
    var r := TakeStep(before.model, steps[|steps|-1]);
    Ran(r.model, before.executes + r.executes, before.applied + r.applied, before.others + r.others, r.clock)
  }

  /** However activations, ProcessTasks, commits, persists and loads of a service or rule task interleave: it has
      created as many jobs as it has issued onward and boundary commands, and one more while it is active. */
  lemma {:induction false} JobsPaidBack(el: Element, meta: Meta, steps: seq<ModelStep>)
    requires el.kind in {ServiceTaskKind, RuleTaskKind}
    requires forall s <- steps :: ForTask(el, s)
    ensures var r := Over(NewModel(el.id, TaskMachine, meta, None), steps);
      && TaskOf(r.model, el)
      && Count(r.others, IsJob) == Count(r.executes, IsOnward) + Count(r.executes, IsBoundary) + Busy(r.model)
  {
    if steps != [] {
      var init, s := steps[..|steps|-1], steps[|steps|-1];
      assert ForTask(el, s);
      JobsPaidBack(el, meta, init);
      var before := Over(NewModel(el.id, TaskMachine, meta, None), init);
      TaskMove(before.model, el, s);
      var r := TakeStep(before.model, s);
      hide TakeStep, TaskOf, ForTask, NewModel;
      CountConcat(before.others, r.others, IsJob);
      CountConcat(before.executes, r.executes, IsOnward);
      CountConcat(before.executes, r.executes, IsBoundary);
    }
  }

  /** A simple task needs no job: processing it passes the token on at once. */
  lemma SimplePassesOn(m: ModelValue, el: Element, env: Env)
    requires TaskOf(m, el) && m.core.state.Idle? && m.core.typ.SimpleTask?
    ensures var r := Dispatch(m, ProcessTask(el.id), env, 0);
      && r.executes == [ActivateNext(el.id)] && r.others == [] && r.model.core == m.core
      && r.applied == [TaskStarted(el.id, None), TaskCompleted(el.id)]
  {
    SimpleDispatched(m, el, env);
    SimpleEffect(m.core, el);
    hide Dispatch, HandleEvent, TaskType;
    assert [TaskStarted(el.id, None)] + [TaskCompleted(el.id)] == [TaskStarted(el.id, None), TaskCompleted(el.id)];
  }

  lemma SimpleDispatched(m: ModelValue, el: Element, env: Env)
    requires TaskOf(m, el) && m.core.state.Idle? && m.core.typ.SimpleTask?
    ensures Dispatch(m, ProcessTask(el.id), env, 0) ==
      EmitFrom(EmitFrom(Ran(m, [], [], [], 0), TaskStarted(el.id, None)), TaskCompleted(el.id))
  {
    TaskActions(m, el, ProcessTask(el.id), env);
    hide HandleCommand, PerformAll, TaskType, EmitFrom;
    TwoPerformed(Ran(m, [], [], [], 0), Emit(TaskStarted(el.id, None)), Emit(TaskCompleted(el.id)));
  }

  lemma SimpleEffect(core: Core, el: Element)
    requires core.context.element == Some(el) && core.typ.SimpleTask? && core.state.Idle?
    ensures HandleEvent(TaskMachine, core, TaskStarted(el.id, None)) == Handled(core.(state := Active), [])
    ensures HandleEvent(TaskMachine, core.(state := Active), TaskCompleted(el.id)) ==
      Handled(core, [ActivateNext(el.id)])
  {
    assert core.(state := Active).(state := Idle) == core;
  }
}
