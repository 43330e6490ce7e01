/** The handler tables of the state machines: what each event changes and what each command issues. */
module FlowMachines {
  import opened Wrappers
  import opened FlowTypes

  /** The outcome of looking up and running an event handler. A handler that throws may already have
      changed the state; its event is then not logged. */
  datatype Outcome =
    | NotHandled
    | Handled(core: Core, executes: seq<Command>)
    | Threw(core: Core)

  function InitialState(machine: Machine): ModelState {
    match machine
    case InstanceMachine => New
    case EventMachine => Created
    case JobMachine => Created
    case _ => Idle
  }

  /** A change that ends by reading the id of the context element for the next command. */
  function ThenNext(core: Core, next: Element -> Command): Outcome {
    if core.context.element.Some? then Handled(core, [next(core.context.element.value)]) else Threw(core)
  }

  function ActivateNextOf(el: Element): Command { ActivateNext(el.id) }

  function OutgoingOf(el: Element): Command {
    if |el.outgoing| > 1 then ConditionalNext(el.id, el.outgoing, el.fallback) else ActivateNext(el.id)
  }

  /** First lookup: states[type][state]. */
  function TypeStateHandler(machine: Machine, core: Core, e: Event): Outcome {
    var ctx := core.context;
    if machine.EventMachine? && core.state.Activated? then
      match e
      case EventOccured(_, thrown) =>
        if core.typ in {StartEvent, StartTimerEvent, BoundaryEvent, TimerCatching, MessageCatching} then
          ThenNext(core.(state := Finished), ActivateNextOf)
        else if core.typ in {MessageThrowing, EndMessageThrowing, EndEvent} then
          Handled(core.(state := Finished, context := if thrown.Some? then ctx.(thrown := thrown) else ctx), [])
        else NotHandled
      case TimerScheduled(_, timer) =>
        if core.typ in {StartTimerEvent, TimerCatching}
        then Handled(core.(context := ctx.(timer := Some(timer))), []) else NotHandled
      case EventSubscriptionAdded(_, subscription) =>
        if core.typ.MessageCatching?
        then Handled(core.(context := ctx.(subscription := Some(subscription))), []) else NotHandled
      case _ => NotHandled
    else if machine.GatewayMachine? then
      match (core.typ, core.state, e)
      case (ExclusiveGateway, Idle, GatewayProcessed(_, _)) => Handled(core.(state := Active), [])
      case (ExclusiveGateway, Active, GatewayCompleted(_)) => ThenNext(core.(state := Idle), OutgoingOf)
      case (ParallelGateway, Idle, GatewayProcessed(_, previous)) =>
        Handled(core.(state := Active, context := ctx.(incoming := [previous])), [])
      case (ParallelGateway, Active, GatewayProcessed(_, previous)) =>
        Handled(core.(context := ctx.(incoming := Arrive(ctx.incoming, previous))), [])
      case (ParallelGateway, Active, GatewayCompleted(_)) => ThenNext(core.(state := Idle), ActivateNextOf)
      case _ => NotHandled
    else if machine.TaskMachine? then
      match (core.typ, core.state, e)
      case (ServiceTask, Idle, TaskStarted(_, jobId)) =>
        Handled(core.(state := Active, context := ctx.(jobs := [jobId])), [])
      case (RuleTask, Idle, TaskStarted(_, jobId)) =>
        Handled(core.(state := Active, context := ctx.(jobs := [jobId])), [])
      case (SimpleTask, Idle, TaskStarted(_, _)) => Handled(core.(state := Active), [])
      case (ServiceTask, Active, TaskCompleted(_)) => Handled(core.(state := Idle), [])
      case (ServiceTask, Active, TaskFailed(_)) => Handled(core.(state := Idle), [])
      case (RuleTask, Active, TaskCompleted(_)) => ThenNext(core.(state := Idle), ActivateNextOf)
      case (SimpleTask, Active, TaskCompleted(_)) => ThenNext(core.(state := Idle), ActivateNextOf)
      case _ => NotHandled
    else NotHandled
  }

  /** The incoming list after an arrival: a branch is listed once. */
  function Arrive(incoming: seq<Option<Id>>, previous: Option<Id>): seq<Option<Id>> {
    if previous in incoming then incoming else incoming + [previous]
  }

  /** Second lookup: states[state]. */
  function StateHandler(machine: Machine, core: Core, e: Event): Outcome {
    var ctx := core.context;
    match (machine, core.state, e)
    case (SequenceMachine, Idle, SequenceActivated(_)) => Handled(core.(state := Active), [])
    case (SequenceMachine, Active, SequenceCompleted(_)) => ThenNext(core.(state := Idle), ActivateNextOf)
    case (JobMachine, Waiting, JobFinished(_, result)) =>
      Handled(core.(state := Finished, context := ctx.(result := result)), [])
    case (JobMachine, Waiting, JobFailed(_, error)) =>
      Handled(core.(state := Failed, context := ctx.(error := error)), [])
    case (InstanceMachine, New, InstanceCreated(_)) =>
      Handled(core.(state := Active, context := ctx.(data := map[])), [])
    case (InstanceMachine, Active, ContextAdded(_, elementId, key, datum)) =>
      var data :=
        if key.Some? then ctx.data[key.value := datum]
        else if datum.Object? then ctx.data + datum.entries
        else ctx.data[elementId := datum];
      Handled(core.(context := ctx.(data := data)), [])
    case _ => NotHandled
  }

  /** Last lookup: handlers declared for every state. */
  function GlobalHandler(machine: Machine, core: Core, e: Event): Outcome {
    var ctx := core.context;
    match (machine, e)
    case (EventMachine, EventActivated(_, element, typ, payload, scoped)) =>
      Handled(Core(typ, Activated, ctx.(
        element := Some(element),
        payload := if payload.Some? then payload else ctx.payload,
        scoped := if scoped.Some? then scoped else ctx.scoped)), [])
    case (GatewayMachine, GatewayActivated(_, element, typ)) =>
      Handled(core.(typ := typ, context := ctx.(element := Some(element))), [])
    case (TaskMachine, TaskActivated(_, element, typ, scoped)) =>
      Handled(core.(typ := typ, context := ctx.(element := Some(element), scoped := scoped)), [])
    case (JobMachine, JobCreated(job)) =>
      Handled(core.(state := Waiting, context := ctx.(job := Some(job))), [])
    case _ => NotHandled
  }

  /** `Model.apply`: the first of the three lookups that finds a handler runs. */
  function HandleEvent(machine: Machine, core: Core, e: Event): Outcome {
    var first := if core.typ.NoType? then NotHandled else TypeStateHandler(machine, core, e);
    if !first.NotHandled? then first else
    var second := StateHandler(machine, core, e);
    if !second.NotHandled? then second else GlobalHandler(machine, core, e)
  }

  // ---- commands ----

  /** What a command handler does, in order. JoinCheck is the step after the awaited GatewayProcessed. */
  datatype Action = Emit(event: Event) | Execute(command: Command) | JoinCheck

  /** What a handler takes from outside its model: the application version, a fresh id, a hash, and the
      timer schedule, None where computing it throws. */
  datatype Env = Env(version: nat, freshId: Id, hash: Value, schedule: Option<Value>)

  function EventType(el: Element): ModelType {
    match (el.position, el.kind, el.direction)
    case (StartPosition, TimerKind, _) => StartTimerEvent
    case (StartPosition, _, _) => StartEvent
    case (IntermediatePosition, MessageKind, Throwing) => MessageThrowing
    case (IntermediatePosition, MessageKind, Catching) => MessageCatching
    case (IntermediatePosition, TimerKind, Catching) => TimerCatching
    case (BoundaryPosition, _, _) => BoundaryEvent
    case (EndPosition, MessageKind, Throwing) => EndMessageThrowing
    case (EndPosition, _, _) => EndEvent
    case _ => NoType
  }

  function GatewayType(el: Element): ModelType {
    match el.kind
    case ExclusiveKind => ExclusiveGateway
    case ParallelKind => ParallelGateway
    case _ => NoType
  }

  function TaskType(el: Element): ModelType {
    match el.kind
    case RuleTaskKind => RuleTask
    case ServiceTaskKind => ServiceTask
    case SimpleTaskKind => SimpleTask
    case _ => NoType
  }

  function Outputs(el: Element): seq<Action> {
    seq(|el.output|, i requires 0 <= i < |el.output| => Execute(AddContext(el.id, el.output[i])))
  }

  /** A task that hands its work out as a job. */
  function StartTask(uid: Id, ctx: Context, el: Element, kind: JobKind, definition: Value, env: Env): seq<Action> {
    [Emit(JobCreated(Job(env.freshId, env.version, uid, kind, definition, ctx.scoped))),
     Emit(TaskStarted(el.id, Some(env.freshId)))]
  }

  /** states[type][state] of the task machine, for a task with its element. A service task fails to its boundary
      events; a rule task emits its failure, for which it has no handler. */
  function TaskCommand(uid: Id, core: Core, el: Element, c: Command, env: Env): Option<seq<Action>> {
    match (core.typ, core.state, c)
    case (ServiceTask, Idle, ProcessTask(_)) =>
      Some(if el.definition.Some? then StartTask(uid, core.context, el, TaskJob, el.definition.value, env) else [])
    case (RuleTask, Idle, ProcessTask(_)) =>
      Some(if el.definition.Some? then StartTask(uid, core.context, el, TaskJob, el.definition.value, env)
           else if el.decision.Some? then StartTask(uid, core.context, el, RuleJob, el.decision.value, env) else [])
    case (SimpleTask, Idle, ProcessTask(_)) => Some([Emit(TaskStarted(el.id, None)), Emit(TaskCompleted(el.id))])
    case (ServiceTask, Active, CommitTask(_, _, error)) =>
      Some(if error.None? then Outputs(el) + [Emit(TaskCompleted(el.id)), Execute(ActivateNext(el.id))]
           else [Emit(TaskFailed(el.id)), Execute(ActivateBoundary(el.id, error))])
    case (RuleTask, Active, CommitTask(_, _, error)) =>
      Some(if error.None? then Outputs(el) + [Emit(TaskCompleted(el.id))] else [Emit(TaskFailed(el.id))])
    case _ => None
  }

  /** states[type][state], for the commands of event, gateway and task models. None where nothing is declared. */
  function TypeStateCommand(uid: Id, machine: Machine, core: Core, c: Command, env: Env): Option<seq<Action>> {
    var ctx := core.context;
    if machine.EventMachine? && core.state.Activated? then
      match c
      case ProcessEvent(elementId) =>
        (match core.typ
         case StartEvent => Some([Emit(EventOccured(elementId, None))])
         case BoundaryEvent => Some([Emit(EventOccured(elementId, None))])
         case StartTimerEvent =>
           if ctx.element.Some? && ctx.element.value.kind.TimerKind? && ctx.payload.Some?
             && ctx.payload.value.timer then
             (if env.schedule.None? then Some([]) else
              Some([Emit(TimerScheduled(elementId, Mark(env.schedule.value, env.version))),
                Emit(EventOccured(elementId, None))]))
           else Some([Emit(EventOccured(elementId, None))])
         case TimerCatching =>
           if ctx.element.Some? && ctx.element.value.timer && env.schedule.Some?
           then Some([Emit(TimerScheduled(elementId, Mark(env.schedule.value, env.version)))]) else Some([])
         case MessageThrowing => Some(CreateJob(uid, ctx, env))
         case EndMessageThrowing => Some(CreateJob(uid, ctx, env))
         case MessageCatching =>
           if ctx.element.Some? && ctx.element.value.correlation.Some?
           then Some([Emit(EventSubscriptionAdded(elementId, Mark(env.hash, env.version)))]) else Some([])
         case EndEvent =>
           if ctx.element.Some? then Some([Emit(EventOccured(ctx.element.value.id, Some(Mark(env.hash, env.version))))])
           else Some([])
         case _ => None)
      case RaiseEvent(element, payload) =>
        if core.typ in {TimerCatching, MessageCatching} then
          Some(Outputs(element) + if ctx.element.Some? then [Emit(EventOccured(ctx.element.value.id, None))] else [])
        else None
      case CommitEvent(_, _, error) =>
        if core.typ in {MessageThrowing, EndMessageThrowing} then
          (if ctx.element.None? then Some([]) else
           var id := ctx.element.value.id;
           Some([Emit(EventOccured(id, if error.None? then Some(Mark(env.hash, env.version)) else None)),
             Execute(ActivateNext(id))]))
        else None
      case _ => None
    else if machine.GatewayMachine? && core.typ.ExclusiveGateway? && core.state.Idle? && c.ProcessGateway? then
      Some([Emit(GatewayProcessed(c.elementId, None)), Emit(GatewayCompleted(c.elementId))])
    else if machine.TaskMachine? && ctx.element.Some? then TaskCommand(uid, core, ctx.element.value, c, env)
    else None
  }

  /** The job a throwing event creates; reading a missing task definition throws. */
  function CreateJob(uid: Id, ctx: Context, env: Env): seq<Action> {
    if ctx.element.Some? && ctx.element.value.definition.Some? then
      [Emit(JobCreated(Job(env.freshId, env.version, uid, EventJob, ctx.element.value.definition.value, ctx.scoped)))]
    else []
  }

  /** states[type]: the parallel gateway takes an arrival in either state. */
  function TypeCommand(machine: Machine, core: Core, c: Command): Option<seq<Action>> {
    if machine.GatewayMachine? && core.typ.ParallelGateway? && c.ProcessGateway?
    then Some([Emit(GatewayProcessed(c.elementId, c.previous)), JoinCheck]) else None
  }

  /** states[state]. */
  function StateCommand(machine: Machine, core: Core, c: Command): Option<seq<Action>> {
    match (machine, core.state, c)
    case (EventMachine, Created, RaiseEvent(el, payload)) =>
      Some(Outputs(el) + [Emit(EventActivated(el.id, el, EventType(el), Some(payload), None)),
        Execute(ProcessEvent(el.id))])
    case (SequenceMachine, Idle, ActivateElement(_, _, _)) =>
      (match core.context.element
       case None => Some([])
       case Some(el) => Some([Emit(SequenceActivated(el.id)), Emit(SequenceCompleted(el.id))]))
    case (JobMachine, Waiting, CommitJob(jobId, result, error)) =>
      (match core.context.job
       case None => Some([])
       case Some(job) =>
         var outcome := if error.None? then JobFinished(jobId, result) else JobFailed(jobId, error);
         var passed := if error.None? then result else None;
         var origin := if job.kind.EventJob? then CommitEvent(job.origin, passed, error)
           else CommitTask(job.origin, passed, error);
         Some([Execute(origin), Emit(outcome)]))
    case _ => None
  }

  /** Handlers declared for every state. */
  function GlobalCommand(machine: Machine, core: Core, c: Command): Option<seq<Action>> {
    match (machine, c)
    case (EventMachine, ActivateElement(el, _, scoped)) =>
      Some([Emit(EventActivated(el.id, el, EventType(el), None, scoped)), Execute(ProcessEvent(el.id))])
    case (GatewayMachine, ActivateElement(el, previous, _)) =>
      Some([Emit(GatewayActivated(el.id, el, GatewayType(el))), Execute(ProcessGateway(el.id, previous))])
    case (TaskMachine, ActivateElement(el, _, scoped)) =>
      Some([Emit(TaskActivated(el.id, el, TaskType(el), scoped)), Execute(ProcessTask(el.id))])
    case _ => None
  }

  /** `Model.dispatch`: the first of the four lookups that finds a handler gives the actions. */
  function HandleCommand(uid: Id, machine: Machine, core: Core, c: Command, env: Env): Option<seq<Action>> {
    var first := if core.typ.NoType? then None else TypeStateCommand(uid, machine, core, c, env);
    if first.Some? then first else
    var second := if core.typ.NoType? then None else TypeCommand(machine, core, c);
    if second.Some? then second else
    var third := StateCommand(machine, core, c);
    if third.Some? then third else GlobalCommand(machine, core, c)
  }
}
