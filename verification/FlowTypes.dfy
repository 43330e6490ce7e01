/** Values of the process engine: elements, model state, commands, events and the log.
    Identifiers and payloads are only ever compared or passed on, so naturals stand for them. */
module FlowTypes {
  import opened Wrappers

  type Id = nat
  type Value = nat

  datatype Machine =
    InstanceMachine | SequenceMachine | GatewayMachine | EventMachine | TaskMachine | JobMachine

  datatype Kind =
    | MessageKind | TimerKind | OtherEventKind
    | ExclusiveKind | ParallelKind | OtherGatewayKind
    | SequenceKind
    | ServiceTaskKind | RuleTaskKind | SimpleTaskKind | OtherTaskKind

  datatype Position = NoPosition | StartPosition | IntermediatePosition | BoundaryPosition | EndPosition

  datatype Direction = NoDirection | Catching | Throwing

  /** A parsed BPMN element. `definition` is the task definition, `decision` the called decision, `correlation`
      the message correlation; reading a missing one throws in the source. */
  datatype Element = Element(
    id: Id, kind: Kind, position: Position, direction: Direction,
    incoming: seq<Id>, outgoing: seq<Id>, fallback: Option<Id>,
    output: seq<Value>, definition: Option<Value>, decision: Option<Value>, correlation: Option<Value>,
    timer: bool)

  datatype ModelType =
    | NoType
    | StartEvent | StartTimerEvent | BoundaryEvent
    | TimerCatching | MessageThrowing | MessageCatching | EndMessageThrowing | EndEvent
    | ExclusiveGateway | ParallelGateway
    | ServiceTask | RuleTask | SimpleTask

  datatype ModelState = New | Created | Activated | Idle | Active | Waiting | Finished | Failed

  datatype JobKind = TaskJob | RuleJob | EventJob

  datatype Job = Job(jobId: Id, version: nat, origin: Id, kind: JobKind, definition: Value, data: Option<Value>)

  /** `timer` tells whether the payload carries a timer. */
  datatype Payload = Payload(data: Value, timer: bool)

  /** An object that carries the version that created it: subscription, timer or thrown event. */
  datatype Mark = Mark(uid: Value, version: nat)

  datatype Datum = Scalar(value: Value) | Object(entries: map<Value, Datum>)

  /** The context object of a model; an absent attribute is None, an absent list is []. */
  datatype Context = Context(
    element: Option<Element>, payload: Option<Payload>, scoped: Option<Value>,
    timer: Option<Mark>, subscription: Option<Mark>, thrown: Option<Mark>,
    incoming: seq<Option<Id>>, job: Option<Job>, jobs: seq<Option<Id>>,
    result: Option<Value>, error: Option<Value>, data: map<Value, Datum>)

  const EMPTY_CONTEXT: Context :=
    Context(None, None, None, None, None, None, [], None, [], None, None, map[])

  /** The part of a model that handlers change. */
  datatype Core = Core(typ: ModelType, state: ModelState, context: Context)

  datatype Meta = Meta(element: Option<Element>)

  const EMPTY_META := Meta(None)

  datatype Event =
    | EventActivated(elementId: Id, element: Element, typ: ModelType, payload: Option<Payload>, scoped: Option<Value>)
    | EventOccured(elementId: Id, thrown: Option<Mark>)
    | TimerScheduled(elementId: Id, timer: Mark)
    | EventSubscriptionAdded(elementId: Id, subscription: Mark)
    | GatewayActivated(elementId: Id, element: Element, typ: ModelType)
    | GatewayProcessed(elementId: Id, previous: Option<Id>)
    | GatewayCompleted(elementId: Id)
    | SequenceActivated(elementId: Id)
    | SequenceCompleted(elementId: Id)
    | TaskActivated(elementId: Id, element: Element, typ: ModelType, scoped: Option<Value>)
    | TaskStarted(elementId: Id, startedJob: Option<Id>)
    | TaskCompleted(elementId: Id)
    | TaskFailed(elementId: Id)
    | JobCreated(job: Job)
    | JobFinished(jobId: Id, result: Option<Value>)
    | JobFailed(jobId: Id, error: Option<Value>)
    | InstanceCreated(instanceId: Id)
    | ContextAdded(instanceId: Id, elementId: Id, key: Option<Value>, datum: Datum)

  datatype Command =
    | ActivateElement(element: Element, previous: Option<Id>, scoped: Option<Value>)
    | RaiseEvent(element: Element, payload: Payload)
    | ProcessEvent(elementId: Id)
    | ProcessGateway(elementId: Id, previous: Option<Id>)
    | ProcessTask(elementId: Id)
    | CommitJob(jobId: Id, result: Option<Value>, error: Option<Value>)
    | CommitTask(elementId: Id, result: Option<Value>, error: Option<Value>)
    | CommitEvent(elementId: Id, result: Option<Value>, error: Option<Value>)
    | AddContext(elementId: Id, output: Value)
    | ActivateNext(elementId: Id)
    | ActivateBoundary(elementId: Id, error: Option<Value>)
    | ConditionalNext(elementId: Id, outgoing: seq<Id>, fallback: Option<Id>)

  /** A logged event: the event with the attributes that `apply` stamps on it. */
  datatype Stamped = Stamped(event: Event, timeuuid: nat, machine: Machine, modelId: Id, meta: Meta)

  /** The entry of a model in a snapshot. */
  datatype Snap = Snap(core: Core, machine: Machine, meta: Meta)

  /** The model an event handler looks up, and the machine it creates a missing model with. */
  function Target(e: Event): Id {
    match e
    case JobCreated(job) => job.jobId
    case JobFinished(j, _) => j
    case JobFailed(j, _) => j
    case InstanceCreated(i) => i
    case ContextAdded(i, _, _, _) => i
    case _ => e.elementId
  }

  function MachineOf(e: Event): Machine {
    match e
    case EventActivated(_, _, _, _, _) => EventMachine
    case EventOccured(_, _) => EventMachine
    case TimerScheduled(_, _) => EventMachine
    case EventSubscriptionAdded(_, _) => EventMachine
    case GatewayActivated(_, _, _) => GatewayMachine
    case GatewayProcessed(_, _) => GatewayMachine
    case GatewayCompleted(_) => GatewayMachine
    case SequenceActivated(_) => SequenceMachine
    case SequenceCompleted(_) => SequenceMachine
    case TaskActivated(_, _, _, _) => TaskMachine
    case TaskStarted(_, _) => TaskMachine
    case TaskCompleted(_) => TaskMachine
    case TaskFailed(_) => TaskMachine
    case JobCreated(_) => JobMachine
    case JobFinished(_, _) => JobMachine
    case JobFailed(_, _) => JobMachine
    case InstanceCreated(_) => InstanceMachine
    case ContextAdded(_, _, _, _) => InstanceMachine
  }
}
