/** The model of an element, a job or an instance, and the event handlers of the machines, which change it in place. */
module FlowModel {
  import opened Wrappers
  import opened FlowTypes
  import opened FlowMachines
  import Spec = FlowSpec

  class Model {
    const uid: Id
    const machine: Machine
    const meta: Meta
    var typ: ModelType
    var state: ModelState
    var context: Context
    var localEvents: seq<Stamped>

    ghost function Value(): Spec.ModelValue
      reads this
    {
      Spec.ModelValue(uid, machine, meta, Core(typ, state, context), localEvents)
    }

    constructor (uid: Id, machine: Machine, meta: Meta, snapshot: Option<Snap>)
      ensures Value() == Spec.NewModel(uid, machine, meta, snapshot)
      ensures this.uid == uid
    {
      this.uid, this.machine, this.meta := uid, machine, meta;
      typ := if snapshot.Some? then snapshot.value.core.typ else NoType;
      state := if snapshot.Some? then snapshot.value.core.state else InitialState(machine);
      context := if snapshot.Some? then snapshot.value.core.context else EMPTY_CONTEXT;
      localEvents := [];
      new;
      if machine.SequenceMachine? {
        context := context.(element := meta.element);
      }
    }

    ghost function Now(): Core
      reads this
    {
      Core(typ, state, context)
    }

    /** The first handler found runs; the event is logged if it ran to its end. A handler that threw leaves its change
        and no entry. */
    method Apply(s: Stamped) returns (executes: seq<Command>)
      modifies this
      ensures Value() == Spec.Apply(old(Value()), s)
      ensures executes == Spec.Issued(old(Value()), s.event)
    {
      hide TypeStateHandler, StateHandler, GlobalHandler;
      var ended := NotFound;
      executes := [];
      if typ != NoType {
        ended, executes := OnTypeAndState(this, s.event);
      }
      if ended.NotFound? {
        ended, executes := OnState(this, s.event);
      }
      if ended.NotFound? {
        ended, executes := OnAny(this, s.event);
      }
      if ended.Done? {
        localEvents := localEvents + [s];
      }
    }

    method Lookup(c: Command, env: Env) returns (actions: seq<Action>)
      ensures var found := HandleCommand(uid, machine, Core(typ, state, context), c, env);
        actions == if found.Some? then found.value else []
    {
      var core := Core(typ, state, context);
      var dispatched: Option<seq<Action>> := None;
      if typ != NoType {
        dispatched := TypeStateCommand(uid, machine, core, c, env);
      }
      if typ != NoType && dispatched.None? {
        dispatched := TypeCommand(machine, core, c);
      }
      if dispatched.None? {
        dispatched := StateCommand(machine, core, c);
      }
      if dispatched.None? {
        dispatched := GlobalCommand(machine, core, c);
      }
      actions := if dispatched.Some? then dispatched.value else [];
    }

    /** Runs the handler of a command: events of this model are applied on the way, the others handed back. */
    method Dispatch(c: Command, env: Env, clock: nat) returns (executes: seq<Command>, others: seq<Event>, next: nat)
      modifies this
      ensures var r := Spec.Dispatch(old(Value()), c, env, clock);
        Value() == r.model && executes == r.executes && others == r.others && next == r.clock
    {
      hide HandleEvent, Spec.Apply, Spec.Issued;
      var actions := Lookup(c, env);
      hide HandleCommand;
      executes, others, next := [], [], clock;
      ghost var applied: seq<Event> := [];
      ghost var start := Spec.Ran(Value(), [], [], [], clock);
      for i := 0 to |actions|
        invariant Spec.Ran(Value(), executes, applied, others, next) == Spec.PerformAll(start, actions[..i])
      {
        assert actions[..i+1][..i] == actions[..i];
        var emitted: Option<Event> := None;
        match actions[i] {
          case Execute(command) => executes := executes + [command];
          case Emit(event) => emitted := Some(event);
          case JoinCheck =>
            if context.element.Some? && |context.incoming| == |context.element.value.incoming| {
              emitted := Some(GatewayCompleted(context.element.value.id));
            }
        }
        if emitted.Some? {
          if Target(emitted.value) == uid {
            if HandleEvent(machine, Core(typ, state, context), emitted.value).Handled? {
              applied := applied + [emitted.value];
            }
            var more := Apply(Stamped(emitted.value, next, machine, uid, meta));
            executes, next := executes + more, next + 1;
          } else {
            others := others + [emitted.value];
          }
        }
      }
      assert actions[..|actions|] == actions;
    }
  }

  /** How a handler ended: there was none, it ran to its end, or it threw on the way. */
  datatype Ended = NotFound | Done | Thrown

  /** What a handler did is what the table says. */
  ghost predicate Did(outcome: Outcome, before: Core, after: Core, ended: Ended, executes: seq<Command>) {
    match outcome
    case NotHandled => ended.NotFound? && after == before && executes == []
    case Threw(core) => ended.Thrown? && after == core && executes == []
    case Handled(core, issued) => ended.Done? && after == core && executes == issued
  }

  /** Issuing a command for the element of the context, whose id is read on the way. */
  method Next(self: Model, next: Element -> Command) returns (ended: Ended, executes: seq<Command>)
    ensures self.context.element.None? ==> ended.Thrown? && executes == []
    ensures self.context.element.Some? ==> ended.Done? && executes == [next(self.context.element.value)]
  {
    if self.context.element.None? {
      return Thrown, [];
    }
    return Done, [next(self.context.element.value)];
  }

  // ---- event.js ----

  method OnEventOccured(self: Model, e: Event) returns (ended: Ended, executes: seq<Command>)
    requires self.machine.EventMachine? && self.state.Activated? && e.EventOccured?
    modifies self`state, self`context
    ensures Did(TypeStateHandler(EventMachine, old(self.Now()), e), old(self.Now()), self.Now(), ended, executes)
  {
    match self.typ {
      case StartEvent | StartTimerEvent | BoundaryEvent | TimerCatching | MessageCatching =>
        self.state := Finished;
        ended, executes := Next(self, ActivateNextOf);
      case MessageThrowing | EndMessageThrowing | EndEvent =>
        if e.thrown.Some? {
          self.context := self.context.(thrown := e.thrown);
        }
        self.state := Finished;
        ended, executes := Done, [];
      case _ =>
        ended, executes := NotFound, [];
    }
  }

  method OnActivatedEvent(self: Model, e: Event) returns (ended: Ended, executes: seq<Command>)
    requires self.machine.EventMachine? && self.state.Activated?
    modifies self`state, self`context
    ensures Did(TypeStateHandler(EventMachine, old(self.Now()), e), old(self.Now()), self.Now(), ended, executes)
  {
    ended, executes := NotFound, [];
    if e.EventOccured? {
      ended, executes := OnEventOccured(self, e);
    } else if e.TimerScheduled? && (self.typ == StartTimerEvent || self.typ == TimerCatching) {
      self.context := self.context.(timer := Some(e.timer));
      ended := Done;
    } else if e.EventSubscriptionAdded? && self.typ == MessageCatching {
      self.context := self.context.(subscription := Some(e.subscription));
      ended := Done;
    }
  }

  method OnEventActivated(self: Model, e: Event)
    requires self.machine.EventMachine? && e.EventActivated?
    modifies self`typ, self`state, self`context
    ensures GlobalHandler(EventMachine, old(self.Now()), e) == Handled(self.Now(), [])
  {
    self.context := self.context.(element := Some(e.element));
    if e.payload.Some? {
      self.context := self.context.(payload := e.payload);
    }
    if e.scoped.Some? {
      self.context := self.context.(scoped := e.scoped);
    }
    self.typ := e.typ;
    self.state := Activated;
  }

  // ---- gateway.js ----

  method OnExclusive(self: Model, e: Event) returns (ended: Ended, executes: seq<Command>)
    requires self.machine.GatewayMachine? && self.typ.ExclusiveGateway?
    modifies self`state
    ensures Did(TypeStateHandler(GatewayMachine, old(self.Now()), e), old(self.Now()), self.Now(), ended, executes)
  {
    ended, executes := NotFound, [];
    if self.state == Idle && e.GatewayProcessed? {
      self.state := Active;
      ended := Done;
    } else if self.state == Active && e.GatewayCompleted? {
      self.state := Idle;
      ended, executes := Next(self, OutgoingOf);
    }
  }

  method OnParallel(self: Model, e: Event) returns (ended: Ended, executes: seq<Command>)
    requires self.machine.GatewayMachine? && self.typ.ParallelGateway?
    modifies self`state, self`context
    ensures Did(TypeStateHandler(GatewayMachine, old(self.Now()), e), old(self.Now()), self.Now(), ended, executes)
  {
    ended, executes := NotFound, [];
    if self.state == Idle && e.GatewayProcessed? {
      self.state := Active;
      self.context := self.context.(incoming := [e.previous]);
      ended := Done;
    } else if self.state == Active && e.GatewayProcessed? {
      if e.previous !in self.context.incoming {
        self.context := self.context.(incoming := self.context.incoming + [e.previous]);
      }
      ended := Done;
    } else if self.state == Active && e.GatewayCompleted? {
      self.state := Idle;
      ended, executes := Next(self, ActivateNextOf);
    }
  }

  // ---- task and instance, as far as their events go ----

  method OnSimpleTask(self: Model, e: Event) returns (ended: Ended, executes: seq<Command>)
    requires self.machine.TaskMachine? && self.typ.SimpleTask?
    modifies self`state
    ensures Did(TypeStateHandler(TaskMachine, old(self.Now()), e), old(self.Now()), self.Now(), ended, executes)
  {
    ended, executes := NotFound, [];
    if self.state == Idle && e.TaskStarted? {
      self.state := Active;
      ended := Done;
    } else if self.state == Active && e.TaskCompleted? {
      self.state := Idle;
      ended, executes := Next(self, ActivateNextOf);
    }
  }

  method OnJobTask(self: Model, e: Event) returns (ended: Ended, executes: seq<Command>)
    requires self.machine.TaskMachine? && (self.typ.ServiceTask? || self.typ.RuleTask?)
    modifies self`state, self`context
    ensures Did(TypeStateHandler(TaskMachine, old(self.Now()), e), old(self.Now()), self.Now(), ended, executes)
  {
    ended, executes := NotFound, [];
    if self.state == Idle && e.TaskStarted? {
      self.state := Active;
      self.context := self.context.(jobs := [e.startedJob]);
      ended := Done;
    } else if self.state == Active && self.typ == ServiceTask && (e.TaskCompleted? || e.TaskFailed?) {
      self.state := Idle;
      ended := Done;
    } else if self.state == Active && self.typ == RuleTask && e.TaskCompleted? {
      self.state := Idle;
      ended, executes := Next(self, ActivateNextOf);
    }
  }

  method OnContextAdded(self: Model, e: Event)
    requires self.machine.InstanceMachine? && self.state.Active? && e.ContextAdded?
    modifies self`context
    ensures StateHandler(InstanceMachine, old(self.Now()), e) == Handled(self.Now(), [])
  {
    var data := self.context.data;
    if e.key.Some? {
      data := data[e.key.value := e.datum];
    } else if e.datum.Object? {
      data := data + e.datum.entries;
    } else {
      data := data[e.elementId := e.datum];
    }
    self.context := self.context.(data := data);
  }

  // ---- sequence.js and job.js ----

  method OnSequence(self: Model, e: Event) returns (ended: Ended, executes: seq<Command>)
    requires self.machine.SequenceMachine?
    modifies self`state
    ensures Did(StateHandler(SequenceMachine, old(self.Now()), e), old(self.Now()), self.Now(), ended, executes)
  {
    ended, executes := NotFound, [];
    if self.state == Idle && e.SequenceActivated? {
      self.state := Active;
      ended := Done;
    } else if self.state == Active && e.SequenceCompleted? {
      self.state := Idle;
      ended, executes := Next(self, ActivateNextOf);
    }
  }

  method OnWaitingJob(self: Model, e: Event) returns (ended: Ended)
    requires self.machine.JobMachine? && self.state.Waiting?
    modifies self`state, self`context
    ensures Did(StateHandler(JobMachine, old(self.Now()), e), old(self.Now()), self.Now(), ended, [])
  {
    ended := NotFound;
    if e.JobFailed? {
      self.context := self.context.(error := e.error);
      self.state := Failed;
      ended := Done;
    } else if e.JobFinished? {
      self.context := self.context.(result := e.result);
      self.state := Finished;
      ended := Done;
    }
  }

  // ---- the three lookups ----

  method OnTypeAndState(self: Model, e: Event) returns (ended: Ended, executes: seq<Command>)
    modifies self`typ, self`state, self`context
    ensures Did(TypeStateHandler(self.machine, old(self.Now()), e), old(self.Now()), self.Now(), ended, executes)
  {
    ended, executes := NotFound, [];
    if self.machine.EventMachine? && self.state == Activated {
      ended, executes := OnActivatedEvent(self, e);
    } else if self.machine.GatewayMachine? && self.typ == ExclusiveGateway {
      ended, executes := OnExclusive(self, e);
    } else if self.machine.GatewayMachine? && self.typ == ParallelGateway {
      ended, executes := OnParallel(self, e);
    } else if self.machine.TaskMachine? && self.typ == SimpleTask {
      ended, executes := OnSimpleTask(self, e);
    } else if self.machine.TaskMachine? && (self.typ == ServiceTask || self.typ == RuleTask) {
      ended, executes := OnJobTask(self, e);
    }
  }

  method OnState(self: Model, e: Event) returns (ended: Ended, executes: seq<Command>)
    modifies self`typ, self`state, self`context
    ensures Did(StateHandler(self.machine, old(self.Now()), e), old(self.Now()), self.Now(), ended, executes)
  {
    ended, executes := NotFound, [];
    if self.machine.SequenceMachine? {
      ended, executes := OnSequence(self, e);
    } else if self.machine.JobMachine? && self.state == Waiting {
      ended := OnWaitingJob(self, e);
    } else if self.machine.InstanceMachine? && self.state == New && e.InstanceCreated? {
      self.state := Active;
      self.context := self.context.(data := map[]);
      ended := Done;
    } else if self.machine.InstanceMachine? && self.state == Active && e.ContextAdded? {
      OnContextAdded(self, e);
      ended := Done;
    }
  }

  method OnAny(self: Model, e: Event) returns (ended: Ended, executes: seq<Command>)
    modifies self`typ, self`state, self`context
    ensures Did(GlobalHandler(self.machine, old(self.Now()), e), old(self.Now()), self.Now(), ended, executes)
  {
    ended, executes := NotFound, [];
    if self.machine.EventMachine? && e.EventActivated? {
      OnEventActivated(self, e);
      ended := Done;
    } else if self.machine.GatewayMachine? && e.GatewayActivated? {
      self.context := self.context.(element := Some(e.element));
      self.typ := e.typ;
      ended := Done;
    } else if self.machine.TaskMachine? && e.TaskActivated? {
      self.context := self.context.(element := Some(e.element), scoped := e.scoped);
      self.typ := e.typ;
      ended := Done;
    } else if self.machine.JobMachine? && e.JobCreated? {
      self.context := self.context.(job := Some(e.job));
      self.state := Waiting;
      ended := Done;
    }
  }
}
