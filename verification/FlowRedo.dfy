/** Applying the end of a model's log to it once more. */
module FlowRedo {
  import opened Wrappers
  import opened FlowTypes
  import opened FlowMachines
  import opened FlowSpec
  import opened FlowReplay

  /** Each event found its handler where it was applied, as logged events did. */
  ghost predicate Logged(machine: Machine, birth: Core, log: seq<Stamped>) {
    log == [] ||
    var init := log[..|log|-1];
    Logged(machine, birth, init) && HandleEvent(machine, FoldCore(machine, birth, init), log[|log|-1].event).Handled?
  }

  /** An activation sets the type; the type of an element is always the same. */
  predicate TypedAs(e: Event, typ: ModelType) {
    match e
    case EventActivated(_, _, t, _, _) => t == typ
    case GatewayActivated(_, _, t) => t == typ
    case TaskActivated(_, _, t, _) => t == typ
    case _ => true
  }

  ghost predicate AllTyped(log: seq<Stamped>, typ: ModelType) { forall s <- log :: TypedAs(s.event, typ) }

  // ---- everything but joins ----

  /** An attribute that is written with what the event says: it already is what it comes to, or stands where the log
      stands. */
  predicate Either<T(==)>(x: T, now: T, end: T) { x == now || x == end }

  function At(data: map<Value, Datum>, key: Value): Option<Datum> { if key in data then Some(data[key]) else None }

  ghost predicate DataEither(x: map<Value, Datum>, now: map<Value, Datum>, end: map<Value, Datum>) {
    forall key: Value :: Either(At(x, key), At(now, key), At(end, key))
  }

  /** Type and state, and the attributes that are written in every state. */
  ghost predicate BetweenAny(d: Core, c: Core, end: Core) {
    var x, now, last := d.context, c.context, end.context;
    && d.typ == end.typ && (c.typ.NoType? || c.typ == end.typ)
    && Either(d.state, c.state, end.state)
    && Either(x.element, now.element, last.element) && Either(x.payload, now.payload, last.payload)
    && Either(x.scoped, now.scoped, last.scoped) && Either(x.job, now.job, last.job)
    && x.incoming == now.incoming == last.incoming
  }

  /** The attributes that are written in some states only: as long as the states differ nothing has been written. */
  ghost predicate BetweenSome(x: Context, now: Context, last: Context, same: bool) {
    if same then
      && Either(x.timer, now.timer, last.timer) && Either(x.subscription, now.subscription, last.subscription)
      && Either(x.thrown, now.thrown, last.thrown) && Either(x.jobs, now.jobs, last.jobs)
      && Either(x.result, now.result, last.result) && Either(x.error, now.error, last.error)
      && DataEither(x.data, now.data, last.data)
    else
      && x.timer == last.timer && x.subscription == last.subscription && x.thrown == last.thrown
      && x.jobs == last.jobs && x.result == last.result && x.error == last.error && x.data == last.data
  }

  /** `d` has come from the end of the log by applying events once more, `c` by applying them the first time. */
  ghost predicate Between(d: Core, c: Core, end: Core) {
    BetweenAny(d, c, end) && BetweenSome(d.context, c.context, end.context, d.state == c.state)
  }

  lemma DataSame(x: map<Value, Datum>, now: map<Value, Datum>)
    ensures DataEither(x, now, x)
  {
  }

  lemma DataWritten(x: map<Value, Datum>, now: map<Value, Datum>, end: map<Value, Datum>, more: map<Value, Datum>)
    requires DataEither(x, now, end)
    ensures DataEither(x + more, now + more, end)
  {
    forall key: Value ensures Either(At(x + more, key), At(now + more, key), At(end, key)) {
      assert Either(At(x, key), At(now, key), At(end, key));
    }
  }

  lemma BetweenEvent(d: Core, c: Core, end: Core, e: Event)
    requires Between(d, c, end) && HandleEvent(EventMachine, c, e).Handled? && TypedAs(e, end.typ)
    ensures Between(After(EventMachine, d, e), After(EventMachine, c, e), end)
  {
    EventAny(d, c, end, e);
    EventSome(d, c, end, e);
    hide BetweenAny, BetweenSome, After, HandleEvent;
  }

  lemma EventAny(d: Core, c: Core, end: Core, e: Event)
    requires BetweenAny(d, c, end) && HandleEvent(EventMachine, c, e).Handled? && TypedAs(e, end.typ)
    ensures BetweenAny(After(EventMachine, d, e), After(EventMachine, c, e), end)
  {
  }

  lemma EventSome(d: Core, c: Core, end: Core, e: Event)
    requires Between(d, c, end) && HandleEvent(EventMachine, c, e).Handled? && TypedAs(e, end.typ)
    ensures var x, y := After(EventMachine, d, e), After(EventMachine, c, e);
      BetweenSome(x.context, y.context, end.context, x.state == y.state)
  {
    if d.state == c.state {
      EventSame(d, c, end, e);
    } else {
      EventApart(d, c, end, e);
    }
    hide BetweenAny, BetweenSome, After, HandleEvent;
  }

  lemma EventSame(d: Core, c: Core, end: Core, e: Event)
    requires Between(d, c, end) && HandleEvent(EventMachine, c, e).Handled? && TypedAs(e, end.typ) && d.state == c.state
    ensures var x, y := After(EventMachine, d, e), After(EventMachine, c, e);
      BetweenSome(x.context, y.context, end.context, x.state == y.state)
  {
    hide DataEither;
  }

  lemma EventApart(d: Core, c: Core, end: Core, e: Event)
    requires Between(d, c, end) && HandleEvent(EventMachine, c, e).Handled? && TypedAs(e, end.typ) && d.state != c.state
    ensures var x, y := After(EventMachine, d, e), After(EventMachine, c, e);
      BetweenSome(x.context, y.context, end.context, x.state == y.state)
  {
    DataSame(d.context.data, c.context.data);
    hide DataEither;
  }

  function TaskNext(typ: ModelType, state: ModelState, e: Event): ModelState {
    if e.TaskStarted? && state.Idle? && typ in {ServiceTask, RuleTask, SimpleTask} then Active
    else if e.TaskCompleted? && state.Active? && typ in {ServiceTask, RuleTask, SimpleTask} then Idle
    else if e.TaskFailed? && state.Active? && typ.ServiceTask? then Idle
    else state
  }

  /** What an event writes of a task. */
  lemma TaskWrites(core: Core, e: Event)
    ensures var x := After(TaskMachine, core, e);
      if e.TaskActivated? then
        x == core.(typ := e.typ, context := core.context.(element := Some(e.element), scoped := e.scoped))
      else
        var starts := e.TaskStarted? && core.state.Idle? && core.typ in {ServiceTask, RuleTask};
        x == Core(core.typ, TaskNext(core.typ, core.state, e),
                  if starts then core.context.(jobs := [e.startedJob]) else core.context)
    ensures HandleEvent(TaskMachine, core, e).Handled? ==>
      e.TaskActivated? || TaskNext(core.typ, core.state, e) != core.state
  {
  }

  lemma BetweenTask(d: Core, c: Core, end: Core, e: Event)
    requires Between(d, c, end) && HandleEvent(TaskMachine, c, e).Handled? && TypedAs(e, end.typ)
    ensures Between(After(TaskMachine, d, e), After(TaskMachine, c, e), end)
  {
    TaskWrites(d, e);
    TaskWrites(c, e);
    DataSame(d.context.data, c.context.data);
    hide After, HandleEvent, DataEither;
  }

  lemma BetweenJob(d: Core, c: Core, end: Core, e: Event)
    requires Between(d, c, end) && HandleEvent(JobMachine, c, e).Handled? && TypedAs(e, end.typ)
    ensures Between(After(JobMachine, d, e), After(JobMachine, c, e), end)
  {
    DataSame(d.context.data, c.context.data);
    hide DataEither;
  }

  lemma BetweenGateway(d: Core, c: Core, end: Core, e: Event)
    requires Between(d, c, end) && HandleEvent(GatewayMachine, c, e).Handled? && TypedAs(e, end.typ)
      && !end.typ.ParallelGateway?
    ensures Between(After(GatewayMachine, d, e), After(GatewayMachine, c, e), end)
  {
    DataSame(d.context.data, c.context.data);
    hide DataEither;
  }

  lemma BetweenSequence(d: Core, c: Core, end: Core, e: Event)
    requires Between(d, c, end) && HandleEvent(SequenceMachine, c, e).Handled? && TypedAs(e, end.typ)
    ensures Between(After(SequenceMachine, d, e), After(SequenceMachine, c, e), end)
  {
    DataSame(d.context.data, c.context.data);
    hide DataEither;
  }

  lemma BetweenInstance(d: Core, c: Core, end: Core, e: Event)
    requires Between(d, c, end) && HandleEvent(InstanceMachine, c, e).Handled?
    ensures Between(After(InstanceMachine, d, e), After(InstanceMachine, c, e), end)
  {
    DataSame(d.context.data, c.context.data);
    if e.ContextAdded? && d.state.Active? {
      var more := if e.key.Some? then map[e.key.value := e.datum] else if e.datum.Object? then e.datum.entries
        else map[e.elementId := e.datum];
      DataWritten(d.context.data, c.context.data, end.context.data, more);
      hide DataEither;
      Added(d.context.data, e);
      Added(c.context.data, e);
    } else {
      DataSame(d.context.data, c.context.data);
      DataSame(d.context.data, map[]);
      hide DataEither;
    }
  }

  lemma Added(data: map<Value, Datum>, e: Event)
    requires e.ContextAdded?
    ensures e.key.Some? ==> data[e.key.value := e.datum] == data + map[e.key.value := e.datum]
    ensures data[e.elementId := e.datum] == data + map[e.elementId := e.datum]
  {
  }

  /** One event more on either side. */
  lemma BetweenStep(machine: Machine, d: Core, c: Core, end: Core, e: Event)
    requires Between(d, c, end) && HandleEvent(machine, c, e).Handled? && TypedAs(e, end.typ)
    requires !(machine.GatewayMachine? && end.typ.ParallelGateway?)
    ensures Between(After(machine, d, e), After(machine, c, e), end)
  {
    hide Between, HandleEvent, After;
    match machine
    case EventMachine => BetweenEvent(d, c, end, e);
    case GatewayMachine => BetweenGateway(d, c, end, e);
    case TaskMachine => BetweenTask(d, c, end, e);
    case SequenceMachine => BetweenSequence(d, c, end, e);
    case JobMachine => BetweenJob(d, c, end, e);
    case InstanceMachine => BetweenInstance(d, c, end, e);
  }

  // ---- along the log ----

  lemma {:induction false} LoggedAt(machine: Machine, birth: Core, log: seq<Stamped>, j: nat)
    requires Logged(machine, birth, log) && j <= |log|
    ensures Logged(machine, birth, log[..j])
    ensures j < |log| ==> HandleEvent(machine, FoldCore(machine, birth, log[..j]), log[j].event).Handled?
  {
    if j < |log| {
      hide FoldCore, HandleEvent;
      LoggedAt(machine, birth, log[..|log|-1], j);
      assert log[..|log|-1][..j] == log[..j];
    } else {
      assert log[..j] == log;
    }
  }

  lemma FoldNext(machine: Machine, core: Core, log: seq<Stamped>, i: nat, j: nat)
    requires i <= j < |log|
    ensures FoldCore(machine, core, log[i..j+1]) == After(machine, FoldCore(machine, core, log[i..j]), log[j].event)
  {
    hide After;
    assert log[i..j+1][..j-i] == log[i..j];
  }

  lemma TypeWritten(machine: Machine, core: Core, e: Event, typ: ModelType)
    requires HandleEvent(machine, core, e).Handled? && TypedAs(e, typ) && (core.typ.NoType? || core.typ == typ)
    ensures var x := After(machine, core, e);
      && (x.typ == core.typ || x.typ == typ) && TypedAs(e, x.typ)
      && (!(machine.GatewayMachine? && typ.ParallelGateway?) ==> x.context.incoming == core.context.incoming)
  {
    TypedLookup(machine, core, e);
    hide TypeStateHandler;
  }

  lemma TypedLookup(machine: Machine, core: Core, e: Event)
    ensures var out := TypeStateHandler(machine, core, e);
      !out.NotHandled? ==>
        && out.core.typ == core.typ && ActivatedElement(e).None? && out.core.context.element == core.context.element
        && (!Join(machine, core) ==> out.core.context.incoming == core.context.incoming)
  {
  }

  /** The element an activation brings. */
  function ActivatedElement(e: Event): Option<Element> {
    match e
    case EventActivated(_, el, _, _, _) => Some(el)
    case GatewayActivated(_, el, _) => Some(el)
    case TaskActivated(_, el, _, _) => Some(el)
    case _ => None
  }

  /** The type is the one of the activations from the first one on. */
  lemma {:induction false} TypeSettles(machine: Machine, birth: Core, log: seq<Stamped>, typ: ModelType)
    requires Logged(machine, birth, log) && AllTyped(log, typ) && birth.typ.NoType?
    ensures var end := FoldCore(machine, birth, log);
      && (end.typ.NoType? || end.typ == typ) && AllTyped(log, end.typ)
      && (!(machine.GatewayMachine? && typ.ParallelGateway?) ==> end.context.incoming == birth.context.incoming)
  {
    if log != [] {
      var init, last := log[..|log|-1], log[|log|-1];
      FoldLast(machine, birth, log);
      assert Logged(machine, birth, init) && HandleEvent(machine, FoldCore(machine, birth, init), last.event).Handled?;
      TypedInit(log, typ);
      hide *;
      TypeSettles(machine, birth, init, typ);
      var now, next := FoldCore(machine, birth, init), FoldCore(machine, birth, log);
      TypeWritten(machine, now, last.event, typ);
      TypedEither(init, typ, now.typ, next.typ);
      TypedMore(log, next.typ);
    }
  }

  lemma FoldLast(machine: Machine, core: Core, log: seq<Stamped>)
    requires log != []
    ensures FoldCore(machine, core, log) ==
      After(machine, FoldCore(machine, core, log[..|log|-1]), log[|log|-1].event)
  {
    hide After;
  }

  lemma TypedInit(log: seq<Stamped>, typ: ModelType)
    requires log != [] && AllTyped(log, typ)
    ensures AllTyped(log[..|log|-1], typ) && TypedAs(log[|log|-1].event, typ)
  {
    hide TypedAs;
    assert log == log[..|log|-1] + [log[|log|-1]];
  }

  lemma TypedMore(log: seq<Stamped>, typ: ModelType)
    requires log != [] && AllTyped(log[..|log|-1], typ) && TypedAs(log[|log|-1].event, typ)
    ensures AllTyped(log, typ)
  {
    hide TypedAs;
    assert log == log[..|log|-1] + [log[|log|-1]];
  }

  lemma TypedEither(log: seq<Stamped>, typ: ModelType, now: ModelType, next: ModelType)
    requires AllTyped(log, typ) && AllTyped(log, now) && (next == now || next == typ)
    ensures AllTyped(log, next)
  {
  }

  // ---- the end of the log once more ----

  lemma StartsBetween(end: Core, c: Core)
    requires (c.typ.NoType? || c.typ == end.typ) && c.context.incoming == end.context.incoming
    ensures Between(end, c, end)
  {
    if end.state == c.state {
      DataSame(end.context.data, c.context.data);
    }
    hide DataEither;
  }

  lemma EndsBetween(d: Core, end: Core)
    requires Between(d, end, end)
    ensures d == end
  {
    assert forall key: Value :: Either(At(d.context.data, key), At(end.context.data, key), At(end.context.data, key));
    SameData(d.context.data, end.context.data);
  }

  lemma SameData(x: map<Value, Datum>, y: map<Value, Datum>)
    requires forall key: Value :: At(x, key) == At(y, key)
    ensures x == y
  {
    forall key: Value ensures key in x <==> key in y {
      assert At(x, key) == At(y, key);
    }
    forall key | key in x ensures x[key] == y[key] {
      assert At(x, key) == At(y, key);
    }
  }

  ghost predicate Join(machine: Machine, core: Core) { machine.GatewayMachine? && core.typ.ParallelGateway? }

  lemma {:induction false} BetweenAlong(machine: Machine, birth: Core, log: seq<Stamped>, typ: ModelType, i: nat,
      j: nat)
    requires Logged(machine, birth, log) && AllTyped(log, typ) && birth.typ.NoType? && i <= j <= |log|
    requires !Join(machine, FoldCore(machine, birth, log))
    ensures var end := FoldCore(machine, birth, log);
      Between(FoldCore(machine, end, log[i..j]), FoldCore(machine, birth, log[..j]), end)
  {
    hide FoldCore, Between, HandleEvent, After;
    var end := FoldCore(machine, birth, log);
    if i == j {
      LoggedAt(machine, birth, log, i);
      PrefixSettles(machine, birth, log, typ, i);
      StartsBetween(end, FoldCore(machine, birth, log[..i]));
      assert log[i..j] == [];
      NoFold(machine, end);
    } else {
      BetweenAlong(machine, birth, log, typ, i, j - 1);
      LoggedAt(machine, birth, log, j - 1);
      TypeSettles(machine, birth, log, typ);
      assert log[j-1] in log;
      FoldNext(machine, end, log, i, j - 1);
      FoldNext(machine, birth, log, 0, j - 1);
      assert log[0..j-1] == log[..j-1] && log[0..j] == log[..j];
      BetweenStep(machine, FoldCore(machine, end, log[i..j-1]), FoldCore(machine, birth, log[..j-1]), end,
        log[j-1].event);
    }
  }

  lemma NoFold(machine: Machine, core: Core)
    ensures FoldCore(machine, core, []) == core
  {
  }

  /** Type and list of a model on the way, against those at the end of its log. */
  lemma {:induction false} PrefixSettles(machine: Machine, birth: Core, log: seq<Stamped>, typ: ModelType, i: nat)
    requires Logged(machine, birth, log) && AllTyped(log, typ) && birth.typ.NoType? && i <= |log|
    requires !Join(machine, FoldCore(machine, birth, log))
    ensures var c, end := FoldCore(machine, birth, log[..i]), FoldCore(machine, birth, log);
      (c.typ.NoType? || c.typ == end.typ) && c.context.incoming == end.context.incoming
  {
    if i == |log| {
      assert log[..i] == log;
    } else {
      var init, last := log[..|log|-1], log[|log|-1];
      FoldLast(machine, birth, log);
      assert Logged(machine, birth, init) && HandleEvent(machine, FoldCore(machine, birth, init), last.event).Handled?;
      TypedInit(log, typ);
      hide FoldCore, HandleEvent, After, AllTyped, TypedAs, Logged;
      TypeSettles(machine, birth, init, typ);
      TypeWritten(machine, FoldCore(machine, birth, init), last.event, typ);
      PrefixSettles(machine, birth, init, typ, i);
      assert init[..i] == log[..i];
    }
  }

  // ---- joins ----

  /** A parallel gateway, or one to be. */
  ghost predicate Gate(c: Core) {
    && (c.typ.NoType? || c.typ.ParallelGateway?) && (c.state.Idle? || c.state.Active?)
    && (c.typ.NoType? ==> c.state.Idle?)
  }

  /** What the events of a gateway leave alone. */
  function Rest(c: Core): Context { c.context.(element := None, incoming := []) }

  lemma GateWrites(c: Core, e: Event)
    requires Gate(c) && TypedAs(e, ParallelGateway)
    ensures var x := After(GatewayMachine, c, e);
      Gate(x) && Rest(x) == Rest(c) &&
      if e.GatewayActivated? then x == c.(typ := ParallelGateway, context := c.context.(element := Some(e.element)))
      else
        && x.typ == c.typ && x.context.element == c.context.element
        && (e.GatewayProcessed? && c.typ.ParallelGateway? ==>
              && x.state.Active?
              && x.context.incoming == if c.state.Idle? then [e.previous]
                   else FlowMachines.Arrive(c.context.incoming, e.previous))
        && (!(e.GatewayProcessed? && c.typ.ParallelGateway?) ==> x.context.incoming == c.context.incoming)
        && (e.GatewayCompleted? ==> x.state.Idle?)
        && (!e.GatewayProcessed? && !e.GatewayCompleted? ==> x.state == c.state)
    ensures HandleEvent(GatewayMachine, c, e).Handled? ==>
      e.GatewayActivated? || (c.typ.ParallelGateway? && (e.GatewayProcessed? || e.GatewayCompleted?))
  {
    GateLookup(c, e);
    hide HandleEvent;
    if !e.GatewayActivated? && c.typ.ParallelGateway? {
      GateTyped(c, e);
      hide TypeStateHandler;
    }
  }

  /** Only the first and the last of the three lookups find anything for a gateway. */
  lemma GateLookup(c: Core, e: Event)
    ensures HandleEvent(GatewayMachine, c, e) ==
      if e.GatewayActivated? then
        Handled(c.(typ := e.typ, context := c.context.(element := Some(e.element))), [])
      else if c.typ.NoType? then NotHandled
      else TypeStateHandler(GatewayMachine, c, e)
  {
  }

  lemma GateTyped(c: Core, e: Event)
    requires c.typ.ParallelGateway? && c.state in {Idle, Active}
    ensures var out := TypeStateHandler(GatewayMachine, c, e);
      if e.GatewayProcessed? then
        out == Handled(c.(state := Active, context := c.context.(incoming :=
          if c.state.Idle? then [e.previous] else FlowMachines.Arrive(c.context.incoming, e.previous))), [])
      else if e.GatewayCompleted? && c.state.Active? then
        (out.Handled? || out.Threw?) && out.core == c.(state := Idle)
      else out.NotHandled?
  {
  }

  /** Since the join fired both sides have the same list, or none that matters. */
  ghost predicate InSync(d: Core, c: Core) {
    c.typ.ParallelGateway? && d.state == c.state && (c.state.Active? ==> d.context.incoming == c.context.incoming)
  }

  predicate Fired(log: seq<Stamped>) { exists s <- log :: s.event.GatewayCompleted? }

  ghost predicate GateBetween(d: Core, c: Core, end: Core, fired: bool) {
    && Gate(d) && d.typ.ParallelGateway? && Gate(c) && Rest(d) == Rest(c) == Rest(end)
    && Either(d.context.element, c.context.element, end.context.element)
    && (fired ==> InSync(d, c))
  }

  lemma GateStep(d: Core, c: Core, end: Core, fired: bool, e: Event)
    requires GateBetween(d, c, end, fired) && HandleEvent(GatewayMachine, c, e).Handled? && TypedAs(e, ParallelGateway)
    ensures GateBetween(After(GatewayMachine, d, e), After(GatewayMachine, c, e), end, fired || e.GatewayCompleted?)
  {
    GateWrites(d, e);
    GateWrites(c, e);
    hide HandleEvent, After;
  }

  lemma {:induction false} GateKept(birth: Core, log: seq<Stamped>)
    requires Logged(GatewayMachine, birth, log) && AllTyped(log, ParallelGateway) && Gate(birth)
    ensures var c := FoldCore(GatewayMachine, birth, log); Gate(c) && Rest(c) == Rest(birth)
  {
    if log != [] {
      GateKept(birth, log[..|log|-1]);
      assert log[|log|-1] in log;
      GateWrites(FoldCore(GatewayMachine, birth, log[..|log|-1]), log[|log|-1].event);
      hide HandleEvent, After;
    }
  }

  lemma FiredMore(log: seq<Stamped>, i: nat, j: nat)
    requires i <= j < |log|
    ensures Fired(log[i..j+1]) <==> Fired(log[i..j]) || log[j].event.GatewayCompleted?
  {
    assert log[i..j+1] == log[i..j] + [log[j]];
  }

  lemma {:induction false} GateAlong(birth: Core, log: seq<Stamped>, i: nat, j: nat)
    requires Logged(GatewayMachine, birth, log) && AllTyped(log, ParallelGateway) && Gate(birth) && i <= j <= |log|
    requires FoldCore(GatewayMachine, birth, log).typ.ParallelGateway?
    ensures var end := FoldCore(GatewayMachine, birth, log);
      GateBetween(FoldCore(GatewayMachine, end, log[i..j]), FoldCore(GatewayMachine, birth, log[..j]), end,
                  Fired(log[i..j]))
  {
    hide FoldCore, HandleEvent, After;
    var end := FoldCore(GatewayMachine, birth, log);
    if i == j {
      LoggedAt(GatewayMachine, birth, log, i);
      assert AllTyped(log[..i], ParallelGateway);
      GateKept(birth, log[..i]);
      GateKept(birth, log);
      assert log[i..j] == [];
      NoFold(GatewayMachine, end);
    } else {
      GateAlong(birth, log, i, j - 1);
      LoggedAt(GatewayMachine, birth, log, j - 1);
      assert log[j-1] in log;
      FoldNext(GatewayMachine, end, log, i, j - 1);
      FoldNext(GatewayMachine, birth, log, 0, j - 1);
      assert log[0..j-1] == log[..j-1] && log[0..j] == log[..j];
      FiredMore(log, i, j - 1);
      GateStep(FoldCore(GatewayMachine, end, log[i..j-1]), FoldCore(GatewayMachine, birth, log[..j-1]), end,
               Fired(log[i..j-1]), log[j-1].event);
    }
  }

  /** As long as the join does not fire, every arrival stays in the list. */
  lemma {:induction false} ArrivalsStay(birth: Core, log: seq<Stamped>, i: nat)
    requires Logged(GatewayMachine, birth, log) && AllTyped(log, ParallelGateway) && Gate(birth) && i <= |log|
    requires !Fired(log[i..])
    ensures var end := FoldCore(GatewayMachine, birth, log);
      forall t :: i <= t < |log| && log[t].event.GatewayProcessed? ==>
        end.state.Active? && log[t].event.previous in end.context.incoming
  {
    if i < |log| {
      var init, e := log[..|log|-1], log[|log|-1].event;
      assert log[i..] == init[i..] + [log[|log|-1]];
      assert AllTyped(init, ParallelGateway) && log[|log|-1] in log;
      ArrivalsStay(birth, init, i);
      GateKept(birth, init);
      GateWrites(FoldCore(GatewayMachine, birth, init), e);
      hide HandleEvent, After;
      assert forall t :: 0 <= t < |init| ==> init[t] == log[t];
    }
  }

  /** So without firing nothing changes when they are applied once more. */
  lemma {:induction false} GateStays(birth: Core, log: seq<Stamped>, i: nat, j: nat)
    requires Logged(GatewayMachine, birth, log) && AllTyped(log, ParallelGateway) && Gate(birth) && i <= j <= |log|
    requires FoldCore(GatewayMachine, birth, log).typ.ParallelGateway? && !Fired(log[i..])
    ensures var end := FoldCore(GatewayMachine, birth, log);
      var d := FoldCore(GatewayMachine, end, log[i..j]);
      d.state == end.state && d.context.incoming == end.context.incoming
  {
    hide FoldCore, HandleEvent, After;
    var end := FoldCore(GatewayMachine, birth, log);
    if i == j {
      assert log[i..j] == [];
      NoFold(GatewayMachine, end);
    } else {
      GateStays(birth, log, i, j - 1);
      GateAlong(birth, log, i, j - 1);
      ArrivalsStay(birth, log, i);
      FoldNext(GatewayMachine, end, log, i, j - 1);
      assert log[j-1] in log && log[j-1] in log[i..];
      GateWrites(FoldCore(GatewayMachine, end, log[i..j-1]), log[j-1].event);
    }
  }

  // ---- theorem ----

  /** The same, but for the list of a join that has fired: it starts a new one with the next arrival. */
  ghost predicate Alike(machine: Machine, d: Core, c: Core) {
    d == c || (Join(machine, d) && d.state.Idle? && c.state.Idle? && d.(context := c.context) == c && Rest(d) == Rest(c)
               && d.context.element == c.context.element)
  }

  /** Applying any end of a model's log to the model once more leaves it as it is. */
  lemma RedoLeavesAlike(machine: Machine, birth: Core, log: seq<Stamped>, typ: ModelType, i: nat)
    requires Logged(machine, birth, log) && AllTyped(log, typ) && birth.typ.NoType? && i <= |log|
    requires machine.GatewayMachine? ==> birth.state.Idle?
    ensures var end := FoldCore(machine, birth, log); Alike(machine, FoldCore(machine, end, log[i..]), end)
  {
    hide FoldCore, HandleEvent, After;
    var end := FoldCore(machine, birth, log);
    assert log[i..|log|] == log[i..] && log[..|log|] == log;
    if Join(machine, end) {
      TypeSettles(machine, birth, log, typ);
      GateAlong(birth, log, i, |log|);
      if !Fired(log[i..]) {
        GateStays(birth, log, i, |log|);
      }
      SameGate(FoldCore(machine, end, log[i..]), end);
    } else {
      BetweenAlong(machine, birth, log, typ, i, |log|);
      EndsBetween(FoldCore(machine, end, log[i..]), end);
    }
  }

  lemma SameGate(d: Core, end: Core)
    requires Gate(d) && d.typ.ParallelGateway? && Gate(end) && end.typ.ParallelGateway? && Rest(d) == Rest(end)
    requires d.context.element == end.context.element && d.state == end.state
    requires d.state.Active? ==> d.context.incoming == end.context.incoming
    ensures Alike(GatewayMachine, d, end)
  {
    assert d.context == Rest(d).(element := d.context.element, incoming := d.context.incoming);
    assert end.context == Rest(end).(element := end.context.element, incoming := end.context.incoming);
  }

  /** Alike models take every event alike. */
  lemma AlikeStep(machine: Machine, d: Core, c: Core, e: Event)
    requires Alike(machine, d, c) && (Join(machine, d) ==> TypedAs(e, ParallelGateway))
    ensures Alike(machine, After(machine, d, e), After(machine, c, e))
    ensures var x, y := HandleEvent(machine, d, e), HandleEvent(machine, c, e);
      && (x.Handled? <==> y.Handled?) && (x.NotHandled? <==> y.NotHandled?)
      && (x.Handled? ==> x.executes == y.executes)
  {
    if d != c {
      assert d.context == Rest(d).(element := d.context.element, incoming := d.context.incoming);
      assert c.context == Rest(c).(element := c.context.element, incoming := c.context.incoming);
    }
  }

  /** And every command: the list is only looked at after an arrival. */
  lemma AlikeCommand(uid: Id, machine: Machine, d: Core, c: Core, command: Command, env: Env)
    requires Alike(machine, d, c)
    ensures HandleCommand(uid, machine, d, command, env) == HandleCommand(uid, machine, c, command, env)
  {
  }

  lemma AlikeTrans(machine: Machine, a: Core, b: Core, c: Core)
    requires Alike(machine, a, b) && Alike(machine, b, c)
    ensures Alike(machine, a, c)
  {
  }

  /** A fold from alike models, over events that are typed as theirs. */
  lemma {:induction false} AlikeFold(machine: Machine, d: Core, c: Core, log: seq<Stamped>)
    requires Alike(machine, d, c) && (Join(machine, d) ==> AllTyped(log, ParallelGateway))
    ensures Alike(machine, FoldCore(machine, d, log), FoldCore(machine, c, log))
    ensures !Join(machine, d) ==> FoldCore(machine, d, log) == FoldCore(machine, c, log)
  {
    if log != [] {
      var init, e := log[..|log|-1], log[|log|-1].event;
      assert log == init + [log[|log|-1]];
      AlikeFold(machine, d, c, init);
      AlikeEither(machine, FoldCore(machine, d, init), FoldCore(machine, c, init), e, Join(machine, d));
      hide HandleEvent, After, Alike;
    }
  }

  lemma AlikeEither(machine: Machine, d: Core, c: Core, e: Event, typed: bool)
    requires Alike(machine, d, c) && (typed ==> TypedAs(e, ParallelGateway)) && (!typed ==> d == c)
    ensures Alike(machine, After(machine, d, e), After(machine, c, e))
  {
    if typed {
      AlikeStep(machine, d, c, e);
    }
    hide After, HandleEvent;
  }
}
