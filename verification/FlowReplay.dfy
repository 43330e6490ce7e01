/** Replay agrees with the live run, and the stored snapshot with the stored log. */
module FlowReplay {
  import opened Wrappers
  import opened FlowTypes
  import opened FlowMachines
  import opened FlowSpec

  // ---- one model ----

  function After(machine: Machine, core: Core, e: Event): Core {
    match HandleEvent(machine, core, e)
    case NotHandled => core
    case Handled(next, _) => next
    case Threw(next) => next
  }

  /** The core a list of events leads to. */
  function FoldCore(machine: Machine, core: Core, events: seq<Stamped>): Core {
    if events == [] then core
    else After(machine, FoldCore(machine, core, events[..|events|-1]), events[|events|-1].event)
  }

  lemma {:induction false} FoldCoreConcat(machine: Machine, core: Core, a: seq<Stamped>, b: seq<Stamped>)
    ensures FoldCore(machine, core, a + b) == FoldCore(machine, FoldCore(machine, core, a), b)
  {
    if b == [] {
      assert a + b == a;
    } else {
      var last := |b| - 1;
      assert (a + b)[..|a + b| - 1] == a + b[..last];
      FoldCoreConcat(machine, core, a, b[..last]);
    }
  }

  /** A typed model has its element; a sequence keeps the element of its meta data and never gets a type. */
  ghost predicate Shaped(machine: Machine, meta: Meta, core: Core) {
    && (machine in {EventMachine, GatewayMachine, TaskMachine} && !core.typ.NoType? ==> core.context.element.Some?)
    && (machine.SequenceMachine? ==> core.typ.NoType? && core.context.element == meta.element)
  }

  /** Sequence models are only added together with their element (instance.js:169-173). */
  ghost predicate Grounded(machine: Machine, meta: Meta) {
    machine.SequenceMachine? ==> meta.element.Some?
  }

  /** Handlers keep the shape, and a handler of a grounded model never throws. */
  lemma HandlersKeepShape(machine: Machine, meta: Meta, core: Core, e: Event)
    requires Shaped(machine, meta, core)
    ensures Shaped(machine, meta, After(machine, core, e))
    ensures Grounded(machine, meta) ==> !HandleEvent(machine, core, e).Threw?
  {
    if !core.typ.NoType? {
      TypedKeepsShape(machine, meta, core, e);
    }
    hide TypeStateHandler;
  }

  lemma TypedKeepsShape(machine: Machine, meta: Meta, core: Core, e: Event)
    requires Shaped(machine, meta, core) && !core.typ.NoType?
    ensures var out := TypeStateHandler(machine, core, e);
      out.NotHandled? || (out.Handled? && Shaped(machine, meta, out.core))
  {
  }

  // ---- the log, grouped by model ----

  /** The events of one model, in order. */
  function EventsOf(uid: Id, events: seq<Stamped>): seq<Stamped> {
    if events == [] then [] else
    var last := events[|events|-1];
    EventsOf(uid, events[..|events|-1]) + if last.modelId == uid then [last] else []
  }

  lemma {:induction false} EventsOfConcat(uid: Id, a: seq<Stamped>, b: seq<Stamped>)
    ensures EventsOf(uid, a + b) == EventsOf(uid, a) + EventsOf(uid, b)
  {
    if b == [] {
      assert a + b == a;
    } else {
      var last := |b| - 1;
      assert (a + b)[..|a + b| - 1] == a + b[..last];
      EventsOfConcat(uid, a, b[..last]);
    }
  }

  ghost predicate Own(m: ModelValue, s: Stamped) {
    s.modelId == m.uid && s.machine == m.machine && s.meta == m.meta
  }

  ghost predicate AllOwn(m: ModelValue, events: seq<Stamped>) {
    forall s <- events :: Own(m, s)
  }

  lemma {:induction false} OwnEvents(m: ModelValue, uid: Id, events: seq<Stamped>)
    requires AllOwn(m, events)
    ensures EventsOf(uid, events) == if uid == m.uid then events else []
  {
    if events != [] {
      var last := |events| - 1;
      OwnEvents(m, uid, events[..last]);
      assert events == events[..last] + [events[last]] && Own(m, events[last]);
    }
  }

  ghost predicate Distinct(keys: seq<Id>) {
    forall i, j :: 0 <= i < j < |keys| ==> keys[i] != keys[j]
  }

  ghost predicate LogsOwned(repository: map<Id, ModelValue>) {
    forall k :: k in repository ==> repository[k].uid == k && AllOwn(repository[k], repository[k].localEvents)
  }

  /** Picking one model out of the grouped log gives back that model's own log. */
  lemma {:induction false} GroupedByModel(repository: map<Id, ModelValue>, keys: seq<Id>, uid: Id)
    requires LogsOwned(repository) && Distinct(keys)
    ensures EventsOf(uid, Grouped(repository, keys)) == if uid in keys then LocalEvents(repository, uid) else []
  {
    if keys != [] {
      hide *;
      ButLast(keys, uid);
      GroupedByModel(repository, keys[..|keys|-1], uid);
      LastGroup(repository, keys, uid);
    }
  }

  lemma LastGroup(repository: map<Id, ModelValue>, keys: seq<Id>, uid: Id)
    requires LogsOwned(repository) && keys != []
    ensures var before := EventsOf(uid, Grouped(repository, keys[..|keys|-1]));
      && (uid != keys[|keys|-1] ==> EventsOf(uid, Grouped(repository, keys)) == before)
      && (uid == keys[|keys|-1] && before == [] ==>
            EventsOf(uid, Grouped(repository, keys)) == LocalEvents(repository, uid))
  {
    OwnLocalEvents(repository, keys[|keys|-1], uid);
    GroupedMore(repository, keys);
    hide *;
    EventsOfConcat(uid, Grouped(repository, keys[..|keys|-1]), LocalEvents(repository, keys[|keys|-1]));
  }

  lemma ButLast(keys: seq<Id>, uid: Id)
    requires keys != [] && Distinct(keys)
    ensures var init, k := keys[..|keys|-1], keys[|keys|-1];
      Distinct(init) && k !in init && (uid in keys <==> uid in init || uid == k)
  {
    assert keys == keys[..|keys|-1] + [keys[|keys|-1]];
  }

  lemma OwnLocalEvents(repository: map<Id, ModelValue>, k: Id, uid: Id)
    requires LogsOwned(repository)
    ensures EventsOf(uid, LocalEvents(repository, k)) == if uid == k then LocalEvents(repository, k) else []
  {
    if k in repository {
      OwnEvents(repository[k], uid, repository[k].localEvents);
    }
  }

  // ---- what a run keeps ----

  ghost predicate KeysMatch(app: App) { forall k :: k in app.keys <==> k in app.repository }

  /** Every model of the repository stands where the events logged for it, before and in this run, lead to. */
  ghost predicate Tracks(app: App, past: seq<Stamped>) {
    && KeysMatch(app) && Distinct(app.keys) && LogsOwned(app.repository)
    && (forall s <- past :: s.modelId in app.repository && Own(app.repository[s.modelId], s))
    && forall k :: k in app.repository ==> ModelTracks(app.repository[k], past)
  }

  ghost predicate ModelTracks(m: ModelValue, past: seq<Stamped>) {
    && Shaped(m.machine, m.meta, m.core)
    && (Grounded(m.machine, m.meta) ==>
          m.core == FoldCore(m.machine, Birth(m.machine, m.meta), EventsOf(m.uid, past) + m.localEvents))
  }

  lemma NoEventsOf(uid: Id, events: seq<Stamped>)
    requires forall s <- events :: s.modelId != uid
    ensures EventsOf(uid, events) == []
  {
  }

  lemma AddTracks(app: App, past: seq<Stamped>, uid: Id, machine: Machine, meta: Meta)
    requires Tracks(app, past)
    ensures Tracks(AddModel(app, uid, machine, meta, None), past)
  {
    if uid !in app.repository {
      NoEventsOf(uid, past);
      NewTracks(uid, machine, meta, past);
    }
    hide ModelTracks, EventsOf, NewModel;
  }

  lemma NewTracks(uid: Id, machine: Machine, meta: Meta, past: seq<Stamped>)
    requires EventsOf(uid, past) == []
    ensures var m := NewModel(uid, machine, meta, None); ModelTracks(m, past) && m.uid == uid && m.localEvents == []
  {
    hide HandleEvent;
  }

  /** One event more: the core it leads to, and what is logged of it. */
  lemma AppliedOnce(m: ModelValue, s: Stamped)
    ensures var next := Apply(m, s);
      && next.core == After(m.machine, m.core, s.event)
      && next.localEvents
           == (if HandleEvent(m.machine, m.core, s.event).Handled? then m.localEvents + [s] else m.localEvents)
      && next.uid == m.uid && next.machine == m.machine && next.meta == m.meta
      && (HandleEvent(m.machine, m.core, s.event).NotHandled? ==> next == m)
  {
    hide HandleEvent;
  }

  lemma FoldOneMore(machine: Machine, birth: Core, log: seq<Stamped>, s: Stamped)
    ensures FoldCore(machine, birth, log + [s]) == After(machine, FoldCore(machine, birth, log), s.event)
  {
    hide After;
    assert (log + [s])[..|log|] == log;
  }

  lemma ApplyTracks(m: ModelValue, past: seq<Stamped>, s: Stamped)
    requires ModelTracks(m, past) && AllOwn(m, m.localEvents) && Own(m, s)
    ensures ModelTracks(Apply(m, s), past) && AllOwn(Apply(m, s), Apply(m, s).localEvents)
  {
    HandlersKeepShape(m.machine, m.meta, m.core, s.event);
    AppliedOnce(m, s);
    var log := EventsOf(m.uid, past) + m.localEvents;
    assert EventsOf(m.uid, past) + (m.localEvents + [s]) == log + [s];
    FoldOneMore(m.machine, Birth(m.machine, m.meta), log, s);
    hide HandleEvent, After, FoldCore, EventsOf, Apply, Shaped, Birth;
  }

  lemma StepTracks(app: App, past: seq<Stamped>, act: Act)
    requires Tracks(app, past)
    ensures Tracks(Step(app, act), past)
  {
    hide ModelTracks, HandleEvent, AllOwn;
    match act
    case Add(uid, machine, meta) => AddTracks(app, past, uid, machine, meta);
    case Raise(e) =>
      AddTracks(app, past, Target(e), MachineOf(e), EMPTY_META);
      var known := AddModel(app, Target(e), MachineOf(e), EMPTY_META, None);
      ApplyTracks(known.repository[Target(e)], past, Stamp(known.repository[Target(e)], e, known.clock));
  }

  lemma {:induction false} RunTracks(app: App, past: seq<Stamped>, acts: seq<Act>)
    requires Tracks(app, past)
    ensures Tracks(Run(app, acts), past)
  {
    if acts != [] {
      RunTracks(app, past, acts[..|acts|-1]);
      StepTracks(Run(app, acts[..|acts|-1]), past, acts[|acts|-1]);
    }
  }

  // ---- replay ----

  /** `back` stands where the events of this model lead to when its story starts at birth. */
  ghost predicate Rebuilt(back: ModelValue, m: ModelValue, events: seq<Stamped>) {
    && back.uid == m.uid && back.machine == m.machine && back.meta == m.meta
    && back.core == FoldCore(m.machine, Birth(m.machine, m.meta), EventsOf(m.uid, events))
  }

  /** Every model with an event is rebuilt, and so is every other model there is. */
  ghost predicate RebuiltAll(back: map<Id, ModelValue>, repository: map<Id, ModelValue>, events: seq<Stamped>) {
    && (forall s <- events :: s.modelId in back)
    && (forall k :: k in back ==> k in repository && Rebuilt(back[k], repository[k], events))
  }

  lemma OneMore(uid: Id, machine: Machine, core: Core, init: seq<Stamped>, log: seq<Stamped>, s: Stamped)
    ensures EventsOf(uid, init + [s]) == if s.modelId == uid then EventsOf(uid, init) + [s] else EventsOf(uid, init)
    ensures FoldCore(machine, core, log + [s]) == After(machine, FoldCore(machine, core, log), s.event)
  {
    hide After;
    assert (init + [s])[..|init|] == init && (log + [s])[..|log|] == log;
  }

  lemma RebuiltStep(back: ModelValue, m: ModelValue, init: seq<Stamped>, s: Stamped)
    requires Rebuilt(back, m, init)
    ensures s.modelId == m.uid ==> Rebuilt(Apply(back, s), m, init + [s])
    ensures s.modelId != m.uid ==> Rebuilt(back, m, init + [s])
  {
    OneMore(m.uid, m.machine, Birth(m.machine, m.meta), init, EventsOf(m.uid, init), s);
    hide EventsOf, FoldCore, HandleEvent;
  }

  lemma ReplayStepAt(app: App, m: ModelValue, init: seq<Stamped>, s: Stamped)
    requires m.uid in app.repository ==> Rebuilt(app.repository[m.uid], m, init)
    requires m.uid !in app.repository ==> forall x <- init :: x.modelId != m.uid
    requires s.modelId == m.uid ==> Own(m, s)
    requires m.uid in app.repository || s.modelId == m.uid
    ensures Rebuilt(ReplayEvent(app, map[], s).repository[m.uid], m, init + [s])
  {
    if m.uid !in app.repository {
      NoEventsOf(m.uid, init);
    }
    RebuiltStep(AddModel(app, s.modelId, s.machine, s.meta, None).repository[m.uid], m, init, s);
  }

  lemma ReplayStep(app: App, repository: map<Id, ModelValue>, init: seq<Stamped>, s: Stamped)
    requires RebuiltAll(app.repository, repository, init)
    requires s.modelId in repository && Own(repository[s.modelId], s)
    requires forall k :: k in repository ==> repository[k].uid == k
    ensures RebuiltAll(ReplayEvent(app, map[], s).repository, repository, init + [s])
  {
    var next := ReplayEvent(app, map[], s).repository;
    forall k | k in next
      ensures k in repository && Rebuilt(next[k], repository[k], init + [s])
    {
      ReplayStepAt(app, repository[k], init, s);
    }
    forall x | x in init + [s] ensures x.modelId in next {
      assert x in init || x == s;
    }
  }

  lemma NothingReplayed(repository: map<Id, ModelValue>)
    ensures RebuiltAll(NO_MODELS, repository, [])
  {
  }

  /** Replaying a log from nothing gives each model in it the core its own events lead to, in whatever way
      the events of different models are mixed. */
  lemma {:induction false} ReplayByModel(repository: map<Id, ModelValue>, events: seq<Stamped>, clock: nat)
    requires forall s <- events :: s.modelId in repository && Own(repository[s.modelId], s)
    requires forall k :: k in repository ==> repository[k].uid == k
    ensures RebuiltAll(Replay(App(NO_MODELS, [], clock), map[], events).repository, repository, events)
  {
    hide RebuiltAll, ReplayEvent;
    if events == [] {
      NothingReplayed(repository);
    } else {
      var init, s := events[..|events|-1], events[|events|-1];
      ReplayByModel(repository, init, clock);
      assert events == init + [s] && s in events;
      ReplayStep(Replay(App(NO_MODELS, [], clock), map[], init), repository, init, s);
    }
  }

  // ---- commands are runs ----

  lemma RunConcat(app: App, acts: seq<Act>, act: Act)
    ensures Run(app, acts + [act]) == Step(Run(app, acts), act)
  {
    assert (acts + [act])[..|acts|] == acts;
  }

  lemma EmitIsStep(app: App, r: Ran, e: Event)
    requires r.model.uid in app.repository && app.repository[r.model.uid] == r.model && app.clock == r.clock
      && Target(e) == r.model.uid
    ensures Step(app, Raise(e))
      == App(app.repository[r.model.uid := EmitFrom(r, e).model], app.keys, EmitFrom(r, e).clock)
    ensures EmitFrom(r, e).model.uid == r.model.uid
  {
    hide HandleEvent;
  }

  /** The event an action emits for the model itself. */
  function OwnEmit(r: Ran, action: Action): Option<Event> {
    var ctx := r.model.core.context;
    if action.Emit? && Target(action.event) == r.model.uid then Some(action.event)
    else if action.JoinCheck? && ctx.element.Some? && |ctx.incoming| == |ctx.element.value.incoming|
      && ctx.element.value.id == r.model.uid
    then Some(GatewayCompleted(ctx.element.value.id)) else None
  }

  lemma OtherwiseSame(r: Ran, action: Action)
    ensures OwnEmit(r, action).Some? ==> Perform(r, action) == EmitFrom(r, OwnEmit(r, action).value)
    ensures OwnEmit(r, action).Some? ==> Target(OwnEmit(r, action).value) == r.model.uid
    ensures OwnEmit(r, action).None? ==> Perform(r, action).model == r.model && Perform(r, action).clock == r.clock
  {
    hide Apply, Issued, HandleEvent;
  }

  /** The actions say the event, or check a join, which may complete a gateway. */
  ghost predicate EmittedBy(e: Event, actions: seq<Action>) {
    Emit(e) in actions || (JoinCheck in actions && e.GatewayCompleted?)
  }

  lemma {:induction false} OthersEmitted(r: Ran, actions: seq<Action>)
    ensures forall e <- PerformAll(r, actions).others :: e in r.others || EmittedBy(e, actions)
  {
    if actions != [] {
      var init, action := actions[..|actions|-1], actions[|actions|-1];
      OthersEmitted(r, init);
      var before := PerformAll(r, init);
      PerformOthers(before, action);
      assert PerformAll(r, actions) == Perform(before, action);
      hide PerformAll, Perform, EmittedBy;
      forall e | e in Perform(before, action).others ensures e in r.others || EmittedBy(e, actions) {
        if e !in before.others || EmittedBy(e, init) {
          EmittedMore(e, actions);
        }
      }
    }
  }

  lemma PerformOthers(r: Ran, action: Action)
    ensures forall e <- Perform(r, action).others :: e in r.others || EmittedBy(e, [action])
  {
    hide Apply, Issued, HandleEvent;
  }

  lemma EmittedMore(e: Event, actions: seq<Action>)
    requires actions != []
    requires EmittedBy(e, actions[..|actions|-1]) || EmittedBy(e, [actions[|actions|-1]])
    ensures EmittedBy(e, actions)
  {
    assert actions == actions[..|actions|-1] + [actions[|actions|-1]];
  }

  lemma {:induction false} PerformIsRun(app: App, r: Ran, actions: seq<Action>) returns (acts: seq<Act>)
    requires r.model.uid in app.repository && app.repository[r.model.uid] == r.model && app.clock == r.clock
    ensures var done := PerformAll(r, actions);
      && done.model.uid == r.model.uid
      && Run(app, acts) == App(app.repository[r.model.uid := done.model], app.keys, done.clock)
    ensures forall a <- acts :: a.Raise? && EmittedBy(a.event, actions)
  {
    if actions == [] {
      acts := [];
      assert app.repository[r.model.uid := r.model] == app.repository;
    } else {
      var action := actions[|actions|-1];
      acts := PerformIsRun(app, r, actions[..|actions|-1]);
      assert actions == actions[..|actions|-1] + [action];
      var before := PerformAll(r, actions[..|actions|-1]);
      var e := OwnEmit(before, action);
      OtherwiseSame(before, action);
      assert e.Some? ==> EmittedBy(e.value, [action]);
      hide Perform, EmitFrom, Step, Run, OwnEmit, HandleEvent;
      if e.Some? {
        EmitIsStep(Run(app, acts), before, e.value);
        RunConcat(app, acts, Raise(e.value));
        acts := acts + [Raise(e.value)];
      }
    }
  }

  lemma {:induction false} EmitAllIsRun(app: App, acts: seq<Act>, events: seq<Event>) returns (all: seq<Act>)
    ensures Run(app, all) == EmitAll(Run(app, acts), events)
    ensures forall a <- all :: a in acts || (a.Raise? && a.event in events)
  {
    if events == [] {
      all := acts;
    } else {
      all := EmitAllIsRun(app, acts, events[..|events|-1]);
      assert events == events[..|events|-1] + [events[|events|-1]];
      RunConcat(app, all, Raise(events[|events|-1]));
      all := all + [Raise(events[|events|-1])];
    }
  }

  lemma {:induction false} RunsCompose(app: App, a: seq<Act>, b: seq<Act>)
    ensures Run(app, a + b) == Run(Run(app, a), b)
  {
    if b == [] {
      assert a + b == a;
    } else {
      assert a + b == (a + b[..|b|-1]) + [b[|b|-1]];
      RunConcat(app, a + b[..|b|-1], b[|b|-1]);
      RunsCompose(app, a, b[..|b|-1]);
    }
  }

  /** What the handler of the command does, if there is one. */
  function ActionsOf(app: App, c: Call): seq<Action> {
    var m := AddModel(app, c.uid, c.machine, c.meta, None).repository[c.uid];
    var actions := HandleCommand(c.uid, m.machine, m.core, c.command, c.env);
    if actions.Some? then actions.value else []
  }

  /** Whatever command is executed, on whatever model: what it does to the application is a run, so the theorems
      about runs hold for every sequence of commands. After the model is there, the run raises what the handler of
      the command emits. */
  lemma ExecutedIsRun(app: App, c: Call) returns (acts: seq<Act>)
    requires forall k :: k in app.repository ==> app.repository[k].uid == k
    ensures Run(app, acts) == Executed(app, c)
    ensures acts != [] && acts[0] == Add(c.uid, c.machine, c.meta)
    ensures forall a <- acts[1..] :: a.Raise? && EmittedBy(a.event, ActionsOf(app, c))
  {
    var first := Add(c.uid, c.machine, c.meta);
    var known := Step(app, first);
    var raised := HandledIsRun(known, c.uid, c.command, c.env);
    assert Run(known, raised) == Executed(app, c);
    assert forall a <- raised :: a.Raise? && EmittedBy(a.event, ActionsOf(app, c));
    hide Executed, ActionsOf, EmittedBy, Step, HandleCommand, Run;
    StepThenRun(app, first, raised);
    acts := [first] + raised;
    assert acts[1..] == raised;
  }

  /** A command handler, once its model is there. */
  lemma HandledIsRun(known: App, uid: Id, c: Command, env: Env) returns (acts: seq<Act>)
    requires uid in known.repository && known.repository[uid].uid == uid
    ensures var r := Dispatch(known.repository[uid], c, env, known.clock);
      Run(known, acts) == EmitAll(App(known.repository[uid := r.model], known.keys, r.clock), r.others)
    ensures var m := known.repository[uid];
      var actions := HandleCommand(uid, m.machine, m.core, c, env);
      forall a <- acts :: a.Raise? && EmittedBy(a.event, if actions.Some? then actions.value else [])
  {
    hide HandleCommand, HandleEvent, PerformAll, EmitAll, Run;
    var m := known.repository[uid];
    var found := HandleCommand(uid, m.machine, m.core, c, env);
    var actions := if found.Some? then found.value else [];
    var start := Ran(m, [], [], [], known.clock);
    OthersEmitted(start, actions);
    var own := PerformIsRun(known, start, actions);
    acts := EmitAllIsRun(known, own, PerformAll(start, actions).others);
  }

  lemma StepThenRun(app: App, first: Act, rest: seq<Act>)
    ensures Run(app, [first] + rest) == Run(Step(app, first), rest)
  {
    RunsCompose(app, [first], rest);
    RunConcat(app, [], first);
    assert [] + [first] == [first];
    hide Step;
  }

  lemma RunKeepsIds(app: App, acts: seq<Act>)
    requires forall k :: k in app.repository ==> app.repository[k].uid == k
    ensures forall k :: k in Run(app, acts).repository ==> Run(app, acts).repository[k].uid == k
  {
    if acts != [] {
      RunKeepsIds(app, acts[..|acts|-1]);
      hide HandleEvent;
    }
  }

  lemma MovedIsRun(app: App, move: Move) returns (acts: seq<Act>)
    requires forall k :: k in app.repository ==> app.repository[k].uid == k
    ensures Run(app, acts) == Moved(app, move)
  {
    match move
    case Routed(call) => acts := ExecutedIsRun(app, call);
    case Outside(act) =>
      RunConcat(app, [], act);
      assert [] + [act] == [act];
      acts := [act];
  }

  /** Any sequence of commands, with anything the instance machine does in between, is a run. */
  lemma {:induction false} ExecutedAllIsRun(app: App, moves: seq<Move>) returns (acts: seq<Act>)
    requires forall k :: k in app.repository ==> app.repository[k].uid == k
    ensures Run(app, acts) == ExecutedAll(app, moves)
  {
    if moves == [] {
      acts := [];
    } else {
      acts := ExecutedAllIsRun(app, moves[..|moves|-1]);
      RunKeepsIds(app, acts);
      hide Run, Moved;
      var more := MovedIsRun(Run(app, acts), moves[|moves|-1]);
      RunsCompose(app, acts, more);
      acts := acts + more;
    }
  }

  // ---- theorem: replay of the grouped log ----

  ghost predicate Enumerates(order: seq<Id>, repository: map<Id, ModelValue>) {
    Distinct(order) && forall k :: k in order <==> k in repository
  }

  lemma {:induction false} GroupedOwned(repository: map<Id, ModelValue>, keys: seq<Id>)
    requires LogsOwned(repository)
    ensures forall s <- Grouped(repository, keys) :: s.modelId in repository && Own(repository[s.modelId], s)
  {
    if keys != [] {
      GroupedOwned(repository, keys[..|keys|-1]);
    }
  }

  lemma {:induction false} NoEventsMeansAbsent(uid: Id, events: seq<Stamped>)
    ensures EventsOf(uid, events) == [] <==> forall s <- events :: s.modelId != uid
  {
    if events != [] {
      NoEventsMeansAbsent(uid, events[..|events|-1]);
      assert events == events[..|events|-1] + [events[|events|-1]];
    }
  }

  /** Whatever a run does, and in whatever order its models are listed when the log is grouped: replaying the log
      rebuilds exactly the models that logged an event, each from its own events. */
  lemma ReplayRebuilds(acts: seq<Act>, order: seq<Id>)
    requires Enumerates(order, Run(App(NO_MODELS, [], 0), acts).repository)
    ensures var live := Run(App(NO_MODELS, [], 0), acts).repository;
      var back := Replay(App(NO_MODELS, [], 0), map[], Grouped(live, order)).repository;
      && (forall k :: k in back <==> k in live && live[k].localEvents != [])
      && forall k :: k in back ==>
           SnapOf(back[k]) == Snap(FoldCore(live[k].machine, Birth(live[k].machine, live[k].meta), live[k].localEvents),
                                   live[k].machine, live[k].meta)
  {
    hide Run, Replay, FoldCore, HandleEvent, EventsOf;
    var start := App(NO_MODELS, [], 0);
    StartTracks();
    RunTracks(start, [], acts);
    var live := Run(start, acts).repository;
    var log := Grouped(live, order);
    GroupedOwned(live, order);
    ReplayByModel(live, log, 0);
    var back := Replay(start, map[], log).repository;
    forall k | k in live
      ensures EventsOf(k, log) == live[k].localEvents
      ensures live[k].localEvents != [] ==> k in back
    {
      GroupedByModel(live, order, k);
      NoEventsMeansAbsent(k, log);
    }
    OnlyLogged(start, log);
    forall k | k in back ensures live[k].localEvents != [] {
      NoEventsMeansAbsent(k, log);
    }
  }

  /** Replay gives every model that logged an event the state, type and context of the live run, if it is not a
      sequence without its element. */
  lemma ReplayAgreesWithRun(acts: seq<Act>, order: seq<Id>)
    requires Enumerates(order, Run(App(NO_MODELS, [], 0), acts).repository)
    ensures var live := Run(App(NO_MODELS, [], 0), acts).repository;
      var back := Replay(App(NO_MODELS, [], 0), map[], Grouped(live, order)).repository;
      && (forall k :: k in back ==> k in live && live[k].localEvents != [])
      && forall k :: k in live && live[k].localEvents != [] ==>
           k in back && (Grounded(live[k].machine, live[k].meta) ==> SnapOf(back[k]) == SnapOf(live[k]))
  {
    ReplayRebuilds(acts, order);
    hide Run, Replay, FoldCore, HandleEvent, Birth;
    StartTracks();
    RunTracks(App(NO_MODELS, [], 0), [], acts);
    var live := Run(App(NO_MODELS, [], 0), acts).repository;
    forall k | k in live && Grounded(live[k].machine, live[k].meta)
      ensures live[k].core == FoldCore(live[k].machine, Birth(live[k].machine, live[k].meta), live[k].localEvents)
    {
      assert ModelTracks(live[k], []);
      assert [] + live[k].localEvents == live[k].localEvents;
    }
    hide EventsOf, Grouped;
  }

  lemma StartTracks()
    ensures Tracks(App(NO_MODELS, [], 0), []) && forall uid :: EventsOf(uid, []) == []
  {
  }

  /** Replay adds no model without an event. */
  lemma {:induction false} OnlyLogged(app: App, events: seq<Stamped>)
    ensures forall k :: k in Replay(app, map[], events).repository ==>
      k in app.repository || exists s <- events :: s.modelId == k
  {
    if events != [] {
      var init, s := events[..|events|-1], events[|events|-1];
      OnlyLogged(app, init);
      assert forall x <- init :: x in events;
      assert s in events;
    }
  }

  /** A sequence without its element logs its activations and throws on completion: it is idle or active, but its
      log only says that it was active. */
  ghost predicate UngroundedShape(m: ModelValue) {
    !Grounded(m.machine, m.meta) ==>
      var birth := Birth(m.machine, m.meta);
      && (m.core == birth || m.core == birth.(state := Active))
      && (m.core.state.Active? ==> m.localEvents != [])
      && forall s <- m.localEvents :: s.event.SequenceActivated?
  }

  lemma ApplyUngrounded(m: ModelValue, s: Stamped)
    requires UngroundedShape(m)
    ensures UngroundedShape(Apply(m, s))
  {
    if !Grounded(m.machine, m.meta) {
      var birth := Birth(m.machine, m.meta);
      assert birth.(state := Active).(state := Idle) == birth;
    } else {
      AppliedOnce(m, s);
      hide HandleEvent;
    }
  }

  ghost predicate AllUngrounded(repository: map<Id, ModelValue>) {
    forall k :: k in repository ==> UngroundedShape(repository[k])
  }

  lemma UngroundedStep(app: App, act: Act)
    requires AllUngrounded(app.repository)
    ensures AllUngrounded(Step(app, act).repository)
  {
    hide UngroundedShape, Apply, NewModel;
    match act
    case Add(uid, machine, meta) => NewUngrounded(uid, machine, meta);
    case Raise(e) =>
      var uid := Target(e);
      NewUngrounded(uid, MachineOf(e), EMPTY_META);
      var known := AddModel(app, uid, MachineOf(e), EMPTY_META, None);
      assert uid in app.repository ==> UngroundedShape(app.repository[uid]);
      assert AllUngrounded(known.repository);
      ApplyUngrounded(known.repository[uid], Stamp(known.repository[uid], e, known.clock));
  }

  lemma {:induction false} UngroundedRun(acts: seq<Act>)
    ensures AllUngrounded(Run(App(NO_MODELS, [], 0), acts).repository)
  {
    if acts != [] {
      UngroundedRun(acts[..|acts|-1]);
      hide AllUngrounded, Step;
      UngroundedStep(Run(App(NO_MODELS, [], 0), acts[..|acts|-1]), acts[|acts|-1]);
    }
  }

  lemma NewUngrounded(uid: Id, machine: Machine, meta: Meta)
    ensures UngroundedShape(NewModel(uid, machine, meta, None))
  {
  }

  lemma {:induction false} UngroundedFold(meta: Meta, log: seq<Stamped>)
    requires meta.element.None? && forall s <- log :: s.event.SequenceActivated?
    ensures var birth := Birth(SequenceMachine, meta);
      FoldCore(SequenceMachine, birth, log) == if log == [] then birth else birth.(state := Active)
  {
    if log != [] {
      UngroundedFold(meta, log[..|log|-1]);
      assert log[|log|-1] in log;
    }
  }

  /** The last activation or completion raised for a sequence is an activation. */
  predicate EndsActivated(acts: seq<Act>, k: Id) {
    acts != [] &&
    match acts[|acts|-1]
    case Raise(SequenceActivated(id)) => id == k || EndsActivated(acts[..|acts|-1], k)
    case Raise(SequenceCompleted(id)) => id != k && EndsActivated(acts[..|acts|-1], k)
    case _ => EndsActivated(acts[..|acts|-1], k)
  }

  /** The model is active as said, if it is a sequence without its element; one that is not there yet is not. */
  ghost predicate ActiveIff(app: App, k: Id, active: bool) {
    if k in app.repository then
      var m := app.repository[k];
      !Grounded(m.machine, m.meta) ==> (m.core.state.Active? <==> active)
    else !active
  }

  /** A sequence without its element is active exactly if the last that was raised for it is an activation. */
  lemma {:induction false} UngroundedActiveIff(acts: seq<Act>, k: Id)
    ensures ActiveIff(Run(App(NO_MODELS, [], 0), acts), k, EndsActivated(acts, k))
  {
    if acts != [] {
      var init, act := acts[..|acts|-1], acts[|acts|-1];
      UngroundedActiveIff(init, k);
      UngroundedRun(init);
      ActiveStep(Run(App(NO_MODELS, [], 0), init), act, k, EndsActivated(init, k));
      hide Step;
    }
  }

  lemma ActiveStep(app: App, act: Act, k: Id, active: bool)
    requires AllUngrounded(app.repository) && ActiveIff(app, k, active)
    ensures ActiveIff(Step(app, act), k,
      if act == Raise(SequenceActivated(k)) then true else if act == Raise(SequenceCompleted(k)) then false else active)
  {
    match act
    case Add(_, _, _) =>
    case Raise(e) =>
      if Target(e) == k {
        var known := AddModel(app, k, MachineOf(e), EMPTY_META, None);
        NewUngrounded(k, MachineOf(e), EMPTY_META);
        assert k in app.repository ==> UngroundedShape(app.repository[k]);
        ActiveApplied(known.repository[k], Stamp(known.repository[k], e, known.clock));
        hide UngroundedShape, Apply;
      }
  }

  lemma ActiveApplied(m: ModelValue, s: Stamped)
    requires UngroundedShape(m)
    ensures Apply(m, s).machine == m.machine && Apply(m, s).meta == m.meta
    ensures !Grounded(m.machine, m.meta) ==>
      (Apply(m, s).core.state.Active? <==>
        s.event.SequenceActivated? || (m.core.state.Active? && !s.event.SequenceCompleted?))
  {
    AppliedOnce(m, s);
    if Grounded(m.machine, m.meta) {
      hide HandleEvent;
    }
  }

  /** For every model that logged an event: replay agrees with the live run exactly if the model is not a sequence
      without its element, or the last event raised for it is an activation. */
  lemma ReplayAgreesIff(acts: seq<Act>, order: seq<Id>, k: Id)
    requires Enumerates(order, Run(App(NO_MODELS, [], 0), acts).repository)
    requires var live := Run(App(NO_MODELS, [], 0), acts).repository; k in live && live[k].localEvents != []
    ensures var live := Run(App(NO_MODELS, [], 0), acts).repository;
      var back := Replay(App(NO_MODELS, [], 0), map[], Grouped(live, order)).repository;
      && k in back
      && (SnapOf(back[k]) == SnapOf(live[k]) <==>
            Grounded(live[k].machine, live[k].meta) || EndsActivated(acts, k))
  {
    ReplayRebuilds(acts, order);
    ReplayAgreesWithRun(acts, order);
    UngroundedRun(acts);
    UngroundedActiveIff(acts, k);
    hide Run, Replay, Grouped, FoldCore, HandleEvent;
    var live := Run(App(NO_MODELS, [], 0), acts).repository;
    if !Grounded(live[k].machine, live[k].meta) {
      assert UngroundedShape(live[k]);
      UngroundedFold(live[k].meta, live[k].localEvents);
    }
  }

  lemma ThreeSteps(app: App, a: Act, b: Act, c: Act)
    ensures Run(app, [a, b, c]) == Step(Step(Step(app, a), b), c)
  {
    hide Step;
    RunConcat(app, [], a);
    RunConcat(app, [a], b);
    RunConcat(app, [a, b], c);
    assert [] + [a] == [a] && [a] + [b] == [a, b] && [a, b] + [c] == [a, b, c];
  }

  /** It can end idle: activated and completed without its element. */
  lemma UngroundedCanEndIdle(k: Id)
    ensures var acts := [Add(k, SequenceMachine, EMPTY_META), Raise(SequenceActivated(k)), Raise(SequenceCompleted(k))];
      var live := Run(App(NO_MODELS, [], 0), acts).repository;
      k in live && live[k].localEvents != [] && !Grounded(live[k].machine, live[k].meta) && live[k].core.state.Idle?
  {
    var start := App(NO_MODELS, [], 0);
    ThreeSteps(start, Add(k, SequenceMachine, EMPTY_META), Raise(SequenceActivated(k)), Raise(SequenceCompleted(k)));
    UngroundedHandlers(k);
    hide Run, HandleEvent, Birth;
    var birth := Birth(SequenceMachine, EMPTY_META);
    var m := ModelValue(k, SequenceMachine, EMPTY_META, birth, []);
    var one := Step(start, Add(k, SequenceMachine, EMPTY_META));
    assert one == App(map[k := m], [k], 0);
    var active := m.(core := birth.(state := Active), localEvents := [Stamp(m, SequenceActivated(k), 0)]);
    assert [] + [Stamp(m, SequenceActivated(k), 0)] == [Stamp(m, SequenceActivated(k), 0)];
    assert Apply(m, Stamp(m, SequenceActivated(k), 0)) == active;
    var two := Step(one, Raise(SequenceActivated(k)));
    assert two == App(map[k := active], [k], 1);
    assert Apply(active, Stamp(active, SequenceCompleted(k), 1)) == active.(core := birth);
    hide Apply;
    assert Step(two, Raise(SequenceCompleted(k))).repository[k] == active.(core := birth);
  }

  lemma UngroundedHandlers(k: Id)
    ensures var birth := Birth(SequenceMachine, EMPTY_META);
      && birth.state.Idle?
      && HandleEvent(SequenceMachine, birth, SequenceActivated(k)) == Handled(birth.(state := Active), [])
      && HandleEvent(SequenceMachine, birth.(state := Active), SequenceCompleted(k)) == Threw(birth)
  {
    var birth := Birth(SequenceMachine, EMPTY_META);
    assert birth.(state := Active).(state := Idle) == birth;
  }

  // ---- theorem: cycles ----

  ghost predicate DistinctStamps(events: seq<Stamped>, lo: nat, hi: nat) {
    && (forall s <- events :: lo <= s.timeuuid < hi)
    && forall i, j :: 0 <= i < j < |events| ==> events[i].timeuuid != events[j].timeuuid
  }

  /** What holds of the stored row between cycles. */
  ghost predicate Stored(row: Row, clock: nat) {
    && Distinct(row.order) && (forall k :: k in row.order <==> k in row.snapshot)
    && LogKnown(row) && DistinctStamps(row.events, 0, clock)
    && row.timeuuid == LastStamp(row.events)
    && SnapsTrack(row)
  }

  ghost predicate LogKnown(row: Row) {
    forall s <- row.events :: s.modelId in row.snapshot && s.machine == row.snapshot[s.modelId].machine
      && s.meta == row.snapshot[s.modelId].meta
  }

  ghost predicate SnapsTrack(row: Row) {
    forall k :: k in row.snapshot ==> SnapTracks(k, row.snapshot[k], row.events)
  }

  function LastStamp(events: seq<Stamped>): Option<nat> {
    if events == [] then None else Some(events[|events|-1].timeuuid)
  }

  /** The snapshot entry is what the events of its model, from the very first on, lead to. */
  ghost predicate SnapTracks(k: Id, snap: Snap, events: seq<Stamped>) {
    && Shaped(snap.machine, snap.meta, snap.core)
    && (Grounded(snap.machine, snap.meta) ==>
          snap.core == FoldCore(snap.machine, Birth(snap.machine, snap.meta), EventsOf(k, events)))
  }

  ghost predicate StoredWorld(w: World) {
    w.store.Some? ==> Stored(w.store.value, w.clock)
  }

  /** The end of the log is found at its end. */
  lemma LastFound(events: seq<Stamped>, more: seq<Stamped>, hi: nat)
    requires DistinctStamps(events + more, 0, hi)
    ensures IndexOf(events + more, LastStamp(events)) == |events| - 1
  {
    var all := events + more;
    var i := IndexOf(all, LastStamp(events));
    if events != [] {
      assert all[|events|-1] == events[|events|-1];
      assert i >= 0;
    }
  }

  lemma TailIsEmpty(row: Row, clock: nat)
    requires Stored(row, clock)
    ensures GetApp(Some(row), false).events == []
  {
    hide IndexOf, DistinctStamps, LogKnown, SnapsTrack, Distinct, LastStamp;
    assert row.events + [] == row.events;
    LastFound(row.events, [], clock);
  }

  lemma {:induction false} RestoredModels(order: seq<Id>, snapshot: map<Id, Snap>, clock: nat)
    requires Distinct(order) && forall k <- order :: k in snapshot
    ensures var app := RestoreModels(order, snapshot, clock);
      && app.keys == order && app.clock == clock && (forall k :: k in order <==> k in app.repository)
      && forall k <- order :: app.repository[k] == NewModel(k, snapshot[k].machine, snapshot[k].meta, Some(snapshot[k]))
  {
    if order != [] {
      var last := |order| - 1;
      RestoredModels(order[..last], snapshot, clock);
      assert order == order[..last] + [order[last]];
    }
  }

  lemma LoadedModel(k: Id, snap: Snap, events: seq<Stamped>)
    requires SnapTracks(k, snap, events)
    ensures NewModel(k, snap.machine, snap.meta, Some(snap)) == ModelValue(k, snap.machine, snap.meta, snap.core, [])
    ensures ModelTracks(ModelValue(k, snap.machine, snap.meta, snap.core, []), events)
  {
    hide FoldCore;
    assert EventsOf(k, events) + [] == EventsOf(k, events);
  }

  /** The models of the row, each as it was stored. */
  ghost predicate ModelsOf(row: Row, app: App) {
    && app.keys == row.order && (forall k :: k in app.repository <==> k in row.snapshot)
    && forall k :: k in app.repository ==>
         app.repository[k] == ModelValue(k, row.snapshot[k].machine, row.snapshot[k].meta, row.snapshot[k].core, [])
  }

  lemma LoadIsRestore(row: Row, clock: nat)
    requires Stored(row, clock)
    ensures var app := Load(Some(row), clock);
      GetApp(Some(row), false).events == [] && app.clock == clock && ModelsOf(row, app)
  {
    TailIsEmpty(row, clock);
    assert Load(Some(row), clock) == RestoreModels(row.order, row.snapshot, clock);
    hide RestoreModels, Load, GetApp;
    RestoredModels(row.order, row.snapshot, clock);
    RestoredAsStored(row, RestoreModels(row.order, row.snapshot, clock));
  }

  lemma RestoredAsStored(row: Row, app: App)
    requires SnapsTrack(row) && app.keys == row.order && (forall k :: k in app.repository <==> k in row.snapshot)
    requires forall k :: k in row.snapshot ==>
      app.repository[k] == NewModel(k, row.snapshot[k].machine, row.snapshot[k].meta, Some(row.snapshot[k]))
    ensures ModelsOf(row, app)
  {
    hide NewModel, SnapTracks;
    forall k | k in row.snapshot
      ensures NewModel(k, row.snapshot[k].machine, row.snapshot[k].meta, Some(row.snapshot[k]))
        == ModelValue(k, row.snapshot[k].machine, row.snapshot[k].meta, row.snapshot[k].core, [])
    {
      LoadedModel(k, row.snapshot[k], row.events);
    }
  }

  lemma StoredModelsTrack(row: Row, app: App, clock: nat)
    requires Stored(row, clock) && ModelsOf(row, app)
    ensures Tracks(app, row.events)
  {
    hide ModelTracks, SnapTracks, DistinctStamps;
    forall k | k in app.repository ensures ModelTracks(app.repository[k], row.events) {
      LoadedModel(k, row.snapshot[k], row.events);
    }
  }

  /** Loading gives back exactly the persisted models, with an empty tail and no local events. */
  lemma LoadGivesBackModels(row: Row, clock: nat)
    requires Stored(row, clock)
    ensures var app := Load(Some(row), clock);
      && GetApp(Some(row), false).events == []
      && app.keys == row.order && app.clock == clock && Tracks(app, row.events)
      && (forall k :: k in app.repository <==> k in row.snapshot)
      && forall k :: k in app.repository ==>
           app.repository[k] ==
           ModelValue(k, row.snapshot[k].machine, row.snapshot[k].meta, row.snapshot[k].core, [])
  {
    LoadIsRestore(row, clock);
    StoredModelsTrack(row, Load(Some(row), clock), clock);
    hide Stored, Tracks, Load, GetApp;
  }

  lemma GroupedMore(repository: map<Id, ModelValue>, keys: seq<Id>)
    requires keys != []
    ensures Grouped(repository, keys) == Grouped(repository, keys[..|keys|-1]) + LocalEvents(repository, keys[|keys|-1])
  {
  }

  lemma {:induction false} GroupedWithout(repository: map<Id, ModelValue>, keys: seq<Id>, m: ModelValue)
    requires m.uid !in keys
    ensures Grouped(repository[m.uid := m], keys) == Grouped(repository, keys)
  {
    if keys != [] {
      GroupedWithout(repository, keys[..|keys|-1], m);
    }
  }

  /** Changing the local events of one model inserts the new ones into its group. */
  lemma {:induction false} GroupedInsert(repository: map<Id, ModelValue>, keys: seq<Id>, m: ModelValue,
      more: seq<Stamped>)
      returns (before: seq<Stamped>, after: seq<Stamped>)
    requires Distinct(keys)
    requires m.localEvents == LocalEvents(repository, m.uid) + more
    ensures Grouped(repository, keys) == before + after
    ensures Grouped(repository[m.uid := m], keys) == before + (if m.uid in keys then more else []) + after
  {
    if m.uid !in keys {
      GroupedWithout(repository, keys, m);
      before, after := Grouped(repository, keys), [];
    } else {
      var last := |keys| - 1;
      var k := keys[last];
      GroupedMore(repository, keys);
      GroupedMore(repository[m.uid := m], keys);
      hide Grouped;
      if k == m.uid {
        GroupedWithout(repository, keys[..last], m);
        before, after := Grouped(repository, keys), [];
        Reassociate(Grouped(repository, keys[..last]), LocalEvents(repository, k), more, []);
      } else {
        before, after := GroupedInsert(repository, keys[..last], m, more);
        Reassociate(before, more, after, LocalEvents(repository, k));
        after := after + LocalEvents(repository, k);
      }
    }
  }

  lemma Reassociate(a: seq<Stamped>, b: seq<Stamped>, c: seq<Stamped>, d: seq<Stamped>)
    ensures a + b + c + d == a + b + (c + d) && a + (b + c) + d == a + b + c + d && (a + c) + d == a + (c + d)
  {
  }

  lemma AddKeepsGroups(app: App, uid: Id, machine: Machine, meta: Meta)
    requires KeysMatch(app) && Distinct(app.keys)
    ensures var next := AddModel(app, uid, machine, meta, None);
      Grouped(next.repository, next.keys) == Grouped(app.repository, app.keys)
  {
    if uid !in app.repository {
      var m := NewModel(uid, machine, meta, None);
      var before, after := GroupedInsert(app.repository, app.keys, m, []);
      assert (app.keys + [uid])[..|app.keys|] == app.keys;
      assert before + [] + after == before + after;
    }
  }

  lemma StepStamps(app: App, past: seq<Stamped>, lo: nat, act: Act)
    requires Tracks(app, past) && lo <= app.clock
    requires DistinctStamps(Grouped(app.repository, app.keys), lo, app.clock)
    ensures var next := Step(app, act);
      lo <= next.clock && DistinctStamps(Grouped(next.repository, next.keys), lo, next.clock)
  {
    hide HandleEvent, ModelTracks, DistinctStamps, Grouped, AllOwn;
    match act
    case Add(uid, machine, meta) => AddKeepsGroups(app, uid, machine, meta);
    case Raise(e) =>
      var uid := Target(e);
      AddTracks(app, past, uid, MachineOf(e), EMPTY_META);
      AddKeepsGroups(app, uid, MachineOf(e), EMPTY_META);
      var known := AddModel(app, uid, MachineOf(e), EMPTY_META, None);
      var m := known.repository[uid];
      var s := Stamp(m, e, known.clock);
      var more := if HandleEvent(m.machine, m.core, e).Handled? then [s] else [];
      assert Apply(m, s).localEvents == m.localEvents + more;
      var before, after := GroupedInsert(known.repository, known.keys, Apply(m, s), more);
      InsertStamp(before, after, more, lo, known.clock);
  }

  lemma InsertStamp(before: seq<Stamped>, after: seq<Stamped>, more: seq<Stamped>, lo: nat, clock: nat)
    requires DistinctStamps(before + after, lo, clock) && lo <= clock
    requires |more| <= 1 && forall s <- more :: s.timeuuid == clock
    ensures DistinctStamps(before + more + after, lo, clock + 1)
  {
    var was, now := before + after, before + more + after;
    forall s | s in now ensures lo <= s.timeuuid < clock + 1 {
      assert s in was || s in more;
    }
    forall i, j | 0 <= i < j < |now| ensures now[i].timeuuid != now[j].timeuuid {
      var i', j' := if i < |before| then i else i - |more|, if j < |before| then j else j - |more|;
      if |before| <= i < |before| + |more| {
        assert now[j] == was[j'] && was[j'] in was;
      } else if |before| <= j < |before| + |more| {
        assert now[i] == was[i] && was[i] in was;
      } else {
        assert now[i] == was[i'] && now[j] == was[j'];
      }
    }
  }

  lemma {:induction false} RunStamps(app: App, past: seq<Stamped>, acts: seq<Act>, lo: nat)
    requires Tracks(app, past) && lo <= app.clock && DistinctStamps(Grouped(app.repository, app.keys), lo, app.clock)
    ensures var end := Run(app, acts);
      lo <= end.clock && DistinctStamps(Grouped(end.repository, end.keys), lo, end.clock)
  {
    if acts != [] {
      RunStamps(app, past, acts[..|acts|-1], lo);
      RunTracks(app, past, acts[..|acts|-1]);
      StepStamps(Run(app, acts[..|acts|-1]), past, lo, acts[|acts|-1]);
    }
  }

  lemma {:induction false} NothingGrouped(repository: map<Id, ModelValue>, keys: seq<Id>)
    requires forall k :: k in repository ==> repository[k].localEvents == []
    ensures Grouped(repository, keys) == []
  {
    if keys != [] {
      NothingGrouped(repository, keys[..|keys|-1]);
    }
  }

  lemma PersistedModel(m: ModelValue, past: seq<Stamped>, all: seq<Stamped>)
    requires ModelTracks(m, past) && EventsOf(m.uid, all) == EventsOf(m.uid, past) + m.localEvents
    ensures SnapTracks(m.uid, SnapOf(m), all)
  {
  }

  lemma AppendStamps(past: seq<Stamped>, events: seq<Stamped>, mid: nat, hi: nat)
    requires DistinctStamps(past, 0, mid) && DistinctStamps(events, mid, hi) && mid <= hi
    ensures DistinctStamps(past + events, 0, hi)
  {
    var all := past + events;
    forall s | s in all ensures 0 <= s.timeuuid < hi {
      assert s in past || s in events;
    }
    forall i, j | 0 <= i < j < |all| ensures all[i].timeuuid != all[j].timeuuid {
      if i < |past| <= j {
        assert past[i] in past && events[j - |past|] in events;
      }
    }
  }

  function PastOf(store: Option<Row>): seq<Stamped> {
    if store.Some? then store.value.events else []
  }

  lemma PersistKnows(store: Option<Row>, loaded: Row, app: App)
    requires Tracks(app, PastOf(store))
    ensures LogKnown(Persist(store, loaded, app))
  {
    GroupedOwned(app.repository, app.keys);
    var row := Persist(store, loaded, app);
    forall s | s in row.events
      ensures s.modelId in row.snapshot && s.machine == row.snapshot[s.modelId].machine
        && s.meta == row.snapshot[s.modelId].meta
    {
      assert s in PastOf(store) || s in Grouped(app.repository, app.keys);
      assert Own(app.repository[s.modelId], s);
    }
  }

  lemma PersistTracks(store: Option<Row>, loaded: Row, app: App)
    requires Tracks(app, PastOf(store))
    ensures SnapsTrack(Persist(store, loaded, app))
  {
    var row := Persist(store, loaded, app);
    forall k | k in row.snapshot ensures SnapTracks(k, row.snapshot[k], row.events) {
      GroupedByModel(app.repository, app.keys, k);
      EventsOfConcat(k, PastOf(store), Grouped(app.repository, app.keys));
      assert ModelTracks(app.repository[k], PastOf(store));
      PersistedModel(app.repository[k], PastOf(store), row.events);
    }
  }

  lemma PersistStores(store: Option<Row>, loaded: Row, app: App, lo: nat)
    requires Tracks(app, PastOf(store)) && KeysMatch(app) && Distinct(app.keys)
      && loaded.timeuuid == LastStamp(PastOf(store))
    requires DistinctStamps(PastOf(store), 0, lo) && lo <= app.clock
    requires DistinctStamps(Grouped(app.repository, app.keys), lo, app.clock)
    ensures Stored(Persist(store, loaded, app), app.clock)
  {
    hide Tracks, LogKnown, SnapsTrack, DistinctStamps, Grouped;
    PersistKnows(store, loaded, app);
    PersistTracks(store, loaded, app);
    AppendStamps(PastOf(store), Grouped(app.repository, app.keys), lo, app.clock);
    if Grouped(app.repository, app.keys) == [] {
      assert PastOf(store) + [] == PastOf(store);
    }
  }

  /** One cycle keeps the stored row right. */
  lemma CycleStores(w: World, acts: seq<Act>)
    requires StoredWorld(w)
    ensures StoredWorld(Cycle(w, acts))
    ensures Cycle(w, acts).store.value.version == GetApp(w.store, false).version + 1
  {
    var loaded := GetApp(w.store, false);
    var past := PastOf(w.store);
    var start := Load(w.store, w.clock);
    if w.store.Some? {
      LoadGivesBackModels(w.store.value, w.clock);
    }
    NothingGrouped(start.repository, start.keys);
    var app := Run(start, acts);
    RunTracks(start, past, acts);
    RunStamps(start, past, acts, w.clock);
    PersistStores(w.store, loaded, app, w.clock);
  }

  lemma {:induction false} CyclesStore(w: World, runs: seq<seq<Act>>)
    requires StoredWorld(w)
    ensures StoredWorld(Cycles(w, runs))
    ensures runs != [] ==> Cycles(w, runs).store.Some?
    ensures GetApp(Cycles(w, runs).store, false).version == GetApp(w.store, false).version + |runs|
  {
    if runs != [] {
      CyclesStore(w, runs[..|runs|-1]);
      CycleStores(Cycles(w, runs[..|runs|-1]), runs[|runs|-1]);
    }
  }

  /** Replay knows the model exactly when it has events, and then has it as the snapshot does; a model without
      events is in the snapshot as it was created. */
  ghost predicate RebuiltAt(row: Row, back: map<Id, ModelValue>, k: Id) {
    && (k in back <==> k in row.snapshot && EventsOf(k, row.events) != [])
    && (k in row.snapshot && Grounded(row.snapshot[k].machine, row.snapshot[k].meta) ==>
          if k in back then SnapOf(back[k]) == row.snapshot[k]
          else row.snapshot[k].core == Birth(row.snapshot[k].machine, row.snapshot[k].meta))
  }

  /** Replaying the stored log from the beginning, against the stored snapshot. */
  lemma ReplayFromBeginning(row: Row, clock: nat)
    requires Stored(row, clock)
    ensures var back := Replay(App(NO_MODELS, [], clock), map[], GetApp(Some(row), true).events).repository;
      forall k :: RebuiltAt(row, back, k)
  {
    LoadGivesBackModels(row, clock);
    var models := Load(Some(row), clock).repository;
    forall s | s in row.events ensures s.modelId in models && Own(models[s.modelId], s) {
    }
    ReplayByModel(models, row.events, clock);
    OnlyLogged(App(NO_MODELS, [], clock), row.events);
    var back := Replay(App(NO_MODELS, [], clock), map[], row.events).repository;
    forall k ensures RebuiltAt(row, back, k) {
      NoEventsMeansAbsent(k, row.events);
      ReplayedModel(row, models, back, k);
    }
  }

  lemma ReplayedModel(row: Row, models: map<Id, ModelValue>, back: map<Id, ModelValue>, k: Id)
    requires SnapsTrack(row) && RebuiltAll(back, models, row.events)
    requires k in row.snapshot ==> k in models && models[k].uid == k && SnapOf(models[k]) == row.snapshot[k]
    ensures k in row.snapshot && Grounded(row.snapshot[k].machine, row.snapshot[k].meta) ==>
      && (k in back ==> SnapOf(back[k]) == row.snapshot[k])
      && (EventsOf(k, row.events) == [] ==>
           row.snapshot[k].core == Birth(row.snapshot[k].machine, row.snapshot[k].meta))
  {
    if k in row.snapshot && k in back {
      assert Rebuilt(back[k], models[k], row.events);
    }
  }

  /** Loading gives the snapshot's models and no others, each without local events. */
  ghost predicate LoadedAsStored(row: Row, loaded: map<Id, ModelValue>) {
    && (forall k :: k in loaded <==> k in row.snapshot)
    && forall k :: k in loaded ==> SnapOf(loaded[k]) == row.snapshot[k] && loaded[k].localEvents == []
  }

  /** After any number of cycles: the version counts them; loading gives back every persisted model as it was,
      with an empty tail; and replaying the whole log from the beginning gives every model that ever logged an
      event the state, type and context the snapshot has for it. */
  lemma SnapshotIsReplayOfWholeLog(runs: seq<seq<Act>>)
    requires runs != []
    ensures var w := Cycles(World(None, 0), runs);
      && w.store.Some? && w.store.value.version == |runs|
      && GetApp(w.store, false).events == []
      && LoadedAsStored(w.store.value, Load(w.store, w.clock).repository)
      && forall k :: RebuiltAt(w.store.value,
           Replay(App(NO_MODELS, [], w.clock), map[], GetApp(w.store, true).events).repository, k)
  {
    CyclesStore(World(None, 0), runs);
    var w := Cycles(World(None, 0), runs);
    LoadedStored(w.store.value, w.clock);
    hide RebuiltAt, Stored;
    ReplayFromBeginning(w.store.value, w.clock);
  }

  lemma LoadedStored(row: Row, clock: nat)
    requires Stored(row, clock)
    ensures GetApp(Some(row), false).events == [] && LoadedAsStored(row, Load(Some(row), clock).repository)
  {
    LoadGivesBackModels(row, clock);
    hide Stored, Tracks, Load, GetApp;
  }
}
