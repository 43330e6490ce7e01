/** The log of an application in the order of time, and what a run that starts with events of it keeps: every model
    stands where its events, each taken once, lead to, and the log holds every local event. */
module FlowTimeline {
  import opened Wrappers
  import opened FlowTypes
  import opened FlowMachines
  import opened FlowSpec
  import opened FlowReplay
  import opened FlowRedo

  /** The events from one timeuuid on, before another, in order. */
  function InOrder(log: map<nat, Stamped>, from: nat, to: nat): seq<Stamped> {
    if to <= from then []
    else InOrder(log, from, to - 1) + if to - 1 in log then [log[to - 1]] else []
  }

  // ---- the order of the log ----

  lemma {:induction false} InOrderSame(log: map<nat, Stamped>, more: map<nat, Stamped>, from: nat, to: nat)
    requires forall u: nat :: u < to ==> (u in log <==> u in more) && (u in log ==> log[u] == more[u])
    ensures InOrder(log, from, to) == InOrder(more, from, to)
  {
    if from < to {
      InOrderSame(log, more, from, to - 1);
    }
  }

  lemma {:induction false} InOrderSplit(log: map<nat, Stamped>, from: nat, mid: nat, to: nat)
    requires from <= mid <= to
    ensures InOrder(log, from, to) == InOrder(log, from, mid) + InOrder(log, mid, to)
  {
    if mid < to {
      InOrderSplit(log, from, mid, to - 1);
    }
  }

  lemma {:induction false} InOrderHas(log: map<nat, Stamped>, from: nat, to: nat)
    ensures forall u: nat :: from <= u < to && u in log ==> log[u] in InOrder(log, from, to)
    ensures forall s <- InOrder(log, from, to) :: exists u: nat :: from <= u < to && u in log && log[u] == s
  {
    if from < to {
      InOrderHas(log, from, to - 1);
    }
  }

  // ---- what a run keeps ----

  /** A model stands where its events, each of them handled once, lead to. */
  ghost predicate GoodModel(m: ModelValue, log: seq<Stamped>, typ: ModelType) {
    && Shaped(m.machine, m.meta, m.core)
    && (Grounded(m.machine, m.meta) ==>
          var birth := Birth(m.machine, m.meta);
          && Logged(m.machine, birth, log) && AllTyped(log, typ)
          && Alike(m.machine, m.core, FoldCore(m.machine, birth, log)))
  }

  lemma {:induction false} BirthIsIdle(machine: Machine, meta: Meta)
    ensures Birth(machine, meta).typ.NoType? && (machine.GatewayMachine? ==> Birth(machine, meta).state.Idle?)
  {
  }

  lemma LoggedMore(machine: Machine, birth: Core, log: seq<Stamped>, s: Stamped, typ: ModelType)
    requires Logged(machine, birth, log) && AllTyped(log, typ) && TypedAs(s.event, typ)
    requires HandleEvent(machine, FoldCore(machine, birth, log), s.event).Handled?
    ensures Logged(machine, birth, log + [s]) && AllTyped(log + [s], typ)
  {
    hide HandleEvent, FoldCore, TypedAs;
    assert (log + [s])[..|log|] == log;
  }

  /** The core of a model that stands where its log leads to, and one event more. */
  lemma CoreGood(machine: Machine, core: Core, birth: Core, log: seq<Stamped>, s: Stamped, typ: ModelType)
    requires Logged(machine, birth, log) && AllTyped(log, typ) && TypedAs(s.event, typ) && birth.typ.NoType?
    requires Alike(machine, core, FoldCore(machine, birth, log)) && HandleEvent(machine, core, s.event).Handled?
    ensures Logged(machine, birth, log + [s]) && AllTyped(log + [s], typ)
    ensures Alike(machine, After(machine, core, s.event), FoldCore(machine, birth, log + [s]))
  {
    hide HandleEvent, FoldCore, After, Logged, AllTyped, TypedAs;
    TypeSettles(machine, birth, log, typ);
    AlikeStep(machine, core, FoldCore(machine, birth, log), s.event);
    hide *;
    FoldOneMore(machine, birth, log, s);
    LoggedMore(machine, birth, log, s, typ);
  }

  /** One event more: handled, it is in the log behind the others; not handled, nothing has happened. */
  lemma ApplyGood(m: ModelValue, s: Stamped, log: seq<Stamped>, typ: ModelType)
    requires GoodModel(m, log, typ) && TypedAs(s.event, typ)
    ensures var handled := HandleEvent(m.machine, m.core, s.event).Handled?;
      GoodModel(Apply(m, s), if handled then log + [s] else log, typ)
  {
    HandlersKeepShape(m.machine, m.meta, m.core, s.event);
    AppliedOnce(m, s);
    BirthIsIdle(m.machine, m.meta);
    hide HandleEvent, FoldCore, After, Birth, Shaped, Apply, Alike, Logged, AllTyped, TypedAs;
    if Grounded(m.machine, m.meta) && HandleEvent(m.machine, m.core, s.event).Handled? {
      CoreGood(m.machine, m.core, Birth(m.machine, m.meta), log, s, typ);
    }
  }

  /** The events of one model, in the order of the log. */
  function OwnLog(k: Id, log: map<nat, Stamped>, clock: nat): seq<Stamped> { EventsOf(k, InOrder(log, 0, clock)) }

  ghost predicate LogFits(repository: map<Id, ModelValue>, log: map<nat, Stamped>, clock: nat) {
    forall u <- log ::
      && u < clock && log[u].timeuuid == u
      && log[u].modelId in repository && Own(repository[log[u].modelId], log[u])
  }

  ghost predicate ModelsGood(repository: map<Id, ModelValue>, log: map<nat, Stamped>, clock: nat,
      types: Id -> ModelType) {
    forall k <- repository :: GoodModel(repository[k], OwnLog(k, log, clock), types(k))
  }

  ghost predicate Good(app: App, log: map<nat, Stamped>, types: Id -> ModelType) {
    && KeysMatch(app) && Distinct(app.keys) && LogsOwned(app.repository)
    && LogFits(app.repository, log, app.clock) && ModelsGood(app.repository, log, app.clock, types)
  }

  /** An activation carries the type its element has. */
  ghost predicate Typed(act: Act, types: Id -> ModelType) {
    act.Raise? ==> TypedAs(act.event, types(Target(act.event)))
  }

  /** The log with what a step logs. */
  function Entered(app: App, act: Act, log: map<nat, Stamped>): map<nat, Stamped> {
    if act.Add? then log else
    var m := AddModel(app, Target(act.event), MachineOf(act.event), EMPTY_META, None).repository[Target(act.event)];
    if HandleEvent(m.machine, m.core, act.event).Handled? then log[app.clock := Stamp(m, act.event, app.clock)] else log
  }

  lemma {:induction false} NothingOwn(repository: map<Id, ModelValue>, k: Id, log: map<nat, Stamped>, clock: nat,
      to: nat)
    requires LogFits(repository, log, clock) && k !in repository
    ensures OwnLog(k, log, to) == []
  {
    if to > 0 {
      NothingOwn(repository, k, log, clock, to - 1);
      var last := if to - 1 in log then [log[to-1]] else [];
      EventsOfConcat(k, InOrder(log, 0, to - 1), last);
      if last != [] {
        assert [log[to-1]][..0] == [];
      }
    }
  }

  lemma AddGood(app: App, log: map<nat, Stamped>, types: Id -> ModelType, uid: Id, machine: Machine, meta: Meta)
    requires Good(app, log, types)
    ensures Good(AddModel(app, uid, machine, meta, None), log, types)
  {
    if uid !in app.repository {
      NothingOwn(app.repository, uid, log, app.clock, app.clock);
      NewGood(uid, machine, meta, types(uid));
    }
    hide GoodModel, OwnLog, NewModel, Own;
  }

  lemma NewGood(uid: Id, machine: Machine, meta: Meta, typ: ModelType)
    ensures var m := NewModel(uid, machine, meta, None); GoodModel(m, [], typ) && m.uid == uid && m.localEvents == []
    ensures var m := NewModel(uid, machine, meta, None); m.machine == machine && m.meta == meta
  {
    hide HandleEvent;
  }

  /** A step of the clock, with or without an event. */
  lemma OwnLogNext(k: Id, log: map<nat, Stamped>, clock: nat, s: Stamped)
    requires forall u <- log :: u < clock
    ensures OwnLog(k, log, clock + 1) == OwnLog(k, log, clock)
    ensures OwnLog(k, log[clock := s], clock + 1) == OwnLog(k, log, clock) + if s.modelId == k then [s] else []
  {
    InOrderSame(log, log[clock := s], 0, clock);
    EventsOfConcat(k, InOrder(log, 0, clock), [s]);
    assert [s][..0] == [];
    assert EventsOf(k, [s]) == if s.modelId == k then [s] else [];
    hide EventsOf;
    assert InOrder(log, 0, clock + 1) == InOrder(log, 0, clock);
  }

  lemma RaiseModel(app: App, log: map<nat, Stamped>, e: Event, typ: ModelType)
    requires Target(e) in app.repository && (forall u <- log :: u < app.clock) && TypedAs(e, typ)
    requires app.repository[Target(e)].uid == Target(e)
    requires GoodModel(app.repository[Target(e)], OwnLog(Target(e), log, app.clock), typ)
    ensures GoodModel(Emitted(app, e).repository[Target(e)],
                      OwnLog(Target(e), Entered(app, Raise(e), log), app.clock + 1), typ)
  {
    var m := app.repository[Target(e)];
    var s := Stamp(m, e, app.clock);
    hide GoodModel, OwnLog, HandleEvent, Apply;
    ApplyGood(m, s, OwnLog(m.uid, log, app.clock), typ);
    OwnLogNext(m.uid, log, app.clock, s);
  }

  lemma OtherModel(app: App, log: map<nat, Stamped>, e: Event, k: Id)
    requires Target(e) in app.repository && k != Target(e) && (forall u <- log :: u < app.clock)
    requires app.repository[Target(e)].uid == Target(e)
    ensures OwnLog(k, Entered(app, Raise(e), log), app.clock + 1) == OwnLog(k, log, app.clock)
  {
    hide OwnLog, HandleEvent;
    OwnLogNext(k, log, app.clock, Stamp(app.repository[Target(e)], e, app.clock));
  }

  lemma RaiseModels(app: App, log: map<nat, Stamped>, types: Id -> ModelType, e: Event)
    requires Good(app, log, types) && Typed(Raise(e), types) && Target(e) in app.repository
    ensures ModelsGood(Emitted(app, e).repository, Entered(app, Raise(e), log), app.clock + 1, types)
  {
    var next := Emitted(app, e).repository;
    assert next.Keys == app.repository.Keys && forall k <- next :: k != Target(e) ==> next[k] == app.repository[k] by {
      hide HandleEvent, Apply;
    }
    assert (forall u <- log :: u < app.clock) && app.repository[Target(e)].uid == Target(e);
    hide GoodModel, OwnLog, Emitted, Entered, LogsOwned, LogFits, Distinct, TypedAs;
    forall k | k in next
      ensures GoodModel(next[k], OwnLog(k, Entered(app, Raise(e), log), app.clock + 1), types(k))
    {
      if k == Target(e) {
        RaiseModel(app, log, e, types(k));
      } else {
        OtherModel(app, log, e, k);
      }
    }
  }

  /** A model of the same kind takes the place of another, and the log may get one of its events. */
  lemma FitsMore(app: App, log: map<nat, Stamped>, m: ModelValue, s: Stamped)
    requires LogFits(app.repository, log, app.clock) && LogsOwned(app.repository) && m.uid in app.repository
    requires m.machine == app.repository[m.uid].machine && m.meta == app.repository[m.uid].meta
    requires AllOwn(m, m.localEvents) && Own(m, s) && s.timeuuid == app.clock
    ensures var next := app.repository[m.uid := m];
      && LogsOwned(next) && LogFits(next, log, app.clock + 1) && LogFits(next, log[app.clock := s], app.clock + 1)
  {
  }

  lemma RaiseFits(app: App, log: map<nat, Stamped>, types: Id -> ModelType, e: Event)
    requires Good(app, log, types) && Target(e) in app.repository
    ensures var next := Emitted(app, e);
      && KeysMatch(next) && Distinct(next.keys) && LogsOwned(next.repository)
      && LogFits(next.repository, Entered(app, Raise(e), log), next.clock)
  {
    var m := app.repository[Target(e)];
    var s := Stamp(m, e, app.clock);
    AppliedOnce(m, s);
    hide HandleEvent, Apply;
    assert AllOwn(Apply(m, s), Apply(m, s).localEvents);
    FitsMore(app, log, Apply(m, s), s);
    hide ModelsGood, AllOwn, LogFits, LogsOwned;
  }

  lemma RaiseGood(app: App, log: map<nat, Stamped>, types: Id -> ModelType, e: Event)
    requires Good(app, log, types) && Typed(Raise(e), types) && Target(e) in app.repository
    ensures Good(Emitted(app, e), Entered(app, Raise(e), log), types)
  {
    RaiseModels(app, log, types, e);
    RaiseFits(app, log, types, e);
    assert Emitted(app, e).clock == app.clock + 1;
    hide ModelsGood, LogFits, LogsOwned, Entered, Emitted;
  }

  /** The missing model is added first. */
  lemma RaiseKnown(app: App, log: map<nat, Stamped>, e: Event)
    ensures var known := AddModel(app, Target(e), MachineOf(e), EMPTY_META, None);
      && Target(e) in known.repository
      && Emitted(known, e) == Emitted(app, e) && Entered(known, Raise(e), log) == Entered(app, Raise(e), log)
  {
    hide HandleEvent, Apply, NewModel;
  }

  lemma StepGood(app: App, log: map<nat, Stamped>, types: Id -> ModelType, act: Act)
    requires Good(app, log, types) && Typed(act, types)
    ensures Good(Step(app, act), Entered(app, act, log), types)
  {
    match act
    case Add(uid, machine, meta) =>
      AddGood(app, log, types, uid, machine, meta);
    case Raise(e) =>
      AddGood(app, log, types, Target(e), MachineOf(e), EMPTY_META);
      RaiseKnown(app, log, e);
      hide Good, Entered, Emitted, AddModel;
      RaiseGood(AddModel(app, Target(e), MachineOf(e), EMPTY_META, None), log, types, e);
  }

  // ---- the local events and the log ----

  /** The log holds what it held before and every local event, and nothing else. */
  ghost predicate Mirrors(app: App, log: map<nat, Stamped>, before: map<nat, Stamped>) {
    && (forall k <- app.repository, s <- app.repository[k].localEvents :: s.timeuuid in log && log[s.timeuuid] == s)
    && (forall u <- before :: u in log && log[u] == before[u])
    && (forall u <- log :: u in before ||
          (log[u].modelId in app.repository && log[u] in app.repository[log[u].modelId].localEvents))
  }

  lemma AddMirrors(app: App, log: map<nat, Stamped>, before: map<nat, Stamped>, uid: Id, machine: Machine, meta: Meta)
    requires Mirrors(app, log, before)
    ensures Mirrors(AddModel(app, uid, machine, meta, None), log, before)
  {
    NewGood(uid, machine, meta, NoType);
    hide NewModel, GoodModel;
  }

  /** A model logs one event more, at a time the log does not know yet. */
  lemma MirrorsMore(app: App, log: map<nat, Stamped>, before: map<nat, Stamped>, next: App, m: ModelValue, s: Stamped)
    requires Mirrors(app, log, before) && s.timeuuid !in log && s.modelId == m.uid && m.uid in app.repository
    requires m.localEvents == app.repository[m.uid].localEvents + [s] && next.repository == app.repository[m.uid := m]
    ensures Mirrors(next, log[s.timeuuid := s], before)
  {
    var more := log[s.timeuuid := s];
    forall k, x | k in next.repository && x in next.repository[k].localEvents
      ensures x.timeuuid in more && more[x.timeuuid] == x
    {
      if k != m.uid || x != s {
        assert k in app.repository && x in app.repository[k].localEvents;
      }
    }
    assert s in m.localEvents;
    forall u | u in more && u !in before
      ensures more[u].modelId in next.repository && more[u] in next.repository[more[u].modelId].localEvents
    {
      if u != s.timeuuid {
        assert log[u] in app.repository[log[u].modelId].localEvents;
      }
    }
  }

  lemma RaiseMirrors(app: App, log: map<nat, Stamped>, before: map<nat, Stamped>, e: Event)
    requires Mirrors(app, log, before) && (forall u <- log :: u < app.clock)
    requires Target(e) in app.repository && app.repository[Target(e)].uid == Target(e)
    ensures Mirrors(Emitted(app, e), Entered(app, Raise(e), log), before)
  {
    var m := app.repository[Target(e)];
    var s := Stamp(m, e, app.clock);
    AppliedOnce(m, s);
    hide HandleEvent, Apply;
    if HandleEvent(m.machine, m.core, e).Handled? {
      MirrorsMore(app, log, before, Emitted(app, e), Apply(m, s), s);
      hide Mirrors;
    }
  }

  lemma StepMirrors(app: App, log: map<nat, Stamped>, before: map<nat, Stamped>, types: Id -> ModelType, act: Act)
    requires Mirrors(app, log, before) && Good(app, log, types)
    ensures Mirrors(Step(app, act), Entered(app, act, log), before)
  {
    match act
    case Add(uid, machine, meta) => AddMirrors(app, log, before, uid, machine, meta);
    case Raise(e) =>
      AddMirrors(app, log, before, Target(e), MachineOf(e), EMPTY_META);
      AddGood(app, log, types, Target(e), MachineOf(e), EMPTY_META);
      RaiseKnown(app, log, e);
      hide Mirrors, Entered, Emitted, AddModel, ModelsGood;
      RaiseMirrors(AddModel(app, Target(e), MachineOf(e), EMPTY_META, None), log, before, e);
  }

  function RunEntered(app: App, acts: seq<Act>, log: map<nat, Stamped>): map<nat, Stamped> {
    if acts == [] then log
    else Entered(Run(app, acts[..|acts|-1]), acts[|acts|-1], RunEntered(app, acts[..|acts|-1], log))
  }

  ghost predicate AllTypedActs(acts: seq<Act>, types: Id -> ModelType) { forall a <- acts :: Typed(a, types) }

  lemma {:induction false} RunGood(app: App, log: map<nat, Stamped>, before: map<nat, Stamped>, types: Id -> ModelType,
      acts: seq<Act>)
    requires Good(app, log, types) && Mirrors(app, log, before) && AllTypedActs(acts, types)
    ensures var end, log' := Run(app, acts), RunEntered(app, acts, log);
      Good(end, log', types) && Mirrors(end, log', before) && app.clock <= end.clock
  {
    if acts != [] {
      var init, act := acts[..|acts|-1], acts[|acts|-1];
      assert acts == init + [act];
      assert Typed(act, types) && AllTypedActs(init, types);
      RunGood(app, log, before, types, init);
      hide Good, Mirrors, Entered, Typed;
      StepGood(Run(app, init), RunEntered(app, init, log), types, act);
      StepMirrors(Run(app, init), RunEntered(app, init, log), before, types, act);
      ClockGrows(Run(app, init), act);
    }
  }

  lemma ClockGrows(app: App, act: Act)
    ensures app.clock <= Step(app, act).clock
  {
    hide Apply;
  }
}
