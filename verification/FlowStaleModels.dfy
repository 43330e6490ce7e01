/** Joins, switches and jobs that two instances have loaded in the same version: when the snapshot of the second one is
    what the whole log says. */
module FlowStaleModels {
  import opened Wrappers
  import opened FlowTypes
  import opened FlowMachines
  import opened FlowSpec
  import opened FlowReplay
  import opened FlowRedo
  import opened FlowStale

  // ---- a model from where it was loaded ----

  /** The core both instances start from: the one stored, or that of a new model. */
  function Origin(w: World, k: Id, machine: Machine, meta: Meta): Core {
    if w.store.Some? && k in w.store.value.snapshot then w.store.value.snapshot[k].core else Birth(machine, meta)
  }

  /** A model stands where the events it logged in this run lead to, each of them handled. */
  ghost predicate FromOrigin(start: App, m: ModelValue) {
    var origin := if m.uid in start.repository then start.repository[m.uid].core else Birth(m.machine, m.meta);
    && (m.uid in start.repository ==>
          m.machine == start.repository[m.uid].machine && m.meta == start.repository[m.uid].meta)
    && Shaped(m.machine, m.meta, m.core)
    && (Grounded(m.machine, m.meta) ==>
          m.core == FoldCore(m.machine, origin, m.localEvents) && Logged(m.machine, origin, m.localEvents))
  }

  ghost predicate AllFromOrigin(start: App, app: App) {
    && (forall k :: k in start.repository ==> k in app.repository)
    && forall k :: k in app.repository ==> app.repository[k].uid == k && FromOrigin(start, app.repository[k])
  }

  lemma AppliedFromOrigin(start: App, m: ModelValue, s: Stamped)
    requires FromOrigin(start, m)
    ensures FromOrigin(start, Apply(m, s)) && Apply(m, s).uid == m.uid
  {
    HandlersKeepShape(m.machine, m.meta, m.core, s.event);
    AppliedOnce(m, s);
    var origin := if m.uid in start.repository then start.repository[m.uid].core else Birth(m.machine, m.meta);
    FoldOneMore(m.machine, origin, m.localEvents, s);
    assert (m.localEvents + [s])[..|m.localEvents|] == m.localEvents;
    hide HandleEvent, Apply, FoldCore, Shaped, After, Birth;
  }

  lemma NewFromOrigin(start: App, uid: Id, machine: Machine, meta: Meta)
    requires uid !in start.repository
    ensures var m := NewModel(uid, machine, meta, None); FromOrigin(start, m) && m.uid == uid
  {
  }

  lemma AddFromOrigin(start: App, app: App, uid: Id, machine: Machine, meta: Meta)
    requires AllFromOrigin(start, app)
    ensures AllFromOrigin(start, AddModel(app, uid, machine, meta, None))
  {
    if uid !in app.repository {
      NewFromOrigin(start, uid, machine, meta);
    }
    hide FromOrigin, NewModel;
  }

  lemma StepFromOrigin(start: App, app: App, act: Act)
    requires AllFromOrigin(start, app)
    ensures AllFromOrigin(start, Step(app, act))
  {
    match act
    case Add(uid, machine, meta) => AddFromOrigin(start, app, uid, machine, meta);
    case Raise(e) =>
      var uid := Target(e);
      AddFromOrigin(start, app, uid, MachineOf(e), EMPTY_META);
      var known := AddModel(app, uid, MachineOf(e), EMPTY_META, None);
      AppliedFromOrigin(start, known.repository[uid], Stamp(known.repository[uid], e, known.clock));
      hide FromOrigin, Apply;
  }

  lemma {:induction false} RunFromOrigin(start: App, acts: seq<Act>)
    requires AllFromOrigin(start, start)
    ensures AllFromOrigin(start, Run(start, acts))
  {
    if acts != [] {
      RunFromOrigin(start, acts[..|acts|-1]);
      hide AllFromOrigin, Step;
      StepFromOrigin(start, Run(start, acts[..|acts|-1]), acts[|acts|-1]);
    }
  }

  /** A model at the end of a run. */
  lemma EndFromOrigin(w: World, clock: nat, acts: seq<Act>, k: Id)
    requires StoredWorld(w) && w.clock <= clock
    ensures var app := Run(Load(w.store, clock), acts);
      && (w.store.Some? && k in w.store.value.snapshot ==> k in app.repository)
      && (k in app.repository ==>
            var m := app.repository[k];
            var origin := Origin(w, k, m.machine, m.meta);
            && m.uid == k
            && (w.store.Some? && k in w.store.value.snapshot ==>
                  m.machine == w.store.value.snapshot[k].machine && m.meta == w.store.value.snapshot[k].meta)
            && (Grounded(m.machine, m.meta) ==>
              m.core == FoldCore(m.machine, origin, m.localEvents) && Logged(m.machine, origin, m.localEvents)))
  {
    var start := Load(w.store, clock);
    if w.store.Some? {
      LaterStored(w.store.value, w.clock, clock);
      LoadGivesBackModels(w.store.value, clock);
      LoadedFromOrigin(w.store.value, start);
    } else {
      NothingLoaded(clock);
    }
    hide Load, Stored, Tracks;
    RunFromOrigin(start, acts);
    hide Run;
  }

  lemma LoadedFromOrigin(row: Row, app: App)
    requires ModelsOf(row, app) && Tracks(app, row.events)
    ensures AllFromOrigin(app, app)
  {
    forall k | k in app.repository ensures app.repository[k].uid == k && FromOrigin(app, app.repository[k]) {
      assert ModelTracks(app.repository[k], row.events);
    }
  }

  /** A model both have, if it was not loaded, was added by both as the same. */
  ghost predicate SameKind(w: World, acts: seq<Act>, more: seq<Act>, k: Id) {
    var a, b := One(w, acts).repository, Other(w, acts, more).repository;
    k in a && k in b && !(w.store.Some? && k in w.store.value.snapshot) ==>
      a[k].machine == b[k].machine && a[k].meta == b[k].meta
  }

  /** What either instance and the whole log make of a model. */
  lemma StaleCores(w: World, acts: seq<Act>, more: seq<Act>, k: Id)
    requires StoredWorld(w) && SameKind(w, acts, more, k) && k in Other(w, acts, more).repository
    requires var m := Other(w, acts, more).repository[k]; Grounded(m.machine, m.meta)
    ensures var a, m := One(w, acts).repository, Other(w, acts, more).repository[k];
      var origin := Origin(w, k, m.machine, m.meta);
      var second := Second(w, acts, more);
      && m.uid == k && m.core == FoldCore(m.machine, origin, m.localEvents) && Logged(m.machine, origin, m.localEvents)
      && (k in a ==>
            && a[k].machine == m.machine && a[k].meta == m.meta
            && a[k].core == FoldCore(m.machine, origin, a[k].localEvents)
            && Logged(m.machine, origin, a[k].localEvents))
      && k in second.snapshot && second.snapshot[k] == SnapOf(m) && Shaped(m.machine, m.meta, m.core)
      && FoldCore(m.machine, Birth(m.machine, m.meta), EventsOf(k, second.events)) ==
           if k in a then FoldCore(m.machine, a[k].core, m.localEvents) else m.core
  {
    hide Run, Load, Stored, FoldCore, Logged, Second, Birth, Shaped, Origin, EventsOf;
    RunEnds(w, w.clock, acts);
    EndFromOrigin(w, w.clock, acts, k);
    EndFromOrigin(w, One(w, acts).clock, more, k);
    StaleFold(w, acts, more, k);
    hide *;
  }

  // ---- joins ----

  /** A list of branches with more arrivals. */
  function Merged(list: seq<Option<Id>>, log: seq<Stamped>): seq<Option<Id>> {
    if log == [] then list
    else
      var before, e := Merged(list, log[..|log|-1]), log[|log|-1].event;
      if e.GatewayProcessed? then FlowMachines.Arrive(before, e.previous) else before
  }

  lemma {:induction false} MergeGrows(list: seq<Option<Id>>, log: seq<Stamped>)
    ensures list <= Merged(list, log)
    ensures forall s <- log :: s.event.GatewayProcessed? ==> s.event.previous in Merged(list, log)
  {
    if log != [] {
      var init := log[..|log|-1];
      assert log == init + [log[|log|-1]];
      MergeGrows(list, init);
    }
  }

  lemma {:induction false} MergeNothing(list: seq<Option<Id>>, log: seq<Stamped>)
    requires forall s <- log :: s.event.GatewayProcessed? ==> s.event.previous in list
    ensures Merged(list, log) == list
  {
    if log != [] {
      assert log == log[..|log|-1] + [log[|log|-1]];
      MergeNothing(list, log[..|log|-1]);
    }
  }

  /** Merging the same arrivals into a longer list gives the same exactly if it was the beginning of the result. */
  lemma {:induction false} MergeAgainIff(list: seq<Option<Id>>, longer: seq<Option<Id>>, log: seq<Stamped>)
    requires list <= longer
    ensures Merged(longer, log) == Merged(list, log) <==> longer <= Merged(list, log)
  {
    MergeGrows(longer, log);
    if longer <= Merged(list, log) {
      if log != [] {
        var init := log[..|log|-1];
        assert log == init + [log[|log|-1]];
        if longer <= Merged(list, init) {
          MergeAgainIff(list, longer, init);
        } else {
          assert longer == Merged(list, log);
          MergeGrows(list, log);
          MergeNothing(longer, log);
        }
      }
    }
  }

  predicate Arrived(log: seq<Stamped>) { exists s <- log :: s.event.GatewayProcessed? }

  predicate Completed(log: seq<Stamped>) { exists s <- log :: s.event.GatewayCompleted? }

  /** The activations in the log are those of this element. */
  ghost predicate OfJoin(el: Element, log: seq<Stamped>) {
    forall s <- log :: s.event.GatewayActivated? ==> s.event == GatewayActivated(el.id, el, ParallelGateway)
  }

  /** The parallel gateway of an element, or one to be. */
  ghost predicate GateOf(c: Core, el: Element) {
    Gate(c) && (c.typ.ParallelGateway? ==> c.context.element == Some(el))
  }

  function TypedCore(c: Core, el: Element): Core {
    if c.typ.NoType? then c.(typ := ParallelGateway, context := c.context.(element := Some(el))) else c
  }

  /** The branches collected since the join last fired. */
  function Collecting(c: Core): seq<Option<Id>> { if c.state.Active? then c.context.incoming else [] }

  lemma GateNext(c: Core, el: Element, e: Event)
    requires GateOf(c, el) && (e.GatewayActivated? ==> e == GatewayActivated(el.id, el, ParallelGateway))
    ensures var x := After(GatewayMachine, c, e);
      && GateOf(x, el) && Rest(x) == Rest(c) && (c.typ.ParallelGateway? ==> x.typ.ParallelGateway?)
      && (c.typ.ParallelGateway? && e.GatewayProcessed? ==>
            x == c.(state := Active, context := c.context.(incoming := FlowMachines.Arrive(Collecting(c), e.previous))))
      && (c.typ.ParallelGateway? && e.GatewayCompleted? ==> x == c.(state := Idle))
      && (c.typ.ParallelGateway? && !e.GatewayProcessed? && !e.GatewayCompleted? ==> x == c)
    ensures HandleEvent(GatewayMachine, c, e).Handled? && c.typ.NoType? ==>
      e.GatewayActivated? && After(GatewayMachine, c, e) == TypedCore(c, el)
  {
    GateLookup(c, e);
    hide HandleEvent;
    if c.typ.ParallelGateway? {
      GateTyped(c, e);
      hide TypeStateHandler;
    }
  }

  lemma OfJoinInit(el: Element, log: seq<Stamped>)
    requires log != [] && OfJoin(el, log)
    ensures OfJoin(el, log[..|log|-1])
    ensures var e := log[|log|-1].event; e.GatewayActivated? ==> e == GatewayActivated(el.id, el, ParallelGateway)
    ensures Arrived(log) <==> Arrived(log[..|log|-1]) || log[|log|-1].event.GatewayProcessed?
    ensures Completed(log) <==> Completed(log[..|log|-1]) || log[|log|-1].event.GatewayCompleted?
  {
    assert log == log[..|log|-1] + [log[|log|-1]];
  }

  lemma {:induction false} GateFold(c: Core, el: Element, log: seq<Stamped>)
    requires GateOf(c, el) && OfJoin(el, log)
    ensures var x := FoldCore(GatewayMachine, c, log);
      GateOf(x, el) && Rest(x) == Rest(c) && (c.typ.ParallelGateway? ==> x.typ.ParallelGateway?)
  {
    if log != [] {
      OfJoinInit(el, log);
      FoldLast(GatewayMachine, c, log);
      hide FoldCore, After, HandleEvent, GateOf, OfJoin;
      GateFold(c, el, log[..|log|-1]);
      GateNext(FoldCore(GatewayMachine, c, log[..|log|-1]), el, log[|log|-1].event);
    }
  }

  /** The first event logged for a new join is its activation. */
  lemma {:induction false} TypedFold(c: Core, el: Element, log: seq<Stamped>)
    requires GateOf(c, el) && OfJoin(el, log) && Logged(GatewayMachine, c, log) && log != []
    ensures FoldCore(GatewayMachine, c, log) == FoldCore(GatewayMachine, TypedCore(c, el), log)
    ensures GateOf(TypedCore(c, el), el) && TypedCore(c, el).typ.ParallelGateway?
  {
    var init, last := log[..|log|-1], log[|log|-1];
    OfJoinInit(el, log);
    FoldLast(GatewayMachine, c, log);
    FoldLast(GatewayMachine, TypedCore(c, el), log);
    assert Logged(GatewayMachine, c, init)
      && HandleEvent(GatewayMachine, FoldCore(GatewayMachine, c, init), last.event).Handled?;
    if init == [] {
      NoFold(GatewayMachine, c);
      NoFold(GatewayMachine, TypedCore(c, el));
      hide FoldCore, After, HandleEvent, Logged, OfJoin;
      GateNext(c, el, last.event);
      GateNext(TypedCore(c, el), el, last.event);
    } else {
      hide FoldCore, After, HandleEvent, Logged, OfJoin;
      TypedFold(c, el, init);
    }
  }

  /** Without a completion, the branches that arrive are merged into those collected. */
  lemma {:induction false} JoinFold(c: Core, el: Element, log: seq<Stamped>)
    requires GateOf(c, el) && c.typ.ParallelGateway? && OfJoin(el, log) && !Completed(log)
    ensures FoldCore(GatewayMachine, c, log) ==
      if Arrived(log) then c.(state := Active, context := c.context.(incoming := Merged(Collecting(c), log))) else c
    ensures !Arrived(log) ==> Merged(Collecting(c), log) == Collecting(c)
  {
    if log != [] {
      var init, e := log[..|log|-1], log[|log|-1].event;
      OfJoinInit(el, log);
      FoldLast(GatewayMachine, c, log);
      assert Merged(Collecting(c), log) ==
        if e.GatewayProcessed? then FlowMachines.Arrive(Merged(Collecting(c), init), e.previous)
        else Merged(Collecting(c), init);
      hide FoldCore, After, HandleEvent, OfJoin, Merged, Arrived, Completed, Collecting;
      JoinFold(c, el, init);
      GateFold(c, el, init);
      GateNext(FoldCore(GatewayMachine, c, init), el, e);
      CollectedSoFar(c, init);
    }
  }

  lemma CollectedSoFar(c: Core, init: seq<Stamped>)
    requires !Arrived(init) ==> Merged(Collecting(c), init) == Collecting(c)
    ensures var x := if Arrived(init) then
                       c.(state := Active, context := c.context.(incoming := Merged(Collecting(c), init))) else c;
      Collecting(x) == Merged(Collecting(c), init)
  {
    hide Merged, Arrived;
  }

  /** After a completion it makes no difference what had been collected before it. */
  lemma {:induction false} CompletedAlike(x: Core, y: Core, el: Element, log: seq<Stamped>)
    requires GateOf(x, el) && GateOf(y, el) && x.typ.ParallelGateway? && y.typ.ParallelGateway? && Rest(x) == Rest(y)
    requires OfJoin(el, log) && Completed(log)
    ensures Alike(GatewayMachine, FoldCore(GatewayMachine, x, log), FoldCore(GatewayMachine, y, log))
  {
    var init, e := log[..|log|-1], log[|log|-1].event;
    OfJoinInit(el, log);
    FoldLast(GatewayMachine, x, log);
    FoldLast(GatewayMachine, y, log);
    var x', y' := FoldCore(GatewayMachine, x, init), FoldCore(GatewayMachine, y, init);
    hide FoldCore, After, HandleEvent, OfJoin, Completed;
    GateFold(x, el, init);
    GateFold(y, el, init);
    if e.GatewayCompleted? {
      GateNext(x', el, e);
      GateNext(y', el, e);
      SameGate(After(GatewayMachine, x', e), After(GatewayMachine, y', e));
    } else {
      CompletedAlike(x, y, el, init);
      GateAlikeNext(x', y', el, e);
    }
  }

  lemma GateAlikeNext(x: Core, y: Core, el: Element, e: Event)
    requires GateOf(x, el) && GateOf(y, el) && x.typ.ParallelGateway? && y.typ.ParallelGateway?
    requires Alike(GatewayMachine, x, y) && (e.GatewayActivated? ==> e == GatewayActivated(el.id, el, ParallelGateway))
    ensures Alike(GatewayMachine, After(GatewayMachine, x, e), After(GatewayMachine, y, e))
  {
    GateNext(x, el, e);
    GateNext(y, el, e);
    hide After, HandleEvent;
  }

  /** The list of an open join. */
  function OpenList(c: Core): Option<seq<Option<Id>>> { if c.state.Active? then Some(c.context.incoming) else None }

  /** Arrivals lead to the same list from both: one is the beginning of the other, and that of the result. */
  predicate Continues(x: seq<Option<Id>>, y: seq<Option<Id>>, log: seq<Stamped>) {
    || (x <= y && y <= Merged(x, log))
    || (y <= x && x <= Merged(y, log))
  }

  lemma MergedSameIff(x: seq<Option<Id>>, y: seq<Option<Id>>, log: seq<Stamped>)
    ensures Merged(x, log) == Merged(y, log) <==> Continues(x, y, log)
  {
    MergeGrows(x, log);
    MergeGrows(y, log);
    if x <= y {
      MergeAgainIff(x, y, log);
    } else if y <= x {
      MergeAgainIff(y, x, log);
    }
  }

  /** What the second instance logged leads to the same join, whether the first one had changed it or not. */
  ghost predicate JoinKept(origin: Core, one: Core, first: seq<Stamped>, second: seq<Stamped>) {
    first == [] || Completed(second) ||
    if Arrived(second) then Continues(Collecting(origin), Collecting(one), second)
    else (second == [] ==> !origin.typ.NoType?) && OpenList(one) == OpenList(origin)
  }

  lemma SameRest(x: Core, y: Core)
    requires Rest(x) == Rest(y) && x.context.element == y.context.element && x.context.incoming == y.context.incoming
    ensures x.context == y.context
  {
    assert x.context == Rest(x).(element := x.context.element, incoming := x.context.incoming);
    assert y.context == Rest(y).(element := y.context.element, incoming := y.context.incoming);
  }

  lemma OpenAlike(x: Core, y: Core, el: Element)
    requires GateOf(x, el) && GateOf(y, el) && x.typ.ParallelGateway? && y.typ.ParallelGateway? && Rest(x) == Rest(y)
    ensures Alike(GatewayMachine, x, y) <==> OpenList(x) == OpenList(y)
  {
    if OpenList(x) == OpenList(y) {
      SameGate(x, y);
    }
  }

  lemma ArrivedAlike(x: Core, y: Core, el: Element, log: seq<Stamped>)
    requires GateOf(x, el) && GateOf(y, el) && x.typ.ParallelGateway? && y.typ.ParallelGateway? && Rest(x) == Rest(y)
    requires OfJoin(el, log) && !Completed(log)
    ensures Alike(GatewayMachine, FoldCore(GatewayMachine, x, log), FoldCore(GatewayMachine, y, log)) <==>
      if Arrived(log) then Continues(Collecting(x), Collecting(y), log) else OpenList(x) == OpenList(y)
  {
    hide FoldCore, Merged, Continues, OfJoin, Completed, Arrived;
    JoinFold(x, el, log);
    JoinFold(y, el, log);
    MergedSameIff(Collecting(x), Collecting(y), log);
    GateFold(x, el, log);
    GateFold(y, el, log);
    OpenAlike(FoldCore(GatewayMachine, x, log), FoldCore(GatewayMachine, y, log), el);
  }

  lemma JoinCoresIff(origin: Core, el: Element, first: seq<Stamped>, second: seq<Stamped>)
    requires GateOf(origin, el) && OfJoin(el, first) && OfJoin(el, second)
    requires Logged(GatewayMachine, origin, first) && Logged(GatewayMachine, origin, second)
    ensures var one := FoldCore(GatewayMachine, origin, first);
      Alike(GatewayMachine, FoldCore(GatewayMachine, origin, second), FoldCore(GatewayMachine, one, second)) <==>
        JoinKept(origin, one, first, second)
  {
    NoFold(GatewayMachine, origin);
    var one := FoldCore(GatewayMachine, origin, first);
    NoFold(GatewayMachine, one);
    hide FoldCore, OfJoin, Logged, Arrived, Completed, Continues;
    if first != [] {
      TypedFold(origin, el, first);
      GateFold(TypedCore(origin, el), el, first);
      assert Rest(TypedCore(origin, el)) == Rest(origin);
      NothingArrives();
      if second != [] {
        TypedFold(origin, el, second);
        if Completed(second) {
          CompletedAlike(TypedCore(origin, el), one, el, second);
        } else {
          ArrivedAlike(TypedCore(origin, el), one, el, second);
        }
      } else if origin.typ.ParallelGateway? {
        OpenAlike(origin, one, el);
      }
    }
  }

  lemma NothingArrives()
    ensures !Arrived([]) && !Completed([])
  {
  }

  /** Stored, or new in both instances, as the parallel gateway of an element, and only activated as that. */
  ghost predicate JoinInBoth(w: World, acts: seq<Act>, more: seq<Act>, el: Element) {
    var a, b := One(w, acts).repository, Other(w, acts, more).repository;
    && el.id in b && b[el.id].machine.GatewayMachine? && OfJoin(el, b[el.id].localEvents)
    && (el.id in a ==> OfJoin(el, a[el.id].localEvents))
    && GateOf(Origin(w, el.id, b[el.id].machine, b[el.id].meta), el)
  }

  /** The join is stored as the whole log says, but for a list that no command sees. */
  ghost predicate JoinAsLogSays(row: Row, k: Id) {
    k in row.snapshot && var snap := row.snapshot[k];
    Alike(snap.machine, snap.core, FoldCore(snap.machine, Birth(snap.machine, snap.meta), EventsOf(k, row.events)))
  }

  /** For every parallel gateway, whatever the two instances log for it: it is stored as the whole log says exactly if
      the first one logged nothing, or the second one completed it, or what arrived in the second one continues what
      the first one had stored just as it continues what both had loaded. */
  lemma StaleJoinIff(w: World, acts: seq<Act>, more: seq<Act>, el: Element)
    requires StoredWorld(w) && SameKind(w, acts, more, el.id) && JoinInBoth(w, acts, more, el)
    ensures var a, m := One(w, acts).repository, Other(w, acts, more).repository[el.id];
      var origin := Origin(w, el.id, m.machine, m.meta);
      JoinAsLogSays(Second(w, acts, more), el.id) <==>
        (el.id in a ==> JoinKept(origin, a[el.id].core, a[el.id].localEvents, m.localEvents))
  {
    StaleCores(w, acts, more, el.id);
    hide Run, Load, Stored, FoldCore, Logged, Second, Birth, Shaped, Origin, EventsOf, OfJoin, GateOf, JoinKept;
    var a, m := One(w, acts).repository, Other(w, acts, more).repository[el.id];
    if el.id in a {
      JoinCoresIff(Origin(w, el.id, m.machine, m.meta), el, a[el.id].localEvents, m.localEvents);
    }
  }

  /** Where neither instance completes a stored join: exactly if what the first one had collected is the beginning of
      what the second one has collected. Otherwise an arrival is lost, or stands in another place. */
  lemma StaleOpenJoinIff(w: World, acts: seq<Act>, more: seq<Act>, el: Element)
    requires StoredWorld(w) && w.store.Some? && el.id in w.store.value.snapshot
    requires w.store.value.snapshot[el.id].core.typ.ParallelGateway?
    requires JoinInBoth(w, acts, more, el)
    requires var a, b := One(w, acts).repository, Other(w, acts, more).repository;
      el.id in a && !Completed(a[el.id].localEvents) && !Completed(b[el.id].localEvents)
    ensures var a, b := One(w, acts).repository, Other(w, acts, more).repository;
      var second := Second(w, acts, more);
      && el.id in second.snapshot
      && (SnapTracks(el.id, second.snapshot[el.id], second.events) <==>
            Collecting(a[el.id].core) <= Collecting(b[el.id].core))
  {
    StaleCores(w, acts, more, el.id);
    var a, b := One(w, acts).repository[el.id], Other(w, acts, more).repository[el.id];
    var origin := Origin(w, el.id, b.machine, b.meta);
    assert origin == w.store.value.snapshot[el.id].core;
    hide Run, Load, Stored, FoldCore, Logged, Second, Birth, Shaped, Origin, EventsOf, OfJoin, Merged, Arrived,
      Completed;
    JoinFold(origin, el, a.localEvents);
    JoinFold(origin, el, b.localEvents);
    GateFold(origin, el, a.localEvents);
    JoinFold(a.core, el, b.localEvents);
    OpenCoresIff(origin, a.core, a.localEvents, b.localEvents);
  }

  lemma OpenCoresIff(origin: Core, one: Core, first: seq<Stamped>, second: seq<Stamped>)
    requires origin.state in {Idle, Active}
    requires one == if Arrived(first) then
        origin.(state := Active, context := origin.context.(incoming := Merged(Collecting(origin), first))) else origin
    ensures var other := if Arrived(second) then
        origin.(state := Active, context := origin.context.(incoming := Merged(Collecting(origin), second)))
          else origin;
      var both := if Arrived(second) then
        one.(state := Active, context := one.context.(incoming := Merged(Collecting(one), second))) else one;
      other == both <==> Collecting(one) <= Collecting(other)
  {
    MergeGrows(Collecting(origin), first);
    MergeGrows(Collecting(origin), second);
    MergeAgainIff(Collecting(origin), Collecting(one), second);
    MergeArrives(Collecting(origin), first);
    hide Merged;
  }

  lemma MergeArrives(list: seq<Option<Id>>, log: seq<Stamped>)
    ensures Arrived(log) ==> Merged(list, log) != []
  {
    MergeGrows(list, log);
    hide Merged;
  }

  /** What one instance makes of a join's first arrival. */
  lemma OneArrival(el: Element, branch: Id, clock: nat)
    ensures var end := Run(App(NO_MODELS, [], clock),
                           [Raise(GatewayActivated(el.id, el, ParallelGateway)),
                            Raise(GatewayProcessed(el.id, Some(branch)))]);
      && el.id in end.repository
      && var m := end.repository[el.id];
         && m.machine == GatewayMachine && m.meta == EMPTY_META
         && m.core == Core(ParallelGateway, Active, EMPTY_CONTEXT.(element := Some(el), incoming := [Some(branch)]))
         && |m.localEvents| == 2 && m.localEvents[0].event == GatewayActivated(el.id, el, ParallelGateway)
         && m.localEvents[1].event == GatewayProcessed(el.id, Some(branch))
  {
    var a, b := Raise(GatewayActivated(el.id, el, ParallelGateway)), Raise(GatewayProcessed(el.id, Some(branch)));
    var start := App(NO_MODELS, [], clock);
    RunConcat(start, [], a);
    RunConcat(start, [a], b);
    assert [] + [a] == [a] && [a] + [b] == [a, b];
    assert Run(start, []) == start;
    hide Run;
    FirstArrival(el, branch);
    hide HandleEvent, Birth;
    var one := Step(start, a);
    assert one.repository[el.id].core == Core(ParallelGateway, Idle, EMPTY_CONTEXT.(element := Some(el)));
  }

  lemma FirstArrival(el: Element, branch: Id)
    ensures var typed := Core(ParallelGateway, Idle, EMPTY_CONTEXT.(element := Some(el)));
      && HandleEvent(GatewayMachine, Birth(GatewayMachine, EMPTY_META), GatewayActivated(el.id, el, ParallelGateway))
           == Handled(typed, [])
      && HandleEvent(GatewayMachine, typed, GatewayProcessed(el.id, Some(branch)))
           == Handled(typed.(state := Active, context := typed.context.(incoming := [Some(branch)])), [])
  {
  }

  /** A lost arrival: each of the two instances takes another branch of the same join, both arrivals are in the log, and
      the snapshot knows the second one only. */
  lemma StaleArrivalLost(el: Element, x: Id, y: Id)
    requires x != y
    ensures var activated := Raise(GatewayActivated(el.id, el, ParallelGateway));
      var acts, more := [activated, Raise(GatewayProcessed(el.id, Some(x)))],
                        [activated, Raise(GatewayProcessed(el.id, Some(y)))];
      var second := Second(World(None, 0), acts, more);
      && el.id in second.snapshot && second.snapshot[el.id].core.context.incoming == [Some(y)]
      && !SnapTracks(el.id, second.snapshot[el.id], second.events)
  {
    var w, activated := World(None, 0), Raise(GatewayActivated(el.id, el, ParallelGateway));
    var acts, more := [activated, Raise(GatewayProcessed(el.id, Some(x)))],
                      [activated, Raise(GatewayProcessed(el.id, Some(y)))];
    NothingLoaded(0);
    OneArrival(el, x, 0);
    var a := One(w, acts);
    NothingLoaded(a.clock);
    OneArrival(el, y, a.clock);
    var b := Other(w, acts, more);
    hide Run, Load, SnapTracks;
    StaleSnapshotTracksIff(w, acts, more, el.id);
    SecondArrival(el, x, y, b.repository[el.id].localEvents);
    assert Second(w, acts, more).snapshot[el.id] == SnapOf(b.repository[el.id]);
  }

  lemma {:induction false} SecondArrival(el: Element, x: Id, y: Id, log: seq<Stamped>)
    requires x != y && |log| == 2 && log[0].event == GatewayActivated(el.id, el, ParallelGateway)
    requires log[1].event == GatewayProcessed(el.id, Some(y))
    ensures var core := Core(ParallelGateway, Active, EMPTY_CONTEXT.(element := Some(el), incoming := [Some(x)]));
      FoldCore(GatewayMachine, core, log).context.incoming == [Some(x), Some(y)]
  {
    var core := Core(ParallelGateway, Active, EMPTY_CONTEXT.(element := Some(el), incoming := [Some(x)]));
    assert log[..1][..0] == [] && log[..2] == log && log[..2][..1] == log[..1];
    GateNext(core, el, log[0].event);
    GateNext(core, el, log[1].event);
    hide HandleEvent, After;
    assert FoldCore(GatewayMachine, core, log[..1]) == core;
  }

  // ---- exclusive gateways ----

  predicate Switches(e: Event) { e.GatewayProcessed? || e.GatewayCompleted? }

  predicate Switched(log: seq<Stamped>) { exists s <- log :: Switches(s.event) }

  /** The activations in the log are those of this element. */
  ghost predicate OfExclusive(el: Element, log: seq<Stamped>) {
    forall s <- log :: s.event.GatewayActivated? ==> s.event == GatewayActivated(el.id, el, ExclusiveGateway)
  }

  /** The exclusive gateway of an element, or one to be. */
  ghost predicate ExclusiveOf(c: Core, el: Element) {
    && (c.typ.NoType? || c.typ.ExclusiveGateway?) && (c.state.Idle? || c.state.Active?)
    && (c.typ.NoType? ==> c.state.Idle?) && (c.typ.ExclusiveGateway? ==> c.context.element == Some(el))
  }

  function TypedExclusive(c: Core, el: Element): Core {
    if c.typ.NoType? then c.(typ := ExclusiveGateway, context := c.context.(element := Some(el))) else c
  }

  lemma ExclusiveNext(c: Core, el: Element, e: Event)
    requires ExclusiveOf(c, el) && (e.GatewayActivated? ==> e == GatewayActivated(el.id, el, ExclusiveGateway))
    ensures c.typ.ExclusiveGateway? ==>
      After(GatewayMachine, c, e) ==
      if e.GatewayProcessed? then c.(state := Active) else if e.GatewayCompleted? then c.(state := Idle) else c
    ensures HandleEvent(GatewayMachine, c, e).Handled? && c.typ.NoType? ==>
      e.GatewayActivated? && After(GatewayMachine, c, e) == TypedExclusive(c, el)
  {
    GateLookup(c, e);
    hide HandleEvent;
  }

  lemma OfExclusiveInit(el: Element, log: seq<Stamped>)
    requires log != [] && OfExclusive(el, log)
    ensures OfExclusive(el, log[..|log|-1])
    ensures var e := log[|log|-1].event; e.GatewayActivated? ==> e == GatewayActivated(el.id, el, ExclusiveGateway)
    ensures Switched(log) <==> Switched(log[..|log|-1]) || Switches(log[|log|-1].event)
  {
    assert log == log[..|log|-1] + [log[|log|-1]];
  }

  /** The state a list of events leaves a typed gateway in. */
  function SwitchState(state: ModelState, log: seq<Stamped>): ModelState {
    if log == [] then state
    else
      var e := log[|log|-1].event;
      if e.GatewayProcessed? then Active else if e.GatewayCompleted? then Idle
      else SwitchState(state, log[..|log|-1])
  }

  lemma {:induction false} ExclusiveFold(c: Core, el: Element, log: seq<Stamped>)
    requires ExclusiveOf(c, el) && c.typ.ExclusiveGateway? && OfExclusive(el, log)
    ensures FoldCore(GatewayMachine, c, log) == c.(state := SwitchState(c.state, log))
    ensures SwitchState(c.state, log) in {Idle, Active}
    ensures !Switched(log) ==> SwitchState(c.state, log) == c.state
    ensures Switched(log) ==> forall other :: SwitchState(other, log) == SwitchState(c.state, log)
  {
    if log != [] {
      OfExclusiveInit(el, log);
      FoldLast(GatewayMachine, c, log);
      ExclusiveFold(c, el, log[..|log|-1]);
      ExclusiveNext(FoldCore(GatewayMachine, c, log[..|log|-1]), el, log[|log|-1].event);
      hide FoldCore, HandleEvent, After, OfExclusive, Switched;
    }
  }

  lemma {:induction false} TypedExclusiveFold(c: Core, el: Element, log: seq<Stamped>)
    requires ExclusiveOf(c, el) && OfExclusive(el, log) && Logged(GatewayMachine, c, log) && log != []
    ensures FoldCore(GatewayMachine, c, log) == FoldCore(GatewayMachine, TypedExclusive(c, el), log)
  {
    var init, last := log[..|log|-1], log[|log|-1];
    OfExclusiveInit(el, log);
    FoldLast(GatewayMachine, c, log);
    FoldLast(GatewayMachine, TypedExclusive(c, el), log);
    assert Logged(GatewayMachine, c, init)
      && HandleEvent(GatewayMachine, FoldCore(GatewayMachine, c, init), last.event).Handled?;
    if init == [] {
      NoFold(GatewayMachine, c);
      NoFold(GatewayMachine, TypedExclusive(c, el));
      hide FoldCore, After, HandleEvent, Logged, OfExclusive;
      ExclusiveNext(c, el, last.event);
      ExclusiveNext(TypedExclusive(c, el), el, last.event);
    } else {
      hide FoldCore, After, HandleEvent, Logged, OfExclusive;
      TypedExclusiveFold(c, el, init);
    }
  }

  /** What the second instance logged leads to the same, whether the first one had changed the gateway or not. */
  ghost predicate ExclusiveKept(origin: Core, one: Core, first: seq<Stamped>, second: seq<Stamped>) {
    first == [] || Switched(second) || ((second == [] ==> !origin.typ.NoType?) && one.state == origin.state)
  }

  lemma ExclusiveCoresIff(origin: Core, el: Element, first: seq<Stamped>, second: seq<Stamped>)
    requires ExclusiveOf(origin, el) && OfExclusive(el, first) && OfExclusive(el, second)
    requires Logged(GatewayMachine, origin, first) && Logged(GatewayMachine, origin, second)
    ensures var one := FoldCore(GatewayMachine, origin, first);
      FoldCore(GatewayMachine, origin, second) == FoldCore(GatewayMachine, one, second) <==>
        ExclusiveKept(origin, one, first, second)
  {
    NoFold(GatewayMachine, origin);
    var one := FoldCore(GatewayMachine, origin, first);
    NoFold(GatewayMachine, one);
    NothingSwitches();
    hide FoldCore, OfExclusive, Logged, Switched, SwitchState;
    if first != [] {
      TypedExclusiveFold(origin, el, first);
      ExclusiveFold(TypedExclusive(origin, el), el, first);
      ExclusiveFold(one, el, second);
      if second != [] {
        TypedExclusiveFold(origin, el, second);
        ExclusiveFold(TypedExclusive(origin, el), el, second);
      }
    }
  }

  lemma NothingSwitches()
    ensures !Switched([])
  {
  }

  /** For every exclusive gateway: exactly if the first instance logged nothing, or the second one logged more than
      activations, or the first one left it in the state it had. */
  lemma StaleExclusiveIff(w: World, acts: seq<Act>, more: seq<Act>, el: Element)
    requires StoredWorld(w) && SameKind(w, acts, more, el.id)
    requires var a, b := One(w, acts).repository, Other(w, acts, more).repository;
      && el.id in b && b[el.id].machine.GatewayMachine? && OfExclusive(el, b[el.id].localEvents)
      && (el.id in a ==> OfExclusive(el, a[el.id].localEvents))
      && ExclusiveOf(Origin(w, el.id, b[el.id].machine, b[el.id].meta), el)
    ensures var a, m := One(w, acts).repository, Other(w, acts, more).repository[el.id];
      var origin := Origin(w, el.id, m.machine, m.meta);
      var second := Second(w, acts, more);
      && el.id in second.snapshot
      && (SnapTracks(el.id, second.snapshot[el.id], second.events) <==>
            (el.id in a ==> ExclusiveKept(origin, a[el.id].core, a[el.id].localEvents, m.localEvents)))
  {
    StaleCores(w, acts, more, el.id);
    hide Run, Load, Stored, FoldCore, Logged, Second, Birth, Shaped, Origin, EventsOf, OfExclusive, ExclusiveOf,
      ExclusiveKept;
    var a, m := One(w, acts).repository, Other(w, acts, more).repository[el.id];
    if el.id in a {
      ExclusiveCoresIff(Origin(w, el.id, m.machine, m.meta), el, a[el.id].localEvents, m.localEvents);
    }
  }

  // ---- jobs ----

  /** The events that close a job. */
  predicate Closes(e: Event) { e.JobFinished? || e.JobFailed? }

  predicate SameOutcome(x: Event, y: Event) {
    || (x.JobFinished? && y.JobFinished? && x.result == y.result)
    || (x.JobFailed? && y.JobFailed? && x.error == y.error)
  }

  lemma JobEvent(core: Core, e: Event)
    requires HandleEvent(JobMachine, core, e).Handled? && !e.JobCreated?
    ensures core.state.Waiting? && Closes(e)
    ensures After(JobMachine, core, e) ==
      if e.JobFinished? then core.(state := Finished, context := core.context.(result := e.result))
      else core.(state := Failed, context := core.context.(error := e.error))
  {
  }

  lemma JobIgnores(core: Core, e: Event)
    requires !core.state.Waiting? && !e.JobCreated?
    ensures After(JobMachine, core, e) == core
  {
  }

  /** A job is closed once. */
  lemma {:induction false} ClosedOnce(core: Core, log: seq<Stamped>)
    requires Logged(JobMachine, core, log) && forall s <- log :: !s.event.JobCreated?
    ensures |log| <= 1
    ensures log != [] ==> core.state.Waiting? && Closes(log[0].event)
    ensures log != [] ==> FoldCore(JobMachine, core, log) == After(JobMachine, core, log[0].event)
    ensures log != [] ==> !FoldCore(JobMachine, core, log).state.Waiting?
  {
    if log != [] {
      var init, last := log[..|log|-1], log[|log|-1];
      assert log == init + [last];
      FoldLast(JobMachine, core, log);
      assert Logged(JobMachine, core, init)
        && HandleEvent(JobMachine, FoldCore(JobMachine, core, init), last.event).Handled?;
      NoFold(JobMachine, core);
      hide FoldCore, HandleEvent, Logged;
      ClosedOnce(core, init);
      JobEvent(FoldCore(JobMachine, core, init), last.event);
    }
  }

  lemma JobCoresIff(origin: Core, first: seq<Stamped>, second: seq<Stamped>)
    requires Logged(JobMachine, origin, first) && Logged(JobMachine, origin, second)
    requires (forall s <- first :: !s.event.JobCreated?) && forall s <- second :: !s.event.JobCreated?
    ensures |first| <= 1 && |second| <= 1
    ensures var one := FoldCore(JobMachine, origin, first);
      FoldCore(JobMachine, origin, second) == FoldCore(JobMachine, one, second) <==>
        first == [] || (second != [] && SameOutcome(first[0].event, second[0].event))
  {
    ClosedOnce(origin, first);
    ClosedOnce(origin, second);
    NoFold(JobMachine, origin);
    var one := FoldCore(JobMachine, origin, first);
    NoFold(JobMachine, one);
    if first != [] {
      assert first[0] in first;
      ClosedAs(origin, first[0].event);
      if second != [] {
        assert second[0] in second && second[..|second|-1] == [];
        ClosedAs(origin, second[0].event);
        FoldLast(JobMachine, one, second);
        JobIgnores(one, second[0].event);
      }
      hide FoldCore, HandleEvent, After, Logged;
    }
  }

  lemma ClosedAs(core: Core, e: Event)
    requires core.state.Waiting? && Closes(e)
    ensures After(JobMachine, core, e) ==
      if e.JobFinished? then core.(state := Finished, context := core.context.(result := e.result))
      else core.(state := Failed, context := core.context.(error := e.error))
  {
  }

  /** For a job that neither instance creates: exactly if the first one did not close it, or both closed it with the
      same outcome. Neither can close it twice. */
  lemma StaleJobIff(w: World, acts: seq<Act>, more: seq<Act>, k: Id)
    requires StoredWorld(w) && SameKind(w, acts, more, k)
    requires var a, b := One(w, acts).repository, Other(w, acts, more).repository;
      && k in a && k in b && b[k].machine.JobMachine?
      && (forall s <- a[k].localEvents :: !s.event.JobCreated?) && forall s <- b[k].localEvents :: !s.event.JobCreated?
    ensures var first, second := One(w, acts).repository[k].localEvents, Other(w, acts, more).repository[k].localEvents;
      var row := Second(w, acts, more);
      && k in row.snapshot && |first| <= 1 && |second| <= 1
      && (SnapTracks(k, row.snapshot[k], row.events) <==>
            first == [] || (second != [] && SameOutcome(first[0].event, second[0].event)))
  {
    StaleCores(w, acts, more, k);
    hide Run, Load, Stored, FoldCore, Logged, Second, Birth, Shaped, Origin, EventsOf;
    var a, m := One(w, acts).repository[k], Other(w, acts, more).repository[k];
    JobCoresIff(Origin(w, k, m.machine, m.meta), a.localEvents, m.localEvents);
  }
}
