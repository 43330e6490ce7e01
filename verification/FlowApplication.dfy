/** The classes of the engine. Every method is tied to the value it computes in FlowSpec. */
module FlowApplication {
  import opened Wrappers
  import opened FlowTypes
  import opened FlowMachines
  import Spec = FlowSpec
  import Commands = FlowCommands
  import opened FlowModel

  class Database {
    var store: map<Id, Row>

    constructor ()
      ensures store == map[]
    {
      store := map[];
    }

    function Stored(uid: Id): Option<Row>
      reads this
    {
      if uid in store then Some(store[uid]) else None
    }

    method GetApp(uid: Id, fromBeginning: bool) returns (row: Row)
      ensures row == Spec.GetApp(Stored(uid), fromBeginning)
    {
      if uid !in store {
        return Spec.EMPTY_ROW;
      }
      row := store[uid];
      if fromBeginning {
        return Spec.Row(row.version, map[], [], None, row.events);
      }
      var i := 0;
      while i < |row.events| && Some(row.events[i].timeuuid) != row.timeuuid
        invariant i <= |row.events|
        invariant forall j :: 0 <= j < i ==> Some(row.events[j].timeuuid) != row.timeuuid
      {
        i := i + 1;
      }
      var last := if i < |row.events| then i else -1;
      row := row.(events := row.events[last + 1..]);
    }

    /** The version is not compared: `this.store[uid],version !== version` is always false. */
    method PersistAppWithSnapshot(uid: Id, version: nat, events: seq<Stamped>, snapshot: map<Id, Snap>, order: seq<Id>,
        timeuuid: Option<nat>)
      modifies this
      ensures store == old(store)[uid := Spec.Row(version + 1, snapshot, order, timeuuid,
        (if uid in old(store) then old(store)[uid].events else []) + events)]
    {
      if uid !in store {
        store := store[uid := Spec.Row(version, map[], [], None, [])];
      }
      store := store[uid := Spec.Row(version + 1, snapshot, order, timeuuid, store[uid].events + events)];
    }
  }

  type Row = Spec.Row

  /** `clock` stands for the generator of timeuuids; `pending` holds the commands issued and not yet run. */
  class Application {
    var uid: Id
    var repository: map<Id, Model>
    var keys: seq<Id>
    var replay: bool
    var loaded: Row
    var pending: seq<Command>
    var clock: nat

    ghost predicate Valid()
      reads this, repository.Values
    {
      forall k :: k in repository ==> repository[k].uid == k
    }

    ghost function Value(): Spec.App
      reads this, repository.Values
    {
      Spec.App(map k | k in repository :: repository[k].Value(), keys, clock)
    }

    constructor (uid: Id)
      ensures Valid() && this.uid == uid && !replay && pending == [] && loaded == Spec.EMPTY_ROW
      ensures Value() == Spec.App(Spec.NO_MODELS, [], 0) && fresh(repository.Values)
    {
      this.uid := uid;
      repository, keys, replay, loaded, pending, clock := map[], [], false, Spec.EMPTY_ROW, [], 0;
    }

    method AddModel(id: Id, machine: Machine, meta: Meta, snapshot: Option<Snap>) returns (model: Model)
      requires Valid()
      modifies this`repository, this`keys
      ensures Valid() && id in repository && model == repository[id]
      ensures Value() == Spec.AddModel(old(Value()), id, machine, meta, snapshot)
      ensures fresh(repository.Values - old(repository.Values))
      ensures forall k :: k in old(repository) ==> k in repository && repository[k] == old(repository[k])
      ensures forall k :: k in repository && k !in old(repository) ==> fresh(repository[k])
    {
      if id in repository {
        return repository[id];
      }
      model := new Model(id, machine, meta, snapshot);
      repository := repository[id := model];
      keys := keys + [id];
      assert Value().repository == Spec.AddModel(old(Value()), id, machine, meta, snapshot).repository;
    }

    method ApplyTo(id: Id, s: Stamped) returns (executes: seq<Command>)
      requires Valid() && id in repository
      modifies repository[id]
      ensures Valid() && executes == Spec.Issued(old(Value()).repository[id], s.event)
      ensures Value() == old(Value()).(repository :=
        old(Value()).repository[id := Spec.Apply(old(Value()).repository[id], s)])
    {
      hide Spec.Apply, Spec.Issued;
      executes := repository[id].Apply(s);
      assert Value().repository == old(Value()).repository[id := Spec.Apply(old(Value()).repository[id], s)];
    }

    method DispatchTo(id: Id, c: Command, env: Env) returns (executes: seq<Command>, others: seq<Event>)
      requires Valid() && id in repository
      modifies repository[id], this`clock
      ensures var r := Spec.Dispatch(old(Value()).repository[id], c, env, old(clock));
        && Valid() && executes == r.executes && others == r.others
        && Value() == Spec.App(old(Value()).repository[id := r.model], keys, r.clock)
    {
      hide Spec.Dispatch;
      executes, others, clock := repository[id].Dispatch(c, env, clock);
      assert Value().repository
        == old(Value()).repository[id := Spec.Dispatch(old(Value()).repository[id], c, env, old(clock)).model];
    }

    /** Emitting does nothing during replay. What the handler issues waits in `pending`. */
    method Emit(e: Event)
      requires Valid()
      modifies this`repository, this`keys, this`pending, this`clock, repository.Values
      ensures Valid() && fresh(repository.Values - old(repository.Values))
      ensures replay ==> Value() == old(Value()) && pending == old(pending)
      ensures !replay ==> Value() == Spec.Emitted(old(Value()), e)
      ensures !replay ==> pending == old(pending) + Spec.EmittedIssues(old(Value()), e)
    {
      hide Spec.AddModel, Spec.Apply, Spec.Issued, Target, MachineOf;
      if replay {
        return;
      }
      var model := AddModel(Target(e), MachineOf(e), EMPTY_META, None);
      var executes := ApplyTo(Target(e), Stamped(e, clock, model.machine, model.uid, model.meta));
      clock := clock + 1;
      pending := pending + executes;
    }

    /** Runs one command on its model, added with its meta data if it is missing, to completion. What it issues waits
        in `pending`. */
    method Execute(c: Spec.Call)
      requires Valid()
      modifies this`repository, this`keys, this`pending, this`clock, repository.Values
      ensures Valid() && fresh(repository.Values - old(repository.Values))
      ensures replay ==> Value() == old(Value()) && pending == old(pending)
      ensures !replay ==> Value() == Spec.Executed(old(Value()), c)
      ensures !replay ==> pending == old(pending) + Spec.ExecutedIssues(old(Value()), c)
    {
      hide Spec.AddModel, Spec.EmitAll, Spec.Dispatch, Spec.EmitAllIssues;
      if replay {
        return;
      }
      var others := RunHandler(c);
      EmitOthers(others);
    }

    /** The part of a command that its own model does; the events for other models are handed back. */
    method RunHandler(c: Spec.Call) returns (others: seq<Event>)
      requires Valid()
      modifies this`repository, this`keys, this`pending, this`clock, repository.Values
      ensures Valid() && fresh(repository.Values - old(repository.Values))
      ensures var known := Spec.AddModel(old(Value()), c.uid, c.machine, c.meta, None);
        var r := Spec.Dispatch(known.repository[c.uid], c.command, c.env, known.clock);
        && Value() == Spec.App(known.repository[c.uid := r.model], known.keys, r.clock)
        && others == r.others && pending == old(pending) + r.executes
    {
      hide Spec.AddModel, Spec.Dispatch;
      var _ := AddModel(c.uid, c.machine, c.meta, None);
      var executes: seq<Command>;
      executes, others := DispatchTo(c.uid, c.command, c.env);
      pending := pending + executes;
    }

    method EmitOthers(events: seq<Event>)
      requires Valid() && !replay
      modifies this`repository, this`keys, this`pending, this`clock, repository.Values
      ensures Valid() && fresh(repository.Values - old(repository.Values))
      ensures Value() == Spec.EmitAll(old(Value()), events)
      ensures pending == old(pending) + Spec.EmitAllIssues(old(Value()), events)
    {
      hide Spec.Emitted, Spec.EmittedIssues;
      ghost var start := Value();
      for i := 0 to |events|
        invariant Valid() && !replay && fresh(repository.Values - old(repository.Values))
        invariant Value() == Spec.EmitAll(start, events[..i])
        invariant pending == old(pending) + Spec.EmitAllIssues(start, events[..i])
      {
        assert events[..i+1][..i] == events[..i];
        Emit(events[i]);
      }
      assert events[..|events|] == events;
    }

    method GetLocalEvents() returns (events: seq<Stamped>)
      requires Valid()
      ensures events == Spec.Grouped(Value().repository, keys)
    {
      events := [];
      for i := 0 to |keys|
        invariant events == Spec.Grouped(Value().repository, keys[..i])
      {
        assert keys[..i+1][..i] == keys[..i];
        if keys[i] in repository {
          events := events + repository[keys[i]].localEvents;
        }
      }
      assert keys[..|keys|] == keys;
    }

    method Restore(row: Row)
      modifies this
      ensures Valid() && fresh(repository.Values) && !replay && loaded == row && uid == old(uid)
      ensures Value() == Spec.Replay(Spec.RestoreModels(row.order, row.snapshot, old(clock)), row.snapshot, row.events)
    {
      hide Spec.AddModel, Spec.Replay;
      repository, keys := map[], [];
      loaded := row;
      replay := true;
      assert Value().repository == Spec.NO_MODELS;
      for i := 0 to |row.order|
        invariant Valid() && fresh(repository.Values) && loaded == row && uid == old(uid) && clock == old(clock)
        invariant Value() == Spec.RestoreModels(row.order[..i], row.snapshot, old(clock))
      {
        assert row.order[..i+1][..i] == row.order[..i];
        var id := row.order[i];
        if id in row.snapshot {
          var _ := AddModel(id, row.snapshot[id].machine, row.snapshot[id].meta, Some(row.snapshot[id]));
        }
      }
      assert row.order[..|row.order|] == row.order;
      hide Spec.RestoreModels;
      ReplayAll(row.snapshot, row.events);
      replay := false;
    }

    method ReplayAll(snapshot: map<Id, Snap>, events: seq<Stamped>)
      requires Valid()
      modifies this`repository, this`keys, repository.Values
      ensures Valid() && fresh(repository.Values - old(repository.Values))
      ensures Value() == Spec.Replay(old(Value()), snapshot, events)
    {
      hide Spec.ReplayEvent;
      ghost var start := Value();
      for i := 0 to |events|
        invariant Valid() && fresh(repository.Values - old(repository.Values))
        invariant Value() == Spec.Replay(start, snapshot, events[..i])
      {
        assert events[..i+1][..i] == events[..i];
        ReplayOne(snapshot, events[i]);
      }
      assert events[..|events|] == events;
    }

    method ReplayOne(snapshot: map<Id, Snap>, s: Stamped)
      requires Valid()
      modifies this`repository, this`keys, repository.Values
      ensures Valid() && fresh(repository.Values - old(repository.Values))
      ensures Value() == Spec.ReplayEvent(old(Value()), snapshot, s)
    {
      hide Spec.AddModel, Spec.Apply;
      var _ := AddModel(s.modelId, s.machine, s.meta, Spec.Lookup(snapshot, s.modelId));
      var _ := ApplyTo(s.modelId, s);
    }

    method Load(db: Database)
      modifies this
      ensures Valid() && fresh(repository.Values) && !replay && uid == old(uid)
      ensures loaded == Spec.GetApp(db.Stored(uid), false)
      ensures Value() == Spec.Load(db.Stored(uid), old(clock))
    {
      var row := db.GetApp(uid, false);
      Restore(row);
    }

    method Persist(db: Database)
      requires Valid()
      modifies db
      ensures db.store == old(db.store)[uid := Spec.Persist(old(db.Stored(uid)), loaded, Value())]
    {
      hide Spec.Grouped;
      var events := GetLocalEvents();
      var snapshot := map k | k in repository ::
        Snap(Core(repository[k].typ, repository[k].state, repository[k].context), repository[k].machine,
          repository[k].meta);
      var timeuuid := if events != [] then Some(events[|events|-1].timeuuid) else loaded.timeuuid;
      assert snapshot == map k | k in Value().repository :: Spec.SnapOf(Value().repository[k]);
      ghost var app, row := Value(), Spec.Persist(db.Stored(uid), loaded, Value());
      db.PersistAppWithSnapshot(uid, loaded.version, events, snapshot, keys, timeuuid);
      assert Value() == app && db.store[uid] == row;
    }

    /** None where the source throws on a job model without a job. */
    method GetJobs(version: nat) returns (jobs: Option<seq<Job>>)
      requires Valid()
      ensures jobs == Spec.JobsOf(Spec.AllJobs(Value().repository, keys), version)
    {
      var all: seq<Option<Job>> := [];
      for i := 0 to |keys|
        invariant all == Spec.AllJobs(Value().repository, keys[..i])
      {
        assert keys[..i+1][..i] == keys[..i];
        if keys[i] in repository && repository[keys[i]].machine.JobMachine? {
          all := all + [repository[keys[i]].context.job];
        }
      }
      assert keys[..|keys|] == keys;
      jobs := Some([]);
      for i := 0 to |all|
        invariant jobs == Spec.JobsOf(all[..i], version)
      {
        assert all[..i+1][..i] == all[..i];
        if jobs.None? || all[i].None? {
          jobs := None;
        } else if all[i].value.version == version {
          jobs := Some(jobs.value + [all[i].value]);
        }
      }
      assert all[..|all|] == all;
    }
  }

  /** One cycle of the service on the objects: load, let the moves happen, persist. It is the cycle of the theorems. */
  method RunCycle(app: Application, db: Database, moves: seq<Spec.Move>)
    modifies app, db
    ensures app.uid == old(app.uid) && app.uid in db.store
    ensures Spec.World(Some(db.store[app.uid]), app.clock)
         == Commands.CallCycle(Spec.World(old(db.Stored(app.uid)), old(app.clock)), moves)
    ensures db.store == old(db.store)[app.uid := db.store[app.uid]]
  {
    hide Spec.Load, Spec.GetApp, Spec.Persist, Spec.Moved;
    app.Load(db);
    ghost var start := app.Value();
    for i := 0 to |moves|
      invariant app.Valid() && !app.replay && fresh(app.repository.Values)
      invariant app.uid == old(app.uid) && db.store == old(db.store)
      invariant app.loaded == Spec.GetApp(db.Stored(app.uid), false)
      invariant app.Value() == Spec.ExecutedAll(start, moves[..i])
    {
      assert moves[..i+1][..i] == moves[..i];
      Move(app, moves[i]);
    }
    assert moves[..|moves|] == moves;
    app.Persist(db);
  }

  method Move(app: Application, move: Spec.Move)
    requires app.Valid() && !app.replay
    modifies app`repository, app`keys, app`pending, app`clock, app.repository.Values
    ensures app.Valid() && fresh(app.repository.Values - old(app.repository.Values))
    ensures app.Value() == Spec.Moved(old(app.Value()), move)
  {
    match move
    case Routed(call) => app.Execute(call);
    case Outside(Add(uid, machine, meta)) => var _ := app.AddModel(uid, machine, meta, None);
    case Outside(Raise(e)) => app.Emit(e);
  }
}
