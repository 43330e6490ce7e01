/** The classes of the event store, tied to the queries of the protocol. */
module CqrsRepository {
  import opened Wrappers
  import opened Cqrs

  /** An aggregate: its state, and the events applied to it since it was loaded. */
  class Aggregate<S, E> {
    const step: (S, E) -> S
    const version: nat
    const eventCount: nat
    var state: S
    var localEvents: seq<E>

    constructor (step: (S, E) -> S, version: nat, state: S, eventCount: nat)
      ensures this.step == step && this.version == version && this.eventCount == eventCount
      ensures this.state == state && localEvents == []
    {
      this.step, this.version, this.eventCount := step, version, eventCount;
      this.state, localEvents := state, [];
    }

    /** An event from history changes the state; a new one is also kept for persisting. */
    method Apply(event: E, fromHistory: bool)
      modifies this
      ensures state == step(old(state), event)
      ensures localEvents == if fromHistory then old(localEvents) else old(localEvents) + [event]
    {
      if !fromHistory {
        localEvents := localEvents + [event];
      }
      state := step(state, event);
    }
  }

  /** The partition of one aggregate; `clock` is the next timeuuid. */
  class Store<S, E> {
    var row: Option<Row<S>>
    var log: seq<Entry<E>>
    var clock: nat

    constructor ()
      ensures Value() == Partition(None, []) && clock == 0
    {
      row, log, clock := None, [], 0;
    }

    ghost function Value(): Partition<S, E>
      reads this
    {
      Partition(row, log)
    }

    method Persist(version: nat, events: seq<E>) returns (applied: bool)
      modifies this
      ensures var before := if version == 0 then Insert(old(Value())) else old(Value());
        && Value() == Append(before, version, events, old(clock))
        && applied == (before.row.Some? && before.row.value.version == version)
      ensures clock == old(clock) + |events|
    {
      if version == 0 && row.None? {
        row := Some(Row(0, None));
      }
      var batch: seq<Entry<E>> := [];
      for i := 0 to |events|
        invariant batch == Stamp(events[..i], clock)
      {
        batch := batch + [Entry(clock + i, events[i])];
      }
      assert batch == Stamp(events, clock);
      applied := row.Some? && row.value.version == version;
      if applied {
        log := log + batch;
      }
      clock := clock + |events|;
    }

    /** The row query and the query for the tail, with nothing in between. */
    method Read() returns (found: Row<S>, events: seq<Entry<E>>)
      ensures found == ReadRow(Value()) && events == Tail(log, found.snapshot)
    {
      found := Row(0, None);
      if row.Some? && row.value.snapshot.Some? {
        found := row.value;
      }
      if found.snapshot.None? {
        return found, log;
      }
      var i := |log|;
      assert log[..i] == log;
      while i > 0 && log[i-1].timeuuid > found.snapshot.value.timeuuid
        invariant 0 <= i <= |log|
        invariant UpTo(log, found.snapshot.value.timeuuid) == UpTo(log[..i], found.snapshot.value.timeuuid)
      {
        assert log[..i][..i-1] == log[..i-1];
        i := i - 1;
      }
      events := log[i..];
    }

    method SaveSnapshot(version: nat, snapshot: Snapshot<S>) returns (applied: bool)
      modifies this`row
      ensures Value() == Save(old(Value()), version, snapshot)
      ensures applied == (version > 0 && old(row).Some? && old(row).value.version == version - 1)
    {
      applied := version > 0 && row.Some? && row.value.version == version - 1;
      if applied {
        row := Some(Row(version, Some(snapshot)));
      }
    }
  }

  class Repository<S, E> {
    const step: (S, E) -> S
    const init: S
    const snapshotCounter: nat

    constructor (step: (S, E) -> S, init: S, snapshotCounter: nat)
      ensures this.step == step && this.init == init && this.snapshotCounter == snapshotCounter
    {
      this.step, this.init, this.snapshotCounter := step, init, snapshotCounter;
    }

    method GetById(db: Store<S, E>) returns (aggregate: Aggregate<S, E>)
      ensures fresh(aggregate) && aggregate.step == step && aggregate.localEvents == []
      ensures aggregate.version == ReadRow(db.Value()).version
      ensures aggregate.eventCount == |Tail(db.log, ReadRow(db.Value()).snapshot)|
      ensures aggregate.state
        == Fold(step, StateOr(ReadRow(db.Value()).snapshot, init), Tail(db.log, ReadRow(db.Value()).snapshot))
    {
      var row, events := db.Read();
      aggregate := new Aggregate(step, row.version, StateOr(row.snapshot, init), |events|);
      for i := 0 to |events|
        invariant aggregate.localEvents == [] && aggregate.state == Fold(step, StateOr(row.snapshot, init), events[..i])
      {
        assert events[..i+1][..i] == events[..i];
        aggregate.Apply(events[i].event, true);
      }
      assert events[..|events|] == events;
    }

    /** The answer of the store is ignored; a snapshot follows if many events were replayed. */
    method Persist(db: Store<S, E>, aggregate: Aggregate<S, E>, now: nat)
      modifies db
      ensures var before := if aggregate.version == 0 then Insert(old(db.Value())) else old(db.Value());
        var logged := Append(before, aggregate.version, aggregate.localEvents, old(db.clock));
        db.Value() == if aggregate.eventCount > snapshotCounter then WithSnapshot(logged, step, init, now) else logged
    {
      var _ := db.Persist(aggregate.version, aggregate.localEvents);
      if aggregate.eventCount > snapshotCounter {
        CreateSnapshot(db, now);
      }
    }

    method CreateSnapshot(db: Store<S, E>, now: nat)
      modifies db`row
      ensures db.Value() == WithSnapshot(old(db.Value()), step, init, now)
    {
      var row, events := db.Read();
      var snapshot := new Aggregate(step, row.version, StateOr(row.snapshot, init), |events|);
      var last := ReplayPast(snapshot, events, now);
      if last.Some? {
        var _ := db.SaveSnapshot(snapshot.version + 1, Snapshot(snapshot.state, last.value));
      }
    }

    /** Applies the events before the first one that is not in the past, and gives the timeuuid of the last. */
    method ReplayPast(snapshot: Aggregate<S, E>, events: seq<Entry<E>>, now: nat) returns (last: Option<nat>)
      modifies snapshot
      ensures var k := Past(events, now);
        && snapshot.state == Fold(snapshot.step, old(snapshot.state), events[..k])
        && last == if k == 0 then None else Some(events[k-1].timeuuid)
    {
      last := None;
      var i := 0;
      while i < |events| && events[i].timeuuid / 10000 < now
        invariant 0 <= i <= |events| && i + Past(events[i..], now) == Past(events, now)
        invariant snapshot.state == Fold(snapshot.step, old(snapshot.state), events[..i])
        invariant last == if i == 0 then None else Some(events[i-1].timeuuid)
      {
        assert events[..i+1][..i] == events[..i] && events[i..][1..] == events[i+1..];
        snapshot.Apply(events[i].event, true);
        last := Some(events[i].timeuuid);
        i := i + 1;
      }
    }
  }

  /** What creating a snapshot does to the partition, as queries of the protocol run by a node of its own. */
  ghost function WithSnapshot<S, E>(p: Partition<S, E>, step: (S, E) -> S, init: S, now: nat): Partition<S, E> {
    var node := Loaded(ReadRow(p), Tail(p.log, ReadRow(p).snapshot));
    NextStore(System(p, map[0 := node], 0), step, init, SaveSnapshot(0, now))
  }
}
