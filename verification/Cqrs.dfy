/** The event store of an aggregate and its snapshot protocol, shared by any number of nodes. */
module Cqrs {
  import opened Wrappers

  /** A logged event; the log is ordered by timeuuid. */
  datatype Entry<E> = Entry(timeuuid: nat, event: E)

  /** A snapshot and its position: the timeuuid of the last event in it. */
  datatype Snapshot<S> = Snapshot(state: S, timeuuid: nat)

  /** The version row of a partition. */
  datatype Row<S> = Row(version: nat, snapshot: Option<Snapshot<S>>)

  datatype Partition<S, E> = Partition(row: Option<Row<S>>, log: seq<Entry<E>>)

  /** The state a list of events leads to. */
  function Fold<S, E>(step: (S, E) -> S, from: S, events: seq<Entry<E>>): S {
    if events == [] then from
    else step(Fold(step, from, events[..|events|-1]), events[|events|-1].event)
  }

  lemma {:induction false} FoldConcat<S, E>(step: (S, E) -> S, from: S, a: seq<Entry<E>>, b: seq<Entry<E>>)
    ensures Fold(step, from, a + b) == Fold(step, Fold(step, from, a), b)
  {
    if b == [] {
      assert a + b == a;
    } else {
      assert (a + b)[..|a + b| - 1] == a + b[..|b| - 1];
      FoldConcat(step, from, a, b[..|b| - 1]);
    }
  }

  // ---- what the queries compute ----

  /** The version row as `read` reports it: a row without snapshot counts as version 0. */
  function ReadRow<S, E>(p: Partition<S, E>): Row<S> {
    if p.row.Some? && p.row.value.snapshot.Some? then p.row.value else Row(0, None)
  }

  /** The number of entries up to a position. */
  function UpTo<E>(log: seq<Entry<E>>, timeuuid: nat): nat
    ensures UpTo(log, timeuuid) <= |log|
  {
    if log == [] then 0
    else if log[|log|-1].timeuuid <= timeuuid then |log| else UpTo(log[..|log|-1], timeuuid)
  }

  /** Where the tail of a snapshot starts. */
  function Start<S, E>(log: seq<Entry<E>>, snapshot: Option<Snapshot<S>>): nat
    ensures Start(log, snapshot) <= |log|
  {
    if snapshot.None? then 0 else UpTo(log, snapshot.value.timeuuid)
  }

  function Tail<S, E>(log: seq<Entry<E>>, snapshot: Option<Snapshot<S>>): seq<Entry<E>> {
    log[Start(log, snapshot)..]
  }

  /** New events get increasing timeuuids from `clock` on. */
  function Stamp<E>(events: seq<E>, clock: nat): seq<Entry<E>> {
    seq(|events|, i requires 0 <= i < |events| => Entry(clock + i, events[i]))
  }

  /** The insert that precedes the batch of version 0. */
  function Insert<S, E>(p: Partition<S, E>): Partition<S, E> {
    if p.row.None? then p.(row := Some(Row(0, None))) else p
  }

  /** The conditional batch: events are appended if the version still is the one loaded. */
  function Append<S, E>(p: Partition<S, E>, version: nat, events: seq<E>, clock: nat): Partition<S, E> {
    if p.row.Some? && p.row.value.version == version then p.(log := p.log + Stamp(events, clock)) else p
  }

  /** The conditional update with a snapshot. */
  function Save<S, E>(p: Partition<S, E>, version: nat, snapshot: Snapshot<S>): Partition<S, E> {
    if version > 0 && p.row.Some? && p.row.value.version == version - 1
    then p.(row := Some(Row(version, Some(snapshot)))) else p
  }

  /** The events a snapshot taken at `now` may contain: those before the first one that is not in the past.
      A timeuuid counts in 100 ns, its date in ms. */
  function Past<E>(events: seq<Entry<E>>, now: nat): nat
    ensures Past(events, now) <= |events|
    ensures forall i :: 0 <= i < Past(events, now) ==> events[i].timeuuid / 10000 < now
    ensures Past(events, now) < |events| ==> events[Past(events, now)].timeuuid / 10000 >= now
  {
    if events == [] || events[0].timeuuid / 10000 >= now then 0 else 1 + Past(events[1..], now)
  }

  // ---- the protocol ----

  /** What a node remembers of its last read. */
  datatype Node<S, E> = Idle | HasRow(row: Row<S>) | Loaded(row: Row<S>, events: seq<Entry<E>>)

  datatype System<S, E> = System(store: Partition<S, E>, nodes: map<nat, Node<S, E>>, clock: nat)

  /** Single queries, so that reads and writes of different nodes may interleave in any way. An append may come
      from anywhere and with any version; time passes at will. */
  datatype Query<E> =
    | QueryRow(node: nat)
    | QueryTail(node: nat)
    | InsertRow
    | AppendEvents(version: nat, events: seq<E>)
    | SaveSnapshot(node: nat, now: nat)
    | Tick(ticks: nat)

  function StateOr<S>(snapshot: Option<Snapshot<S>>, init: S): S {
    if snapshot.Some? then snapshot.value.state else init
  }

  /** The aggregate a node has loaded. */
  function Aggregate<S, E>(step: (S, E) -> S, init: S, node: Node<S, E>): S
    requires node.Loaded?
  {
    Fold(step, StateOr(node.row.snapshot, init), node.events)
  }

  function NextStore<S, E>(sys: System<S, E>, step: (S, E) -> S, init: S, q: Query<E>): Partition<S, E> {
    match q
    case InsertRow => Insert(sys.store)
    case AppendEvents(version, events) => Append(sys.store, version, events, sys.clock)
    case SaveSnapshot(n, now) =>
      if n in sys.nodes && sys.nodes[n].Loaded? then
        var node := sys.nodes[n];
        var k := Past(node.events, now);
        if k == 0 then sys.store
        else Save(sys.store, node.row.version + 1,
          Snapshot(Aggregate(step, init, node.(events := node.events[..k])), node.events[k-1].timeuuid))
      else sys.store
    case _ => sys.store
  }

  function NextNodes<S, E>(sys: System<S, E>, q: Query<E>): map<nat, Node<S, E>> {
    match q
    case QueryRow(n) => sys.nodes[n := HasRow(ReadRow(sys.store))]
    case QueryTail(n) =>
      if n in sys.nodes && !sys.nodes[n].Idle? then
        sys.nodes[n := Loaded(sys.nodes[n].row, Tail(sys.store.log, sys.nodes[n].row.snapshot))]
      else sys.nodes
    case SaveSnapshot(n, _) => sys.nodes[n := Idle]
    case _ => sys.nodes
  }

  function Next<S, E>(sys: System<S, E>, step: (S, E) -> S, init: S, q: Query<E>): System<S, E> {
    System(NextStore(sys, step, init, q), NextNodes(sys, q),
           match q
           case AppendEvents(_, events) => sys.clock + |events|
           case Tick(ticks) => sys.clock + ticks
           case _ => sys.clock)
  }

  function Run<S, E>(step: (S, E) -> S, init: S, queries: seq<Query<E>>): System<S, E> {
    if queries == [] then System(Partition(None, []), map[], 0)
    else Next(Run(step, init, queries[..|queries|-1]), step, init, queries[|queries|-1])
  }

  // ---- invariant ----

  ghost predicate Ordered<E>(log: seq<Entry<E>>, clock: nat) {
    && (forall i :: 0 <= i < |log| ==> log[i].timeuuid < clock)
    && forall i, j :: 0 <= i < j < |log| ==> log[i].timeuuid < log[j].timeuuid
  }

  /** The snapshot is the fold of the first `n` entries, and its position is the last of them. */
  ghost predicate PrefixFold<S, E>(step: (S, E) -> S, init: S, log: seq<Entry<E>>, s: Snapshot<S>, n: nat) {
    0 < n <= |log| && s == Snapshot(Fold(step, init, log[..n]), log[n-1].timeuuid)
  }

  ghost predicate Honest<S, E>(step: (S, E) -> S, init: S, log: seq<Entry<E>>, snapshot: Option<Snapshot<S>>) {
    snapshot.Some? ==> PrefixFold(step, init, log, snapshot.value, Start(log, snapshot))
  }

  /** A row read earlier is honest, is not newer than the stored one, and equals it if the version is the same. */
  ghost predicate RowRead<S, E>(step: (S, E) -> S, init: S, store: Partition<S, E>, row: Row<S>) {
    && Honest(step, init, store.log, row.snapshot)
    && (store.row.None? ==> row == Row(0, None))
    && (store.row.Some? ==>
         row.version <= store.row.value.version
         && (row.version == store.row.value.version ==> row == store.row.value))
  }

  ghost predicate NodeOk<S, E>(step: (S, E) -> S, init: S, store: Partition<S, E>, node: Node<S, E>) {
    && (!node.Idle? ==> RowRead(step, init, store, node.row))
    && (node.Loaded? ==> node.events <= Tail(store.log, node.row.snapshot))
  }

  ghost predicate Inv<S(!new), E(!new)>(step: (S, E) -> S, init: S, sys: System<S, E>) {
    && Ordered(sys.store.log, sys.clock)
    && (sys.store.row.Some? ==>
          && (sys.store.row.value.snapshot.None? <==> sys.store.row.value.version == 0)
          && Honest(step, init, sys.store.log, sys.store.row.value.snapshot))
    && forall n :: n in sys.nodes ==> NodeOk(step, init, sys.store, sys.nodes[n])
  }

  lemma {:induction false} UpToOrdered<E>(log: seq<Entry<E>>, t: nat, clock: nat)
    requires Ordered(log, clock)
    ensures forall i :: 0 <= i < |log| ==> (i < UpTo(log, t) <==> log[i].timeuuid <= t)
  {
    if log != [] && log[|log|-1].timeuuid > t {
      UpToOrdered(log[..|log|-1], t, clock);
    }
  }

  /** In an ordered log, the entries up to the timeuuid of entry `k` are the first `k + 1`. */
  lemma UpToEntry<E>(log: seq<Entry<E>>, k: nat, clock: nat)
    requires Ordered(log, clock) && k < |log|
    ensures UpTo(log, log[k].timeuuid) == k + 1
  {
    UpToOrdered(log, log[k].timeuuid, clock);
  }

  /** Appending later entries leaves every position and every honest snapshot as it was. */
  lemma AppendKeeps<S, E>(
    step: (S, E) -> S, init: S, log: seq<Entry<E>>, more: seq<Entry<E>>, snapshot: Option<Snapshot<S>>, clock: nat,
    later: nat)
    requires Ordered(log, clock) && Ordered(log + more, later) && Honest(step, init, log, snapshot)
    ensures Honest(step, init, log + more, snapshot) && Start(log + more, snapshot) == Start(log, snapshot)
    ensures Tail(log + more, snapshot) == Tail(log, snapshot) + more
  {
    if snapshot.Some? {
      var n := Start(log, snapshot);
      assert (log + more)[n-1] == log[n-1];
      UpToEntry(log + more, n - 1, later);
      assert (log + more)[..n] == log[..n];
    }
  }

  lemma StampOrdered<E>(log: seq<Entry<E>>, events: seq<E>, clock: nat)
    requires Ordered(log, clock)
    ensures Ordered(log + Stamp(events, clock), clock + |events|)
  {
  }

  /** Snapshot plus the first `k` entries of its tail: again the fold of a prefix, one that is `k` longer. */
  lemma ExtendFold<S, E>(step: (S, E) -> S, init: S, log: seq<Entry<E>>, row: Row<S>, events: seq<Entry<E>>, clock: nat)
    requires Ordered(log, clock) && Honest(step, init, log, row.snapshot) && events <= Tail(log, row.snapshot)
    ensures var n := Start(log, row.snapshot);
      && n + |events| <= |log| && Aggregate(step, init, Loaded(row, events)) == Fold(step, init, log[..n + |events|])
      && (events != [] ==>
            && log[n + |events| - 1] == events[|events|-1]
            && UpTo(log, events[|events|-1].timeuuid) == n + |events|)
  {
    hide Ordered, Honest, Start, UpTo, Fold, StateOr;
    var n := Start(log, row.snapshot);
    StateAtStart(step, init, log, row.snapshot);
    assert Aggregate(step, init, Loaded(row, events)) == Fold(step, StateOr(row.snapshot, init), events);
    ExtendBy(step, init, log, n, events);
    LastRead(log, n, events, clock);
  }

  lemma LastRead<E>(log: seq<Entry<E>>, n: nat, events: seq<Entry<E>>, clock: nat)
    requires Ordered(log, clock) && n <= |log| && events <= log[n..]
    ensures n + |events| <= |log|
    ensures events != [] ==>
      log[n + |events| - 1] == events[|events|-1] && UpTo(log, events[|events|-1].timeuuid) == n + |events|
  {
    if events != [] {
      assert log[n..][|events|-1] == events[|events|-1];
      UpToEntry(log, n + |events| - 1, clock);
    }
  }

  lemma StateAtStart<S, E>(step: (S, E) -> S, init: S, log: seq<Entry<E>>, snapshot: Option<Snapshot<S>>)
    requires Honest(step, init, log, snapshot)
    ensures StateOr(snapshot, init) == Fold(step, init, log[..Start(log, snapshot)])
  {
    assert log[..0] == [];
  }

  lemma ExtendBy<S, E>(step: (S, E) -> S, init: S, log: seq<Entry<E>>, n: nat, events: seq<Entry<E>>)
    requires n <= |log| && events <= log[n..]
    ensures n + |events| <= |log|
      && Fold(step, Fold(step, init, log[..n]), events) == Fold(step, init, log[..n + |events|])
  {
    assert log[..n + |events|] == log[..n] + events;
    FoldConcat(step, init, log[..n], events);
  }

  /** Saving: the new snapshot is honest, lies behind the old one, and every earlier read stays right. */
  lemma SaveKeeps<S(!new), E(!new)>(step: (S, E) -> S, init: S, sys: System<S, E>, node: Node<S, E>, k: nat)
    requires Inv(step, init, sys) && node.Loaded? && NodeOk(step, init, sys.store, node) && 0 < k <= |node.events|
    ensures var s := Snapshot(Aggregate(step, init, node.(events := node.events[..k])), node.events[k-1].timeuuid);
      var after := Save(sys.store, node.row.version + 1, s);
      && Honest(step, init, after.log, Some(s))
      && (after != sys.store ==>
            && node.row == sys.store.row.value && after.row == Some(Row(node.row.version + 1, Some(s)))
            && Start(after.log, node.row.snapshot) < Start(after.log, Some(s)))
  {
    hide Ordered, Fold, UpTo;
    ExtendFold(step, init, sys.store.log, node.row, node.events[..k], sys.clock);
  }

  lemma AppendStep<S(!new), E(!new)>(step: (S, E) -> S, init: S, sys: System<S, E>, version: nat, events: seq<E>)
    requires Inv(step, init, sys)
    ensures Inv(step, init, Next(sys, step, init, AppendEvents(version, events)))
  {
    assert Ordered(sys.store.log, sys.clock + |events|);
    hide Fold, UpTo, Ordered;
    var next := Next(sys, step, init, AppendEvents(version, events));
    var more := Stamp(events, sys.clock);
    StampOrdered(sys.store.log, events, sys.clock);
    if next.store.log != sys.store.log {
      AppendKeeps(step, init, sys.store.log, more, sys.store.row.value.snapshot, sys.clock, next.clock);
      forall n | n in next.nodes ensures NodeOk(step, init, next.store, next.nodes[n]) {
        var node := sys.nodes[n];
        assert NodeOk(step, init, sys.store, node);
        if !node.Idle? {
          AppendKeeps(step, init, sys.store.log, more, node.row.snapshot, sys.clock, next.clock);
        }
      }
    }
  }

  lemma SaveStep<S(!new), E(!new)>(step: (S, E) -> S, init: S, sys: System<S, E>, n: nat, now: nat)
    requires Inv(step, init, sys)
    ensures Inv(step, init, Next(sys, step, init, SaveSnapshot(n, now)))
  {
    hide Fold, UpTo, Ordered, Past;
    if n in sys.nodes && sys.nodes[n].Loaded? && Past(sys.nodes[n].events, now) > 0 {
      SaveKeeps(step, init, sys, sys.nodes[n], Past(sys.nodes[n].events, now));
      var next := Next(sys, step, init, SaveSnapshot(n, now));
      forall m | m in next.nodes ensures NodeOk(step, init, next.store, next.nodes[m]) {
        if m != n { assert NodeOk(step, init, sys.store, sys.nodes[m]); }
      }
    }
  }

  lemma StepKeepsInv<S(!new), E(!new)>(step: (S, E) -> S, init: S, sys: System<S, E>, q: Query<E>)
    requires Inv(step, init, sys)
    ensures Inv(step, init, Next(sys, step, init, q))
  {
    match q
    case AppendEvents(version, events) => AppendStep(step, init, sys, version, events);
    case SaveSnapshot(n, now) => SaveStep(step, init, sys, n, now);
    case _ =>
      var next := Next(sys, step, init, q);
      forall n | n in next.nodes ensures NodeOk(step, init, next.store, next.nodes[n]) {
        if n in sys.nodes { assert NodeOk(step, init, sys.store, sys.nodes[n]); }
      }
  }

  lemma {:induction false} RunKeepsInv<S(!new), E(!new)>(step: (S, E) -> S, init: S, queries: seq<Query<E>>)
    ensures Inv(step, init, Run(step, init, queries))
  {
    if queries != [] {
      RunKeepsInv(step, init, queries[..|queries|-1]);
      StepKeepsInv(step, init, Run(step, init, queries[..|queries|-1]), queries[|queries|-1]);
    }
  }

  // ---- theorems ----

  /** The stored snapshot, if there is one. */
  function StoredSnapshot<S, E>(sys: System<S, E>): Option<Snapshot<S>> {
    if sys.store.row.Some? then sys.store.row.value.snapshot else None
  }

  /** Under every interleaving: the stored snapshot is the fold of exactly the log up to its timeuuid, and with
      the tail behind it it replays to the fold of the whole log. */
  lemma SnapshotPlusTailIsLog<S(!new), E(!new)>(step: (S, E) -> S, init: S, queries: seq<Query<E>>)
    ensures var sys := Run(step, init, queries);
      var snapshot, log := StoredSnapshot(sys), sys.store.log;
      && (snapshot.Some? ==>
            && snapshot.value.state == Fold(step, init, log[..Start(log, snapshot)])
            && forall i :: 0 <= i < |log| ==>
                 (i < Start(log, snapshot) <==> log[i].timeuuid <= snapshot.value.timeuuid))
      && Fold(step, StateOr(snapshot, init), Tail(log, snapshot)) == Fold(step, init, log)
  {
    hide Fold, UpTo, Run;
    RunKeepsInv(step, init, queries);
    var sys := Run(step, init, queries);
    var snapshot, log := StoredSnapshot(sys), sys.store.log;
    ExtendFold(step, init, log, Row(0, snapshot), Tail(log, snapshot), sys.clock);
    assert log[..|log|] == log;
    if snapshot.Some? {
      UpToOrdered(log, snapshot.value.timeuuid, sys.clock);
    }
  }

  /** A read is two queries. Whatever happens between them, the aggregate is the fold of the whole log as it is
      when the second one runs. */
  lemma ReadIsWholeLog<S(!new), E(!new)>(step: (S, E) -> S, init: S, queries: seq<Query<E>>, n: nat)
    requires var sys := Run(step, init, queries); n in sys.nodes && !sys.nodes[n].Idle?
    ensures var sys := Run(step, init, queries + [QueryTail(n)]);
      sys.nodes[n].Loaded? && Aggregate(step, init, sys.nodes[n]) == Fold(step, init, sys.store.log)
  {
    RunKeepsInv(step, init, queries);
    var sys := Run(step, init, queries);
    assert (queries + [QueryTail(n)])[..|queries|] == queries;
    assert Run(step, init, queries + [QueryTail(n)]) == Next(sys, step, init, QueryTail(n));
    hide Run, Fold, UpTo, Honest;
    assert NodeOk(step, init, sys.store, sys.nodes[n]);
    ExtendFold(step, init, sys.store.log, sys.nodes[n].row, Tail(sys.store.log, sys.nodes[n].row.snapshot), sys.clock);
    assert sys.store.log[..|sys.store.log|] == sys.store.log;
  }

  function VersionOf<S, E>(sys: System<S, E>): nat {
    if sys.store.row.Some? then sys.store.row.value.version else 0
  }

  /** No query moves the snapshot position back. The version changes only together with the snapshot, then by
      one, and then the position moves strictly forward; otherwise the snapshot stays the same. */
  ghost predicate MovesOn<S, E>(sys: System<S, E>, next: System<S, E>, q: Query<E>) {
    && sys.store.log <= next.store.log
    && (if VersionOf(next) == VersionOf(sys) then StoredSnapshot(next) == StoredSnapshot(sys)
        else && q.SaveSnapshot? && VersionOf(next) == VersionOf(sys) + 1 && StoredSnapshot(next).Some?
             && (StoredSnapshot(sys).Some? ==>
                  StoredSnapshot(sys).value.timeuuid < StoredSnapshot(next).value.timeuuid))
  }

  lemma SaveMovesOn<S(!new), E(!new)>(step: (S, E) -> S, init: S, sys: System<S, E>, q: Query<E>)
    requires q.SaveSnapshot? && Inv(step, init, sys) && Inv(step, init, Next(sys, step, init, q))
    ensures MovesOn(sys, Next(sys, step, init, q), q)
  {
    var next := Next(sys, step, init, q);
    if next.store != sys.store {
      SaveKeeps(step, init, sys, sys.nodes[q.node], Past(sys.nodes[q.node].events, q.now));
      if StoredSnapshot(sys).Some? {
        UpToOrdered(next.store.log, StoredSnapshot(sys).value.timeuuid, next.clock);
      }
    }
  }

  lemma PositionNeverMovesBack<S(!new), E(!new)>(step: (S, E) -> S, init: S, queries: seq<Query<E>>, q: Query<E>)
    ensures MovesOn(Run(step, init, queries), Run(step, init, queries + [q]), q)
  {
    assert (queries + [q])[..|queries|] == queries;
    if q.SaveSnapshot? {
      RunKeepsInv(step, init, queries);
      RunKeepsInv(step, init, queries + [q]);
      hide Inv, MovesOn;
      SaveMovesOn(step, init, Run(step, init, queries), q);
    }
  }

  /** `persist` ignores the answer of the store. For version 0 it inserts the row first, which may already be there.
      Its events are logged exactly when no snapshot was saved since the row was read, or since there was none to
      read: the version tells snapshots apart, not appends. */
  lemma {:induction false} EventsLoggedIffNoSnapshot<S(!new), E(!new)>(
    step: (S, E) -> S, init: S, before: seq<Query<E>>, between: seq<Query<E>>, events: seq<E>)
    requires events != []
    requires ReadRow(Run(step, init, before).store).version == 0 ==> InsertRow in between
    ensures var read, sys := Run(step, init, before), Run(step, init, before + between);
      var next := Next(sys, step, init, AppendEvents(ReadRow(read.store).version, events));
      && sys.store.row.Some?
      && (next.store.log == sys.store.log + Stamp(events, sys.clock) <==> StoredSnapshot(sys) == StoredSnapshot(read))
      && (next.store.log == sys.store.log <==> StoredSnapshot(sys) != StoredSnapshot(read))
  {
    RunKeepsInv(step, init, before);
    VersionGrows(step, init, before, between);
    var sys := Run(step, init, before + between);
    assert |sys.store.log + Stamp(events, sys.clock)| > |sys.store.log|;
  }

  lemma {:induction false} VersionGrows<S(!new), E(!new)>(
    step: (S, E) -> S, init: S, before: seq<Query<E>>, between: seq<Query<E>>)
    ensures var read, sys := Run(step, init, before), Run(step, init, before + between);
      && (read.store.row.Some? || InsertRow in between ==> sys.store.row.Some?)
      && VersionOf(read) <= VersionOf(sys)
      && (if VersionOf(read) == VersionOf(sys) then StoredSnapshot(sys) == StoredSnapshot(read)
          else && StoredSnapshot(sys).Some?
               && (StoredSnapshot(read).Some? ==>
                     StoredSnapshot(read).value.timeuuid < StoredSnapshot(sys).value.timeuuid))
  {
    if between == [] {
      assert before + between == before;
    } else {
      var init', q := between[..|between|-1], between[|between|-1];
      assert before + between == (before + init') + [q];
      VersionGrows(step, init, before, init');
      PositionNeverMovesBack(step, init, before + init', q);
      RunKeepsInv(step, init, before + between);
      assert (before + between)[..|before + init'|] == before + init';
      assert InsertRow in between <==> InsertRow in init' || q == InsertRow;
    }
  }
}
