/** Key providers of several nodes over one growing key chain. A call runs in segments: it asks the store and waits, and
    between two segments any other call, of the same node too, may run. Time is the same for all. */
module KeyChain {
  import opened Wrappers

  type Id = nat
  type Material = nat

  datatype Entry = Entry(material: Material, iat: nat, exp: nat)

  /** The chain of an owner: there is one as soon as there is a key, and the newest is the default. */
  datatype Chain = Chain(standard: Id, keys: map<Id, Entry>)

  /** Whether the cache is being filled or the default is being replaced, having been found expired at a time. */
  datatype Stage = First | Rotated(at: nat)

  datatype Phase =
    | Reading(stage: Stage)
    | Arriving(stage: Stage, result: Option<Chain>)
    | Creating(stage: Stage)

  /** What a call of getKey is about: its node, the id it asks for, None for the default key, and whether that id had
      been issued when it began. */
  datatype Request = Request(node: nat, wanted: Option<Id>, issued: bool)

  datatype Call = Call(request: Request, phase: Phase)

  /** A key handed out: the time its expiry was checked at, if it is a default key. */
  datatype Handed = Handed(request: Request, got: Option<(Id, Material)>, checked: nat)

  datatype World = World(chain: Option<Chain>, caches: map<nat, Chain>, calls: map<nat, Call>, clock: nat,
    log: seq<Handed>)

  datatype Step =
    | Advance(clock: nat)
    | Begin(call: nat, node: nat, wanted: Option<Id>)
    | Read(call: nat)
    | Arrive(call: nat)
    /** A new key for a call; the random parts are the id and the material. */
    | Create(call: nat, id: Id, material: Material)

  /** Milliseconds a key is valid for. */
  type Span = n: nat | n > 0 witness 1

  function Lookup(cache: Chain, wanted: Option<Id>): Option<(Id, Material)> {
    if wanted.Some? then
      if wanted.value in cache.keys then Some((wanted.value, cache.keys[wanted.value].material)) else None
    else if cache.standard in cache.keys then Some((cache.standard, cache.keys[cache.standard].material)) else None
  }

  function Waiting(w: World, call: nat, request: Request, phase: Phase): World {
    w.(calls := w.calls[call := Call(request, phase)])
  }

  function HandOut(w: World, call: nat, r: Request, checked: nat): World {
    var got := if r.node in w.caches then Lookup(w.caches[r.node], r.wanted) else None;
    w.(calls := w.calls - {call}, log := w.log + [Handed(r, got, checked)])
  }

  /** The rest of getKey once the cache is filled. */
  function Continue(w: World, call: nat, r: Request): World {
    if r.wanted.None? && r.node in w.caches
       && var cache := w.caches[r.node]; cache.standard in cache.keys && cache.keys[cache.standard].exp < w.clock
    then Waiting(w, call, r, Creating(Rotated(w.clock)))
    else HandOut(w, call, r, w.clock)
  }

  function Added(chain: Option<Chain>, id: Id, entry: Entry): Chain {
    Chain(id, if chain.Some? then chain.value.keys[id := entry] else map[id := entry])
  }

  predicate Enabled(w: World, s: Step) {
    match s
    case Advance(clock) => w.clock <= clock
    case Begin(call, _, _) => call !in w.calls
    case Read(call) => call in w.calls && w.calls[call].phase.Reading?
    case Arrive(call) => call in w.calls && w.calls[call].phase.Arriving?
    case Create(call, id, _) =>
      call in w.calls && w.calls[call].phase.Creating? && (w.chain.Some? ==> id !in w.chain.value.keys)
  }

  function Perform(span: Span, w: World, s: Step): World
    requires Enabled(w, s)
  {
    match s
    case Advance(clock) => w.(clock := clock)
    case Begin(call, node, wanted) =>
      var request := Request(node, wanted, wanted.Some? && w.chain.Some? && wanted.value in w.chain.value.keys);
      if node !in w.caches || (wanted.Some? && wanted.value !in w.caches[node].keys)
      then Waiting(w, call, request, Reading(First))
      else Continue(w, call, request)
    case Read(call) =>
      var c := w.calls[call];
      Waiting(w, call, c.request, Arriving(c.phase.stage, w.chain))
    case Arrive(call) =>
      var c := w.calls[call];
      if c.phase.result.None? then Waiting(w, call, c.request, Creating(c.phase.stage))
      else
        var filled := w.(caches := w.caches[c.request.node := c.phase.result.value]);
        if c.phase.stage.First? then Continue(filled, call, c.request)
        else HandOut(filled, call, c.request, c.phase.stage.at)
    case Create(call, id, material) =>
      var c := w.calls[call];
      Waiting(w.(chain := Some(Added(w.chain, id, Entry(material, w.clock, w.clock + span)))), call, c.request,
        Reading(c.phase.stage))
  }

  const START := World(None, map[], map[], 0, [])

  ghost predicate Runs(span: Span, steps: seq<Step>) {
    steps == [] ||
    var init, s := steps[..|steps|-1], steps[|steps|-1];
    Runs(span, init) && Enabled(Run(span, init), s)
  }

  ghost function Run(span: Span, steps: seq<Step>): World {
    if steps == [] then START
    else
      var w, s := Run(span, steps[..|steps|-1]), steps[|steps|-1];
      if Enabled(w, s) then Perform(span, w, s) else w
  }

  // ---- the invariant ----

  /** What was read of a chain earlier. */
  ghost predicate Within(c: Chain, chain: Option<Chain>) {
    && chain.Some? && c.standard in c.keys
    && forall id <- c.keys :: id in chain.value.keys && chain.value.keys[id] == c.keys[id]
  }

  ghost predicate GoodChain(span: Span, chain: Option<Chain>, clock: nat) {
    chain.Some? ==>
      && chain.value.standard in chain.value.keys
      && (forall id <- chain.value.keys :: chain.value.keys[id].exp == chain.value.keys[id].iat + span)
      && (forall id <- chain.value.keys :: chain.value.keys[id].iat <= chain.value.keys[chain.value.standard].iat)
      && chain.value.keys[chain.value.standard].iat <= clock
  }

  /** The default is at least as young as the time it was found expired. */
  ghost predicate Young(c: Chain, stage: Stage) {
    c.standard in c.keys && (stage.Rotated? ==> stage.at <= c.keys[c.standard].iat)
  }

  ghost predicate GoodCall(chain: Option<Chain>, clock: nat, c: Call) {
    && (c.request.issued ==> c.request.wanted.Some? && chain.Some? && c.request.wanted.value in chain.value.keys)
    && match c.phase
    case Reading(stage) => stage.Rotated? ==> c.request.wanted.None? && chain.Some? && Young(chain.value, stage)
    case Arriving(stage, result) =>
      && (stage.Rotated? ==> c.request.wanted.None? && result.Some?)
      && (result.Some? ==> Within(result.value, chain) && Young(result.value, stage))
      && (c.request.issued ==> result.Some? && c.request.wanted.value in result.value.keys)
    case Creating(stage) => stage.Rotated? ==> c.request.wanted.None? && stage.at <= clock
  }

  /** The key is the one of the chain; the id is the one asked for, and it is found if it was issued when the call
      began; a default key had not expired when checked. */
  ghost predicate GoodHanded(chain: Option<Chain>, h: Handed) {
    && (h.got.Some? ==> chain.Some? && h.got.value.0 in chain.value.keys
                        && chain.value.keys[h.got.value.0].material == h.got.value.1)
    && (h.got.Some? && h.request.wanted.Some? ==> h.got.value.0 == h.request.wanted.value)
    && (h.request.issued ==> h.got.Some?)
    && (h.request.wanted.None? ==> h.got.Some? && h.checked <= chain.value.keys[h.got.value.0].exp)
  }

  ghost predicate Inv(span: Span, w: World) {
    && GoodChain(span, w.chain, w.clock)
    && (forall node <- w.caches :: Within(w.caches[node], w.chain))
    && (forall call <- w.calls :: GoodCall(w.chain, w.clock, w.calls[call]))
    && (forall h <- w.log :: GoodHanded(w.chain, h))
  }

  /** A chain grows: an id keeps its entry. */
  ghost predicate Grown(before: Option<Chain>, after: Option<Chain>) {
    before.Some? ==>
      && after.Some?
      && forall id <- before.value.keys :: id in after.value.keys && after.value.keys[id] == before.value.keys[id]
  }

  /** The invariant but for one call. */
  ghost predicate InvBut(span: Span, w: World, call: nat) { Inv(span, w.(calls := w.calls - {call})) }

  lemma CreateKeeps(span: Span, w: World, call: nat, id: Id, material: Material)
    requires Inv(span, w) && Enabled(w, Create(call, id, material))
    ensures Inv(span, Perform(span, w, Create(call, id, material)))
    ensures Grown(w.chain, Perform(span, w, Create(call, id, material)).chain)
  {
    var next := Perform(span, w, Create(call, id, material));
    assert GoodCall(w.chain, w.clock, w.calls[call]);
    assert GoodChain(span, next.chain, next.clock);
    forall node | node in next.caches ensures Within(next.caches[node], next.chain) {
      assert Within(w.caches[node], w.chain);
    }
    forall other | other in next.calls ensures GoodCall(next.chain, next.clock, next.calls[other]) {
      if other != call {
        assert GoodCall(w.chain, w.clock, w.calls[other]);
      }
    }
    forall h | h in next.log ensures GoodHanded(next.chain, h) {
      assert GoodHanded(w.chain, h);
    }
  }

  /** Handing out what the cache holds. */
  lemma HandOutKeeps(span: Span, w: World, call: nat, r: Request, checked: nat)
    requires InvBut(span, w, call) && r.node in w.caches
    requires r.issued ==> r.wanted.Some? && r.wanted.value in w.caches[r.node].keys
    requires r.wanted.None? ==> var cache := w.caches[r.node];
      cache.standard in cache.keys && checked <= cache.keys[cache.standard].exp
    ensures Inv(span, HandOut(w, call, r, checked))
  {
    assert Within(w.caches[r.node], w.chain);
    var handed := Handed(r, Lookup(w.caches[r.node], r.wanted), checked);
    assert GoodHanded(w.chain, handed);
  }

  lemma WaitingKeeps(span: Span, w: World, call: nat, c: Call)
    requires InvBut(span, w, call) && GoodCall(w.chain, w.clock, c)
    ensures Inv(span, Waiting(w, call, c.request, c.phase))
  {
    var less, next := w.(calls := w.calls - {call}), Waiting(w, call, c.request, c.phase);
    forall other | other in next.calls ensures GoodCall(next.chain, next.clock, next.calls[other]) {
      if other != call {
        assert other in less.calls;
      }
    }
  }

  lemma ContinueKeeps(span: Span, w: World, call: nat, r: Request)
    requires InvBut(span, w, call) && r.node in w.caches
    requires r.issued ==> r.wanted.Some? && r.wanted.value in w.caches[r.node].keys
    ensures Inv(span, Continue(w, call, r))
  {
    var cache := w.caches[r.node];
    assert Within(cache, w.chain);
    hide Inv, InvBut, HandOut, Waiting;
    if r.wanted.None? && cache.keys[cache.standard].exp < w.clock {
      WaitingKeeps(span, w, call, Call(r, Creating(Rotated(w.clock))));
    } else {
      HandOutKeeps(span, w, call, r, w.clock);
    }
  }

  lemma ArriveKeeps(span: Span, w: World, call: nat)
    requires Inv(span, w) && Enabled(w, Arrive(call))
    ensures Inv(span, Perform(span, w, Arrive(call)))
  {
    var c := w.calls[call];
    assert GoodCall(w.chain, w.clock, c);
    if c.phase.result.None? {
      WaitingKeeps(span, w, call, Call(c.request, Creating(c.phase.stage)));
    } else {
      var result := c.phase.result.value;
      var filled := w.(caches := w.caches[c.request.node := result]);
      assert InvBut(span, filled, call);
      if c.phase.stage.First? {
        ContinueKeeps(span, filled, call, c.request);
      } else {
        assert w.chain.value.keys[result.standard].exp == result.keys[result.standard].iat + span;
        HandOutKeeps(span, filled, call, c.request, c.phase.stage.at);
      }
    }
  }

  lemma StepKeeps(span: Span, w: World, s: Step)
    requires Inv(span, w) && Enabled(w, s)
    ensures Inv(span, Perform(span, w, s)) && Grown(w.chain, Perform(span, w, s).chain)
  {
    match s
    case Advance(_) =>
    case Begin(call, node, wanted) =>
      assert InvBut(span, w, call);
      var r := Request(node, wanted, wanted.Some? && w.chain.Some? && wanted.value in w.chain.value.keys);
      if node !in w.caches || (wanted.Some? && wanted.value !in w.caches[node].keys) {
        WaitingKeeps(span, w, call, Call(r, Reading(First)));
      } else {
        ContinueKeeps(span, w, call, r);
      }
    case Read(call) =>
      var c := w.calls[call];
      assert GoodCall(w.chain, w.clock, c);
      WaitingKeeps(span, w, call, Call(c.request, Arriving(c.phase.stage, w.chain)));
    case Arrive(call) => ArriveKeeps(span, w, call);
    case Create(call, id, material) => CreateKeeps(span, w, call, id, material);
  }

  /** Under every interleaving: every key handed out is the chain's key for that id, the one asked for; every id issued
      before the call is found; every default key handed out had not expired when checked. */
  lemma {:induction false} RunsKeep(span: Span, steps: seq<Step>)
    requires Runs(span, steps)
    ensures Inv(span, Run(span, steps))
  {
    if steps != [] {
      RunsKeep(span, steps[..|steps|-1]);
      StepKeeps(span, Run(span, steps[..|steps|-1]), steps[|steps|-1]);
    }
  }

  lemma {:induction false} PrefixGrows(span: Span, steps: seq<Step>, n: nat)
    requires Runs(span, steps) && n <= |steps|
    ensures Runs(span, steps[..n]) && Grown(Run(span, steps[..n]).chain, Run(span, steps).chain)
  {
    if n < |steps| {
      var init := steps[..|steps|-1];
      PrefixGrows(span, init, n);
      assert init[..n] == steps[..n];
      RunsKeep(span, init);
      StepKeeps(span, Run(span, init), steps[|steps|-1]);
    } else {
      assert steps[..n] == steps;
    }
  }

  /** An id once issued yields the same key material on every node, forever: what was handed out at one point of a run
      is what is handed out for the same id at any later point. */
  lemma SameMaterialForever(span: Span, steps: seq<Step>, n: nat, earlier: Handed, later: Handed)
    requires Runs(span, steps) && n <= |steps|
    requires earlier in Run(span, steps[..n]).log && later in Run(span, steps).log
    requires earlier.got.Some? && later.got.Some? && earlier.got.value.0 == later.got.value.0
    ensures earlier.got.value.1 == later.got.value.1
  {
    PrefixGrows(span, steps, n);
    RunsKeep(span, steps[..n]);
    RunsKeep(span, steps);
    var before, after := Run(span, steps[..n]), Run(span, steps);
    assert GoodHanded(before.chain, earlier) && GoodHanded(after.chain, later);
  }

  // ---- a call ends ----

  /** The segments a call still needs at most. */
  ghost function Rank(chain: Option<Chain>, phase: Phase): nat {
    match phase
    case Reading(First) => if chain.None? then 8 else 5
    case Arriving(First, None) => 7
    case Creating(First) => 6
    case Arriving(First, Some(_)) => 4
    case Creating(Rotated(_)) => 3
    case Reading(Rotated(_)) => 2
    case Arriving(Rotated(_), _) => 1
  }

  ghost function RankOf(w: World, call: nat): nat {
    if call in w.calls then Rank(w.chain, w.calls[call].phase) else 0
  }

  ghost predicate Belongs(s: Step, call: nat) {
    match s
    case Advance(_) => false
    case Begin(c, _, _) => c == call
    case Read(c) => c == call
    case Arrive(c) => c == call
    case Create(c, _, _) => c == call
  }

  /** A step of a call that is under way brings it nearer its end, and no other step puts it back. */
  lemma RankFalls(span: Span, w: World, s: Step, call: nat)
    requires Inv(span, w) && Enabled(w, s) && call in w.calls
    ensures RankOf(Perform(span, w, s), call) <= RankOf(w, call) - if Belongs(s, call) then 1 else 0
  {
    assert GoodCall(w.chain, w.clock, w.calls[call]);
  }

  ghost function StepsOf(steps: seq<Step>, call: nat): nat {
    if steps == [] then 0 else StepsOf(steps[..|steps|-1], call) + if Belongs(steps[|steps|-1], call) then 1 else 0
  }

  /** However others interfere, a call under way takes at most 8 more segments: refreshing the cache ends. */
  lemma {:induction false} RefreshEnds(span: Span, before: seq<Step>, steps: seq<Step>, call: nat)
    requires Runs(span, before + steps)
    requires call in Run(span, before).calls
    requires forall k :: 0 <= k < |steps| ==> !(steps[k].Begin? && steps[k].call == call)
    ensures StepsOf(steps, call) + RankOf(Run(span, before + steps), call) <= RankOf(Run(span, before), call) <= 8
  {
    if steps == [] {
      assert before + steps == before;
    } else {
      var init, s := steps[..|steps|-1], steps[|steps|-1];
      assert (before + steps)[..|before + steps|-1] == before + init;
      RefreshEnds(span, before, init, call);
      RunsKeep(span, before + init);
      var w := Run(span, before + init);
      if call in w.calls {
        RankFalls(span, w, s, call);
      }
    }
  }

  // ---- an id that is not there ----

  lemma {:induction false} OthersLeave(span: Span, before: seq<Step>, steps: seq<Step>, call: nat)
    requires Runs(span, before + steps) && call in Run(span, before).calls
    requires forall k :: 0 <= k < |steps| ==> !Belongs(steps[k], call)
    ensures Runs(span, before) && call in Run(span, before + steps).calls
    ensures Run(span, before + steps).calls[call] == Run(span, before).calls[call]
  {
    if steps == [] {
      assert before + steps == before;
    } else {
      var last := |steps| - 1;
      assert (before + steps)[..|before + steps|-1] == before + steps[..last];
      OthersLeave(span, before, steps[..last], call);
    }
  }

  /** A call for a given id asks the store, and whatever others do until the answer arrives: it then has a new key made
      exactly if there was no chain when it asked. Whether the id was ever issued makes no difference. */
  lemma CreatesForIdIff(span: Span, before: seq<Step>, between: seq<Step>, call: nat)
    requires Runs(span, before + [Read(call)] + between + [Arrive(call)])
    requires forall k :: 0 <= k < |between| ==> !Belongs(between[k], call)
    requires call in Run(span, before).calls && Run(span, before).calls[call].request.wanted.Some?
    ensures var after := Run(span, before + [Read(call)] + between + [Arrive(call)]);
      (call in after.calls && after.calls[call].phase.Creating?) <==> Run(span, before).chain.None?
  {
    var asked := before + [Read(call)];
    var all := asked + between;
    assert (all + [Arrive(call)])[..|all|] == all;
    RunsPrefix(span, asked, between);
    assert asked[..|before|] == before;
    assert call in Run(span, asked).calls by { hide Runs; }
    OthersLeave(span, asked, between, call);
    RunsKeep(span, all);
    assert GoodCall(Run(span, all).chain, Run(span, all).clock, Run(span, all).calls[call]);
  }

  lemma RunsPrefix(span: Span, before: seq<Step>, steps: seq<Step>)
    requires Runs(span, before + steps)
    ensures Runs(span, before)
  {
    PrefixGrows(span, before + steps, |before|);
    assert (before + steps)[..|before|] == before;
  }

  lemma OneMore(span: Span, steps: seq<Step>, s: Step)
    requires Runs(span, steps) && Enabled(Run(span, steps), s)
    ensures Runs(span, steps + [s]) && Run(span, steps + [s]) == Perform(span, Run(span, steps), s)
  {
    assert (steps + [s])[..|steps|] == steps;
  }

  /** So an id that was never issued leaves a key of another id behind, and yields none. */
  lemma UnknownIdLeavesKey(span: Span, id: Id, made: Id, material: Material)
    requires id != made
    ensures var steps := [Begin(0, 0, Some(id)), Read(0), Arrive(0)] + [Create(0, made, material), Read(0), Arrive(0)];
      && Runs(span, steps)
      && Run(span, steps).chain == Some(Chain(made, map[made := Entry(material, 0, span)]))
      && Run(span, steps).log == [Handed(Request(0, Some(id), false), None, 0)]
  {
    var r, create := Request(0, Some(id), false), Create(0, made, material);
    var chain := Chain(made, map[made := Entry(material, 0, span)]);
    AsksInVain(span, id);
    var three := [Begin(0, 0, Some(id)), Read(0), Arrive(0)];
    hide Run, Runs;
    OneMore(span, three, create);
    assert Run(span, three + [create]) == World(Some(chain), map[], map[0 := Call(r, Reading(First))], 0, []);
    OneMore(span, three + [create], Read(0));
    var arriving := World(Some(chain), map[], map[0 := Call(r, Arriving(First, Some(chain)))], 0, []);
    assert Run(span, three + [create] + [Read(0)]) == arriving;
    OneMore(span, three + [create] + [Read(0)], Arrive(0));
    assert three + [create] + [Read(0)] + [Arrive(0)] == three + [create, Read(0), Arrive(0)];
  }

  lemma AsksInVain(span: Span, id: Id)
    ensures var steps := [Begin(0, 0, Some(id)), Read(0), Arrive(0)];
      && Runs(span, steps)
      && Run(span, steps) == World(None, map[], map[0 := Call(Request(0, Some(id), false), Creating(First))], 0, [])
  {
    var r, begin := Request(0, Some(id), false), Begin(0, 0, Some(id));
    assert Run(span, []) == START;
    hide Run;
    OneMore(span, [], begin);
    assert [] + [begin] == [begin];
    assert Run(span, [begin]) == World(None, map[], map[0 := Call(r, Reading(First))], 0, []);
    OneMore(span, [begin], Read(0));
    assert Run(span, [begin] + [Read(0)]) == World(None, map[], map[0 := Call(r, Arriving(First, None))], 0, []);
    OneMore(span, [begin] + [Read(0)], Arrive(0));
    assert [begin] + [Read(0)] + [Arrive(0)] == [begin, Read(0), Arrive(0)];
  }
}
