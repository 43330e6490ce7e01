/** Joins fire exactly when all branches have arrived, and no element multiplies a token. */
module FlowTokens {
  import opened Wrappers
  import opened FlowTypes
  import opened FlowMachines
  import opened FlowSpec

  // ---- the parallel join ----

  predicate Covers(seen: set<Id>, incoming: seq<Id>) { forall x <- incoming :: x in seen }

  /** A step of a parallel gateway: an activation, a ProcessGateway of one of its branches, or a persist and load. An
      activation does not wait for its ProcessGateway, so they may come in any order. */
  ghost predicate ForJoin(el: Element, step: ModelStep) {
    step.Do? ==> match step.command
      case ActivateElement(e, _, _) => e == el
      case ProcessGateway(id, previous) => id == el.id && previous.Some? && previous.value in el.incoming
      case _ => false
  }

  predicate WasActivated(steps: seq<ModelStep>) {
    steps != [] && (IsActivation(steps[|steps|-1]) || WasActivated(steps[..|steps|-1]))
  }

  /** The branch that arrives with the last step, if one does: before its first activation a gateway ignores them. */
  function Arriving(steps: seq<ModelStep>): Option<Id> {
    if steps == [] then None
    else
      var last := steps[|steps|-1];
      if IsProcessing(last) && WasActivated(steps[..|steps|-1]) then last.command.previous else None
  }

  /** Reference definition: the branches seen since the gateway last fired. */
  function Open(incoming: seq<Id>, steps: seq<ModelStep>): set<Id> {
    if steps == [] then {} else
    var before, branch := Open(incoming, steps[..|steps|-1]), Arriving(steps);
    if branch.None? then before
    else if Covers(before + {branch.value}, incoming) then {} else before + {branch.value}
  }

  predicate Fires(incoming: seq<Id>, steps: seq<ModelStep>) {
    steps != [] && Arriving(steps).Some?
      && Covers(Open(incoming, steps[..|steps|-1]) + {Arriving(steps).value}, incoming)
  }

  ghost predicate NoDuplicates<T(!new)>(s: seq<T>) { forall i, j :: 0 <= i < j < |s| ==> s[i] != s[j] }

  /** The list a gateway collects never holds a branch twice; between firings it holds the open branches and nothing
      else. */
  ghost predicate Collected(m: ModelValue, open: set<Id>) {
    && m.machine.GatewayMachine? && NoDuplicates(m.core.context.incoming)
    && (open == {} ==> m.core.state.Idle?)
    && (open != {} ==>
          && m.core.state.Active? && m.core.typ.ParallelGateway?
          && forall x :: x in m.core.context.incoming <==> x.Some? && x.value in open)
  }

  lemma {:induction false} SetOfList(s: seq<Option<Id>>) returns (all: set<Option<Id>>)
    requires NoDuplicates(s)
    ensures |all| == |s| && forall x :: x in all <==> x in s
  {
    if s == [] {
      all := {};
    } else {
      var last := |s| - 1;
      all := SetOfList(s[..last]);
      assert NoDuplicates(s[..last]) && s[last] !in s[..last];
      assert s == s[..last] + [s[last]];
      hide NoDuplicates;
      all := all + {s[last]};
    }
  }

  /** A duplicate-free list inside the incoming list is as long exactly when it covers it. */
  lemma LengthMeansCover(list: seq<Option<Id>>, open: set<Id>, incoming: seq<Id>)
    requires NoDuplicates(list) && NoDuplicates(incoming)
    requires forall x :: x in list <==> x.Some? && x.value in open
    requires forall x <- open :: x in incoming
    ensures |list| == |incoming| <==> Covers(open, incoming)
  {
    var wrapped := seq(|incoming|, i requires 0 <= i < |incoming| => Some(incoming[i]));
    var have := SetOfList(list);
    var want := SetOfList(wrapped);
    assert forall i :: 0 <= i < |incoming| ==> Some(incoming[i]) == wrapped[i];
    forall x | x in have ensures x in want {
      var i :| 0 <= i < |incoming| && incoming[i] == x.value;
      assert wrapped[i] == x;
    }
    if |list| == |incoming| {
      if have != want { StrictSmaller(have, want); }
      forall x | x in incoming ensures x in open {
        var i :| 0 <= i < |incoming| && incoming[i] == x;
        assert wrapped[i] in want;
      }
    }
    if Covers(open, incoming) {
      forall x | x in want ensures x in have {
        var i :| 0 <= i < |wrapped| && wrapped[i] == x;
        assert incoming[i] in open;
      }
      assert have == want;
    }
  }

  lemma StrictSmaller<T>(a: set<T>, b: set<T>)
    requires a < b
    ensures |a| < |b|
  {
    assert b == a + (b - a);
  }

  lemma Performed(r: Ran, a: Action, rest: seq<Action>)
    ensures PerformAll(r, []) == r
    ensures PerformAll(r, [a]) == Perform(r, a)
    ensures PerformAll(r, rest + [a]) == Perform(PerformAll(r, rest), a)
  {
    assert [a][..0] == [] && (rest + [a])[..|rest|] == rest;
  }

  lemma TwoPerformed(r: Ran, a: Action, b: Action)
    ensures PerformAll(r, [a, b]) == Perform(Perform(r, a), b)
  {
    hide Perform;
    Performed(r, a, []);
    Performed(r, b, [a]);
    assert [a] + [b] == [a, b];
  }

  /** What the activation of a gateway does to it. */
  lemma GatewayEffect(core: Core, el: Element)
    ensures HandleEvent(GatewayMachine, core, GatewayActivated(el.id, el, GatewayType(el)))
         == Handled(core.(typ := GatewayType(el), context := core.context.(element := Some(el))), [])
  {
  }

  lemma GatewayCommand(m: ModelValue, el: Element, previous: Option<Id>, scoped: Option<Value>, env: Env)
    requires m.machine.GatewayMachine?
    ensures HandleCommand(m.uid, m.machine, m.core, ActivateElement(el, previous, scoped), env)
         == Some([Emit(GatewayActivated(el.id, el, GatewayType(el))), Execute(ProcessGateway(el.id, previous))])
  {
  }

  /** An activation sets the element and the type, and issues the ProcessGateway. */
  lemma GatewayActivation(m: ModelValue, el: Element, previous: Option<Id>, scoped: Option<Value>, env: Env)
    requires m.machine.GatewayMachine? && el.id == m.uid
    ensures var r := Dispatch(m, ActivateElement(el, previous, scoped), env, 0);
      && r.executes == [ProcessGateway(el.id, previous)]
      && r.model.uid == m.uid && r.model.machine == m.machine
      && r.model.core == m.core.(typ := GatewayType(el), context := m.core.context.(element := Some(el)))
  {
    GatewayCommand(m, el, previous, scoped, env);
    GatewayEffect(m.core, el);
    var actions := [Emit(GatewayActivated(el.id, el, GatewayType(el))), Execute(ProcessGateway(el.id, previous))];
    TwoPerformed(Ran(m, [], [], [], 0), actions[0], actions[1]);
    hide HandleCommand, HandleEvent, PerformAll, GatewayType;
  }

  /** Taking an arrival at a parallel gateway, up to the check whether to fire. */
  lemma JoinArrival(m: ModelValue, branch: Option<Id>, env: Env, clock: nat)
    requires m.machine.GatewayMachine? && m.core.typ.ParallelGateway?
    ensures var taken := EmitFrom(Ran(m, [], [], [], clock), GatewayProcessed(m.uid, branch));
      Dispatch(m, ProcessGateway(m.uid, branch), env, clock) == Perform(taken, JoinCheck)
  {
    var actions := [Emit(GatewayProcessed(m.uid, branch)), JoinCheck];
    assert HandleCommand(m.uid, m.machine, m.core, ProcessGateway(m.uid, branch), env) == Some(actions);
    hide HandleCommand, HandleEvent, PerformAll;
    TwoPerformed(Ran(m, [], [], [], clock), actions[0], actions[1]);
  }

  /** What an arrival and a completion do to a parallel gateway. */
  lemma JoinEffect(core: Core, id: Id, previous: Option<Id>)
    requires core.typ.ParallelGateway? && core.context.element.Some? && core.state in {Idle, Active}
    ensures var list := if core.state.Idle? then [previous] else FlowMachines.Arrive(core.context.incoming, previous);
      HandleEvent(GatewayMachine, core, GatewayProcessed(id, previous))
        == Handled(core.(state := Active, context := core.context.(incoming := list)), [])
    ensures core.state.Active? ==>
      HandleEvent(GatewayMachine, core, GatewayCompleted(id))
        == Handled(core.(state := Idle), [ActivateNext(core.context.element.value.id)])
  {
  }

  lemma JoinStep(gate: ModelValue, el: Element, branch: Id, open: set<Id>, clock: nat)
    requires gate.uid == el.id && NoDuplicates(el.incoming) && gate.core.context.element == Some(el)
    requires Collected(gate, open) && gate.core.typ.ParallelGateway? && branch in el.incoming
      && forall x <- open :: x in el.incoming
    ensures var seen := open + {branch};
      var r := Perform(EmitFrom(Ran(gate, [], [], [], clock), GatewayProcessed(el.id, Some(branch))), JoinCheck);
      && r.executes == (if Covers(seen, el.incoming) then [ActivateNext(el.id)] else [])
      && r.model.uid == gate.uid && Collected(r.model, if Covers(seen, el.incoming) then {} else seen)
  {
    var taken := EmitFrom(Ran(gate, [], [], [], clock), GatewayProcessed(el.id, Some(branch)));
    JoinTakes(gate, el, branch, open, clock);
    LengthMeansCover(taken.model.core.context.incoming, open + {branch}, el.incoming);
    JoinChecked(taken);
    hide EmitFrom, HandleEvent, Covers, Perform;
  }

  lemma JoinTakes(gate: ModelValue, el: Element, branch: Id, open: set<Id>, clock: nat)
    requires gate.uid == el.id && gate.core.context.element == Some(el)
    requires Collected(gate, open) && gate.core.typ.ParallelGateway?
    ensures var r := EmitFrom(Ran(gate, [], [], [], clock), GatewayProcessed(el.id, Some(branch)));
      && r.executes == [] && r.model.uid == gate.uid && Collected(r.model, open + {branch})
      && r.model.core.typ == gate.core.typ && r.model.core.context.element == Some(el) && r.model.core.state.Active?
  {
    JoinEffect(gate.core, el.id, Some(branch));
    hide HandleEvent;
  }

  /** The check completes the gateway if the list is long enough. */
  lemma JoinChecked(r: Ran)
    requires r.model.core.typ.ParallelGateway? && r.model.core.state.Active? && r.model.core.context.element.Some?
    requires r.model.core.context.element.value.id == r.model.uid && r.model.machine.GatewayMachine?
    ensures var core := r.model.core;
      var done := Perform(r, JoinCheck);
      if |core.context.incoming| == |core.context.element.value.incoming| then
        && done.executes == r.executes + [ActivateNext(r.model.uid)] && done.model.uid == r.model.uid
        && done.model.machine == r.model.machine && done.model.core == core.(state := Idle)
      else done == r
  {
    JoinEffect(r.model.core, r.model.uid, None);
    hide HandleEvent;
  }

  /** A gateway of this element between two steps: it has its type and element from the first activation on. */
  ghost predicate Joining(m: ModelValue, el: Element, activated: bool, open: set<Id>) {
    && m.uid == el.id && Collected(m, open) && (forall x <- open :: x in el.incoming)
    && (if activated then m.core.typ.ParallelGateway? && m.core.context.element == Some(el)
        else m.core.typ.NoType? && open == {})
  }

  /** What a step makes the gateway issue. */
  function JoinIssues(el: Element, step: ModelStep, fires: bool): seq<Command> {
    if IsActivation(step) then [ProcessGateway(el.id, step.command.previous)]
    else if fires then [ActivateNext(el.id)] else []
  }

  lemma JoinMove(m: ModelValue, el: Element, step: ModelStep, activated: bool, open: set<Id>)
    requires el.kind.ParallelKind? && NoDuplicates(el.incoming) && Joining(m, el, activated, open) && ForJoin(el, step)
    ensures var r := TakeStep(m, step);
      var arrives := IsProcessing(step) && activated;
      var seen := if arrives then open + {step.command.previous.value} else open;
      var fires := arrives && Covers(seen, el.incoming);
      && r.executes == JoinIssues(el, step, fires)
      && Joining(r.model, el, activated || IsActivation(step), if fires then {} else seen)
  {
    if IsActivation(step) {
      GatewayActivation(m, el, step.command.previous, step.command.scoped, step.env);
      hide Dispatch;
    } else if IsProcessing(step) {
      if activated {
        JoinArrival(m, step.command.previous, step.env, 0);
        hide Dispatch;
        JoinStep(m, el, step.command.previous.value, open, 0);
        JoinKeepsElement(m, step.command.previous.value, 0);
      } else {
        assert HandleCommand(m.uid, m.machine, m.core, step.command, step.env).None?;
      }
    }
  }

  lemma JoinKeepsElement(gate: ModelValue, branch: Id, clock: nat)
    requires gate.machine.GatewayMachine? && gate.core.typ.ParallelGateway? && gate.core.context.element.Some?
    requires gate.core.context.element.value.id == gate.uid && gate.core.state in {Idle, Active}
    ensures var r := Perform(EmitFrom(Ran(gate, [], [], [], clock), GatewayProcessed(gate.uid, Some(branch))),
      JoinCheck);
      r.model.core.typ == gate.core.typ && r.model.core.context.element == gate.core.context.element
  {
    JoinEffect(gate.core, gate.uid, Some(branch));
    hide HandleEvent;
    var taken := EmitFrom(Ran(gate, [], [], [], clock), GatewayProcessed(gate.uid, Some(branch)));
    JoinEffect(taken.model.core, gate.uid, None);
  }

  /** However activations, ProcessGateways, persists and loads interleave: the join issues ActivateNext at exactly those
      steps at which the branches seen since it last fired first cover all incoming branches, one ProcessGateway for
      each activation, and nothing else; it never lists a branch twice. */
  lemma {:induction false} JoinFiresOnCover(m: ModelValue, el: Element, steps: seq<ModelStep>)
    requires m == NewModel(el.id, GatewayMachine, m.meta, None)
    requires el.kind.ParallelKind? && NoDuplicates(el.incoming)
    requires forall s <- steps :: ForJoin(el, s)
    ensures Joining(IssuedOver(m, steps).0, el, WasActivated(steps), Open(el.incoming, steps))
    ensures steps != [] ==>
      TakeStep(IssuedOver(m, steps[..|steps|-1]).0, steps[|steps|-1]).executes
        == JoinIssues(el, steps[|steps|-1], Fires(el.incoming, steps))
  {
    if steps != [] {
      var init, s := steps[..|steps|-1], steps[|steps|-1];
      assert ForJoin(el, s);
      JoinFiresOnCover(m, el, init);
      JoinMove(IssuedOver(m, init).0, el, s, WasActivated(init), Open(el.incoming, init));
      hide Joining, TakeStep, JoinIssues, Covers;
    }
  }

  // ---- tokens of event elements ----

  datatype ModelStep = Do(command: Command, env: Env) | Reload

  /** The command was routed to this model, and ids created by the engine are new. */
  ghost predicate Addressed(uid: Id, step: ModelStep) {
    step.Do? ==>
      && step.env.freshId != uid
      && match step.command
         case ActivateElement(el, _, _) => el.id == uid
         case RaiseEvent(el, _) => el.id == uid
         case ProcessEvent(id) => id == uid
         case ProcessGateway(id, _) => id == uid
         case CommitEvent(id, _, _) => id == uid
         case _ => true
  }

  function TakeStep(m: ModelValue, step: ModelStep): Ran {
    match step
    case Do(c, env) => Dispatch(m, c, env, 0)
    case Reload => Ran(Reloaded(m), [], [], [], 0)
  }

  predicate IsOccured(e: Event) { e.EventOccured? }
  predicate IsActivated(e: Event) { e.EventActivated? }
  predicate IsOnward(c: Command) { c.ActivateNext? || c.ConditionalNext? }

  function Count<T>(s: seq<T>, p: T -> bool): nat {
    if s == [] then 0 else Count(s[..|s|-1], p) + if p(s[|s|-1]) then 1 else 0
  }

  lemma {:induction false} CountConcat<T>(a: seq<T>, b: seq<T>, p: T -> bool)
    ensures Count(a + b, p) == Count(a, p) + Count(b, p)
  {
    if b == [] {
      assert a + b == a;
    } else {
      assert (a + b)[..|a + b| - 1] == a + b[..|b| - 1];
      CountConcat(a, b[..|b| - 1], p);
    }
  }

  lemma CountOne<T>(x: T, p: T -> bool)
    ensures Count([x], p) == (if p(x) then 1 else 0) && Count([], p) == 0
  {
    assert [x][..0] == [];
  }

  /** Counts over a run: activations and occurrences applied, onward commands issued. */
  datatype Tally = Tally(model: ModelValue, activations: nat, occurrences: nat, onward: nat)

  function TallyOf(m: ModelValue, steps: seq<ModelStep>): Tally {
    if steps == [] then Tally(m, 0, 0, 0) else
    var t := TallyOf(m, steps[..|steps|-1]);
    var r := TakeStep(t.model, steps[|steps|-1]);
    Tally(r.model, t.activations + Count(r.applied, IsActivated), t.occurrences + Count(r.applied, IsOccured),
          t.onward + Count(r.executes, IsOnward))
  }

  function Token(m: ModelValue): nat { if m.core.state.Activated? then 1 else 0 }

  /** An element model is registered under the id of its element. */
  ghost predicate Registered(m: ModelValue) {
    m.core.context.element.Some? ==> m.core.context.element.value.id == m.uid
  }

  /** The tokens of a partly run handler: it has not issued more onward commands than occurrences, and the
      occurrences are paid for by the activations. */
  ghost predicate Paid(m: ModelValue, r: Ran, owed: nat) {
    && r.model.uid == m.uid && r.model.machine.EventMachine? && Registered(r.model)
    && Count(r.executes, IsOnward) + owed <= Count(r.applied, IsOccured)
    && Count(r.applied, IsOccured) + Token(r.model) <= Count(r.applied, IsActivated) + Token(m)
  }

  lemma {:induction false} PerformConcat(r: Ran, a: seq<Action>, b: seq<Action>)
    ensures PerformAll(r, a + b) == PerformAll(PerformAll(r, a), b)
  {
    if b == [] {
      assert a + b == a;
    } else {
      assert (a + b)[..|a + b| - 1] == a + b[..|b| - 1];
      PerformConcat(r, a, b[..|b| - 1]);
    }
  }

  /** The output mappings of an element only issue AddContext commands. */
  lemma {:induction false} OutputsPaid(m: ModelValue, r: Ran, el: Element, k: nat)
    requires k <= |el.output| && Paid(m, r, 0)
    ensures var done := PerformAll(r, Outputs(el)[..k]);
      Paid(m, done, 0) && done.model == r.model && done.applied == r.applied && done.clock == r.clock
  {
    if k > 0 {
      OutputsPaid(m, r, el, k - 1);
      assert Outputs(el)[..k][..k-1] == Outputs(el)[..k-1];
      ContextPaid(m, PerformAll(r, Outputs(el)[..k-1]), AddContext(el.id, el.output[k-1]));
      hide Paid, Perform;
    } else {
      assert Outputs(el)[..0] == [];
    }
  }

  lemma ContextPaid(m: ModelValue, r: Ran, c: Command)
    requires c.AddContext? && Paid(m, r, 0)
    ensures var done := Perform(r, Execute(c));
      Paid(m, done, 0) && done.model == r.model && done.applied == r.applied && done.clock == r.clock
  {
    CountConcat(r.executes, [c], IsOnward);
    CountOne(c, IsOnward);
  }

  /** The events an event element emits to itself. */
  ghost predicate OwnEvent(uid: Id, e: Event) {
    match e
    case EventActivated(id, el, _, _, _) => id == uid && el.id == uid
    case EventOccured(id, _) => id == uid
    case TimerScheduled(id, _) => id == uid
    case EventSubscriptionAdded(id, _) => id == uid
    case _ => false
  }

  /** What each of these events does to the state, and what it issues. */
  lemma EventEffect(core: Core, e: Event, uid: Id)
    requires OwnEvent(uid, e)
    ensures var out := HandleEvent(EventMachine, core, e);
      && (e.EventActivated? ==>
           out.Handled? && out.core.state.Activated? && out.executes == []
           && out.core.context.element == Some(e.element))
      && (!e.EventActivated? && !out.NotHandled? ==>
           out.core.context.element == core.context.element && core.state.Activated?)
      && (e.EventOccured? && !out.NotHandled? ==> out.core.state.Finished?)
      && (!e.EventActivated? && !e.EventOccured? && !out.NotHandled? ==>
           out.Handled? && out.core.state == core.state && out.executes == [])
      && (out.Handled? ==>
            && |out.executes| <= 1
            && (core.typ in {MessageThrowing, EndMessageThrowing} ==> out.executes == []))
      && (core.state.Activated? && core.typ in {MessageThrowing, EndMessageThrowing} && e.EventOccured? ==>
           out.Handled?)
  {
  }

  lemma EmitCounts(r: Ran, e: Event)
    requires Target(e) == r.model.uid && |Issued(r.model, e)| <= 1
    ensures var after := EmitFrom(r, e);
      var logged := HandleEvent(r.model.machine, r.model.core, e).Handled?;
      && Count(after.executes, IsOnward) <= Count(r.executes, IsOnward) + |Issued(r.model, e)|
      && Count(after.applied, IsOccured) == Count(r.applied, IsOccured) + (if logged && IsOccured(e) then 1 else 0)
      && Count(after.applied, IsActivated)
           == Count(r.applied, IsActivated) + (if logged && IsActivated(e) then 1 else 0)
  {
    hide HandleEvent, Count, Apply;
    var issued := Issued(r.model, e);
    CountConcat(r.executes, issued, IsOnward);
    CountConcat(r.applied, [e], IsOccured);
    CountConcat(r.applied, [e], IsActivated);
    CountOne(e, IsOccured);
    CountOne(e, IsActivated);
    if issued != [] {
      CountOne(issued[0], IsOnward);
      assert issued == [issued[0]];
    }
    assert r.applied + [] == r.applied && r.executes + [] == r.executes;
  }

  /** The token and the onward command of one event: an activation puts the token, an occurrence takes it. */
  lemma EmitOutcome(r: Ran, e: Event)
    requires r.model.machine.EventMachine? && Registered(r.model) && OwnEvent(r.model.uid, e)
    ensures var after, issued := EmitFrom(r, e).model, Issued(r.model, e);
      var logged := HandleEvent(r.model.machine, r.model.core, e).Handled?;
      && Target(e) == r.model.uid && after.uid == r.model.uid && after.machine == r.model.machine && Registered(after)
      && |issued| <= (if logged && IsOccured(e) then 1 else 0)
      && Token(after) + (if logged && IsOccured(e) then 1 else 0) <= Token(r.model)
           + (if logged && IsActivated(e) then 1 else 0)
      && (e.EventOccured? && r.model.core.state.Activated? &&
          r.model.core.typ in {MessageThrowing, EndMessageThrowing} ==>
            logged && issued == [])
  {
    EventEffect(r.model.core, e, r.model.uid);
    hide HandleEvent;
  }

  lemma EmitPaid(m: ModelValue, r: Ran, e: Event)
    requires Paid(m, r, 0) && OwnEvent(r.model.uid, e)
    ensures Paid(m, EmitFrom(r, e), 0)
    ensures e.EventOccured? && r.model.core.state.Activated? &&
            r.model.core.typ in {MessageThrowing, EndMessageThrowing} ==>
              Paid(m, EmitFrom(r, e), 1)
  {
    EmitOutcome(r, e);
    hide EmitFrom, HandleEvent, Count, Issued, OwnEvent, Token, Registered;
    EmitCounts(r, e);
  }

  lemma ExecutePaid(m: ModelValue, r: Ran, c: Command)
    requires if IsOnward(c) then Paid(m, r, 1) else Paid(m, r, 0)
    ensures Paid(m, Perform(r, Execute(c)), 0)
  {
    hide Count;
    CountConcat(r.executes, [c], IsOnward);
    CountOne(c, IsOnward);
  }

  /** One action that is not an onward command. */
  lemma ActionPaid(m: ModelValue, r: Ran, a: Action)
    requires Paid(m, r, 0)
    requires match a
      case Emit(e) => OwnEvent(r.model.uid, e) || (e.JobCreated? && e.job.jobId != r.model.uid)
      case Execute(c) => !IsOnward(c)
      case JoinCheck => false
    ensures Paid(m, Perform(r, a), 0) && Perform(r, a).model.uid == r.model.uid
  {
    hide Count, HandleEvent;
    match a
    case Emit(e) => if OwnEvent(r.model.uid, e) { EmitPaid(m, r, e); }
    case Execute(c) => ExecutePaid(m, r, c);
    case JoinCheck => assert false;
  }

  /** The handlers of an activated event element, apart from the two that commit a thrown event. */
  lemma TypedActions(m: ModelValue, c: Command, env: Env) returns (actions: seq<Action>)
    requires m.machine.EventMachine? && Registered(m) && Addressed(m.uid, Do(c, env))
    requires !m.core.typ.NoType? && !c.RaiseEvent? && !c.CommitEvent?
    requires TypeStateCommand(m.uid, m.machine, m.core, c, env).Some?
    ensures TypeStateCommand(m.uid, m.machine, m.core, c, env) == Some(actions) && |actions| <= 2
    ensures forall a <- actions ::
      a.Emit? && (OwnEvent(m.uid, a.event) || (a.event.JobCreated? && a.event.job.jobId != m.uid))
  {
    actions := TypeStateCommand(m.uid, m.machine, m.core, c, env).value;
  }

  lemma FewActionsPaid(m: ModelValue, r: Ran, actions: seq<Action>)
    requires Paid(m, r, 0) && |actions| <= 2
    requires forall a <- actions ::
      a.Emit? && (OwnEvent(r.model.uid, a.event) || (a.event.JobCreated? && a.event.job.jobId != r.model.uid))
    ensures Paid(m, PerformAll(r, actions), 0)
  {
    hide Paid, Perform, OwnEvent;
    if |actions| == 1 {
      Performed(r, actions[0], []);
      assert actions == [actions[0]];
      ActionPaid(m, r, actions[0]);
    } else if |actions| == 2 {
      Performed(r, actions[0], []);
      Performed(r, actions[1], [actions[0]]);
      assert actions == [actions[0]] + [actions[1]];
      ActionPaid(m, r, actions[0]);
      ActionPaid(m, Perform(r, actions[0]), actions[1]);
    }
  }

  /** An activation, after the output mappings of the raised event if there are any. */
  lemma ActivationPaid(m: ModelValue, start: Ran, outputs: seq<Action>, e: Event, el: Element)
    requires Paid(m, start, 0) && e.EventActivated? && OwnEvent(m.uid, e) && start.model.uid == m.uid
    requires outputs == [] || outputs == Outputs(el)
    ensures Paid(m, PerformAll(start, outputs + [Emit(e), Execute(ProcessEvent(el.id))]), 0)
  {
    hide Count, HandleEvent;
    var tail := [Emit(e), Execute(ProcessEvent(el.id))];
    PerformConcat(start, outputs, tail);
    OutputsPaid(m, start, el, |el.output|);
    assert Outputs(el)[..|el.output|] == Outputs(el);
    var r := PerformAll(start, outputs);
    TwoPerformed(r, tail[0], tail[1]);
    hide PerformAll, Perform, Paid;
    ActionPaid(m, r, tail[0]);
    ActionPaid(m, Perform(r, tail[0]), tail[1]);
  }

  lemma CommitPaid(m: ModelValue, start: Ran, c: Command, env: Env)
    requires Paid(m, start, 0) && start.model == m && Registered(m) && c.CommitEvent?
    requires m.core.state.Activated? && m.core.typ in {MessageThrowing, EndMessageThrowing}
    ensures Paid(m, PerformAll(start, TypeStateCommand(m.uid, m.machine, m.core, c, env).value), 0)
  {
    hide Count, HandleEvent;
    var actions := TypeStateCommand(m.uid, m.machine, m.core, c, env).value;
    if actions != [] {
      TwoPerformed(start, actions[0], actions[1]);
      hide PerformAll;
      EmitPaid(m, start, actions[0].event);
      ExecutePaid(m, Perform(start, actions[0]), actions[1].command);
    }
  }

  lemma RaisePaid(m: ModelValue, start: Ran, c: Command, env: Env)
    requires Paid(m, start, 0) && start.model == m && Registered(m) && c.RaiseEvent?
    requires m.core.state.Activated? && m.core.typ in {TimerCatching, MessageCatching}
    ensures Paid(m, PerformAll(start, TypeStateCommand(m.uid, m.machine, m.core, c, env).value), 0)
  {
    var tail: seq<Action> :=
      if m.core.context.element.Some? then [Emit(EventOccured(m.core.context.element.value.id, None))] else [];
    PerformConcat(start, Outputs(c.element), tail);
    OutputsPaid(m, start, c.element, |c.element.output|);
    assert Outputs(c.element)[..|c.element.output|] == Outputs(c.element);
    FewActionsPaid(m, PerformAll(start, Outputs(c.element)), tail);
  }

  lemma StepPaid(m: ModelValue, step: ModelStep)
    requires m.machine.EventMachine? && Registered(m) && Addressed(m.uid, step)
    ensures Paid(m, TakeStep(m, step), 0)
  {
    if step.Do? {
      var c, env := step.command, step.env;
      var start := Ran(m, [], [], [], 0);
      var first := if m.core.typ.NoType? then None else TypeStateCommand(m.uid, m.machine, m.core, c, env);
      if first.Some? {
        if c.CommitEvent? {
          CommitPaid(m, start, c, env);
        } else if c.RaiseEvent? {
          RaisePaid(m, start, c, env);
        } else {
          var actions := TypedActions(m, c, env);
          FewActionsPaid(m, start, actions);
        }
      } else if c.RaiseEvent? && m.core.state.Created? {
        var el := c.element;
        ActivationPaid(m, start, Outputs(el), EventActivated(el.id, el, EventType(el), Some(c.payload), None), el);
        assert Outputs(el)
          + [Emit(EventActivated(el.id, el, EventType(el), Some(c.payload), None)), Execute(ProcessEvent(el.id))]
            == HandleCommand(m.uid, m.machine, m.core, c, env).value;
      } else if c.ActivateElement? {
        var el := c.element;
        var e := EventActivated(el.id, el, EventType(el), None, c.scoped);
        ActivationPaid(m, start, [], e, el);
        assert [] + [Emit(e), Execute(ProcessEvent(el.id))] == HandleCommand(m.uid, m.machine, m.core, c, env).value;
      }
    }
  }

  lemma {:induction false} TokensPaid(m: ModelValue, steps: seq<ModelStep>)
    requires m.machine.EventMachine? && Registered(m)
    requires forall s <- steps :: Addressed(m.uid, s)
    ensures var t := TallyOf(m, steps);
      && t.model.uid == m.uid && t.model.machine.EventMachine? && Registered(t.model)
      && t.onward <= t.occurrences && t.occurrences + Token(t.model) <= t.activations + Token(m)
  {
    if steps != [] {
      TokensPaid(m, steps[..|steps|-1]);
      assert Addressed(m.uid, steps[|steps|-1]);
      StepPaid(TallyOf(m, steps[..|steps|-1]).model, steps[|steps|-1]);
    }
  }

  /** Between two activations an event element of any kind applies at most one EventOccured and issues at most
      one onward command, whatever commands reach it and however often the process is persisted and loaded. */
  lemma AtMostOneOccurrence(m: ModelValue, steps: seq<ModelStep>)
    requires m.machine.EventMachine? && Registered(m)
    requires forall s <- steps :: Addressed(m.uid, s)
    requires TallyOf(m, steps).activations == 0
    ensures TallyOf(m, steps).occurrences <= 1 && TallyOf(m, steps).onward <= 1
    ensures !m.core.state.Activated? ==> TallyOf(m, steps).onward == 0
  {
    TokensPaid(m, steps);
  }

  // ---- start events ----

  /** The step is a RaiseEvent the model has a handler for. */
  predicate Reacts(m: ModelValue, step: ModelStep) {
    step.Do? && step.command.RaiseEvent? && HandleCommand(m.uid, m.machine, m.core, step.command, step.env).Some?
  }

  function Reactions(m: ModelValue, steps: seq<ModelStep>): nat {
    if steps == [] then 0 else
    var init := steps[..|steps|-1];
    Reactions(m, init) + if Reacts(TallyOf(m, init).model, steps[|steps|-1]) then 1 else 0
  }

  ghost predicate ForStart(step: ModelStep) {
    step.Do? ==> match step.command
      case ActivateElement(el, _, _) => el.position.StartPosition?
      case RaiseEvent(el, _) => el.position.StartPosition?
      case _ => true
  }

  /** A model that has only ever been a start event; `left` says that it is no longer in its initial state. */
  ghost predicate StartModel(m: ModelValue, uid: Id, left: bool) {
    && m.uid == uid && m.machine.EventMachine? && m.core.typ in {NoType, StartEvent, StartTimerEvent}
    && (left ==> !m.core.state.Created?)
  }

  ghost predicate StartAction(a: Action) {
    match a
    case Emit(e) => e.EventActivated? ==> e.typ in {StartEvent, StartTimerEvent}
    case Execute(_) => true
    case JoinCheck => false
  }

  lemma {:induction false} StartActions(r: Ran, actions: seq<Action>, uid: Id, left: bool)
    requires StartModel(r.model, uid, left) && forall a <- actions :: StartAction(a)
    ensures StartModel(PerformAll(r, actions).model, uid, left)
  {
    if actions != [] {
      StartActions(r, actions[..|actions|-1], uid, left);
      assert StartAction(actions[|actions|-1]);
    }
  }

  lemma HandlersStart(m: ModelValue, c: Command, env: Env)
    requires StartModel(m, m.uid, false) && ForStart(Do(c, env))
    ensures var actions := HandleCommand(m.uid, m.machine, m.core, c, env);
      && (actions.Some? ==> forall a <- actions.value :: StartAction(a))
      && (actions.Some? && c.RaiseEvent? ==>
            && m.core.state.Created? && c.element.position.StartPosition?
            && actions.value == Outputs(c.element) +
                 [Emit(EventActivated(c.element.id, c.element, EventType(c.element), Some(c.payload), None)),
                   Execute(ProcessEvent(c.element.id))])
  {
  }

  lemma StartStep(m: ModelValue, step: ModelStep, left: bool)
    requires StartModel(m, m.uid, left) && Addressed(m.uid, step) && ForStart(step)
    ensures StartModel(TakeStep(m, step).model, m.uid, left || Reacts(m, step))
    ensures left ==> !Reacts(m, step)
  {
    if step.Do? {
      var c, env := step.command, step.env;
      HandlersStart(m, c, env);
      var start := Ran(m, [], [], [], 0);
      var actions := HandleCommand(m.uid, m.machine, m.core, c, env);
      hide HandleCommand;
      if actions.Some? {
        StartActions(start, actions.value, m.uid, left);
        if c.RaiseEvent? {
          var tail := [Emit(EventActivated(c.element.id, c.element, EventType(c.element), Some(c.payload), None)),
            Execute(ProcessEvent(c.element.id))];
          PerformConcat(start, Outputs(c.element), tail);
          var r := PerformAll(start, Outputs(c.element));
          StartActions(start, Outputs(c.element), m.uid, left);
          TwoPerformed(r, tail[0], tail[1]);
        }
      }
    }
  }

  /** Over its whole life, across any number of persists and loads, a start event reacts to at most one RaiseEvent. */
  lemma {:induction false} StartReactsOnce(m: ModelValue, steps: seq<ModelStep>)
    requires m == NewModel(m.uid, EventMachine, m.meta, None)
    requires forall s <- steps :: Addressed(m.uid, s) && ForStart(s)
    ensures Reactions(m, steps) <= 1
    ensures StartModel(TallyOf(m, steps).model, m.uid, Reactions(m, steps) == 1)
  {
    if steps != [] {
      var init, last := steps[..|steps|-1], steps[|steps|-1];
      StartReactsOnce(m, init);
      assert Addressed(m.uid, last) && ForStart(last);
      StartStep(TallyOf(m, init).model, last, Reactions(m, init) == 1);
    }
  }

  // ---- sequences and exclusive gateways ----

  /** The two events of a sequence: there and back. */
  lemma SequenceEffect(core: Core, id: Id)
    requires core.typ.NoType? && core.state.Idle? && core.context.element.Some?
    ensures HandleEvent(SequenceMachine, core, SequenceActivated(id)) == Handled(core.(state := Active), [])
    ensures HandleEvent(SequenceMachine, core.(state := Active), SequenceCompleted(id))
      == Handled(core, [ActivateNext(core.context.element.value.id)])
  {
    assert core.(state := Active).(state := Idle) == core;
  }

  /** An idle sequence passes its token on: one activation, one onward command, idle again. */
  lemma SequencePassesOn(m: ModelValue, c: Command, env: Env, clock: nat)
    requires m.machine.SequenceMachine? && m.core.typ.NoType? && m.core.state.Idle? && c.ActivateElement?
    requires m.core.context.element.Some? && m.core.context.element.value.id == m.uid
    ensures var r := Dispatch(m, c, env, clock);
      && r.executes == [ActivateNext(m.uid)] && r.applied == [SequenceActivated(m.uid), SequenceCompleted(m.uid)]
      && r.model.core == m.core
  {
    var actions := [Emit(SequenceActivated(m.uid)), Emit(SequenceCompleted(m.uid))];
    var start := Ran(m, [], [], [], clock);
    assert HandleCommand(m.uid, m.machine, m.core, c, env) == Some(actions);
    SequenceEffect(m.core, m.uid);
    hide HandleCommand;
    TwoPerformed(start, actions[0], actions[1]);
    hide PerformAll, HandleEvent;
    assert [SequenceActivated(m.uid)] + [SequenceCompleted(m.uid)]
      == [SequenceActivated(m.uid), SequenceCompleted(m.uid)];
  }

  /** The two events of an exclusive gateway: there and back. */
  lemma ExclusiveEffect(core: Core)
    requires core.typ.ExclusiveGateway? && core.state.Idle? && core.context.element.Some?
    ensures forall id: Id, previous: Option<Id> ::
      HandleEvent(GatewayMachine, core, GatewayProcessed(id, previous)) == Handled(core.(state := Active), [])
    ensures forall id: Id ::
      HandleEvent(GatewayMachine, core.(state := Active), GatewayCompleted(id))
      == Handled(core, [OutgoingOf(core.context.element.value)])
  {
    assert core.(state := Active).(state := Idle) == core;
  }

  /** An idle exclusive gateway passes the token of a ProcessGateway on, once, and is idle again. */
  lemma ExclusivePassesOn(m: ModelValue, previous: Option<Id>, env: Env, clock: nat)
    requires m.machine.GatewayMachine? && m.core.typ.ExclusiveGateway? && m.core.state.Idle?
    requires m.core.context.element.Some?
    ensures var r := Dispatch(m, ProcessGateway(m.uid, previous), env, clock);
      && r.executes == [OutgoingOf(m.core.context.element.value)] && r.model.core == m.core
      && r.applied == [GatewayProcessed(m.uid, None), GatewayCompleted(m.uid)]
      && r.model.uid == m.uid && r.model.machine == m.machine
  {
    var actions := [Emit(GatewayProcessed(m.uid, None)), Emit(GatewayCompleted(m.uid))];
    var start := Ran(m, [], [], [], clock);
    assert HandleCommand(m.uid, m.machine, m.core, ProcessGateway(m.uid, previous), env) == Some(actions);
    hide HandleCommand;
    ExclusiveEffect(m.core);
    TwoPerformed(start, actions[0], actions[1]);
    hide PerformAll, HandleEvent;
    assert [GatewayProcessed(m.uid, None)] + [GatewayCompleted(m.uid)]
      == [GatewayProcessed(m.uid, None), GatewayCompleted(m.uid)];
  }

  /** Each activation of an idle exclusive gateway, the first one included, leads to exactly one onward command: it
      issues one ProcessGateway, and that passes the token on. */
  lemma ActivationPassesOn(m: ModelValue, el: Element, previous: Option<Id>, scoped: Option<Value>, env: Env)
    requires m.machine.GatewayMachine? && m.core.state.Idle? && el.id == m.uid && el.kind.ExclusiveKind?
    ensures var activated := Dispatch(m, ActivateElement(el, previous, scoped), env, 0);
      var r := Dispatch(activated.model, ProcessGateway(el.id, previous), env, activated.clock);
      && activated.executes == [ProcessGateway(el.id, previous)]
      && r.executes == [OutgoingOf(el)] && r.model.core.state.Idle?
  {
    GatewayActivation(m, el, previous, scoped, env);
    var activated := Dispatch(m, ActivateElement(el, previous, scoped), env, 0);
    hide Dispatch;
    ExclusivePassesOn(activated.model, previous, env, activated.clock);
  }

  /** What a gateway issued over a run. */
  function IssuedOver(m: ModelValue, steps: seq<ModelStep>): (r: (ModelValue, seq<Command>)) {
    if steps == [] then (m, []) else
    var before := IssuedOver(m, steps[..|steps|-1]);
    var r := TakeStep(before.0, steps[|steps|-1]);
    (r.model, before.1 + r.executes)
  }

  predicate IsProcess(c: Command) { c.ProcessGateway? }
  predicate IsActivation(s: ModelStep) { s.Do? && s.command.ActivateElement? }
  predicate IsProcessing(s: ModelStep) { s.Do? && s.command.ProcessGateway? }

  ghost predicate ForGateway(el: Element, step: ModelStep) {
    step.Do? ==> match step.command
      case ActivateElement(e, _, _) => e == el
      case ProcessGateway(id, _) => id == el.id
      case _ => false
  }

  /** However activations, ProcessGateways, persists and loads of an exclusive gateway interleave: each activation
      issues one ProcessGateway, each ProcessGateway one onward command. */
  lemma {:induction false} ExclusiveConservesTokens(m: ModelValue, el: Element, steps: seq<ModelStep>)
    requires m.machine.GatewayMachine? && m.uid == el.id && el.kind.ExclusiveKind?
    requires m.core.typ.ExclusiveGateway? && m.core.state.Idle? && m.core.context.element == Some(el)
    requires forall s <- steps :: ForGateway(el, s)
    ensures var (end, issued) := IssuedOver(m, steps);
      && end.uid == m.uid && end.machine == m.machine && end.core == m.core
      && Count(issued, IsOnward) == Count(steps, IsProcessing)
      && Count(issued, IsProcess) == Count(steps, IsActivation)
  {
    if steps != [] {
      var init, s := steps[..|steps|-1], steps[|steps|-1];
      assert ForGateway(el, s);
      ExclusiveConservesTokens(m, el, init);
      var (gate, issued) := IssuedOver(m, init);
      var now := TakeStep(gate, s).executes;
      ExclusiveMove(gate, el, s);
      hide TakeStep;
      CountConcat(issued, now, IsOnward);
      CountConcat(issued, now, IsProcess);
    }
  }

  lemma ExclusiveMove(m: ModelValue, el: Element, s: ModelStep)
    requires m.machine.GatewayMachine? && m.uid == el.id && el.kind.ExclusiveKind?
    requires m.core.typ.ExclusiveGateway? && m.core.state.Idle? && m.core.context.element == Some(el)
    requires ForGateway(el, s)
    ensures var r := TakeStep(m, s);
      && r.model.uid == m.uid && r.model.machine == m.machine && r.model.core == m.core
      && Count(r.executes, IsOnward) == (if IsProcessing(s) then 1 else 0)
      && Count(r.executes, IsProcess) == (if IsActivation(s) then 1 else 0)
  {
    var now := TakeStep(m, s).executes;
    if IsActivation(s) {
      GatewayActivation(m, el, s.command.previous, s.command.scoped, s.env);
    } else if s.Do? {
      ExclusivePassesOn(m, s.command.previous, s.env, 0);
    }
    hide Dispatch;
    if now != [] {
      CountOne(now[0], IsOnward);
      CountOne(now[0], IsProcess);
      assert now == [now[0]];
    }
  }

  // ---- the life of an exclusive gateway ----

  /** An exclusive gateway of this element between two steps: it has its type and element from the first activation
      on. */
  ghost predicate Exclusive(m: ModelValue, el: Element, activated: bool) {
    && m.uid == el.id && m.machine.GatewayMachine? && m.core.state.Idle?
    && (if activated then m.core.typ.ExclusiveGateway? && m.core.context.element == Some(el) else m.core.typ.NoType?)
  }

  /** The ProcessGateways that find it activated. */
  function Processed(steps: seq<ModelStep>): nat {
    if steps == [] then 0
    else
      var init := steps[..|steps|-1];
      Processed(init) + if IsProcessing(steps[|steps|-1]) && WasActivated(init) then 1 else 0
  }

  lemma ExclusiveAnyMove(m: ModelValue, el: Element, s: ModelStep, activated: bool)
    requires el.kind.ExclusiveKind? && Exclusive(m, el, activated) && ForGateway(el, s)
    ensures var r := TakeStep(m, s);
      && Exclusive(r.model, el, activated || IsActivation(s))
      && Count(r.executes, IsOnward) == (if IsProcessing(s) && activated then 1 else 0)
      && Count(r.executes, IsProcess) == (if IsActivation(s) then 1 else 0)
  {
    var now := TakeStep(m, s).executes;
    if IsActivation(s) {
      GatewayActivation(m, el, s.command.previous, s.command.scoped, s.env);
      CountOne(now[0], IsOnward);
      CountOne(now[0], IsProcess);
      assert now == [now[0]];
      hide Dispatch;
    } else if activated {
      ExclusiveMove(m, el, s);
      hide Dispatch;
    } else if s.Do? {
      assert HandleCommand(m.uid, m.machine, m.core, s.command, s.env).None?;
    }
  }

  /** From its first activation on, and however activations, ProcessGateways, persists and loads interleave: one
      ProcessGateway for each activation, and one onward command for each ProcessGateway that finds it activated. */
  lemma {:induction false} ExclusiveLife(m: ModelValue, el: Element, steps: seq<ModelStep>)
    requires m == NewModel(el.id, GatewayMachine, m.meta, None) && el.kind.ExclusiveKind?
    requires forall s <- steps :: ForGateway(el, s)
    ensures var (end, issued) := IssuedOver(m, steps);
      && Exclusive(end, el, WasActivated(steps))
      && Count(issued, IsOnward) == Processed(steps) && Count(issued, IsProcess) == Count(steps, IsActivation)
  {
    if steps != [] {
      var init, s := steps[..|steps|-1], steps[|steps|-1];
      assert ForGateway(el, s);
      ExclusiveLife(m, el, init);
      var (gate, issued) := IssuedOver(m, init);
      ExclusiveAnyMove(gate, el, s, WasActivated(init));
      hide TakeStep, Exclusive;
      CountConcat(issued, TakeStep(gate, s).executes, IsOnward);
      CountConcat(issued, TakeStep(gate, s).executes, IsProcess);
    }
  }
}
