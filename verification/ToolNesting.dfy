/**
 Nested tool calls on one budget. The `spawn_subagent` call of a chat keeps its tool slot while the
 subagent it runs makes tool calls of its own, which need slots from the same pool. A spawn made
 by a subagent is not wrapped in the budget, so deeper nesting holds no further slot. Every agent
 makes its tool calls one after the other, so the live calls of a chat form a chain: at most the
 spawn and one call of the innermost agent.
 */
module ToolNesting {
  import opened Basics
  import Budget = ExecutionBudget

  /** The tool call of the innermost agent. */
  datatype Leaf = NoLeaf | InQueue | SlotInHand | Running

  /** A chat, or a subagent started by a command, with `agents` subagents nested below it. */
  datatype Caller = Caller(chat: bool, agents: nat, leaf: Leaf)

  /** `maxDepth` bounds how deeply subagents nest; no subagent can be spawned when it is 0. */
  datatype Nest = Nest(c: Budget.Counters, maxDepth: nat, callers: seq<Caller>) {
    predicate Has(i: int) {
      0 <= i < |callers|
    }

    function Set(i: nat, caller: Caller): Nest
      requires Has(i)
    {
      this.(callers := callers[i := caller])
    }

    predicate Queues(i: int) {
      Has(i) && callers[i].leaf == InQueue
    }

    // A freed slot goes to a waiting call when there is one.
    function Put(next: nat): Nest {
      if Queues(next) then Set(next, callers[next].(leaf := SlotInHand)) else this.(c := c.(free := c.free + 1))
    }

    // The end of a call in flight.
    function Release(next: nat): Nest {
      this.(c := c.Release().(free := c.free)).Put(next)
    }

    ghost predicate MayPut(next: nat) {
      (exists i: nat :: Queues(i)) ==> Queues(next)
    }
  }

  function Idle(maxCalls: int, depth: int, maxDepth: nat, chats: nat, commands: nat): Nest {
    Nest(Budget.Initial(maxCalls, depth, false).c, maxDepth,
      seq(chats + commands, i => Caller(i < chats, 0, NoLeaf)))
  }

  datatype Event =
    | Call(i: nat)               // the innermost agent of caller i makes a budgeted call
    | Enter(i: nat)
    | Delegate(i: nat)           // the running call of a chat is a spawn: its subagent starts
    | Nested(i: nat)             // a subagent spawns another, outside the budget
    | Finish(i: nat, next: nat)  // the innermost subagent ends, or is killed
    | Return(i: nat, next: nat)  // the running call ends, or is killed
    | Abort(i: nat, next: nat)   // a timeout or a cancel removes the queued call

  // The end of a chat's only subagent is the end of its spawn, which has a slot.
  predicate EndsSpawn(caller: Caller) {
    caller.chat && caller.agents == 1
  }

  ghost predicate Enabled(s: Nest, e: Event) {
    && s.Has(e.i)
    && var caller := s.callers[e.i];
       match e
       case Call(_) => caller.leaf == NoLeaf
       case Enter(_) => caller.leaf == SlotInHand
       case Delegate(_) => caller.leaf == Running && caller.chat && caller.agents == 0 < s.maxDepth
       case Nested(_) => caller.leaf == NoLeaf && (caller.chat ==> caller.agents > 0) && caller.agents < s.maxDepth
       case Finish(_, next) => caller.leaf == NoLeaf && caller.agents > 0 && (EndsSpawn(caller) ==> s.MayPut(next))
       case Return(_, next) => caller.leaf == Running && s.MayPut(next)
       case Abort(i, next) =>
         && (caller.leaf == InQueue || caller.leaf == SlotInHand)
         && s.Set(i, caller.(leaf := NoLeaf)).MayPut(next)
  }

  function Next(s: Nest, e: Event): Nest
    requires Enabled(s, e)
  {
    var caller := s.callers[e.i];
    match e
    case Call(i) =>
      var r := s.(c := s.c.Reserve());
      if !s.c.Admits() then r  // the caller gets a backpressure text and goes on
      else if s.c.free > 0 then r.(c := r.c.(free := s.c.free - 1)).Set(i, caller.(leaf := SlotInHand))
      else r.Set(i, caller.(leaf := InQueue))
    case Enter(i) => s.(c := s.c.Enter()).Set(i, caller.(leaf := Running))
    case Delegate(i) => s.Set(i, caller.(agents := 1, leaf := NoLeaf))
    case Nested(i) => s.Set(i, caller.(agents := caller.agents + 1))
    case Finish(i, next) =>
      var r := s.Set(i, caller.(agents := caller.agents - 1));
      if EndsSpawn(caller) then r.Release(next) else r
    case Return(i, next) => s.Set(i, caller.(leaf := NoLeaf)).Release(next)
    case Abort(i, next) =>
      var r := s.(c := s.c.Rollback()).Set(i, caller.(leaf := NoLeaf));
      if caller.leaf == SlotInHand then r.Put(next) else r
  }

  ghost predicate IsRun(s: Nest, es: seq<Event>)
    decreases |es|
  {
    es == [] || (Enabled(s, es[0]) && IsRun(Next(s, es[0]), es[1..]))
  }

  function Exec(s: Nest, es: seq<Event>): Nest
    requires IsRun(s, es)
    decreases |es|
  {
    if es == [] then s else Exec(Next(s, es[0]), es[1..])
  }

  lemma {:induction false} ExecConcat(s: Nest, es: seq<Event>, fs: seq<Event>)
    requires IsRun(s, es) && IsRun(Exec(s, es), fs)
    ensures IsRun(s, es + fs) && Exec(s, es + fs) == Exec(Exec(s, es), fs)
    decreases |es|
  {
    if es == [] {
      assert es + fs == fs;
    } else {
      assert (es + fs)[1..] == es[1..] + fs;
      ExecConcat(Next(s, es[0]), es[1..], fs);
    }
  }

  /** The wrapper that runs a tool call on the budget, for a call nothing interleaves with. */
  class ToolBudgetBridge {
    const budget: Budget.Budget

    constructor (budget: Budget.Budget)
      ensures this.budget == budget
    {
      this.budget := budget;
    }

    /** `killed`: the call is cancelled while it waits for its slot. Whatever happens, the counters
        and the semaphore end as they began. */
    method CallTool(killed: bool) returns (ran: bool)
      requires budget.Valid()
      modifies budget, budget.slots
      ensures budget.Valid() && budget.slots == old(budget.slots)
      ensures ran <==> old(budget.View().Admits()) && !killed && old(budget.slots.value) > 0
      ensures var b, n := old(budget.View()), budget.View();
        && n.inflight == b.inflight && n.queued == b.queued && n.free == b.free
        && n.maxInflight == b.maxInflight && n.queueDepth == b.queueDepth
        && n.backpressure == b.backpressure + (if b.Admits() then 0 else 1)
        && n.queueHigh == (if b.Admits() then Max(b.queueHigh, b.queued + 1) else b.queueHigh)
        && n.inflightHigh == (if ran then Max(b.inflightHigh, b.inflight + 1) else b.inflightHigh)
    {
      var reserved := budget.Reserve();
      if !reserved {
        return false;
      }
      var entered := false;
      if !killed && budget.slots.value > 0 {
        budget.slots.Acquire();
        budget.Enter();
        entered := true;
      }
      if entered {
        budget.Release();
      } else {
        budget.Rollback();
      }
      return entered;
    }
  }

  // ---------------------------------------------------------------------------------------------
  // Sums over callers
  // ---------------------------------------------------------------------------------------------

  // Slots: one of the chat's spawn and one of the innermost call.
  function Held(caller: Caller): nat {
    (if caller.chat && caller.agents > 0 then 1 else 0) + (if caller.leaf == Running then 1 else 0)
  }

  function Pending(caller: Caller): nat {
    if caller.leaf == InQueue || caller.leaf == SlotInHand then 1 else 0
  }

  function Granted(caller: Caller): nat {
    if caller.leaf == SlotInHand then 1 else 0
  }

  // A slot held by a spawn whose subagent waits for a budgeted call.
  function Blocked(caller: Caller): nat {
    if caller.chat && caller.agents > 0 && caller.leaf != NoLeaf then 1 else 0
  }

  function Sum(callers: seq<Caller>, f: Caller -> nat): nat {
    if callers == [] then 0 else f(callers[0]) + Sum(callers[1..], f)
  }

  lemma {:induction false} SumUpdate(callers: seq<Caller>, i: nat, caller: Caller, f: Caller -> nat)
    requires i < |callers|
    ensures Sum(callers[i := caller], f) == Sum(callers, f) - f(callers[i]) + f(caller)
  {
    if i > 0 {
      assert callers[i := caller][1..] == callers[1..][i - 1 := caller];
      SumUpdate(callers[1..], i - 1, caller, f);
    }
  }

  lemma {:induction false} SumAtLeast(callers: seq<Caller>, i: nat, f: Caller -> nat)
    requires i < |callers|
    ensures Sum(callers, f) >= f(callers[i])
  {
    if i > 0 {
      SumAtLeast(callers[1..], i - 1, f);
    }
  }

  lemma {:induction false} SumPrefix(callers: seq<Caller>, n: nat, f: Caller -> nat)
    requires forall i :: 0 <= i < |callers| ==> f(callers[i]) <= if i < n then 1 else 0
    ensures Sum(callers, f) <= n
  {
    if callers != [] {
      SumPrefix(callers[1..], if n == 0 then 0 else n - 1, f);
    }
  }

  lemma {:induction false} SumExact(callers: seq<Caller>, n: nat, f: Caller -> nat)
    requires n <= |callers|
    requires forall i :: 0 <= i < |callers| ==> f(callers[i]) == if i < n then 1 else 0
    ensures Sum(callers, f) == n
  {
    if callers != [] {
      SumExact(callers[1..], if n == 0 then 0 else n - 1, f);
    }
  }

  lemma {:induction false} SumOrder(callers: seq<Caller>, f: Caller -> nat, g: Caller -> nat)
    requires forall i :: 0 <= i < |callers| ==> f(callers[i]) <= g(callers[i])
    ensures Sum(callers, f) <= Sum(callers, g)
    ensures Sum(callers, f) == Sum(callers, g) ==> forall i :: 0 <= i < |callers| ==> f(callers[i]) == g(callers[i])
  {
    if callers != [] {
      SumOrder(callers[1..], f, g);
      assert forall i :: 0 < i < |callers| ==> callers[i] == callers[1..][i - 1];
    }
  }

  // ---------------------------------------------------------------------------------------------
  // Invariant
  // ---------------------------------------------------------------------------------------------

  // `loose` slots have been given up and not been handed on yet.
  ghost predicate Sound(s: Nest, loose: nat) {
    && s.c.maxInflight >= 1
    && s.c.inflight == Sum(s.callers, Held)
    && s.c.queued == Sum(s.callers, Pending)
    && s.c.free + s.c.inflight + Sum(s.callers, Granted) + loose == s.c.maxInflight
    && s.c.Pending() <= s.c.Capacity()
    && (forall i: nat :: s.Has(i) ==> s.callers[i].agents <= s.maxDepth)
    && (forall i: nat :: s.Queues(i) ==> s.c.free == 0)
  }

  ghost predicate Inv(s: Nest) {
    Sound(s, 0)
  }

  lemma Sums(s: Nest, i: nat, caller: Caller)
    requires s.Has(i)
    ensures Sum(s.Set(i, caller).callers, Held) == Sum(s.callers, Held) - Held(s.callers[i]) + Held(caller)
    ensures Sum(s.Set(i, caller).callers, Pending) == Sum(s.callers, Pending) - Pending(s.callers[i]) + Pending(caller)
    ensures Sum(s.Set(i, caller).callers, Granted) == Sum(s.callers, Granted) - Granted(s.callers[i]) + Granted(caller)
  {
    SumUpdate(s.callers, i, caller, Held);
    SumUpdate(s.callers, i, caller, Pending);
    SumUpdate(s.callers, i, caller, Granted);
  }

  lemma StepCall(s: Nest, i: nat)
    requires Inv(s) && Enabled(s, Call(i))
    ensures Inv(Next(s, Call(i)))
  {
    var n := Next(s, Call(i));
    if !s.c.Admits() {
      assert forall k: nat :: n.Queues(k) <==> s.Queues(k);
    } else if s.c.free > 0 {
      Sums(s, i, s.callers[i].(leaf := SlotInHand));
      assert forall k: nat :: n.Queues(k) ==> s.Queues(k);
    } else {
      Sums(s, i, s.callers[i].(leaf := InQueue));
      assert n.c.free == 0;
    }
  }

  lemma StepEnter(s: Nest, i: nat)
    requires Inv(s) && Enabled(s, Enter(i))
    ensures Inv(Next(s, Enter(i)))
  {
    SumAtLeast(s.callers, i, Pending);
    Sums(s, i, s.callers[i].(leaf := Running));
    assert forall k: nat :: Next(s, Enter(i)).Queues(k) ==> s.Queues(k);
  }

  // An agent starts or ends, and no slot changes hands.
  lemma StepAgent(s: Nest, e: Event)
    requires Inv(s) && Enabled(s, e)
    requires e.Delegate? || e.Nested? || (e.Finish? && !EndsSpawn(s.callers[e.i]))
    ensures Inv(Next(s, e))
  {
    Sums(s, e.i, Next(s, e).callers[e.i]);
    assert forall k: nat :: Next(s, e).Queues(k) ==> s.Queues(k);
  }

  lemma PutKeeps(m: Nest, next: nat)
    requires Sound(m, 1) && m.MayPut(next)
    ensures Inv(m.Put(next))
  {
    assert forall k: nat :: m.Put(next).Queues(k) ==> m.Queues(k);
    if m.Queues(next) {
      Sums(m, next, m.callers[next].(leaf := SlotInHand));
    }
  }

  // A caller gives up one slot it held.
  lemma StepRelease(s: Nest, i: nat, caller: Caller, next: nat)
    requires Inv(s) && s.Has(i) && s.MayPut(next)
    requires Held(s.callers[i]) == Held(caller) + 1 && caller.agents <= s.callers[i].agents
    requires Pending(s.callers[i]) == Pending(caller) == 0
    ensures Inv(s.Set(i, caller).Release(next))
  {
    var r := s.Set(i, caller);
    var m := r.(c := s.c.Release().(free := s.c.free));
    SumAtLeast(s.callers, i, Held);
    Sums(s, i, caller);
    assert forall k: nat :: m.Queues(k) <==> s.Queues(k);
    PutKeeps(m, next);
  }

  lemma StepAbort(s: Nest, i: nat, next: nat)
    requires Inv(s) && Enabled(s, Abort(i, next))
    ensures Inv(Next(s, Abort(i, next)))
  {
    var caller := s.callers[i].(leaf := NoLeaf);
    var m := s.(c := s.c.Rollback()).Set(i, caller);
    SumAtLeast(s.callers, i, Pending);
    Sums(s, i, caller);
    assert forall k: nat :: m.Queues(k) ==> s.Queues(k);
    assert forall k: nat :: s.Set(i, caller).Queues(k) <==> m.Queues(k);
    if s.callers[i].leaf == SlotInHand {
      PutKeeps(m, next);
    }
  }

  ghost predicate SameShape(s: Nest, n: Nest) {
    && n.c.maxInflight == s.c.maxInflight && n.c.queueDepth == s.c.queueDepth
    && n.maxDepth == s.maxDepth && |n.callers| == |s.callers|
    && forall i: nat :: s.Has(i) ==> n.callers[i].chat == s.callers[i].chat
  }

  lemma StepShape(s: Nest, e: Event)
    requires Enabled(s, e)
    ensures SameShape(s, Next(s, e))
  {}

  lemma StepFinish(s: Nest, e: Event)
    requires Inv(s) && Enabled(s, e) && e.Finish?
    ensures Inv(Next(s, e))
  {
    if EndsSpawn(s.callers[e.i]) {
      StepRelease(s, e.i, s.callers[e.i].(agents := 0), e.next);
    } else {
      StepAgent(s, e);
    }
  }

  lemma StepReturn(s: Nest, e: Event)
    requires Inv(s) && Enabled(s, e) && e.Return?
    ensures Inv(Next(s, e))
  {
    StepRelease(s, e.i, s.callers[e.i].(leaf := NoLeaf), e.next);
  }

  lemma Step(s: Nest, e: Event)
    requires Inv(s) && Enabled(s, e)
    ensures Inv(Next(s, e)) && SameShape(s, Next(s, e))
  {
    StepShape(s, e);
    match e
    case Call(i) => StepCall(s, i);
    case Enter(i) => StepEnter(s, i);
    case Delegate(_) => StepAgent(s, e);
    case Nested(_) => StepAgent(s, e);
    case Finish(_, _) => StepFinish(s, e);
    case Return(_, _) => StepReturn(s, e);
    case Abort(i, next) => StepAbort(s, i, next);
  }

  lemma IdleInv(maxCalls: int, depth: int, maxDepth: nat, chats: nat, commands: nat)
    ensures Inv(Idle(maxCalls, depth, maxDepth, chats, commands))
  {
    var s := Idle(maxCalls, depth, maxDepth, chats, commands);
    SumExact(s.callers, 0, Held);
    SumExact(s.callers, 0, Pending);
    SumExact(s.callers, 0, Granted);
  }

  lemma {:induction false} RunInv(s: Nest, es: seq<Event>)
    requires Inv(s) && IsRun(s, es)
    ensures Inv(Exec(s, es)) && SameShape(s, Exec(s, es))
    decreases |es|
  {
    if es != [] {
      Step(s, es[0]);
      RunInv(Next(s, es[0]), es[1..]);
    }
  }

  /** Subagents do nest as deeply as the limit allows, once there is a first one or a command. */
  lemma {:induction false} NestsTo(s: Nest, i: nat, d: nat) returns (es: seq<Event>)
    requires s.Has(i) && s.callers[i].leaf == NoLeaf && (s.callers[i].chat ==> s.callers[i].agents > 0)
    requires s.callers[i].agents <= d <= s.maxDepth
    ensures IsRun(s, es) && Exec(s, es) == s.Set(i, s.callers[i].(agents := d))
    decreases d - s.callers[i].agents
  {
    if s.callers[i].agents == d {
      es := [];
      assert s.callers[i := s.callers[i]] == s.callers;
    } else {
      var n := Next(s, Nested(i));
      var rest := NestsTo(n, i, d);
      es := [Nested(i)] + rest;
      assert es[0] == Nested(i) && es[1..] == rest;
      assert n.callers[i := n.callers[i].(agents := d)] == s.callers[i := s.callers[i].(agents := d)];
    }
  }
}
