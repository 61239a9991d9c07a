/**
 When chats that delegate block each other on the tool budget: every slot held by a spawn whose
 subagent waits for a slot itself.
 */
module ToolDeadlock {
  import opened Basics
  import opened ToolNesting

  predicate Patient(es: seq<Event>) {
    forall i :: 0 <= i < |es| ==> !es[i].Abort?
  }

  /** A step that takes or returns a slot. */
  ghost predicate IsBudgetStep(s: Nest, e: Event) {
    Enabled(s, e) && (e.Enter? || e.Return? || (e.Finish? && EndsSpawn(s.callers[e.i])))
  }

  /** Without a timeout or a cancel, the agents can go on until some slot is taken or returned. */
  ghost predicate CanProgress(s: Nest) {
    exists es: seq<Event>, e: Event :: IsRun(s, es) && Patient(es) && IsBudgetStep(Exec(s, es), e)
  }

  ghost predicate Stuck(s: Nest) {
    (exists i: nat :: s.Queues(i)) && !CanProgress(s)
  }

  // Every slot is held by a caller whose innermost agent is in the queue.
  ghost predicate AllBlocked(s: Nest) {
    && s.c.inflight == s.c.maxInflight
    && forall i: nat :: s.Has(i) && Held(s.callers[i]) > 0 ==> s.Queues(i)
  }

  lemma NoneGranted(s: Nest)
    requires Inv(s) && s.c.inflight == s.c.maxInflight
    ensures forall i: nat :: s.Has(i) ==> s.callers[i].leaf != SlotInHand
  {
    forall i: nat | s.Has(i)
      ensures s.callers[i].leaf != SlotInHand
    {
      SumAtLeast(s.callers, i, Granted);
    }
  }

  lemma BlockedStep(s: Nest, e: Event)
    requires Inv(s) && AllBlocked(s) && Enabled(s, e) && !e.Abort?
    ensures !IsBudgetStep(s, e) && Inv(Next(s, e)) && AllBlocked(Next(s, e))
  {
    Step(s, e);
    NoneGranted(s);
    assert Held(s.callers[e.i]) > 0 ==> s.Queues(e.i);
  }

  lemma {:induction false} BlockedRun(s: Nest, es: seq<Event>)
    requires Inv(s) && AllBlocked(s) && IsRun(s, es) && Patient(es)
    ensures Inv(Exec(s, es)) && AllBlocked(Exec(s, es))
    decreases |es|
  {
    if es != [] {
      BlockedStep(s, es[0]);
      assert forall i :: 0 <= i < |es[1..]| ==> es[1..][i] == es[i + 1];
      BlockedRun(Next(s, es[0]), es[1..]);
    }
  }

  lemma SomeQueued(s: Nest)
    requires Inv(s) && AllBlocked(s)
    ensures exists i: nat :: s.Queues(i)
  {
    if forall i: nat :: s.Has(i) ==> Held(s.callers[i]) == 0 {
      SumExact(s.callers, 0, Held);
      assert false;
    }
  }

  // Ends the subagents of a chat one by one, up to the one whose end returns the slot.
  lemma {:induction false} WindUp(s: Nest, i: nat, next: nat) returns (es: seq<Event>)
    requires s.Has(i) && s.callers[i].chat && s.callers[i].agents > 0 && s.callers[i].leaf == NoLeaf
    requires s.MayPut(next)
    ensures IsRun(s, es) && Patient(es) && IsBudgetStep(Exec(s, es), Finish(i, next))
    decreases s.callers[i].agents
  {
    if s.callers[i].agents == 1 {
      es := [];
    } else {
      var n := Next(s, Finish(i, next));
      assert forall k: nat :: n.Queues(k) <==> s.Queues(k);
      var rest := WindUp(n, i, next);
      es := [Finish(i, next)] + rest;
      assert es[1..] == rest;
    }
  }

  // A slot that nobody in the queue waits behind can be taken or returned.
  lemma Unblock(s: Nest, i: nat, w: nat)
    requires s.Has(i) && s.Queues(w)
    requires s.callers[i].leaf == SlotInHand || (Held(s.callers[i]) > 0 && s.callers[i].leaf != InQueue)
    ensures CanProgress(s)
  {
    if s.callers[i].leaf == SlotInHand {
      assert IsBudgetStep(Exec(s, []), Enter(i));
    } else if s.callers[i].leaf == Running {
      assert IsBudgetStep(Exec(s, []), Return(i, w));
    } else {
      var es := WindUp(s, i, w);
    }
  }

  /** With a call in the queue, the budget is stuck exactly when every slot is held by a spawn whose
      subagent is itself in the queue. */
  lemma StuckShape(s: Nest)
    requires Inv(s)
    ensures Stuck(s) <==> AllBlocked(s)
  {
    if Stuck(s) {
      var w: nat :| s.Queues(w);
      forall i: nat | s.Has(i)
        ensures s.callers[i].leaf != SlotInHand && (Held(s.callers[i]) > 0 ==> s.Queues(i))
      {
        if s.callers[i].leaf == SlotInHand || (Held(s.callers[i]) > 0 && s.callers[i].leaf != InQueue) {
          Unblock(s, i, w);
        }
      }
      SumExact(s.callers, 0, Granted);
    }
    if AllBlocked(s) {
      SomeQueued(s);
      forall es: seq<Event>, e: Event | IsRun(s, es) && Patient(es)
        ensures !IsBudgetStep(Exec(s, es), e)
      {
        BlockedRun(s, es);
        if IsBudgetStep(Exec(s, es), e) {
          BlockedStep(Exec(s, es), e);
        }
      }
    }
  }

  /** With a call in the queue, some slot can still be taken or returned exactly while fewer spawns
      wait for a nested call than there are slots. */
  lemma ProgressIff(s: Nest)
    requires Inv(s) && exists i: nat :: s.Queues(i)
    ensures CanProgress(s) <==> Sum(s.callers, Blocked) < s.c.maxInflight
  {
    StuckShape(s);
    SumOrder(s.callers, Blocked, Held);
    if Sum(s.callers, Blocked) >= s.c.maxInflight {
      NoneGranted(s);
    }
    if AllBlocked(s) {
      forall i | s.Has(i) ensures Held(s.callers[i]) <= Blocked(s.callers[i]) {
        assert Held(s.callers[i]) > 0 ==> s.Queues(i);
      }
      SumOrder(s.callers, Held, Blocked);
    }
  }

  /** Only timeouts and cancels end a deadlock. */
  lemma StuckForever(s: Nest, es: seq<Event>)
    requires Inv(s) && Stuck(s) && IsRun(s, es) && Patient(es)
    ensures Stuck(Exec(s, es))
  {
    StuckShape(s);
    BlockedRun(s, es);
    StuckShape(Exec(s, es));
  }

  // Who can be stuck: chats that may spawn, one for each slot, each with a place in the queue.
  lemma StuckNeeds(s: Nest, chats: nat)
    requires Inv(s) && Stuck(s)
    requires forall i: nat :: s.Has(i) ==> (s.callers[i].chat <==> i < chats)
    ensures s.maxDepth > 0 && s.c.maxInflight <= Min(chats, s.c.queueDepth)
  {
    StuckShape(s);
    SomeQueued(s);
    forall i: nat | s.Has(i)
      ensures Held(s.callers[i]) <= if i < chats then Pending(s.callers[i]) else 0
    {
      assert Held(s.callers[i]) > 0 ==> s.Queues(i);
    }
    SumPrefix(s.callers, chats, Held);
    SumOrder(s.callers, Held, Pending);
    if s.maxDepth == 0 {
      SumExact(s.callers, 0, Held);
      assert false;
    }
  }

  // The first `spawned` callers run a subagent, and the subagents of the first `queued` of them
  // have a call in the queue.
  ghost predicate Filled(s: Nest, spawned: nat, queued: nat) {
    && Inv(s) && s.maxDepth > 0
    && s.c.inflight == spawned <= |s.callers|
    && forall i: nat :: s.Has(i) ==>
      && s.callers[i].agents == (if i < spawned then 1 else 0)
      && s.callers[i].leaf == (if i < queued then InQueue else NoLeaf)
  }

  lemma SpawnReserved(s: Nest, k: nat) returns (a: Nest)
    requires Filled(s, k, 0) && s.Has(k) && k < s.c.maxInflight
    ensures Enabled(s, Call(k)) && a == Next(s, Call(k)) && Inv(a) && SameShape(s, a)
    ensures a.callers == s.callers[k := s.callers[k].(leaf := SlotInHand)] && a.c.inflight == s.c.inflight
  {
    SumExact(s.callers, 0, Pending);
    SumExact(s.callers, 0, Granted);
    a := Next(s, Call(k));
    Step(s, Call(k));
  }

  lemma SpawnStarted(s: Nest, k: nat) returns (a: Nest, b: Nest)
    requires Filled(s, k, 0) && s.Has(k) && s.callers[k].chat && k < s.c.maxInflight
    ensures Enabled(s, Call(k)) && a == Next(s, Call(k)) && Enabled(a, Enter(k)) && b == Next(a, Enter(k))
    ensures Inv(b) && SameShape(s, b) && b.c.inflight == k + 1
    ensures b.callers == s.callers[k := s.callers[k].(leaf := Running)]
  {
    a := SpawnReserved(s, k);
    b := Next(a, Enter(k));
    Step(a, Enter(k));
  }

  // One more chat spawns a subagent.
  lemma SpawnOne(s: Nest, k: nat) returns (es: seq<Event>)
    requires Filled(s, k, 0) && s.Has(k) && s.callers[k].chat && k < s.c.maxInflight
    ensures IsRun(s, es) && Filled(Exec(s, es), k + 1, 0) && SameShape(s, Exec(s, es))
  {
    var a, b := SpawnStarted(s, k);
    Step(b, Delegate(k));
    es := [Call(k)] + ([Enter(k)] + ([Delegate(k)] + []));
    RunCons(b, Delegate(k), []);
    RunCons(a, Enter(k), [Delegate(k)] + []);
    RunCons(s, Call(k), [Enter(k)] + ([Delegate(k)] + []));
  }

  lemma RunCons(s: Nest, e: Event, es: seq<Event>)
    requires Enabled(s, e) && IsRun(Next(s, e), es)
    ensures IsRun(s, [e] + es) && Exec(s, [e] + es) == Exec(Next(s, e), es)
  {
    assert ([e] + es)[1..] == es;
  }

  lemma {:induction false} SpawnAll(s: Nest, k: nat) returns (es: seq<Event>)
    requires Filled(s, k, 0) && k <= s.c.maxInflight <= |s.callers|
    requires forall i: nat :: i < s.c.maxInflight ==> s.callers[i].chat
    ensures IsRun(s, es) && Filled(Exec(s, es), s.c.maxInflight, 0) && SameShape(s, Exec(s, es))
    decreases s.c.maxInflight - k
  {
    if k == s.c.maxInflight {
      es := [];
    } else {
      var first := SpawnOne(s, k);
      var rest := SpawnAll(Exec(s, first), k + 1);
      ExecConcat(s, first, rest);
      es := first + rest;
    }
  }

  // The subagents make one call each.
  lemma {:induction false} QueueAll(s: Nest, q: nat) returns (es: seq<Event>)
    requires Filled(s, s.c.maxInflight, q) && q <= s.c.maxInflight <= s.c.queueDepth
    ensures IsRun(s, es) && Inv(Exec(s, es)) && AllBlocked(Exec(s, es))
    decreases s.c.maxInflight - q
  {
    if q == s.c.maxInflight {
      es := [];
      AllQueued(s);
    } else {
      NoneGranted(s);
      SumExact(s.callers, q, Pending);
      Step(s, Call(q));
      var rest := QueueAll(Next(s, Call(q)), q + 1);
      es := [Call(q)] + rest;
      assert es[1..] == rest;
    }
  }

  lemma AllQueued(s: Nest)
    requires Filled(s, s.c.maxInflight, s.c.maxInflight)
    ensures AllBlocked(s)
  {
  }

  ghost predicate CanGetStuck(s: Nest) {
    exists es :: IsRun(s, es) && Stuck(Exec(s, es))
  }

  /** A deadlock is reachable from an idle budget exactly when subagents can be spawned and there
      are, for every slot, a chat to spawn one and a place in the queue for its call. The depth
      limit matters only in that it allows a first spawn. Chats are bounded by the model budget,
      so one chat at a time and two tool slots, the defaults, cannot deadlock. */
  lemma StuckIff(maxCalls: int, depth: int, maxDepth: nat, chats: nat, commands: nat)
    ensures CanGetStuck(Idle(maxCalls, depth, maxDepth, chats, commands))
      <==> maxDepth > 0 && Max(1, maxCalls) <= Min(chats, Max(0, depth))
  {
    var s := Idle(maxCalls, depth, maxDepth, chats, commands);
    IdleInv(maxCalls, depth, maxDepth, chats, commands);
    if CanGetStuck(s) {
      var es :| IsRun(s, es) && Stuck(Exec(s, es));
      RunInv(s, es);
      StuckNeeds(Exec(s, es), chats);
    }
    if maxDepth > 0 && s.c.maxInflight <= Min(chats, s.c.queueDepth) {
      var first := SpawnAll(s, 0);
      var rest := QueueAll(Exec(s, first), 0);
      ExecConcat(s, first, rest);
      StuckShape(Exec(s, first + rest));
    }
  }
}
