/**
 The execution budget of the serve backend: admission counters, high-water marks and a
 counting semaphore. Chat requests and tool calls each have one budget of this shape.

 `Budget` is the object the backend updates in place; each of its methods is one
 critical section of the budget lock and is proved equal to a function on `Counters`.
 `System` puts any number of tasks around those functions, one event per atomic step.
 */
module ExecutionBudget {

  import opened Basics

  datatype Counters = Counters(
    maxInflight: nat, queueDepth: nat,
    inflight: nat, queued: nat,
    inflightHigh: int, queueHigh: int, backpressure: int,
    free: nat)  // value of the semaphore in use
  {
    function Pending(): nat {
      inflight + queued
    }

    function Capacity(): nat {
      maxInflight + queueDepth
    }

    predicate Admits() {
      Pending() < Capacity()
    }

    function Reserve(): Counters {
      if Admits() then
        this.(queued := queued + 1, queueHigh := Max(queueHigh, queued + 1))
      else
        this.(backpressure := backpressure + 1)
    }

    function Rollback(): Counters {
      if queued > 0 then this.(queued := queued - 1) else this
    }

    // The critical section that follows a successful semaphore acquisition.
    function Enter(): Counters {
      Rollback().(inflight := inflight + 1, inflightHigh := Max(inflightHigh, inflight + 1))
    }

    function Release(): Counters {
      (if inflight > 0 then this.(inflight := inflight - 1) else this).(free := free + 1)
    }

    function Reconfigure(maxCalls: int, depth: int): Counters {
      this.(maxInflight := Max(1, maxCalls), queueDepth := Max(0, depth), free := Max(1, maxCalls))
    }

    // A resumed session brings its own marks, whatever the counters are.
    function RestoreMarks(queueMark: int, inflightMark: int, rejections: int): Counters {
      this.(queueHigh := queueMark, inflightHigh := inflightMark, backpressure := rejections)
    }
  }

  /** A counting semaphore; waiting is the business of `System` below. */
  class Semaphore {
    var value: nat

    constructor (value: nat)
      ensures this.value == value
    {
      this.value := value;
    }

    // Taking a slot that is free.
    method Acquire()
      requires value > 0
      modifies this
      ensures value == old(value) - 1
    {
      value := value - 1;
    }

    method Release()
      modifies this
      ensures value == old(value) + 1
    {
      value := value + 1;
    }
  }

  class Budget {
    var maxInflight: int
    var queueDepth: int
    var inflight: int
    var queued: int
    var inflightHigh: int
    var queueHigh: int
    var backpressure: int
    var slots: Semaphore

    ghost predicate Valid()
      reads this
    {
      maxInflight >= 1 && queueDepth >= 0 && inflight >= 0 && queued >= 0
    }

    ghost function View(): Counters
      reads this, slots
      requires Valid()
    {
      Counters(maxInflight, queueDepth, inflight, queued, inflightHigh, queueHigh, backpressure, slots.value)
    }

    constructor (maxCalls: int, depth: int)
      ensures Valid() && fresh(slots)
      ensures View() == Counters(1, 0, 0, 0, 0, 0, 0, 0).Reconfigure(maxCalls, depth)
    {
      maxInflight, queueDepth := Max(1, maxCalls), Max(0, depth);
      inflight, queued, inflightHigh, queueHigh, backpressure := 0, 0, 0, 0, 0;
      slots := new Semaphore(Max(1, maxCalls));
    }

    method Reserve() returns (ok: bool)
      requires Valid()
      modifies this
      ensures Valid() && slots == old(slots)
      ensures ok == old(View().Admits())
      ensures View() == old(View().Reserve())
      ensures ok <==> old(inflight) + old(queued) < maxInflight + queueDepth
      ensures queued == old(queued) + (if ok then 1 else 0) && inflight == old(inflight)
      ensures queueHigh == (if ok then Max(old(queueHigh), queued) else old(queueHigh))
      ensures backpressure == old(backpressure) + (if ok then 0 else 1) && inflightHigh == old(inflightHigh)
    {
      var capacity := maxInflight + queueDepth;
      var pending := inflight + queued;
      if pending >= capacity {
        backpressure := backpressure + 1;
        return false;
      }
      queued := queued + 1;
      if queued > queueHigh {
        queueHigh := queued;
      }
      return true;
    }

    method Rollback()
      requires Valid()
      modifies this
      ensures Valid() && slots == old(slots)
      ensures View() == old(View().Rollback())
      ensures queued == Max(0, old(queued) - 1) && inflight == old(inflight)
    {
      if queued > 0 {
        queued := queued - 1;
      }
    }

    method Enter()
      requires Valid()
      modifies this
      ensures Valid() && slots == old(slots)
      ensures View() == old(View().Enter())
      ensures queued == Max(0, old(queued) - 1) && inflight == old(inflight) + 1
      ensures inflightHigh == Max(old(inflightHigh), inflight)
    {
      if queued > 0 {
        queued := queued - 1;
      }
      inflight := inflight + 1;
      if inflight > inflightHigh {
        inflightHigh := inflight;
      }
    }

    // Hands the slot to the semaphore in use now, which need not be the one it came from.
    method Release()
      requires Valid()
      modifies this, slots
      ensures Valid() && slots == old(slots)
      ensures View() == old(View().Release())
      ensures inflight == Max(0, old(inflight) - 1) && queued == old(queued) && slots.value == old(slots.value) + 1
    {
      if inflight > 0 {
        inflight := inflight - 1;
      }
      slots.Release();
    }

    // The replaced semaphore stays alive, unchanged, for the tasks that wait on it.
    method Reconfigure(maxCalls: int, depth: int)
      requires Valid()
      modifies this
      ensures Valid() && fresh(slots)
      ensures View() == old(View().Reconfigure(maxCalls, depth))
      ensures maxInflight == slots.value == Max(1, maxCalls) && queueDepth == Max(0, depth)
      ensures inflight == old(inflight) && queued == old(queued)
    {
      maxInflight := Max(1, maxCalls);
      queueDepth := Max(0, depth);
      slots := new Semaphore(maxInflight);
    }

    method RestoreMarks(queueMark: int, inflightMark: int, rejections: int)
      requires Valid()
      modifies this
      ensures Valid() && slots == old(slots)
      ensures View() == old(View().RestoreMarks(queueMark, inflightMark, rejections))
      ensures queueHigh == queueMark && inflightHigh == inflightMark && backpressure == rejections
      ensures inflight == old(inflight) && queued == old(queued)
    {
      backpressure := rejections;
      queueHigh := queueMark;
      inflightHigh := inflightMark;
    }
  }

  // ---------------------------------------------------------------------------------------------
  // Tasks
  // ---------------------------------------------------------------------------------------------

  type Task = nat

  /** `gen` says which semaphore a task waits on: they are numbered in order of creation. */
  datatype Phase =
    | Queued              // reserved, between two attempts to acquire
    | Waiting(gen: nat)   // suspended in Semaphore.acquire
    | InHand(gen: nat)    // given a slot, not resumed yet
    | Running
    | Finalised
    | Rejected

  predicate IsQueued(p: Phase) {
    p.Queued? || p.Waiting? || p.InHand?
  }

  predicate IsInHand(p: Phase) {
    p.InHand?
  }

  predicate IsRunning(p: Phase) {
    p.Running?
  }

  predicate IsWaiting(p: Phase) {
    p.Waiting?
  }

  ghost function StaleWait(current: nat): Phase -> bool {
    (p: Phase) => p.Waiting? && p.gen < current
  }

  ghost function StaleHand(current: nat): Phase -> bool {
    (p: Phase) => p.InHand? && p.gen < current
  }

  /** `retries` is true of the chat budget, whose acquisition loop re-reads the semaphore after
      each 0.1 s attempt, and false of the tool budget, which waits once. A task that is absent
      from `tasks` has not started; `older` holds the values of the replaced semaphores. */
  datatype System = System(c: Counters, retries: bool, older: seq<nat>, tasks: map<Task, Phase>) {
    function Current(): nat {
      |older|
    }

    function Free(gen: nat): nat {
      if gen < |older| then older[gen] else c.free
    }

    predicate At(t: Task, p: Phase) {
      t in tasks && tasks[t] == p
    }

    function Move(t: Task, p: Phase): System {
      this.(tasks := tasks[t := p])
    }

    ghost predicate HasWaiter(gen: nat) {
      exists t :: At(t, Waiting(gen))
    }

    // A released slot goes to a waiter at once when there is one (`next` says which).
    function Put(gen: nat, next: Task): System {
      if At(next, Waiting(gen)) then Move(next, InHand(gen))
      else if gen < |older| then this.(older := older[gen := older[gen] + 1])
      else this.(c := c.(free := c.free + 1))
    }

    ghost predicate MayPut(gen: nat, next: Task) {
      HasWaiter(gen) ==> At(next, Waiting(gen))
    }
  }

  function Initial(maxCalls: int, depth: int, retries: bool): System {
    System(Counters(1, 0, 0, 0, 0, 0, 0, 0).Reconfigure(maxCalls, depth), retries, [], map[])
  }

  /** Where an event frees a slot, `next` is the waiter that gets it, if any waits. A resumed
      session restores the marks and then reconfigures. */
  datatype Event =
    | Reserve(t: Task)
    | Wait(t: Task)
    | Timeout(t: Task, next: Task)  // an attempt gives up, returning a slot it had not yet seen
    | Enter(t: Task)
    | Abandon(t: Task, next: Task)  // cancelled or killed before it entered
    | Finish(t: Task, next: Task)   // returned, failed or killed while running
    | RestoreMarks(queueMark: int, inflightMark: int, rejections: int)
    | Reconfigure(maxCalls: int, depth: int)

  predicate OfTask(e: Event) {
    !e.RestoreMarks? && !e.Reconfigure?
  }

  // What leaving a phase gives back: the slot of a task that has one in hand.
  function Leave(s: System, t: Task, to: Phase, next: Task): System
    requires t in s.tasks
  {
    if s.tasks[t].InHand? then s.Move(t, to).Put(s.tasks[t].gen, next) else s.Move(t, to)
  }

  ghost predicate MayLeave(s: System, t: Task, to: Phase, next: Task)
    requires t in s.tasks
  {
    s.tasks[t].InHand? ==> s.Move(t, to).MayPut(s.tasks[t].gen, next)
  }

  ghost predicate Enabled(s: System, e: Event) {
    match e
    case Reserve(t) => t !in s.tasks
    case Wait(t) => s.At(t, Queued)
    case Timeout(t, next) =>
      s.retries && t in s.tasks && (s.tasks[t].Waiting? || s.tasks[t].InHand?) && MayLeave(s, t, Queued, next)
    case Enter(t) => t in s.tasks && s.tasks[t].InHand?
    case Abandon(t, next) => t in s.tasks && IsQueued(s.tasks[t]) && MayLeave(s, t, Finalised, next)
    case Finish(t, next) => s.At(t, Running) && s.Move(t, Finalised).MayPut(s.Current(), next)
    case RestoreMarks(_, _, _) => true
    case Reconfigure(_, _) => true
  }

  function Next(s: System, e: Event): System
    requires Enabled(s, e)
  {
    match e
    case Reserve(t) => s.(c := s.c.Reserve()).Move(t, if s.c.Admits() then Queued else Rejected)
    case Wait(t) =>
      if s.c.free > 0 then s.(c := s.c.(free := s.c.free - 1)).Move(t, InHand(s.Current()))
      else s.Move(t, Waiting(s.Current()))
    case Timeout(t, next) => Leave(s, t, Queued, next)
    case Enter(t) => s.(c := s.c.Enter()).Move(t, Running)
    case Abandon(t, next) => var r := Leave(s, t, Finalised, next); r.(c := r.c.Rollback())
    case Finish(t, next) =>
      var r := s.Move(t, Finalised);
      if r.At(next, Waiting(s.Current())) then
        r.(c := s.c.Release().(free := s.c.free)).Move(next, InHand(s.Current()))
      else
        r.(c := s.c.Release())
    case RestoreMarks(q, i, b) => s.(c := s.c.RestoreMarks(q, i, b))
    case Reconfigure(m, d) => s.(c := s.c.Reconfigure(m, d), older := s.older + [s.c.free])
  }

  ghost predicate IsRun(s: System, es: seq<Event>)
    decreases |es|
  {
    es == [] || (Enabled(s, es[0]) && IsRun(Next(s, es[0]), es[1..]))
  }

  function Exec(s: System, es: seq<Event>): System
    requires IsRun(s, es)
    decreases |es|
  {
    if es == [] then s else Exec(Next(s, es[0]), es[1..])
  }

  predicate Steady(es: seq<Event>) {
    forall i :: 0 <= i < |es| ==> !es[i].Reconfigure?
  }

  lemma {:induction false} ExecConcat(s: System, es: seq<Event>, fs: seq<Event>)
    requires IsRun(s, es) && IsRun(Exec(s, es), fs)
    ensures IsRun(s, es + fs) && Exec(s, es + fs) == Exec(Exec(s, es), fs)
    decreases |es|
  {
    if es == [] {
      assert es + fs == fs;
    } else {
      assert (es + fs)[1..] == es[1..] + fs;
      ExecConcat(Next(s, es[0]), es[1..], fs);
    }
  }

  // ---------------------------------------------------------------------------------------------
  // Counting tasks by phase
  // ---------------------------------------------------------------------------------------------

  ghost function Those(tasks: map<Task, Phase>, p: Phase -> bool): set<Task> {
    set t | t in tasks && p(tasks[t])
  }

  ghost function Num(tasks: map<Task, Phase>, p: Phase -> bool): nat {
    |Those(tasks, p)|
  }

  lemma SizeApart<T>(a: set<T>, b: set<T>, t: T)
    requires a - {t} == b - {t}
    ensures |b| == |a| - (if t in a then 1 else 0) + (if t in b then 1 else 0)
  {
    SizeWithout(a, t);
    SizeWithout(b, t);
  }

  lemma SizeWithout<T>(a: set<T>, t: T)
    ensures |a - {t}| == |a| - if t in a then 1 else 0
  {
    if t in a {
      assert a == (a - {t}) + {t};
    } else {
      assert a == a - {t};
    }
  }

  lemma NumMove(tasks: map<Task, Phase>, t: Task, q: Phase, p: Phase -> bool)
    ensures Num(tasks[t := q], p)
         == Num(tasks, p) - (if t in tasks && p(tasks[t]) then 1 else 0) + (if p(q) then 1 else 0)
  {
    SizeApart(Those(tasks, p), Those(tasks[t := q], p), t);
  }

  lemma SubsetSize<T>(a: set<T>, b: set<T>)
    requires a <= b
    ensures |a| <= |b|
  {
    assert b == a + (b - a);
  }

  lemma StaleAtMostHeld(s: System, current: nat)
    ensures Num(s.tasks, StaleHand(current)) <= Num(s.tasks, IsInHand)
  {
    SubsetSize(Those(s.tasks, StaleHand(current)), Those(s.tasks, IsInHand));
  }

  // How moving one task changes every count the ledger uses.
  lemma Counts(s: System, t: Task, q: Phase)
    ensures var n := s.Move(t, q).tasks; var known := t in s.tasks;
      && Num(n, IsQueued) == Num(s.tasks, IsQueued)
           - (if known && IsQueued(s.tasks[t]) then 1 else 0) + (if IsQueued(q) then 1 else 0)
      && Num(n, IsRunning) == Num(s.tasks, IsRunning)
           - (if known && IsRunning(s.tasks[t]) then 1 else 0) + (if IsRunning(q) then 1 else 0)
      && Num(n, IsInHand) == Num(s.tasks, IsInHand)
           - (if known && IsInHand(s.tasks[t]) then 1 else 0) + (if IsInHand(q) then 1 else 0)
      && Num(n, StaleHand(s.Current())) == Num(s.tasks, StaleHand(s.Current()))
           - (if known && StaleHand(s.Current())(s.tasks[t]) then 1 else 0)
           + (if StaleHand(s.Current())(q) then 1 else 0)
  {
    NumMove(s.tasks, t, q, IsQueued);
    NumMove(s.tasks, t, q, IsRunning);
    NumMove(s.tasks, t, q, IsInHand);
    NumMove(s.tasks, t, q, StaleHand(s.Current()));
  }

  lemma NumZero(tasks: map<Task, Phase>, p: Phase -> bool)
    requires forall t :: t in tasks ==> !p(tasks[t])
    ensures Num(tasks, p) == 0
  {
    assert Those(tasks, p) == {};
  }

  lemma NumWitness(tasks: map<Task, Phase>, p: Phase -> bool) returns (t: Task)
    requires Num(tasks, p) > 0
    ensures t in tasks && p(tasks[t])
  {
    assert Those(tasks, p) != {};
    t :| t in Those(tasks, p);
  }

  // ---------------------------------------------------------------------------------------------
  // The ledger
  // ---------------------------------------------------------------------------------------------

  ghost function InUse(s: System): nat {
    s.c.inflight + Num(s.tasks, IsInHand)
  }

  // Slots the semaphores can still give out beyond the configured maximum.
  ghost function Slack(s: System): int {
    s.c.free + InUse(s) - s.c.maxInflight
  }

  // The counters count the tasks, and stale slots are part of the slack.
  ghost predicate Balanced(s: System) {
    && s.c.maxInflight >= 1
    && s.c.queued == Num(s.tasks, IsQueued)
    && s.c.inflight == Num(s.tasks, IsRunning)
    && Num(s.tasks, StaleHand(s.Current())) <= Slack(s)
  }

  // Tasks refer to semaphores that exist, and wait only on exhausted ones.
  ghost predicate Placed(s: System) {
    forall t :: t in s.tasks ==>
      && (s.tasks[t].Waiting? ==> s.tasks[t].gen <= s.Current() && s.Free(s.tasks[t].gen) == 0)
      && (s.tasks[t].InHand? ==> s.tasks[t].gen <= s.Current())
  }

  ghost predicate Inv(s: System) {
    Balanced(s) && Placed(s)
  }

  lemma InitialInv(maxCalls: int, depth: int, retries: bool)
    ensures Inv(Initial(maxCalls, depth, retries)) && Slack(Initial(maxCalls, depth, retries)) == 0
  {
    var s := Initial(maxCalls, depth, retries);
    NumZero(s.tasks, IsQueued);
    NumZero(s.tasks, IsRunning);
    NumZero(s.tasks, IsInHand);
    NumZero(s.tasks, StaleHand(0));
  }

  // A slot of a replaced semaphore given back with nobody left to take it: the only loss.
  ghost predicate LosesSlot(s: System, e: Event) {
    && (e.Timeout? || e.Abandon?)
    && e.t in s.tasks && s.tasks[e.t].InHand? && s.tasks[e.t].gen < s.Current()
    && !s.HasWaiter(s.tasks[e.t].gen)
  }

  /** The guards against negative counters never hide a decrement. */
  lemma GuardsNeverMask(s: System, e: Event)
    requires Inv(s) && Enabled(s, e)
    ensures e.Enter? || e.Abandon? ==> Next(s, e).c.queued == s.c.queued - 1
    ensures e.Finish? ==> Next(s, e).c.inflight == s.c.inflight - 1
  {
    if OfTask(e) {
      assert e.Enter? || e.Abandon? ==> e.t in Those(s.tasks, IsQueued);
      assert e.Finish? ==> e.t in Those(s.tasks, IsRunning);
    }
  }

  // A task that moves anywhere but to wait disturbs nobody.
  lemma MovePlaced(s: System, t: Task, to: Phase)
    requires Placed(s) && !to.Waiting? && (to.InHand? ==> to.gen <= s.Current())
    ensures Placed(s.Move(t, to))
  {}

  lemma LeavePlaced(s: System, t: Task, to: Phase, next: Task)
    requires Placed(s) && t in s.tasks && (to.Queued? || to.Finalised?) && MayLeave(s, t, to, next)
    ensures Placed(Leave(s, t, to, next))
  {
    MovePlaced(s, t, to);
    if s.tasks[t].InHand? {
      PutPlaced(s.Move(t, to), s.tasks[t].gen, next);
    }
  }

  lemma AlonePlaced(s: System, e: Event)
    requires Placed(s) && Enabled(s, e) && (e.Reserve? || e.Wait? || e.Enter? || !OfTask(e))
    ensures Placed(Next(s, e))
  {}

  lemma StepPlaced(s: System, e: Event)
    requires Placed(s) && Enabled(s, e)
    ensures Placed(Next(s, e))
  {
    match e
    case Finish(t, next) =>
      MovePlaced(s, t, Finalised);
      PutPlaced(s.Move(t, Finalised), s.Current(), next);
    case Timeout(t, next) => LeavePlaced(s, t, Queued, next);
    case Abandon(t, next) => LeavePlaced(s, t, Finalised, next);
    case _ => AlonePlaced(s, e);
  }

  lemma PutPlaced(s: System, gen: nat, next: Task)
    requires Placed(s) && gen <= s.Current() && s.MayPut(gen, next)
    ensures Placed(s.Put(gen, next))
  {
    if !s.At(next, Waiting(gen)) {
      assert forall t :: t in s.tasks ==> s.At(t, s.tasks[t]) && s.tasks[t] != Waiting(gen);
    }
  }

  // What every step keeps, and what it does to the slack.
  ghost predicate Kept(s: System, e: Event)
    requires Enabled(s, e)
  {
    var n := Next(s, e);
    && Balanced(n)
    && (if e.Reconfigure? then
          Slack(n) == InUse(s)
        else
          && Slack(n) == Slack(s) - (if LosesSlot(s, e) then 1 else 0)
          && n.c.Pending() <= Max(s.c.Capacity(), s.c.Pending()))
  }

  lemma StepReconfigure(s: System, e: Event)
    requires Inv(s) && !OfTask(e)
    ensures Kept(s, e)
  {
    StaleAtMostHeld(Next(s, e), Next(s, e).Current());
  }

  lemma StepReserve(s: System, t: Task)
    requires Inv(s) && Enabled(s, Reserve(t))
    ensures Kept(s, Reserve(t))
  {
    Counts(s, t, if s.c.Admits() then Queued else Rejected);
  }

  lemma StepWait(s: System, t: Task)
    requires Inv(s) && Enabled(s, Wait(t))
    ensures Kept(s, Wait(t))
  {
    Counts(s, t, Next(s, Wait(t)).tasks[t]);
  }

  lemma StepEnter(s: System, t: Task)
    requires Inv(s) && Enabled(s, Enter(t))
    ensures Kept(s, Enter(t))
  {
    GuardsNeverMask(s, Enter(t));
    Counts(s, t, Running);
  }

  lemma StepFinish(s: System, e: Event)
    requires Inv(s) && Enabled(s, e) && e.Finish?
    ensures Kept(s, e)
  {
    GuardsNeverMask(s, e);
    var m := s.Move(e.t, Finalised);
    Counts(s, e.t, Finalised);
    if m.At(e.next, Waiting(s.Current())) {
      Counts(m, e.next, InHand(s.Current()));
    }
  }

  // A task that leaves without a slot.
  lemma StepLeave(s: System, e: Event)
    requires Inv(s) && Enabled(s, e) && (e.Timeout? || e.Abandon?) && !s.tasks[e.t].InHand?
    ensures Kept(s, e)
  {
    GuardsNeverMask(s, e);
    Counts(s, e.t, if e.Timeout? then Queued else Finalised);
  }

  // What handing back a slot does to the counts.
  lemma HandBack(s: System, t: Task, to: Phase, next: Task)
    requires Placed(s) && t in s.tasks && s.tasks[t].InHand?
    requires (to.Queued? || to.Finalised?) && MayLeave(s, t, to, next)
    ensures var n, gen := Leave(s, t, to, next), s.tasks[t].gen;
      var lost := gen < s.Current() && !s.HasWaiter(gen);
      && n.Current() == s.Current() && n.c == s.c.(free := n.c.free)
      && Num(n.tasks, IsQueued) == Num(s.tasks, IsQueued) - (if to.Queued? then 0 else 1)
      && Num(n.tasks, IsRunning) == Num(s.tasks, IsRunning)
      && n.c.free + Num(n.tasks, IsInHand) == s.c.free + Num(s.tasks, IsInHand) - (if lost then 1 else 0)
      && Num(n.tasks, StaleHand(s.Current())) == Num(s.tasks, StaleHand(s.Current())) - (if lost then 1 else 0)
  {
    Counts(s, t, to);
    PutBalance(s.Move(t, to), s.tasks[t].gen, next);
    WaitersStay(s, t, to, s.tasks[t].gen);
  }

  lemma StepHandBack(s: System, e: Event)
    requires Inv(s) && Enabled(s, e) && (e.Timeout? || e.Abandon?) && s.tasks[e.t].InHand?
    ensures Kept(s, e)
  {
    GuardsNeverMask(s, e);
    HandBack(s, e.t, if e.Timeout? then Queued else Finalised, e.next);
  }

  // Returning a slot adds one to what is free or in hand, unless its semaphore is replaced and
  // nobody waits there.
  lemma PutBalance(s: System, gen: nat, next: Task)
    requires gen <= s.Current() && s.MayPut(gen, next)
    ensures var n := s.Put(gen, next); var kept := gen == s.Current() || s.HasWaiter(gen);
      && n.Current() == s.Current() && n.c == s.c.(free := n.c.free)
      && Num(n.tasks, IsQueued) == Num(s.tasks, IsQueued)
      && Num(n.tasks, IsRunning) == Num(s.tasks, IsRunning)
      && n.c.free + Num(n.tasks, IsInHand) == s.c.free + Num(s.tasks, IsInHand) + (if kept then 1 else 0)
      && Num(n.tasks, StaleHand(s.Current())) == Num(s.tasks, StaleHand(s.Current()))
           + (if gen < s.Current() && kept then 1 else 0)
  {
    if s.At(next, Waiting(gen)) {
      Counts(s, next, InHand(gen));
    }
  }

  lemma WaitersStay(s: System, t: Task, to: Phase, gen: nat)
    requires t in s.tasks && s.tasks[t].InHand? && !to.Waiting?
    ensures s.Move(t, to).HasWaiter(gen) <==> s.HasWaiter(gen)
  {
    forall u | s.At(u, Waiting(gen)) ensures s.Move(t, to).At(u, Waiting(gen)) {}
    forall u | s.Move(t, to).At(u, Waiting(gen)) ensures s.At(u, Waiting(gen)) {}
  }

  lemma Step(s: System, e: Event)
    requires Inv(s) && Enabled(s, e)
    ensures Kept(s, e) && Inv(Next(s, e))
  {
    StepPlaced(s, e);
    match e
    case Reserve(t) => StepReserve(s, t);
    case Wait(t) => StepWait(s, t);
    case Enter(t) => StepEnter(s, t);
    case RestoreMarks(_, _, _) => StepReconfigure(s, e);
    case Reconfigure(_, _) => StepReconfigure(s, e);
    case Finish(_, _) => StepFinish(s, e);
    case _ =>
      if s.tasks[e.t].InHand? {
        StepHandBack(s, e);
      } else {
        StepLeave(s, e);
      }
  }

  lemma {:induction false} RunInv(s: System, es: seq<Event>)
    requires Inv(s) && IsRun(s, es)
    ensures Inv(Exec(s, es))
    decreases |es|
  {
    if es != [] {
      Step(s, es[0]);
      RunInv(Next(s, es[0]), es[1..]);
    }
  }

  // What a step other than a reconfiguration leaves of the policy, the slack and what is pending.
  ghost predicate Within(s: System, n: System) {
    && 0 <= Slack(n) <= Slack(s)
    && n.c.maxInflight == s.c.maxInflight && n.c.queueDepth == s.c.queueDepth
    && n.c.Pending() <= Max(s.c.Capacity(), s.c.Pending())
  }

  lemma PolicyStays(s: System, e: Event)
    requires Enabled(s, e) && !e.Reconfigure?
    ensures Next(s, e).c.maxInflight == s.c.maxInflight && Next(s, e).c.queueDepth == s.c.queueDepth
  {}

  lemma SteadyStep(s: System, e: Event)
    requires Inv(s) && Enabled(s, e) && !e.Reconfigure?
    ensures Inv(Next(s, e)) && Within(s, Next(s, e))
  {
    Step(s, e);
    PolicyStays(s, e);
  }

  /** Between two reconfigurations the slack never grows, the policy is fixed and admission
      bounds what is pending. */
  lemma {:induction false} SteadyRun(s: System, es: seq<Event>)
    requires Inv(s) && IsRun(s, es) && Steady(es)
    ensures Inv(Exec(s, es)) && Within(s, Exec(s, es))
    decreases |es|
  {
    if es != [] {
      SteadyStep(s, es[0]);
      assert Steady(es[1..]);
      SteadyRun(Next(s, es[0]), es[1..]);
    }
  }

  /** Every slot is accounted for in every interleaving of a run without reconfiguration. */
  lemma Ledger(maxCalls: int, depth: int, retries: bool, es: seq<Event>)
    requires IsRun(Initial(maxCalls, depth, retries), es) && Steady(es)
    ensures var s := Exec(Initial(maxCalls, depth, retries), es);
      && s.c.free + s.c.inflight + Num(s.tasks, IsInHand) == Max(1, maxCalls)
      && s.c.inflight == Num(s.tasks, IsRunning) <= Max(1, maxCalls)
      && s.c.queued == Num(s.tasks, IsQueued)
      && s.c.inflight + s.c.queued <= Max(1, maxCalls) + Max(0, depth)
  {
    var s := Initial(maxCalls, depth, retries);
    InitialInv(maxCalls, depth, retries);
    SteadyRun(s, es);
  }

  predicate AllEnded(s: System) {
    forall t :: t in s.tasks ==> s.tasks[t].Finalised? || s.tasks[t].Rejected?
  }

  lemma NothingHeld(s: System)
    requires Inv(s) && AllEnded(s)
    ensures s.c.inflight == 0 && s.c.queued == 0 && InUse(s) == 0
  {
    NumZero(s.tasks, IsQueued);
    NumZero(s.tasks, IsRunning);
    NumZero(s.tasks, IsInHand);
  }

  /** Once every task of a run without reconfiguration has ended, every slot is back. */
  lemma Drained(maxCalls: int, depth: int, retries: bool, es: seq<Event>)
    requires IsRun(Initial(maxCalls, depth, retries), es) && Steady(es)
    requires AllEnded(Exec(Initial(maxCalls, depth, retries), es))
    ensures var c := Exec(Initial(maxCalls, depth, retries), es).c;
      c.inflight == 0 && c.queued == 0 && c.free == Max(1, maxCalls)
  {
    InitialInv(maxCalls, depth, retries);
    SteadyRun(Initial(maxCalls, depth, retries), es);
    Ledger(maxCalls, depth, retries, es);
    NothingHeld(Exec(Initial(maxCalls, depth, retries), es));
  }

  // ---------------------------------------------------------------------------------------------
  // High-water marks
  // ---------------------------------------------------------------------------------------------

  function QueuedOf(c: Counters): nat {
    c.queued
  }

  function InflightOf(c: Counters): nat {
    c.inflight
  }

  // The largest value a counter takes along a run, its first state included.
  function Peak(s: System, es: seq<Event>, count: Counters -> nat): nat
    requires IsRun(s, es)
    decreases |es|
  {
    if es == [] then count(s.c) else Max(count(s.c), Peak(Next(s, es[0]), es[1..], count))
  }

  // The values a counter rises to along a run.
  function Rises(s: System, es: seq<Event>, count: Counters -> nat): seq<nat>
    requires IsRun(s, es)
    decreases |es|
  {
    if es == [] then [] else
      var n := Next(s, es[0]);
      (if count(n.c) > count(s.c) then [count(n.c)] else []) + Rises(n, es[1..], count)
  }

  function Top(mark: int, values: seq<nat>): int
    decreases |values|
  {
    if values == [] then mark else Top(Max(mark, values[0]), values[1..])
  }

  lemma TopStep(s: System, es: seq<Event>, count: Counters -> nat, mark: int)
    requires IsRun(s, es) && es != []
    ensures var n := Next(s, es[0]);
      Top(mark, Rises(s, es, count))
      == Top(if count(n.c) > count(s.c) then Max(mark, count(n.c)) else mark, Rises(n, es[1..], count))
  {
    var n := Next(s, es[0]);
    var rest := Rises(n, es[1..], count);
    assert [] + rest == rest && ([count(n.c)] + rest)[1..] == rest;
  }

  predicate Unmarked(es: seq<Event>) {
    forall i :: 0 <= i < |es| ==> !es[i].RestoreMarks?
  }

  lemma StepHigh(s: System, e: Event)
    requires Inv(s) && Enabled(s, e) && !e.RestoreMarks?
    ensures var c, n := s.c, Next(s, e).c;
      && n.queueHigh == (if n.queued > c.queued then Max(c.queueHigh, n.queued) else c.queueHigh)
      && n.inflightHigh == (if n.inflight > c.inflight then Max(c.inflightHigh, n.inflight) else c.inflightHigh)
  {
    GuardsNeverMask(s, e);
  }

  /** Since it was last restored, each mark has been raised to exactly the values its counter
      rose to. */
  lemma {:induction false} HighWater(s: System, es: seq<Event>)
    requires Inv(s) && IsRun(s, es) && Unmarked(es)
    ensures Exec(s, es).c.queueHigh == Top(s.c.queueHigh, Rises(s, es, QueuedOf))
    ensures Exec(s, es).c.inflightHigh == Top(s.c.inflightHigh, Rises(s, es, InflightOf))
    decreases |es|
  {
    if es != [] {
      Step(s, es[0]);
      StepHigh(s, es[0]);
      var n := Next(s, es[0]);
      HighWater(n, es[1..]);
      TopStep(s, es, QueuedOf, s.c.queueHigh);
      TopStep(s, es, InflightOf, s.c.inflightHigh);
    }
  }

  lemma {:induction false} TopOfRises(s: System, es: seq<Event>, count: Counters -> nat, mark: int)
    requires IsRun(s, es) && mark >= count(s.c)
    ensures Top(mark, Rises(s, es, count)) == Max(mark, Peak(s, es, count))
    decreases |es|
  {
    if es != [] {
      var n := Next(s, es[0]);
      TopStep(s, es, count, mark);
      TopOfRises(n, es[1..], count, Max(mark, count(n.c)));
    }
  }

  lemma {:induction false} PeakConcat(s: System, es: seq<Event>, fs: seq<Event>, count: Counters -> nat)
    requires IsRun(s, es) && IsRun(Exec(s, es), fs)
    ensures IsRun(s, es + fs) && Peak(s, es + fs, count) == Max(Peak(s, es, count), Peak(Exec(s, es), fs, count))
    ensures Peak(s, es, count) >= count(Exec(s, es).c)
    decreases |es|
  {
    if es == [] {
      assert es + fs == fs;
    } else {
      assert (es + fs)[1..] == es[1..] + fs;
      PeakConcat(Next(s, es[0]), es[1..], fs, count);
    }
  }

  // What the marks claim to be at the end of a run.
  ghost predicate MarksArePeaks(s: System, es: seq<Event>)
    requires IsRun(s, es)
  {
    && Exec(s, es).c.queueHigh == Peak(s, es, QueuedOf)
    && Exec(s, es).c.inflightHigh == Peak(s, es, InflightOf)
  }

  /** Without a resume, each mark is the exact maximum of its counter over the whole run. */
  lemma MarksExact(maxCalls: int, depth: int, retries: bool, es: seq<Event>)
    requires IsRun(Initial(maxCalls, depth, retries), es) && Unmarked(es)
    ensures MarksArePeaks(Initial(maxCalls, depth, retries), es)
  {
    var s := Initial(maxCalls, depth, retries);
    InitialInv(maxCalls, depth, retries);
    HighWater(s, es);
    TopOfRises(s, es, QueuedOf, 0);
    TopOfRises(s, es, InflightOf, 0);
  }

  // The run that restores marks after `es` and goes on with `fs`.
  ghost predicate Resumes(s: System, es: seq<Event>, marks: Event, fs: seq<Event>)
    requires IsRun(s, es) && marks.RestoreMarks?
  {
    Unmarked(fs) && IsRun(Next(Exec(s, es), marks), fs)
  }

  lemma ResumedPeak(s: System, es: seq<Event>, marks: Event, fs: seq<Event>, count: Counters -> nat)
    requires IsRun(s, es) && marks.RestoreMarks? && Resumes(s, es, marks, fs)
    requires count(Next(Exec(s, es), marks).c) == count(Exec(s, es).c)
    ensures IsRun(s, es + ([marks] + fs))
    ensures Peak(s, es + ([marks] + fs), count) == Max(Peak(s, es, count), Peak(Next(Exec(s, es), marks), fs, count))
    ensures Peak(s, es, count) >= count(Next(Exec(s, es), marks).c)
  {
    assert ([marks] + fs)[1..] == fs;
    PeakConcat(s, es, [marks] + fs, count);
  }

  lemma ResumedMarks(s: System, es: seq<Event>, marks: Event, fs: seq<Event>)
    requires Inv(s) && IsRun(s, es) && marks.RestoreMarks? && Resumes(s, es, marks, fs)
    ensures IsRun(s, es + ([marks] + fs))
    ensures var r, n := Next(Exec(s, es), marks), Exec(s, es + ([marks] + fs)).c;
      && n.queueHigh == Top(marks.queueMark, Rises(r, fs, QueuedOf))
      && n.inflightHigh == Top(marks.inflightMark, Rises(r, fs, InflightOf))
  {
    assert ([marks] + fs)[1..] == fs;
    ExecConcat(s, es, [marks] + fs);
    RunInv(s, es);
    Step(Exec(s, es), marks);
    HighWater(Next(Exec(s, es), marks), fs);
  }

  /** A resume in mid-run keeps that so, whatever happens later, exactly when the marks it brings
      are the maxima so far. */
  lemma MarksSurviveIff(s: System, es: seq<Event>, marks: Event)
    requires Inv(s) && IsRun(s, es) && marks.RestoreMarks?
    ensures (forall fs :: Resumes(s, es, marks, fs) ==>
              IsRun(s, es + ([marks] + fs)) && MarksArePeaks(s, es + ([marks] + fs)))
      <==> marks.queueMark == Peak(s, es, QueuedOf) && marks.inflightMark == Peak(s, es, InflightOf)
  {
    var r := Next(Exec(s, es), marks);
    if marks.queueMark == Peak(s, es, QueuedOf) && marks.inflightMark == Peak(s, es, InflightOf) {
      forall fs | Resumes(s, es, marks, fs)
        ensures IsRun(s, es + ([marks] + fs)) && MarksArePeaks(s, es + ([marks] + fs))
      {
        ResumedMarks(s, es, marks, fs);
        ResumedPeak(s, es, marks, fs, QueuedOf);
        ResumedPeak(s, es, marks, fs, InflightOf);
        TopOfRises(r, fs, QueuedOf, marks.queueMark);
        TopOfRises(r, fs, InflightOf, marks.inflightMark);
      }
    } else {
      assert Resumes(s, es, marks, []);
      ResumedMarks(s, es, marks, []);
      ResumedPeak(s, es, marks, [], QueuedOf);
      ResumedPeak(s, es, marks, [], InflightOf);
    }
  }

  // ---------------------------------------------------------------------------------------------
  // Replacing the semaphores in mid-flight
  // ---------------------------------------------------------------------------------------------

  // Tool calls that wait on a replaced semaphore. A chat that does tries again on the current one.
  ghost function CutOff(s: System): nat {
    if s.retries then 0 else Num(s.tasks, StaleWait(s.Current()))
  }

  // The pending calls that a slot of the current semaphore can serve, or that have one already.
  ghost function Supply(s: System): int {
    s.c.Pending() - CutOff(s)
  }

  lemma CutOffQueued(s: System)
    requires Inv(s)
    ensures CutOff(s) <= s.c.queued && s.c.inflight <= Supply(s)
  {
    SubsetSize(Those(s.tasks, StaleWait(s.Current())), Those(s.tasks, IsQueued));
  }

  // A cut off call that gets a slot after all gets it from one that leaves.
  lemma LeaveCutOff(s: System, t: Task, next: Task)
    requires !s.retries && Placed(s) && t in s.tasks && IsQueued(s.tasks[t]) && MayLeave(s, t, Finalised, next)
    ensures CutOff(Leave(s, t, Finalised, next)) >= CutOff(s) - 1
  {
    var m := s.Move(t, Finalised);
    NumMove(s.tasks, t, Finalised, StaleWait(s.Current()));
    if s.tasks[t].InHand? && m.At(next, Waiting(s.tasks[t].gen)) {
      NumMove(m.tasks, next, InHand(s.tasks[t].gen), StaleWait(s.Current()));
    }
  }

  // Work on the current semaphore cuts nobody off, and frees nobody who is.
  lemma CurrentCutOff(s: System, e: Event)
    requires Enabled(s, e) && !s.retries && (e.Reserve? || e.Wait? || e.Enter? || e.RestoreMarks?)
    ensures CutOff(Next(s, e)) == CutOff(s)
  {
    if !e.RestoreMarks? {
      NumMove(s.tasks, e.t, Next(s, e).tasks[e.t], StaleWait(s.Current()));
    }
  }

  lemma FinishCutOff(s: System, e: Event)
    requires Enabled(s, e) && e.Finish? && !s.retries
    ensures CutOff(Next(s, e)) == CutOff(s)
  {
    var m := s.Move(e.t, Finalised);
    NumMove(s.tasks, e.t, Finalised, StaleWait(s.Current()));
    if m.At(e.next, Waiting(s.Current())) {
      NumMove(m.tasks, e.next, InHand(s.Current()), StaleWait(s.Current()));
    }
  }

  lemma PendingStep(s: System, e: Event)
    requires Inv(s) && Enabled(s, e)
    ensures Next(s, e).c.Pending() == s.c.Pending() +
      match e
      case Reserve(_) => if s.c.Admits() then 1 else 0
      case Abandon(_, _) => -1
      case Finish(_, _) => -1
      case _ => 0
  {
    GuardsNeverMask(s, e);
  }

  // Only admission adds to the supply, and it stops at the capacity.
  lemma SupplyStep(s: System, e: Event)
    requires Inv(s) && Enabled(s, e) && !e.Reconfigure?
    ensures Supply(Next(s, e)) <= Max(s.c.Capacity(), Supply(s))
    ensures !(e.Reserve? && s.c.Admits()) ==> Supply(Next(s, e)) <= Supply(s)
  {
    PendingStep(s, e);
    if !s.retries {
      match e
      case Abandon(t, next) => LeaveCutOff(s, t, next);
      case Finish(_, _) => FinishCutOff(s, e);
      case _ => CurrentCutOff(s, e);
    }
  }

  lemma {:induction false} SupplyRun(s: System, es: seq<Event>)
    requires Inv(s) && IsRun(s, es) && Steady(es)
    ensures Supply(Exec(s, es)) <= Max(s.c.Capacity(), Supply(s))
    decreases |es|
  {
    if es != [] {
      SupplyStep(s, es[0]);
      SteadyStep(s, es[0]);
      assert Steady(es[1..]);
      SupplyRun(Next(s, es[0]), es[1..]);
    }
  }

  lemma FreshTask(tasks: map<Task, Phase>) returns (t: Task)
    ensures t !in tasks
  {
    t := Bound(tasks.Keys);
  }

  lemma {:induction false} Bound(ts: set<Task>) returns (b: Task)
    ensures forall t :: t in ts ==> t < b
  {
    if ts == {} {
      b := 0;
    } else {
      var x :| x in ts;
      var r := Bound(ts - {x});
      b := Max(r, x + 1);
      assert forall t :: t in ts ==> t == x || t in ts - {x};
    }
  }

  // What a run that brings one more call in flight leaves as it was.
  ghost predicate OneMore(s: System, n: System) {
    && Inv(n) && n.retries == s.retries && Slack(n) == Slack(s)
    && n.c.maxInflight == s.c.maxInflight && n.c.queueDepth == s.c.queueDepth
    && n.c.inflight == s.c.inflight + 1 && Supply(n) >= Supply(s)
  }

  lemma EnterInHand(s: System, t: Task)
    requires Inv(s) && t in s.tasks && s.tasks[t].InHand?
    ensures OneMore(s, Next(s, Enter(t)))
  {
    Step(s, Enter(t));
    GuardsNeverMask(s, Enter(t));
    if !s.retries {
      CurrentCutOff(s, Enter(t));
    }
  }

  // A queued task takes a free slot of the current semaphore and enters.
  lemma Through(s: System, t: Task) returns (es: seq<Event>)
    requires Inv(s) && s.At(t, Queued) && s.c.free > 0
    ensures es == [Wait(t), Enter(t)] && IsRun(s, es)
    ensures OneMore(s, Exec(s, es))
  {
    es := [Wait(t), Enter(t)];
    var n := Next(s, Wait(t));
    Step(s, Wait(t));
    if !s.retries {
      CurrentCutOff(s, Wait(t));
    }
    EnterInHand(n, t);
    assert es[1..] == [Enter(t)] && es[1..][1..] == [];
    assert Exec(s, es) == Exec(n, es[1..]) == Next(n, Enter(t));
  }

  // A chat waiting on a replaced semaphore tries again on the current one.
  lemma ThroughAgain(s: System, t: Task) returns (es: seq<Event>)
    requires Inv(s) && s.retries && t in s.tasks && s.tasks[t].Waiting? && s.c.free > 0
    ensures IsRun(s, es) && Steady(es) && OneMore(s, Exec(s, es))
  {
    Step(s, Timeout(t, t));
    var rest := Through(Next(s, Timeout(t, t)), t);
    es := [Timeout(t, t)] + rest;
    assert es[1..] == rest;
  }

  lemma ThroughFresh(s: System) returns (es: seq<Event>)
    requires Inv(s) && s.c.free > 0 && s.c.Admits()
    ensures IsRun(s, es) && Steady(es) && OneMore(s, Exec(s, es))
  {
    var t := FreshTask(s.tasks);
    Step(s, Reserve(t));
    if !s.retries {
      CurrentCutOff(s, Reserve(t));
    }
    var rest := Through(Next(s, Reserve(t)), t);
    es := [Reserve(t)] + rest;
    assert es[1..] == rest;
  }

  // A slot in surplus, and calls for more slots than the maximum, pending or admissible.
  ghost predicate Overcommitting(s: System) {
    Slack(s) > 0 && Max(s.c.Capacity(), Supply(s)) > s.c.maxInflight
  }

  // Without a slot in hand there is a free one.
  lemma FreeSlot(s: System)
    requires Inv(s) && Slack(s) > 0 && s.c.inflight <= s.c.maxInflight && Num(s.tasks, IsInHand) == 0
    ensures s.c.free > 0
  {}

  // While slots are free and none is in hand, some pending call can try for one.
  lemma Candidate(s: System) returns (t: Task)
    requires Inv(s) && s.c.free > 0 && s.c.queued > 0 && Num(s.tasks, IsInHand) == 0
    requires s.retries || Supply(s) > s.c.inflight
    ensures t in s.tasks && (s.tasks[t].Queued? || (s.retries && s.tasks[t].Waiting?))
  {
    assert Those(s.tasks, IsInHand) == {};
    assert forall u :: u in s.tasks && s.tasks[u].InHand? ==> u in Those(s.tasks, IsInHand);
    if s.retries {
      t := NumWitness(s.tasks, IsQueued);
    } else {
      t := NotCutOff(s);
    }
  }

  // Fewer calls are cut off than queued, so some queued one is not.
  lemma NotCutOff(s: System) returns (t: Task)
    requires Inv(s) && !s.retries && Supply(s) > s.c.inflight
    ensures t in s.tasks && IsQueued(s.tasks[t]) && !StaleWait(s.Current())(s.tasks[t])
  {
    var cut, queued := Those(s.tasks, StaleWait(s.Current())), Those(s.tasks, IsQueued);
    assert |cut| < |queued|;
    if queued <= cut {
      SubsetSize(queued, cut);
    }
    t :| t in queued && t !in cut;
  }

  // While a slot beyond `inflight` exists, one more task can enter if it is there or admissible.
  lemma Admit(s: System) returns (es: seq<Event>)
    requires Inv(s) && Slack(s) > 0 && s.c.inflight <= s.c.maxInflight
    requires Supply(s) > s.c.inflight || s.c.Admits()
    ensures IsRun(s, es) && Steady(es)
    ensures OneMore(s, Exec(s, es))
  {
    if Num(s.tasks, IsInHand) > 0 {
      var t := NumWitness(s.tasks, IsInHand);
      es := [Enter(t)];
      EnterInHand(s, t);
    } else {
      FreeSlot(s);
      if Supply(s) > s.c.inflight {
        var t := Candidate(s);
        if s.At(t, Queued) {
          es := Through(s, t);
        } else {
          es := ThroughAgain(s, t);
        }
      } else {
        es := ThroughFresh(s);
      }
    }
  }

  // With the queue full of calls cut off, one of them has to go before another is admitted.
  lemma MakeRoom(s: System) returns (t: Task)
    requires Inv(s) && CutOff(s) > 0
    ensures Enabled(s, Abandon(t, t)) && t in s.tasks && s.tasks[t].Waiting?
    ensures var n := Next(s, Abandon(t, t));
      && Inv(n) && n.retries == s.retries && Slack(n) == Slack(s)
      && n.c.maxInflight == s.c.maxInflight && n.c.queueDepth == s.c.queueDepth
      && n.c.inflight == s.c.inflight && n.c.queued == s.c.queued - 1
  {
    t := NumWitness(s.tasks, StaleWait(s.Current()));
    Step(s, Abandon(t, t));
    GuardsNeverMask(s, Abandon(t, t));
  }

  lemma {:induction false} Overcommit(s: System) returns (es: seq<Event>)
    requires Inv(s) && Overcommitting(s)
    ensures IsRun(s, es) && Steady(es) && Exec(s, es).c.inflight > s.c.maxInflight
    decreases Max(0, s.c.maxInflight + 1 - s.c.inflight), s.c.queued
  {
    CutOffQueued(s);
    if s.c.inflight > s.c.maxInflight {
      es := [];
    } else if Supply(s) > s.c.inflight || s.c.Admits() {
      var first := Admit(s);
      var rest := Overcommit(Exec(s, first));
      ExecConcat(s, first, rest);
      es := first + rest;
    } else {
      var t := MakeRoom(s);
      var rest := Overcommit(Next(s, Abandon(t, t)));
      es := [Abandon(t, t)] + rest;
      assert es[0] == Abandon(t, t) && es[1..] == rest;
    }
  }

  ghost predicate CanOvercommit(s: System) {
    exists es :: IsRun(s, es) && Steady(es) && Exec(s, es).c.inflight > s.c.maxInflight
  }

  /** Exactly when more calls than the configured maximum can be in flight before the next
      reconfiguration, for chats and for tool calls: a slot is in surplus, and either the queue can
      hold more than the maximum or more calls than that are pending that are not cut off. */
  lemma OvercommitIff(s: System)
    requires Inv(s)
    ensures CanOvercommit(s) <==> Slack(s) > 0 && Max(s.c.Capacity(), Supply(s)) > s.c.maxInflight
  {
    if Overcommitting(s) {
      var es := Overcommit(s);
    }
    if CanOvercommit(s) {
      var es :| IsRun(s, es) && Steady(es) && Exec(s, es).c.inflight > s.c.maxInflight;
      SteadyRun(s, es);
      SupplyRun(s, es);
      CutOffQueued(Exec(s, es));
    }
  }

  // How many slots a run loses to replaced semaphores.
  ghost function Losses(s: System, es: seq<Event>): nat
    requires IsRun(s, es)
    decreases |es|
  {
    if es == [] then 0 else (if LosesSlot(s, es[0]) then 1 else 0) + Losses(Next(s, es[0]), es[1..])
  }

  lemma {:induction false} SlackOfRun(s: System, es: seq<Event>)
    requires Inv(s) && IsRun(s, es) && Steady(es)
    ensures Slack(Exec(s, es)) == Slack(s) - Losses(s, es)
    decreases |es|
  {
    if es != [] {
      Step(s, es[0]);
      SlackOfRun(Next(s, es[0]), es[1..]);
    }
  }

  /** After a swap, free slots and slots in use add up to the new maximum plus what was in use
      at the swap, less the stale slots lost since. */
  lemma SurplusAfterReconfigure(s: System, maxCalls: int, depth: int, es: seq<Event>)
    requires Inv(s) && Steady(es) && IsRun(Next(s, Reconfigure(maxCalls, depth)), es)
    ensures var swapped := Next(s, Reconfigure(maxCalls, depth)); var n := Exec(swapped, es);
      && n.c.free + InUse(n) == Max(1, maxCalls) + InUse(s) - Losses(swapped, es)
      && n.c.Pending() <= Max(Max(1, maxCalls) + Max(0, depth), s.c.Pending())
  {
    Step(s, Reconfigure(maxCalls, depth));
    SlackOfRun(Next(s, Reconfigure(maxCalls, depth)), es);
    SteadyRun(Next(s, Reconfigure(maxCalls, depth)), es);
  }

  /** Once every task has ended after a swap, the slots that were in use at the swap are free on top
      of the new maximum, less the stale ones lost since. */
  lemma DrainedAfterSwap(s: System, maxCalls: int, depth: int, es: seq<Event>)
    requires Inv(s) && Steady(es) && IsRun(Next(s, Reconfigure(maxCalls, depth)), es)
    requires AllEnded(Exec(Next(s, Reconfigure(maxCalls, depth)), es))
    ensures var swapped := Next(s, Reconfigure(maxCalls, depth)); var c := Exec(swapped, es).c;
      c.inflight == 0 && c.queued == 0 && c.free == Max(1, maxCalls) + InUse(s) - Losses(swapped, es)
  {
    Step(s, Reconfigure(maxCalls, depth));
    SurplusAfterReconfigure(s, maxCalls, depth, es);
    RunInv(Next(s, Reconfigure(maxCalls, depth)), es);
    NothingHeld(Exec(Next(s, Reconfigure(maxCalls, depth)), es));
  }

  // A swap cuts off every tool call that waits.
  lemma SwapCutsOff(s: System, maxCalls: int, depth: int)
    requires Inv(s)
    ensures CutOff(Next(s, Reconfigure(maxCalls, depth))) == if s.retries then 0 else Num(s.tasks, IsWaiting)
  {
    assert Those(s.tasks, StaleWait(s.Current() + 1)) == Those(s.tasks, IsWaiting);
  }

  /** The same, in terms of what a caller can check before it reconfigures. The tool calls that wait
      at that moment do not count: they are cut off. */
  lemma ReconfigureIff(s: System, maxCalls: int, depth: int)
    requires Inv(s)
    ensures var n := Next(s, Reconfigure(maxCalls, depth));
      var cut := if s.retries then 0 else Num(s.tasks, IsWaiting);
      CanOvercommit(n) <==> InUse(s) > 0 && (depth > 0 || s.c.Pending() - cut > Max(1, maxCalls))
  {
    var e := Reconfigure(maxCalls, depth);
    Step(s, e);
    SwapCutsOff(s, maxCalls, depth);
    OvercommitIff(Next(s, e));
  }

  lemma Extended(s: System, es: seq<Event>, e: Event)
    requires IsRun(s, es) && Enabled(Exec(s, es), e)
    ensures IsRun(s, es + [e]) && Exec(s, es + [e]) == Next(Exec(s, es), e)
  {
    RunOne(Exec(s, es), e);
    ExecConcat(s, es, [e]);
  }

  lemma OneRuns(retries: bool) returns (es: seq<Event>)
    ensures IsRun(Initial(1, 1, retries), es)
    ensures var s := Exec(Initial(1, 1, retries), es);
      s == System(Counters(1, 1, 1, 0, 1, 1, 0, 0), retries, [], map[0 := Running])
  {
    es := [];
    Extended(Initial(1, 1, retries), es, Reserve(0));
    es := es + [Reserve(0)];
    Extended(Initial(1, 1, retries), es, Wait(0));
    es := es + [Wait(0)];
    Extended(Initial(1, 1, retries), es, Enter(0));
    es := es + [Enter(0)];
  }

  lemma OneWaits(retries: bool) returns (es: seq<Event>)
    ensures IsRun(Initial(1, 1, retries), es)
    ensures var s := Exec(Initial(1, 1, retries), es);
      s == System(Counters(1, 1, 1, 1, 1, 1, 0, 0), retries, [], map[0 := Running, 1 := Waiting(0)])
  {
    es := OneRuns(retries);
    Extended(Initial(1, 1, retries), es, Reserve(1));
    es := es + [Reserve(1)];
    Extended(Initial(1, 1, retries), es, Wait(1));
    es := es + [Wait(1)];
  }

  /** Taking the queue away while one call runs and one waits: two chats can then be in flight at
      once, while a waiting tool call is cut off. */
  lemma ChatsAndToolsDiffer(retries: bool) returns (es: seq<Event>)
    ensures IsRun(Initial(1, 1, retries), es)
    ensures CanOvercommit(Next(Exec(Initial(1, 1, retries), es), Reconfigure(1, 0))) <==> retries
  {
    es := OneWaits(retries);
    var s := Exec(Initial(1, 1, retries), es);
    InitialInv(1, 1, retries);
    RunInv(Initial(1, 1, retries), es);
    assert Those(s.tasks, IsWaiting) == {1};
    ReconfigureIff(s, 1, 0);
  }

  /** A tool call that waits on a replaced semaphore none of whose slots is in hand. */
  ghost predicate Stranded(s: System, t: Task) {
    && !s.retries && t in s.tasks && s.tasks[t].Waiting? && s.tasks[t].gen < s.Current()
    && forall u :: u in s.tasks ==> s.tasks[u] != InHand(s.tasks[t].gen)
  }

  lemma StepStranded(s: System, t: Task, e: Event)
    requires Stranded(s, t) && Enabled(s, e) && (e.Abandon? ==> e.t != t)
    ensures Stranded(Next(s, e), t) && Next(s, e).tasks[t] == s.tasks[t]
  {}

  // The run does not cancel the task.
  predicate Spares(es: seq<Event>, t: Task) {
    forall e :: e in es && e.Abandon? ==> e.t != t
  }

  /** Nothing but its own cancellation moves a stranded call again, whatever else happens. */
  lemma {:induction false} StrandedForever(s: System, t: Task, es: seq<Event>)
    requires Stranded(s, t) && IsRun(s, es)
    requires Spares(es, t)
    ensures Stranded(Exec(s, es), t) && Exec(s, es).tasks[t] == s.tasks[t]
    decreases |es|
  {
    if es != [] {
      assert es[0] in es;
      assert Spares(es[1..], t) by {
        assert forall e :: e in es[1..] ==> e in es;
      }
      StepStranded(s, t, es[0]);
      StrandedForever(Next(s, es[0]), t, es[1..]);
    }
  }

  /** Whatever happens, the task gets no slot before it is itself cancelled. */
  ghost predicate NeverServed(s: System, t: Task) {
    forall es: seq<Event> :: IsRun(s, es) && Spares(es, t) ==>
      t in Exec(s, es).tasks && Exec(s, es).tasks[t].Waiting?
  }

  lemma RunOne(s: System, e: Event)
    requires Enabled(s, e)
    ensures IsRun(s, [e]) && Exec(s, [e]) == Next(s, e)
  {
    assert [e][1..] == [];
  }

  // A slot in hand goes to the waiter if the task that has it is cancelled first.
  lemma HandedOn(s: System, t: Task, u: Task)
    requires t in s.tasks && s.tasks[t].Waiting? && s.At(u, InHand(s.tasks[t].gen))
    ensures !NeverServed(s, t)
  {
    var e := Abandon(u, t);
    assert s.Move(u, Finalised).At(t, Waiting(s.tasks[t].gen));
    assert Enabled(s, e) && Next(s, e).tasks[t].InHand?;
    RunOne(s, e);
    assert Spares([e], t);
  }

  /** A tool call waiting on a replaced semaphore can still be served exactly if a slot of that
      semaphore is in hand. */
  lemma NeverServedIff(s: System, t: Task)
    requires !s.retries && t in s.tasks && s.tasks[t].Waiting? && s.tasks[t].gen < s.Current()
    ensures NeverServed(s, t) <==> forall u :: u in s.tasks ==> s.tasks[u] != InHand(s.tasks[t].gen)
  {
    if u :| u in s.tasks && s.tasks[u] == InHand(s.tasks[t].gen) {
      HandedOn(s, t, u);
    } else {
      forall es: seq<Event> | IsRun(s, es) && Spares(es, t)
        ensures t in Exec(s, es).tasks && Exec(s, es).tasks[t].Waiting?
      {
        StrandedForever(s, t, es);
      }
    }
  }

  /** So replacing the semaphore leaves a waiting tool call without a slot, for good, exactly if no
      slot is on its way to a waiter at that moment. */
  lemma ReconfigureStrands(s: System, t: Task, maxCalls: int, depth: int)
    requires !s.retries && s.At(t, Waiting(s.Current()))
    ensures NeverServed(Next(s, Reconfigure(maxCalls, depth)), t)
        <==> forall u :: u in s.tasks ==> s.tasks[u] != InHand(s.Current())
  {
    NeverServedIff(Next(s, Reconfigure(maxCalls, depth)), t);
  }
}
