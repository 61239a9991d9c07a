/**
 The life of a chat request: it reserves queue capacity, acquires a slot, runs, and is
 finalised, which classifies it in exactly one counter. `RequestLifecycle` is the object that
 does the bookkeeping; `Backend` interleaves any number of requests on one budget.
 */
module RequestLifecycle {
  import opened Basics
  import opened ExecutionBudget
  import RequestMetrics

  datatype Status = Success | Error | Cancelled | Turned  // Turned: rejected for lack of capacity

  datatype Accounts = Accounts(requests: int, success: int, error: int, reject: int, cancel: int) {
    function Count(): Accounts {
      this.(requests := requests + 1)
    }

    function Classify(status: Status): Accounts {
      match status
      case Success => this.(success := success + 1)
      case Cancelled => this.(cancel := cancel + 1)
      case Turned => this.(reject := reject + 1)
      case Error => this.(error := error + 1)
    }

    function Of(status: Status): int {
      match status
      case Success => success
      case Cancelled => cancel
      case Turned => reject
      case Error => error
    }

    // Requests counted but not classified.
    function Open(): int {
      requests - success - error - reject - cancel
    }
  }

  function Name(status: Status): string {
    match status
    case Success => "success"
    case Error => "error"
    case Cancelled => "cancelled"
    case Turned => "rejected"
  }

  class ServeState {
    const budget: Budget
    const metrics: RequestMetrics.Metrics
    var requestCount: int
    var requestSuccessCount: int
    var requestErrorCount: int
    var requestRejectCount: int
    var requestCancelCount: int

    constructor (budget: Budget, metrics: RequestMetrics.Metrics)
      ensures this.budget == budget && this.metrics == metrics && Totals() == Accounts(0, 0, 0, 0, 0)
    {
      this.budget, this.metrics := budget, metrics;
      requestCount, requestSuccessCount, requestErrorCount := 0, 0, 0;
      requestRejectCount, requestCancelCount := 0, 0;
    }

    function Totals(): Accounts
      reads this
    {
      Accounts(requestCount, requestSuccessCount, requestErrorCount, requestRejectCount, requestCancelCount)
    }
  }

  /** One round of the acquisition loop: the request may be found cancelled; otherwise it waits a
      tenth of a second for a slot. */
  datatype Attempt = Attempt(cancelled: bool, slot: bool) {
    predicate Decides() {
      cancelled || slot
    }
  }

  // The first round that decides.
  ghost predicate DecidedAt(attempts: seq<Attempt>, k: nat) {
    k < |attempts| && attempts[k].Decides() && forall j :: 0 <= j < k ==> !attempts[j].Decides()
  }

  /** Times are readings of a clock in seconds. */
  class Lifecycle {
    const state: ServeState
    const started: real
    var modelStarted: real
    var queuedMs: int
    var modelMs: int
    var toolMs: int
    var reserved: bool
    var entered: bool
    var endStatus: Status

    constructor (state: ServeState, now: real)
      ensures this.state == state && !reserved && !entered && endStatus == Error
      ensures started == modelStarted == now && queuedMs == modelMs == toolMs == 0
    {
      this.state := state;
      started, modelStarted := now, now;
      queuedMs, modelMs, toolMs := 0, 0, 0;
      reserved, entered, endStatus := false, false, Error;
    }

    method Reserve() returns (ok: bool)
      requires state.budget.Valid() && !entered
      modifies this`reserved, this`endStatus, state, state.budget
      ensures state.budget.Valid() && state.budget.slots == old(state.budget.slots)
      ensures ok == reserved == old(state.budget.View().Admits())
      ensures state.budget.View() == old(state.budget.View().Reserve())
      ensures state.Totals() == old(state.Totals().Count())
      ensures state.requestCount == old(state.requestCount) + 1
      ensures state.requestRejectCount == old(state.requestRejectCount)
      ensures endStatus == if ok then old(endStatus) else Turned
    {
      state.requestCount := state.requestCount + 1;
      reserved := state.budget.Reserve();
      if !reserved {
        endStatus := Turned;
      }
      ok := reserved;
    }

    // The acquisition loop, up to the round that ends it.
    static method AcquireSlot(attempts: seq<Attempt>) returns (granted: bool)
      requires exists k: nat :: DecidedAt(attempts, k)
      ensures forall k: nat :: DecidedAt(attempts, k) ==> granted == !attempts[k].cancelled
    {
      ghost var end: nat :| DecidedAt(attempts, end);
      var i := 0;
      while i < |attempts|
        invariant 0 <= i <= end && forall j :: 0 <= j < i ==> !attempts[j].Decides()
      {
        if attempts[i].cancelled {
          return false;
        }
        if attempts[i].slot {
          return true;
        }
        i := i + 1;
      }
      assert false;
    }

    method Acquire(attempts: seq<Attempt>, now: real) returns (ok: bool)
      requires state.budget.Valid() && exists k: nat :: DecidedAt(attempts, k)
      modifies this`entered, this`endStatus, this`queuedMs, this`modelStarted, state.budget
      ensures state.budget.Valid() && state.budget.slots == old(state.budget.slots)
      ensures forall k: nat :: DecidedAt(attempts, k) ==> ok == !attempts[k].cancelled
      ensures entered == (old(entered) || ok)
      ensures state.budget.View() == if ok then old(state.budget.View().Enter()) else old(state.budget.View())
      ensures endStatus == if ok then old(endStatus) else Cancelled
      ensures queuedMs == if ok then Milliseconds(now - started) else old(queuedMs)
      ensures modelStarted == if ok then now else old(modelStarted)
    {
      ok := AcquireSlot(attempts);
      if !ok {
        endStatus := Cancelled;
        return false;
      }
      state.budget.Enter();
      entered := true;
      queuedMs := Milliseconds(now - started);
      modelStarted := now;
    }

    method CompleteRun(status: Status, ms: int, now: real)
      modifies this`endStatus, this`toolMs, this`modelMs
      ensures endStatus == status && toolMs == Max(0, ms)
      ensures modelMs == Max(0, Milliseconds(now - modelStarted) - toolMs)
    {
      endStatus := status;
      toolMs := Max(0, ms);
      var runningMs := Milliseconds(now - modelStarted);
      modelMs := Max(0, runningMs - toolMs);
    }

    method GiveBack()
      requires state.budget.Valid()
      modifies state.budget, state.budget.slots
      ensures state.budget.Valid() && state.budget.slots == old(state.budget.slots)
      ensures state.budget.View() ==
        if !reserved then old(state.budget.View())
        else if entered then old(state.budget.View().Release())
        else old(state.budget.View().Rollback())
    {
      if reserved {
        if entered {
          state.budget.Release();
        } else {
          state.budget.Rollback();
        }
      }
    }

    method Finalize(now: real)
      requires state.budget.Valid()
      modifies state, state.metrics, state.budget, state.budget.slots
      ensures state.budget.Valid() && state.budget.slots == old(state.budget.slots)
      ensures state.budget.View() ==
        if !reserved then old(state.budget.View())
        else if entered then old(state.budget.View().Release())
        else old(state.budget.View().Rollback())
      ensures state.Totals() == old(state.Totals()).Classify(endStatus)
      ensures state.requestCount == old(state.requestCount)
      ensures state.requestSuccessCount == old(state.requestSuccessCount) + if endStatus.Success? then 1 else 0
      ensures state.requestErrorCount == old(state.requestErrorCount) + if endStatus.Error? then 1 else 0
      ensures state.requestCancelCount == old(state.requestCancelCount) + if endStatus.Cancelled? then 1 else 0
      ensures state.requestRejectCount == old(state.requestRejectCount) + if endStatus.Turned? then 1 else 0
      ensures state.metrics.last.endStatus ==
        match endStatus
        case Success => "success"
        case Error => "error"
        case Cancelled => "cancelled"
        case Turned => "rejected"
      ensures state.metrics.last == RequestMetrics.Timing(Name(endStatus),
        Max(0, queuedMs), Max(0, modelMs), Max(0, toolMs), Max(0, Milliseconds(now - started)))
    {
      GiveBack();
      if endStatus == Success {
        state.requestSuccessCount := state.requestSuccessCount + 1;
      } else if endStatus == Cancelled {
        state.requestCancelCount := state.requestCancelCount + 1;
      } else if endStatus == Turned {
        state.requestRejectCount := state.requestRejectCount + 1;
      } else {
        state.requestErrorCount := state.requestErrorCount + 1;
      }
      var totalMs := Milliseconds(now - started);
      state.metrics.Record(RequestMetrics.Timing(Name(endStatus), queuedMs, modelMs, toolMs, totalMs));
    }
  }

  lemma FloorsAdd(a: real, b: real)
    requires a >= 0.0 && b >= 0.0
    ensures Milliseconds(a) + Milliseconds(b) <= Milliseconds(a + b)
  {
    assert (a + b) * 1000.0 == a * 1000.0 + b * 1000.0;
  }

  // Arithmetic of truncated times: the model's share never makes the parts exceed the whole, so they
  // do only if the tools report more time than is left after the queue.
  lemma TimesAddUpIff(started: real, entered: real, ended: real, finalised: real, toolMs: int)
    requires started <= entered <= ended <= finalised && toolMs >= 0
    ensures var queuedMs, runningMs, totalMs :=
        Milliseconds(entered - started), Milliseconds(ended - entered), Milliseconds(finalised - started);
      queuedMs + Max(0, runningMs - toolMs) + toolMs <= totalMs <==> toolMs <= totalMs - queuedMs
  {
    FloorsAdd(entered - started, ended - entered);
    FloorsAdd(ended - started, finalised - ended);
  }

  // ---------------------------------------------------------------------------------------------
  // Any number of requests
  // ---------------------------------------------------------------------------------------------

  /** `outcome` records how each ended request was classified, `dones` its `done` notifications,
      `killed` the requests whose task was cancelled from outside. */
  datatype Backend = Backend(
    sys: System, acc: Accounts, outcome: map<Task, Status>, dones: multiset<Task>, killed: set<Task>)
  {
    function Close(t: Task, status: Status): Backend {
      this.(acc := acc.Classify(status), outcome := outcome[t := status])
    }

    function Done(t: Task): Backend {
      this.(dones := dones + multiset{t})
    }
  }

  datatype Action =
    | Arrive(t: Task)
    | Inner(e: Event)                              // waiting, retrying, entering, reconfiguring
    | GiveUp(t: Task)                              // sees its cancellation between two attempts
    | Complete(t: Task, status: Status, next: Task)
    | Kill(t: Task, next: Task)
    | Restore(acc: Accounts)                       // a resumed session overwrites the counters

  function Underlying(b: Backend, a: Action): Event
    requires !a.Restore?
  {
    match a
    case Arrive(t) => Reserve(t)
    case Inner(e) => e
    case GiveUp(t) => Abandon(t, t)
    case Complete(t, _, next) => Finish(t, next)
    case Kill(t, next) => if b.sys.At(t, Running) then Finish(t, next) else Abandon(t, next)
  }

  ghost predicate Allowed(b: Backend, a: Action) {
    a.Restore? || (
      && Enabled(b.sys, Underlying(b, a))
      && (a.Inner? ==> a.e.Wait? || a.e.Timeout? || a.e.Enter? || !OfTask(a.e))
      && (a.GiveUp? ==> b.sys.At(a.t, Queued))
      && (a.Complete? ==> a.status != Turned))
  }

  function After(b: Backend, a: Action): Backend
    requires Allowed(b, a)
  {
    if a.Restore? then
      b.(acc := a.acc)
    else
      var r := b.(sys := Next(b.sys, Underlying(b, a)));
      match a
      case Arrive(t) =>
        var n := r.(acc := r.acc.Count());
        if b.sys.c.Admits() then n else n.Close(t, Turned)
      case Inner(_) => r
      case GiveUp(t) => r.Close(t, Cancelled).Done(t)
      case Complete(t, status, _) => r.Close(t, status).Done(t)
      case Kill(t, _) => r.Close(t, Error).(killed := r.killed + {t})
  }

  ghost predicate IsHistory(b: Backend, acts: seq<Action>)
    decreases |acts|
  {
    acts == [] || (Allowed(b, acts[0]) && IsHistory(After(b, acts[0]), acts[1..]))
  }

  function Play(b: Backend, acts: seq<Action>): Backend
    requires IsHistory(b, acts)
    decreases |acts|
  {
    if acts == [] then b else Play(After(b, acts[0]), acts[1..])
  }

  predicate Ended(p: Phase) {
    p.Finalised? || p.Rejected?
  }

  // The outcomes are those of the ended tasks.
  ghost predicate Mirrors(outcome: map<Task, Status>, tasks: map<Task, Phase>) {
    && (forall t :: t in outcome <==> t in tasks && Ended(tasks[t]))
    && (forall t :: t in outcome ==> (outcome[t] == Turned <==> tasks[t] == Rejected))
  }

  // They say who got a `done`.
  ghost predicate Recorded(b: Backend) {
    && Mirrors(b.outcome, b.sys.tasks)
    && b.killed <= b.outcome.Keys
    && (forall t :: t in b.killed ==> b.outcome[t] == Error)
    && (forall t :: b.dones[t] == if t in b.outcome && b.outcome[t] != Turned && t !in b.killed then 1 else 0)
  }

  // One step touches at most the phase of `t` and, when a slot is passed on, turns a waiting
  // task into one with a slot in hand.
  lemma Touches(s: System, e: Event)
    requires Enabled(s, e)
    ensures var n := Next(s, e);
      forall u :: (u in s.tasks ==> u in n.tasks) && (u in n.tasks ==>
        || (u in s.tasks && n.tasks[u] == s.tasks[u])
        || (OfTask(e) && u == e.t)
        || (u in s.tasks && s.tasks[u].Waiting? && n.tasks[u].InHand?))
  {}

  // The only ways a task ends, is rejected, or starts.
  lemma Moves(s: System, e: Event)
    requires Enabled(s, e) && OfTask(e)
    ensures e.t in Next(s, e).tasks
    ensures var q := Next(s, e).tasks[e.t];
      match e
      case Reserve(_) => q == if s.c.Admits() then Queued else Rejected
      case Abandon(_, _) => q == Finalised
      case Finish(_, _) => q == Finalised
      case Wait(t) => !Ended(q) && !Ended(s.tasks[t])
      case Timeout(t, _) => !Ended(q) && !Ended(s.tasks[t])
      case Enter(t) => !Ended(q) && !Ended(s.tasks[t])
  {}

  // Moving tasks that have not ended to phases that are not ends leaves the outcomes right.
  lemma StaysMirrored(outcome: map<Task, Status>, tasks: map<Task, Phase>, after: map<Task, Phase>)
    requires Mirrors(outcome, tasks)
    requires forall t :: t in tasks ==> t in after
    requires forall t :: t in after && (t !in tasks || after[t] != tasks[t]) ==>
      !Ended(after[t]) && (t in tasks ==> !Ended(tasks[t]))
    ensures Mirrors(outcome, after)
  {}

  // Ending one more task adds its outcome.
  lemma EndsMirrored(outcome: map<Task, Status>, tasks: map<Task, Phase>, after: map<Task, Phase>,
                     t: Task, status: Status)
    requires Mirrors(outcome, tasks) && t in after && Ended(after[t]) && (status == Turned <==> after[t] == Rejected)
    requires forall u :: u in tasks ==> u in after
    requires forall u :: u in after && u != t && (u !in tasks || after[u] != tasks[u]) ==>
      !Ended(after[u]) && (u in tasks ==> !Ended(tasks[u]))
    ensures Mirrors(outcome[t := status], after)
  {}

  lemma KeepsInner(b: Backend, a: Action)
    requires Mirrors(b.outcome, b.sys.tasks) && Allowed(b, a) && a.Inner?
    ensures Mirrors(b.outcome, After(b, a).sys.tasks)
  {
    Touches(b.sys, a.e);
    if OfTask(a.e) {
      Moves(b.sys, a.e);
    }
    StaysMirrored(b.outcome, b.sys.tasks, After(b, a).sys.tasks);
  }

  lemma KeepsAdmitted(b: Backend, a: Action)
    requires Mirrors(b.outcome, b.sys.tasks) && Allowed(b, a) && a.Arrive? && b.sys.c.Admits()
    ensures Mirrors(b.outcome, After(b, a).sys.tasks)
  {
    Touches(b.sys, Underlying(b, a));
    Moves(b.sys, Underlying(b, a));
    StaysMirrored(b.outcome, b.sys.tasks, After(b, a).sys.tasks);
  }

  // What an action that ends a request does to the phases.
  lemma EndsPhase(b: Backend, a: Action)
    requires Allowed(b, a) && !a.Restore? && !a.Inner? && !(a.Arrive? && b.sys.c.Admits())
    ensures var tasks := Next(b.sys, Underlying(b, a)).tasks;
      && a.t in tasks && Ended(tasks[a.t]) && (a.Arrive? <==> tasks[a.t] == Rejected)
      && (forall u :: u in b.sys.tasks ==> u in tasks)
      && (forall u :: u in tasks && u != a.t && (u !in b.sys.tasks || tasks[u] != b.sys.tasks[u]) ==>
            !Ended(tasks[u]) && (u in b.sys.tasks ==> !Ended(b.sys.tasks[u])))
  {
    Touches(b.sys, Underlying(b, a));
    Moves(b.sys, Underlying(b, a));
  }

  // How it classifies the request.
  lemma EndsAs(b: Backend, a: Action)
    requires Allowed(b, a) && !a.Restore? && !a.Inner? && !(a.Arrive? && b.sys.c.Admits())
    ensures var n := After(b, a);
      && n.sys.tasks == Next(b.sys, Underlying(b, a)).tasks && a.t in n.outcome
      && n.outcome == b.outcome[a.t := n.outcome[a.t]] && (n.outcome[a.t] == Turned <==> a.Arrive?)
  {}

  lemma KeepsEnded(b: Backend, a: Action)
    requires Mirrors(b.outcome, b.sys.tasks) && Allowed(b, a) && !a.Restore? && !a.Inner?
    ensures Mirrors(After(b, a).outcome, After(b, a).sys.tasks)
  {
    if a.Arrive? && b.sys.c.Admits() {
      KeepsAdmitted(b, a);
    } else {
      EndsPhase(b, a);
      EndsAs(b, a);
      EndsMirrored(b.outcome, b.sys.tasks, After(b, a).sys.tasks, a.t, After(b, a).outcome[a.t]);
    }
  }

  // An action that ends a request ends one that had not ended before.
  lemma EndsOnce(b: Backend, a: Action)
    requires Mirrors(b.outcome, b.sys.tasks) && Allowed(b, a) && !a.Restore? && !a.Inner?
    ensures a.t !in b.outcome
    ensures var n := After(b, a).outcome;
      n == b.outcome || (a.t in n && n == b.outcome[a.t := n[a.t]])
  {}

  lemma KeepsRecord(b: Backend, a: Action)
    requires Recorded(b) && Allowed(b, a)
    ensures Recorded(After(b, a))
  {
    if !a.Restore? {
      if a.Inner? {
        KeepsInner(b, a);
      } else {
        KeepsEnded(b, a);
        EndsOnce(b, a);
      }
    }
  }

  // Counted requests that are neither classified nor live.
  function Drift(b: Backend): int {
    b.acc.Open() - b.sys.c.Pending()
  }

  lemma DriftStep(b: Backend, a: Action)
    requires Inv(b.sys) && Allowed(b, a)
    ensures Inv(After(b, a).sys)
    ensures Drift(After(b, a)) == if a.Restore? then a.acc.Open() - b.sys.c.Pending() else Drift(b)
  {
    if !a.Restore? {
      Step(b.sys, Underlying(b, a));
      PendingStep(b.sys, Underlying(b, a));
    }
  }

  function Opened(maxCalls: int, depth: int): Backend {
    Backend(Initial(maxCalls, depth, true), Accounts(0, 0, 0, 0, 0), map[], multiset{}, {})
  }

  ghost predicate Unrestored(acts: seq<Action>) {
    forall a :: a in acts ==> !a.Restore?
  }

  lemma {:induction false} HistoryKeeps(b: Backend, acts: seq<Action>)
    requires Inv(b.sys) && Recorded(b) && IsHistory(b, acts)
    ensures Inv(Play(b, acts).sys) && Recorded(Play(b, acts))
    ensures Unrestored(acts) ==> Drift(Play(b, acts)) == Drift(b)
    decreases |acts|
  {
    if acts != [] {
      DriftStep(b, acts[0]);
      KeepsRecord(b, acts[0]);
      assert acts[0] in acts && forall a :: a in acts[1..] ==> a in acts;
      HistoryKeeps(After(b, acts[0]), acts[1..]);
    }
  }

  /** Every counted request is classified or live, and the live ones are those the budget holds. */
  lemma Accounting(maxCalls: int, depth: int, acts: seq<Action>)
    requires IsHistory(Opened(maxCalls, depth), acts) && Unrestored(acts)
    ensures var b := Play(Opened(maxCalls, depth), acts);
      b.acc.requests == b.acc.success + b.acc.error + b.acc.reject + b.acc.cancel
                        + b.sys.c.queued + b.sys.c.inflight
  {
    InitialInv(maxCalls, depth, true);
    HistoryKeeps(Opened(maxCalls, depth), acts);
  }

  /** A resumed session keeps that balance, for good, exactly when the counters it brings leave
      open as many requests as are live at that moment. */
  lemma RestoreIff(b: Backend, acc: Accounts, acts: seq<Action>)
    requires Inv(b.sys) && Recorded(b)
    requires IsHistory(After(b, Restore(acc)), acts) && Unrestored(acts)
    ensures Drift(Play(After(b, Restore(acc)), acts)) == 0 <==> acc.Open() == b.sys.c.Pending()
  {
    KeepsRecord(b, Restore(acc));
    HistoryKeeps(After(b, Restore(acc)), acts);
  }

  ghost function With(outcome: map<Task, Status>, status: Status): set<Task> {
    set t | t in outcome && outcome[t] == status
  }

  ghost function Tally(outcome: map<Task, Status>, status: Status): nat {
    |With(outcome, status)|
  }

  lemma TallyNew(outcome: map<Task, Status>, t: Task, s: Status, status: Status)
    requires t !in outcome
    ensures Tally(outcome[t := s], status) == Tally(outcome, status) + if s == status then 1 else 0
  {
    var before, after := With(outcome, status), With(outcome[t := s], status);
    forall u
      ensures u in after <==> u in before + (if s == status then {t} else {})
    {
      if u != t {
        assert u in outcome[t := s] <==> u in outcome;
      }
    }
    assert after == before + if s == status then {t} else {};
    assert t !in before;
  }

  lemma ClassifyStep(b: Backend, a: Action, status: Status)
    requires Recorded(b) && Allowed(b, a) && !a.Restore?
    ensures var n := After(b, a);
      && n.acc.Of(status) - b.acc.Of(status) == Tally(n.outcome, status) - Tally(b.outcome, status)
      && (forall t :: t in b.outcome ==> t in n.outcome && n.outcome[t] == b.outcome[t])
  {
    if !a.Inner? {
      EndsOnce(b, a);
      if After(b, a).outcome != b.outcome {
        TallyNew(b.outcome, a.t, After(b, a).outcome[a.t], status);
      }
    }
  }

  /** Each ended request is in exactly one counter: the counters count the recorded outcomes. */
  lemma {:induction false} ClassifiedOnce(b: Backend, acts: seq<Action>, status: Status)
    requires Recorded(b) && IsHistory(b, acts) && Unrestored(acts)
    ensures var n := Play(b, acts);
      && n.acc.Of(status) - b.acc.Of(status) == Tally(n.outcome, status) - Tally(b.outcome, status)
      && (forall t :: t in b.outcome ==> t in n.outcome && n.outcome[t] == b.outcome[t])
    decreases |acts|
  {
    if acts != [] {
      assert acts[0] in acts && forall c :: c in acts[1..] ==> c in acts;
      KeepsRecord(b, acts[0]);
      ClassifyStep(b, acts[0], status);
      ClassifiedOnce(After(b, acts[0]), acts[1..], status);
    }
  }

  /** A request that was admitted and not killed gets exactly one `done` once it has ended; a
      rejected, killed or live one gets none. */
  lemma ExactlyOneDone(maxCalls: int, depth: int, acts: seq<Action>, t: Task)
    requires IsHistory(Opened(maxCalls, depth), acts)
    ensures var b := Play(Opened(maxCalls, depth), acts);
      b.dones[t] == if b.sys.At(t, Finalised) && t !in b.killed then 1 else 0
  {
    InitialInv(maxCalls, depth, true);
    HistoryKeeps(Opened(maxCalls, depth), acts);
  }
}
