/**
 What the backend remembers about its requests while they run: cancellations, engines, routing
 decisions, the owners of tool calls, pending write contexts and the two prompt slots; and how all
 of it is forgotten when a request ends.
 */
module RuntimeRefs {
  type Id = string
  type Engine = nat

  /** A prompt slot: the call or review it is for, the request, and whether its event is there. */
  datatype Prompt = Prompt(call: Id, request: Id, waiting: bool, isSet: bool) {
    function Woken(r: Id): Prompt {
      if waiting && request == r then this.(isSet := true) else this
    }
  }

  const NO_PROMPT := Prompt("", "", false, false)

  /** The shared answers to the prompts: whether a call is approved, for this once or for the
      session, and whether reviewed changes are accepted. */
  datatype Answers = Answers(approved: bool, forSession: bool, accepted: bool)

  const REFUSED := Answers(false, false, false)

  datatype Refs = Refs(
    cancelRequested: bool, cancelled: set<Id>, engines: map<Id, set<Engine>>, routing: map<Id, seq<string>>,
    owners: map<Id, Id>, contexts: map<Id, seq<string>>, permission: Prompt, review: Prompt,
    answers: Answers, stopped: set<Engine>)
  {
    // The request a call belongs to, empty for a call nobody tracks, such as one of a subagent.
    function Owner(call: Id): Id {
      if call in owners then owners[call] else ""
    }

    predicate IsCancelled(r: Id) {
      cancelRequested || (r != "" && r in cancelled)
    }

    ghost predicate OwnsCall(r: Id) {
      exists call :: call in owners && owners[call] == r
    }

    ghost predicate MentionsBesideCancel(r: Id) {
      r in engines || r in routing || OwnsCall(r) || permission.request == r || review.request == r
    }

    /** Some table or slot refers to the request. */
    ghost predicate Mentions(r: Id) {
      r in cancelled || MentionsBesideCancel(r)
    }

    function Mark(r: Id): Refs {
      if r == "" then this else
        this.(cancelled := cancelled + {r}, permission := permission.Woken(r), review := review.Woken(r),
              answers := REFUSED, stopped := stopped + if r in engines then engines[r] else {})
    }

    // The end of the backend cancels every registered request.
    function MarkAll(rs: set<Id>): Refs {
      this.(cancelRequested := true, cancelled := cancelled + rs,
            permission := permission.(isSet := permission.waiting || permission.isSet),
            review := review.(isSet := review.waiting || review.isSet), answers := REFUSED,
            stopped := stopped + (set r, e | r in rs && r in engines && e in engines[r] :: e))
    }

    function ClearCancelled(r: Id): Refs {
      if r == "" then this else this.(cancelled := cancelled - {r})
    }

    function Bind(r: Id, e: Engine): Refs {
      if r == "" then this
      else this.(engines := engines[r := (if r in engines then engines[r] else {}) + {e}])
    }

    function Unbind(r: Id, e: Engine): Refs {
      if r == "" || r !in engines || engines[r] == {} then this
      else if engines[r] - {e} == {} then this.(engines := engines - {r})
      else this.(engines := engines[r := engines[r] - {e}])
    }

    function Track(call: Id, r: Id): Refs {
      if call != "" && r != "" then this.(owners := owners[call := r]) else this
    }

    function Untrack(call: Id): Refs {
      if call != "" then this.(owners := owners - {call}) else this
    }

    function Stale(r: Id): set<Id> {
      set call | call in owners && owners[call] == r
    }

    function Clear(r: Id): Refs {
      if r == "" then this else
        this.(cancelled := cancelled - {r}, engines := engines - {r}, routing := routing - {r},
              owners := owners - Stale(r), contexts := contexts - Stale(r),
              permission := if permission.request == r then NO_PROMPT else permission,
              review := if review.request == r then NO_PROMPT else review)
    }
  }

  class ServeState {
    var cancelRequested: bool
    var cancelledRequestIds: set<Id>
    var requestEngines: map<Id, set<Engine>>
    var requestRoutingDecisions: map<Id, seq<string>>
    var toolCallRequestIds: map<Id, Id>
    var pendingWriteContexts: map<Id, seq<string>>
    var permission: Prompt
    var review: Prompt
    var answers: Answers
    var stopped: set<Engine>

    function View(): Refs
      reads this
    {
      Refs(cancelRequested, cancelledRequestIds, requestEngines, requestRoutingDecisions, toolCallRequestIds,
           pendingWriteContexts, permission, review, answers, stopped)
    }

    constructor ()
      ensures View() == Refs(false, {}, map[], map[], map[], map[], NO_PROMPT, NO_PROMPT,
                             Answers(false, false, true), {})
    {
      cancelRequested, cancelledRequestIds, requestEngines := false, {}, map[];
      requestRoutingDecisions, toolCallRequestIds, pendingWriteContexts := map[], map[], map[];
      permission, review, answers, stopped := NO_PROMPT, NO_PROMPT, Answers(false, false, true), {};
    }

    method MarkRequestCancelled(r: Id)
      modifies this
      ensures View() == old(View()).Mark(r)
      ensures r == "" ==> View() == old(View())
      ensures r != "" ==> cancelledRequestIds == old(cancelledRequestIds) + {r}
      ensures forall e :: e in stopped <==>
        e in old(stopped) || (r != "" && r in old(requestEngines) && e in old(requestEngines)[r])
      ensures r != "" ==> WokenFor(old(permission), permission, {r}) && WokenFor(old(review), review, {r})
      ensures r != "" ==> !answers.approved && !answers.forSession && !answers.accepted
    {
      if r == "" {
        return;
      }
      cancelledRequestIds := cancelledRequestIds + {r};
      answers := answers.(approved := false, forSession := false);
      WakePrompts(r);
      if r in requestEngines {
        stopped := stopped + requestEngines[r];
      }
    }

    method WakePrompts(r: Id)
      modifies this`permission, this`review, this`answers
      ensures permission == old(permission).Woken(r) && review == old(review).Woken(r)
      ensures answers == old(answers).(accepted := false)
    {
      if permission.waiting && !permission.isSet && permission.request == r {
        permission := permission.(isSet := true);
      }
      answers := answers.(accepted := false);
      if review.waiting && !review.isSet && review.request == r {
        review := review.(isSet := true);
      }
    }

    method BindRequestEngine(r: Id, e: Engine)
      modifies this
      ensures View() == old(View()).Bind(r, e)
      ensures r != "" ==> r in requestEngines && requestEngines - {r} == old(requestEngines) - {r}
      ensures r != "" ==> forall f :: f in requestEngines[r] <==>
        f == e || (r in old(requestEngines) && f in old(requestEngines)[r])
    {
      if r == "" {
        return;
      }
      if r !in requestEngines {
        requestEngines := requestEngines[r := {}];
      }
      requestEngines := requestEngines[r := requestEngines[r] + {e}];
    }

    method UnbindRequestEngine(r: Id, e: Engine)
      modifies this
      ensures View() == old(View()).Unbind(r, e)
      ensures requestEngines - {r} == old(requestEngines) - {r}
      ensures forall f :: (r in requestEngines && f in requestEngines[r]) <==>
        (r in old(requestEngines) && f in old(requestEngines)[r] && (f != e || r == ""))
    {
      if r == "" || r !in requestEngines || requestEngines[r] == {} {
        return;
      }
      requestEngines := requestEngines[r := requestEngines[r] - {e}];
      if requestEngines[r] == {} {
        assert forall f :: f in old(requestEngines)[r] && f != e ==> f in requestEngines[r];
        requestEngines := requestEngines - {r};
      }
    }

    method ClearRequestCancelled(r: Id)
      modifies this`cancelledRequestIds
      ensures View() == old(View()).ClearCancelled(r)
      ensures forall q :: q in cancelledRequestIds <==> q in old(cancelledRequestIds) && (q != r || r == "")
    {
      if r != "" {
        cancelledRequestIds := cancelledRequestIds - {r};
      }
    }

    method TrackToolCallRequest(call: Id, r: Id)
      modifies this`toolCallRequestIds
      ensures View() == old(View()).Track(call, r)
      ensures call != "" && r != "" ==> call in toolCallRequestIds && toolCallRequestIds[call] == r
      ensures toolCallRequestIds - {call} == old(toolCallRequestIds) - {call}
    {
      if call != "" && r != "" {
        toolCallRequestIds := toolCallRequestIds[call := r];
      }
    }

    method ClearToolCallRequest(call: Id)
      modifies this`toolCallRequestIds
      ensures View() == old(View()).Untrack(call)
      ensures call != "" ==> call !in toolCallRequestIds
      ensures toolCallRequestIds - {call} == old(toolCallRequestIds) - {call}
    {
      if call != "" {
        toolCallRequestIds := toolCallRequestIds - {call};
      }
    }

    method ForgetCalls(calls: set<Id>)
      modifies this`toolCallRequestIds, this`pendingWriteContexts
      ensures toolCallRequestIds == old(toolCallRequestIds) - calls
      ensures pendingWriteContexts == old(pendingWriteContexts) - calls
    {
      var left := calls;
      while left != {}
        invariant left <= calls
        invariant toolCallRequestIds == old(toolCallRequestIds) - (calls - left)
        invariant pendingWriteContexts == old(pendingWriteContexts) - (calls - left)
        decreases left
      {
        var call :| call in left;
        left := left - {call};
        toolCallRequestIds := toolCallRequestIds - {call};
        pendingWriteContexts := pendingWriteContexts - {call};
      }
    }

    method ClearRequestRuntimeRefs(r: Id)
      modifies this
      ensures View() == old(View()).Clear(r)
    {
      if r == "" {
        return;
      }
      ForgetRequest(r);
      var stale := StaleCalls(r);
      ForgetCalls(stale);
      ForgetPrompts(r);
    }

    method ForgetRequest(r: Id)
      modifies this`cancelledRequestIds, this`requestEngines, this`requestRoutingDecisions
      ensures cancelledRequestIds == old(cancelledRequestIds) - {r}
      ensures requestEngines == old(requestEngines) - {r}
      ensures requestRoutingDecisions == old(requestRoutingDecisions) - {r}
    {
      cancelledRequestIds := cancelledRequestIds - {r};
      requestEngines := requestEngines - {r};
      requestRoutingDecisions := requestRoutingDecisions - {r};
    }

    method StaleCalls(r: Id) returns (calls: set<Id>)
      ensures calls == set call | call in toolCallRequestIds && toolCallRequestIds[call] == r
    {
      calls := set call | call in toolCallRequestIds && toolCallRequestIds[call] == r;
    }

    method ForgetPrompts(r: Id)
      modifies this`permission, this`review
      ensures permission == if old(permission).request == r then NO_PROMPT else old(permission)
      ensures review == if old(review).request == r then NO_PROMPT else old(review)
    {
      if permission.request == r {
        permission := NO_PROMPT;
      }
      if review.request == r {
        review := NO_PROMPT;
      }
    }
  }

  /** Clearing a request forgets everything about it, the write contexts of the calls it owns
      included, and nothing about any other request or about calls it does not own. */
  lemma ClearExact(refs: Refs, r: Id, q: Id, call: Id)
    requires r != "" && q != "" && q != r
    ensures var n := refs.Clear(r);
      && !n.Mentions(r)
      && (q in n.cancelled <==> q in refs.cancelled)
      && (q in n.engines <==> q in refs.engines) && (q in refs.engines ==> n.engines[q] == refs.engines[q])
      && (q in n.routing <==> q in refs.routing) && (q in refs.routing ==> n.routing[q] == refs.routing[q])
      && (refs.permission.request == q ==> n.permission == refs.permission)
      && (refs.review.request == q ==> n.review == refs.review)
      && (call in n.owners <==> call in refs.owners && refs.owners[call] != r)
      && (call in n.owners ==> n.owners[call] == refs.owners[call])
      && (call in n.contexts <==> call in refs.contexts && !(call in refs.owners && refs.owners[call] == r))
      && (call in n.contexts ==> n.contexts[call] == refs.contexts[call])
  {}

  // What a cancellation of some requests does to a prompt: it sets its event if it waits for one of them.
  predicate WokenFor(before: Prompt, after: Prompt, rs: set<Id>) {
    after == before.(isSet := before.isSet || (before.waiting && before.request in rs))
  }

  /** Cancelling a request stops exactly the engines bound to it, wakes exactly the prompts that wait
      for it, refuses every answer, and forgets nothing. */
  lemma MarkExact(refs: Refs, r: Id, e: Engine)
    requires r != ""
    ensures var n := refs.Mark(r);
      && n.cancelled == refs.cancelled + {r}
      && (e in n.stopped <==> e in refs.stopped || (r in refs.engines && e in refs.engines[r]))
      && WokenFor(refs.permission, n.permission, {r}) && WokenFor(refs.review, n.review, {r})
      && !n.answers.approved && !n.answers.forSession && !n.answers.accepted
      && n.engines == refs.engines && n.routing == refs.routing && n.owners == refs.owners
      && n.contexts == refs.contexts
  {}

  /** The end of the backend does so for every registered request, and wakes whatever prompt waits. */
  lemma MarkAllExact(refs: Refs, rs: set<Id>, e: Engine)
    ensures var n := refs.MarkAll(rs);
      && n.cancelRequested && n.cancelled == refs.cancelled + rs
      && (e in n.stopped <==> e in refs.stopped || exists r :: r in rs && r in refs.engines && e in refs.engines[r])
      && (n.permission.isSet <==> refs.permission.isSet || refs.permission.waiting)
      && (n.review.isSet <==> refs.review.isSet || refs.review.waiting)
      && !n.answers.approved && !n.answers.forSession && !n.answers.accepted
      && n.engines == refs.engines && n.owners == refs.owners && n.contexts == refs.contexts
  {
    if e in refs.MarkAll(rs).stopped && e !in refs.stopped {
      assert exists r :: r in rs && r in refs.engines && e in refs.engines[r];
    }
  }

  // ---------------------------------------------------------------------------------------------
  // Sessions
  // ---------------------------------------------------------------------------------------------

  /** `live` requests have been dispatched and not finalised; `registered` ones still have their
      task in the dispatcher's table. */
  datatype Session = Session(refs: Refs, live: set<Id>, registered: set<Id>)

  /** What a request's own task, or a subagent in it, does while the request is live. */
  datatype Work =
    | BindEngine(e: Engine)
    | UnbindEngine(e: Engine)
    | Route(decisions: seq<string>)
    | TrackCall(call: Id)
    | UntrackCall(call: Id)
    | Prepare(call: Id, context: seq<string>)  // the write context of a call about to run
    | TakeContext(call: Id)                    // the call is denied or has run
    | OpenPermission(call: Id)
    | OpenReview(call: Id)
    | ClosePermission(call: Id)
    | CloseReview(call: Id)

  datatype Event =
    | Dispatch(r: Id)
    | Cancel(r: Id)
    | Finalise(r: Id)
    | Forget(r: Id)         // the dispatcher drops the finished task
    | Working(r: Id, work: Work)
    | Shutdown

  predicate Enabled(s: Session, e: Event) {
    match e
    case Dispatch(r) => r != "" && r !in s.live && r !in s.registered
    case Cancel(r) => r != ""
    case Finalise(r) => r in s.live
    case Forget(r) => r in s.registered && r !in s.live
    case Working(r, _) => r in s.live
    case Shutdown => true
  }

  function DoWork(refs: Refs, r: Id, w: Work): Refs {
    match w
    case BindEngine(e) => refs.Bind(r, e)
    case UnbindEngine(e) => refs.Unbind(r, e)
    case Route(decisions) => refs.(routing := refs.routing[r := decisions])
    case TrackCall(call) => refs.Track(call, r)
    case UntrackCall(call) => refs.Untrack(call)
    case Prepare(call, context) => refs.(contexts := refs.contexts[call := context])
    case TakeContext(call) => refs.(contexts := refs.contexts - {call})
    case OpenPermission(call) =>
      refs.(permission := Prompt(call, refs.Owner(call), true, false),
            answers := refs.answers.(approved := false, forSession := false))
    case OpenReview(call) =>
      refs.(review := Prompt(call, refs.Owner(call), true, false), answers := refs.answers.(accepted := true))
    case ClosePermission(call) =>
      refs.(permission := if refs.permission.call == call then NO_PROMPT else refs.permission)
    case CloseReview(call) =>
      refs.(review := if refs.review.call == call then NO_PROMPT else refs.review)
  }

  /** What opening and closing prompts does: a permission prompt withdraws earlier approvals, a review
      prompt presumes acceptance, both are for the request that owns the call, and only the prompt that
      is there for the call is closed. */
  lemma PromptsExact(refs: Refs, r: Id, call: Id)
    ensures var n := DoWork(refs, r, OpenPermission(call));
      && n.permission.call == call && n.permission.waiting && !n.permission.isSet
      && n.permission.request == (if call in refs.owners then refs.owners[call] else "")
      && !n.answers.approved && !n.answers.forSession && n.answers.accepted == refs.answers.accepted
      && n.review == refs.review
    ensures var n := DoWork(refs, r, OpenReview(call));
      && n.review.call == call && n.review.waiting && !n.review.isSet
      && n.review.request == (if call in refs.owners then refs.owners[call] else "")
      && n.answers.accepted && n.answers.approved == refs.answers.approved && n.permission == refs.permission
    ensures DoWork(refs, r, ClosePermission(call)).permission ==
      if refs.permission.call == call then NO_PROMPT else refs.permission
    ensures DoWork(refs, r, CloseReview(call)).review == if refs.review.call == call then NO_PROMPT else refs.review
  {}

  /** What the other work of a request leaves in the tables. */
  lemma TablesExact(refs: Refs, r: Id, call: Id, entry: seq<string>)
    requires r != "" && call != ""
    ensures r in DoWork(refs, r, Route(entry)).routing && DoWork(refs, r, Route(entry)).routing[r] == entry
    ensures DoWork(refs, r, TrackCall(call)).Owner(call) == r
    ensures DoWork(refs, r, UntrackCall(call)).Owner(call) == ""
    ensures call in DoWork(refs, r, Prepare(call, entry)).contexts
    ensures DoWork(refs, r, Prepare(call, entry)).contexts[call] == entry
    ensures call !in DoWork(refs, r, TakeContext(call)).contexts
  {}

  function Next(s: Session, e: Event): Session
    requires Enabled(s, e)
  {
    match e
    case Dispatch(r) =>
      Session(s.refs.(cancelRequested := false).ClearCancelled(r), s.live + {r}, s.registered + {r})
    case Cancel(r) => s.(refs := if r in s.registered then s.refs.Mark(r) else s.refs.Mark(r).Clear(r))
    case Finalise(r) => s.(refs := s.refs.Clear(r), live := s.live - {r})
    case Forget(r) => s.(registered := s.registered - {r})
    case Working(r, w) => s.(refs := DoWork(s.refs, r, w))
    case Shutdown => s.(refs := s.refs.MarkAll(s.registered))
  }

  predicate IsRun(s: Session, es: seq<Event>)
    decreases |es|
  {
    es == [] || (Enabled(s, es[0]) && IsRun(Next(s, es[0]), es[1..]))
  }

  function Play(s: Session, es: seq<Event>): Session
    requires IsRun(s, es)
    decreases |es|
  {
    if es == [] then s else Play(Next(s, es[0]), es[1..])
  }

  lemma {:induction false} RunFront(s: Session, es: seq<Event>)
    requires IsRun(s, es) && es != []
    ensures var front, last := es[..|es| - 1], es[|es| - 1];
      IsRun(s, front) && Enabled(Play(s, front), last) && Play(s, es) == Next(Play(s, front), last)
    decreases |es|
  {
    if |es| > 1 {
      RunFront(Next(s, es[0]), es[1..]);
      assert es[1..][..|es| - 2] == es[..|es| - 1][1..];
    }
  }

  // Only live requests are mentioned, apart from cancellations.
  ghost predicate Confined(s: Session) {
    forall r :: r != "" && s.refs.MentionsBesideCancel(r) ==> r in s.live
  }

  ghost predicate Tidy(s: Session) {
    && Confined(s) && "" !in s.live && s.live <= s.registered && "" !in s.registered
    && forall call :: call in s.refs.owners ==> s.refs.owners[call] != ""
  }

  lemma OwnerMentioned(refs: Refs, call: Id)
    requires refs.Owner(call) != ""
    ensures refs.MentionsBesideCancel(refs.Owner(call))
  {
    assert refs.OwnsCall(refs.Owner(call));
  }

  lemma OwnsSubset(before: Refs, after: Refs, q: Id)
    requires after.OwnsCall(q) && forall call :: call in after.owners && after.owners[call] == q ==>
      call in before.owners && before.owners[call] == q
    ensures before.OwnsCall(q)
  {
    var call :| call in after.owners && after.owners[call] == q;
    assert call in before.owners && before.owners[call] == q;
  }

  // The owners of calls after some work.
  lemma WorkOwners(refs: Refs, r: Id, w: Work, q: Id)
    requires q != r
    ensures forall call :: call in DoWork(refs, r, w).owners && DoWork(refs, r, w).owners[call] == q ==>
      call in refs.owners && refs.owners[call] == q
  {}

  lemma WorkTables(refs: Refs, r: Id, w: Work, q: Id)
    requires q != r
    ensures q in DoWork(refs, r, w).engines ==> q in refs.engines
    ensures q in DoWork(refs, r, w).routing ==> q in refs.routing
  {}

  // A prompt about a request is there before, or is opened for one of its calls.
  lemma WorkPrompts(refs: Refs, r: Id, w: Work, q: Id)
    requires q != ""
    ensures DoWork(refs, r, w).permission.request == q ==>
      refs.permission.request == q || (w.OpenPermission? && refs.Owner(w.call) == q)
    ensures DoWork(refs, r, w).review.request == q ==>
      refs.review.request == q || (w.OpenReview? && refs.Owner(w.call) == q)
  {}

  lemma WorkMentions(refs: Refs, r: Id, w: Work, q: Id)
    requires q != "" && q != r && DoWork(refs, r, w).MentionsBesideCancel(q)
    ensures refs.MentionsBesideCancel(q)
  {
    var n := DoWork(refs, r, w);
    WorkTables(refs, r, w, q);
    WorkPrompts(refs, r, w, q);
    if (w.OpenPermission? || w.OpenReview?) && refs.Owner(w.call) == q {
      OwnerMentioned(refs, w.call);
    } else if n.OwnsCall(q) {
      WorkOwners(refs, r, w, q);
      OwnsSubset(refs, n, q);
    }
  }

  lemma ClearMentions(refs: Refs, r: Id, q: Id)
    requires r != "" && q != "" && refs.Clear(r).MentionsBesideCancel(q)
    ensures q != r && refs.MentionsBesideCancel(q)
  {
    var n := refs.Clear(r);
    if n.OwnsCall(q) {
      var call :| call in n.owners && n.owners[call] == q;
      assert call in refs.owners && refs.owners[call] == q;
    }
  }

  lemma MarkMentions(refs: Refs, r: Id, q: Id)
    ensures refs.Mark(r).MentionsBesideCancel(q) <==> refs.MentionsBesideCancel(q)
  {
    assert refs.Mark(r).owners == refs.owners;
    assert refs.Mark(r).OwnsCall(q) <==> refs.OwnsCall(q);
  }

  // Whoever is mentioned after an event was so before, or is the request at work.
  lemma StepMentions(s: Session, e: Event, q: Id)
    requires Tidy(s) && Enabled(s, e) && q != "" && Next(s, e).refs.MentionsBesideCancel(q)
    ensures (e.Working? && e.r == q) || (s.refs.MentionsBesideCancel(q) && !(e.Finalise? && e.r == q))
  {
    match e
    case Working(r, w) =>
      if q != r {
        WorkMentions(s.refs, r, w, q);
      }
    case Finalise(r) => ClearMentions(s.refs, r, q);
    case Cancel(r) =>
      if r !in s.registered {
        ClearMentions(s.refs.Mark(r), r, q);
      }
      MarkMentions(s.refs, r, q);
    case _ =>
      assert Next(s, e).refs.OwnsCall(q) <==> s.refs.OwnsCall(q);
  }

  lemma StepTidy(s: Session, e: Event)
    requires Tidy(s) && Enabled(s, e)
    ensures Tidy(Next(s, e))
  {
    forall q | q != "" && Next(s, e).refs.MentionsBesideCancel(q)
      ensures q in Next(s, e).live
    {
      StepMentions(s, e, q);
    }
  }

  lemma {:induction false} RunTidy(s: Session, es: seq<Event>)
    requires Tidy(s) && IsRun(s, es)
    ensures Tidy(Play(s, es))
    decreases |es|
  {
    if es != [] {
      StepTidy(s, es[0]);
      RunTidy(Next(s, es[0]), es[1..]);
    }
  }

  function Start(): Session {
    Session(Refs(false, {}, map[], map[], map[], map[], NO_PROMPT, NO_PROMPT, Answers(false, false, true), {}), {}, {})
  }

  // ---------------------------------------------------------------------------------------------
  // Stopped engines
  // ---------------------------------------------------------------------------------------------

  predicate Bound(s: Session, r: Id, e: Engine) {
    r in s.refs.engines && e in s.refs.engines[r]
  }

  lemma WorkStops(refs: Refs, r: Id, w: Work)
    ensures DoWork(refs, r, w).stopped == refs.stopped
  {}

  /** An event stops exactly the engines bound to the request it cancels, or at the end of the backend
      to any registered one. */
  lemma StopsIff(s: Session, ev: Event, e: Engine)
    requires Enabled(s, ev)
    ensures e in Next(s, ev).refs.stopped <==>
      || e in s.refs.stopped
      || (ev.Cancel? && Bound(s, ev.r, e))
      || (ev.Shutdown? && exists r :: r in s.registered && Bound(s, r, e))
  {
    match ev
    case Cancel(r) => MarkExact(s.refs, r, e);
    case Shutdown =>
      MarkAllExact(s.refs, s.registered, e);
      forall r | r in s.registered && r in s.refs.engines && e in s.refs.engines[r] ensures Bound(s, r, e) {}
    case Working(r, w) => WorkStops(s.refs, r, w);
    case _ =>
  }

  lemma WorkBound(refs: Refs, r: Id, w: Work, q: Id, e: Engine)
    requires q in refs.engines && e in refs.engines[q] && !(r == q && w == UnbindEngine(e))
    ensures q in DoWork(refs, r, w).engines && e in DoWork(refs, r, w).engines[q]
  {}

  lemma BoundStep(s: Session, ev: Event, r: Id, e: Engine)
    requires Tidy(s) && Enabled(s, ev) && r in s.live && Bound(s, r, e)
    requires ev != Finalise(r) && ev != Working(r, UnbindEngine(e))
    ensures r in Next(s, ev).live && Bound(Next(s, ev), r, e)
  {
    if ev.Working? {
      WorkBound(s.refs, ev.r, ev.work, r, e);
    }
  }

  /** An engine bound to a live request and not unbound before the request is cancelled is stopped by
      the cancellation, whatever happens in between. */
  lemma {:induction false} CancelStops(s: Session, es: seq<Event>, r: Id, e: Engine)
    requires Tidy(s) && IsRun(s, es) && r in s.live && Bound(s, r, e)
    requires Finalise(r) !in es && Working(r, UnbindEngine(e)) !in es
    ensures Enabled(Play(s, es), Cancel(r)) && e in Next(Play(s, es), Cancel(r)).refs.stopped
    decreases |es|
  {
    if es == [] {
      StopsIff(s, Cancel(r), e);
    } else {
      assert es[0] in es && forall ev :: ev in es[1..] ==> ev in es;
      BoundStep(s, es[0], r, e);
      StepTidy(s, es[0]);
      CancelStops(Next(s, es[0]), es[1..], r, e);
    }
  }

  // ---------------------------------------------------------------------------------------------
  // Leftover cancel marks
  // ---------------------------------------------------------------------------------------------

  // The request has ended, but the dispatcher has not dropped its task yet.
  predicate InWindow(s: Session, r: Id) {
    r in s.registered && r !in s.live
  }

  predicate Concerns(s: Session, e: Event, r: Id) {
    e == Dispatch(r) || e == Cancel(r) || (e.Shutdown? && r in s.registered)
  }

  /** The last dispatch or cancellation of the request, the end of the backend included, fell into
      the window between its end and the dispatcher dropping it. */
  predicate LastInWindow(s: Session, es: seq<Event>, r: Id)
    requires IsRun(s, es)
    decreases |es|
  {
    if es == [] then false else
      RunFront(s, es);
      var before := Play(s, es[..|es| - 1]);
      if Concerns(before, es[|es| - 1], r) then InWindow(before, r) else LastInWindow(s, es[..|es| - 1], r)
  }

  lemma ConcernsMark(s: Session, e: Event, r: Id)
    requires Tidy(s) && Enabled(s, e) && r != "" && Concerns(s, e, r)
    ensures if r in Next(s, e).live then !InWindow(s, r) else r in Next(s, e).refs.cancelled <==> InWindow(s, r)
  {}

  lemma WorkCancelled(refs: Refs, r: Id, w: Work)
    ensures DoWork(refs, r, w).cancelled == refs.cancelled
  {}

  lemma OtherMark(s: Session, e: Event, r: Id)
    requires Tidy(s) && Enabled(s, e) && r != "" && !Concerns(s, e, r)
    ensures r in Next(s, e).live ==> r in s.live
    ensures r !in Next(s, e).live ==>
      (r in Next(s, e).refs.cancelled <==> (r !in s.live && r in s.refs.cancelled))
  {
    if e.Working? {
      WorkCancelled(s.refs, e.r, e.work);
    }
  }

  lemma {:induction false} MarkedIff(es: seq<Event>, r: Id)
    requires IsRun(Start(), es) && r != ""
    ensures var s := Play(Start(), es);
      if r in s.live then !LastInWindow(Start(), es, r)
      else r in s.refs.cancelled <==> LastInWindow(Start(), es, r)
    decreases |es|
  {
    if es != [] {
      var front, last := es[..|es| - 1], es[|es| - 1];
      RunFront(Start(), es);
      RunTidy(Start(), front);
      if Concerns(Play(Start(), front), last, r) {
        ConcernsMark(Play(Start(), front), last, r);
      } else {
        OtherMark(Play(Start(), front), last, r);
        MarkedIff(front, r);
      }
    }
  }

  /** In every run a request that is not live is mentioned nowhere, except that it is still marked as
      cancelled exactly if the last thing that happened to it was a cancellation in that window. */
  lemma ForgottenIff(es: seq<Event>, r: Id)
    requires IsRun(Start(), es) && r != "" && r !in Play(Start(), es).live
    ensures var s := Play(Start(), es);
      && (s.refs.Mentions(r) <==> LastInWindow(Start(), es, r))
      && !s.refs.MentionsBesideCancel(r)
  {
    RunTidy(Start(), es);
    MarkedIff(es, r);
  }

  lemma OneMore(s: Session, es: seq<Event>, e: Event)
    requires IsRun(s, es) && Enabled(Play(s, es), e)
    ensures IsRun(s, es + [e]) && Play(s, es + [e]) == Next(Play(s, es), e)
    decreases |es|
  {
    if es == [] {
      assert [] + [e] == [e] && [e][1..] == [];
    } else {
      assert (es + [e])[1..] == es[1..] + [e];
      OneMore(Next(s, es[0]), es[1..], e);
    }
  }

  /** Such a mark does stay behind, for good if the id is never dispatched again. */
  lemma MarkStaysBehind(r: Id) returns (es: seq<Event>)
    requires r != ""
    ensures es == [Dispatch(r), Finalise(r), Cancel(r), Forget(r)] && IsRun(Start(), es)
    ensures var s := Play(Start(), es); r !in s.live && r !in s.registered && s.refs.Mentions(r)
  {
    OneMore(Start(), [], Dispatch(r));
    assert [] + [Dispatch(r)] == [Dispatch(r)];
    OneMore(Start(), [Dispatch(r)], Finalise(r));
    assert [Dispatch(r)] + [Finalise(r)] == [Dispatch(r), Finalise(r)];
    OneMore(Start(), [Dispatch(r), Finalise(r)], Cancel(r));
    assert [Dispatch(r), Finalise(r)] + [Cancel(r)] == [Dispatch(r), Finalise(r), Cancel(r)];
    OneMore(Start(), [Dispatch(r), Finalise(r), Cancel(r)], Forget(r));
    es := [Dispatch(r), Finalise(r), Cancel(r), Forget(r)];
    assert [Dispatch(r), Finalise(r), Cancel(r)] + [Forget(r)] == es;
  }

  /** A newly dispatched chat never starts out cancelled, not even under a reused id. */
  lemma DispatchNotCancelled(s: Session, r: Id)
    requires Tidy(s) && Enabled(s, Dispatch(r))
    ensures !Next(s, Dispatch(r)).refs.IsCancelled(r)
    ensures !Next(s, Dispatch(r)).refs.Mentions(r)
  {
    if Next(s, Dispatch(r)).refs.MentionsBesideCancel(r) {
      StepMentions(s, Dispatch(r), r);
    }
  }

  // ---------------------------------------------------------------------------------------------
  // Write contexts that outlive their request
  // ---------------------------------------------------------------------------------------------

  /** Every pending write context is that of a call that a live request owns. */
  ghost predicate Attached(s: Session) {
    forall call :: call in s.refs.contexts ==> s.refs.Owner(call) in s.live
  }

  // A context is prepared for a call nobody owns, as for a subagent, or loses its owner.
  predicate Detaches(s: Session, e: Event) {
    e.Working? && match e.work
      case Prepare(call, _) => s.refs.Owner(call) == ""
      case UntrackCall(call) => call != "" && call in s.refs.contexts
      case _ => false
  }

  lemma OwnersLive(s: Session, call: Id)
    requires Tidy(s) && s.refs.Owner(call) != ""
    ensures s.refs.Owner(call) in s.live
  {
    OwnerMentioned(s.refs, call);
  }

  lemma PrepareAttached(s: Session, e: Event)
    requires Tidy(s) && Attached(s) && Enabled(s, e) && e.Working? && e.work.Prepare?
    ensures Attached(Next(s, e)) <==> !Detaches(s, e)
  {
    assert e.work.call in Next(s, e).refs.contexts;
    if s.refs.Owner(e.work.call) != "" {
      OwnersLive(s, e.work.call);
    }
  }

  lemma UntrackAttached(s: Session, e: Event)
    requires Tidy(s) && Attached(s) && Enabled(s, e) && e.Working? && e.work.UntrackCall?
    ensures Attached(Next(s, e)) <==> !Detaches(s, e)
  {
    var n := Next(s, e);
    assert forall call :: call != e.work.call ==> n.refs.Owner(call) == s.refs.Owner(call);
    if Detaches(s, e) {
      assert e.work.call in n.refs.contexts && n.refs.Owner(e.work.call) == "";
    }
  }

  lemma OtherContexts(refs: Refs, r: Id, w: Work, call: Id)
    requires !w.Prepare? && call in DoWork(refs, r, w).contexts
    ensures call in refs.contexts
  {}

  lemma OtherOwner(refs: Refs, r: Id, w: Work, call: Id)
    requires !w.UntrackCall?
    ensures DoWork(refs, r, w).Owner(call) == refs.Owner(call) || DoWork(refs, r, w).Owner(call) == r
  {}

  lemma WorkAttached(s: Session, e: Event)
    requires Tidy(s) && Attached(s) && Enabled(s, e) && e.Working?
    ensures Attached(Next(s, e)) <==> !Detaches(s, e)
  {
    if e.work.Prepare? {
      PrepareAttached(s, e);
    } else if e.work.UntrackCall? {
      UntrackAttached(s, e);
    } else {
      forall call | call in Next(s, e).refs.contexts ensures Next(s, e).refs.Owner(call) in s.live {
        OtherContexts(s.refs, e.r, e.work, call);
        OtherOwner(s.refs, e.r, e.work, call);
      }
    }
  }

  lemma StepAttached(s: Session, e: Event)
    requires Tidy(s) && Attached(s) && Enabled(s, e)
    ensures Attached(Next(s, e)) <==> !Detaches(s, e)
  {
    if e.Working? {
      WorkAttached(s, e);
    }
  }

  /** No event of a run detaches a context. */
  ghost predicate Orderly(s: Session, es: seq<Event>)
    requires IsRun(s, es)
    decreases |es|
  {
    es == [] || (!Detaches(s, es[0]) && Orderly(Next(s, es[0]), es[1..]))
  }

  lemma {:induction false} RunAttached(s: Session, es: seq<Event>)
    requires Tidy(s) && Attached(s) && IsRun(s, es) && Orderly(s, es)
    ensures Attached(Play(s, es))
    decreases |es|
  {
    if es != [] {
      StepTidy(s, es[0]);
      StepAttached(s, es[0]);
      RunAttached(Next(s, es[0]), es[1..]);
    }
  }

  // Something is done with the context of the call, or the call gets an owner.
  predicate Handles(e: Event, call: Id) {
    e.Working? && (e.work == TrackCall(call) || e.work == TakeContext(call) || (e.work.Prepare? && e.work.call == call))
  }

  predicate Orphan(refs: Refs, call: Id, context: seq<string>) {
    call in refs.contexts && call !in refs.owners && refs.contexts[call] == context
  }

  lemma WorkOrphan(refs: Refs, r: Id, w: Work, call: Id, context: seq<string>)
    requires Orphan(refs, call, context) && !Handles(Working(r, w), call)
    ensures Orphan(DoWork(refs, r, w), call, context)
  {}

  lemma StepOrphan(s: Session, e: Event, call: Id, context: seq<string>)
    requires Enabled(s, e) && Orphan(s.refs, call, context) && !Handles(e, call)
    ensures Orphan(Next(s, e).refs, call, context)
  {
    if e.Working? {
      WorkOrphan(s.refs, e.r, e.work, call, context);
    }
  }

  /** A context without an owner stays, whichever requests end, until it is handled. */
  lemma {:induction false} OrphanStays(s: Session, es: seq<Event>, call: Id, context: seq<string>)
    requires IsRun(s, es) && Orphan(s.refs, call, context)
    requires forall e :: e in es ==> !Handles(e, call)
    ensures Orphan(Play(s, es).refs, call, context)
    decreases |es|
  {
    if es != [] {
      assert es[0] in es && forall e :: e in es[1..] ==> e in es;
      StepOrphan(s, es[0], call, context);
      OrphanStays(Next(s, es[0]), es[1..], call, context);
    }
  }

  /** So contexts outlive their requests exactly by events that detach them: up to the first such
      event every context goes with its request, and that event leaves one that goes with none. */
  lemma OutlivesIff(es: seq<Event>, e: Event)
    requires IsRun(Start(), es) && Orderly(Start(), es) && Enabled(Play(Start(), es), e)
    ensures Attached(Play(Start(), es))
    ensures Detaches(Play(Start(), es), e) <==>
      exists call :: call in Next(Play(Start(), es), e).refs.contexts && call !in Next(Play(Start(), es), e).refs.owners
  {
    RunTidy(Start(), es);
    RunAttached(Start(), es);
    var s := Play(Start(), es);
    StepAttached(s, e);
    StepTidy(s, e);
    if Detaches(s, e) {
      assert e.work.call in Next(s, e).refs.contexts && e.work.call !in Next(s, e).refs.owners;
    }
  }
}
