/**
 The review of a tool's file changes. After a tool has run, its hook compares the tracked files
 with their snapshots, opens a review and waits; the changes are then kept or rolled back.
 All hooks share one prompt slot: `ReviewPrompt` is that slot as an object, `Slot` its value,
 and `World` any number of hooks, commands, cancellations and timers around it.
 */
module ReviewProtocol {
  import opened Basics
  import opened WriteReview

  datatype Action = Accept | Reject

  /** `decision` is the event the latest review waits for; empty strings stand for no id. */
  datatype Slot<E> = Slot(decision: Option<E>, action: Action, review: string, request: string) {
    // The action of a new review starts as "accept".
    function Open(event: E, review: string, request: string): Slot<E> {
      Slot(Some(event), Accept, review, request)
    }

    predicate Matches(review: string) {
      decision.Some? && review == this.review
    }

    function Decide(review: string, action: Action): Slot<E> {
      if Matches(review) then this.(action := action) else this
    }

    predicate CancelWakes(request: string) {
      request != "" && decision.Some? && this.request == request
    }

    // A cancellation overwrites the shared action, whichever request it is for.
    function MarkCancelled(request: string): Slot<E> {
      if request == "" then this else this.(action := Reject)
    }

    function Close(review: string): Slot<E> {
      if this.review == review then Slot(None, action, "", "") else this
    }

    function ClearRequest(request: string): Slot<E> {
      if request != "" && this.request == request then Slot(None, action, "", "") else this
    }
  }

  class Event {
    var isSet: bool

    constructor ()
      ensures !isSet
    {
      isSet := false;
    }
  }

  class ReviewPrompt {
    var toolReviewDecision: Event?
    var toolReviewAction: Action
    var pendingReviewId: string
    var pendingReviewRequestId: string

    ghost function View(): Slot<Event>
      reads this
    {
      var event: Option<Event> := if toolReviewDecision == null then None else Some(toolReviewDecision as Event);
      Slot(event, toolReviewAction, pendingReviewId, pendingReviewRequestId)
    }

    constructor ()
      ensures View() == Slot(None, Accept, "", "")
    {
      toolReviewDecision, toolReviewAction, pendingReviewId, pendingReviewRequestId := null, Accept, "", "";
    }

    method Open(review: string, request: string) returns (event: Event)
      modifies this
      ensures fresh(event) && !event.isSet
      ensures View() == old(View()).Open(event, review, request)
      ensures toolReviewDecision == event && toolReviewAction == Accept
      ensures pendingReviewId == review && pendingReviewRequestId == request
    {
      event := new Event();
      toolReviewDecision := event;
      toolReviewAction := Accept;
      pendingReviewId := review;
      pendingReviewRequestId := request;
    }

    // The `tool/review` command.
    method Decide(review: string, action: Action) returns (ok: bool)
      modifies this, toolReviewDecision
      ensures ok == old(View()).Matches(review)
      ensures View() == old(View()).Decide(review, action)
      ensures ok <==> toolReviewDecision != null && review == pendingReviewId
      ensures toolReviewAction == if ok then action else old(toolReviewAction)
      ensures toolReviewDecision != null ==> (toolReviewDecision.isSet <==> ok || old(toolReviewDecision.isSet))
    {
      if toolReviewDecision == null || review != pendingReviewId {
        return false;
      }
      toolReviewAction := action;
      toolReviewDecision.isSet := true;
      return true;
    }

    method MarkCancelled(request: string)
      modifies this, toolReviewDecision
      ensures View() == old(View()).MarkCancelled(request)
      ensures toolReviewAction == if request != "" then Reject else old(toolReviewAction)
      ensures toolReviewDecision != null ==>
        (toolReviewDecision.isSet <==>
          old(toolReviewDecision.isSet) || (request != "" && pendingReviewRequestId == request))
    {
      if request == "" {
        return;
      }
      toolReviewAction := Reject;
      if toolReviewDecision != null && !toolReviewDecision.isSet && pendingReviewRequestId == request {
        toolReviewDecision.isSet := true;
      }
    }

    method CancelPending()
      modifies this, toolReviewDecision
      ensures View() == old(View()).(action := Reject)
      ensures toolReviewDecision != null ==> toolReviewDecision.isSet
    {
      toolReviewAction := Reject;
      if toolReviewDecision != null && !toolReviewDecision.isSet {
        toolReviewDecision.isSet := true;
      }
    }

    // The `finally` part of the wait.
    method Close(review: string)
      modifies this
      ensures View() == old(View()).Close(review)
      ensures toolReviewAction == old(toolReviewAction)
      ensures old(pendingReviewId) == review ==> toolReviewDecision == null && pendingReviewId == ""
      ensures old(pendingReviewId) != review ==>
        toolReviewDecision == old(toolReviewDecision) && pendingReviewId == old(pendingReviewId)
    {
      if pendingReviewId == review {
        toolReviewDecision := null;
        pendingReviewId := "";
        pendingReviewRequestId := "";
      }
    }
  }

  // ---------------------------------------------------------------------------------------------
  // Hooks, commands, cancellations and timers
  // ---------------------------------------------------------------------------------------------

  type Call = string

  function ReviewId(call: Call): (id: string)
    ensures |id| >= 7 && id[7..] == call
  {
    "review-" + call
  }

  datatype Ending = NothingToReview | RolledBack | Kept | Killed

  /** `began` is when the engine armed its limit on the hook, `since` when the review began. */
  datatype Hook =
    | Waiting(context: seq<FileSnapshot>, request: string, began: nat, since: nat, isSet: bool)
    | Over(context: seq<FileSnapshot>, ending: Ending)

  /** A timeout of 0 means none. `verdict` is the last word on each review since it opened: true
      after an accept command for it, false after a reject command for it, a cancellation or a
      timeout. A call id may be used again once its hook is over. */
  datatype World = World(
    files: Files, slot: Slot<Call>, hooks: map<Call, Hook>,
    cancelled: set<string>, cancelAll: bool,
    clock: nat, reviewTimeout: nat, hookTimeout: nat,
    verdict: map<Call, bool>)
  {
    predicate Waits(c: Call) {
      c in hooks && hooks[c].Waiting?
    }

    predicate ReviewDue(c: Call)
      requires Waits(c)
    {
      reviewTimeout > 0 && clock >= hooks[c].since + reviewTimeout
    }

    predicate HookDue(c: Call)
      requires Waits(c)
    {
      hookTimeout > 0 && clock >= hooks[c].began + hookTimeout
    }

    predicate IsCancelled(request: string) {
      cancelAll || (request != "" && request in cancelled)
    }

    // Sets the event the slot refers to.
    function Wake(): World {
      if slot.decision.Some? && Waits(slot.decision.value) then
        var c := slot.decision.value;
        this.(hooks := hooks[c := hooks[c].(isSet := true)])
      else this
    }

    function Overrule(): World {
      this.(verdict := map c | c in verdict :: verdict[c] && !Waits(c))
    }

    function End(c: Call, ending: Ending): World
      requires Waits(c)
    {
      var context := hooks[c].context;
      this.(slot := slot.Close(ReviewId(c)),
            hooks := hooks[c := Over(context, ending)],
            files := if ending == RolledBack then Rewound(context, files) else files)
    }
  }

  datatype Step =
    | PostTool(call: Call, request: string, context: Option<seq<FileSnapshot>>, began: nat)
    | Review(review: string, action: Action)
    | Cancel(request: string)
    | Shutdown
    | NewChat
    | Finalise(request: string)
    | Touch(files: Files)    // any tool or program changes the disk
    | Tick
    | Timeout(call: Call)
    | Resume(call: Call)
    | Kill(call: Call)       // the engine's limit on the hook, or the end of the backend

  // A tool call with changes to review.
  predicate Opens(w: World, s: Step) {
    s.PostTool? && !w.IsCancelled(s.request) && s.context.Some? && Changes(s.context.value, w.files) != []
  }

  ghost predicate Enabled(w: World, s: Step) {
    match s
    case PostTool(call, _, context, began) =>
      !w.Waits(call) && (context.Some? ==> WellFormed(context.value)) && began <= w.clock
    case Tick => forall c :: w.Waits(c) ==> !w.hooks[c].isSet && !w.ReviewDue(c) && !w.HookDue(c)
    // When both timers are due the engine's fires first: it was armed first.
    case Timeout(call) => w.Waits(call) && w.ReviewDue(call) && !w.HookDue(call)
    case Resume(call) => w.Waits(call) && w.hooks[call].isSet
    case Kill(call) => w.Waits(call) && (w.HookDue(call) || w.cancelAll)
    case Finalise(request) => forall c :: w.Waits(c) ==> w.hooks[c].request != request
    case _ => true
  }

  function Next(w: World, s: Step): World
    requires Enabled(w, s)
  {
    match s
    case PostTool(call, request, context, began) =>
      if Opens(w, s) then
        w.(slot := w.slot.Open(call, ReviewId(call), request),
           hooks := w.hooks[call := Waiting(context.value, request, began, w.clock, false)],
           verdict := w.verdict[call := false])
      else if context.Some? && w.IsCancelled(request) then
        w.(files := Rewound(context.value, w.files), hooks := w.hooks[call := Over(context.value, RolledBack)],
           verdict := w.verdict[call := false])
      else
        w.(hooks := w.hooks[call := Over(match context case Some(c) => c case None => [], NothingToReview)],
           verdict := w.verdict[call := false])
    case Review(review, action) =>
      if w.slot.Matches(review) then
        w.Wake().(slot := w.slot.Decide(review, action),
                  verdict := w.verdict[w.slot.decision.value := action == Accept])
      else w
    case Cancel(request) =>
      if request == "" then w else
        (if w.slot.CancelWakes(request) then w.Wake() else w).Overrule()
          .(slot := w.slot.MarkCancelled(request), cancelled := w.cancelled + {request})
    case Shutdown => w.Wake().Overrule().(slot := w.slot.(action := Reject), cancelAll := true)
    case NewChat => w.(cancelAll := false)
    case Finalise(request) => w.(slot := w.slot.ClearRequest(request), cancelled := w.cancelled - {request})
    case Touch(files) => w.(files := files)
    case Tick => w.(clock := w.clock + 1)
    case Timeout(call) => w.Overrule().(slot := w.slot.(action := Reject)).End(call, RolledBack)
    case Resume(call) => w.End(call, if w.slot.action == Accept then Kept else RolledBack)
    case Kill(call) => w.End(call, Killed)
  }

  ghost predicate IsRun(w: World, run: seq<Step>)
    decreases |run|
  {
    run == [] || (Enabled(w, run[0]) && IsRun(Next(w, run[0]), run[1..]))
  }

  function Exec(w: World, run: seq<Step>): World
    requires IsRun(w, run)
    decreases |run|
  {
    if run == [] then w else Exec(Next(w, run[0]), run[1..])
  }

  // Some hook has been decided and has not resumed yet.
  ghost predicate SomeDecided(w: World) {
    exists c :: w.Waits(c) && w.hooks[c].isSet
  }

  /** No review opens between the decision on another one and the moment its hook resumes. */
  ghost predicate Undisturbed(w: World, run: seq<Step>)
    requires IsRun(w, run)
    decreases |run|
  {
    run == [] || ((Opens(w, run[0]) ==> !SomeDecided(w)) && Undisturbed(Next(w, run[0]), run[1..]))
  }

  // A decided hook still owns the slot, whose action is the last word on its review. Hooks that a
  // later review has pushed out of the slot are undecided, and nothing can decide them any more.
  ghost predicate Inv(w: World) {
    && (forall c :: w.Waits(c) ==>
          && c in w.verdict && WellFormed(w.hooks[c].context)
          && if w.hooks[c].isSet then w.slot.decision == Some(c) && (w.slot.action == Accept <==> w.verdict[c])
             else !w.verdict[c])
    && (w.slot.decision.Some? ==>
          && w.Waits(w.slot.decision.value) && w.slot.review == ReviewId(w.slot.decision.value)
          && w.slot.request == w.hooks[w.slot.decision.value].request)
    && (forall c :: c in w.hooks && w.hooks[c].Over? ==>
          c in w.verdict && (w.hooks[c].ending == Kept ==> w.verdict[c]))
  }

  lemma EndInv(w: World, c: Call, ending: Ending)
    requires Inv(w) && w.Waits(c) && (ending == Kept ==> w.verdict[c])
    ensures Inv(w.End(c, ending))
  {}

  // Every waiting review is overruled, and the slot says so; a decided one need not resume first.
  lemma OverruleInv(w: World)
    requires Inv(w)
    ensures Inv(w.Overrule().(slot := w.slot.(action := Reject)))
  {}

  lemma WakeOverruleInv(w: World)
    requires Inv(w)
    ensures Inv(w.Wake().Overrule().(slot := w.slot.(action := Reject)))
  {}

  lemma StepInvEnding(w: World, s: Step)
    requires Inv(w) && Enabled(w, s) && (s.Timeout? || s.Resume? || s.Kill?)
    ensures Inv(Next(w, s))
  {
    match s
    case Timeout(call) =>
      OverruleInv(w);
      EndInv(w.Overrule().(slot := w.slot.(action := Reject)), call, RolledBack);
    case Resume(call) => EndInv(w, call, if w.slot.action == Accept then Kept else RolledBack);
    case Kill(call) => EndInv(w, call, Killed);
  }

  // A review that opens takes over the slot.
  lemma OpenInv(w: World, s: Step)
    requires Inv(w) && Enabled(w, s) && Opens(w, s) && !SomeDecided(w)
    ensures Inv(Next(w, s))
  {}

  lemma StepInvPostTool(w: World, s: Step)
    requires Inv(w) && Enabled(w, s) && s.PostTool? && (Opens(w, s) ==> !SomeDecided(w))
    ensures Inv(Next(w, s))
  {
    if Opens(w, s) {
      OpenInv(w, s);
    }
  }

  lemma DecideInv(w: World, s: Step)
    requires Inv(w) && s.Review?
    ensures Inv(Next(w, s))
  {}

  lemma CancelInv(w: World, request: string)
    requires Inv(w)
    ensures Inv(Next(w, Cancel(request)))
  {
    if request != "" && w.slot.CancelWakes(request) {
      WakeOverruleInv(w);
      SameReviews(w.Wake().Overrule().(slot := w.slot.(action := Reject)), w.cancelled + {request});
    } else if request != "" {
      OverruleInv(w);
      SameReviews(w.Overrule().(slot := w.slot.(action := Reject)), w.cancelled + {request});
    }
  }

  lemma SameReviews(w: World, cancelled: set<string>)
    requires Inv(w)
    ensures Inv(w.(cancelled := cancelled))
  {}

  lemma StepInvDeciding(w: World, s: Step)
    requires Inv(w) && (s.Review? || s.Cancel? || s.Shutdown?)
    ensures Inv(Next(w, s))
  {
    match s
    case Review(_, _) => DecideInv(w, s);
    case Cancel(request) => CancelInv(w, request);
    case Shutdown => WakeOverruleInv(w);
  }

  lemma StepInv(w: World, s: Step)
    requires Inv(w) && Enabled(w, s) && (Opens(w, s) ==> !SomeDecided(w))
    ensures Inv(Next(w, s))
  {
    match s
    case PostTool(_, _, _, _) => StepInvPostTool(w, s);
    case Review(_, _) => StepInvDeciding(w, s);
    case Cancel(_) => StepInvDeciding(w, s);
    case Shutdown => StepInvDeciding(w, s);
    case Timeout(_) => StepInvEnding(w, s);
    case Resume(_) => StepInvEnding(w, s);
    case Kill(_) => StepInvEnding(w, s);
    case _ =>
  }

  // ---------------------------------------------------------------------------------------------
  // Whom an event concerns
  // ---------------------------------------------------------------------------------------------

  // What an event leaves of a hook but for its own event, and of the files.
  ghost predicate OnlyWakes(w: World, n: World) {
    && n.files == w.files && n.hooks.Keys == w.hooks.Keys
    && forall c :: w.Waits(c) ==> n.Waits(c) && n.hooks[c] == w.hooks[c].(isSet := n.hooks[c].isSet)
  }

  /** A cancellation of a request wakes the review that owns the slot if it is of that request, and no
      other hook. */
  lemma CancelWakesOwn(w: World, request: string, c: Call)
    requires Inv(w) && request != "" && w.Waits(c)
    ensures var n := Next(w, Cancel(request));
      && OnlyWakes(w, n) && n.slot.action == Reject && request in n.cancelled
      && (n.hooks[c].isSet <==> w.hooks[c].isSet || (w.slot.decision == Some(c) && w.hooks[c].request == request))
  {}

  /** So the review in the slot is rolled back by a cancellation of its own request. */
  lemma CancelRollsBack(w: World, c: Call)
    requires Inv(w) && w.slot.decision == Some(c) && w.hooks[c].request != ""
    ensures var n := Next(w, Cancel(w.hooks[c].request));
      && Enabled(n, Resume(c))
      && Next(n, Resume(c)).hooks[c] == Over(w.hooks[c].context, RolledBack)
      && Agrees(w.hooks[c].context, Next(n, Resume(c)).files)
  {
    CancelWakesOwn(w, w.hooks[c].request, c);
    RewoundExact(w.hooks[c].context, w.files);
  }

  /** A review command decides the review that owns the slot if it names it, and wakes no other. */
  lemma DecidesNamed(w: World, review: string, action: Action, c: Call)
    requires Inv(w) && w.Waits(c)
    ensures var n := Next(w, Review(review, action));
      && OnlyWakes(w, n)
      && (n.hooks[c].isSet <==> w.hooks[c].isSet || (w.slot.decision == Some(c) && review == ReviewId(c)))
      && (w.slot.decision == Some(c) && review == ReviewId(c) ==>
            n.slot.action == action && (n.verdict[c] <==> action == Accept))
  {}

  /** The end of the backend wakes the review that owns the slot, to be rolled back. */
  lemma ShutdownWakes(w: World, c: Call)
    requires Inv(w) && w.Waits(c)
    ensures var n := Next(w, Shutdown);
      && OnlyWakes(w, n) && n.cancelAll && n.slot.action == Reject
      && (n.hooks[c].isSet <==> w.hooks[c].isSet || w.slot.decision == Some(c))
  {}

  /** What becomes of a tool call: without a context, or without changes, there is nothing to review; a
      cancelled request's files are rolled back at once; otherwise its hook waits. */
  lemma AfterTool(w: World, s: Step)
    requires Enabled(w, s) && s.PostTool?
    ensures var n := Next(w, s);
      var cancelled := w.cancelAll || (s.request != "" && s.request in w.cancelled);
      && (s.context.None? ==> n.hooks[s.call] == Over([], NothingToReview) && n.files == w.files)
      && (s.context.Some? && cancelled ==>
            n.hooks[s.call] == Over(s.context.value, RolledBack) && Agrees(s.context.value, n.files))
      && (s.context.Some? && !cancelled && Agrees(s.context.value, w.files) ==>
            n.hooks[s.call] == Over(s.context.value, NothingToReview) && n.files == w.files)
      && (s.context.Some? && !cancelled && !Agrees(s.context.value, w.files) ==>
            && n.hooks[s.call] == Waiting(s.context.value, s.request, s.began, w.clock, false)
            && n.slot.decision == Some(s.call) && n.files == w.files)
  {
    if s.context.Some? {
      NoChangesIff(s.context.value, w.files);
      RewoundExact(s.context.value, w.files);
    }
  }

  /** A new chat lifts the general cancellation, and the end of a request its own mark and its slot. */
  lemma Lifted(w: World, request: string)
    ensures !Next(w, NewChat).cancelAll && Next(w, NewChat).cancelled == w.cancelled
    ensures Enabled(w, Finalise(request)) ==>
      var n := Next(w, Finalise(request));
      && n.cancelled == w.cancelled - {request} && n.hooks == w.hooks && n.cancelAll == w.cancelAll
      && (request != "" ==> n.slot.request != request)
      && (w.slot.request != request ==> n.slot == w.slot)
  {}

  lemma {:induction false} RunInv(w: World, run: seq<Step>)
    requires Inv(w) && IsRun(w, run) && Undisturbed(w, run)
    ensures Inv(Exec(w, run))
    decreases |run|
  {
    if run != [] {
      StepInv(w, run[0]);
      RunInv(Next(w, run[0]), run[1..]);
    }
  }

  // The call whose hook a step brings to an end.
  predicate Ends(w: World, s: Step, c: Call) {
    (s.Timeout? && s.call == c) || (s.Resume? && s.call == c) || (s.Kill? && s.call == c)
      || (s.PostTool? && s.call == c && !Opens(w, s))
  }

  function ContextOf(w: World, s: Step, c: Call): seq<FileSnapshot> {
    if w.Waits(c) then w.hooks[c].context
    else if s.PostTool? && s.context.Some? then s.context.value
    else []
  }

  /** The step by which a hook returns leaves every tracked file as in its snapshot, unless the
      last word on its review was an explicit accept; a killed hook guarantees that exactly when
      it held already. */
  lemma EndSafe(w: World, s: Step, c: Call)
    requires Inv(w) && Enabled(w, s) && Ends(w, s, c)
    ensures var n := Next(w, s); var safe := Agrees(ContextOf(w, s, c), n.files) || (c in w.verdict && w.verdict[c]);
      && (!s.Kill? ==> safe)
      && (s.Kill? ==> (safe <==> Agrees(w.hooks[c].context, w.files) || w.verdict[c]))
  {
    var context := ContextOf(w, s, c);
    if s.PostTool? && s.context.None? {
    } else {
      NoChangesIff(context, w.files);
      RewoundExact(context, w.files);
    }
  }

  /** A review is kept exactly when its last word is accept: a reject command, a timeout or any
      cancellation after it means rollback to the snapshot, whatever came before. */
  lemma KeptIff(w: World, c: Call)
    requires Inv(w) && Enabled(w, Resume(c))
    ensures Next(w, Resume(c)).hooks[c].ending == Kept <==> w.verdict[c]
    ensures !w.verdict[c] ==> Agrees(w.hooks[c].context, Next(w, Resume(c)).files)
  {
    RewoundExact(w.hooks[c].context, w.files);
  }

  function Start(files: Files, reviewTimeout: nat, hookTimeout: nat): World {
    World(files, Slot(None, Accept, "", ""), map[], {}, false, 0, reviewTimeout, hookTimeout, map[])
  }

  lemma StepNoVerdict(w: World, s: Step, c: Call)
    requires Inv(w) && Enabled(w, s) && s != Review(ReviewId(c), Accept)
    requires c in w.verdict ==> !w.verdict[c]
    ensures c in Next(w, s).verdict ==> !Next(w, s).verdict[c]
  {
    if s.Review? && w.slot.Matches(s.review) && w.slot.decision.value == c {
      assert s.review == ReviewId(c);
    }
  }

  lemma {:induction false} NoAcceptNoVerdict(w: World, run: seq<Step>, c: Call)
    requires Inv(w) && IsRun(w, run) && Undisturbed(w, run)
    requires Review(ReviewId(c), Accept) !in run
    requires c in w.verdict ==> !w.verdict[c]
    ensures c in Exec(w, run).verdict ==> !Exec(w, run).verdict[c]
    decreases |run|
  {
    if run != [] {
      assert run[0] in run;
      StepInv(w, run[0]);
      StepNoVerdict(w, run[0], c);
      NoAcceptNoVerdict(Next(w, run[0]), run[1..], c);
    }
  }

  /** Over whole runs: changes survive a review only if an accept command named that review. */
  lemma KeptWasAccepted(files: Files, reviewTimeout: nat, hookTimeout: nat, run: seq<Step>, c: Call)
    requires IsRun(Start(files, reviewTimeout, hookTimeout), run)
    requires Undisturbed(Start(files, reviewTimeout, hookTimeout), run)
    requires var w := Exec(Start(files, reviewTimeout, hookTimeout), run);
      c in w.hooks && w.hooks[c].Over? && w.hooks[c].ending == Kept
    ensures Review(ReviewId(c), Accept) in run
  {
    var w := Start(files, reviewTimeout, hookTimeout);
    RunInv(w, run);
    if Review(ReviewId(c), Accept) !in run {
      NoAcceptNoVerdict(w, run, c);
      assert false;
    }
  }

  /** So over whole runs in which no review opens over a decided one: every hook that returns
      leaves its files as in their snapshots or had its changes accepted by name. */
  lemma ReviewSafety(files: Files, reviewTimeout: nat, hookTimeout: nat, run: seq<Step>, s: Step, c: Call)
    requires IsRun(Start(files, reviewTimeout, hookTimeout), run)
    requires Undisturbed(Start(files, reviewTimeout, hookTimeout), run)
    requires var w := Exec(Start(files, reviewTimeout, hookTimeout), run);
      Enabled(w, s) && Ends(w, s, c) && !s.Kill?
    ensures var w := Exec(Start(files, reviewTimeout, hookTimeout), run);
      Agrees(ContextOf(w, s, c), Next(w, s).files) || Review(ReviewId(c), Accept) in run
  {
    var start := Start(files, reviewTimeout, hookTimeout);
    RunInv(start, run);
    EndSafe(Exec(start, run), s, c);
    if Review(ReviewId(c), Accept) !in run {
      NoAcceptNoVerdict(start, run, c);
    }
  }

  // ---------------------------------------------------------------------------------------------
  // Overlapping reviews
  // ---------------------------------------------------------------------------------------------

  lemma {:induction false} ExecConcat(w: World, run: seq<Step>, more: seq<Step>)
    requires IsRun(w, run) && IsRun(Exec(w, run), more)
    ensures IsRun(w, run + more) && Exec(w, run + more) == Exec(Exec(w, run), more)
    decreases |run|
  {
    if run == [] {
      assert run + more == more;
    } else {
      assert (run + more)[1..] == run[1..] + more;
      ExecConcat(Next(w, run[0]), run[1..], more);
    }
  }

  lemma Once(w: World, s: Step)
    requires Enabled(w, s)
    ensures IsRun(w, [s]) && Exec(w, [s]) == Next(w, s)
    ensures Undisturbed(w, [s]) <==> (Opens(w, s) ==> !SomeDecided(w))
  {
    assert [s][1..] == [];
  }

  lemma Twice(w: World, s: Step, t: Step)
    requires Enabled(w, s) && Enabled(Next(w, s), t)
    ensures IsRun(w, [s, t]) && Exec(w, [s, t]) == Next(Next(w, s), t)
    ensures Undisturbed(w, [s, t])
      <==> (Opens(w, s) ==> !SomeDecided(w)) && (Opens(Next(w, s), t) ==> !SomeDecided(Next(w, s)))
  {
    assert [s, t][1..] == [t];
    Once(Next(w, s), t);
  }

  /** A hook resumes and keeps its changes against the last word on its review. */
  ghost predicate KeptAgainst(w: World, run: seq<Step>, c: Call) {
    && IsRun(w, run) && Undisturbed(w, run)
    && var n := Exec(w, run);
       && Enabled(n, Resume(c)) && c in n.verdict && !n.verdict[c]
       && Next(n, Resume(c)).hooks[c].ending == Kept
  }

  // Opening a review resets the shared action to accept, which a decided hook then takes for its own.
  lemma OpenMisleads(w: World, open: Step, a: Call)
    requires Inv(w) && w.Waits(a) && w.hooks[a].isSet && Enabled(w, open) && Opens(w, open)
    ensures var n := Next(w, open);
      && open.call != a && n.Waits(a) && n.hooks[a] == w.hooks[a] && n.verdict[a] == w.verdict[a]
      && n.slot.Matches(ReviewId(open.call)) && n.slot.decision == Some(open.call) && n.slot.action == Accept
      && Enabled(n, Resume(a)) && Next(n, Resume(a)).hooks[a].ending == Kept && Next(n, Resume(a)).files == w.files
  {}

  // Even an accepted one: a cancellation overrules it, and accepting the new review revives it.
  lemma AcceptRevives(w: World, a: Call, b: Call) returns (run: seq<Step>)
    requires w.Waits(a) && w.hooks[a].isSet && a in w.verdict && a != b
    requires w.slot.decision == Some(b) && w.slot.Matches(ReviewId(b))
    ensures KeptAgainst(w, run, a)
  {
    run := [Cancel("x"), Review(ReviewId(b), Accept)];
    CancelOverrules(w, a, b);
    AcceptOther(Next(w, run[0]), a, b);
    Twice(w, run[0], run[1]);
  }

  lemma CancelOverrules(w: World, a: Call, b: Call)
    requires w.Waits(a) && w.hooks[a].isSet && a in w.verdict && a != b
    requires w.slot.decision == Some(b) && w.slot.Matches(ReviewId(b))
    ensures var n := Next(w, Cancel("x"));
      && n.Waits(a) && n.hooks[a].isSet && a in n.verdict && !n.verdict[a]
      && n.slot.decision == Some(b) && n.slot.Matches(ReviewId(b))
  {}

  lemma AcceptOther(w: World, a: Call, b: Call)
    requires w.Waits(a) && w.hooks[a].isSet && a in w.verdict && !w.verdict[a] && a != b
    requires w.slot.decision == Some(b) && w.slot.Matches(ReviewId(b))
    ensures var n := Next(w, Review(ReviewId(b), Accept));
      && Enabled(n, Resume(a)) && a in n.verdict && !n.verdict[a]
      && Next(n, Resume(a)).hooks[a].ending == Kept
  {}

  /** Opening a review makes it possible that some hook keeps its changes against the last word on
      them, exactly when another hook has been decided and has not resumed. */
  lemma OverlapIff(w: World, open: Step)
    requires Inv(w) && Enabled(w, open) && Opens(w, open)
    ensures (exists run, c :: KeptAgainst(Next(w, open), run, c)) <==> SomeDecided(w)
  {
    var n := Next(w, open);
    if SomeDecided(w) {
      var a :| w.Waits(a) && w.hooks[a].isSet;
      OpenMisleads(w, open, a);
      if w.verdict[a] {
        var run := AcceptRevives(n, a, open.call);
      } else {
        assert KeptAgainst(n, [], a);
      }
    } else if exists run, c :: KeptAgainst(n, run, c) {
      var run, c :| KeptAgainst(n, run, c);
      StepInv(w, open);
      RunInv(n, run);
      KeptIff(Exec(n, run), c);
    }
  }

  /** If its review was never accepted, the run goes on to keep its changes without any accept. */
  lemma OverlapKeepsUnaccepted(files: Files, reviewTimeout: nat, hookTimeout: nat, run: seq<Step>, open: Step, a: Call)
    requires IsRun(Start(files, reviewTimeout, hookTimeout), run)
    requires Undisturbed(Start(files, reviewTimeout, hookTimeout), run)
    requires var w := Exec(Start(files, reviewTimeout, hookTimeout), run);
      Enabled(w, open) && Opens(w, open) && w.Waits(a) && w.hooks[a].isSet
    requires Review(ReviewId(a), Accept) !in run
    ensures var start := Start(files, reviewTimeout, hookTimeout); var more := run + [open, Resume(a)];
      && Review(ReviewId(a), Accept) !in more && IsRun(start, more)
      && a in Exec(start, more).hooks && Exec(start, more).hooks[a] == Over(Exec(start, run).hooks[a].context, Kept)
      && Exec(start, more).files == Exec(start, run).files
  {
    var start := Start(files, reviewTimeout, hookTimeout);
    RunInv(start, run);
    var w := Exec(start, run);
    OpenMisleads(w, open, a);
    Twice(w, open, Resume(a));
    ExecConcat(start, run, [open, Resume(a)]);
  }

  function Created(path: Path): seq<FileSnapshot> {
    [FileSnapshot(path, false, None)]
  }

  // A tool call whose snapshot says that `path` did not exist.
  function Creation(call: Call, request: string, path: Path, began: nat): Step {
    PostTool(call, request, Some(Created(path)), began)
  }

  lemma CreationOpens(w: World, call: Call, request: string, path: Path, began: nat)
    requires path in w.files && call !in w.hooks && began <= w.clock
    requires !w.cancelAll && request !in w.cancelled
    ensures Enabled(w, Creation(call, request, path, began)) && Opens(w, Creation(call, request, path, began))
    ensures !Agrees(Created(path), w.files)
  {
    assert Changes(Created(path), w.files) == Changes([], w.files) + Change(Created(path)[0], w.files);
    NoChangesIff(Created(path), w.files);
  }

  // One chat has created a file, and the change has been rejected.
  lemma Rejected(files: Files) returns (run: seq<Step>, w: World)
    requires "a" in files
    ensures run == [Creation("1", "r1", "a", 0), Review(ReviewId("1"), Reject)]
    ensures IsRun(Start(files, 90, 30), run) && Undisturbed(Start(files, 90, 30), run)
    ensures w == Exec(Start(files, 90, 30), run) && w.files == files && w.hooks.Keys == {"1"}
    ensures w.hooks["1"] == Waiting(Created("a"), "r1", 0, 0, true) && !w.cancelAll && w.cancelled == {}
  {
    var start := Start(files, 90, 30);
    run := [Creation("1", "r1", "a", 0), Review(ReviewId("1"), Reject)];
    CreationOpens(start, "1", "r1", "a", 0);
    w := Next(Next(start, run[0]), run[1]);
    Twice(start, run[0], run[1]);
  }

  /** Two chats that each create a file: the first change is rejected, the second review opens
      before the first hook resumes, and the rejected file stays. */
  lemma RejectedButKept(files: Files) returns (run: seq<Step>)
    requires "a" in files && "b" in files
    ensures IsRun(Start(files, 90, 30), run)
    ensures Review(ReviewId("1"), Reject) in run && Review(ReviewId("1"), Accept) !in run
    ensures var w := Exec(Start(files, 90, 30), run);
      "1" in w.hooks && w.hooks["1"] == Over(Created("a"), Kept) && !Agrees(Created("a"), w.files)
  {
    var w;
    run, w := Rejected(files);
    CreationOpens(w, "2", "r2", "b", 0);
    CreationOpens(Start(files, 90, 30), "1", "r1", "a", 0);
    OverlapKeepsUnaccepted(files, 90, 30, run, Creation("2", "r2", "b", 0), "1");
    assert run[1] in run + [Creation("2", "r2", "b", 0), Resume("1")];
    run := run + [Creation("2", "r2", "b", 0), Resume("1")];
  }

  // ---------------------------------------------------------------------------------------------
  // Which timer fires
  // ---------------------------------------------------------------------------------------------

  ghost predicate InOrder(w: World) {
    forall c :: w.Waits(c) ==> w.hooks[c].began <= w.hooks[c].since
  }

  lemma StepInOrder(w: World, s: Step)
    requires InOrder(w) && Enabled(w, s)
    ensures InOrder(Next(w, s))
    ensures Next(w, s).reviewTimeout == w.reviewTimeout && Next(w, s).hookTimeout == w.hookTimeout
  {}

  lemma {:induction false} RunInOrder(w: World, run: seq<Step>)
    requires InOrder(w) && IsRun(w, run)
    ensures InOrder(Exec(w, run))
    ensures Exec(w, run).reviewTimeout == w.reviewTimeout && Exec(w, run).hookTimeout == w.hookTimeout
    decreases |run|
  {
    if run != [] {
      StepInOrder(w, run[0]);
      RunInOrder(Next(w, run[0]), run[1..]);
    }
  }

  ghost predicate ReviewCanTimeOut(w: World) {
    exists run, c :: IsRun(w, run) && Enabled(Exec(w, run), Timeout(c))
  }

  lemma {:induction false} Ticks(w: World, c: Call, n: nat) returns (run: seq<Step>)
    requires w.Waits(c) && forall d :: w.Waits(d) ==> d == c
    requires !w.hooks[c].isSet && w.clock + n == w.hooks[c].since + w.reviewTimeout && w.reviewTimeout > 0
    requires w.hookTimeout == 0 || (w.reviewTimeout < w.hookTimeout && w.hooks[c].began == w.hooks[c].since)
    ensures IsRun(w, run) && Enabled(Exec(w, run), Timeout(c))
    decreases n
  {
    if n == 0 {
      run := [];
    } else {
      assert Enabled(w, Tick);
      assert forall d :: Next(w, Tick).Waits(d) ==> w.Waits(d);
      var rest := Ticks(Next(w, Tick), c, n - 1);
      run := [Tick] + rest;
      assert run[1..] == rest;
    }
  }

  /** The rollback after a review timeout can happen at all, from any start, exactly when the engine's
      limit on the hook is longer; otherwise an unattended review ends killed, its changes in place. */
  lemma TimeoutIff(files: Files, reviewTimeout: nat, hookTimeout: nat)
    ensures ReviewCanTimeOut(Start(files, reviewTimeout, hookTimeout))
        <==> reviewTimeout > 0 && (hookTimeout == 0 || reviewTimeout < hookTimeout)
  {
    var w := Start(files, reviewTimeout, hookTimeout);
    if ReviewCanTimeOut(w) {
      var run, c :| IsRun(w, run) && Enabled(Exec(w, run), Timeout(c));
      RunInOrder(w, run);
    }
    if reviewTimeout > 0 && (hookTimeout == 0 || reviewTimeout < hookTimeout) {
      var written := files["a" := "x"];
      var rest := Unattended(written, "a", reviewTimeout, hookTimeout);
      assert Next(w, Touch(written)) == Start(written, reviewTimeout, hookTimeout);
      var run := [Touch(written)] + rest;
      assert run[0] == Touch(written) && run[1..] == rest;
      assert IsRun(w, run) && Enabled(Exec(w, run), Timeout("c"));
    }
  }

  // The review of a file that a tool has created, left alone until it times out.
  lemma Unattended(files: Files, path: Path, reviewTimeout: nat, hookTimeout: nat) returns (run: seq<Step>)
    requires path in files && reviewTimeout > 0 && (hookTimeout == 0 || reviewTimeout < hookTimeout)
    ensures var w := Start(files, reviewTimeout, hookTimeout);
      IsRun(w, run) && Enabled(Exec(w, run), Timeout("c"))
  {
    var w := Start(files, reviewTimeout, hookTimeout);
    var open := Creation("c", "r", path, 0);
    CreationOpens(w, "c", "r", path, 0);
    assert Next(w, open).hooks == map["c" := Waiting(Created(path), "r", 0, 0, false)];
    var rest := Ticks(Next(w, open), "c", reviewTimeout);
    run := [open] + rest;
    assert run[0] == open && run[1..] == rest;
  }

  // Nothing happens until the engine's limit on the hook is reached.
  lemma {:induction false} TicksToKill(w: World, c: Call, n: nat) returns (run: seq<Step>)
    requires w.Waits(c) && forall d :: w.Waits(d) ==> d == c
    requires !w.hooks[c].isSet && w.clock + n == w.hooks[c].began + w.hookTimeout && w.hookTimeout > 0
    requires w.reviewTimeout == 0 || (w.hookTimeout <= w.reviewTimeout && w.hooks[c].began == w.hooks[c].since)
    ensures IsRun(w, run) && Enabled(Exec(w, run), Kill(c)) && Exec(w, run).files == w.files
    ensures Exec(w, run).hooks == w.hooks
    decreases n
  {
    if n == 0 {
      run := [];
    } else {
      assert forall d :: Next(w, Tick).Waits(d) ==> w.Waits(d);
      var rest := TicksToKill(Next(w, Tick), c, n - 1);
      run := [Tick] + rest;
      assert run[1..] == rest;
    }
  }

  /** Unless the engine's limit is longer, an unattended review of a created file ends killed, the file
      still there. */
  lemma UnattendedKilled(files: Files, path: Path, reviewTimeout: nat, hookTimeout: nat) returns (run: seq<Step>)
    requires path in files && hookTimeout > 0 && (reviewTimeout == 0 || hookTimeout <= reviewTimeout)
    ensures var w := Start(files, reviewTimeout, hookTimeout);
      && IsRun(w, run) && Enabled(Exec(w, run), Kill("c"))
      && var n := Next(Exec(w, run), Kill("c"));
         n.hooks["c"] == Over(Created(path), Killed) && n.files == files && !Agrees(Created(path), n.files)
  {
    var w := Start(files, reviewTimeout, hookTimeout);
    var open := Creation("c", "r", path, 0);
    CreationOpens(w, "c", "r", path, 0);
    assert Next(w, open).hooks == map["c" := Waiting(Created(path), "r", 0, 0, false)];
    var rest := TicksToKill(Next(w, open), "c", hookTimeout);
    run := [open] + rest;
    assert run[0] == open && run[1..] == rest;
  }
}
