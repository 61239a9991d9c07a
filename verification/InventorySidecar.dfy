/**
 The client of the inventory sidecar, a process that answers JSON-RPC requests on its standard
 output. Calls are serialised by a lock; a call reads lines until one carries its id. Lines that
 a call leaves unread stay in the pipe for the next one, and a dead process is replaced.
 */
module InventorySidecar {
  import opened Basics

  /** The `id` of a message as JSON; Python compares numbers and booleans by value. */
  datatype Id = NoId | IntId(n: int) | RealId(r: real) | BoolId(b: bool) | TextId(text: string)

  predicate Same(id: Id, n: int) {
    match id
    case IntId(k) => k == n
    case RealId(r) => r == n as real
    case BoolId(b) => n == if b then 1 else 0
    case _ => false
  }

  datatype Line =
    | Junk  // not JSON, or not an object
    | Message(id: Id, error: bool, payload: string)

  /** What a read can yield: a line, no line before the timeout, end of file, or nothing because the
      process turns out to have exited. */
  datatype Read = Got(line: Line) | Silence | Closed | Exited

  datatype Outcome =
    | Reply(line: Line)
    | RemoteError(line: Line)
    | TimedOut
    | ClosedStdout
    | ProcessExited
    | NotStarted
    | WriteFailed

  /** An id answers a call exactly if it is the same number, as JSON numbers and Python booleans go. */
  lemma SameIff(id: Id, n: int)
    ensures id.IntId? ==> (Same(id, n) <==> id.n == n)
    ensures id.RealId? ==> (Same(id, n) <==> id.r.Floor == n && id.r == id.r.Floor as real)
    ensures id.BoolId? ==> (Same(id, n) <==> (id.b && n == 1) || (!id.b && n == 0))
    ensures id.NoId? || id.TextId? ==> !Same(id, n)
  {}

  predicate Answers(read: Read, id: int) {
    read.Got? && read.line.Message? && Same(read.line.id, id)
  }

  // What a read means for the call with this id; lines for others and junk mean nothing.
  function Verdict(read: Read, id: int): Outcome
    requires !read.Got? || Answers(read, id)
  {
    match read
    case Got(line) => if line.error then RemoteError(line) else Reply(line)
    case Silence => TimedOut
    case Closed => ClosedStdout
    case Exited => ProcessExited
  }

  predicate Skipped(read: Read, id: int) {
    read.Got? && !Answers(read, id)
  }

  /** The number of reads a call skips. */
  function Skips(rs: seq<Read>, id: int): (k: nat)
    ensures k <= |rs|
    ensures forall j :: 0 <= j < k ==> Skipped(rs[j], id)
    ensures k < |rs| ==> !Skipped(rs[k], id)
  {
    if rs != [] && Skipped(rs[0], id) then 1 + Skips(rs[1..], id) else 0
  }

  function OutcomeOf(rs: seq<Read>, id: int): Outcome {
    var k := Skips(rs, id);
    if k == |rs| then TimedOut else Verdict(rs[k], id)
  }

  function Unread(rs: seq<Read>, id: int): seq<Read> {
    var k := Skips(rs, id);
    if k == |rs| then [] else rs[k + 1..]
  }

  // Before each read the process may turn out to have exited, whatever it has left in the pipe:
  // `exits` is the number of reads after which it does, if the call gets that far.
  function Observed(rs: seq<Read>, id: int, exits: Option<nat>): seq<Read> {
    if exits.Some? && exits.value <= Skips(rs, id) then rs[..exits.value] + [Exited] else rs
  }

  lemma ExitEnds(rs: seq<Read>, id: int, exits: Option<nat>)
    requires OutcomeOf(Observed(rs, id, exits), id) != ProcessExited
    ensures Observed(rs, id, exits) == rs
  {
    if exits.Some? && exits.value <= Skips(rs, id) {
      SkipsAre(rs[..exits.value] + [Exited], id, exits.value);
    }
  }

  // Junk, or a message for another call, as far as integer ids go.
  predicate Foreign(read: Read, id: int) {
    read.Got? && (read.line.Junk? || (read.line.id.IntId? && read.line.id.n != id))
  }

  // The first read that is not foreign is at `k`.
  predicate ForeignBefore(rs: seq<Read>, id: int, k: nat) {
    k < |rs| && forall j :: 0 <= j < k ==> Foreign(rs[j], id)
  }

  // What a call gets out of its reads, in terms of integer ids.
  ghost predicate Correlated(rs: seq<Read>, id: int, outcome: Outcome) {
    && ((outcome.Reply? || outcome.RemoteError?) && outcome.line.Message? && outcome.line.id.IntId? ==>
          outcome.line.id.n == id)
    && (forall k: nat :: ForeignBefore(rs, id, k) ==>
          match rs[k]
          case Got(Message(IntId(n), error, payload)) =>
            n == id ==> outcome == if error then RemoteError(rs[k].line) else Reply(rs[k].line)
          case Silence => outcome == TimedOut
          case Closed => outcome == ClosedStdout
          case Exited => outcome == ProcessExited
          case _ => true)
    && ((forall read :: read in rs ==> Foreign(read, id)) ==> outcome == TimedOut)
  }

  lemma {:induction false} OutcomeCorrelated(rs: seq<Read>, id: int)
    ensures Correlated(rs, id, OutcomeOf(rs, id))
  {
    forall k: nat | ForeignBefore(rs, id, k) && !Skipped(rs[k], id)
      ensures Skips(rs, id) == k
    {
      SkipsAre(rs, id, k);
    }
    var k := Skips(rs, id);
    if k < |rs| {
      assert rs[k] in rs;
    }
  }

  lemma {:induction false} SkipsAtLeast(rs: seq<Read>, id: int, n: nat)
    requires n <= |rs| && forall j :: 0 <= j < n ==> Skipped(rs[j], id)
    ensures Skips(rs, id) >= n
  {
    if n > 0 {
      SkipsAtLeast(rs[1..], id, n - 1);
    }
  }

  // A process that turns out to have exited while the call has only seen foreign lines.
  lemma ExitSeen(rs: seq<Read>, id: int, n: nat)
    requires n <= |rs| && forall j :: 0 <= j < n ==> Foreign(rs[j], id)
    ensures OutcomeOf(Observed(rs, id, Some(n)), id) == ProcessExited
  {
    SkipsAtLeast(rs, id, n);
    SkipsAre(rs[..n] + [Exited], id, n);
  }

  // ---------------------------------------------------------------------------------------------
  // The client object
  // ---------------------------------------------------------------------------------------------

  class Process {
    var alive: bool
    var pipe: seq<Read>

    constructor ()
      ensures alive && pipe == []
    {
      alive, pipe := true, [];
    }

    // Reads until a line answers the call or the process cannot; an exhausted pipe times out.
    method ReadReply(id: int) returns (outcome: Outcome)
      requires alive
      modifies this
      ensures outcome == OutcomeOf(old(pipe), id) && pipe == Unread(old(pipe), id)
      ensures alive == !outcome.ProcessExited?
      ensures Correlated(old(pipe), id, outcome)
    {
      OutcomeCorrelated(pipe, id);
      ghost var k: nat := 0;
      while pipe != []
        invariant alive && k <= Skips(old(pipe), id)
        invariant pipe == old(pipe)[k..]
        decreases |pipe|
      {
        var read := pipe[0];
        pipe := pipe[1..];
        if !read.Got? || (read.line.Message? && Same(read.line.id, id)) {
          alive := read != Exited;
          match read
          case Exited => return ProcessExited;
          case Silence => return TimedOut;
          case Closed => return ClosedStdout;
          case Got(line) => return if line.error then RemoteError(line) else Reply(line);
        }
        k := k + 1;
      }
      return TimedOut;
    }
  }

  class SidecarClient {
    var proc: Process?
    var nextId: int

    constructor ()
      ensures proc == null && nextId == 1
    {
      proc, nextId := null, 1;
    }

    ghost predicate Running()
      reads this, proc
    {
      proc != null && proc.alive
    }

    // What is waiting to be read.
    ghost function Pipe(): seq<Read>
      reads this, proc
    {
      if proc != null && proc.alive then proc.pipe else []
    }

    method Close()
      modifies this, proc
      ensures proc == null && nextId == old(nextId)
      ensures old(proc) != null ==> !old(proc).alive
    {
      if proc != null {
        proc.alive := false;
      }
      proc := null;
    }

    method EnsureStarted(spawns: bool) returns (ok: bool)
      modifies this, proc
      ensures ok <==> old(Running()) || spawns
      ensures ok <==> Running()
      ensures nextId == old(nextId) && Pipe() == old(Pipe())
      ensures old(Running()) ==> proc == old(proc)
      ensures proc != null ==> proc == old(proc) || fresh(proc)
    {
      if proc != null && proc.alive {
        return true;
      }
      Close();
      if spawns {
        proc := new Process();
      }
      return spawns;
    }

    // The client as the calls below see it.
    ghost function View(): State
      reads this, proc
    {
      State(proc != null && proc.alive, nextId, Pipe())
    }

    /** `arriving` is what the process writes while the call lasts; after it, silence. A call whose
        request cannot be written ends at once, after it has taken its id. */
    method Request(spawns: bool, writes: bool, arriving: seq<Read>, exits: Option<nat>)
        returns (outcome: Outcome)
      modifies this, proc
      ensures !old(Running()) && !spawns ==> outcome == NotStarted && nextId == old(nextId)
      ensures Follows(old(View()), Call(false, spawns, writes, arriving, exits), View(), outcome)
      ensures (old(Running()) || spawns) && !writes ==>
        outcome == WriteFailed && nextId == old(nextId) + 1 && Running() && Pipe() == old(Pipe()) + arriving
      ensures (old(Running()) || spawns) && writes ==>
        && nextId == old(nextId) + 1
        && outcome == OutcomeOf(Observed(old(Pipe()) + arriving, old(nextId), exits), old(nextId))
        && (exits.None? ==> Correlated(old(Pipe()) + arriving, old(nextId), outcome))
        && (exits.Some? && exits.value <= |old(Pipe()) + arriving| &&
            (forall j :: 0 <= j < exits.value ==> Foreign((old(Pipe()) + arriving)[j], old(nextId))) ==>
              outcome == ProcessExited)
        && Running() == !outcome.ProcessExited?
        && (Running() ==> Pipe() == Unread(old(Pipe()) + arriving, old(nextId)))
    {
      var started := EnsureStarted(spawns);
      if !started {
        return NotStarted;
      }
      var id := nextId;
      nextId := nextId + 1;
      if !writes {
        proc.pipe := proc.pipe + arriving;
        return WriteFailed;
      }
      ghost var all := proc.pipe + arriving;
      if exits.Some? && exits.value <= |all| && forall j :: 0 <= j < exits.value ==> Foreign(all[j], id) {
        ExitSeen(all, id, exits.value);
      }
      proc.pipe := Observed(proc.pipe + arriving, id, exits);
      outcome := proc.ReadReply(id);
      if !outcome.ProcessExited? {
        ExitEnds(old(Pipe()) + arriving, id, exits);
      }
    }
  }

  // ---------------------------------------------------------------------------------------------
  // Sessions of calls
  // ---------------------------------------------------------------------------------------------

  /** `crashed`: the process is found dead before the call; `writes`: the request can be written. */
  datatype Call = Call(crashed: bool, spawns: bool, writes: bool, arriving: seq<Read>, exits: Option<nat>)

  datatype State = State(running: bool, nextId: int, pipe: seq<Read>)

  function Available(s: State, c: Call): seq<Read> {
    (if s.running && !c.crashed then s.pipe else []) + c.arriving
  }

  function Pipe(s: State, c: Call): seq<Read> {
    Observed(Available(s, c), s.nextId, c.exits)
  }

  predicate Starts(s: State, c: Call) {
    (s.running && !c.crashed) || c.spawns
  }

  function CallOutcome(s: State, c: Call): Outcome {
    if !Starts(s, c) then NotStarted
    else if !c.writes then WriteFailed
    else OutcomeOf(Pipe(s, c), s.nextId)
  }

  function After(s: State, c: Call): State {
    if !Starts(s, c) then State(false, s.nextId, [])
    else if !c.writes then State(true, s.nextId + 1, Available(s, c))
    else State(!CallOutcome(s, c).ProcessExited?, s.nextId + 1, Unread(Pipe(s, c), s.nextId))
  }

  // One call: its outcome and what it leaves, a pipe only if the process lives on.
  predicate Follows(s: State, c: Call, n: State, outcome: Outcome) {
    && outcome == CallOutcome(s, c) && n.running == After(s, c).running && n.nextId == After(s, c).nextId
    && (n.running ==> n.pipe == After(s, c).pipe)
  }

  /** A call that finds its process dead goes as one that finds none: nothing of the old pipe is read. */
  lemma CrashedExact(s: State, c: Call)
    requires c.crashed
    ensures var none, fresh' := State(false, s.nextId, []), c.(crashed := false);
      CallOutcome(s, c) == CallOutcome(none, fresh') && After(s, c) == After(none, fresh')
  {}

  function Play(s: State, calls: seq<Call>): State {
    if calls == [] then s else After(Play(s, calls[..|calls| - 1]), calls[|calls| - 1])
  }

  // The state before call `k`.
  function Before(s: State, calls: seq<Call>, k: nat): State
    requires k <= |calls|
  {
    Play(s, calls[..k])
  }

  /** A call returns a line exactly when that line carries its id and only junk, or lines for
      other calls, come before it: no timeout, end of file or exit, and no earlier answer. */
  lemma OwnReplyIff(rs: seq<Read>, id: int, line: Line)
    requires line.Message?
    ensures OutcomeOf(rs, id) == (if line.error then RemoteError(line) else Reply(line))
      <==> exists k :: 0 <= k < |rs| && rs[k] == Got(line) && Answers(rs[k], id)
             && forall j :: 0 <= j < k ==> Skipped(rs[j], id)
  {
    forall k | 0 <= k < |rs| && Answers(rs[k], id) && forall j :: 0 <= j < k ==> Skipped(rs[j], id)
      ensures Skips(rs, id) == k
    {
      SkipsAre(rs, id, k);
    }
  }

  lemma {:induction false} SkipsAre(rs: seq<Read>, id: int, k: nat)
    requires k < |rs| && !Skipped(rs[k], id) && forall j :: 0 <= j < k ==> Skipped(rs[j], id)
    ensures Skips(rs, id) == k
  {
    if k > 0 {
      assert Skipped(rs[0], id);
      SkipsAre(rs[1..], id, k - 1);
    }
  }

  lemma {:induction false} IdsGrow(s: State, calls: seq<Call>, j: nat, k: nat)
    requires j <= k <= |calls|
    ensures Before(s, calls, j).nextId <= Before(s, calls, k).nextId
    ensures j < k && Starts(Before(s, calls, j), calls[j]) ==>
      Before(s, calls, j).nextId < Before(s, calls, k).nextId
    decreases k - j
  {
    if j < k {
      assert calls[..k][..k - 1] == calls[..k - 1];
      IdsGrow(s, calls, j, k - 1);
    }
  }

  /** No two calls that took an id share it, even if the request was never written, and however often
      the process was replaced between. */
  lemma IdsUnique(s: State, calls: seq<Call>, j: nat, k: nat)
    requires j < k < |calls| && Starts(Before(s, calls, j), calls[j])
    ensures Before(s, calls, j).nextId != Before(s, calls, k).nextId
  {
    IdsGrow(s, calls, j, k);
  }

  /** A reply to an earlier call, late or repeated, is never returned by a later one; and what a
      call returns carries its own id. */
  lemma LateReplySkipped(s: State, calls: seq<Call>, j: nat, k: nat)
    requires j < k < |calls| && Starts(Before(s, calls, j), calls[j])
    ensures var outcome := CallOutcome(Before(s, calls, k), calls[k]);
      outcome.Reply? || outcome.RemoteError? ==>
        && outcome.line.Message? && Same(outcome.line.id, Before(s, calls, k).nextId)
        && !Same(outcome.line.id, Before(s, calls, j).nextId)
  {
    IdsUnique(s, calls, j, k);
  }

  lemma TimesOut(s: State)
    requires s.running && s.pipe == []
    ensures var first := Call(false, false, true, [Silence], None);
      CallOutcome(s, first) == TimedOut && After(s, first) == State(true, s.nextId + 1, [])
  {
    assert Pipe(s, Call(false, false, true, [Silence], None)) == [Silence];
  }

  lemma PassesStale(id: int, late: Line, own: Line, junk: seq<Read>)
    requires late.Message? && !Same(late.id, id) && own.Message? && !own.error && Same(own.id, id)
    requires forall r :: r in junk ==> r == Got(Junk)
    ensures OutcomeOf([Got(late)] + junk + [Got(own)], id) == Reply(own)
  {
    var rs := [Got(late)] + junk + [Got(own)];
    forall j | 0 <= j < |rs| - 1
      ensures Skipped(rs[j], id)
    {
      assert j > 0 ==> rs[j] == junk[j - 1] && junk[j - 1] in junk;
    }
    SkipsAre(rs, id, |rs| - 1);
  }

  lemma OnlyArriving(s: State, arriving: seq<Read>)
    requires s.running && s.pipe == []
    ensures Pipe(s, Call(false, false, true, arriving, None)) == arriving
  {
    assert [] + arriving == arriving;
  }

  /** A call that times out and whose reply comes late, and then another call: the second one gets
      its own reply, past the stale line. */
  lemma RecoversAfterTimeout(s: State, late: Line, own: Line, junk: seq<Read>)
    requires s.running && s.pipe == []
    requires late.Message? && late.id == IntId(s.nextId)
    requires own.Message? && !own.error && own.id == IntId(s.nextId + 1)
    requires forall r :: r in junk ==> r == Got(Junk)
    ensures var first := Call(false, false, true, [Silence], None);
      var second := Call(false, false, true, [Got(late)] + junk + [Got(own)], None);
      && CallOutcome(s, first) == TimedOut
      && CallOutcome(After(s, first), second) == Reply(own)
  {
    TimesOut(s);
    OnlyArriving(State(true, s.nextId + 1, []), [Got(late)] + junk + [Got(own)]);
    PassesStale(s.nextId + 1, late, own, junk);
  }

  // What a call consumes.
  function Consumed(s: State, c: Call): seq<Read> {
    if !Starts(s, c) || !c.writes then [] else
      var k := Skips(Pipe(s, c), s.nextId);
      if k == |Pipe(s, c)| then Pipe(s, c) else Pipe(s, c)[..k + 1]
  }

  function AllConsumed(s: State, calls: seq<Call>): seq<Read> {
    if calls == [] then [] else
      AllConsumed(s, calls[..|calls| - 1]) + Consumed(Play(s, calls[..|calls| - 1]), calls[|calls| - 1])
  }

  function AllArriving(calls: seq<Call>): seq<Read> {
    if calls == [] then [] else AllArriving(calls[..|calls| - 1]) + calls[|calls| - 1].arriving
  }

  // The calls are all served by the process that runs at the start.
  predicate OneProcess(s: State, calls: seq<Call>) {
    calls == [] || (
      var front, c := calls[..|calls| - 1], calls[|calls| - 1];
      OneProcess(s, front) && !c.crashed && !CallOutcome(Play(s, front), c).ProcessExited?)
  }

  /** While one process serves the calls, they consume its output in order, no read twice and none
      lost. */
  lemma {:induction false} PipeConserved(s: State, calls: seq<Call>)
    requires s.running && OneProcess(s, calls)
    ensures Play(s, calls).running
    ensures AllConsumed(s, calls) + Play(s, calls).pipe == s.pipe + AllArriving(calls)
  {
    if calls != [] {
      var front, c := calls[..|calls| - 1], calls[|calls| - 1];
      var t := Play(s, front);
      PipeConserved(s, front);
      ConsumedOrUnread(t, c);
      Weave(AllConsumed(s, front), t.pipe, Consumed(t, c), After(t, c).pipe, s.pipe, AllArriving(front), c.arriving);
    }
  }

  lemma ConsumedOrUnread(s: State, c: Call)
    requires s.running && !c.crashed && !CallOutcome(s, c).ProcessExited?
    ensures Consumed(s, c) + After(s, c).pipe == s.pipe + c.arriving
  {
    if c.writes {
      ExitEnds(s.pipe + c.arriving, s.nextId, c.exits);
    }
  }

  lemma Weave(before: seq<Read>, pipe: seq<Read>, consumed: seq<Read>, unread: seq<Read>,
              start: seq<Read>, arrived: seq<Read>, arriving: seq<Read>)
    requires before + pipe == start + arrived && consumed + unread == pipe + arriving
    ensures (before + consumed) + unread == start + (arrived + arriving)
  {
    calc {
      (before + consumed) + unread;
      before + (consumed + unread);
      before + (pipe + arriving);
      (before + pipe) + arriving;
      (start + arrived) + arriving;
      start + (arrived + arriving);
    }
  }
}
