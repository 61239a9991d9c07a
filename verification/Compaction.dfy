/**
 Conversation compaction: older messages are replaced by a recap while the system message and
 the most recent turns stay as they are.
 */
module Compaction {
  import opened Basics
  import Decimal
  import Strings = Text

  datatype Role = System | User | Assistant | Tool

  datatype ToolCall = ToolCall(id: string, name: string, arguments: string)

  /** A content block; `input` is the rendered JSON of a tool input. */
  datatype Block = Block(text: string, content: string, input: Option<string>)

  datatype Content = NoContent | Text(text: string) | Blocks(blocks: seq<Block>)

  datatype Message = Message(
    role: Role, reasoning: Option<string>, content: Content, toolCalls: seq<ToolCall>, toolCallId: string)

  // ---------------------------------------------------------------------------------------------
  // Token estimates: 3.7 characters a token
  // ---------------------------------------------------------------------------------------------

  function EstimateTokens(text: string): nat {
    if text == "" then 0 else Max(1, 10 * |text| / 37)
  }

  function BlockTokens(b: Block): nat {
    EstimateTokens(if b.text != "" then b.text else b.content)
      + match b.input case Some(json) => EstimateTokens(json) case None => 0
  }

  function Sum<T>(xs: seq<T>, f: T -> nat): nat {
    if xs == [] then 0 else Sum(xs[..|xs| - 1], f) + f(xs[|xs| - 1])
  }

  lemma {:induction false} SumConcat<T>(xs: seq<T>, ys: seq<T>, f: T -> nat)
    ensures Sum(xs + ys, f) == Sum(xs, f) + Sum(ys, f)
  {
    if ys == [] {
      assert xs + ys == xs;
    } else {
      assert (xs + ys)[..|xs + ys| - 1] == xs + ys[..|ys| - 1];
      SumConcat(xs, ys[..|ys| - 1], f);
    }
  }

  function CallTokens(tc: ToolCall): nat {
    EstimateTokens(tc.name) + EstimateTokens(tc.arguments)
  }

  function MessageTokens(m: Message): nat {
    4 + (match m.reasoning case Some(text) => EstimateTokens(text) case None => 0)
      + (match m.content
         case NoContent => 0
         case Text(text) => EstimateTokens(text)
         case Blocks(blocks) => Sum(blocks, BlockTokens))
      + Sum(m.toolCalls, CallTokens)
  }

  function Tokens(messages: seq<Message>): nat {
    Sum(messages, MessageTokens)
  }

  method EstimateMessageTokens(m: Message) returns (total: nat)
    ensures total == MessageTokens(m)
  {
    total := 4;
    if m.reasoning.Some? {
      total := total + EstimateTokens(m.reasoning.value);
    }
    if m.content.Text? {
      total := total + EstimateTokens(m.content.text);
    } else if m.content.Blocks? {
      var blocks := m.content.blocks;
      var base := total;
      for i := 0 to |blocks|
        invariant total == base + Sum(blocks[..i], BlockTokens)
      {
        assert blocks[..i + 1][..i] == blocks[..i];
        var text := if blocks[i].text != "" then blocks[i].text else blocks[i].content;
        total := total + EstimateTokens(text);
        if blocks[i].input.Some? {
          total := total + EstimateTokens(blocks[i].input.value);
        }
      }
      assert blocks[..|blocks|] == blocks;
    }
    var base := total;
    for i := 0 to |m.toolCalls|
      invariant total == base + Sum(m.toolCalls[..i], CallTokens)
    {
      assert m.toolCalls[..i + 1][..i] == m.toolCalls[..i];
      total := total + EstimateTokens(m.toolCalls[i].name);
      total := total + EstimateTokens(m.toolCalls[i].arguments);
    }
    assert m.toolCalls[..|m.toolCalls|] == m.toolCalls;
  }

  /** The estimate is the length divided by 3.7, rounded down, but at least one for a text that is not
      empty; so a longer text never has a smaller estimate. */
  lemma EstimateMonotone(a: string, b: string)
    requires |a| <= |b|
    ensures EstimateTokens(a) <= EstimateTokens(b)
    ensures 4 <= |a| ==> 37 * EstimateTokens(a) <= 10 * |a| < 37 * (EstimateTokens(a) + 1)
    ensures |a| < 4 ==> EstimateTokens(a) == if a == "" then 0 else 1
  {}

  // The texts of a block, and of a whole message.
  function BlockTexts(b: Block): seq<string> {
    [if b.text != "" then b.text else b.content] + if b.input.Some? then [b.input.value] else []
  }

  function Texts(m: Message): seq<string> {
    (if m.reasoning.Some? then [m.reasoning.value] else [])
      + (match m.content
         case NoContent => []
         case Text(text) => [text]
         case Blocks(blocks) => Gather(blocks, BlockTexts))
      + Gather(m.toolCalls, (tc: ToolCall) => [tc.name, tc.arguments])
  }

  function Gather<T>(xs: seq<T>, texts: T -> seq<string>): seq<string> {
    if xs == [] then [] else Gather(xs[..|xs| - 1], texts) + texts(xs[|xs| - 1])
  }

  lemma {:induction false} SumGather<T>(xs: seq<T>, texts: T -> seq<string>, tokens: T -> nat)
    requires forall x :: tokens(x) == Sum(texts(x), EstimateTokens)
    ensures Sum(xs, tokens) == Sum(Gather(xs, texts), EstimateTokens)
  {
    if xs != [] {
      SumGather(xs[..|xs| - 1], texts, tokens);
      SumConcat(Gather(xs[..|xs| - 1], texts), texts(xs[|xs| - 1]), EstimateTokens);
    }
  }

  lemma SumOfTwo(a: string, b: string)
    ensures Sum([a, b], EstimateTokens) == EstimateTokens(a) + EstimateTokens(b)
    ensures Sum([a], EstimateTokens) == EstimateTokens(a)
  {
    assert [a][..0] == [] && [b][..0] == [];
    SumConcat([a], [b], EstimateTokens);
    assert [a] + [b] == [a, b];
  }

  lemma BlockEstimate(b: Block)
    ensures BlockTokens(b) == Sum(BlockTexts(b), EstimateTokens)
  {
    var text := if b.text != "" then b.text else b.content;
    SumOfTwo(text, if b.input.Some? then b.input.value else "");
    assert b.input.None? ==> BlockTexts(b) == [text];
    assert b.input.Some? ==> BlockTexts(b) == [text, b.input.value];
  }

  lemma CallEstimate(tc: ToolCall)
    ensures CallTokens(tc) == Sum([tc.name, tc.arguments], EstimateTokens)
  {
    SumOfTwo(tc.name, tc.arguments);
  }

  /** A message costs four tokens and what each of its texts is estimated at: reasoning, content, and
      the names and arguments of its calls. */
  lemma MessageEstimate(m: Message)
    ensures MessageTokens(m) == 4 + Sum(Texts(m), EstimateTokens)
  {
    var reasoning := if m.reasoning.Some? then [m.reasoning.value] else [];
    var content := match m.content
      case NoContent => []
      case Text(text) => [text]
      case Blocks(blocks) => Gather(blocks, BlockTexts);
    var calls := Gather(m.toolCalls, (tc: ToolCall) => [tc.name, tc.arguments]);
    assert Texts(m) == reasoning + content + calls;
    SumConcat(reasoning + content, calls, EstimateTokens);
    SumConcat(reasoning, content, EstimateTokens);
    forall b ensures BlockTokens(b) == Sum(BlockTexts(b), EstimateTokens) { BlockEstimate(b); }
    forall tc ensures CallTokens(tc) == Sum([tc.name, tc.arguments], EstimateTokens) { CallEstimate(tc); }
    if m.reasoning.Some? {
      SumOfTwo(m.reasoning.value, "");
    }
    ContentEstimate(m.content, content);
    SumGather(m.toolCalls, (tc: ToolCall) => [tc.name, tc.arguments], CallTokens);
  }

  lemma ContentEstimate(content: Content, texts: seq<string>)
    requires texts == match content
      case NoContent => []
      case Text(text) => [text]
      case Blocks(blocks) => Gather(blocks, BlockTexts)
    ensures Sum(texts, EstimateTokens) == match content
      case NoContent => 0
      case Text(text) => EstimateTokens(text)
      case Blocks(blocks) => Sum(blocks, BlockTokens)
  {
    match content
    case NoContent =>
    case Text(text) => SumOfTwo(text, "");
    case Blocks(blocks) =>
      forall b ensures BlockTokens(b) == Sum(BlockTexts(b), EstimateTokens) { BlockEstimate(b); }
      SumGather(blocks, BlockTexts, BlockTokens);
  }

  // ---------------------------------------------------------------------------------------------
  // Splitting the window
  // ---------------------------------------------------------------------------------------------

  /** The threshold ratio is `num`/`den`; the default is 3/4. */
  datatype Policy = Policy(contextBudget: int, num: nat, den: nat, keepRecentTurns: int, keepSystem: bool)

  predicate IsUser(m: Message) {
    m.role == User
  }

  function Users(body: seq<Message>): nat {
    Sum(body, (m: Message) => if IsUser(m) then 1 else 0)
  }

  // Where the last `k` turns of the first `n` messages begin, walking back from there.
  function CutAt(body: seq<Message>, n: nat, k: nat): (c: nat)
    requires n <= |body|
    ensures c <= n
  {
    if k == 0 || n == 0 then n
    else CutAt(body, n - 1, if IsUser(body[n - 1]) then k - 1 else k)
  }

  function Cut(body: seq<Message>, k: nat): (c: nat)
    ensures c <= |body|
  {
    CutAt(body, |body|, k)
  }

  function SystemPart(p: Policy, messages: seq<Message>): seq<Message> {
    if p.keepSystem && messages != [] && messages[0].role == System then [messages[0]] else []
  }

  function Body(p: Policy, messages: seq<Message>): seq<Message> {
    messages[|SystemPart(p, messages)|..]
  }

  function Turns(p: Policy): nat {
    Max(0, p.keepRecentTurns)
  }

  function Replaced(p: Policy, messages: seq<Message>): seq<Message> {
    Body(p, messages)[..Cut(Body(p, messages), Turns(p))]
  }

  function Tail(p: Policy, messages: seq<Message>): seq<Message> {
    Body(p, messages)[Cut(Body(p, messages), Turns(p))..]
  }

  lemma Slices(body: seq<Message>, i: nat, end: nat)
    requires i < end <= |body|
    ensures [body[i]] + body[i + 1..end] == body[i..end]
    ensures body[i..end] + body[end..] == body[i..]
  {}

  // The walk back over one turn, from `end` to the user message that opens it.
  method TakeTurn(body: seq<Message>, end: nat, ghost turns: nat)
      returns (segment: seq<Message>, start: nat, found: bool)
    requires end <= |body| && turns > 0
    ensures start <= end && segment == body[start..end]
    ensures CutAt(body, end, turns) == CutAt(body, start, if found then turns - 1 else turns)
    ensures found ==> start < end
    ensures !found ==> start == 0
  {
    segment := [];
    start := end;
    found := false;
    while start > 0 && !IsUser(body[start - 1])
      invariant start <= end && segment == body[start..end]
      invariant CutAt(body, start, turns) == CutAt(body, end, turns)
    {
      start := start - 1;
      Slices(body, start, end);
      segment := [body[start]] + segment;
    }
    if start > 0 {
      start := start - 1;
      Slices(body, start, end);
      segment := [body[start]] + segment;
      found := true;
    }
  }

  // The walk from the end, one turn at a time.
  method KeepTail(body: seq<Message>, keepTurns: nat) returns (keptTail: seq<Message>)
    ensures keptTail == body[Cut(body, keepTurns)..]
  {
    keptTail := [];
    var turnsKept := 0;
    var end: nat := |body|;
    while end > 0 && turnsKept < keepTurns
      invariant end <= |body| && 0 <= turnsKept <= keepTurns
      invariant keptTail == body[end..]
      invariant CutAt(body, end, keepTurns - turnsKept) == Cut(body, keepTurns)
    {
      var segment, start, found := TakeTurn(body, end, keepTurns - turnsKept);
      if found {
        turnsKept := turnsKept + 1;
      }
      if segment == [] {
        break;
      }
      Slices(body, start, end);
      keptTail := segment + keptTail;
      end := start;
    }
  }

  method SplitWindow(p: Policy, messages: seq<Message>)
      returns (system: seq<Message>, toCompact: seq<Message>, toKeep: seq<Message>)
    ensures system == SystemPart(p, messages)
    ensures system == if p.keepSystem && messages != [] && messages[0].role == System then messages[..1] else []
    ensures toCompact == Replaced(p, messages)
    ensures toKeep == Tail(p, messages)
  {
    system := [];
    var body := messages;
    if p.keepSystem && body != [] && body[0].role == System {
      system := [body[0]];
      body := body[1..];
    }
    toKeep := KeepTail(body, Max(0, p.keepRecentTurns));
    toCompact := body[..|body| - |toKeep|];
  }

  lemma {:induction false} CutAtMeaning(body: seq<Message>, n: nat, k: nat)
    requires n <= |body|
    ensures Users(body[..n]) < k ==> CutAt(body, n, k) == 0
    ensures Users(body[..n]) >= k ==> Users(body[CutAt(body, n, k)..n]) == k
    ensures CutAt(body, n, k) < n && Users(body[..n]) >= k ==> IsUser(body[CutAt(body, n, k)])
  {
    if k > 0 && n > 0 {
      var j := if IsUser(body[n - 1]) then k - 1 else k;
      CutAtMeaning(body, n - 1, j);
      var c := CutAt(body, n - 1, j);
      assert body[..n][..n - 1] == body[..n - 1];
      assert body[c..n][..n - 1 - c] == body[c..n - 1];
    }
  }

  /** What the cut means: everything is kept when there are fewer than `k` user messages, and
      otherwise the tail holds exactly `k` of them and starts with one. */
  lemma CutMeaning(body: seq<Message>, k: nat)
    ensures Users(body) < k ==> Cut(body, k) == 0
    ensures Users(body) >= k ==> Users(body[Cut(body, k)..]) == k
    ensures Cut(body, k) < |body| && Users(body) >= k ==> IsUser(body[Cut(body, k)])
  {
    assert body[..|body|] == body;
    CutAtMeaning(body, |body|, k);
  }

  /** The tail of a window: all of the body when it has too few user messages, nothing when no turn is to
      be kept, and otherwise exactly that many turns, beginning with a user message. */
  lemma TailMeaning(p: Policy, messages: seq<Message>)
    ensures p.keepRecentTurns <= 0 ==> Tail(p, messages) == []
    ensures p.keepRecentTurns > 0 && Users(Body(p, messages)) < p.keepRecentTurns ==> Replaced(p, messages) == []
    ensures p.keepRecentTurns > 0 && Users(Body(p, messages)) >= p.keepRecentTurns ==>
      && Tail(p, messages) != [] && Tail(p, messages)[0].role == User
      && Users(Tail(p, messages)) == p.keepRecentTurns
  {
    CutMeaning(Body(p, messages), Turns(p));
  }

  /** A message list in which each tool result follows its call within one turn. */
  ghost predicate Paired(ms: seq<Message>) {
    forall j :: 0 <= j < |ms| && ms[j].role == Tool ==>
      exists i :: 0 <= i < j && Answers(ms, i, j)
  }

  ghost predicate Answers(ms: seq<Message>, i: nat, j: nat)
    requires i < |ms| && j < |ms|
  {
    && (exists tc :: tc in ms[i].toolCalls && tc.id == ms[j].toolCallId)
    && forall u :: i < u <= j ==> ms[u].role != User
  }

  /** No split separates a tool call from its result. */
  lemma SplitKeepsPairs(body: seq<Message>, k: nat, i: nat, j: nat)
    requires i < j < |body| && Answers(body, i, j)
    ensures i < Cut(body, k) <==> j < Cut(body, k)
  {
    CutMeaning(body, k);
  }

  // ---------------------------------------------------------------------------------------------
  // Compacting
  // ---------------------------------------------------------------------------------------------

  predicate IsBlank(text: string) {
    forall c :: c in text ==> Strings.IsSpace(c)
  }

  function Header(replaced: nat): string {
    "[Compacted recap of " + Decimal.Print(replaced) + " earlier messages]\n\n"
  }

  function Recap(replaced: nat, summary: string): Message {
    Message(Assistant, None, Text(Header(replaced) + summary), [], "")
  }

  function ShouldCompact(p: Policy, messages: seq<Message>): bool
    requires p.den > 0
  {
    p.contextBudget > 0 && Tokens(messages) >= p.contextBudget * p.num / p.den
  }

  datatype Result = Result(
    compacted: bool, messagesBefore: nat, messagesAfter: nat, tokensBefore: nat, tokensAfter: nat, replaced: nat)

  /** `summarizer` is what the configured model answers, if one is configured. */
  method Compact(p: Policy, summarizer: Option<seq<Message> -> string>, messages: seq<Message>, force: bool)
      returns (out: seq<Message>, r: Result)
    requires p.den > 0
    ensures out == Compacted(p, summarizer, messages, force)
    ensures r.compacted <==> Compacts(p, summarizer, messages, force)
    ensures r.messagesBefore == |messages| && r.messagesAfter == |out|
    ensures r.tokensBefore == Tokens(messages) && r.tokensAfter == Tokens(out)
    ensures r.messagesAfter == r.messagesBefore - r.replaced + if r.compacted then 1 else 0
    ensures r.replaced == if r.compacted then |Replaced(p, messages)| else 0
  {
    var beforeTokens := Tokens(messages);
    var same := Result(false, |messages|, |messages|, beforeTokens, beforeTokens, 0);
    if !force && !ShouldCompact(p, messages) {
      return messages, same;
    }
    var system, toCompact, toKeep := SplitWindow(p, messages);
    if toCompact == [] {
      return messages, same;
    }
    if summarizer.None? {
      return messages, same;
    }
    var summary := summarizer.value(toCompact);
    if IsBlank(summary) {
      return messages, same;
    }
    Partition(p, messages);
    out := system + [Recap(|toCompact|, summary)] + toKeep;
    r := Result(true, |messages|, |out|, beforeTokens, Tokens(out), |toCompact|);
  }

  /** When the token count is over the threshold: the budget times the ratio, rounded down. */
  lemma Threshold(p: Policy, tokens: nat)
    requires p.den > 0
    ensures tokens >= p.contextBudget * p.num / p.den <==> p.den * (tokens + 1) > p.contextBudget * p.num
  {
    var goal := p.contextBudget * p.num;
    assert goal == p.den * (goal / p.den) + goal % p.den;
    if tokens >= goal / p.den {
      assert p.den * (tokens + 1) >= p.den * (goal / p.den + 1);
    } else {
      assert p.den * (tokens + 1) <= p.den * (goal / p.den);
    }
  }

  /** An unforced compaction happens exactly if a budget is set, the estimate reaches the threshold,
      there is something to replace and the summarizer answers more than white space; otherwise the
      messages stay as they are. */
  lemma CompactsIff(p: Policy, summarizer: Option<seq<Message> -> string>, messages: seq<Message>, force: bool)
    requires p.den > 0
    ensures Compacts(p, summarizer, messages, force) <==>
      && (force || (p.contextBudget > 0 && p.den * (Tokens(messages) + 1) > p.contextBudget * p.num))
      && Replaced(p, messages) != [] && summarizer.Some?
      && exists c :: c in summarizer.value(Replaced(p, messages)) && !Strings.IsSpace(c)
    ensures !Compacts(p, summarizer, messages, force) ==> Compacted(p, summarizer, messages, force) == messages
  {
    Threshold(p, Tokens(messages));
  }

  /** What stands for the replaced messages. */
  lemma RecapSays(replaced: nat, summary: string)
    ensures var m := Recap(replaced, summary);
      && m.role == Assistant && m.reasoning.None? && m.toolCalls == []
      && m.content == Text("[Compacted recap of " + Decimal.Print(replaced) + " earlier messages]\n\n" + summary)
  {}

  predicate Compacts(p: Policy, summarizer: Option<seq<Message> -> string>, messages: seq<Message>, force: bool)
    requires p.den > 0
  {
    && (force || ShouldCompact(p, messages))
    && Replaced(p, messages) != []
    && summarizer.Some?
    && !IsBlank(summarizer.value(Replaced(p, messages)))
  }

  function Compacted(p: Policy, summarizer: Option<seq<Message> -> string>, messages: seq<Message>, force: bool)
      : seq<Message>
    requires p.den > 0
  {
    if Compacts(p, summarizer, messages, force) then
      SystemPart(p, messages)
        + [Recap(|Replaced(p, messages)|, summarizer.value(Replaced(p, messages)))]
        + Tail(p, messages)
    else messages
  }

  /** The three parts are the message list. */
  lemma Partition(p: Policy, messages: seq<Message>)
    ensures messages == SystemPart(p, messages) + Replaced(p, messages) + Tail(p, messages)
  {
    var system, body := SystemPart(p, messages), Body(p, messages);
    var c := Cut(body, Turns(p));
    assert system == messages[..|system|];
    assert messages == messages[..|system|] + (body[..c] + body[c..]);
  }

  // The result at `j` of the tail still follows its call after the recap is put in.
  lemma TailPair(system: seq<Message>, recap: Message, replaced: seq<Message>, tail: seq<Message>, i: nat, j: nat)
      returns (i': nat)
    requires j < |tail| && recap.role != User
    requires i < |system| || i >= |system| + |replaced|
    requires i < |system| + |replaced| + j && Answers(system + replaced + tail, i, |system| + |replaced| + j)
    ensures i' < |system| + 1 + j && Answers(system + [recap] + tail, i', |system| + 1 + j)
  {
    var ms, out := system + replaced + tail, system + [recap] + tail;
    i' := if i < |system| then i else i - |replaced| + 1;
    forall u | i' < u <= |system| + 1 + j
      ensures out[u].role != User
    {
      if u != |system| {
        assert out[u] == ms[if u < |system| then u else u - 1 + |replaced|];
      }
    }
    assert out[i'] == ms[i] && out[|system| + 1 + j] == ms[|system| + |replaced| + j];
  }

  lemma AnswersLater(ms: seq<Message>, off: nat, i: nat, j: nat)
    requires off <= i < j < |ms| && Answers(ms, i, j)
    ensures Answers(ms[off..], i - off, j - off)
  {
    assert ms[off..][i - off] == ms[i] && ms[off..][j - off] == ms[j];
    forall u | i - off < u <= j - off
      ensures ms[off..][u].role != User
    {
      assert ms[u + off].role != User;
    }
  }

  lemma CallStays(p: Policy, messages: seq<Message>, i: nat, j: nat)
    requires var off := |SystemPart(p, messages)| + |Replaced(p, messages)|;
      off <= j < |messages| && i < j && Answers(messages, i, j)
    ensures i < |SystemPart(p, messages)| || i >= |SystemPart(p, messages)| + |Replaced(p, messages)|
  {
    var sys := |SystemPart(p, messages)|;
    if i >= sys {
      AnswersLater(messages, sys, i, j);
      SplitKeepsPairs(Body(p, messages), Turns(p), i - sys, j - sys);
    }
  }

  // No call of a result in the tail is replaced.
  ghost predicate CallsStay(system: seq<Message>, replaced: seq<Message>, tail: seq<Message>) {
    forall i, j | |system| + |replaced| <= j < |system + replaced + tail| && 0 <= i < j ::
      Answers(system + replaced + tail, i, j) ==> i < |system| || i >= |system| + |replaced|
  }

  lemma PairAt(system: seq<Message>, recap: Message, replaced: seq<Message>, tail: seq<Message>, j: nat)
      returns (i': nat)
    requires recap.role == Assistant && j < |tail| && tail[j].role == Tool
    requires Paired(system + replaced + tail) && CallsStay(system, replaced, tail)
    ensures i' < |system| + 1 + j && Answers(system + [recap] + tail, i', |system| + 1 + j)
  {
    var ms, from := system + replaced + tail, |system| + |replaced| + j;
    assert ms[from] == tail[j];
    var i :| 0 <= i < from && Answers(ms, i, from);
    i' := TailPair(system, recap, replaced, tail, i, j);
  }

  lemma PairsStay(system: seq<Message>, recap: Message, replaced: seq<Message>, tail: seq<Message>)
    requires recap.role == Assistant && |system| <= 1 && (system != [] ==> system[0].role != Tool)
    requires Paired(system + replaced + tail) && CallsStay(system, replaced, tail)
    ensures Paired(system + [recap] + tail)
  {
    var out := system + [recap] + tail;
    forall n | 0 <= n < |out| && out[n].role == Tool
      ensures exists i :: 0 <= i < n && Answers(out, i, n)
    {
      assert n > |system|;
      assert out[n] == tail[n - |system| - 1];
      var i := PairAt(system, recap, replaced, tail, n - |system| - 1);
    }
  }

  /** If every tool result follows its call within one turn, the same holds after compaction. */
  lemma CompactedPaired(p: Policy, summarizer: Option<seq<Message> -> string>, messages: seq<Message>, force: bool)
    requires p.den > 0 && Paired(messages)
    ensures Paired(Compacted(p, summarizer, messages, force))
  {
    if Compacts(p, summarizer, messages, force) {
      var system, replaced, tail := SystemPart(p, messages), Replaced(p, messages), Tail(p, messages);
      Partition(p, messages);
      assert CallsStay(system, replaced, tail) by {
        forall i, j | |system| + |replaced| <= j < |messages| && 0 <= i < j && Answers(messages, i, j)
          ensures i < |system| || i >= |system| + |replaced|
        {
          CallStays(p, messages, i, j);
        }
      }
      PairsStay(system, Recap(|replaced|, summarizer.value(replaced)), replaced, tail);
    }
  }

  lemma SumWith(system: seq<Message>, recap: Message, tail: seq<Message>)
    ensures Tokens(system + [recap] + tail) == Tokens(system) + MessageTokens(recap) + Tokens(tail)
  {
    SumConcat(system + [recap], tail, MessageTokens);
    SumConcat(system, [recap], MessageTokens);
    assert [recap][..0] == [];
  }

  lemma SumParts(p: Policy, messages: seq<Message>)
    ensures Tokens(messages) ==
      Tokens(SystemPart(p, messages)) + Tokens(Replaced(p, messages)) + Tokens(Tail(p, messages))
  {
    Partition(p, messages);
    SumConcat(SystemPart(p, messages) + Replaced(p, messages), Tail(p, messages), MessageTokens);
    SumConcat(SystemPart(p, messages), Replaced(p, messages), MessageTokens);
  }

  /** The exact token count after a compaction, and its bound for a summary and a header of
      bounded length. */
  lemma TokensAfter(p: Policy, summarizer: Option<seq<Message> -> string>, messages: seq<Message>, force: bool,
                    maxSummary: nat, maxHeader: nat)
    requires p.den > 0 && Compacts(p, summarizer, messages, force)
    ensures var out := Compacted(p, summarizer, messages, force);
      var replaced := Replaced(p, messages);
      var recap := Recap(|replaced|, summarizer.value(replaced));
      && Tokens(out) == Tokens(messages) - Tokens(replaced) + MessageTokens(recap)
      && (|summarizer.value(replaced)| <= maxSummary && |Header(|replaced|)| <= maxHeader ==>
            Tokens(out) <= Tokens(SystemPart(p, messages)) + Tokens(Tail(p, messages))
                           + 4 + Max(1, 10 * (maxSummary + maxHeader) / 37))
  {
    var replaced := Replaced(p, messages);
    SumParts(p, messages);
    SumWith(SystemPart(p, messages), Recap(|replaced|, summarizer.value(replaced)), Tail(p, messages));
  }

  /** So compaction reaches its goal: the result does not ask to be compacted again whenever
      that bound is below the threshold. */
  lemma NotAgain(p: Policy, summarizer: Option<seq<Message> -> string>, messages: seq<Message>, force: bool,
                 maxSummary: nat, maxHeader: nat)
    requires p.den > 0 && Compacts(p, summarizer, messages, force)
    requires |summarizer.value(Replaced(p, messages))| <= maxSummary
    requires |Header(|Replaced(p, messages)|)| <= maxHeader
    requires Tokens(SystemPart(p, messages)) + Tokens(Tail(p, messages))
      + 4 + Max(1, 10 * (maxSummary + maxHeader) / 37) < p.contextBudget * p.num / p.den
    ensures !ShouldCompact(p, Compacted(p, summarizer, messages, force))
  {
    TokensAfter(p, summarizer, messages, force, maxSummary, maxHeader);
  }

  // ---------------------------------------------------------------------------------------------
  // Compacting again
  // ---------------------------------------------------------------------------------------------

  lemma {:induction false} CutPrepended(front: seq<Message>, tail: seq<Message>, m: nat)
    requires m <= |tail| && (tail != [] ==> IsUser(tail[0]))
    ensures CutAt(front + tail, |front| + m, Users(tail[..m])) == |front|
  {
    if m > 0 {
      assert tail[..m][..m - 1] == tail[..m - 1];
      CutPrepended(front, tail, m - 1);
      UsersFromHead(tail, m);
    }
  }

  lemma {:induction false} UsersFromHead(ms: seq<Message>, m: nat)
    requires 0 < m <= |ms| && IsUser(ms[0])
    ensures Users(ms[..m]) >= 1
  {
    assert ms[..m][..m - 1] == ms[..m - 1];
    if m > 1 {
      UsersFromHead(ms, m - 1);
    }
  }

  lemma CutAfterRecap(recap: Message, tail: seq<Message>)
    requires tail != [] ==> IsUser(tail[0])
    ensures Cut([recap] + tail, Users(tail)) == 1
  {
    assert tail[..|tail|] == tail;
    CutPrepended([recap], tail, |tail|);
  }

  lemma SystemStays(p: Policy, system: seq<Message>, rest: seq<Message>)
    requires rest != [] && rest[0].role != System
    requires system == [] || (p.keepSystem && |system| == 1 && system[0].role == System)
    ensures SystemPart(p, system + rest) == system && Body(p, system + rest) == rest
  {}

  /** A list whose last turns are known splits there. */
  lemma SplitAgain(p: Policy, system: seq<Message>, recap: Message, tail: seq<Message>)
    requires recap.role == Assistant
    requires system == [] || (p.keepSystem && |system| == 1 && system[0].role == System)
    requires Users(tail) == Turns(p) && (tail != [] ==> IsUser(tail[0]))
    ensures var ms := system + [recap] + tail;
      SystemPart(p, ms) == system && Replaced(p, ms) == [recap] && Tail(p, ms) == tail
  {
    var ms, body := system + [recap] + tail, [recap] + tail;
    assert ms == system + body;
    SystemStays(p, system, body);
    CutAfterRecap(recap, tail);
    assert body[..1] == [recap] && body[1..] == tail;
  }

  datatype Pass = Pass(summarizer: Option<seq<Message> -> string>, force: bool)

  function Repeat(p: Policy, passes: seq<Pass>, messages: seq<Message>): seq<Message>
    requires p.den > 0
  {
    if passes == [] then messages
    else Repeat(p, passes[1..], Compacted(p, passes[0].summarizer, messages, passes[0].force))
  }

  lemma {:induction false} RepeatShape(p: Policy, passes: seq<Pass>, system: seq<Message>, recap: Message,
                                       tail: seq<Message>) returns (recap': Message)
    requires p.den > 0 && recap.role == Assistant
    requires system == [] || (p.keepSystem && |system| == 1 && system[0].role == System)
    requires Users(tail) == Turns(p) && (tail != [] ==> IsUser(tail[0]))
    ensures recap'.role == Assistant
    ensures Repeat(p, passes, system + [recap] + tail) == system + [recap'] + tail
    ensures recap' == recap || exists summary :: recap' == Recap(1, summary)
    decreases |passes|
  {
    recap' := recap;
    if passes != [] {
      var ms := system + [recap] + tail;
      SplitAgain(p, system, recap, tail);
      if Compacts(p, passes[0].summarizer, ms, passes[0].force) {
        var next := Recap(1, passes[0].summarizer.value([recap]));
        recap' := RepeatShape(p, passes[1..], system, next, tail);
      } else {
        recap' := RepeatShape(p, passes[1..], system, recap, tail);
      }
    }
  }

  /** After one compaction, any number of further ones, forced or not, with any summaries, leaves
      the system message and the tail as they are around a single recap. */
  lemma Fixpoint(p: Policy, first: Pass, passes: seq<Pass>, messages: seq<Message>) returns (recap: Message)
    requires p.den > 0 && Compacts(p, first.summarizer, messages, first.force)
    ensures Repeat(p, [first] + passes, messages) == SystemPart(p, messages) + [recap] + Tail(p, messages)
    ensures exists replaced: nat, summary :: recap == Recap(replaced, summary)
  {
    var replaced := Replaced(p, messages);
    var once := Recap(|replaced|, first.summarizer.value(replaced));
    CutMeaning(Body(p, messages), Turns(p));
    assert ([first] + passes)[1..] == passes;
    recap := RepeatShape(p, passes, SystemPart(p, messages), once, Tail(p, messages));
  }
}
