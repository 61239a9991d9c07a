/**
 A tool surface that reveals its tools on demand. Only core tools and tools found by a search,
 or revealed by name, are listed and may be called.
 */
module DeferredTools {
  import opened Basics
  import opened Text

  /** Name and description in lower case, as the search compares them. */
  datatype Tool = Tool(name: string, lowerName: string, lowerDescription: string)

  const TOOL_SEARCH_NAME := "tool_search"

  // ---------------------------------------------------------------------------------------------
  // Scores and ranking
  // ---------------------------------------------------------------------------------------------

  function Points(tool: Tool, term: string): nat {
    if term == "" then 0
    else (if Contains(tool.lowerName, term) then 3 else 0) + (if Contains(tool.lowerDescription, term) then 1 else 0)
  }

  function Score(tool: Tool, terms: seq<string>): nat {
    if terms == [] then 0 else Score(tool, terms[..|terms| - 1]) + Points(tool, terms[|terms| - 1])
  }

  method ToolMatches(tool: Tool, terms: seq<string>) returns (score: nat)
    ensures score == Score(tool, terms)
  {
    score := 0;
    for i := 0 to |terms|
      invariant score == Score(tool, terms[..i])
    {
      assert terms[..i + 1][..i] == terms[..i];
      if terms[i] != "" {
        if Contains(tool.lowerName, terms[i]) {
          score := score + 3;
        }
        if Contains(tool.lowerDescription, terms[i]) {
          score := score + 1;
        }
      }
    }
    assert terms[..|terms|] == terms;
  }

  /** A tool matches exactly when some non-empty term occurs in its name or description. */
  lemma {:induction false} MatchesIff(tool: Tool, terms: seq<string>)
    ensures Score(tool, terms) > 0 <==>
      exists t :: t in terms && t != "" && (Contains(tool.lowerName, t) || Contains(tool.lowerDescription, t))
  {
    if terms != [] {
      MatchesIff(tool, terms[..|terms| - 1]);
      assert terms == terms[..|terms| - 1] + [terms[|terms| - 1]];
    }
  }

  // How many of the terms occur in a text.
  function Hits(text: string, terms: seq<string>): nat {
    if terms == [] then 0
    else Hits(text, terms[1..]) + if terms[0] != "" && Contains(text, terms[0]) then 1 else 0
  }

  lemma {:induction false} HitsSnoc(text: string, terms: seq<string>, last: string)
    ensures Hits(text, terms + [last]) == Hits(text, terms) + if last != "" && Contains(text, last) then 1 else 0
  {
    if terms == [] {
      assert [last][1..] == [];
    } else {
      assert (terms + [last])[1..] == terms[1..] + [last];
      HitsSnoc(text, terms[1..], last);
    }
  }

  /** A term found in the name counts three times as much as one found in the description, and the
      order of the terms does not matter. */
  lemma {:induction false} ScoreWeights(tool: Tool, terms: seq<string>)
    ensures Score(tool, terms) == 3 * Hits(tool.lowerName, terms) + Hits(tool.lowerDescription, terms)
  {
    if terms != [] {
      var front, last := terms[..|terms| - 1], terms[|terms| - 1];
      assert terms == front + [last];
      ScoreWeights(tool, front);
      HitsSnoc(tool.lowerName, front, last);
      HitsSnoc(tool.lowerDescription, front, last);
    }
  }

  function Scores(tools: seq<Tool>, terms: seq<string>): seq<nat> {
    seq(|tools|, i requires 0 <= i < |tools| => Score(tools[i], terms))
  }

  // Positions in the tool list, compared by score and then by position.
  predicate Better(scores: seq<nat>, i: nat, j: nat) {
    && i < |scores| && j < |scores|
    && (scores[i] > scores[j] || (scores[i] == scores[j] && i < j))
  }

  // The positions below `n` with a score, best first.
  ghost predicate Ranks(scores: seq<nat>, ranking: seq<nat>, n: nat)
    requires n <= |scores|
  {
    && (forall i: nat :: i in ranking <==> i < n && scores[i] > 0)
    && (forall j, k :: 0 <= j < k < |ranking| ==> Better(scores, ranking[j], ranking[k]))
  }

  /** The positions of all matching tools, best first, ties in the order of the tool list: what a
      stable descending sort by score gives. */
  ghost predicate IsRanking(tools: seq<Tool>, terms: seq<string>, ranking: seq<nat>) {
    Ranks(Scores(tools, terms), ranking, |tools|)
  }

  lemma Inserted(scores: seq<nat>, ranking: seq<nat>, n: nat, p: nat)
    requires n < |scores| && Ranks(scores, ranking, n) && p <= |ranking| && scores[n] > 0
    requires forall k :: 0 <= k < p ==> ranking[k] in ranking && scores[ranking[k]] >= scores[n]
    requires p < |ranking| ==> ranking[p] in ranking && scores[ranking[p]] < scores[n]
    ensures Ranks(scores, ranking[..p] + [n] + ranking[p..], n + 1)
  {
    var r := ranking[..p] + [n] + ranking[p..];
    forall i: nat
      ensures i in r <==> i in ranking || i == n
    {
      assert ranking == ranking[..p] + ranking[p..];
    }
    forall k | 0 <= k < |ranking|
      ensures if k < p then Better(scores, ranking[k], n) else Better(scores, n, ranking[k])
    {
      assert ranking[k] in ranking;
      assert k > p ==> Better(scores, ranking[p], ranking[k]);
    }
    Interleaved(scores, ranking, n, p);
  }

  lemma Interleaved(scores: seq<nat>, ranking: seq<nat>, n: nat, p: nat)
    requires p <= |ranking|
    requires forall j, k :: 0 <= j < k < |ranking| ==> Better(scores, ranking[j], ranking[k])
    requires forall k :: 0 <= k < p ==> Better(scores, ranking[k], n)
    requires forall k :: p <= k < |ranking| ==> Better(scores, n, ranking[k])
    ensures var r := ranking[..p] + [n] + ranking[p..];
      forall j, k :: 0 <= j < k < |r| ==> Better(scores, r[j], r[k])
  {
    var r := ranking[..p] + [n] + ranking[p..];
    forall j, k | 0 <= j < k < |r|
      ensures Better(scores, r[j], r[k])
    {
      assert r[j] == if j < p then ranking[j] else if j == p then n else ranking[j - 1];
      assert r[k] == if k < p then ranking[k] else if k == p then n else ranking[k - 1];
    }
  }

  method Rank(tools: seq<Tool>, terms: seq<string>) returns (ranking: seq<nat>)
    ensures IsRanking(tools, terms, ranking)
    ensures forall i: nat :: i in ranking <==> i < |tools| && Score(tools[i], terms) > 0
    ensures forall j, k :: 0 <= j < k < |ranking| && ranking[j] < |tools| && ranking[k] < |tools| ==>
      var a, b := Score(tools[ranking[j]], terms), Score(tools[ranking[k]], terms);
      a > b || (a == b && ranking[j] < ranking[k])
  {
    ranking := [];
    ghost var scores := Scores(tools, terms);
    for n := 0 to |tools|
      invariant Ranks(scores, ranking, n)
    {
      var score := ToolMatches(tools[n], terms);
      assert score == scores[n];
      if score > 0 {
        var p := 0;
        while p < |ranking| && (assert ranking[p] in ranking; Score(tools[ranking[p]], terms) >= score)
          invariant p <= |ranking|
          invariant forall k :: 0 <= k < p ==> ranking[k] in ranking && scores[ranking[k]] >= score
        {
          assert ranking[p] in ranking;
          p := p + 1;
        }
        if p < |ranking| {
          assert ranking[p] in ranking;
        }
        Inserted(scores, ranking, n, p);
        ranking := ranking[..p] + [n] + ranking[p..];
      }
    }
  }

  /** A ranking is determined by the scores. */
  lemma {:induction false} RankingUnique(scores: seq<nat>, a: seq<nat>, b: seq<nat>)
    requires forall i: nat :: i in a <==> i in b
    requires forall j, k :: 0 <= j < k < |a| ==> Better(scores, a[j], a[k])
    requires forall j, k :: 0 <= j < k < |b| ==> Better(scores, b[j], b[k])
    ensures a == b
  {
    assert b != [] ==> b[0] in b;
    if a != [] {
      assert a[0] in a && b[0] in a;
      assert a[0] == b[0];
      forall i: nat
        ensures i in a[1..] <==> i in b[1..]
      {
        assert i in a <==> i == a[0] || i in a[1..];
        assert i in b <==> i == b[0] || i in b[1..];
        assert forall k :: 0 <= k < |a[1..]| ==> a[1..][k] != a[0];
        assert forall k :: 0 <= k < |b[1..]| ==> b[1..][k] != b[0];
      }
      RankingUnique(scores, a[1..], b[1..]);
    }
  }

  function Top(ranking: seq<nat>, limit: Option<int>): seq<nat> {
    ranking[..if |ranking| < Clamp(limit) then |ranking| else Clamp(limit)]
  }

  function Clamp(limit: Option<int>): (n: int)
    ensures 1 <= n <= 32
    ensures limit.Some? && 1 <= limit.value <= 32 ==> n == limit.value
    ensures limit.None? ==> n == 8
    ensures limit.Some? && limit.value > 32 ==> n == 32
    ensures limit.Some? && limit.value < 1 ==> n == 1
  {
    var n := match limit case Some(n) => n case None => 8;
    if n > 32 then 32 else if n < 1 then 1 else n
  }

  // ---------------------------------------------------------------------------------------------
  // The bridge
  // ---------------------------------------------------------------------------------------------

  ghost function Names(tools: seq<Tool>, positions: seq<nat>): set<string> {
    set k | 0 <= k < |positions| && positions[k] < |tools| && tools[positions[k]].name != "" :: tools[positions[k]].name
  }

  class DeferredToolBridge {
    const tools: seq<Tool>
    const core: set<string>
    var revealed: set<string>

    constructor (tools: seq<Tool>, core: seq<string>)
      ensures this.tools == tools && this.core == (set name | name in core && name != "")
      ensures revealed == {}
    {
      this.tools := tools;
      this.core := set name | name in core && name != "";
      revealed := {};
    }

    function Visible(): set<string>
      reads this
    {
      core + revealed
    }

    // An empty query lists the catalogue and reveals nothing.
    method HandleSearch(terms: seq<string>, limit: Option<int>) returns (top: seq<nat>)
      modifies this
      ensures terms == [] ==> top == [] && revealed == old(revealed)
      ensures terms != [] ==> exists ranking :: IsRanking(tools, terms, ranking) && top == Top(ranking, limit)
      ensures Visible() == old(Visible()) + Names(tools, top)
      ensures forall n :: n in Visible() <==>
        n in old(Visible()) || (n != "" && exists k :: 0 <= k < |top| && top[k] < |tools| && tools[top[k]].name == n)
      ensures terms != [] ==> exists ranking ::
        && IsRanking(tools, terms, ranking)
        && |top| == Min(|ranking|, match limit case None => 8 case Some(n) => Max(1, Min(32, n)))
        && forall k :: 0 <= k < |top| ==> top[k] == ranking[k]
    {
      if terms == [] {
        return [];
      }
      var ranking := Rank(tools, terms);
      top := Top(ranking, limit);
      assert forall k :: 0 <= k < |top| ==> top[k] in ranking;
      RevealAll(top);
    }

    method RevealAll(top: seq<nat>)
      requires forall k :: 0 <= k < |top| ==> top[k] < |tools|
      modifies this
      ensures Visible() == old(Visible()) + Names(tools, top)
    {
      for k := 0 to |top|
        invariant Visible() == old(Visible()) + Names(tools, top[..k])
      {
        var name := tools[top[k]].name;
        assert top[..k + 1] == top[..k] + [top[k]];
        NamesStep(tools, top, k);
        if name != "" && name !in Visible() {
          revealed := revealed + {name};
        }
      }
      assert top[..|top|] == top;
    }

    method Reveal(names: seq<string>) returns (added: seq<string>)
      modifies this
      ensures Visible() == old(Visible()) + (set n | n in names && exists k :: 0 <= k < |tools| && tools[k].name == n)
      ensures forall n :: n in added <==> n in Visible() && n !in old(Visible())
      ensures forall i, j :: 0 <= i < j < |added| ==> added[i] != added[j]
    {
      var all := set t | t in tools :: t.name;
      assert forall n :: n in all <==> exists k :: 0 <= k < |tools| && tools[k].name == n;
      added := [];
      for i := 0 to |names|
        invariant forall n :: n in Visible() <==> n in old(Visible()) || (n in names[..i] && n in all)
        invariant forall n :: n in added <==> n in Visible() && n !in old(Visible())
        invariant forall j, k :: 0 <= j < k < |added| ==> added[j] != added[k]
      {
        assert names[..i + 1] == names[..i] + [names[i]];
        if names[i] in all && names[i] !in revealed && names[i] !in core {
          revealed := revealed + {names[i]};
          added := added + [names[i]];
        }
      }
      assert names[..|names|] == names;
    }

    // `search` is a call of the search tool itself; other calls go to the wrapped bridge or fail.
    method CallTool(name: string) returns (search: bool, forwarded: bool)
      ensures search <==> name == TOOL_SEARCH_NAME
      ensures forwarded <==> name != TOOL_SEARCH_NAME && (name in core || name in revealed)
    {
      if name == TOOL_SEARCH_NAME {
        return true, false;
      }
      if name !in Visible() {
        return false, false;
      }
      return false, true;
    }

    /** The listed tools behind the search tool: the visible ones, in the order of the wrapped list. */
    method GetTools() returns (exposed: seq<Tool>, ghost at: seq<nat>)
      ensures |at| == |exposed| && forall k :: 0 <= k < |at| ==> at[k] < |tools| && exposed[k] == tools[at[k]]
      ensures forall j, k :: 0 <= j < k < |at| ==> at[j] < at[k]
      ensures forall i :: 0 <= i < |tools| ==> (i in at <==> tools[i].name in core || tools[i].name in revealed)
    {
      exposed, at := [], [];
      if Visible() == {} {
        return;
      }
      for i := 0 to |tools|
        invariant |at| == |exposed| && forall k :: 0 <= k < |at| ==> at[k] < i && exposed[k] == tools[at[k]]
        invariant forall j, k :: 0 <= j < k < |at| ==> at[j] < at[k]
        invariant forall n :: 0 <= n < i ==> (n in at <==> tools[n].name in Visible())
      {
        if tools[i].name in Visible() {
          exposed := exposed + [tools[i]];
          at := at + [i];
        }
      }
    }
  }

  lemma NamesStep(tools: seq<Tool>, top: seq<nat>, k: nat)
    requires k < |top| && top[k] < |tools|
    ensures Names(tools, top[..k + 1])
         == Names(tools, top[..k]) + if tools[top[k]].name == "" then {} else {tools[top[k]].name}
  {
    forall n
      ensures n in Names(tools, top[..k + 1])
        <==> n in Names(tools, top[..k]) || (n != "" && n == tools[top[k]].name)
    {
      if n in Names(tools, top[..k]) {
        var j :| 0 <= j < k && top[..k][j] < |tools| && tools[top[..k][j]].name == n != "";
        assert top[..k + 1][j] == top[j];
      }
      if n == tools[top[k]].name != "" {
        assert top[..k + 1][k] == top[k];
      }
      if n in Names(tools, top[..k + 1]) {
        var j :| 0 <= j < k + 1 && top[..k + 1][j] < |tools| && tools[top[..k + 1][j]].name == n != "";
        assert j < k ==> top[..k][j] == top[j];
      }
    }
  }

  // ---------------------------------------------------------------------------------------------
  // Sessions
  // ---------------------------------------------------------------------------------------------

  datatype Request =
    | Search(terms: seq<string>, limit: Option<int>)
    | RevealNames(names: seq<string>)
    | CallOf(name: string)

  /** The names a request makes visible, whatever was visible before. */
  ghost predicate Returns(tools: seq<Tool>, r: Request, name: string) {
    match r
    case Search(terms, limit) =>
      terms != [] && exists ranking :: IsRanking(tools, terms, ranking) && name in Names(tools, Top(ranking, limit))
    case RevealNames(names) => name in names && exists k :: 0 <= k < |tools| && tools[k].name == name
    case CallOf(_) => false
  }

  /** Serves a session; says for each request whether it was a call that was forwarded. */
  method Serve(bridge: DeferredToolBridge, session: seq<Request>) returns (forwarded: seq<bool>)
    requires bridge.revealed == {}
    modifies bridge
    ensures |forwarded| == |session|
    ensures forall k :: 0 <= k < |session| ==>
      (forwarded[k] <==>
        && session[k].CallOf? && session[k].name != TOOL_SEARCH_NAME
        && (session[k].name in bridge.core
            || exists j :: 0 <= j < k && Returns(bridge.tools, session[j], session[k].name)))
  {
    forwarded := [];
    for k := 0 to |session|
      invariant |forwarded| == k
      invariant forall n :: n in bridge.Visible() <==>
        n in bridge.core || exists j :: 0 <= j < k && Returns(bridge.tools, session[j], n)
      invariant forall i :: 0 <= i < k ==>
        (forwarded[i] <==>
          && session[i].CallOf? && session[i].name != TOOL_SEARCH_NAME
          && (session[i].name in bridge.core
              || exists j :: 0 <= j < i && Returns(bridge.tools, session[j], session[i].name)))
    {
      ghost var before := bridge.Visible();
      match session[k]
      case Search(terms, limit) =>
        var top := bridge.HandleSearch(terms, limit);
        ReturnedBySearch(bridge.tools, terms, limit, top);
        forwarded := forwarded + [false];
      case RevealNames(names) =>
        var added := bridge.Reveal(names);
        forwarded := forwarded + [false];
      case CallOf(name) =>
        var search, sent := bridge.CallTool(name);
        forwarded := forwarded + [sent];
      assert forall n :: n in bridge.Visible() <==> n in before || Returns(bridge.tools, session[k], n);
    }
  }

  lemma ReturnedBySearch(tools: seq<Tool>, terms: seq<string>, limit: Option<int>, top: seq<nat>)
    requires terms == [] ==> top == []
    requires terms != [] ==> exists ranking :: IsRanking(tools, terms, ranking) && top == Top(ranking, limit)
    ensures forall n :: n in Names(tools, top) <==> Returns(tools, Search(terms, limit), n)
  {
    if terms != [] {
      forall a, b | IsRanking(tools, terms, a) && IsRanking(tools, terms, b)
        ensures a == b
      {
        RankingUnique(Scores(tools, terms), a, b);
      }
    }
  }
}
