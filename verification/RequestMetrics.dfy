/**
 Latency samples of finished requests: four sliding windows and their percentiles.
 */
module RequestMetrics {
  import opened Basics

  function Append(samples: seq<int>, value: int, limit: nat): seq<int> {
    LastOf(samples + [Max(0, value)], limit)
  }

  /** What is recorded of a finished request. */
  datatype Timing = Timing(endStatus: string, queuedMs: int, modelMs: int, toolMs: int, totalMs: int)

  class Metrics {
    var sampleLimit: int
    var queuedSamples: seq<int>
    var modelSamples: seq<int>
    var toolSamples: seq<int>
    var totalSamples: seq<int>
    var last: Timing

    constructor (sampleLimit: int)
      ensures this.sampleLimit == sampleLimit
      ensures queuedSamples == modelSamples == toolSamples == totalSamples == []
    {
      this.sampleLimit := sampleLimit;
      queuedSamples, modelSamples, toolSamples, totalSamples := [], [], [], [];
      last := Timing("", 0, 0, 0, 0);
    }

    static method AppendSample(samples: seq<int>, value: int, limit: nat) returns (r: seq<int>)
      ensures r == Append(samples, value, limit)
    {
      r := samples + [Max(0, value)];
      if |r| > limit {
        r := r[|r| - limit..];
      }
    }

    method Record(t: Timing)
      modifies this
      ensures sampleLimit == old(sampleLimit)
      ensures var limit := Max(16, sampleLimit);
        && queuedSamples == Append(old(queuedSamples), t.queuedMs, limit)
        && modelSamples == Append(old(modelSamples), t.modelMs, limit)
        && toolSamples == Append(old(toolSamples), t.toolMs, limit)
        && totalSamples == Append(old(totalSamples), t.totalMs, limit)
      ensures last == Timing(t.endStatus, Max(0, t.queuedMs), Max(0, t.modelMs), Max(0, t.toolMs), Max(0, t.totalMs))
    {
      var limit := Max(16, sampleLimit);
      queuedSamples := AppendSample(queuedSamples, t.queuedMs, limit);
      modelSamples := AppendSample(modelSamples, t.modelMs, limit);
      toolSamples := AppendSample(toolSamples, t.toolMs, limit);
      totalSamples := AppendSample(totalSamples, t.totalMs, limit);
      last := Timing(t.endStatus, Max(0, t.queuedMs), Max(0, t.modelMs), Max(0, t.toolMs), Max(0, t.totalMs));
    }

    /** Records a run of requests from empty windows: each window holds the last clamped samples,
        as many as fit, so all four have the same length. */
    method RecordAll(ts: seq<Timing>)
      requires queuedSamples == modelSamples == toolSamples == totalSamples == []
      modifies this
      ensures var limit := Max(16, sampleLimit);
        && queuedSamples == LastOf(Clamped(ts, QueuedMs), limit)
        && modelSamples == LastOf(Clamped(ts, ModelMs), limit)
        && toolSamples == LastOf(Clamped(ts, ToolMs), limit)
        && totalSamples == LastOf(Clamped(ts, TotalMs), limit)
      ensures |queuedSamples| == |modelSamples| == |toolSamples| == |totalSamples| == Min(|ts|, Max(16, sampleLimit))
      ensures Holds(queuedSamples, ts, QueuedMs) && Holds(modelSamples, ts, ModelMs)
      ensures Holds(toolSamples, ts, ToolMs) && Holds(totalSamples, ts, TotalMs)
    {
      ghost var limit := Max(16, sampleLimit);
      for n := 0 to |ts|
        invariant sampleLimit == old(sampleLimit)
        invariant queuedSamples == LastOf(Clamped(ts[..n], QueuedMs), limit)
        invariant modelSamples == LastOf(Clamped(ts[..n], ModelMs), limit)
        invariant toolSamples == LastOf(Clamped(ts[..n], ToolMs), limit)
        invariant totalSamples == LastOf(Clamped(ts[..n], TotalMs), limit)
      {
        WindowStep(ts, n, QueuedMs, limit);
        WindowStep(ts, n, ModelMs, limit);
        WindowStep(ts, n, ToolMs, limit);
        WindowStep(ts, n, TotalMs, limit);
        Record(ts[n]);
      }
      assert ts[..|ts|] == ts;
      WindowHolds(ts, QueuedMs, limit);
      WindowHolds(ts, ModelMs, limit);
      WindowHolds(ts, ToolMs, limit);
      WindowHolds(ts, TotalMs, limit);
    }
  }

  /** A window holds the figures of the last requests, oldest first. */
  predicate Holds(window: seq<int>, ts: seq<Timing>, f: Timing -> int) {
    |window| <= |ts| && forall i :: 0 <= i < |window| ==>
      window[i] == var ms := f(ts[|ts| - |window| + i]); if ms < 0 then 0 else ms
  }

  lemma WindowHolds(ts: seq<Timing>, f: Timing -> int, limit: nat)
    ensures Holds(LastOf(Clamped(ts, f), limit), ts, f)
  {
    WindowOf(Clamped(ts, f), ts, f, limit);
  }

  lemma WindowOf(xs: seq<int>, ts: seq<Timing>, f: Timing -> int, limit: nat)
    requires |xs| == |ts| && forall i :: 0 <= i < |xs| ==> xs[i] == Max(0, f(ts[i]))
    ensures Holds(LastOf(xs, limit), ts, f)
  {
    LastOfAt(xs, limit);
  }

  function QueuedMs(t: Timing): int {
    t.queuedMs
  }

  function ModelMs(t: Timing): int {
    t.modelMs
  }

  function ToolMs(t: Timing): int {
    t.toolMs
  }

  function TotalMs(t: Timing): int {
    t.totalMs
  }

  // One figure of every request, never negative.
  function Clamped(ts: seq<Timing>, f: Timing -> int): (r: seq<int>)
    ensures |r| == |ts| && forall i :: 0 <= i < |r| ==> r[i] == Max(0, f(ts[i]))
  {
    if ts == [] then [] else Clamped(ts[..|ts| - 1], f) + [Max(0, f(ts[|ts| - 1]))]
  }

  lemma WindowStep(ts: seq<Timing>, n: nat, f: Timing -> int, limit: nat)
    requires n < |ts| && limit > 0
    ensures Append(LastOf(Clamped(ts[..n], f), limit), f(ts[n]), limit) == LastOf(Clamped(ts[..n + 1], f), limit)
  {
    assert ts[..n + 1][..n] == ts[..n];
    AppendLast(Clamped(ts[..n], f), f(ts[n]), limit);
  }

  // Trimming before or after an append gives the same window.
  lemma AppendLast(xs: seq<int>, value: int, limit: nat)
    requires limit > 0
    ensures Append(LastOf(xs, limit), value, limit) == LastOf(xs + [Max(0, value)], limit)
  {}

  // ---------------------------------------------------------------------------------------------
  // Percentiles
  // ---------------------------------------------------------------------------------------------

  function AtMost(values: seq<int>, r: int): nat {
    if values == [] then 0 else AtMost(values[1..], r) + if values[0] <= r then 1 else 0
  }

  function Below(values: seq<int>, r: int): nat {
    if values == [] then 0 else Below(values[1..], r) + if values[0] < r then 1 else 0
  }

  lemma {:induction false} CountConcat(a: seq<int>, b: seq<int>, r: int)
    ensures AtMost(a + b, r) == AtMost(a, r) + AtMost(b, r)
    ensures Below(a + b, r) == Below(a, r) + Below(b, r)
  {
    if a == [] {
      assert a + b == b;
    } else {
      assert (a + b)[1..] == a[1..] + b;
      CountConcat(a[1..], b, r);
    }
  }

  predicate Ascending(values: seq<int>) {
    forall i, j :: 0 <= i < j < |values| ==> values[i] <= values[j]
  }

  ghost predicate SameCounts(a: seq<int>, b: seq<int>) {
    |a| == |b| && forall r: int :: AtMost(a, r) == AtMost(b, r) && Below(a, r) == Below(b, r)
  }

  lemma InsertCounts(done: seq<int>, k: nat, value: int, rest: seq<int>)
    requires k <= |done| && SameCounts(done, rest)
    ensures SameCounts(done[..k] + [value] + done[k..], rest + [value])
  {
    forall r: int
      ensures AtMost(done[..k] + [value] + done[k..], r) == AtMost(rest + [value], r)
      ensures Below(done[..k] + [value] + done[k..], r) == Below(rest + [value], r)
    {
      CountConcat(done[..k] + [value], done[k..], r);
      CountConcat(done[..k], [value], r);
      CountConcat(done[..k], done[k..], r);
      assert done == done[..k] + done[k..];
      CountConcat(rest, [value], r);
    }
  }

  method Sorted(values: seq<int>) returns (s: seq<int>)
    ensures Ascending(s) && SameCounts(s, values)
    ensures forall v :: v in s <==> v in values
  {
    s := [];
    for i := 0 to |values|
      invariant Ascending(s) && SameCounts(s, values[..i])
      invariant forall v :: v in s <==> v in values[..i]
    {
      var k := 0;
      while k < |s| && s[k] <= values[i]
        invariant k <= |s| && forall j :: 0 <= j < k ==> s[j] <= values[i]
      {
        k := k + 1;
      }
      InsertCounts(s, k, values[i], values[..i]);
      assert values[..i + 1] == values[..i] + [values[i]];
      assert forall v :: v in s <==> v in s[..k] || v in s[k..];
      s := s[..k] + [values[i]] + s[k..];
    }
    assert values[..|values|] == values;
  }

  // In a sorted list the element at `k` has at least `k + 1` elements up to it, at most `k` below.
  lemma {:induction false} CountSorted(s: seq<int>, k: nat)
    requires Ascending(s) && k < |s|
    ensures AtMost(s, s[k]) >= k + 1 && Below(s, s[k]) <= k
  {
    if k == 0 {
      NoneBelow(s, s[0]);
    } else {
      CountSorted(s[1..], k - 1);
    }
  }

  lemma {:induction false} NoneBelow(s: seq<int>, r: int)
    requires forall i :: 0 <= i < |s| ==> r <= s[i]
    ensures Below(s, r) == 0
  {
    if s != [] {
      NoneBelow(s[1..], r);
    }
  }

  /** The nearest-rank percentile: at least `p` per cent of the values are at most `r`, and fewer
      than `p` per cent are below it. */
  predicate IsPercentile(values: seq<int>, p: int, r: int) {
    r in values && 100 * AtMost(values, r) >= p * |values| && 100 * Below(values, r) < p * |values|
  }

  method Percentile(values: seq<int>, percentile: int) returns (r: int)
    ensures values == [] ==> r == 0
    ensures values != [] && percentile > 0 ==> IsPercentile(values, Min(100, percentile), r)
    ensures values != [] && percentile <= 0 ==> r in values && Below(values, r) == 0
  {
    if values == [] {
      return 0;
    }
    var p := Max(0, Min(100, percentile));
    var sorted := Sorted(values);
    var rank := (p * |sorted| + 99) / 100;  // rounded up
    var idx := Max(0, Min(|sorted| - 1, rank - 1));
    CountSorted(sorted, idx);
    RankBounds(p, |sorted|);
    assert sorted[idx] in sorted;
    return sorted[idx];
  }

  lemma RankBounds(p: int, n: int)
    requires 0 <= p <= 100 && n > 0
    ensures var rank := (p * n + 99) / 100;
      && 100 * rank >= p * n && 100 * (rank - 1) < p * n && rank <= n && (p > 0 ==> rank >= 1) && (p == 0 ==> rank == 0)
  {
    assert p * n <= 100 * n;
    assert p > 0 ==> p * n > 0;
  }

  lemma {:induction false} BelowSplits(values: seq<int>, a: int, b: int)
    requires a < b
    ensures AtMost(values, a) <= Below(values, b)
  {
    if values != [] {
      BelowSplits(values[1..], a, b);
    }
  }

  /** Percentiles are determined by their definition and ordered: the median never exceeds the
      95th percentile. */
  lemma PercentilesOrdered(values: seq<int>, p: int, q: int, r: int, s: int)
    requires IsPercentile(values, p, r) && IsPercentile(values, q, s) && p <= q
    ensures r <= s && (p == q ==> r == s)
  {
    assert p * |values| <= q * |values|;
    if s < r {
      BelowSplits(values, s, r);
    }
    if p == q && r < s {
      BelowSplits(values, r, s);
    }
  }
}
