/** Shared vocabulary. */
module Basics {
  datatype Option<+T> = None | Some(value: T)

  function Max(a: int, b: int): int {
    if a < b then b else a
  }

  function Min(a: int, b: int): int {
    if a < b then a else b
  }

  lemma MaxMin(a: int, b: int)
    ensures Max(a, b) >= a && Max(a, b) >= b && (Max(a, b) == a || Max(a, b) == b)
    ensures Min(a, b) <= a && Min(a, b) <= b && (Min(a, b) == a || Min(a, b) == b)
  {}

  // The last `limit` elements.
  function LastOf<T>(xs: seq<T>, limit: nat): seq<T> {
    if |xs| <= limit then xs else xs[|xs| - limit..]
  }

  lemma LastOfAt<T>(xs: seq<T>, limit: nat)
    ensures |LastOf(xs, limit)| == Min(|xs|, limit)
    ensures forall i :: 0 <= i < |LastOf(xs, limit)| ==> LastOf(xs, limit)[i] == xs[|xs| - |LastOf(xs, limit)| + i]
  {}

  ghost predicate NoRepeats<T(!new)>(xs: seq<T>) {
    forall i, j :: 0 <= i < j < |xs| ==> xs[i] != xs[j]
  }

  // Seconds on a clock, as `int` truncates them.
  function Milliseconds(seconds: real): (ms: int)
    ensures seconds >= 0.0 ==> ms as real <= seconds * 1000.0 < ms as real + 1.0
    ensures seconds <= 0.0 ==> ms as real - 1.0 < seconds * 1000.0 <= ms as real
  {
    if seconds >= 0.0 then (seconds * 1000.0).Floor else 0 - (0.0 - seconds * 1000.0).Floor
  }

  lemma Assoc<T>(a: seq<T>, b: seq<T>, c: seq<T>)
    ensures (a + b) + c == a + (b + c)
  {}
}
