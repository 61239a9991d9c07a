/** Decimal notation of natural numbers, as `str` and `printf %s` write it and `int` reads it. */
module Decimal {
  function Digit(d: nat): char
    requires d < 10
  {
    "0123456789"[d]
  }

  predicate IsNumber(s: string) {
    s != [] && AllDigits(s)
  }

  predicate AllDigits(s: string) {
    forall i :: 0 <= i < |s| ==> '0' <= s[i] <= '9'
  }

  function Print(n: nat): (s: string)
    ensures IsNumber(s)
  {
    if n < 10 then [Digit(n)] else Print(n / 10) + [Digit(n % 10)]
  }

  function Value(s: string): nat
    requires AllDigits(s)
  {
    if s == [] then 0 else
      10 * Value(s[..|s| - 1]) + (s[|s| - 1] as int - '0' as int)
  }

  /** The most significant digit comes first, and none is a leading zero. */
  lemma {:induction false} Digits(n: nat)
    ensures Print(n)[|Print(n)| - 1] == "0123456789"[n % 10]
    ensures if n < 10 then |Print(n)| == 1 else Print(n)[..|Print(n)| - 1] == Print(n / 10) && Print(n)[0] != '0'
  {
    if n >= 10 {
      Digits(n / 10);
      assert Print(n)[0] == Print(n / 10)[0];
    }
  }

  lemma {:induction false} RoundTrip(n: nat)
    ensures Value(Print(n)) == n
  {
    if n >= 10 {
      RoundTrip(n / 10);
      assert Print(n)[..|Print(n)| - 1] == Print(n / 10);
    }
  }
}
