/**
 UTF-8 with malformed input replaced, one replacement character for each maximal broken sequence,
 and what becomes of a text whose bytes are decoded chunk by chunk.
 */
module Utf8 {
  import opened Basics

  type Byte = b: nat | b < 0x100

  type Bytes = seq<Byte>

  const REPLACEMENT: char := '\U{FFFD}'

  predicate IsContinuation(b: Byte) {
    0x80 <= b < 0xC0
  }

  predicate IsAscii(c: char) {
    c as int < 0x80
  }

  function Trailing(n: nat): Byte {
    0x80 + n % 0x40
  }

  function EncodeChar(c: char): (bs: Bytes)
    ensures bs != []
    ensures |bs| > 1 <==> !IsAscii(c)
  {
    var n := c as int;
    if n < 0x80 then [n]
    else if n < 0x800 then [0xC0 + n / 0x40, Trailing(n)]
    else if n < 0x10000 then [0xE0 + n / 0x1000, Trailing(n / 0x40), Trailing(n)]
    else [0xF0 + n / 0x40000, Trailing(n / 0x1000), Trailing(n / 0x40), Trailing(n)]
  }

  function Encode(text: string): Bytes {
    if text == "" then [] else EncodeChar(text[0]) + Encode(text[1..])
  }

  // The length of the sequence a first byte announces, 0 for a byte that cannot be first.
  function Announced(b: Byte): nat {
    if b < 0x80 then 1
    else if b < 0xC2 then 0
    else if b < 0xE0 then 2
    else if b < 0xF0 then 3
    else if b < 0xF5 then 4
    else 0
  }

  /** A first byte announces a sequence exactly if it can begin one that encodes a code point in the
      shortest way: 0xC0 and 0xC1 could only begin overlong ones, 0xF5 and above none. */
  lemma AnnouncedIff(b: Byte)
    ensures Announced(b) > 0 <==> b < 0x80 || exists c :: EncodeChar(c)[0] == b
    ensures Announced(b) > 0 ==> forall c :: EncodeChar(c)[0] == b ==> |EncodeChar(c)| == Announced(b)
  {
    if 0xC2 <= b < 0xE0 {
      assert EncodeChar(((b - 0xC0) * 0x40) as char)[0] == b;
    } else if b == 0xED {
      assert EncodeChar('\U{D000}')[0] == b;
    } else if 0xE0 <= b < 0xF0 {
      assert EncodeChar(((b - 0xE0) * 0x1000 + 0xFFF) as char)[0] == b;
    } else if 0xF0 <= b < 0xF5 {
      assert EncodeChar((if b == 0xF0 then 0x10000 else (b - 0xF0) * 0x40000) as char)[0] == b;
    }
  }

  /** The second byte of a longer sequence may be any continuation that makes the code point neither
      overlong, nor a surrogate, nor too large. */
  lemma MayBeSecondIff(first: Byte, b: Byte)
    requires Announced(first) > 1
    ensures !IsContinuation(b) ==> !MayBeSecond(first, b)
    ensures IsContinuation(b) && Announced(first) == 2 ==> MayBeSecond(first, b)
    ensures IsContinuation(b) && Announced(first) == 3 ==>
      var low := (first - 0xE0) * 0x1000 + (b - 0x80) * 0x40;
      MayBeSecond(first, b) <==> low >= 0x800 && !(0xD800 <= low < 0xE000)
    ensures IsContinuation(b) && Announced(first) == 4 ==>
      var low := (first - 0xF0) * 0x40000 + (b - 0x80) * 0x1000;
      MayBeSecond(first, b) <==> 0x10000 <= low < 0x110000
  {}

  /** Well-known encodings. */
  lemma KnownEncodings()
    ensures EncodeChar('A') == [0x41] && EncodeChar('\U{E9}') == [0xC3, 0xA9]
    ensures EncodeChar('\U{20AC}') == [0xE2, 0x82, 0xAC] && EncodeChar('\U{1F600}') == [0xF0, 0x9F, 0x98, 0x80]
  {}

  // Neither overlong nor a surrogate nor beyond the last code point.
  predicate MayBeSecond(first: Byte, b: Byte) {
    if first == 0xE0 then 0xA0 <= b < 0xC0
    else if first == 0xED then 0x80 <= b < 0xA0
    else if first == 0xF0 then 0x90 <= b < 0xC0
    else if first == 0xF4 then 0x80 <= b < 0x90
    else IsContinuation(b)
  }

  // How many bytes at the beginning go together.
  function Matched(bs: Bytes): (k: nat)
    requires bs != [] && Announced(bs[0]) > 0
    ensures 1 <= k <= Announced(bs[0]) && k <= |bs|
  {
    var n := Announced(bs[0]);
    if n == 1 || |bs| == 1 || !MayBeSecond(bs[0], bs[1]) then 1
    else if n == 2 || |bs| == 2 || !IsContinuation(bs[2]) then 2
    else if n == 3 || |bs| == 3 || !IsContinuation(bs[3]) then 3
    else 4
  }

  function Bits(b: Byte, mark: int): int {
    b as int - mark
  }

  function Scalar(bs: Bytes): char
    requires bs != [] && Announced(bs[0]) == |bs| == Matched(bs)
  {
    if |bs| == 1 then bs[0] as char
    else if |bs| == 2 then (Bits(bs[0], 0xC0) * 0x40 + Bits(bs[1], 0x80)) as char
    else if |bs| == 3 then (Bits(bs[0], 0xE0) * 0x1000 + Bits(bs[1], 0x80) * 0x40 + Bits(bs[2], 0x80)) as char
    else (Bits(bs[0], 0xF0) * 0x40000 + Bits(bs[1], 0x80) * 0x1000
          + Bits(bs[2], 0x80) * 0x40 + Bits(bs[3], 0x80)) as char
  }

  lemma MatchedAlone(bs: Bytes, rest: Bytes)
    requires bs != [] && Announced(bs[0]) > 0 && (rest == [] || !IsContinuation(rest[0]))
    ensures Matched(bs + rest) == Matched(bs)
  {
    if |bs| < |bs + rest| {
      assert (bs + rest)[|bs|] == rest[0];
    }
  }

  lemma MatchedWhole(bs: Bytes, rest: Bytes)
    requires bs != [] && |bs| == Announced(bs[0]) == Matched(bs)
    ensures Matched(bs + rest) == |bs|
  {}

  lemma MatchedPrefix(bs: Bytes, k: nat)
    requires bs != [] && Announced(bs[0]) > 0 && k == Matched(bs)
    ensures bs[..k] != [] && bs[..k][0] == bs[0] && Matched(bs[..k]) == k
  {}

  // What the decoder makes of the beginning, and how many bytes that takes.
  function Size(bs: Bytes): (k: nat)
    requires bs != []
    ensures 1 <= k <= |bs|
  {
    if Announced(bs[0]) == 0 then 1 else Matched(bs)
  }

  function Head(bs: Bytes): char
    requires bs != []
  {
    if Announced(bs[0]) == 0 || Matched(bs) < Announced(bs[0]) then REPLACEMENT
    else
      MatchedPrefix(bs, Matched(bs));
      Scalar(bs[..Matched(bs)])
  }

  function Decode(bs: Bytes): (text: string)
    ensures bs != [] ==> text != ""
  {
    if bs == [] then "" else [Head(bs)] + Decode(bs[Size(bs)..])
  }

  // ---------------------------------------------------------------------------------------------
  // Whole characters and pieces of them
  // ---------------------------------------------------------------------------------------------

  lemma EncodedShape(c: char)
    ensures var bs := EncodeChar(c); Announced(bs[0]) == |bs| && Matched(bs) == |bs|
    ensures forall i :: 1 <= i < |EncodeChar(c)| ==> IsContinuation(EncodeChar(c)[i])
    ensures !IsContinuation(EncodeChar(c)[0])
  {}

  lemma ScalarOfEncoded(c: char)
    requires Announced(EncodeChar(c)[0]) == |EncodeChar(c)| == Matched(EncodeChar(c))
    ensures Scalar(EncodeChar(c)) == c
  {
    var n := c as int;
    assert n / 0x1000 == n / 0x40 / 0x40 && n / 0x40000 == n / 0x1000 / 0x40;
  }

  lemma DecodeWhole(c: char, rest: Bytes)
    ensures Decode(EncodeChar(c) + rest) == [c] + Decode(rest)
  {
    var bs := EncodeChar(c);
    EncodedShape(c);
    ScalarOfEncoded(c);
    MatchedWhole(bs, rest);
    assert (bs + rest)[..|bs|] == bs && (bs + rest)[|bs|..] == rest;
  }

  // The beginning of a character decodes to one replacement.
  lemma DecodeTruncated(c: char, n: nat)
    requires 0 < n < |EncodeChar(c)|
    ensures Decode(EncodeChar(c)[..n]) == [REPLACEMENT]
  {
    EncodedShape(c);
    var bs := EncodeChar(c)[..n];
    assert Matched(bs) == n;
    assert bs[n..] == [];
  }

  function Replacements(n: nat): string {
    seq(n, _ => REPLACEMENT)
  }

  // The rest of a character decodes to one replacement for each byte.
  lemma {:induction false} DecodeStray(bs: Bytes)
    requires forall b :: b in bs ==> IsContinuation(b)
    ensures Decode(bs) == Replacements(|bs|)
  {
    if bs != [] {
      assert bs[0] in bs;
      DecodeStray(bs[1..]);
      assert [REPLACEMENT] + Replacements(|bs| - 1) == Replacements(|bs|);
    }
  }

  lemma HeadAlone(u: Bytes, v: Bytes)
    requires u != [] && (v == [] || !IsContinuation(v[0]))
    ensures Size(u + v) == Size(u) && Head(u + v) == Head(u)
  {
    if Announced(u[0]) > 0 {
      MatchedAlone(u, v);
      assert (u + v)[..Matched(u)] == u[..Matched(u)];
    }
  }

  // Decoding can start afresh at any byte that does not continue a character.
  lemma {:induction false} DecodeSplit(u: Bytes, v: Bytes)
    requires v == [] || !IsContinuation(v[0])
    ensures Decode(u + v) == Decode(u) + Decode(v)
    decreases |u|
  {
    if u == [] {
      assert u + v == v;
    } else {
      HeadAlone(u, v);
      assert (u + v)[Size(u)..] == u[Size(u)..] + v;
      DecodeSplit(u[Size(u)..], v);
    }
  }

  // ---------------------------------------------------------------------------------------------
  // Decoding chunk by chunk
  // ---------------------------------------------------------------------------------------------

  function Decoded(chunks: seq<Bytes>): seq<string> {
    seq(|chunks|, i requires 0 <= i < |chunks| => Decode(chunks[i]))
  }

  function DecodeAll(chunks: seq<Bytes>): string {
    if chunks == [] then "" else Decode(chunks[0]) + DecodeAll(chunks[1..])
  }

  function Flat(chunks: seq<Bytes>): Bytes {
    if chunks == [] then [] else chunks[0] + Flat(chunks[1..])
  }

  /** No chunk begins inside a character. */
  predicate Clean(chunks: seq<Bytes>) {
    forall c :: c in chunks && c != [] ==> !IsContinuation(c[0])
  }

  // The first `n` bytes, cut as the chunks are, and the others.
  function Take(chunks: seq<Bytes>, n: nat): seq<Bytes> {
    if chunks == [] || n == 0 then []
    else if |chunks[0]| <= n then [chunks[0]] + Take(chunks[1..], n - |chunks[0]|)
    else [chunks[0][..n]]
  }

  function Drop(chunks: seq<Bytes>, n: nat): seq<Bytes> {
    if chunks == [] || n == 0 then chunks
    else if |chunks[0]| <= n then Drop(chunks[1..], n - |chunks[0]|)
    else [chunks[0][n..]] + chunks[1..]
  }

  lemma CleanCons(c: Bytes, chunks: seq<Bytes>)
    ensures Clean([c] + chunks) <==> (c == [] || !IsContinuation(c[0])) && Clean(chunks)
  {
    assert forall d :: d in [c] + chunks <==> d == c || d in chunks;
  }

  lemma FlatCons(c: Bytes, chunks: seq<Bytes>)
    ensures Flat([c] + chunks) == c + Flat(chunks)
  {
    assert ([c] + chunks)[1..] == chunks;
  }

  lemma DecodeCons(c: Bytes, chunks: seq<Bytes>)
    ensures DecodeAll([c] + chunks) == Decode(c) + DecodeAll(chunks)
  {
    assert ([c] + chunks)[1..] == chunks;
  }

  // The two ways of taking bytes from the first chunk.
  lemma TakeChunk(c: Bytes, rest: seq<Bytes>, n: nat)
    requires |c| <= n && 0 < n
    ensures Take([c] + rest, n) == [c] + Take(rest, n - |c|) && Drop([c] + rest, n) == Drop(rest, n - |c|)
  {
    assert ([c] + rest)[1..] == rest;
  }

  lemma TakePart(c: Bytes, rest: seq<Bytes>, n: nat)
    requires 0 < n < |c|
    ensures Take([c] + rest, n) == [c[..n]] + [] && Drop([c] + rest, n) == [c[n..]] + rest
  {
    assert ([c] + rest)[1..] == rest;
  }

  lemma {:induction false} TakeDropBytes(chunks: seq<Bytes>, n: nat)
    requires n <= |Flat(chunks)|
    ensures Flat(Take(chunks, n)) == Flat(chunks)[..n] && Flat(Drop(chunks, n)) == Flat(chunks)[n..]
  {
    if chunks != [] && n > 0 {
      var c, rest := chunks[0], chunks[1..];
      assert chunks == [c] + rest;
      if |c| <= n {
        TakeDropBytes(rest, n - |c|);
        TakeChunk(c, rest, n);
        FlatCons(c, Take(rest, n - |c|));
      } else {
        TakePart(c, rest, n);
        FlatCons(c[..n], []);
        FlatCons(c[n..], rest);
      }
    }
  }

  // What remains begins with the character at `n`.
  lemma NextByte(c: Bytes, rest: seq<Bytes>, n: nat)
    requires |c| <= n <= |Flat([c] + rest)|
    requires n == |Flat([c] + rest)| || !IsContinuation(Flat([c] + rest)[n])
    ensures n - |c| <= |Flat(rest)| && (n - |c| == |Flat(rest)| || !IsContinuation(Flat(rest)[n - |c|]))
  {
    FlatCons(c, rest);
  }

  lemma PartByte(c: Bytes, rest: seq<Bytes>, n: nat)
    requires n < |c|
    ensures n < |Flat([c] + rest)| && Flat([c] + rest)[n] == c[n] == c[n..][0]
  {
    FlatCons(c, rest);
  }

  lemma {:induction false} TakeDropClean(chunks: seq<Bytes>, n: nat)
    requires n <= |Flat(chunks)|
    requires n == |Flat(chunks)| || !IsContinuation(Flat(chunks)[n])
    ensures Clean(chunks) <==> Clean(Take(chunks, n)) && Clean(Drop(chunks, n))
  {
    if chunks != [] && n > 0 {
      var c, rest := chunks[0], chunks[1..];
      assert chunks == [c] + rest;
      CleanCons(c, rest);
      if |c| <= n {
        NextByte(c, rest, n);
        TakeDropClean(rest, n - |c|);
        TakeChunk(c, rest, n);
        CleanCons(c, Take(rest, n - |c|));
      } else {
        PartByte(c, rest, n);
        PartClean(c, rest, n);
        TakePart(c, rest, n);
      }
    }
  }

  lemma PartClean(c: Bytes, rest: seq<Bytes>, n: nat)
    requires 0 < n < |c| && !IsContinuation(c[n])
    ensures Clean([c] + rest) <==> Clean([c[..n]] + []) && Clean([c[n..]] + rest)
  {
    CleanCons(c, rest);
    CleanCons(c[n..], rest);
    CleanCons(c[..n], []);
  }

  lemma Regroup(whole: string, first: string, second: string, rest: string)
    requires whole == first + second
    ensures whole + rest == (first + "") + (second + rest)
  {
    Assoc(first, second, rest);
    assert first + "" == first;
  }

  // A chunk decodes like its two parts if the second begins a character.
  lemma PartDecoded(c: Bytes, rest: seq<Bytes>, n: nat)
    requires 0 < n < |c| && !IsContinuation(c[n])
    ensures DecodeAll([c] + rest) == DecodeAll([c[..n]] + []) + DecodeAll([c[n..]] + rest)
  {
    assert c == c[..n] + c[n..];
    DecodeSplit(c[..n], c[n..]);
    DecodeCons(c, rest);
    DecodeCons(c[..n], []);
    DecodeCons(c[n..], rest);
    Regroup(Decode(c), Decode(c[..n]), Decode(c[n..]), DecodeAll(rest));
  }

  /** Where a character begins, the chunks can be taken apart without a trace. */
  lemma {:induction false} TakeDrop(chunks: seq<Bytes>, n: nat)
    requires n <= |Flat(chunks)|
    requires n == |Flat(chunks)| || !IsContinuation(Flat(chunks)[n])
    ensures DecodeAll(chunks) == DecodeAll(Take(chunks, n)) + DecodeAll(Drop(chunks, n))
  {
    if chunks != [] && n > 0 {
      var c, rest := chunks[0], chunks[1..];
      assert chunks == [c] + rest;
      if |c| <= n {
        NextByte(c, rest, n);
        TakeDrop(rest, n - |c|);
        TakeChunk(c, rest, n);
        DecodeCons(c, rest);
        DecodeCons(c, Take(rest, n - |c|));
        Assoc(Decode(c), DecodeAll(Take(rest, n - |c|)), DecodeAll(Drop(rest, n - |c|)));
      } else {
        PartByte(c, rest, n);
        PartDecoded(c, rest, n);
        TakePart(c, rest, n);
      }
    }
  }

  lemma {:induction false} StrayChunks(chunks: seq<Bytes>)
    requires forall b :: b in Flat(chunks) ==> IsContinuation(b)
    ensures DecodeAll(chunks) == Replacements(|Flat(chunks)|)
    ensures Flat(chunks) != [] ==> !Clean(chunks)
  {
    if chunks != [] {
      var c, rest := chunks[0], chunks[1..];
      assert chunks == [c] + rest && Flat(chunks) == c + Flat(rest);
      DecodeStray(c);
      StrayChunks(rest);
      CleanCons(c, rest);
    }
  }

  lemma TornCharacter(c: char, n: nat, rest: seq<Bytes>)
    requires 0 < n < |EncodeChar(c)| && Flat(rest) == EncodeChar(c)[n..]
    ensures Decode(EncodeChar(c)[..n]) + DecodeAll(rest) == Replacements(1 + |EncodeChar(c)| - n)
    ensures !Clean(rest)
  {
    EncodedShape(c);
    DecodeTruncated(c, n);
    StrayChunks(rest);
    assert [REPLACEMENT] + Replacements(|EncodeChar(c)| - n) == Replacements(1 + |EncodeChar(c)| - n);
  }

  lemma WholeCharacter(c: char, rest: seq<Bytes>)
    requires Flat(rest) == []
    ensures Decode(EncodeChar(c)) + DecodeAll(rest) == [c] && Clean(rest)
  {
    DecodeWhole(c, []);
    assert EncodeChar(c) + [] == EncodeChar(c);
    StrayChunks(rest);
    EmptyChunks(rest);
  }

  lemma FirstChunk(chunks: seq<Bytes>, all: Bytes)
    requires chunks != [] && Flat(chunks) == all
    ensures var p, rest := chunks[0], chunks[1..];
      && |p| <= |all| && p == all[..|p|] && Flat(rest) == all[|p|..]
      && (Clean(chunks) <==> (p == [] || !IsContinuation(p[0])) && Clean(rest))
      && DecodeAll(chunks) == Decode(p) + DecodeAll(rest)
      && (p == [] ==> DecodeAll(chunks) == DecodeAll(rest))
  {
    assert chunks == [chunks[0]] + chunks[1..];
    CleanCons(chunks[0], chunks[1..]);
  }

  /** The bytes of one character decode to it if they come in one chunk, and to two or more
      replacements otherwise. */
  lemma {:induction false} OneCharacter(c: char, chunks: seq<Bytes>)
    requires Flat(chunks) == EncodeChar(c)
    ensures Clean(chunks) ==> DecodeAll(chunks) == [c]
    ensures !Clean(chunks) ==> exists n :: n >= 2 && DecodeAll(chunks) == Replacements(n) && !IsAscii(c)
  {
    var e, p, rest := EncodeChar(c), chunks[0], chunks[1..];
    FirstChunk(chunks, e);
    if p == [] {
      OneCharacter(c, rest);
    } else if |p| == |e| {
      WholeCharacter(c, rest);
      EncodedShape(c);
    } else {
      TornCharacter(c, |p|, rest);
    }
  }

  lemma {:induction false} EmptyChunks(chunks: seq<Bytes>)
    requires Flat(chunks) == []
    ensures Clean(chunks)
  {
    if chunks != [] {
      EmptyChunks(chunks[1..]);
      assert chunks == [chunks[0]] + chunks[1..];
    }
  }

  /** `seen` is `text` with some characters beyond ASCII replaced, each by two or more. */
  ghost predicate Garbles(text: string, seen: string) {
    if text == "" then seen == ""
    else
      || (seen != "" && seen[0] == text[0] && Garbles(text[1..], seen[1..]))
      || (!IsAscii(text[0]) &&
          exists n :: 2 <= n <= |seen| && seen[..n] == Replacements(n) && Garbles(text[1..], seen[n..]))
  }

  lemma GarblesOn(c: char, text: string, head: string, tail: string)
    requires head == [c] || (!IsAscii(c) && exists n :: n >= 2 && head == Replacements(n))
    requires Garbles(text, tail)
    ensures Garbles([c] + text, head + tail)
  {
    assert ([c] + text)[1..] == text;
    if head == [c] {
      assert (head + tail)[1..] == tail;
    } else {
      var n :| n >= 2 && head == Replacements(n);
      assert (head + tail)[..n] == head && (head + tail)[n..] == tail;
    }
  }

  /** Whatever the chunks, a reader that decodes each of them sees the text garbled at most, and
      sees the text itself exactly when no chunk begins inside a character. */
  lemma {:induction false} DecodeAllIff(text: string, chunks: seq<Bytes>)
    requires Flat(chunks) == Encode(text)
    ensures Garbles(text, DecodeAll(chunks)) && |DecodeAll(chunks)| >= |text|
    ensures DecodeAll(chunks) == text <==> Clean(chunks)
  {
    if text == "" {
      StrayChunks(chunks);
      EmptyChunks(chunks);
    } else {
      var head, tail, rest := SplitFirst(text, chunks);
      DecodeAllIff(text[1..], rest);
      GarblesOn(text[0], text[1..], head, tail);
      assert text == [text[0]] + text[1..];
      assert |head| == 1 ==> (head + tail)[1..] == tail;
    }
  }

  lemma SplitFirst(text: string, chunks: seq<Bytes>) returns (head: string, tail: string, rest: seq<Bytes>)
    requires text != "" && Flat(chunks) == Encode(text)
    ensures Flat(rest) == Encode(text[1..]) && tail == DecodeAll(rest) && DecodeAll(chunks) == head + tail
    ensures if head == [text[0]] then Clean(chunks) <==> Clean(rest)
            else !Clean(chunks) && !IsAscii(text[0]) && exists n :: n >= 2 && head == Replacements(n)
  {
    var n := |EncodeChar(text[0])|;
    NextCharacter(text);
    TakeDropBytes(chunks, n);
    TakeDropClean(chunks, n);
    TakeDrop(chunks, n);
    OneCharacter(text[0], Take(chunks, n));
    head, rest := DecodeAll(Take(chunks, n)), Drop(chunks, n);
    tail := DecodeAll(rest);
  }

  // After a character comes another one or the end.
  lemma NextCharacter(text: string)
    requires text != ""
    ensures var n := |EncodeChar(text[0])|;
      && n <= |Encode(text)| && Encode(text)[..n] == EncodeChar(text[0]) && Encode(text)[n..] == Encode(text[1..])
      && (n == |Encode(text)| || !IsContinuation(Encode(text)[n]))
  {
    if text[1..] != "" {
      EncodedShape(text[1]);
      assert Encode(text[1..])[0] == EncodeChar(text[1])[0];
    }
  }
}
