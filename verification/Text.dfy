/** Trimming, lower-casing and containment of texts. */
module Text {
  function Lower(c: char): char {
    if 'A' <= c <= 'Z' then (c as int + 32) as char else c
  }

  // White space as `str.strip` removes it.
  predicate IsSpace(c: char) {
    || '\U{0009}' <= c <= '\U{000D}' || '\U{001C}' <= c <= '\U{0020}' || c == '\U{0085}' || c == '\U{00A0}'
    || c == '\U{1680}' || '\U{2000}' <= c <= '\U{200A}' || '\U{2028}' <= c <= '\U{2029}'
    || c == '\U{202F}' || c == '\U{205F}' || c == '\U{3000}'
  }

  function Trim(text: string): string {
    if text == "" then ""
    else if IsSpace(text[0]) then Trim(text[1..])
    else if IsSpace(text[|text| - 1]) then Trim(text[..|text| - 1])
    else text
  }

  /** The white space of Unicode, listed. */
  lemma SpacesAre(c: char)
    ensures IsSpace(c) <==>
      || c in "\t\n\U{000B}\U{000C}\r\U{001C}\U{001D}\U{001E}\U{001F} \U{0085}\U{00A0}\U{1680}"
      || c in "\U{2000}\U{2001}\U{2002}\U{2003}\U{2004}\U{2005}\U{2006}\U{2007}\U{2008}\U{2009}\U{200A}"
      || c in "\U{2028}\U{2029}\U{202F}\U{205F}\U{3000}"
  {}

  // What is left between `i` and `j` begins and ends without white space, and the rest is nothing else.
  predicate Trims(text: string, i: nat, j: nat) {
    && i <= j <= |text|
    && (forall k :: 0 <= k < |text| && !(i <= k < j) ==> IsSpace(text[k]))
    && (i < j ==> !IsSpace(text[i]) && !IsSpace(text[j - 1]))
  }

  lemma TrimsFront(text: string, i: nat, j: nat)
    requires text != "" && IsSpace(text[0]) && Trims(text[1..], i, j)
    ensures Trims(text, i + 1, j + 1) && text[1..][i..j] == text[i + 1..j + 1]
  {
    assert forall k :: 1 <= k < |text| ==> text[k] == text[1..][k - 1];
  }

  lemma TrimsBack(text: string, i: nat, j: nat)
    requires text != "" && IsSpace(text[|text| - 1]) && Trims(text[..|text| - 1], i, j)
    ensures Trims(text, i, j) && text[..|text| - 1][i..j] == text[i..j]
  {
    assert forall k :: 0 <= k < |text| - 1 ==> text[k] == text[..|text| - 1][k];
  }

  /** Trimming takes white space off both ends and nothing else. */
  lemma {:induction false} TrimExact(text: string) returns (i: nat, j: nat)
    ensures Trims(text, i, j) && Trim(text) == text[i..j]
  {
    if text == "" {
      i, j := 0, 0;
    } else if IsSpace(text[0]) {
      i, j := TrimExact(text[1..]);
      TrimsFront(text, i, j);
      i, j := i + 1, j + 1;
    } else if IsSpace(text[|text| - 1]) {
      i, j := TrimExact(text[..|text| - 1]);
      TrimsBack(text, i, j);
    } else {
      i, j := 0, |text|;
    }
  }

  /** ASCII capitals become small letters and other characters stay. */
  lemma LoweredAt(text: string, i: nat)
    requires i < |text|
    ensures |Lowered(text)| == |text|
    ensures if 'A' <= text[i] <= 'Z' then Lowered(text)[i] as int - 'a' as int == text[i] as int - 'A' as int
            else Lowered(text)[i] == text[i]
  {}

  function Lowered(text: string): string {
    seq(|text|, i requires 0 <= i < |text| => Lower(text[i]))
  }

  // As profile, node and model names are compared.
  function Normalize(text: string): string {
    Lowered(Trim(text))
  }

  predicate Contains(text: string, term: string) {
    exists i {:trigger text[i..]} :: 0 <= i <= |text| && term <= text[i..]
  }

  /** A text contains a term exactly if it is something, then the term, then something. */
  lemma ContainsSplit(text: string, term: string) returns (before: string, after: string)
    requires Contains(text, term)
    ensures text == before + term + after
  {
    var i :| 0 <= i <= |text| && term <= text[i..];
    before, after := text[..i], text[i..][|term|..];
  }

  lemma ContainsMiddle(before: string, term: string, after: string)
    ensures Contains(before + term + after, term)
  {
    var text := before + term + after;
    assert text[|before|..] == term + after;
    assert term <= text[|before|..];
  }
}
