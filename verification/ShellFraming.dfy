/**
 The framing of commands in a persistent shell session. Each command is followed by a marker
 with the exit code, the working directory and an end marker; the reader decodes the chunks of
 bytes the terminal sends, each by itself, until the end marker is there and takes the frame
 apart. Text is already sanitised: no carriage returns and no escape sequences.
 */
module ShellFraming {
  import opened Basics
  import Decimal
  import opened Text
  import opened Utf8

  // ---------------------------------------------------------------------------------------------
  // Searching text
  // ---------------------------------------------------------------------------------------------

  predicate At(text: string, pat: string, i: nat) {
    i + |pat| <= |text| && text[i..i + |pat|] == pat
  }

  predicate Occurs(text: string, pat: string) {
    exists i :: 0 <= i <= |text| && At(text, pat, i)
  }

  // The first position at or after `from`.
  function First(text: string, pat: string, from: nat): (r: Option<nat>)
    requires from <= |text|
    ensures r.Some? ==>
      from <= r.value && At(text, pat, r.value) && forall j :: from <= j < r.value ==> !At(text, pat, j)
    ensures r.None? ==> forall j :: from <= j <= |text| ==> !At(text, pat, j)
    decreases |text| - from
  {
    if At(text, pat, from) then Some(from)
    else if from == |text| then None
    else First(text, pat, from + 1)
  }

  // The last position at or before `from`.
  function Last(text: string, pat: string, from: nat): (r: Option<nat>)
    requires from <= |text|
    ensures r.Some? ==>
      r.value <= from && At(text, pat, r.value) && forall j :: r.value < j <= from ==> !At(text, pat, j)
    ensures r.None? ==> forall j :: 0 <= j <= from ==> !At(text, pat, j)
  {
    if At(text, pat, from) then Some(from)
    else if from == 0 then None
    else Last(text, pat, from - 1)
  }

  // `str.partition` and `str.rpartition`: what precedes the separator and what follows it.
  function Partition(text: string, sep: string): (string, string) {
    match First(text, sep, 0)
    case Some(i) => (text[..i], text[i + |sep|..])
    case None => (text, "")
  }

  function RPartition(text: string, sep: string): Option<(string, string)> {
    match Last(text, sep, |text|)
    case Some(i) => Some((text[..i], text[i + |sep|..]))
    case None => None
  }

  predicate IsLineBreak(c: char) {
    c in "\n\r\U{000B}\U{000C}\U{001C}\U{001D}\U{001E}\U{0085}\U{2028}\U{2029}"
  }

  function StripLeft(text: string, drop: char -> bool): (r: string)
    ensures r != [] ==> !drop(r[0])
    ensures text != [] && !drop(text[0]) ==> r == text
    ensures (forall c :: c in text ==> drop(c)) <==> r == []
  {
    if text != [] && drop(text[0]) then StripLeft(text[1..], drop) else text
  }

  function StripRight(text: string, drop: char -> bool): (r: string)
    ensures r != [] ==> !drop(r[|r| - 1])
    ensures r == [] ==> forall c :: c in text ==> drop(c)
    ensures text != [] && !drop(text[|text| - 1]) ==> r == text
  {
    if text != [] && drop(text[|text| - 1]) then StripRight(text[..|text| - 1], drop) else text
  }

  function Strip(text: string, drop: char -> bool): string {
    StripRight(StripLeft(text, drop), drop)
  }

  predicate IsNewline(c: char) {
    c == '\n'
  }

  // The part before the first line break.
  function FirstLine(text: string): (r: string)
    ensures r <= text && forall c :: c in r ==> !IsLineBreak(c)
    ensures |r| < |text| ==> IsLineBreak(text[|r|])
  {
    if text == [] || IsLineBreak(text[0]) then [] else [text[0]] + FirstLine(text[1..])
  }

  function SplitLines(text: string): seq<string> {
    if text == [] then [] else
      var line := FirstLine(text);
      if |line| == |text| then [line] else [line] + SplitLines(text[|line| + 1..])
  }

  // ---------------------------------------------------------------------------------------------
  // The frame
  // ---------------------------------------------------------------------------------------------

  /** A marker holds a fresh random hexadecimal number. */
  predicate IsMarker(m: string) {
    && |m| == 48 && m[..14] == "__Z3CLI_SHELL_" && m[46..] == "__"
    && forall i :: 14 <= i < 46 ==> '0' <= m[i] <= '9' || 'a' <= m[i] <= 'f'
  }

  lemma MarkerChars(m: string)
    requires IsMarker(m)
    ensures forall i :: 0 <= i < |m| ==> m[i] != '\n' && m[i] != ':'
  {
    forall i | 0 <= i < |m|
      ensures m[i] != '\n' && m[i] != ':'
    {
      if i < 14 {
        assert m[i] == m[..14][i];
      } else if i >= 46 {
        assert m[i] == m[46..][i - 46];
      }
    }
  }

  function StatusMark(m: string): string {
    m + ":"
  }

  function EndMark(m: string): string {
    m + "_END"
  }

  // What the terminal shows for a command: its output, then the three printed lines.
  function Frame(m: string, output: string, code: nat, cwd: string): string {
    output + "\n" + StatusMark(m) + Decimal.Print(code) + "\n" + cwd + "\n" + EndMark(m) + "\n"
  }

  function ParseInt(text: string): int {
    if Decimal.IsNumber(text) then Decimal.Value(text) as int
    else if text != [] && text[0] == '-' && Decimal.IsNumber(text[1..]) then 0 - Decimal.Value(text[1..])
    else 1
  }

  datatype Parsed = Parsed(output: string, exitCode: int, cwd: string)

  // The last line that is not blank.
  function LastNonBlank(lines: seq<string>): Option<string> {
    if lines == [] then None
    else
      var line := Strip(lines[|lines| - 1], IsSpace);
      if line != "" then Some(line) else LastNonBlank(lines[..|lines| - 1])
  }

  /** Blank lines after it do not count, and without any other there is none. */
  lemma {:induction false} LastNonBlankIs(lines: seq<string>, k: nat)
    requires k <= |lines| && forall i :: k <= i < |lines| ==> Strip(lines[i], IsSpace) == ""
    requires k > 0 ==> Strip(lines[k - 1], IsSpace) != ""
    ensures LastNonBlank(lines) == if k == 0 then None else Some(Strip(lines[k - 1], IsSpace))
  {
    if k < |lines| {
      LastNonBlankIs(lines[..|lines| - 1], k);
    }
  }

  function Parse(raw: string, m: string, current: string): Option<Parsed> {
    match RPartition(raw, StatusMark(m))
    case None => None
    case Some((before, tail)) =>
      var (exitLine, remainder) := Partition(tail, "\n");
      var (block, _) := Partition(remainder, EndMark(m));
      var cwd := match LastNonBlank(SplitLines(block)) case Some(line) => line case None => current;
      Some(Parsed(Strip(before, IsNewline), ParseInt(Strip(exitLine, IsSpace)), cwd))
  }

  function Join(chunks: seq<string>): string {
    if chunks == [] then "" else Join(chunks[..|chunks| - 1]) + chunks[|chunks| - 1]
  }

  // The first `k` chunks are the fewest that contain the marker.
  ghost predicate FirstWith(chunks: seq<string>, k: nat, marker: string)
    requires k <= |chunks|
  {
    Occurs(Join(chunks[..k]), marker) && forall j :: 0 <= j < k ==> !Occurs(Join(chunks[..j]), marker)
  }

  /** Collects the chunks that arrive before the deadline until the end marker is there, after the
      first `k` of them. */
  method ReadUntil(chunks: seq<Bytes>, marker: string) returns (r: Option<string>, ghost k: nat)
    requires marker != ""
    ensures k <= |chunks|
    ensures r.Some? ==> r.value == Join(Decoded(chunks)[..k]) && FirstWith(Decoded(chunks), k, marker)
    ensures r.None? ==> !Occurs(Join(Decoded(chunks)), marker)
  {
    var joined := "";
    for i := 0 to |chunks|
      invariant Unfound(chunks, i, joined, marker)
    {
      ReadNext(chunks, i, joined, marker);
      joined := joined + Decode(chunks[i]);
      if First(joined, marker, 0).Some? {
        return Some(joined), i + 1;
      }
    }
    assert Decoded(chunks)[..|chunks|] == Decoded(chunks);
    return None, |chunks|;
  }

  // The first `i` chunks have been joined and the marker has not been seen.
  ghost predicate Unfound(chunks: seq<Bytes>, i: nat, joined: string, marker: string)
    requires i <= |chunks|
  {
    && joined == Join(Decoded(chunks)[..i])
    && forall j :: 0 <= j <= i ==> !Occurs(Join(Decoded(chunks)[..j]), marker)
  }

  lemma ReadNext(chunks: seq<Bytes>, i: nat, joined: string, marker: string)
    requires i < |chunks| && Unfound(chunks, i, joined, marker)
    ensures joined + Decode(chunks[i]) == Join(Decoded(chunks)[..i + 1])
    ensures if First(joined + Decode(chunks[i]), marker, 0).Some? then FirstWith(Decoded(chunks), i + 1, marker)
            else Unfound(chunks, i + 1, joined + Decode(chunks[i]), marker)
  {
    JoinNext(Decoded(chunks), i);
    OccursIff(joined + Decode(chunks[i]), marker);
  }

  lemma OccursIff(text: string, pat: string)
    ensures First(text, pat, 0).Some? <==> Occurs(text, pat)
  {}

  lemma JoinNext(texts: seq<string>, i: nat)
    requires i < |texts|
    ensures Join(texts[..i + 1]) == Join(texts[..i]) + texts[i]
  {
    assert texts[..i + 1][..i] == texts[..i];
  }

  // ---------------------------------------------------------------------------------------------
  // Where the marks are
  // ---------------------------------------------------------------------------------------------

  lemma AtChars(text: string, pat: string, i: nat)
    requires i + |pat| <= |text|
    ensures At(text, pat, i) <==> forall j {:trigger text[j]} :: i <= j < i + |pat| ==> text[j] == pat[j - i]
  {
    if At(text, pat, i) {
      forall j | i <= j < i + |pat|
        ensures text[j] == pat[j - i]
      {
        assert text[i..i + |pat|][j - i] == text[j];
      }
    }
  }

  // A pattern without a newline lies within one line.
  lemma WithinLine(text: string, pat: string, i: nat, n: nat)
    requires At(text, pat, i) && n < |text| && text[n] == '\n'
    requires forall k :: 0 <= k < |pat| ==> pat[k] != '\n'
    ensures i + |pat| <= n || n < i
  {
    AtChars(text, pat, i);
  }

  lemma AtWithin(text: string, pat: string, i: nat, from: nat, to: nat)
    requires At(text, pat, i) && from <= i && i + |pat| <= to <= |text|
    ensures At(text[from..to], pat, i - from) && Occurs(text[from..to], pat)
  {
    AtChars(text, pat, i);
    AtChars(text[from..to], pat, i - from);
  }

  // A frame as read so far, with the text after its end mark.
  function Raw(m: string, output: string, code: nat, cwd: string, junk: string): string {
    output + "\n" + (StatusMark(m) + Decimal.Print(code)) + "\n" + cwd + "\n" + (EndMark(m) + junk)
  }

  function StatusLine(m: string, output: string): nat {
    |output| + 1
  }

  function CwdLine(m: string, output: string, code: nat): nat {
    |output| + |StatusMark(m)| + |Decimal.Print(code)| + 2
  }

  function EndLine(m: string, output: string, code: nat, cwd: string): nat {
    CwdLine(m, output, code) + |cwd| + 1
  }

  lemma Layout(m: string, output: string, code: nat, cwd: string, junk: string)
    ensures var raw := Raw(m, output, code, cwd, junk);
      var a, b, e := StatusLine(m, output), CwdLine(m, output, code), EndLine(m, output, code, cwd);
      && a < b < e <= |raw| && raw[a - 1] == raw[b - 1] == raw[e - 1] == '\n'
      && raw[..a - 1] == output && raw[a..b - 1] == StatusMark(m) + Decimal.Print(code)
      && raw[b..e - 1] == cwd && raw[e..] == EndMark(m) + junk
  {}

  // In the status line neither mark occurs past its beginning.
  lemma StatusLineMarks(m: string, code: nat, i: nat)
    requires IsMarker(m)
    ensures !At(StatusMark(m) + Decimal.Print(code), EndMark(m), i)
    ensures i > 0 ==> !At(StatusMark(m) + Decimal.Print(code), StatusMark(m), i)
  {
    var line, digits := StatusMark(m) + Decimal.Print(code), Decimal.Print(code);
    assert forall k :: |m| < k < |line| ==> line[k] == digits[k - |m| - 1];
    if i + |EndMark(m)| <= |line| {
      AtChars(line, EndMark(m), i);
      assert EndMark(m)[|m| + 3] == 'D' && line[i + (|m| + 3)] != 'D';
    }
    if i > 0 && i + |StatusMark(m)| <= |line| {
      AtChars(line, StatusMark(m), i);
      assert StatusMark(m)[|m|] == ':' && line[i + |m|] != ':';
    }
  }

  lemma MarksOneLine(m: string)
    requires IsMarker(m)
    ensures forall k :: 0 <= k < |EndMark(m)| ==> EndMark(m)[k] != '\n' && EndMark(m)[k] != ':'
    ensures forall k :: 0 <= k < |StatusMark(m)| ==> StatusMark(m)[k] != '\n'
  {
    MarkerChars(m);
  }

  // A mark within one line occurs in that line.
  lemma InLine(raw: string, pat: string, i: nat, from: nat, to: nat)
    requires At(raw, pat, i) && from <= i && to < |raw| && raw[to] == '\n' && i <= to
    requires forall k :: 0 <= k < |pat| ==> pat[k] != '\n'
    ensures i + |pat| <= to && At(raw[from..to], pat, i - from) && Occurs(raw[from..to], pat)
  {
    WithinLine(raw, pat, i, to);
    AtWithin(raw, pat, i, from, to);
  }

  // Each position before the end mark lies in one of three lines.
  lemma EndNotIn(m: string, raw: string, line: string, i: nat, from: nat, to: nat)
    requires IsMarker(m) && from <= i <= to < |raw| && raw[to] == '\n' && raw[from..to] == line
    requires forall k :: !At(line, EndMark(m), k)
    ensures !At(raw, EndMark(m), i)
  {
    MarksOneLine(m);
    if At(raw, EndMark(m), i) {
      InLine(raw, EndMark(m), i, from, to);
    }
  }

  lemma NotOccurs(text: string, pat: string)
    requires pat != "" && !Occurs(text, pat)
    ensures forall k :: !At(text, pat, k)
  {}

  /** The end mark first occurs where the frame puts it. */
  lemma EndFirst(m: string, output: string, code: nat, cwd: string, junk: string, i: nat)
    requires IsMarker(m) && !Occurs(output, EndMark(m)) && !Occurs(cwd, EndMark(m))
    requires i < EndLine(m, output, code, cwd)
    ensures !At(Raw(m, output, code, cwd, junk), EndMark(m), i)
  {
    var raw := Raw(m, output, code, cwd, junk);
    var a, b, e := StatusLine(m, output), CwdLine(m, output, code), EndLine(m, output, code, cwd);
    Layout(m, output, code, cwd, junk);
    if i < a {
      NotOccurs(output, EndMark(m));
      assert raw[0..a - 1] == raw[..a - 1];
      EndNotIn(m, raw, output, i, 0, a - 1);
    } else if i < b {
      forall k ensures !At(StatusMark(m) + Decimal.Print(code), EndMark(m), k) {
        StatusLineMarks(m, code, k);
      }
      EndNotIn(m, raw, StatusMark(m) + Decimal.Print(code), i, a, b - 1);
    } else {
      NotOccurs(cwd, EndMark(m));
      EndNotIn(m, raw, cwd, i, b, e - 1);
    }
  }

  lemma EndThere(m: string, output: string, code: nat, cwd: string, junk: string)
    ensures At(Raw(m, output, code, cwd, junk), EndMark(m), EndLine(m, output, code, cwd))
  {
    var raw, e := Raw(m, output, code, cwd, junk), EndLine(m, output, code, cwd);
    Layout(m, output, code, cwd, junk);
    assert raw[e..][..|EndMark(m)|] == EndMark(m);
    assert raw[e..e + |EndMark(m)|] == raw[e..][..|EndMark(m)|];
  }

  /** What follows the end mark: nothing yet, or a newline and text without the status mark. */
  predicate Follows(m: string, junk: string) {
    junk == "" || (junk[0] == '\n' && !Occurs(junk[1..], StatusMark(m)))
  }

  lemma StatusNotIn(m: string, raw: string, line: string, i: nat, from: nat, to: nat)
    requires IsMarker(m) && from <= i <= to < |raw| && raw[to] == '\n' && raw[from..to] == line
    requires !At(line, StatusMark(m), i - from)
    ensures !At(raw, StatusMark(m), i)
  {
    MarksOneLine(m);
    if At(raw, StatusMark(m), i) {
      InLine(raw, StatusMark(m), i, from, to);
    }
  }

  lemma StatusNotAfter(m: string, raw: string, junk: string, i: nat, e: nat)
    requires IsMarker(m) && Follows(m, junk) && e <= i && e <= |raw| && raw[e..] == EndMark(m) + junk
    ensures !At(raw, StatusMark(m), i)
  {
    if At(raw, StatusMark(m), i) {
      AtWithin(raw, StatusMark(m), i, e, |raw|);
      assert raw[e..|raw|] == raw[e..];
      AfterEnd(m, junk, i - e);
    }
  }

  /** The status mark last occurs where the frame puts it, even if the output mentions it. */
  lemma StatusLast(m: string, output: string, code: nat, cwd: string, junk: string, i: nat)
    requires IsMarker(m) && !Occurs(cwd, StatusMark(m)) && Follows(m, junk)
    requires StatusLine(m, output) < i
    ensures !At(Raw(m, output, code, cwd, junk), StatusMark(m), i)
  {
    var raw := Raw(m, output, code, cwd, junk);
    var a, b, e := StatusLine(m, output), CwdLine(m, output, code), EndLine(m, output, code, cwd);
    Layout(m, output, code, cwd, junk);
    if i < b {
      StatusLineMarks(m, code, i - a);
      StatusNotIn(m, raw, StatusMark(m) + Decimal.Print(code), i, a, b - 1);
    } else if i < e {
      NotOccurs(cwd, StatusMark(m));
      StatusNotIn(m, raw, cwd, i, b, e - 1);
    } else {
      StatusNotAfter(m, raw, junk, i, e);
    }
  }

  lemma AfterEnd(m: string, junk: string, i: nat)
    requires IsMarker(m) && Follows(m, junk)
    ensures !At(EndMark(m) + junk, StatusMark(m), i)
  {
    var line, end := EndMark(m) + junk, |EndMark(m)|;
    MarksOneLine(m);
    if At(line, StatusMark(m), i) {
      AtChars(line, StatusMark(m), i);
      assert StatusMark(m)[|m|] == ':' && line[i + |m|] == ':';
      assert end < |line| && line[end] == '\n' && line[end + 1..|line|] == junk[1..];
      WithinLine(line, StatusMark(m), i, end);
      AtWithin(line, StatusMark(m), i, end + 1, |line|);
    }
  }

  lemma StatusThere(m: string, output: string, code: nat, cwd: string, junk: string)
    ensures At(Raw(m, output, code, cwd, junk), StatusMark(m), StatusLine(m, output))
  {
    var raw, a, b := Raw(m, output, code, cwd, junk), StatusLine(m, output), CwdLine(m, output, code);
    Layout(m, output, code, cwd, junk);
    assert raw[a..b - 1][..|StatusMark(m)|] == StatusMark(m);
    assert raw[a..a + |StatusMark(m)|] == raw[a..b - 1][..|StatusMark(m)|];
  }

  // ---------------------------------------------------------------------------------------------
  // Taking the frame apart
  // ---------------------------------------------------------------------------------------------

  // The separator is found where it is first.
  lemma PartitionAt(text: string, sep: string, i: nat)
    requires At(text, sep, i) && forall j :: 0 <= j < i ==> !At(text, sep, j)
    ensures Partition(text, sep) == (text[..i], text[i + |sep|..])
  {}

  lemma RPartitionAt(text: string, sep: string, i: nat)
    requires At(text, sep, i) && forall j :: i < j <= |text| ==> !At(text, sep, j)
    ensures RPartition(text, sep) == Some((text[..i], text[i + |sep|..]))
  {}

  lemma {:induction false} StripLeftSnoc(text: string, c: char, drop: char -> bool)
    requires drop(c)
    ensures StripLeft(text + [c], drop) == if StripLeft(text, drop) == [] then [] else StripLeft(text, drop) + [c]
  {
    if text == [] {
      assert [c][1..] == [];
    } else {
      assert (text + [c])[1..] == text[1..] + [c];
      if drop(text[0]) {
        StripLeftSnoc(text[1..], c, drop);
      }
    }
  }

  lemma StripSnoc(text: string, c: char, drop: char -> bool)
    requires drop(c)
    ensures Strip(text + [c], drop) == Strip(text, drop)
  {
    StripLeftSnoc(text, c, drop);
    var l := StripLeft(text, drop);
    assert (l + [c])[..|l|] == l;
  }

  lemma StripDigits(n: nat)
    ensures Strip(Decimal.Print(n), IsSpace) == Decimal.Print(n)
  {
    var d := Decimal.Print(n);
    assert !IsSpace(d[0]) && !IsSpace(d[|d| - 1]);
  }

  lemma {:induction false} FirstLineAll(line: string)
    requires forall c :: c in line ==> !IsLineBreak(c)
    ensures FirstLine(line + "\n") == line
  {
    if line != [] {
      assert (line + "\n")[1..] == line[1..] + "\n";
      assert line[0] in line;
      FirstLineAll(line[1..]);
    }
  }

  lemma OneLine(line: string)
    requires forall c :: c in line ==> !IsLineBreak(c)
    ensures SplitLines(line + "\n") == [line]
  {
    FirstLineAll(line);
    assert (line + "\n")[|line| + 1..] == "";
  }

  lemma RestOfFrame(m: string, code: nat, cwd: string, junk: string)
    requires IsMarker(m) && !Occurs(cwd, EndMark(m)) && forall c :: c in cwd ==> c != '\n'
    ensures var tail := Decimal.Print(code) + "\n" + cwd + "\n" + EndMark(m) + junk;
      var rest := cwd + "\n" + EndMark(m) + junk;
      Partition(tail, "\n") == (Decimal.Print(code), rest) && Partition(rest, EndMark(m)).0 == cwd + "\n"
  {
    var d := Decimal.Print(code);
    var rest := cwd + "\n" + (EndMark(m) + junk);
    var tail := d + "\n" + rest;
    assert tail == d + "\n" + cwd + "\n" + EndMark(m) + junk;
    assert rest == cwd + "\n" + EndMark(m) + junk;
    AtChars(tail, "\n", |d|);
    forall j | 0 <= j < |d|
      ensures !At(tail, "\n", j)
    {
      AtChars(tail, "\n", j);
      assert tail[j + 0] == d[j];
    }
    PartitionAt(tail, "\n", |d|);
    assert tail[..|d|] == d && tail[|d| + 1..] == rest;
    RestOfCwd(m, cwd, junk);
  }

  lemma RestOfCwd(m: string, cwd: string, junk: string)
    requires IsMarker(m) && !Occurs(cwd, EndMark(m))
    ensures Partition(cwd + "\n" + (EndMark(m) + junk), EndMark(m)).0 == cwd + "\n"
  {
    var rest := cwd + "\n" + (EndMark(m) + junk);
    MarksOneLine(m);
    AtChars(rest, EndMark(m), |cwd| + 1);
    assert rest[0..|cwd|] == cwd;
    forall j | 0 <= j < |cwd| + 1
      ensures !At(rest, EndMark(m), j)
    {
      if At(rest, EndMark(m), j) {
        WithinLine(rest, EndMark(m), j, |cwd|);
        AtWithin(rest, EndMark(m), j, 0, |cwd|);
      }
    }
    PartitionAt(rest, EndMark(m), |cwd| + 1);
    assert rest[..|cwd| + 1] == cwd + "\n";
  }

  /** A directory name the shell can print on one line: no line break, not blank. */
  predicate IsDirectory(m: string, cwd: string) {
    && (forall c :: c in cwd ==> !IsLineBreak(c))
    && Strip(cwd, IsSpace) != ""
    && !Occurs(cwd, StatusMark(m)) && !Occurs(cwd, EndMark(m))
  }

  lemma Pieces(m: string, output: string, code: nat, cwd: string, junk: string)
    ensures var raw, a := Raw(m, output, code, cwd, junk), StatusLine(m, output);
      && raw[..a] == output + ['\n']
      && a + |StatusMark(m)| <= |raw|
      && raw[a + |StatusMark(m)|..] == Decimal.Print(code) + "\n" + cwd + "\n" + EndMark(m) + junk
  {
    var head := output + ['\n'];
    var tail := Decimal.Print(code) + "\n" + cwd + "\n" + EndMark(m) + junk;
    assert Raw(m, output, code, cwd, junk) == head + (StatusMark(m) + tail);
  }

  lemma StatusSplit(m: string, output: string, code: nat, cwd: string, junk: string)
    requires IsMarker(m) && !Occurs(cwd, StatusMark(m)) && Follows(m, junk)
    ensures RPartition(Raw(m, output, code, cwd, junk), StatusMark(m))
         == Some((output + ['\n'], Decimal.Print(code) + "\n" + cwd + "\n" + EndMark(m) + junk))
  {
    var raw, a := Raw(m, output, code, cwd, junk), StatusLine(m, output);
    StatusThere(m, output, code, cwd, junk);
    forall j | a < j <= |raw|
      ensures !At(raw, StatusMark(m), j)
    {
      StatusLast(m, output, code, cwd, junk, j);
    }
    RPartitionAt(raw, StatusMark(m), a);
    Pieces(m, output, code, cwd, junk);
  }

  /** Parsing a frame gives back what was printed. */
  lemma ParseRaw(m: string, output: string, code: nat, cwd: string, junk: string, current: string)
    requires IsMarker(m) && IsDirectory(m, cwd) && Follows(m, junk)
    ensures Parse(Raw(m, output, code, cwd, junk), m, current)
         == Some(Parsed(Strip(output, IsNewline), code, Strip(cwd, IsSpace)))
  {
    StatusSplit(m, output, code, cwd, junk);
    StripSnoc(output, '\n', IsNewline);
    RestOfFrame(m, code, cwd, junk);
    StripDigits(code);
    Decimal.RoundTrip(code);
    OneLine(cwd);
  }

  /** Without a status mark nothing can be parsed, and with one something always is. */
  lemma ParsesIff(raw: string, m: string, current: string)
    ensures Parse(raw, m, current).Some? <==> Occurs(raw, StatusMark(m))
  {}

  /** A directory line that is blank leaves the session where it is. */
  lemma BlankDirectory(m: string, output: string, code: nat, cwd: string, junk: string, current: string)
    requires IsMarker(m) && Follows(m, junk) && !Occurs(cwd, StatusMark(m)) && !Occurs(cwd, EndMark(m))
    requires (forall c :: c in cwd ==> !IsLineBreak(c)) && Strip(cwd, IsSpace) == ""
    ensures Parse(Raw(m, output, code, cwd, junk), m, current) == Some(Parsed(Strip(output, IsNewline), code, current))
  {
    StatusSplit(m, output, code, cwd, junk);
    StripSnoc(output, '\n', IsNewline);
    RestOfFrame(m, code, cwd, junk);
    StripDigits(code);
    Decimal.RoundTrip(code);
    OneLine(cwd);
    assert [cwd][..0] == [];
    assert LastNonBlank([cwd]) == None;
  }

  /** What stands for the exit code: a number is read with its sign, anything else counts as 1. */
  lemma ExitCodeMeaning(n: nat, text: string)
    ensures ParseInt(Decimal.Print(n)) == n && ParseInt("-" + Decimal.Print(n)) == 0 - n
    ensures (exists i :: 0 <= i < |text| && !('0' <= text[i] <= '9') && !(i == 0 && text[i] == '-')) ==>
      ParseInt(text) == 1
    ensures ParseInt("") == 1
  {
    Decimal.RoundTrip(n);
    assert ("-" + Decimal.Print(n))[1..] == Decimal.Print(n);
    if i :| 0 <= i < |text| && !('0' <= text[i] <= '9') && !(i == 0 && text[i] == '-') {
      assert !Decimal.AllDigits(text);
      assert i > 0 ==> text[1..][i - 1] == text[i];
    }
  }

  lemma {:induction false} JoinPrefix(chunks: seq<string>, k: nat)
    requires k <= |chunks|
    ensures Join(chunks[..k]) <= Join(chunks)
    decreases |chunks| - k
  {
    if k == |chunks| {
      assert chunks[..k] == chunks;
    } else {
      assert chunks[..k + 1][..k] == chunks[..k];
      JoinPrefix(chunks, k + 1);
    }
  }

  // Where a mark found in a prefix ends.
  lemma FoundInPrefix(raw: string, full: string, pat: string, e: nat)
    requires raw <= full && Occurs(raw, pat) && forall i: nat :: i < e ==> !At(full, pat, i)
    ensures e + |pat| <= |raw|
  {
    var i :| 0 <= i <= |raw| && At(raw, pat, i);
    assert full[i..i + |pat|] == raw[i..i + |pat|];
    assert At(full, pat, i);
  }

  lemma RawAppend(m: string, output: string, code: nat, cwd: string, junk: string)
    ensures Raw(m, output, code, cwd, junk) == Raw(m, output, code, cwd, "") + junk
    ensures |Raw(m, output, code, cwd, "")| == EndLine(m, output, code, cwd) + |EndMark(m)|
  {}

  lemma SplitPrefix(frame: string, junk: string, raw: string) returns (got: string)
    requires raw <= frame + junk && |frame| <= |raw|
    ensures got <= junk && raw == frame + got
  {
    got := junk[..|raw| - |frame|];
    assert raw == (frame + junk)[..|raw|];
  }

  // A prefix of the stream that contains the end mark contains the whole frame.
  lemma PrefixIsRaw(m: string, output: string, code: nat, cwd: string, junk: string, raw: string) returns (got: string)
    requires IsMarker(m) && !Occurs(output, EndMark(m)) && !Occurs(cwd, EndMark(m))
    requires raw <= Raw(m, output, code, cwd, junk) && Occurs(raw, EndMark(m))
    ensures got <= junk && raw == Raw(m, output, code, cwd, got)
  {
    var e := EndLine(m, output, code, cwd);
    forall i: nat | i < e ensures !At(Raw(m, output, code, cwd, junk), EndMark(m), i) {
      EndFirst(m, output, code, cwd, junk, i);
    }
    FoundInPrefix(raw, Raw(m, output, code, cwd, junk), EndMark(m), e);
    RawAppend(m, output, code, cwd, junk);
    got := SplitPrefix(Raw(m, output, code, cwd, ""), junk, raw);
    RawAppend(m, output, code, cwd, got);
  }

  lemma FollowsPrefix(m: string, rest: string, junk: string)
    requires junk <= "\n" + rest && !Occurs(rest, StatusMark(m))
    ensures Follows(m, junk)
  {
    if junk != "" {
      assert junk[0] == ("\n" + rest)[0];
      if Occurs(junk[1..], StatusMark(m)) {
        var i :| 0 <= i <= |junk[1..]| && At(junk[1..], StatusMark(m), i);
        AtChars(junk[1..], StatusMark(m), i);
        AtChars(rest, StatusMark(m), i);
      }
    }
  }

  lemma FrameIsRaw(m: string, output: string, code: nat, cwd: string, rest: string)
    ensures Frame(m, output, code, cwd) + rest == Raw(m, output, code, cwd, "\n" + rest)
  {
    var head := output + "\n" + StatusMark(m) + Decimal.Print(code) + "\n" + cwd + "\n" + EndMark(m);
    assert Frame(m, output, code, cwd) + rest == head + ("\n" + rest);
    assert Raw(m, output, code, cwd, "\n" + rest) == head + ("\n" + rest);
  }

  // A reader of decoded chunks, the fewest that hold the end mark, parses the frame they hold. The
  // output may even contain the status mark.
  lemma TextRoundTrip(m: string, output: string, code: nat, cwd: string, rest: string, chunks: seq<string>,
                         k: nat, current: string)
    requires IsMarker(m) && IsDirectory(m, cwd) && !Occurs(output, EndMark(m)) && !Occurs(rest, StatusMark(m))
    requires Join(chunks) == Frame(m, output, code, cwd) + rest
    requires k <= |chunks| && FirstWith(chunks, k, EndMark(m))
    ensures Parse(Join(chunks[..k]), m, current) == Some(Parsed(Strip(output, IsNewline), code, Strip(cwd, IsSpace)))
  {
    FrameIsRaw(m, output, code, cwd, rest);
    JoinPrefix(chunks, k);
    var got := PrefixIsRaw(m, output, code, cwd, "\n" + rest, Join(chunks[..k]));
    FollowsPrefix(m, rest, got);
    ParseRaw(m, output, code, cwd, got, current);
  }

  lemma FrameHasEnd(m: string, output: string, code: nat, cwd: string, rest: string)
    ensures Occurs(Frame(m, output, code, cwd) + rest, EndMark(m))
  {
    FrameIsRaw(m, output, code, cwd, rest);
    EndThere(m, output, code, cwd, "\n" + rest);
  }

  // ---------------------------------------------------------------------------------------------
  // From bytes
  // ---------------------------------------------------------------------------------------------

  lemma {:induction false} JoinCons(first: string, chunks: seq<string>)
    ensures Join([first] + chunks) == first + Join(chunks)
  {
    if chunks == [] {
      assert [first] + chunks == [first] && [first][..0] == [];
      assert Join([first]) == Join([]) + first;
    } else {
      var front, last := chunks[..|chunks| - 1], chunks[|chunks| - 1];
      assert ([first] + chunks)[..|chunks|] == [first] + front;
      JoinCons(first, front);
    }
  }

  lemma {:induction false} JoinDecoded(chunks: seq<Bytes>)
    ensures Join(Decoded(chunks)) == DecodeAll(chunks)
  {
    if chunks != [] {
      JoinDecoded(chunks[1..]);
      JoinCons(Decode(chunks[0]), Decoded(chunks[1..]));
      assert Decoded(chunks) == [Decode(chunks[0])] + Decoded(chunks[1..]);
    }
  }

  predicate AllAscii(text: string) {
    forall c :: c in text ==> IsAscii(c)
  }

  lemma MarksAscii(m: string, code: nat)
    requires IsMarker(m)
    ensures AllAscii(StatusMark(m)) && AllAscii(EndMark(m)) && AllAscii(Decimal.Print(code))
  {
    forall i | 0 <= i < |m|
      ensures IsAscii(m[i])
    {
      if i < 14 {
        assert m[i] == m[..14][i];
      } else if i >= 46 {
        assert m[i] == m[46..][i - 46];
      }
    }
  }

  lemma AllReplaced(seen: string, n: nat)
    requires n <= |seen| && seen[..n] == Replacements(n)
    ensures forall j :: 0 <= j < n ==> seen[j] == REPLACEMENT
  {
    forall j | 0 <= j < n ensures seen[j] == REPLACEMENT {
      assert seen[j] == seen[..n][j];
    }
  }

  // What became of the first character: itself, or two or more replacements.
  lemma FirstGarbled(text: string, seen: string) returns (n: nat)
    requires Garbles(text, seen) && text != ""
    ensures 1 <= n <= |seen| && Garbles(text[1..], seen[n..])
    ensures if n == 1 then seen[0] == text[0] else
      !IsAscii(text[0]) && seen[..n] == Replacements(n) && forall j :: 0 <= j < n ==> seen[j] == REPLACEMENT
  {
    if seen != "" && seen[0] == text[0] && Garbles(text[1..], seen[1..]) {
      n := 1;
    } else {
      n :| 2 <= n <= |seen| && seen[..n] == Replacements(n) && Garbles(text[1..], seen[n..]);
      AllReplaced(seen, n);
    }
  }

  // A garbled text begins with no ASCII text of its own.
  lemma {:induction false} GarblesPrefix(text: string, seen: string, pat: string)
    requires Garbles(text, seen) && AllAscii(pat) && pat <= seen
    ensures pat <= text
  {
    if pat != "" {
      assert pat[0] in pat && seen[0] == pat[0];
      var n := FirstGarbled(text, seen);
      assert forall c :: c in pat[1..] ==> c in pat;
      GarblesPrefix(text[1..], seen[1..], pat[1..]);
    }
  }

  // Nor does it have any later.
  lemma {:induction false} GarblesAt(text: string, seen: string, pat: string, i: nat)
    requires Garbles(text, seen) && AllAscii(pat) && pat != "" && i <= |seen| && pat <= seen[i..]
    ensures Occurs(text, pat)
  {
    if i == 0 {
      GarblesPrefix(text, seen, pat);
      assert At(text, pat, 0);
    } else {
      assert pat[0] in pat && pat[0] == seen[i..][0] == seen[i];
      var n := FirstGarbled(text, seen);
      assert i >= n && seen[n..][i - n..] == seen[i..];
      GarblesAt(text[1..], seen[n..], pat, i - n);
      OccursLater(text, pat);
    }
  }

  lemma OccursLater(text: string, pat: string)
    requires text != "" && Occurs(text[1..], pat)
    ensures Occurs(text, pat)
  {
    var i :| 0 <= i <= |text[1..]| && At(text[1..], pat, i);
    assert At(text, pat, i + 1);
  }

  lemma GarblesOccurs(text: string, seen: string, pat: string)
    requires Garbles(text, seen) && AllAscii(pat) && pat != "" && Occurs(seen, pat)
    ensures Occurs(text, pat)
  {
    var i :| 0 <= i <= |seen| && At(seen, pat, i);
    assert seen[i..][..|pat|] == seen[i..i + |pat|];
    GarblesAt(text, seen, pat, i);
  }

  lemma {:induction false} GarblesChars(text: string, seen: string)
    requires Garbles(text, seen)
    ensures forall c :: c in seen ==> c == REPLACEMENT || c in text
    ensures forall c :: c in text ==> c in seen || REPLACEMENT in seen
  {
    if text != "" {
      var n := FirstGarbled(text, seen);
      GarblesChars(text[1..], seen[n..]);
      assert text == [text[0]] + text[1..];
      assert seen == seen[..n] + seen[n..] && seen[0] in seen;
    }
  }

  lemma StripNonBlank(text: string, c: char)
    requires c in text && !IsSpace(c)
    ensures Strip(text, IsSpace) != ""
  {
    assert StripLeft(text, IsSpace) != "";
    assert StripLeft(text, IsSpace)[0] in StripLeft(text, IsSpace);
  }

  lemma SomeNonBlank(text: string) returns (c: char)
    requires Strip(text, IsSpace) != ""
    ensures c in text && !IsSpace(c)
  {
    assert StripLeft(text, IsSpace) != "";
    c :| c in text && !IsSpace(c);
  }

  lemma GarbledWithout(text: string, seen: string, pat: string)
    requires Garbles(text, seen) && AllAscii(pat) && pat != "" && !Occurs(text, pat)
    ensures !Occurs(seen, pat)
  {
    if Occurs(seen, pat) {
      GarblesOccurs(text, seen, pat);
    }
  }

  lemma GarbledNonBlank(text: string, seen: string)
    requires Garbles(text, seen) && Strip(text, IsSpace) != ""
    ensures Strip(seen, IsSpace) != ""
  {
    GarblesChars(text, seen);
    var c := SomeNonBlank(text);
    StripNonBlank(seen, if c in seen then c else REPLACEMENT);
  }

  lemma GarbledDirectory(m: string, cwd: string, seen: string)
    requires IsMarker(m) && IsDirectory(m, cwd) && Garbles(cwd, seen)
    ensures IsDirectory(m, seen)
  {
    MarksAscii(m, 0);
    GarblesChars(cwd, seen);
    GarbledWithout(cwd, seen, StatusMark(m));
    GarbledWithout(cwd, seen, EndMark(m));
    GarbledNonBlank(cwd, seen);
  }

  // Stripping keeps every character it does not drop.
  lemma {:induction false} StripLeftCount(text: string, drop: char -> bool, c: char)
    requires !drop(c)
    ensures multiset(StripLeft(text, drop))[c] == multiset(text)[c]
  {
    if text != "" && drop(text[0]) {
      StripLeftCount(text[1..], drop, c);
      assert text == [text[0]] + text[1..];
    }
  }

  lemma {:induction false} StripRightCount(text: string, drop: char -> bool, c: char)
    requires !drop(c)
    ensures multiset(StripRight(text, drop))[c] == multiset(text)[c]
  {
    if text != "" && drop(text[|text| - 1]) {
      StripRightCount(text[..|text| - 1], drop, c);
      assert text == text[..|text| - 1] + [text[|text| - 1]];
    }
  }

  lemma {:induction false} ReplacementCount(n: nat)
    ensures multiset(Replacements(n))[REPLACEMENT] == n
  {
    if n > 0 {
      ReplacementCount(n - 1);
      assert Replacements(n) == Replacements(n - 1) + [REPLACEMENT];
    }
  }

  lemma {:induction false} GarblesCount(text: string, seen: string)
    requires Garbles(text, seen)
    ensures multiset(seen)[REPLACEMENT] >= multiset(text)[REPLACEMENT]
    ensures multiset(seen)[REPLACEMENT] == multiset(text)[REPLACEMENT] ==> seen == text
  {
    if text != "" {
      var n := FirstGarbled(text, seen);
      GarblesCount(text[1..], seen[n..]);
      SplitCount(text, 1);
      SplitCount(seen, n);
      if n == 1 {
        assert seen[..1] == text[..1];
        assert text == text[..1] + text[1..] && seen == seen[..1] + seen[1..];
      } else {
        ReplacementCount(n);
        assert text[..1] == [text[0]];
      }
    }
  }

  lemma SplitCount(text: string, n: nat)
    requires n <= |text|
    ensures multiset(text)[REPLACEMENT] == multiset(text[..n])[REPLACEMENT] + multiset(text[n..])[REPLACEMENT]
  {
    assert text == text[..n] + text[n..];
  }

  // Stripping never hides that a text was garbled.
  lemma StripTells(text: string, seen: string, drop: char -> bool)
    requires Garbles(text, seen) && !drop(REPLACEMENT)
    ensures Strip(seen, drop) == Strip(text, drop) <==> seen == text
  {
    GarblesCount(text, seen);
    StripLeftCount(seen, drop, REPLACEMENT);
    StripLeftCount(text, drop, REPLACEMENT);
    StripRightCount(StripLeft(seen, drop), drop, REPLACEMENT);
    StripRightCount(StripLeft(text, drop), drop, REPLACEMENT);
  }

  // ---------------------------------------------------------------------------------------------
  // The parts of the stream
  // ---------------------------------------------------------------------------------------------

  lemma {:induction false} EncodeConcat(a: string, b: string)
    ensures Encode(a + b) == Encode(a) + Encode(b)
  {
    if a == "" {
      assert a + b == b;
    } else {
      assert (a + b)[1..] == a[1..] + b;
      EncodeConcat(a[1..], b);
    }
  }

  lemma BeginsCharacter(text: string)
    requires Encode(text) != []
    ensures !IsContinuation(Encode(text)[0])
  {
    EncodedShape(text[0]);
  }

  // The chunks of a text taken apart: each part is seen by itself.
  lemma PartsSeen(a: string, b: string, chunks: seq<Bytes>)
    requires Flat(chunks) == Encode(a + b)
    ensures var n := |Encode(a)|;
      && Flat(Take(chunks, n)) == Encode(a) && Flat(Drop(chunks, n)) == Encode(b)
      && DecodeAll(chunks) == DecodeAll(Take(chunks, n)) + DecodeAll(Drop(chunks, n))
      && (Clean(chunks) <==> Clean(Take(chunks, n)) && Clean(Drop(chunks, n)))
  {
    EncodeConcat(a, b);
    var n := |Encode(a)|;
    if b != "" {
      BeginsCharacter(b);
      assert Encode(a + b)[n] == Encode(b)[0];
    }
    TakeDropBytes(chunks, n);
    TakeDropClean(chunks, n);
    TakeDrop(chunks, n);
  }

  lemma {:induction false} AsciiBytes(text: string)
    requires AllAscii(text)
    ensures forall b :: b in Encode(text) ==> !IsContinuation(b)
  {
    if text != "" {
      assert text[0] in text && forall c :: c in text[1..] ==> c in text;
      AsciiBytes(text[1..]);
    }
  }

  lemma {:induction false} FirstBytes(chunks: seq<Bytes>)
    ensures forall c :: c in chunks && c != [] ==> c[0] in Flat(chunks)
  {
    if chunks != [] {
      FirstBytes(chunks[1..]);
      assert chunks == [chunks[0]] + chunks[1..];
      assert chunks[0] != [] ==> chunks[0][0] in chunks[0];
    }
  }

  /** No chunk of an ASCII text begins inside a character, however it is cut. */
  lemma AsciiClean(text: string, chunks: seq<Bytes>)
    requires AllAscii(text) && Flat(chunks) == Encode(text)
    ensures Clean(chunks) && DecodeAll(chunks) == text
  {
    AsciiBytes(text);
    FirstBytes(chunks);
    DecodeAllIff(text, chunks);
  }

  function StatusText(m: string, code: nat): string {
    "\n" + (StatusMark(m) + Decimal.Print(code)) + "\n"
  }

  function EndText(m: string): string {
    "\n" + EndMark(m) + "\n"
  }

  // How the chunks cut the output.
  function OutputPart(output: string, chunks: seq<Bytes>): seq<Bytes> {
    Take(chunks, |Encode(output)|)
  }

  // How they cut the directory.
  function DirectoryPart(m: string, output: string, code: nat, cwd: string, chunks: seq<Bytes>): seq<Bytes> {
    Take(Drop(Drop(chunks, |Encode(output)|), |Encode(StatusText(m, code))|), |Encode(cwd)|)
  }

  lemma FrameParts(m: string, output: string, code: nat, cwd: string, rest: string)
    ensures Frame(m, output, code, cwd) + rest == output + (StatusText(m, code) + (cwd + (EndText(m) + rest)))
  {}

  // An ASCII text at the beginning is seen as it is.
  lemma AsciiSeen(a: string, b: string, chunks: seq<Bytes>) returns (after: seq<Bytes>)
    requires AllAscii(a) && Flat(chunks) == Encode(a + b)
    ensures after == Drop(chunks, |Encode(a)|) && Flat(after) == Encode(b)
    ensures DecodeAll(chunks) == a + DecodeAll(after)
    ensures Clean(chunks) ==> Clean(after)
  {
    PartsSeen(a, b, chunks);
    AsciiClean(a, Take(chunks, |Encode(a)|));
    after := Drop(chunks, |Encode(a)|);
  }

  lemma MarkTextsAscii(m: string, code: nat)
    requires IsMarker(m)
    ensures AllAscii(StatusText(m, code)) && AllAscii(EndText(m))
  {
    MarksAscii(m, code);
  }

  // What the reader sees of the whole stream: the marks intact, the rest garbled at most.
  lemma StreamSeen(m: string, output: string, code: nat, cwd: string, rest: string, chunks: seq<Bytes>)
      returns (rest': string)
    requires IsMarker(m) && Flat(chunks) == Encode(Frame(m, output, code, cwd) + rest)
    ensures var o, d := OutputPart(output, chunks), DirectoryPart(m, output, code, cwd, chunks);
      && DecodeAll(chunks) == Frame(m, DecodeAll(o), code, DecodeAll(d)) + rest'
      && Flat(o) == Encode(output) && Flat(d) == Encode(cwd) && Garbles(rest, rest')
      && (Clean(chunks) ==> Clean(o) && Clean(d))
  {
    var s, e := StatusText(m, code), EndText(m);
    MarkTextsAscii(m, code);
    FrameParts(m, output, code, cwd, rest);
    PartsSeen(output, s + (cwd + (e + rest)), chunks);
    var c1 := Drop(chunks, |Encode(output)|);
    var c2 := AsciiSeen(s, cwd + (e + rest), c1);
    PartsSeen(cwd, e + rest, c2);
    var c4 := AsciiSeen(e, rest, Drop(c2, |Encode(cwd)|));
    DecodeAllIff(rest, c4);
    rest' := DecodeAll(c4);
    FrameParts(m, DecodeAll(OutputPart(output, chunks)), code, DecodeAll(Take(c2, |Encode(cwd)|)), rest');
  }

  // The reader parses what it sees.
  lemma SeenParsed(m: string, output: string, code: nat, cwd: string, rest: string, chunks: seq<Bytes>,
                   k: nat, current: string) returns (o: string, d: string)
    requires IsMarker(m) && IsDirectory(m, cwd) && !Occurs(output, EndMark(m)) && !Occurs(rest, StatusMark(m))
    requires Flat(chunks) == Encode(Frame(m, output, code, cwd) + rest)
    requires k <= |chunks| && FirstWith(Decoded(chunks), k, EndMark(m))
    ensures Parse(Join(Decoded(chunks)[..k]), m, current) == Some(Parsed(Strip(o, IsNewline), code, Strip(d, IsSpace)))
    ensures Garbles(output, o) && (o == output <==> Clean(OutputPart(output, chunks)))
    ensures Garbles(cwd, d) && (d == cwd <==> Clean(DirectoryPart(m, output, code, cwd, chunks)))
  {
    var rest' := StreamSeen(m, output, code, cwd, rest, chunks);
    DecodeAllIff(output, OutputPart(output, chunks));
    DecodeAllIff(cwd, DirectoryPart(m, output, code, cwd, chunks));
    o, d := DecodeAll(OutputPart(output, chunks)), DecodeAll(DirectoryPart(m, output, code, cwd, chunks));
    MarksAscii(m, code);
    GarbledDirectory(m, cwd, d);
    if Occurs(o, EndMark(m)) {
      GarblesOccurs(output, o, EndMark(m));
    }
    if Occurs(rest', StatusMark(m)) {
      GarblesOccurs(rest, rest', StatusMark(m));
    }
    JoinDecoded(chunks);
    TextRoundTrip(m, o, code, d, rest', Decoded(chunks), k, current);
  }

  /** What the reader gets out of the fewest chunks that hold the end mark, whatever follows the
      frame in the stream: the exit code always; the output exactly when no chunk begins inside a
      character of it; the directory likewise. */
  lemma FramingRoundTrip(m: string, output: string, code: nat, cwd: string, rest: string, chunks: seq<Bytes>,
                         k: nat, current: string)
    requires IsMarker(m) && IsDirectory(m, cwd) && !Occurs(output, EndMark(m)) && !Occurs(rest, StatusMark(m))
    requires Flat(chunks) == Encode(Frame(m, output, code, cwd) + rest)
    requires k <= |chunks| && FirstWith(Decoded(chunks), k, EndMark(m))
    ensures var parsed := Parse(Join(Decoded(chunks)[..k]), m, current);
      && parsed.Some? && parsed.value.exitCode == code
      && (parsed.value.output == Strip(output, IsNewline) <==> Clean(OutputPart(output, chunks)))
      && (parsed.value.cwd == Strip(cwd, IsSpace) <==> Clean(DirectoryPart(m, output, code, cwd, chunks)))
  {
    var o, d := SeenParsed(m, output, code, cwd, rest, chunks, k, current);
    TellApart(Parse(Join(Decoded(chunks)[..k]), m, current), output, o, code, cwd, d);
  }

  lemma TellApart(parsed: Option<Parsed>, output: string, o: string, code: nat, cwd: string, d: string)
    requires parsed == Some(Parsed(Strip(o, IsNewline), code, Strip(d, IsSpace)))
    requires Garbles(output, o) && Garbles(cwd, d)
    ensures parsed.value.output == Strip(output, IsNewline) <==> o == output
    ensures parsed.value.cwd == Strip(cwd, IsSpace) <==> d == cwd
  {
    StripTells(output, o, IsNewline);
    StripTells(cwd, d, IsSpace);
  }

  /** In particular everything comes back when no read ends inside a character, as with ASCII text. */
  lemma CleanRoundTrip(m: string, output: string, code: nat, cwd: string, rest: string, chunks: seq<Bytes>,
                       k: nat, current: string)
    requires IsMarker(m) && IsDirectory(m, cwd) && !Occurs(output, EndMark(m)) && !Occurs(rest, StatusMark(m))
    requires Flat(chunks) == Encode(Frame(m, output, code, cwd) + rest)
    requires k <= |chunks| && FirstWith(Decoded(chunks), k, EndMark(m))
    requires Clean(chunks) || (AllAscii(output) && AllAscii(cwd))
    ensures Parse(Join(Decoded(chunks)[..k]), m, current)
         == Some(Parsed(Strip(output, IsNewline), code, Strip(cwd, IsSpace)))
  {
    var _ := StreamSeen(m, output, code, cwd, rest, chunks);
    if !Clean(chunks) {
      AsciiClean(output, OutputPart(output, chunks));
      AsciiClean(cwd, DirectoryPart(m, output, code, cwd, chunks));
    }
    FramingRoundTrip(m, output, code, cwd, rest, chunks, k, current);
  }

  /** A read that ends inside the first character of the output loses it. */
  lemma CutLosesOutput(m: string, output: string, code: nat, cwd: string, rest: string, current: string)
      returns (chunks: seq<Bytes>)
    requires IsMarker(m) && IsDirectory(m, cwd) && !Occurs(output, EndMark(m)) && !Occurs(rest, StatusMark(m))
    requires output != "" && !IsAscii(output[0])
    ensures |chunks| == 2 && Flat(chunks) == Encode(Frame(m, output, code, cwd) + rest)
    ensures FirstWith(Decoded(chunks), 2, EndMark(m))
    ensures var parsed := Parse(Join(Decoded(chunks)[..2]), m, current);
      parsed.Some? && parsed.value.output != Strip(output, IsNewline)
  {
    chunks := CutAfterOne(output, StatusText(m, code) + (cwd + (EndText(m) + rest)));
    FrameParts(m, output, code, cwd, rest);
    CutReads(m, output, code, cwd, rest, chunks);
    FramingRoundTrip(m, output, code, cwd, rest, chunks, 2, current);
  }

  lemma FirstByte(output: string)
    requires output != "" && !IsAscii(output[0])
    ensures |Encode(output)| > 1 && IsContinuation(Encode(output)[1]) && Decode(Encode(output)[..1]) == [REPLACEMENT]
  {
    var c := EncodeChar(output[0]);
    EncodedShape(output[0]);
    NextCharacter(output);
    assert Encode(output)[..|c|] == c;
    assert Encode(output)[..1] == c[..1] && Encode(output)[1] == c[1];
    DecodeTruncated(output[0], 1);
  }

  lemma CutAfterOne(output: string, more: string) returns (chunks: seq<Bytes>)
    requires output != "" && !IsAscii(output[0])
    ensures |chunks| == 2 && Flat(chunks) == Encode(output + more)
    ensures !Clean(OutputPart(output, chunks)) && Decode(chunks[0]) == [REPLACEMENT]
  {
    var e := Encode(output);
    FirstByte(output);
    EncodeConcat(output, more);
    var first, second := e[..1], e[1..] + Encode(more);
    chunks := [first, second];
    FlatPair(first, second);
    assert first + second == e + Encode(more) && second[0] == e[1];
    SecondTaken(first, second, |e|);
  }

  lemma FlatPair(a: Bytes, b: Bytes)
    ensures Flat([a, b]) == a + b
  {
    assert [a, b][1..] == [b];
    assert Flat([b]) == b + Flat([b][1..]);
  }

  lemma SecondTaken(first: Bytes, second: Bytes, n: nat)
    requires |first| < n <= |first| + |second| && IsContinuation(second[0])
    ensures !Clean(Take([first, second], n))
  {
    var k := n - |first|;
    var taken := if k == |second| then second else second[..k];
    assert [first, second][1..] == [second];
    assert Take([second], k) == [taken] by {
      assert k == |second| ==> [second] + Take([second][1..], 0) == [second];
    }
    assert taken in Take([first, second], n) && taken[0] == second[0];
  }

  // The first of the two chunks holds no mark, both together do.
  lemma CutReads(m: string, output: string, code: nat, cwd: string, rest: string, chunks: seq<Bytes>)
    requires IsMarker(m) && |chunks| == 2 && Flat(chunks) == Encode(Frame(m, output, code, cwd) + rest)
    requires Decode(chunks[0]) == [REPLACEMENT]
    ensures FirstWith(Decoded(chunks), 2, EndMark(m))
  {
    var rest' := StreamSeen(m, output, code, cwd, rest, chunks);
    JoinDecoded(chunks);
    FrameHasEnd(m, DecodeAll(OutputPart(output, chunks)), code,
                DecodeAll(DirectoryPart(m, output, code, cwd, chunks)), rest');
    var texts := Decoded(chunks);
    assert texts[..2] == texts && texts[..1] == [Decode(chunks[0])] && texts[..0] == [];
    assert Join(texts[..1]) == [REPLACEMENT] by {
      assert [Decode(chunks[0])] + [] == texts[..1];
      JoinCons(Decode(chunks[0]), []);
    }
  }

  /** The whole stream always holds the end mark, so a reader that sees all of it never times out. */
  lemma StreamHasEnd(m: string, output: string, code: nat, cwd: string, rest: string, chunks: seq<Bytes>)
    requires IsMarker(m) && Flat(chunks) == Encode(Frame(m, output, code, cwd) + rest)
    ensures Occurs(Join(Decoded(chunks)), EndMark(m))
  {
    var rest' := StreamSeen(m, output, code, cwd, rest, chunks);
    JoinDecoded(chunks);
    FrameHasEnd(m, DecodeAll(OutputPart(output, chunks)), code,
                DecodeAll(DirectoryPart(m, output, code, cwd, chunks)), rest');
  }

  // ---------------------------------------------------------------------------------------------
  // The session
  // ---------------------------------------------------------------------------------------------

  datatype RunResult = RunResult(command: string, output: string, exitCode: int, cwd: string, durationMs: int)

  datatype Failure = TimedOut | MarkerMissing

  datatype Outcome = Ran(result: RunResult) | Failed(failure: Failure)

  // A deque with a maximum length.
  class PersistentShellSession {
    var cwd: string
    var scrollback: seq<RunResult>
    const limit: nat

    constructor (cwd: string, limit: nat)
      ensures this.cwd == cwd && scrollback == [] && this.limit == limit
    {
      this.cwd, scrollback, this.limit := cwd, [], limit;
    }

    /** `chunks` is what arrives before the deadline, `resolve` makes a path absolute, `seconds` is
        how long the command took. */
    method RunInternal(command: string, m: string, chunks: seq<Bytes>, resolve: string -> string, seconds: real,
                       record: bool)
        returns (outcome: Outcome, ghost k: nat)
      requires |scrollback| <= limit && m != ""
      modifies this
      ensures |scrollback| <= limit
      ensures outcome.Failed? ==> cwd == old(cwd) && scrollback == old(scrollback)
      ensures outcome == Failed(TimedOut) <==> !Occurs(Join(Decoded(chunks)), EndMark(m))
      ensures outcome != Failed(TimedOut) ==>
        && k <= |chunks| && FirstWith(Decoded(chunks), k, EndMark(m))
        && outcome == Answer(command, Parse(Join(Decoded(chunks)[..k]), m, old(cwd)), resolve, Milliseconds(seconds))
      ensures outcome.Ran? ==>
        && cwd == outcome.result.cwd
        && scrollback == if record then LastOf(old(scrollback) + [outcome.result], limit) else old(scrollback)
    {
      var raw;
      raw, k := ReadUntil(chunks, EndMark(m));
      if raw.None? {
        return Failed(TimedOut), 0;
      }
      OccursPrefix(Decoded(chunks), k, EndMark(m));
      var parsed := Parse(raw.value, m, cwd);
      if parsed.None? {
        return Failed(MarkerMissing), k;
      }
      var result := RunResult(command, parsed.value.output, parsed.value.exitCode, resolve(parsed.value.cwd),
                              Milliseconds(seconds));
      cwd := result.cwd;
      if record {
        scrollback := LastOf(scrollback + [result], limit);
      }
      outcome := Ran(result);
    }
  }

  function Answer(command: string, parsed: Option<Parsed>, resolve: string -> string, ms: int): Outcome {
    match parsed
    case None => Failed(MarkerMissing)
    case Some(p) => Ran(RunResult(command, p.output, p.exitCode, resolve(p.cwd), ms))
  }

  lemma AnswerSays(command: string, p: Parsed, resolve: string -> string, ms: int)
    ensures Answer(command, None, resolve, ms) == Failed(MarkerMissing)
    ensures var r := Answer(command, Some(p), resolve, ms);
      && r.Ran? && r.result.command == command && r.result.output == p.output && r.result.exitCode == p.exitCode
      && r.result.cwd == resolve(p.cwd) && r.result.durationMs == ms
  {}

  lemma OccursPrefix(chunks: seq<string>, k: nat, pat: string)
    requires k <= |chunks| && Occurs(Join(chunks[..k]), pat)
    ensures Occurs(Join(chunks), pat)
  {
    var raw, full := Join(chunks[..k]), Join(chunks);
    JoinPrefix(chunks, k);
    var i :| 0 <= i <= |raw| && At(raw, pat, i);
    AtChars(raw, pat, i);
    AtChars(full, pat, i);
  }
}
