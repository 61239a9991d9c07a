/**
 Capping or collapsing duplicate training rows. Rows with the same trainable payload form a
 group; each group keeps one representative, repeated up to a cap, and records its original
 size. A payload is identified with its hash.
 */
module DuplicateFix {
  import opened Basics

  type Hash = nat

  datatype Meta = Meta(
    dataset: string, collapse: bool, weight: nat, effective: nat, repeatIndex: nat, sourceIds: seq<string>)

  datatype Row = Row(hash: Hash, id: string, meta: Option<Meta>)

  // ---------------------------------------------------------------------------------------------
  // Groups
  // ---------------------------------------------------------------------------------------------

  // The rows of one payload, in order.
  function Group(rows: seq<Row>, h: Hash): seq<Row> {
    if rows == [] then [] else
      var last := rows[|rows| - 1];
      Group(rows[..|rows| - 1], h) + if last.hash == h then [last] else []
  }

  function Count(rows: seq<Row>, h: Hash): nat {
    |Group(rows, h)|
  }

  function Hashes(rows: seq<Row>): set<Hash> {
    set r | r in rows :: r.hash
  }

  lemma {:induction false} GroupRows(rows: seq<Row>, h: Hash)
    ensures forall r :: r in Group(rows, h) <==> r in rows && r.hash == h
    ensures Count(rows, h) > 0 <==> h in Hashes(rows)
  {
    if rows != [] {
      GroupRows(rows[..|rows| - 1], h);
      assert rows == rows[..|rows| - 1] + [rows[|rows| - 1]];
    }
    if h in Hashes(rows) {
      var r :| r in rows && r.hash == h;
      assert r in Group(rows, h);
    }
    if Count(rows, h) > 0 {
      assert Group(rows, h)[0] in Group(rows, h);
    }
  }

  lemma {:induction false} GroupConcat(a: seq<Row>, b: seq<Row>, h: Hash)
    ensures Group(a + b, h) == Group(a, h) + Group(b, h)
  {
    if b == [] {
      assert a + b == a;
    } else {
      assert (a + b)[..|a + b| - 1] == a + b[..|b| - 1];
      GroupConcat(a, b[..|b| - 1], h);
    }
  }

  // What a group holds does not depend on the order of the rows.
  lemma {:induction false} GroupMultiset(rows: seq<Row>, h: Hash, r: Row)
    ensures multiset(Group(rows, h))[r] == if r.hash == h then multiset(rows)[r] else 0
  {
    if rows != [] {
      GroupMultiset(rows[..|rows| - 1], h, r);
      assert rows == rows[..|rows| - 1] + [rows[|rows| - 1]];
    }
  }

  lemma SameGroups(a: seq<Row>, b: seq<Row>, h: Hash)
    requires multiset(a) == multiset(b)
    ensures multiset(Group(a, h)) == multiset(Group(b, h))
    ensures Count(a, h) == Count(b, h)
  {
    forall r
      ensures multiset(Group(a, h))[r] == multiset(Group(b, h))[r]
    {
      GroupMultiset(a, h, r);
      GroupMultiset(b, h, r);
    }
    assert multiset(Group(a, h)) == multiset(Group(b, h));
    assert Count(a, h) == |multiset(Group(a, h))| && Count(b, h) == |multiset(Group(b, h))|;
  }

  method GroupedRows(rows: seq<Row>) returns (groups: map<Hash, seq<Row>>)
    ensures groups.Keys == Hashes(rows)
    ensures forall h :: h in groups ==> groups[h] == Group(rows, h)
  {
    groups := map[];
    for i := 0 to |rows|
      invariant groups.Keys == Hashes(rows[..i])
      invariant forall h :: h in groups ==> groups[h] == Group(rows[..i], h)
    {
      var row := rows[i];
      assert rows[..i + 1] == rows[..i] + [row];
      GroupRows(rows[..i], row.hash);
      groups := groups[row.hash := (if row.hash in groups then groups[row.hash] else []) + [row]];
    }
    assert rows[..|rows|] == rows;
  }

  // ---------------------------------------------------------------------------------------------
  // What each group emits
  // ---------------------------------------------------------------------------------------------

  datatype Plan = Plan(dataset: string, collapse: bool, maxRepeat: nat)

  function Effective(p: Plan, size: nat): nat {
    if size == 0 then 0 else if p.collapse then 1 else Min(size, p.maxRepeat)
  }

  function Annotate(p: Plan, row: Row, weight: nat, effective: nat, index: nat, ids: seq<string>): Row {
    row.(meta := Some(Meta(p.dataset, p.collapse, weight, effective, index, ids[..Min(20, |ids|)])))
  }

  function Ids(group: seq<Row>): seq<string> {
    seq(|group|, i requires 0 <= i < |group| => group[i].id)
  }

  function Copies(p: Plan, group: seq<Row>): seq<Row>
    requires group != []
  {
    seq(Effective(p, |group|),
        (i: nat) => Annotate(p, group[0], |group|, Effective(p, |group|), i, Ids(group)))
  }

  // What the groups of `keys` emit, in that order.
  function Emitted(p: Plan, rows: seq<Row>, excluded: set<Hash>, keys: seq<Hash>): seq<Row> {
    if keys == [] then [] else
      var h := keys[|keys| - 1];
      Emitted(p, rows, excluded, keys[..|keys| - 1]) + Block(p, rows, excluded, h)
  }

  lemma {:induction false} AllOf(rows: seq<Row>, h: Hash, g: Hash)
    requires forall i :: 0 <= i < |rows| ==> rows[i].hash == h
    ensures Group(rows, g) == if g == h then rows else []
  {
    if rows != [] {
      AllOf(rows[..|rows| - 1], h, g);
      assert rows == rows[..|rows| - 1] + [rows[|rows| - 1]];
    }
  }

  // What one group contributes.
  function Block(p: Plan, rows: seq<Row>, excluded: set<Hash>, h: Hash): seq<Row> {
    if h in excluded || Group(rows, h) == [] then [] else Copies(p, Group(rows, h))
  }

  lemma BlockGroup(p: Plan, rows: seq<Row>, excluded: set<Hash>, key: Hash, h: Hash)
    ensures Group(Block(p, rows, excluded, key), h) == if h == key then Block(p, rows, excluded, key) else []
  {
    if Group(rows, key) != [] {
      GroupRows(rows, key);
      assert Group(rows, key)[0] in Group(rows, key);
    }
    AllOf(Block(p, rows, excluded, key), key, h);
  }

  lemma EmittedStep(p: Plan, rows: seq<Row>, excluded: set<Hash>, before: seq<Row>, key: Hash, h: Hash)
    ensures Group(before + Block(p, rows, excluded, key), h) ==
      if h == key then Group(before, h) + Block(p, rows, excluded, h) else Group(before, h)
  {
    GroupConcat(before, Block(p, rows, excluded, key), h);
    BlockGroup(p, rows, excluded, key, h);
    assert Group(before, h) + [] == Group(before, h);
  }

  lemma {:induction false} EmittedGroup(p: Plan, rows: seq<Row>, excluded: set<Hash>, keys: seq<Hash>, h: Hash)
    requires NoRepeats(keys)
    ensures Group(Emitted(p, rows, excluded, keys), h) == if h in keys then Block(p, rows, excluded, h) else []
  {
    if keys != [] {
      var front, last := keys[..|keys| - 1], keys[|keys| - 1];
      assert keys == front + [last];
      assert h in keys <==> h in front || h == last;
      EmittedGroup(p, rows, excluded, front, h);
      EmittedStep(p, rows, excluded, Emitted(p, rows, excluded, front), last, h);
      assert [] + Block(p, rows, excluded, h) == Block(p, rows, excluded, h);
    }
  }

  /** The sorted list of a set of hashes. */
  method SortKeys(hashes: set<Hash>) returns (keys: seq<Hash>)
    ensures forall i, j :: 0 <= i < j < |keys| ==> keys[i] < keys[j]
    ensures forall h :: h in keys <==> h in hashes
  {
    keys := [];
    var rest := hashes;
    while rest != {}
      invariant forall i, j :: 0 <= i < j < |keys| ==> keys[i] < keys[j]
      invariant forall h :: h in hashes <==> h in keys || h in rest
      invariant forall k, h :: k in keys && h in rest ==> k < h
      decreases rest
    {
      var least :| least in rest;
      var others := rest - {least};
      while others != {}
        invariant least in rest && others <= rest
        invariant forall h :: h in rest && h !in others ==> least <= h
        decreases others
      {
        var h :| h in others;
        others := others - {h};
        if h < least {
          least := h;
        }
      }
      forall i | 0 <= i < |keys|
        ensures keys[i] < least
      {
        assert keys[i] in keys;
      }
      keys := keys + [least];
      rest := rest - {least};
    }
  }

  function SumCount(rows: seq<Row>, keys: seq<Hash>): nat {
    if keys == [] then 0 else SumCount(rows, keys[..|keys| - 1]) + Count(rows, keys[|keys| - 1])
  }

  lemma {:induction false} SumSnoc(rows: seq<Row>, row: Row, keys: seq<Hash>)
    requires NoRepeats(keys)
    ensures SumCount(rows + [row], keys) == SumCount(rows, keys) + if row.hash in keys then 1 else 0
  {
    assert (rows + [row])[..|rows|] == rows;
    if keys != [] {
      assert keys == keys[..|keys| - 1] + [keys[|keys| - 1]];
      SumSnoc(rows, row, keys[..|keys| - 1]);
    }
  }

  // The groups partition the rows.
  lemma {:induction false} SumAll(rows: seq<Row>, keys: seq<Hash>)
    requires NoRepeats(keys) && forall h :: h in Hashes(rows) ==> h in keys
    ensures SumCount(rows, keys) == |rows|
  {
    if rows == [] {
      SumNone(keys);
    } else {
      var front, last := rows[..|rows| - 1], rows[|rows| - 1];
      assert rows == front + [last];
      assert last in rows && forall r :: r in front ==> r in rows;
      SumAll(front, keys);
      SumSnoc(front, last, keys);
    }
  }

  lemma {:induction false} SumNone(keys: seq<Hash>)
    ensures SumCount([], keys) == 0
  {
    if keys != [] {
      SumNone(keys[..|keys| - 1]);
    }
  }

  // A shuffle that exchanges each element with a drawn earlier one.
  method Shuffle(rows: seq<Row>, draw: nat -> nat) returns (out: seq<Row>)
    ensures multiset(out) == multiset(rows)
  {
    out := rows;
    var i := |rows| - 1;
    while i > 0
      invariant |out| == |rows| && i < |rows|
      invariant multiset(out) == multiset(rows)
    {
      var j := draw(i) % (i + 1);
      out := out[i := out[j]][j := out[i]];
      i := i - 1;
    }
  }

  /** `histogram` says how many payloads have groups of each size. */
  datatype Report = Report(
    inputRows: int, uniquePayloads: int, outputRows: int, reducedRows: int, protectedRows: int,
    duplicatesBefore: int, duplicatesAfter: int, histogram: map<nat, nat>)

  // The payloads among `hashes` whose group has a given size.
  function OfSize(rows: seq<Row>, hashes: set<Hash>, size: nat): set<Hash> {
    set h | h in hashes && Count(rows, h) == size
  }

  ghost predicate IsHistogram(rows: seq<Row>, hashes: set<Hash>, histogram: map<nat, nat>) {
    forall n: nat ::
      if n in histogram then histogram[n] == |OfSize(rows, hashes, n)| > 0 else OfSize(rows, hashes, n) == {}
  }

  lemma HistogramStep(rows: seq<Row>, hashes: set<Hash>, h: Hash, histogram: map<nat, nat>)
    requires IsHistogram(rows, hashes, histogram) && h !in hashes
    ensures var n := Count(rows, h);
      IsHistogram(rows, hashes + {h}, histogram[n := (if n in histogram then histogram[n] else 0) + 1])
  {
    var size := Count(rows, h);
    forall n: nat | n != size
      ensures OfSize(rows, hashes + {h}, n) == OfSize(rows, hashes, n)
    {
    }
    assert OfSize(rows, hashes + {h}, size) == OfSize(rows, hashes, size) + {h};
  }

  method GroupSizes(ghost rows: seq<Row>, groups: map<Hash, seq<Row>>) returns (histogram: map<nat, nat>)
    requires forall h :: h in groups ==> groups[h] == Group(rows, h)
    ensures IsHistogram(rows, groups.Keys, histogram)
  {
    histogram := map[];
    var left := groups.Keys;
    while left != {}
      invariant left <= groups.Keys
      invariant IsHistogram(rows, groups.Keys - left, histogram)
      decreases left
    {
      var h :| h in left;
      HistogramStep(rows, groups.Keys - left, h, histogram);
      assert groups.Keys - (left - {h}) == groups.Keys - left + {h};
      var size := |groups[h]|;
      histogram := histogram[size := (if size in histogram then histogram[size] else 0) + 1];
      left := left - {h};
    }
    assert groups.Keys - {} == groups.Keys;
  }

  // Rows whose payload is held out.
  function HeldOut(rows: seq<Row>, excluded: set<Hash>): nat {
    if rows == [] then 0 else
      HeldOut(rows[..|rows| - 1], excluded) + if rows[|rows| - 1].hash in excluded then 1 else 0
  }

  function SumHeldOut(rows: seq<Row>, excluded: set<Hash>, keys: seq<Hash>): nat {
    if keys == [] then 0 else
      var h := keys[|keys| - 1];
      SumHeldOut(rows, excluded, keys[..|keys| - 1]) + if h in excluded then Count(rows, h) else 0
  }

  lemma {:induction false} SumHeldOutSnoc(rows: seq<Row>, row: Row, excluded: set<Hash>, keys: seq<Hash>)
    requires NoRepeats(keys)
    ensures SumHeldOut(rows + [row], excluded, keys)
         == SumHeldOut(rows, excluded, keys) + if row.hash in keys && row.hash in excluded then 1 else 0
  {
    assert (rows + [row])[..|rows|] == rows;
    if keys != [] {
      assert keys == keys[..|keys| - 1] + [keys[|keys| - 1]];
      SumHeldOutSnoc(rows, row, excluded, keys[..|keys| - 1]);
    }
  }

  lemma {:induction false} SumHeldOutNone(excluded: set<Hash>, keys: seq<Hash>)
    ensures SumHeldOut([], excluded, keys) == 0
  {
    if keys != [] {
      SumHeldOutNone(excluded, keys[..|keys| - 1]);
    }
  }

  lemma {:induction false} SumHeldOutAll(rows: seq<Row>, excluded: set<Hash>, keys: seq<Hash>)
    requires NoRepeats(keys) && forall h :: h in Hashes(rows) ==> h in keys
    ensures SumHeldOut(rows, excluded, keys) == HeldOut(rows, excluded)
  {
    if rows == [] {
      SumHeldOutNone(excluded, keys);
    } else {
      var front, last := rows[..|rows| - 1], rows[|rows| - 1];
      assert rows == front + [last];
      assert last in rows && forall r :: r in front ==> r in rows;
      SumHeldOutAll(front, excluded, keys);
      SumHeldOutSnoc(front, last, excluded, keys);
    }
  }

  /** The rows a split contains after the fix, in any order: for every payload that is not held out
      the capped number of copies of its first row, numbered from 0 and carrying its group's size. */
  ghost predicate Fixed(p: Plan, rows: seq<Row>, excluded: set<Hash>, out: seq<Row>) {
    forall h: Hash :: multiset(Group(out, h)) == multiset(Block(p, rows, excluded, h))
  }

  lemma EmittedFixed(p: Plan, rows: seq<Row>, excluded: set<Hash>, keys: seq<Hash>, out: seq<Row>)
    requires NoRepeats(keys) && forall h :: h in keys <==> h in Hashes(rows)
    requires multiset(out) == multiset(Emitted(p, rows, excluded, keys))
    ensures Fixed(p, rows, excluded, out)
  {
    forall h: Hash
      ensures multiset(Group(out, h)) == multiset(Block(p, rows, excluded, h))
    {
      SameGroups(out, Emitted(p, rows, excluded, keys), h);
      EmittedGroup(p, rows, excluded, keys, h);
      GroupRows(rows, h);
    }
  }

  method EmitGroup(p: Plan, group: seq<Row>) returns (copies: seq<Row>, effective: nat)
    requires group != [] && p.maxRepeat >= 1
    ensures copies == Copies(p, group) && effective == |copies|
  {
    var original := |group|;
    effective := if p.collapse then 1 else Min(original, p.maxRepeat);
    var ids := Ids(group);
    var base := group[0];
    copies := [];
    for index := 0 to effective
      invariant copies == Copies(p, group)[..index]
    {
      copies := copies + [Annotate(p, base, original, effective, index, ids)];
    }
  }

  lemma KeyStep(p: Plan, rows: seq<Row>, excluded: set<Hash>, keys: seq<Hash>, g: nat)
    requires g < |keys|
    ensures Emitted(p, rows, excluded, keys[..g + 1])
         == Emitted(p, rows, excluded, keys[..g]) + Block(p, rows, excluded, keys[g])
    ensures SumCount(rows, keys[..g + 1]) == SumCount(rows, keys[..g]) + Count(rows, keys[g])
    ensures SumHeldOut(rows, excluded, keys[..g + 1])
         == SumHeldOut(rows, excluded, keys[..g]) + if keys[g] in excluded then Count(rows, keys[g]) else 0
  {
    assert keys[..g + 1][..g] == keys[..g];
  }

  method EmitGroups(p: Plan, ghost rows: seq<Row>, groups: map<Hash, seq<Row>>, keys: seq<Hash>, excluded: set<Hash>)
      returns (out: seq<Row>, reduced: int, held: int)
    requires p.maxRepeat >= 1
    requires forall h :: h in keys ==> h in groups && groups[h] == Group(rows, h) && groups[h] != []
    ensures out == Emitted(p, rows, excluded, keys)
    ensures reduced + |out| == SumCount(rows, keys)
    ensures held == SumHeldOut(rows, excluded, keys)
  {
    out := [];
    reduced, held := 0, 0;
    for g := 0 to |keys|
      invariant out == Emitted(p, rows, excluded, keys[..g])
      invariant reduced + |out| == SumCount(rows, keys[..g])
      invariant held == SumHeldOut(rows, excluded, keys[..g])
    {
      KeyStep(p, rows, excluded, keys, g);
      assert keys[g] in keys;
      var group := groups[keys[g]];
      if keys[g] in excluded {
        held := held + |group|;
        reduced := reduced + |group|;
      } else {
        var copies, effective := EmitGroup(p, group);
        reduced := reduced + |group| - effective;
        out := out + copies;
      }
    }
    assert keys[..|keys|] == keys;
  }

  lemma NoneEmpty(rows: seq<Row>)
    ensures forall h :: h in Hashes(rows) ==> Group(rows, h) != []
  {
    forall h | h in Hashes(rows) ensures Group(rows, h) != [] {
      GroupRows(rows, h);
    }
  }

  lemma SameLength(a: seq<Row>, b: seq<Row>)
    requires multiset(a) == multiset(b)
    ensures |a| == |b|
  {
    assert |a| == |multiset(a)| && |b| == |multiset(b)|;
  }

  method FixedSplitRows(p: Plan, rows: seq<Row>, excluded: set<Hash>, draw: nat -> nat)
      returns (out: seq<Row>, report: Report)
    requires p.maxRepeat >= 1
    ensures Fixed(p, rows, excluded, out)
    ensures report == Report(|rows|, |Hashes(rows)|, |out|, |rows| - |out|, HeldOut(rows, excluded),
                             |rows| - |Hashes(rows)|, |out| - |Hashes(rows)|, report.histogram)
    ensures IsHistogram(rows, Hashes(rows), report.histogram)
    ensures CopiedRight(p, rows, excluded, out)
  {
    var groups := GroupedRows(rows);
    var histogram := GroupSizes(rows, groups);
    var keys := SortKeys(groups.Keys);
    NoneEmpty(rows);
    var emitted, reduced, held := EmitGroups(p, rows, groups, keys, excluded);
    SumAll(rows, keys);
    SumHeldOutAll(rows, excluded, keys);
    out := Shuffle(emitted, draw);
    SameLength(out, emitted);
    EmittedFixed(p, rows, excluded, keys, out);
    FixedCopies(p, rows, excluded, out);
    report := Report(|rows|, |groups.Keys|, |out|, reduced, held,
                     |rows| - |groups.Keys|, |out| - |groups.Keys|, histogram);
  }

  /** The reported number of duplicates after the fix, output rows less payloads of the input, is the
      number of duplicates in the output exactly when no payload of the split is held out. */
  lemma DuplicatesAfterIff(p: Plan, rows: seq<Row>, excluded: set<Hash>, out: seq<Row>)
    requires p.maxRepeat >= 1 && Fixed(p, rows, excluded, out)
    ensures |out| - |Hashes(rows)| == |out| - |Hashes(out)| <==> Hashes(rows) !! excluded
  {
    forall h: Hash ensures h in Hashes(out) <==> h in Hashes(rows) - excluded {
      Multiplicity(p, rows, excluded, out, h);
    }
    assert Hashes(out) == Hashes(rows) - excluded;
    assert Hashes(rows) == Hashes(out) + Hashes(rows) * excluded;
    assert |Hashes(rows)| == |Hashes(out)| + |Hashes(rows) * excluded|;
  }

  /** How often a payload should come out that came in `count` times: not at all if it is held out, at
      most once when duplicates are collapsed, and otherwise up to the cap. */
  function CopiesOf(p: Plan, count: nat, heldOut: bool): nat {
    if heldOut then 0
    else if p.collapse then (if count > 1 then 1 else count)
    else if count > p.maxRepeat then p.maxRepeat
    else count
  }

  function SumCopies(p: Plan, rows: seq<Row>, excluded: set<Hash>, keys: seq<Hash>): nat {
    if keys == [] then 0 else
      var h := keys[|keys| - 1];
      SumCopies(p, rows, excluded, keys[..|keys| - 1]) + CopiesOf(p, Count(rows, h), h in excluded)
  }

  ghost predicate Payloads(rows: seq<Row>, keys: seq<Hash>) {
    NoRepeats(keys) && forall h :: h in keys <==> h in Hashes(rows)
  }

  // Every payload comes out as often as it should, and nothing else does.
  ghost predicate CopiedRight(p: Plan, rows: seq<Row>, excluded: set<Hash>, out: seq<Row>) {
    && (forall h: Hash :: Count(out, h) == CopiesOf(p, Count(rows, h), h in excluded))
    && (forall keys: seq<Hash> :: Payloads(rows, keys) ==> |out| == SumCopies(p, rows, excluded, keys))
  }

  lemma FixedCopies(p: Plan, rows: seq<Row>, excluded: set<Hash>, out: seq<Row>)
    requires p.maxRepeat >= 1 && Fixed(p, rows, excluded, out)
    ensures CopiedRight(p, rows, excluded, out)
  {
    forall h: Hash ensures Count(out, h) == CopiesOf(p, Count(rows, h), h in excluded) {
      Multiplicity(p, rows, excluded, out, h);
    }
    forall keys: seq<Hash> | Payloads(rows, keys) ensures |out| == SumCopies(p, rows, excluded, keys) {
      OutputLength(p, rows, excluded, out, keys);
    }
  }

  lemma {:induction false} SumCopiesIs(p: Plan, rows: seq<Row>, excluded: set<Hash>, out: seq<Row>, keys: seq<Hash>)
    requires p.maxRepeat >= 1 && Fixed(p, rows, excluded, out)
    ensures SumCount(out, keys) == SumCopies(p, rows, excluded, keys)
  {
    if keys != [] {
      SumCopiesIs(p, rows, excluded, out, keys[..|keys| - 1]);
      Multiplicity(p, rows, excluded, out, keys[|keys| - 1]);
    }
  }

  /** The length of the output, payload by payload. */
  lemma OutputLength(p: Plan, rows: seq<Row>, excluded: set<Hash>, out: seq<Row>, keys: seq<Hash>)
    requires p.maxRepeat >= 1 && Fixed(p, rows, excluded, out)
    requires Payloads(rows, keys)
    ensures |out| == SumCopies(p, rows, excluded, keys)
  {
    forall h | h in Hashes(out) ensures h in keys {
      Multiplicity(p, rows, excluded, out, h);
    }
    SumAll(out, keys);
    SumCopiesIs(p, rows, excluded, out, keys);
  }

  /** Multiplicities after the fix, and the same set of payloads apart from the held-out ones. */
  lemma Multiplicity(p: Plan, rows: seq<Row>, excluded: set<Hash>, out: seq<Row>, h: Hash)
    requires p.maxRepeat >= 1 && Fixed(p, rows, excluded, out)
    ensures Count(out, h) == CopiesOf(p, Count(rows, h), h in excluded)
    ensures !p.collapse && h !in excluded ==> Count(out, h) == Min(Count(rows, h), p.maxRepeat)
    ensures p.collapse && h !in excluded ==> Count(out, h) == Min(1, Count(rows, h))
    ensures h in excluded ==> Count(out, h) == 0
    ensures h in Hashes(out) <==> h in Hashes(rows) && h !in excluded
  {
    assert |multiset(Group(out, h))| == |multiset(Block(p, rows, excluded, h))|;
    GroupRows(out, h);
    GroupRows(rows, h);
  }

  lemma FromBlock(p: Plan, rows: seq<Row>, excluded: set<Hash>, out: seq<Row>, r: Row)
    requires Fixed(p, rows, excluded, out) && r in out
    ensures r in Block(p, rows, excluded, r.hash)
  {
    GroupRows(out, r.hash);
    assert r in multiset(Group(out, r.hash));
  }

  /** Every emitted row is the first row of its group and records the size of that group. */
  lemma Recorded(p: Plan, rows: seq<Row>, excluded: set<Hash>, out: seq<Row>, r: Row)
    requires p.maxRepeat >= 1 && Fixed(p, rows, excluded, out) && r in out
    ensures r.meta.Some? && Group(rows, r.hash) != [] && r == Group(rows, r.hash)[0].(meta := r.meta)
    ensures r.meta.value.weight == Count(rows, r.hash)
    ensures r.meta.value.effective == Count(out, r.hash) && r.meta.value.repeatIndex < Count(out, r.hash)
    ensures r.meta.value.dataset == p.dataset && r.meta.value.collapse == p.collapse
    ensures var ids := r.meta.value.sourceIds;
      |ids| == Min(20, Count(rows, r.hash)) && forall i :: 0 <= i < |ids| ==> ids[i] == Group(rows, r.hash)[i].id
  {
    Multiplicity(p, rows, excluded, out, r.hash);
    FromBlock(p, rows, excluded, out, r);
    GroupRows(rows, r.hash);
    var group := Group(rows, r.hash);
    var i :| 0 <= i < |Copies(p, group)| && Copies(p, group)[i] == r;
    assert group[0] in group;
  }

  lemma OnlyOnce(rows: seq<Row>, k: nat)
    requires k < |rows| && forall i :: 0 <= i < |rows| && i != k ==> rows[i] != rows[k]
    ensures multiset(rows)[rows[k]] == 1
  {
    assert rows == rows[..k] + [rows[k]] + rows[k + 1..];
    assert rows[k] !in rows[..k] && rows[k] !in rows[k + 1..];
  }

  /** The copies of a payload are numbered without gaps or repeats. */
  lemma Numbered(p: Plan, rows: seq<Row>, excluded: set<Hash>, out: seq<Row>, h: Hash, index: nat) returns (r: Row)
    requires p.maxRepeat >= 1 && Fixed(p, rows, excluded, out) && index < Count(out, h)
    ensures r.hash == h && r.meta.Some? && r.meta.value.repeatIndex == index
    ensures multiset(out)[r] == 1
  {
    Multiplicity(p, rows, excluded, out, h);
    var block := Block(p, rows, excluded, h);
    var group := Group(rows, h);
    GroupRows(rows, h);
    assert group[0] in group;
    r := block[index];
    forall i | 0 <= i < |block| && i != index
      ensures block[i] != block[index]
    {
      assert block[i].meta.value.repeatIndex == i;
    }
    OnlyOnce(block, index);
    GroupMultiset(out, h, r);
  }

  // Rows are either held out or counted under one of the remaining payloads.
  lemma {:induction false} SumKept(rows: seq<Row>, excluded: set<Hash>, keys: seq<Hash>)
    requires NoRepeats(keys) && forall h :: h in keys ==> h !in excluded
    requires forall h :: h in Hashes(rows) ==> h in keys || h in excluded
    ensures SumCount(rows, keys) + HeldOut(rows, excluded) == |rows|
  {
    if rows == [] {
      SumNone(keys);
    } else {
      var front, last := rows[..|rows| - 1], rows[|rows| - 1];
      assert rows == front + [last];
      assert last in rows && forall r :: r in front ==> r in rows;
      SumKept(front, excluded, keys);
      SumSnoc(front, last, keys);
    }
  }

  // The weight recorded for a payload in the output.
  function Weight(out: seq<Row>, h: Hash): nat {
    var group := Group(out, h);
    if group == [] || group[0].meta.None? then 0 else group[0].meta.value.weight
  }

  function SumWeight(out: seq<Row>, keys: seq<Hash>): nat {
    if keys == [] then 0 else SumWeight(out, keys[..|keys| - 1]) + Weight(out, keys[|keys| - 1])
  }

  lemma WeightIsCount(p: Plan, rows: seq<Row>, excluded: set<Hash>, out: seq<Row>, h: Hash)
    requires p.maxRepeat >= 1 && Fixed(p, rows, excluded, out) && h in Hashes(out)
    ensures Weight(out, h) == Count(rows, h)
  {
    GroupRows(out, h);
    var r := Group(out, h)[0];
    assert r in Group(out, h);
    Recorded(p, rows, excluded, out, r);
  }

  lemma {:induction false} SumWeightIsCount(p: Plan, rows: seq<Row>, excluded: set<Hash>, out: seq<Row>,
                                            keys: seq<Hash>)
    requires p.maxRepeat >= 1 && Fixed(p, rows, excluded, out) && forall h :: h in keys ==> h in Hashes(out)
    ensures SumWeight(out, keys) == SumCount(rows, keys)
  {
    if keys != [] {
      var h := keys[|keys| - 1];
      assert h in keys && forall k :: k in keys[..|keys| - 1] ==> k in keys;
      WeightIsCount(p, rows, excluded, out, h);
      SumWeightIsCount(p, rows, excluded, out, keys[..|keys| - 1]);
    }
  }

  /** The recorded weights, one per payload, add up to the input rows less the held-out ones. */
  lemma WeightsConserved(p: Plan, rows: seq<Row>, excluded: set<Hash>, out: seq<Row>, keys: seq<Hash>)
    requires p.maxRepeat >= 1 && Fixed(p, rows, excluded, out)
    requires NoRepeats(keys) && forall h :: h in keys <==> h in Hashes(out)
    ensures SumWeight(out, keys) == |rows| - HeldOut(rows, excluded)
  {
    SumWeightIsCount(p, rows, excluded, out, keys);
    forall h: Hash
      ensures h in keys <==> h in Hashes(rows) && h !in excluded
    {
      Multiplicity(p, rows, excluded, out, h);
    }
    SumKept(rows, excluded, keys);
  }

  // ---------------------------------------------------------------------------------------------
  // The whole dataset
  // ---------------------------------------------------------------------------------------------

  datatype Dataset = Dataset(train: seq<Row>, validation: seq<Row>, test: seq<Row>)

  function Holdouts(d: Dataset, protect: bool): set<Hash> {
    if protect then Hashes(d.validation + d.test) else {}
  }

  ghost predicate FixedDataset(p: Plan, protect: bool, d: Dataset, out: Dataset) {
    && Fixed(p, d.train, Holdouts(d, protect), out.train)
    && Fixed(p, d.validation, {}, out.validation)
    && Fixed(p, d.test, {}, out.test)
  }

  function Overlap(left: seq<Row>, right: seq<Row>): nat {
    |Hashes(left) * Hashes(right)|
  }

  datatype Reports = Reports(train: Report, validation: Report, test: Report)

  /** How many payloads two splits share. */
  datatype Shared = Shared(trainValidation: nat, trainTest: nat, validationTest: nat)

  function SharedIn(d: Dataset): Shared {
    Shared(Overlap(d.train, d.validation), Overlap(d.train, d.test), Overlap(d.validation, d.test))
  }

  // Each figure is the number of payloads that occur in both of its splits.
  ghost predicate Shares(d: Dataset, shared: Shared) {
    && shared.trainValidation == |set h: Hash | h in Hashes(d.train) && h in Hashes(d.validation)|
    && shared.trainTest == |set h: Hash | h in Hashes(d.train) && h in Hashes(d.test)|
    && shared.validationTest == |set h: Hash | h in Hashes(d.validation) && h in Hashes(d.test)|
  }

  lemma SharesExact(d: Dataset)
    ensures Shares(d, SharedIn(d))
  {
    forall a: set<Hash>, b: set<Hash> ensures a * b == set h: Hash | h in a && h in b {}
  }

  datatype Outcome =
    | Done(dataset: Dataset, reports: Reports, before: Shared, after: Shared)
    | UnsupportedMode
    | CapBelowOne

  function PlanFor(name: string, mode: string, maxRepeat: int): Plan
    requires maxRepeat >= 1
  {
    Plan(name, mode == "collapse", maxRepeat)
  }

  // What a report says of the rows before and after.
  predicate Reported(before: seq<Row>, excluded: set<Hash>, after: seq<Row>, r: Report) {
    && r.inputRows == |before| && r.outputRows == |after| && r.reducedRows == |before| - |after|
    && r.protectedRows == HeldOut(before, excluded)
  }

  method FixSplits(p: Plan, protect: bool, d: Dataset, draw: (nat, nat) -> nat)
      returns (out: Dataset, reports: Reports)
    requires p.maxRepeat >= 1
    ensures FixedDataset(p, protect, d, out)
    ensures Reported(d.train, Holdouts(d, protect), out.train, reports.train)
    ensures Reported(d.validation, {}, out.validation, reports.validation)
    ensures Reported(d.test, {}, out.test, reports.test)
  {
    var train, r0 := FixedSplitRows(p, d.train, Holdouts(d, protect), i => draw(0, i));
    var validation, r1 := FixedSplitRows(p, d.validation, {}, i => draw(1, i));
    var test, r2 := FixedSplitRows(p, d.test, {}, i => draw(2, i));
    return Dataset(train, validation, test), Reports(r0, r1, r2);
  }

  /** An unknown mode and then a cap below one are refused. */
  method FixDataset(name: string, mode: string, maxRepeat: int, protect: bool, d: Dataset, draw: (nat, nat) -> nat)
      returns (r: Outcome)
    ensures r.UnsupportedMode? <==> mode != "cap" && mode != "collapse"
    ensures r.CapBelowOne? <==> (mode == "cap" || mode == "collapse") && maxRepeat < 1
    ensures r.Done? ==> FixedDataset(PlanFor(name, mode, maxRepeat), protect, d, r.dataset)
    ensures r.Done? ==> Shares(d, r.before) && Shares(r.dataset, r.after)
    ensures r.Done? ==>
      && Reported(d.train, Holdouts(d, protect), r.dataset.train, r.reports.train)
      && Reported(d.validation, {}, r.dataset.validation, r.reports.validation)
      && Reported(d.test, {}, r.dataset.test, r.reports.test)
  {
    if mode != "cap" && mode != "collapse" {
      return UnsupportedMode;
    }
    if maxRepeat < 1 {
      return CapBelowOne;
    }
    var out, reports := FixSplits(PlanFor(name, mode, maxRepeat), protect, d, draw);
    SharesExact(d);
    SharesExact(out);
    return Done(out, reports, SharedIn(d), SharedIn(out));
  }

  lemma SameHashes(p: Plan, rows: seq<Row>, out: seq<Row>)
    requires p.maxRepeat >= 1 && Fixed(p, rows, {}, out)
    ensures Hashes(out) == Hashes(rows)
  {
    forall h: Hash
      ensures h in Hashes(out) <==> h in Hashes(rows)
    {
      Multiplicity(p, rows, {}, out, h);
    }
  }

  /** With protection the training split shares no payload with the others; the overlap between
      those two never changes. */
  lemma Overlaps(p: Plan, protect: bool, d: Dataset, out: Dataset)
    requires p.maxRepeat >= 1 && FixedDataset(p, protect, d, out)
    ensures Overlap(out.validation, out.test) == Overlap(d.validation, d.test)
    ensures protect ==> Overlap(out.train, out.validation) == 0 && Overlap(out.train, out.test) == 0
    ensures Hashes(out.validation) == Hashes(d.validation) && Hashes(out.test) == Hashes(d.test)
    ensures Hashes(out.train) ==
      Hashes(d.train) - if protect then Hashes(d.validation) + Hashes(d.test) else {}
    ensures Holdouts(out, protect) == Holdouts(d, protect)
  {
    forall h: Hash
      ensures h in Hashes(out.train) <==> h in Hashes(d.train) && h !in Holdouts(d, protect)
    {
      Multiplicity(p, d.train, Holdouts(d, protect), out.train, h);
    }
    SameHashes(p, d.validation, out.validation);
    SameHashes(p, d.test, out.test);
    assert Hashes(d.validation + d.test) == Hashes(d.validation) + Hashes(d.test);
    assert Hashes(out.validation + out.test) == Hashes(out.validation) + Hashes(out.test);
    if protect {
      forall h: Hash | h in Hashes(out.train)
        ensures h !in Hashes(out.validation) && h !in Hashes(out.test)
      {
        Multiplicity(p, d.train, Holdouts(d, protect), out.train, h);
      }
      assert Hashes(out.train) * Hashes(out.validation) == {};
      assert Hashes(out.train) * Hashes(out.test) == {};
    }
  }

  /** What the mode and the cap mean for the payloads of the training split. */
  lemma ModeMeaning(name: string, mode: string, maxRepeat: int, protect: bool, d: Dataset, out: Dataset, h: Hash)
    requires maxRepeat >= 1 && (mode == "cap" || mode == "collapse")
    requires FixedDataset(PlanFor(name, mode, maxRepeat), protect, d, out)
    ensures Count(out.train, h) ==
      if protect && (h in Hashes(d.validation) || h in Hashes(d.test)) then 0
      else Min(Count(d.train, h), if mode == "cap" then maxRepeat else 1)
    ensures Count(out.validation, h) == Min(Count(d.validation, h), if mode == "cap" then maxRepeat else 1)
    ensures Count(out.test, h) == Min(Count(d.test, h), if mode == "cap" then maxRepeat else 1)
  {
    var p := PlanFor(name, mode, maxRepeat);
    assert Hashes(d.validation + d.test) == Hashes(d.validation) + Hashes(d.test);
    Multiplicity(p, d.train, Holdouts(d, protect), out.train, h);
    Multiplicity(p, d.validation, {}, out.validation, h);
    Multiplicity(p, d.test, {}, out.test, h);
  }

  /** Fixing a fixed dataset again changes no multiplicity. */
  lemma Idempotent(p: Plan, protect: bool, d: Dataset, once: Dataset, twice: Dataset, h: Hash)
    requires p.maxRepeat >= 1 && FixedDataset(p, protect, d, once) && FixedDataset(p, protect, once, twice)
    ensures Count(twice.train, h) == Count(once.train, h)
    ensures Count(twice.validation, h) == Count(once.validation, h)
    ensures Count(twice.test, h) == Count(once.test, h)
  {
    Overlaps(p, protect, d, once);
    Multiplicity(p, d.train, Holdouts(d, protect), once.train, h);
    Multiplicity(p, once.train, Holdouts(d, protect), twice.train, h);
    Multiplicity(p, d.validation, {}, once.validation, h);
    Multiplicity(p, once.validation, {}, twice.validation, h);
    Multiplicity(p, d.test, {}, once.test, h);
    Multiplicity(p, once.test, {}, twice.test, h);
  }

  /** The recorded original weight survives a second run exactly when the first run dropped no
      copy of that payload: otherwise it is overwritten with the capped size. */
  lemma WeightSurvivesIff(p: Plan, rows: seq<Row>, excluded: set<Hash>, once: seq<Row>, twice: seq<Row>, h: Hash)
    requires p.maxRepeat >= 1 && Fixed(p, rows, excluded, once) && Fixed(p, once, excluded, twice)
    requires h in Hashes(rows) && h !in excluded
    ensures Weight(twice, h) == Weight(once, h)
      <==> Count(rows, h) <= if p.collapse then 1 else p.maxRepeat
  {
    Multiplicity(p, rows, excluded, once, h);
    Multiplicity(p, once, excluded, twice, h);
    WeightIsCount(p, rows, excluded, once, h);
    WeightIsCount(p, once, excluded, twice, h);
    GroupRows(rows, h);
  }
}
