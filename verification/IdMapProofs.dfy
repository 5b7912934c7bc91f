/** The laid-out map denotes the user's own ID followed by the concatenated ranges; when it is injective. */
module IdMapProofs {
  import opened Prelude
  import opened Decimal
  import opened IdMap

  function Sum(ranges: seq<SubIDRange>): int {
    if ranges == [] then 0 else ranges[0].length + Sum(ranges[1..])
  }

  /** The layout with unbounded prefix sums. */
  function Plain(ranges: seq<SubIDRange>, last: int): seq<Extent> {
    if ranges == [] then []
    else [Extent(last, ranges[0].start, ranges[0].length)] + Plain(ranges[1..], last + ranges[0].length)
  }

  /** Every inside start that is emitted fits in an int; the last range's end need not. */
  predicate Fits(ranges: seq<SubIDRange>, last: int) {
    ranges == [] || (InInt(last) && Fits(ranges[1..], last + ranges[0].length))
  }

  /** The 64-bit loop emits the unbounded layout exactly when its starts fit. */
  lemma {:induction false} LayoutExact(ranges: seq<SubIDRange>, last: int)
    requires Entries(ranges) && InInt(last)
    ensures Layout(ranges, last) == Plain(ranges, last) <==> Fits(ranges, last)
  {
    if ranges != [] {
      var next, tail := last + ranges[0].length, ranges[1..];
      WrapIs(next);
      LayoutExact(tail, Wrap(next));
      var l, p := Layout(ranges, last), Plain(ranges, last);
      assert l[1..] == Layout(tail, Wrap(next)) && p[1..] == Plain(tail, next);
      assert l == p <==> l[1..] == p[1..] by {
        assert l == [l[0]] + l[1..] && p == [p[0]] + p[1..];
      }
      if !InInt(next) && tail != [] {
        assert Layout(tail, Wrap(next))[0].inside != Plain(tail, next)[0].inside;
      }
    }
  }

  // ---------------------------------------------------------------- denotation

  predicate Covers(e: Extent, n: int) {
    e.inside <= n < e.inside + e.length
  }

  predicate Mapped(extents: seq<Extent>, n: int) {
    exists i :: 0 <= i < |extents| && Covers(extents[i], n)
  }

  /** The outside ID of inside ID `n`, as uid_map and gid_map define it. */
  function Denote(extents: seq<Extent>, n: int): Option<int> {
    if extents == [] then None
    else if Covers(extents[0], n) then Some(extents[0].outside + (n - extents[0].inside))
    else Denote(extents[1..], n)
  }

  function Span(r: SubIDRange): seq<int> {
    seq(if r.length < 0 then 0 else r.length, i => r.start + i)
  }

  /** The IDs of the ranges, one after the other. */
  function Ids(ranges: seq<SubIDRange>): seq<int> {
    if ranges == [] then [] else Span(ranges[0]) + Ids(ranges[1..])
  }

  /** No range that has IDs comes after one of negative length, which would lead back to inside IDs already used. */
  predicate Forward(ranges: seq<SubIDRange>) {
    forall i, j | 0 <= i < j < |ranges| && ranges[i].length < 0 :: ranges[j].length <= 0
  }

  lemma ForwardTail(ranges: seq<SubIDRange>)
    requires ranges != []
    ensures Forward(ranges) <==>
              Forward(ranges[1..]) && (ranges[0].length < 0 ==> forall j | 0 <= j < |ranges[1..]| :: ranges[1..][j].length <= 0)
  {
    var tail := ranges[1..];
    assert forall i | 1 <= i < |ranges| :: ranges[i] == tail[i - 1];
    if Forward(tail) && (ranges[0].length < 0 ==> forall j | 0 <= j < |tail| :: tail[j].length <= 0) {
      forall i, j | 0 <= i < j < |ranges| && ranges[i].length < 0
        ensures ranges[j].length <= 0
      {
        assert ranges[j] == tail[j - 1];
      }
    }
    if Forward(ranges) {
      forall i, j | 0 <= i < j < |tail| && tail[i].length < 0
        ensures tail[j].length <= 0
      {
        assert tail[i] == ranges[i + 1] && tail[j] == ranges[j + 1];
      }
    }
  }

  /** The IDs number the sum of the lengths, unless some are negative. */
  lemma {:induction false} IdsLength(ranges: seq<SubIDRange>)
    ensures |Ids(ranges)| >= Sum(ranges)
    ensures |Ids(ranges)| == Sum(ranges) <==> forall i | 0 <= i < |ranges| :: ranges[i].length >= 0
  {
    if ranges != [] {
      IdsLength(ranges[1..]);
      assert forall i | 1 <= i < |ranges| :: ranges[i] == ranges[1..][i - 1];
    }
  }

  lemma {:induction false} NoIds(ranges: seq<SubIDRange>)
    ensures Ids(ranges) == [] <==> forall i | 0 <= i < |ranges| :: ranges[i].length <= 0
  {
    if ranges != [] {
      NoIds(ranges[1..]);
      assert forall i | 1 <= i < |ranges| :: ranges[i] == ranges[1..][i - 1];
    }
  }

  /** A first extent and the ones after it. */
  lemma MappedFirst(ranges: seq<SubIDRange>, last: int, n: int)
    requires ranges != []
    ensures Mapped(Plain(ranges, last), n) <==>
              Covers(Plain(ranges, last)[0], n) || Mapped(Plain(ranges[1..], last + ranges[0].length), n)
  {
    var p, q := Plain(ranges, last), Plain(ranges[1..], last + ranges[0].length);
    assert p[1..] == q;
    if Mapped(q, n) {
      var i :| 0 <= i < |q| && Covers(q[i], n);
      assert Covers(p[i + 1], n);
    }
    if i :| 1 <= i < |p| && Covers(p[i], n) {
      assert Covers(q[i - 1], n);
    }
  }

  /** No inside ID beyond the number of IDs is mapped, and none at all where there are no IDs. */
  lemma {:induction false} MappedBelow(ranges: seq<SubIDRange>, last: int, n: int)
    ensures Mapped(Plain(ranges, last), n) ==> n < last + |Ids(ranges)| && Ids(ranges) != []
  {
    if ranges != [] {
      MappedBelow(ranges[1..], last + ranges[0].length, n);
      MappedFirst(ranges, last, n);
    }
  }

  /** If a range with IDs follows one of negative length, the last place is left empty. */
  lemma {:induction false} TopUnmapped(ranges: seq<SubIDRange>, last: int)
    requires !Forward(ranges)
    ensures Ids(ranges) != [] && !Mapped(Plain(ranges, last), last + |Ids(ranges)| - 1)
  {
    var tail, next, top := ranges[1..], last + ranges[0].length, last + |Ids(ranges)| - 1;
    ForwardTail(ranges);
    NoIds(tail);
    MappedFirst(ranges, last, top);
    if ranges[0].length < 0 {
      MappedBelow(tail, next, top);
    } else {
      TopUnmapped(tail, next);
    }
  }

  lemma {:induction false} DenoteMapped(extents: seq<Extent>, n: int)
    ensures Denote(extents, n).Some? <==> Mapped(extents, n)
  {
    if extents != [] {
      DenoteMapped(extents[1..], n);
      if Mapped(extents[1..], n) {
        var i :| 0 <= i < |extents[1..]| && Covers(extents[1..][i], n);
        assert Covers(extents[i + 1], n);
      }
      if i :| 1 <= i < |extents| && Covers(extents[i], n) {
        assert Covers(extents[1..][i - 1], n);
      }
    }
  }

  /** The ID at a place of the concatenation, if there is one. */
  function Lookup(ids: seq<int>, k: int): Option<int> {
    if 0 <= k < |ids| then Some(ids[k]) else None
  }

  /** A place past the first range is looked up in the rest; one inside it, in its span. */
  lemma LookupFirst(ranges: seq<SubIDRange>, k: int)
    requires ranges != [] && ranges[0].length >= 0
    ensures Lookup(Ids(ranges), k) ==
              if 0 <= k < ranges[0].length then Some(ranges[0].start + k)
              else if k < 0 then None
              else Lookup(Ids(ranges[1..]), k - ranges[0].length)
  {
  }

  lemma {:induction false} DenotePlain(ranges: seq<SubIDRange>, last: int, n: int)
    requires Forward(ranges)
    ensures Denote(Plain(ranges, last), n) == Lookup(Ids(ranges), n - last)
  {
    if ranges != [] {
      var tail, next := ranges[1..], last + ranges[0].length;
      ForwardTail(ranges);
      var p := Plain(ranges, last);
      assert p[0] == Extent(last, ranges[0].start, ranges[0].length) && p[1..] == Plain(tail, next);
      if ranges[0].length < 0 {
        NoIds(tail);
        NoIds(ranges);
        MappedBelow(ranges, last, n);
        DenoteMapped(p, n);
      } else {
        DenotePlain(tail, next, n);
        LookupFirst(ranges, n - last);
      }
    }
  }

  /** The user's own ID, as a range of its own, in front. */
  function WithOwn(own: int, ranges: seq<SubIDRange>): seq<SubIDRange> {
    [SubIDRange(own, 1)] + ranges
  }

  lemma FullMapPlain(own: int, ranges: seq<SubIDRange>)
    requires Entries(ranges) && Fits(ranges, 1)
    ensures FullMap(own, ranges) == Plain(WithOwn(own, ranges), 0)
    ensures Forward(WithOwn(own, ranges)) <==> Forward(ranges)
    ensures Ids(WithOwn(own, ranges)) == [own] + Ids(ranges)
  {
    LayoutExact(ranges, 1);
    var all := WithOwn(own, ranges);
    assert all[1..] == ranges;
    ForwardTail(all);
    assert Span(all[0]) == [own];
  }

  /**
   * Inside ID 0 is the user, inside ID n > 0 is the (n-1)th ID of the concatenated ranges and no
   * other is mapped, exactly when no range with IDs follows one of negative length.
   */
  lemma MapDenotes(own: int, ranges: seq<SubIDRange>)
    requires Entries(ranges) && Fits(ranges, 1)
    ensures (forall n :: Denote(FullMap(own, ranges), n) == Lookup([own] + Ids(ranges), n)) <==> Forward(ranges)
  {
    FullMapPlain(own, ranges);
    var all := WithOwn(own, ranges);
    if Forward(ranges) {
      forall n
        ensures Denote(FullMap(own, ranges), n) == Lookup([own] + Ids(ranges), n)
      {
        DenotePlain(all, 0, n);
      }
    } else {
      TopUnmapped(all, 0);
      var top := |Ids(all)| - 1;
      DenoteMapped(FullMap(own, ranges), top);
      assert Lookup([own] + Ids(ranges), top).Some?;
    }
  }

  // ---------------------------------------------------------------- tiling

  /** What the kernel asks of a map: no negative inside ID, and none in two extents. */
  ghost predicate LegalMap(extents: seq<Extent>) {
    && (forall n | Mapped(extents, n) :: n >= 0)
    && NoOverlap(extents)
  }

  ghost predicate NoOverlap(extents: seq<Extent>) {
    forall i, j, n | 0 <= i < j < |extents| && Covers(extents[i], n) :: !Covers(extents[j], n)
  }

  lemma {:induction false} Contiguous(ranges: seq<SubIDRange>, last: int)
    ensures var p := Plain(ranges, last);
            && |p| == |ranges|
            && (forall i | 0 <= i < |p| :: p[i].outside == ranges[i].start && p[i].length == ranges[i].length)
            && (p != [] ==> p[0].inside == last)
            && (forall i | 0 <= i < |p| - 1 :: p[i + 1].inside == p[i].inside + p[i].length)
  {
    if ranges != [] {
      Contiguous(ranges[1..], last + ranges[0].length);
    }
  }

  lemma NoOverlapFirst(extents: seq<Extent>)
    requires extents != []
    ensures NoOverlap(extents) <==>
              NoOverlap(extents[1..]) && forall n | Covers(extents[0], n) :: !Mapped(extents[1..], n)
  {
    var tail := extents[1..];
    if NoOverlap(extents) {
      forall n | Covers(extents[0], n)
        ensures !Mapped(tail, n)
      {
        forall i | 0 <= i < |tail|
          ensures !Covers(tail[i], n)
        {
          assert tail[i] == extents[i + 1];
        }
      }
      forall i, j, n | 0 <= i < j < |tail| && Covers(tail[i], n)
        ensures !Covers(tail[j], n)
      {
        assert tail[i] == extents[i + 1] && tail[j] == extents[j + 1];
      }
    }
    if NoOverlap(tail) && forall n | Covers(extents[0], n) :: !Mapped(tail, n) {
      forall i, j, n | 0 <= i < j < |extents| && Covers(extents[i], n)
        ensures !Covers(extents[j], n)
      {
        assert extents[j] == tail[j - 1];
        if i > 0 {
          assert extents[i] == tail[i - 1];
        } else {
          assert !Mapped(tail, n);
        }
      }
    }
  }

  /** Going forward, the extents cover the places from `last` on, each once and no others. */
  lemma {:induction false} Tiles(ranges: seq<SubIDRange>, last: int)
    requires Forward(ranges)
    ensures forall n :: Mapped(Plain(ranges, last), n) <==> last <= n < last + |Ids(ranges)|
    ensures NoOverlap(Plain(ranges, last))
  {
    var p := Plain(ranges, last);
    forall n
      ensures Mapped(p, n) <==> last <= n < last + |Ids(ranges)|
    {
      DenotePlain(ranges, last, n);
      DenoteMapped(p, n);
    }
    if ranges != [] {
      var tail, next := ranges[1..], last + ranges[0].length;
      ForwardTail(ranges);
      Tiles(tail, next);
      assert p[1..] == Plain(tail, next);
      NoOverlapFirst(p);
    }
  }

  /** If there are IDs at all, the first of them is at `last` or before it. */
  lemma {:induction false} FirstIds(ranges: seq<SubIDRange>, last: int) returns (n: int)
    requires Ids(ranges) != []
    ensures n <= last && Mapped(Plain(ranges, last), n)
  {
    if ranges[0].length > 0 {
      n := last;
      assert Covers(Plain(ranges, last)[0], n);
    } else {
      n := FirstIds(ranges[1..], last + ranges[0].length);
      MappedFirst(ranges, last, n);
    }
  }

  /** Going back, some extent reaches below `last`, or two overlap. */
  lemma {:induction false} GoesBack(ranges: seq<SubIDRange>, last: int)
    requires !Forward(ranges)
    ensures !NoOverlap(Plain(ranges, last)) || exists n :: n < last && Mapped(Plain(ranges, last), n)
  {
    var tail, next := ranges[1..], last + ranges[0].length;
    var p := Plain(ranges, last);
    assert p[1..] == Plain(tail, next);
    ForwardTail(ranges);
    if ranges[0].length < 0 {
      NoIds(tail);
      var n := FirstIds(tail, next);
      MappedFirst(ranges, last, n);
    } else {
      GoesBack(tail, next);
      NoOverlapFirst(p);
      if n :| n < next && Mapped(Plain(tail, next), n) {
        MappedFirst(ranges, last, n);
        assert last <= n ==> Covers(p[0], n);
      }
    }
  }

  /** Exactly those inside IDs are mapped that number the IDs. */
  ghost predicate CoversAll(extents: seq<Extent>, count: nat) {
    forall n :: Mapped(extents, n) <==> 0 <= n < count
  }

  lemma PlainLegalIff(ranges: seq<SubIDRange>)
    ensures LegalMap(Plain(ranges, 0)) <==> Forward(ranges)
    ensures CoversAll(Plain(ranges, 0), |Ids(ranges)|) <==> Forward(ranges)
  {
    hide Forward, Ids, Plain, Mapped, NoOverlap;
    if Forward(ranges) {
      Tiles(ranges, 0);
    } else {
      GoesBack(ranges, 0);
      TopUnmapped(ranges, 0);
    }
  }

  /**
   * The extents follow one another from inside ID 0 on. They are a legal map, and cover exactly the
   * inside IDs from 0 up to the number of IDs, exactly when no range with IDs follows one of negative
   * length. That number is one more than the sum of the lengths exactly when none is negative.
   */
  lemma MapTiles(own: int, ranges: seq<SubIDRange>)
    requires Entries(ranges) && Fits(ranges, 1)
    ensures var m := FullMap(own, ranges);
            && |m| == 1 + |ranges| && m[0].inside == 0
            && (forall i | 0 <= i < |m| - 1 :: m[i + 1].inside == m[i].inside + m[i].length)
            && (LegalMap(m) <==> Forward(ranges))
            && (CoversAll(m, 1 + |Ids(ranges)|) <==> Forward(ranges))
    ensures |Ids(ranges)| == Sum(ranges) <==> forall i | 0 <= i < |ranges| :: ranges[i].length >= 0
  {
    hide Forward, Ids, Plain, FullMap, LegalMap, CoversAll, Sum, Fits, Entries;
    IdsLength(ranges);
    FullMapPlain(own, ranges);
    PlainFromZero(WithOwn(own, ranges));
    PlainLegalIff(WithOwn(own, ranges));
  }

  lemma PlainFromZero(all: seq<SubIDRange>)
    requires all != []
    ensures var m := Plain(all, 0);
            && |m| == |all| && m[0].inside == 0
            && forall i | 0 <= i < |m| - 1 :: m[i + 1].inside == m[i].inside + m[i].length
  {
    Contiguous(all, 0);
  }

  /** A list that leads back: inside ID 2 would be in two extents. */
  lemma NegativeLengthLeadsBack(own: int) returns (ranges: seq<SubIDRange>)
    ensures Entries(ranges) && Fits(ranges, 1) && !LegalMap(FullMap(own, ranges))
  {
    ranges := [SubIDRange(100000, 2), SubIDRange(200000, -1), SubIDRange(300000, 1)];
    assert ranges[1].length < 0 < ranges[2].length;
    assert ranges[1..][1..] == ranges[2..] && ranges[2..][1..] == [];
    assert Fits(ranges[2..], 2) && Fits(ranges[1..], 3);
    MapTiles(own, ranges);
  }

  // ---------------------------------------------------------------- injectivity

  predicate InRange(x: int, r: SubIDRange) {
    r.start <= x < r.start + r.length
  }

  ghost predicate Overlap(a: SubIDRange, b: SubIDRange) {
    exists x :: InRange(x, a) && InRange(x, b)
  }

  ghost predicate PairwiseDisjoint(ranges: seq<SubIDRange>) {
    forall i, j | 0 <= i < j < |ranges| :: !Overlap(ranges[i], ranges[j])
  }

  ghost predicate Injective(extents: seq<Extent>) {
    forall m, n :: Denote(extents, m).Some? && Denote(extents, m) == Denote(extents, n) ==> m == n
  }

  lemma {:induction false} InIds(ranges: seq<SubIDRange>, x: int)
    ensures x in Ids(ranges) <==> exists i :: 0 <= i < |ranges| && InRange(x, ranges[i])
  {
    if ranges != [] {
      InSpan(ranges[0], x);
      InIds(ranges[1..], x);
      if x in Ids(ranges[1..]) {
        var i :| 0 <= i < |ranges[1..]| && InRange(x, ranges[1..][i]);
        assert InRange(x, ranges[i + 1]);
      }
      if i :| 1 <= i < |ranges| && InRange(x, ranges[i]) {
        assert InRange(x, ranges[1..][i - 1]);
      }
    }
  }

  lemma InSpan(r: SubIDRange, x: int)
    ensures x in Span(r) <==> InRange(x, r)
  {
    if InRange(x, r) {
      assert Span(r)[x - r.start] == x;
    }
  }

  lemma NoRepeatsConcat(a: seq<int>, b: seq<int>)
    requires NoRepeats(a)
    ensures NoRepeats(a + b) <==> NoRepeats(b) && forall x | x in a :: x !in b
  {
    var ab := a + b;
    assert forall i | 0 <= i < |ab| :: ab[i] == if i < |a| then a[i] else b[i - |a|];
    if NoRepeats(ab) {
      forall i, j | 0 <= i < j < |b|
        ensures b[i] != b[j]
      {
        assert ab[|a| + i] == b[i] && ab[|a| + j] == b[j];
      }
      forall x | x in a
        ensures x !in b
      {
        var i :| 0 <= i < |a| && a[i] == x;
        forall j | 0 <= j < |b|
          ensures b[j] != x
        {
          assert ab[i] == x && ab[|a| + j] == b[j];
        }
      }
    }
    if NoRepeats(b) && forall x | x in a :: x !in b {
      forall i, j | 0 <= i < j < |ab|
        ensures ab[i] != ab[j]
      {
        if i < |a| <= j {
          assert a[i] in a && b[j - |a|] in b;
        }
      }
    }
  }

  /** The concatenated IDs have no repeats exactly when the ranges are pairwise disjoint. */
  lemma {:induction false} NoRepeatsIff(ranges: seq<SubIDRange>)
    ensures NoRepeats(Ids(ranges)) <==> PairwiseDisjoint(ranges)
  {
    if ranges != [] {
      var tail := ranges[1..];
      NoRepeatsIff(tail);
      NoRepeatsConcat(Span(ranges[0]), Ids(tail));
      forall x
        ensures x in Span(ranges[0]) <==> InRange(x, ranges[0])
        ensures x in Ids(tail) <==> exists i :: 0 <= i < |tail| && InRange(x, tail[i])
      {
        InSpan(ranges[0], x);
        InIds(tail, x);
      }
      DisjointHead(ranges);
    }
  }

  lemma DisjointHead(ranges: seq<SubIDRange>)
    requires ranges != []
    ensures PairwiseDisjoint(ranges) <==>
              && PairwiseDisjoint(ranges[1..])
              && forall x, i | 0 <= i < |ranges[1..]| && InRange(x, ranges[1..][i]) :: !InRange(x, ranges[0])
  {
  }

  lemma InjectivePlain(ranges: seq<SubIDRange>)
    requires Forward(ranges)
    ensures Injective(Plain(ranges, 0)) <==> NoRepeats(Ids(ranges))
  {
    forall n
      ensures Denote(Plain(ranges, 0), n) == Lookup(Ids(ranges), n)
    {
      DenotePlain(ranges, 0, n);
    }
    if Injective(Plain(ranges, 0)) {
      forall i, j | 0 <= i < j < |Ids(ranges)|
        ensures Ids(ranges)[i] != Ids(ranges)[j]
      {
        assert Denote(Plain(ranges, 0), i) == Some(Ids(ranges)[i]);
        assert Denote(Plain(ranges, 0), j) == Some(Ids(ranges)[j]);
      }
    }
  }

  ghost predicate Outside(own: int, ranges: seq<SubIDRange>) {
    forall r | r in ranges :: !InRange(own, r)
  }

  /**
   * The map is legal and injective exactly when the ranges go forward and they and the user's own ID
   * are pairwise disjoint.
   */
  lemma MapInjectiveIff(own: int, ranges: seq<SubIDRange>)
    requires Entries(ranges) && Fits(ranges, 1)
    ensures LegalMap(FullMap(own, ranges)) && Injective(FullMap(own, ranges)) <==>
              Forward(ranges) && PairwiseDisjoint(ranges) && Outside(own, ranges)
  {
    MapTiles(own, ranges);
    if Forward(ranges) {
      var all := WithOwn(own, ranges);
      FullMapPlain(own, ranges);
      InjectivePlain(all);
      NoRepeatsIff(all);
      DisjointHead(all);
      assert all[1..] == ranges;
      assert forall x :: InRange(x, all[0]) <==> x == own;
    }
  }

  /** Overlapping entries are the same entry. */
  ghost predicate OverlapsAreEqual(list: seq<SubIDRange>) {
    forall a, b | a in list && b in list && Overlap(a, b) :: a == b
  }

  /**
   * Dedupe composed with the layout, for the by-name list followed by the by-UID list: the map is
   * legal and injective exactly when what is left goes forward, entries that overlap are equal and
   * none contains the user's own ID.
   */
  lemma DedupedMapInjectiveIff(own: int, byName: seq<SubIDRange>, byUID: seq<SubIDRange>)
    requires Entries(byName + byUID) && Fits(Dedupe(byName + byUID), 1)
    ensures var m := FullMap(own, Dedupe(byName + byUID));
            LegalMap(m) && Injective(m) <==>
              Forward(Dedupe(byName + byUID)) && OverlapsAreEqual(byName + byUID) && Outside(own, byName + byUID)
  {
    var list := byName + byUID;
    var d := Dedupe(list);
    DedupeIs(list);
    assert Entries(d) by {
      forall i | 0 <= i < |d|
        ensures InInt(d[i].start) && InInt(d[i].length)
      {
        assert d[i] in list;
      }
    }
    MapInjectiveIff(own, d);
    DisjointDedupe(list);
  }

  lemma DisjointDedupe(list: seq<SubIDRange>)
    ensures PairwiseDisjoint(Dedupe(list)) <==> OverlapsAreEqual(list)
  {
    var d := Dedupe(list);
    DedupeIs(list);
    if PairwiseDisjoint(d) {
      forall a, b | a in list && b in list && Overlap(a, b)
        ensures a == b
      {
        assert a in d && b in d;
        var i, j :| 0 <= i < |d| && 0 <= j < |d| && d[i] == a && d[j] == b;
        assert Overlap(b, a);
        assert i == j;
      }
    }
    if OverlapsAreEqual(list) {
      forall i, j | 0 <= i < j < |d|
        ensures !Overlap(d[i], d[j])
      {
        assert d[i] in list && d[j] in list && d[i] != d[j];
      }
    }
  }
}
