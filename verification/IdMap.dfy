/** The subordinate-ID ranges: removing duplicates, laying them out, and what the map then denotes. */
module IdMap {
  import opened Prelude
  import opened Decimal

  datatype SubIDRange = SubIDRange(start: int, length: int)

  /** One line of /proc/PID/uid_map: inside IDs from `inside` on are outside IDs from `outside` on. */
  datatype Extent = Extent(inside: int, outside: int, length: int)

  // ---------------------------------------------------------------- dedupe

  /** The list without the entries that occurred before. */
  function Dedupe(list: seq<SubIDRange>): seq<SubIDRange> {
    if list == [] then []
    else
      var kept, item := Dedupe(list[..|list| - 1]), list[|list| - 1];
      if item in list[..|list| - 1] then kept else kept + [item]
  }

  method WithoutDuplicates(sliceList: seq<SubIDRange>) returns (list: seq<SubIDRange>)
    ensures list == Dedupe(sliceList)
  {
    var seenKeys: map<SubIDRange, bool> := map[];
    list := [];
    for i := 0 to |sliceList|
      invariant forall r :: r in seenKeys <==> r in sliceList[..i]
      invariant list == Dedupe(sliceList[..i])
    {
      var item := sliceList[i];
      assert sliceList[..i + 1][..i] == sliceList[..i];
      if item !in seenKeys {
        seenKeys := seenKeys[item := true];
        list := list + [item];
      }
    }
    assert sliceList[..|sliceList|] == sliceList;
  }

  /** Where an entry occurs first. */
  function FirstIndex(list: seq<SubIDRange>, item: SubIDRange): (i: nat)
    requires item in list
    ensures i < |list| && list[i] == item && item !in list[..i]
  {
    if list[0] == item then 0
    else
      var i := FirstIndex(list[1..], item);
      assert list[..i + 1] == [list[0]] + list[1..][..i];
      i + 1
  }

  predicate NoRepeats<T(==)>(s: seq<T>) {
    forall i, j | 0 <= i < j < |s| :: s[i] != s[j]
  }

  /** Dedupe keeps the set of entries, has no repeats, and keeps the order of first occurrences. */
  lemma {:induction false} DedupeIs(list: seq<SubIDRange>)
    ensures forall r :: r in Dedupe(list) <==> r in list
    ensures NoRepeats(Dedupe(list))
    ensures forall i, j | 0 <= i < j < |Dedupe(list)| ::
              FirstIndex(list, Dedupe(list)[i]) < FirstIndex(list, Dedupe(list)[j])
  {
    if list != [] {
      var front, item := list[..|list| - 1], list[|list| - 1];
      DedupeIs(front);
      assert list == front + [item];
      var d := Dedupe(list);
      forall r | r in front
        ensures FirstIndex(list, r) == FirstIndex(front, r)
      {
        FirstIndexPrefix(front, [item], r);
      }
    }
  }

  lemma FirstIndexPrefix(a: seq<SubIDRange>, b: seq<SubIDRange>, r: SubIDRange)
    requires r in a
    ensures FirstIndex(a + b, r) == FirstIndex(a, r)
  {
    var i := FirstIndex(a, r);
    assert (a + b)[..i] == a[..i] && (a + b)[i] == r;
    FirstIndexIs(a + b, r, i);
  }

  lemma FirstIndexIs(list: seq<SubIDRange>, r: SubIDRange, i: nat)
    requires i < |list| && list[i] == r && r !in list[..i]
    ensures FirstIndex(list, r) == i
  {
  }

  /** What one getsubids invocation gives: the entries it parsed and whether it failed. */
  datatype Fetched = Fetched(ranges: seq<SubIDRange>, failed: bool)

  method GetSubIDRanges(uByUsername: Fetched, uByUID: Fetched, gByUsername: Fetched, gByUID: Fetched)
    returns (r: Option<(seq<SubIDRange>, seq<SubIDRange>)>)
    ensures r == None <==> (uByUsername.failed && uByUID.failed) || (gByUsername.failed && gByUID.failed)
    ensures r.Some? ==>
              && r.value.0 == Dedupe(uByUsername.ranges + uByUID.ranges)
              && r.value.1 == Dedupe(gByUsername.ranges + gByUID.ranges)
  {
    if uByUID.failed && uByUsername.failed {
      return None;
    }
    if gByUID.failed && gByUsername.failed {
      return None;
    }
    var u := WithoutDuplicates(uByUsername.ranges + uByUID.ranges);
    var g := WithoutDuplicates(gByUsername.ranges + gByUID.ranges);
    return Some((u, g));
  }

  // ---------------------------------------------------------------- layout

  /** Addition in Go's 64-bit int. */
  function Wrap(x: int): int {
    (x - MIN_INT) % 0x1_0000_0000_0000_0000 + MIN_INT
  }

  /** The extents the loop emits, starting at inside ID `last`. */
  function Layout(ranges: seq<SubIDRange>, last: int): seq<Extent> {
    if ranges == [] then []
    else [Extent(last, ranges[0].start, ranges[0].length)] + Layout(ranges[1..], Wrap(last + ranges[0].length))
  }

  function Triple(e: Extent): seq<string> {
    [Itoa(e.inside), Itoa(e.outside), Itoa(e.length)]
  }

  function Args(extents: seq<Extent>): seq<string> {
    if extents == [] then [] else Triple(extents[0]) + Args(extents[1..])
  }

  /** Emitting one more triple leaves the arguments still to come. */
  lemma ArgsStep(args: seq<string>, ranges: seq<SubIDRange>, i: nat, last: int)
    requires i < |ranges|
    ensures args + Args(Layout(ranges[i..], last))
         == args + [Itoa(last), Itoa(ranges[i].start), Itoa(ranges[i].length)]
            + Args(Layout(ranges[i + 1..], Wrap(last + ranges[i].length)))
  {
    assert ranges[i..][1..] == ranges[i + 1..];
    var layout := Layout(ranges[i..], last);
    assert layout[1..] == Layout(ranges[i + 1..], Wrap(last + ranges[i].length));
    assert Args(layout) == Triple(layout[0]) + Args(layout[1..]);
  }

  lemma ArgsEnd(ranges: seq<SubIDRange>)
    ensures ranges[0..] == ranges
    ensures forall last :: Args(Layout(ranges[|ranges|..], last)) == []
  {
  }

  method NewugidmapArgsFromSubIDRanges(uid: string, gid: string, subuidRanges: seq<SubIDRange>, subgidRanges: seq<SubIDRange>)
    returns (uidMap: seq<string>, gidMap: seq<string>)
    ensures uidMap == ["0", uid, "1"] + Args(Layout(subuidRanges, 1))
    ensures gidMap == ["0", gid, "1"] + Args(Layout(subgidRanges, 1))
  {
    ghost var uidStart, gidStart := ["0", uid, "1"], ["0", gid, "1"];
    ArgsEnd(subuidRanges);
    ArgsEnd(subgidRanges);
    hide Layout, Args, Wrap;
    uidMap := ["0", uid, "1"];
    gidMap := ["0", gid, "1"];

    var uidMapLast := 1;
    for i := 0 to |subuidRanges|
      invariant uidMap + Args(Layout(subuidRanges[i..], uidMapLast)) == uidStart + Args(Layout(subuidRanges, 1))
    {
      var f := subuidRanges[i];
      ArgsStep(uidMap, subuidRanges, i, uidMapLast);
      uidMap := uidMap + [Itoa(uidMapLast), Itoa(f.start), Itoa(f.length)];
      uidMapLast := Wrap(uidMapLast + f.length);
    }

    var gidMapLast := 1;
    for i := 0 to |subgidRanges|
      invariant gidMap + Args(Layout(subgidRanges[i..], gidMapLast)) == gidStart + Args(Layout(subgidRanges, 1))
    {
      var f := subgidRanges[i];
      ArgsStep(gidMap, subgidRanges, i, gidMapLast);
      gidMap := gidMap + [Itoa(gidMapLast), Itoa(f.start), Itoa(f.length)];
      gidMapLast := Wrap(gidMapLast + f.length);
    }
  }

  // ---------------------------------------------------------------- what the arguments denote

  /** newuidmap and newgidmap read their arguments back three at a time. */
  function ReadTriples(args: seq<string>): Option<seq<Extent>> {
    if args == [] then Some([])
    else if |args| < 3 then None
    else
      match (Atoi(args[0]), Atoi(args[1]), Atoi(args[2]), ReadTriples(args[3..]))
      case (Some(i), Some(o), Some(l), Some(rest)) => Some([Extent(i, o, l)] + rest)
      case _ => None
  }

  predicate InInt(x: int) {
    MIN_INT <= x <= MAX_INT
  }

  /** Entries come from Atoi, so their fields are 64-bit; nothing keeps a length from being negative. */
  predicate Entries(ranges: seq<SubIDRange>) {
    forall i | 0 <= i < |ranges| :: InInt(ranges[i].start) && InInt(ranges[i].length)
  }

  lemma WrapIs(x: int)
    ensures InInt(Wrap(x))
    ensures Wrap(x) == x <==> InInt(x)
  {
  }

  lemma {:induction false} ReadTriplesArgs(extents: seq<Extent>)
    requires forall i | 0 <= i < |extents| ::
               InInt(extents[i].inside) && InInt(extents[i].outside) && InInt(extents[i].length)
    ensures ReadTriples(Args(extents)) == Some(extents)
  {
    if extents != [] {
      var e := extents[0];
      AtoiItoa(e.inside);
      AtoiItoa(e.outside);
      AtoiItoa(e.length);
      ReadTriplesArgs(extents[1..]);
      assert Args(extents)[3..] == Args(extents[1..]);
      assert [e] + extents[1..] == extents;
    }
  }

  lemma {:induction false} LayoutInInt(ranges: seq<SubIDRange>, last: int)
    requires Entries(ranges) && InInt(last)
    ensures |Layout(ranges, last)| == |ranges|
    ensures forall i | 0 <= i < |Layout(ranges, last)| ::
              var e := Layout(ranges, last)[i]; InInt(e.inside) && InInt(e.outside) && InInt(e.length)
  {
    if ranges != [] {
      WrapIs(last + ranges[0].length);
      LayoutInInt(ranges[1..], Wrap(last + ranges[0].length));
    }
  }

  /** The map newuidmap writes: the user's own ID as inside ID 0, then the laid-out ranges. */
  function FullMap(own: int, ranges: seq<SubIDRange>): seq<Extent> {
    [Extent(0, own, 1)] + Layout(ranges, 1)
  }

  /** The arguments the parent passes are read back as exactly that map. */
  lemma ArgsDenoteMap(own: int, ranges: seq<SubIDRange>)
    requires InInt(own) && Entries(ranges)
    ensures ReadTriples(["0", Itoa(own), "1"] + Args(Layout(ranges, 1))) == Some(FullMap(own, ranges))
  {
    LayoutInInt(ranges, 1);
    ReadTriplesArgs(FullMap(own, ranges));
    assert FullMap(own, ranges)[1..] == Layout(ranges, 1);
    assert Triple(Extent(0, own, 1)) == ["0", Itoa(own), "1"];
  }
}
