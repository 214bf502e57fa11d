/** Physical segments: the loops of block/blk-merge.c that count them and that map them to a
    scatter-gather list, and how the two compare. */
module Segments {
  import opened Bios

  /** The queue limits the segment code looks at; `window` is the segment boundary mask plus one. */
  datatype Limits = Limits(cluster: bool, maxSegmentSize: nat, window: nat, bouncePfn: nat,
                           maxSegments: nat, maxSectors: nat)

  predicate LimitsOk(lim: Limits) {
    lim.window > 0
  }

  /** page_to_pfn(bv_page) > queue_bounce_pfn(q) */
  predicate High(lim: Limits, v: Vec) {
    v.page > lim.bouncePfn
  }

  /** BIOVEC_PHYS_MERGEABLE and BIOVEC_SEG_BOUNDARY on neighbours. */
  predicate Adjacent(lim: Limits, a: Vec, b: Vec)
    requires LimitsOk(lim)
  {
    && Phys(a) + a.len == Phys(b)
    && Phys(a) / lim.window == (Phys(b) + b.len - 1) / lim.window
  }

  type Group = seq<Vec>

  function Last<T>(s: seq<T>): T
    requires s != []
  {
    s[|s| - 1]
  }

  function Front<T>(s: seq<T>): seq<T>
    requires s != []
  {
    s[..|s| - 1]
  }

  function Flatten(g: seq<Group>): seq<Vec> {
    if g == [] then [] else Flatten(Front(g)) + Last(g)
  }

  /** A group that hardware may take as one segment: one vector of any size, or neighbours within the size limit. */
  ghost predicate IsSegment(lim: Limits, s: Group)
    requires LimitsOk(lim)
  {
    && s != []
    && (forall i, j :: 0 <= i < j < |s| && j == i + 1 ==> Adjacent(lim, s[i], s[j]))
    && (|s| == 1 || (lim.cluster && Size(s) <= lim.maxSegmentSize))
  }

  ghost predicate IsGrouping(lim: Limits, g: seq<Group>, vs: seq<Vec>)
    requires LimitsOk(lim)
  {
    Flatten(g) == vs && forall i :: 0 <= i < |g| ==> IsSegment(lim, g[i])
  }

  /** Whether a vector is taken into the segment before it; counting (low) also keeps high pages apart. */
  predicate Joins(lim: Limits, s: Group, v: Vec, low: bool)
    requires LimitsOk(lim) && s != []
  {
    && lim.cluster
    && Size(s) + v.len <= lim.maxSegmentSize
    && Adjacent(lim, Last(s), v)
    && (low ==> !High(lim, s[0]) && !High(lim, v))
  }

  function Place(lim: Limits, g: seq<Group>, v: Vec, low: bool): seq<Group>
    requires LimitsOk(lim)
  {
    if g != [] && Last(g) != [] && Joins(lim, Last(g), v, low) then Front(g) + [Last(g) + [v]] else g + [[v]]
  }

  /** The segments as the loops form them, from the first vector to the last. */
  function Greedy(lim: Limits, vs: seq<Vec>, low: bool): seq<Group>
    requires LimitsOk(lim)
  {
    if vs == [] then [] else Place(lim, Greedy(lim, Front(vs), low), Last(vs), low)
  }

  // ---------------------------------------------------------------------------------------
  // The segments formed are legal, and as few as can be

  lemma SizeSnoc(s: seq<Vec>, v: Vec)
    ensures Size(s + [v]) == Size(s) + v.len
  {
    assert (s + [v])[..|s|] == s;
  }

  lemma SizeOne(v: Vec)
    ensures Size([v]) == v.len
  {
    SizeSnoc([], v);
    assert [] + [v] == [v];
  }

  lemma FlattenSnoc(g: seq<Group>, s: Group)
    ensures Flatten(g + [s]) == Flatten(g) + s
  {
    assert Front(g + [s]) == g;
  }

  lemma PlaceGrouping(lim: Limits, g: seq<Group>, vs: seq<Vec>, v: Vec, low: bool)
    requires LimitsOk(lim) && IsGrouping(lim, g, vs)
    ensures IsGrouping(lim, Place(lim, g, v, low), vs + [v])
  {
    if g != [] && Joins(lim, Last(g), v, low) {
      SizeSnoc(Last(g), v);
      FlattenSnoc(Front(g), Last(g) + [v]);
      assert g == Front(g) + [Last(g)];
      assert IsSegment(lim, Last(g));
      assert IsSegment(lim, Last(g) + [v]);
    } else {
      FlattenSnoc(g, [v]);
      assert IsSegment(lim, [v]);
    }
  }

  lemma {:induction false} GreedyGrouping(lim: Limits, vs: seq<Vec>, low: bool)
    requires LimitsOk(lim)
    ensures IsGrouping(lim, Greedy(lim, vs, low), vs)
    decreases |vs|
  {
    if vs != [] {
      GreedyGrouping(lim, Front(vs), low);
      PlaceGrouping(lim, Greedy(lim, Front(vs), low), Front(vs), Last(vs), low);
      assert vs == Front(vs) + [Last(vs)];
    }
  }

  /** A grouping without its last vector. */
  function Shorten(h: seq<Group>): seq<Group>
    requires h != [] && Last(h) != []
  {
    if |Last(h)| == 1 then Front(h) else Front(h) + [Front(Last(h))]
  }

  lemma ShortenGrouping(lim: Limits, h: seq<Group>, vs: seq<Vec>)
    requires LimitsOk(lim) && IsGrouping(lim, h, vs) && vs != []
    ensures h != [] && Last(h) != [] && Last(Last(h)) == Last(vs)
    ensures IsGrouping(lim, Shorten(h), Front(vs))
  {
    assert IsSegment(lim, Last(h));
    var s := Last(h);
    assert s == Front(s) + [Last(s)];
    if |s| > 1 {
      FlattenSnoc(Front(h), Front(s));
      SizeSnoc(Front(s), Last(s));
      assert IsSegment(lim, Front(s));
    }
    assert Flatten(h) == Flatten(Front(h)) + s;
    assert Front(Flatten(h)) == Flatten(Front(h)) + Front(s);
  }

  lemma {:induction false} SizeSuffix(s: seq<Vec>, n: nat)
    requires n <= |s|
    ensures Size(s[n..]) <= Size(s)
  {
    assert s == s[..n] + s[n..];
    SizeAppend(s[..n], s[n..]);
  }

  /** The last group is the tail of all vectors. */
  lemma LastIsTail(lim: Limits, g: seq<Group>, vs: seq<Vec>)
    requires LimitsOk(lim) && IsGrouping(lim, g, vs) && g != []
    ensures |Last(g)| <= |vs| && Last(g) == vs[|vs| - |Last(g)|..]
  {
  }

  /** Groups of more than one vector keep clear of high pages, if that is asked for. */
  ghost predicate Apart(lim: Limits, g: seq<Group>, low: bool) {
    low ==> forall i | 0 <= i < |g| && |g[i]| > 1 :: AllLow(lim, g[i])
  }

  ghost predicate AllLow(lim: Limits, s: Group) { forall j | 0 <= j < |s| :: !High(lim, s[j]) }

  /** If a legal last group could take v, so can a shorter one that ends at the same vector. */
  lemma ShorterJoins(lim: Limits, s: Group, t: Group, v: Vec, low: bool)
    requires LimitsOk(lim) && IsSegment(lim, s + [v]) && s != [] && t != [] && (low ==> AllLow(lim, s + [v]))
    requires |t| <= |s| && t == s[|s| - |t|..]
    ensures Joins(lim, t, v, low)
  {
    SizeSnoc(s, v);
    SizeSuffix(s, |s| - |t|);
    assert Adjacent(lim, (s + [v])[|s| - 1], (s + [v])[|s|]);
    if low {
      assert !High(lim, (s + [v])[|s| - |t|]) && !High(lim, (s + [v])[|s|]);
    }
  }

  /** g has fewer groups than h, or as many and a last group that is no longer. */
  predicate NoWorse(g: seq<Group>, h: seq<Group>) {
    |g| < |h| || (|g| == |h| && (g == [] || |Last(g)| <= |Last(h)|))
  }

  lemma PlaceSizes(lim: Limits, g: seq<Group>, v: Vec, low: bool)
    requires LimitsOk(lim)
    ensures var p := Place(lim, g, v, low);
            if g != [] && Last(g) != [] && Joins(lim, Last(g), v, low)
            then |p| == |g| && |Last(p)| == |Last(g)| + 1
            else |p| == |g| + 1 && |Last(p)| == 1
  {
    hide Joins;
  }

  lemma ShortenSizes(h: seq<Group>)
    requires h != [] && Last(h) != []
    ensures if |Last(h)| == 1 then |Shorten(h)| == |h| - 1
            else |Shorten(h)| == |h| && Last(Shorten(h)) == Front(Last(h)) && |Last(Shorten(h))| == |Last(h)| - 1
  {
  }

  lemma ShortenApart(lim: Limits, h: seq<Group>, low: bool)
    requires h != [] && Last(h) != [] && Apart(lim, h, low)
    ensures Apart(lim, Shorten(h), low)
  {
    if low {
      var t := Shorten(h);
      forall i | 0 <= i < |t| && |t[i]| > 1
        ensures AllLow(lim, t[i])
      {
        assert AllLow(lim, h[i]);
      }
    }
  }

  lemma LastIsSegment(lim: Limits, g: seq<Group>, vs: seq<Vec>)
    requires LimitsOk(lim) && IsGrouping(lim, g, vs) && g != []
    ensures IsSegment(lim, Last(g)) && Last(g) != []
  {
    hide Flatten;
    assert IsSegment(lim, g[|g| - 1]);
  }

  /** Where a legal grouping has the last vector in a group of more than one, the greedy one joins it too. */
  lemma MustJoin(lim: Limits, g: seq<Group>, h: seq<Group>, vs: seq<Vec>, low: bool)
    requires LimitsOk(lim) && vs != [] && IsGrouping(lim, g, Front(vs)) && IsGrouping(lim, h, vs)
    requires h != [] && |Last(h)| > 1 && NoWorse(g, Shorten(h)) && |g| == |h| && Apart(lim, h, low)
    ensures Last(g) != [] && Joins(lim, Last(g), Last(vs), low)
  {
    hide IsGrouping, IsSegment, Joins, Shorten, AllLow;
    ShortenGrouping(lim, h, vs);
    ShortenSizes(h);
    LastIsTail(lim, g, Front(vs));
    LastIsTail(lim, Shorten(h), Front(vs));
    LastIsSegment(lim, g, Front(vs));
    LastIsSegment(lim, h, vs);
    assert Last(h) == Front(Last(h)) + [Last(vs)];
    assert low ==> AllLow(lim, h[|h| - 1]);
    ShorterJoins(lim, Front(Last(h)), Last(g), Last(vs), low);
  }

  lemma PlaceNoWorse(lim: Limits, g: seq<Group>, h: seq<Group>, vs: seq<Vec>, low: bool)
    requires LimitsOk(lim) && vs != [] && IsGrouping(lim, g, Front(vs)) && IsGrouping(lim, h, vs)
    requires h != [] && Last(h) != [] && NoWorse(g, Shorten(h)) && Apart(lim, h, low)
    ensures NoWorse(Place(lim, g, Last(vs), low), h)
  {
    hide IsGrouping, Joins, Place, Shorten, Apart;
    PlaceSizes(lim, g, Last(vs), low);
    ShortenSizes(h);
    if |Last(h)| > 1 && |g| == |h| {
      MustJoin(lim, g, h, vs, low);
    }
  }

  /** Greedy grouping is as good as any legal grouping, with or without high pages kept apart. */
  lemma {:induction false} GreedyBest(lim: Limits, vs: seq<Vec>, h: seq<Group>, low: bool)
    requires LimitsOk(lim) && IsGrouping(lim, h, vs) && Apart(lim, h, low)
    ensures NoWorse(Greedy(lim, vs, low), h)
    decreases |vs|
  {
    if vs == [] {
    } else {
      hide IsGrouping, Place, NoWorse, Apart;
      ShortenGrouping(lim, h, vs);
      ShortenApart(lim, h, low);
      GreedyBest(lim, Front(vs), Shorten(h), low);
      GreedyGrouping(lim, Front(vs), low);
      PlaceNoWorse(lim, Greedy(lim, Front(vs), low), h, vs, low);
    }
  }

  // ---------------------------------------------------------------------------------------
  // The same in terms of addresses

  /** The address of the first byte. */
  function Start(v: Vec): nat { v.page * 4096 + v.offset }

  /** What hardware takes as one segment, in addresses: one vector of any size; or, on a queue that clusters, vectors
      whose bytes follow each other in memory, no more than the size limit, from one window; and, where high pages may
      be bounced, none of them beyond the bounce limit. */
  ghost predicate OneSegment(lim: Limits, s: Group, low: bool)
    requires LimitsOk(lim)
  {
    && s != []
    && (|s| == 1
        || (&& lim.cluster && Size(s) <= lim.maxSegmentSize
            && (forall i, j | 0 <= i < j < |s| && j == i + 1 :: Start(s[i]) + s[i].len == Start(s[j]))
            && Start(s[0]) / lim.window == (Start(s[|s| - 1]) + s[|s| - 1].len - 1) / lim.window
            && (low ==> forall i | 0 <= i < |s| :: s[i].page <= lim.bouncePfn)))
  }

  lemma DivLe(a: int, b: int, w: nat)
    requires w > 0 && 0 <= a <= b
    ensures a / w <= b / w
  {
    if a / w > b / w {
      MulLe(b / w + 1, a / w, w);
    }
  }

  lemma MulLe(x: int, y: int, w: nat)
    requires x <= y
    ensures x * w <= y * w
  {
  }

  lemma Squeeze(a: int, b: int, c: int, d: int, w: nat)
    requires w > 0 && 0 <= a <= b <= c <= d && a / w == d / w
    ensures b / w == c / w
  {
    DivLe(a, b, w);
    DivLe(b, c, w);
    DivLe(c, d, w);
  }

  /** Neighbours, two by two in one window, are all in one window. */
  lemma {:induction false} OneWindow(lim: Limits, s: Group)
    requires LimitsOk(lim) && IsSegment(lim, s) && Positive(s) && |s| > 1
    ensures Start(s[0]) <= Start(Last(s))
    ensures Start(s[0]) / lim.window == (Start(Last(s)) + Last(s).len - 1) / lim.window
    decreases |s|
  {
    var n := |s|;
    assert Adjacent(lim, s[n - 2], s[n - 1]);
    if n > 2 {
      var f := Front(s);
      SizeSnoc(f, Last(s));
      assert s == f + [Last(s)];
      assert forall i, j | 0 <= i < j < |f| && j == i + 1 :: Adjacent(lim, s[i], s[j]);
      OneWindow(lim, f);
      DivLe(Start(s[n - 2]), Start(s[n - 2]) + s[n - 2].len - 1, lim.window);
      DivLe(Start(s[0]), Start(s[n - 2]), lim.window);
    }
  }

  /** From one window as a whole to neighbours two by two. */
  lemma {:induction false} StartsRise(s: Group, i: nat)
    requires i < |s| && Positive(s)
    requires forall i, j | 0 <= i < j < |s| && j == i + 1 :: Start(s[i]) + s[i].len == Start(s[j])
    ensures Start(s[0]) <= Start(s[i])
    ensures Start(s[i]) + s[i].len <= Start(s[|s| - 1]) + s[|s| - 1].len
    decreases |s|
  {
    hide Start;
    if i < |s| - 1 {
      StartsRise(Front(s), i);
      assert Start(s[|s| - 2]) + s[|s| - 2].len == Start(s[|s| - 1]);
    } else if i > 0 {
      StartsRise(Front(s), i - 1);
      assert Start(s[i - 1]) + s[i - 1].len == Start(s[i]);
    }
  }

  lemma PairInWindow(lim: Limits, s: Group, i: nat)
    requires LimitsOk(lim) && OneSegment(lim, s, false) && Positive(s) && i + 1 < |s|
    ensures Adjacent(lim, s[i], s[i + 1])
  {
    hide Start;
    StartsRise(s, i);
    StartsRise(s, i + 1);
    PhysIsStart(s[i]);
    PhysIsStart(s[i + 1]);
    assert Start(s[i]) + s[i].len == Start(s[i + 1]);
    Squeeze(Start(s[0]), Start(s[i]), Start(s[i + 1]) + s[i + 1].len - 1, Start(s[|s| - 1]) + s[|s| - 1].len - 1,
            lim.window);
  }

  lemma PhysIsStart(v: Vec)
    ensures Phys(v) == Start(v)
  {
  }

  /** What the loops go by, neighbour by neighbour, is what hardware asks for. */
  lemma SegmentIff(lim: Limits, s: Group, low: bool)
    requires LimitsOk(lim) && Positive(s)
    ensures IsSegment(lim, s) && (low && |s| > 1 ==> AllLow(lim, s)) <==> OneSegment(lim, s, low)
  {
    hide Start, Phys;
    if IsSegment(lim, s) && |s| > 1 {
      OneWindow(lim, s);
      forall i, j | 0 <= i < j < |s| && j == i + 1
        ensures Start(s[i]) + s[i].len == Start(s[j])
      {
        assert Adjacent(lim, s[i], s[j]);
        PhysIsStart(s[i]);
        PhysIsStart(s[j]);
      }
    }
    if OneSegment(lim, s, low) && |s| > 1 {
      forall i, j | 0 <= i < j < |s| && j == i + 1
        ensures Adjacent(lim, s[i], s[j])
      {
        PairInWindow(lim, s, i);
      }
    }
  }

  /** A way to cut the vectors into segments. */
  ghost predicate LegalCut(lim: Limits, g: seq<Group>, vs: seq<Vec>, low: bool)
    requires LimitsOk(lim)
  {
    Flatten(g) == vs && forall i | 0 <= i < |g| :: OneSegment(lim, g[i], low)
  }

  lemma {:induction false} PositiveGroups(g: seq<Group>, i: nat)
    requires i < |g| && Positive(Flatten(g))
    ensures Positive(g[i])
    decreases |g|
  {
    var f := Flatten(Front(g));
    assert forall k | 0 <= k < |f| :: f[k] == Flatten(g)[k];
    assert forall k | 0 <= k < |Last(g)| :: Last(g)[k] == Flatten(g)[|f| + k];
    if i < |g| - 1 {
      PositiveGroups(Front(g), i);
    }
  }

  lemma CutIff(lim: Limits, g: seq<Group>, vs: seq<Vec>, low: bool)
    requires LimitsOk(lim) && Positive(vs)
    ensures IsGrouping(lim, g, vs) && Apart(lim, g, low) <==> LegalCut(lim, g, vs, low)
  {
    hide IsSegment, OneSegment, AllLow;
    if Flatten(g) == vs {
      forall i | 0 <= i < |g|
        ensures IsSegment(lim, g[i]) && (low && |g[i]| > 1 ==> AllLow(lim, g[i])) <==> OneSegment(lim, g[i], low)
      {
        PositiveGroups(g, i);
        SegmentIff(lim, g[i], low);
      }
    }
  }

  lemma {:induction false} GreedyApart(lim: Limits, vs: seq<Vec>, low: bool)
    requires LimitsOk(lim)
    ensures Apart(lim, Greedy(lim, vs, low), low)
    decreases |vs|
  {
    if vs != [] && low {
      hide Greedy, Size, Adjacent;
      GreedyApart(lim, Front(vs), low);
      GreedyIs(lim, vs, low);
      PlaceApart(lim, Greedy(lim, Front(vs), low), Last(vs));
    }
  }

  lemma GreedyIs(lim: Limits, vs: seq<Vec>, low: bool)
    requires LimitsOk(lim) && vs != []
    ensures Greedy(lim, vs, low) == Place(lim, Greedy(lim, Front(vs), low), Last(vs), low)
  {
  }

  lemma PlaceApart(lim: Limits, g: seq<Group>, v: Vec)
    requires LimitsOk(lim) && Apart(lim, g, true)
    ensures Apart(lim, Place(lim, g, v, true), true)
  {
    var p := Place(lim, g, v, true);
    forall i | 0 <= i < |p| && |p[i]| > 1
      ensures AllLow(lim, p[i])
    {
      if i < |g| && |g[i]| > 1 {
        assert AllLow(lim, g[i]);
      }
    }
  }

  /** No group could have taken the vector after it: each is as long as it may be. */
  ghost predicate NoLonger(lim: Limits, g: seq<Group>, low: bool)
    requires LimitsOk(lim)
  {
    forall i | 0 < i < |g| :: g[i] != [] && !OneSegment(lim, g[i - 1] + [g[i][0]], low)
  }

  ghost predicate Unjoined(lim: Limits, g: seq<Group>, low: bool)
    requires LimitsOk(lim)
  {
    (forall i | 0 <= i < |g| :: g[i] != [])
    && forall i, j | 0 <= i < j < |g| && j == i + 1 :: g[i] != [] && g[j] != [] && !Joins(lim, g[i], g[j][0], low)
  }

  lemma PlaceUnjoined(lim: Limits, g: seq<Group>, v: Vec, low: bool)
    requires LimitsOk(lim) && Unjoined(lim, g, low)
    ensures Unjoined(lim, Place(lim, g, v, low), low)
  {
    hide Joins;
  }

  lemma {:induction false} GreedyUnjoined(lim: Limits, vs: seq<Vec>, low: bool)
    requires LimitsOk(lim)
    ensures Unjoined(lim, Greedy(lim, vs, low), low)
    decreases |vs|
  {
    if vs != [] {
      hide Greedy, Unjoined;
      GreedyUnjoined(lim, Front(vs), low);
      GreedyIs(lim, vs, low);
      PlaceUnjoined(lim, Greedy(lim, Front(vs), low), Last(vs), low);
    }
  }

  lemma CouldJoin(lim: Limits, s: Group, v: Vec, low: bool)
    requires LimitsOk(lim) && s != [] && Positive(s) && v.len > 0 && OneSegment(lim, s + [v], low)
    ensures Joins(lim, s, v, low)
  {
    hide OneSegment;
    assert Positive(s + [v]);
    SegmentIff(lim, s + [v], low);
    SizeSnoc(s, v);
    assert Adjacent(lim, (s + [v])[|s| - 1], (s + [v])[|s|]);
    assert low ==> !High(lim, (s + [v])[0]) && !High(lim, (s + [v])[|s|]);
  }

  lemma GreedyNoLonger(lim: Limits, vs: seq<Vec>, low: bool)
    requires LimitsOk(lim) && Positive(vs)
    ensures NoLonger(lim, Greedy(lim, vs, low), low)
  {
    hide OneSegment, Joins, Greedy;
    var g := Greedy(lim, vs, low);
    GreedyUnjoined(lim, vs, low);
    GreedyGrouping(lim, vs, low);
    forall i | 0 < i < |g|
      ensures g[i] != [] && !OneSegment(lim, g[i - 1] + [g[i][0]], low)
    {
      PositiveGroups(g, i - 1);
      PositiveGroups(g, i);
      assert !Joins(lim, g[i - 1], g[i][0], low);
      if OneSegment(lim, g[i - 1] + [g[i][0]], low) {
        CouldJoin(lim, g[i - 1], g[i][0], low);
      }
    }
  }

  /** The cut that the loops make, with every segment as long as it may be, and no legal cut of fewer segments. */
  ghost predicate BestCut(lim: Limits, g: seq<Group>, vs: seq<Vec>, low: bool)
    requires LimitsOk(lim)
  {
    LegalCut(lim, g, vs, low) && NoLonger(lim, g, low) && forall h | LegalCut(lim, h, vs, low) :: |g| <= |h|
  }

  lemma GreedyIsBestCut(lim: Limits, vs: seq<Vec>, low: bool)
    requires LimitsOk(lim) && Positive(vs)
    ensures BestCut(lim, Greedy(lim, vs, low), vs, low)
  {
    hide LegalCut, NoLonger, IsGrouping, Apart, Greedy;
    var g := Greedy(lim, vs, low);
    GreedyGrouping(lim, vs, low);
    GreedyApart(lim, vs, low);
    CutIff(lim, g, vs, low);
    GreedyNoLonger(lim, vs, low);
    forall h | LegalCut(lim, h, vs, low)
      ensures |g| <= |h|
    {
      CutIff(lim, h, vs, low);
      GreedyBest(lim, vs, h, low);
    }
  }

  // ---------------------------------------------------------------------------------------
  // Mapping to a scatter-gather list

  /** A scatter-gather entry: a physical address and a length. */
  datatype Sg = Sg(addr: nat, len: nat)

  function EntryOf(s: Group): Sg {
    Sg(if s == [] then 0 else Phys(s[0]), Size(s))
  }

  function EntriesOf(g: seq<Group>): (sg: seq<Sg>)
    ensures |sg| == |g|
  {
    if g == [] then [] else EntriesOf(Front(g)) + [EntryOf(Last(g))]
  }

  /** The memory bytes a scatter-gather list names, in order. */
  function SgBytes(sg: seq<Sg>): seq<nat> {
    if sg == [] then [] else SgBytes(Front(sg)) + Memory(Last(sg).addr, Last(sg).len)
  }

  lemma MemoryAppend(addr: nat, m: nat, n: nat)
    ensures Memory(addr, m) + Memory(addr + m, n) == Memory(addr, m + n)
  {
  }

  /** Neighbours are one run of memory. */
  lemma {:induction false} RunBytes(s: Group)
    requires s != [] && forall i, j :: 0 <= i < j < |s| && j == i + 1 ==> Phys(s[i]) + s[i].len == Phys(s[j])
    ensures Bytes(s) == Memory(Phys(s[0]), Size(s))
    ensures Phys(s[0]) + Size(s) == Phys(Last(s)) + Last(s).len
    decreases |s|
  {
    hide Phys, Memory;
    if |s| == 1 {
      assert s[..0] == [];
      assert Bytes(s) == [] + Memory(Phys(s[0]), s[0].len);
    } else {
      RunBytes(Front(s));
      MemoryAppend(Phys(s[0]), Size(Front(s)), Last(s).len);
      assert Phys(s[|s| - 2]) + s[|s| - 2].len == Phys(s[|s| - 1]);
    }
  }

  lemma SegmentBytes(lim: Limits, s: Group)
    requires LimitsOk(lim) && IsSegment(lim, s)
    ensures Bytes(s) == Memory(Phys(s[0]), Size(s))
  {
    forall i, j | 0 <= i < j < |s| && j == i + 1
      ensures Phys(s[i]) + s[i].len == Phys(s[j])
    {
      assert Adjacent(lim, s[i], s[j]);
    }
    RunBytes(s);
  }

  /** A legal grouping names the same bytes in the same order. */
  lemma {:induction false} EntriesBytes(lim: Limits, g: seq<Group>, vs: seq<Vec>)
    requires LimitsOk(lim) && IsGrouping(lim, g, vs)
    ensures SgBytes(EntriesOf(g)) == Bytes(vs)
    decreases |g|
  {
    hide IsSegment, Phys, Memory, Bytes;
    if g == [] {
      assert Bytes([]) == [] by { NoBytes(); }
    } else {
      EntriesBytes(lim, Front(g), Flatten(Front(g)));
      SegmentNonempty(lim, Last(g));
      SegmentBytes(lim, Last(g));
      BytesAppend(Flatten(Front(g)), Last(g));
      assert Front(EntriesOf(Front(g)) + [EntryOf(Last(g))]) == EntriesOf(Front(g));
    }
  }

  lemma NoBytes()
    ensures Bytes([]) == []
  {
  }

  lemma SegmentNonempty(lim: Limits, s: Group)
    requires LimitsOk(lim) && IsSegment(lim, s)
    ensures s != []
  {
  }

  lemma PlaceEntries(lim: Limits, g: seq<Group>, v: Vec)
    requires LimitsOk(lim)
    ensures EntriesOf(Place(lim, g, v, false)) ==
            if g != [] && Last(g) != [] && Joins(lim, Last(g), v, false)
            then Front(EntriesOf(g)) + [Sg(Last(EntriesOf(g)).addr, Last(EntriesOf(g)).len + v.len)]
            else EntriesOf(g) + [Sg(Phys(v), v.len)]
  {
    hide Joins, Size, EntriesOf, Phys;
    SizeOne(v);
    if g != [] && Last(g) != [] && Joins(lim, Last(g), v, false) {
      SizeSnoc(Last(g), v);
      EntriesSnoc(Front(g), Last(g));
      assert g == Front(g) + [Last(g)];
      EntriesSnoc(Front(g), Last(g) + [v]);
    } else {
      EntriesSnoc(g, [v]);
    }
  }

  lemma EntriesSnoc(g: seq<Group>, s: Group)
    ensures EntriesOf(g + [s]) == EntriesOf(g) + [EntryOf(s)]
  {
    assert Front(g + [s]) == g;
  }

  lemma GreedyLast(lim: Limits, vs: seq<Vec>, low: bool)
    requires LimitsOk(lim)
    ensures var g := Greedy(lim, vs, low);
            if vs == [] then g == []
            else g != [] && Last(g) != [] && Last(Last(g)) == Last(vs) && Last(EntriesOf(g)).len == Size(Last(g))
  {
  }

  lemma GreedySnoc(lim: Limits, vs: seq<Vec>, v: Vec, low: bool)
    requires LimitsOk(lim)
    ensures Greedy(lim, vs + [v], low) == Place(lim, Greedy(lim, vs, low), v, low)
  {
    assert Front(vs + [v]) == vs;
  }

  /** The vectors of the bios before bio i and of the first j vectors of it. */
  function Walked(bios: seq<Bio>, i: nat, j: nat): seq<Vec>
    requires i < |bios| && j <= |bios[i].vecs|
  {
    Vecs(bios[..i]) + bios[i].vecs[..j]
  }

  lemma WalkedNone(bios: seq<Bio>, i: nat)
    requires i < |bios|
    ensures Walked(bios, i, 0) == Vecs(bios[..i])
  {
  }

  lemma WalkedStep(bios: seq<Bio>, i: nat, j: nat)
    requires i < |bios| && j < |bios[i].vecs|
    ensures Walked(bios, i, j + 1) == Walked(bios, i, j) + [bios[i].vecs[j]]
  {
    assert bios[i].vecs[..j + 1] == bios[i].vecs[..j] + [bios[i].vecs[j]];
  }

  lemma WalkedBio(bios: seq<Bio>, i: nat)
    requires i < |bios|
    ensures Vecs(bios[..i + 1]) == Walked(bios, i, |bios[i].vecs|)
  {
    assert bios[..i + 1][..i] == bios[..i];
    assert bios[i].vecs[..|bios[i].vecs|] == bios[i].vecs;
  }

  /** The list has one entry for each segment of a cut: where its first byte is, and how many bytes it has. */
  ghost predicate ListOf(sg: seq<Sg>, g: seq<Group>) {
    |sg| == |g| && forall i | 0 <= i < |g| :: g[i] != [] && sg[i] == Sg(Start(g[i][0]), Size(g[i]))
  }

  lemma {:induction false} EntriesAre(g: seq<Group>)
    requires forall i | 0 <= i < |g| :: g[i] != []
    ensures ListOf(EntriesOf(g), g)
    decreases |g|
  {
    hide Start, Phys, Size;
    if g != [] {
      EntriesAre(Front(g));
      PhysIsStart(Last(g)[0]);
    }
  }

  /** An entry that is more than one vector lies in one window. */
  lemma EntriesInWindow(lim: Limits, g: seq<Group>, vs: seq<Vec>, sg: seq<Sg>, i: nat)
    requires LimitsOk(lim) && LegalCut(lim, g, vs, false) && Positive(vs) && ListOf(sg, g) && i < |sg| && |g[i]| > 1
    ensures sg[i].len > 0 && sg[i].addr / lim.window == (sg[i].addr + sg[i].len - 1) / lim.window
  {
    hide Start, Size, Phys;
    assert OneSegment(lim, g[i], false);
    PositiveGroups(g, i);
    var s := g[i];
    forall k, j | 0 <= k < j < |s| && j == k + 1
      ensures Phys(s[k]) + s[k].len == Phys(s[j])
    {
      PhysIsStart(s[k]);
      PhysIsStart(s[j]);
      assert Start(s[k]) + s[k].len == Start(s[j]);
    }
    RunBytes(s);
    PhysIsStart(s[0]);
    PhysIsStart(Last(s));
    StartsRise(s, |s| - 1);
  }

  /** What a mapping is to be: the entries of a best cut, each of more than one vector within one window. */
  ghost predicate WellMapped(lim: Limits, vs: seq<Vec>, sg: seq<Sg>)
    requires LimitsOk(lim)
  {
    exists g :: BestCut(lim, g, vs, false) && ListOf(sg, g)
                && forall i | 0 <= i < |g| && |g[i]| > 1 ::
                     sg[i].len > 0 && sg[i].addr / lim.window == (sg[i].addr + sg[i].len - 1) / lim.window
  }

  lemma GreedyMapsWell(lim: Limits, vs: seq<Vec>)
    requires LimitsOk(lim) && Positive(vs)
    ensures WellMapped(lim, vs, EntriesOf(Greedy(lim, vs, false)))
  {
    hide ListOf, NoLonger, Greedy, EntriesOf;
    var g := Greedy(lim, vs, false);
    GreedyIsBestCut(lim, vs, false);
    SomeInEach(lim, g, vs, false);
    EntriesAre(g);
    var sg := EntriesOf(g);
    ListLength(sg, g);
    forall i | 0 <= i < |g| && |g[i]| > 1
      ensures sg[i].len > 0 && sg[i].addr / lim.window == (sg[i].addr + sg[i].len - 1) / lim.window
    {
      EntriesInWindow(lim, g, vs, sg, i);
    }
  }

  lemma ListLength(sg: seq<Sg>, g: seq<Group>)
    requires ListOf(sg, g)
    ensures |sg| == |g|
  {
  }

  lemma SomeInEach(lim: Limits, g: seq<Group>, vs: seq<Vec>, low: bool)
    requires LimitsOk(lim) && LegalCut(lim, g, vs, low)
    ensures forall i | 0 <= i < |g| :: g[i] != []
  {
    forall i | 0 <= i < |g|
      ensures g[i] != []
    {
      assert OneSegment(lim, g[i], low);
    }
  }

  /** blk_rq_map_sg on the bios of a request, without padding or drain buffer. The list names the
      same bytes as the bios in the same order, and no legal grouping is shorter. */
  method MapSg(lim: Limits, bios: seq<Bio>) returns (sg: seq<Sg>)
    requires LimitsOk(lim)
    ensures sg == EntriesOf(Greedy(lim, Vecs(bios), false))
    ensures SgBytes(sg) == Bytes(Vecs(bios))
    ensures Positive(Vecs(bios)) ==> WellMapped(lim, Vecs(bios), sg)
    ensures forall h | IsGrouping(lim, h, Vecs(bios)) :: |sg| <= |h|
  {
    hide Place, Joins, IsGrouping, EntriesOf, Vecs, Walked, WellMapped;
    sg := [];
    var prev: seq<Vec> := [];
    NothingMapped(lim);
    for i := 0 to |bios|
      invariant Mapped(lim, sg, prev, Vecs(bios[..i]))
    {
      WalkedNone(bios, i);
      for j := 0 to |bios[i].vecs|
        invariant Mapped(lim, sg, prev, Walked(bios, i, j))
      {
        var bvec := bios[i].vecs[j];
        WalkedStep(bios, i, j);
        MappedStep(lim, sg, prev, Walked(bios, i, j), bvec);
        if prev != [] && lim.cluster
           && Last(sg).len + bvec.len <= lim.maxSegmentSize
           && Adjacent(lim, prev[0], bvec)
        {
          sg := Front(sg) + [Sg(Last(sg).addr, Last(sg).len + bvec.len)];
        } else {
          sg := sg + [Sg(Phys(bvec), bvec.len)];
        }
        prev := [bvec];
      }
      WalkedBio(bios, i);
    }
    assert bios[..0] == [] && bios[..|bios|] == bios;
    var vs := Vecs(bios);
    GreedyGrouping(lim, vs, false);
    EntriesBytes(lim, Greedy(lim, vs, false), vs);
    forall h | IsGrouping(lim, h, vs)
      ensures |sg| <= |h|
    {
      GreedyBest(lim, vs, h, false);
    }
    if Positive(vs) {
      GreedyMapsWell(lim, vs);
    }
  }

  /** The state of the mapping loop: prev is the last vector, if there was one. */
  predicate Mapped(lim: Limits, sg: seq<Sg>, prev: seq<Vec>, vs: seq<Vec>)
    requires LimitsOk(lim)
  {
    && sg == EntriesOf(Greedy(lim, vs, false))
    && prev == (if vs == [] then [] else [Last(vs)])
    && (vs != [] ==> sg != [])
  }

  lemma NothingMapped(lim: Limits)
    requires LimitsOk(lim)
    ensures Mapped(lim, [], [], Vecs([]))
  {
  }

  lemma MappedStep(lim: Limits, sg: seq<Sg>, prev: seq<Vec>, vs: seq<Vec>, v: Vec)
    requires LimitsOk(lim) && Mapped(lim, sg, prev, vs)
    ensures Mapped(lim, if prev != [] && lim.cluster && Last(sg).len + v.len <= lim.maxSegmentSize
                           && Adjacent(lim, prev[0], v)
                        then Front(sg) + [Sg(Last(sg).addr, Last(sg).len + v.len)]
                        else sg + [Sg(Phys(v), v.len)],
                   [v], vs + [v])
  {
    GreedySnoc(lim, vs, v, false);
    PlaceEntries(lim, Greedy(lim, vs, false), v);
    GreedyLast(lim, vs, false);
  }

  // ---------------------------------------------------------------------------------------
  // Counting segments

  function Max(a: nat, b: nat): nat {
    if a < b then b else a
  }

  function FirstSize(g: seq<Group>): nat {
    if g == [] then 0 else Size(g[0])
  }

  function LastSize(g: seq<Group>): nat {
    if g == [] then 0 else Size(Last(g))
  }

  /** The bios after counting: the first remembers the size of the first segment, the last that of the last. */
  function Resized(lim: Limits, bios: seq<Bio>): seq<Bio>
    requires LimitsOk(lim) && bios != []
  {
    var g := Greedy(lim, Vecs(bios), true);
    var bios1 := bios[0 := bios[0].(frontSize := Max(bios[0].frontSize, FirstSize(g)))];
    bios1[|bios| - 1 := Last(bios1).(backSize := Max(Last(bios).backSize, LastSize(g)))]
  }

  /** The state of the counting loop. */
  predicate Counted(lim: Limits, nr: nat, segSize: nat, prev: seq<Vec>, highPrev: bool, front0: nat, front: nat,
                    vs: seq<Vec>)
    requires LimitsOk(lim)
  {
    var g := Greedy(lim, vs, true);
    && nr == |g|
    && segSize == LastSize(g)
    && prev == (if vs == [] then [] else [Last(vs)])
    && (vs == [] ==> highPrev)
    && (vs != [] ==> g != [] && Last(g) != [] && highPrev == High(lim, Last(g)[0]))
    && front == (if |g| <= 1 then front0 else Max(front0, FirstSize(g)))
  }

  lemma CountedStep(lim: Limits, nr: nat, segSize: nat, prev: seq<Vec>, highPrev: bool, front0: nat, front: nat,
                    vs: seq<Vec>, v: Vec)
    requires LimitsOk(lim) && Counted(lim, nr, segSize, prev, highPrev, front0, front, vs)
    ensures if !High(lim, v) && !highPrev && lim.cluster && segSize + v.len <= lim.maxSegmentSize
               && prev != [] && Adjacent(lim, prev[0], v)
            then Counted(lim, nr, segSize + v.len, [v], highPrev, front0, front, vs + [v])
            else Counted(lim, nr + 1, v.len, [v], High(lim, v), front0,
                         if nr == 1 then Max(front, segSize) else front, vs + [v])
  {
    hide Adjacent, High, Greedy, Size, EntriesOf, LimitsOk;
    GreedySnoc(lim, vs, v, true);
    GreedyLast(lim, vs, true);
    var g := Greedy(lim, vs, true);
    SizeOne(v);
    if g != [] { SizeSnoc(Last(g), v); }
  }

  /** What a count is to be: the number of segments of a best cut that keeps high pages apart; the first bio knows of a
      front at least as large as its first segment, the last of a back at least as large as its last, and nothing else
      of them changes. */
  ghost predicate WellCounted(lim: Limits, bios: seq<Bio>, nr: nat, bios': seq<Bio>)
    requires LimitsOk(lim)
  {
    exists g :: && BestCut(lim, g, Vecs(bios), true) && nr == |g| && |bios'| == |bios|
                && forall k | 0 <= k < |bios| :: bios'[k] == Remembered(bios[k], k == 0, k == |bios| - 1, g)
  }

  function Remembered(b: Bio, first: bool, last: bool, g: seq<Group>): Bio {
    var front, back := if g == [] then 0 else Size(g[0]), if g == [] then 0 else Size(g[|g| - 1]);
    b.(frontSize := if first && b.frontSize < front then front else b.frontSize,
       backSize := if last && b.backSize < back then back else b.backSize)
  }

  lemma GreedyCountsWell(lim: Limits, bios: seq<Bio>)
    requires LimitsOk(lim) && Positive(Vecs(bios))
    ensures WellCounted(lim, bios, |Greedy(lim, Vecs(bios), true)|, if bios == [] then [] else Resized(lim, bios))
  {
    hide BestCut, Greedy, Size, Vecs;
    var g := Greedy(lim, Vecs(bios), true);
    GreedyIsBestCut(lim, Vecs(bios), true);
    if bios != [] {
      var r := Resized(lim, bios);
      assert forall k | 0 <= k < |bios| :: r[k] == Remembered(bios[k], k == 0, k == |bios| - 1, g);
    }
  }

  lemma EmptyCount(lim: Limits)
    requires LimitsOk(lim)
    ensures |Greedy(lim, Vecs([]), true)| == 0
  {
  }

  /** __blk_recalc_rq_segments */
  method RecalcSegments(lim: Limits, bios: seq<Bio>) returns (nr: nat, bios': seq<Bio>)
    requires LimitsOk(lim)
    ensures nr == |Greedy(lim, Vecs(bios), true)|
    ensures if bios == [] then nr == 0 && bios' == [] else bios' == Resized(lim, bios)
    ensures Positive(Vecs(bios)) ==> WellCounted(lim, bios, nr, bios')
  {
    hide Greedy, Adjacent, High, Counted, Vecs, Walked, WellCounted;
    if Positive(Vecs(bios)) {
      GreedyCountsWell(lim, bios);
    }
    if bios == [] {
      EmptyCount(lim);
      return 0, [];
    }
    var segSize: nat, prev: seq<Vec>, highPrev := 0, [], true;
    var front: nat := bios[0].frontSize;
    nr := 0;
    NothingCounted(lim, front);
    for i := 0 to |bios|
      invariant Counted(lim, nr, segSize, prev, highPrev, bios[0].frontSize, front, Vecs(bios[..i]))
    {
      WalkedNone(bios, i);
      for j := 0 to |bios[i].vecs|
        invariant Counted(lim, nr, segSize, prev, highPrev, bios[0].frontSize, front, Walked(bios, i, j))
      {
        var bvec := bios[i].vecs[j];
        WalkedStep(bios, i, j);
        CountedStep(lim, nr, segSize, prev, highPrev, bios[0].frontSize, front, Walked(bios, i, j), bvec);
        var high := High(lim, bvec);
        if !high && !highPrev && lim.cluster && segSize + bvec.len <= lim.maxSegmentSize
           && prev != [] && Adjacent(lim, prev[0], bvec)
        {
          segSize := segSize + bvec.len;
        } else {
          if nr == 1 && segSize > front {
            front := segSize;
          }
          nr := nr + 1;
          segSize := bvec.len;
          highPrev := high;
        }
        prev := [bvec];
      }
      WalkedBio(bios, i);
    }
    assert bios[..|bios|] == bios;
    CountedAll(lim, nr, segSize, prev, highPrev, bios[0].frontSize, front, Vecs(bios));
    if nr == 1 && segSize > front {
      front := segSize;
    }
    bios' := bios[0 := bios[0].(frontSize := front)];
    if segSize > Last(bios').backSize {
      bios' := bios'[|bios| - 1 := Last(bios').(backSize := segSize)];
    }
  }

  lemma CountedAll(lim: Limits, nr: nat, segSize: nat, prev: seq<Vec>, highPrev: bool, front0: nat, front: nat,
                   vs: seq<Vec>)
    requires LimitsOk(lim) && Counted(lim, nr, segSize, prev, highPrev, front0, front, vs)
    ensures var g := Greedy(lim, vs, true);
            nr == |g| && segSize == LastSize(g)
            && Max(front0, FirstSize(g)) == if nr == 1 then Max(front, segSize) else front
  {
  }

  lemma NothingCounted(lim: Limits, front: nat)
    requires LimitsOk(lim)
    ensures Counted(lim, 0, 0, [], true, front, front, Vecs([]))
  {
  }
}
