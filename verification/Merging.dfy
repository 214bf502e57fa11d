/** What merging keeps: a request built by any series of merges is one gap-free run of sectors that
    moves exactly the bytes its bios asked for, and its running segment count is never less than what
    mapping it will use. */
module Merging {
  import opened Bios
  import opened Segments

  // ---------------------------------------------------------------------------------------
  // Which bytes go where

  function BioSize(b: Bio): nat {
    Size(b.vecs)
  }

  /** bio_sectors */
  function BioSectors(b: Bio): nat {
    BioSize(b) / SECTOR
  }

  /** One byte moved between a place on disk and a place in memory. */
  datatype Move = Move(disk: nat, mem: nat)

  /** The moves of a run of memory bytes that starts at the given sector. */
  function Moves(sector: nat, bytes: seq<nat>): (moves: seq<Move>)
    ensures |moves| == |bytes|
  {
    seq(|bytes|, i requires 0 <= i < |bytes| => Move(sector * SECTOR + i, bytes[i]))
  }

  /** What a chain of bios asks for, bio by bio. */
  function Asked(bios: seq<Bio>): seq<Move> {
    if bios == [] then [] else Asked(Front(bios)) + Moves(Last(bios).sector, Bytes(Last(bios).vecs))
  }

  /** A bio that carries data, in whole sectors. */
  predicate DataBio(b: Bio) {
    b.vecs != [] && Positive(b.vecs) && BioSize(b) % SECTOR == 0
  }

  predicate Follows(a: Bio, b: Bio) {
    b.sector == a.sector + BioSectors(a)
  }

  /** Each bio starts where the one before it ends. */
  ghost predicate Chained(bios: seq<Bio>) {
    && (forall i | 0 <= i < |bios| :: DataBio(bios[i]))
    && (forall i, j | 0 <= i < j < |bios| && j == i + 1 :: Follows(bios[i], bios[j]))
  }

  function TotalSize(bios: seq<Bio>): nat {
    Size(Vecs(bios))
  }

  lemma MovesAppend(sector: nat, a: seq<nat>, b: seq<nat>, next: nat)
    requires next * SECTOR == sector * SECTOR + |a|
    ensures Moves(sector, a + b) == Moves(sector, a) + Moves(next, b)
  {
  }

  /** A chain that starts at the request's sector asks for one contiguous run. */
  lemma {:induction false} ChainIsRun(bios: seq<Bio>)
    requires Chained(bios) && bios != []
    ensures Asked(bios) == Moves(bios[0].sector, Bytes(Vecs(bios)))
    ensures TotalSize(bios) % SECTOR == 0
    ensures Last(bios).sector + BioSectors(Last(bios)) == bios[0].sector + TotalSize(bios) / SECTOR
    decreases |bios|
  {
    hide Moves, Bytes, Size;
    var last := Last(bios);
    var front := Front(bios);
    if |bios| == 1 {
      assert front == [];
      assert bios == [last];
      VecsOne(last);
      assert Asked(bios) == [] + Moves(last.sector, Bytes(last.vecs));
    } else {
      ChainIsRun(front);
      assert Follows(bios[|bios| - 2], bios[|bios| - 1]);
      SizeAppend(Vecs(front), last.vecs);
      BytesAppend(Vecs(front), last.vecs);
      assert |Bytes(Vecs(front))| == TotalSize(front);
      MovesAppend(bios[0].sector, Bytes(Vecs(front)), Bytes(last.vecs), last.sector);
      assert Asked(bios) == Asked(front) + Moves(last.sector, Bytes(last.vecs));
      WholeSectors(TotalSize(front), BioSize(last));
    }
  }

  /** Where in memory each byte is: byte k of vector i, after the bytes of the vectors before it. */
  lemma {:induction false} BytesAt(vs: seq<Vec>, i: nat, k: nat)
    requires i < |vs| && k < vs[i].len
    ensures Size(vs[..i]) + k < |Bytes(vs)|
    ensures Bytes(vs)[Size(vs[..i]) + k] == vs[i].page * 4096 + vs[i].offset + k
    decreases |vs|
  {
    var front := vs[..|vs| - 1];
    if i < |vs| - 1 {
      BytesAt(front, i, k);
      assert front[..i] == vs[..i];
    }
  }

  lemma MovesAt(sector: nat, bytes: seq<nat>, j: nat)
    requires j < |bytes|
    ensures |Moves(sector, bytes)| == |bytes| && Moves(sector, bytes)[j] == Move(sector * 512 + j, bytes[j])
  {
  }

  lemma VecsEnd(bios: seq<Bio>)
    requires bios != []
    ensures Vecs(bios) == Vecs(Front(bios)) + Last(bios).vecs
  {
  }

  /** And where on disk it belongs: byte j of bio i. */
  lemma {:induction false} AskedAt(bios: seq<Bio>, i: nat, j: nat)
    requires i < |bios| && j < BioSize(bios[i])
    ensures |Asked(bios)| == TotalSize(bios) && TotalSize(bios[..i]) + j < TotalSize(bios)
    ensures Asked(bios)[TotalSize(bios[..i]) + j] == Move(bios[i].sector * 512 + j, Bytes(bios[i].vecs)[j])
    decreases |bios|
  {
    hide Bytes, Size, Moves, Vecs;
    var front, last := Front(bios), Last(bios);
    assert Vecs(bios) == Vecs(front) + last.vecs by { VecsEnd(bios); }
    AskedSize(bios);
    AskedSize(front);
    SizeAppend(Vecs(front), last.vecs);
    var a, b := Asked(front), Moves(last.sector, Bytes(last.vecs));
    assert Asked(bios) == a + b;
    if i < |bios| - 1 {
      AskedAt(front, i, j);
      assert front[..i] == bios[..i];
      assert (a + b)[TotalSize(front[..i]) + j] == a[TotalSize(front[..i]) + j];
    } else {
      assert bios[..i] == front;
      assert (a + b)[|a| + j] == b[j];
      MovesAt(last.sector, Bytes(last.vecs), j);
    }
  }

  lemma {:induction false} AskedSize(bios: seq<Bio>)
    ensures |Asked(bios)| == TotalSize(bios)
    decreases |bios|
  {
    if bios != [] {
      AskedSize(Front(bios));
      SizeAppend(Vecs(Front(bios)), Last(bios).vecs);
    }
  }

  /** Sizes of whole sectors add up in sectors. */
  lemma WholeSectors(a: nat, b: nat)
    requires a % SECTOR == 0 && b % SECTOR == 0
    ensures (a + b) % SECTOR == 0 && (a + b) / SECTOR == a / SECTOR + b / SECTOR && a / SECTOR * SECTOR == a
  {
  }

  lemma {:induction false} AskedAppend(a: seq<Bio>, b: seq<Bio>)
    ensures Asked(a + b) == Asked(a) + Asked(b)
    decreases |b|
  {
    if b == [] {
      assert a + b == a;
    } else {
      hide Moves, Bytes;
      assert Front(a + b) == a + Front(b) && Last(a + b) == Last(b);
      AskedAppend(a, Front(b));
      var last := Moves(Last(b).sector, Bytes(Last(b).vecs));
      assert Asked(a + b) == Asked(a + Front(b)) + last;
      assert Asked(a) + Asked(Front(b)) + last == Asked(a) + (Asked(Front(b)) + last);
    }
  }

  lemma ChainedAppend(a: seq<Bio>, b: seq<Bio>)
    requires Chained(a) && Chained(b)
    requires a != [] && b != [] ==> Follows(Last(a), b[0])
    ensures Chained(a + b)
  {
    hide Follows, DataBio;
    var c := a + b;
    forall i, j | 0 <= i < j < |c| && j == i + 1
      ensures Follows(c[i], c[j])
    {
      if j < |a| {
        assert Follows(a[i], a[j]);
      } else if i >= |a| {
        assert Follows(b[i - |a|], b[j - |a|]);
      }
    }
  }

  // ---------------------------------------------------------------------------------------
  // The running segment count

  /** The running count stands for a legal grouping g, and the cached sizes at both ends bound the
      groups there. */
  ghost predicate Tracks(lim: Limits, bios: seq<Bio>, nr: nat, g: seq<Group>)
    requires LimitsOk(lim)
  {
    && bios != [] && g != []
    && IsGrouping(lim, g, Vecs(bios)) && |g| == nr
    && Size(g[0]) <= bios[0].frontSize && Size(Last(g)) <= Last(bios).backSize
  }

  ghost predicate Tracked(lim: Limits, bios: seq<Bio>, nr: nat)
    requires LimitsOk(lim)
  {
    exists g :: Tracks(lim, bios, nr, g)
  }

  /** The running count is enough for the scatter-gather list. */
  lemma TrackedCoversMapping(lim: Limits, bios: seq<Bio>, nr: nat)
    requires LimitsOk(lim) && Tracked(lim, bios, nr)
    ensures |Greedy(lim, Vecs(bios), false)| <= nr
  {
    var g :| Tracks(lim, bios, nr, g);
    GreedyBest(lim, Vecs(bios), g, false);
  }

  lemma GreedySome(lim: Limits, vs: seq<Vec>, low: bool)
    requires LimitsOk(lim) && vs != []
    ensures Greedy(lim, vs, low) != []
  {
  }

  /** Counting afresh gives a tracked count. */
  lemma RecountTracked(lim: Limits, bios: seq<Bio>)
    requires LimitsOk(lim) && bios != [] && Vecs(bios) != []
    ensures Vecs(Resized(lim, bios)) == Vecs(bios)
    ensures Tracked(lim, Resized(lim, bios), |Greedy(lim, Vecs(bios), true)|)
  {
    var g := Greedy(lim, Vecs(bios), true);
    GreedyGrouping(lim, Vecs(bios), true);
    GreedySome(lim, Vecs(bios), true);
    ResizedVecs(lim, bios);
    assert Tracks(lim, Resized(lim, bios), |g|, g);
  }

  lemma {:induction false} SameVecs(a: seq<Bio>, b: seq<Bio>)
    requires |a| == |b| && forall i | 0 <= i < |a| :: a[i].vecs == b[i].vecs
    ensures Vecs(a) == Vecs(b)
    decreases |a|
  {
    if a != [] {
      SameVecs(Front(a), Front(b));
    }
  }

  lemma ResizedVecs(lim: Limits, bios: seq<Bio>)
    requires LimitsOk(lim) && bios != []
    ensures Vecs(Resized(lim, bios)) == Vecs(bios)
  {
    SameVecs(Resized(lim, bios), bios);
  }

  lemma {:induction false} FlattenAppend(g: seq<Group>, h: seq<Group>)
    ensures Flatten(g + h) == Flatten(g) + Flatten(h)
    decreases |h|
  {
    if h == [] {
      assert g + h == g;
    } else {
      assert Front(g + h) == g + Front(h) && Last(g + h) == Last(h);
      FlattenAppend(g, Front(h));
      assert Flatten(g + h) == Flatten(g + Front(h)) + Last(h);
      assert Flatten(g) + Flatten(Front(h)) + Last(h) == Flatten(g) + (Flatten(Front(h)) + Last(h));
    }
  }

  lemma GroupingAppend(lim: Limits, g: seq<Group>, vs: seq<Vec>, h: seq<Group>, ws: seq<Vec>)
    requires LimitsOk(lim) && IsGrouping(lim, g, vs) && IsGrouping(lim, h, ws)
    ensures IsGrouping(lim, g + h, vs + ws)
  {
    hide IsSegment;
    FlattenAppend(g, h);
  }

  /** Chains put one after the other: the counts add up. */
  lemma TrackedConcat(lim: Limits, a: seq<Bio>, nrA: nat, b: seq<Bio>, nrB: nat)
    requires LimitsOk(lim) && Tracked(lim, a, nrA) && Tracked(lim, b, nrB)
    ensures Tracked(lim, a + b, nrA + nrB)
  {
    hide IsGrouping, Vecs, Size;
    var g :| Tracks(lim, a, nrA, g);
    var h :| Tracks(lim, b, nrB, h);
    GroupingAppend(lim, g, Vecs(a), h, Vecs(b));
    VecsAppend(a, b);
    assert Tracks(lim, a + b, nrA + nrB, g + h);
  }

  /** Two groupings with the last group of one and the first of the other made into one. */
  function Joined(g: seq<Group>, h: seq<Group>): seq<Group>
    requires g != [] && h != []
  {
    Front(g) + [Last(g) + h[0]] + h[1..]
  }

  lemma JoinedFlatten(g: seq<Group>, h: seq<Group>)
    requires g != [] && h != []
    ensures Flatten(Joined(g, h)) == Flatten(g) + Flatten(h)
  {
    assert h == [h[0]] + h[1..];
    assert g == Front(g) + [Last(g)];
    FlattenAppend([h[0]], h[1..]);
    FlattenAppend(Front(g) + [Last(g) + h[0]], h[1..]);
    FlattenSnoc(Front(g), Last(g) + h[0]);
    FlattenSnoc([], h[0]);
    assert [] + [h[0]] == [h[0]];
  }

  lemma JoinedSegment(lim: Limits, s: Group, t: Group)
    requires LimitsOk(lim) && IsSegment(lim, s) && IsSegment(lim, t)
    requires lim.cluster && Size(s) + Size(t) <= lim.maxSegmentSize && Adjacent(lim, Last(s), t[0])
    ensures IsSegment(lim, s + t)
  {
    hide Adjacent;
    SizeAppend(s, t);
    var u := s + t;
    forall i, j | 0 <= i < j < |u| && j == i + 1
      ensures Adjacent(lim, u[i], u[j])
    {
      if j < |s| {
        assert Adjacent(lim, s[i], s[j]);
      } else if i >= |s| {
        assert Adjacent(lim, t[i - |s|], t[j - |s|]);
      }
    }
  }

  /** The first vector of a grouping and its last one. */
  lemma {:induction false} GroupEnds(lim: Limits, g: seq<Group>, vs: seq<Vec>)
    requires LimitsOk(lim) && IsGrouping(lim, g, vs) && g != []
    ensures vs != [] && g[0] != [] && g[0][0] == vs[0] && Last(g) != [] && Last(Last(g)) == Last(vs)
    decreases |g|
  {
    assert IsSegment(lim, Last(g)) && IsSegment(lim, g[0]);
    if |g| > 1 {
      GroupEnds(lim, Front(g), Flatten(Front(g)));
    }
  }

  /** blk_phys_contig_segment, for the last bio of one request and the first of the next. */
  predicate PhysContig(lim: Limits, a: Bio, b: Bio)
    requires LimitsOk(lim) && a.vecs != [] && b.vecs != []
  {
    && lim.cluster
    && a.backSize + b.frontSize <= lim.maxSegmentSize
    && Adjacent(lim, Last(a.vecs), b.vecs[0])
  }

  /** Two requests meet in one segment exactly when, on a queue that clusters, the last segment of the one and the
      first of the other are small enough together, and the last vector of the one and the first of the other follow
      each other in memory and lie in one window. */
  lemma ContigIs(lim: Limits, a: Bio, b: Bio)
    requires LimitsOk(lim) && a.vecs != [] && b.vecs != []
    ensures var v, w := a.vecs[|a.vecs| - 1], b.vecs[0];
            PhysContig(lim, a, b) <==>
              && lim.cluster && a.backSize + b.frontSize <= lim.maxSegmentSize
              && Start(v) + v.len == Start(w) && Start(v) / lim.window == (Start(w) + w.len - 1) / lim.window
  {
  }

  /** The bios of the earlier request with the size that ll_merge_requests_fn leaves in its first bio. */
  function WithFront(bios: seq<Bio>, nr: nat, size: nat): seq<Bio>
    requires bios != []
  {
    if nr == 1 then bios[0 := bios[0].(frontSize := size)] else bios
  }

  /** The bios of the later request with the size that it leaves in its last bio. */
  function WithBack(bios: seq<Bio>, nr: nat, size: nat): seq<Bio>
    requires bios != []
  {
    if nr == 1 then bios[|bios| - 1 := Last(bios).(backSize := size)] else bios
  }

  /** The new sizes still bound the ends, even if the merge is then refused. */
  lemma ResizingKeepsTracking(lim: Limits, bios: seq<Bio>, nr: nat, size: nat)
    requires LimitsOk(lim) && Tracked(lim, bios, nr)
    ensures Vecs(WithFront(bios, nr, size)) == Vecs(bios) && Vecs(WithBack(bios, nr, size)) == Vecs(bios)
    ensures size >= Last(bios).backSize ==> Tracked(lim, WithFront(bios, nr, size), nr)
    ensures size >= bios[0].frontSize ==> Tracked(lim, WithBack(bios, nr, size), nr)
  {
    var g :| Tracks(lim, bios, nr, g);
    SameVecs(WithFront(bios, nr, size), bios);
    SameVecs(WithBack(bios, nr, size), bios);
    if size >= Last(bios).backSize { assert Tracks(lim, WithFront(bios, nr, size), nr, g); }
    if size >= bios[0].frontSize { assert Tracks(lim, WithBack(bios, nr, size), nr, g); }
  }

  lemma {:induction false} VecsEnds(bios: seq<Bio>)
    requires bios != [] && forall i | 0 <= i < |bios| :: bios[i].vecs != []
    ensures Vecs(bios) != [] && Vecs(bios)[0] == bios[0].vecs[0] && Last(Vecs(bios)) == Last(Last(bios).vecs)
    decreases |bios|
  {
    if |bios| > 1 {
      VecsEnds(Front(bios));
    } else {
      assert Front(bios) == [];
    }
  }

  lemma JoinedGrouping(lim: Limits, g: seq<Group>, vs: seq<Vec>, h: seq<Group>, ws: seq<Vec>)
    requires LimitsOk(lim) && IsGrouping(lim, g, vs) && IsGrouping(lim, h, ws) && g != [] && h != []
    requires vs != [] && ws != [] && Adjacent(lim, Last(vs), ws[0]) && lim.cluster
    requires Size(Last(g)) + Size(h[0]) <= lim.maxSegmentSize
    ensures IsGrouping(lim, Joined(g, h), vs + ws)
    ensures |Joined(g, h)| == |g| + |h| - 1
    ensures Size(Last(g) + h[0]) == Size(Last(g)) + Size(h[0])
  {
    hide Adjacent, IsSegment, Flatten, Size;
    GroupEnds(lim, g, vs);
    GroupEnds(lim, h, ws);
    JoinedFlatten(g, h);
    assert IsSegment(lim, Last(g)) && IsSegment(lim, h[0]);
    JoinedSegment(lim, Last(g), h[0]);
    SizeAppend(Last(g), h[0]);
    JoinedAll(lim, g, h);
  }

  lemma JoinedAll(lim: Limits, g: seq<Group>, h: seq<Group>)
    requires LimitsOk(lim) && g != [] && h != []
    requires (forall i | 0 <= i < |g| :: IsSegment(lim, g[i])) && (forall i | 0 <= i < |h| :: IsSegment(lim, h[i]))
    requires IsSegment(lim, Last(g) + h[0])
    ensures forall i | 0 <= i < |Joined(g, h)| :: IsSegment(lim, Joined(g, h)[i])
  {
    hide IsSegment;
    var j := Joined(g, h);
    forall i | 0 <= i < |j|
      ensures IsSegment(lim, j[i])
    {
      if i < |g| - 1 {
        assert j[i] == g[i];
      } else if i >= |g| {
        assert j[i] == h[i - |g| + 1];
      }
    }
  }

  /** Requests whose ends are contiguous in memory: one segment is saved. */
  lemma TrackedJoin(lim: Limits, a: seq<Bio>, nrA: nat, b: seq<Bio>, nrB: nat)
    requires LimitsOk(lim) && Tracked(lim, a, nrA) && Tracked(lim, b, nrB)
    requires (forall i | 0 <= i < |a| :: a[i].vecs != []) && (forall i | 0 <= i < |b| :: b[i].vecs != [])
    requires PhysContig(lim, Last(a), b[0])
    ensures nrA > 0 && nrB > 0
    ensures var size := Last(a).backSize + b[0].frontSize;
            Tracked(lim, WithFront(a, nrA, size) + WithBack(b, nrB, size), nrA + nrB - 1)
  {
    var g :| Tracks(lim, a, nrA, g);
    var h :| Tracks(lim, b, nrB, h);
    JoinTracks(lim, a, nrA, g, b, nrB, h);
  }

  lemma JoinedEnds(g: seq<Group>, h: seq<Group>)
    requires g != [] && h != []
    ensures Joined(g, h) != []
    ensures Joined(g, h)[0] == if |g| == 1 then Last(g) + h[0] else g[0]
    ensures Last(Joined(g, h)) == if |h| == 1 then Last(g) + h[0] else Last(h)
  {
  }

  lemma ResizedEnds(bios: seq<Bio>, nr: nat, size: nat)
    requires bios != []
    ensures |WithFront(bios, nr, size)| == |WithBack(bios, nr, size)| == |bios|
    ensures forall i | 0 <= i < |bios| ::
              WithFront(bios, nr, size)[i].vecs == bios[i].vecs && WithBack(bios, nr, size)[i].vecs == bios[i].vecs
    ensures WithFront(bios, nr, size)[0].frontSize == if nr == 1 then size else bios[0].frontSize
    ensures Last(WithBack(bios, nr, size)).backSize == if nr == 1 then size else Last(bios).backSize
  {
  }

  lemma JoinTracks(lim: Limits, a: seq<Bio>, nrA: nat, g: seq<Group>, b: seq<Bio>, nrB: nat, h: seq<Group>)
    requires LimitsOk(lim) && Tracks(lim, a, nrA, g) && Tracks(lim, b, nrB, h)
    requires (forall i | 0 <= i < |a| :: a[i].vecs != []) && (forall i | 0 <= i < |b| :: b[i].vecs != [])
    requires PhysContig(lim, Last(a), b[0])
    ensures var size := Last(a).backSize + b[0].frontSize;
            Tracks(lim, WithFront(a, nrA, size) + WithBack(b, nrB, size), nrA + nrB - 1, Joined(g, h))
  {
    hide IsGrouping, Adjacent, Joined, Vecs, Size, WithFront, WithBack;
    var size := Last(a).backSize + b[0].frontSize;
    var a', b' := WithFront(a, nrA, size), WithBack(b, nrB, size);
    ResizedEnds(a, nrA, size);
    ResizedEnds(b, nrB, size);
    VecsEnds(a);
    VecsEnds(b);
    JoinedGrouping(lim, g, Vecs(a), h, Vecs(b));
    JoinedEnds(g, h);
    SameVecs(a', a);
    SameVecs(b', b);
    VecsAppend(a', b');
    assert Last(a' + b') == Last(b') && (a' + b')[0] == a'[0];
  }
}
