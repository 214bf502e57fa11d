/** Partial completion: what is left of a chain of bios when its first n bytes are done, and why the
    sizes of the pieces do not matter. */
module Completion {
  import opened Bios
  import opened Segments
  import opened Merging

  /** The vectors left after n bytes: whole vectors are passed, and one may be cut. */
  function DropVecs(vs: seq<Vec>, n: nat): seq<Vec> {
    if vs == [] || n == 0 then vs
    else if vs[0].len <= n then DropVecs(vs[1..], n - vs[0].len)
    else [Cut(vs[0], n)] + vs[1..]
  }

  /** A bio with its first n bytes done. */
  function Advance(b: Bio, n: nat): Bio {
    b.(sector := b.sector + n / SECTOR, vecs := DropVecs(b.vecs, n))
  }

  /** The chain left after n bytes. */
  function Drop(bios: seq<Bio>, n: nat): seq<Bio>
    decreases |bios|
  {
    if bios == [] then []
    else if n >= BioSize(bios[0]) then Drop(bios[1..], n - BioSize(bios[0]))
    else [Advance(bios[0], n)] + bios[1..]
  }

  /** The bios that end within the first n bytes, in order. */
  function EndedBy(bios: seq<Bio>, n: nat): seq<nat>
    decreases |bios|
  {
    if bios == [] || n < BioSize(bios[0]) then []
    else [bios[0].id] + EndedBy(bios[1..], n - BioSize(bios[0]))
  }

  /** The ids of the first k bios. */
  function Ids(bios: seq<Bio>, k: nat): seq<nat>
    requires k <= |bios|
  {
    seq(k, i requires 0 <= i < k => bios[i].id)
  }

  /** Exactly the bios whose last byte is among the first n have ended, in order. */
  lemma {:induction false} EndedExactly(bios: seq<Bio>, n: nat) returns (k: nat)
    ensures k <= |bios| && EndedBy(bios, n) == Ids(bios, k) && TotalSize(bios[..k]) <= n
    ensures k < |bios| ==> n < TotalSize(bios[..k + 1])
    decreases |bios|
  {
    hide TotalSize, BioSize, Ids;
    NoneTotal();
    if bios == [] || n < BioSize(bios[0]) {
      k := 0;
      assert bios[..0] == [];
      NoIds(bios);
      if bios != [] {
        assert bios[..1] == [bios[0]];
        OneTotal(bios[0]);
      }
    } else {
      var j := EndedExactly(bios[1..], n - BioSize(bios[0]));
      k := j + 1;
      MoreIds(bios, j);
      MoreTotal(bios, j);
      if j < |bios[1..]| {
        MoreTotal(bios, j + 1);
      }
    }
  }

  lemma NoIds(bios: seq<Bio>)
    ensures Ids(bios, 0) == []
  {
  }

  lemma MoreIds(bios: seq<Bio>, j: nat)
    requires j < |bios|
    ensures Ids(bios, j + 1) == [bios[0].id] + Ids(bios[1..], j)
  {
  }

  lemma MoreTotal(bios: seq<Bio>, j: nat)
    requires j < |bios|
    ensures TotalSize(bios[..j + 1]) == BioSize(bios[0]) + TotalSize(bios[1..][..j])
  {
    assert bios[..j + 1][1..] == bios[1..][..j];
    TotalHead(bios[..j + 1]);
  }

  lemma NoneTotal()
    ensures TotalSize([]) == 0
  {
  }

  lemma OneTotal(bio: Bio)
    ensures TotalSize([bio]) == BioSize(bio)
  {
    VecsOne(bio);
  }

  lemma SizeHead(vs: seq<Vec>)
    requires vs != []
    ensures Size(vs) == vs[0].len + Size(vs[1..])
    ensures Bytes(vs) == Memory(Phys(vs[0]), vs[0].len) + Bytes(vs[1..])
  {
    hide Memory, Phys;
    assert vs == [vs[0]] + vs[1..];
    SizeAppend([vs[0]], vs[1..]);
    BytesAppend([vs[0]], vs[1..]);
    assert [vs[0]][..0] == [];
    assert Bytes([vs[0]]) == [] + Memory(Phys(vs[0]), vs[0].len);
  }

  lemma DropAppend<T>(a: seq<T>, b: seq<T>, n: nat)
    ensures |a| <= n <= |a| + |b| ==> (a + b)[n..] == b[n - |a|..]
    ensures n <= |a| ==> (a + b)[n..] == a[n..] + b
  {
  }

  lemma MemoryDrop(addr: nat, len: nat, n: nat)
    requires n <= len
    ensures Memory(addr, len)[n..] == Memory(addr + n, len - n)
  {
  }

  /** A cut vector. */
  function Cut(v: Vec, n: nat): Vec
    requires n <= v.len
  {
    v.(offset := v.offset + n, len := v.len - n)
  }

  lemma CutBytes(vs: seq<Vec>, n: nat)
    requires vs != [] && n < vs[0].len
    ensures var cut := [Cut(vs[0], n)] + vs[1..]; Size(cut) == Size(vs) - n && Bytes(cut) == Bytes(vs)[n..]
  {
    hide Memory, Bytes, Size;
    var cut := [Cut(vs[0], n)] + vs[1..];
    SizeHead(vs);
    SizeHead(cut);
    assert cut[1..] == vs[1..];
    var m := Memory(Phys(vs[0]), vs[0].len);
    MemoryDrop(Phys(vs[0]), vs[0].len, n);
    assert (m + Bytes(vs[1..]))[n..] == m[n..] + Bytes(vs[1..]);
  }

  /** Passing n bytes drops exactly the first n bytes. */
  lemma {:induction false} DropVecsBytes(vs: seq<Vec>, n: nat)
    requires n <= Size(vs) && Positive(vs)
    ensures Bytes(DropVecs(vs, n)) == Bytes(vs)[n..] && Size(DropVecs(vs, n)) == Size(vs) - n
    ensures Positive(DropVecs(vs, n)) && (n < Size(vs) ==> DropVecs(vs, n) != [])
    decreases |vs|
  {
    hide Memory, Bytes, Phys;
    if vs == [] || n == 0 {
    } else {
      SizeHead(vs);
      if vs[0].len <= n {
        DropVecsBytes(vs[1..], n - vs[0].len);
        assert Bytes(vs)[n..] == Bytes(vs[1..])[n - vs[0].len..];
      } else {
        CutBytes(vs, n);
      }
    }
  }

  lemma {:induction false} DropVecsTwice(vs: seq<Vec>, a: nat, b: nat)
    requires a + b <= Size(vs) && Positive(vs)
    ensures DropVecs(DropVecs(vs, a), b) == DropVecs(vs, a + b)
    decreases |vs|
  {
    hide Size;
    if vs != [] && a != 0 {
      SizeHead(vs);
      if vs[0].len <= a {
        DropVecsTwice(vs[1..], a - vs[0].len, b);
      } else {
        assert DropVecs(vs, a)[1..] == vs[1..];
      }
    }
  }

  lemma TotalHead(bios: seq<Bio>)
    requires bios != []
    ensures Vecs(bios) == bios[0].vecs + Vecs(bios[1..])
    ensures TotalSize(bios) == BioSize(bios[0]) + TotalSize(bios[1..])
    ensures Bytes(Vecs(bios)) == Bytes(bios[0].vecs) + Bytes(Vecs(bios[1..]))
  {
    assert bios == [bios[0]] + bios[1..];
    VecsAppend([bios[0]], bios[1..]);
    VecsOne(bios[0]);
    SizeAppend(bios[0].vecs, Vecs(bios[1..]));
    BytesAppend(bios[0].vecs, Vecs(bios[1..]));
  }

  lemma AdvanceBio(b: Bio, n: nat)
    requires DataBio(b) && n < BioSize(b)
    ensures BioSize(Advance(b, n)) == BioSize(b) - n && Bytes(Advance(b, n).vecs) == Bytes(b.vecs)[n..]
    ensures n % SECTOR == 0 ==> DataBio(Advance(b, n))
    ensures n % SECTOR == 0 ==> forall c | Follows(b, c) :: Follows(Advance(b, n), c)
  {
    DropVecsBytes(b.vecs, n);
  }

  /** Completing n bytes of a chain drops exactly its first n bytes, whatever the bio and vector bounds. */
  lemma {:induction false} DropBytes(bios: seq<Bio>, n: nat)
    requires Chained(bios) && n <= TotalSize(bios)
    ensures Bytes(Vecs(Drop(bios, n))) == Bytes(Vecs(bios))[n..]
    ensures TotalSize(Drop(bios, n)) == TotalSize(bios) - n
    decreases |bios|
  {
    hide Bytes, Vecs, Chained, Size, Advance, Follows, DataBio;
    NoVecs();
    if bios != [] {
      TotalHead(bios);
      ChainedTail(bios);
      var size := BioSize(bios[0]);
      if n >= size {
        DropBytes(bios[1..], n - size);
        DropAppend(Bytes(bios[0].vecs), Bytes(Vecs(bios[1..])), n);
      } else {
        var left := Drop(bios, n);
        AdvanceBio(bios[0], n);
        TotalHead(left);
        assert left[1..] == bios[1..];
        DropAppend(Bytes(bios[0].vecs), Bytes(Vecs(bios[1..])), n);
      }
    }
  }

  lemma NoVecs()
    ensures Vecs([]) == [] && Bytes([]) == [] && Size([]) == 0
  {
  }

  lemma ChainSecond(bios: seq<Bio>)
    requires Chained(bios) && bios != []
    ensures |bios| > 1 ==> bios[1].sector == bios[0].sector + BioSectors(bios[0])
  {
    if |bios| > 1 { assert Follows(bios[0], bios[1]); }
  }

  lemma ChainedTail(bios: seq<Bio>)
    requires Chained(bios) && bios != []
    ensures Chained(bios[1..]) && DataBio(bios[0])
  {
  }

  /** Whole sectors completed leave a chain that starts that many sectors further on. */
  lemma {:induction false} DropChained(bios: seq<Bio>, n: nat)
    requires Chained(bios) && n % SECTOR == 0
    ensures Chained(Drop(bios, n))
    ensures Drop(bios, n) != [] ==> bios != [] && Drop(bios, n)[0].sector == bios[0].sector + n / SECTOR
    ensures Drop(bios, n) == [] <==> n >= TotalSize(bios)
    decreases |bios|
  {
    hide DataBio, Chained, Vecs;
    if bios == [] {
      NoVecs();
    } else {
      TotalHead(bios);
      ChainedTail(bios);
      SectorsOf(bios[0]);
      ChainSecond(bios);
      var size := BioSize(bios[0]);
      if n >= size {
        DropChained(bios[1..], n - size);
      } else {
        AdvanceBio(bios[0], n);
        CutChained(bios, Advance(bios[0], n));
      }
    }
  }

  /** Replacing the first bio by one that ends where it ends keeps the chain. */
  lemma CutChained(bios: seq<Bio>, b: Bio)
    requires Chained(bios) && bios != [] && DataBio(b) && forall c | Follows(bios[0], c) :: Follows(b, c)
    ensures Chained([b] + bios[1..])
  {
    hide DataBio, Follows;
    ChainedTail(bios);
    OneChained(b);
    if |bios| > 1 { assert Follows(bios[0], bios[1]); }
    ChainedAppend([b], bios[1..]);
  }

  lemma OneChained(b: Bio)
    requires DataBio(b)
    ensures Chained([b])
  {
  }

  lemma SectorsOf(b: Bio)
    requires DataBio(b)
    ensures BioSize(b) % SECTOR == 0
  {
  }

  lemma MovesDrop(sector: nat, bytes: seq<nat>, n: nat)
    requires n <= |bytes| && n % SECTOR == 0
    ensures Moves(sector, bytes)[n..] == Moves(sector + n / SECTOR, bytes[n..])
  {
  }

  /** What is left after n bytes is what was asked for, without the first n bytes. */
  lemma DropAsked(bios: seq<Bio>, n: nat)
    requires Chained(bios) && n % SECTOR == 0 && n <= TotalSize(bios)
    ensures n <= |Asked(bios)| && Asked(Drop(bios, n)) == Asked(bios)[n..]
  {
    hide Chained, Drop, Moves, Bytes, Vecs;
    var left := Drop(bios, n);
    DropBytes(bios, n);
    DropChained(bios, n);
    NoVecs();
    if bios != [] {
      ChainIsRun(bios);
      MovesDrop(bios[0].sector, Bytes(Vecs(bios)), n);
      if left != [] {
        ChainIsRun(left);
      }
    }
  }

  // ---------------------------------------------------------------------------------------
  // Pieces

  /** Completing a bytes and then b bytes is completing a + b bytes. */
  lemma {:induction false} DropTwice(bios: seq<Bio>, a: nat, b: nat)
    requires Chained(bios) && a % SECTOR == 0 && b % SECTOR == 0
    ensures Drop(Drop(bios, a), b) == Drop(bios, a + b)
    ensures EndedBy(bios, a) + EndedBy(Drop(bios, a), b) == EndedBy(bios, a + b)
    decreases |bios|
  {
    hide DataBio, Chained, Advance, BioSize;
    if bios != [] {
      ChainedTail(bios);
      var size := BioSize(bios[0]);
      if a >= size {
        SectorsOf(bios[0]);
        LessSectors(a, size);
        DropTwice(bios[1..], a - size, b);
        var before, after := EndedBy(bios[1..], a - size), EndedBy(Drop(bios[1..], a - size), b);
        assert [bios[0].id] + (before + after) == ([bios[0].id] + before) + after;
      } else {
        DropTwiceCut(bios, a, b);
      }
    }
  }

  lemma LessSectors(a: nat, size: nat)
    requires a % SECTOR == 0 && size % SECTOR == 0 && size <= a
    ensures (a - size) % SECTOR == 0
  {
  }

  lemma DropTwiceCut(bios: seq<Bio>, a: nat, b: nat)
    requires Chained(bios) && bios != [] && a % SECTOR == 0 && b % SECTOR == 0 && a < BioSize(bios[0])
    ensures Drop(Drop(bios, a), b) == Drop(bios, a + b)
    ensures EndedBy(bios, a) + EndedBy(Drop(bios, a), b) == EndedBy(bios, a + b)
  {
    hide DataBio, Chained, Advance, BioSize;
    ChainedTail(bios);
    AdvanceBio(bios[0], a);
    AdvanceId(bios[0], a);
    var left := Drop(bios, a);
    assert left[0] == Advance(bios[0], a) && left[1..] == bios[1..];
    if a + b < BioSize(bios[0]) {
      AdvanceTwice(bios[0], a, b);
    } else {
      assert Drop(left, b) == Drop(bios[1..], a + b - BioSize(bios[0]));
    }
  }

  lemma AdvanceId(bio: Bio, n: nat)
    ensures Advance(bio, n).id == bio.id
  {
  }

  lemma AdvanceTwice(bio: Bio, a: nat, b: nat)
    requires DataBio(bio) && a % SECTOR == 0 && b % SECTOR == 0 && a + b < BioSize(bio)
    ensures Advance(Advance(bio, a), b) == Advance(bio, a + b)
  {
    DropVecsTwice(bio.vecs, a, b);
  }

  /** A bio without its cached segment counts. */
  function Core(b: Bio): Bio {
    b.(segValid := false, physSegs := 0, frontSize := 0, backSize := 0)
  }

  function Cores(bios: seq<Bio>): seq<Bio> {
    seq(|bios|, i requires 0 <= i < |bios| => Core(bios[i]))
  }

  lemma NoCores()
    ensures Cores([]) == []
  {
  }

  lemma CoresHead(bios: seq<Bio>)
    requires bios != []
    ensures Cores(bios) == [Core(bios[0])] + Cores(bios[1..]) && Cores(bios)[1..] == Cores(bios[1..])
  {
  }

  lemma {:induction false} DropCores(bios: seq<Bio>, n: nat)
    ensures Cores(Drop(bios, n)) == Drop(Cores(bios), n)
    ensures EndedBy(Cores(bios), n) == EndedBy(bios, n)
    decreases |bios|
  {
    hide Size, DropVecs, Cores;
    if bios == [] {
      NoCores();
    } else {
      CoresHead(bios);
      if n >= BioSize(bios[0]) {
        DropCores(bios[1..], n - BioSize(bios[0]));
      } else {
        CoresHead([Advance(bios[0], n)] + bios[1..]);
        assert ([Advance(bios[0], n)] + bios[1..])[1..] == bios[1..];
      }
    }
  }

  /** One piece: the bytes are dropped and the segments counted again. */
  function Piece(lim: Limits, bios: seq<Bio>, n: nat): seq<Bio>
    requires LimitsOk(lim)
  {
    var left := Drop(bios, n);
    if left == [] then [] else Resized(lim, left)
  }

  function Pieces(lim: Limits, bios: seq<Bio>, ns: seq<nat>): seq<Bio>
    requires LimitsOk(lim)
    decreases |ns|
  {
    if ns == [] then bios else Pieces(lim, Piece(lim, bios, ns[0]), ns[1..])
  }

  function EndedByPieces(lim: Limits, bios: seq<Bio>, ns: seq<nat>): seq<nat>
    requires LimitsOk(lim)
    decreases |ns|
  {
    if ns == [] then [] else EndedBy(bios, ns[0]) + EndedByPieces(lim, Piece(lim, bios, ns[0]), ns[1..])
  }

  function Sum(ns: seq<nat>): nat {
    if ns == [] then 0 else ns[0] + Sum(ns[1..])
  }

  lemma ResizedCores(lim: Limits, bios: seq<Bio>)
    requires LimitsOk(lim) && bios != []
    ensures Cores(Resized(lim, bios)) == Cores(bios)
  {
  }

  lemma ChainedCores(bios: seq<Bio>)
    ensures Chained(Cores(bios)) <==> Chained(bios)
  {
    forall i | 0 <= i < |bios|
      ensures DataBio(Cores(bios)[i]) == DataBio(bios[i]) && BioSectors(Cores(bios)[i]) == BioSectors(bios[i])
      ensures Cores(bios)[i].sector == bios[i].sector
    {
    }
    forall i, j | 0 <= i < j < |bios| && j == i + 1
      ensures Follows(Cores(bios)[i], Cores(bios)[j]) == Follows(bios[i], bios[j])
    {
    }
    hide DataBio, Follows;
  }

  /** Completing a request in any sequence of whole-sector pieces leaves the same chain, and ends the
      same bios in the same order, as completing the sum of the pieces at once. */
  lemma {:induction false} PiecesDoNotMatter(lim: Limits, bios: seq<Bio>, ns: seq<nat>)
    requires LimitsOk(lim) && Chained(bios) && forall i | 0 <= i < |ns| :: ns[i] % SECTOR == 0
    ensures Cores(Pieces(lim, bios, ns)) == Cores(Drop(bios, Sum(ns)))
    ensures EndedByPieces(lim, bios, ns) == EndedBy(bios, Sum(ns))
    decreases |ns|
  {
    hide DataBio, Resized, Cores, Drop, EndedBy;
    if ns == [] {
      DropNothing(bios);
    } else {
      var left := Drop(bios, ns[0]);
      var next := Piece(lim, bios, ns[0]);
      if left != [] { ResizedCores(lim, left); }
      DropChained(bios, ns[0]);
      ChainedCores(left);
      ChainedCores(next);
      PiecesDoNotMatter(lim, next, ns[1..]);
      DropCores(next, Sum(ns[1..]));
      DropCores(left, Sum(ns[1..]));
      SumSectors(ns[1..]);
      DropTwice(bios, ns[0], Sum(ns[1..]));
    }
  }

  lemma {:induction false} SumSectors(ns: seq<nat>)
    requires forall i | 0 <= i < |ns| :: ns[i] % SECTOR == 0
    ensures Sum(ns) % SECTOR == 0
    decreases |ns|
  {
    if ns != [] {
      SumSectors(ns[1..]);
    }
  }

  lemma DropNothing(bios: seq<Bio>)
    requires Chained(bios)
    ensures Drop(bios, 0) == bios && EndedBy(bios, 0) == []
  {
    if bios != [] {
      assert DataBio(bios[0]);
      SizeHead(bios[0].vecs);
      assert bios == [bios[0]] + bios[1..];
    }
  }
}
