/** A block request as the merging, mapping and completion code updates it. Valid() holds after any
    series of merges and whole-sector completions. */
module Requests {
  import opened Bios
  import opened Segments
  import opened Merging
  import opened Completion

  /** The segment count and sizes a bio caches, once it has been counted. */
  predicate BioCounted(lim: Limits, b: Bio)
    requires LimitsOk(lim)
  {
    b.segValid ==>
      var g := Greedy(lim, b.vecs, true);
      b.physSegs == |g| && FirstSize(g) <= b.frontSize && LastSize(g) <= b.backSize
  }

  /** blk_recount_segments */
  method RecountSegments(lim: Limits, b: Bio) returns (b': Bio)
    requires LimitsOk(lim)
    ensures b'.segValid && BioCounted(lim, b') && Core(b') == Core(b)
    ensures b.frontSize <= b'.frontSize && b.backSize <= b'.backSize
  {
    var nr, bios := RecalcSegments(lim, [b]);
    VecsOne(b);
    b' := bios[0].(physSegs := nr, segValid := true);
  }

  /** A counted bio on its own is a chain with a tracked count. */
  lemma CountedTracked(lim: Limits, b: Bio)
    requires LimitsOk(lim) && b.segValid && BioCounted(lim, b) && b.vecs != []
    ensures Tracked(lim, [b], b.physSegs)
  {
    var g := Greedy(lim, b.vecs, true);
    GreedyGrouping(lim, b.vecs, true);
    GreedySome(lim, b.vecs, true);
    VecsOne(b);
    assert Tracks(lim, [b], b.physSegs, g);
  }

  /** Larger cached sizes at the ends keep a count tracked. */
  lemma GrownTracked(lim: Limits, bios: seq<Bio>, nr: nat, i: nat, b: Bio)
    requires LimitsOk(lim) && Tracked(lim, bios, nr) && i < |bios|
    requires Core(b) == Core(bios[i]) && bios[i].frontSize <= b.frontSize && bios[i].backSize <= b.backSize
    ensures Tracked(lim, bios[i := b], nr)
  {
    hide IsGrouping, Size;
    var g :| Tracks(lim, bios, nr, g);
    SameVecs(bios[i := b], bios);
    assert Tracks(lim, bios[i := b], nr, g);
  }

  lemma CoreChained(bios: seq<Bio>, bios': seq<Bio>)
    requires Cores(bios) == Cores(bios') && Chained(bios)
    ensures Chained(bios') && |bios| == |bios'| && Vecs(bios') == Vecs(bios) && Asked(bios') == Asked(bios)
    ensures forall i | 0 <= i < |bios| :: bios[i].sector == bios'[i].sector && bios[i].id == bios'[i].id
  {
    ChainedCores(bios);
    ChainedCores(bios');
    assert |bios| == |Cores(bios)| && |bios'| == |Cores(bios')|;
    forall i | 0 <= i < |bios|
      ensures Core(bios[i]) == Core(bios'[i])
    {
      assert Cores(bios)[i] == Cores(bios')[i];
    }
    SameVecs(bios, bios');
    SameAsked(bios, bios');
  }

  lemma {:induction false} SameAsked(a: seq<Bio>, b: seq<Bio>)
    requires |a| == |b| && forall i | 0 <= i < |a| :: a[i].vecs == b[i].vecs && a[i].sector == b[i].sector
    ensures Asked(a) == Asked(b)
    decreases |a|
  {
    if a != [] {
      SameAsked(Front(a), Front(b));
    }
  }

  /** The fields of a request agree with its bios. */
  ghost predicate RequestOk(lim: Limits, bios: seq<Bio>, nr: nat, sector: nat, dataLen: nat)
    requires LimitsOk(lim)
  {
    && Chained(bios)
    && dataLen == TotalSize(bios)
    && (bios != [] ==> sector == bios[0].sector && Tracked(lim, bios, nr))
  }

  predicate Carries(lim: Limits, b: Bio)
    requires LimitsOk(lim)
  {
    DataBio(b) && BioCounted(lim, b)
  }

  lemma NewOk(lim: Limits, b: Bio)
    requires LimitsOk(lim) && Carries(lim, b) && b.segValid
    ensures RequestOk(lim, [b], b.physSegs, b.sector, Size(b.vecs))
    ensures b.physSegs == |Greedy(lim, b.vecs, true)|
  {
    CountedTracked(lim, b);
    OneChained(b);
    VecsOne(b);
  }

  lemma CoreOfOne(b: Bio, b': Bio)
    requires Core(b) == Core(b')
    ensures Cores([b]) == Cores([b']) && b.vecs == b'.vecs && b.sector == b'.sector && b.id == b'.id
    ensures DataBio(b) ==> DataBio(b') && Asked([b]) == Asked([b'])
  {
    assert b.vecs == Core(b).vecs && b'.vecs == Core(b').vecs;
    if DataBio(b) {
      OneChained(b);
      CoreChained([b], [b']);
    }
  }

  lemma GrownOk(lim: Limits, bios: seq<Bio>, nr: nat, sector: nat, dataLen: nat, i: nat, b: Bio)
    requires LimitsOk(lim) && RequestOk(lim, bios, nr, sector, dataLen) && i < |bios|
    requires Core(b) == Core(bios[i]) && bios[i].frontSize <= b.frontSize && bios[i].backSize <= b.backSize
    ensures RequestOk(lim, bios[i := b], nr, sector, dataLen)
    ensures Cores(bios[i := b]) == Cores(bios) && Asked(bios[i := b]) == Asked(bios)
  {
    assert Cores(bios[i := b]) == Cores(bios);
    CoreChained(bios, bios[i := b]);
    GrownTracked(lim, bios, nr, i, b);
  }

  /** A bio is appended where the request ends. */
  lemma BackOk(lim: Limits, bios: seq<Bio>, nr: nat, sector: nat, dataLen: nat, b: Bio)
    requires LimitsOk(lim) && RequestOk(lim, bios, nr, sector, dataLen) && bios != []
    requires Carries(lim, b) && b.segValid && b.sector == sector + dataLen / SECTOR
    ensures RequestOk(lim, bios + [b], nr + b.physSegs, sector, dataLen + Size(b.vecs))
    ensures Asked(bios + [b]) == Asked(bios) + Asked([b]) && Cores(bios + [b]) == Cores(bios) + Cores([b])
  {
    hide Carries, Chained, Tracked, Asked, Cores, Vecs, Size, Greedy;
    NewOk(lim, b);
    TrackedConcat(lim, bios, nr, [b], b.physSegs);
    ConcatChain(bios, [b]);
  }

  /** A bio is put in front of the request it ends at. */
  lemma FrontOk(lim: Limits, bios: seq<Bio>, nr: nat, sector: nat, dataLen: nat, b: Bio)
    requires LimitsOk(lim) && RequestOk(lim, bios, nr, sector, dataLen) && bios != []
    requires Carries(lim, b) && b.segValid && sector == b.sector + BioSectors(b)
    ensures RequestOk(lim, [b] + bios, nr + b.physSegs, b.sector, dataLen + Size(b.vecs))
    ensures Asked([b] + bios) == Asked([b]) + Asked(bios) && Cores([b] + bios) == Cores([b]) + Cores(bios)
  {
    hide Carries, Chained, Tracked, Asked, Cores, Vecs, Size, Greedy;
    NewOk(lim, b);
    VecsOne(b);
    TrackedConcat(lim, [b], b.physSegs, bios, nr);
    ConcatChain([b], bios);
  }

  /** Requests that meet, with the sizes that ll_merge_requests_fn leaves at their ends. */
  function Total(lim: Limits, a: seq<Bio>, nrA: nat, b: seq<Bio>, nrB: nat): nat
    requires LimitsOk(lim) && a != [] && b != [] && Last(a).vecs != [] && b[0].vecs != []
  {
    if PhysContig(lim, Last(a), b[0]) && nrA + nrB > 0 then nrA + nrB - 1 else nrA + nrB
  }

  /** One segment is saved exactly where the two requests meet in one. */
  lemma TotalIs(lim: Limits, a: seq<Bio>, nrA: nat, b: seq<Bio>, nrB: nat)
    requires LimitsOk(lim) && Tracked(lim, a, nrA) && Tracked(lim, b, nrB)
    requires a != [] && b != [] && Last(a).vecs != [] && b[0].vecs != []
    ensures Total(lim, a, nrA, b, nrB) == nrA + nrB - if PhysContig(lim, Last(a), b[0]) then 1 else 0
  {
    var g :| Tracks(lim, a, nrA, g);
  }

  lemma DataEnds(bios: seq<Bio>)
    requires Chained(bios) && bios != []
    ensures Last(bios).vecs != [] && bios[0].vecs != [] && forall i | 0 <= i < |bios| :: bios[i].vecs != []
  {
  }

  lemma EndsOk(lim: Limits, bios: seq<Bio>, nr: nat, sector: nat, dataLen: nat, size: nat)
    requires LimitsOk(lim) && RequestOk(lim, bios, nr, sector, dataLen) && bios != []
    ensures Cores(WithFront(bios, nr, size)) == Cores(bios) && Cores(WithBack(bios, nr, size)) == Cores(bios)
    ensures size >= Last(bios).backSize ==> RequestOk(lim, WithFront(bios, nr, size), nr, sector, dataLen)
    ensures size >= bios[0].frontSize ==> RequestOk(lim, WithBack(bios, nr, size), nr, sector, dataLen)
  {
    hide Chained, Tracked, Vecs, Size, Asked;
    var f, b := WithFront(bios, nr, size), WithBack(bios, nr, size);
    assert Cores(f) == Cores(bios) && Cores(b) == Cores(bios);
    CoreChained(bios, f);
    CoreChained(bios, b);
    ResizingKeepsTracking(lim, bios, nr, size);
  }

  /** The later request is appended where the earlier one ends. */
  lemma ConcatOk(lim: Limits, a: seq<Bio>, nrA: nat, sectorA: nat, lenA: nat,
                 b: seq<Bio>, nrB: nat, sectorB: nat, lenB: nat)
    requires LimitsOk(lim) && RequestOk(lim, a, nrA, sectorA, lenA) && RequestOk(lim, b, nrB, sectorB, lenB)
    requires a != [] && b != [] && sectorB == sectorA + lenA / SECTOR
    ensures RequestOk(lim, a + b, nrA + nrB, sectorA, lenA + lenB)
    ensures Asked(a + b) == Asked(a) + Asked(b) && Cores(a + b) == Cores(a) + Cores(b)
  {
    hide Chained, Tracked, Asked, Cores, Vecs, Size;
    TrackedConcat(lim, a, nrA, b, nrB);
    ConcatChain(a, b);
  }

  /** The same when their ends are contiguous in memory: one segment less. */
  lemma JoinOk(lim: Limits, a: seq<Bio>, nrA: nat, sectorA: nat, lenA: nat,
               b: seq<Bio>, nrB: nat, sectorB: nat, lenB: nat)
    requires LimitsOk(lim) && RequestOk(lim, a, nrA, sectorA, lenA) && RequestOk(lim, b, nrB, sectorB, lenB)
    requires a != [] && b != [] && sectorB == sectorA + lenA / SECTOR
    requires Last(a).vecs != [] && b[0].vecs != [] && PhysContig(lim, Last(a), b[0])
    ensures nrA + nrB > 0
    ensures var size := Last(a).backSize + b[0].frontSize;
            var all := WithFront(a, nrA, size) + WithBack(b, nrB, size);
            && RequestOk(lim, all, nrA + nrB - 1, sectorA, lenA + lenB)
            && Asked(all) == Asked(a) + Asked(b) && Cores(all) == Cores(a) + Cores(b)
  {
    hide Chained, Tracked, Asked, Cores, Vecs, Size, PhysContig;
    var size := Last(a).backSize + b[0].frontSize;
    DataEnds(a);
    DataEnds(b);
    TrackedJoin(lim, a, nrA, b, nrB);
    EndsOk(lim, a, nrA, sectorA, lenA, size);
    EndsOk(lim, b, nrB, sectorB, lenB, size);
    CoreChained(a, WithFront(a, nrA, size));
    CoreChained(b, WithBack(b, nrB, size));
    ConcatChain(WithFront(a, nrA, size), WithBack(b, nrB, size));
  }

  datatype MergeKind = NoMerge | BackMerge | FrontMerge

  class Request {
    var bios: seq<Bio>
    var nr: nat              // nr_phys_segments
    var sector: nat          // __sector
    var dataLen: nat         // __data_len
    var write: bool
    var nomerge: bool        // one of the flags that forbid merging
    var special: bool
    ghost var ended: seq<nat>  // the bios ended so far

    ghost predicate Valid(lim: Limits)
      requires LimitsOk(lim)
      reads this
    {
      RequestOk(lim, bios, nr, sector, dataLen)
    }

    /** Nothing but cached sizes and flags has changed. */
    twostate predicate SameChain()
      reads this
    {
      && Cores(bios) == old(Cores(bios)) && nr == old(nr) && sector == old(sector) && dataLen == old(dataLen)
      && ended == old(ended) && write == old(write) && special == old(special)
    }

    /** init_request_from_bio */
    constructor (lim: Limits, bio: Bio, write: bool)
      requires LimitsOk(lim) && Carries(lim, bio)
      ensures Valid(lim) && Cores(bios) == Cores([bio]) && nr == |Greedy(lim, bio.vecs, true)|
      ensures this.write == write && !nomerge && !special && ended == []
    {
      var b := bio;
      if !b.segValid {
        b := RecountSegments(lim, b);
      }
      bios, nr, sector, dataLen := [b], b.physSegs, bio.sector, Size(bio.vecs);
      this.write, nomerge, special, ended := write, false, false, [];
      new;
      hide RequestOk, Cores, Greedy, Core;
      CoreOfOne(bio, b);
      NewOk(lim, b);
    }

    /** elv_try_merge */
    method TryMerge(bio: Bio, write: bool) returns (kind: MergeKind)
      ensures kind == BackMerge <==> && !nomerge && !special && write == this.write
                                     && sector + dataLen / SECTOR == bio.sector
      ensures kind == FrontMerge <==> !nomerge && !special && write == this.write
                                      && sector + dataLen / SECTOR != bio.sector
                                      && sector == bio.sector + BioSectors(bio)
    {
      kind := NoMerge;
      if !nomerge && write == this.write && !special {
        if sector + dataLen / SECTOR == bio.sector {
          kind := BackMerge;
        } else if sector == bio.sector + BioSectors(bio) {
          kind := FrontMerge;
        }
      }
    }

    /** The part that ll_back_merge_fn and ll_front_merge_fn share with ll_new_hw_segment: `end` is the
        bio of the request that the new one comes next to. Says whether the new bio fits. */
    method NewHwSegment(lim: Limits, end: nat, bio: Bio, integrityOk: bool) returns (ok: bool, b: Bio)
      requires LimitsOk(lim) && Valid(lim) && end < |bios| && Carries(lim, bio)
      modifies this`bios, this`nomerge
      ensures Valid(lim) && SameChain() && Asked(bios) == old(Asked(bios)) && |bios| == old(|bios|)
      ensures ok <==> dataLen / SECTOR + BioSectors(bio) <= lim.maxSectors
                      && nr + |Greedy(lim, bio.vecs, true)| <= lim.maxSegments && integrityOk
      ensures nomerge == (old(nomerge) || !ok)
      ensures ok ==> && b.segValid && Carries(lim, b) && Core(b) == Core(bio)
                     && b.physSegs == |Greedy(lim, bio.vecs, true)|
    {
      hide RequestOk, Cores, Greedy, Asked;
      b := bio;
      if dataLen / SECTOR + BioSectors(bio) > lim.maxSectors {
        nomerge := true;
        return false, b;
      }
      if !bios[end].segValid {
        var e := RecountSegments(lim, bios[end]);
        GrownOk(lim, bios, nr, sector, dataLen, end, e);
        bios := bios[end := e];
      }
      if !b.segValid {
        b := RecountSegments(lim, b);
      }
      CoreOfOne(bio, b);
      if nr + b.physSegs > lim.maxSegments || !integrityOk {
        nomerge := true;
        return false, b;
      }
      return true, b;
    }

    /** bio_attempt_back_merge with ll_back_merge_fn: a bio that starts where the request ends. */
    method AttemptBackMerge(lim: Limits, bio: Bio, integrityOk: bool) returns (ok: bool)
      requires LimitsOk(lim) && Valid(lim) && bios != []
      requires Carries(lim, bio) && bio.sector == sector + dataLen / SECTOR
      modifies this
      ensures Valid(lim)
      ensures ok <==> old(dataLen) / SECTOR + BioSectors(bio) <= lim.maxSectors
                      && old(nr) + |Greedy(lim, bio.vecs, true)| <= lim.maxSegments && integrityOk
      ensures ok ==> && Asked(bios) == old(Asked(bios)) + Asked([bio]) && Cores(bios) == old(Cores(bios)) + Cores([bio])
                     && sector == old(sector) && nr == old(nr) + |Greedy(lim, bio.vecs, true)|
                     && nomerge == old(nomerge) && ended == old(ended) && write == old(write) && special == old(special)
      ensures !ok ==> nomerge && SameChain()
    {
      hide RequestOk, Cores, Greedy, Asked, Core, DataBio, Carries;
      var b;
      ok, b := NewHwSegment(lim, |bios| - 1, bio, integrityOk);
      if ok {
        CarriesData(lim, bio);
        CoreOfOne(bio, b);
        BackOk(lim, bios, nr, sector, dataLen, b);
        nr := nr + b.physSegs;
        bios := bios + [b];
        dataLen := dataLen + Size(bio.vecs);
      }
    }

    /** bio_attempt_front_merge with ll_front_merge_fn: a bio that ends where the request starts. */
    method AttemptFrontMerge(lim: Limits, bio: Bio, integrityOk: bool) returns (ok: bool)
      requires LimitsOk(lim) && Valid(lim) && bios != []
      requires Carries(lim, bio) && sector == bio.sector + BioSectors(bio)
      modifies this
      ensures Valid(lim)
      ensures ok <==> old(dataLen) / SECTOR + BioSectors(bio) <= lim.maxSectors
                      && old(nr) + |Greedy(lim, bio.vecs, true)| <= lim.maxSegments && integrityOk
      ensures ok ==> && Asked(bios) == Asked([bio]) + old(Asked(bios)) && Cores(bios) == Cores([bio]) + old(Cores(bios))
                     && sector == bio.sector && nr == old(nr) + |Greedy(lim, bio.vecs, true)|
                     && nomerge == old(nomerge) && ended == old(ended) && write == old(write) && special == old(special)
      ensures !ok ==> nomerge && SameChain()
    {
      hide RequestOk, Cores, Greedy, Asked, Core, DataBio, Carries;
      var b;
      ok, b := NewHwSegment(lim, 0, bio, integrityOk);
      if ok {
        CarriesData(lim, bio);
        CoreOfOne(bio, b);
        FrontOk(lim, bios, nr, sector, dataLen, b);
        nr := nr + b.physSegs;
        bios := [b] + bios;
        sector := bio.sector;
        dataLen := dataLen + Size(bio.vecs);
      }
    }
  }

  /** attempt_merge with ll_merge_requests_fn: `next` is taken over by `req` when it starts where `req`
      ends and the limits allow it. A refusal may have touched the cached sizes. */
  method AttemptMerge(lim: Limits, req: Request, next: Request, integrityOk: bool) returns (ok: bool)
    requires LimitsOk(lim) && req != next && req.Valid(lim) && next.Valid(lim) && req.bios != [] && next.bios != []
    modifies req, next
    ensures req.Valid(lim) && (!ok ==> next.Valid(lim))
    ensures old(Last(req.bios).vecs != [] && next.bios[0].vecs != [])
    ensures ok <==> && !old(req.nomerge) && !old(next.nomerge) && old(req.write) == old(next.write)
                    && !old(req.special) && !old(next.special)
                    && old(req.sector + req.dataLen / SECTOR) == old(next.sector)
                    && old(req.dataLen / SECTOR + next.dataLen / SECTOR) <= lim.maxSectors
                    && old(Total(lim, req.bios, req.nr, next.bios, next.nr)) <= lim.maxSegments && integrityOk
    ensures ok ==> && Asked(req.bios) == old(Asked(req.bios)) + old(Asked(next.bios))
                   && Cores(req.bios) == old(Cores(req.bios)) + old(Cores(next.bios))
                   && req.nr == old(Total(lim, req.bios, req.nr, next.bios, next.nr)) && req.sector == old(req.sector)
                   && next.bios == [] && req.ended == old(req.ended) && next.ended == old(next.ended)
                   && req.nomerge == old(req.nomerge) && req.write == old(req.write) && req.special == old(req.special)
    ensures !ok ==> req.SameChain() && next.SameChain()
  {
    hide RequestOk, Cores, Asked, PhysContig;
    RequestEnds(lim, req.bios, req.nr, req.sector, req.dataLen);
    RequestEnds(lim, next.bios, next.nr, next.sector, next.dataLen);
    if req.nomerge || next.nomerge || req.sector + req.dataLen / SECTOR != next.sector
       || req.write != next.write || next.special || req.special
    {
      return false;
    }
    if req.dataLen / SECTOR + next.dataLen / SECTOR > lim.maxSectors {
      return false;
    }
    var segSize := Last(req.bios).backSize + next.bios[0].frontSize;
    var total := req.nr + next.nr;
    if PhysContig(lim, Last(req.bios), next.bios[0]) {
      JoinOk(lim, req.bios, req.nr, req.sector, req.dataLen, next.bios, next.nr, next.sector, next.dataLen);
      EndsOk(lim, req.bios, req.nr, req.sector, req.dataLen, segSize);
      EndsOk(lim, next.bios, next.nr, next.sector, next.dataLen, segSize);
      req.bios := WithFront(req.bios, req.nr, segSize);
      next.bios := WithBack(next.bios, next.nr, segSize);
      total := total - 1;
    } else {
      ConcatOk(lim, req.bios, req.nr, req.sector, req.dataLen, next.bios, next.nr, next.sector, next.dataLen);
    }
    if total > lim.maxSegments || !integrityOk {
      return false;
    }
    req.nr := total;
    req.bios := req.bios + next.bios;
    req.dataLen := req.dataLen + next.dataLen;
    next.bios := [];
    return true;
  }

  lemma RequestEnds(lim: Limits, bios: seq<Bio>, nr: nat, sector: nat, dataLen: nat)
    requires LimitsOk(lim) && RequestOk(lim, bios, nr, sector, dataLen) && bios != []
    ensures Last(bios).vecs != [] && bios[0].vecs != []
  {
    DataEnds(bios);
  }

  /** Mapping a valid request: the driver moves exactly the bytes the bios ask for, and the list fits
      in nr_phys_segments entries. */
  method MapRequest(lim: Limits, req: Request) returns (sg: seq<Sg>)
    requires LimitsOk(lim) && req.Valid(lim) && req.bios != []
    ensures Moves(req.sector, SgBytes(sg)) == Asked(req.bios)
    ensures |sg| <= req.nr
  {
    hide Chained, Tracked, Asked, Vecs, Size, SgBytes, EntriesOf, IsGrouping;
    sg := MapSg(lim, req.bios);
    ChainIsRun(req.bios);
    TrackedCoversMapping(lim, req.bios, req.nr);
  }

  // ---------------------------------------------------------------------------------------
  // Completion

  /** Where the completion loop stands: n bytes were asked for on `bios0`; of them `total` are accounted
      for, `passed` of which are the first `idx` vectors of the bio at hand, and `left` are not. */
  ghost predicate Standing(bios0: seq<Bio>, ended0: seq<nat>, n: nat, bios: seq<Bio>, ended: seq<nat>,
                           idx: nat, passed: nat, left: nat, total: nat)
  {
    && Chained(bios)
    && total + left == n
    && Drop(bios0, n) == Drop(bios, passed + left)
    && ended0 + EndedBy(bios0, n) == ended + EndedBy(bios, passed + left)
    && total + TotalSize(bios) == TotalSize(bios0) + passed
    && (bios == [] ==> idx == 0 && passed == 0)
    && (bios != [] ==> idx <= |bios[0].vecs| && passed == Size(bios[0].vecs[..idx])
                       && (idx > 0 ==> passed + left < BioSize(bios[0])))
  }

  lemma StandingStart(bios: seq<Bio>, ended: seq<nat>, n: nat)
    requires Chained(bios)
    ensures Standing(bios, ended, n, bios, ended, 0, 0, n, 0)
  {
    if bios != [] { assert bios[0].vecs[..0] == []; }
  }

  /** A whole bio is done. */
  lemma StandingBio(bios0: seq<Bio>, ended0: seq<nat>, n: nat, bios: seq<Bio>, ended: seq<nat>,
                    idx: nat, passed: nat, left: nat, total: nat)
    requires Standing(bios0, ended0, n, bios, ended, idx, passed, left, total)
    requires bios != [] && left >= BioSize(bios[0])
    ensures passed == 0
    ensures Standing(bios0, ended0, n, bios[1..], ended + [bios[0].id], 0, 0,
                     left - BioSize(bios[0]), total + BioSize(bios[0]))
  {
    hide Size, Vecs, Chained;
    assert bios[0].vecs[..0] == [];
    NoVecs();
    TotalHead(bios);
    ChainedTail(bios);
    if |bios| > 1 { assert bios[1..][0].vecs[..0] == []; }
    var rest := EndedBy(bios[1..], left - BioSize(bios[0]));
    assert ended + ([bios[0].id] + rest) == ended + [bios[0].id] + rest;
  }

  lemma SizePrefix(vs: seq<Vec>, i: nat)
    requires i < |vs|
    ensures Size(vs[..i + 1]) == Size(vs[..i]) + vs[i].len
    ensures Size(vs) == Size(vs[..i]) + vs[i].len + Size(vs[i + 1..])
  {
    assert vs[..i + 1] == vs[..i] + [vs[i]];
    SizeSnoc(vs[..i], vs[i]);
    assert vs == vs[..i + 1] + vs[i + 1..];
    SizeAppend(vs[..i + 1], vs[i + 1..]);
  }

  /** The bio at hand is not done, so it has a vector left. */
  lemma StandingInside(bios0: seq<Bio>, ended0: seq<nat>, n: nat, bios: seq<Bio>, ended: seq<nat>,
                       idx: nat, passed: nat, left: nat, total: nat)
    requires Standing(bios0, ended0, n, bios, ended, idx, passed, left, total)
    requires bios != [] && left < BioSize(bios[0])
    ensures idx < |bios[0].vecs| && passed + left < BioSize(bios[0])
    ensures left >= bios[0].vecs[idx].len ==>
              Standing(bios0, ended0, n, bios, ended, idx + 1, passed + bios[0].vecs[idx].len,
                       left - bios[0].vecs[idx].len, total + bios[0].vecs[idx].len)
  {
    hide Drop, EndedBy, Vecs, Chained, Size;
    var vs := bios[0].vecs;
    ChainedTail(bios);
    assert vs[..0] == [] && vs[..|vs|] == vs;
    NoVecs();
    if idx < |vs| { SizePrefix(vs, idx); }
  }

  /** The vectors left after the first idx and r bytes of the next. */
  lemma {:induction false} DropVecsAt(vs: seq<Vec>, idx: nat, r: nat)
    requires Positive(vs) && idx < |vs| && r < vs[idx].len
    ensures DropVecs(vs, Size(vs[..idx]) + r) == [Cut(vs[idx], r)] + vs[idx + 1..]
    decreases |vs|
  {
    if idx == 0 {
      assert vs[..0] == [];
      assert vs == [vs[0]] + vs[1..];
    } else {
      assert vs[..idx][1..] == vs[1..][..idx - 1];
      SizeHead(vs[..idx]);
      DropVecsAt(vs[1..], idx - 1, r);
      assert vs[1..][idx..] == vs[idx + 1..];
    }
  }

  /** The loop has come to a stop inside a bio. */
  lemma StandingStop(bios0: seq<Bio>, ended0: seq<nat>, n: nat, bios: seq<Bio>, ended: seq<nat>,
                     idx: nat, passed: nat, left: nat, total: nat)
    requires Standing(bios0, ended0, n, bios, ended, idx, passed, left, total)
    requires bios != [] && idx < |bios[0].vecs| && left < bios[0].vecs[idx].len
    ensures ended == ended0 + EndedBy(bios0, n)
    ensures TotalSize(bios0) == n + TotalSize(bios) - passed - left && passed + left < BioSize(bios[0])
    ensures Drop(bios0, n) == [bios[0].(sector := bios[0].sector + (passed + left) / SECTOR,
                                        vecs := [Cut(bios[0].vecs[idx], left)] + bios[0].vecs[idx + 1..])] + bios[1..]
  {
    hide Vecs, Chained, Size;
    ChainedTail(bios);
    SizePrefix(bios[0].vecs, idx);
    DropVecsAt(bios[0].vecs, idx, left);
  }

  /** Without bytes passed, the bio is as it was. */
  lemma CutNothing(b: Bio, idx: nat, left: nat)
    requires DataBio(b) && idx < |b.vecs| && left < b.vecs[idx].len && Size(b.vecs[..idx]) + left == 0
    ensures b == b.(sector := b.sector + 0 / SECTOR, vecs := [Cut(b.vecs[idx], left)] + b.vecs[idx + 1..])
  {
    if idx > 0 {
      SizePrefix(b.vecs, 0);
      SizePrefixGrows(b.vecs, 1, idx);
    }
    assert b.vecs == [b.vecs[0]] + b.vecs[1..];
  }

  lemma {:induction false} SizePrefixGrows(vs: seq<Vec>, i: nat, j: nat)
    requires i <= j <= |vs|
    ensures Size(vs[..i]) <= Size(vs[..j])
    decreases j - i
  {
    if i < j {
      SizePrefix(vs, i);
      SizePrefixGrows(vs, i + 1, j);
    }
  }

  /** The loop of blk_update_request: bios that are done are taken off and ended; it stops inside a bio,
      with `idx` whole vectors and `left` bytes of the next one done, or with no bio left. */
  method ConsumeBios(req: Request, n: nat) returns (idx: nat, passed: nat, left: nat, total: nat)
    requires Chained(req.bios)
    modifies req`bios, req`ended
    ensures Chained(req.bios)
    ensures req.bios == [] ==>
              && Drop(old(req.bios), n) == [] && req.ended == old(req.ended) + EndedBy(old(req.bios), n)
    ensures req.bios != [] ==>
              && idx < |req.bios[0].vecs| && left < req.bios[0].vecs[idx].len && total == n
              && passed == Size(req.bios[0].vecs[..idx]) + left
              && req.ended == old(req.ended) + EndedBy(old(req.bios), n)
              && TotalSize(old(req.bios)) == n + TotalSize(req.bios) - passed
              && Drop(old(req.bios), n) == [req.bios[0].(sector := req.bios[0].sector + passed / SECTOR,
                   vecs := [Cut(req.bios[0].vecs[idx], left)] + req.bios[0].vecs[idx + 1..])] + req.bios[1..]
  {
    hide Chained, Drop, EndedBy, Vecs, Size, Standing;
    ghost var bios0, ended0 := req.bios, req.ended;
    idx, passed, left, total := 0, 0, n, 0;
    StandingStart(req.bios, req.ended, n);
    while req.bios != []
      invariant Standing(bios0, ended0, n, req.bios, req.ended, idx, passed, left, total)
      decreases |req.bios|, if req.bios == [] then 0 else |req.bios[0].vecs| - idx
    {
      var bio := req.bios[0];
      if left >= BioSize(bio) {
        StandingBio(bios0, ended0, n, req.bios, req.ended, idx, passed, left, total);
        req.ended := req.ended + [bio.id];
        req.bios := req.bios[1..];
        total, left := total + BioSize(bio), left - BioSize(bio);
        idx, passed := 0, 0;
      } else {
        StandingInside(bios0, ended0, n, req.bios, req.ended, idx, passed, left, total);
        var nbytes := bio.vecs[idx].len;
        if nbytes > left {
          StandingStop(bios0, ended0, n, req.bios, req.ended, idx, passed, left, total);
          StandingFacts(bios0, ended0, n, req.bios, req.ended, idx, passed, left, total);
          passed, total := passed + left, total + left;
          return;
        }
        idx, passed := idx + 1, passed + nbytes;
        total, left := total + nbytes, left - nbytes;
      }
      if req.bios != [] && left == 0 {
        StandingNext(bios0, ended0, n, req.bios, req.ended, idx, passed, left, total);
        StandingStop(bios0, ended0, n, req.bios, req.ended, idx, passed, left, total);
        StandingFacts(bios0, ended0, n, req.bios, req.ended, idx, passed, left, total);
        return;
      }
    }
    StandingDone(bios0, ended0, n, req.bios, req.ended, idx, passed, left, total);
  }

  lemma StandingFacts(bios0: seq<Bio>, ended0: seq<nat>, n: nat, bios: seq<Bio>, ended: seq<nat>,
                      idx: nat, passed: nat, left: nat, total: nat)
    requires Standing(bios0, ended0, n, bios, ended, idx, passed, left, total)
    ensures Chained(bios) && total + left == n
    ensures bios != [] ==> idx <= |bios[0].vecs| && passed == Size(bios[0].vecs[..idx])
  {
  }

  lemma StandingNext(bios0: seq<Bio>, ended0: seq<nat>, n: nat, bios: seq<Bio>, ended: seq<nat>,
                     idx: nat, passed: nat, left: nat, total: nat)
    requires Standing(bios0, ended0, n, bios, ended, idx, passed, left, total) && bios != [] && left == 0
    ensures idx < |bios[0].vecs| && bios[0].vecs[idx].len > 0
  {
    hide Drop, EndedBy, Vecs;
    ChainedTail(bios);
    SizeHead(bios[0].vecs);
    StandingInside(bios0, ended0, n, bios, ended, idx, passed, left, total);
  }

  lemma StandingDone(bios0: seq<Bio>, ended0: seq<nat>, n: nat, bios: seq<Bio>, ended: seq<nat>,
                     idx: nat, passed: nat, left: nat, total: nat)
    requires Standing(bios0, ended0, n, bios, ended, idx, passed, left, total) && bios == []
    ensures Drop(bios0, n) == [] && ended == ended0 + EndedBy(bios0, n) && Chained([])
  {
  }

  lemma NothingLeft(lim: Limits, nr: nat, sector: nat, n: nat)
    requires LimitsOk(lim)
    ensures RequestOk(lim, [], nr, sector, 0) && Asked([]) == [] && Drop([], n) == [] && EndedBy([], n) == []
  {
    NoVecs();
  }

  /** Everything is done exactly when as many bytes are completed as there are. */
  lemma {:induction false} AllDone(bios: seq<Bio>, n: nat)
    requires Chained(bios)
    ensures Drop(bios, n) == [] <==> n >= TotalSize(bios)
    decreases |bios|
  {
    hide Size, Vecs, Chained;
    NoVecs();
    if bios != [] {
      TotalHead(bios);
      ChainedTail(bios);
      if n >= BioSize(bios[0]) {
        AllDone(bios[1..], n - BioSize(bios[0]));
      }
    }
  }

  /** What is left is never less than the first vector: the "request botched" repair is not needed. */
  lemma {:induction false} NeverBotched(bios: seq<Bio>, n: nat)
    requires Chained(bios) && n < TotalSize(bios)
    ensures var left := Drop(bios, n);
            left != [] && left[0].vecs != [] && left[0].vecs[0].len <= TotalSize(bios) - n
            && TotalSize(left) == TotalSize(bios) - n
    decreases |bios|
  {
    hide Size, Vecs, Chained, Advance;
    DropBytes(bios, n);
    AllDone(bios, n);
    var left := Drop(bios, n);
    FirstVecs(bios, n);
    TotalHead(left);
    SizeHead(left[0].vecs);
  }

  lemma {:induction false} FirstVecs(bios: seq<Bio>, n: nat)
    requires Chained(bios) && Drop(bios, n) != []
    ensures Drop(bios, n)[0].vecs != []
    decreases |bios|
  {
    hide Size, Vecs, Chained;
    if bios != [] {
      ChainedTail(bios);
      if n >= BioSize(bios[0]) {
        FirstVecs(bios[1..], n - BioSize(bios[0]));
      } else {
        DropVecsBytes(bios[0].vecs, n);
      }
    }
  }

  lemma ResizedSome(lim: Limits, bios: seq<Bio>)
    requires LimitsOk(lim) && bios != []
    ensures Resized(lim, bios) != []
  {
  }

  lemma RecountedOk(lim: Limits, bios: seq<Bio>, n: nat)
    requires LimitsOk(lim) && Chained(bios) && n < TotalSize(bios) && bios != []
    ensures Drop(bios, n) != []
    ensures n % SECTOR == 0 ==>
              var left := Drop(bios, n);
              && RequestOk(lim, Resized(lim, left), |Greedy(lim, Vecs(left), true)|, bios[0].sector + n / SECTOR,
                           TotalSize(bios) - n)
              && n <= |Asked(bios)| && Asked(Resized(lim, left)) == Asked(bios)[n..]
  {
    hide Size, Vecs, Chained, Drop, Resized, Greedy, Tracked, Asked, Cores;
    AllDone(bios, n);
    if n % SECTOR == 0 {
      var left := Drop(bios, n);
      DropBytes(bios, n);
      DropChained(bios, n);
      DropAsked(bios, n);
      ResizedCores(lim, left);
      ResizedSome(lim, left);
      CoreChained(left, Resized(lim, left));
      DataEnds(left);
      VecsEnds(left);
      RecountTracked(lim, left);
    }
  }

  /** blk_update_request, for a file system request. Completes n bytes: the bios that fall wholly within
      them end, in order; the others move on by exactly that many bytes; and the segments are counted
      again. Whole sectors keep the request valid, and the bytes left are what was asked for without the
      first n. */
  method UpdateRequest(lim: Limits, req: Request, n: nat) returns (more: bool)
    requires LimitsOk(lim) && req.Valid(lim)
    modifies req
    ensures more <==> n < old(req.dataLen)
    ensures req.bios == Piece(lim, old(req.bios), n)
    ensures req.ended == old(req.ended) + EndedBy(old(req.bios), n)
    ensures req.dataLen == if more then old(req.dataLen) - n else 0
    ensures req.sector == if more then old(req.sector) + n / SECTOR else old(req.sector)
    ensures n % SECTOR == 0 ==> req.Valid(lim)
    ensures more && Positive(Vecs(Drop(old(req.bios), n))) ==>
              WellCounted(lim, Drop(old(req.bios), n), req.nr, req.bios)
    ensures n % SECTOR == 0 && more ==> n <= |old(Asked(req.bios))| && Asked(req.bios) == old(Asked(req.bios))[n..]
    ensures !more ==> Asked(req.bios) == []
    ensures req.write == old(req.write) && req.nomerge == old(req.nomerge) && req.special == old(req.special)
  {
    hide Chained, Drop, EndedBy, Vecs, Size, Tracked, Resized, Greedy, DataBio, Cut, WellCounted;
    if req.bios == [] {
      assert req.dataLen == 0 by { NoVecs(); }
      NothingLeft(lim, req.nr, req.sector, n);
      return false;
    }
    ghost var bios0 := req.bios;
    var idx, passed, left, total := ConsumeBios(req, n);
    AllDone(bios0, n);
    if req.bios == [] {
      req.dataLen := 0;
      NothingLeft(lim, req.nr, req.sector, n);
      return false;
    }
    var bio := req.bios[0];
    if passed != 0 {
      bio := bio.(sector := bio.sector + passed / SECTOR, vecs := [Cut(bio.vecs[idx], left)] + bio.vecs[idx + 1..]);
      req.bios := req.bios[0 := bio];
    } else {
      ChainedTail(req.bios);
      CutNothing(bio, idx, left);
    }
    assert req.bios == [bio] + req.bios[1..];
    assert req.bios == Drop(bios0, n);
    req.dataLen := req.dataLen - total;
    req.sector := req.sector + total / SECTOR;
    NeverBotched(bios0, n);
    assert req.dataLen >= req.bios[0].vecs[0].len;
    var nr, bios := RecalcSegments(lim, req.bios);
    RecountedOk(lim, bios0, n);
    ResizedSome(lim, req.bios);
    req.nr, req.bios := nr, bios;
    return true;
  }

  lemma CarriesData(lim: Limits, b: Bio)
    requires LimitsOk(lim) && Carries(lim, b)
    ensures DataBio(b)
  {
  }

  /** Chains that meet: what they ask for, their sizes and their sectors. */
  lemma ConcatChain(a: seq<Bio>, b: seq<Bio>)
    requires Chained(a) && Chained(b) && a != [] && b != []
    requires b[0].sector == a[0].sector + TotalSize(a) / SECTOR
    ensures Chained(a + b) && Asked(a + b) == Asked(a) + Asked(b) && TotalSize(a + b) == TotalSize(a) + TotalSize(b)
    ensures Cores(a + b) == Cores(a) + Cores(b)
  {
    hide Asked, Vecs, Size;
    ChainIsRun(a);
    ChainedAppend(a, b);
    AskedAppend(a, b);
    VecsAppend(a, b);
    SizeAppend(Vecs(a), Vecs(b));
  }
}
