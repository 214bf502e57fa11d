/** Bios, their memory vectors, and which bytes they move. */
module Bios {

  const PAGE_SIZE := 4096
  const SECTOR := 512

  /** struct bio_vec: a page frame, an offset in it, and a length. */
  datatype Vec = Vec(page: nat, offset: nat, len: nat)

  /** struct bio: a name for it, where it starts on disk, the vectors that are left of it, and the cached segment
      counts bi_phys_segments, bi_seg_front_size and bi_seg_back_size. */
  datatype Bio = Bio(id: nat, sector: nat, vecs: seq<Vec>, segValid: bool, physSegs: nat, frontSize: nat, backSize: nat)

  /** bvec_to_phys */
  function Phys(v: Vec): nat {
    v.page * PAGE_SIZE + v.offset
  }

  /** The bytes of memory from addr on. */
  function Memory(addr: nat, len: nat): (bytes: seq<nat>)
    ensures |bytes| == len && forall i | 0 <= i < len :: bytes[i] == addr + i
  {
    seq(len, i requires 0 <= i => addr + i)
  }

  function Size(vs: seq<Vec>): nat {
    if vs == [] then 0 else Size(vs[..|vs| - 1]) + vs[|vs| - 1].len
  }

  predicate Positive(vs: seq<Vec>) {
    forall i | 0 <= i < |vs| :: vs[i].len > 0
  }

  /** The memory bytes of a list of vectors, in transfer order. */
  function Bytes(vs: seq<Vec>): (bytes: seq<nat>)
    ensures |bytes| == Size(vs)
  {
    if vs == [] then [] else Bytes(vs[..|vs| - 1]) + Memory(Phys(vs[|vs| - 1]), vs[|vs| - 1].len)
  }

  /** All vectors of a chain of bios. */
  function Vecs(bios: seq<Bio>): seq<Vec> {
    if bios == [] then [] else Vecs(bios[..|bios| - 1]) + bios[|bios| - 1].vecs
  }

  lemma {:induction false} SizeAppend(a: seq<Vec>, b: seq<Vec>)
    ensures Size(a + b) == Size(a) + Size(b)
    decreases |b|
  {
    if b == [] {
      assert a + b == a;
    } else {
      assert (a + b)[..|a + b| - 1] == a + b[..|b| - 1];
      SizeAppend(a, b[..|b| - 1]);
    }
  }

  lemma {:induction false} BytesAppend(a: seq<Vec>, b: seq<Vec>)
    ensures Bytes(a + b) == Bytes(a) + Bytes(b)
    decreases |b|
  {
    if b == [] {
      assert a + b == a;
    } else {
      assert (a + b)[..|a + b| - 1] == a + b[..|b| - 1];
      BytesAppend(a, b[..|b| - 1]);
    }
  }

  lemma {:induction false} VecsAppend(a: seq<Bio>, b: seq<Bio>)
    ensures Vecs(a + b) == Vecs(a) + Vecs(b)
    decreases |b|
  {
    if b == [] {
      assert a + b == a;
    } else {
      assert (a + b)[..|a + b| - 1] == a + b[..|b| - 1];
      VecsAppend(a, b[..|b| - 1]);
    }
  }

  lemma VecsOne(bio: Bio)
    ensures Vecs([bio]) == bio.vecs
  {
    assert [bio][..0] == [];
  }
}
