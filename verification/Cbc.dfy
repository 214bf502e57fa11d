/** crypto/cbc.c and crypto_xor of crypto/algapi.c: the four loops over buffers. Segment and in-place forms are
    proved to compute the same function, the in-place decryption going backwards. */
module Cbc {
  import opened CbcModel
  import AesGeneric

  // ---------------------------------------------------------------------------------------
  // Parts of buffers

  function Cut(s: Bytes, from: nat, size: nat): (r: Bytes)
    requires from + size <= |s|
    ensures |r| == size
  {
    s[from..from + size]
  }

  /** A buffer with a part of it overwritten. */
  function Put(s: Bytes, at: nat, block: Bytes): (r: Bytes)
    requires at + |block| <= |s|
    ensures |r| == |s|
  {
    s[..at] + block + s[at + |block|..]
  }

  lemma PutAll(s: Bytes, block: Bytes)
    requires |block| == |s|
    ensures Put(s, 0, block) == block && Cut(s, 0, |s|) == s
  {
  }

  /** Overwriting where the finished part ends. */
  lemma PutNext(out: Bytes, rest: Bytes, block: Bytes)
    requires |block| <= |rest|
    ensures Put(out + rest, |out|, block) == (out + block) + rest[|block|..]
    ensures Cut(out + rest, |out|, |block|) == rest[..|block|]
    ensures Cut(Put(out + rest, |out|, block), |out|, |block|) == block
    ensures |block| <= |out| ==> Cut(out + rest, |out| - |block|, |block|) == out[|out| - |block|..]
  {
  }

  lemma PutTwice(s: Bytes, at: nat, a: Bytes, b: Bytes)
    requires at + |a| <= |s| && |a| == |b|
    ensures Put(Put(s, at, a), at, b) == Put(s, at, b) && Cut(Put(s, at, a), at, |a|) == a
  {
  }

  /** Overwriting the end of what is still untouched. */
  lemma PutBack(head: Bytes, rest: Bytes, block: Bytes)
    requires |block| <= |head|
    ensures Put(head + rest, |head| - |block|, block) == head[..|head| - |block|] + (block + rest)
    ensures Cut(head + rest, |head| - |block|, |block|) == head[|head| - |block|..]
  {
  }

  lemma CutPrefix(s: Bytes, n: nat, from: nat, size: nat)
    requires from + size <= n <= |s|
    ensures Cut(s[..n], from, size) == Cut(s, from, size)
  {
  }

  /** The first n bytes of a part of dst0 have been mixed with those of a part of src0. */
  ghost predicate Mixed(now: Bytes, dst0: Bytes, d: nat, src0: Bytes, s: nat, n: nat) {
    && |now| == |dst0| && d + n <= |dst0| && s + n <= |src0|
    && forall j | 0 <= j < |now| :: now[j] == if d <= j < d + n then dst0[j] ^ src0[s + j - d] else dst0[j]
  }

  /** crypto_xor_byte, which also stands for the exclusive or of one word */
  method XorBytes(dst: array<bv8>, d: nat, src: array<bv8>, s: nat, size: nat)
    requires d + size <= dst.Length && s + size <= src.Length
    requires dst != src || d == s || d + size <= s || s + size <= d
    modifies dst
    ensures Mixed(dst[..], old(dst[..]), d, old(src[..]), s, size)
  {
    ghost var dst0, src0 := dst[..], src[..];
    for i := 0 to size
      invariant forall j | 0 <= j < dst.Length ::
                  dst[j] == if d <= j < d + i then dst0[j] ^ src0[s + j - d] else dst0[j]
      invariant forall j | s + i <= j < s + size :: src[j] == src0[j]
    {
      dst[d + i] := dst[d + i] ^ src[s + i];
    }
  }

  /** Mixing goes on where it stopped, with the bytes of src that are still as they were. */
  lemma MixedMore(now: Bytes, mid: Bytes, dst0: Bytes, d: nat, src1: Bytes, src0: Bytes, s: nat, i: nat, n: nat)
    requires Mixed(mid, dst0, d, src0, s, i) && Mixed(now, mid, d + i, src1, s + i, n) && |src1| == |src0|
    requires forall j | s + i <= j < s + i + n :: src1[j] == src0[j]
    ensures Mixed(now, dst0, d, src0, s, i + n)
  {
  }

  /** What is not mixed stays. */
  lemma MixedKeeps(now: Bytes, dst0: Bytes, d: nat, src0: Bytes, s: nat, n: nat, from: nat, to: nat)
    requires Mixed(now, dst0, d, src0, s, n) && to <= |now| && (d + n <= from || to <= d)
    ensures forall j | from <= j < to :: now[j] == dst0[j]
  {
  }

  /** crypto_xor: words of four bytes, then the rest; the two parts are the same or apart */
  method CryptoXor(dst: array<bv8>, d: nat, src: array<bv8>, s: nat, size: nat)
    requires d + size <= dst.Length && s + size <= src.Length
    requires dst != src || d == s || d + size <= s || s + size <= d
    modifies dst
    ensures dst[..] == Put(old(dst[..]), d, Xor(Cut(old(dst[..]), d, size), Cut(old(src[..]), s, size)))
  {
    hide Put, Cut, Xor, Mixed;
    ghost var dst0, src0 := dst[..], src[..];
    MixedNone(dst0, d, src0, s);
    var i := 0;
    while size - i >= 4
      invariant 0 <= i <= size
      invariant Mixed(dst[..], dst0, d, src0, s, i)
      invariant forall j | s + i <= j < s + size :: src[..][j] == src0[j]
    {
      XorPart(dst, d, src, s, i, 4, size, dst0, src0);
      i := i + 4;
    }
    XorPart(dst, d, src, s, i, size - i, size, dst0, src0);
    XorPut(dst[..], dst0, d, src0, s, size);
  }

  lemma MixedNone(dst0: Bytes, d: nat, src0: Bytes, s: nat)
    requires d <= |dst0| && s <= |src0|
    ensures Mixed(dst0, dst0, d, src0, s, 0)
  {
  }

  /** The next n bytes. */
  method XorPart(dst: array<bv8>, d: nat, src: array<bv8>, s: nat, i: nat, n: nat, size: nat,
                 ghost dst0: Bytes, ghost src0: Bytes)
    requires i + n <= size && d + size <= dst.Length && s + size <= src.Length && |src0| == src.Length
    requires dst != src || d == s || d + size <= s || s + size <= d
    requires Mixed(dst[..], dst0, d, src0, s, i) && forall j | s + i <= j < s + size :: src[..][j] == src0[j]
    modifies dst
    ensures Mixed(dst[..], dst0, d, src0, s, i + n)
    ensures forall j | s + i + n <= j < s + size :: src[..][j] == src0[j]
  {
    hide Mixed;
    ghost var mid, src1 := dst[..], src[..];
    XorBytes(dst, d + i, src, s + i, n);
    MixedMore(dst[..], mid, dst0, d, src1, src0, s, i, n);
    if dst == src {
      MixedKeeps(dst[..], mid, d + i, src1, s + i, n, s + i + n, s + size);
    }
  }

  lemma XorPut(now: Bytes, dst0: Bytes, d: nat, src0: Bytes, s: nat, size: nat)
    requires Mixed(now, dst0, d, src0, s, size)
    ensures now == Put(dst0, d, Xor(Cut(dst0, d, size), Cut(src0, s, size)))
  {
    var x := Xor(Cut(dst0, d, size), Cut(src0, s, size));
    assert forall k | 0 <= k < size :: x[k] == now[d + k];
    assert now[d..d + size] == x;
    assert now[..d] == dst0[..d];
    assert now[d + size..] == dst0[d + size..];
    assert now == now[..d] + now[d..d + size] + now[d + size..];
  }

  /** memcpy, and the store of a block that the cipher computed */
  method Store(dst: array<bv8>, d: nat, block: Bytes)
    requires d + |block| <= dst.Length
    modifies dst
    ensures dst[..] == Put(old(dst[..]), d, block)
  {
    ghost var dst0 := dst[..];
    for i := 0 to |block|
      invariant forall j | 0 <= j < dst.Length :: dst[j] == if d <= j < d + i then block[j - d] else dst0[j]
    {
      dst[d + i] := block[i];
    }
  }

  /** The vector for the next call is the block of src that starts at from. */
  method CopyIv(iv: array<bv8>, src: array<bv8>, from: nat)
    requires from + iv.Length <= src.Length && iv != src
    modifies iv
    ensures iv[..] == src[from..from + iv.Length]
  {
    hide Put;
    PutAll(iv[..], src[from..from + iv.Length]);
    Store(iv, 0, src[from..from + iv.Length]);
  }

  // ---------------------------------------------------------------------------------------
  // One step of each loop

  /** out is what encryption of the first at bytes gives, and chain the vector for what follows. */
  ghost predicate EncUpTo(c: Cipher, iv: Bytes, p: Bytes, out: Bytes, at: nat, chain: Bytes) {
    && Sized(c) && |iv| == |chain| == c.size && at == |out| <= |p| && Rest(at, c.size) == 0
    && Enc(c, iv, p) == out + Enc(c, chain, p[at..])
    && chain == Next(c.size, iv, out)
  }

  ghost predicate DecUpTo(c: Cipher, iv: Bytes, q: Bytes, out: Bytes, at: nat, chain: Bytes) {
    && Sized(c) && |iv| == |chain| == c.size && at == |out| <= |q| && Rest(at, c.size) == 0
    && Dec(c, iv, q) == out + Dec(c, chain, q[at..])
    && chain == Next(c.size, iv, q[..at])
  }

  lemma UpToStart(c: Cipher, iv: Bytes, p: Bytes)
    requires Sized(c) && |iv| == c.size
    ensures EncUpTo(c, iv, p, [], 0, iv) && DecUpTo(c, iv, p, [], 0, iv)
  {
    hide Enc, Dec;
    Remainder(0, c.size);
    assert p[0..] == p && p[..0] == [];
  }

  lemma EncStep(c: Cipher, iv: Bytes, p: Bytes, out: Bytes, at: nat, chain: Bytes)
    requires EncUpTo(c, iv, p, out, at, chain) && at + c.size <= |p|
    ensures var block := c.enc(Xor(chain, Cut(p, at, c.size)));
            |block| == c.size && EncUpTo(c, iv, p, out + block, at + c.size, block)
  {
    hide Enc, Xor;
    var first, rest := Cut(p, at, c.size), p[at + c.size..];
    assert p[at..] == first + rest;
    FirstEnc(c, chain, first, rest);
    var block := c.enc(Xor(chain, first));
    Assoc(out, block, Enc(c, block, rest));
    NextBlock(at, c.size);
    assert (out + block)[|out + block| - c.size..] == block;
  }

  lemma DecStep(c: Cipher, iv: Bytes, q: Bytes, out: Bytes, at: nat, chain: Bytes)
    requires DecUpTo(c, iv, q, out, at, chain) && at + c.size <= |q|
    ensures var first := Cut(q, at, c.size);
            DecUpTo(c, iv, q, out + Xor(c.dec(first), chain), at + c.size, first)
  {
    hide Dec, Xor;
    var first, rest := Cut(q, at, c.size), q[at + c.size..];
    assert q[at..] == first + rest;
    FirstDec(c, chain, first, rest);
    Assoc(out, Xor(c.dec(first), chain), Dec(c, first, rest));
    NextBlock(at, c.size);
    assert q[..at + c.size][at..] == first;
  }

  /** What is left is less than a block. */
  lemma Finish(c: Cipher, chain: Bytes, p: Bytes, at: nat)
    requires Sized(c) && |chain| == c.size && at <= |p| && |p| - at < c.size && Rest(at, c.size) == 0
    ensures Enc(c, chain, p[at..]) == [] && Dec(c, chain, p[at..]) == [] && Rest(|p|, c.size) == |p| - at
  {
    Multiple(at, |p| - at, c.size);
    Remainder(|p| - at, c.size);
  }

  lemma EncDone(c: Cipher, iv: Bytes, p: Bytes, out: Bytes, at: nat, chain: Bytes)
    requires EncUpTo(c, iv, p, out, at, chain) && |p| - at < c.size
    ensures Enc(c, iv, p) == out && Rest(|p|, c.size) == |p| - at
  {
    hide Enc;
    Finish(c, chain, p, at);
  }

  lemma DecDone(c: Cipher, iv: Bytes, q: Bytes, out: Bytes, at: nat, chain: Bytes)
    requires DecUpTo(c, iv, q, out, at, chain) && |q| - at < c.size
    ensures Dec(c, iv, q) == out && Rest(|q|, c.size) == |q| - at
  {
    hide Dec;
    Finish(c, chain, q, at);
  }

  /** After the first block, the vector is the block before. */
  lemma ChainIs(c: Cipher, iv: Bytes, text: Bytes, at: nat)
    requires Sized(c) && |iv| == c.size && Rest(at, c.size) == 0 && at <= |text|
    ensures at == 0 ==> Next(c.size, iv, text[..at]) == iv
    ensures at > 0 ==> c.size <= at && Next(c.size, iv, text[..at]) == Cut(text, at - c.size, c.size)
  {
    Remainder(at, c.size);
  }

  lemma Multiple(at: nat, r: nat, size: nat)
    requires size > 0 && Rest(at, size) == 0 && r < size
    ensures Rest(at + r, size) == r
  {
    Unique(at + r, size, at / size, r);
  }

  lemma NextBlock(at: nat, size: nat)
    requires size > 0 && Rest(at, size) == 0
    ensures Rest(at + size, size) == 0
  {
    Remainder(at + size, size);
  }

  lemma SizedIs(c: Cipher)
    requires Sized(c)
    ensures c.size > 0
  {
  }

  // ---------------------------------------------------------------------------------------
  // Encryption

  /** crypto_cbc_encrypt_segment; the walk never hands over less than a block */
  method EncryptSegment(c: Cipher, dst: array<bv8>, src: array<bv8>, iv: array<bv8>, nbytes: nat) returns (left: nat)
    requires Sized(c) && iv.Length == c.size <= nbytes <= src.Length && nbytes <= dst.Length
    requires dst != src && iv != src && iv != dst
    modifies dst, iv
    ensures left == Rest(nbytes, c.size) && left <= nbytes
    ensures dst[..] == Enc(c, old(iv[..]), old(src[..nbytes])) + old(dst[nbytes - left..])
    ensures iv[..] == Next(c.size, old(iv[..]), Enc(c, old(iv[..]), old(src[..nbytes])))
  {
    hide EncUpTo, Enc, Xor, Put, Cut, Next, Rest, Sized;
    SizedIs(c);
    ghost var iv0, p, dst0, out := iv[..], src[..nbytes], dst[..], [];
    var at := 0;
    UpToStart(c, iv0, p);
    assert dst[..] == [] + dst0[0..];
    left := nbytes;
    while left >= c.size
      invariant at + left == nbytes
      invariant EncUpTo(c, iv0, p, out, at, iv[..]) && |out| == at && dst[..] == out + dst0[at..]
    {
      EncStep(c, iv0, p, out, at, iv[..]);
      ghost var block := c.enc(Xor(iv[..], Cut(p, at, c.size)));
      CutPrefix(src[..], nbytes, at, c.size);
      PutAll(iv[..], Xor(iv[..], Cut(p, at, c.size)));
      CryptoXor(iv, 0, src, at, c.size);
      PutNext(out, dst0[at..], block);
      Store(dst, at, c.enc(iv[..]));
      PutAll(iv[..], block);
      CutIs(dst[..], at, c.size);
      Store(iv, 0, dst[at..at + c.size]);
      assert dst0[at..][c.size..] == dst0[at + c.size..];
      out, at, left := out + block, at + c.size, left - c.size;
    }
    EncDone(c, iv0, p, out, at, iv[..]);
    UpToNext(c, iv0, p, out, at, iv[..]);
  }

  /** One block of crypto_cbc_encrypt_inplace: the vector is the caller's, then the block before */
  method EncBlockInplace(c: Cipher, src: array<bv8>, iv: array<bv8>, at: nat)
    requires Sized(c) && iv.Length == c.size && iv != src && at + c.size <= src.Length && (at == 0 || c.size <= at)
    modifies src
    ensures var chain := if at == 0 then iv[..] else Cut(old(src[..]), at - c.size, c.size);
            var block := c.enc(Xor(chain, Cut(old(src[..]), at, c.size)));
            |block| == c.size && src[..] == Put(old(src[..]), at, block)
  {
    hide Enc, Xor, Put, Cut;
    ghost var chain := if at == 0 then iv[..] else Cut(src[..], at - c.size, c.size);
    ghost var here := Cut(src[..], at, c.size);
    XorComm(here, chain);
    PutTwice(src[..], at, Xor(here, chain), c.enc(Xor(chain, here)));
    if at == 0 {
      PutAll(iv[..], iv[..]);
      CryptoXor(src, at, iv, 0, c.size);
    } else {
      CryptoXor(src, at, src, at - c.size, c.size);
    }
    CutIs(src[..], at, c.size);
    Store(src, at, c.enc(src[at..at + c.size]));
  }

  /** crypto_cbc_encrypt_inplace */
  method EncryptInplace(c: Cipher, src: array<bv8>, iv: array<bv8>, nbytes: nat) returns (left: nat)
    requires Sized(c) && iv.Length == c.size <= nbytes <= src.Length && iv != src
    modifies src, iv
    ensures left == Rest(nbytes, c.size) && left <= nbytes
    ensures src[..] == Enc(c, old(iv[..]), old(src[..nbytes])) + old(src[nbytes - left..])
    ensures iv[..] == Next(c.size, old(iv[..]), Enc(c, old(iv[..]), old(src[..nbytes])))
  {
    hide Enc, Rest, Sized;
    left := EncryptForwards(c, src, iv, nbytes);
    ghost var out, at := Enc(c, iv[..], old(src[..nbytes])), nbytes - left;
    assert src[..][at - c.size..at] == out[at - c.size..];
    CopyIv(iv, src, nbytes - left - c.size);
  }

  method EncryptForwards(c: Cipher, src: array<bv8>, iv: array<bv8>, nbytes: nat) returns (left: nat)
    requires Sized(c) && iv.Length == c.size <= nbytes <= src.Length && iv != src
    modifies src
    ensures left == Rest(nbytes, c.size) && c.size <= nbytes - left
    ensures |Enc(c, iv[..], old(src[..nbytes]))| == nbytes - left
    ensures src[..] == Enc(c, iv[..], old(src[..nbytes])) + old(src[nbytes - left..])
  {
    hide EncUpTo, Enc, Xor, Put, Cut, Rest, Sized;
    SizedIs(c);
    ghost var iv0, p, src0, out, chain := iv[..], src[..nbytes], src[..], [], iv[..];
    var at := 0;
    UpToStart(c, iv0, p);
    assert src[..] == [] + src0[0..];
    left := nbytes;
    while left >= c.size
      invariant at + left == nbytes && iv[..] == iv0
      invariant EncUpTo(c, iv0, p, out, at, chain) && |out| == at && src[..] == out + src0[at..]
    {
      InplaceStep(c, iv0, src0, nbytes, out, at, chain);
      EncBlockInplace(c, src, iv, at);
      chain := c.enc(Xor(chain, Cut(p, at, c.size)));
      out, at, left := out + chain, at + c.size, left - c.size;
    }
    EncDone(c, iv0, p, out, at, chain);
    EncChain(c, iv0, p, out, at, chain);
  }

  /** What one block in place changes: the block is overwritten where the finished part ends. */
  lemma InplaceStep(c: Cipher, iv: Bytes, src0: Bytes, nbytes: nat, out: Bytes, at: nat, chain: Bytes)
    requires nbytes <= |src0| && EncUpTo(c, iv, src0[..nbytes], out, at, chain) && at + c.size <= nbytes
    ensures |chain| == c.size && |out| == at
    ensures var now, here := out + src0[at..], Cut(src0[..nbytes], at, c.size);
            var block := c.enc(Xor(chain, here));
            && Cut(now, at, c.size) == here && |block| == c.size
            && (at == 0 ==> chain == iv) && (at > 0 ==> c.size <= at && Cut(now, at - c.size, c.size) == chain)
            && Put(now, at, block) == (out + block) + src0[at + c.size..]
            && EncUpTo(c, iv, src0[..nbytes], out + block, at + c.size, block)
  {
    hide EncUpTo, Enc, Xor, Put, Cut, Next, Rest;
    var p := src0[..nbytes];
    UpToSizes(c, iv, p, out, at, chain);
    EncStep(c, iv, p, out, at, chain);
    EncChain(c, iv, p, out, at, chain);
    PutNext(out, src0[at..], c.enc(Xor(chain, Cut(p, at, c.size))));
    CutHere(src0, nbytes, at, c.size);
    assert src0[at..][c.size..] == src0[at + c.size..];
  }

  lemma UpToSizes(c: Cipher, iv: Bytes, p: Bytes, out: Bytes, at: nat, chain: Bytes)
    requires EncUpTo(c, iv, p, out, at, chain)
    ensures |chain| == c.size && |out| == at
  {
  }

  lemma CutIs(s: Bytes, from: nat, size: nat)
    requires from + size <= |s|
    ensures Cut(s, from, size) == s[from..from + size]
  {
  }

  lemma CutHere(s: Bytes, n: nat, at: nat, size: nat)
    requires at + size <= n <= |s|
    ensures s[at..][..size] == Cut(s[..n], at, size)
  {
  }

  lemma UpToNext(c: Cipher, iv: Bytes, p: Bytes, out: Bytes, at: nat, chain: Bytes)
    requires EncUpTo(c, iv, p, out, at, chain)
    ensures chain == Next(c.size, iv, out)
  {
  }

  lemma EncChain(c: Cipher, iv: Bytes, p: Bytes, out: Bytes, at: nat, chain: Bytes)
    requires EncUpTo(c, iv, p, out, at, chain)
    ensures |chain| == c.size
    ensures at == 0 ==> chain == iv
    ensures at > 0 ==> c.size <= at && chain == out[at - c.size..]
  {
    hide Enc;
    Remainder(at, c.size);
  }

  // ---------------------------------------------------------------------------------------
  // Decryption

  /** One block of crypto_cbc_decrypt_segment */
  method DecBlock(c: Cipher, dst: array<bv8>, src: array<bv8>, iv: array<bv8>, at: nat)
    requires Sized(c) && iv.Length == c.size && dst != src && iv != dst
    requires at + c.size <= src.Length && at + c.size <= dst.Length && (at == 0 || c.size <= at)
    modifies dst
    ensures var chain := if at == 0 then iv[..] else Cut(src[..], at - c.size, c.size);
            var block := c.dec(Cut(src[..], at, c.size));
            |block| == c.size && dst[..] == Put(old(dst[..]), at, Xor(block, chain))
  {
    hide Dec, Xor, Put, Cut;
    ghost var chain := if at == 0 then iv[..] else Cut(src[..], at - c.size, c.size);
    ghost var plain := c.dec(Cut(src[..], at, c.size));
    PutTwice(dst[..], at, plain, Xor(plain, chain));
    CutIs(src[..], at, c.size);
    Store(dst, at, c.dec(src[at..at + c.size]));
    if at == 0 {
      PutAll(iv[..], iv[..]);
      CryptoXor(dst, at, iv, 0, c.size);
    } else {
      CryptoXor(dst, at, src, at - c.size, c.size);
    }
  }

  /** crypto_cbc_decrypt_segment */
  method DecryptSegment(c: Cipher, dst: array<bv8>, src: array<bv8>, iv: array<bv8>, nbytes: nat) returns (left: nat)
    requires Sized(c) && iv.Length == c.size <= nbytes <= src.Length && nbytes <= dst.Length
    requires dst != src && iv != src && iv != dst
    modifies dst, iv
    ensures left == Rest(nbytes, c.size) && left <= nbytes
    ensures dst[..] == Dec(c, old(iv[..]), old(src[..nbytes])) + old(dst[nbytes - left..])
    ensures iv[..] == Next(c.size, old(iv[..]), old(src[..nbytes - left]))
  {
    hide Dec, Rest, Sized;
    left := DecryptForwards(c, dst, src, iv, nbytes);
    CopyIv(iv, src, nbytes - left - c.size);
  }

  method DecryptForwards(c: Cipher, dst: array<bv8>, src: array<bv8>, iv: array<bv8>, nbytes: nat)
    returns (left: nat)
    requires Sized(c) && iv.Length == c.size <= nbytes <= src.Length && nbytes <= dst.Length
    requires dst != src && iv != src && iv != dst
    modifies dst
    ensures left == Rest(nbytes, c.size) && c.size <= nbytes - left
    ensures dst[..] == Dec(c, iv[..], src[..nbytes]) + old(dst[nbytes - left..])
  {
    hide DecUpTo, Dec, Xor, Put, Cut, Rest, Sized;
    SizedIs(c);
    ghost var iv0, q, dst0, out, chain := iv[..], src[..nbytes], dst[..], [], iv[..];
    var at := 0;
    UpToStart(c, iv0, q);
    assert dst[..] == [] + dst0[0..];
    left := nbytes;
    while left >= c.size
      invariant at + left == nbytes && iv[..] == iv0
      invariant DecUpTo(c, iv0, q, out, at, chain) && |out| == at && dst[..] == out + dst0[at..]
    {
      SegmentStep(c, iv0, src[..], nbytes, dst0, out, at, chain);
      DecBlock(c, dst, src, iv, at);
      out := out + Xor(c.dec(Cut(q, at, c.size)), chain);
      chain := Cut(q, at, c.size);
      at, left := at + c.size, left - c.size;
    }
    DecDone(c, iv0, q, out, at, chain);
    DecChain(c, iv0, q, out, at, chain);
  }

  /** What one decrypted block changes. */
  lemma SegmentStep(c: Cipher, iv: Bytes, src0: Bytes, nbytes: nat, dst0: Bytes, out: Bytes, at: nat, chain: Bytes)
    requires nbytes <= |src0| && DecUpTo(c, iv, src0[..nbytes], out, at, chain) && at + c.size <= nbytes <= |dst0|
    ensures |chain| == c.size && |out| == at
    ensures var q := src0[..nbytes];
            var first := Cut(q, at, c.size);
            && |c.dec(first)| == c.size && Cut(src0, at, c.size) == first
            && (at == 0 ==> chain == iv) && (at > 0 ==> c.size <= at && Cut(src0, at - c.size, c.size) == chain)
            && var block := Xor(c.dec(first), chain);
               && Put(out + dst0[at..], at, block) == (out + block) + dst0[at + c.size..]
               && DecUpTo(c, iv, q, out + block, at + c.size, first)
  {
    hide Dec, Xor, Put, Cut, Next, Rest;
    var q := src0[..nbytes];
    DecStep(c, iv, q, out, at, chain);
    DecChain(c, iv, q, out, at, chain);
    CutPrefix(src0, nbytes, at, c.size);
    if at > 0 {
      CutPrefix(src0, nbytes, at - c.size, c.size);
    }
    PutNext(out, dst0[at..], Xor(c.dec(Cut(q, at, c.size)), chain));
    assert dst0[at..][c.size..] == dst0[at + c.size..];
  }

  lemma DecChain(c: Cipher, iv: Bytes, q: Bytes, out: Bytes, at: nat, chain: Bytes)
    requires DecUpTo(c, iv, q, out, at, chain)
    ensures |chain| == c.size && chain == Next(c.size, iv, q[..at])
    ensures at == 0 ==> chain == iv
    ensures at > 0 ==> c.size <= at && chain == Cut(q, at - c.size, c.size)
  {
    hide Dec;
    ChainIs(c, iv, q, at);
  }

  /** One block of crypto_cbc_decrypt_inplace, with the block before it or, at the start, the vector */
  method DecBlockInplace(c: Cipher, src: array<bv8>, iv: array<bv8>, at: nat)
    requires Sized(c) && iv.Length == c.size && iv != src && at + c.size <= src.Length && (at == 0 || c.size <= at)
    modifies src
    ensures var chain := if at == 0 then iv[..] else Cut(old(src[..]), at - c.size, c.size);
            var block := c.dec(Cut(old(src[..]), at, c.size));
            |block| == c.size && src[..] == Put(old(src[..]), at, Xor(block, chain))
  {
    hide Dec, Xor, Put, Cut;
    ghost var chain := if at == 0 then iv[..] else Cut(src[..], at - c.size, c.size);
    ghost var plain := c.dec(Cut(src[..], at, c.size));
    PutTwice(src[..], at, plain, Xor(plain, chain));
    CutIs(src[..], at, c.size);
    ghost var was := src[..];
    Store(src, at, c.dec(src[at..at + c.size]));
    if at == 0 {
      PutAll(iv[..], iv[..]);
      CryptoXor(src, at, iv, 0, c.size);
    } else {
      CutBefore(was, at, plain, c.size);
      CryptoXor(src, at, src, at - c.size, c.size);
    }
  }

  lemma CutBefore(s: Bytes, at: nat, block: Bytes, size: nat)
    requires size <= at && at + |block| <= |s|
    ensures Cut(Put(s, at, block), at - size, size) == Cut(s, at - size, size)
  {
  }

  /** Where the backward loop stands: the blocks behind at are done, those up to it untouched. */
  ghost predicate DoneBehind(c: Cipher, src0: Bytes, now: Bytes, tail: Bytes, at: nat, end: nat) {
    && Sized(c) && at + c.size <= end <= |src0|
    && now == src0[..at + c.size] + (tail + src0[end..])
    && tail == Dec(c, Cut(src0, at, c.size), src0[at + c.size..end])
  }

  lemma DoneStart(c: Cipher, src0: Bytes, at: nat, end: nat)
    requires Sized(c) && at + c.size == end <= |src0|
    ensures DoneBehind(c, src0, src0, [], at, end)
  {
    hide Dec, Cut;
    LastBlock(c, src0, at, end);
  }

  lemma DoneStep(c: Cipher, src0: Bytes, now: Bytes, tail: Bytes, at: nat, end: nat)
    requires DoneBehind(c, src0, now, tail, at, end) && c.size <= at
    ensures at + c.size <= |now| && |c.dec(Cut(now, at, c.size))| == c.size
    ensures var block := Xor(c.dec(Cut(now, at, c.size)), Cut(now, at - c.size, c.size));
            DoneBehind(c, src0, Put(now, at, block), block + tail, at - c.size, end)
  {
    hide Dec, Xor, Put, Cut;
    BackStep(c, src0, tail, at, end);
  }

  /** crypto_cbc_decrypt_inplace: from the last block to the first, each still finding the ciphertext before it */
  method DecryptInplace(c: Cipher, src: array<bv8>, iv: array<bv8>, nbytes: nat) returns (left: nat)
    requires Sized(c) && PowerOfTwo(c.size) && iv.Length == c.size <= nbytes <= src.Length && iv != src
    modifies src, iv
    ensures left == Rest(nbytes, c.size) && left <= nbytes
    ensures src[..] == Dec(c, old(iv[..]), old(src[..nbytes])) + old(src[nbytes - left..])
    ensures iv[..] == Next(c.size, old(iv[..]), old(src[..nbytes - left]))
  {
    hide Dec, Xor, Put, Cut, Next, Rest, Sized, And, PowerOfTwo;
    SizedIs(c);
    ghost var src0, iv0 := src[..], iv[..];
    WholeEnd(nbytes, c.size);
    BlockMask(nbytes, c.size);
    var at: nat := nbytes - And(nbytes, c.size - 1) - c.size;
    CutIs(src[..], at, c.size);
    var lastIv := src[at..at + c.size];
    left := DecryptBackwards(c, src, iv, nbytes, at);
    PutAll(iv[..], lastIv);
    Store(iv, 0, lastIv);
    LastIv(c, iv0, src0, at + c.size);
  }

  /** The loop, and the last step with the caller's vector */
  method DecryptBackwards(c: Cipher, src: array<bv8>, iv: array<bv8>, nbytes: nat, start: nat) returns (left: nat)
    requires Sized(c) && iv.Length == c.size <= nbytes <= src.Length && iv != src
    requires start + c.size == nbytes - Rest(nbytes, c.size) && Rest(start, c.size) == 0
    modifies src
    ensures left == Rest(nbytes, c.size)
    ensures src[..] == Dec(c, iv[..], old(src[..nbytes])) + old(src[start + c.size..])
  {
    hide DoneBehind, Dec, Xor, Put, Cut, Rest, Sized;
    SizedIs(c);
    ghost var src0, end, tail: Bytes := src[..], start + c.size, [];
    var at: nat := start;
    left := nbytes;
    DoneStart(c, src0, at, end);
    while left - c.size >= c.size
      invariant at + c.size <= end && Rest(at, c.size) == 0 && left == at + c.size + Rest(nbytes, c.size)
      invariant DoneBehind(c, src0, src[..], tail, at, end)
    {
      BackOne(at, nbytes, c.size);
      DoneStep(c, src0, src[..], tail, at, end);
      tail := Xor(c.dec(Cut(src[..], at, c.size)), Cut(src[..], at - c.size, c.size)) + tail;
      DecBlockInplace(c, src, iv, at);
      left, at := left - c.size, at - c.size;
    }
    AtFirst(at, nbytes, left, c.size);
    DoneLast(c, iv[..], src0, src[..], nbytes, tail, end);
    DecBlockInplace(c, src, iv, at);
    left := left - c.size;
  }

  lemma DoneLast(c: Cipher, iv: Bytes, src0: Bytes, now: Bytes, nbytes: nat, tail: Bytes, end: nat)
    requires DoneBehind(c, src0, now, tail, 0, end) && |iv| == c.size
    requires end == nbytes - Rest(nbytes, c.size) && nbytes <= |src0| && c.size <= nbytes
    ensures c.size <= |now| && |c.dec(Cut(now, 0, c.size))| == c.size
    ensures Put(now, 0, Xor(c.dec(Cut(now, 0, c.size)), iv)) == Dec(c, iv, src0[..nbytes]) + src0[end..]
  {
    hide Dec, Xor, Put, Cut, Rest;
    WholeEnd(nbytes, c.size);
    FrontStep(c, iv, src0, nbytes, tail, end);
  }

  lemma HeadCuts(s: Bytes, rest: Bytes, at: nat, size: nat)
    requires at + size <= |s|
    ensures Cut(s[..at + size] + rest, at, size) == Cut(s, at, size) && s[..at + size][..at] == s[..at]
    ensures size <= at ==> Cut(s[..at + size] + rest, at - size, size) == Cut(s, at - size, size)
  {
  }

  /** What one block from the back changes: the finished part grows at its front. */
  lemma BackStep(c: Cipher, src0: Bytes, tail: Bytes, at: nat, end: nat)
    requires Sized(c) && c.size <= at && at + c.size <= end <= |src0|
    requires tail == Dec(c, Cut(src0, at, c.size), src0[at + c.size..end])
    ensures var now, before := src0[..at + c.size] + (tail + src0[end..]), Cut(src0, at - c.size, c.size);
            var block := Xor(c.dec(Cut(src0, at, c.size)), before);
            && Cut(now, at, c.size) == Cut(src0, at, c.size) && Cut(now, at - c.size, c.size) == before
            && Put(now, at, block) == src0[..at] + ((block + tail) + src0[end..])
            && block + tail == Dec(c, before, src0[at..end])
  {
    hide Dec, Xor, Put, Cut;
    var block := Xor(c.dec(Cut(src0, at, c.size)), Cut(src0, at - c.size, c.size));
    DecBack(c, src0, at, end);
    PutBack(src0[..at + c.size], tail + src0[end..], block);
    HeadCuts(src0, tail + src0[end..], at, c.size);
    Assoc(block, tail, src0[end..]);
  }

  /** The last block from the back is the first one, and completes the message. */
  lemma FrontStep(c: Cipher, iv: Bytes, src0: Bytes, nbytes: nat, tail: Bytes, end: nat)
    requires Sized(c) && |iv| == c.size <= end <= nbytes <= |src0| && nbytes - end < c.size && Rest(end, c.size) == 0
    requires tail == Dec(c, Cut(src0, 0, c.size), src0[c.size..end])
    ensures var now, first := src0[..c.size] + (tail + src0[end..]), Cut(src0, 0, c.size);
            && Cut(now, 0, c.size) == first && |c.dec(first)| == c.size
            && Put(now, 0, Xor(c.dec(first), iv)) == Dec(c, iv, src0[..nbytes]) + src0[end..]
  {
    hide Dec, Xor, Put, Cut, Rest;
    var block := Xor(c.dec(Cut(src0, 0, c.size)), iv);
    PutBack(src0[..c.size], tail + src0[end..], block);
    HeadCuts(src0, tail + src0[end..], 0, c.size);
    Assoc(block, tail, src0[end..]);
    DecWhole(c, iv, src0, nbytes, end);
    assert src0[..c.size][..0] == [];
    assert [] + (block + (tail + src0[end..])) == block + (tail + src0[end..]);
  }

  /** The blocks decrypted from the back are the decryption of the message. */
  lemma DecWhole(c: Cipher, iv: Bytes, s: Bytes, nbytes: nat, end: nat)
    requires Sized(c) && |iv| == c.size <= end <= nbytes <= |s| && nbytes - end < c.size && Rest(end, c.size) == 0
    ensures Dec(c, iv, s[..nbytes])
            == Xor(c.dec(Cut(s, 0, c.size)), iv) + Dec(c, Cut(s, 0, c.size), s[c.size..end])
  {
    hide Dec, Xor;
    TailIgnored(c, iv, s[..nbytes], end);
    assert s[..nbytes][..end] == Cut(s, 0, c.size) + s[c.size..end];
    FirstDec(c, iv, Cut(s, 0, c.size), s[c.size..end]);
  }

  lemma LastIv(c: Cipher, iv: Bytes, s: Bytes, end: nat)
    requires Sized(c) && |iv| == c.size <= end <= |s|
    ensures Next(c.size, iv, s[..end]) == Cut(s, end - c.size, c.size)
  {
  }

  // ---------------------------------------------------------------------------------------
  // The remainder as a mask

  /** Bitwise and of two numbers. */
  function And(a: nat, b: nat): nat {
    if a == 0 || b == 0 then 0
    else (if a % 2 == 1 && b % 2 == 1 then 1 else 0) + 2 * And(a / 2, b / 2)
  }

  function Pow2(k: nat): (p: nat)
    ensures p > 0
  {
    if k == 0 then 1 else 2 * Pow2(k - 1)
  }

  /** is_power_of_2, which crypto_cbc_alloc demands of the block size */
  ghost predicate PowerOfTwo(n: nat) { exists k :: n == Pow2(k) }

  /** For a power of two the low bits are the remainder. */
  lemma {:induction false} MaskIsRest(n: nat, k: nat)
    ensures And(n, Pow2(k) - 1) == Rest(n, Pow2(k))
    decreases k
  {
    if k == 0 {
      Unique(n, 1, n, 0);
    } else {
      var half := Pow2(k - 1);
      MaskIsRest(n / 2, k - 1);
      LowBit(n, half);
      assert (2 * half - 1) % 2 == 1 && (2 * half - 1) / 2 == half - 1;
      if n == 0 || half == 1 {
        Unique(0, half, 0, 0);
      }
    }
  }

  lemma LowBit(n: nat, half: nat)
    requires half > 0
    ensures Rest(n, 2 * half) == n % 2 + 2 * Rest(n / 2, half)
  {
    var q, r := n / 2 / half, Rest(n / 2, half);
    assert n / 2 == q * half + r;
    assert n == 2 * (n / 2) + n % 2;
    assert n == q * (2 * half) + (2 * r + n % 2);
    Unique(n, 2 * half, q, 2 * r + n % 2);
  }

  lemma BlockMask(n: nat, size: nat)
    requires PowerOfTwo(size)
    ensures size > 0 && And(n, size - 1) == Rest(n, size)
  {
    var k :| size == Pow2(k);
    MaskIsRest(n, k);
  }

  lemma WholeEnd(nbytes: nat, size: nat)
    requires 0 < size <= nbytes
    ensures Rest(nbytes, size) < size && Rest(nbytes, size) <= nbytes - size
    ensures Rest(nbytes - Rest(nbytes, size) - size, size) == 0 && Rest(nbytes - Rest(nbytes, size), size) == 0
  {
    var k := nbytes / size;
    assert nbytes - Rest(nbytes, size) == k * size;
    AtLeast(k, size);
    Unique(k * size, size, k, 0);
    Remainder(k * size, size);
  }

  lemma LastBlock(c: Cipher, q: Bytes, at: nat, end: nat)
    requires Sized(c) && at + c.size == end <= |q|
    ensures q[at + c.size..end] == [] == Dec(c, Cut(q, at, c.size), q[at + c.size..end])
    ensures q == q[..end] + ([] + q[end..])
  {
  }

  lemma BackOne(at: nat, nbytes: nat, size: nat)
    requires size > 0 && Rest(at, size) == 0 && at + Rest(nbytes, size) >= size
    ensures at >= size && Rest(at - size, size) == 0
  {
    Remainder(at, size);
  }

  lemma AtFirst(at: nat, nbytes: nat, left: nat, size: nat)
    requires size > 0 && Rest(at, size) == 0 && left == at + size + Rest(nbytes, size) && left - size < size
    ensures at == 0
  {
    Remainder(at, size);
  }

  lemma DecBack(c: Cipher, q: Bytes, at: nat, end: nat)
    requires Sized(c) && c.size <= at && at + c.size <= end <= |q|
    ensures Dec(c, Cut(q, at - c.size, c.size), q[at..end])
            == Xor(c.dec(Cut(q, at, c.size)), Cut(q, at - c.size, c.size))
               + Dec(c, Cut(q, at, c.size), q[at + c.size..end])
  {
    hide Dec, Xor;
    FirstDec(c, Cut(q, at - c.size, c.size), Cut(q, at, c.size), q[at + c.size..end]);
    assert q[at..end] == Cut(q, at, c.size) + q[at + c.size..end];
  }

  lemma TailIgnored(c: Cipher, iv: Bytes, q: Bytes, end: nat)
    requires Sized(c) && |iv| == c.size && end <= |q| && |q| - end < c.size && Rest(end, c.size) == 0
    ensures Dec(c, iv, q) == Dec(c, iv, q[..end])
  {
    hide Dec;
    assert q == q[..end] + q[end..];
    DecSplit(c, iv, q[..end], q[end..]);
    Finish(c, Next(c.size, iv, q[..end]), q, end);
  }

  // ---------------------------------------------------------------------------------------
  // CBC over AES

  /** AES with a key, as a block cipher. */
  function AesWith(key: Bytes): Cipher
    requires AesGeneric.KeySize(|key|)
  {
    Cipher(16, b => if |b| == 16 then AesGeneric.AesCipherOf(key, b) else b,
           b => if |b| == 16 then AesGeneric.AesInverseOf(key, b) else b)
  }

  /** For every AES key, vector and message of whole blocks, CBC decryption returns the message, however the
      ciphertext is cut into pieces of whole blocks. */
  lemma CbcAesInverts(key: Bytes, c: Cipher, iv: Bytes, p: Bytes, pieces: seq<Bytes>)
    requires AesGeneric.KeySize(|key|) && c == AesWith(key) && |iv| == c.size && Rest(|p|, c.size) == 0
    requires Sized(c) && Aligned(c, pieces) && Flat(pieces) == Enc(c, iv, p)
    ensures DecPieces(c, iv, pieces) == p
  {
    hide Enc, Dec, Xor, DecPieces, Flat, AesWith, Aligned;
    AesInvertible(key);
    DecInverts(c, iv, p);
    PiecesAgree(c, iv, pieces);
    assert p[..|p|] == p;
  }

  lemma AesInvertible(key: Bytes)
    requires AesGeneric.KeySize(|key|)
    ensures Invertible(AesWith(key))
  {
    hide AesGeneric.AesCipherOf, AesGeneric.AesInverseOf;
    var c := AesWith(key);
    forall x: Bytes | |x| == 16
      ensures c.dec(c.enc(x)) == x
    {
      AesGeneric.AesInverts(key, x);
    }
  }
}
