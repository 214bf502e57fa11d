/** Cipher block chaining, section 6.2 of NIST SP 800-38A, over any invertible block cipher. */
module CbcModel {

  type Bytes = seq<bv8>

  /** A block cipher with its key set. */
  datatype Cipher = Cipher(size: nat, enc: Bytes -> Bytes, dec: Bytes -> Bytes)

  ghost predicate Sized(c: Cipher) {
    && c.size > 0
    && (forall x | |x| == c.size :: |c.enc(x)| == c.size)
    && (forall x | |x| == c.size :: |c.dec(x)| == c.size)
  }

  ghost predicate Invertible(c: Cipher) {
    Sized(c) && forall x | |x| == c.size :: c.dec(c.enc(x)) == x
  }

  function Xor(a: Bytes, b: Bytes): (r: Bytes)
    requires |a| == |b|
    ensures |r| == |a|
  {
    seq(|a|, i requires 0 <= i < |a| => a[i] ^ b[i])
  }

  lemma XorComm(a: Bytes, b: Bytes)
    requires |a| == |b|
    ensures Xor(a, b) == Xor(b, a)
  {
  }

  lemma XorTwice(a: Bytes, b: Bytes)
    requires |a| == |b|
    ensures Xor(Xor(a, b), b) == a
  {
  }

  /** What is left of a length after whole blocks. */
  function Rest(n: int, size: nat): (r: nat)
    requires size > 0
    ensures r < size
  {
    n % size
  }

  /** The whole blocks of a message, encrypted. */
  ghost function Enc(c: Cipher, iv: Bytes, p: Bytes): (r: Bytes)
    requires Sized(c) && |iv| == c.size
    ensures |r| == |p| - Rest(|p|, c.size)
    decreases |p|
  {
    Remainder(|p|, c.size);
    if |p| < c.size then []
    else
      var block := c.enc(Xor(iv, p[..c.size]));
      block + Enc(c, block, p[c.size..])
  }

  /** The whole blocks of a message, decrypted. */
  ghost function Dec(c: Cipher, iv: Bytes, q: Bytes): (r: Bytes)
    requires Sized(c) && |iv| == c.size
    ensures |r| == |q| - Rest(|q|, c.size)
    decreases |q|
  {
    Remainder(|q|, c.size);
    if |q| < c.size then [] else Xor(c.dec(q[..c.size]), iv) + Dec(c, q[..c.size], q[c.size..])
  }

  /** The vector for what follows: the last block of ciphertext. */
  function Next(size: nat, iv: Bytes, cipherText: Bytes): (r: Bytes)
    requires |iv| == size
    ensures |r| == size
  {
    if |cipherText| < size then iv else cipherText[|cipherText| - size..]
  }

  lemma Remainder(n: nat, size: nat)
    requires size > 0
    ensures n < size ==> Rest(n, size) == n
    ensures n >= size ==> Rest(n - size, size) == Rest(n, size)
    ensures Rest(n, size) <= n
  {
    if n >= size {
      Less(n, size);
    }
  }

  lemma Less(n: nat, size: nat)
    requires 0 < size <= n
    ensures Rest(n - size, size) == Rest(n, size)
  {
    var k, r := n / size, Rest(n, size);
    assert n - size == (k - 1) * size + r;
    Unique(n - size, size, k - 1, r);
  }

  lemma Unique(n: int, size: nat, k: int, r: int)
    requires size > 0 && n == k * size + r && 0 <= r < size
    ensures Rest(n, size) == r && n / size == k
  {
    var k', r' := n / size, Rest(n, size);
    assert n == k' * size + r';
    if k' < k {
      assert (k - k') * size >= size by { AtLeast(k - k', size); }
      assert false;
    } else if k' > k {
      assert (k' - k) * size >= size by { AtLeast(k' - k, size); }
      assert false;
    }
  }

  lemma AtLeast(d: int, size: nat)
    requires d >= 1
    ensures d * size >= size
  {
    assert d * size == size + (d - 1) * size;
  }

  // ---------------------------------------------------------------------------------------

  lemma FirstEnc(c: Cipher, iv: Bytes, first: Bytes, rest: Bytes)
    requires Sized(c) && |iv| == c.size && |first| == c.size
    ensures var block := c.enc(Xor(iv, first)); Enc(c, iv, first + rest) == block + Enc(c, block, rest)
  {
    hide Xor;
    var p := first + rest;
    assert p[..c.size] == first && p[c.size..] == rest;
  }

  lemma FirstDec(c: Cipher, iv: Bytes, first: Bytes, rest: Bytes)
    requires Sized(c) && |iv| == c.size && |first| == c.size
    ensures Dec(c, iv, first + rest) == Xor(c.dec(first), iv) + Dec(c, first, rest)
  {
    hide Xor;
    var q := first + rest;
    assert q[..c.size] == first && q[c.size..] == rest;
  }

  /** A message that has a block is that block and the rest. */
  lemma Split(p: Bytes, size: nat)
    requires 0 < size <= |p|
    ensures p == p[..size] + p[size..] && |p[..size]| == size && Rest(|p[size..]|, size) == Rest(|p|, size)
    ensures Rest(|p|, size) <= |p| - size
    ensures p[..size] + p[size..][..|p| - size - Rest(|p|, size)] == p[..|p| - Rest(|p|, size)]
  {
    Remainder(|p|, size);
    Remainder(|p| - size, size);
  }

  /** Decryption undoes encryption, whatever the length. */
  lemma {:induction false} DecInverts(c: Cipher, iv: Bytes, p: Bytes)
    requires Invertible(c) && |iv| == c.size
    ensures Rest(|p|, c.size) <= |p| && Dec(c, iv, Enc(c, iv, p)) == p[..|p| - Rest(|p|, c.size)]
    decreases |p|
  {
    hide Xor, Enc, Dec, Rest, Sized;
    if |p| < c.size {
      ShortMessage(c, iv, p);
    } else {
      BlockInverts(c, iv, p[..c.size]);
      Split(p, c.size);
      var first, rest := p[..c.size], p[c.size..];
      var block := c.enc(Xor(iv, first));
      FirstEnc(c, iv, first, rest);
      FirstDec(c, iv, block, Enc(c, block, rest));
      DecInverts(c, block, rest);
    }
  }

  lemma ShortMessage(c: Cipher, iv: Bytes, p: Bytes)
    requires Sized(c) && |iv| == c.size && |p| < c.size
    ensures Rest(|p|, c.size) == |p| && Enc(c, iv, p) == [] && Dec(c, iv, []) == [] == p[..0]
  {
    Remainder(|p|, c.size);
  }

  lemma BlockInverts(c: Cipher, iv: Bytes, first: Bytes)
    requires Invertible(c) && |iv| == |first| == c.size
    ensures c.size > 0
    ensures var block := c.enc(Xor(iv, first)); |block| == |c.dec(block)| == c.size && Xor(c.dec(block), iv) == first
  {
    hide Xor;
    XorComm(iv, first);
    XorTwice(first, iv);
  }

  lemma EmptyFirst(c: Cipher, iv: Bytes, p: Bytes, q: Bytes)
    requires Sized(c) && |iv| == c.size && Rest(|p|, c.size) == 0 && |p| < c.size
    ensures p == [] && p + q == q && Enc(c, iv, p) == [] && Dec(c, iv, p) == []
    ensures Next(c.size, iv, Enc(c, iv, p)) == iv && Next(c.size, iv, p) == iv
  {
    Remainder(|p|, c.size);
  }

  lemma Assoc(a: Bytes, b: Bytes, c: Bytes)
    ensures a + (b + c) == (a + b) + c
  {
  }

  /** A message whose first part is whole blocks can be encrypted in two parts, the second with the vector that
      the first leaves. */
  lemma {:induction false} EncSplit(c: Cipher, iv: Bytes, p: Bytes, q: Bytes)
    requires Sized(c) && |iv| == c.size && Rest(|p|, c.size) == 0
    ensures Enc(c, iv, p + q) == Enc(c, iv, p) + Enc(c, Next(c.size, iv, Enc(c, iv, p)), q)
    decreases |p|
  {
    hide Xor, Enc, Dec, Next;
    if |p| < c.size {
      EmptyFirst(c, iv, p, q);
    } else {
      Split(p, c.size);
      var first, rest := p[..c.size], p[c.size..];
      var block := c.enc(Xor(iv, first));
      FirstEnc(c, iv, first, rest);
      Assoc(first, rest, q);
      FirstEnc(c, iv, first, rest + q);
      EncSplit(c, block, rest, q);
      WholeBlocks(c, block, rest);
      NextAfter(c.size, iv, block, Enc(c, block, rest));
      Assoc(block, Enc(c, block, rest), Enc(c, Next(c.size, block, Enc(c, block, rest)), q));
    }
  }

  lemma WholeBlocks(c: Cipher, iv: Bytes, p: Bytes)
    requires Sized(c) && |iv| == c.size && Rest(|p|, c.size) == 0
    ensures Rest(|Enc(c, iv, p)|, c.size) == 0
  {
    hide Enc;
  }

  lemma NextAfter(size: nat, iv: Bytes, block: Bytes, tail: Bytes)
    requires |iv| == size && |block| == size > 0 && Rest(|tail|, size) == 0
    ensures Next(size, iv, block + tail) == Next(size, block, tail)
  {
    Remainder(|tail|, size);
    if |tail| < size {
      assert tail == [];
      assert (block + tail)[|block + tail| - size..] == block;
    } else {
      assert (block + tail)[|block + tail| - size..] == tail[|tail| - size..];
    }
  }

  lemma {:induction false} DecSplit(c: Cipher, iv: Bytes, p: Bytes, q: Bytes)
    requires Sized(c) && |iv| == c.size && Rest(|p|, c.size) == 0
    ensures Dec(c, iv, p + q) == Dec(c, iv, p) + Dec(c, Next(c.size, iv, p), q)
    decreases |p|
  {
    hide Xor, Enc, Dec, Next;
    if |p| < c.size {
      EmptyFirst(c, iv, p, q);
    } else {
      Split(p, c.size);
      var first, rest := p[..c.size], p[c.size..];
      FirstDec(c, iv, first, rest);
      Assoc(first, rest, q);
      FirstDec(c, iv, first, rest + q);
      DecSplit(c, first, rest, q);
      NextAfter(c.size, iv, first, rest);
      Assoc(Xor(c.dec(first), iv), Dec(c, first, rest), Dec(c, Next(c.size, first, rest), q));
    }
  }

  // ---------------------------------------------------------------------------------------
  // Any number of pieces

  function Flat(pieces: seq<Bytes>): Bytes { if pieces == [] then [] else pieces[0] + Flat(pieces[1..]) }

  /** Piece by piece, each with the vector the one before it left. */
  ghost function EncPieces(c: Cipher, iv: Bytes, pieces: seq<Bytes>): Bytes
    requires Sized(c) && |iv| == c.size
    decreases |pieces|
  {
    if pieces == [] then []
    else
      var r := Enc(c, iv, pieces[0]);
      r + EncPieces(c, Next(c.size, iv, r), pieces[1..])
  }

  ghost function DecPieces(c: Cipher, iv: Bytes, pieces: seq<Bytes>): Bytes
    requires Sized(c) && |iv| == c.size
    decreases |pieces|
  {
    if pieces == [] then []
    else Dec(c, iv, pieces[0]) + DecPieces(c, Next(c.size, iv, pieces[0]), pieces[1..])
  }

  ghost predicate Aligned(c: Cipher, pieces: seq<Bytes>)
    requires c.size > 0
  {
    forall i | 0 <= i < |pieces| :: Rest(|pieces[i]|, c.size) == 0
  }

  /** How a message is cut into pieces does not matter. */
  lemma {:induction false} PiecesAgree(c: Cipher, iv: Bytes, pieces: seq<Bytes>)
    requires Sized(c) && |iv| == c.size && Aligned(c, pieces)
    ensures EncPieces(c, iv, pieces) == Enc(c, iv, Flat(pieces))
    ensures DecPieces(c, iv, pieces) == Dec(c, iv, Flat(pieces))
    decreases |pieces|
  {
    Remainder(0, c.size);
    if pieces != [] {
      hide Xor, Enc, Dec, Next;
      var p := pieces[0];
      assert Rest(|p|, c.size) == 0;
      PiecesAgree(c, Next(c.size, iv, Enc(c, iv, p)), pieces[1..]);
      PiecesAgree(c, Next(c.size, iv, p), pieces[1..]);
      EncSplit(c, iv, p, Flat(pieces[1..]));
      DecSplit(c, iv, p, Flat(pieces[1..]));
    }
  }

  // ---------------------------------------------------------------------------------------
  // Block by block

  /** Block by block, as the standard has it: each block of ciphertext is the cipher of the block of plaintext combined
      with the block of ciphertext before it, or with the vector. */
  lemma {:induction false} EncBlock(c: Cipher, iv: Bytes, p: Bytes, at: nat)
    requires Sized(c) && |iv| == c.size && at + c.size <= |p| && Rest(at, c.size) == 0
    ensures at + c.size <= |Enc(c, iv, p)|
    ensures var e := Enc(c, iv, p);
            (at > 0 ==> c.size <= at)
            && e[at..at + c.size] == c.enc(Xor(if at == 0 then iv else e[at - c.size..at], p[at..at + c.size]))
    decreases |p|
  {
    hide Xor, Rest;
    var e := Enc(c, iv, p);
    var block := c.enc(Xor(iv, p[..c.size]));
    Remainder(at, c.size);
    Remainder(|p|, c.size);
    assert p[0..c.size] == p[..c.size];
    if at > 0 {
      var rest := Enc(c, block, p[c.size..]);
      EncBlock(c, block, p[c.size..], at - c.size);
      assert p == p[..c.size] + p[c.size..];
      SliceBehind(p[..c.size], p[c.size..], at, at + c.size);
      SliceBehind(block, rest, at, at + c.size);
      Remainder(at - c.size, c.size);
      if at == c.size {
        assert e[at - c.size..at] == block;
      } else {
        SliceBehind(block, rest, at - c.size, at);
      }
    }
  }

  lemma SliceBehind(a: Bytes, b: Bytes, at: nat, end: nat)
    requires |a| <= at <= end <= |a| + |b|
    ensures (a + b)[at..end] == b[at - |a|..end - |a|]
  {
  }

  lemma DecStep(c: Cipher, iv: Bytes, q: Bytes)
    requires Sized(c) && |iv| == c.size && c.size <= |q|
    ensures |Xor(c.dec(q[..c.size]), iv)| == c.size
    ensures Dec(c, iv, q) == Xor(c.dec(q[..c.size]), iv) + Dec(c, q[..c.size], q[c.size..])
  {
  }

  /** And each block of plaintext is the inverse cipher of the block of ciphertext, combined with the one before it. */
  lemma {:induction false} DecBlock(c: Cipher, iv: Bytes, q: Bytes, at: nat)
    requires Sized(c) && |iv| == c.size && at + c.size <= |q| && Rest(at, c.size) == 0
    ensures at + c.size <= |Dec(c, iv, q)| && (at > 0 ==> c.size <= at)
    ensures Dec(c, iv, q)[at..at + c.size] == Xor(c.dec(q[at..at + c.size]), if at == 0 then iv else q[at - c.size..at])
    decreases |q|
  {
    hide Xor, Rest, Dec;
    Remainder(at, c.size);
    Remainder(|q|, c.size);
    DecStep(c, iv, q);
    if at == 0 {
      assert q[0..c.size] == q[..c.size];
    } else {
      var first, rest := q[..c.size], q[c.size..];
      assert q == first + rest;
      DecBlock(c, first, rest, at - c.size);
      SliceBehind(Xor(c.dec(first), iv), Dec(c, first, rest), at, at + c.size);
      SliceBehind(first, rest, at, at + c.size);
      if at > c.size {
        Remainder(at - c.size, c.size);
        SliceBehind(first, rest, at - c.size, at);
      } else {
        assert first == q[at - c.size..at];
      }
    }
  }

  /** Combining is exclusive or, byte by byte. */
  lemma XorAt(a: Bytes, b: Bytes, i: nat)
    requires |a| == |b| && i < |a|
    ensures Xor(a, b)[i] == a[i] ^ b[i]
  {
  }
}
