/** crypto/aes_generic.c: the context that holds the two key schedules. Key expansion, encryption and
    decryption are proved against FIPS-197, and decryption undoes encryption for every key and block. */
module AesGeneric {
  import opened AesField
  import opened AesCipher
  import opened Aes

  const EINVAL := 22
  const MAX_KEYLENGTH_U32 := 60

  predicate KeySize(n: int) { n == 16 || n == 24 || n == 32 }

  /** The number of rounds, Nr. */
  function Rounds(keyLength: nat): nat { keyLength / 4 + 6 }

  // ---------------------------------------------------------------------------------------
  // Bytes and words

  /** le32_to_cpu of word i */
  function Load(s: seq<bv8>, i: nat): bv32
    requires 4 * i + 4 <= |s|
  {
    Pack(Col(s[4 * i], s[4 * i + 1], s[4 * i + 2], s[4 * i + 3]))
  }

  function LoadWords(s: seq<bv8>): Words
    requires |s| == 16
  {
    Words(Load(s, 0), Load(s, 1), Load(s, 2), Load(s, 3))
  }

  /** A block as a state, section 3.4 of FIPS-197. */
  function BlockState(s: seq<bv8>): State
    requires |s| == 16
  {
    State(Col(s[0], s[1], s[2], s[3]), Col(s[4], s[5], s[6], s[7]),
          Col(s[8], s[9], s[10], s[11]), Col(s[12], s[13], s[14], s[15]))
  }

  function ColBytes(c: Col): (s: seq<bv8>)
    ensures |s| == 4
  {
    [c.b0, c.b1, c.b2, c.b3]
  }

  function StateBytes(s: State): (r: seq<bv8>)
    ensures |r| == 16
  {
    ColBytes(s.c0) + ColBytes(s.c1) + ColBytes(s.c2) + ColBytes(s.c3)
  }

  function KeyWords(key: seq<bv8>): (w: seq<bv32>)
    requires KeySize(|key|)
    ensures |w| == |key| / 4
  {
    seq(|key| / 4, i requires 0 <= i < |key| / 4 => Load(key, i))
  }

  lemma LoadIsBlock(s: seq<bv8>)
    requires |s| == 16
    ensures StateOf(LoadWords(s)) == BlockState(s)
  {
    hide Pack, Unpack;
    UnpackPack(Col(s[0], s[1], s[2], s[3]));
    UnpackPack(Col(s[4], s[5], s[6], s[7]));
    UnpackPack(Col(s[8], s[9], s[10], s[11]));
    UnpackPack(Col(s[12], s[13], s[14], s[15]));
  }

  lemma BytesAreBlock(s: State, b: seq<bv8>)
    requires |b| == 16
    ensures BlockState(StateBytes(s)) == s
    ensures StateBytes(BlockState(b)) == b
  {
  }

  // ---------------------------------------------------------------------------------------
  // Round keys

  function RoundKey(ks: seq<bv32>, r: nat): Words
    requires 4 * r + 4 <= |ks|
  {
    Words(ks[4 * r], ks[4 * r + 1], ks[4 * r + 2], ks[4 * r + 3])
  }

  function RoundKeys(ks: seq<bv32>, n: nat): (w: seq<State>)
    requires 4 * n <= |ks|
    ensures |w| == n
  {
    seq(n, r requires 0 <= r < n => StateOf(RoundKey(ks, r)))
  }

  /** The round keys of a key, section 5.2 of FIPS-197. */
  function EncKeys(key: seq<bv8>): (w: seq<State>)
    requires KeySize(|key|)
    ensures |w| == Rounds(|key|) + 1
  {
    var n := Rounds(|key|) + 1;
    RoundKeys(KeySchedule(KeyWords(key), 4 * n), n)
  }

  /** The round keys of the Equivalent Inverse Cipher, section 5.3.5 of FIPS-197. */
  function InverseSchedule(w: seq<State>): (dw: seq<State>)
    requires |w| >= 2
    ensures IsInverseSchedule(w, dw)
  {
    seq(|w|, i requires 0 <= i < |w| =>
      if i == 0 || i == |w| - 1 then w[|w| - 1 - i] else InvMixColumns(w[|w| - 1 - i]))
  }

  /** What encryption and decryption of a block are to compute. */
  function AesCipherOf(key: seq<bv8>, block: seq<bv8>): (r: seq<bv8>)
    requires KeySize(|key|) && |block| == 16
    ensures |r| == 16
  {
    StateBytes(Cipher(BlockState(block), EncKeys(key)))
  }

  function AesInverseOf(key: seq<bv8>, block: seq<bv8>): (r: seq<bv8>)
    requires KeySize(|key|) && |block| == 16
    ensures |r| == 16
  {
    StateBytes(EqInvCipher(BlockState(block), InverseSchedule(EncKeys(key))))
  }

  /** Decryption undoes encryption, for every key of the three sizes and every block. */
  lemma AesInverts(key: seq<bv8>, block: seq<bv8>)
    requires KeySize(|key|) && |block| == 16
    ensures AesInverseOf(key, AesCipherOf(key, block)) == block
  {
    hide Cipher, EqInvCipher, EncKeys, InverseSchedule, StateBytes, BlockState, IsInverseSchedule;
    var w := EncKeys(key);
    BytesAreBlock(Cipher(BlockState(block), w), block);
    EqInvCipherInverts(BlockState(block), w, InverseSchedule(w));
  }

  // ---------------------------------------------------------------------------------------
  // Steps of the rounds

  lemma EncStep(b: Words, block: State, ks: seq<bv32>, n: nat, r: nat)
    requires 1 <= r < n && 4 * n <= |ks|
    requires StateOf(b) == CipherRounds(block, RoundKeys(ks, n), r - 1)
    ensures StateOf(FNround(b, RoundKey(ks, r))) == CipherRounds(block, RoundKeys(ks, n), r)
  {
    hide FNround, AddRoundKey, MixColumns, ShiftRows, SubBytes, StateOf;
    FNroundIsRound(b, RoundKey(ks, r));
  }

  lemma DecStep(b: Words, block: State, ks: seq<bv32>, n: nat, r: nat)
    requires 1 <= r < n && 4 * n <= |ks|
    requires StateOf(b) == InvRounds(block, RoundKeys(ks, n), r - 1)
    ensures StateOf(INround(b, RoundKey(ks, r))) == InvRounds(block, RoundKeys(ks, n), r)
  {
    hide INround, AddRoundKey, InvMixColumns, InvShiftRows, InvSubBytes, StateOf;
    INroundIsRound(b, RoundKey(ks, r));
  }

  // ---------------------------------------------------------------------------------------
  // Key expansion, one word at a time

  lemma NextWord(ks: seq<bv32>, kw: seq<bv32>, n: nat, x: bv32)
    requires 0 < |kw| <= n < |ks| && ks[..n] == KeySchedule(kw, n)
    requires x == Xor32(Temp(KeySchedule(kw, n), |kw|), ks[n - |kw|])
    ensures ks[n := x][..n + 1] == KeySchedule(kw, n + 1)
  {
    hide Xor32, Temp;
    assert ks[n - |kw|] == ks[..n][n - |kw|];
    assert ks[n := x][..n + 1] == ks[..n] + [x];
  }

  lemma {:induction false} PrefixOfSchedule(kw: seq<bv32>, m: nat, n: nat)
    requires |kw| > 0 && n <= m
    ensures KeySchedule(kw, n) == KeySchedule(kw, m)[..n]
  {
    hide Xor32, Temp;
    if n < m {
      PrefixOfSchedule(kw, m - 1, n);
      assert KeySchedule(kw, m)[..n] == KeySchedule(kw, m - 1)[..n];
    }
  }

  /** A word that starts a round of the key length: rotated, substituted, and marked with the constant. */
  lemma TempFirst(ks: seq<bv32>, nk: nat, i: nat)
    requires (nk == 4 || nk == 6 || nk == 8) && |ks| == nk * i && 1 <= i <= 10
    ensures nk <= |ks|
    ensures Temp(ks, nk) == Xor32(LsBox(Ror8(ks[|ks| - 1])), Rco(i - 1))
  {
    hide Xor32, LsBox, Ror8, Rco, SubWord, RotWord, Put0, Rcon;
    Multiple(nk, i);
    var t := ks[|ks| - 1];
    Ror8IsRotWord(t);
    LsBoxIsSubWord(Ror8(t));
    RcoIsRcon(i - 1);
  }

  lemma Multiple(nk: nat, i: nat)
    requires (nk == 4 || nk == 6 || nk == 8) && 1 <= i
    ensures nk <= nk * i && (nk * i) % nk == 0 && (nk * i) / nk == i
  {
    if nk == 4 {
      Mod4(i, 0);
    } else if nk == 6 {
      Mod6(i, 0);
    } else {
      Mod8(i, 0);
    }
  }

  /** A word for which the running value is just the previous word. */
  predicate Plain(n: nat, nk: nat)
    requires nk > 0
  {
    n % nk != 0 && !(nk > 6 && n % nk == 4)
  }

  lemma PlainWord(nk: nat, i: nat, j: nat)
    requires (nk == 4 || nk == 6 || nk == 8) && 0 < j < nk && !(nk == 8 && j == 4)
    ensures Plain(nk * i + nk + j, nk)
  {
    if nk == 4 {
      Mod4(i, j);
    } else if nk == 6 {
      Mod6(i, j);
    } else {
      Mod8(i, j);
    }
  }

  lemma Mod4(i: nat, j: nat)
    requires j < 4
    ensures (4 * i + 4 + j) % 4 == j && (4 * i) % 4 == 0 && (4 * i) / 4 == i
  {
  }

  lemma Mod6(i: nat, j: nat)
    requires j < 6
    ensures (6 * i + 6 + j) % 6 == j && (6 * i) % 6 == 0 && (6 * i) / 6 == i
  {
  }

  lemma Mod8(i: nat, j: nat)
    requires j < 8
    ensures (8 * i + 8 + j) % 8 == j && (8 * i) % 8 == 0 && (8 * i) / 8 == i
  {
  }

  /** For keys of eight words, the word in the middle is substituted. */
  lemma TempMiddle(ks: seq<bv32>)
    requires |ks| % 8 == 4 && |ks| >= 8
    ensures Temp(ks, 8) == LsBox(ks[|ks| - 1])
  {
    hide Xor32, LsBox, SubWord, RotWord;
    LsBoxIsSubWord(ks[|ks| - 1]);
  }

  /** Word c of round key r. */
  function Word(ks: seq<bv32>, r: nat, c: nat): bv32
    requires 4 * r + c < |ks|
  {
    ks[4 * r + c]
  }

  /** Decryption words mirror the encryption words around the middle. */
  ghost predicate Mirrored(enc: seq<bv32>, dec: seq<bv32>, n: nat, upTo: nat)
    requires |enc| == |dec| == MAX_KEYLENGTH_U32 && 4 * n + 4 <= MAX_KEYLENGTH_U32
  {
    && (forall c | 0 <= c < 4 :: Word(dec, 0, c) == Word(enc, n, c) && Word(dec, n, c) == Word(enc, 0, c))
    && forall r, c | 1 <= r < n && 0 <= c < 4 && 4 * r + c < upTo ::
         Word(dec, n - r, c) == ImixCol(Word(enc, r, c))
  }

  lemma MirrorStep(enc: seq<bv32>, dec: seq<bv32>, n: nat, i: nat)
    requires |enc| == |dec| == MAX_KEYLENGTH_U32 && 4 * n + 4 <= MAX_KEYLENGTH_U32 && 4 <= i < 4 * n
    requires Mirrored(enc, dec, n, i)
    ensures 4 <= 4 * n - (i - i % 4) + i % 4 < 4 * n
    ensures Mirrored(enc, dec[4 * n - (i - i % 4) + i % 4 := ImixCol(enc[i])], n, i + 1)
  {
    hide ImixCol;
    var j, d := 4 * n - (i - i % 4) + i % 4, dec[4 * n - (i - i % 4) + i % 4 := ImixCol(enc[i])];
    assert 4 <= j < 4 * n;
    forall r, c | 1 <= r < n && 0 <= c < 4 && 4 * r + c < i + 1
      ensures Word(d, n - r, c) == ImixCol(Word(enc, r, c))
    {
      if 4 * r + c == i {
        assert 4 * (n - r) + c == j;
      } else {
        assert Word(dec, n - r, c) == ImixCol(Word(enc, r, c));
        assert 4 * (n - r) + c != j;
      }
    }
    forall c | 0 <= c < 4
      ensures Word(d, 0, c) == Word(enc, n, c) && Word(d, n, c) == Word(enc, 0, c)
    {
      assert Word(dec, 0, c) == Word(enc, n, c) && Word(dec, n, c) == Word(enc, 0, c);
    }
  }

  lemma MirrorsOuter(enc: seq<bv32>, dec: seq<bv32>, n: nat)
    requires |enc| == |dec| == MAX_KEYLENGTH_U32 && 4 * n + 4 <= MAX_KEYLENGTH_U32
    requires Mirrored(enc, dec, n, 4 * n)
    ensures RoundKey(dec, 0) == RoundKey(enc, n) && RoundKey(dec, n) == RoundKey(enc, 0)
  {
    assert Word(dec, 0, 0) == Word(enc, n, 0) && Word(dec, n, 0) == Word(enc, 0, 0);
    assert Word(dec, 0, 1) == Word(enc, n, 1) && Word(dec, n, 1) == Word(enc, 0, 1);
    assert Word(dec, 0, 2) == Word(enc, n, 2) && Word(dec, n, 2) == Word(enc, 0, 2);
    assert Word(dec, 0, 3) == Word(enc, n, 3) && Word(dec, n, 3) == Word(enc, 0, 3);
  }

  lemma MirrorsInner(enc: seq<bv32>, dec: seq<bv32>, n: nat, r: nat)
    requires |enc| == |dec| == MAX_KEYLENGTH_U32 && 4 * n + 4 <= MAX_KEYLENGTH_U32
    requires Mirrored(enc, dec, n, 4 * n) && 1 <= r < n
    ensures StateOf(RoundKey(dec, n - r)) == InvMixColumns(StateOf(RoundKey(enc, r)))
  {
    hide ImixCol, InvMix, Unpack;
    var k := RoundKey(enc, r);
    assert Word(dec, n - r, 0) == ImixCol(Word(enc, r, 0));
    assert Word(dec, n - r, 1) == ImixCol(Word(enc, r, 1));
    assert Word(dec, n - r, 2) == ImixCol(Word(enc, r, 2));
    assert Word(dec, n - r, 3) == ImixCol(Word(enc, r, 3));
    ImixColIsInvMix(k.w0);
    ImixColIsInvMix(k.w1);
    ImixColIsInvMix(k.w2);
    ImixColIsInvMix(k.w3);
  }

  /** What the second loop of key expansion leaves is the schedule of section 5.3.5 of FIPS-197. */
  lemma MirroredIsInverse(enc: seq<bv32>, dec: seq<bv32>, n: nat)
    requires |enc| == |dec| == MAX_KEYLENGTH_U32 && 1 <= n && 4 * n + 4 <= MAX_KEYLENGTH_U32
    requires Mirrored(enc, dec, n, 4 * n)
    ensures RoundKeys(dec, n + 1) == InverseSchedule(RoundKeys(enc, n + 1))
  {
    hide InvMixColumns, StateOf, RoundKey, Mirrored, IsInverseSchedule;
    var w, dw := RoundKeys(enc, n + 1), RoundKeys(dec, n + 1);
    forall i | 0 <= i < n + 1
      ensures dw[i] == InverseSchedule(w)[i]
    {
      MirrorsOuter(enc, dec, n);
      if 1 <= i < n {
        MirrorsInner(enc, dec, n, n - i);
      }
    }
  }

  /** The round keys of a key are those of any array that starts with its schedule. */
  lemma RoundKeysOfPrefix(ks: seq<bv32>, key: seq<bv8>)
    requires KeySize(|key|) && |ks| == MAX_KEYLENGTH_U32
    requires ks[..4 * (Rounds(|key|) + 1)] == KeySchedule(KeyWords(key), 4 * (Rounds(|key|) + 1))
    ensures RoundKeys(ks, Rounds(|key|) + 1) == EncKeys(key)
  {
    hide KeySchedule, KeyWords, StateOf;
    var n := Rounds(|key|) + 1;
    var p := ks[..4 * n];
    assert forall r | 0 <= r < n :: RoundKey(ks, r) == RoundKey(p, r);
  }

  // ---------------------------------------------------------------------------------------

  /** struct crypto_aes_ctx; key is the key it was last given */
  class AesContext {
    var keyLength: nat
    var keyEnc: array<bv32>
    var keyDec: array<bv32>
    ghost var key: seq<bv8>

    ghost predicate Valid()
      reads this
    {
      keyEnc != keyDec && keyEnc.Length == MAX_KEYLENGTH_U32 && keyDec.Length == MAX_KEYLENGTH_U32
    }

    /** A key has been set, and both schedules are those of that key. */
    ghost predicate Keyed()
      reads this, keyEnc, keyDec
    {
      && Valid()
      && KeySize(|key|) && keyLength == |key|
      && RoundKeys(keyEnc[..], Rounds(keyLength) + 1) == EncKeys(key)
      && RoundKeys(keyDec[..], Rounds(keyLength) + 1) == InverseSchedule(EncKeys(key))
    }

    constructor ()
      ensures Valid() && fresh(keyEnc) && fresh(keyDec) && keyLength == 0 && key == []
    {
      keyLength, key := 0, [];
      keyEnc := new bv32[MAX_KEYLENGTH_U32];
      keyDec := new bv32[MAX_KEYLENGTH_U32];
    }

    /** One word of key_enc: the running value t, added to the word a key length back. */
    method Extend(n: nat, temp: bv32, ghost kw: seq<bv32>, nk: nat) returns (t: bv32)
      requires Valid() && |kw| == nk && 0 < nk <= n < MAX_KEYLENGTH_U32
      requires keyEnc[..n] == KeySchedule(kw, n) && temp == Temp(KeySchedule(kw, n), nk)
      modifies keyEnc
      ensures keyEnc[..n + 1] == KeySchedule(kw, n + 1) && t == KeySchedule(kw, n + 1)[n]
    {
      hide KeySchedule, Temp, Xor32;
      t := Xor32(temp, keyEnc[n - nk]);
      NextWord(keyEnc[..], kw, n, t);
      ghost var was := keyEnc[..];
      keyEnc[n] := t;
      assert keyEnc[..] == was[n := t];
      assert keyEnc[..][..n + 1] == keyEnc[..n + 1];
      assert keyEnc[..n + 1][n] == t;
    }

    /** A word for which the running value is just the previous word. */
    method ExtendPlain(n: nat, temp: bv32, ghost kw: seq<bv32>, nk: nat) returns (t: bv32)
      requires Valid() && |kw| == nk && 0 < nk <= n < MAX_KEYLENGTH_U32
      requires Plain(n, nk)
      requires keyEnc[..n] == KeySchedule(kw, n) && temp == KeySchedule(kw, n)[n - 1]
      modifies keyEnc
      ensures keyEnc[..n + 1] == KeySchedule(kw, n + 1) && t == KeySchedule(kw, n + 1)[n]
    {
      hide KeySchedule, Xor32, SubWord, RotWord, Rcon;
      t := Extend(n, temp, kw, nk);
    }

    method ExtendTwo(n: nat, temp: bv32, ghost kw: seq<bv32>, nk: nat) returns (t: bv32)
      requires Valid() && |kw| == nk && 0 < nk <= n < MAX_KEYLENGTH_U32 - 1
      requires Plain(n, nk) && Plain(n + 1, nk)
      requires keyEnc[..n] == KeySchedule(kw, n) && temp == KeySchedule(kw, n)[n - 1]
      modifies keyEnc
      ensures keyEnc[..n + 2] == KeySchedule(kw, n + 2) && t == KeySchedule(kw, n + 2)[n + 1]
    {
      hide KeySchedule, Plain;
      t := ExtendPlain(n, temp, kw, nk);
      t := ExtendPlain(n + 1, t, kw, nk);
    }

    /** The first word of a round of the key length. */
    method ExtendFirst(i: nat, temp: bv32, ghost kw: seq<bv32>, nk: nat) returns (t: bv32)
      requires Valid() && |kw| == nk && (nk == 4 || nk == 6 || nk == 8) && i < 10 && nk * i + nk < MAX_KEYLENGTH_U32
      requires keyEnc[..nk * i + nk] == KeySchedule(kw, nk * i + nk)
      requires temp == KeySchedule(kw, nk * i + nk)[nk * i + nk - 1]
      modifies keyEnc
      ensures keyEnc[..nk * i + nk + 1] == KeySchedule(kw, nk * i + nk + 1)
      ensures t == KeySchedule(kw, nk * i + nk + 1)[nk * i + nk]
    {
      hide KeySchedule, Xor32, Temp, LsBox, Ror8, Rco;
      assert nk * i + nk == nk * (i + 1);
      TempFirst(KeySchedule(kw, nk * i + nk), nk, i + 1);
      t := Xor32(LsBox(Ror8(temp)), Rco(i));
      t := Extend(nk * i + nk, t, kw, nk);
    }

    /** loop4 */
    method Loop4(i: nat, temp: bv32, ghost kw: seq<bv32>) returns (t: bv32)
      requires Valid() && |kw| == 4 && i < 10
      requires keyEnc[..4 * i + 4] == KeySchedule(kw, 4 * i + 4) && temp == KeySchedule(kw, 4 * i + 4)[4 * i + 3]
      modifies keyEnc
      ensures keyEnc[..4 * i + 8] == KeySchedule(kw, 4 * i + 8) && t == KeySchedule(kw, 4 * i + 8)[4 * i + 7]
    {
      hide KeySchedule, Plain;
      t := ExtendFirst(i, temp, kw, 4);
      PlainWord(4, i, 1);
      t := ExtendPlain(4 * i + 5, t, kw, 4);
      PlainWord(4, i, 2);
      t := ExtendPlain(4 * i + 6, t, kw, 4);
      PlainWord(4, i, 3);
      t := ExtendPlain(4 * i + 7, t, kw, 4);
    }

    /** loop6 */
    method Loop6(i: nat, temp: bv32, ghost kw: seq<bv32>) returns (t: bv32)
      requires Valid() && |kw| == 6 && i < 8
      requires keyEnc[..6 * i + 6] == KeySchedule(kw, 6 * i + 6) && temp == KeySchedule(kw, 6 * i + 6)[6 * i + 5]
      modifies keyEnc
      ensures keyEnc[..6 * i + 12] == KeySchedule(kw, 6 * i + 12) && t == KeySchedule(kw, 6 * i + 12)[6 * i + 11]
    {
      hide KeySchedule, Plain;
      t := ExtendFirst(i, temp, kw, 6);
      PlainWord(6, i, 1);
      PlainWord(6, i, 2);
      t := ExtendTwo(6 * i + 7, t, kw, 6);
      PlainWord(6, i, 3);
      PlainWord(6, i, 4);
      t := ExtendTwo(6 * i + 9, t, kw, 6);
      PlainWord(6, i, 5);
      t := ExtendPlain(6 * i + 11, t, kw, 6);
    }

    /** loop8tophalf */
    method Loop8TopHalf(i: nat, temp: bv32, ghost kw: seq<bv32>) returns (t: bv32)
      requires Valid() && |kw| == 8 && i < 7
      requires keyEnc[..8 * i + 8] == KeySchedule(kw, 8 * i + 8) && temp == KeySchedule(kw, 8 * i + 8)[8 * i + 7]
      modifies keyEnc
      ensures keyEnc[..8 * i + 12] == KeySchedule(kw, 8 * i + 12) && t == KeySchedule(kw, 8 * i + 12)[8 * i + 11]
    {
      hide KeySchedule, Plain;
      t := ExtendFirst(i, temp, kw, 8);
      PlainWord(8, i, 1);
      t := ExtendPlain(8 * i + 9, t, kw, 8);
      PlainWord(8, i, 2);
      t := ExtendPlain(8 * i + 10, t, kw, 8);
      PlainWord(8, i, 3);
      t := ExtendPlain(8 * i + 11, t, kw, 8);
    }

    /** loop8 */
    method Loop8(i: nat, temp: bv32, ghost kw: seq<bv32>) returns (t: bv32)
      requires Valid() && |kw| == 8 && i < 6
      requires keyEnc[..8 * i + 8] == KeySchedule(kw, 8 * i + 8) && temp == KeySchedule(kw, 8 * i + 8)[8 * i + 7]
      modifies keyEnc
      ensures keyEnc[..8 * i + 16] == KeySchedule(kw, 8 * i + 16) && t == KeySchedule(kw, 8 * i + 16)[8 * i + 15]
    {
      hide KeySchedule, Temp, LsBox, Plain;
      t := Loop8TopHalf(i, temp, kw);
      TempMiddle(KeySchedule(kw, 8 * i + 12));
      t := Extend(8 * i + 12, LsBox(t), kw, 8);
      PlainWord(8, i, 5);
      t := ExtendPlain(8 * i + 13, t, kw, 8);
      PlainWord(8, i, 6);
      PlainWord(8, i, 7);
      t := ExtendTwo(8 * i + 14, t, kw, 8);
    }

    /** The part of crypto_aes_expand_key that fills key_enc. */
    method FillEnc(inKey: seq<bv8>)
      requires Valid() && KeySize(|inKey|)
      modifies keyEnc
      ensures keyEnc[..4 * (Rounds(|inKey|) + 1)] == KeySchedule(KeyWords(inKey), 4 * (Rounds(|inKey|) + 1))
    {
      hide Xor32, Temp, Load;
      ghost var kw := KeyWords(inKey);
      var nk := |inKey| / 4;
      for i := 0 to nk
        invariant keyEnc[..i] == kw[..i]
      {
        keyEnc[i] := Load(inKey, i);
        assert keyEnc[..i + 1] == keyEnc[..i] + [kw[i]];
        assert kw[..i + 1] == kw[..i] + [kw[i]];
      }
      assert KeySchedule(kw, nk) == kw[..nk];
      var t := keyEnc[nk - 1];
      FillLoops(nk, t, kw);
    }

    method FillLoops(nk: nat, first: bv32, ghost kw: seq<bv32>)
      requires Valid() && |kw| == nk && (nk == 4 || nk == 6 || nk == 8)
      requires keyEnc[..nk] == KeySchedule(kw, nk) && first == KeySchedule(kw, nk)[nk - 1]
      modifies keyEnc
      ensures keyEnc[..4 * nk + 28] == KeySchedule(kw, 4 * nk + 28)
    {
      hide KeySchedule;
      var t := first;
      if nk == 4 {
        for i := 0 to 10
          invariant keyEnc[..4 * i + 4] == KeySchedule(kw, 4 * i + 4) && t == KeySchedule(kw, 4 * i + 4)[4 * i + 3]
        {
          t := Loop4(i, t, kw);
        }
      } else if nk == 6 {
        for i := 0 to 8
          invariant keyEnc[..6 * i + 6] == KeySchedule(kw, 6 * i + 6) && t == KeySchedule(kw, 6 * i + 6)[6 * i + 5]
        {
          t := Loop6(i, t, kw);
        }
        PrefixOfSchedule(kw, 54, 52);
        assert keyEnc[..52] == keyEnc[..54][..52];
      } else {
        for i := 0 to 6
          invariant keyEnc[..8 * i + 8] == KeySchedule(kw, 8 * i + 8) && t == KeySchedule(kw, 8 * i + 8)[8 * i + 7]
        {
          t := Loop8(i, t, kw);
        }
        t := Loop8TopHalf(6, t, kw);
      }
    }

    /** crypto_aes_expand_key */
    method ExpandKey(inKey: seq<bv8>) returns (err: int)
      requires Valid()
      modifies this, keyEnc, keyDec
      ensures Valid() && keyEnc == old(keyEnc) && keyDec == old(keyDec)
      ensures err == if KeySize(|inKey|) then 0 else -EINVAL
      ensures err == 0 ==> key == inKey && Keyed()
      ensures err != 0 ==> key == old(key) && keyLength == old(keyLength)
      ensures err != 0 ==> keyEnc[..] == old(keyEnc[..]) && keyDec[..] == old(keyDec[..])
    {
      hide KeySchedule, ImixCol, EncKeys, InverseSchedule, Mirrored, RoundKeys;
      var keyLen := |inKey|;
      if keyLen != 16 && keyLen != 24 && keyLen != 32 {
        return -EINVAL;
      }
      keyLength, key := keyLen, inKey;
      FillEnc(inKey);
      FillDec();
      assert keyEnc[..][..4 * (Rounds(keyLen) + 1)] == keyEnc[..4 * (Rounds(keyLen) + 1)];
      RoundKeysOfPrefix(keyEnc[..], inKey);
      MirroredIsInverse(keyEnc[..], keyDec[..], Rounds(keyLen));
      err := 0;
    }

    /** The part of crypto_aes_expand_key that fills key_dec. */
    method FillDec()
      requires Valid() && KeySize(keyLength)
      modifies keyDec
      ensures Mirrored(keyEnc[..], keyDec[..], Rounds(keyLength), 4 * Rounds(keyLength))
    {
      hide ImixCol;
      ghost var n := Rounds(keyLength);
      var last := keyLength + 24;
      keyDec[last], keyDec[last + 1] := keyEnc[0], keyEnc[1];
      keyDec[last + 2], keyDec[last + 3] := keyEnc[2], keyEnc[3];
      keyDec[0], keyDec[1] := keyEnc[last], keyEnc[last + 1];
      keyDec[2], keyDec[3] := keyEnc[last + 2], keyEnc[last + 3];
      OuterMirrored(keyEnc[..], keyDec[..], n);
      MixMiddle(last, n);
    }

    /** The loop over imix_col. */
    method MixMiddle(last: nat, ghost n: nat)
      requires Valid() && last == 4 * n && 1 <= n && 4 * n + 4 <= MAX_KEYLENGTH_U32
      requires Mirrored(keyEnc[..], keyDec[..], n, 4)
      modifies keyDec
      ensures Mirrored(keyEnc[..], keyDec[..], n, 4 * n)
    {
      hide ImixCol, Mirrored;
      for i := 4 to last
        invariant Mirrored(keyEnc[..], keyDec[..], n, i)
      {
        MirrorStep(keyEnc[..], keyDec[..], n, i);
        ghost var was := keyDec[..];
        var j := last - (i - i % 4) + i % 4;
        keyDec[j] := ImixCol(keyEnc[i]);
        assert keyDec[..] == was[j := ImixCol(keyEnc[..][i])];
      }
    }

    /** f_nround, and the move of the key pointer */
    method EncRound(b: Words, kp: nat, ghost block: State, ghost r: nat) returns (bo: Words, next: nat)
      requires Keyed() && 1 <= r < Rounds(keyLength) && kp == 4 * r
      requires StateOf(b) == CipherRounds(block, EncKeys(key), r - 1)
      ensures StateOf(bo) == CipherRounds(block, EncKeys(key), r) && next == kp + 4
    {
      hide FNround, CipherRounds, StateOf, EncKeys, InverseSchedule, RoundKeys;
      EncStep(b, block, keyEnc[..], Rounds(keyLength) + 1, r);
      bo := FNround(b, Words(keyEnc[kp], keyEnc[kp + 1], keyEnc[kp + 2], keyEnc[kp + 3]));
      next := kp + 4;
    }

    /** i_nround, and the move of the key pointer */
    method DecRound(b: Words, kp: nat, ghost block: State, ghost r: nat) returns (bo: Words, next: nat)
      requires Keyed() && 1 <= r < Rounds(keyLength) && kp == 4 * r
      requires StateOf(b) == InvRounds(block, InverseSchedule(EncKeys(key)), r - 1)
      ensures StateOf(bo) == InvRounds(block, InverseSchedule(EncKeys(key)), r) && next == kp + 4
    {
      hide INround, InvRounds, StateOf, EncKeys, InverseSchedule, RoundKeys;
      DecStep(b, block, keyDec[..], Rounds(keyLength) + 1, r);
      bo := INround(b, Words(keyDec[kp], keyDec[kp + 1], keyDec[kp + 2], keyDec[kp + 3]));
      next := kp + 4;
    }

    /** Two rounds, through b1 and back. */
    method EncPair(b: Words, kp: nat, ghost block: State, ghost r: nat) returns (b0: Words, next: nat)
      requires Keyed() && r + 2 < Rounds(keyLength) && kp == 4 * (r + 1)
      requires StateOf(b) == CipherRounds(block, EncKeys(key), r)
      ensures StateOf(b0) == CipherRounds(block, EncKeys(key), r + 2) && next == kp + 8
    {
      hide CipherRounds, StateOf, EncKeys, InverseSchedule, RoundKeys;
      var b1;
      b1, next := EncRound(b, kp, block, r + 1);
      b0, next := EncRound(b1, next, block, r + 2);
    }

    /** The nine full rounds that every key length has. */
    method EncNine(b: Words, kp: nat, ghost block: State, ghost r: nat) returns (b1: Words, next: nat)
      requires Keyed() && r + 10 == Rounds(keyLength) && kp == 4 * (r + 1)
      requires StateOf(b) == CipherRounds(block, EncKeys(key), r)
      ensures StateOf(b1) == CipherRounds(block, EncKeys(key), r + 9) && next == kp + 36
    {
      hide CipherRounds, StateOf, EncKeys, InverseSchedule, RoundKeys;
      var b0;
      b0, next := EncPair(b, kp, block, r);
      b0, next := EncPair(b0, next, block, r + 2);
      b0, next := EncPair(b0, next, block, r + 4);
      b0, next := EncPair(b0, next, block, r + 6);
      b1, next := EncRound(b0, next, block, r + 9);
    }

    /** The rounds that only the longer keys have. */
    method EncExtra(b: Words, ghost block: State) returns (b0: Words, kp: nat)
      requires Keyed() && StateOf(b) == CipherRounds(block, EncKeys(key), 0)
      ensures StateOf(b0) == CipherRounds(block, EncKeys(key), Rounds(keyLength) - 10)
      ensures kp == 4 * (Rounds(keyLength) - 9)
    {
      hide CipherRounds, StateOf, EncKeys, InverseSchedule, RoundKeys;
      b0, kp := b, 4;
      if keyLength > 24 {
        b0, kp := EncPair(b0, kp, block, 0);
      }
      if keyLength > 16 {
        b0, kp := EncPair(b0, kp, block, Rounds(keyLength) - 12);
      }
    }

    /** The first round key. */
    method EncStart(src: array<bv8>) returns (b: Words)
      requires Keyed() && src.Length == 16
      ensures StateOf(b) == CipherRounds(BlockState(src[..]), EncKeys(key), 0)
    {
      hide CipherRounds, StateOf, EncKeys, InverseSchedule, RoundKeys, BlockState, XorWords, LoadWords;
      b := XorWords(LoadWords(src[..]), Words(keyEnc[0], keyEnc[1], keyEnc[2], keyEnc[3]));
      EncFirst(src[..], keyEnc[..], Rounds(keyLength) + 1);
    }

    /** The last round. */
    method EncFinal(b: Words, kp: nat, ghost block: State) returns (b0: Words)
      requires Keyed() && kp == 4 * Rounds(keyLength)
      requires StateOf(b) == CipherRounds(block, EncKeys(key), Rounds(keyLength) - 1)
      ensures StateOf(b0) == Cipher(block, EncKeys(key))
    {
      hide FLround, CipherRounds, StateOf, EncKeys, InverseSchedule, RoundKeys, Cipher;
      b0 := FLround(b, Words(keyEnc[kp], keyEnc[kp + 1], keyEnc[kp + 2], keyEnc[kp + 3]));
      EncLast(b, block, keyEnc[..], Rounds(keyLength) + 1);
    }

    /** aes_encrypt; input and output may be the same buffer */
    method Encrypt(dst: array<bv8>, src: array<bv8>)
      requires Keyed() && dst.Length == src.Length == 16
      modifies dst
      ensures dst[..] == AesCipherOf(key, old(src[..]))
    {
      hide CipherRounds, Cipher, StateOf, EncKeys, InverseSchedule, RoundKeys, StateBytes, BlockState;
      ghost var block := BlockState(src[..]);
      var b0 := EncStart(src);
      var b1, kp;
      b0, kp := EncExtra(b0, block);
      b1, kp := EncNine(b0, kp, block, Rounds(keyLength) - 10);
      b0 := EncFinal(b1, kp, block);
      StoreWords(dst, b0);
    }

    /** Two rounds, through b1 and back. */
    method DecPair(b: Words, kp: nat, ghost block: State, ghost r: nat) returns (b0: Words, next: nat)
      requires Keyed() && r + 2 < Rounds(keyLength) && kp == 4 * (r + 1)
      requires StateOf(b) == InvRounds(block, InverseSchedule(EncKeys(key)), r)
      ensures StateOf(b0) == InvRounds(block, InverseSchedule(EncKeys(key)), r + 2) && next == kp + 8
    {
      hide InvRounds, StateOf, EncKeys, InverseSchedule, RoundKeys;
      var b1;
      b1, next := DecRound(b, kp, block, r + 1);
      b0, next := DecRound(b1, next, block, r + 2);
    }

    /** The nine full rounds that every key length has. */
    method DecNine(b: Words, kp: nat, ghost block: State, ghost r: nat) returns (b1: Words, next: nat)
      requires Keyed() && r + 10 == Rounds(keyLength) && kp == 4 * (r + 1)
      requires StateOf(b) == InvRounds(block, InverseSchedule(EncKeys(key)), r)
      ensures StateOf(b1) == InvRounds(block, InverseSchedule(EncKeys(key)), r + 9) && next == kp + 36
    {
      hide InvRounds, StateOf, EncKeys, InverseSchedule, RoundKeys;
      var b0;
      b0, next := DecPair(b, kp, block, r);
      b0, next := DecPair(b0, next, block, r + 2);
      b0, next := DecPair(b0, next, block, r + 4);
      b0, next := DecPair(b0, next, block, r + 6);
      b1, next := DecRound(b0, next, block, r + 9);
    }

    /** The rounds that only the longer keys have. */
    method DecExtra(b: Words, ghost block: State) returns (b0: Words, kp: nat)
      requires Keyed() && StateOf(b) == InvRounds(block, InverseSchedule(EncKeys(key)), 0)
      ensures StateOf(b0) == InvRounds(block, InverseSchedule(EncKeys(key)), Rounds(keyLength) - 10)
      ensures kp == 4 * (Rounds(keyLength) - 9)
    {
      hide InvRounds, StateOf, EncKeys, InverseSchedule, RoundKeys;
      b0, kp := b, 4;
      if keyLength > 24 {
        b0, kp := DecPair(b0, kp, block, 0);
      }
      if keyLength > 16 {
        b0, kp := DecPair(b0, kp, block, Rounds(keyLength) - 12);
      }
    }

    /** The first round key. */
    method DecStart(src: array<bv8>) returns (b: Words)
      requires Keyed() && src.Length == 16
      ensures StateOf(b) == InvRounds(BlockState(src[..]), InverseSchedule(EncKeys(key)), 0)
    {
      hide InvRounds, StateOf, EncKeys, InverseSchedule, RoundKeys, BlockState, XorWords, LoadWords;
      b := XorWords(LoadWords(src[..]), Words(keyDec[0], keyDec[1], keyDec[2], keyDec[3]));
      DecFirst(src[..], keyDec[..], Rounds(keyLength) + 1);
    }

    /** The last round. */
    method DecFinal(b: Words, kp: nat, ghost block: State) returns (b0: Words)
      requires Keyed() && kp == 4 * Rounds(keyLength)
      requires StateOf(b) == InvRounds(block, InverseSchedule(EncKeys(key)), Rounds(keyLength) - 1)
      ensures StateOf(b0) == EqInvCipher(block, InverseSchedule(EncKeys(key)))
    {
      hide ILround, InvRounds, StateOf, EncKeys, InverseSchedule, RoundKeys, EqInvCipher;
      b0 := ILround(b, Words(keyDec[kp], keyDec[kp + 1], keyDec[kp + 2], keyDec[kp + 3]));
      DecLast(b, block, keyDec[..], Rounds(keyLength) + 1);
    }

    /** aes_decrypt; input and output may be the same buffer */
    method Decrypt(dst: array<bv8>, src: array<bv8>)
      requires Keyed() && dst.Length == src.Length == 16
      modifies dst
      ensures dst[..] == AesInverseOf(key, old(src[..]))
    {
      hide InvRounds, EqInvCipher, StateOf, EncKeys, InverseSchedule, RoundKeys, StateBytes, BlockState;
      ghost var block := BlockState(src[..]);
      var b0 := DecStart(src);
      var b1, kp;
      b0, kp := DecExtra(b0, block);
      b1, kp := DecNine(b0, kp, block, Rounds(keyLength) - 10);
      b0 := DecFinal(b1, kp, block);
      StoreWords(dst, b0);
    }
  }

  /** cpu_to_le32 of the four words */
  method StoreWords(dst: array<bv8>, b: Words)
    requires dst.Length == 16
    modifies dst
    ensures dst[..] == StateBytes(StateOf(b))
  {
    hide Unpack, ColBytes, Put4;
    FourPuts(dst[..], ColBytes(Unpack(b.w0)), ColBytes(Unpack(b.w1)), ColBytes(Unpack(b.w2)), ColBytes(Unpack(b.w3)));
    StoreWord(dst, 0, b.w0);
    StoreWord(dst, 1, b.w1);
    StoreWord(dst, 2, b.w2);
    StoreWord(dst, 3, b.w3);
  }

  /** A buffer with one word of it overwritten. */
  function Put4(s: seq<bv8>, i: nat, w: seq<bv8>): (r: seq<bv8>)
    requires |s| == 16 && i < 4 && |w| == 4
    ensures |r| == 16
  {
    s[..4 * i] + w + s[4 * i + 4..]
  }

  lemma FourPuts(s: seq<bv8>, a: seq<bv8>, b: seq<bv8>, c: seq<bv8>, d: seq<bv8>)
    requires |s| == 16 && |a| == 4 && |b| == 4 && |c| == 4 && |d| == 4
    ensures Put4(Put4(Put4(Put4(s, 0, a), 1, b), 2, c), 3, d) == a + b + c + d
  {
    var s1 := Put4(s, 0, a);
    var s2 := Put4(s1, 1, b);
    var s3 := Put4(s2, 2, c);
    assert s1[..4] == a;
    assert s2[..8] == a + b;
    assert s3[..12] == a + b + c;
    assert Put4(s3, 3, d)[12..] == d;
  }

  method StoreWord(dst: array<bv8>, i: nat, x: bv32)
    requires dst.Length == 16 && i < 4
    modifies dst
    ensures dst[..] == Put4(old(dst[..]), i, ColBytes(Unpack(x)))
  {
    hide B0, B1, B2, B3;
    ghost var was := dst[..];
    dst[4 * i], dst[4 * i + 1] := B0(x), B1(x);
    dst[4 * i + 2], dst[4 * i + 3] := B2(x), B3(x);
    assert dst[4 * i..4 * i + 4] == ColBytes(Unpack(x));
    assert dst[..4 * i] == was[..4 * i] && dst[4 * i + 4..] == was[4 * i + 4..];
    assert dst[..] == dst[..4 * i] + dst[4 * i..4 * i + 4] + dst[4 * i + 4..];
  }

  lemma EncFirst(s: seq<bv8>, ks: seq<bv32>, n: nat)
    requires |s| == 16 && 1 <= n && 4 * n <= |ks|
    ensures StateOf(XorWords(LoadWords(s), RoundKey(ks, 0))) == CipherRounds(BlockState(s), RoundKeys(ks, n), 0)
  {
    hide XorWords, LoadWords, BlockState, AddRoundKey, StateOf;
    LoadIsBlock(s);
    XorWordsIsKey(LoadWords(s), RoundKey(ks, 0));
  }

  lemma DecFirst(s: seq<bv8>, ks: seq<bv32>, n: nat)
    requires |s| == 16 && 1 <= n && 4 * n <= |ks|
    ensures StateOf(XorWords(LoadWords(s), RoundKey(ks, 0))) == InvRounds(BlockState(s), RoundKeys(ks, n), 0)
  {
    hide XorWords, LoadWords, BlockState, AddRoundKey, StateOf;
    LoadIsBlock(s);
    XorWordsIsKey(LoadWords(s), RoundKey(ks, 0));
  }

  lemma EncLast(b: Words, block: State, ks: seq<bv32>, n: nat)
    requires 2 <= n && 4 * n <= |ks| && StateOf(b) == CipherRounds(block, RoundKeys(ks, n), n - 2)
    ensures StateOf(FLround(b, RoundKey(ks, n - 1))) == Cipher(block, RoundKeys(ks, n))
  {
    hide FLround, AddRoundKey, ShiftRows, SubBytes, StateOf, CipherRounds;
    FLroundIsRound(b, RoundKey(ks, n - 1));
  }

  lemma DecLast(b: Words, block: State, ks: seq<bv32>, n: nat)
    requires 2 <= n && 4 * n <= |ks| && StateOf(b) == InvRounds(block, RoundKeys(ks, n), n - 2)
    ensures StateOf(ILround(b, RoundKey(ks, n - 1))) == EqInvCipher(block, RoundKeys(ks, n))
  {
    hide ILround, AddRoundKey, InvShiftRows, InvSubBytes, StateOf, InvRounds;
    ILroundIsRound(b, RoundKey(ks, n - 1));
  }

  lemma OuterMirrored(enc: seq<bv32>, dec: seq<bv32>, n: nat)
    requires |enc| == |dec| == MAX_KEYLENGTH_U32 && 1 <= n && 4 * n + 4 <= MAX_KEYLENGTH_U32
    requires dec[0] == enc[4 * n] && dec[1] == enc[4 * n + 1] && dec[2] == enc[4 * n + 2] && dec[3] == enc[4 * n + 3]
    requires dec[4 * n] == enc[0] && dec[4 * n + 1] == enc[1] && dec[4 * n + 2] == enc[2] && dec[4 * n + 3] == enc[3]
    ensures Mirrored(enc, dec, n, 4)
  {
    hide ImixCol;
  }
}
