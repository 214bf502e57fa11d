/** The cipher of FIPS-197 written out on bytes, as the standard numbers them: byte r of column c of the state is byte
    4c + r of the block. The model's states, columns and words compute this, for every key and block. */
module AesReference {
  import opened AesField
  import opened AesTables
  import opened AesCipher
  import opened Aes
  import opened AesGeneric

  type Bytes16 = s: seq<bv8> | |s| == 16 witness [0, 0, 0, 0, 0, 0, 0, 0, 0, 0, 0, 0, 0, 0, 0, 0]

  /** Section 5.1.1 */
  function RefSubBytes(s: Bytes16): Bytes16 { seq(16, i requires 0 <= i < 16 => S(s[i])) }

  /** Section 5.1.2: byte r of column c comes from column c + r. */
  function RefShiftRows(s: Bytes16): Bytes16 {
    seq(16, i requires 0 <= i < 16 => s[4 * ((i / 4 + i % 4) % 4) + i % 4])
  }

  /** Section 5.1.3: each byte becomes twice itself, three times the next of its column, and the other two. */
  function RefMixByte(s: Bytes16, c: nat, r: nat): bv8
    requires c < 4 && r < 4
  {
    var next := s[4 * c + (r + 1) % 4];
    Sum(X(s[4 * c + r]), Add(X(next), next), s[4 * c + (r + 2) % 4], s[4 * c + (r + 3) % 4])
  }

  function RefMixColumns(s: Bytes16): Bytes16 {
    seq(16, i requires 0 <= i < 16 => RefMixByte(s, i / 4, i % 4))
  }

  /** Section 5.1.4 */
  function RefAddKey(s: Bytes16, k: Bytes16): Bytes16 { seq(16, i requires 0 <= i < 16 => Add(s[i], k[i])) }

  /** The powers of 2 in the field. */
  function Power(i: nat): bv8 { if i == 0 then 1 else X(Power(i - 1)) }

  /** Section 5.2: byte n of the expanded key. It starts with the key itself; after that a byte is the one a key length
      back, changed by the word before it, which is taken as it is, substituted, or rotated, substituted and marked. */
  function RefKey(key: seq<bv8>, n: nat): bv8
    requires |key| > 0 && |key| % 4 == 0
    decreases n
  {
    if n < |key| then key[n]
    else
      var nk, w, r := |key| / 4, n / 4, n % 4;
      var changed :=
        if w % nk == 0 then Add(S(RefKey(key, 4 * (w - 1) + (r + 1) % 4)), if r == 0 then Power(w / nk - 1) else 0)
        else if nk > 6 && w % nk == 4 then S(RefKey(key, n - 4))
        else RefKey(key, n - 4);
      Add(changed, RefKey(key, n - |key|))
  }

  function RefRoundKey(key: seq<bv8>, r: nat): Bytes16
    requires |key| > 0 && |key| % 4 == 0
  {
    seq(16, i requires 0 <= i < 16 => RefKey(key, 16 * r + i))
  }

  /** Section 5.1: the state after round r. */
  function RefRounds(key: seq<bv8>, block: Bytes16, r: nat): Bytes16
    requires |key| > 0 && |key| % 4 == 0
  {
    if r == 0 then RefAddKey(block, RefRoundKey(key, 0))
    else RefAddKey(RefMixColumns(RefShiftRows(RefSubBytes(RefRounds(key, block, r - 1)))), RefRoundKey(key, r))
  }

  /** Ten, twelve or fourteen rounds, the last without MixColumns. */
  function RefCipher(key: seq<bv8>, block: Bytes16): Bytes16
    requires KeySize(|key|)
  {
    var nr := if |key| == 16 then 10 else if |key| == 24 then 12 else 14;
    RefAddKey(RefShiftRows(RefSubBytes(RefRounds(key, block, nr - 1))), RefRoundKey(key, nr))
  }

  // ---------------------------------------------------------------------------------------
  // The transformations of a state

  function ByteOf(c: Col, r: int): bv8
    requires 0 <= r < 4
  {
    if r == 0 then c.b0 else if r == 1 then c.b1 else if r == 2 then c.b2 else c.b3
  }

  function ColOf(s: State, c: int): Col
    requires 0 <= c < 4
  {
    if c == 0 then s.c0 else if c == 1 then s.c1 else if c == 2 then s.c2 else s.c3
  }

  function At(s: State, c: int, r: int): bv8
    requires 0 <= c < 4 && 0 <= r < 4
  {
    ByteOf(ColOf(s, c), r)
  }

  lemma StateByte(s: State, c: int, r: int)
    requires 0 <= c < 4 && 0 <= r < 4
    ensures StateBytes(s)[4 * c + r] == At(s, c, r)
  {
    var parts := ColBytes(s.c0) + ColBytes(s.c1);
    assert StateBytes(s)[4 * c + r] == ColBytes(ColOf(s, c))[r];
  }

  lemma SubAt(s: State, c: int, r: int)
    requires 0 <= c < 4 && 0 <= r < 4
    ensures At(SubBytes(s), c, r) == S(At(s, c, r))
  {
    hide S;
  }

  lemma ShiftAt(s: State, c: int, r: int)
    requires 0 <= c < 4 && 0 <= r < 4
    ensures At(ShiftRows(s), c, r) == At(s, (c + r) % 4, r)
  {
  }

  lemma MixRows(c: Col)
    ensures Mix(c).b0 == Sum(X(c.b0), Add(X(c.b1), c.b1), c.b2, c.b3)
    ensures Mix(c).b1 == Sum(X(c.b1), Add(X(c.b2), c.b2), c.b3, c.b0)
    ensures Mix(c).b2 == Sum(X(c.b2), Add(X(c.b3), c.b3), c.b0, c.b1)
    ensures Mix(c).b3 == Sum(X(c.b3), Add(X(c.b0), c.b0), c.b1, c.b2)
  {
    hide X, Sum, Add;
    Rotate(c.b0, X(c.b1), Times3(c.b2), c.b3);
    Rotate(c.b0, c.b1, X(c.b2), Times3(c.b3));
    Rotate(Times3(c.b0), c.b1, c.b2, X(c.b3));
  }

  lemma MixByte(c: Col, r: int)
    requires 0 <= r < 4
    ensures ByteOf(Mix(c), r) == Sum(X(ByteOf(c, r)), Add(X(ByteOf(c, (r + 1) % 4)), ByteOf(c, (r + 1) % 4)),
                                     ByteOf(c, (r + 2) % 4), ByteOf(c, (r + 3) % 4))
  {
    hide X, Sum, Add, Mix;
    MixRows(c);
  }

  lemma AddAt(s: State, k: State, c: int, r: int)
    requires 0 <= c < 4 && 0 <= r < 4
    ensures At(AddRoundKey(s, k), c, r) == Add(At(s, c, r), At(k, c, r))
  {
    hide Add;
  }

  // ---------------------------------------------------------------------------------------
  // The same on bytes

  lemma SubBytesOnBytes(s: State)
    ensures StateBytes(SubBytes(s)) == RefSubBytes(StateBytes(s))
  {
    hide S, StateBytes, At, SubBytes;
    forall i | 0 <= i < 16
      ensures StateBytes(SubBytes(s))[i] == S(StateBytes(s)[i])
    {
      StateByte(s, i / 4, i % 4);
      StateByte(SubBytes(s), i / 4, i % 4);
      SubAt(s, i / 4, i % 4);
    }
  }

  lemma ShiftRowsOnBytes(s: State)
    ensures StateBytes(ShiftRows(s)) == RefShiftRows(StateBytes(s))
  {
    hide StateBytes, At, ShiftRows;
    forall i | 0 <= i < 16
      ensures StateBytes(ShiftRows(s))[i] == StateBytes(s)[4 * ((i / 4 + i % 4) % 4) + i % 4]
    {
      StateByte(s, (i / 4 + i % 4) % 4, i % 4);
      StateByte(ShiftRows(s), i / 4, i % 4);
      ShiftAt(s, i / 4, i % 4);
    }
  }

  lemma MixAt(s: State, c: int, r: int)
    requires 0 <= c < 4 && 0 <= r < 4
    ensures At(MixColumns(s), c, r) == Sum(X(At(s, c, r)), Add(X(At(s, c, (r + 1) % 4)), At(s, c, (r + 1) % 4)),
                                           At(s, c, (r + 2) % 4), At(s, c, (r + 3) % 4))
  {
    hide X, Sum, Add, Mix, ByteOf;
    MixByte(ColOf(s, c), r);
    assert ColOf(MixColumns(s), c) == Mix(ColOf(s, c));
  }

  lemma MixOnBytes(s: State, c: nat, r: nat)
    requires c < 4 && r < 4
    ensures StateBytes(MixColumns(s))[4 * c + r] == RefMixByte(StateBytes(s), c, r)
  {
    hide StateBytes, At, MixColumns, X, Sum, Add;
    StateByte(s, c, r);
    StateByte(s, c, (r + 1) % 4);
    StateByte(s, c, (r + 2) % 4);
    StateByte(s, c, (r + 3) % 4);
    StateByte(MixColumns(s), c, r);
    MixAt(s, c, r);
  }

  lemma MixColumnsOnBytes(s: State)
    ensures StateBytes(MixColumns(s)) == RefMixColumns(StateBytes(s))
  {
    hide StateBytes, MixColumns, RefMixByte;
    forall i | 0 <= i < 16
      ensures StateBytes(MixColumns(s))[i] == RefMixByte(StateBytes(s), i / 4, i % 4)
    {
      MixOnBytes(s, i / 4, i % 4);
    }
  }

  lemma AddKeyOnBytes(s: State, k: State)
    ensures StateBytes(AddRoundKey(s, k)) == RefAddKey(StateBytes(s), StateBytes(k))
  {
    hide StateBytes, At, AddRoundKey, Add;
    forall i | 0 <= i < 16
      ensures StateBytes(AddRoundKey(s, k))[i] == Add(StateBytes(s)[i], StateBytes(k)[i])
    {
      StateByte(s, i / 4, i % 4);
      StateByte(k, i / 4, i % 4);
      StateByte(AddRoundKey(s, k), i / 4, i % 4);
      AddAt(s, k, i / 4, i % 4);
    }
  }

  // ---------------------------------------------------------------------------------------
  // The expanded key

  /** Word w of the expanded key. */
  function KeyCol(key: seq<bv8>, w: nat): Col
    requires |key| > 0 && |key| % 4 == 0
  {
    Col(RefKey(key, 4 * w), RefKey(key, 4 * w + 1), RefKey(key, 4 * w + 2), RefKey(key, 4 * w + 3))
  }

  lemma RconIsPower(i: nat)
    requires i >= 1
    ensures Rcon(i) == Power(i - 1)
  {
    hide X;
  }

  lemma MarkIs(b: bv8)
    ensures Unpack(Put0(b)) == Col(b, 0, 0, 0)
  {
  }

  /** What Temp adds, in bytes. */
  lemma TempCol(ks: seq<bv32>, nk: nat)
    requires 0 < nk <= |ks|
    ensures var w, t := |ks|, Unpack(ks[|ks| - 1]);
            Unpack(Temp(ks, nk)) ==
              if w % nk == 0 then Col(Add(S(t.b1), Rcon(w / nk)), Add(S(t.b2), 0), Add(S(t.b3), 0), Add(S(t.b0), 0))
              else if nk > 6 && w % nk == 4 then Col(S(t.b0), S(t.b1), S(t.b2), S(t.b3))
              else t
  {
    hide S, Pack, Unpack, Xor32, Put0, Rcon, Add, B0, B1, B2, B3;
    var t := ks[|ks| - 1];
    var u := Unpack(t);
    UnpackIs(t);
    UnpackPack(SubCol(u));
    UnpackPack(Col(u.b1, u.b2, u.b3, u.b0));
    UnpackPack(SubCol(Col(u.b1, u.b2, u.b3, u.b0)));
    MarkIs(Rcon(|ks| / nk));
    UnpackXor(SubWord(RotWord(t)), Put0(Rcon(|ks| / nk)));
  }

  lemma UnpackIs(x: bv32)
    ensures Unpack(x) == Col(B0(x), B1(x), B2(x), B3(x))
  {
  }

  lemma Quarter(w: nat, r: nat)
    requires r < 4
    ensures (4 * w + r) / 4 == w && (4 * w + r) % 4 == r
  {
  }

  /** One byte of a word past the key. */
  lemma KeyByte(key: seq<bv8>, w: nat, r: nat)
    requires KeySize(|key|) && r < 4 && |key| / 4 <= w
    ensures var nk := |key| / 4;
            RefKey(key, 4 * w + r) == Add(
              if w % nk == 0 then
                Add(S(RefKey(key, 4 * (w - 1) + (r + 1) % 4)), if r == 0 then Power(w / nk - 1) else 0)
              else if nk > 6 && w % nk == 4 then S(RefKey(key, 4 * (w - 1) + r))
              else RefKey(key, 4 * (w - 1) + r),
              RefKey(key, 4 * (w - nk) + r))
  {
    hide S, Add, Power;
    Quarter(w, r);
    assert 4 * w + r - 4 == 4 * (w - 1) + r;
    assert 4 * w + r - |key| == 4 * (w - |key| / 4) + r;
  }

  lemma LoadCol(key: seq<bv8>, w: nat)
    requires KeySize(|key|) && w < |key| / 4
    ensures Unpack(KeyWords(key)[w]) == KeyCol(key, w)
  {
    hide Pack, Unpack;
    UnpackPack(Col(key[4 * w], key[4 * w + 1], key[4 * w + 2], key[4 * w + 3]));
  }

  lemma NextCol(key: seq<bv8>, ks: seq<bv32>, x: bv32)
    requires KeySize(|key|) && |key| / 4 <= |ks| && (forall w | 0 <= w < |ks| :: Unpack(ks[w]) == KeyCol(key, w))
    requires x == Xor32(Temp(ks, |key| / 4), ks[|ks| - |key| / 4])
    ensures Unpack(x) == KeyCol(key, |ks|)
  {
    hide S, Unpack, Xor32, Temp, Add, Power, RefKey, Rcon;
    var nk, w := |key| / 4, |ks|;
    UnpackXor(Temp(ks, nk), ks[w - nk]);
    TempCol(ks, nk);
    if w % nk == 0 {
      PastOne(w, nk);
      RconIsPower(w / nk);
    }
    KeyByte(key, w, 0);
    KeyByte(key, w, 1);
    KeyByte(key, w, 2);
    KeyByte(key, w, 3);
    assert Unpack(ks[w - 1]) == KeyCol(key, w - 1) && Unpack(ks[w - nk]) == KeyCol(key, w - nk);
  }

  lemma PastOne(w: nat, nk: nat)
    requires 0 < nk <= w
    ensures w / nk >= 1
  {
  }

  /** The words of the schedule are the bytes of the expanded key. */
  lemma {:induction false} ScheduleIsKey(key: seq<bv8>, n: nat)
    requires KeySize(|key|)
    ensures forall w | 0 <= w < n :: Unpack(KeySchedule(KeyWords(key), n)[w]) == KeyCol(key, w)
    decreases n
  {
    hide KeyCol, Unpack, Xor32, Temp, KeyWords;
    if n <= |key| / 4 {
      forall w | 0 <= w < n
        ensures Unpack(KeySchedule(KeyWords(key), n)[w]) == KeyCol(key, w)
      {
        LoadCol(key, w);
      }
    } else {
      var ks := KeySchedule(KeyWords(key), n - 1);
      ScheduleIsKey(key, n - 1);
      NextCol(key, ks, Xor32(Temp(ks, |key| / 4), ks[n - 1 - |key| / 4]));
    }
  }

  lemma RoundKeyByte(key: seq<bv8>, r: nat, c: nat, j: nat)
    requires KeySize(|key|) && r <= Rounds(|key|) && c < 4 && j < 4
    ensures StateBytes(EncKeys(key)[r])[4 * c + j] == RefKey(key, 16 * r + 4 * c + j)
  {
    hide StateBytes, RefKey, KeySchedule, Unpack, KeyWords, At;
    var n := 4 * (Rounds(|key|) + 1);
    ScheduleIsKey(key, n);
    var w := 4 * r + c;
    var k := EncKeys(key)[r];
    RoundKeyCol(KeySchedule(KeyWords(key), n), Rounds(|key|) + 1, r, c);
    StateByte(k, c, j);
    assert Unpack(KeySchedule(KeyWords(key), n)[w]) == KeyCol(key, w);
    ColAt(k, c, j);
    assert 16 * r + 4 * c + j == 4 * w + j;
  }

  lemma ColAt(k: State, c: nat, j: nat)
    requires c < 4 && j < 4
    ensures At(k, c, j) == ByteOf(ColOf(k, c), j)
  {
  }

  lemma RoundKeyCol(ks: seq<bv32>, n: nat, r: nat, c: nat)
    requires 4 * n <= |ks| && r < n && c < 4
    ensures ColOf(RoundKeys(ks, n)[r], c) == Unpack(ks[4 * r + c])
  {
    hide Unpack;
  }

  /** The round keys, byte by byte. */
  lemma RoundKeysOnBytes(key: seq<bv8>, r: nat)
    requires KeySize(|key|) && r <= Rounds(|key|)
    ensures StateBytes(EncKeys(key)[r]) == RefRoundKey(key, r)
  {
    hide StateBytes, EncKeys, RefKey;
    forall i | 0 <= i < 16
      ensures StateBytes(EncKeys(key)[r])[i] == RefKey(key, 16 * r + i)
    {
      RoundKeyByte(key, r, i / 4, i % 4);
    }
  }

  /** The schedule starts with the key, byte by byte and in order: so does key_enc, and the first round key is the first
      sixteen bytes of the key. */
  lemma KeyComesFirst(key: seq<bv8>, n: nat, i: nat)
    requires KeySize(|key|) && i < |key| && i / 4 < n
    ensures ColBytes(Unpack(KeySchedule(KeyWords(key), n)[i / 4]))[i % 4] == key[i]
    ensures StateBytes(EncKeys(key)[0]) == key[..16]
  {
    hide Unpack, KeySchedule, KeyWords, EncKeys, StateBytes, RefKey;
    ScheduleIsKey(key, n);
    assert KeyCol(key, i / 4) == Unpack(KeySchedule(KeyWords(key), n)[i / 4]);
    OwnByte(key, i);
    RoundKeysOnBytes(key, 0);
    forall j | 0 <= j < 16
      ensures RefRoundKey(key, 0)[j] == key[j]
    {
      OwnByte(key, j);
    }
  }

  lemma OwnByte(key: seq<bv8>, i: nat)
    requires |key| % 4 == 0 && i < |key|
    ensures RefKey(key, i) == key[i]
  {
  }

  // ---------------------------------------------------------------------------------------
  // The cipher

  lemma {:induction false} RoundsOnBytes(key: seq<bv8>, block: Bytes16, r: nat)
    requires KeySize(|key|) && r <= Rounds(|key|)
    ensures StateBytes(CipherRounds(BlockState(block), EncKeys(key), r)) == RefRounds(key, block, r)
    decreases r
  {
    hide StateBytes, BlockState, EncKeys, SubBytes, ShiftRows, MixColumns, AddRoundKey;
    hide RefSubBytes, RefShiftRows, RefMixColumns, RefAddKey, RefRoundKey;
    var w := EncKeys(key);
    RoundKeysOnBytes(key, r);
    if r == 0 {
      BytesAreBlock(BlockState(block), block);
      AddKeyOnBytes(BlockState(block), w[0]);
    } else {
      var s := CipherRounds(BlockState(block), w, r - 1);
      RoundsOnBytes(key, block, r - 1);
      RoundOnBytes(s, w[r]);
    }
  }

  lemma RoundOnBytes(s: State, k: State)
    ensures StateBytes(AddRoundKey(MixColumns(ShiftRows(SubBytes(s))), k))
            == RefAddKey(RefMixColumns(RefShiftRows(RefSubBytes(StateBytes(s)))), StateBytes(k))
  {
    hide StateBytes, SubBytes, ShiftRows, MixColumns, AddRoundKey;
    hide RefSubBytes, RefShiftRows, RefMixColumns, RefAddKey;
    SubBytesOnBytes(s);
    ShiftRowsOnBytes(SubBytes(s));
    MixColumnsOnBytes(ShiftRows(SubBytes(s)));
    AddKeyOnBytes(MixColumns(ShiftRows(SubBytes(s))), k);
  }

  /** What encryption computes is the cipher of the standard, for every key of the three sizes and every block. */
  lemma CipherIsReference(key: seq<bv8>, block: seq<bv8>)
    requires KeySize(|key|) && |block| == 16
    ensures AesCipherOf(key, block) == RefCipher(key, block)
  {
    hide StateBytes, BlockState, EncKeys, SubBytes, ShiftRows, AddRoundKey, CipherRounds;
    hide RefSubBytes, RefShiftRows, RefAddKey, RefRoundKey, RefRounds;
    var w, nr := EncKeys(key), Rounds(|key|);
    var s := CipherRounds(BlockState(block), w, nr - 1);
    RoundsOnBytes(key, block, nr - 1);
    RoundKeysOnBytes(key, nr);
    SubBytesOnBytes(s);
    ShiftRowsOnBytes(SubBytes(s));
    AddKeyOnBytes(ShiftRows(SubBytes(s)), w[nr]);
  }
}
