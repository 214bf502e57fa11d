/** crypto/aes_generic.c: key expansion, encryption and decryption with lookup tables, on words. Each is
    proved against FIPS-197, and decryption undoes encryption. */
module Aes {
  import opened AesField
  import opened AesTables
  import opened AesCipher

  // ---------------------------------------------------------------------------------------
  // The tables. In the source each kind of table comes four times, the second to fourth being the
  // first with every word rotated by one, two and three bytes.

  function Ft1(x: bv8): bv32 { Ror24(Ft0(x)) }
  function Ft2(x: bv8): bv32 { Ror16(Ft0(x)) }
  function Ft3(x: bv8): bv32 { Ror8(Ft0(x)) }
  function It1(x: bv8): bv32 { Ror24(It0(x)) }
  function It2(x: bv8): bv32 { Ror16(It0(x)) }
  function It3(x: bv8): bv32 { Ror8(It0(x)) }

  /** A byte in one of the four places of a word. */
  function Put0(b: bv8): bv32 { b as bv32 }
  function Put1(b: bv8): bv32 { (b as bv32) << 8 }
  function Put2(b: bv8): bv32 { (b as bv32) << 16 }
  function Put3(b: bv8): bv32 { (b as bv32) << 24 }

  function Fl0(x: bv8): bv32 { Put0(S(x)) }
  function Fl1(x: bv8): bv32 { Put1(S(x)) }
  function Fl2(x: bv8): bv32 { Put2(S(x)) }
  function Fl3(x: bv8): bv32 { Put3(S(x)) }
  function Il0(x: bv8): bv32 { Put0(InvS(x)) }
  function Il1(x: bv8): bv32 { Put1(InvS(x)) }
  function Il2(x: bv8): bv32 { Put2(InvS(x)) }
  function Il3(x: bv8): bv32 { Put3(InvS(x)) }

  function Xor4(a: bv32, b: bv32, c: bv32, d: bv32): bv32 {
    Xor32(Xor32(Xor32(a, b), c), d)
  }

  /** One word of f_rn */
  function FRn(a: bv32, b: bv32, c: bv32, d: bv32, k: bv32): bv32 {
    Xor32(Xor4(Ft0(B0(a)), Ft1(B1(b)), Ft2(B2(c)), Ft3(B3(d))), k)
  }

  /** One word of f_rl */
  function FRl(a: bv32, b: bv32, c: bv32, d: bv32, k: bv32): bv32 {
    Xor32(Xor4(Fl0(B0(a)), Fl1(B1(b)), Fl2(B2(c)), Fl3(B3(d))), k)
  }

  /** One word of i_rn */
  function IRn(a: bv32, b: bv32, c: bv32, d: bv32, k: bv32): bv32 {
    Xor32(Xor4(It0(B0(a)), It1(B1(b)), It2(B2(c)), It3(B3(d))), k)
  }

  /** One word of i_rl */
  function IRl(a: bv32, b: bv32, c: bv32, d: bv32, k: bv32): bv32 {
    Xor32(Xor4(Il0(B0(a)), Il1(B1(b)), Il2(B2(c)), Il3(B3(d))), k)
  }

  lemma UnpackXor4(a: bv32, b: bv32, c: bv32, d: bv32)
    ensures Unpack(Xor4(a, b, c, d)) == Xor(Xor(Xor(Unpack(a), Unpack(b)), Unpack(c)), Unpack(d))
  {
    hide Unpack, Xor32, Xor;
    UnpackXor(a, b);
    UnpackXor(Xor32(a, b), c);
    UnpackXor(Xor32(Xor32(a, b), c), d);
  }

  lemma AddsAreSum(a: bv8, b: bv8, c: bv8, d: bv8)
    ensures Add(Add(Add(a, b), c), d) == Sum(a, b, c, d)
  {
    hide Add;
    Assoc(Add(a, b), c, d);
  }

  /** Columns added one after the other. */
  lemma XorsAreSums(p: Col, q: Col, r: Col, s: Col)
    ensures Xor(Xor(Xor(p, q), r), s)
            == Col(Sum(p.b0, q.b0, r.b0, s.b0), Sum(p.b1, q.b1, r.b1, s.b1),
                   Sum(p.b2, q.b2, r.b2, s.b2), Sum(p.b3, q.b3, r.b3, s.b3))
  {
    hide Add, Sum;
    AddsAreSum(p.b0, q.b0, r.b0, s.b0);
    AddsAreSum(p.b1, q.b1, r.b1, s.b1);
    AddsAreSum(p.b2, q.b2, r.b2, s.b2);
    AddsAreSum(p.b3, q.b3, r.b3, s.b3);
  }

  /** A round word by table lookup is SubBytes, ShiftRows and MixColumns with the round key. */
  lemma FRnIsRound(a: bv32, b: bv32, c: bv32, d: bv32, k: bv32)
    ensures Unpack(FRn(a, b, c, d, k)) == Xor(Mix(SubCol(Col(B0(a), B1(b), B2(c), B3(d)))), Unpack(k))
  {
    var t0, t1, t2, t3 := Ft0(B0(a)), Ft1(B1(b)), Ft2(B2(c)), Ft3(B3(d));
    hide Ft0, S, X, Times3, Xor4, Xor32, Ror8, Ror16, Ror24, Xor, Sum, B0, B1, B2, B3;
    UnpackXor(Xor4(t0, t1, t2, t3), k);
    UnpackXor4(t0, t1, t2, t3);
    XorsAreSums(Unpack(t0), Unpack(t1), Unpack(t2), Unpack(t3));
    Ft0Column(B0(a));
    Ft0Column(B1(b));
    Ft0Column(B2(c));
    Ft0Column(B3(d));
    UnpackRor(Ft0(B1(b)));
    UnpackRor(Ft0(B2(c)));
    UnpackRor(Ft0(B3(d)));
  }

  lemma IRnIsRound(a: bv32, b: bv32, c: bv32, d: bv32, k: bv32)
    ensures Unpack(IRn(a, b, c, d, k)) == Xor(InvMix(InvSubCol(Col(B0(a), B1(b), B2(c), B3(d)))), Unpack(k))
  {
    var t0, t1, t2, t3 := It0(B0(a)), It1(B1(b)), It2(B2(c)), It3(B3(d));
    hide It0, InvS, Times9, Times11, Times13, Times14, Xor4, Xor32, Ror8, Ror16, Ror24, Xor, Sum, B0, B1, B2, B3;
    UnpackXor(Xor4(t0, t1, t2, t3), k);
    UnpackXor4(t0, t1, t2, t3);
    XorsAreSums(Unpack(t0), Unpack(t1), Unpack(t2), Unpack(t3));
    It0Column(B0(a));
    It0Column(B1(b));
    It0Column(B2(c));
    It0Column(B3(d));
    UnpackRor(It0(B1(b)));
    UnpackRor(It0(B2(c)));
    UnpackRor(It0(B3(d)));
  }

  lemma OneByte(b: bv8)
    ensures Unpack(Put0(b)) == Col(b, 0, 0, 0)
    ensures Unpack(Put1(b)) == Col(0, b, 0, 0)
    ensures Unpack(Put2(b)) == Col(0, 0, b, 0)
    ensures Unpack(Put3(b)) == Col(0, 0, 0, b)
  {
  }

  lemma SumOne(a: bv8)
    ensures Sum(a, 0, 0, 0) == a && Sum(0, a, 0, 0) == a && Sum(0, 0, a, 0) == a && Sum(0, 0, 0, a) == a
  {
  }

  lemma LastWord(p: bv8, q: bv8, r: bv8, s: bv8)
    ensures Unpack(Xor4(Put0(p), Put1(q), Put2(r), Put3(s))) == Col(p, q, r, s)
  {
    hide Xor4, Xor, Sum, Unpack, Put0, Put1, Put2, Put3;
    UnpackXor4(Put0(p), Put1(q), Put2(r), Put3(s));
    OneByte(p);
    OneByte(q);
    OneByte(r);
    OneByte(s);
    XorsAreSums(Col(p, 0, 0, 0), Col(0, q, 0, 0), Col(0, 0, r, 0), Col(0, 0, 0, s));
    SumOne(p);
    SumOne(q);
    SumOne(r);
    SumOne(s);
  }

  lemma FRlIsRound(a: bv32, b: bv32, c: bv32, d: bv32, k: bv32)
    ensures Unpack(FRl(a, b, c, d, k)) == Xor(SubCol(Col(B0(a), B1(b), B2(c), B3(d))), Unpack(k))
  {
    hide S, Xor4, Xor32, Xor, B0, B1, B2, B3, Unpack, Put0, Put1, Put2, Put3;
    LastWord(S(B0(a)), S(B1(b)), S(B2(c)), S(B3(d)));
    UnpackXor(Xor4(Fl0(B0(a)), Fl1(B1(b)), Fl2(B2(c)), Fl3(B3(d))), k);
  }

  lemma IRlIsRound(a: bv32, b: bv32, c: bv32, d: bv32, k: bv32)
    ensures Unpack(IRl(a, b, c, d, k)) == Xor(InvSubCol(Col(B0(a), B1(b), B2(c), B3(d))), Unpack(k))
  {
    hide InvS, Xor4, Xor32, Xor, B0, B1, B2, B3, Unpack, Put0, Put1, Put2, Put3;
    LastWord(InvS(B0(a)), InvS(B1(b)), InvS(B2(c)), InvS(B3(d)));
    UnpackXor(Xor4(Il0(B0(a)), Il1(B1(b)), Il2(B2(c)), Il3(B3(d))), k);
  }

  // ---------------------------------------------------------------------------------------
  // Rounds on four words

  datatype Words = Words(w0: bv32, w1: bv32, w2: bv32, w3: bv32)

  function StateOf(b: Words): State {
    State(Unpack(b.w0), Unpack(b.w1), Unpack(b.w2), Unpack(b.w3))
  }

  function XorWords(b: Words, k: Words): Words {
    Words(Xor32(b.w0, k.w0), Xor32(b.w1, k.w1), Xor32(b.w2, k.w2), Xor32(b.w3, k.w3))
  }

  /** f_nround */
  function FNround(b: Words, k: Words): Words {
    Words(FRn(b.w0, b.w1, b.w2, b.w3, k.w0), FRn(b.w1, b.w2, b.w3, b.w0, k.w1),
          FRn(b.w2, b.w3, b.w0, b.w1, k.w2), FRn(b.w3, b.w0, b.w1, b.w2, k.w3))
  }

  /** f_lround */
  function FLround(b: Words, k: Words): Words {
    Words(FRl(b.w0, b.w1, b.w2, b.w3, k.w0), FRl(b.w1, b.w2, b.w3, b.w0, k.w1),
          FRl(b.w2, b.w3, b.w0, b.w1, k.w2), FRl(b.w3, b.w0, b.w1, b.w2, k.w3))
  }

  /** i_nround */
  function INround(b: Words, k: Words): Words {
    Words(IRn(b.w0, b.w3, b.w2, b.w1, k.w0), IRn(b.w1, b.w0, b.w3, b.w2, k.w1),
          IRn(b.w2, b.w1, b.w0, b.w3, k.w2), IRn(b.w3, b.w2, b.w1, b.w0, k.w3))
  }

  /** i_lround */
  function ILround(b: Words, k: Words): Words {
    Words(IRl(b.w0, b.w3, b.w2, b.w1, k.w0), IRl(b.w1, b.w0, b.w3, b.w2, k.w1),
          IRl(b.w2, b.w1, b.w0, b.w3, k.w2), IRl(b.w3, b.w2, b.w1, b.w0, k.w3))
  }

  lemma XorWordsIsKey(b: Words, k: Words)
    ensures StateOf(XorWords(b, k)) == AddRoundKey(StateOf(b), StateOf(k))
  {
    hide Xor32, Xor, Unpack;
    UnpackXor(b.w0, k.w0);
    UnpackXor(b.w1, k.w1);
    UnpackXor(b.w2, k.w2);
    UnpackXor(b.w3, k.w3);
  }

  lemma FNroundIsRound(b: Words, k: Words)
    ensures StateOf(FNround(b, k)) == AddRoundKey(MixColumns(ShiftRows(SubBytes(StateOf(b)))), StateOf(k))
  {
    hide FRn, Mix, Xor, S, B0, B1, B2, B3;
    FRnIsRound(b.w0, b.w1, b.w2, b.w3, k.w0);
    FRnIsRound(b.w1, b.w2, b.w3, b.w0, k.w1);
    FRnIsRound(b.w2, b.w3, b.w0, b.w1, k.w2);
    FRnIsRound(b.w3, b.w0, b.w1, b.w2, k.w3);
  }

  lemma FLroundIsRound(b: Words, k: Words)
    ensures StateOf(FLround(b, k)) == AddRoundKey(ShiftRows(SubBytes(StateOf(b))), StateOf(k))
  {
    hide FRl, Xor, S, B0, B1, B2, B3;
    FRlIsRound(b.w0, b.w1, b.w2, b.w3, k.w0);
    FRlIsRound(b.w1, b.w2, b.w3, b.w0, k.w1);
    FRlIsRound(b.w2, b.w3, b.w0, b.w1, k.w2);
    FRlIsRound(b.w3, b.w0, b.w1, b.w2, k.w3);
  }

  lemma INroundIsRound(b: Words, k: Words)
    ensures StateOf(INround(b, k)) == AddRoundKey(InvMixColumns(InvShiftRows(InvSubBytes(StateOf(b)))), StateOf(k))
  {
    hide IRn, InvMix, Xor, InvS, B0, B1, B2, B3;
    IRnIsRound(b.w0, b.w3, b.w2, b.w1, k.w0);
    IRnIsRound(b.w1, b.w0, b.w3, b.w2, k.w1);
    IRnIsRound(b.w2, b.w1, b.w0, b.w3, k.w2);
    IRnIsRound(b.w3, b.w2, b.w1, b.w0, k.w3);
  }

  lemma ILroundIsRound(b: Words, k: Words)
    ensures StateOf(ILround(b, k)) == AddRoundKey(InvShiftRows(InvSubBytes(StateOf(b))), StateOf(k))
  {
    hide IRl, Xor, InvS, B0, B1, B2, B3;
    IRlIsRound(b.w0, b.w3, b.w2, b.w1, k.w0);
    IRlIsRound(b.w1, b.w0, b.w3, b.w2, k.w1);
    IRlIsRound(b.w2, b.w1, b.w0, b.w3, k.w2);
    IRlIsRound(b.w3, b.w2, b.w1, b.w0, k.w3);
  }

  // ---------------------------------------------------------------------------------------
  // Key expansion, section 5.2 of FIPS-197

  function SubWord(x: bv32): bv32 { Pack(SubCol(Unpack(x))) }
  function RotWord(x: bv32): bv32 { Pack(Col(B1(x), B2(x), B3(x), B0(x))) }

  /** The powers of x in the field, from the first on. */
  function Rcon(i: nat): bv8 {
    if i <= 1 then 1 else X(Rcon(i - 1))
  }

  /** What is added to the word Nk places back to give the next word. */
  function Temp(ks: seq<bv32>, nk: nat): bv32
    requires 0 < nk <= |ks|
  {
    var i, t := |ks|, ks[|ks| - 1];
    if i % nk == 0 then Xor32(SubWord(RotWord(t)), Put0(Rcon(i / nk)))
    else if nk > 6 && i % nk == 4 then SubWord(t)
    else t
  }

  /** The first n words of the key schedule. */
  function KeySchedule(key: seq<bv32>, n: nat): (ks: seq<bv32>)
    requires |key| > 0
    ensures |ks| == n
  {
    if n <= |key| then key[..n]
    else
      var ks := KeySchedule(key, n - 1);
      ks + [Xor32(Temp(ks, |key|), ks[n - 1 - |key|])]
  }

  /** ls_box */
  function LsBox(x: bv32): bv32 {
    Xor4(Fl0(B0(x)), Fl1(B1(x)), Fl2(B2(x)), Fl3(B3(x)))
  }

  /** rco_tab */
  function Rco(i: nat): bv32
    requires i < 10
  {
    [1, 2, 4, 8, 16, 32, 64, 128, 27, 54][i]
  }

  lemma LsBoxIsSubWord(x: bv32)
    ensures LsBox(x) == SubWord(x)
  {
    hide S, Xor4, B0, B1, B2, B3, Put0, Put1, Put2, Put3, Pack;
    LastWord(S(B0(x)), S(B1(x)), S(B2(x)), S(B3(x)));
    UnpackPack(SubCol(Unpack(x)));
    SameBytes(LsBox(x), SubWord(x));
  }

  lemma Ror8IsRotWord(x: bv32)
    ensures Ror8(x) == RotWord(x)
  {
    hide Ror8, B0, B1, B2, B3, Pack;
    UnpackRor(x);
    UnpackPack(Col(B1(x), B2(x), B3(x), B0(x)));
    SameBytes(Ror8(x), RotWord(x));
  }

  lemma RcoIsRcon(i: nat)
    requires i < 10
    ensures Rco(i) == Put0(Rcon(i + 1))
  {
    hide X;
    Powers();
    assert Rcon(1) == 1 && Rcon(2) == 2 && Rcon(3) == 4 && Rcon(4) == 8 && Rcon(5) == 16;
    assert Rcon(6) == 32 && Rcon(7) == 64 && Rcon(8) == 128 && Rcon(9) == 27 && Rcon(10) == 54;
  }

  lemma Powers()
    ensures X(1) == 2 && X(2) == 4 && X(4) == 8 && X(8) == 16 && X(16) == 32
    ensures X(32) == 64 && X(64) == 128 && X(128) == 27 && X(27) == 54
  {
  }
}
