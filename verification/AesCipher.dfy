/** AES as FIPS-197 defines it: the Cipher of section 5.1 and the Equivalent Inverse Cipher of section
    5.3.5 over any number of rounds, and why the second undoes the first. */
module AesCipher {
  import opened AesField
  import opened AesTables

  /** The state, by columns. */
  datatype State = State(c0: Col, c1: Col, c2: Col, c3: Col)

  function SubCol(c: Col): Col { Col(S(c.b0), S(c.b1), S(c.b2), S(c.b3)) }
  function InvSubCol(c: Col): Col { Col(InvS(c.b0), InvS(c.b1), InvS(c.b2), InvS(c.b3)) }

  function SubBytes(s: State): State { State(SubCol(s.c0), SubCol(s.c1), SubCol(s.c2), SubCol(s.c3)) }
  function InvSubBytes(s: State): State { State(InvSubCol(s.c0), InvSubCol(s.c1), InvSubCol(s.c2), InvSubCol(s.c3)) }

  /** Row r moves left by r columns. */
  function ShiftRows(s: State): State {
    State(Col(s.c0.b0, s.c1.b1, s.c2.b2, s.c3.b3), Col(s.c1.b0, s.c2.b1, s.c3.b2, s.c0.b3),
          Col(s.c2.b0, s.c3.b1, s.c0.b2, s.c1.b3), Col(s.c3.b0, s.c0.b1, s.c1.b2, s.c2.b3))
  }

  /** Row r moves right by r columns. */
  function InvShiftRows(s: State): State {
    State(Col(s.c0.b0, s.c3.b1, s.c2.b2, s.c1.b3), Col(s.c1.b0, s.c0.b1, s.c3.b2, s.c2.b3),
          Col(s.c2.b0, s.c1.b1, s.c0.b2, s.c3.b3), Col(s.c3.b0, s.c2.b1, s.c1.b2, s.c0.b3))
  }

  function MixColumns(s: State): State { State(Mix(s.c0), Mix(s.c1), Mix(s.c2), Mix(s.c3)) }
  function InvMixColumns(s: State): State { State(InvMix(s.c0), InvMix(s.c1), InvMix(s.c2), InvMix(s.c3)) }

  function AddRoundKey(s: State, k: State): State {
    State(Xor(s.c0, k.c0), Xor(s.c1, k.c1), Xor(s.c2, k.c2), Xor(s.c3, k.c3))
  }

  /** The state after round i of the Cipher, and before the last one. */
  function CipherRounds(block: State, w: seq<State>, i: nat): State
    requires i < |w|
  {
    if i == 0 then AddRoundKey(block, w[0])
    else AddRoundKey(MixColumns(ShiftRows(SubBytes(CipherRounds(block, w, i - 1)))), w[i])
  }

  function Cipher(block: State, w: seq<State>): State
    requires |w| >= 2
  {
    AddRoundKey(ShiftRows(SubBytes(CipherRounds(block, w, |w| - 2))), w[|w| - 1])
  }

  /** The state after round i of the Equivalent Inverse Cipher, and before the last one. */
  function InvRounds(block: State, dw: seq<State>, i: nat): State
    requires i < |dw|
  {
    if i == 0 then AddRoundKey(block, dw[0])
    else AddRoundKey(InvMixColumns(InvShiftRows(InvSubBytes(InvRounds(block, dw, i - 1)))), dw[i])
  }

  function EqInvCipher(block: State, dw: seq<State>): State
    requires |dw| >= 2
  {
    AddRoundKey(InvShiftRows(InvSubBytes(InvRounds(block, dw, |dw| - 2))), dw[|dw| - 1])
  }

  /** The decryption schedule: reversed, with InvMixColumns applied to all round keys but the outer two. */
  predicate IsInverseSchedule(w: seq<State>, dw: seq<State>) {
    && |w| == |dw| >= 2
    && forall i | 0 <= i < |w| ::
         dw[i] == if i == 0 || i == |w| - 1 then w[|w| - 1 - i] else InvMixColumns(w[|w| - 1 - i])
  }

  lemma ShiftSubUndone(s: State)
    ensures InvShiftRows(InvSubBytes(ShiftRows(SubBytes(s)))) == s
  {
    hide S, InvS;
    SubColUndone(s.c0);
    SubColUndone(s.c1);
    SubColUndone(s.c2);
    SubColUndone(s.c3);
  }

  lemma SubColUndone(c: Col)
    ensures InvSubCol(SubCol(c)) == c
  {
    hide S, InvS;
    InvSInverts(c.b0);
    InvSInverts(c.b1);
    InvSInverts(c.b2);
    InvSInverts(c.b3);
  }

  lemma AddTwice(a: bv8, b: bv8)
    ensures Add(Add(a, b), b) == a
  {
  }

  lemma XorTwice(c: Col, d: Col)
    ensures Xor(Xor(c, d), d) == c
  {
    hide Add;
    AddTwice(c.b0, d.b0);
    AddTwice(c.b1, d.b1);
    AddTwice(c.b2, d.b2);
    AddTwice(c.b3, d.b3);
  }

  lemma KeyTwice(s: State, k: State)
    ensures AddRoundKey(AddRoundKey(s, k), k) == s
  {
    hide Xor;
    XorTwice(s.c0, k.c0);
    XorTwice(s.c1, k.c1);
    XorTwice(s.c2, k.c2);
    XorTwice(s.c3, k.c3);
  }

  /** InvMixColumns passes through the round key. */
  lemma InvMixKey(s: State, k: State)
    ensures InvMixColumns(AddRoundKey(s, k)) == AddRoundKey(InvMixColumns(s), InvMixColumns(k))
  {
    hide Xor, InvMix;
    InvMixLinear(s.c0, k.c0);
    InvMixLinear(s.c1, k.c1);
    InvMixLinear(s.c2, k.c2);
    InvMixLinear(s.c3, k.c3);
  }

  lemma InvMixUndone(s: State)
    ensures InvMixColumns(MixColumns(s)) == s
  {
    hide Mix, InvMix;
    InvMixInverts(s.c0);
    InvMixInverts(s.c1);
    InvMixInverts(s.c2);
    InvMixInverts(s.c3);
  }

  /** After i rounds, decryption is where encryption was after SubBytes and ShiftRows of the round that
      faces it. */
  lemma {:induction false} RoundsFace(block: State, w: seq<State>, dw: seq<State>, i: nat)
    requires IsInverseSchedule(w, dw) && i <= |w| - 2
    ensures InvRounds(Cipher(block, w), dw, i) == ShiftRows(SubBytes(CipherRounds(block, w, |w| - 2 - i)))
    decreases i
  {
    hide AddRoundKey, ShiftRows, SubBytes, MixColumns, InvMixColumns, InvShiftRows, InvSubBytes;
    if i == 0 {
      assert dw[0] == w[|w| - 1];
      KeyTwice(ShiftRows(SubBytes(CipherRounds(block, w, |w| - 2))), w[|w| - 1]);
    } else {
      RoundsFace(block, w, dw, i - 1);
      var j := |w| - 1 - i;
      var s := CipherRounds(block, w, j);
      ShiftSubUndone(s);
      var m := MixColumns(ShiftRows(SubBytes(CipherRounds(block, w, j - 1))));
      assert s == AddRoundKey(m, w[j]);
      InvMixKey(m, w[j]);
      InvMixUndone(ShiftRows(SubBytes(CipherRounds(block, w, j - 1))));
      assert dw[i] == InvMixColumns(w[j]);
      KeyTwice(InvMixColumns(m), InvMixColumns(w[j]));
    }
  }

  /** The Equivalent Inverse Cipher undoes the Cipher, for any number of rounds and any round keys. */
  lemma EqInvCipherInverts(block: State, w: seq<State>, dw: seq<State>)
    requires IsInverseSchedule(w, dw)
    ensures EqInvCipher(Cipher(block, w), dw) == block
  {
    hide AddRoundKey, ShiftRows, SubBytes, MixColumns, InvMixColumns, InvShiftRows, InvSubBytes, Cipher;
    RoundsFace(block, w, dw, |w| - 2);
    ShiftSubUndone(CipherRounds(block, w, 0));
    assert dw[|w| - 1] == w[0];
    KeyTwice(block, w[0]);
  }
}
