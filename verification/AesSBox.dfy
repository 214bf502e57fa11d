/** The table S against its definition in section 5.1.1 of FIPS-197: the multiplicative inverse in the field,
    then an affine map over bits. */
module AesSBox {
  import opened AesField
  import opened AesTables

  function Bit(y: bv8, mask: bv8, p: bv8): bv8 { if y & mask != 0 then p else 0 }

  /** Multiplication in the field, by doubling (section 4.2.1 of FIPS-197). */
  function Mul(x: bv8, y: bv8): bv8 {
    var x1 := X(x);
    var x2 := X(x1);
    var x3 := X(x2);
    var x4 := X(x3);
    var x5 := X(x4);
    var x6 := X(x5);
    var x7 := X(x6);
    Bit(y, 1, x) ^ Bit(y, 2, x1) ^ Bit(y, 4, x2) ^ Bit(y, 8, x3)
    ^ Bit(y, 16, x4) ^ Bit(y, 32, x5) ^ Bit(y, 64, x6) ^ Bit(y, 128, x7)
  }

  function Affine(b: bv8): bv8 {
    b ^ ((b << 1) | (b >> 7)) ^ ((b << 2) | (b >> 6)) ^ ((b << 3) | (b >> 5)) ^ ((b << 4) | (b >> 4)) ^ 0x63
  }

  function InvAffine(b: bv8): bv8 {
    ((b << 1) | (b >> 7)) ^ ((b << 3) | (b >> 5)) ^ ((b << 6) | (b >> 2)) ^ 0x05
  }

  lemma AffineInverts(b: bv8)
    ensures Affine(InvAffine(b)) == b
  {
  }

  predicate Inverse(x: bv8) {
    if x == 0 then InvAffine(S(x)) == 0 else Mul(x, InvAffine(S(x))) == 1
  }

  lemma InverseInTable(x: bv8)
    ensures Inverse(x)
  {
    hide Inverse;
    if x < 0x40 {
      FirstQuarter(x);
    } else if x < 0x80 {
      SecondQuarter(x);
    } else if x < 0xc0 {
      ThirdQuarter(x);
    } else {
      FourthQuarter(x);
    }
  }

  lemma FirstQuarter(x: bv8)
    requires x < 0x40
    ensures Inverse(x)
  {
  }

  lemma SecondQuarter(x: bv8)
    requires 0x40 <= x < 0x80
    ensures Inverse(x)
  {
  }

  lemma ThirdQuarter(x: bv8)
    requires 0x80 <= x < 0xc0
    ensures Inverse(x)
  {
  }

  lemma FourthQuarter(x: bv8)
    requires 0xc0 <= x
    ensures Inverse(x)
  {
  }

  /** S(x) is the affine map of the inverse y of x, and of 0 when x is 0. */
  lemma SBoxDefinition(x: bv8) returns (y: bv8)
    ensures S(x) == Affine(y)
    ensures if x == 0 then y == 0 else Mul(x, y) == 1
  {
    hide S, Mul, Affine, InvAffine;
    y := InvAffine(S(x));
    AffineInverts(S(x));
    InverseInTable(x);
  }
}
