/** Bytes, words and columns of AES: the field GF(2^8) of section 4.2 of FIPS-197 and the column
    transformations of sections 5.1.3 and 5.3.3, with the word arithmetic of crypto/aes_generic.c that
    computes them four bytes at a time. */
module AesField {

  // ---------------------------------------------------------------------------------------
  // Bytes as elements of the field

  function Add(a: bv8, b: bv8): bv8 { a ^ b }
  function Sum(a: bv8, b: bv8, c: bv8, d: bv8): bv8 { Add(Add(a, b), Add(c, d)) }

  /** What is added when the top bit is shifted out. */
  function Carry(b: bv8): bv8 { if b & 0x80 != 0 then 0x1b else 0 }

  function Shift(b: bv8): bv8 { b << 1 }

  /** xtime: multiplication by 2 */
  function X(b: bv8): bv8 { Add(Shift(b), Carry(b)) }

  function Times3(b: bv8): bv8 { Add(X(b), b) }
  function Times9(b: bv8): bv8 { Add(X(X(X(b))), b) }
  function Times11(b: bv8): bv8 { Add(X(b), Add(X(X(X(b))), b)) }
  function Times13(b: bv8): bv8 { Add(X(X(b)), Add(X(X(X(b))), b)) }
  function Times14(b: bv8): bv8 { Add(Add(X(b), X(X(b))), X(X(X(b)))) }

  lemma PartsLinear(a: bv8, b: bv8)
    ensures Carry(Add(a, b)) == Add(Carry(a), Carry(b)) && Shift(Add(a, b)) == Add(Shift(a), Shift(b))
  {
  }

  lemma Comm(a: bv8, b: bv8)
    ensures Add(a, b) == Add(b, a)
  {
  }

  lemma Assoc(a: bv8, b: bv8, c: bv8)
    ensures Add(Add(a, b), c) == Add(a, Add(b, c))
  {
  }

  lemma Zero(a: bv8)
    ensures Add(a, 0) == a
  {
  }

  lemma Swap(a: bv8, b: bv8, c: bv8, d: bv8)
    ensures Add(Add(a, b), Add(c, d)) == Add(Add(a, c), Add(b, d))
  {
    hide Add;
    Assoc(a, b, Add(c, d));
    Assoc(b, c, d);
    Comm(b, c);
    Assoc(c, b, d);
    Assoc(a, c, Add(b, d));
  }

  lemma XLinear(a: bv8, b: bv8)
    ensures X(Add(a, b)) == Add(X(a), X(b))
  {
    hide Add, Carry, Shift;
    PartsLinear(a, b);
    Swap(Shift(a), Shift(b), Carry(a), Carry(b));
  }

  lemma TimesLinear(a: bv8, b: bv8)
    ensures Times9(Add(a, b)) == Add(Times9(a), Times9(b))
    ensures Times11(Add(a, b)) == Add(Times11(a), Times11(b))
    ensures Times13(Add(a, b)) == Add(Times13(a), Times13(b))
    ensures Times14(Add(a, b)) == Add(Times14(a), Times14(b))
  {
    hide X, Add;
    var a1, b1 := X(a), X(b);
    var a2, b2 := X(a1), X(b1);
    var a3, b3 := X(a2), X(b2);
    XLinear(a, b);
    XLinear(a1, b1);
    XLinear(a2, b2);
    Swap(a3, b3, a, b);
    Swap(a1, b1, Add(a3, a), Add(b3, b));
    Swap(a2, b2, Add(a3, a), Add(b3, b));
    Swap(a1, b1, a2, b2);
    Swap(Add(a1, a2), Add(b1, b2), a3, b3);
  }

  lemma FourLinear(a: bv8, b: bv8, c: bv8, d: bv8)
    ensures Times9(Sum(a, b, c, d)) == Sum(Times9(a), Times9(b), Times9(c), Times9(d))
    ensures Times11(Sum(a, b, c, d)) == Sum(Times11(a), Times11(b), Times11(c), Times11(d))
    ensures Times13(Sum(a, b, c, d)) == Sum(Times13(a), Times13(b), Times13(c), Times13(d))
    ensures Times14(Sum(a, b, c, d)) == Sum(Times14(a), Times14(b), Times14(c), Times14(d))
  {
    hide Add, Times9, Times11, Times13, Times14;
    TimesLinear(a, b);
    TimesLinear(c, d);
    TimesLinear(Add(a, b), Add(c, d));
  }

  /** The rows of the product of the two circulant matrices of MixColumns and InvMixColumns. */
  predicate Product(a: bv8) {
    && Sum(Times14(X(a)), Times11(a), Times13(a), Times9(Times3(a))) == a
    && Sum(Times14(Times3(a)), Times11(X(a)), Times13(a), Times9(a)) == 0
    && Sum(Times14(a), Times11(Times3(a)), Times13(X(a)), Times9(a)) == 0
    && Sum(Times14(a), Times11(a), Times13(Times3(a)), Times9(X(a))) == 0
  }

  /** The multiples of 3a are sums of neighbouring powers. */
  lemma TripleX(a: bv8)
    ensures X(Times3(a)) == Add(X(X(a)), X(a))
    ensures X(X(Times3(a))) == Add(X(X(X(a))), X(X(a)))
    ensures X(X(X(Times3(a)))) == Add(X(X(X(X(a)))), X(X(X(a))))
  {
    hide Add, X;
    XLinear(X(a), a);
    XLinear(X(X(a)), X(a));
    XLinear(X(X(X(a))), X(X(a)));
  }

  /** Two equal halves. */
  lemma AddSelf(a: bv8, b: bv8)
    ensures Add(a, a) == 0 && Add(Add(b, a), b) == a
  {
  }

  lemma FirstHalves(a: bv8, q: bv8, r: bv8, w: bv8)
    ensures Add(Add(Add(q, r), w), Add(q, Add(r, a))) == Add(w, a)
  {
  }

  lemma FirstRest(a: bv8, p: bv8, r: bv8, w: bv8)
    ensures Add(Add(p, Add(r, a)), Add(Add(w, r), Add(p, a))) == w
  {
  }

  lemma SecondHalves(a: bv8, p: bv8, q: bv8, r: bv8, w: bv8)
    ensures Add(Add(Add(Add(q, p), Add(r, q)), Add(w, r)), Add(q, Add(w, p))) == q
    ensures Add(Add(q, Add(r, a)), Add(r, a)) == q
  {
  }

  lemma ThirdHalves(a: bv8, p: bv8, q: bv8, r: bv8, w: bv8)
    ensures Add(Add(Add(p, q), r), Add(Add(q, p), Add(Add(w, r), Add(p, a)))) == Add(w, Add(p, a))
  {
  }

  lemma ThirdRest(a: bv8, p: bv8, r: bv8, w: bv8)
    ensures Add(Add(r, Add(w, p)), Add(r, a)) == Add(w, Add(p, a))
  {
  }

  lemma FourthHalves(a: bv8, p: bv8, q: bv8, r: bv8, w: bv8)
    ensures Add(Add(Add(p, q), r), Add(p, Add(r, a))) == Add(q, a)
    ensures Add(Add(Add(r, q), Add(Add(w, r), Add(p, a))), Add(w, p)) == Add(q, a)
  {
  }

  lemma Products(a: bv8)
    ensures Product(a)
  {
    hide Add, X;
    var p, q, r := X(a), X(X(a)), X(X(X(a)));
    TripleX(a);
    var w := X(r);
    Swap(Add(Add(q, r), w), Add(p, Add(r, a)), Add(q, Add(r, a)), Add(Add(w, r), Add(p, a)));
    FirstHalves(a, q, r, w);
    FirstRest(a, p, r, w);
    AddSelf(a, w);
    SecondHalves(a, p, q, r, w);
    AddSelf(q, q);
    ThirdHalves(a, p, q, r, w);
    ThirdRest(a, p, r, w);
    AddSelf(Add(w, Add(p, a)), a);
    FourthHalves(a, p, q, r, w);
    AddSelf(Add(q, a), a);
  }

  // ---------------------------------------------------------------------------------------
  // Columns

  datatype Col = Col(b0: bv8, b1: bv8, b2: bv8, b3: bv8)

  function Xor(c: Col, d: Col): Col {
    Col(Add(c.b0, d.b0), Add(c.b1, d.b1), Add(c.b2, d.b2), Add(c.b3, d.b3))
  }

  /** MixColumns on one column. */
  function Mix(c: Col): Col {
    Col(Sum(X(c.b0), Times3(c.b1), c.b2, c.b3),
        Sum(c.b0, X(c.b1), Times3(c.b2), c.b3),
        Sum(c.b0, c.b1, X(c.b2), Times3(c.b3)),
        Sum(Times3(c.b0), c.b1, c.b2, X(c.b3)))
  }

  /** InvMixColumns on one column. */
  function InvMix(c: Col): Col {
    Col(Sum(Times14(c.b0), Times11(c.b1), Times13(c.b2), Times9(c.b3)),
        Sum(Times9(c.b0), Times14(c.b1), Times11(c.b2), Times13(c.b3)),
        Sum(Times13(c.b0), Times9(c.b1), Times14(c.b2), Times11(c.b3)),
        Sum(Times11(c.b0), Times13(c.b1), Times9(c.b2), Times14(c.b3)))
  }

  lemma SumAdd(a: bv8, b: bv8, c: bv8, d: bv8, e: bv8, f: bv8, g: bv8, h: bv8)
    ensures Sum(Add(a, e), Add(b, f), Add(c, g), Add(d, h)) == Add(Sum(a, b, c, d), Sum(e, f, g, h))
  {
    hide Add;
    Swap(a, e, b, f);
    Swap(c, g, d, h);
    Swap(Add(a, b), Add(e, f), Add(c, d), Add(g, h));
  }

  lemma InvMixLinear(c: Col, d: Col)
    ensures InvMix(Xor(c, d)) == Xor(InvMix(c), InvMix(d))
  {
    hide Add, Sum, Times9, Times11, Times13, Times14;
    TimesLinear(c.b0, d.b0);
    TimesLinear(c.b1, d.b1);
    TimesLinear(c.b2, d.b2);
    TimesLinear(c.b3, d.b3);
    SumAdd(Times14(c.b0), Times11(c.b1), Times13(c.b2), Times9(c.b3),
           Times14(d.b0), Times11(d.b1), Times13(d.b2), Times9(d.b3));
    SumAdd(Times9(c.b0), Times14(c.b1), Times11(c.b2), Times13(c.b3),
           Times9(d.b0), Times14(d.b1), Times11(d.b2), Times13(d.b3));
    SumAdd(Times13(c.b0), Times9(c.b1), Times14(c.b2), Times11(c.b3),
           Times13(d.b0), Times9(d.b1), Times14(d.b2), Times11(d.b3));
    SumAdd(Times11(c.b0), Times13(c.b1), Times9(c.b2), Times14(c.b3),
           Times11(d.b0), Times13(d.b1), Times9(d.b2), Times14(d.b3));
  }

  lemma Regroup(a1: bv8, a2: bv8, a3: bv8, a4: bv8, b1: bv8, b2: bv8, b3: bv8, b4: bv8,
                c1: bv8, c2: bv8, c3: bv8, c4: bv8, d1: bv8, d2: bv8, d3: bv8, d4: bv8)
    ensures Sum(Sum(a1, b1, c1, d1), Sum(a2, b2, c2, d2), Sum(a3, b3, c3, d3), Sum(a4, b4, c4, d4))
            == Sum(Sum(a1, a2, a3, a4), Sum(b1, b2, b3, b4), Sum(c1, c2, c3, c4), Sum(d1, d2, d3, d4))
  {
    hide Add;
    SumAdd(Add(a1, b1), Add(a2, b2), Add(a3, b3), Add(a4, b4), Add(c1, d1), Add(c2, d2), Add(c3, d3), Add(c4, d4));
    SumAdd(a1, a2, a3, a4, b1, b2, b3, b4);
    SumAdd(c1, c2, c3, c4, d1, d2, d3, d4);
  }

  /** One row of InvMix after Mix. */
  lemma RowInverse(a: bv8, b: bv8, c: bv8, d: bv8)
    ensures Sum(Times14(Sum(X(a), Times3(b), c, d)), Times11(Sum(a, X(b), Times3(c), d)),
                Times13(Sum(a, b, X(c), Times3(d))), Times9(Sum(Times3(a), b, c, X(d)))) == a
  {
    hide Sum, X, Times3, Times9, Times11, Times13, Times14;
    FourLinear(X(a), Times3(b), c, d);
    FourLinear(a, X(b), Times3(c), d);
    FourLinear(a, b, X(c), Times3(d));
    FourLinear(Times3(a), b, c, X(d));
    Products(a);
    Products(b);
    Products(c);
    Products(d);
    Regroup(Times14(X(a)), Times11(a), Times13(a), Times9(Times3(a)),
            Times14(Times3(b)), Times11(X(b)), Times13(b), Times9(b),
            Times14(c), Times11(Times3(c)), Times13(X(c)), Times9(c),
            Times14(d), Times11(d), Times13(Times3(d)), Times9(X(d)));
    SumZero(a);
  }

  lemma SumZero(a: bv8)
    ensures Sum(a, 0, 0, 0) == a
  {
    hide Add;
    Zero(0);
    Zero(a);
  }

  lemma Rotate(a: bv8, b: bv8, c: bv8, d: bv8)
    ensures Sum(a, b, c, d) == Sum(b, c, d, a) && Sum(a, b, c, d) == Sum(c, d, a, b)
    ensures Sum(a, b, c, d) == Sum(d, a, b, c)
  {
    hide Add;
    Comm(Add(a, b), Add(c, d));
    RotateOne(a, b, c, d);
    RotateOne(d, a, b, c);
  }

  lemma RotateOne(a: bv8, b: bv8, c: bv8, d: bv8)
    ensures Sum(a, b, c, d) == Sum(b, c, d, a)
  {
    hide Add;
    Comm(d, a);
    Swap(b, c, a, d);
    Comm(b, a);
  }

  /** InvMixColumns undoes MixColumns. */
  lemma InvMixInverts(c: Col)
    ensures InvMix(Mix(c)) == c
  {
    hide Sum, X, Times3, Times9, Times11, Times13, Times14;
    var m := Mix(c);
    RowInverse(c.b0, c.b1, c.b2, c.b3);
    RowInverse(c.b1, c.b2, c.b3, c.b0);
    RowInverse(c.b2, c.b3, c.b0, c.b1);
    RowInverse(c.b3, c.b0, c.b1, c.b2);
    Rotate(X(c.b0), Times3(c.b1), c.b2, c.b3);
    Rotate(c.b0, X(c.b1), Times3(c.b2), c.b3);
    Rotate(c.b0, c.b1, X(c.b2), Times3(c.b3));
    Rotate(Times3(c.b0), c.b1, c.b2, X(c.b3));
    Rotate(Times9(m.b0), Times14(m.b1), Times11(m.b2), Times13(m.b3));
    Rotate(Times13(m.b0), Times9(m.b1), Times14(m.b2), Times11(m.b3));
    Rotate(Times11(m.b0), Times13(m.b1), Times9(m.b2), Times14(m.b3));
  }

  // ---------------------------------------------------------------------------------------
  // Words: four bytes, the first in the lowest position

  function B0(x: bv32): bv8 { (x & 0xff) as bv8 }
  function B1(x: bv32): bv8 { ((x >> 8) & 0xff) as bv8 }
  function B2(x: bv32): bv8 { ((x >> 16) & 0xff) as bv8 }
  function B3(x: bv32): bv8 { ((x >> 24) & 0xff) as bv8 }

  function Xor32(x: bv32, y: bv32): bv32 { x ^ y }

  function Pack(c: Col): bv32 {
    (c.b0 as bv32) | ((c.b1 as bv32) << 8) | ((c.b2 as bv32) << 16) | ((c.b3 as bv32) << 24)
  }

  function Unpack(x: bv32): Col {
    Col(B0(x), B1(x), B2(x), B3(x))
  }

  lemma PackUnpack(x: bv32)
    ensures Pack(Unpack(x)) == x
  {
  }

  lemma UnpackPack(c: Col)
    ensures Unpack(Pack(c)) == c
  {
  }

  lemma SameBytes(x: bv32, y: bv32)
    requires Unpack(x) == Unpack(y)
    ensures x == y
  {
    hide Unpack, Pack;
    PackUnpack(x);
    PackUnpack(y);
  }

  lemma UnpackXor(x: bv32, y: bv32)
    ensures Unpack(Xor32(x, y)) == Xor(Unpack(x), Unpack(y))
  {
  }

  /** ror32 by one, two and three bytes */
  function Ror8(x: bv32): bv32 { (x >> 8) | (x << 24) }
  function Ror16(x: bv32): bv32 { (x >> 16) | (x << 16) }
  function Ror24(x: bv32): bv32 { (x >> 24) | (x << 8) }

  lemma UnpackRor(x: bv32)
    ensures Unpack(Ror8(x)) == Col(B1(x), B2(x), B3(x), B0(x))
    ensures Unpack(Ror16(x)) == Col(B2(x), B3(x), B0(x), B1(x))
    ensures Unpack(Ror24(x)) == Col(B3(x), B0(x), B1(x), B2(x))
  {
  }

  /** star_x: multiplication by 2 of all four bytes at once */
  function StarX(x: bv32): bv32 {
    ((x & 0x7f7f7f7f) << 1) ^ (((x & 0x80808080) >> 7) * 0x1b)
  }

  lemma StarXBytes(x: bv32)
    ensures Unpack(StarX(x)) == Col(X(B0(x)), X(B1(x)), X(B2(x)), X(B3(x)))
  {
  }

  /** imix_col */
  function ImixCol(x: bv32): bv32 {
    var u := StarX(x);
    var v := StarX(u);
    var w := StarX(v);
    var t := Xor32(w, x);
    Xor32(Xor32(Xor32(u, v), w), Xor32(Xor32(Ror8(Xor32(u, t)), Ror16(Xor32(v, t))), Ror24(t)))
  }

  lemma Nested(a: bv8, b: bv8, c: bv8, d: bv8)
    ensures Add(a, Add(Add(b, c), d)) == Sum(a, b, c, d)
  {
    hide Add;
    Assoc(b, c, d);
    Assoc(a, b, Add(c, d));
  }

  /** imix_col on a packed word is InvMixColumns. */
  lemma ImixColIsInvMix(x: bv32)
    ensures Unpack(ImixCol(x)) == InvMix(Unpack(x))
  {
    hide StarX, Ror8, Ror16, Ror24, X, B0, B1, B2, B3, Add, Sum, Xor32;
    var u := StarX(x);
    var v := StarX(u);
    var w := StarX(v);
    var t := Xor32(w, x);
    StarXBytes(x);
    StarXBytes(u);
    StarXBytes(v);
    UnpackXor(w, x);
    UnpackXor(u, t);
    UnpackXor(v, t);
    UnpackXor(u, v);
    UnpackXor(Xor32(u, v), w);
    UnpackRor(Xor32(u, t));
    UnpackRor(Xor32(v, t));
    UnpackRor(t);
    var r := Xor32(Ror8(Xor32(u, t)), Ror16(Xor32(v, t)));
    UnpackXor(Ror8(Xor32(u, t)), Ror16(Xor32(v, t)));
    UnpackXor(r, Ror24(t));
    UnpackXor(Xor32(Xor32(u, v), w), Xor32(r, Ror24(t)));
    var c := Unpack(x);
    Nested(Times14(c.b0), Times11(c.b1), Times13(c.b2), Times9(c.b3));
    Nested(Times14(c.b1), Times11(c.b2), Times13(c.b3), Times9(c.b0));
    Nested(Times14(c.b2), Times11(c.b3), Times13(c.b0), Times9(c.b1));
    Nested(Times14(c.b3), Times11(c.b0), Times13(c.b1), Times9(c.b2));
    Rotate(Times9(c.b0), Times14(c.b1), Times11(c.b2), Times13(c.b3));
    Rotate(Times13(c.b0), Times9(c.b1), Times14(c.b2), Times11(c.b3));
    Rotate(Times11(c.b0), Times13(c.b1), Times9(c.b2), Times14(c.b3));
  }
}
