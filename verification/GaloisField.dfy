/** The field GF(32) of the checksum symbols. */
module GaloisField {
  import opened CashAddrChecksum

  type Symbol = b: bv8 | b < 32

  // ----- GF(32) -----

  function Sum(a: Symbol, b: Symbol): Symbol { Add(a, b) }

  function Times(a: Symbol, b: Symbol): Symbol { GfMul(a, b) }

  lemma TwiceIsSymbol(a: bv8)
    requires a < 32
    ensures Twice(a) < 32
  {
  }

  lemma AddAssoc(a: bv8, b: bv8, c: bv8)
    ensures Add(Add(a, b), c) == Add(a, Add(b, c))
  {
    calc {
      Add(Add(a, b), c);
      Add(a ^ b, c);
      (a ^ b) ^ c;
      a ^ (b ^ c);
      Add(a, b ^ c);
      Add(a, Add(b, c));
    }
  }

  lemma AddComm(a: bv8, b: bv8)
    ensures Add(a, b) == Add(b, a)
  {
  }

  lemma AddSwap(a: bv8, b: bv8, c: bv8, d: bv8)
    ensures Add(Add(a, b), Add(c, d)) == Add(Add(a, c), Add(b, d))
  {
    hide Add;
    AddAssoc(a, b, Add(c, d));
    AddAssoc(b, c, d);
    AddComm(b, c);
    AddAssoc(c, b, d);
    AddAssoc(a, c, Add(b, d));
  }

  function Pick(a: bv8, bit: bv8, k: bv8): bv8 {
    if a & bit != 0 then k else 0
  }

  /** The product, bit by bit of `a`, from the doublings of `b`. */
  function FromBits(a: bv8, b: bv8, b2: bv8, b4: bv8, b8: bv8, b16: bv8): bv8 {
    Add(Add(Add(Add(Pick(a, 1, b), Pick(a, 2, b2)), Pick(a, 4, b4)), Pick(a, 8, b8)), Pick(a, 16, b16))
  }

  lemma TimesByBits(a: bv8, b: bv8, b2: bv8, b4: bv8, b8: bv8, b16: bv8)
    requires b2 == Twice(b) && b4 == Twice(b2) && b8 == Twice(b4) && b16 == Twice(b8)
    ensures GfMul(a, b) == FromBits(a, b, b2, b4, b8, b16)
  {
    hide Twice, Add;
    var p, q, r, s, t := Pick(a, 1, b), Pick(a, 2, b2), Pick(a, 4, b4), Pick(a, 8, b8), Pick(a, 16, b16);
    assert GfMul(a, b) == p ^ q ^ r ^ s ^ t;
    hide Pick, GfMul;
    FiveAdds(p, q, r, s, t);
  }

  lemma FiveAdds(p: bv8, q: bv8, r: bv8, s: bv8, t: bv8)
    ensures p ^ q ^ r ^ s ^ t == Add(Add(Add(Add(p, q), r), s), t)
  {
    calc {
      Add(Add(Add(Add(p, q), r), s), t);
      Add(Add(Add(p ^ q, r), s), t);
      Add(Add(p ^ q ^ r, s), t);
      Add(p ^ q ^ r ^ s, t);
      p ^ q ^ r ^ s ^ t;
    }
  }

  lemma PickLinear(c: bv8, d: bv8, bit: bv8, k: bv8)
    requires bit == 1 || bit == 2 || bit == 4 || bit == 8 || bit == 16
    ensures Pick(Add(c, d), bit, k) == Add(Pick(c, bit, k), Pick(d, bit, k))
  {
  }

  lemma FromBitsLinear(c: bv8, d: bv8, b: bv8, b2: bv8, b4: bv8, b8: bv8, b16: bv8)
    ensures FromBits(Add(c, d), b, b2, b4, b8, b16) ==
            Add(FromBits(c, b, b2, b4, b8, b16), FromBits(d, b, b2, b4, b8, b16))
  {
    hide Add, Pick;
    PickLinear(c, d, 1, b);
    PickLinear(c, d, 2, b2);
    PickLinear(c, d, 4, b4);
    PickLinear(c, d, 8, b8);
    PickLinear(c, d, 16, b16);
    var c1, c2, c3 := Pick(c, 1, b), Pick(c, 2, b2), Pick(c, 4, b4);
    var d1, d2, d3 := Pick(d, 1, b), Pick(d, 2, b2), Pick(d, 4, b4);
    AddSwap(c1, d1, c2, d2);
    AddSwap(Add(c1, c2), Add(d1, d2), c3, d3);
    AddSwap(Add(Add(c1, c2), c3), Add(Add(d1, d2), d3), Pick(c, 8, b8), Pick(d, 8, b8));
    AddSwap(Add(Add(Add(c1, c2), c3), Pick(c, 8, b8)), Add(Add(Add(d1, d2), d3), Pick(d, 8, b8)),
            Pick(c, 16, b16), Pick(d, 16, b16));
  }

  lemma TimesSumLeft(c: Symbol, d: Symbol, x: Symbol)
    ensures Times(Sum(c, d), x) == Sum(Times(c, x), Times(d, x))
  {
    hide Add, GfMul, Twice, FromBits;
    var x2, x4 := Twice(x), Twice(Twice(x));
    var x8 := Twice(x4);
    TimesByBits(c, x, x2, x4, x8, Twice(x8));
    TimesByBits(d, x, x2, x4, x8, Twice(x8));
    TimesByBits(Add(c, d), x, x2, x4, x8, Twice(x8));
    FromBitsLinear(c, d, x, x2, x4, x8, Twice(x8));
  }

  lemma TwiceLinear(x: bv8, y: bv8)
    ensures Twice(Add(x, y)) == Add(Twice(x), Twice(y))
  {
  }

  lemma PickAdds(c: bv8, bit: bv8, k: bv8, l: bv8)
    ensures Pick(c, bit, Add(k, l)) == Add(Pick(c, bit, k), Pick(c, bit, l))
  {
    hide Add;
    AddZero();
  }

  lemma AddZero()
    ensures Add(0, 0) == 0
  {
  }

  lemma FromBitsAdds(c: bv8, b: seq<bv8>, d: seq<bv8>)
    requires |b| == |d| == 5
    ensures FromBits(c, Add(b[0], d[0]), Add(b[1], d[1]), Add(b[2], d[2]), Add(b[3], d[3]), Add(b[4], d[4])) ==
            Add(FromBits(c, b[0], b[1], b[2], b[3], b[4]), FromBits(c, d[0], d[1], d[2], d[3], d[4]))
  {
    hide Add, Pick;
    PickAdds(c, 1, b[0], d[0]);
    PickAdds(c, 2, b[1], d[1]);
    PickAdds(c, 4, b[2], d[2]);
    PickAdds(c, 8, b[3], d[3]);
    PickAdds(c, 16, b[4], d[4]);
    var p1, p2, p3, p4 := Pick(c, 1, b[0]), Pick(c, 2, b[1]), Pick(c, 4, b[2]), Pick(c, 8, b[3]);
    var q1, q2, q3, q4 := Pick(c, 1, d[0]), Pick(c, 2, d[1]), Pick(c, 4, d[2]), Pick(c, 8, d[3]);
    AddSwap(p1, q1, p2, q2);
    AddSwap(Add(p1, p2), Add(q1, q2), p3, q3);
    AddSwap(Add(Add(p1, p2), p3), Add(Add(q1, q2), q3), p4, q4);
    AddSwap(Add(Add(Add(p1, p2), p3), p4), Add(Add(Add(q1, q2), q3), q4), Pick(c, 16, b[4]), Pick(c, 16, d[4]));
  }

  /** A number and its four doublings. */
  function Doublings(b: bv8): (ds: seq<bv8>)
    ensures |ds| == 5
  {
    [b, Twice(b), Twice(Twice(b)), Twice(Twice(Twice(b))), Twice(Twice(Twice(Twice(b))))]
  }

  lemma TimesSum(c: Symbol, x: Symbol, y: Symbol)
    ensures Times(c, Sum(x, y)) == Sum(Times(c, x), Times(c, y))
  {
    hide Add, GfMul, Twice, FromBits;
    var b, d, e := Doublings(x), Doublings(y), Doublings(Add(x, y));
    TwiceLinear(x, y);
    TwiceLinear(b[1], d[1]);
    TwiceLinear(b[2], d[2]);
    TwiceLinear(b[3], d[3]);
    TimesByBits(c, x, b[1], b[2], b[3], b[4]);
    TimesByBits(c, y, d[1], d[2], d[3], d[4]);
    TimesByBits(c, Add(x, y), e[1], e[2], e[3], e[4]);
    FromBitsAdds(c, b, d);
  }

  lemma SymbolByBits(a: Symbol)
    ensures a == Sum(Sum(Sum(Sum(Pick(a, 1, 1), Pick(a, 2, 2)), Pick(a, 4, 4)), Pick(a, 8, 8)), Pick(a, 16, 16))
  {
  }

  /** Single bits from the left. */
  lemma BitTimes(b: bv8)
    ensures GfMul(0, b) == 0 && GfMul(1, b) == b && GfMul(2, b) == Twice(b) && GfMul(4, b) == Twice(Twice(b))
    ensures GfMul(8, b) == Twice(Twice(Twice(b))) && GfMul(16, b) == Twice(Twice(Twice(Twice(b))))
    ensures GfMul(9, b) == Add(b, Twice(Twice(Twice(b))))
  {
    hide Twice;
  }

  lemma TimesBit1(b: bv8)
    requires b < 32
    ensures GfMul(b, 0) == 0 && GfMul(b, 1) == b
  {
  }

  lemma TimesBit2(b: bv8)
    requires b < 32
    ensures GfMul(b, 2) == Twice(b)
  {
  }

  lemma TimesBit4(b: bv8)
    requires b < 32
    ensures GfMul(b, 4) == Twice(Twice(b))
  {
  }

  lemma TimesBit8(b: bv8)
    requires b < 32
    ensures GfMul(b, 8) == Twice(Twice(Twice(b)))
  {
  }

  lemma TimesBit16(b: bv8)
    requires b < 32
    ensures GfMul(b, 16) == Twice(Twice(Twice(Twice(b))))
  {
  }

  lemma TimesBit(k: Symbol, b: Symbol)
    requires k == 0 || k == 1 || k == 2 || k == 4 || k == 8 || k == 16
    ensures Times(k, b) == Times(b, k)
  {
    hide Twice, GfMul;
    BitTimes(b);
    TimesBit1(b);
    TimesBit2(b);
    TimesBit4(b);
    TimesBit8(b);
    TimesBit16(b);
  }

  lemma PickIsBit(a: bv8, bit: bv8)
    ensures Pick(a, bit, bit) == 0 || Pick(a, bit, bit) == bit
  {
  }

  /** Multiplication is linear on both sides, and commutes for single bits. */
  lemma TimesComm(a: Symbol, b: Symbol)
    ensures Times(a, b) == Times(b, a)
  {
    SymbolByBits(a);
    PickIsBit(a, 1);
    PickIsBit(a, 2);
    PickIsBit(a, 4);
    PickIsBit(a, 8);
    PickIsBit(a, 16);
    hide Times, Sum, Pick;
    var p, q, r, s, t := Pick(a, 1, 1), Pick(a, 2, 2), Pick(a, 4, 4), Pick(a, 8, 8), Pick(a, 16, 16);
    TimesBit(p, b);
    TimesBit(q, b);
    TimesBit(r, b);
    TimesBit(s, b);
    TimesBit(t, b);
    FiveTimes(p, q, r, s, t, b);
    TimesSum(b, p, q);
    TimesSum(b, Sum(p, q), r);
    TimesSum(b, Sum(Sum(p, q), r), s);
    TimesSum(b, Sum(Sum(Sum(p, q), r), s), t);
  }

  /** a^5 = a^3 + 1. */
  lemma FiveDoublings(x: bv8)
    requires x < 32
    ensures Twice(Twice(Twice(Twice(Twice(x))))) == Add(x, Twice(Twice(Twice(x))))
  {
  }

  lemma TwiceBits()
    ensures Twice(0) == 0 && Twice(1) == 2 && Twice(2) == 4 && Twice(4) == 8 && Twice(8) == 16 && Twice(16) == 9
  {
  }

  lemma DoubledBit(k: Symbol, x: Symbol)
    requires k == 0 || k == 1 || k == 2 || k == 4 || k == 8 || k == 16
    ensures Twice(k) < 32 && Twice(Times(k, x)) == Times(Twice(k), x)
  {
    hide Twice, GfMul, Add;
    TwiceBits();
    BitTimes(x);
    FiveDoublings(x);
  }

  lemma DoubledProduct(k: Symbol, x: Symbol)
    ensures Twice(k) < 32 && Twice(Times(k, x)) == Times(Twice(k), x)
  {
    TwiceIsSymbol(k);
    SymbolByBits(k);
    PickIsBit(k, 1);
    PickIsBit(k, 2);
    PickIsBit(k, 4);
    PickIsBit(k, 8);
    PickIsBit(k, 16);
    hide Times, Add, Pick, Twice;
    var p, q, r, s, t := Pick(k, 1, 1), Pick(k, 2, 2), Pick(k, 4, 4), Pick(k, 8, 8), Pick(k, 16, 16);
    DoubledBit(p, x);
    DoubledBit(q, x);
    DoubledBit(r, x);
    DoubledBit(s, x);
    DoubledBit(t, x);
    FiveTimes(p, q, r, s, t, x);
    FiveTimes(Twice(p), Twice(q), Twice(r), Twice(s), Twice(t), x);
    FiveTwice(p, q, r, s, t);
    FiveTwice(Times(p, x), Times(q, x), Times(r, x), Times(s, x), Times(t, x));
  }

  lemma FiveTwice(p: bv8, q: bv8, r: bv8, s: bv8, t: bv8)
    ensures Twice(Add(Add(Add(Add(p, q), r), s), t)) ==
            Add(Add(Add(Add(Twice(p), Twice(q)), Twice(r)), Twice(s)), Twice(t))
  {
    hide Add, Twice;
    TwiceLinear(p, q);
    TwiceLinear(Add(p, q), r);
    TwiceLinear(Add(Add(p, q), r), s);
    TwiceLinear(Add(Add(Add(p, q), r), s), t);
  }

  lemma PickTimes(c: bv8, bit: bv8, k: Symbol, x: Symbol)
    ensures Pick(c, bit, k) < 32 && Times(Pick(c, bit, k), x) == Pick(c, bit, Times(k, x))
  {
    assert GfMul(0, x) == 0;
    hide GfMul;
  }

  lemma TimesAssoc(c: Symbol, k: Symbol, x: Symbol)
    ensures Times(c, Times(k, x)) == Times(Times(c, k), x)
  {
    hide Add, GfMul, Twice, Pick;
    var p := GfMul(k, x);
    DoubledProduct(k, x);
    var k2: Symbol := Twice(k);
    DoubledProduct(k2, x);
    var k4: Symbol := Twice(k2);
    DoubledProduct(k4, x);
    var k8: Symbol := Twice(k4);
    DoubledProduct(k8, x);
    var k16: Symbol := Twice(k8);
    TimesByBits(c, k, k2, k4, k8, k16);
    TimesByBits(c, p, Times(k2, x), Times(k4, x), Times(k8, x), Times(k16, x));
    PickTimes(c, 1, k, x);
    PickTimes(c, 2, k2, x);
    PickTimes(c, 4, k4, x);
    PickTimes(c, 8, k8, x);
    PickTimes(c, 16, k16, x);
    FiveTimes(Pick(c, 1, k), Pick(c, 2, k2), Pick(c, 4, k4), Pick(c, 8, k8), Pick(c, 16, k16), x);
  }

  lemma FiveTimes(a: Symbol, b: Symbol, c: Symbol, d: Symbol, e: Symbol, x: Symbol)
    ensures Times(Sum(Sum(Sum(Sum(a, b), c), d), e), x) ==
            Sum(Sum(Sum(Sum(Times(a, x), Times(b, x)), Times(c, x)), Times(d, x)), Times(e, x))
  {
    hide Sum, Times;
    TimesSumLeft(a, b, x);
    TimesSumLeft(Sum(a, b), c, x);
    TimesSumLeft(Sum(Sum(a, b), c), d, x);
    TimesSumLeft(Sum(Sum(Sum(a, b), c), d), e, x);
  }

  /** Scalars can be taken in either order. */
  lemma TimesSwap(c: Symbol, k: Symbol, x: Symbol)
    ensures Times(c, Times(k, x)) == Times(k, Times(c, x))
  {
    TimesAssoc(c, k, x);
    TimesAssoc(k, c, x);
    TimesComm(c, k);
    hide Times;
  }

  lemma TimesUnits(a: Symbol)
    ensures Times(a, 0) == 0 == Times(0, a) && Times(a, 1) == a == Times(1, a)
    ensures Sum(a, 0) == a == Sum(0, a) && Sum(a, a) == 0
  {
  }
}
