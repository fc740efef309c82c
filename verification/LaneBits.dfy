/** The bits of a lane, and what XOR, complement, shifts and rotations do to each of them. */
module LaneBits {
  import opened KeccakPermutation

  // ----- Bits -----

  function Half(a: Lane): Lane { Lane(a.bits >> 1) }

  predicate Odd(a: Lane) { a.bits & 1 == 1 }

  /** Bit `z` of a lane, the lowest being bit 0. */
  function BitAt(a: Lane, z: nat): bool
    decreases z
  {
    if z == 0 then Odd(a) else BitAt(Half(a), z - 1)
  }

  lemma XorHalves(a: Lane, b: Lane)
    ensures Half(Xor(a, b)) == Xor(Half(a), Half(b)) && (Odd(Xor(a, b)) <==> Odd(a) != Odd(b))
  {
  }

  lemma {:induction false} XorBit(a: Lane, b: Lane, z: nat)
    ensures BitAt(Xor(a, b), z) == (BitAt(a, z) != BitAt(b, z))
    decreases z
  {
    hide Xor, Half, Odd;
    XorHalves(a, b);
    if z > 0 {
      XorBit(Half(a), Half(b), z - 1);
    }
  }

  lemma AndNotHalves(a: Lane, b: Lane)
    ensures Half(AndNot(a, b)) == AndNot(Half(a), Half(b)) && (Odd(AndNot(a, b)) <==> Odd(a) && !Odd(b))
  {
  }

  lemma {:induction false} AndNotBit(a: Lane, b: Lane, z: nat)
    ensures BitAt(AndNot(a, b), z) == (BitAt(a, z) && !BitAt(b, z))
    decreases z
  {
    hide AndNot, Half, Odd;
    AndNotHalves(a, b);
    if z > 0 {
      AndNotBit(Half(a), Half(b), z - 1);
    }
  }

  function Or(a: Lane, b: Lane): Lane { Lane(a.bits | b.bits) }

  lemma OrHalves(a: Lane, b: Lane)
    ensures Half(Or(a, b)) == Or(Half(a), Half(b)) && (Odd(Or(a, b)) <==> Odd(a) || Odd(b))
  {
  }

  lemma {:induction false} OrBit(a: Lane, b: Lane, z: nat)
    ensures BitAt(Or(a, b), z) == (BitAt(a, z) || BitAt(b, z))
    decreases z
  {
    hide Or, Half, Odd;
    OrHalves(a, b);
    if z > 0 {
      OrBit(Half(a), Half(b), z - 1);
    }
  }

  lemma ZeroHalf()
    ensures Half(ZERO) == ZERO && !Odd(ZERO)
  {
  }

  lemma {:induction false} ZeroBit(z: nat)
    ensures !BitAt(ZERO, z)
  {
    hide Half, Odd;
    ZeroHalf();
    if z > 0 {
      ZeroBit(z - 1);
    }
  }

  // ----- Shifts to the right -----

  function Shifted(a: Lane, n: nat): Lane
    decreases n
  {
    if n == 0 then a else Shifted(Half(a), n - 1)
  }

  lemma {:induction false} ShiftedBit(a: Lane, n: nat, z: nat)
    ensures BitAt(Shifted(a, n), z) == BitAt(a, z + n)
    decreases n
  {
    hide Half, Odd;
    if n > 0 {
      ShiftedBit(Half(a), n - 1, z);
    }
  }

  lemma {:induction false} ShiftedAgain(a: Lane, m: nat, n: nat)
    ensures Shifted(a, m + n) == Shifted(Shifted(a, m), n)
    decreases m
  {
    hide Half;
    if m > 0 {
      ShiftedAgain(Half(a), m - 1, n);
    }
  }

  /** A lane without its lowest byte. */
  function Byte(a: Lane): Lane { Lane(a.bits >> 8) }

  lemma TwoSteps(a: Lane, n: nat)
    requires n >= 2
    ensures Shifted(a, n) == Shifted(Half(Half(a)), n - 2)
  {
    hide Half;
  }

  lemma EightSteps(a: Lane)
    ensures Shifted(a, 8) == Byte(a)
  {
    hide Half, Byte, Shifted;
    TwoSteps(a, 8);
    TwoSteps(Half(Half(a)), 6);
    TwoSteps(Half(Half(Half(Half(a)))), 4);
    TwoSteps(Half(Half(Half(Half(Half(Half(a)))))), 2);
    NoStep(Half(Half(Half(Half(Half(Half(Half(Half(a)))))))));
    HalfEightTimes(a);
  }

  lemma NoStep(a: Lane)
    ensures Shifted(a, 0) == a
  {
  }

  lemma HalfEightTimes(a: Lane)
    ensures Half(Half(Half(Half(Half(Half(Half(Half(a)))))))) == Byte(a)
  {
  }

  lemma ByteBit(a: Lane, z: nat)
    ensures BitAt(Byte(a), z) == BitAt(a, z + 8)
  {
    hide Byte, BitAt, Shifted;
    EightSteps(a);
    ShiftedBit(a, 8, z);
  }

  /** The bits of the lowest byte. */
  lemma LowBits(a: Lane)
    ensures BitAt(a, 0) == (a.bits & 1 != 0) && BitAt(a, 1) == (a.bits & 2 != 0) && BitAt(a, 2) == (a.bits & 4 != 0)
    ensures BitAt(a, 3) == (a.bits & 8 != 0) && BitAt(a, 4) == (a.bits & 16 != 0) && BitAt(a, 5) == (a.bits & 32 != 0)
    ensures BitAt(a, 6) == (a.bits & 64 != 0) && BitAt(a, 7) == (a.bits & 128 != 0)
  {
    hide BitAt, Half, Odd;
    var b, c := Half(a), Half(Half(a));
    var d, e := Half(c), Half(Half(c));
    var f, g := Half(e), Half(Half(e));
    LowestBits(a);
    FirstBits(a, 1);
    FirstBits(a, 2);
    FirstBits(b, 1);
    FirstBits(a, 3);
    FirstBits(b, 2);
    FirstBits(c, 1);
    FirstBits(a, 4);
    FirstBits(b, 3);
    FirstBits(c, 2);
    FirstBits(d, 1);
    FirstBits(a, 5);
    FirstBits(b, 4);
    FirstBits(c, 3);
    FirstBits(d, 2);
    FirstBits(e, 1);
    FirstBits(a, 6);
    FirstBits(b, 5);
    FirstBits(c, 4);
    FirstBits(d, 3);
    FirstBits(e, 2);
    FirstBits(f, 1);
    FirstBits(a, 7);
    FirstBits(b, 6);
    FirstBits(c, 5);
    FirstBits(d, 4);
    FirstBits(e, 3);
    FirstBits(f, 2);
    FirstBits(g, 1);
  }

  lemma FirstBits(a: Lane, z: nat)
    requires z > 0
    ensures BitAt(a, 0) == Odd(a) && BitAt(a, z) == BitAt(Half(a), z - 1) && BitAt(Half(a), 0) == Odd(Half(a))
  {
    hide Half, Odd;
  }

  lemma LowestBits(a: Lane)
    ensures var b, c := Half(a), Half(Half(a));
      var d, e := Half(c), Half(Half(c));
      var f, g := Half(e), Half(Half(e));
      Odd(a) == (a.bits & 1 != 0) && Odd(b) == (a.bits & 2 != 0) && Odd(c) == (a.bits & 4 != 0) &&
      Odd(d) == (a.bits & 8 != 0) && Odd(e) == (a.bits & 16 != 0) && Odd(f) == (a.bits & 32 != 0) &&
      Odd(g) == (a.bits & 64 != 0) && Odd(Half(g)) == (a.bits & 128 != 0)
  {
  }

  // ----- Single bits -----

  /** The only bit of the lane is at place `k`. */
  ghost predicate Single(p: Lane, k: nat) {
    forall z: nat :: BitAt(p, z) <==> z == k
  }

  lemma SingleUp(p: Lane, k: nat)
    requires !Odd(p) && Single(Half(p), k)
    ensures Single(p, k + 1)
  {
    hide Odd, Half;
    forall z: nat
      ensures BitAt(p, z) <==> z == k + 1
    {
      assert z > 0 ==> BitAt(p, z) == BitAt(Half(p), z - 1);
    }
  }

  lemma SingleOne()
    ensures Single(Lane(1), 0)
  {
    assert Odd(Lane(1)) && Half(Lane(1)) == ZERO;
    hide Odd, Half;
    forall z: nat
      ensures BitAt(Lane(1), z) <==> z == 0
    {
      if z > 0 {
        ZeroBit(z - 1);
      }
    }
  }

  lemma SingleUpByte(p: Lane, k: nat)
    requires p.bits & 0xff == 0 && Single(Byte(p), k)
    ensures Single(p, k + 8)
  {
    LowBits(p);
    LowClear(p);
    hide BitAt, Byte;
    forall z: nat
      ensures BitAt(p, z) <==> z == k + 8
    {
      if z >= 8 {
        ByteBit(p, z - 8);
      }
    }
  }

  lemma LowClear(p: Lane)
    requires p.bits & 0xff == 0
    ensures p.bits & 1 == 0 && p.bits & 2 == 0 && p.bits & 4 == 0 && p.bits & 8 == 0
    ensures p.bits & 16 == 0 && p.bits & 32 == 0 && p.bits & 64 == 0 && p.bits & 128 == 0
  {
  }

  lemma Doubled(p: bv64, q: bv64)
    requires q == p << 1 && p == q >> 1
    ensures !Odd(Lane(q)) && Half(Lane(q)) == Lane(p)
  {
  }

  lemma ByteUp(p: bv64, q: bv64)
    requires q == p << 8 && p == q >> 8
    ensures Lane(q).bits & 0xff == 0 && Byte(Lane(q)) == Lane(p)
  {
  }

  /** The places that the round constants use. */
  lemma Singles()
    ensures Single(Lane(1), 0) && Single(Lane(2), 1) && Single(Lane(8), 3) && Single(Lane(0x80), 7)
    ensures Single(Lane(0x8000), 15) && Single(Lane(0x8000_0000), 31) && Single(Lane(0x8000_0000_0000_0000), 63)
  {
    hide Single, Odd, Half, Byte;
    SingleOne();
    Doubled(1, 2);
    SingleUp(Lane(2), 0);
    Doubled(2, 4);
    SingleUp(Lane(4), 1);
    Doubled(4, 8);
    SingleUp(Lane(8), 2);
    Doubled(8, 16);
    SingleUp(Lane(16), 3);
    Doubled(16, 32);
    SingleUp(Lane(32), 4);
    Doubled(32, 64);
    SingleUp(Lane(64), 5);
    Doubled(64, 128);
    SingleUp(Lane(128), 6);
    ByteUp(0x80, 0x8000);
    SingleUpByte(Lane(0x8000), 7);
    ByteUp(0x8000, 0x80_0000);
    SingleUpByte(Lane(0x80_0000), 15);
    ByteUp(0x80_0000, 0x8000_0000);
    SingleUpByte(Lane(0x8000_0000), 23);
    ByteUp(0x8000_0000, 0x80_0000_0000);
    SingleUpByte(Lane(0x80_0000_0000), 31);
    ByteUp(0x80_0000_0000, 0x8000_0000_0000);
    SingleUpByte(Lane(0x8000_0000_0000), 39);
    ByteUp(0x8000_0000_0000, 0x80_0000_0000_0000);
    SingleUpByte(Lane(0x80_0000_0000_0000), 47);
    ByteUp(0x80_0000_0000_0000, 0x8000_0000_0000_0000);
    SingleUpByte(Lane(0x8000_0000_0000_0000), 55);
  }

  // ----- Rotations -----

  const TOP := Lane(0x8000_0000_0000_0000)

  predicate High(a: Lane) { a.bits >> 63 == 1 }

  /** One place up and around. */
  function Around(w: bv64): bv64 { (w << 1) | (w >> 63) }

  lemma RotateOne(w: bv64)
    ensures RotateWord(w, 1) == Around(w)
  {
  }

  lemma AroundHigh(w: bv64)
    requires w >> 63 == 1
    ensures Around(w) >> 1 == w ^ 0x8000_0000_0000_0000
  {
  }

  lemma AroundLow(w: bv64)
    requires w >> 63 != 1
    ensures Around(w) >> 1 == w
  {
  }

  lemma AroundOdd(w: bv64)
    ensures Around(w) & 1 == 1 <==> w >> 63 == 1
  {
  }

  lemma RotatedHigh(a: Lane)
    requires High(a)
    ensures Half(Lane(Around(a.bits))) == Xor(a, TOP)
  {
    AroundHigh(a.bits);
    hide Around;
  }

  lemma RotatedLow(a: Lane)
    requires !High(a)
    ensures Half(Lane(Around(a.bits))) == a
  {
    AroundLow(a.bits);
    hide Around;
  }

  lemma RotatedOdd(a: Lane)
    ensures Odd(Lane(Around(a.bits))) <==> High(a)
  {
    AroundOdd(a.bits);
    hide Around;
  }

  /** Below the top a rotation by one moves every bit one place up. */
  lemma RotatedUp(a: Lane, z: nat)
    requires z < 63
    ensures BitAt(Half(Lane(Around(a.bits))), z) == BitAt(a, z)
  {
    hide Xor, BitAt, Half, Around, High;
    if High(a) {
      RotatedHigh(a);
      Singles();
      XorBit(a, TOP, z);
    } else {
      RotatedLow(a);
    }
  }

  lemma TopBit(a: Lane)
    ensures BitAt(a, 63) <==> High(a)
  {
    hide BitAt, Byte, High;
    var b, c, d := Byte(a), Byte(Byte(a)), Byte(Byte(Byte(a)));
    var e, f, g := Byte(d), Byte(Byte(d)), Byte(Byte(Byte(d)));
    ByteBit(a, 55);
    ByteBit(b, 47);
    ByteBit(c, 39);
    ByteBit(d, 31);
    ByteBit(e, 23);
    ByteBit(f, 15);
    ByteBit(g, 7);
    LowBits(Byte(g));
    SevenBytes(a);
  }

  lemma SevenBytes(a: Lane)
    ensures Byte(Byte(Byte(Byte(Byte(Byte(Byte(a))))))).bits & 128 != 0 <==> High(a)
  {
  }

  /** The place that a rotation by `n` brings to place `z`. */
  function Source(z: nat, n: nat): nat
    requires z < 64 && n < 64
  {
    if z >= n then z - n else z + 64 - n
  }

  lemma RotatedOnce(a: Lane, z: nat)
    requires z < 64
    ensures BitAt(RotateLeft(a, 1), z) == BitAt(a, Source(z, 1))
  {
    hide Half, Odd, RotateWord, Around, High;
    RotateOne(a.bits);
    if z == 0 {
      RotatedOdd(a);
      TopBit(a);
    } else {
      RotatedUp(a, z - 1);
    }
  }

  /** Rotation by `n` moves every bit `n` places up, and those beyond the end around. */
  ghost predicate Rotates(n: nat)
    requires 1 <= n <= 63
  {
    forall a: Lane, z: nat :: z < 64 ==> BitAt(RotateLeft(a, n), z) == BitAt(a, Source(z, n))
  }

  ghost predicate Composes(m: bv8, n: bv8)
    requires 1 <= m <= 63 && 1 <= n <= 63 && m + n <= 63
  {
    forall w: bv64 :: RotateWord(w, m + n) == RotateWord(RotateWord(w, m), n)
  }

  lemma RotatesFurther(m: nat, n: nat, p: bv8, q: bv8)
    requires 1 <= m && 1 <= n && m + n <= 63 && p == m as bv8 && q == n as bv8 && p + q == (m + n) as bv8
    requires 1 <= p <= 63 && 1 <= q <= 63 && p + q <= 63 && Rotates(m) && Rotates(n) && Composes(p, q)
    ensures Rotates(m + n)
  {
    hide RotateWord, BitAt;
    var k := m + n;
    forall a: Lane, z: nat {:trigger BitAt(RotateLeft(a, k), z)} | z < 64
      ensures BitAt(RotateLeft(a, k), z) == BitAt(a, Source(z, k))
    {
      assert RotateLeft(a, k) == RotateLeft(RotateLeft(a, m), n);
      RotatedTwice(a, m, n, z);
    }
  }

  lemma RotatedTwice(a: Lane, m: nat, n: nat, z: nat)
    requires 1 <= m && 1 <= n && m + n <= 63 && Rotates(m) && Rotates(n) && z < 64
    ensures BitAt(RotateLeft(RotateLeft(a, m), n), z) == BitAt(a, Source(z, m + n))
  {
    hide RotateLeft, BitAt;
    assert BitAt(RotateLeft(RotateLeft(a, m), n), z) == BitAt(RotateLeft(a, m), Source(z, n));
    assert BitAt(RotateLeft(a, m), Source(z, n)) == BitAt(a, Source(Source(z, n), m));
    SourceTwice(z, m, n);
  }

  lemma SourceTwice(z: nat, m: nat, n: nat)
    requires z < 64 && m + n <= 63
    ensures Source(Source(z, n), m) == Source(z, m + n)
  {
  }

  lemma Composes2()
    ensures Composes(1, 1)
  {
  }

  lemma Composes3()
    ensures Composes(2, 1)
  {
  }

  lemma Composes6()
    ensures Composes(3, 3)
  {
  }

  lemma Composes8()
    ensures Composes(6, 2)
  {
  }

  lemma Composes10()
    ensures Composes(8, 2)
  {
  }

  lemma Composes14()
    ensures Composes(8, 6)
  {
  }

  lemma Composes15()
    ensures Composes(14, 1)
  {
  }

  lemma Composes18()
    ensures Composes(15, 3)
  {
  }

  lemma Composes20()
    ensures Composes(18, 2)
  {
  }

  lemma Composes21()
    ensures Composes(20, 1)
  {
  }

  lemma Composes25()
    ensures Composes(15, 10)
  {
  }

  lemma Composes27()
    ensures Composes(25, 2)
  {
  }

  lemma Composes28()
    ensures Composes(27, 1)
  {
  }

  lemma Composes36()
    ensures Composes(28, 8)
  {
  }

  lemma Composes39()
    ensures Composes(36, 3)
  {
  }

  lemma Composes41()
    ensures Composes(39, 2)
  {
  }

  lemma Composes43()
    ensures Composes(41, 2)
  {
  }

  lemma Composes44()
    ensures Composes(43, 1)
  {
  }

  lemma Composes45()
    ensures Composes(44, 1)
  {
  }

  lemma Composes55()
    ensures Composes(45, 10)
  {
  }

  lemma Composes56()
    ensures Composes(55, 1)
  {
  }

  lemma Composes61()
    ensures Composes(55, 6)
  {
  }

  lemma Composes62()
    ensures Composes(61, 1)
  {
  }

  lemma LowRotate()
    ensures Rotates(1)
    ensures Rotates(2)
    ensures Rotates(3)
    ensures Rotates(6)
    ensures Rotates(8)
    ensures Rotates(10)
    ensures Rotates(14)
    ensures Rotates(15)
    ensures Rotates(18)
    ensures Rotates(20)
    ensures Rotates(21)
    ensures Rotates(25)
    ensures Rotates(27)
    ensures Rotates(28)
  {
    hide Rotates, Composes;
    RotatesOnce();
    Composes2();
    RotatesFurther(1, 1, 1, 1);
    Composes3();
    RotatesFurther(2, 1, 2, 1);
    Composes6();
    RotatesFurther(3, 3, 3, 3);
    Composes8();
    RotatesFurther(6, 2, 6, 2);
    Composes10();
    RotatesFurther(8, 2, 8, 2);
    Composes14();
    RotatesFurther(8, 6, 8, 6);
    Composes15();
    RotatesFurther(14, 1, 14, 1);
    Composes18();
    RotatesFurther(15, 3, 15, 3);
    Composes20();
    RotatesFurther(18, 2, 18, 2);
    Composes21();
    RotatesFurther(20, 1, 20, 1);
    Composes25();
    RotatesFurther(15, 10, 15, 10);
    Composes27();
    RotatesFurther(25, 2, 25, 2);
    Composes28();
    RotatesFurther(27, 1, 27, 1);
  }

  lemma HighRotate()
    requires Rotates(1) && Rotates(2) && Rotates(3) && Rotates(6) && Rotates(8) && Rotates(10) && Rotates(28)
    ensures Rotates(36)
    ensures Rotates(39)
    ensures Rotates(41)
    ensures Rotates(43)
    ensures Rotates(44)
    ensures Rotates(45)
    ensures Rotates(55)
    ensures Rotates(56)
    ensures Rotates(61)
    ensures Rotates(62)
  {
    hide Rotates, Composes;
    Composes36();
    RotatesFurther(28, 8, 28, 8);
    Composes39();
    RotatesFurther(36, 3, 36, 3);
    Composes41();
    RotatesFurther(39, 2, 39, 2);
    Composes43();
    RotatesFurther(41, 2, 41, 2);
    Composes44();
    RotatesFurther(43, 1, 43, 1);
    Composes45();
    RotatesFurther(44, 1, 44, 1);
    Composes55();
    RotatesFurther(45, 10, 45, 10);
    Composes56();
    RotatesFurther(55, 1, 55, 1);
    Composes61();
    RotatesFurther(55, 6, 55, 6);
    Composes62();
    RotatesFurther(61, 1, 61, 1);
  }

  lemma AllRotate()
    ensures Rotates(1)
    ensures Rotates(2)
    ensures Rotates(3)
    ensures Rotates(6)
    ensures Rotates(8)
    ensures Rotates(10)
    ensures Rotates(14)
    ensures Rotates(15)
    ensures Rotates(18)
    ensures Rotates(20)
    ensures Rotates(21)
    ensures Rotates(25)
    ensures Rotates(27)
    ensures Rotates(28)
    ensures Rotates(36)
    ensures Rotates(39)
    ensures Rotates(41)
    ensures Rotates(43)
    ensures Rotates(44)
    ensures Rotates(45)
    ensures Rotates(55)
    ensures Rotates(56)
    ensures Rotates(61)
    ensures Rotates(62)
  {
    hide Rotates;
    LowRotate();
    HighRotate();
  }

  lemma RotatesOnce()
    ensures Rotates(1)
  {
    hide RotateWord, BitAt;
    forall a: Lane, z: nat | z < 64
      ensures BitAt(RotateLeft(a, 1), z) == BitAt(a, Source(z, 1))
    {
      RotatedOnce(a, z);
    }
  }
}
