/** The minimum distance of the checksum code: no change of up to four symbols within 1025
    positions goes unnoticed. Six powers of y are roots of the generator, and they form the
    pattern of the Hartmann-Tzeng bound. */
module CashAddrDistance {
  import opened CashAddrChecksum
  import opened GaloisField
  import opened RootField

  // ----- Combinations of powers -----

  /** The sum of the powers `ts` with coefficients `us`. */
  function Combination(us: Data, ts: seq<Quad>): Quad
    requires |us| == |ts| && Symbols(us)
  {
    if us == [] then ZERO
    else
      var n := |us| - 1;
      Both(Combination(us[..n], ts[..n]), Scale(us[n], ts[n]))
  }

  lemma {:induction false} CombinationXor(us: Data, ws: Data, ts: seq<Quad>)
    requires |us| == |ws| == |ts| && Symbols(us) && Symbols(ws)
    ensures Symbols(Xor(us, ws))
    ensures Combination(Xor(us, ws), ts) == Both(Combination(us, ts), Combination(ws, ts))
  {
    SymbolXor(us, ws);
    if us == [] {
      BothLaws(ZERO, ZERO, ZERO);
    } else {
      var n := |us| - 1;
      CombinationXor(us[..n], ws[..n], ts[..n]);
      assert Xor(us, ws)[..n] == Xor(us[..n], ws[..n]);
      assert Xor(us, ws)[n] == Sum(us[n], ws[n]);
      hide Both, Scale, Sum;
      ScaleLaws(us[n], ws[n], ts[n], ts[n]);
      BothSwap(Combination(us[..n], ts[..n]), Combination(ws[..n], ts[..n]), Scale(us[n], ts[n]), Scale(ws[n], ts[n]));
    }
  }

  function ScaledData(e: Symbol, us: Data): Data
    requires Symbols(us)
  {
    seq(|us|, i requires 0 <= i < |us| => Times(e, us[i]))
  }

  lemma {:induction false} CombinationScaled(e: Symbol, us: Data, ts: seq<Quad>)
    requires |us| == |ts| && Symbols(us)
    ensures Symbols(ScaledData(e, us)) && Combination(ScaledData(e, us), ts) == Scale(e, Combination(us, ts))
  {
    if us == [] {
      ScaleZero(e);
    } else {
      var n := |us| - 1;
      CombinationScaled(e, us[..n], ts[..n]);
      assert ScaledData(e, us)[..n] == ScaledData(e, us[..n]);
      hide Both, Scale, Times;
      ScaleLaws(e, us[n], ts[n], ts[n]);
      ScaleLaws(e, us[n], Combination(us[..n], ts[..n]), Scale(us[n], ts[n]));
    }
  }

  function MulAll(ts: seq<Quad>, r: Quad): seq<Quad> {
    seq(|ts|, i requires 0 <= i < |ts| => Mul(ts[i], r))
  }

  lemma {:induction false} CombinationMul(us: Data, ts: seq<Quad>, r: Quad)
    requires |us| == |ts| && Symbols(us)
    ensures Combination(us, MulAll(ts, r)) == Mul(Combination(us, ts), r)
  {
    if us == [] {
      MulZero(r);
    } else {
      var n := |us| - 1;
      CombinationMul(us[..n], ts[..n], r);
      assert MulAll(ts, r)[..n] == MulAll(ts[..n], r);
      hide Both, Scale, Mul;
      MulScale(us[n], ts[n], r);
      MulBoth(Combination(us[..n], ts[..n]), Scale(us[n], ts[n]), r);
    }
  }

  lemma {:induction false} CombinationCons(u: Symbol, us: Data, t: Quad, ts: seq<Quad>)
    requires |us| == |ts| && Symbols(us)
    ensures Combination([u] + us, [t] + ts) == Both(Scale(u, t), Combination(us, ts))
  {
    hide Both, Scale;
    var vs, ss := [u] + us, [t] + ts;
    var n := |us|;
    if us == [] {
      assert vs[..0] == [] && ss[..0] == [];
      BothLaws(Scale(u, t), ZERO, ZERO);
    } else {
      CombinationCons(u, us[..n - 1], t, ts[..n - 1]);
      assert vs[..n] == [u] + us[..n - 1] && ss[..n] == [t] + ts[..n - 1];
      BothLaws(Scale(u, t), Combination(us[..n - 1], ts[..n - 1]), Scale(us[n - 1], ts[n - 1]));
    }
  }

  lemma ScaleByZero(t: Quad)
    ensures Scale(0, t) == ZERO && Scale(1, t) == t
  {
    TimesUnits(t.a);
    TimesUnits(t.b);
    TimesUnits(t.c);
    TimesUnits(t.d);
    hide Times;
  }

  // ----- Roots of the generator -----

  /** The coefficients of the generator below x^8, the constant one first. */
  const TAIL: Data := [1, 19, 3, 25, 11, 25, 3, 19]

  /** The powers 0 to 8 of a root. */
  predicate IsRoot(ts: seq<Quad>) {
    |ts| == 9 && ts[0] == ONE && ts[1..] == MulAll(ts[..8], ts[1]) &&
    Symbols(TAIL) && Combination(TAIL, ts[..8]) == ts[8]
  }

  lemma TakeNext(us: Data, ts: seq<Quad>, n: nat)
    requires |us| == |ts| && Symbols(us) && n < |us|
    ensures Combination(us[..n + 1], ts[..n + 1]) == Both(Combination(us[..n], ts[..n]), Scale(us[n], ts[n]))
  {
    assert us[..n + 1][..n] == us[..n] && ts[..n + 1][..n] == ts[..n];
  }

  /** The generator without its leading term, at the element with these powers. */
  function TailAt(t1: Quad, t2: Quad, t3: Quad, t4: Quad, t5: Quad, t6: Quad, t7: Quad): Quad {
    Both(Both(Both(Both(Both(Both(Both(Both(ZERO, Scale(1, ONE)), Scale(19, t1)), Scale(3, t2)), Scale(25, t3)),
                        Scale(11, t4)), Scale(25, t5)), Scale(3, t6)), Scale(19, t7))
  }

  lemma TailCombination(t1: Quad, t2: Quad, t3: Quad, t4: Quad, t5: Quad, t6: Quad, t7: Quad)
    ensures Symbols(TAIL) && Combination(TAIL, [ONE, t1, t2, t3, t4, t5, t6, t7]) == TailAt(t1, t2, t3, t4, t5, t6, t7)
  {
    hide Both, Scale;
    var us, ts := TAIL, [ONE, t1, t2, t3, t4, t5, t6, t7];
    TakeNext(us, ts, 0);
    TakeNext(us, ts, 1);
    TakeNext(us, ts, 2);
    TakeNext(us, ts, 3);
    TakeNext(us, ts, 4);
    TakeNext(us, ts, 5);
    TakeNext(us, ts, 6);
    TakeNext(us, ts, 7);
    assert us[..8] == us && ts[..8] == ts && us[..0] == [];
  }

  lemma TimesFromIsMul(t: Quad, ys: (Quad, Quad, Quad), r: Quad)
    requires MultiplesByY(t, ys)
    ensures TimesFrom(t, ys, r) == Mul(r, t)
  {
    hide Next, Both, Scale;
    Product(t, r, ys, TimesFrom(t, ys, r));
    MulComm(t, r);
  }

  lemma RootFrom(t1: Quad, t2: Quad, t3: Quad, t4: Quad, t5: Quad, t6: Quad, t7: Quad, t8: Quad,
                 ys: (Quad, Quad, Quad))
    requires MultiplesByY(t1, ys) && TimesFrom(t1, ys, t1) == t2 && TimesFrom(t1, ys, t2) == t3
    requires TimesFrom(t1, ys, t3) == t4 && TimesFrom(t1, ys, t4) == t5 && TimesFrom(t1, ys, t5) == t6
    requires TimesFrom(t1, ys, t6) == t7 && TimesFrom(t1, ys, t7) == t8
    requires TailAt(t1, t2, t3, t4, t5, t6, t7) == t8
    ensures IsRoot([ONE, t1, t2, t3, t4, t5, t6, t7, t8])
  {
    hide TailAt, Mul, TimesFrom, MultiplesByY;
    var ts := [ONE, t1, t2, t3, t4, t5, t6, t7, t8];
    TailCombination(t1, t2, t3, t4, t5, t6, t7);
    assert ts[..8] == [ONE, t1, t2, t3, t4, t5, t6, t7];
    MulOne(t1);
    TimesFromIsMul(t1, ys, t1);
    TimesFromIsMul(t1, ys, t2);
    TimesFromIsMul(t1, ys, t3);
    TimesFromIsMul(t1, ys, t4);
    TimesFromIsMul(t1, ys, t5);
    TimesFromIsMul(t1, ys, t6);
    TimesFromIsMul(t1, ys, t7);
    assert ts[1..] == MulAll(ts[..8], t1);
  }

  lemma Root1() returns (ts: seq<Quad>)
    ensures |ts| == 9 && IsRoot(ts) && ts[1] == Quad(0, 0, 1, 0)
  {
    Root1Tail();
    hide TailAt, IsRoot;
    RootFrom(Quad(0, 0, 1, 0), Quad(0, 1, 0, 0), Quad(1, 0, 0, 0), Quad(12, 11, 12, 1),
             Quad(9, 3, 3, 12), Quad(20, 2, 27, 9), Quad(4, 10, 15, 20), Quad(19, 10, 13, 4),
             (Quad(0, 1, 0, 0), Quad(1, 0, 0, 0), Quad(12, 11, 12, 1)));
    ts := [ONE, Quad(0, 0, 1, 0), Quad(0, 1, 0, 0), Quad(1, 0, 0, 0), Quad(12, 11, 12, 1),
           Quad(9, 3, 3, 12), Quad(20, 2, 27, 9), Quad(4, 10, 15, 20), Quad(19, 10, 13, 4)];
  }

  lemma Root1Tail()
    ensures TailAt(Quad(0, 0, 1, 0), Quad(0, 1, 0, 0), Quad(1, 0, 0, 0), Quad(12, 11, 12, 1),
                   Quad(9, 3, 3, 12), Quad(20, 2, 27, 9), Quad(4, 10, 15, 20)) == Quad(19, 10, 13, 4)
  {
    assert Both(Both(Both(Both(ZERO, Scale(1, ONE)), Scale(19, Quad(0, 0, 1, 0))), Scale(3, Quad(0, 1, 0, 0))),
                Scale(25, Quad(1, 0, 0, 0))) == Quad(25, 3, 19, 1);
  }

  lemma Root30() returns (ts: seq<Quad>)
    ensures |ts| == 9 && IsRoot(ts) && ts[1] == Quad(5, 17, 2, 13)
  {
    Root30Tail();
    hide TailAt, IsRoot;
    RootFrom(Quad(5, 17, 2, 13), Quad(12, 12, 5, 12), Quad(25, 22, 28, 12), Quad(25, 3, 7, 18),
             Quad(24, 6, 9, 3), Quad(10, 19, 6, 31), Quad(21, 12, 10, 25), Quad(5, 9, 9, 8),
             (Quad(4, 12, 24, 5), Quad(21, 29, 28, 4), Quad(23, 6, 14, 21)));
    ts := [ONE, Quad(5, 17, 2, 13), Quad(12, 12, 5, 12), Quad(25, 22, 28, 12), Quad(25, 3, 7, 18),
           Quad(24, 6, 9, 3), Quad(10, 19, 6, 31), Quad(21, 12, 10, 25), Quad(5, 9, 9, 8)];
  }

  lemma Root30Tail()
    ensures TailAt(Quad(5, 17, 2, 13), Quad(12, 12, 5, 12), Quad(25, 22, 28, 12), Quad(25, 3, 7, 18),
                   Quad(24, 6, 9, 3), Quad(10, 19, 6, 31), Quad(21, 12, 10, 25)) == Quad(5, 9, 9, 8)
  {
    assert Both(Both(Both(Both(ZERO, Scale(1, ONE)), Scale(19, Quad(5, 17, 2, 13))), Scale(3, Quad(12, 12, 5, 12))),
                Scale(25, Quad(25, 22, 28, 12))) == Quad(16, 7, 15, 5);
  }

  lemma Root32() returns (ts: seq<Quad>)
    ensures |ts| == 9 && IsRoot(ts) && ts[1] == Quad(21, 29, 28, 4)
  {
    Root32Tail();
    hide TailAt, IsRoot;
    RootFrom(Quad(21, 29, 28, 4), Quad(25, 27, 11, 8), Quad(6, 17, 2, 22), Quad(30, 1, 18, 12),
             Quad(11, 30, 2, 26), Quad(26, 6, 9, 5), Quad(8, 17, 4, 9), Quad(2, 4, 18, 9),
             (Quad(23, 6, 14, 21), Quad(20, 2, 7, 23), Quad(4, 22, 17, 20)));
    ts := [ONE, Quad(21, 29, 28, 4), Quad(25, 27, 11, 8), Quad(6, 17, 2, 22), Quad(30, 1, 18, 12),
           Quad(11, 30, 2, 26), Quad(26, 6, 9, 5), Quad(8, 17, 4, 9), Quad(2, 4, 18, 9)];
  }

  lemma Root32Tail()
    ensures TailAt(Quad(21, 29, 28, 4), Quad(25, 27, 11, 8), Quad(6, 17, 2, 22), Quad(30, 1, 18, 12),
                   Quad(11, 30, 2, 26), Quad(26, 6, 9, 5), Quad(8, 17, 4, 9)) == Quad(2, 4, 18, 9)
  {
    assert Both(Both(Both(Both(ZERO, Scale(1, ONE)), Scale(19, Quad(21, 29, 28, 4))), Scale(3, Quad(25, 27, 11, 8))),
                Scale(25, Quad(6, 17, 2, 22))) == Quad(8, 1, 14, 4);
  }

  lemma RootMinus1() returns (ts: seq<Quad>)
    ensures |ts| == 9 && IsRoot(ts) && ts[1] == Quad(1, 12, 11, 12)
  {
    RootMinus1Tail();
    hide TailAt, IsRoot;
    RootFrom(Quad(1, 12, 11, 12), Quad(12, 3, 3, 9), Quad(9, 27, 2, 20), Quad(20, 15, 10, 4),
             Quad(4, 13, 10, 19), Quad(19, 15, 4, 1), Quad(1, 31, 4, 8), Quad(8, 26, 21, 31),
             (Quad(0, 0, 0, 1), Quad(0, 0, 1, 0), Quad(0, 1, 0, 0)));
    ts := [ONE, Quad(1, 12, 11, 12), Quad(12, 3, 3, 9), Quad(9, 27, 2, 20), Quad(20, 15, 10, 4),
           Quad(4, 13, 10, 19), Quad(19, 15, 4, 1), Quad(1, 31, 4, 8), Quad(8, 26, 21, 31)];
  }

  lemma RootMinus1Tail()
    ensures TailAt(Quad(1, 12, 11, 12), Quad(12, 3, 3, 9), Quad(9, 27, 2, 20), Quad(20, 15, 10, 4),
                   Quad(4, 13, 10, 19), Quad(19, 15, 4, 1), Quad(1, 31, 4, 8)) == Quad(8, 26, 21, 31)
  {
    assert Both(Both(Both(Both(ZERO, Scale(1, ONE)), Scale(19, Quad(1, 12, 11, 12))), Scale(3, Quad(12, 3, 3, 9))),
                Scale(25, Quad(9, 27, 2, 20))) == Quad(9, 28, 23, 9);
  }

  lemma RootMinus30() returns (ts: seq<Quad>)
    ensures |ts| == 9 && IsRoot(ts) && ts[1] == Quad(21, 14, 6, 23)
  {
    RootMinus30Tail();
    hide TailAt, IsRoot;
    RootFrom(Quad(21, 14, 6, 23), Quad(16, 17, 2, 8), Quad(12, 28, 19, 11), Quad(29, 26, 6, 28),
             Quad(15, 20, 18, 7), Quad(5, 5, 27, 29), Quad(17, 21, 11, 19), Quad(26, 0, 16, 26),
             (Quad(4, 28, 29, 21), Quad(5, 24, 12, 4), Quad(13, 2, 17, 5)));
    ts := [ONE, Quad(21, 14, 6, 23), Quad(16, 17, 2, 8), Quad(12, 28, 19, 11), Quad(29, 26, 6, 28),
           Quad(15, 20, 18, 7), Quad(5, 5, 27, 29), Quad(17, 21, 11, 19), Quad(26, 0, 16, 26)];
  }

  lemma RootMinus30Tail()
    ensures TailAt(Quad(21, 14, 6, 23), Quad(16, 17, 2, 8), Quad(12, 28, 19, 11), Quad(29, 26, 6, 28),
                   Quad(15, 20, 18, 7), Quad(5, 5, 27, 29), Quad(17, 21, 11, 19)) == Quad(26, 0, 16, 26)
  {
    assert Both(Both(Both(Both(ZERO, Scale(1, ONE)), Scale(19, Quad(21, 14, 6, 23))), Scale(3, Quad(16, 17, 2, 8))),
                Scale(25, Quad(12, 28, 19, 11))) == Quad(31, 17, 18, 13);
  }

  lemma RootMinus32() returns (ts: seq<Quad>)
    ensures |ts| == 9 && IsRoot(ts) && ts[1] == Quad(20, 17, 22, 4)
  {
    RootMinus32Tail();
    hide TailAt, IsRoot;
    RootFrom(Quad(20, 17, 22, 4), Quad(21, 25, 8, 3), Quad(14, 10, 0, 25), Quad(6, 5, 20, 13),
             Quad(6, 16, 11, 11), Quad(29, 11, 22, 0), Quad(13, 4, 15, 0), Quad(25, 20, 10, 2),
             (Quad(23, 7, 2, 20), Quad(21, 14, 6, 23), Quad(4, 28, 29, 21)));
    ts := [ONE, Quad(20, 17, 22, 4), Quad(21, 25, 8, 3), Quad(14, 10, 0, 25), Quad(6, 5, 20, 13),
           Quad(6, 16, 11, 11), Quad(29, 11, 22, 0), Quad(13, 4, 15, 0), Quad(25, 20, 10, 2)];
  }

  lemma RootMinus32Tail()
    ensures TailAt(Quad(20, 17, 22, 4), Quad(21, 25, 8, 3), Quad(14, 10, 0, 25), Quad(6, 5, 20, 13),
                   Quad(6, 16, 11, 11), Quad(29, 11, 22, 0), Quad(13, 4, 15, 0)) == Quad(25, 20, 10, 2)
  {
    assert Both(Both(Both(Both(ZERO, Scale(1, ONE)), Scale(19, Quad(20, 17, 22, 4))), Scale(3, Quad(21, 25, 8, 3))),
                Scale(25, Quad(14, 10, 0, 25))) == Quad(24, 30, 10, 19);
  }

  /** A power of y whose powers are roots of the generator. */
  ghost predicate RootPower(m: nat) {
    exists ts :: |ts| == 9 && IsRoot(ts) && ts[1] == Pow(m, ONE)
  }

  /** The inverse of a power of y is the power that completes 1025. */
  lemma InversePower(m: nat, x: Quad, w: Quad)
    requires m <= 1025 && Pow(m, ONE) == x && Mul(x, w) == ONE
    ensures Pow(1025 - m, ONE) == w
  {
    hide Pow, Mul;
    PowIsMul(m, w);
    PowAdds(1025 - m, m, w);
    Period(w);
  }

  lemma RootPowers()
    ensures RootPower(1) && RootPower(30) && RootPower(32)
  {
    UnitPowers();
    LowPowers();
    hide Pow, IsRoot;
    var a := Root1();
    var b := Root30();
    var c := Root32();
  }

  lemma InverseRootPowers()
    ensures RootPower(1024) && RootPower(995) && RootPower(993)
  {
    UnitPowers();
    LowPowers();
    hide Pow, IsRoot, Mul;
    Product(Quad(0, 0, 1, 0), Quad(1, 12, 11, 12), (Quad(0, 1, 0, 0), Quad(1, 0, 0, 0), Quad(12, 11, 12, 1)),
            ONE);
    Product(Quad(5, 17, 2, 13), Quad(21, 14, 6, 23), (Quad(4, 12, 24, 5), Quad(21, 29, 28, 4), Quad(23, 6, 14, 21)),
            ONE);
    Product(Quad(21, 29, 28, 4), Quad(20, 17, 22, 4), (Quad(23, 6, 14, 21), Quad(20, 2, 7, 23), Quad(4, 22, 17, 20)),
            ONE);
    var a := RootMinus1();
    var b := RootMinus30();
    var c := RootMinus32();
    InversePower(1, Quad(0, 0, 1, 0), a[1]);
    InversePower(30, Quad(5, 17, 2, 13), b[1]);
    InversePower(32, Quad(21, 29, 28, 4), c[1]);
  }

  // ----- The syndromes of a register -----

  /** The symbols of a register, the lowest first. */
  function Low(c: bv64): (u: Data)
    ensures |u| == 8
  {
    [Group(c, 0), Group(c, 5), Group(c, 10), Group(c, 15), Group(c, 20), Group(c, 25), Group(c, 30), Group(c, 35)]
  }

  lemma LowSymbols(c: bv64)
    ensures Symbols(Low(c)) && forall i :: 0 <= i < 8 ==> Low(c)[i] == Unpack(c)[7 - i]
  {
    UnpackIsSymbols(c);
    hide Group;
    var u, w := Low(c), Unpack(c);
    assert u[0] == w[7] && u[1] == w[6] && u[2] == w[5] && u[3] == w[4];
    assert u[4] == w[3] && u[5] == w[2] && u[6] == w[1] && u[7] == w[0];
    assert forall i :: 0 <= i < 8 ==> u[i] == w[7 - i];
    hide Low, Unpack;
  }

  lemma LowPlus(a: bv64, b: bv64)
    ensures Low(Plus(a, b)) == Xor(Low(a), Low(b))
  {
    hide Low, Unpack, Plus;
    UnpackLinear(a, b);
    LowSymbols(a);
    LowSymbols(b);
    LowSymbols(Plus(a, b));
  }

  lemma TailTimes(a: Symbol, i: nat)
    requires i < 8
    ensures ScaledGenerator(a)[1..][7 - i] == Times(a, TAIL[i])
  {
    hide GfMul;
    var g := ScaledGenerator(a);
    assert g[1..][7 - i] == g[8 - i];
    match i
    case 0 => case 1 => case 2 => case 3 => case 4 => case 5 => case 6 => case 7 =>
  }

  /** One step of the register: shift, and subtract a multiple of the generator. */
  lemma LowStep(c: bv64)
    requires InRegister(c)
    ensures Symbols(Low(c)) && Symbols(TAIL)
    ensures Low(Step(c, 0)) == Xor([0] + Low(c)[..7], ScaledData(Low(c)[7], TAIL))
  {
    hide Low, Unpack, Step, ScaledGenerator, Times;
    UnpackStep(c, 0);
    LowSymbols(c);
    LowSymbols(Step(c, 0));
    Flipped(Unpack(c), Unpack(Step(c, 0)), Low(c), Low(Step(c, 0)));
  }

  lemma Flipped(u: Data, z: Data, low: Data, lowz: Data)
    requires |u| == |z| == |low| == |lowz| == 8 && Symbols(low)
    requires forall i :: 0 <= i < 8 ==> low[i] == u[7 - i] && lowz[i] == z[7 - i]
    requires z == Xor(u[1..] + [0], ScaledGenerator(u[0])[1..])
    ensures Symbols(TAIL) && lowz == Xor([0] + low[..7], ScaledData(low[7], TAIL))
  {
    hide ScaledGenerator, Times, Add;
    var shifted, fed := u[1..] + [0], ScaledGenerator(u[0])[1..];
    var shiftedLow, fedLow := [0] + low[..7], ScaledData(low[7], TAIL);
    forall i | 0 <= i < 8
      ensures shifted[7 - i] == shiftedLow[i] && fed[7 - i] == fedLow[i]
    {
      TailTimes(low[7], i);
    }
    forall i | 0 <= i < 8
      ensures lowz[i] == Xor(shiftedLow, fedLow)[i]
    {
      assert lowz[i] == z[7 - i] == Add(shifted[7 - i], fed[7 - i]);
    }
  }

  function Syndrome(ts: seq<Quad>, c: bv64): Quad
    requires |ts| == 9
  {
    LowSymbols(c);
    Combination(Low(c), ts[..8])
  }

  lemma SyndromePlus(ts: seq<Quad>, a: bv64, b: bv64)
    requires |ts| == 9
    ensures Syndrome(ts, Plus(a, b)) == Both(Syndrome(ts, a), Syndrome(ts, b))
  {
    LowSymbols(a);
    LowSymbols(b);
    LowPlus(a, b);
    hide Low, Plus, Both;
    CombinationXor(Low(a), Low(b), ts[..8]);
  }

  /** A step multiplies the syndrome by the root. */
  lemma SyndromeStep(ts: seq<Quad>, c: bv64)
    requires |ts| == 9 && IsRoot(ts) && InRegister(c)
    ensures Syndrome(ts, Step(c, 0)) == Mul(Syndrome(ts, c), ts[1])
  {
    LowStep(c);
    LowSymbols(c);
    hide Low, Step, Combination, IsRoot;
    ShiftedCombination(ts, Low(c));
  }

  lemma ShiftedPart(ts: seq<Quad>, u: Data)
    requires |ts| == 9 && |u| == 8 && Symbols(u)
    ensures Symbols([0] + u[..7]) && Combination([0] + u[..7], ts[..8]) == Combination(u[..7], ts[1..8])
  {
    hide Both, Scale, Combination;
    assert ts[..8] == [ts[0]] + ts[1..8];
    CombinationCons(0, u[..7], ts[0], ts[1..8]);
    ScaleByZero(ts[0]);
    BothLaws(Combination(u[..7], ts[1..8]), ZERO, ZERO);
  }

  lemma MultipliedPart(ts: seq<Quad>, u: Data)
    requires |ts| == 9 && ts[1..] == MulAll(ts[..8], ts[1]) && |u| == 8 && Symbols(u)
    ensures Mul(Combination(u, ts[..8]), ts[1]) == Both(Combination(u[..7], ts[1..8]), Scale(u[7], ts[8]))
  {
    hide Both, Scale, Mul, Combination;
    CombinationMul(u, ts[..8], ts[1]);
    var ss := ts[1..];
    TakeNext(u, ss, 7);
    assert ss[..7] == ts[1..8] && u[..8] == u && ss[..8] == ss;
  }

  lemma ShiftedCombination(ts: seq<Quad>, u: Data)
    requires |ts| == 9 && IsRoot(ts) && |u| == 8 && Symbols(u)
    ensures Symbols(TAIL) && Symbols(Xor([0] + u[..7], ScaledData(u[7], TAIL)))
    ensures Combination(Xor([0] + u[..7], ScaledData(u[7], TAIL)), ts[..8]) == Mul(Combination(u, ts[..8]), ts[1])
  {
    CombinationScaled(u[7], TAIL, ts[..8]);
    ShiftedPart(ts, u);
    MultipliedPart(ts, u);
    hide Both, Scale, Mul, Combination, ScaledData;
    CombinationXor([0] + u[..7], ScaledData(u[7], TAIL), ts[..8]);
  }

  lemma {:induction false} SyndromeRun(ts: seq<Quad>, m: nat, c: bv64, k: nat)
    requires |ts| == 9 && IsRoot(ts) && ts[1] == Pow(m, ONE) && InRegister(c)
    ensures Syndrome(ts, Run(c, Zeros(k))) == Pow(m * k, Syndrome(ts, c))
  {
    hide Pow, Mul, Step, Syndrome, IsRoot;
    if k == 0 {
      PowNothing(Syndrome(ts, c));
    } else {
      SyndromeRun(ts, m, c, k - 1);
      assert Zeros(k)[..k - 1] == Zeros(k - 1);
      RunStaysInRegister(c, Zeros(k - 1));
      var before := Run(c, Zeros(k - 1));
      SyndromeStep(ts, before);
      MulComm(Syndrome(ts, before), Pow(m, ONE));
      PowIsMul(m, Syndrome(ts, before));
      PowAdds(m, m * (k - 1), Syndrome(ts, c));
      assert m + m * (k - 1) == m * k;
    }
  }

  lemma {:induction false} CombinationOfZeros(n: nat, ts: seq<Quad>)
    requires |ts| == n
    ensures Combination(Zeros(n), ts) == ZERO
  {
    if n > 0 {
      CombinationOfZeros(n - 1, ts[..n - 1]);
      assert Zeros(n)[..n - 1] == Zeros(n - 1);
      ScaleByZero(ts[n - 1]);
      BothLaws(ZERO, ZERO, ZERO);
    }
  }

  lemma LowOfSymbol(e: Symbol)
    ensures Low(e as bv64) == [e] + Zeros(7)
  {
  }

  lemma SyndromeSymbol(ts: seq<Quad>, e: Symbol)
    requires IsRoot(ts)
    ensures Syndrome(ts, e as bv64) == Scale(e, ONE)
  {
    LowOfSymbol(e);
    hide Low, Both, Scale;
    assert ts[..8] == [ONE] + ts[1..8];
    CombinationCons(e, Zeros(7), ONE, ts[1..8]);
    CombinationOfZeros(7, ts[1..8]);
    BothLaws(Scale(e, ONE), ZERO, ZERO);
  }

  // ----- Errors -----

  /** An error: how many symbols follow it, and its value. */
  datatype Error = Error(after: nat, value: Quad)

  function Total(m: nat, xs: seq<Error>): Quad {
    if xs == [] then ZERO else Both(Pow(m * xs[0].after, xs[0].value), Total(m, xs[1..]))
  }

  lemma {:induction false} TotalPeriod(m: nat, xs: seq<Error>)
    ensures Total(m + 1025, xs) == Total(m, xs)
  {
    hide Pow, Both;
    if xs != [] {
      TotalPeriod(m, xs[1..]);
      Periods(xs[0].after, m * xs[0].after, xs[0].value);
      assert (m + 1025) * xs[0].after == 1025 * xs[0].after + m * xs[0].after;
    }
  }

  /** Combining two syndromes `s` apart so that an error at `a` would cancel. */
  function ReducedValue(s: nat, a: nat, x: Error): Quad {
    Both(Pow(s * x.after, x.value), Pow(s * a, x.value))
  }

  function Reduced(s: nat, a: nat, xs: seq<Error>): (ys: seq<Error>)
    ensures |ys| == |xs|
  {
    seq(|xs|, i requires 0 <= i < |xs| => Error(xs[i].after, ReducedValue(s, a, xs[i])))
  }

  lemma {:induction false} ReducedTotal(m: nat, s: nat, a: nat, xs: seq<Error>)
    ensures Total(m, Reduced(s, a, xs)) == Both(Total(m + s, xs), Pow(s * a, Total(m, xs)))
  {
    hide Pow, Both;
    if xs == [] {
      PowZero(s * a);
      BothLaws(ZERO, ZERO, ZERO);
    } else {
      var x := xs[0];
      ReducedTotal(m, s, a, xs[1..]);
      assert Reduced(s, a, xs)[1..] == Reduced(s, a, xs[1..]);
      ReducedTerm(m, s, a, x);
      PowBoth(s * a, Pow(m * x.after, x.value), Total(m, xs[1..]));
      BothSwap(Pow((m + s) * x.after, x.value), Pow(s * a, Pow(m * x.after, x.value)),
               Total(m + s, xs[1..]), Pow(s * a, Total(m, xs[1..])));
    }
  }

  lemma ReducedTerm(m: nat, s: nat, a: nat, x: Error)
    ensures Pow(m * x.after, ReducedValue(s, a, x)) ==
            Both(Pow((m + s) * x.after, x.value), Pow(s * a, Pow(m * x.after, x.value)))
  {
    hide Pow, Both;
    var k := m * x.after;
    PowBoth(k, Pow(s * x.after, x.value), Pow(s * a, x.value));
    PowAdds(k, s * x.after, x.value);
    PowAdds(k, s * a, x.value);
    PowAdds(s * a, k, x.value);
    assert k + s * x.after == (m + s) * x.after;
  }

  /** Two vanishing syndromes give one without the first error. */
  lemma DropFirst(m: nat, s: nat, xs: seq<Error>)
    requires xs != [] && Total(m, xs) == ZERO && Total(m + s, xs) == ZERO
    ensures Total(m, Reduced(s, xs[0].after, xs[1..])) == ZERO
  {
    hide Pow, Both;
    var a := xs[0].after;
    ReducedTotal(m, s, a, xs);
    PowZero(s * a);
    BothLaws(ZERO, ZERO, ZERO);
    var ys := Reduced(s, a, xs);
    assert ys[1..] == Reduced(s, a, xs[1..]);
    BothLaws(Pow(s * a, xs[0].value), ZERO, ZERO);
    PowZero(m * a);
    BothLaws(Total(m, ys[1..]), ZERO, ZERO);
  }

  /** An error somewhere else stays. */
  lemma ReducedStays(s: nat, a: nat, x: Error)
    requires x.value != ZERO && s * (if x.after < a then a - x.after else x.after - a) % 1025 != 0
    ensures ReducedValue(s, a, x) != ZERO
  {
    hide Pow, Both;
    var p, q := s * x.after, s * a;
    BothCancel(Pow(p, x.value), Pow(q, x.value));
    if Pow(p, x.value) == Pow(q, x.value) {
      if x.after < a {
        SameImages(p, q - p, x.value);
        assert q - p == s * (a - x.after);
        OnlyZeroFixed(q - p, x.value);
      } else {
        SameImages(q, p - q, x.value);
        assert p - q == s * (x.after - a);
        OnlyZeroFixed(p - q, x.value);
      }
    }
  }

  lemma SameImages(n: nat, d: nat, v: Quad)
    requires Pow(n + d, v) == Pow(n, v)
    ensures Pow(d, v) == v
  {
    hide Pow, Both;
    PowAdds(n, d, v);
    PowBoth(n, Pow(d, v), v);
    BothCancel(Pow(n, Pow(d, v)), Pow(n, v));
    PowInjective(n, Both(Pow(d, v), v));
    BothCancel(Pow(d, v), v);
  }

  // ----- Up to four errors -----

  /** Errors at different places, less than 1025 apart. */
  predicate Apart(xs: seq<Error>) {
    forall i, j :: 0 <= i < j < |xs| ==>
      xs[i].after != xs[j].after && xs[i].after < xs[j].after + 1025 && xs[j].after < xs[i].after + 1025
  }

  lemma NotMultiple(d: nat)
    requires 0 < d < 1025
    ensures 2 * d % 1025 != 0 && 31 * d % 1025 != 0
  {
    if 31 * d % 1025 == 0 {
      Coprime(d);
    }
  }

  lemma Coprime(d: nat)
    requires 31 * d % 1025 == 0
    ensures d % 1025 == 0
  {
    var q := 31 * d / 1025;
    assert d == 1025 * (496 * q - 15 * d);
  }

  lemma ReducedApart(s: nat, xs: seq<Error>)
    requires |xs| > 1 && Apart(xs) && xs[|xs| - 1].value != ZERO && (s == 2 || s == 31)
    ensures var ys := Reduced(s, xs[0].after, xs[1..]);
      Apart(ys) && ys[|ys| - 1].value != ZERO
  {
    var a, x := xs[0].after, xs[|xs| - 1];
    var ys := Reduced(s, a, xs[1..]);
    NotMultiple(if x.after < a then a - x.after else x.after - a);
    ReducedStays(s, a, x);
    assert forall i :: 0 <= i < |ys| ==> ys[i].after == xs[i + 1].after;
    assert ys[|ys| - 1].value == ReducedValue(s, a, x);
  }

  /** Syndromes in steps of 31, one for each error, do not all vanish. */
  lemma {:induction false} NotAllVanish(xs: seq<Error>)
    requires xs != [] && Apart(xs) && xs[|xs| - 1].value != ZERO
    ensures exists t :: 0 <= t < |xs| && Total(993 + 31 * t, xs) != ZERO
    decreases |xs|
  {
    if forall t :: 0 <= t < |xs| ==> Total(993 + 31 * t, xs) == ZERO {
      assert Total(993 + 31 * 0, xs) == ZERO;
      if |xs| == 1 {
        var v := Pow(993 * xs[0].after, xs[0].value);
        assert xs[1..] == [] && Total(993, xs) == Both(v, ZERO);
        BothLaws(v, ZERO, ZERO);
        hide Pow, Both;
        PowInjective(993 * xs[0].after, xs[0].value);
      } else {
        hide Pow, Both, Total, Reduced;
        var ys := Reduced(31, xs[0].after, xs[1..]);
        ReducedApart(31, xs);
        forall t | 0 <= t < |ys|
          ensures Total(993 + 31 * t, ys) == ZERO
        {
          assert Total(993 + 31 * (t + 1), xs) == ZERO;
          assert 993 + 31 * t + 31 == 993 + 31 * (t + 1);
          DropFirst(993 + 31 * t, 31, xs);
        }
        NotAllVanish(ys);
      }
    }
  }

  /** Up to four errors show in one of the six syndromes. */
  lemma SomeSyndrome(xs: seq<Error>)
    requires 0 < |xs| <= 4 && Apart(xs) && xs[|xs| - 1].value != ZERO
    ensures Total(1, xs) != ZERO || Total(30, xs) != ZERO || Total(32, xs) != ZERO ||
            Total(1024, xs) != ZERO || Total(995, xs) != ZERO || Total(993, xs) != ZERO
  {
    hide Total, Reduced, Apart;
    TotalPeriod(30, xs);
    TotalPeriod(1, xs);
    TotalPeriod(32, xs);
    if |xs| <= 3 {
      NotAllVanish(xs);
    } else {
      ReducedApart(2, xs);
      var ys := Reduced(2, xs[0].after, xs[1..]);
      NotAllVanish(ys);
      if Total(993, xs) == ZERO && Total(995, xs) == ZERO {
        DropFirst(993, 2, xs);
      }
      if Total(1024, xs) == ZERO && Total(1, xs) == ZERO {
        DropFirst(1024, 2, xs);
      }
      if Total(30, xs) == ZERO && Total(32, xs) == ZERO {
        DropFirst(1055, 2, xs);
      }
    }
  }

  // ----- Changed symbols -----

  predicate Places(ps: seq<nat>, n: nat) {
    (forall i :: 0 <= i < |ps| ==> ps[i] < n) &&
    (forall i, j :: 0 <= i < j < |ps| ==> ps[i] != ps[j] && ps[i] < ps[j] + 1025 && ps[j] < ps[i] + 1025)
  }

  predicate OnlyAt(d: Data, ps: seq<nat>) {
    forall i :: 0 <= i < |d| && i !in ps ==> d[i] == 0
  }

  function ErrorsAt(d: Data, ps: seq<nat>): (xs: seq<Error>)
    requires Symbols(d) && Places(ps, |d|)
    ensures |xs| == |ps|
  {
    seq(|ps|, i requires 0 <= i < |ps| => Error(|d| - 1 - ps[i], Scale(d[ps[i]], ONE)))
  }

  function Spike(n: nat, p: nat, e: Symbol): Data
    requires p < n
  {
    Zeros(p) + [e] + Zeros(n - 1 - p)
  }

  lemma RunOfSpike(n: nat, p: nat, e: Symbol)
    requires p < n
    ensures Run(0, Spike(n, p, e)) == Run(e as bv64, Zeros(n - 1 - p))
  {
    RunConcat(0, Zeros(p) + [e], Zeros(n - 1 - p));
    RunConcat(0, Zeros(p), [e]);
    RunOfZeros(p);
    assert [e][..0] == [];
    FirstStep(e);
  }

  lemma FirstStep(e: Symbol)
    ensures Run(0, [e]) == e as bv64
  {
    assert [e][..0] == [];
    assert Run(0, []) == 0;
  }

  lemma SplitSpike(d: Data, p: nat)
    requires Symbols(d) && p < |d|
    ensures Symbols(d[p := 0]) && Run(0, d) == Plus(Run(0, Spike(|d|, p, d[p])), Run(0, d[p := 0]))
  {
    var spike, rest := Spike(|d|, p, d[p]), d[p := 0];
    forall i | 0 <= i < |d|
      ensures Xor(spike, rest)[i] == d[i]
    {
      ZeroAdds(d[i]);
    }
    assert Xor(spike, rest) == d;
    RunLinear(0, spike, 0, rest);
    PlusBasics(0);
  }

  /** The syndrome of what a change adds to the register is the sum over the errors. */
  lemma {:induction false} SyndromeOfErrors(ts: seq<Quad>, m: nat, d: Data, ps: seq<nat>)
    requires |ts| == 9 && IsRoot(ts) && ts[1] == Pow(m, ONE)
    requires Symbols(d) && Places(ps, |d|) && OnlyAt(d, ps)
    ensures Syndrome(ts, Run(0, d)) == Total(m, ErrorsAt(d, ps))
    decreases |ps|
  {
    hide IsRoot, Pow, Both, Scale, Syndrome, Run;
    if ps == [] {
      assert d == Zeros(|d|);
      RunOfZeros(|d|);
      SyndromeSymbol(ts, 0);
      ScaleByZero(ONE);
    } else {
      var p, rest := ps[0], ps[1..];
      var e: Symbol, d' := d[p], d[p := 0];
      SplitSpike(d, p);
      RunOfSpike(|d|, p, e);
      SyndromePlus(ts, Run(0, Spike(|d|, p, e)), Run(0, d'));
      SyndromeRun(ts, m, e as bv64, |d| - 1 - p);
      SyndromeSymbol(ts, e);
      SyndromeOfErrors(ts, m, d', rest);
      assert ErrorsAt(d, ps)[1..] == ErrorsAt(d', rest);
    }
  }

  lemma ErrorsApart(d: Data, ps: seq<nat>)
    requires Symbols(d) && Places(ps, |d|) && ps != [] && d[ps[|ps| - 1]] != 0
    ensures var xs := ErrorsAt(d, ps); Apart(xs) && xs[|xs| - 1].value != ZERO
  {
    TimesUnits(d[ps[|ps| - 1]]);
    hide Times;
  }

  lemma SyndromeVanishes(m: nat, d: Data, ps: seq<nat>)
    requires RootPower(m) && Symbols(d) && Places(ps, |d|) && OnlyAt(d, ps) && Run(0, d) == 0
    ensures Total(m, ErrorsAt(d, ps)) == ZERO
  {
    hide IsRoot, Pow, Total, Syndrome, Scale, Run, ErrorsAt;
    var ts :| |ts| == 9 && IsRoot(ts) && ts[1] == Pow(m, ONE);
    SyndromeOfErrors(ts, m, d, ps);
    SyndromeSymbol(ts, 0);
    ScaleByZero(ONE);
  }

  /** A change at up to four places less than 1025 apart reaches the register. */
  lemma FewErrorsReach(d: Data, ps: seq<nat>)
    requires Symbols(d) && Places(ps, |d|) && OnlyAt(d, ps) && 0 < |ps| <= 4 && d[ps[|ps| - 1]] != 0
    ensures Run(0, d) != 0
  {
    if Run(0, d) == 0 {
      hide Total, ErrorsAt, RootPower, Run;
      RootPowers();
      InverseRootPowers();
      SyndromeVanishes(1, d, ps);
      SyndromeVanishes(30, d, ps);
      SyndromeVanishes(32, d, ps);
      SyndromeVanishes(1024, d, ps);
      SyndromeVanishes(995, d, ps);
      SyndromeVanishes(993, d, ps);
      ErrorsApart(d, ps);
      SomeSyndrome(ErrorsAt(d, ps));
    }
  }

  /** Two symbol lists of one length that differ at most at the given places. */
  predicate DifferAt(v: Data, w: Data, ps: seq<nat>) {
    |v| == |w| && forall i :: 0 <= i < |v| && v[i] != w[i] ==> i in ps
  }

  lemma MovedLast(ps: seq<nat>, n: nat, i: nat)
    requires i < |ps| && Places(ps, n)
    ensures var qs := ps[..i] + ps[i + 1..] + [ps[i]];
      |qs| == |ps| && Places(qs, n) && forall p :: p in ps ==> p in qs
  {
    var qs := ps[..i] + ps[i + 1..] + [ps[i]];
    assert ps == ps[..i] + [ps[i]] + ps[i + 1..];
    assert forall k :: 0 <= k < |qs| ==> qs[k] == if k < i then ps[k] else if k < |ps| - 1 then ps[k + 1] else ps[i];
  }

  /** Symbol lists that differ at up to four places less than 1025 apart never have the same
      remainder. */
  lemma FewErrorsChangeRemainder(v: Data, w: Data, ps: seq<nat>)
    requires Symbols(v) && Symbols(w) && v != w
    requires DifferAt(v, w, ps) && Places(ps, |v|) && |ps| <= 4
    ensures Remainder(v) != Remainder(w)
  {
    hide Run, Plus, Add, Places;
    var d := Xor(v, w);
    RunLinear(1, v, 1, w);
    PlusBasics(1);
    SymbolXor(v, w);
    var k :| 0 <= k < |v| && v[k] != w[k];
    var i :| 0 <= i < |ps| && ps[i] == k;
    MovedLast(ps, |v|, i);
    var qs := ps[..i] + ps[i + 1..] + [ps[i]];
    XorNonzero(v[k], w[k]);
    forall j | 0 <= j < |d| && j !in qs
      ensures d[j] == 0
    {
      XorNonzero(v[j], w[j]);
    }
    FewErrorsReach(d, qs);
    PlusInjective(Run(1, v), Run(1, w));
  }
}
