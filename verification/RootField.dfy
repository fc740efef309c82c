/** GF(32) extended by a root y of the factor y^4 + 12y^3 + 11y^2 + 12y + 1 of the
    generator. Multiplication by y is a linear map; its powers are all that is needed. */
module RootField {
  import opened CashAddrChecksum
  import opened GaloisField

  /** Coefficients of y^3, y^2, y and 1. */
  datatype Quad = Quad(a: Symbol, b: Symbol, c: Symbol, d: Symbol)

  const ZERO := Quad(0, 0, 0, 0)
  const ONE := Quad(0, 0, 0, 1)

  function Both(q: Quad, r: Quad): Quad {
    Quad(Sum(q.a, r.a), Sum(q.b, r.b), Sum(q.c, r.c), Sum(q.d, r.d))
  }

  function Scale(e: Symbol, q: Quad): Quad {
    Quad(Times(e, q.a), Times(e, q.b), Times(e, q.c), Times(e, q.d))
  }

  /** Multiplication by y. */
  function Next(q: Quad): Quad {
    Quad(Sum(q.b, Times(12, q.a)), Sum(q.c, Times(11, q.a)), Sum(q.d, Times(12, q.a)), q.a)
  }

  function Pow(n: nat, q: Quad): Quad {
    if n == 0 then q else Next(Pow(n - 1, q))
  }

  // ----- Addition -----

  lemma SumAssoc(a: Symbol, b: Symbol, c: Symbol)
    ensures Sum(Sum(a, b), c) == Sum(a, Sum(b, c)) && Sum(a, b) == Sum(b, a)
  {
    AddAssoc(a, b, c);
    AddComm(a, b);
    hide Add;
  }

  lemma BothLaws(p: Quad, q: Quad, r: Quad)
    ensures Both(Both(p, q), r) == Both(p, Both(q, r)) && Both(p, q) == Both(q, p)
    ensures Both(p, ZERO) == p == Both(ZERO, p) && Both(p, p) == ZERO
  {
    SumAssoc(p.a, q.a, r.a);
    SumAssoc(p.b, q.b, r.b);
    SumAssoc(p.c, q.c, r.c);
    SumAssoc(p.d, q.d, r.d);
    TimesUnits(p.a);
    TimesUnits(p.b);
    TimesUnits(p.c);
    TimesUnits(p.d);
    hide Sum, Times;
  }

  lemma SumSwap(a: Symbol, b: Symbol, c: Symbol, d: Symbol)
    ensures Sum(Sum(a, b), Sum(c, d)) == Sum(Sum(a, c), Sum(b, d))
  {
    AddSwap(a, b, c, d);
    hide Add;
  }

  lemma BothSwap(p: Quad, q: Quad, r: Quad, s: Quad)
    ensures Both(Both(p, q), Both(r, s)) == Both(Both(p, r), Both(q, s))
  {
    hide Sum;
    SumSwap(p.a, q.a, r.a, s.a);
    SumSwap(p.b, q.b, r.b, s.b);
    SumSwap(p.c, q.c, r.c, s.c);
    SumSwap(p.d, q.d, r.d, s.d);
  }

  /** In characteristic two a vanishing sum means equality. */
  lemma BothCancel(p: Quad, q: Quad)
    ensures Both(p, q) == ZERO <==> p == q
  {
    hide Both;
    if Both(p, q) == ZERO {
      BothLaws(p, q, q);
      BothLaws(q, q, q);
    }
    BothLaws(p, p, p);
  }

  // ----- Linear maps -----

  lemma NextBoth(q: Quad, r: Quad)
    ensures Next(Both(q, r)) == Both(Next(q), Next(r))
  {
    hide Sum, Times;
    TimesSum(12, q.a, r.a);
    TimesSum(11, q.a, r.a);
    SumSwap(q.b, r.b, Times(12, q.a), Times(12, r.a));
    SumSwap(q.c, r.c, Times(11, q.a), Times(11, r.a));
    SumSwap(q.d, r.d, Times(12, q.a), Times(12, r.a));
  }

  lemma NextScale(e: Symbol, q: Quad)
    ensures Next(Scale(e, q)) == Scale(e, Next(q))
  {
    hide Sum, Times;
    TimesSwap(12, e, q.a);
    TimesSwap(11, e, q.a);
    TimesSum(e, q.b, Times(12, q.a));
    TimesSum(e, q.c, Times(11, q.a));
    TimesSum(e, q.d, Times(12, q.a));
  }

  lemma NextInjective(q: Quad)
    requires Next(q) == ZERO
    ensures q == ZERO
  {
    TimesUnits(12);
    TimesUnits(11);
    TimesUnits(q.b);
    TimesUnits(q.c);
    TimesUnits(q.d);
    hide Sum, Times;
  }

  lemma {:induction false} PowBoth(n: nat, q: Quad, r: Quad)
    ensures Pow(n, Both(q, r)) == Both(Pow(n, q), Pow(n, r))
  {
    hide Both, Next;
    if n > 0 {
      PowBoth(n - 1, q, r);
      NextBoth(Pow(n - 1, q), Pow(n - 1, r));
    }
  }

  lemma {:induction false} PowScale(n: nat, e: Symbol, q: Quad)
    ensures Pow(n, Scale(e, q)) == Scale(e, Pow(n, q))
  {
    hide Scale, Next;
    if n > 0 {
      PowScale(n - 1, e, q);
      NextScale(e, Pow(n - 1, q));
    }
  }

  lemma {:induction false} PowAdds(m: nat, n: nat, q: Quad)
    ensures Pow(m + n, q) == Pow(m, Pow(n, q))
  {
    hide Next;
    if m > 0 {
      PowAdds(m - 1, n, q);
    }
  }

  lemma {:induction false} PowZero(n: nat)
    ensures Pow(n, ZERO) == ZERO
  {
    if n > 0 {
      PowZero(n - 1);
      assert Next(ZERO) == ZERO;
    }
  }

  lemma {:induction false} PowInjective(n: nat, q: Quad)
    requires Pow(n, q) == ZERO
    ensures q == ZERO
  {
    hide Next;
    if n > 0 {
      NextInjective(Pow(n - 1, q));
      PowInjective(n - 1, q);
    }
  }

  lemma ScaleLaws(e: Symbol, f: Symbol, q: Quad, r: Quad)
    ensures Scale(e, Both(q, r)) == Both(Scale(e, q), Scale(e, r))
    ensures Scale(Sum(e, f), q) == Both(Scale(e, q), Scale(f, q))
    ensures Scale(e, Scale(f, q)) == Scale(Times(e, f), q)
  {
    hide Sum, Times;
    TimesSum(e, q.a, r.a);
    TimesSum(e, q.b, r.b);
    TimesSum(e, q.c, r.c);
    TimesSum(e, q.d, r.d);
    TimesSumLeft(e, f, q.a);
    TimesSumLeft(e, f, q.b);
    TimesSumLeft(e, f, q.c);
    TimesSumLeft(e, f, q.d);
    TimesAssoc(e, f, q.a);
    TimesAssoc(e, f, q.b);
    TimesAssoc(e, f, q.c);
    TimesAssoc(e, f, q.d);
  }

  lemma ScaleZero(e: Symbol)
    ensures Scale(e, ZERO) == ZERO
  {
    TimesUnits(e);
    hide Times;
  }

  // ----- Every element from the powers of y -----

  lemma UnitPowers()
    ensures Pow(1, ONE) == Quad(0, 0, 1, 0) && Pow(2, ONE) == Quad(0, 1, 0, 0) && Pow(3, ONE) == Quad(1, 0, 0, 0)
  {
    assert Next(ONE) == Quad(0, 0, 1, 0);
    assert Next(Quad(0, 0, 1, 0)) == Quad(0, 1, 0, 0);
    assert Next(Quad(0, 1, 0, 0)) == Quad(1, 0, 0, 0);
    hide Next;
    assert Pow(1, ONE) == Next(Pow(0, ONE));
    assert Pow(2, ONE) == Next(Pow(1, ONE));
    assert Pow(3, ONE) == Next(Pow(2, ONE));
  }

  /** Multiplication by `r`, from the powers of y. */
  function Mul(q: Quad, r: Quad): Quad {
    var q1 := Next(q);
    var q2 := Next(q1);
    Both(Both(Scale(r.d, q), Scale(r.c, q1)), Both(Scale(r.b, q2), Scale(r.a, Next(q2))))
  }

  /** `t` times the first three powers of y. */
  predicate MultiplesByY(t: Quad, ys: (Quad, Quad, Quad)) {
    Next(t) == ys.0 && Next(ys.0) == ys.1 && Next(ys.1) == ys.2
  }

  /** `t` times `r` from these multiples. */
  function TimesFrom(t: Quad, ys: (Quad, Quad, Quad), r: Quad): Quad {
    Both(Both(Scale(r.d, t), Scale(r.c, ys.0)), Both(Scale(r.b, ys.1), Scale(r.a, ys.2)))
  }

  lemma Product(t: Quad, r: Quad, ys: (Quad, Quad, Quad), p: Quad)
    requires MultiplesByY(t, ys) && TimesFrom(t, ys, r) == p
    ensures Mul(t, r) == p
  {
    hide Next, Scale, Both;
  }

  lemma MulByPowers(q: Quad, r: Quad)
    ensures Mul(q, r) ==
            Both(Both(Scale(r.d, q), Scale(r.c, Pow(1, q))), Both(Scale(r.b, Pow(2, q)), Scale(r.a, Pow(3, q))))
  {
    hide Both, Scale, Next;
    assert Pow(1, q) == Next(Pow(0, q));
    assert Pow(2, q) == Next(Pow(1, q));
    assert Pow(3, q) == Next(Pow(2, q));
  }

  lemma MulOne(r: Quad)
    ensures Mul(ONE, r) == r
  {
    UnitPowers();
    MulByPowers(ONE, r);
    hide Pow, Mul;
    TimesUnits(r.a);
    TimesUnits(r.b);
    TimesUnits(r.c);
    TimesUnits(r.d);
    TimesUnits(0);
    hide Times, Sum;
  }

  /** Multiplication by `r` commutes with multiplication by y. */
  lemma PowMul(n: nat, q: Quad, r: Quad)
    ensures Pow(n, Mul(q, r)) == Mul(Pow(n, q), r)
  {
    hide Both, Scale, Pow, Mul;
    MulByPowers(q, r);
    MulByPowers(Pow(n, q), r);
    var p1, p2, p3 := Pow(1, q), Pow(2, q), Pow(3, q);
    PowBoth(n, Both(Scale(r.d, q), Scale(r.c, p1)), Both(Scale(r.b, p2), Scale(r.a, p3)));
    PowBoth(n, Scale(r.d, q), Scale(r.c, p1));
    PowBoth(n, Scale(r.b, p2), Scale(r.a, p3));
    PowScale(n, r.d, q);
    PowScale(n, r.c, p1);
    PowScale(n, r.b, p2);
    PowScale(n, r.a, p3);
    PowAdds(n, 1, q);
    PowAdds(1, n, q);
    PowAdds(n, 2, q);
    PowAdds(2, n, q);
    PowAdds(n, 3, q);
    PowAdds(3, n, q);
  }

  /** Powers multiply. */
  lemma PowersMultiply(m: nat, n: nat, q: Quad, r: Quad)
    requires Pow(m, ONE) == q && Pow(n, ONE) == r
    ensures Pow(m + n, ONE) == Mul(q, r)
  {
    hide Pow, Mul;
    PowAdds(m, n, ONE);
    MulOne(r);
    PowMul(m, ONE, r);
  }

  /** Multiplication by a power of y is that power of the map. */
  lemma PowIsMul(n: nat, q: Quad)
    ensures Pow(n, q) == Mul(Pow(n, ONE), q)
  {
    hide Pow, Mul;
    MulOne(q);
    PowMul(n, ONE, q);
  }

  lemma MulBoth(q: Quad, s: Quad, r: Quad)
    ensures Mul(Both(q, s), r) == Both(Mul(q, r), Mul(s, r))
  {
    hide Both, Scale, Next;
    var q1, s1 := Next(q), Next(s);
    var q2, s2 := Next(q1), Next(s1);
    var q3, s3 := Next(q2), Next(s2);
    NextBoth(q, s);
    NextBoth(q1, s1);
    NextBoth(q2, s2);
    ScaleLaws(r.d, 0, q, s);
    ScaleLaws(r.c, 0, q1, s1);
    ScaleLaws(r.b, 0, q2, s2);
    ScaleLaws(r.a, 0, q3, s3);
    BothSwap(Scale(r.d, q), Scale(r.d, s), Scale(r.c, q1), Scale(r.c, s1));
    BothSwap(Scale(r.b, q2), Scale(r.b, s2), Scale(r.a, q3), Scale(r.a, s3));
    BothSwap(Both(Scale(r.d, q), Scale(r.c, q1)), Both(Scale(r.d, s), Scale(r.c, s1)),
             Both(Scale(r.b, q2), Scale(r.a, q3)), Both(Scale(r.b, s2), Scale(r.a, s3)));
  }

  lemma ScaleSwap(e: Symbol, f: Symbol, q: Quad)
    ensures Scale(e, Scale(f, q)) == Scale(f, Scale(e, q))
  {
    ScaleLaws(e, f, q, q);
    ScaleLaws(f, e, q, q);
    TimesComm(e, f);
    hide Scale, Times;
  }

  lemma MulScale(e: Symbol, q: Quad, r: Quad)
    ensures Mul(Scale(e, q), r) == Scale(e, Mul(q, r))
  {
    hide Both, Scale, Next;
    var q1 := Next(q);
    var q2 := Next(q1);
    var q3 := Next(q2);
    NextScale(e, q);
    NextScale(e, q1);
    NextScale(e, q2);
    ScaleSwap(r.d, e, q);
    ScaleSwap(r.c, e, q1);
    ScaleSwap(r.b, e, q2);
    ScaleSwap(r.a, e, q3);
    ScaleLaws(e, 0, Scale(r.d, q), Scale(r.c, q1));
    ScaleLaws(e, 0, Scale(r.b, q2), Scale(r.a, q3));
    ScaleLaws(e, 0, Both(Scale(r.d, q), Scale(r.c, q1)), Both(Scale(r.b, q2), Scale(r.a, q3)));
  }

  /** Multiplications commute. */
  lemma MulSwap(q: Quad, v: Quad, w: Quad)
    ensures Mul(Mul(q, v), w) == Mul(Mul(q, w), v)
  {
    hide Both, Scale, Pow, Mul;
    var p1, p2, p3 := Pow(1, q), Pow(2, q), Pow(3, q);
    MulByPowers(Mul(q, v), w);
    MulByPowers(q, w);
    PowMul(1, q, v);
    PowMul(2, q, v);
    PowMul(3, q, v);
    MulScale(w.d, q, v);
    MulScale(w.c, p1, v);
    MulScale(w.b, p2, v);
    MulScale(w.a, p3, v);
    MulBoth(Scale(w.d, q), Scale(w.c, p1), v);
    MulBoth(Scale(w.b, p2), Scale(w.a, p3), v);
    MulBoth(Both(Scale(w.d, q), Scale(w.c, p1)), Both(Scale(w.b, p2), Scale(w.a, p3)), v);
  }

  lemma MulComm(q: Quad, r: Quad)
    ensures Mul(q, r) == Mul(r, q)
  {
    MulOne(q);
    MulOne(r);
    MulSwap(ONE, q, r);
    hide Mul;
  }

  lemma MulZero(w: Quad)
    ensures Mul(ZERO, w) == ZERO
  {
    hide Both, Scale;
    PowZero(1);
    PowZero(2);
    PowZero(3);
    MulByPowers(ZERO, w);
    ScaleZero(w.a);
    ScaleZero(w.b);
    ScaleZero(w.c);
    ScaleZero(w.d);
    BothLaws(ZERO, ZERO, ZERO);
    hide Mul, Pow;
  }

  // ----- The powers of y -----

  lemma Step2()
    requires Pow(1, ONE) == Quad(0, 0, 1, 0)
    ensures Pow(2, ONE) == Quad(0, 1, 0, 0)
  {
    hide Pow, Mul;
    Product(Quad(0, 0, 1, 0), Quad(0, 0, 1, 0), (Quad(0, 1, 0, 0), Quad(1, 0, 0, 0), Quad(12, 11, 12, 1)),
            Quad(0, 1, 0, 0));
    PowersMultiply(1, 1, Quad(0, 0, 1, 0), Quad(0, 0, 1, 0));
  }

  lemma Step4()
    requires Pow(2, ONE) == Quad(0, 1, 0, 0)
    ensures Pow(4, ONE) == Quad(12, 11, 12, 1)
  {
    hide Pow, Mul;
    Product(Quad(0, 1, 0, 0), Quad(0, 1, 0, 0), (Quad(1, 0, 0, 0), Quad(12, 11, 12, 1), Quad(9, 3, 3, 12)),
            Quad(12, 11, 12, 1));
    PowersMultiply(2, 2, Quad(0, 1, 0, 0), Quad(0, 1, 0, 0));
  }

  lemma Step5()
    requires Pow(4, ONE) == Quad(12, 11, 12, 1) && Pow(1, ONE) == Quad(0, 0, 1, 0)
    ensures Pow(5, ONE) == Quad(9, 3, 3, 12)
  {
    hide Pow, Mul;
    Product(Quad(12, 11, 12, 1), Quad(0, 0, 1, 0), (Quad(9, 3, 3, 12), Quad(20, 2, 27, 9), Quad(4, 10, 15, 20)),
            Quad(9, 3, 3, 12));
    PowersMultiply(4, 1, Quad(12, 11, 12, 1), Quad(0, 0, 1, 0));
  }

  lemma Step10()
    requires Pow(5, ONE) == Quad(9, 3, 3, 12)
    ensures Pow(10, ONE) == Quad(8, 4, 31, 1)
  {
    hide Pow, Mul;
    Product(Quad(9, 3, 3, 12), Quad(9, 3, 3, 12), (Quad(20, 2, 27, 9), Quad(4, 10, 15, 20), Quad(19, 10, 13, 4)),
            Quad(8, 4, 31, 1));
    PowersMultiply(5, 5, Quad(9, 3, 3, 12), Quad(9, 3, 3, 12));
  }

  lemma Step20()
    requires Pow(10, ONE) == Quad(8, 4, 31, 1)
    ensures Pow(20, ONE) == Quad(22, 4, 14, 30)
  {
    hide Pow, Mul;
    Product(Quad(8, 4, 31, 1), Quad(8, 4, 31, 1), (Quad(31, 21, 26, 8), Quad(28, 28, 1, 31), Quad(1, 26, 2, 28)),
            Quad(22, 4, 14, 30));
    PowersMultiply(10, 10, Quad(8, 4, 31, 1), Quad(8, 4, 31, 1));
  }

  lemma Step25()
    requires Pow(20, ONE) == Quad(22, 4, 14, 30) && Pow(5, ONE) == Quad(9, 3, 3, 12)
    ensures Pow(25, ONE) == Quad(29, 7, 25, 8)
  {
    hide Pow, Mul;
    Product(Quad(22, 4, 14, 30), Quad(9, 3, 3, 12), (Quad(26, 9, 0, 22), Quad(21, 8, 10, 26), Quad(2, 16, 16, 21)),
            Quad(29, 7, 25, 8));
    PowersMultiply(20, 5, Quad(22, 4, 14, 30), Quad(9, 3, 3, 12));
  }

  lemma Step30()
    requires Pow(25, ONE) == Quad(29, 7, 25, 8) && Pow(5, ONE) == Quad(9, 3, 3, 12)
    ensures Pow(30, ONE) == Quad(5, 17, 2, 13)
  {
    hide Pow, Mul;
    Product(Quad(29, 7, 25, 8), Quad(9, 3, 3, 12), (Quad(22, 9, 25, 29), Quad(23, 30, 3, 22), Quad(12, 15, 4, 23)),
            Quad(5, 17, 2, 13));
    PowersMultiply(25, 5, Quad(29, 7, 25, 8), Quad(9, 3, 3, 12));
  }

  lemma Step32()
    requires Pow(30, ONE) == Quad(5, 17, 2, 13) && Pow(2, ONE) == Quad(0, 1, 0, 0)
    ensures Pow(32, ONE) == Quad(21, 29, 28, 4)
  {
    hide Pow, Mul;
    Product(Quad(5, 17, 2, 13), Quad(0, 1, 0, 0), (Quad(4, 12, 24, 5), Quad(21, 29, 28, 4), Quad(23, 6, 14, 21)),
            Quad(21, 29, 28, 4));
    PowersMultiply(30, 2, Quad(5, 17, 2, 13), Quad(0, 1, 0, 0));
  }

  lemma Step50()
    requires Pow(25, ONE) == Quad(29, 7, 25, 8)
    ensures Pow(50, ONE) == Quad(18, 8, 24, 9)
  {
    hide Pow, Mul;
    Product(Quad(29, 7, 25, 8), Quad(29, 7, 25, 8), (Quad(22, 9, 25, 29), Quad(23, 30, 3, 22), Quad(12, 15, 4, 23)),
            Quad(18, 8, 24, 9));
    PowersMultiply(25, 25, Quad(29, 7, 25, 8), Quad(29, 7, 25, 8));
  }

  lemma Step100()
    requires Pow(50, ONE) == Quad(18, 8, 24, 9)
    ensures Pow(100, ONE) == Quad(8, 31, 6, 25)
  {
    hide Pow, Mul;
    Product(Quad(18, 8, 24, 9), Quad(18, 8, 24, 9), (Quad(15, 26, 14, 18), Quad(12, 28, 4, 15), Quad(30, 11, 13, 12)),
            Quad(8, 31, 6, 25));
    PowersMultiply(50, 50, Quad(18, 8, 24, 9), Quad(18, 8, 24, 9));
  }

  lemma Step200()
    requires Pow(100, ONE) == Quad(8, 31, 6, 25)
    ensures Pow(200, ONE) == Quad(24, 9, 0, 27)
  {
    hide Pow, Mul;
    Product(Quad(8, 31, 6, 25), Quad(8, 31, 6, 25), (Quad(4, 12, 2, 8), Quad(21, 7, 17, 4), Quad(13, 11, 14, 21)),
            Quad(24, 9, 0, 27));
    PowersMultiply(100, 100, Quad(8, 31, 6, 25), Quad(8, 31, 6, 25));
  }

  lemma Step205()
    requires Pow(200, ONE) == Quad(24, 9, 0, 27) && Pow(5, ONE) == Quad(9, 3, 3, 12)
    ensures Pow(205, ONE) == Quad(7, 10, 20, 27)
  {
    hide Pow, Mul;
    Product(Quad(24, 9, 0, 27), Quad(9, 3, 3, 12), (Quad(13, 30, 31, 24), Quad(16, 27, 22, 13), Quad(4, 2, 18, 16)),
            Quad(7, 10, 20, 27));
    PowersMultiply(200, 5, Quad(24, 9, 0, 27), Quad(9, 3, 3, 12));
  }

  lemma Step400()
    requires Pow(200, ONE) == Quad(24, 9, 0, 27)
    ensures Pow(400, ONE) == Quad(15, 25, 12, 4)
  {
    hide Pow, Mul;
    Product(Quad(24, 9, 0, 27), Quad(24, 9, 0, 27), (Quad(13, 30, 31, 24), Quad(16, 27, 22, 13), Quad(4, 2, 18, 16)),
            Quad(15, 25, 12, 4));
    PowersMultiply(200, 200, Quad(24, 9, 0, 27), Quad(24, 9, 0, 27));
  }

  lemma Step800()
    requires Pow(400, ONE) == Quad(15, 25, 12, 4)
    ensures Pow(800, ONE) == Quad(0, 13, 4, 15)
  {
    hide Pow, Mul;
    Product(Quad(15, 25, 12, 4), Quad(15, 25, 12, 4), (Quad(15, 30, 18, 15), Quad(8, 0, 25, 15), Quad(27, 19, 20, 8)),
            Quad(0, 13, 4, 15));
    PowersMultiply(400, 400, Quad(15, 25, 12, 4), Quad(15, 25, 12, 4));
  }

  lemma Step1000()
    requires Pow(800, ONE) == Quad(0, 13, 4, 15) && Pow(200, ONE) == Quad(24, 9, 0, 27)
    ensures Pow(1000, ONE) == Quad(23, 4, 15, 12)
  {
    hide Pow, Mul;
    Product(Quad(0, 13, 4, 15), Quad(24, 9, 0, 27), (Quad(13, 4, 15, 0), Quad(10, 11, 14, 13), Quad(8, 18, 14, 10)),
            Quad(23, 4, 15, 12));
    PowersMultiply(800, 200, Quad(0, 13, 4, 15), Quad(24, 9, 0, 27));
  }

  lemma Step1025()
    requires Pow(1000, ONE) == Quad(23, 4, 15, 12) && Pow(25, ONE) == Quad(29, 7, 25, 8)
    ensures Pow(1025, ONE) == Quad(0, 0, 0, 1)
  {
    hide Pow, Mul;
    Product(Quad(23, 4, 15, 12), Quad(29, 7, 25, 8), (Quad(22, 3, 30, 23), Quad(29, 25, 9, 22), Quad(8, 25, 7, 29)),
            Quad(0, 0, 0, 1));
    PowersMultiply(1000, 25, Quad(23, 4, 15, 12), Quad(29, 7, 25, 8));
  }

  lemma LowPowers()
    ensures Pow(2, ONE) == Quad(0, 1, 0, 0) && Pow(25, ONE) == Quad(29, 7, 25, 8)
    ensures Pow(30, ONE) == Quad(5, 17, 2, 13) && Pow(32, ONE) == Quad(21, 29, 28, 4)
    ensures Pow(5, ONE) == Quad(9, 3, 3, 12)
  {
    UnitPowers();
    hide Pow;
    Step2();
    Step4();
    Step5();
    Step10();
    Step20();
    Step25();
    Step30();
    Step32();
  }

  /** The powers of y repeat after 1025 steps. */
  lemma HighPowers()
    ensures Pow(205, ONE) == Quad(7, 10, 20, 27) && Pow(1025, ONE) == ONE
  {
    LowPowers();
    hide Pow;
    Step50();
    Step100();
    Step200();
    Step205();
    Step400();
    Step800();
    Step1000();
    Step1025();
  }

  lemma Period(q: Quad)
    ensures Pow(1025, q) == q
  {
    HighPowers();
    PowIsMul(1025, q);
    MulOne(q);
    hide Pow, Mul;
  }

  lemma {:induction false} Periods(t: nat, n: nat, q: Quad)
    ensures Pow(1025 * t + n, q) == Pow(n, q)
  {
    hide Pow;
    if t > 0 {
      Periods(t - 1, n, q);
      PowAdds(1025, 1025 * (t - 1) + n, q);
      Period(Pow(1025 * (t - 1) + n, q));
    }
  }

  /** A multiplication by x that has x + 1 invertible leaves only zero in place. */
  lemma InvertibleFixes(n: nat, x: Quad, w: Quad, v: Quad)
    requires Pow(n, ONE) == x && Mul(Both(x, ONE), w) == ONE && Pow(n, v) == v
    ensures v == ZERO
  {
    hide Pow, Mul, Both;
    PowIsMul(n, v);
    MulOne(v);
    MulBoth(x, ONE, v);
    BothLaws(v, v, v);
    MulSwap(Both(x, ONE), v, w);
    MulZero(w);
  }

  lemma Fixed25(v: Quad)
    requires Pow(25, v) == v
    ensures v == ZERO
  {
    LowPowers();
    hide Pow;
    assert Both(Quad(29, 7, 25, 8), ONE) == Quad(29, 7, 25, 9);
    Product(Quad(29, 7, 25, 9), Quad(26, 21, 5, 5), (Quad(22, 9, 24, 29), Quad(23, 31, 3, 22), Quad(13, 15, 4, 23)),
            Quad(0, 0, 0, 1));
    InvertibleFixes(25, Quad(29, 7, 25, 8), Quad(26, 21, 5, 5), v);
  }

  lemma Fixed205(v: Quad)
    requires Pow(205, v) == v
    ensures v == ZERO
  {
    HighPowers();
    hide Pow;
    assert Both(Quad(7, 10, 20, 27), ONE) == Quad(7, 10, 20, 26);
    Product(Quad(7, 10, 20, 26), Quad(1, 5, 29, 1), (Quad(7, 12, 23, 7), Quad(1, 15, 10, 7), Quad(3, 1, 11, 1)),
            Quad(0, 0, 0, 1));
    InvertibleFixes(205, Quad(7, 10, 20, 27), Quad(1, 5, 29, 1), v);
  }

  lemma {:induction false} FixedMultiple(n: nat, k: nat, v: Quad)
    requires Pow(n, v) == v
    ensures Pow(n * k, v) == v
  {
    hide Pow;
    if k == 0 {
      assert Pow(0, v) == v by {
        PowNothing(v);
      }
    } else {
      FixedMultiple(n, k - 1, v);
      PowAdds(n * (k - 1), n, v);
      assert n * (k - 1) + n == n * k;
    }
  }

  lemma PowNothing(v: Quad)
    ensures Pow(0, v) == v
  {
  }

  /** An inverse modulo 41. */
  function Inverse41(r: nat): nat
    requires 0 < r < 41
    ensures Inverse41(r) * r % 41 == 1
  {
    match r
    case 1 => 1 case 2 => 21 case 3 => 14 case 4 => 31 case 5 => 33 case 6 => 7 case 7 => 6 case 8 => 36
    case 9 => 32 case 10 => 37 case 11 => 15 case 12 => 24 case 13 => 19 case 14 => 3 case 15 => 11 case 16 => 18
    case 17 => 29 case 18 => 16 case 19 => 13 case 20 => 39 case 21 => 2 case 22 => 28 case 23 => 25 case 24 => 12
    case 25 => 23 case 26 => 30 case 27 => 38 case 28 => 22 case 29 => 17 case 30 => 26 case 31 => 4 case 32 => 9
    case 33 => 5 case 34 => 35 case 35 => 34 case 36 => 8 case 37 => 10 case 38 => 27 case 39 => 20 case 40 => 40
  }

  /** An inverse modulo 5. */
  function Inverse5(r: nat): nat
    requires 0 < r < 5
    ensures Inverse5(r) * r % 5 == 1
  {
    [0, 1, 3, 2, 4][r]
  }

  lemma FixedRemainder(n: nat, d: nat, v: Quad)
    requires Pow(n, v) == v && n % 1025 == d
    ensures Pow(d, v) == v
  {
    hide Pow;
    Periods(n / 1025, d, v);
    assert 1025 * (n / 1025) + d == n;
  }

  lemma FixedBy41(n: nat, v: Quad)
    requires Pow(n, v) == v && n % 41 != 0
    ensures v == ZERO
  {
    hide Pow;
    var k := Inverse41(n % 41);
    hide Inverse41;
    FixedMultiple(n, 25 * k, v);
    Reduce41(n, k);
    FixedRemainder(n * (25 * k), 25, v);
    Fixed25(v);
  }

  lemma FixedBy5(n: nat, m: nat, f: nat, r: nat, v: Quad)
    requires Pow(n, v) == v && n == 41 * m && 0 < r < 5
    requires (f == 5 && r == m % 5) || (f == 1 && m % 5 == 0 && r == m / 5 % 5)
    ensures v == ZERO
  {
    hide Pow;
    var k := Inverse5(r);
    hide Inverse5;
    FixedMultiple(n, f * k, v);
    Reduce5(n, m, f, r, k);
    FixedRemainder(n * (f * k), 205, v);
    Fixed205(v);
  }

  lemma Cofactor(n: nat, m: nat)
    requires n == 41 * m && n % 1025 != 0 && m % 5 == 0
    ensures m / 5 % 5 != 0
  {
    var z := m / 5;
    var q := z / 5;
    assert n == 205 * z;
    RemainderOf(q, 0);
    assert z % 5 == 0 ==> n == 1025 * q + 0;
  }

  /** Only zero is left in place by a power that is not a multiple of 1025. */
  lemma OnlyZeroFixed(n: nat, v: Quad)
    requires Pow(n, v) == v && n % 1025 != 0
    ensures v == ZERO
  {
    hide Pow;
    var m := n / 41;
    if n % 41 != 0 {
      FixedBy41(n, v);
    } else if m % 5 != 0 {
      FixedBy5(n, m, 5, m % 5, v);
    } else {
      Cofactor(n, m);
      FixedBy5(n, m, 1, m / 5 % 5, v);
    }
  }

  lemma Reduce41(n: nat, k: nat)
    requires k * (n % 41) % 41 == 1
    ensures n * (25 * k) % 1025 == 25
  {
    var a, r := n / 41, n % 41;
    var b := k * r / 41;
    assert n == 41 * a + r && k * r == 41 * b + 1;
    Spread41(a, r, k);
    RemainderOf(a * k + b, 25);
  }

  lemma Spread41(a: nat, r: nat, k: nat)
    ensures (41 * a + r) * (25 * k) == 25 * (41 * (a * k) + k * r)
  {
    calc {
      (41 * a + r) * (25 * k);
      25 * ((41 * a + r) * k);
      25 * (41 * (a * k) + r * k);
    }
  }

  lemma RemainderOf(x: nat, d: nat)
    requires d < 1025
    ensures (1025 * x + d) % 1025 == d
  {
  }

  lemma Reduce5(n: nat, m: nat, f: nat, r: nat, k: nat)
    requires n == 41 * m && k * r % 5 == 1
    requires (f == 5 && r == m % 5) || (f == 1 && m % 5 == 0 && r == m / 5 % 5)
    ensures n * (f * k) % 1025 == 205
  {
    var z := m / 5;
    var a := if f == 5 then z else z / 5;
    assert f == 5 ==> m == 5 * z + r && n * f == 205 * m;
    assert f == 1 ==> m == 5 * z && z == 5 * a + r && n * f == 41 * m;
    Regroup(n, f, k, 5 * a + r);
    Spread(a, r, k);
    Residue(a * k, k * r);
  }

  lemma Regroup(n: nat, f: nat, k: nat, z: nat)
    requires n * f == 205 * z
    ensures n * (f * k) == 205 * (z * k)
  {
    calc {
      n * (f * k);
      (n * f) * k;
      (205 * z) * k;
      205 * (z * k);
    }
  }

  lemma Spread(a: nat, r: nat, k: nat)
    ensures (5 * a + r) * k == 5 * (a * k) + k * r
  {
  }

  lemma Residue(x: nat, y: nat)
    requires y % 5 == 1
    ensures 205 * (5 * x + y) % 1025 == 205
  {
    var b := y / 5;
    assert 205 * (5 * x + y) == 1025 * (x + b) + 205;
  }
}
