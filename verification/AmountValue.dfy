/** The number an amount string denotes, and when reading and printing agree with it. */
module AmountValue {
  import opened Commons
  import opened AmountText

  // ----- Unsigned decimal numbers -----

  /** Digits with at most one point. */
  predicate Unsigned(s: string) {
    WellFormed(s) && '-' !in s
  }

  function WholeDigits(s: string): string {
    s[..PointAt(s)]
  }

  function FractionDigits(s: string): string {
    if PointAt(s) == |s| then "" else s[PointAt(s) + 1..]
  }

  lemma {:induction false} Counted(s: string, c: char)
    requires c in s
    ensures Count(s, c) > 0
  {
    var n := |s| - 1;
    if s[n] != c {
      assert s == s[..n] + [s[n]];
      Counted(s[..n], c);
    }
  }

  lemma CountOne(c: char)
    ensures Count([c], c) == 1
  {
    assert [c][..0] == [];
  }

  /** A character that occurs at most once occurs nowhere else. */
  lemma OnlyOne(s: string, c: char, k: nat)
    requires Count(s, c) <= 1 && k < |s| && s[k] == c
    ensures c !in s[..k] && c !in s[k + 1..]
  {
    hide Count;
    var front, back := s[..k], s[k + 1..];
    assert s == front + [c] + back;
    CountSplit(front + [c], back, c);
    CountSplit(front, [c], c);
    CountOne(c);
    if c in front {
      Counted(front, c);
    }
    if c in back {
      Counted(back, c);
    }
  }

  lemma NoSecondPoint(s: string)
    requires WellFormed(s) && PointAt(s) < |s|
    ensures s == WholeDigits(s) + "." + FractionDigits(s) && '.' !in FractionDigits(s)
  {
    hide PointAt, Count;
    OnlyOne(s, '.', PointAt(s));
  }

  lemma UnsignedParts(s: string)
    requires Unsigned(s)
    ensures AllDigits(WholeDigits(s)) && AllDigits(FractionDigits(s))
    ensures s == if PointAt(s) == |s| then WholeDigits(s) else WholeDigits(s) + "." + FractionDigits(s)
  {
    hide PointAt, Count;
    var n := PointAt(s);
    if n < |s| {
      NoSecondPoint(s);
      var rest := FractionDigits(s);
      assert forall i :: 0 <= i < |rest| ==> rest[i] == s[n + 1 + i];
    }
  }

  /** The decimal number in units of ten to the minus `precision`, cut off below them. */
  function Denotes(s: string, precision: nat): nat
    requires Unsigned(s)
  {
    UnsignedParts(s);
    Scaled(Value(WholeDigits(s)), Pow10(precision)) + Cut(FractionDigits(s), precision)
  }

  /** Every unsigned number is read as what it denotes, unless that exceeds the supply. */
  lemma ReadUnsigned(precision: nat, maxSupply: nat, s: string)
    requires precision < 19 && maxSupply <= INT64_MAX && Unsigned(s)
    ensures Parsed(precision, maxSupply, s) == Capped(Denotes(s, precision), maxSupply)
  {
    hide Parsed, Pow10, Scaled, WellFormed;
    UnsignedParts(s);
    if PointAt(s) == |s| {
      ReadWhole(precision, maxSupply, WholeDigits(s));
      assert FractionDigits(s) == "" && Cut("", precision) == 0;
    } else {
      ReadDecimal(precision, maxSupply, WholeDigits(s), FractionDigits(s));
    }
  }

  /** What a text comes to in units of ten to the minus `precision`, whatever the supply. */
  function UnitsOf(precision: nat, s: string): int {
    match Parsed(precision, INT64_MAX, s)
    case Ok(v) => v
    case Err => if Unsigned(s) then Denotes(s, precision) else 0
  }

  lemma UnitsOfRead(precision: nat, maxSupply: int, s: string)
    requires Parsed(precision, maxSupply, s).Ok?
    ensures UnitsOf(precision, s) == Parsed(precision, maxSupply, s).value
  {
    hide Whole, FractionPart, WellFormed, WholePart, Denotes;
  }

  lemma UnitsOfUnsigned(precision: nat, s: string)
    requires Unsigned(s)
    ensures UnitsOf(precision, s) == Denotes(s, precision)
  {
    if precision < 19 {
      ReadUnsigned(precision, INT64_MAX, s);
    }
    hide Denotes, WellFormed, Combined, Whole;
  }

  // ----- More precision -----

  lemma CutStep(rhs: string, p: nat)
    requires AllDigits(rhs)
    ensures 10 * Cut(rhs, p) <= Cut(rhs, p + 1)
  {
    if |rhs| > p {
      assert rhs[..p + 1][..p] == rhs[..p];
    } else {
      assert |rhs| == p ==> rhs[..p] == rhs;
      TenTimes(Value(rhs), Pow10(p - |rhs|));
    }
  }

  lemma TenTimes(x: nat, scale: nat)
    ensures 10 * (x * scale) == x * (10 * scale)
  {
  }

  lemma {:induction false} CutGrows(rhs: string, p: nat, q: nat)
    requires AllDigits(rhs) && p < q
    ensures 10 * Cut(rhs, p) <= Cut(rhs, q)
    decreases q
  {
    hide Cut;
    CutStep(rhs, q - 1);
    if p < q - 1 {
      CutGrows(rhs, p, q - 1);
    }
  }

  lemma DenotesStep(s: string, p: nat)
    requires Unsigned(s)
    ensures 10 * Denotes(s, p) <= Denotes(s, p + 1)
  {
    UnsignedParts(s);
    CutStep(FractionDigits(s), p);
    TenTimes(Value(WholeDigits(s)), Pow10(p));
    assert Scaled(Value(WholeDigits(s)), Pow10(p + 1)) == 10 * Scaled(Value(WholeDigits(s)), Pow10(p));
    hide Scaled, Cut, Value, Pow10;
  }

  /** Read with more precision, a number counts more units, unless it counts none. */
  lemma {:induction false} DenotesGrows(s: string, p: nat, q: nat)
    requires Unsigned(s) && p < q
    ensures Denotes(s, p) <= Denotes(s, q)
    ensures Denotes(s, p) == Denotes(s, q) <==> Denotes(s, q) == 0
    decreases q
  {
    hide Denotes;
    DenotesStep(s, q - 1);
    if p < q - 1 {
      DenotesGrows(s, p, q - 1);
    }
  }

  /** The same, with precisions that may be equal. */
  lemma DenotesOrder(s: string, p: nat, q: nat)
    requires Unsigned(s) && p <= q
    ensures Denotes(s, p) <= Denotes(s, q)
    ensures Denotes(s, p) == Denotes(s, q) <==> p == q || Denotes(s, q) == 0
  {
    hide Denotes;
    if p < q {
      DenotesGrows(s, p, q);
    }
  }

  // ----- Printing and reading negative amounts -----

  lemma Multiples(y: nat, scale: nat, rest: nat)
    requires y * (10 * scale + 1) == 10 * rest
    ensures y % 10 == 0 && (y / 10) * (10 * scale + 1) == rest
  {
    assert y * (10 * scale + 1) == 10 * (y * scale) + y;
    var z := y / 10;
    assert y == 10 * z;
    assert (10 * z) * (10 * scale + 1) == 10 * (z * (10 * scale + 1));
  }

  /** Ten to the q, plus one, has no factor in common with ten. */
  lemma {:induction false} NoSolution(k: nat, scale: nat, y: nat, g: nat)
    requires scale > 0 && 0 < y <= Pow10(k) && g <= 10
    ensures y * (10 * scale + 1) != Pow10(k) * g
  {
    if y * (10 * scale + 1) == Pow10(k) * g {
      if k > 0 {
        assert Pow10(k) * g == 10 * (Pow10(k - 1) * g);
        Multiples(y, scale, Pow10(k - 1) * g);
        NoSolution(k - 1, scale, y / 10, g);
      }
    }
  }

  lemma TailDigits(a: string)
    requires AllDigits(a) && a != ""
    ensures AllDigits(a[1..])
  {
  }

  /** The decimals printed for a negative amount are never its own. */
  lemma WrongDecimals(p: nat, d: nat)
    requires 0 < d < Pow10(p)
    ensures var rest := Decimal(Pow10(p) - d)[1..];
      AllDigits(rest) && Cut(rest, p) != d
  {
    var m := Decimal(Pow10(p) - d);
    var f, rest := m[..1], m[1..];
    TailDigits(m);
    ShortNumeral(Pow10(p) - d, p);
    var k := |rest|;
    assert m == f + rest;
    ValueSplit(f, rest);
    ValueBound(rest);
    FirstDigit(m);
    PowersSplit(k, p - k);
    PowersGrow(1, p - k);
    NotItsOwn(k, p - k, Value(f), Value(rest), d);
  }

  lemma FirstDigit(m: string)
    requires AllDigits(m) && m != ""
    ensures AllDigits(m[..1]) && Value(m[..1]) < 10
  {
    assert m[..1][..0] == "";
  }

  lemma {:induction false} ShortNumeral(n: nat, p: nat)
    requires n < Pow10(p) && p > 0
    ensures |Decimal(n)| <= p
  {
    if n >= 10 {
      ShortNumeral(n / 10, p - 1);
    }
  }

  lemma {:induction false} PowersSplit(k: nat, q: nat)
    ensures Pow10(k + q) == Pow10(k) * Pow10(q)
  {
    if q > 0 {
      PowersSplit(k, q - 1);
      assert Pow10(k) * (10 * Pow10(q - 1)) == 10 * (Pow10(k) * Pow10(q - 1));
    }
  }

  lemma Rearranged(small: int, big: int, f: int, r: int)
    requires f * small + r == small * big - r * big
    ensures (small - r) * (big + 1) == small * (f + 1)
  {
    calc {
      (small - r) * (big + 1);
      small * big + small - r * big - r;
      f * small + small;
      small * (f + 1);
    }
  }

  lemma NotItsOwn(k: nat, q: nat, f: nat, r: nat, d: nat)
    requires q > 0 && f < 10 && r < Pow10(k)
    requires f * Pow10(k) + r == Pow10(k) * Pow10(q) - d
    ensures r * Pow10(q) != d
  {
    if r * Pow10(q) == d {
      Rearranged(Pow10(k), Pow10(q), f, r);
      NoSolution(k, Pow10(q - 1), Pow10(k) - r, f + 1);
    }
  }

  /** A printed amount reads back as itself exactly when it is not negative or has no
      decimals. */
  lemma RoundTripExactly(precision: nat, maxSupply: nat, amount: int)
    requires precision < 19 && 0 - maxSupply <= amount <= maxSupply <= INT64_MAX
    ensures Parsed(precision, maxSupply, Printed(precision, amount)) == Ok(amount) <==>
            amount >= 0 || Decimals(amount, Pow10(precision)) == 0
  {
    hide Parsed, PrintedParts, Scaled, Pow10, Units, Decimals;
    if amount >= 0 {
      RoundTrip(precision, maxSupply, amount);
    } else {
      var scale := Pow10(precision);
      UnitsAndDecimals(amount, scale);
      var u, d := 0 - Units(amount, scale), 0 - Decimals(amount, scale);
      ScaledNegates(u, scale);
      assert Scaled(u, scale) + d == -amount && 0 - u == Units(amount, scale) && 0 - d == Decimals(amount, scale);
      NegativeRoundTrip(precision, maxSupply, u, d);
    }
  }

  lemma NegativeRoundTrip(precision: nat, maxSupply: nat, units: nat, decimals: nat)
    requires precision < 19 && decimals < Pow10(precision)
    requires 0 < Scaled(units, Pow10(precision)) + decimals <= maxSupply <= INT64_MAX
    ensures var back := Parsed(precision, maxSupply, PrintedParts(precision, 0 - units, 0 - decimals));
      back == Ok(0 - Scaled(units, Pow10(precision)) - decimals) <==> decimals == 0
  {
    hide Parsed, Scaled, Pow10, Decimal, Cut, Value;
    var lhs := Decimal(units);
    if decimals == 0 {
      ReadWhole(precision, maxSupply, lhs);
      ReadNegativeWhole(precision, maxSupply, lhs);
      ZeroUnits(precision, units);
      assert IntText(0 - units) + "" == IntText(0 - units);
    } else {
      var rhs := Decimal(Pow10(precision) - decimals)[1..];
      WrongDecimals(precision, decimals);
      ReadDecimal(precision, maxSupply, lhs, rhs);
      ReadNegative(precision, maxSupply, lhs, rhs);
      ZeroUnits(precision, units);
      assert lhs + "." + rhs == lhs + ("." + rhs);
      assert "-" + (lhs + "." + rhs) == ("-" + lhs) + ("." + rhs);
    }
  }

  lemma ZeroUnits(precision: nat, units: nat)
    ensures Scaled(units, Pow10(precision)) >= 0 && (units == 0 <==> Scaled(units, Pow10(precision)) == 0)
  {
    ScaledGrows(units, Pow10(precision));
  }
}
