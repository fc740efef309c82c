/** Printing an asset amount as a decimal string and reading it back. */
module AmountText {

  import opened Commons

  const INT64_MAX := 0x7fff_ffff_ffff_ffff
  const INT64_MIN := -0x8000_0000_0000_0000

  predicate InInt64(n: int) { INT64_MIN <= n <= INT64_MAX }

  // ----- Decimal digits -----

  function Digit(d: nat): char
    requires d < 10
  {
    '0' + d as char
  }

  function DigitValue(c: char): nat
    requires IsDigit(c)
  {
    (c - '0') as nat
  }

  predicate AllDigits(s: string) {
    forall i :: 0 <= i < |s| ==> IsDigit(s[i])
  }

  /** The number a string of digits denotes. */
  function Value(s: string): nat
    requires AllDigits(s)
  {
    if s == [] then 0 else Value(s[..|s| - 1]) * 10 + DigitValue(s[|s| - 1])
  }

  /** The decimal numeral of a number. */
  function Decimal(n: nat): (s: string)
    ensures s != [] && AllDigits(s) && Value(s) == n
  {
    if n < 10 then [Digit(n)] else Decimal(n / 10) + [Digit(n % 10)]
  }

  function Pow10(p: nat): (r: nat)
    ensures r > 0
  {
    if p == 0 then 1 else 10 * Pow10(p - 1)
  }

  lemma {:induction false} DecimalLength(n: nat, p: nat)
    requires Pow10(p) <= n < Pow10(p + 1)
    ensures |Decimal(n)| == p + 1
    decreases p
  {
    if p > 0 {
      DecimalLength(n / 10, p - 1);
    }
  }

  lemma {:induction false} ValueBound(s: string)
    requires AllDigits(s)
    ensures Value(s) < Pow10(|s|)
  {
    if s != [] {
      ValueBound(s[..|s| - 1]);
    }
  }

  lemma ShiftSum(x: nat, scale: nat, y: nat, d: nat)
    ensures (x * scale + y) * 10 + d == x * (10 * scale) + (y * 10 + d)
  {
  }

  /** A numeral splits anywhere. */
  lemma {:induction false} ValueSplit(a: string, b: string)
    requires AllDigits(a) && AllDigits(b)
    ensures AllDigits(a + b) && Value(a + b) == Value(a) * Pow10(|b|) + Value(b)
    decreases |b|
  {
    if b == [] {
      assert a + b == a;
    } else {
      var k := |b| - 1;
      var front, d := b[..k], DigitValue(b[k]);
      ValueSplit(a, front);
      assert (a + b)[..|a + b| - 1] == a + front;
      calc {
        Value(a + b);
        Value(a + front) * 10 + d;
        (Value(a) * Pow10(k) + Value(front)) * 10 + d;
        { ShiftSum(Value(a), Pow10(k), Value(front), d); }
        Value(a) * (10 * Pow10(k)) + (Value(front) * 10 + d);
      }
    }
  }

  /** The quotient and remainder of a sum that stays below twice the divisor. */
  lemma FirstIsOne(first: nat, scale: nat, rest: nat, d: nat)
    requires first * scale + rest == scale + d && rest < scale && d < scale
    ensures first == 1 && rest == d
  {
    AtLeastTwice(first, scale);
  }

  lemma AtLeastTwice(n: nat, scale: nat)
    ensures n >= 2 ==> n * scale >= 2 * scale
  {
    if n >= 2 {
      assert (n - 2) * scale >= 0;
    }
  }

  /** The numeral of 10^p + d, without its first digit, is d written with p digits. */
  lemma PaddedDigits(p: nat, d: nat)
    requires d < Pow10(p)
    ensures var s := Decimal(Pow10(p) + d);
      |s| == p + 1 && AllDigits(s[1..]) && Value(s[1..]) == d
  {
    var s := Decimal(Pow10(p) + d);
    DecimalLength(Pow10(p) + d, p);
    var head, tail := s[..1], s[1..];
    assert s == head + tail;
    ValueSplit(head, tail);
    ValueBound(tail);
    FirstIsOne(Value(head), Pow10(p), Value(tail), d);
  }

  lemma {:induction false} ZerosValue(s: string, n: nat)
    requires AllDigits(s)
    ensures AllDigits(s + ZeroDigits(n)) && Value(s + ZeroDigits(n)) == Value(s) * Pow10(n)
  {
    ValueSplit(s, ZeroDigits(n));
    AllZeros(n);
  }

  function ZeroDigits(n: nat): string { seq(n, _ => '0') }

  lemma {:induction false} AllZeros(n: nat)
    ensures AllDigits(ZeroDigits(n)) && Value(ZeroDigits(n)) == 0
  {
    if n > 0 {
      AllZeros(n - 1);
      assert ZeroDigits(n)[..n - 1] == ZeroDigits(n - 1);
    }
  }

  // ----- Printing -----

  function Scaled(units: int, scale: nat): int { units * scale }

  function Quotient(n: nat, scale: nat): nat
    requires scale > 0
  {
    n / scale
  }

  function Rest(n: nat, scale: nat): (r: nat)
    requires scale > 0
    ensures r < scale && Scaled(Quotient(n, scale), scale) + r == n
  {
    n % scale
  }

  /** Division and remainder as the source's integers have them, towards zero. */
  function Units(amount: int, scale: nat): (u: int)
    requires scale > 0
    ensures if amount < 0 then u <= 0 else u >= 0
  {
    if amount < 0 then 0 - Quotient(-amount, scale) else Quotient(amount, scale)
  }

  function Decimals(amount: int, scale: nat): (r: int)
    requires scale > 0
    ensures 0 - scale < r < scale && (if amount < 0 then r <= 0 else r >= 0)
  {
    if amount < 0 then 0 - Rest(-amount, scale) else Rest(amount, scale)
  }

  lemma UnitsAndDecimals(amount: int, scale: nat)
    requires scale > 0
    ensures Scaled(Units(amount, scale), scale) + Decimals(amount, scale) == amount
  {
    if amount < 0 {
      ScaledNegates(Quotient(-amount, scale), scale);
    }
    hide Scaled, Quotient;
  }

  lemma ScaledNegates(units: int, scale: nat)
    ensures Scaled(0 - units, scale) == 0 - Scaled(units, scale)
  {
  }

  function IntText(n: int): string {
    if n < 0 then "-" + Decimal(-n) else Decimal(n)
  }

  function PrintedParts(precision: nat, units: int, decimals: int): string
    requires 0 < Pow10(precision) + decimals
  {
    IntText(units) + if decimals == 0 then "" else "." + Decimal(Pow10(precision) + decimals)[1..]
  }

  /** What amount_to_string prints. */
  function Printed(precision: nat, amount: int): string {
    PrintedParts(precision, Units(amount, Pow10(precision)), Decimals(amount, Pow10(precision)))
  }

  /** Fails when ten to the precision leaves 64 bits. */
  method AmountToString(precision: nat, amount: int) returns (r: Result<string>)
    ensures r == if precision < 19 then Ok(Printed(precision, amount)) else Err
  {
    var scale := 1;
    for i := 0 to precision
      invariant scale == Pow10(i) && i < 19
    {
      PowersFitExactly(i + 1);
      if !InInt64(scale * 10) {
        return Err;
      }
      scale := scale * 10;
    }
    var s := IntText(Units(amount, scale));
    var decimals := Decimals(amount, scale);
    if decimals != 0 {
      s := s + ("." + Decimal(scale + decimals)[1..]);
    }
    assert s == Printed(precision, amount);
    r := Ok(s);
  }

  lemma PowersFitExactly(p: nat)
    ensures InInt64(Pow10(p)) <==> p < 19
  {
    if p < 19 {
      PowersFit(p);
    } else {
      NineteenDigits();
      PowersGrow(19, p);
    }
  }

  lemma NineteenDigits()
    ensures Pow10(19) == 10_000_000_000_000_000_000
  {
    PowersFit(0);
    assert Pow10(19) == 10 * Pow10(18);
  }

  // ----- Reading -----

  /** The length of the run of digits a string starts with. */
  function DigitRun(s: string): (n: nat)
    ensures n <= |s| && AllDigits(s[..n]) && (n < |s| ==> !IsDigit(s[n]))
  {
    if s == [] || !IsDigit(s[0]) then 0 else
      var n := DigitRun(s[1..]);
      assert s[..n + 1] == [s[0]] + s[1..][..n];
      n + 1
  }

  /** std::stoll on a string of digits, minus signs and points. */
  function Stoll(s: string): Result<int> {
    var negative := s != [] && s[0] == '-';
    var body := if negative then s[1..] else s;
    var n := DigitRun(body);
    if n == 0 then Err else
      var v: int := if negative then -(Value(body[..n]) as int) else Value(body[..n]);
      if InInt64(v) then Ok(v) else Err
  }

  /** The position of the first point, or the length when there is none. */
  function PointAt(s: string): (n: nat)
    ensures n <= |s| && (forall i :: 0 <= i < n ==> s[i] != '.') && (n < |s| ==> s[n] == '.')
  {
    if s == [] || s[0] == '.' then 0 else
      var n := PointAt(s[1..]);
      assert forall i :: 1 <= i < n + 1 ==> s[i] == s[1..][i - 1];
      n + 1
  }

  function Count(s: string, c: char): nat {
    if s == [] then 0 else Count(s[..|s| - 1], c) + if s[|s| - 1] == c then 1 else 0
  }

  /** Only digits, at most one minus sign and at most one point, anywhere. */
  predicate WellFormed(s: string) {
    (forall i :: 0 <= i < |s| ==> IsDigit(s[i]) || s[i] == '-' || s[i] == '.') &&
    Count(s, '-') <= 1 && Count(s, '.') <= 1
  }

  /** Cutting or zero-filling the digits after the point. */
  function Fitted(rhs: string, n: nat): string {
    if |rhs| >= n then rhs[..n] else rhs + ZeroDigits(n - |rhs|)
  }

  /** The whole units of an amount, in satoshis. */
  function Whole(lhs: string, scale: nat): (r: Result<int>)
    ensures r.Ok? ==> InInt64(r.value)
  {
    if lhs == [] then Ok(0) else
      match Stoll(lhs)
      case Ok(v) => if InInt64(Scaled(v, scale)) then Ok(Scaled(v, scale)) else Err
      case Err => Err
  }

  function Fraction(rhs: string): Result<int> {
    if rhs == [] then Ok(0) else Stoll(rhs)
  }

  function Signed(v: int, negative: bool, maxSupply: int): Result<int> {
    if v > maxSupply then Err
    else if !negative then Ok(v)
    else if InInt64(-v) then Ok(-v) else Err
  }

  /** The characters read as whole units. They start after a minus sign found anywhere
      and are as many as the point's position says. */
  function WholePart(s: string): string {
    var from := if '-' in s then 1 else 0;
    s[from..if from + PointAt(s) < |s| then from + PointAt(s) else |s|]
  }

  function FractionPart(s: string, precision: nat): Result<int> {
    if PointAt(s) == |s| then Ok(0) else Fraction(Fitted(s[PointAt(s) + 1..], precision))
  }

  function Combined(whole: Result<int>, fraction: Result<int>, negative: bool, maxSupply: int): Result<int> {
    if whole.Err? || fraction.Err? || !InInt64(whole.value + fraction.value) then Err
    else Signed(whole.value + fraction.value, negative, maxSupply)
  }

  /** What amount_from_string returns. */
  function Parsed(precision: nat, maxSupply: int, s: string): Result<int> {
    if !WellFormed(s) || precision >= 19 then Err
    else Combined(Whole(WholePart(s), Pow10(precision)), FractionPart(s, precision), '-' in s, maxSupply)
  }

  /** What reading an amount depends on. */
  datatype AssetRef = AssetRef(precision: nat, maxSupply: int)

  function Read(asset: AssetRef, text: string): Result<int> {
    Parsed(asset.precision, asset.maxSupply, text)
  }

  lemma {:induction false} CountGrows(s: string, n: nat, c: char)
    requires n <= |s|
    ensures Count(s[..n], c) <= Count(s, c)
    decreases |s|
  {
    if n == |s| {
      assert s[..n] == s;
    } else {
      CountGrows(s[..|s| - 1], n, c);
      assert s[..|s| - 1][..n] == s[..n];
    }
  }

  /** The loop over the characters. */
  method Scan(s: string) returns (ok: bool, negative: bool, point: bool)
    ensures ok == WellFormed(s)
    ensures ok ==> negative == ('-' in s) && point == ('.' in s)
  {
    negative, point := false, false;
    for i := 0 to |s|
      invariant forall k :: 0 <= k < i ==> IsDigit(s[k]) || s[k] == '-' || s[k] == '.'
      invariant Count(s[..i], '-') == (if negative then 1 else 0) && Count(s[..i], '.') == (if point then 1 else 0)
      invariant negative == ('-' in s[..i]) && point == ('.' in s[..i])
    {
      assert s[..i + 1][..i] == s[..i] && s[..i + 1] == s[..i] + [s[i]];
      if IsDigit(s[i]) {
      } else if s[i] == '-' && !negative {
        negative := true;
      } else if s[i] == '.' && !point {
        point := true;
      } else {
        CountGrows(s, i + 1, s[i]);
        return false, negative, point;
      }
    }
    assert s[..|s|] == s;
    ok := true;
  }

  /** Cuts or fills the digits after the point. */
  method Fit(digits: string, n: nat) returns (rhs: string)
    ensures rhs == Fitted(digits, n)
  {
    rhs := digits;
    if |rhs| > n {
      rhs := rhs[..n];
    }
    while |rhs| < n
      invariant |digits| < n ==> |digits| <= |rhs| <= n && rhs == digits + ZeroDigits(|rhs| - |digits|)
      invariant |digits| >= n ==> rhs == digits[..n]
    {
      rhs := rhs + "0";
    }
  }

  method AmountFromString(precision: nat, maxSupply: int, s: string) returns (r: Result<int>)
    ensures r == Parsed(precision, maxSupply, s)
  {
    var ok, negative, point := Scan(s);
    hide WellFormed, Whole, Fraction, Fitted, Signed, Pow10;
    if !ok || precision >= 19 {
      return Err;
    }
    var from := if negative then 1 else 0;
    var pointAt := PointAt(s);
    var lhs := s[from..if from + pointAt < |s| then from + pointAt else |s|];
    assert lhs == WholePart(s) && (point <==> pointAt < |s|);
    var whole := Whole(lhs, Pow10(precision));
    if whole.Err? {
      return Err;
    }
    var satoshis := whole.value;
    if point {
      var rhs := Fit(s[pointAt + 1..], precision);
      var fraction := Fraction(rhs);
      assert fraction == FractionPart(s, precision);
      if fraction.Err? || !InInt64(satoshis + fraction.value) {
        return Err;
      }
      satoshis := satoshis + fraction.value;
    }
    r := Signed(satoshis, negative, maxSupply);
  }

  // ----- Reading back -----

  lemma {:induction false} NoneCounted(s: string, c: char)
    requires c !in s
    ensures Count(s, c) == 0
  {
    if s != [] {
      NoneCounted(s[..|s| - 1], c);
    }
  }

  lemma {:induction false} CountSplit(a: string, b: string, c: char)
    ensures Count(a + b, c) == Count(a, c) + Count(b, c)
    decreases |b|
  {
    if b == [] {
      assert a + b == a;
    } else {
      CountSplit(a, b[..|b| - 1], c);
      assert (a + b)[..|a + b| - 1] == a + b[..|b| - 1];
    }
  }

  lemma {:induction false} RunOfDigits(s: string)
    requires AllDigits(s)
    ensures DigitRun(s) == |s|
  {
    if s != [] {
      RunOfDigits(s[1..]);
    }
  }

  lemma StollOfDigits(s: string)
    requires AllDigits(s) && s != []
    ensures Stoll(s) == if Value(s) <= INT64_MAX then Ok(Value(s)) else Err
  {
    RunOfDigits(s);
    assert s[..|s|] == s;
    assert IsDigit(s[0]);
  }

  /** The digits after a point, in units of the asset's precision, cut off below it. */
  function Cut(rhs: string, precision: nat): nat
    requires AllDigits(rhs)
  {
    if |rhs| >= precision then Value(rhs[..precision]) else Value(rhs) * Pow10(precision - |rhs|)
  }

  lemma FittedValue(rhs: string, precision: nat)
    requires AllDigits(rhs)
    ensures AllDigits(Fitted(rhs, precision)) && |Fitted(rhs, precision)| == precision &&
            Value(Fitted(rhs, precision)) == Cut(rhs, precision)
  {
    if |rhs| < precision {
      ZerosValue(rhs, precision - |rhs|);
    }
  }

  lemma DigitsPointAt(lhs: string, rhs: string)
    requires AllDigits(lhs) && AllDigits(rhs)
    ensures '-' !in lhs && '.' !in lhs && '.' !in rhs && '-' !in lhs + "." + rhs
    ensures PointAt(lhs) == |lhs| && PointAt(lhs + "." + rhs) == |lhs|
  {
    hide PointAt;
    var s := lhs + "." + rhs;
    assert s[|lhs|] == '.';
    assert forall i :: 0 <= i < |lhs| ==> s[i] == lhs[i];
    assert forall i :: |lhs| < i < |s| ==> s[i] == rhs[i - |lhs| - 1];
  }

  lemma DigitsWellFormed(lhs: string, rhs: string)
    requires AllDigits(lhs) && AllDigits(rhs)
    ensures WellFormed(lhs) && WellFormed(lhs + "." + rhs)
    ensures '-' !in lhs && '.' !in lhs && '-' !in lhs + "." + rhs
    ensures PointAt(lhs) == |lhs| && PointAt(lhs + "." + rhs) == |lhs|
  {
    hide PointAt;
    var s := lhs + "." + rhs;
    DigitsPointAt(lhs, rhs);
    NoneCounted(lhs, '-');
    NoneCounted(lhs, '.');
    NoneCounted(rhs, '.');
    NoneCounted(s, '-');
    OnePoint();
    CountSplit(lhs + ".", rhs, '.');
    CountSplit(lhs, ".", '.');
    hide Count;
  }

  lemma OnePoint()
    ensures Count(".", '.') == 1
  {
    assert "."[..0] == "";
  }

  /** What reading an amount without a sign gives: nothing when it exceeds the supply. */
  function Capped(v: int, maxSupply: int): Result<int> {
    if v <= maxSupply then Ok(v) else Err
  }

  lemma ScaledGrows(units: nat, scale: nat)
    requires scale > 0
    ensures Scaled(units, scale) >= units
  {
    assert units * (scale - 1) >= 0;
  }

  lemma WholeOfDigits(lhs: string, scale: nat)
    requires AllDigits(lhs) && scale > 0
    ensures Whole(lhs, scale) == Capped(Scaled(Value(lhs), scale), INT64_MAX) && Scaled(Value(lhs), scale) >= 0
  {
    if lhs != [] {
      StollOfDigits(lhs);
      ScaledGrows(Value(lhs), scale);
      hide Scaled, Value, Stoll;
    }
  }

  /** A numeral reads as that many whole units. */
  lemma ReadWhole(precision: nat, maxSupply: nat, lhs: string)
    requires precision < 19 && maxSupply <= INT64_MAX && AllDigits(lhs)
    ensures Parsed(precision, maxSupply, lhs) == Capped(Scaled(Value(lhs), Pow10(precision)), maxSupply)
  {
    DigitsWellFormed(lhs, "");
    WholeOfDigits(lhs, Pow10(precision));
    assert WholePart(lhs) == lhs;
    hide Pow10, Value, WellFormed, Whole, Scaled, WholePart;
  }

  lemma PartsOfDigits(lhs: string, rhs: string, precision: nat)
    requires AllDigits(lhs) && AllDigits(rhs)
    ensures var s := lhs + "." + rhs;
      WholePart(s) == lhs && FractionPart(s, precision) == Fraction(Fitted(rhs, precision))
  {
    var s := lhs + "." + rhs;
    DigitsWellFormed(lhs, rhs);
    hide WellFormed, Fraction, Fitted;
    assert s[0..|lhs|] == lhs;
    assert s[|lhs| + 1..] == rhs;
  }

  /** Digits around a point read as the decimal number, cut off below the precision. */
  lemma ReadDecimal(precision: nat, maxSupply: nat, lhs: string, rhs: string)
    requires precision < 19 && maxSupply <= INT64_MAX && AllDigits(lhs) && AllDigits(rhs)
    ensures Parsed(precision, maxSupply, lhs + "." + rhs) ==
            Capped(Scaled(Value(lhs), Pow10(precision)) + Cut(rhs, precision), maxSupply)
  {
    hide Pow10, Value, WellFormed, Whole, Fraction, Fitted, Cut, Scaled, WholePart, FractionPart, PointAt, AllDigits;
    DigitsWellFormed(lhs, rhs);
    PartsOfDigits(lhs, rhs, precision);
    WholeOfDigits(lhs, Pow10(precision));
    FractionOfDigits(rhs, precision);
    Combine(Scaled(Value(lhs), Pow10(precision)), Cut(rhs, precision), maxSupply);
  }

  lemma Combine(whole: int, fraction: int, maxSupply: nat)
    requires whole >= 0 && 0 <= fraction <= INT64_MAX && maxSupply <= INT64_MAX
    ensures Combined(Capped(whole, INT64_MAX), Ok(fraction), false, maxSupply) == Capped(whole + fraction, maxSupply)
  {
  }

  lemma {:induction false} RunBeforePoint(s: string)
    requires AllDigits(s)
    ensures DigitRun(s + ".") == |s|
  {
    if s != [] {
      RunBeforePoint(s[1..]);
      assert (s + ".")[1..] == s[1..] + ".";
    }
  }

  /** Behind a minus sign the characters read as whole units include the point, which
      stops the number but leaves none when no digit is before it. */
  lemma WholeBeforePoint(lhs: string, scale: nat)
    requires AllDigits(lhs) && scale > 0
    ensures Whole(lhs + ".", scale) == if lhs == [] then Err else Whole(lhs, scale)
  {
    RunBeforePoint(lhs);
    RunOfDigits(lhs);
    assert (lhs + ".")[..|lhs|] == lhs == lhs[..|lhs|];
    hide Value, Scaled, DigitRun;
  }

  lemma NegativeWellFormed(lhs: string, rhs: string)
    requires AllDigits(lhs) && AllDigits(rhs)
    ensures WellFormed("-" + (lhs + "." + rhs))
  {
    var t := lhs + "." + rhs;
    DigitsWellFormed(lhs, rhs);
    NoneCounted(t, '-');
    CountSplit("-", t, '-');
    CountSplit("-", t, '.');
    assert Count("-", '-') == 1 && Count("-", '.') == 0 by {
      assert "-"[..0] == "";
    }
    assert ("-" + t)[0] == '-' && ("-" + t)[1..] == t;
    hide Count;
  }

  lemma NegativeParts(lhs: string, rhs: string, precision: nat)
    requires AllDigits(lhs) && AllDigits(rhs)
    ensures var s := "-" + (lhs + "." + rhs);
      WellFormed(s) && WholePart(s) == lhs + "." && FractionPart(s, precision) == Fraction(Fitted(rhs, precision))
  {
    NegativeWellFormed(lhs, rhs);
    hide Fraction, Fitted, PointAt, WellFormed;
    var t := lhs + "." + rhs;
    var s := "-" + t;
    assert PointAt(s) == |lhs| + 1 by {
      assert s[|lhs| + 1] == '.';
      assert forall i :: 1 <= i < |s| ==> s[i] == t[i - 1];
    }
    assert s[1..|lhs| + 2] == lhs + ".";
    assert s[|lhs| + 2..] == rhs;
  }

  /** A minus sign in front negates a decimal number with digits before its point; without
      them, the number is read with no sign and refused with one. */
  lemma ReadNegative(precision: nat, maxSupply: nat, lhs: string, rhs: string)
    requires precision < 19 && maxSupply <= INT64_MAX && AllDigits(lhs) && AllDigits(rhs)
    ensures var plain := Parsed(precision, maxSupply, lhs + "." + rhs);
      Parsed(precision, maxSupply, "-" + (lhs + "." + rhs)) == if lhs == [] || plain.Err? then Err else Ok(-plain.value)
  {
    hide Pow10, Value, WellFormed, Whole, Fraction, Fitted, Cut, Scaled, WholePart, FractionPart, PointAt, AllDigits;
    ReadDecimal(precision, maxSupply, lhs, rhs);
    NegativeParts(lhs, rhs, precision);
    WholeBeforePoint(lhs, Pow10(precision));
    WholeOfDigits(lhs, Pow10(precision));
    FractionOfDigits(rhs, precision);
    assert ("-" + (lhs + "." + rhs))[0] == '-';
  }

  lemma FractionOfDigits(rhs: string, precision: nat)
    requires AllDigits(rhs) && precision < 19
    ensures Fraction(Fitted(rhs, precision)) == Ok(Cut(rhs, precision)) && Cut(rhs, precision) <= INT64_MAX
  {
    var f := Fitted(rhs, precision);
    FittedValue(rhs, precision);
    ValueBound(f);
    PowersFit(precision);
    if f != [] {
      StollOfDigits(f);
    }
  }

  lemma {:induction false} PowersFit(p: nat)
    requires p < 19
    ensures Pow10(p) <= 1_000_000_000_000_000_000 == Pow10(18)
  {
    PowersGrow(p, 18);
    assert Pow10(18) == 1_000_000_000_000_000_000 by {
      assert Pow10(6) == 1_000_000;
      assert Pow10(12) == 1_000_000_000_000;
    }
  }

  lemma {:induction false} PowersGrow(p: nat, q: nat)
    requires p <= q
    ensures Pow10(p) <= Pow10(q)
    decreases q
  {
    if p < q {
      PowersGrow(p, q - 1);
    }
  }

  /** A minus sign in front of digits alone negates them. */
  lemma ReadNegativeWhole(precision: nat, maxSupply: nat, lhs: string)
    requires precision < 19 && maxSupply <= INT64_MAX && AllDigits(lhs)
    ensures var plain := Parsed(precision, maxSupply, lhs);
      Parsed(precision, maxSupply, "-" + lhs) == if plain.Err? then Err else Ok(-plain.value)
  {
    hide Pow10, Value, Whole, Scaled, PointAt;
    var s := "-" + lhs;
    ReadWhole(precision, maxSupply, lhs);
    WholeOfDigits(lhs, Pow10(precision));
    DigitsPointAt(lhs, "");
    NoneCounted(lhs, '-');
    NoneCounted(lhs, '.');
    CountSplit("-", lhs, '-');
    CountSplit("-", lhs, '.');
    OneMinus();
    hide Count;
    assert s[0] == '-' && s[1..] == lhs;
    assert PointAt(s) == |s| by {
      assert forall i :: 1 <= i < |s| ==> s[i] == lhs[i - 1];
    }
    assert WholePart(s) == lhs;
  }

  lemma OneMinus()
    ensures Count("-", '-') == 1 && Count("-", '.') == 0
  {
    assert "-"[..0] == "";
  }

  lemma ReadPrinted(precision: nat, maxSupply: nat, units: nat, decimals: nat)
    requires precision < 19 && decimals < Pow10(precision)
    requires Scaled(units, Pow10(precision)) + decimals <= maxSupply <= INT64_MAX
    ensures Parsed(precision, maxSupply, PrintedParts(precision, units, decimals)) ==
            Ok(Scaled(units, Pow10(precision)) + decimals)
  {
    hide Parsed, Scaled, Pow10, Decimal;
    var lhs := Decimal(units);
    if decimals == 0 {
      ReadWhole(precision, maxSupply, lhs);
      assert lhs + "" == lhs;
    } else {
      PaddedDigits(precision, decimals);
      var rhs := Decimal(Pow10(precision) + decimals)[1..];
      ReadDecimal(precision, maxSupply, lhs, rhs);
      assert rhs[..precision] == rhs;
      assert lhs + "." + rhs == lhs + ("." + rhs);
    }
  }

  /** A nonnegative amount reads back as itself. */
  lemma RoundTrip(precision: nat, maxSupply: nat, amount: nat)
    requires precision < 19 && amount <= maxSupply <= INT64_MAX
    ensures Parsed(precision, maxSupply, Printed(precision, amount)) == Ok(amount)
  {
    hide Parsed, PrintedParts, Scaled, Pow10, Units, Decimals;
    var scale := Pow10(precision);
    UnitsAndDecimals(amount, scale);
    ReadPrinted(precision, maxSupply, Units(amount, scale), Decimals(amount, scale));
  }

  /** A numeral without leading zeros. */
  predicate Plain(s: string) {
    s != "" && AllDigits(s) && (|s| == 1 || s[0] != '0')
  }

  lemma {:induction false} DecimalIsPlain(n: nat)
    ensures Plain(Decimal(n)) && (n > 0 ==> Decimal(n)[0] != '0')
  {
    if n >= 10 {
      DecimalIsPlain(n / 10);
    }
  }

  lemma WholeAmount(amount: nat, scale: nat)
    requires scale > 0
    ensures Scaled(Units(amount, scale), scale) + Decimals(amount, scale) == amount
    ensures Units(amount, scale) >= 0 && 0 <= Decimals(amount, scale) < scale
  {
    hide Units, Decimals, Scaled;
    UnitsAndDecimals(amount, scale);
  }

  /** How an amount that is not negative is printed: a plain numeral of its whole units and,
      only if there are any, a point and exactly `precision` digits of decimals. */
  lemma PrintedForm(precision: nat, amount: nat) returns (whole: string, decimals: string)
    ensures Plain(whole) && AllDigits(decimals)
    ensures Printed(precision, amount) == if decimals == "" then whole else whole + "." + decimals
    ensures decimals != "" ==> |decimals| == precision && Value(decimals) > 0
    ensures Scaled(Value(whole), Pow10(precision)) + Value(decimals) == amount && Value(decimals) < Pow10(precision)
  {
    hide Units, Decimals, Scaled, Pow10, Decimal;
    var scale := Pow10(precision);
    WholeAmount(amount, scale);
    var u, d := Units(amount, scale), Decimals(amount, scale);
    DecimalIsPlain(u);
    whole := Decimal(u);
    if d == 0 {
      decimals := "";
      assert whole + "" == whole;
    } else {
      PaddedDigits(precision, d);
      decimals := Decimal(scale + d)[1..];
      assert decimals != "" by {
        assert Value("") == 0;
      }
      assert whole + ("." + decimals) == whole + "." + decimals;
    }
  }

  /** How a negative amount is printed: a minus sign only in front of whole units, and behind
      the point the numeral of the scale less the decimals, without its first digit. */
  lemma PrintedNegative(precision: nat, whole: nat, decimals: nat, units: string, rest: string)
    requires decimals < Pow10(precision) && Scaled(whole, Pow10(precision)) + decimals > 0
    requires units == (if whole == 0 then "0" else "-" + Decimal(whole))
    requires rest == (if decimals == 0 then "" else "." + Decimal(Pow10(precision) - decimals)[1..])
    ensures Printed(precision, 0 - Scaled(whole, Pow10(precision)) - decimals) == units + rest
  {
    NegativeSplit(whole, decimals, Pow10(precision));
    hide Units, Decimals, Scaled, Pow10, Decimal, PrintedParts;
    NegativePrinted(precision, whole, decimals, units, rest);
  }

  lemma NegativePrinted(precision: nat, whole: nat, decimals: nat, units: string, rest: string)
    requires decimals < Pow10(precision) && units == (if whole == 0 then "0" else "-" + Decimal(whole))
    requires rest == (if decimals == 0 then "" else "." + Decimal(Pow10(precision) - decimals)[1..])
    ensures PrintedParts(precision, 0 - whole, 0 - decimals) == units + rest
  {
    assert Decimal(0) == "0";
    hide Pow10, Decimal;
    assert IntText(0 - whole) == units;
  }

  lemma NegativeSplit(whole: nat, decimals: nat, scale: nat)
    requires decimals < scale && Scaled(whole, scale) + decimals > 0
    ensures var amount := 0 - Scaled(whole, scale) - decimals;
      Units(amount, scale) == 0 - whole && Decimals(amount, scale) == 0 - decimals
  {
    SplitAmount(whole, decimals, scale);
    hide Scaled, Quotient, Rest;
  }

  /** Units and decimals are determined by their sum. */
  lemma OneSplit(q: nat, r: nat, u: nat, d: nat, scale: nat)
    requires q * scale + r == u * scale + d && r < scale && d < scale
    ensures q == u && r == d
  {
    assert (q - u) * scale == d - r && (u - q) * scale == r - d;
    if q > u {
      AtLeastScale(q - u, scale);
    } else if q < u {
      AtLeastScale(u - q, scale);
    }
  }

  lemma AtLeastScale(n: nat, scale: nat)
    requires n > 0
    ensures n * scale >= scale
  {
    assert (n - 1) * scale >= 0;
  }

  lemma SplitAmount(whole: nat, decimals: nat, scale: nat)
    requires decimals < scale
    ensures Scaled(whole, scale) + decimals >= 0
    ensures var n := Scaled(whole, scale) + decimals; Quotient(n, scale) == whole && Rest(n, scale) == decimals
  {
    ScaledGrows(whole, scale);
    var n := Scaled(whole, scale) + decimals;
    OneSplit(Quotient(n, scale), Rest(n, scale), whole, decimals, scale);
    hide Quotient;
  }

  /** Different amounts print differently. */
  lemma PrintedInjective(precision: nat, a: nat, b: nat)
    requires precision < 19 && a <= INT64_MAX && b <= INT64_MAX && Printed(precision, a) == Printed(precision, b)
    ensures a == b
  {
    RoundTrip(precision, INT64_MAX, a);
    RoundTrip(precision, INT64_MAX, b);
  }
}
