/** Amount strings with a minus sign, which the scan accepts anywhere: when they are read as
    the number they stand for. */
module AmountSign {
  import opened Commons
  import opened AmountText
  import opened AmountValue

  // ----- The number -----

  /** The position of the first minus sign, or the length when there is none. */
  function MinusAt(s: string): (m: nat)
    ensures m <= |s| && '-' !in s[..m] && (m < |s| ==> s[m] == '-')
  {
    if s == [] || s[0] == '-' then 0 else
      var m := MinusAt(s[1..]);
      assert s[..m + 1] == [s[0]] + s[1..][..m];
      m + 1
  }

  /** Everything but the sign and the point is a digit. */
  lemma SignedDigits(s: string)
    requires WellFormed(s) && '-' in s
    ensures MinusAt(s) < |s| && MinusAt(s) != PointAt(s)
    ensures forall i :: 0 <= i < |s| && i != MinusAt(s) && i != PointAt(s) ==> IsDigit(s[i])
  {
    hide MinusAt, PointAt, Count;
    var m, n := MinusAt(s), PointAt(s);
    assert s[..|s|] == s;
    OnlyOne(s, '-', m);
    if n < |s| {
      OnlyOne(s, '.', n);
    }
    forall i | 0 <= i < |s| && i != m && i != n
      ensures IsDigit(s[i])
    {
      assert i < m ==> s[i] in s[..m];
      assert i > m ==> s[i] == s[m + 1..][i - m - 1];
      assert n < i < |s| ==> s[i] == s[n + 1..][i - n - 1];
    }
  }

  /** The string without its minus sign. */
  function Erased(s: string): string {
    if MinusAt(s) == |s| then s else s[..MinusAt(s)] + s[MinusAt(s) + 1..]
  }

  lemma ErasedCounts(front: string, back: string)
    requires Count(front + "-" + back, '.') <= 1
    ensures Count(front + back, '.') <= 1
  {
    hide Count;
    CountSplit(front + "-", back, '.');
    CountSplit(front, "-", '.');
    CountSplit(front, back, '.');
    OneMinus();
  }

  lemma NoMinus(front: string, back: string)
    requires '-' !in front && '-' !in back
    ensures '-' !in front + back && Count(front + back, '-') == 0
  {
    NoneCounted(front + back, '-');
  }

  lemma ErasedIsUnsigned(s: string)
    requires WellFormed(s)
    ensures Unsigned(Erased(s))
  {
    hide MinusAt, Count;
    var m := MinusAt(s);
    if m == |s| {
      assert s[..m] == s;
    } else {
      var front, back := s[..m], s[m + 1..];
      assert s == front + "-" + back;
      OnlyOne(s, '-', m);
      ErasedCounts(front, back);
      NoMinus(front, back);
      AllButOne(s, front, back);
    }
  }

  lemma AllButOne(s: string, front: string, back: string)
    requires s == front + "-" + back && '-' !in front && '-' !in back
    requires forall i :: 0 <= i < |s| ==> IsDigit(s[i]) || s[i] == '-' || s[i] == '.'
    ensures forall i :: 0 <= i < |front + back| ==> IsDigit((front + back)[i]) || (front + back)[i] == '.'
  {
    var e, m := front + back, |front|;
    forall i | 0 <= i < |e|
      ensures IsDigit(e[i]) || e[i] == '.'
    {
      assert e[i] == if i < m then s[i] else s[i + 1];
      assert e[i] in front || e[i] in back;
    }
  }

  /** The signed number a string stands for, wherever its minus sign is, in units of ten to
      the minus `precision`. */
  function Number(s: string, precision: nat): int
    requires WellFormed(s)
  {
    ErasedIsUnsigned(s);
    if '-' in s then 0 - Denotes(Erased(s), precision) else Denotes(Erased(s), precision)
  }

  // ----- Reading a number that something follows -----

  /** What follows a run of digits does not continue it. */
  predicate Stops(tail: string) {
    tail == "" || !IsDigit(tail[0])
  }

  lemma {:induction false} RunThen(a: string, tail: string)
    requires AllDigits(a) && Stops(tail)
    ensures DigitRun(a + tail) == |a|
  {
    if a == "" {
      assert a + tail == tail;
    } else {
      RunThen(a[1..], tail);
      assert (a + tail)[1..] == a[1..] + tail;
    }
  }

  lemma StollThen(a: string, tail: string)
    requires AllDigits(a) && a != "" && Stops(tail)
    ensures Stoll(a + tail) == Capped(Value(a), INT64_MAX)
  {
    hide DigitRun, Value;
    RunThen(a, tail);
    assert (a + tail)[..|a|] == a;
    assert (a + tail)[0] == a[0];
  }

  lemma StollOfMinus(b: string, tail: string)
    requires AllDigits(b) && Stops(tail)
    ensures Stoll("-" + b + tail) == if b != "" && INT64_MIN <= 0 - Value(b) then Ok(0 - Value(b)) else Err
  {
    hide DigitRun, Value;
    var s := "-" + b + tail;
    RunThen(b, tail);
    assert s[0] == '-' && s[1..] == b + tail && (b + tail)[..|b|] == b;
  }

  lemma WholeThen(a: string, tail: string, scale: nat)
    requires AllDigits(a) && a != "" && Stops(tail) && scale > 0
    ensures Whole(a + tail, scale) == Capped(Scaled(Value(a), scale), INT64_MAX) && Scaled(Value(a), scale) >= 0
  {
    hide Value, Stoll, Scaled;
    StollThen(a, tail);
    ScaledGrows(Value(a), scale);
  }

  lemma WholeOfMinus(b: string, tail: string, scale: nat)
    requires AllDigits(b) && Stops(tail) && scale > 0
    ensures Whole("-" + b + tail, scale) ==
            if b != "" && INT64_MIN <= 0 - Scaled(Value(b), scale) then Ok(0 - Scaled(Value(b), scale)) else Err
  {
    hide Value, Stoll, Scaled;
    StollOfMinus(b, tail);
    ScaledGrows(Value(b), scale);
    ScaledNegates(Value(b), scale);
  }

  // ----- The sign before the point -----

  /** A string whose sign comes before its point, or that has no point. */
  predicate SignFirst(s: string, a: string, b: string, rest: string) {
    AllDigits(a) && AllDigits(b) && s == a + "-" + b + rest && PointAt(s) == |a| + 1 + |b| &&
    (rest == "" || (rest[0] == '.' && AllDigits(rest[1..])))
  }

  function WholeFirst(a: string, b: string, rest: string, scale: nat): Result<int>
    requires AllDigits(a) && AllDigits(b)
  {
    if a == "" then (if b == "" && rest != "" then Err else Capped(Scaled(Value(b), scale), INT64_MAX))
    else if |a| == 1 then
      (if b != "" && INT64_MIN <= 0 - Scaled(Value(b), scale) then Ok(0 - Scaled(Value(b), scale)) else Err)
    else Capped(Scaled(Value(a[1..]), scale), INT64_MAX)
  }

  lemma CharactersFirst(s: string, a: string, b: string, rest: string)
    requires SignFirst(s, a, b, rest)
    ensures '-' in s
    ensures WholePart(s) == (a + "-" + b + if rest == "" then "" else ".")[1..]
  {
    hide PointAt;
    assert s[|a|] == '-';
    if rest != "" {
      assert s[..PointAt(s) + 1] == a + "-" + b + ".";
      assert WholePart(s) == s[..PointAt(s) + 1][1..];
    }
  }

  /** What is read as whole units: what follows a sign in front or after one digit; what
      comes before a sign further on, without the first digit. */
  lemma ReadWholeFirst(s: string, a: string, b: string, rest: string, scale: nat)
    requires SignFirst(s, a, b, rest) && scale > 0
    ensures Whole(WholePart(s), scale) == WholeFirst(a, b, rest, scale)
  {
    CharactersFirst(s, a, b, rest);
    var tail := if rest == "" then "" else ".";
    assert Stops(tail) && Stops("-" + b + tail);
    assert AllDigits(a) && AllDigits(b);
    hide PointAt, WholePart, Whole, Value, Scaled, SignFirst, Stops, AllDigits;
    if a == "" {
      assert (a + "-" + b + tail)[1..] == b + tail;
      NothingWhole(scale);
      if b == "" {
        assert b + tail == tail;
      } else {
        WholeThen(b, tail, scale);
      }
    } else if |a| == 1 {
      assert (a + "-" + b + tail)[1..] == "-" + b + tail;
      WholeOfMinus(b, tail, scale);
    } else {
      assert (a + "-" + b + tail)[1..] == a[1..] + ("-" + b + tail);
      TailDigits(a);
      WholeThen(a[1..], "-" + b + tail, scale);
    }
  }

  lemma NothingWhole(scale: nat)
    ensures Whole("", scale) == Ok(0) && Whole(".", scale) == Err && Value("") == 0 && Scaled(0, scale) == 0
  {
  }

  lemma ReadFractionFirst(s: string, a: string, b: string, rest: string, precision: nat)
    requires SignFirst(s, a, b, rest) && precision < 19
    ensures FractionPart(s, precision) == Ok(if rest == "" then 0 else Cut(rest[1..], precision))
  {
    hide PointAt, Fraction, Fitted, Cut, AllDigits;
    if rest != "" {
      var k := |a| + 1 + |b|;
      assert s[k..] == rest;
      assert s[k + 1..] == rest[1..];
      FractionOfDigits(rest[1..], precision);
    }
  }

  // ----- The point before the sign -----

  predicate PointFirst(s: string, a: string, b: string, c: string) {
    AllDigits(a) && AllDigits(b) && AllDigits(c) && s == a + "." + b + "-" + c && PointAt(s) == |a|
  }

  function WholePoint(a: string, scale: nat): Result<int>
    requires AllDigits(a)
  {
    if a == "" then Ok(0) else if |a| == 1 then Err else Capped(Scaled(Value(a[1..]), scale), INT64_MAX)
  }

  /** One character is passed over for the sign that is elsewhere. */
  lemma ReadWholePoint(s: string, a: string, b: string, c: string, scale: nat)
    requires PointFirst(s, a, b, c) && scale > 0
    ensures Whole(WholePart(s), scale) == WholePoint(a, scale)
  {
    hide PointAt, Whole, Value, Scaled;
    assert s[|a| + 1 + |b|] == '-';
    assert s[..|a| + 1] == a + ".";
    assert WholePart(s) == s[..|a| + 1][1..];
    NothingWhole(scale);
    if a == "" {
      assert WholePart(s) == "";
    } else if |a| == 1 {
      assert WholePart(s) == ".";
    } else {
      assert WholePart(s) == a[1..] + ".";
      TailDigits(a);
      WholeThen(a[1..], ".", scale);
    }
  }

  function FractionPoint(b: string, c: string, precision: nat): Result<int>
    requires AllDigits(b) && AllDigits(c)
  {
    if precision <= |b| then Ok(Cut(b, precision))
    else if b != "" then Ok(Value(b))
    else if precision == 1 then Err
    else Ok(0 - Cut(c, precision - 1))
  }

  /** The sign ends the digits that count, or, in front of them, negates them. */
  lemma ReadFractionPoint(s: string, a: string, b: string, c: string, precision: nat)
    requires PointFirst(s, a, b, c) && precision < 19
    ensures FractionPart(s, precision) == FractionPoint(b, c, precision)
  {
    hide PointAt, Fraction, Fitted, Cut, Value, WellFormed;
    var digits := b + "-" + c;
    assert s[|a| + 1..] == digits;
    assert FractionPart(s, precision) == Fraction(Fitted(digits, precision));
    if precision <= |b| {
      FittedShort(b, digits, precision);
      FractionOfDigits(b, precision);
    } else if b != "" {
      FittedLong(b, c, precision);
    } else {
      assert digits == "-" + c;
      FittedNegative(c, precision);
    }
  }

  lemma FittedShort(b: string, digits: string, precision: nat)
    requires precision <= |b| <= |digits| && digits[..|b|] == b
    ensures Fitted(digits, precision) == Fitted(b, precision)
  {
    assert digits[..precision] == b[..precision];
  }

  lemma FittedLong(b: string, c: string, precision: nat)
    requires AllDigits(b) && b != "" && |b| < precision < 19
    ensures Fraction(Fitted(b + "-" + c, precision)) == Ok(Value(b))
  {
    hide Value, Stoll;
    var f := Fitted(b + "-" + c, precision);
    var tail := f[|b|..];
    assert f == b + tail && tail[0] == '-';
    StollThen(b, tail);
    ValueBound(b);
    PowersFit(|b|);
  }

  lemma FittedNegative(c: string, precision: nat)
    requires AllDigits(c) && 1 <= precision < 19
    ensures Fraction(Fitted("-" + c, precision)) == if precision == 1 then Err else Ok(0 - Cut(c, precision - 1))
  {
    hide Value, Stoll, Cut;
    var f, d := Fitted("-" + c, precision), Fitted(c, precision - 1);
    assert f == "-" + d + "" by {
      if |c| + 1 >= precision {
        assert ("-" + c)[..precision] == "-" + c[..precision - 1];
      } else {
        assert ("-" + c) + ZeroDigits(precision - |c| - 1) == "-" + (c + ZeroDigits(precision - |c| - 1));
      }
    }
    FittedValue(c, precision - 1);
    StollOfMinus(d, "");
    ValueBound(d);
    PowersFit(precision - 1);
  }

  // ----- When the number is read -----

  lemma ReadsNegative(whole: Result<int>, fraction: Result<int>, n: nat, maxSupply: nat)
    requires maxSupply <= INT64_MAX
    ensures Combined(whole, fraction, true, maxSupply) == Ok(0 - n) <==>
      whole.Ok? && fraction.Ok? && whole.value + fraction.value == n && n <= maxSupply
  {
  }

  lemma ScaledOrder(x: nat, y: nat, scale: nat)
    requires scale > 0
    ensures x <= y ==> Scaled(x, scale) <= Scaled(y, scale)
    ensures Scaled(x, scale) == Scaled(y, scale) <==> x == y
  {
    assert (y - x) * scale == y * scale - x * scale;
    assert y > x ==> (y - x) * scale > 0;
    assert y < x ==> (x - y) * scale > 0;
  }

  /** Dropping the first digit, or what comes after, does not make a number larger. */
  lemma ValueParts(a: string, b: string)
    requires AllDigits(a) && AllDigits(b)
    ensures AllDigits(a + b) && Value(a) <= Value(a + b) && Value(b) <= Value(a + b)
    ensures a != "" ==> AllDigits(a[1..]) && Value(a[1..]) <= Value(a)
  {
    hide Value, Pow10;
    ValueSplit(a, b);
    AtLeastOnce(Value(a), Pow10(|b|));
    if a != "" {
      TailDigits(a);
      FirstDigit(a);
      assert a == a[..1] + a[1..];
      ValueSplit(a[..1], a[1..]);
    }
  }

  lemma AtLeastOnce(x: nat, y: nat)
    requires y > 0
    ensures x * y >= x
  {
    assert x * (y - 1) >= 0;
  }

  /** Where a sign before the point does no harm: in front of a digit, or of nothing; after
      digits that, dropped or not, leave the number the same. */
  predicate HarmlessFirst(a: string, b: string, rest: string)
    requires AllDigits(a) && AllDigits(b)
  {
    ValueParts(a, b);
    if a == "" then rest == "" || b != ""
    else if |a| == 1 then b != "" && Value(a + b) == 0
    else Value(a[1..]) == Value(a + b)
  }

  function NumberFirst(a: string, b: string, rest: string, precision: nat): nat
    requires AllDigits(a) && AllDigits(b) && (rest != "" ==> AllDigits(rest[1..]))
  {
    ValueParts(a, b);
    ScaledGrows(Value(a + b), Pow10(precision));
    Scaled(Value(a + b), Pow10(precision)) + if rest == "" then 0 else Cut(rest[1..], precision)
  }

  lemma ReadsFirst(precision: nat, maxSupply: nat, s: string, a: string, b: string, rest: string)
    requires precision < 19 && maxSupply <= INT64_MAX && WellFormed(s) && SignFirst(s, a, b, rest)
    ensures var n := NumberFirst(a, b, rest, precision);
      Parsed(precision, maxSupply, s) == Ok(0 - n) <==> n <= maxSupply && HarmlessFirst(a, b, rest)
  {
    hide Pow10, Scaled, Whole, WholePart, FractionPart, Value, Cut, Combined, WellFormed, PointAt, WholeFirst,
      HarmlessFirst, NumberFirst;
    CharactersFirst(s, a, b, rest);
    ReadWholeFirst(s, a, b, rest, Pow10(precision));
    ReadFractionFirst(s, a, b, rest, precision);
    var fraction: nat := if rest == "" then 0 else Cut(rest[1..], precision);
    var number := NumberFirst(a, b, rest, precision);
    ReadsNegative(WholeFirst(a, b, rest, Pow10(precision)), Ok(fraction), number, maxSupply);
    WholeMatches(a, b, rest, precision, maxSupply);
  }

  lemma WholeMatches(a: string, b: string, rest: string, precision: nat, maxSupply: nat)
    requires maxSupply <= INT64_MAX && AllDigits(a) && AllDigits(b) && (rest != "" ==> AllDigits(rest[1..]))
    ensures var whole, n := WholeFirst(a, b, rest, Pow10(precision)), NumberFirst(a, b, rest, precision);
      var fraction: nat := if rest == "" then 0 else Cut(rest[1..], precision);
      n <= maxSupply ==> (whole.Ok? && whole.value + fraction == n <==> HarmlessFirst(a, b, rest))
  {
    hide Pow10, Scaled, Value, Cut, AllDigits;
    var scale := Pow10(precision);
    ValueParts(a, b);
    ScaledOrder(Value(b), Value(a + b), scale);
    ScaledOrder(0, Value(a + b), scale);
    ScaledOrder(0, Value(b), scale);
    ScaledZero(scale);
    if a == "" {
      assert a + b == b;
    } else if |a| >= 2 {
      ScaledOrder(Value(a[1..]), Value(a + b), scale);
    }
  }

  lemma ScaledZero(scale: nat)
    ensures Scaled(0, scale) == 0
  {
  }

  /** Where a sign after the point does no harm: passing over the first character costs
      nothing, and no digit that counts follows the sign. */
  predicate HarmlessPoint(a: string, b: string, c: string, precision: nat)
    requires AllDigits(a) && AllDigits(b) && AllDigits(c)
  {
    ValueParts(a, "");
    ValueParts(b, c);
    (a == "" || (|a| >= 2 && Value(a[1..]) == Value(a))) &&
    (precision <= |b| || (Cut(b + c, precision) == 0 && (b != "" || precision >= 2)))
  }

  function NumberPoint(a: string, b: string, c: string, precision: nat): nat
    requires AllDigits(a) && AllDigits(b) && AllDigits(c)
  {
    ValueParts(b, c);
    ScaledGrows(Value(a), Pow10(precision));
    Scaled(Value(a), Pow10(precision)) + Cut(b + c, precision)
  }

  /** The digits that count are at most those of the number. */
  lemma FractionOrder(b: string, c: string, precision: nat)
    requires AllDigits(b) && AllDigits(c)
    ensures AllDigits(b + c)
    ensures var f := FractionPoint(b, c, precision);
      f.Ok? ==> f.value <= Cut(b + c, precision) &&
                (f.value == Cut(b + c, precision) <==> precision <= |b| || Cut(b + c, precision) == 0)
  {
    ValueParts(b, c);
    if precision <= |b| {
      CutFront(b, c, precision);
    } else if b != "" {
      CutFront(b, c, |b|);
      assert b[..|b|] == b;
      CutGrows(b + c, |b|, precision);
      hide Value;
    } else if precision >= 2 {
      assert b + c == c;
      CutGrows(c, precision - 1, precision);
      hide Cut;
    }
  }

  lemma CutFront(b: string, c: string, precision: nat)
    requires AllDigits(b) && AllDigits(b + c) && precision <= |b|
    ensures Cut(b + c, precision) == Cut(b, precision) == Value(b[..precision])
  {
    hide Value;
    assert (b + c)[..precision] == b[..precision];
  }

  lemma ReadsPoint(precision: nat, maxSupply: nat, s: string, a: string, b: string, c: string)
    requires precision < 19 && maxSupply <= INT64_MAX && WellFormed(s) && PointFirst(s, a, b, c)
    ensures var n := NumberPoint(a, b, c, precision);
      Parsed(precision, maxSupply, s) == Ok(0 - n) <==> n <= maxSupply && HarmlessPoint(a, b, c, precision)
  {
    hide Pow10, Scaled, Whole, WholePart, FractionPart, Value, Cut, Combined, WellFormed, PointAt, WholePoint,
      FractionPoint, HarmlessPoint, NumberPoint, AllDigits;
    SignPresent(s, a, b, c);
    ReadWholePoint(s, a, b, c, Pow10(precision));
    ReadFractionPoint(s, a, b, c, precision);
    ReadsNegative(WholePoint(a, Pow10(precision)), FractionPoint(b, c, precision), NumberPoint(a, b, c, precision),
                  maxSupply);
    PointMatches(a, b, c, precision, maxSupply);
  }

  lemma SignPresent(s: string, a: string, b: string, c: string)
    requires s == a + "." + b + "-" + c
    ensures '-' in s
  {
    assert s[|a| + 1 + |b|] == '-';
  }

  lemma PointMatches(a: string, b: string, c: string, precision: nat, maxSupply: nat)
    requires maxSupply <= INT64_MAX && AllDigits(a) && AllDigits(b) && AllDigits(c)
    ensures var whole, fraction := WholePoint(a, Pow10(precision)), FractionPoint(b, c, precision);
      var n := NumberPoint(a, b, c, precision);
      n <= maxSupply ==>
        (whole.Ok? && fraction.Ok? && whole.value + fraction.value == n <==> HarmlessPoint(a, b, c, precision))
  {
    FractionOrder(b, c, precision);
    ValueParts(a, "");
    hide Pow10, Scaled, Value, Cut, AllDigits;
    var scale := Pow10(precision);
    ScaledZero(scale);
    if a == "" {
      EmptyValue();
    } else if |a| >= 2 {
      ScaledOrder(Value(a[1..]), Value(a), scale);
      ScaledOrder(0, Value(a[1..]), scale);
    }
  }

  lemma EmptyValue()
    ensures Value("") == 0
  {
  }

  // ----- Every accepted string -----

  lemma DenotesParts(w: string, rest: string, precision: nat)
    requires AllDigits(w) && (rest == "" || (rest[0] == '.' && AllDigits(rest[1..])))
    ensures Unsigned(w + rest)
    ensures Denotes(w + rest, precision) ==
            Scaled(Value(w), Pow10(precision)) + if rest == "" then 0 else Cut(rest[1..], precision)
  {
    if rest == "" {
      DigitsWellFormed(w, "");
      assert w + rest == w && w[..|w|] == w;
    } else {
      var f := rest[1..];
      DigitsWellFormed(w, f);
      assert w + rest == w + "." + f;
      var s := w + "." + f;
      assert s[..|w|] == w && s[|w| + 1..] == f;
    }
    hide PointAt, Count, Value, Cut, Pow10, Scaled;
  }

  lemma DigitsBetween(s: string, i: nat, j: nat)
    requires i <= j <= |s| && forall k :: i <= k < j ==> IsDigit(s[k])
    ensures AllDigits(s[i..j])
  {
  }

  lemma PiecesJoin(s: string, i: nat, j: nat)
    requires i < j <= |s|
    ensures s == s[..i] + [s[i]] + s[i + 1..j] + s[j..]
  {
  }

  lemma TwoCharacters(s: string, i: nat, j: nat)
    requires i < j < |s|
    ensures s == s[..i] + [s[i]] + s[i + 1..j] + [s[j]] + s[j + 1..]
  {
  }

  lemma FirstPieces(s: string)
    requires WellFormed(s) && '-' in s && MinusAt(s) < PointAt(s)
    ensures SignFirst(s, s[..MinusAt(s)], s[MinusAt(s) + 1..PointAt(s)], s[PointAt(s)..])
  {
    SignedDigits(s);
    hide MinusAt, PointAt, WellFormed, AllDigits;
    var m, n := MinusAt(s), PointAt(s);
    DigitsBetween(s, 0, m);
    DigitsBetween(s, m + 1, n);
    if n < |s| {
      DigitsBetween(s, n + 1, |s|);
      assert s[n..][1..] == s[n + 1..];
    }
    PiecesJoin(s, m, n);
  }

  lemma NumberOfFirst(s: string, a: string, b: string, rest: string, precision: nat)
    requires WellFormed(s) && SignFirst(s, a, b, rest) && MinusAt(s) == |a|
    ensures Number(s, precision) == 0 - NumberFirst(a, b, rest, precision)
  {
    hide MinusAt, PointAt, WellFormed, Denotes, Unsigned;
    assert s[|a|] == '-';
    assert s[..|a|] == a && s[|a| + 1..] == b + rest;
    assert Erased(s) == (a + b) + rest;
    ValueParts(a, b);
    DenotesParts(a + b, rest, precision);
    hide Value, Scaled, Pow10, Cut, AllDigits;
  }

  lemma PointPieces(s: string)
    requires WellFormed(s) && '-' in s && PointAt(s) < MinusAt(s)
    ensures PointFirst(s, s[..PointAt(s)], s[PointAt(s) + 1..MinusAt(s)], s[MinusAt(s) + 1..])
  {
    SignedDigits(s);
    hide MinusAt, PointAt, WellFormed, AllDigits;
    var m, n := MinusAt(s), PointAt(s);
    DigitsBetween(s, 0, n);
    DigitsBetween(s, n + 1, m);
    DigitsBetween(s, m + 1, |s|);
    TwoCharacters(s, n, m);
  }

  lemma NumberOfPoint(s: string, a: string, b: string, c: string, precision: nat)
    requires WellFormed(s) && PointFirst(s, a, b, c) && MinusAt(s) == |a| + 1 + |b|
    ensures Number(s, precision) == 0 - NumberPoint(a, b, c, precision)
  {
    hide MinusAt, PointAt, WellFormed, Denotes, Unsigned;
    var m := |a| + 1 + |b|;
    assert s[m] == '-';
    var rest := "." + (b + c);
    assert s[..m] == a + "." + b && s[m + 1..] == c;
    assert Erased(s) == a + rest;
    assert rest[1..] == b + c;
    ValueParts(b, c);
    DenotesParts(a, rest, precision);
    hide Value, Scaled, Pow10, Cut, AllDigits;
  }

  /** The minus sign, if there is one, does no harm. */
  predicate Harmless(s: string, precision: nat)
    requires WellFormed(s)
  {
    if '-' !in s then true
    else
      SignedDigits(s);
      var m, n := MinusAt(s), PointAt(s);
      if m < n then
        FirstPieces(s);
        HarmlessFirst(s[..m], s[m + 1..n], s[n..])
      else
        PointPieces(s);
        HarmlessPoint(s[..n], s[n + 1..m], s[m + 1..], precision)
  }

  /** Every string the scan accepts is read as the number it stands for if and only if the
      supply covers the number and the sign does no harm. */
  lemma ReadsNumber(precision: nat, maxSupply: nat, s: string)
    requires precision < 19 && maxSupply <= INT64_MAX && WellFormed(s)
    ensures Parsed(precision, maxSupply, s) == Ok(Number(s, precision)) <==>
            0 - maxSupply <= Number(s, precision) <= maxSupply && Harmless(s, precision)
  {
    hide Parsed, Number, HarmlessFirst, HarmlessPoint, NumberFirst, NumberPoint, WellFormed, MinusAt, PointAt;
    if '-' !in s {
      NumberOfUnsigned(s, precision);
      ReadUnsigned(precision, maxSupply, s);
    } else {
      SignedDigits(s);
      var m, n := MinusAt(s), PointAt(s);
      if m < n {
        FirstPieces(s);
        NumberOfFirst(s, s[..m], s[m + 1..n], s[n..], precision);
        ReadsFirst(precision, maxSupply, s, s[..m], s[m + 1..n], s[n..]);
      } else {
        PointPieces(s);
        NumberOfPoint(s, s[..n], s[n + 1..m], s[m + 1..], precision);
        ReadsPoint(precision, maxSupply, s, s[..n], s[n + 1..m], s[m + 1..]);
      }
    }
  }

  lemma NumberOfUnsigned(s: string, precision: nat)
    requires WellFormed(s) && '-' !in s
    ensures Unsigned(s) && Number(s, precision) == Denotes(s, precision)
  {
    hide Denotes;
  }

  // ----- What a string with a sign is read as -----

  /** What is read of a string with a sign: its parts, added up and negated. */
  function Negated(whole: Result<int>, decimals: Result<int>, maxSupply: int): Result<int> {
    if whole.Err? || decimals.Err? then Err
    else
      var v := whole.value + decimals.value;
      if INT64_MIN < v <= INT64_MAX && v <= maxSupply then Ok(-v) else Err
  }

  /** Every string whose sign comes before any point, read exactly: the whole units of
      `WholeFirst`, which start one character late, and the decimals. */
  lemma ReadsFirstExactly(precision: nat, maxSupply: int, s: string, a: string, b: string, rest: string)
    requires WellFormed(s) && SignFirst(s, a, b, rest) && precision < 19
    ensures Parsed(precision, maxSupply, s) ==
      Negated(WholeFirst(a, b, rest, Pow10(precision)),
              Ok(if rest == "" then 0 else Cut(rest[1..], precision)), maxSupply)
  {
    assert s[|a|] == '-';
    ReadWholeFirst(s, a, b, rest, Pow10(precision));
    ReadFractionFirst(s, a, b, rest, precision);
    hide MinusAt, PointAt, WellFormed, Whole, WholePart, FractionPart, WholeFirst, Cut, Pow10, AllDigits, SignFirst;
  }

  /** Every string whose sign comes after the point, read exactly: the whole units of
      `WholePoint` and the decimals of `FractionPoint`. */
  lemma ReadsPointExactly(precision: nat, maxSupply: int, s: string, w: string, d: string, e: string)
    requires WellFormed(s) && PointFirst(s, w, d, e) && precision < 19
    ensures Parsed(precision, maxSupply, s) ==
      Negated(WholePoint(w, Pow10(precision)), FractionPoint(d, e, precision), maxSupply)
  {
    assert s[|w| + 1 + |d|] == '-';
    ReadWholePoint(s, w, d, e, Pow10(precision));
    ReadFractionPoint(s, w, d, e, precision);
    hide MinusAt, PointAt, WellFormed, Whole, WholePart, FractionPart, WholePoint, FractionPoint, Pow10, AllDigits,
      PointFirst;
  }

  // ----- Amounts below zero -----

  /** A sign before the point makes the amount negative: read in front of it the digits come
      to something; after one digit it negates twice, and only decimals are left. */
  predicate BelowFirst(a: string, b: string, rest: string, precision: nat)
    requires AllDigits(a) && AllDigits(b) && (rest != "" ==> AllDigits(rest[1..]))
  {
    var decimals: nat := if rest == "" then 0 else Cut(rest[1..], precision);
    if |a| == 1 then Value(b) == 0 && decimals > 0
    else Value(if a == "" then b else a[1..]) > 0 || decimals > 0
  }

  /** A sign after the point makes the amount negative: without the character passed over
      there are whole units, or decimals before the sign. */
  predicate BelowPoint(a: string, b: string, precision: nat)
    requires AllDigits(a) && AllDigits(b)
  {
    (|a| >= 2 && Value(a[1..]) > 0) || Cut(b, precision) > 0
  }

  /** The strings that are read as an amount below zero. */
  predicate BelowZero(s: string, precision: nat)
    requires WellFormed(s)
  {
    if '-' !in s then false
    else
      SignedDigits(s);
      var m, n := MinusAt(s), PointAt(s);
      if m < n then
        FirstPieces(s);
        BelowFirst(s[..m], s[m + 1..n], s[n..], precision)
      else
        PointPieces(s);
        BelowPoint(s[..n], s[n + 1..m], precision)
  }

  lemma ReadsBelowFirst(precision: nat, maxSupply: int, s: string, a: string, b: string, rest: string)
    requires SignFirst(s, a, b, rest) && Parsed(precision, maxSupply, s).Ok?
    ensures Parsed(precision, maxSupply, s).value < 0 <==> BelowFirst(a, b, rest, precision)
  {
    hide Pow10, Scaled, Whole, WholePart, FractionPart, Value, Cut, WellFormed, PointAt, SignFirst;
    CharactersFirst(s, a, b, rest);
    ReadWholeFirst(s, a, b, rest, Pow10(precision));
    ReadFractionFirst(s, a, b, rest, precision);
    SignPieces(s, a, b, rest);
    var decimals: nat := if rest == "" then 0 else Cut(rest[1..], precision);
    if rest != "" {
      CutBound(rest[1..], precision);
    }
    WholeOrNothing(b, precision);
    if |a| >= 2 {
      TailDigits(a);
      WholeOrNothing(a[1..], precision);
    }
  }

  /** Decimals stay below a whole unit. */
  lemma CutBound(rhs: string, precision: nat)
    requires AllDigits(rhs)
    ensures Cut(rhs, precision) < Pow10(precision)
  {
    hide Cut, Fitted, Value;
    FittedValue(rhs, precision);
    ValueBound(Fitted(rhs, precision));
  }

  lemma SignPieces(s: string, a: string, b: string, rest: string)
    requires SignFirst(s, a, b, rest)
    ensures AllDigits(a) && AllDigits(b) && (rest != "" ==> AllDigits(rest[1..]))
  {
  }

  lemma PointDigits(s: string, a: string, b: string, c: string)
    requires PointFirst(s, a, b, c)
    ensures AllDigits(a) && AllDigits(b) && AllDigits(c)
  {
  }

  /** Whole units outweigh all decimals. */
  lemma WholeOrNothing(w: string, precision: nat)
    requires AllDigits(w)
    ensures var units := Scaled(Value(w), Pow10(precision));
      units >= 0 && (Value(w) == 0 ==> units == 0) && (Value(w) > 0 ==> units >= Pow10(precision))
  {
    hide Value;
    AtLeastOnce(Pow10(precision), if Value(w) > 0 then Value(w) else 1);
    assert Value(w) * Pow10(precision) == Pow10(precision) * Value(w);
  }

  lemma ReadsBelowPoint(precision: nat, maxSupply: int, s: string, a: string, b: string, c: string)
    requires PointFirst(s, a, b, c) && Parsed(precision, maxSupply, s).Ok?
    ensures Parsed(precision, maxSupply, s).value < 0 <==> BelowPoint(a, b, precision)
  {
    hide Pow10, Scaled, Whole, WholePart, FractionPart, Value, Cut, WellFormed, PointAt;
    SignPresent(s, a, b, c);
    ReadWholePoint(s, a, b, c, Pow10(precision));
    ReadFractionPoint(s, a, b, c, precision);
    CutBound(c, precision);
    DecimalsBefore(b, c, precision);
    if |a| >= 2 {
      TailDigits(a);
      WholeOrNothing(a[1..], precision);
    }
  }

  /** The decimals read are those before the sign, unless there are none. */
  lemma DecimalsBefore(b: string, c: string, precision: nat)
    requires AllDigits(b) && AllDigits(c)
    ensures var f := FractionPoint(b, c, precision);
      f.Ok? ==> (f.value > 0 <==> Cut(b, precision) > 0) && f.value > 0 - Pow10(precision)
  {
    hide Value, AllDigits;
    if |b| < precision {
      if b == "" {
        EmptyValue();
        CutBound(c, precision - 1);
        CutBound(c, precision);
      } else {
        AtLeastOnce(Value(b), Pow10(precision - |b|));
      }
    }
  }

  lemma BelowWithFirst(s: string, a: string, b: string, rest: string, precision: nat)
    requires WellFormed(s) && '-' in s && MinusAt(s) < PointAt(s) && SignFirst(s, a, b, rest)
    requires a == s[..MinusAt(s)] && b == s[MinusAt(s) + 1..PointAt(s)] && rest == s[PointAt(s)..]
    ensures BelowZero(s, precision) <==> BelowFirst(a, b, rest, precision)
  {
    hide WellFormed, MinusAt, PointAt, BelowFirst;
  }

  lemma BelowWithPoint(s: string, a: string, b: string, precision: nat)
    requires WellFormed(s) && '-' in s && PointAt(s) < MinusAt(s) && AllDigits(a) && AllDigits(b)
    requires a == s[..PointAt(s)] && b == s[PointAt(s) + 1..MinusAt(s)]
    ensures BelowZero(s, precision) <==> BelowPoint(a, b, precision)
  {
    hide WellFormed, MinusAt, PointAt, BelowPoint;
  }

  lemma SignOrPoint(s: string)
    requires WellFormed(s) && '-' in s
    ensures MinusAt(s) < PointAt(s) || PointAt(s) < MinusAt(s) < |s|
  {
    SignedDigits(s);
  }

  /** Every string that is read is read as an amount below zero if and only if it is one of
      those. */
  lemma ReadsBelow(precision: nat, maxSupply: int, s: string)
    requires Parsed(precision, maxSupply, s).Ok?
    ensures WellFormed(s) && (Parsed(precision, maxSupply, s).value < 0 <==> BelowZero(s, precision))
  {
    ReadIsWellFormed(precision, maxSupply, s);
    hide Parsed, BelowZero, WellFormed, MinusAt, PointAt, AllDigits, SignFirst, PointFirst, BelowFirst, BelowPoint;
    if '-' !in s {
      UnsignedNotBelow(precision, maxSupply, s);
    } else {
      SignOrPoint(s);
      if MinusAt(s) < PointAt(s) {
        SignBeforePoint(precision, maxSupply, s);
      } else {
        SignAfterPoint(precision, maxSupply, s);
      }
    }
  }

  lemma SignBeforePoint(precision: nat, maxSupply: int, s: string)
    requires Parsed(precision, maxSupply, s).Ok? && WellFormed(s) && '-' in s && MinusAt(s) < PointAt(s)
    ensures Parsed(precision, maxSupply, s).value < 0 <==> BelowZero(s, precision)
  {
    hide Parsed, BelowZero, WellFormed, MinusAt, PointAt, AllDigits, SignFirst, BelowFirst;
    var m, n := MinusAt(s), PointAt(s);
    var a, b, rest := s[..m], s[m + 1..n], s[n..];
    FirstPieces(s);
    SignPieces(s, a, b, rest);
    BelowWithFirst(s, a, b, rest, precision);
    ReadsBelowFirst(precision, maxSupply, s, a, b, rest);
  }

  lemma SignAfterPoint(precision: nat, maxSupply: int, s: string)
    requires Parsed(precision, maxSupply, s).Ok? && WellFormed(s) && '-' in s && PointAt(s) < MinusAt(s)
    ensures Parsed(precision, maxSupply, s).value < 0 <==> BelowZero(s, precision)
  {
    hide Parsed, BelowZero, WellFormed, MinusAt, PointAt, AllDigits, PointFirst, BelowPoint;
    var m, n := MinusAt(s), PointAt(s);
    var a, b, c := s[..n], s[n + 1..m], s[m + 1..];
    PointPieces(s);
    PointDigits(s, a, b, c);
    BelowWithPoint(s, a, b, precision);
    ReadsBelowPoint(precision, maxSupply, s, a, b, c);
  }

  lemma UnsignedNotBelow(precision: nat, maxSupply: int, s: string)
    requires Parsed(precision, maxSupply, s).Ok? && WellFormed(s) && '-' !in s
    ensures Parsed(precision, maxSupply, s).value >= 0 && !BelowZero(s, precision)
  {
    hide Parsed, UnitsOf, Denotes, WellFormed;
    UnitsOfRead(precision, maxSupply, s);
    UnitsOfUnsigned(precision, s);
  }

  lemma ReadIsWellFormed(precision: nat, maxSupply: int, s: string)
    requires Parsed(precision, maxSupply, s).Ok?
    ensures WellFormed(s) && precision < 19
  {
  }

  /** "12-5" is read as -2. */
  lemma SignInside()
    ensures WellFormed("12-5") && Parsed(0, 1000, "12-5") == Ok(-2) && Number("12-5", 0) == -125
  {
    var s := "12-5";
    DigitsWellFormed("12", "");
    DigitsWellFormed("5", "");
    assert s == "12" + "-" + "5" + "";
    hide Parsed, Number, WellFormed, Value, MinusAt, PointAt;
    InsideParts(s);
    ReadWholeFirst(s, "12", "5", "", Pow10(0));
    ReadFractionFirst(s, "12", "5", "", 0);
    NumberOfFirst(s, "12", "5", "", 0);
    InsideValues();
    assert Parsed(0, 1000, s) == Combined(Ok(2), Ok(0), true, 1000) by {
      ParsedIs(0, 1000, s);
    }
  }

  lemma ParsedIs(precision: nat, maxSupply: int, s: string)
    requires WellFormed(s) && precision < 19
    ensures Parsed(precision, maxSupply, s) ==
            Combined(Whole(WholePart(s), Pow10(precision)), FractionPart(s, precision), '-' in s, maxSupply)
  {
  }

  lemma InsideParts(s: string)
    requires s == "12-5"
    ensures WellFormed(s) && '-' in s && SignFirst(s, "12", "5", "") && MinusAt(s) == 2
  {
    assert s[2] == '-';
    hide Count;
    NoneCounted(s, '.');
    CountSplit("12-", "5", '-');
    CountSplit("12", "-", '-');
    NoneCounted("12", '-');
    NoneCounted("5", '-');
    OneMinus();
    assert s == "12-" + "5" && "12-" == "12" + "-";
    assert s[1..][1..][0] == '-';
  }

  lemma InsideValues()
    ensures Value("2") == 2 && Value("12" + "5") == 125 && "12"[1..] == "2" && Pow10(0) == 1
  {
    assert "2"[..0] == "" && "1"[..0] == "" && "12"[..1] == "1" && ("12" + "5")[..2] == "12";
    assert Value("1") == 1 && Value("12") == 12;
  }
}
