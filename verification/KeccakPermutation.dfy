/** The Keccak-f[1600] permutation: the step mappings of section 3.2 of FIPS 202
    as functions on 25-lane states, and the in-place round of the program. */
module KeccakPermutation {

  /** A 64-bit lane of the state. */
  datatype Lane = Lane(bits: bv64)

  const ZERO := Lane(0)

  /** Lane (x, y) is at x + 5y. */
  type State = s: seq<Lane> | |s| == 25 witness seq(25, _ => ZERO)

  // ----- Operations on lanes -----

  function Xor(a: Lane, b: Lane): Lane {
    Lane(a.bits ^ b.bits)
  }

  function AndNot(a: Lane, b: Lane): Lane {
    Lane(a.bits & !b.bits)
  }

  function Join(v: bv64, w: bv64): bv64 {
    v | w
  }

  /** Rotate left and wrap around; the program never rotates by 0. */
  function RotateWord(w: bv64, n: bv8): bv64
    requires 1 <= n <= 63
  {
    (w << n) | (w >> (64 - n))
  }

  function RotateLeft(a: Lane, n: nat): Lane
    requires 1 <= n <= 63
  {
    Lane(RotateWord(a.bits, n as bv8))
  }

  /** The rotation by an offset of table 2 of FIPS 202. */
  function Rotated(a: Lane, n: nat): Lane
    requires n <= 63
  {
    if n == 0 then a else RotateLeft(a, n)
  }

  // ----- Step mappings -----

  function Mod5(x: nat): (r: nat)
    ensures x <= 9 ==> r < 5 && r == x % 5
  {
    if x < 5 then x else x - 5
  }

  predicate Coordinates(x: int, y: int) {
    0 <= x < 5 && 0 <= y < 5
  }

  function At(s: State, x: nat, y: nat): Lane
    requires Coordinates(x, y)
  {
    s[x + 5 * y]
  }

  function ColumnParity(s: State, x: nat): Lane
    requires x < 5
  {
    Xor(Xor(Xor(Xor(At(s, x, 0), At(s, x, 1)), At(s, x, 2)), At(s, x, 3)), At(s, x, 4))
  }

  function ThetaEffect(s: State, x: nat): Lane
    requires x < 5
  {
    Xor(ColumnParity(s, Mod5(x + 4)), RotateLeft(ColumnParity(s, Mod5(x + 1)), 1))
  }

  function Theta(s: State): State {
    seq(25, i requires 0 <= i < 25 => Xor(s[i], ThetaEffect(s, i % 5)))
  }

  /** The walk (x, y) -> (y, 2x + 3y) from (1, 0) of Algorithm 2. */
  function Walk(t: nat): (p: (nat, nat))
    ensures Coordinates(p.0, p.1)
  {
    if t == 0 then (1, 0)
    else
      var (x, y) := Walk(t - 1);
      (y, (2 * x + 3 * y) % 5)
  }

  /** The triangular offsets of table 2, reduced modulo 64. */
  function RhoOffset(i: nat): (n: nat)
    requires i < 25
    ensures n <= 63
  {
    match i
    case 0 => 0   case 1 => 1   case 2 => 62  case 3 => 28  case 4 => 27
    case 5 => 36  case 6 => 44  case 7 => 6   case 8 => 55  case 9 => 20
    case 10 => 3  case 11 => 10 case 12 => 43 case 13 => 25 case 14 => 39
    case 15 => 41 case 16 => 45 case 17 => 15 case 18 => 21 case 19 => 8
    case 20 => 18 case 21 => 2  case 22 => 61 case 23 => 56 case _ => 14
  }

  function Rho(s: State): State {
    seq(25, i requires 0 <= i < 25 => Rotated(s[i], RhoOffset(i)))
  }

  /** Lane (x, y) comes from lane (x + 3y, x). */
  function PiSource(i: nat): (k: nat)
    requires i < 25
    ensures k < 25
  {
    var (x, y) := (i % 5, i / 5);
    (x + 3 * y) % 5 + 5 * x
  }

  function Pi(s: State): State {
    seq(25, i requires 0 <= i < 25 => s[PiSource(i)])
  }

  function ChiLane(s: State, x: nat, y: nat): Lane
    requires Coordinates(x, y)
  {
    Xor(At(s, x, y), AndNot(At(s, Mod5(x + 2), y), At(s, Mod5(x + 1), y)))
  }

  function Chi(s: State): State {
    seq(25, i requires 0 <= i < 25 => ChiLane(s, i % 5, i / 5))
  }

  const ROUND_CONSTANTS: seq<bv64> := [
    0x0000000000000001, 0x0000000000008082, 0x800000000000808a,
    0x8000000080008000, 0x000000000000808b, 0x0000000080000001,
    0x8000000080008081, 0x8000000000008009, 0x000000000000008a,
    0x0000000000000088, 0x0000000080008009, 0x000000008000000a,
    0x000000008000808b, 0x800000000000008b, 0x8000000000008089,
    0x8000000000008003, 0x8000000000008002, 0x8000000000000080,
    0x000000000000800a, 0x800000008000000a, 0x8000000080008081,
    0x8000000000008080, 0x0000000080000001, 0x8000000080008008]

  function Iota(s: State, constant: bv64): State {
    s[0 := Xor(s[0], Lane(constant))]
  }

  /** Rnd of section 3.3. */
  function Round(s: State, constant: bv64): State {
    Iota(Chi(Pi(Rho(Theta(s)))), constant)
  }

  /** One round for each of the given constants. */
  function Rounds(s: State, constants: seq<bv64>): State {
    if constants == [] then s
    else
      var n := |constants| - 1;
      Round(Rounds(s, constants[..n]), constants[n])
  }

  /** Keccak-f[1600]. */
  function Permutation(s: State): State {
    Rounds(s, ROUND_CONSTANTS)
  }

  // ----- The in-place round -----

  method ColumnInPlace(h: array<Lane>, i: nat, one: Lane)
    requires h.Length == 25 && i < 5
    modifies h
    ensures forall k :: 0 <= k < 25 ==> h[k] == if k % 5 == i then Xor(old(h[k]), one) else old(h[k])
  {
    hide Xor;
    h[i] := Xor(h[i], one);
    h[i + 5] := Xor(h[i + 5], one);
    h[i + 10] := Xor(h[i + 10], one);
    h[i + 15] := Xor(h[i + 15], one);
    h[i + 20] := Xor(h[i + 20], one);
  }

  method ParitiesOf(h: array<Lane>) returns (coefficients: array<Lane>)
    requires h.Length == 25
    ensures fresh(coefficients) && coefficients.Length == 5
    ensures forall k :: 0 <= k < 5 ==> coefficients[k] == ColumnParity(h[..], k)
  {
    hide Xor;
    coefficients := new Lane[5](_ => ZERO);
    for i := 0 to 5
      invariant forall k :: 0 <= k < i ==> coefficients[k] == ColumnParity(h[..], k)
    {
      coefficients[i] := Xor(Xor(Xor(Xor(h[i], h[i + 5]), h[i + 10]), h[i + 15]), h[i + 20]);
    }
  }

  method ThetaInPlace(h: array<Lane>)
    requires h.Length == 25
    modifies h
    ensures h[..] == Theta(old(h[..]))
  {
    hide Xor, RotateLeft, ColumnParity;
    ghost var s: State := h[..];
    var coefficients := ParitiesOf(h);
    for i := 0 to 5
      invariant forall k :: 0 <= k < 5 ==> coefficients[k] == ColumnParity(s, k)
      invariant forall k :: 0 <= k < 25 ==> h[k] == if k % 5 < i then Xor(s[k], ThetaEffect(s, k % 5)) else s[k]
    {
      var one := Xor(coefficients[Mod5(i + 4)], RotateLeft(coefficients[Mod5(i + 1)], 1));
      assert one == ThetaEffect(s, i);
      hide ThetaEffect;
      ColumnInPlace(h, i, one);
    }
  }

  /** Row `y` of `t` is what chi makes of row `y` of `s`. */
  predicate RowDone(s: State, t: State, y: nat)
    requires y < 5
  {
    t[5 * y] == ChiLane(s, 0, y) && t[5 * y + 1] == ChiLane(s, 1, y) && t[5 * y + 2] == ChiLane(s, 2, y) &&
    t[5 * y + 3] == ChiLane(s, 3, y) && t[5 * y + 4] == ChiLane(s, 4, y)
  }

  lemma RowOfChi(s: State, t: State, k: nat)
    requires k < 25 && RowDone(s, t, k / 5)
    ensures t[k] == Chi(s)[k]
  {
    hide ChiLane;
    assert k == 5 * (k / 5) + k % 5;
  }

  lemma RowLanes(s: State, y: nat)
    requires y < 5
    ensures ChiLane(s, 0, y) == Xor(s[5 * y], AndNot(s[5 * y + 2], s[5 * y + 1]))
    ensures ChiLane(s, 1, y) == Xor(s[5 * y + 1], AndNot(s[5 * y + 3], s[5 * y + 2]))
    ensures ChiLane(s, 2, y) == Xor(s[5 * y + 2], AndNot(s[5 * y + 4], s[5 * y + 3]))
    ensures ChiLane(s, 3, y) == Xor(s[5 * y + 3], AndNot(s[5 * y], s[5 * y + 4]))
    ensures ChiLane(s, 4, y) == Xor(s[5 * y + 4], AndNot(s[5 * y + 1], s[5 * y]))
  {
    hide Xor, AndNot;
  }

  method RowInPlace(h: array<Lane>, y: nat)
    requires h.Length == 25 && y < 5
    modifies h
    ensures RowDone(old(h[..]), h[..], y)
    ensures forall k :: 0 <= k < 25 && !(5 * y <= k < 5 * y + 5) ==> h[k] == old(h[k])
  {
    hide Xor, AndNot, ChiLane;
    RowLanes(h[..], y);
    var j := 5 * y;
    var one := h[j];
    var two := h[j + 1];
    h[j] := Xor(h[j], AndNot(h[j + 2], two));
    h[j + 1] := Xor(h[j + 1], AndNot(h[j + 3], h[j + 2]));
    h[j + 2] := Xor(h[j + 2], AndNot(h[j + 4], h[j + 3]));
    h[j + 3] := Xor(h[j + 3], AndNot(one, h[j + 4]));
    h[j + 4] := Xor(h[j + 4], AndNot(two, one));
  }

  lemma SameRow(s: State, t: State, u: State, y: nat)
    requires y < 5 && s[5 * y..5 * y + 5] == t[5 * y..5 * y + 5] && RowDone(t, u, y)
    ensures RowDone(s, u, y)
  {
    hide Xor, AndNot;
    var (a, b) := (s[5 * y..5 * y + 5], t[5 * y..5 * y + 5]);
    assert a[0] == b[0] && a[1] == b[1] && a[2] == b[2] && a[3] == b[3] && a[4] == b[4];
    hide ChiLane;
    RowLanes(s, y);
    RowLanes(t, y);
  }

  method ChiInPlace(h: array<Lane>)
    requires h.Length == 25
    modifies h
    ensures h[..] == Chi(old(h[..]))
  {
    hide ChiLane, Chi;
    ghost var s: State := h[..];
    for y := 0 to 5
      invariant forall r :: 0 <= r < y ==> RowDone(s, h[..], r)
      invariant forall k :: 5 * y <= k < 25 ==> h[k] == s[k]
    {
      ghost var before: State := h[..];
      RowInPlace(h, y);
      SameRow(s, before, h[..], y);
      forall r | 0 <= r < y
        ensures RowDone(s, h[..], r)
      {
        assert RowDone(s, before, r);
      }
    }
    forall k | 0 <= k < 25
      ensures h[k] == Chi(s)[k]
    {
      RowOfChi(s, h[..], k);
    }
  }

  method IotaInPlace(h: array<Lane>, constant: bv64)
    requires h.Length == 25
    modifies h
    ensures h[..] == Iota(old(h[..]), constant)
  {
    hide Xor;
    h[0] := Xor(h[0], Lane(constant));
  }

  lemma RhoPiLane(s: State, i: nat)
    requires i < 25
    ensures Pi(Rho(s))[i] == Rotated(s[PiSource(i)], RhoOffset(PiSource(i)))
  {
    hide Rotated, RhoOffset, PiSource;
  }

  lemma RhoPiStep(s: State, from: nat, to: nat, n: nat)
    requires from < 25 && to < 25 && 1 <= n <= 63 && PiSource(to) == from && RhoOffset(from) == n
    ensures Pi(Rho(s))[to] == RotateLeft(s[from], n)
  {
    hide RotateLeft, Pi, Rho, PiSource, RhoOffset;
    RhoPiLane(s, to);
  }

  lemma RhoPiKeepsOrigin(s: State)
    ensures Pi(Rho(s))[0] == s[0]
  {
    hide Pi, Rho;
    RhoPiLane(s, 0);
  }

  lemma RhoPiLanes1(s: State)
    ensures var r := Pi(Rho(s));
      r[10] == RotateLeft(s[1], 1) &&
      r[7] == RotateLeft(s[10], 3) &&
      r[11] == RotateLeft(s[7], 6) &&
      r[17] == RotateLeft(s[11], 10) &&
      r[18] == RotateLeft(s[17], 15) &&
      r[3] == RotateLeft(s[18], 21)
  {
    hide RotateLeft, Pi, Rho;
    RhoPiStep(s, 1, 10, 1);
    RhoPiStep(s, 10, 7, 3);
    RhoPiStep(s, 7, 11, 6);
    RhoPiStep(s, 11, 17, 10);
    RhoPiStep(s, 17, 18, 15);
    RhoPiStep(s, 18, 3, 21);
  }

  lemma RhoPiLanes2(s: State)
    ensures var r := Pi(Rho(s));
      r[5] == RotateLeft(s[3], 28) &&
      r[16] == RotateLeft(s[5], 36) &&
      r[8] == RotateLeft(s[16], 45) &&
      r[21] == RotateLeft(s[8], 55) &&
      r[24] == RotateLeft(s[21], 2) &&
      r[4] == RotateLeft(s[24], 14)
  {
    hide RotateLeft, Pi, Rho;
    RhoPiStep(s, 3, 5, 28);
    RhoPiStep(s, 5, 16, 36);
    RhoPiStep(s, 16, 8, 45);
    RhoPiStep(s, 8, 21, 55);
    RhoPiStep(s, 21, 24, 2);
    RhoPiStep(s, 24, 4, 14);
  }

  lemma RhoPiLanes3(s: State)
    ensures var r := Pi(Rho(s));
      r[15] == RotateLeft(s[4], 27) &&
      r[23] == RotateLeft(s[15], 41) &&
      r[19] == RotateLeft(s[23], 56) &&
      r[13] == RotateLeft(s[19], 8) &&
      r[12] == RotateLeft(s[13], 25) &&
      r[2] == RotateLeft(s[12], 43)
  {
    hide RotateLeft, Pi, Rho;
    RhoPiStep(s, 4, 15, 27);
    RhoPiStep(s, 15, 23, 41);
    RhoPiStep(s, 23, 19, 56);
    RhoPiStep(s, 19, 13, 8);
    RhoPiStep(s, 13, 12, 25);
    RhoPiStep(s, 12, 2, 43);
  }

  lemma RhoPiLanes4(s: State)
    ensures var r := Pi(Rho(s));
      r[20] == RotateLeft(s[2], 62) &&
      r[14] == RotateLeft(s[20], 18) &&
      r[22] == RotateLeft(s[14], 39) &&
      r[9] == RotateLeft(s[22], 61) &&
      r[6] == RotateLeft(s[9], 20) &&
      r[1] == RotateLeft(s[6], 44)
  {
    hide RotateLeft, Pi, Rho;
    RhoPiStep(s, 2, 20, 62);
    RhoPiStep(s, 20, 14, 18);
    RhoPiStep(s, 14, 22, 39);
    RhoPiStep(s, 22, 9, 61);
    RhoPiStep(s, 9, 6, 20);
    RhoPiStep(s, 6, 1, 44);
  }

  predicate LanesAgree(s: State, t: State) {
    s[0] == t[0] && s[1] == t[1] && s[2] == t[2] && s[3] == t[3] && s[4] == t[4] &&
    s[5] == t[5] && s[6] == t[6] && s[7] == t[7] && s[8] == t[8] && s[9] == t[9] &&
    s[10] == t[10] && s[11] == t[11] && s[12] == t[12] && s[13] == t[13] && s[14] == t[14] &&
    s[15] == t[15] && s[16] == t[16] && s[17] == t[17] && s[18] == t[18] && s[19] == t[19] &&
    s[20] == t[20] && s[21] == t[21] && s[22] == t[22] && s[23] == t[23] && s[24] == t[24]
  }

  lemma LanesAgreeMeansEqual(s: State, t: State)
    requires LanesAgree(s, t)
    ensures s == t
  {
  }

  method ChainPart1(m: array<Lane>, last: Lane) returns (next: Lane)
    requires m.Length == 25
    modifies m
    ensures m[10] == RotateLeft(last, 1)
    ensures m[7] == RotateLeft(old(m[10]), 3)
    ensures m[11] == RotateLeft(old(m[7]), 6)
    ensures m[17] == RotateLeft(old(m[11]), 10)
    ensures m[18] == RotateLeft(old(m[17]), 15)
    ensures m[3] == RotateLeft(old(m[18]), 21)
    ensures m[5] == RotateLeft(old(m[3]), 28)
    ensures m[16] == RotateLeft(old(m[5]), 36)
    ensures next == old(m[16])
    ensures forall k :: 0 <= k < 25 && k !in {10, 7, 11, 17, 18, 3, 5, 16} ==> m[k] == old(m[k])
  {
    hide RotateLeft;
    var one: Lane;
    next := last;
    one := m[10]; m[10] := RotateLeft(next, 1); next := one;
    one := m[7]; m[7] := RotateLeft(next, 3); next := one;
    one := m[11]; m[11] := RotateLeft(next, 6); next := one;
    one := m[17]; m[17] := RotateLeft(next, 10); next := one;
    one := m[18]; m[18] := RotateLeft(next, 15); next := one;
    one := m[3]; m[3] := RotateLeft(next, 21); next := one;
    one := m[5]; m[5] := RotateLeft(next, 28); next := one;
    one := m[16]; m[16] := RotateLeft(next, 36); next := one;
  }

  method ChainPart2(m: array<Lane>, last: Lane) returns (next: Lane)
    requires m.Length == 25
    modifies m
    ensures m[8] == RotateLeft(last, 45)
    ensures m[21] == RotateLeft(old(m[8]), 55)
    ensures m[24] == RotateLeft(old(m[21]), 2)
    ensures m[4] == RotateLeft(old(m[24]), 14)
    ensures m[15] == RotateLeft(old(m[4]), 27)
    ensures m[23] == RotateLeft(old(m[15]), 41)
    ensures m[19] == RotateLeft(old(m[23]), 56)
    ensures m[13] == RotateLeft(old(m[19]), 8)
    ensures next == old(m[13])
    ensures forall k :: 0 <= k < 25 && k !in {8, 21, 24, 4, 15, 23, 19, 13} ==> m[k] == old(m[k])
  {
    hide RotateLeft;
    var one: Lane;
    next := last;
    one := m[8]; m[8] := RotateLeft(next, 45); next := one;
    one := m[21]; m[21] := RotateLeft(next, 55); next := one;
    one := m[24]; m[24] := RotateLeft(next, 2); next := one;
    one := m[4]; m[4] := RotateLeft(next, 14); next := one;
    one := m[15]; m[15] := RotateLeft(next, 27); next := one;
    one := m[23]; m[23] := RotateLeft(next, 41); next := one;
    one := m[19]; m[19] := RotateLeft(next, 56); next := one;
    one := m[13]; m[13] := RotateLeft(next, 8); next := one;
  }

  method ChainPart3(m: array<Lane>, last: Lane) returns (next: Lane)
    requires m.Length == 25
    modifies m
    ensures m[12] == RotateLeft(last, 25)
    ensures m[2] == RotateLeft(old(m[12]), 43)
    ensures m[20] == RotateLeft(old(m[2]), 62)
    ensures m[14] == RotateLeft(old(m[20]), 18)
    ensures m[22] == RotateLeft(old(m[14]), 39)
    ensures m[9] == RotateLeft(old(m[22]), 61)
    ensures m[6] == RotateLeft(old(m[9]), 20)
    ensures m[1] == RotateLeft(old(m[6]), 44)
    ensures next == old(m[1])
    ensures forall k :: 0 <= k < 25 && k !in {12, 2, 20, 14, 22, 9, 6, 1} ==> m[k] == old(m[k])
  {
    hide RotateLeft;
    var one: Lane;
    next := last;
    one := m[12]; m[12] := RotateLeft(next, 25); next := one;
    one := m[2]; m[2] := RotateLeft(next, 43); next := one;
    one := m[20]; m[20] := RotateLeft(next, 62); next := one;
    one := m[14]; m[14] := RotateLeft(next, 18); next := one;
    one := m[22]; m[22] := RotateLeft(next, 39); next := one;
    one := m[9]; m[9] := RotateLeft(next, 61); next := one;
    one := m[6]; m[6] := RotateLeft(next, 20); next := one;
    one := m[1]; m[1] := RotateLeft(next, 44); next := one;
  }

  /** The 24-step chain: each lane is rotated into the place of the next one. */
  method RhoPiInPlace(m: array<Lane>)
    requires m.Length == 25
    modifies m
    ensures m[..] == Pi(Rho(old(m[..])))
  {
    hide RotateLeft, Pi, Rho, PiSource, RhoOffset;
    ghost var s: State := m[..];
    RhoPiLanes1(s);
    RhoPiLanes2(s);
    RhoPiLanes3(s);
    RhoPiLanes4(s);
    RhoPiKeepsOrigin(s);
    var last := m[1];
    last := ChainPart1(m, last);
    last := ChainPart2(m, last);
    last := ChainPart3(m, last);
    LanesAgreeMeansEqual(m[..], Pi(Rho(s)));
  }

  /** One round of the loop in `processBlock`. */
  method RoundInPlace(h: array<Lane>, constant: bv64)
    requires h.Length == 25
    modifies h
    ensures h[..] == Round(old(h[..]), constant)
  {
    hide Theta, Rho, Pi, Chi, Iota;
    ThetaInPlace(h);
    RhoPiInPlace(h);
    ChiInPlace(h);
    IotaInPlace(h, constant);
  }

  /** The 24 rounds of the program are the permutation of section 3.3. */
  method PermuteInPlace(h: array<Lane>)
    requires h.Length == 25
    modifies h
    ensures h[..] == Permutation(old(h[..]))
  {
    hide Round;
    ghost var s: State := h[..];
    for round := 0 to |ROUND_CONSTANTS|
      invariant h[..] == Rounds(s, ROUND_CONSTANTS[..round])
    {
      RoundInPlace(h, ROUND_CONSTANTS[round]);
      assert ROUND_CONSTANTS[..round + 1][..round] == ROUND_CONSTANTS[..round];
    }
    assert ROUND_CONSTANTS[..|ROUND_CONSTANTS|] == ROUND_CONSTANTS;
  }

  // ----- The tables against their definitions in FIPS 202 -----

  function WalkLane(t: nat): (i: nat)
    ensures i < 25
  {
    Walk(t).0 + 5 * Walk(t).1
  }

  /** The offset of the t-th lane of the walk is the t-th triangular number. */
  predicate OffsetFollowsWalk(t: nat) {
    RhoOffset(WalkLane(t)) == (t + 1) * (t + 2) / 2 % 64
  }

  lemma OffsetStep(t: nat, x: nat, y: nat)
    requires Coordinates(x, y) && Walk(t) == (x, y)
    requires RhoOffset(x + 5 * y) == (t + 1) * (t + 2) / 2 % 64
    ensures OffsetFollowsWalk(t)
    ensures Walk(t + 1) == (y, (2 * x + 3 * y) % 5)
  {
    hide RhoOffset;
  }

  lemma WalkFrom0()
    requires Walk(0) == (1, 0)
    ensures OffsetFollowsWalk(0) && OffsetFollowsWalk(1) && OffsetFollowsWalk(2) && OffsetFollowsWalk(3) &&
            OffsetFollowsWalk(4) && OffsetFollowsWalk(5)
    ensures Walk(6) == (3, 0)
  {
    hide Walk, OffsetFollowsWalk;
    OffsetStep(0, 1, 0);
    OffsetStep(1, 0, 2);
    OffsetStep(2, 2, 1);
    OffsetStep(3, 1, 2);
    OffsetStep(4, 2, 3);
    OffsetStep(5, 3, 3);
  }

  lemma WalkFrom6()
    requires Walk(6) == (3, 0)
    ensures OffsetFollowsWalk(6) && OffsetFollowsWalk(7) && OffsetFollowsWalk(8) && OffsetFollowsWalk(9) &&
            OffsetFollowsWalk(10) && OffsetFollowsWalk(11)
    ensures Walk(12) == (4, 0)
  {
    hide Walk, OffsetFollowsWalk;
    OffsetStep(6, 3, 0);
    OffsetStep(7, 0, 1);
    OffsetStep(8, 1, 3);
    OffsetStep(9, 3, 1);
    OffsetStep(10, 1, 4);
    OffsetStep(11, 4, 4);
  }

  lemma WalkFrom12()
    requires Walk(12) == (4, 0)
    ensures OffsetFollowsWalk(12) && OffsetFollowsWalk(13) && OffsetFollowsWalk(14) && OffsetFollowsWalk(15) &&
            OffsetFollowsWalk(16) && OffsetFollowsWalk(17)
    ensures Walk(18) == (2, 0)
  {
    hide Walk, OffsetFollowsWalk;
    OffsetStep(12, 4, 0);
    OffsetStep(13, 0, 3);
    OffsetStep(14, 3, 4);
    OffsetStep(15, 4, 3);
    OffsetStep(16, 3, 2);
    OffsetStep(17, 2, 2);
  }

  lemma WalkFrom18()
    requires Walk(18) == (2, 0)
    ensures OffsetFollowsWalk(18) && OffsetFollowsWalk(19) && OffsetFollowsWalk(20) && OffsetFollowsWalk(21) &&
            OffsetFollowsWalk(22) && OffsetFollowsWalk(23)
    ensures Walk(24) == (1, 0)
  {
    hide Walk, OffsetFollowsWalk;
    OffsetStep(18, 2, 0);
    OffsetStep(19, 0, 4);
    OffsetStep(20, 4, 2);
    OffsetStep(21, 2, 4);
    OffsetStep(22, 4, 1);
    OffsetStep(23, 1, 1);
  }

  lemma WalkStarts()
    ensures Walk(0) == (1, 0)
  {
  }

  /** The offsets of the program are those of the walk of Algorithm 2. */
  lemma OffsetsFollowWalk(t: nat)
    requires t < 24
    ensures OffsetFollowsWalk(t)
  {
    hide Walk, OffsetFollowsWalk;
    WalkStarts();
    WalkFrom0();
    WalkFrom6();
    WalkFrom12();
    WalkFrom18();
    match t
    case 0 | 1 | 2 | 3 | 4 | 5 | 6 | 7 | 8 | 9 | 10 | 11 =>
    case 12 | 13 | 14 | 15 | 16 | 17 | 18 | 19 | 20 | 21 | 22 =>
    case _ =>
  }

  // ----- The round constants -----

  /** The eight bits R of Algorithm 5 of FIPS 202. */
  datatype Register = Register(r0: bool, r1: bool, r2: bool, r3: bool, r4: bool, r5: bool, r6: bool, r7: bool)

  /** One turn of the loop: a zero comes in front, and the ninth bit is added at four places. */
  function Shifted(r: Register): Register {
    Register(r.r7, r.r0, r.r1, r.r2, r.r3 != r.r7, r.r4 != r.r7, r.r5 != r.r7, r.r6)
  }

  function RegisterAfter(t: nat): Register {
    if t == 0 then Register(true, false, false, false, false, false, false, false) else Shifted(RegisterAfter(t - 1))
  }

  /** rc(t) of Algorithm 5, which reduces t modulo 255. */
  function Rc(t: nat): bool {
    if t < 255 then RegisterAfter(t).r0 else Rc(t - 255)
  }

  lemma {:induction false} RcReduces(t: nat)
    ensures Rc(t) == RegisterAfter(t % 255).r0
  {
    hide RegisterAfter;
    if t >= 255 {
      RcReduces(t - 255);
      assert t % 255 == (t - 255) % 255;
    } else {
      assert t % 255 == t;
    }
  }

  function Bit(on: bool, value: bv64): bv64 {
    if on then value else 0
  }

  /** The bits of Algorithm 6 for one round. */
  datatype SevenBits = SevenBits(b0: bool, b1: bool, b2: bool, b3: bool, b4: bool, b5: bool, b6: bool)

  /** Seven bits at places 2^j - 1. */
  function Packed(b: SevenBits): bv64 {
    Join(Bit(b.b0, 1), Join(Bit(b.b1, 2), Join(Bit(b.b2, 8), Join(Bit(b.b3, 0x80), Join(Bit(b.b4, 0x8000),
      Join(Bit(b.b5, 0x80000000), Bit(b.b6, 0x8000000000000000)))))))
  }

  /** rc(j + 7i), for j from 0 to 6. */
  function RoundRc(i: nat): SevenBits {
    SevenBits(Rc(7 * i), Rc(7 * i + 1), Rc(7 * i + 2), Rc(7 * i + 3), Rc(7 * i + 4), Rc(7 * i + 5), Rc(7 * i + 6))
  }

  /** RC of Algorithm 6: bit 2^j - 1 is rc(j + 7i). */
  function RoundConstant(i: nat): bv64 {
    Packed(RoundRc(i))
  }

  function Seven(r: Register): Register {
    Shifted(Shifted(Shifted(Shifted(Shifted(Shifted(Shifted(r)))))))
  }

  lemma NextRegister(t: nat)
    ensures RegisterAfter(t + 1) == Shifted(RegisterAfter(t))
  {
  }

  lemma SevenLater(t: nat)
    ensures RegisterAfter(t + 1) == Shifted(RegisterAfter(t)) && RegisterAfter(t + 2) == Shifted(RegisterAfter(t + 1))
    ensures RegisterAfter(t + 3) == Shifted(RegisterAfter(t + 2))
    ensures RegisterAfter(t + 4) == Shifted(RegisterAfter(t + 3))
    ensures RegisterAfter(t + 5) == Shifted(RegisterAfter(t + 4))
    ensures RegisterAfter(t + 6) == Shifted(RegisterAfter(t + 5))
    ensures RegisterAfter(t + 7) == Seven(RegisterAfter(t))
  {
    hide Shifted, RegisterAfter;
    NextRegister(t);
    NextRegister(t + 1);
    NextRegister(t + 2);
    NextRegister(t + 3);
    NextRegister(t + 4);
    NextRegister(t + 5);
    NextRegister(t + 6);
  }

  /** The bits that a register gives in the seven turns of a round. */
  function BitsFrom(r: Register): SevenBits {
    var r1 := Shifted(r);
    var r2 := Shifted(r1);
    var r3 := Shifted(r2);
    var r4 := Shifted(r3);
    var r5 := Shifted(r4);
    SevenBits(r.r0, r1.r0, r2.r0, r3.r0, r4.r0, r5.r0, Shifted(r5).r0)
  }

  lemma BitsFromRegister(i: nat)
    requires i < 24
    ensures RoundRc(i) == BitsFrom(RegisterAfter(7 * i))
  {
    hide Shifted, RegisterAfter;
    SevenLater(7 * i);
  }

  lemma OneRound(i: nat, r: Register, bits: SevenBits, next: Register)
    requires i < 24 && RegisterAfter(7 * i) == r && BitsFrom(r) == bits && Seven(r) == next
    ensures RoundRc(i) == bits && RegisterAfter(7 * i + 7) == next
  {
    hide RegisterAfter, RoundRc, BitsFrom, Seven;
    BitsFromRegister(i);
    SevenLater(7 * i);
  }

  lemma RoundsFrom0()
    ensures RegisterAfter(21) == Register(false, true, false, true, true, false, false, false)
    ensures RoundRc(0) == SevenBits(true, false, false, false, false, false, false)
    ensures RoundRc(1) == SevenBits(false, true, false, true, true, false, false)
    ensures RoundRc(2) == SevenBits(false, true, true, true, true, false, true)
  {
    hide RegisterAfter, RoundRc;
    FirstRegister();
    var r0 := Register(true, false, false, false, false, false, false, false);
    var r1 := Register(false, false, false, false, false, false, false, true);
    var r2 := Register(false, false, false, true, true, false, true, true);
    var r3 := Register(false, true, false, true, true, false, false, false);
    OneRound(0, r0, SevenBits(true, false, false, false, false, false, false), r1);
    OneRound(1, r1, SevenBits(false, true, false, true, true, false, false), r2);
    OneRound(2, r2, SevenBits(false, true, true, true, true, false, true), r3);
  }

  lemma RoundsFrom3()
    requires RegisterAfter(21) == Register(false, true, false, true, true, false, false, false)
    ensures RegisterAfter(42) == Register(true, false, true, false, true, true, false, false)
    ensures RoundRc(3) == SevenBits(false, false, false, false, true, true, true)
    ensures RoundRc(4) == SevenBits(true, true, true, true, true, false, false)
    ensures RoundRc(5) == SevenBits(true, false, false, false, false, true, false)
  {
    hide RegisterAfter, RoundRc;
    var r0 := Register(false, true, false, true, true, false, false, false);
    var r1 := Register(true, true, true, true, true, false, true, true);
    var r2 := Register(true, false, false, true, false, false, false, false);
    var r3 := Register(true, false, true, false, true, true, false, false);
    OneRound(3, r0, SevenBits(false, false, false, false, true, true, true), r1);
    OneRound(4, r1, SevenBits(true, true, true, true, true, false, false), r2);
    OneRound(5, r2, SevenBits(true, false, false, false, false, true, false), r3);
  }

  lemma RoundsFrom6()
    requires RegisterAfter(42) == Register(true, false, true, false, true, true, false, false)
    ensures RegisterAfter(63) == Register(false, false, false, false, true, true, true, false)
    ensures RoundRc(6) == SevenBits(true, false, false, true, true, true, true)
    ensures RoundRc(7) == SevenBits(true, false, true, false, true, false, true)
    ensures RoundRc(8) == SevenBits(false, true, true, true, false, false, false)
  {
    hide RegisterAfter, RoundRc;
    var r0 := Register(true, false, true, false, true, true, false, false);
    var r1 := Register(true, true, true, true, false, false, true, false);
    var r2 := Register(false, true, false, true, false, false, true, true);
    var r3 := Register(false, false, false, false, true, true, true, false);
    OneRound(6, r0, SevenBits(true, false, false, true, true, true, true), r1);
    OneRound(7, r1, SevenBits(true, false, true, false, true, false, true), r2);
    OneRound(8, r2, SevenBits(false, true, true, true, false, false, false), r3);
  }

  lemma RoundsFrom9()
    requires RegisterAfter(63) == Register(false, false, false, false, true, true, true, false)
    ensures RegisterAfter(84) == Register(true, false, true, false, true, false, true, true)
    ensures RoundRc(9) == SevenBits(false, false, true, true, false, false, false)
    ensures RoundRc(10) == SevenBits(true, false, true, false, true, true, false)
    ensures RoundRc(11) == SevenBits(false, true, true, false, false, true, false)
  {
    hide RegisterAfter, RoundRc;
    var r0 := Register(false, false, false, false, true, true, true, false);
    var r1 := Register(true, false, false, false, false, false, true, false);
    var r2 := Register(false, false, true, true, false, true, true, true);
    var r3 := Register(true, false, true, false, true, false, true, true);
    OneRound(9, r0, SevenBits(false, false, true, true, false, false, false), r1);
    OneRound(10, r1, SevenBits(true, false, true, false, true, true, false), r2);
    OneRound(11, r2, SevenBits(false, true, true, false, false, true, false), r3);
  }

  lemma RoundsFrom12()
    requires RegisterAfter(84) == Register(true, false, true, false, true, false, true, true)
    ensures RegisterAfter(105) == Register(true, true, false, true, false, true, false, true)
    ensures RoundRc(12) == SevenBits(true, true, true, true, true, true, false)
    ensures RoundRc(13) == SevenBits(true, true, true, true, false, false, true)
    ensures RoundRc(14) == SevenBits(true, false, true, true, true, false, true)
  {
    hide RegisterAfter, RoundRc;
    var r0 := Register(true, false, true, false, true, false, true, true);
    var r1 := Register(true, false, true, true, false, false, true, true);
    var r2 := Register(true, true, false, false, false, true, true, false);
    var r3 := Register(true, true, false, true, false, true, false, true);
    OneRound(12, r0, SevenBits(true, true, true, true, true, true, false), r1);
    OneRound(13, r1, SevenBits(true, true, true, true, false, false, true), r2);
    OneRound(14, r2, SevenBits(true, false, true, true, true, false, true), r3);
  }

  lemma RoundsFrom15()
    requires RegisterAfter(105) == Register(true, true, false, true, false, true, false, true)
    ensures RegisterAfter(126) == Register(false, true, false, false, true, true, true, true)
    ensures RoundRc(15) == SevenBits(true, true, false, false, true, false, true)
    ensures RoundRc(16) == SevenBits(false, true, false, false, true, false, true)
    ensures RoundRc(17) == SevenBits(false, false, false, true, false, false, true)
  {
    hide RegisterAfter, RoundRc;
    var r0 := Register(true, true, false, true, false, true, false, true);
    var r1 := Register(false, true, false, true, false, true, false, true);
    var r2 := Register(false, true, false, true, false, true, false, false);
    var r3 := Register(false, true, false, false, true, true, true, true);
    OneRound(15, r0, SevenBits(true, true, false, false, true, false, true), r1);
    OneRound(16, r1, SevenBits(false, true, false, false, true, false, true), r2);
    OneRound(17, r2, SevenBits(false, false, false, true, false, false, true), r3);
  }

  lemma RoundsFrom18()
    requires RegisterAfter(126) == Register(false, true, false, false, true, true, true, true)
    ensures RegisterAfter(147) == Register(false, true, true, true, true, true, false, false)
    ensures RoundRc(18) == SevenBits(false, true, true, false, true, false, false)
    ensures RoundRc(19) == SevenBits(false, true, true, false, false, true, true)
    ensures RoundRc(20) == SevenBits(true, false, false, true, true, true, true)
  {
    hide RegisterAfter, RoundRc;
    var r0 := Register(false, true, false, false, true, true, true, true);
    var r1 := Register(false, false, false, true, false, true, true, true);
    var r2 := Register(true, true, true, false, true, true, false, false);
    var r3 := Register(false, true, true, true, true, true, false, false);
    OneRound(18, r0, SevenBits(false, true, true, false, true, false, false), r1);
    OneRound(19, r1, SevenBits(false, true, true, false, false, true, true), r2);
    OneRound(20, r2, SevenBits(true, false, false, true, true, true, true), r3);
  }

  lemma RoundsFrom21()
    requires RegisterAfter(147) == Register(false, true, true, true, true, true, false, false)
    ensures RegisterAfter(168) == Register(false, true, true, true, false, false, false, true)
    ensures RoundRc(21) == SevenBits(false, false, false, true, true, false, true)
    ensures RoundRc(22) == SevenBits(true, false, false, false, false, true, false)
    ensures RoundRc(23) == SevenBits(false, false, true, false, true, true, true)
  {
    hide RegisterAfter, RoundRc;
    var r0 := Register(false, true, true, true, true, true, false, false);
    var r1 := Register(true, true, false, true, false, false, false, false);
    var r2 := Register(false, false, true, false, false, false, true, false);
    var r3 := Register(false, true, true, true, false, false, false, true);
    OneRound(21, r0, SevenBits(false, false, false, true, true, false, true), r1);
    OneRound(22, r1, SevenBits(true, false, false, false, false, true, false), r2);
    OneRound(23, r2, SevenBits(false, false, true, false, true, true, true), r3);
  }

  lemma FirstRegister()
    ensures RegisterAfter(0) == Register(true, false, false, false, false, false, false, false)
  {
  }

  lemma WordsFrom0()
    ensures Packed(SevenBits(true, false, false, false, false, false, false)) == 0x0000000000000001
    ensures Packed(SevenBits(false, true, false, true, true, false, false)) == 0x0000000000008082
    ensures Packed(SevenBits(false, true, true, true, true, false, true)) == 0x800000000000808a
    ensures Packed(SevenBits(false, false, false, false, true, true, true)) == 0x8000000080008000
    ensures Packed(SevenBits(true, true, true, true, true, false, false)) == 0x000000000000808b
    ensures Packed(SevenBits(true, false, false, false, false, true, false)) == 0x0000000080000001
  {
  }

  lemma WordsFrom6()
    ensures Packed(SevenBits(true, false, false, true, true, true, true)) == 0x8000000080008081
    ensures Packed(SevenBits(true, false, true, false, true, false, true)) == 0x8000000000008009
    ensures Packed(SevenBits(false, true, true, true, false, false, false)) == 0x000000000000008a
    ensures Packed(SevenBits(false, false, true, true, false, false, false)) == 0x0000000000000088
    ensures Packed(SevenBits(true, false, true, false, true, true, false)) == 0x0000000080008009
    ensures Packed(SevenBits(false, true, true, false, false, true, false)) == 0x000000008000000a
  {
  }

  lemma WordsFrom12()
    ensures Packed(SevenBits(true, true, true, true, true, true, false)) == 0x000000008000808b
    ensures Packed(SevenBits(true, true, true, true, false, false, true)) == 0x800000000000008b
    ensures Packed(SevenBits(true, false, true, true, true, false, true)) == 0x8000000000008089
    ensures Packed(SevenBits(true, true, false, false, true, false, true)) == 0x8000000000008003
    ensures Packed(SevenBits(false, true, false, false, true, false, true)) == 0x8000000000008002
    ensures Packed(SevenBits(false, false, false, true, false, false, true)) == 0x8000000000000080
  {
  }

  lemma WordsFrom18()
    ensures Packed(SevenBits(false, true, true, false, true, false, false)) == 0x000000000000800a
    ensures Packed(SevenBits(false, true, true, false, false, true, true)) == 0x800000008000000a
    ensures Packed(SevenBits(true, false, false, true, true, true, true)) == 0x8000000080008081
    ensures Packed(SevenBits(false, false, false, true, true, false, true)) == 0x8000000000008080
    ensures Packed(SevenBits(true, false, false, false, false, true, false)) == 0x0000000080000001
    ensures Packed(SevenBits(false, false, true, false, true, true, true)) == 0x8000000080008008
  {
  }

  /** The constants listed are those of Algorithms 5 and 6. */
  lemma ConstantsFollowRegister(i: nat)
    requires i < 24
    ensures ROUND_CONSTANTS[i] == RoundConstant(i)
  {
    hide RegisterAfter, RoundRc, Packed;
    RoundsFrom0();
    RoundsFrom3();
    RoundsFrom6();
    RoundsFrom9();
    RoundsFrom12();
    RoundsFrom15();
    RoundsFrom18();
    RoundsFrom21();
    WordsFrom0();
    WordsFrom6();
    WordsFrom12();
    WordsFrom18();
    match i
    case 0 | 1 | 2 | 3 | 4 | 5 | 6 | 7 | 8 | 9 | 10 | 11 =>
    case _ =>
  }
}
