/** Keccak on bit strings, as sections 3 to 5 of FIPS 202 define it without the suffix bits of
    section 6.1, and the program's digest against it. */
module KeccakBits {
  import opened KeccakPermutation
  import opened LaneBits
  import opened Keccak

  // ----- State arrays, section 3.1 -----

  type Bits = seq<bool>

  type StateBits = S: Bits | |S| == 1600 witness seq(1600, _ => false)

  predicate Cell(x: int, y: int, z: int) {
    Coordinates(x, y) && 0 <= z < 64
  }

  /** A[x, y, z] of the string S. */
  function A(S: StateBits, x: int, y: int, z: int): bool
    requires Cell(x, y, z)
  {
    S[64 * (5 * y + x) + z]
  }

  lemma CellOf(i: nat)
    requires i < 1600
    ensures var x, y, z := i / 64 % 5, i / 320, i % 64;
      Cell(x, y, z) && 64 * (5 * y + x) + z == i && 5 * y + x == i / 64 && i / 64 < 25
  {
  }

  function Plus(a: bool, b: bool): bool { a != b }

  // ----- Step mappings, section 3.2 -----

  /** C[x, z] of Algorithm 1. */
  function C(S: StateBits, x: int, z: int): bool
    requires Cell(x, 0, z)
  {
    Plus(A(S, x, 0, z), Plus(A(S, x, 1, z), Plus(A(S, x, 2, z), Plus(A(S, x, 3, z), A(S, x, 4, z)))))
  }

  /** A'[x, y, z] of Algorithm 1. */
  function ThetaCell(S: StateBits, x: int, y: int, z: int): bool
    requires Cell(x, y, z)
  {
    Plus(A(S, x, y, z), Plus(C(S, (x - 1) % 5, z), C(S, (x + 1) % 5, (z - 1) % 64)))
  }

  function ThetaBits(S: StateBits): StateBits {
    seq(1600, i requires 0 <= i < 1600 => CellOf(i); ThetaCell(S, i / 64 % 5, i / 320, i % 64))
  }

  /** The turn of the walk of Algorithm 2 that comes to lane (x, y). */
  ghost function Turn(x: int, y: int): (t: nat)
    requires Coordinates(x, y) && (x, y) != (0, 0)
    ensures t < 24 && Walk(t) == (x, y)
  {
    WalkReaches(x, y);
    var t: nat :| t < 24 && Walk(t) == (x, y);
    t
  }

  /** A'[x, y, z] of Algorithm 2. */
  ghost function RhoCell(S: StateBits, x: int, y: int, z: int): bool
    requires Cell(x, y, z)
  {
    if (x, y) == (0, 0) then A(S, x, y, z)
    else
      var t := Turn(x, y);
      A(S, x, y, (z - (t + 1) * (t + 2) / 2) % 64)
  }

  ghost function RhoBits(S: StateBits): StateBits {
    seq(1600, i requires 0 <= i < 1600 => CellOf(i); RhoCell(S, i / 64 % 5, i / 320, i % 64))
  }

  /** A'[x, y, z] of Algorithm 3. */
  function PiCell(S: StateBits, x: int, y: int, z: int): bool
    requires Cell(x, y, z)
  {
    A(S, (x + 3 * y) % 5, x, z)
  }

  function PiBits(S: StateBits): StateBits {
    seq(1600, i requires 0 <= i < 1600 => CellOf(i); PiCell(S, i / 64 % 5, i / 320, i % 64))
  }

  /** A'[x, y, z] of Algorithm 4. */
  function ChiCell(S: StateBits, x: int, y: int, z: int): bool
    requires Cell(x, y, z)
  {
    Plus(A(S, x, y, z), Plus(A(S, (x + 1) % 5, y, z), true) && A(S, (x + 2) % 5, y, z))
  }

  function ChiBits(S: StateBits): StateBits {
    seq(1600, i requires 0 <= i < 1600 => CellOf(i); ChiCell(S, i / 64 % 5, i / 320, i % 64))
  }

  function TwoTo(j: nat): nat {
    if j == 0 then 1 else 2 * TwoTo(j - 1)
  }

  /** RC[z] of Algorithm 6 in round `i`. */
  predicate RoundBit(i: nat, z: nat) {
    exists j :: 0 <= j <= 6 && z == TwoTo(j) - 1 && Rc(j + 7 * i)
  }

  /** A'[x, y, z] of Algorithm 6. */
  function IotaCell(S: StateBits, i: nat, x: int, y: int, z: int): bool
    requires Cell(x, y, z)
  {
    if (x, y) == (0, 0) then Plus(A(S, x, y, z), RoundBit(i, z)) else A(S, x, y, z)
  }

  function IotaBits(S: StateBits, round: nat): StateBits {
    seq(1600, i requires 0 <= i < 1600 => CellOf(i); IotaCell(S, round, i / 64 % 5, i / 320, i % 64))
  }

  // ----- Keccak-p, section 3.3 -----

  ghost function RoundBits(S: StateBits, i: nat): StateBits {
    IotaBits(ChiBits(PiBits(RhoBits(ThetaBits(S)))), i)
  }

  ghost function RoundsBits(S: StateBits, n: nat): StateBits {
    if n == 0 then S else RoundBits(RoundsBits(S, n - 1), n - 1)
  }

  /** Keccak-f[1600]. */
  ghost function KeccakF(S: StateBits): StateBits {
    RoundsBits(S, 24)
  }

  // ----- The walk comes to every lane -----

  lemma WalkStep(t: nat, x: nat, y: nat)
    requires Coordinates(x, y) && Walk(t) == (x, y)
    ensures Walk(t + 1) == (y, (2 * x + 3 * y) % 5)
  {
  }

  lemma WalkHalf()
    ensures Walk(0) == (1, 0) && Walk(1) == (0, 2) && Walk(2) == (2, 1) && Walk(3) == (1, 2) && Walk(4) == (2, 3)
    ensures Walk(5) == (3, 3) && Walk(6) == (3, 0) && Walk(7) == (0, 1) && Walk(8) == (1, 3) && Walk(9) == (3, 1)
    ensures Walk(10) == (1, 4) && Walk(11) == (4, 4) && Walk(12) == (4, 0)
  {
    WalkStarts();
    hide Walk;
    WalkStep(0, 1, 0);
    WalkStep(1, 0, 2);
    WalkStep(2, 2, 1);
    WalkStep(3, 1, 2);
    WalkStep(4, 2, 3);
    WalkStep(5, 3, 3);
    WalkStep(6, 3, 0);
    WalkStep(7, 0, 1);
    WalkStep(8, 1, 3);
    WalkStep(9, 3, 1);
    WalkStep(10, 1, 4);
    WalkStep(11, 4, 4);
  }

  lemma WalkOn()
    requires Walk(12) == (4, 0)
    ensures Walk(13) == (0, 3) && Walk(14) == (3, 4) && Walk(15) == (4, 3) && Walk(16) == (3, 2) && Walk(17) == (2, 2)
    ensures Walk(18) == (2, 0) && Walk(19) == (0, 4) && Walk(20) == (4, 2) && Walk(21) == (2, 4) && Walk(22) == (4, 1)
    ensures Walk(23) == (1, 1)
  {
    hide Walk;
    WalkStep(12, 4, 0);
    WalkStep(13, 0, 3);
    WalkStep(14, 3, 4);
    WalkStep(15, 4, 3);
    WalkStep(16, 3, 2);
    WalkStep(17, 2, 2);
    WalkStep(18, 2, 0);
    WalkStep(19, 0, 4);
    WalkStep(20, 4, 2);
    WalkStep(21, 2, 4);
    WalkStep(22, 4, 1);
  }

  lemma WalkReaches(x: nat, y: nat)
    requires Coordinates(x, y) && (x, y) != (0, 0)
    ensures exists t: nat :: t < 24 && Walk(t) == (x, y)
  {
    hide Walk;
    WalkHalf();
    WalkOn();
  }

  // ----- The program's lanes as bits -----

  /** The bits of a state, lane after lane. */
  function Image(s: State): StateBits {
    seq(1600, i requires 0 <= i < 1600 => BitAt(s[i / 64], i % 64))
  }

  lemma ImageAt(s: State, x: nat, y: nat, z: nat)
    requires Cell(x, y, z)
    ensures A(Image(s), x, y, z) == BitAt(At(s, x, y), z)
  {
    hide BitAt;
    var i := 64 * (5 * y + x) + z;
    assert i / 64 == 5 * y + x && i % 64 == z;
  }

  lemma SameBits(S: StateBits, T: StateBits)
    requires forall x, y, z :: Cell(x, y, z) ==> A(S, x, y, z) == A(T, x, y, z)
    ensures S == T
  {
    forall i | 0 <= i < 1600
      ensures S[i] == T[i]
    {
      CellOf(i);
      assert A(S, i / 64 % 5, i / 320, i % 64) == A(T, i / 64 % 5, i / 320, i % 64);
    }
  }

  lemma IndexOf(x: nat, y: nat, z: nat)
    requires Cell(x, y, z)
    ensures var i := 64 * (5 * y + x) + z;
      i < 1600 && i / 64 % 5 == x && i / 320 == y && i % 64 == z
  {
  }

  lemma ParityBit(s: State, x: nat, z: nat)
    requires Cell(x, 0, z)
    ensures BitAt(ColumnParity(s, x), z) == C(Image(s), x, z)
  {
    hide Xor, BitAt, Image, A;
    ImageAt(s, x, 0, z);
    ImageAt(s, x, 1, z);
    ImageAt(s, x, 2, z);
    ImageAt(s, x, 3, z);
    ImageAt(s, x, 4, z);
    var a, b, c, d, e := At(s, x, 0), At(s, x, 1), At(s, x, 2), At(s, x, 3), At(s, x, 4);
    XorBit(a, b, z);
    XorBit(Xor(a, b), c, z);
    XorBit(Xor(Xor(a, b), c), d, z);
    XorBit(Xor(Xor(Xor(a, b), c), d), e, z);
  }

  lemma EffectBit(s: State, x: nat, z: nat)
    requires Cell(x, 0, z)
    ensures BitAt(ThetaEffect(s, x), z) ==
            Plus(C(Image(s), (x - 1) % 5, z), C(Image(s), (x + 1) % 5, (z - 1) % 64))
  {
    hide Xor, BitAt, Image, ColumnParity, RotateLeft, C;
    var l, r := Mod5(x + 4), Mod5(x + 1);
    XorBit(ColumnParity(s, l), RotateLeft(ColumnParity(s, r), 1), z);
    RotatedOnce(ColumnParity(s, r), z);
    ParityBit(s, l, z);
    ParityBit(s, r, Source(z, 1));
  }

  lemma ThetaLane(s: State, x: nat, y: nat)
    requires Coordinates(x, y)
    ensures At(Theta(s), x, y) == Xor(At(s, x, y), ThetaEffect(s, x))
  {
    hide Xor, ThetaEffect;
    assert (x + 5 * y) % 5 == x;
  }

  lemma ThetaAt(s: State, x: nat, y: nat, z: nat)
    requires Cell(x, y, z)
    ensures A(Image(Theta(s)), x, y, z) == ThetaCell(Image(s), x, y, z)
  {
    hide Xor, BitAt, Image, A, C, Theta, ThetaEffect;
    ImageAt(Theta(s), x, y, z);
    ImageAt(s, x, y, z);
    ThetaLane(s, x, y);
    XorBit(At(s, x, y), ThetaEffect(s, x), z);
    EffectBit(s, x, z);
  }

  lemma ThetaMatches(s: State)
    ensures Image(Theta(s)) == ThetaBits(Image(s))
  {
    hide Image, Theta, ThetaCell;
    forall x, y, z | Cell(x, y, z)
      ensures A(Image(Theta(s)), x, y, z) == A(ThetaBits(Image(s)), x, y, z)
    {
      ThetaAt(s, x, y, z);
      IndexOf(x, y, z);
    }
    SameBits(Image(Theta(s)), ThetaBits(Image(s)));
  }

  lemma TableRotates(i: nat, a: Lane, z: nat)
    requires i < 25 && z < 64
    ensures BitAt(Rotated(a, RhoOffset(i)), z) == BitAt(a, Source(z, RhoOffset(i)))
  {
    hide BitAt, RotateLeft;
    AllRotate();
  }

  lemma Backwards(z: nat, n: nat)
    requires z < 64
    ensures (z - n) % 64 == Source(z, n % 64)
  {
  }

  lemma RhoAt(s: State, x: nat, y: nat, z: nat)
    requires Cell(x, y, z)
    ensures A(Image(Rho(s)), x, y, z) == RhoCell(Image(s), x, y, z)
  {
    hide BitAt, Image, A, Rotated, Walk, OffsetFollowsWalk, RhoOffset;
    var i := x + 5 * y;
    ImageAt(Rho(s), x, y, z);
    TableRotates(i, s[i], z);
    ImageAt(s, x, y, Source(z, RhoOffset(i)));
    if (x, y) == (0, 0) {
      OriginStays();
    } else {
      TurnOffset(x, y);
      var t := Turn(x, y);
      Backwards(z, (t + 1) * (t + 2) / 2);
    }
  }

  lemma OriginStays()
    ensures RhoOffset(0) == 0
  {
  }

  lemma TurnOffset(x: nat, y: nat)
    requires Coordinates(x, y) && (x, y) != (0, 0)
    ensures var t := Turn(x, y); RhoOffset(x + 5 * y) == (t + 1) * (t + 2) / 2 % 64
  {
    hide Walk, RhoOffset;
    OffsetsFollowWalk(Turn(x, y));
  }

  lemma RhoMatches(s: State)
    ensures Image(Rho(s)) == RhoBits(Image(s))
  {
    hide Image, Rho, RhoCell;
    forall x, y, z | Cell(x, y, z)
      ensures A(Image(Rho(s)), x, y, z) == A(RhoBits(Image(s)), x, y, z)
    {
      RhoAt(s, x, y, z);
      IndexOf(x, y, z);
    }
    SameBits(Image(Rho(s)), RhoBits(Image(s)));
  }

  lemma PiAt(s: State, x: nat, y: nat, z: nat)
    requires Cell(x, y, z)
    ensures A(Image(Pi(s)), x, y, z) == PiCell(Image(s), x, y, z)
  {
    hide BitAt, Image, A;
    ImageAt(Pi(s), x, y, z);
    ImageAt(s, (x + 3 * y) % 5, x, z);
    assert (x + 5 * y) % 5 == x && (x + 5 * y) / 5 == y;
  }

  lemma PiMatches(s: State)
    ensures Image(Pi(s)) == PiBits(Image(s))
  {
    hide Image, Pi, PiCell;
    forall x, y, z | Cell(x, y, z)
      ensures A(Image(Pi(s)), x, y, z) == A(PiBits(Image(s)), x, y, z)
    {
      PiAt(s, x, y, z);
      IndexOf(x, y, z);
    }
    SameBits(Image(Pi(s)), PiBits(Image(s)));
  }

  lemma ChiAt(s: State, x: nat, y: nat, z: nat)
    requires Cell(x, y, z)
    ensures A(Image(Chi(s)), x, y, z) == ChiCell(Image(s), x, y, z)
  {
    hide BitAt, Image, A, Xor, AndNot, At;
    ImageAt(Chi(s), x, y, z);
    ChiLaneAt(s, x, y);
    hide Chi;
    var one, two := Mod5(x + 1), Mod5(x + 2);
    ImageAt(s, x, y, z);
    ImageAt(s, one, y, z);
    ImageAt(s, two, y, z);
    AndNotBit(At(s, two, y), At(s, one, y), z);
    XorBit(At(s, x, y), AndNot(At(s, two, y), At(s, one, y)), z);
  }

  lemma ChiLaneAt(s: State, x: nat, y: nat)
    requires Coordinates(x, y)
    ensures At(Chi(s), x, y) == ChiLane(s, x, y)
  {
    hide ChiLane;
    assert (x + 5 * y) % 5 == x && (x + 5 * y) / 5 == y;
  }

  lemma ChiMatches(s: State)
    ensures Image(Chi(s)) == ChiBits(Image(s))
  {
    hide Image, Chi, ChiCell;
    forall x, y, z | Cell(x, y, z)
      ensures A(Image(Chi(s)), x, y, z) == A(ChiBits(Image(s)), x, y, z)
    {
      ChiAt(s, x, y, z);
      IndexOf(x, y, z);
    }
    SameBits(Image(Chi(s)), ChiBits(Image(s)));
  }

  // ----- The round constants -----

  lemma TermBit(on: bool, value: bv64, k: nat, z: nat)
    requires Single(Lane(value), k)
    ensures BitAt(Lane(Bit(on, value)), z) == (on && z == k)
  {
    hide BitAt;
    ZeroBit(z);
  }

  lemma JoinIs(v: bv64, w: bv64)
    ensures Lane(Join(v, w)) == Or(Lane(v), Lane(w))
  {
  }

  lemma JoinBit(v: bv64, w: bv64, z: nat)
    ensures BitAt(Lane(Join(v, w)), z) == (BitAt(Lane(v), z) || BitAt(Lane(w), z))
  {
    hide BitAt, Or, Join;
    JoinIs(v, w);
    OrBit(Lane(v), Lane(w), z);
  }

  function HighTerms(b: SevenBits): bv64 {
    Join(Bit(b.b3, 0x80), Join(Bit(b.b4, 0x8000), Join(Bit(b.b5, 0x80000000), Bit(b.b6, 0x8000000000000000))))
  }

  lemma HighTermsBit(b: SevenBits, z: nat)
    ensures BitAt(Lane(HighTerms(b)), z) <==>
      (b.b3 && z == 7) || (b.b4 && z == 15) || (b.b5 && z == 31) || (b.b6 && z == 63)
  {
    Singles();
    hide BitAt, Bit, Single, Join;
    var w5 := Join(Bit(b.b5, 0x80000000), Bit(b.b6, 0x8000000000000000));
    JoinBit(Bit(b.b3, 0x80), Join(Bit(b.b4, 0x8000), w5), z);
    JoinBit(Bit(b.b4, 0x8000), w5, z);
    JoinBit(Bit(b.b5, 0x80000000), Bit(b.b6, 0x8000000000000000), z);
    TermBit(b.b3, 0x80, 7, z);
    TermBit(b.b4, 0x8000, 15, z);
    TermBit(b.b5, 0x80000000, 31, z);
    TermBit(b.b6, 0x8000000000000000, 63, z);
  }

  lemma PackedSplits(b: SevenBits)
    ensures Packed(b) == Join(Bit(b.b0, 1), Join(Bit(b.b1, 2), Join(Bit(b.b2, 8), HighTerms(b))))
  {
    hide Bit, Join;
  }

  lemma PackedBit(b: SevenBits, z: nat)
    ensures BitAt(Lane(Packed(b)), z) <==>
      (b.b0 && z == 0) || (b.b1 && z == 1) || (b.b2 && z == 3) || (b.b3 && z == 7) || (b.b4 && z == 15) ||
      (b.b5 && z == 31) || (b.b6 && z == 63)
  {
    Singles();
    PackedSplits(b);
    hide BitAt, Bit, Single, Join, HighTerms, Packed;
    var w2 := Join(Bit(b.b2, 8), HighTerms(b));
    JoinBit(Bit(b.b0, 1), Join(Bit(b.b1, 2), w2), z);
    JoinBit(Bit(b.b1, 2), w2, z);
    JoinBit(Bit(b.b2, 8), HighTerms(b), z);
    TermBit(b.b0, 1, 0, z);
    TermBit(b.b1, 2, 1, z);
    TermBit(b.b2, 8, 3, z);
    HighTermsBit(b, z);
  }

  lemma Powers()
    ensures TwoTo(0) == 1 && TwoTo(1) == 2 && TwoTo(2) == 4 && TwoTo(3) == 8 && TwoTo(4) == 16 && TwoTo(5) == 32 &&
            TwoTo(6) == 64
  {
    assert TwoTo(2) == 4;
    assert TwoTo(4) == 16;
  }

  lemma RoundConstantBit(i: nat, z: nat)
    ensures BitAt(Lane(RoundConstant(i)), z) == RoundBit(i, z)
  {
    hide BitAt, Rc, Packed, RoundBit;
    PackedBit(RoundRc(i), z);
    RoundBitIs(i, z);
  }

  /** RC of Algorithm 6, bit by bit. */
  lemma ConstantBit(i: nat, z: nat)
    requires i < 24
    ensures BitAt(Lane(ROUND_CONSTANTS[i]), z) == RoundBit(i, z)
  {
    hide BitAt, RoundBit, RoundConstant;
    ConstantsFollowRegister(i);
    RoundConstantBit(i, z);
  }

  lemma RoundBitIs(i: nat, z: nat)
    ensures RoundBit(i, z) <==>
      (Rc(7 * i) && z == 0) || (Rc(7 * i + 1) && z == 1) || (Rc(7 * i + 2) && z == 3) || (Rc(7 * i + 3) && z == 7) ||
      (Rc(7 * i + 4) && z == 15) || (Rc(7 * i + 5) && z == 31) || (Rc(7 * i + 6) && z == 63)
  {
    Powers();
    hide Rc, TwoTo;
    if Rc(7 * i) && z == 0 { assert z == TwoTo(0) - 1 && Rc(0 + 7 * i); }
    if Rc(7 * i + 1) && z == 1 { assert z == TwoTo(1) - 1 && Rc(1 + 7 * i); }
    if Rc(7 * i + 2) && z == 3 { assert z == TwoTo(2) - 1 && Rc(2 + 7 * i); }
    if Rc(7 * i + 3) && z == 7 { assert z == TwoTo(3) - 1 && Rc(3 + 7 * i); }
    if Rc(7 * i + 4) && z == 15 { assert z == TwoTo(4) - 1 && Rc(4 + 7 * i); }
    if Rc(7 * i + 5) && z == 31 { assert z == TwoTo(5) - 1 && Rc(5 + 7 * i); }
    if Rc(7 * i + 6) && z == 63 { assert z == TwoTo(6) - 1 && Rc(6 + 7 * i); }
  }

  lemma IotaAt(s: State, i: nat, x: nat, y: nat, z: nat)
    requires i < 24 && Cell(x, y, z)
    ensures A(Image(Iota(s, ROUND_CONSTANTS[i])), x, y, z) == IotaCell(Image(s), i, x, y, z)
  {
    hide BitAt, Image, A, Xor, RoundBit;
    ImageAt(Iota(s, ROUND_CONSTANTS[i]), x, y, z);
    ImageAt(s, x, y, z);
    XorBit(s[0], Lane(ROUND_CONSTANTS[i]), z);
    ConstantBit(i, z);
  }

  lemma IotaMatches(s: State, i: nat)
    requires i < 24
    ensures Image(Iota(s, ROUND_CONSTANTS[i])) == IotaBits(Image(s), i)
  {
    hide Image, Iota, IotaCell;
    var t := Iota(s, ROUND_CONSTANTS[i]);
    forall x, y, z | Cell(x, y, z)
      ensures A(Image(t), x, y, z) == A(IotaBits(Image(s), i), x, y, z)
    {
      IotaAt(s, i, x, y, z);
      IndexOf(x, y, z);
    }
    SameBits(Image(t), IotaBits(Image(s), i));
  }

  // ----- Rounds -----

  lemma RoundMatches(s: State, i: nat)
    requires i < 24
    ensures Image(Round(s, ROUND_CONSTANTS[i])) == RoundBits(Image(s), i)
  {
    hide Image, Theta, Rho, Pi, Chi, Iota, ThetaBits, RhoBits, PiBits, ChiBits, IotaBits;
    ThetaMatches(s);
    RhoMatches(Theta(s));
    PiMatches(Rho(Theta(s)));
    ChiMatches(Pi(Rho(Theta(s))));
    IotaMatches(Chi(Pi(Rho(Theta(s)))), i);
  }

  lemma {:induction false} RoundsMatch(s: State, n: nat)
    requires n <= 24
    ensures Image(Rounds(s, ROUND_CONSTANTS[..n])) == RoundsBits(Image(s), n)
  {
    hide Image, Round, RoundBits;
    if n > 0 {
      RoundsMatch(s, n - 1);
      assert ROUND_CONSTANTS[..n][..n - 1] == ROUND_CONSTANTS[..n - 1];
      RoundMatches(Rounds(s, ROUND_CONSTANTS[..n - 1]), n - 1);
    }
  }

  /** The permutation of the program is Keccak-f[1600], bit for bit. */
  lemma PermutationMatches(s: State)
    ensures Image(Permutation(s)) == KeccakF(Image(s))
  {
    hide Image, Rounds, RoundsBits;
    RoundsMatch(s, 24);
    assert ROUND_CONSTANTS[..24] == ROUND_CONSTANTS;
  }
}
