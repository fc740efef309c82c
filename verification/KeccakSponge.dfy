/** The sponge on bit strings, sections 4 and 5.1 of FIPS 202, and the digest of the program
    against it. */
module KeccakSponge {
  import opened KeccakPermutation
  import opened LaneBits
  import opened Keccak
  import opened KeccakBits

  // ----- The sponge -----

  function XorBits(a: Bits, b: Bits): Bits
    requires |a| == |b|
  {
    seq(|a|, i requires 0 <= i < |a| => Plus(a[i], b[i]))
  }

  /** pad10*1(x, m) of Algorithm 9. */
  function Pad101(x: int, m: int): Bits
    requires x > 0
  {
    [true] + Falses((-m - 2) % x) + [true]
  }

  /** The rate for digests of `d` bits: the capacity is twice the digest. */
  function RateFor(d: nat): (r: nat)
    requires Variant(d)
    ensures r == 1152 || r == 1088 || r == 832 || r == 576
  {
    1600 - 2 * d
  }

  /** Steps 5 and 6 of Algorithm 8: every r bits are added to the state and permuted with it. */
  ghost function AbsorbBits(S: StateBits, P: Bits, d: nat): StateBits
    requires Variant(d) && |P| % RateFor(d) == 0
    decreases |P|
  {
    if P == [] then S
    else
      var n := |P| - RateFor(d);
      KeccakF(XorBits(AbsorbBits(S, P[..n], d), P[n..] + Falses(1600 - RateFor(d))))
  }

  lemma PadFills(m: nat, d: nat)
    requires Variant(d)
    ensures (m + |Pad101(RateFor(d), m)|) % RateFor(d) == 0
  {
    if d == 224 {} else if d == 256 {} else if d == 384 {} else {}
  }

  /** Keccak[2d](N, d) of section 5.2: the first d bits of the state once the padded message has
      been absorbed. */
  ghost function KeccakOf(N: Bits, d: nat): Bits
    requires Variant(d)
  {
    PadFills(|N|, d);
    AbsorbBits(Falses(1600), N + Pad101(RateFor(d), |N|), d)[..d]
  }

  // ----- Hexadecimal, appendix B.1 -----

  /** The bits of a hexadecimal digit, the lowest first. */
  function Nibble(c: char): Bits {
    match c
    case '0' => [false, false, false, false]
    case '1' => [true, false, false, false]
    case '2' => [false, true, false, false]
    case '3' => [true, true, false, false]
    case '4' => [false, false, true, false]
    case '5' => [true, false, true, false]
    case '6' => [false, true, true, false]
    case '7' => [true, true, true, false]
    case '8' => [false, false, false, true]
    case '9' => [true, false, false, true]
    case 'a' => [false, true, false, true]
    case 'b' => [true, true, false, true]
    case 'c' => [false, false, true, true]
    case 'd' => [true, false, true, true]
    case 'e' => [false, true, true, true]
    case 'f' => [true, true, true, true]
    case _ => []
  }

  /** The bit string of a hexadecimal one: of each byte the high digit is written first and the
      low bit comes first. */
  function BitsOfHex(h: string): Bits {
    if |h| < 2 then [] else BitsOfHex(h[..|h| - 2]) + (Nibble(h[|h| - 1]) + Nibble(h[|h| - 2]))
  }

  lemma NibbleOf(v: bv8)
    requires v < 16
    ensures v as int < 16 && Nibble(DIGITS[v as int]) == [v & 1 != 0, v & 2 != 0, v & 4 != 0, v & 8 != 0]
  {
    match v
    case 0 | 1 | 2 | 3 | 4 | 5 | 6 | 7 =>
    case 8 | 9 | 10 | 11 | 12 | 13 | 14 =>
    case _ =>
  }

  lemma NibblesOfByte(b: bv8)
    ensures b >> 4 < 16 && b & 15 < 16
    ensures BitsOfByte(b) ==
      [b & 15 & 1 != 0, b & 15 & 2 != 0, b & 15 & 4 != 0, b & 15 & 8 != 0] +
      [(b >> 4) & 1 != 0, (b >> 4) & 2 != 0, (b >> 4) & 4 != 0, (b >> 4) & 8 != 0]
  {
  }

  lemma HexBits(b: bv8)
    ensures |Hex(b)| == 2 && Nibble(Hex(b)[1]) + Nibble(Hex(b)[0]) == BitsOfByte(b)
  {
    hide Nibble, BitsOfByte;
    NibblesOfByte(b);
    NibbleOf(b >> 4);
    NibbleOf(b & 15);
  }

  // ----- Bytes as bits -----

  lemma {:induction false} BitsOfAt(m: Bytes, i: nat)
    requires i < 8 * |m|
    ensures |BitsOf(m)| == 8 * |m| && BitsOf(m)[i] == BitsOfByte(m[i / 8])[i % 8]
  {
    hide BitsOfByte;
    var n := |m| - 1;
    BitsOfLength(m[..n]);
    if i < 8 * n {
      BitsOfAt(m[..n], i);
    }
  }

  lemma {:induction false} BitsOfLength(m: Bytes)
    ensures |BitsOf(m)| == 8 * |m|
  {
    if m != [] {
      BitsOfLength(m[..|m| - 1]);
    }
  }

  lemma WideByte(b: bv8)
    ensures var w := Lane(b as bv64);
      Byte(w) == ZERO && BitsOfByte(b) ==
      [w.bits & 1 != 0, w.bits & 2 != 0, w.bits & 4 != 0, w.bits & 8 != 0,
       w.bits & 16 != 0, w.bits & 32 != 0, w.bits & 64 != 0, w.bits & 128 != 0]
  {
  }

  /** The bits of `w` are those of a byte, at byte `k`. */
  ghost predicate Placed(w: bv64, bits: Bits, k: nat)
    requires |bits| == 8
  {
    forall z: nat :: BitAt(Lane(w), z) == (8 * k <= z < 8 * k + 8 && bits[z - 8 * k])
  }

  lemma PlacedLow(b: bv8)
    ensures Placed(b as bv64, BitsOfByte(b), 0)
  {
    var w := Lane(b as bv64);
    WideByte(b);
    LowBits(w);
    hide BitAt, Byte, BitsOfByte;
    forall z: nat
      ensures BitAt(w, z) == (z < 8 && BitsOfByte(b)[z])
    {
      if z >= 8 {
        ByteBit(w, z - 8);
        ZeroBit(z - 8);
      }
    }
  }

  lemma PlacedUp(v: bv64, w: bv64, bits: Bits, k: nat)
    requires |bits| == 8 && w == v << 8 && v == w >> 8 && Placed(v, bits, k)
    ensures Placed(w, bits, k + 1)
  {
    ByteUp(v, w);
    LowBits(Lane(w));
    LowClear(Lane(w));
    hide BitAt, Byte;
    forall z: nat
      ensures BitAt(Lane(w), z) == (8 * (k + 1) <= z < 8 * (k + 1) + 8 && bits[z - 8 * (k + 1)])
    {
      if z >= 8 {
        ByteBit(Lane(w), z - 8);
      }
    }
  }

  lemma ShiftedBytes(b: bv8)
    ensures var w := b as bv64;
      (w << 8) >> 8 == w && w << 16 == (w << 8) << 8 && (w << 16) >> 8 == w << 8 &&
      w << 24 == (w << 16) << 8 && (w << 24) >> 8 == w << 16 &&
      w << 32 == (w << 24) << 8 && (w << 32) >> 8 == w << 24 &&
      w << 40 == (w << 32) << 8 && (w << 40) >> 8 == w << 32 &&
      w << 48 == (w << 40) << 8 && (w << 48) >> 8 == w << 40 &&
      w << 56 == (w << 48) << 8 && (w << 56) >> 8 == w << 48
  {
  }

  /** Where each of eight bytes ends up. */
  lemma PlacedBytes(b: bv8)
    ensures var w, bits := b as bv64, BitsOfByte(b);
      Placed(w, bits, 0) && Placed(w << 8, bits, 1) && Placed(w << 16, bits, 2) && Placed(w << 24, bits, 3) &&
      Placed(w << 32, bits, 4) && Placed(w << 40, bits, 5) && Placed(w << 48, bits, 6) && Placed(w << 56, bits, 7)
  {
    hide Placed, BitsOfByte;
    var w, bits := b as bv64, BitsOfByte(b);
    PlacedLow(b);
    ShiftedBytes(b);
    PlacedUp(w, w << 8, bits, 0);
    PlacedUp(w << 8, w << 16, bits, 1);
    PlacedUp(w << 16, w << 24, bits, 2);
    PlacedUp(w << 24, w << 32, bits, 3);
    PlacedUp(w << 32, w << 40, bits, 4);
    PlacedUp(w << 40, w << 48, bits, 5);
    PlacedUp(w << 48, w << 56, bits, 6);
  }

  lemma PlacedAt(w: bv64, bits: Bits, k: nat, z: nat)
    requires |bits| == 8 && Placed(w, bits, k)
    ensures BitAt(Lane(w), z) == (z / 8 == k && bits[z % 8])
  {
    hide BitAt;
  }

  function JoinAll(w: seq<bv64>): bv64
    requires |w| == 8
  {
    Join(w[0], Join(w[1], Join(w[2], Join(w[3], Join(w[4], Join(w[5], Join(w[6], w[7])))))))
  }

  lemma JoinFourBit(a: bv64, b: bv64, c: bv64, d: bv64, z: nat)
    ensures BitAt(Lane(Join(a, Join(b, Join(c, d)))), z) <==>
      BitAt(Lane(a), z) || BitAt(Lane(b), z) || BitAt(Lane(c), z) || BitAt(Lane(d), z)
  {
    hide BitAt, Join;
    JoinBit(a, Join(b, Join(c, d)), z);
    JoinBit(b, Join(c, d), z);
    JoinBit(c, d, z);
  }

  lemma JoinAllBit(w: seq<bv64>, z: nat)
    requires |w| == 8
    ensures BitAt(Lane(JoinAll(w)), z) <==>
      BitAt(Lane(w[0]), z) || BitAt(Lane(w[1]), z) || BitAt(Lane(w[2]), z) || BitAt(Lane(w[3]), z) ||
      BitAt(Lane(w[4]), z) || BitAt(Lane(w[5]), z) || BitAt(Lane(w[6]), z) || BitAt(Lane(w[7]), z)
  {
    hide BitAt, Join;
    var last := Join(w[6], w[7]);
    JoinFourBit(w[0], w[1], w[2], Join(w[3], Join(w[4], Join(w[5], last))), z);
    JoinFourBit(w[3], w[4], w[5], last, z);
    JoinBit(w[6], w[7], z);
  }

  /** Eight bytes, each at its place. */
  function Words(b: Bytes): seq<bv64>
    requires |b| == 8
  {
    [b[0] as bv64, b[1] as bv64 << 8, b[2] as bv64 << 16, b[3] as bv64 << 24, b[4] as bv64 << 32, b[5] as bv64 << 40,
     b[6] as bv64 << 48, b[7] as bv64 << 56]
  }

  lemma WordsPlaced(b: Bytes)
    requires |b| == 8
    ensures var w := Words(b);
      Placed(w[0], BitsOfByte(b[0]), 0) && Placed(w[1], BitsOfByte(b[1]), 1) && Placed(w[2], BitsOfByte(b[2]), 2) &&
      Placed(w[3], BitsOfByte(b[3]), 3) && Placed(w[4], BitsOfByte(b[4]), 4) && Placed(w[5], BitsOfByte(b[5]), 5) &&
      Placed(w[6], BitsOfByte(b[6]), 6) && Placed(w[7], BitsOfByte(b[7]), 7)
  {
    hide Placed, BitsOfByte;
    PlacedBytes(b[0]);
    PlacedBytes(b[1]);
    PlacedBytes(b[2]);
    PlacedBytes(b[3]);
    PlacedBytes(b[4]);
    PlacedBytes(b[5]);
    PlacedBytes(b[6]);
    PlacedBytes(b[7]);
  }

  lemma WordsBit(b: Bytes, z: nat)
    requires |b| == 8 && z < 64
    ensures BitAt(Lane(JoinAll(Words(b))), z) == BitsOfByte(b[z / 8])[z % 8]
  {
    hide BitAt, JoinAll, BitsOfByte, Placed, Words;
    var w := Words(b);
    WordsLength(b);
    JoinAllBit(w, z);
    WordsPlaced(b);
    forall k | 0 <= k < 8
      ensures BitAt(Lane(w[k]), z) == (z / 8 == k && BitsOfByte(b[k])[z % 8])
    {
      assert Placed(w[k], BitsOfByte(b[k]), k);
      PlacedAt(w[k], BitsOfByte(b[k]), k, z);
    }
  }

  lemma WordsLength(b: Bytes)
    requires |b| == 8
    ensures |Words(b)| == 8
  {
  }

  lemma LaneIsWords(block: Bytes, i: nat)
    requires 8 * i + 8 <= |block|
    ensures LaneOf(block, i) == Lane(JoinAll(Words(block[8 * i..8 * i + 8])))
  {
    hide Join;
  }

  /** The bits of a lane are those of its eight bytes, in order. */
  lemma LaneBit(block: Bytes, i: nat, z: nat)
    requires 8 * i + 8 <= |block| && z < 64
    ensures BitAt(LaneOf(block, i), z) == BitsOfByte(block[8 * i + z / 8])[z % 8]
  {
    hide BitAt, LaneOf, JoinAll, Words, BitsOfByte;
    LaneIsWords(block, i);
    WordsBit(block[8 * i..8 * i + 8], z);
  }

  // ----- Absorbing -----

  lemma MixedAt(s: State, block: Bytes, i: nat)
    requires Rate(|block|) && i < 1600
    ensures |BitsOf(block)| == 8 * |block| <= 1600
    ensures Image(Mixed(s, block))[i] == Plus(Image(s)[i], (BitsOf(block) + Falses(1600 - 8 * |block|))[i])
  {
    hide BitAt, LaneOf, Xor, BitsOf, BitsOfByte;
    BitsOfLength(block);
    var k, z := i / 64, i % 64;
    if i < 8 * |block| {
      assert 8 * k + 8 <= |block| && 8 * k + z / 8 == i / 8 && z % 8 == i % 8;
      XorBit(s[k], LaneOf(block, k), z);
      LaneBit(block, k, z);
      BitsOfAt(block, i);
    } else {
      assert 8 * k >= |block|;
    }
  }

  lemma MixedMatches(s: State, block: Bytes)
    requires Rate(|block|)
    ensures |BitsOf(block)| == 8 * |block| <= 1600
    ensures Image(Mixed(s, block)) == XorBits(Image(s), BitsOf(block) + Falses(1600 - 8 * |block|))
  {
    hide Image, Mixed, BitsOf;
    BitsOfLength(block);
    forall i | 0 <= i < 1600
      ensures Image(Mixed(s, block))[i] == XorBits(Image(s), BitsOf(block) + Falses(1600 - 8 * |block|))[i]
    {
      MixedAt(s, block, i);
    }
  }

  lemma AbsorbMatches(s: State, block: Bytes)
    requires Rate(|block|)
    ensures |BitsOf(block)| == 8 * |block| <= 1600
    ensures Image(Absorb(s, block)) == KeccakF(XorBits(Image(s), BitsOf(block) + Falses(1600 - 8 * |block|)))
  {
    hide Image, Mixed, BitsOf, Permutation, KeccakF, XorBits;
    MixedMatches(s, block);
    PermutationMatches(Mixed(s, block));
  }

  lemma RateInBits(d: nat)
    requires Variant(d)
    ensures RateFor(d) == 8 * BlockSize(d)
  {
  }

  lemma OneRateLess(x: int, d: nat)
    requires Variant(d)
    ensures x % RateFor(d) == (x - RateFor(d)) % RateFor(d)
  {
    if d == 224 {} else if d == 256 {} else if d == 384 {} else {}
  }

  lemma {:induction false} BlocksInBits(n: nat, d: nat)
    requires Variant(d) && WholeBlocks(n, BlockSize(d))
    ensures 8 * n % RateFor(d) == 0
    decreases n
  {
    RateInBits(d);
    hide RateFor, BlockSize;
    if n > 0 {
      BlocksInBits(n - BlockSize(d), d);
      OneRateLess(8 * n, d);
    }
  }

  lemma BitsOfParts(m: Bytes, n: nat)
    requires n <= |m|
    ensures |BitsOf(m)| == 8 * |m| && BitsOf(m)[..8 * n] == BitsOf(m[..n]) && BitsOf(m)[8 * n..] == BitsOf(m[n..])
  {
    hide BitsOf;
    BitsOfConcat(m[..n], m[n..]);
    assert m == m[..n] + m[n..];
    BitsOfLength(m[..n]);
    BitsOfLength(m[n..]);
  }

  lemma {:induction false} AbsorbAllMatches(s: State, m: Bytes, d: nat)
    requires Variant(d) && WholeBlocks(|m|, BlockSize(d))
    ensures |BitsOf(m)| % RateFor(d) == 0
    ensures Image(AbsorbAll(s, m, BlockSize(d))) == AbsorbBits(Image(s), BitsOf(m), d)
    decreases |m|
  {
    hide Image, Absorb, BitsOf, KeccakF, XorBits, RateFor, BlockSize;
    BitsOfLength(m);
    BlocksInBits(|m|, d);
    if m == [] {
    } else {
      var n := |m| - BlockSize(d);
      RateInBits(d);
      AbsorbAllMatches(s, m[..n], d);
      BitsOfParts(m, n);
      AbsorbMatches(AbsorbAll(s, m[..n], BlockSize(d)), m[n..]);
    }
  }

  // ----- Padding and output -----

  lemma BelowOneRate(x: int, d: nat)
    requires Variant(d) && 0 < x <= RateFor(d)
    ensures (-x) % RateFor(d) == RateFor(d) - x
  {
    if d == 224 {} else if d == 256 {} else if d == 384 {} else {}
  }

  lemma {:induction false} MissingIs(n: nat, d: nat)
    requires Variant(d)
    ensures 8 * Missing(n, BlockSize(d)) - 2 == (-(8 * n) - 2) % RateFor(d)
    decreases n
  {
    RateInBits(d);
    hide RateFor, BlockSize;
    if n >= BlockSize(d) {
      MissingIs(n - BlockSize(d), d);
      OneRateLess(-(8 * (n - BlockSize(d))) - 2, d);
    } else {
      BelowOneRate(8 * n + 2, d);
    }
  }

  lemma PaddedMatches(m: Bytes, d: nat)
    requires Variant(d)
    ensures BitsOf(Padded(m, BlockSize(d))) == BitsOf(m) + Pad101(RateFor(d), |BitsOf(m)|)
  {
    hide BitsOf, Missing, Padded, RateFor, BlockSize;
    PaddedIsPad101(m, BlockSize(d));
    BitsOfLength(m);
    MissingIs(|m|, d);
  }

  lemma ZeroImage()
    ensures Image(ZeroState()) == Falses(1600)
  {
    hide BitAt;
    forall i | 0 <= i < 1600
      ensures !Image(ZeroState())[i]
    {
      ZeroBit(i % 64);
    }
  }

  lemma Drop8(w: bv64)
    ensures Dropped(w, 8) == Dropped(w, 0) >> 8
  {
  }

  lemma Drop16(w: bv64)
    ensures Dropped(w, 16) == Dropped(w, 8) >> 8
  {
  }

  lemma Drop24(w: bv64)
    ensures Dropped(w, 24) == Dropped(w, 16) >> 8
  {
  }

  lemma Drop32(w: bv64)
    ensures Dropped(w, 32) == Dropped(w, 24) >> 8
  {
  }

  lemma Drop40(w: bv64)
    ensures Dropped(w, 40) == Dropped(w, 32) >> 8
  {
  }

  lemma Drop48(w: bv64)
    ensures Dropped(w, 48) == Dropped(w, 40) >> 8
  {
  }

  lemma Drop56(w: bv64)
    ensures Dropped(w, 56) == Dropped(w, 48) >> 8
  {
  }

  lemma DropNone(w: bv64)
    ensures Dropped(w, 0) == w
  {
  }

  lemma NextLane(v: bv64, w: bv64)
    requires w == v >> 8
    ensures Lane(w) == Byte(Lane(v))
  {
  }

  lemma DroppedNext(w: bv64, j: nat)
    requires 0 < j < 8
    ensures Dropped(w, 8 * (j as bv8)) == Dropped(w, 8 * ((j - 1) as bv8)) >> 8
  {
    hide Dropped;
    match j
    case 1 => Drop8(w);
    case 2 => Drop16(w);
    case 3 => Drop24(w);
    case 4 => Drop32(w);
    case 5 => Drop40(w);
    case 6 => Drop48(w);
    case _ => Drop56(w);
  }

  lemma {:induction false} DroppedBit(a: Lane, j: nat, z: nat)
    requires j < 8
    ensures BitAt(Lane(Dropped(a.bits, 8 * (j as bv8))), z) == BitAt(a, 8 * j + z)
  {
    hide BitAt, Dropped, Byte;
    if j == 0 {
      DropNone(a.bits);
    } else {
      DroppedNext(a.bits, j);
      NextLane(Dropped(a.bits, 8 * ((j - 1) as bv8)), Dropped(a.bits, 8 * (j as bv8)));
      ByteBit(Lane(Dropped(a.bits, 8 * ((j - 1) as bv8))), z);
      DroppedBit(a, j - 1, z + 8);
    }
  }

  lemma LowByteBits(w: bv64)
    ensures BitsOfByte(LowByte(w)) ==
      [w & 1 != 0, w & 2 != 0, w & 4 != 0, w & 8 != 0, w & 16 != 0, w & 32 != 0, w & 64 != 0, w & 128 != 0]
  {
  }

  lemma LowByteBit(w: bv64, t: nat)
    requires t < 8
    ensures BitsOfByte(LowByte(w))[t] == BitAt(Lane(w), t)
  {
    hide BitAt, BitsOfByte, LowByte;
    LowByteBits(w);
    LowBits(Lane(w));
  }

  /** The bits of byte `j` of a lane. */
  lemma ByteOfBits(a: Lane, j: nat, t: nat)
    requires j < 8 && t < 8
    ensures BitsOfByte(ByteOf(a, j))[t] == BitAt(a, 8 * j + t)
  {
    hide BitAt, Dropped, BitsOfByte, LowByte;
    DroppedBit(a, j, t);
    LowByteBit(Dropped(a.bits, 8 * (j as bv8)), t);
  }

  /** Bit `t` of byte `n` of the state. */
  lemma ByteOfImage(s: State, n: nat, t: nat)
    requires n < 200 && t < 8
    ensures Image(s)[8 * n + t] == BitsOfByte(ByteOf(s[n / 8], n % 8))[t]
  {
    hide BitAt, ByteOf, BitsOfByte;
    ByteOfBits(s[n / 8], n % 8, t);
    assert (8 * n + t) / 64 == n / 8 && (8 * n + t) % 64 == 8 * (n % 8) + t;
  }

  lemma ImageGrows(s: State, n: nat)
    requires n < 200
    ensures Image(s)[..8 * (n + 1)] == Image(s)[..8 * n] + BitsOfByte(ByteOf(s[n / 8], n % 8))
  {
    hide Image, ByteOf, BitsOfByte;
    forall t | 0 <= t < 8
      ensures Image(s)[8 * n + t] == BitsOfByte(ByteOf(s[n / 8], n % 8))[t]
    {
      ByteOfImage(s, n, t);
    }
  }

  lemma {:induction false} HexMatches(s: State, n: nat)
    requires n <= 200
    ensures BitsOfHex(HexOf(s, n)) == Image(s)[..8 * n]
  {
    hide Image, Nibble, Hex, ByteOf, BitsOfByte, BitsOfHex;
    if n == 0 {
      NoDigits();
    } else {
      var b := ByteOf(s[(n - 1) / 8], (n - 1) % 8);
      HexMatches(s, n - 1);
      HexBits(b);
      BitsOfHexGrows(HexOf(s, n - 1), Hex(b));
      ImageGrows(s, n - 1);
    }
  }

  lemma NoDigits()
    ensures BitsOfHex("") == []
  {
  }

  lemma BitsOfHexGrows(h: string, two: string)
    requires |two| == 2
    ensures BitsOfHex(h + two) == BitsOfHex(h) + (Nibble(two[1]) + Nibble(two[0]))
  {
    hide Nibble;
    assert (h + two)[..|h|] == h;
  }

  /** The digest of the program is Keccak[2d] of the message, for every message and every
      length of digest. */
  lemma DigestIsKeccak(m: Bytes, d: nat)
    requires Variant(d)
    ensures BitsOfHex(Digest(m, d)) == KeccakOf(BitsOf(m), d)
  {
    hide Image, BitsOf, AbsorbAll, AbsorbBits, HexOf, Padded, Pad101, RateFor, BlockSize, BitsOfHex;
    var r := BlockSize(d);
    var p := Padded(m, r);
    PaddedMatches(m, d);
    AbsorbAllMatches(ZeroState(), p, d);
    ZeroImage();
    HexMatches(AbsorbAll(ZeroState(), p, r), d / 8);
    assert 8 * (d / 8) == d;
  }
}
