/** The streaming Keccak hash: buffering of arbitrary chunks, pad10*1 padding,
    and the absorbed state, sections 4 and 5.1 of FIPS 202 without the suffix
    bits that section 6.1 adds to the message. */
module Keccak {
  import opened KeccakPermutation

  type Bytes = seq<bv8>

  const MAX_BLOCK_SIZE := 200 - 2 * (224 / 8)

  // ----- Absorbing -----

  function ZeroState(): State {
    seq(25, _ => ZERO)
  }

  /** Lane `i` of a block, least significant byte first. */
  function LaneOf(block: Bytes, i: nat): Lane
    requires 8 * i + 8 <= |block|
  {
    var b := block[8 * i..8 * i + 8];
    Lane(Join(b[0] as bv64, Join(b[1] as bv64 << 8, Join(b[2] as bv64 << 16, Join(b[3] as bv64 << 24,
      Join(b[4] as bv64 << 32, Join(b[5] as bv64 << 40, Join(b[6] as bv64 << 48, b[7] as bv64 << 56))))))))
  }

  predicate Rate(r: nat) {
    r == 144 || r == 136 || r == 104 || r == 72
  }

  function Mixed(s: State, block: Bytes): State
    requires Rate(|block|)
  {
    seq(25, i requires 0 <= i < 25 => if 8 * i < |block| then Xor(s[i], LaneOf(block, i)) else s[i])
  }

  function Absorb(s: State, block: Bytes): State
    requires Rate(|block|)
  {
    Permutation(Mixed(s, block))
  }

  /** `n` bytes are whole blocks of `rate` bytes. */
  predicate WholeBlocks(n: nat, rate: nat)
    requires rate > 0
  {
    n == 0 || (n >= rate && WholeBlocks(n - rate, rate))
  }

  /** Absorbing a message of whole blocks, one block after the other. */
  function AbsorbAll(s: State, m: Bytes, rate: nat): State
    requires Rate(rate) && WholeBlocks(|m|, rate)
  {
    if m == [] then s
    else
      var n := |m| - rate;
      Absorb(AbsorbAll(s, m[..n], rate), m[n..])
  }

  // ----- Padding -----

  function ZeroBytes(n: nat): Bytes {
    seq(n, _ => 0)
  }

  /** `q` bytes of padding. */
  function Padding(q: nat): (p: Bytes)
    requires q > 0
    ensures |p| == q
  {
    if q == 1 then [0x81] else [0x01] + ZeroBytes(q - 2) + [0x80]
  }

  /** How many bytes `n` bytes lack of whole blocks; a full block when they lack none. */
  function Missing(n: nat, rate: nat): (q: nat)
    requires rate > 0
    ensures 0 < q <= rate && WholeBlocks(n + q, rate)
  {
    if n < rate then rate - n else Missing(n - rate, rate)
  }

  lemma {:induction false} MissingOfTail(n: nat, k: nat, rate: nat)
    requires k < rate && WholeBlocks(n, rate)
    ensures Missing(n + k, rate) == rate - k
  {
    if n > 0 {
      MissingOfTail(n - rate, k, rate);
    }
  }

  function Padded(m: Bytes, rate: nat): (p: Bytes)
    requires rate > 0
    ensures WholeBlocks(|p|, rate)
  {
    m + Padding(Missing(|m|, rate))
  }

  /** The state after the whole message has been absorbed. */
  function FinalState(m: Bytes, rate: nat): State
    requires Rate(rate)
  {
    AbsorbAll(ZeroState(), Padded(m, rate), rate)
  }

  // ----- Output -----

  const DIGITS: string := "0123456789abcdef"

  function Hex(b: bv8): string {
    [DIGITS[(b >> 4) as int], DIGITS[(b & 15) as int]]
  }

  function Dropped(w: bv64, n: bv8): bv64
    requires n < 64
  {
    w >> n
  }

  function LowByte(w: bv64): bv8 {
    (w & 0xff) as bv8
  }

  function ByteOf(a: Lane, j: nat): bv8
    requires j < 8
  {
    LowByte(Dropped(a.bits, 8 * (j as bv8)))
  }

  /** The first `n` bytes of the state in hexadecimal. */
  function HexOf(s: State, n: nat): string
    requires n <= 200
  {
    if n == 0 then "" else HexOf(s, n - 1) + Hex(ByteOf(s[(n - 1) / 8], (n - 1) % 8))
  }

  predicate Variant(bits: nat) {
    bits == 224 || bits == 256 || bits == 384 || bits == 512
  }

  function BlockSize(bits: nat): (r: nat)
    requires Variant(bits)
    ensures Rate(r)
  {
    200 - 2 * (bits / 8)
  }

  function Digest(m: Bytes, bits: nat): string
    requires Variant(bits)
  {
    HexOf(FinalState(m, BlockSize(bits)), bits / 8)
  }

  function WithTopBit(b: bv8): bv8 {
    b | 0x80
  }

  lemma TopBits()
    ensures WithTopBit(1) == 0x81 && WithTopBit(0) == 0x80
  {
  }

  lemma PaddedBlock(block: Bytes, tail: Bytes)
    requires |tail| < |block| && block[..|tail|] == tail
    requires |block| == |tail| + 1 ==> block[|tail|] == 0x81
    requires |block| > |tail| + 1 ==> block[|tail|] == 0x01 && block[|block| - 1] == 0x80
    requires forall k :: |tail| < k < |block| - 1 ==> block[k] == 0
    ensures block == tail + Padding(|block| - |tail|)
  {
  }

  /** The last whole block is absorbed after all others. */
  lemma AbsorbLast(m: Bytes, rate: nat)
    requires Rate(rate) && rate <= |m| && WholeBlocks(|m| - rate, rate)
    ensures WholeBlocks(|m|, rate)
    ensures AbsorbAll(ZeroState(), m, rate) == Absorb(AbsorbAll(ZeroState(), m[..|m| - rate], rate), m[|m| - rate..])
  {
    hide Absorb;
  }

  lemma NothingAbsorbed(rate: nat)
    requires Rate(rate)
    ensures WholeBlocks(0, rate) && AbsorbAll(ZeroState(), [], rate) == ZeroState()
  {
    hide Absorb;
  }

  // ----- The hash object -----

  class Hasher {
    const bits: nat
    const blockSize: nat
    const hash: array<Lane>
    const buffer: array<bv8>
    var bufferSize: nat
    var numBytes: nat

    /** Everything added since the last reset. */
    ghost var message: Bytes

    ghost predicate Shape() {
      Variant(bits) && blockSize == BlockSize(bits) && hash.Length == 25 && buffer.Length == MAX_BLOCK_SIZE
    }

    /** `m` has been taken in: whole blocks in the state, the rest in the buffer. */
    ghost predicate Holds(m: Bytes)
      reads `bufferSize, `numBytes, hash, buffer
    {
      Shape() && bufferSize <= blockSize && bufferSize <= |m| && WholeBlocks(|m| - bufferSize, blockSize) &&
      buffer[..bufferSize] == m[|m| - bufferSize..] &&
      hash[..] == AbsorbAll(ZeroState(), m[..|m| - bufferSize], blockSize) &&
      numBytes == |m| - bufferSize
    }

    ghost predicate Valid()
      reads this, hash, buffer
    {
      Holds(message) && bufferSize < blockSize
    }

    constructor (bits: nat)
      requires Variant(bits)
      ensures Valid() && message == [] && this.bits == bits && fresh(hash) && fresh(buffer)
    {
      hide Absorb, AbsorbAll, WholeBlocks;
      this.bits := bits;
      blockSize := BlockSize(bits);
      hash := new Lane[25](_ => ZERO);
      buffer := new bv8[MAX_BLOCK_SIZE](_ => 0);
      bufferSize, numBytes, message := 0, 0, [];
      new;
      NothingAbsorbed(blockSize);
      assert hash[..] == ZeroState();
    }

    method Reset()
      requires Shape()
      modifies this, hash
      ensures Valid() && message == []
    {
      for i := 0 to 25
        invariant forall k :: 0 <= k < i ==> hash[k] == ZERO
      {
        hash[i] := ZERO;
      }
      numBytes, bufferSize, message := 0, 0, [];
      NothingAbsorbed(blockSize);
      hide Absorb, AbsorbAll, WholeBlocks;
      assert hash[..] == ZeroState();
    }

    method ProcessBlock(data: Bytes)
      requires Shape() && |data| == blockSize
      modifies hash
      ensures hash[..] == Absorb(old(hash[..]), data)
    {
      hide Permutation, Xor, LaneOf;
      ghost var s: State := hash[..];
      for i := 0 to blockSize / 8
        invariant forall k :: 0 <= k < 25 ==> hash[k] == if k < i then Xor(s[k], LaneOf(data, k)) else s[k]
      {
        hash[i] := Xor(hash[i], LaneOf(data, i));
      }
      assert hash[..] == Mixed(s, data);
      PermuteInPlace(hash);
    }

    /** `m_buffer[m_bufferSize++] = *current++` */
    method Keep(b: bv8, ghost m: Bytes)
      requires Holds(m) && bufferSize < blockSize
      modifies this`bufferSize, buffer
      ensures Holds(m + [b]) && bufferSize == old(bufferSize) + 1
    {
      hide AbsorbAll;
      buffer[bufferSize] := b;
      bufferSize := bufferSize + 1;
      assert (m + [b])[..|m| + 1 - bufferSize] == m[..|m| + 1 - bufferSize];
      assert (m + [b])[|m| + 1 - bufferSize..] == m[|m| + 1 - bufferSize..] + [b];
      assert buffer[..bufferSize] == buffer[..bufferSize - 1] + [b];
    }

    /** A block absorbed straight from the data. */
    method Take(block: Bytes, ghost m: Bytes)
      requires Holds(m) && bufferSize == 0 && |block| == blockSize
      modifies this`numBytes, hash
      ensures Holds(m + block)
    {
      hide Absorb, AbsorbAll, WholeBlocks;
      assert (m + block)[..|m|] == m && (m + block)[|m|..] == block;
      AbsorbLast(m + block, blockSize);
      ProcessBlock(block);
      numBytes := numBytes + blockSize;
      assert (m + block)[..|m + block|] == m + block;
      assert m[..|m|] == m;
      assert |m + block| == |m| + blockSize;
    }

    /** A full buffer absorbed. */
    method Flush(ghost m: Bytes)
      requires Holds(m) && bufferSize == blockSize
      modifies this`numBytes, this`bufferSize, hash
      ensures Holds(m) && bufferSize == 0
    {
      hide Absorb, AbsorbAll, WholeBlocks;
      AbsorbLast(m, blockSize);
      ProcessBlock(buffer[..blockSize]);
      numBytes := numBytes + blockSize;
      bufferSize := 0;
      assert m[..|m|] == m;
      assert buffer[..0] == m[|m|..];
    }

    lemma HoldsBounds(m: Bytes)
      requires Holds(m)
      ensures bufferSize <= blockSize && 72 <= blockSize
    {
    }

    /** Adding any number of bytes, in any chunking, only appends to the message;
        less than a block ever stays behind. */
    method Add(data: Bytes)
      requires Valid()
      modifies this, hash, buffer
      ensures Valid() && message == old(message) + data
    {
      hide Holds;
      ghost var m := message;
      HoldsBounds(m);
      var current, n := 0, |data|;
      assert m + data[..0] == m;
      if bufferSize > 0 {
        while n > 0 && bufferSize < blockSize
          invariant 0 <= n && 0 <= current && current + n == |data|
          invariant Holds(m + data[..current]) && bufferSize > 0
        {
          Keep(data[current], m + data[..current]);
          assert m + data[..current] + [data[current]] == m + data[..current + 1];
          current, n := current + 1, n - 1;
        }
      }
      HoldsBounds(m + data[..current]);
      if bufferSize == blockSize {
        Flush(m + data[..current]);
      }
      message := m + data[..current];
      if n == 0 {
        assert data[..current] == data;
        return;
      }
      while n >= blockSize
        invariant 0 <= n && 0 <= current && current + n == |data|
        invariant Holds(m + data[..current]) && bufferSize == 0
      {
        Take(data[current..current + blockSize], m + data[..current]);
        assert m + data[..current] + data[current..current + blockSize] == m + data[..current + blockSize];
        current, n := current + blockSize, n - blockSize;
      }
      while n > 0
        invariant 0 <= n && 0 <= current && current + n == |data|
        invariant Holds(m + data[..current]) && bufferSize + n < blockSize
      {
        Keep(data[current], m + data[..current]);
        assert m + data[..current] + [data[current]] == m + data[..current + 1];
        current, n := current + 1, n - 1;
      }
      assert data[..current] == data;
      message := m + data;
    }

    /** Zeros from `start` to the end of the block. */
    method ZeroRest(start: nat)
      requires Shape() && start <= blockSize
      modifies buffer
      ensures forall k :: 0 <= k < buffer.Length ==>
        buffer[k] == if start <= k < blockSize then 0 else old(buffer[k])
    {
      var offset := start;
      while offset < blockSize
        invariant start <= offset <= blockSize
        invariant forall k :: 0 <= k < buffer.Length ==> buffer[k] == if start <= k < offset then 0 else old(buffer[k])
      {
        buffer[offset] := 0;
        offset := offset + 1;
      }
    }

    /** A 1 byte, zeros, and the top bit of the last byte. */
    method PadBuffer()
      requires Shape() && bufferSize < blockSize
      modifies buffer
      ensures buffer[..blockSize] == old(buffer[..bufferSize]) + Padding(blockSize - bufferSize)
    {
      hide WithTopBit, Padding;
      ghost var tail := buffer[..bufferSize];
      buffer[bufferSize] := 1;
      ZeroRest(bufferSize + 1);
      TopBits();
      buffer[blockSize - 1] := WithTopBit(buffer[blockSize - 1]);
      ghost var block := buffer[..blockSize];
      assert block[..bufferSize] == tail;
      PaddedBlock(block, tail);
    }

    /** Pads what is buffered and absorbs it; afterwards only a reset restores `Valid`. */
    method ProcessBuffer()
      requires Valid()
      modifies hash, buffer
      ensures hash[..] == FinalState(message, blockSize)
    {
      hide AbsorbAll, Absorb, Padding, FinalState;
      ghost var s: State := hash[..];
      ghost var n := |message| - bufferSize;
      assert s == AbsorbAll(ZeroState(), message[..n], blockSize);
      PaddedSplits(message, blockSize, bufferSize);
      PadBuffer();
      assert hash[..] == s;
      ProcessBlock(buffer[..blockSize]);
    }

    /** The digest of everything added, in hexadecimal. */
    method GetHash() returns (result: string)
      requires Valid()
      modifies hash, buffer
      ensures result == Digest(message, bits)
    {
      hide FinalState, HexOf;
      ProcessBuffer();
      result := ToHex(hash, bits);
    }
  }

  /** The leading lanes of the state in hexadecimal, low byte first. */
  method ToHex(hash: array<Lane>, bits: nat) returns (result: string)
    requires Variant(bits) && hash.Length == 25
    ensures result == HexOf(hash[..], bits / 8)
  {
    hide Hex, ByteOf, HexOf;
    ghost var s: State := hash[..];
    HexOfNothing(s);
    var hashLength := bits / 64;
    result := "";
    for i := 0 to hashLength
      invariant result == HexOf(s, 8 * i)
    {
      for j := 0 to 8
        invariant result == HexOf(s, 8 * i + j)
      {
        result := result + Hex(ByteOf(hash[i], j));
        NextByte(s, i, j);
      }
    }
    var remainder := bits - hashLength * 64;
    var processed, j := 0, 0;
    while processed < remainder
      invariant 0 <= processed == 8 * j <= remainder
      invariant result == HexOf(s, 8 * hashLength + j)
    {
      result := result + Hex(ByteOf(hash[hashLength], j));
      NextByte(s, hashLength, j);
      processed, j := processed + 8, j + 1;
    }
  }

  lemma HexOfNothing(s: State)
    ensures HexOf(s, 0) == ""
  {
  }

  lemma NextByte(s: State, i: nat, j: nat)
    requires i < 25 && j < 8
    ensures HexOf(s, 8 * i + j + 1) == HexOf(s, 8 * i + j) + Hex(ByteOf(s[i], j))
  {
    hide Hex, ByteOf;
    assert (8 * i + j) / 8 == i && (8 * i + j) % 8 == j;
  }

  /** The last block of a padded message is what the buffer holds, padded. */
  lemma PaddedSplits(m: Bytes, rate: nat, k: nat)
    requires Rate(rate) && k < rate && k <= |m| && WholeBlocks(|m| - k, rate)
    ensures FinalState(m, rate)
         == Absorb(AbsorbAll(ZeroState(), m[..|m| - k], rate), m[|m| - k..] + Padding(rate - k))
  {
    hide Absorb, Padding;
    var n := |m| - k;
    var p := Padded(m, rate);
    MissingOfTail(n, k, rate);
    assert |p| == n + rate;
    assert p[..n] == m[..n];
    assert p[n..] == m[n..] + Padding(rate - k);
  }

  function Concat(chunks: seq<Bytes>): Bytes {
    if chunks == [] then [] else Concat(chunks[..|chunks| - 1]) + chunks[|chunks| - 1]
  }

  /** Streaming agrees with hashing the whole: the digest of any chunking is the
      digest of the concatenation. */
  method HashChunks(chunks: seq<Bytes>, bits: nat) returns (result: string)
    requires Variant(bits)
    ensures result == Digest(Concat(chunks), bits)
  {
    hide Digest, Hasher.Valid, Hasher.Holds, Absorb, AbsorbAll;
    var hasher := new Hasher(bits);
    for i := 0 to |chunks|
      invariant hasher.Valid() && hasher.bits == bits && hasher.message == Concat(chunks[..i])
      invariant fresh(hasher) && fresh(hasher.hash) && fresh(hasher.buffer)
    {
      assert chunks[..i + 1][..i] == chunks[..i];
      hasher.Add(chunks[i]);
    }
    assert chunks[..|chunks|] == chunks;
    result := hasher.GetHash();
  }

  // ----- Padding as section 5.1 defines it -----

  function BitsOfByte(b: bv8): (bits: seq<bool>)
    ensures |bits| == 8
  {
    [b & 1 != 0, b & 2 != 0, b & 4 != 0, b & 8 != 0, b & 16 != 0, b & 32 != 0, b & 64 != 0, b & 128 != 0]
  }

  function BitsOf(m: Bytes): seq<bool> {
    if m == [] then [] else BitsOf(m[..|m| - 1]) + BitsOfByte(m[|m| - 1])
  }

  function Falses(n: nat): seq<bool> {
    seq(n, _ => false)
  }

  lemma {:induction false} BitsOfConcat(a: Bytes, b: Bytes)
    ensures BitsOf(a + b) == BitsOf(a) + BitsOf(b)
  {
    hide BitsOfByte;
    if b == [] {
      assert a + b == a;
    } else {
      var b' := b[..|b| - 1];
      assert (a + b)[..|a + b| - 1] == a + b';
      BitsOfConcat(a, b');
    }
  }

  lemma PaddingBytes()
    ensures BitsOfByte(0x81) == [true] + Falses(6) + [true]
    ensures BitsOfByte(0x01) == [true] + Falses(7)
    ensures BitsOfByte(0x80) == Falses(7) + [true]
    ensures BitsOfByte(0) == Falses(8)
  {
  }

  lemma {:induction false} BitsOfZeros(n: nat)
    ensures BitsOf(ZeroBytes(n)) == Falses(8 * n)
  {
    hide BitsOfByte;
    PaddingBytes();
    if n > 0 {
      assert ZeroBytes(n)[..n - 1] == ZeroBytes(n - 1);
      BitsOfZeros(n - 1);
    }
  }

  lemma BitsOfSingle(b: bv8)
    ensures BitsOf([b]) == BitsOfByte(b)
  {
    hide BitsOfByte;
    assert [b][..0] == [];
  }

  /** The padded message is the message, a 1, as few 0 as needed, and a 1. */
  lemma PaddedIsPad101(m: Bytes, rate: nat)
    requires rate > 0
    ensures BitsOf(Padded(m, rate)) == BitsOf(m) + [true] + Falses(8 * Missing(|m|, rate) - 2) + [true]
  {
    hide BitsOfByte, BitsOf, Missing;
    var q := Missing(|m|, rate);
    PaddingBytes();
    BitsOfConcat(m, Padding(q));
    if q == 1 {
      BitsOfSingle(0x81);
    } else {
      BitsOfConcat([0x01] + ZeroBytes(q - 2), [0x80]);
      BitsOfConcat([0x01], ZeroBytes(q - 2));
      BitsOfSingle(0x01);
      BitsOfSingle(0x80);
      BitsOfZeros(q - 2);
      assert [true] + Falses(7) + Falses(8 * (q - 2)) + (Falses(7) + [true]) == [true] + Falses(8 * q - 2) + [true];
    }
  }

  /** Padding loses nothing: different messages are padded differently. */
  lemma PaddedInjective(a: Bytes, b: Bytes, rate: nat)
    requires rate > 0 && Padded(a, rate) == Padded(b, rate)
    ensures a == b
  {
    hide Missing;
    var p := Padded(a, rate);
    if |a| < |b| {
      PaddedByte(a, rate, |b|);
      PaddedByte(b, rate, |b|);
    } else if |b| < |a| {
      PaddedByte(a, rate, |a|);
      PaddedByte(b, rate, |a|);
    }
    assert a == p[..|a|] && b == p[..|b|];
  }

  lemma PaddedByte(m: Bytes, rate: nat, k: nat)
    requires rate > 0 && |m| <= k < |Padded(m, rate)|
    ensures var p := Padded(m, rate);
      p[k] == if k == |m| == |p| - 1 then 0x81 else if k == |m| then 0x01 else if k == |p| - 1 then 0x80 else 0
  {
    hide Missing;
  }
}
