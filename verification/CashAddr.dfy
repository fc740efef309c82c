/** The CashAddr codec: character tables, `Encode` and the `Decode` of the
    program, which returns the data together with its eight checksum symbols. */
module CashAddr {
  import opened Commons
  import opened CashAddrChecksum

  predicate IsLower(c: char) { 'a' <= c <= 'z' }
  predicate IsUpper(c: char) { 'A' <= c <= 'Z' }

  /** Setting bit 5 of a letter. */
  function LowerCase(c: char): char
    requires IsLower(c) || IsUpper(c)
  {
    if IsUpper(c) then (c as int + 32) as char else c
  }

  /** Lower-casing a whole string, digits and the separator included. */
  function Lowered(s: string): (t: string)
    ensures |t| == |s|
  {
    seq(|s|, i requires 0 <= i < |s| => if IsUpper(s[i]) then LowerCase(s[i]) else s[i])
  }

  // ----- Tables -----

  /** CHARSET: the character of a 5-bit value. */
  function Symbol(v: bv8): char
    requires v < 32
  {
    match v
    case 0 => 'q'
    case 1 => 'p'
    case 2 => 'z'
    case 3 => 'r'
    case 4 => 'y'
    case 5 => '9'
    case 6 => 'x'
    case 7 => '8'
    case 8 => 'g'
    case 9 => 'f'
    case 10 => '2'
    case 11 => 't'
    case 12 => 'v'
    case 13 => 'd'
    case 14 => 'w'
    case 15 => '0'
    case 16 => 's'
    case 17 => '3'
    case 18 => 'j'
    case 19 => 'n'
    case 20 => '5'
    case 21 => '4'
    case 22 => 'k'
    case 23 => 'h'
    case 24 => 'c'
    case 25 => 'e'
    case 26 => '6'
    case 27 => 'm'
    case 28 => 'u'
    case 29 => 'a'
    case 30 => '7'
    case _ => 'l'
  }

  /** -1 as an eight-bit table entry. */
  const ABSENT: bv8 := 0xff

  // CHARSET_REV, row by row.

  function ReverseDigit(c: char): bv8 {
    match c
    case '0' => 15
    case '2' => 10
    case '3' => 17
    case '4' => 21
    case '5' => 20
    case '6' => 26
    case '7' => 30
    case '8' => 7
    case '9' => 5
    case _ => ABSENT
  }

  function ReverseUpper(c: char): bv8 {
    match c
    case 'A' => 29
    case 'C' => 24
    case 'D' => 13
    case 'E' => 25
    case 'F' => 9
    case 'G' => 8
    case 'H' => 23
    case 'J' => 18
    case 'K' => 22
    case 'L' => 31
    case 'M' => 27
    case 'N' => 19
    case 'P' => 1
    case 'Q' => 0
    case 'R' => 3
    case 'S' => 16
    case 'T' => 11
    case 'U' => 28
    case 'V' => 12
    case 'W' => 14
    case 'X' => 6
    case 'Y' => 4
    case 'Z' => 2
    case _ => ABSENT
  }

  function ReverseLower(c: char): bv8 {
    match c
    case 'a' => 29
    case 'c' => 24
    case 'd' => 13
    case 'e' => 25
    case 'f' => 9
    case 'g' => 8
    case 'h' => 23
    case 'j' => 18
    case 'k' => 22
    case 'l' => 31
    case 'm' => 27
    case 'n' => 19
    case 'p' => 1
    case 'q' => 0
    case 'r' => 3
    case 's' => 16
    case 't' => 11
    case 'u' => 28
    case 'v' => 12
    case 'w' => 14
    case 'x' => 6
    case 'y' => 4
    case 'z' => 2
    case _ => ABSENT
  }

  /** CHARSET_REV: the 5-bit value of a character, -1 for a character that is not
      in the table or not ASCII. */
  function Reverse(c: char): (r: bv8) {
    if c <= '9' then ReverseDigit(c)
    else if c <= 'Z' then ReverseUpper(c)
    else ReverseLower(c)
  }

  lemma SymbolRoundTrip(v: bv8)
    requires v < 32
    ensures Reverse(Symbol(v)) == v
    ensures IsLower(Symbol(v)) || IsDigit(Symbol(v))
  {
    match v
    case 0 | 1 | 2 | 3 | 4 | 5 | 6 | 7 | 8 | 9 | 10 | 11 | 12 | 13 | 14 | 15 =>
    case 16 | 17 | 18 | 19 | 20 | 21 | 22 | 23 | 24 | 25 | 26 | 27 | 28 | 29 | 30 =>
    case _ =>
  }

  const CHARSET := "qpzry9x8gf2tvdw0s3jn54khce6mua7l"

  /** The table entry by entry. */
  lemma SymbolIs(v: bv8)
    requires v < 32
    ensures v as int < |CHARSET| && Symbol(v) == CHARSET[v as int]
  {
    match v
    case 0 | 1 | 2 | 3 | 4 | 5 | 6 | 7 | 8 | 9 | 10 | 11 | 12 | 13 | 14 | 15 =>
    case 16 | 17 | 18 | 19 | 20 | 21 | 22 | 23 | 24 | 25 | 26 | 27 | 28 | 29 | 30 =>
    case _ =>
  }

  lemma DigitRow(c: char)
    requires ReverseDigit(c) != ABSENT
    ensures ReverseDigit(c) < 32 && IsDigit(c) && Symbol(ReverseDigit(c)) == c
  {
    match c
    case '0' | '2' | '3' | '4' | '5' | '6' | '7' | '8' | '9' =>
    case _ =>
  }

  lemma UpperRow(c: char)
    requires ReverseUpper(c) != ABSENT
    ensures ReverseUpper(c) < 32 && IsUpper(c) && Symbol(ReverseUpper(c)) == LowerCase(c)
  {
    match c
    case 'A' | 'C' | 'D' | 'E' | 'F' | 'G' | 'H' | 'J' | 'K' | 'L' | 'M' | 'N' =>
    case 'P' | 'Q' | 'R' | 'S' | 'T' | 'U' | 'V' | 'W' | 'X' | 'Y' | 'Z' =>
    case _ =>
  }

  lemma LowerRow(c: char)
    requires ReverseLower(c) != ABSENT
    ensures ReverseLower(c) < 32 && IsLower(c) && Symbol(ReverseLower(c)) == c
  {
    match c
    case 'a' | 'c' | 'd' | 'e' | 'f' | 'g' | 'h' | 'j' | 'k' | 'l' | 'm' | 'n' =>
    case 'p' | 'q' | 'r' | 's' | 't' | 'u' | 'v' | 'w' | 'x' | 'y' | 'z' =>
    case _ =>
  }

  /** The reverse table accepts a letter in both cases and nothing else twice. */
  lemma ReverseRoundTrip(c: char)
    requires Reverse(c) != ABSENT
    ensures Reverse(c) < 32
    ensures IsLower(c) || IsDigit(c) || IsUpper(c)
    ensures Symbol(Reverse(c)) == if IsUpper(c) then LowerCase(c) else c
  {
    hide ReverseDigit, ReverseUpper, ReverseLower, Symbol;
    if c <= '9' {
      DigitRow(c);
    } else if c <= 'Z' {
      UpperRow(c);
    } else {
      LowerRow(c);
    }
  }

  // ----- Checksums of a prefix and a payload -----

  function LowFive(c: char): bv8 {
    (c as int % 32) as bv8
  }

  function Expanded(prefix: string): Data {
    seq(|prefix|, i requires 0 <= i < |prefix| => LowFive(prefix[i])) + [0]
  }

  /** The low five bits of every character, and a zero. */
  predicate Expands(v: Data, prefix: string) {
    |v| == |prefix| + 1 && v[|prefix|] == 0 &&
    forall i :: 0 <= i < |prefix| ==> v[i] < 32 && (prefix[i] as int - v[i] as int) % 32 == 0
  }

  lemma LowFiveIs(c: char)
    ensures LowFive(c) < 32 && LowFive(c) as int == c as int % 32
  {
  }

  lemma ExpandedExpands(prefix: string)
    ensures Expands(Expanded(prefix), prefix)
  {
    hide LowFive;
    forall i | 0 <= i < |prefix|
      ensures LowFive(prefix[i]) < 32 && (prefix[i] as int - LowFive(prefix[i]) as int) % 32 == 0
    {
      LowFiveIs(prefix[i]);
    }
  }

  lemma SmallIsValue(b: bv8)
    requires b < 32
    ensures 0 <= b as int < 32
  {
  }

  lemma SameByte(b: bv8, c: bv8)
    requires b as int == c as int
    ensures b == c
  {
    assert b == (b as int) as bv8 && c == (c as int) as bv8;
  }

  lemma ExpandedOnly(v: Data, prefix: string)
    requires Expands(v, prefix)
    ensures v == Expanded(prefix)
  {
    hide LowFive;
    forall i | 0 <= i < |prefix|
      ensures v[i] == LowFive(prefix[i])
    {
      LowFiveIs(prefix[i]);
      SmallIsValue(v[i]);
      SameByte(v[i], LowFive(prefix[i]));
    }
  }

  method ExpandPrefix(prefix: string) returns (ret: Data)
    ensures ret == Expanded(prefix)
    ensures |ret| == |prefix| + 1 && ret[|prefix|] == 0
    ensures forall i :: 0 <= i < |prefix| ==> ret[i] < 32 && (prefix[i] as int - ret[i] as int) % 32 == 0
  {
    hide LowFive;
    ExpandedExpands(prefix);
    ret := [];
    for i := 0 to |prefix|
      invariant ret == Expanded(prefix)[..i]
    {
      ret := ret + [LowFive(prefix[i])];
    }
    ret := ret + [0];
  }

  predicate Valid(prefix: string, payload: Data) {
    Remainder(Expanded(prefix) + payload) == 0
  }

  function Checksum(prefix: string, payload: Data): (s: Data)
    ensures |s| == 8
  {
    Unpack(Remainder(Expanded(prefix) + payload + Zeros(8)))
  }

  method VerifyChecksum(prefix: string, payload: Data) returns (ok: bool)
    ensures ok == Valid(prefix, payload)
  {
    hide Remainder;
    var expanded := ExpandPrefix(prefix);
    var mod := PolyMod(expanded + payload);
    ok := mod == 0;
  }

  method CreateChecksum(prefix: string, payload: Data) returns (ret: Data)
    ensures ret == Checksum(prefix, payload)
  {
    hide Remainder, Unpack;
    var expanded := ExpandPrefix(prefix);
    var enc := expanded + payload;
    enc := enc + Zeros(8);
    var mod := PolyMod(enc);
    ret := SplitGroups(mod);
  }

  lemma ExpandedIsSymbols(prefix: string)
    ensures Symbols(Expanded(prefix))
  {
    hide LowFive;
    ExpandedExpands(prefix);
  }

  lemma ChecksumIsSymbols(prefix: string, payload: Data)
    ensures Symbols(Checksum(prefix, payload))
  {
    hide Remainder, Unpack;
    UnpackIsSymbols(Remainder(Expanded(prefix) + payload + Zeros(8)));
  }

  /** A payload followed by its checksum verifies. */
  lemma ChecksumVerifies(prefix: string, payload: Data)
    ensures Valid(prefix, payload + Checksum(prefix, payload))
  {
    hide Remainder, Unpack, Expanded;
    RemainderCancels(Expanded(prefix) + payload);
    var s := Checksum(prefix, payload);
    assert Expanded(prefix) + (payload + s) == Expanded(prefix) + payload + s;
  }

  /** No change confined to eight consecutive symbols of a valid payload, of any
      length and under any prefix, goes unnoticed. */
  lemma BurstDetected(prefix: string, payload: Data, corrupted: Data, at: int)
    requires Symbols(payload) && Symbols(corrupted)
    requires Valid(prefix, payload)
    requires payload != corrupted && DifferWithin(payload, corrupted, at)
    ensures !Valid(prefix, corrupted)
  {
    hide Remainder, Expanded;
    var e := Expanded(prefix);
    ExpandedIsSymbols(prefix);
    assert (e + payload)[|e|..] == payload && (e + corrupted)[|e|..] == corrupted;
    BurstChangesRemainder(e + payload, e + corrupted, |e| + at);
  }

  /** What a valid payload is: divided by the generator, the low five bits of the prefix, a
      zero and the payload leave 1. */
  lemma ValidMeans(prefix: string, payload: Data, e: Data)
    requires Symbols(payload) && Expands(e, prefix)
    ensures Valid(prefix, payload) <==> LeavesOne(e + payload)
  {
    hide Remainder, LeavesOne, Expanded;
    ExpandedOnly(e, prefix);
    ExpandedIsSymbols(prefix);
    ZeroMeansOne(e + payload);
  }

  lemma LettersDiffer(c: char, d: char)
    requires IsLower(c) && IsLower(d) && c != d
    ensures LowFive(c) != LowFive(d)
  {
    LowFiveIs(c);
    LowFiveIs(d);
  }

  lemma PrefixesDiffer(p: string, q: string, i: nat)
    requires |p| == |q| && i < |p| && LowerLetters(p) && LowerLetters(q)
    ensures Expanded(p)[i] != Expanded(q)[i] <==> p[i] != q[i]
  {
    hide LowFive;
    if p[i] != q[i] {
      LettersDiffer(p[i], q[i]);
    }
  }

  /** The checksum covers the prefix: prefixes of one length that differ only inside eight
      consecutive letters never validate the same payload. */
  lemma PrefixCovered(p: string, q: string, payload: Data, at: int)
    requires LowerLetters(p) && LowerLetters(q) && p != q && TextDiffersWithin(p, q, at)
    requires Symbols(payload) && Valid(p, payload)
    ensures !Valid(q, payload)
  {
    hide Remainder, LowFive;
    var a, b := Expanded(p), Expanded(q);
    ExpandedIsSymbols(p);
    ExpandedIsSymbols(q);
    forall i | 0 <= i < |p|
      ensures a[i] != b[i] <==> p[i] != q[i]
    {
      PrefixesDiffer(p, q, i);
    }
    var i :| 0 <= i < |p| && p[i] != q[i];
    hide Expanded, LowerLetters;
    assert (a + payload)[i] != (b + payload)[i];
    BurstChangesRemainder(a + payload, b + payload, at);
  }

  /** Eight symbols complete a payload in exactly one way. */
  lemma ChecksumUnique(prefix: string, payload: Data, s: Data)
    requires Symbols(payload) && Symbols(s) && |s| == 8
    requires Valid(prefix, payload + s)
    ensures s == Checksum(prefix, payload)
  {
    hide Remainder, Valid, Checksum;
    var c := Checksum(prefix, payload);
    ChecksumVerifies(prefix, payload);
    ChecksumIsSymbols(prefix, payload);
    if s != c {
      assert (payload + s)[|payload|..] == s && (payload + c)[|payload|..] == c;
      BurstDetected(prefix, payload + s, payload + c, |payload|);
    }
  }

  // ----- Encoding -----

  function Text(v: Data): (t: string)
    requires Symbols(v)
    ensures |t| == |v|
  {
    seq(|v|, i requires 0 <= i < |v| => Symbol(v[i]))
  }

  function Combined(prefix: string, payload: Data): (v: Data)
    requires Symbols(payload)
    ensures Symbols(v)
  {
    ChecksumIsSymbols(prefix, payload);
    payload + Checksum(prefix, payload)
  }

  function Encoded(prefix: string, payload: Data): string
    requires Symbols(payload)
  {
    prefix + ":" + Text(Combined(prefix, payload))
  }

  /** The table has no character for a value above 31. */
  method Encode(prefix: string, payload: Data) returns (ret: string)
    requires Symbols(payload)
    ensures ret == Encoded(prefix, payload)
  {
    hide Symbol, Checksum;
    var checksum := CreateChecksum(prefix, payload);
    var combined := payload + checksum;
    assert combined == Combined(prefix, payload);
    ret := prefix + [':'];
    for i := 0 to |combined|
      invariant ret == prefix + ":" + Text(combined)[..i]
    {
      ret := ret + [Symbol(combined[i])];
    }
  }

  // ----- Decoding -----

  datatype Decoded = Decoded(prefix: string, data: Data)

  /** What every rejected string decodes to. */
  const NOTHING: Decoded := Decoded("", [])

  /** The scan accepts the character at `i`: a letter, a digit, or the only
      separator, not in front and after letters only. */
  predicate CharacterOk(s: string, i: nat)
    requires i < |s|
  {
    IsLower(s[i]) || IsUpper(s[i]) || IsDigit(s[i]) ||
    (s[i] == ':' && i != 0 && forall j :: 0 <= j < i ==> !IsDigit(s[j]) && s[j] != ':')
  }

  predicate Scannable(s: string) {
    forall i :: 0 <= i < |s| ==> CharacterOk(s, i)
  }

  predicate MixedCase(s: string) {
    (exists i :: 0 <= i < |s| && IsLower(s[i])) && (exists i :: 0 <= i < |s| && IsUpper(s[i]))
  }

  /** Where the first separator is; 0 when there is none. */
  function Separator(s: string): (k: nat)
    ensures k != 0 ==> k < |s| && s[k] == ':' && forall j :: 0 < j < k ==> s[j] != ':'
    ensures k == 0 ==> forall j :: 0 < j < |s| ==> s[j] != ':'
  {
    if s == "" then 0
    else
      var n := |s| - 1;
      var k := Separator(s[..n]);
      assert forall j :: 0 <= j < n ==> s[..n][j] == s[j];
      if k != 0 then k else if s[n] == ':' then n else 0
  }

  predicate AllInTable(s: string) {
    forall i :: 0 <= i < |s| ==> Reverse(s[i]) != ABSENT
  }

  function Values(s: string): (v: Data)
    ensures |v| == |s|
  {
    seq(|s|, i requires 0 <= i < |s| => Reverse(s[i]))
  }

  function Payload(s: string): string {
    var k := Separator(s);
    if k == 0 then s else s[k + 1..]
  }

  function PrefixOf(s: string, defaultPrefix: string): string {
    var k := Separator(s);
    if k == 0 then defaultPrefix else Lowered(s[..k])
  }

  predicate Accepts(s: string, defaultPrefix: string) {
    Scannable(s) && !MixedCase(s) && AllInTable(Payload(s)) &&
    Valid(PrefixOf(s, defaultPrefix), Values(Payload(s)))
  }

  function DecodedOf(s: string, defaultPrefix: string): Decoded {
    if Accepts(s, defaultPrefix) then Decoded(PrefixOf(s, defaultPrefix), Values(Payload(s))) else NOTHING
  }

  /** The first pass: every character is checked, and the separator located. */
  method Scan(str: string) returns (ok: bool, lower: bool, upper: bool, prefixSize: nat)
    ensures ok == Scannable(str)
    ensures ok ==> MixedCase(str) == (upper && lower) && prefixSize == Separator(str)
  {
    ok, lower, upper, prefixSize := true, false, false, 0;
    var hasNumber := false;
    var i := 0;
    while i < |str|
      invariant 0 <= i <= |str|
      invariant forall k :: 0 <= k < i ==> CharacterOk(str, k)
      invariant lower == exists k :: 0 <= k < i && IsLower(str[k])
      invariant upper == exists k :: 0 <= k < i && IsUpper(str[k])
      invariant hasNumber == exists k :: 0 <= k < i && IsDigit(str[k])
      invariant prefixSize == Separator(str[..i])
      invariant i > 0 ==> str[0] != ':'
    {
      var c := str[i];
      assert str[..i + 1][..i] == str[..i];
      assert forall k :: 0 <= k < i ==> str[..i][k] == str[k];
      if IsLower(c) {
        lower := true;
      } else if IsUpper(c) {
        upper := true;
      } else if IsDigit(c) {
        hasNumber := true;
      } else if c == ':' {
        if hasNumber || i == 0 || prefixSize != 0 {
          assert !CharacterOk(str, i);
          ok := false;
          return;
        }
        prefixSize := i;
      } else {
        assert !CharacterOk(str, i);
        ok := false;
        return;
      }
      i := i + 1;
    }
    assert str[..|str|] == str;
  }

  /** The second pass: values of the characters after the prefix. */
  method ReadValues(body: string) returns (ok: bool, values: Data)
    ensures ok == AllInTable(body)
    ensures ok ==> values == Values(body)
  {
    hide Reverse;
    ok, values := true, [];
    for k := 0 to |body|
      invariant ok && values == Values(body)[..k]
      invariant forall j :: 0 <= j < k ==> Reverse(body[j]) != ABSENT
    {
      var v := Reverse(body[k]);
      if v == ABSENT {
        ok := false;
        return;
      }
      values := values + [v];
    }
  }

  /** The decoder of the program. */
  method Decode(str: string, defaultPrefix: string) returns (r: Decoded)
    ensures r == DecodedOf(str, defaultPrefix)
  {
    hide Valid, Reverse, MixedCase;
    var ok, lower, upper, prefixSize := Scan(str);
    if !ok {
      return NOTHING;
    }
    if upper && lower {
      return NOTHING;
    }
    var prefix := defaultPrefix;
    if prefixSize != 0 {
      assert CharacterOk(str, prefixSize);
      prefix := "";
      for k := 0 to prefixSize
        invariant prefix == Lowered(str[..prefixSize])[..k]
      {
        assert CharacterOk(str, k);
        prefix := prefix + [LowerCase(str[k])];
      }
      prefixSize := prefixSize + 1;
    }
    assert Payload(str) == str[prefixSize..];
    assert prefix == PrefixOf(str, defaultPrefix);
    var inTable, values := ReadValues(str[prefixSize..]);
    if !inTable {
      return NOTHING;
    }
    var verified := VerifyChecksum(prefix, values);
    if !verified {
      return NOTHING;
    }
    return Decoded(prefix, values);
  }

  // ----- What decoding accepts -----

  predicate LowerLetters(p: string) {
    p != "" && forall i :: 0 <= i < |p| ==> IsLower(p[i])
  }

  lemma TextRoundTrip(v: Data)
    requires Symbols(v)
    ensures AllInTable(Text(v)) && Values(Text(v)) == v
    ensures forall i :: 0 <= i < |v| ==> IsLower(Text(v)[i]) || IsDigit(Text(v)[i])
  {
    hide Reverse, Symbol;
    forall i | 0 <= i < |v|
      ensures Reverse(Symbol(v[i])) == v[i] < 32
      ensures IsLower(Symbol(v[i])) || IsDigit(Symbol(v[i]))
    {
      SymbolRoundTrip(v[i]);
    }
  }

  lemma ValuesRoundTrip(s: string)
    requires AllInTable(s)
    ensures Symbols(Values(s)) && Text(Values(s)) == Lowered(s)
    ensures forall i :: 0 <= i < |s| ==> s[i] != ':'
  {
    hide Reverse, Symbol;
    forall i | 0 <= i < |s|
      ensures Reverse(s[i]) < 32 && Symbol(Reverse(s[i])) == Lowered(s)[i] && s[i] != ':'
    {
      ReverseRoundTrip(s[i]);
    }
  }

  lemma SeparatorIs(s: string, k: nat)
    requires 0 < k < |s| && s[k] == ':'
    requires forall j :: 0 < j < |s| && j != k ==> s[j] != ':'
    ensures Separator(s) == k
  {
  }

  lemma PrefixIsLowered(s: string)
    requires Scannable(s) && Separator(s) != 0
    ensures LowerLetters(Lowered(s[..Separator(s)]))
  {
    var k := Separator(s);
    assert CharacterOk(s, k);
    forall j | 0 <= j < k
      ensures IsLower(Lowered(s[..k])[j])
    {
      assert CharacterOk(s, j);
    }
  }

  /** Encoding and decoding are inverse on, and only on, prefixes of lower-case letters. */
  lemma RoundTrip(prefix: string, payload: Data, defaultPrefix: string)
    requires Symbols(payload)
    ensures DecodedOf(Encoded(prefix, payload), defaultPrefix) == Decoded(prefix, Combined(prefix, payload))
       <==> LowerLetters(prefix)
  {
    hide Valid, Reverse, Checksum;
    var s := Encoded(prefix, payload);
    if LowerLetters(prefix) {
      TextRoundTrip(Combined(prefix, payload));
      NotMixed(s);
      EncodingDecodes(s, prefix, payload, defaultPrefix);
    } else if DecodedOf(s, defaultPrefix) == Decoded(prefix, Combined(prefix, payload)) {
      assert s[|prefix|] == ':';
      assert CharacterOk(s, |prefix|);
      assert Separator(s) != 0;
      PrefixIsLowered(s);
    }
  }

  lemma NotMixed(s: string)
    requires forall i :: 0 <= i < |s| ==> !IsUpper(s[i])
    ensures !MixedCase(s) && Lowered(s) == s
  {
  }

  lemma ReverseIgnoresCase(c: char)
    requires IsUpper(c)
    ensures Reverse(LowerCase(c)) == Reverse(c)
  {
    match c
    case 'A' | 'B' | 'C' | 'D' | 'E' | 'F' | 'G' | 'H' | 'I' | 'J' | 'K' | 'L' | 'M' | 'N' =>
    case 'O' | 'P' | 'Q' | 'R' | 'S' | 'T' | 'U' | 'V' | 'W' | 'X' | 'Y' | 'Z' =>
    case _ =>
  }

  lemma ValuesIgnoreCase(s: string)
    ensures Values(Lowered(s)) == Values(s)
    ensures AllInTable(Lowered(s)) == AllInTable(s)
  {
    hide Reverse;
    forall i | 0 <= i < |s|
      ensures Reverse(Lowered(s)[i]) == Reverse(s[i])
    {
      if IsUpper(s[i]) {
        ReverseIgnoresCase(s[i]);
      }
    }
    assert AllInTable(Lowered(s)) ==> AllInTable(s) by {
      if AllInTable(Lowered(s)) {
        forall i | 0 <= i < |s|
          ensures Reverse(s[i]) != ABSENT
        {
          assert Reverse(Lowered(s)[i]) != ABSENT;
        }
      }
    }
  }

  lemma EncodingScans(s: string, prefix: string, payload: Data)
    requires Symbols(payload) && LowerLetters(prefix) && Lowered(s) == Encoded(prefix, payload)
    ensures Scannable(s) && Separator(s) == |prefix|
    ensures Lowered(s[..|prefix|]) == prefix
    ensures Lowered(Payload(s)) == Text(Combined(prefix, payload))
  {
    hide Checksum, AllInTable, Values, Text;
    var k, t := |prefix|, Text(Combined(prefix, payload));
    TextRoundTrip(Combined(prefix, payload));
    hide Combined, Symbols;
    assert Lowered(s) == prefix + ":" + t;
    SpelledScans(s, prefix, t);
    hide Lowered, Scannable, Separator;
    LoweredParts(s, k);
    assert (prefix + ":" + t)[..k] == prefix && (prefix + ":" + t)[k + 1..] == t;
  }

  lemma SpelledScans(s: string, prefix: string, t: string)
    requires LowerLetters(prefix) && Lowered(s) == prefix + ":" + t
    requires forall i :: 0 <= i < |t| ==> IsLower(t[i]) || IsDigit(t[i])
    ensures Scannable(s) && Separator(s) == |prefix|
  {
    hide Separator;
    var k, e := |prefix|, prefix + ":" + t;
    assert e[k] == ':' && Lowered(s)[k] == ':';
    forall i | 0 <= i < |s| && i != k
      ensures s[i] != ':' && (IsLower(s[i]) || IsUpper(s[i]) || (i > k && IsDigit(s[i])))
    {
      assert e[i] == if i < k then prefix[i] else t[i - k - 1];
      assert Lowered(s)[i] == e[i];
    }
    SeparatorIs(s, k);
  }

  /** A string of one letter case that lower-cases to an encoding decodes to it. */
  lemma EncodingDecodes(s: string, prefix: string, payload: Data, defaultPrefix: string)
    requires Symbols(payload) && LowerLetters(prefix)
    requires Lowered(s) == Encoded(prefix, payload) && !MixedCase(s)
    ensures Accepts(s, defaultPrefix)
    ensures DecodedOf(s, defaultPrefix) == Decoded(prefix, Combined(prefix, payload))
  {
    hide Valid, AllInTable, Text, Separator, MixedCase, Scannable, Lowered, Values, Checksum;
    EncodingScans(s, prefix, payload);
    TextRoundTrip(Combined(prefix, payload));
    ValuesIgnoreCase(Payload(s));
    ChecksumVerifies(prefix, payload);
  }

  /** Letters of both cases are rejected; an encoding is accepted in either case. */
  lemma OneCaseOnly(s: string, prefix: string, payload: Data, defaultPrefix: string)
    requires Symbols(payload) && LowerLetters(prefix) && Lowered(s) == Encoded(prefix, payload)
    ensures Accepts(s, defaultPrefix) <==>
      (forall i :: 0 <= i < |s| ==> !IsLower(s[i])) || (forall i :: 0 <= i < |s| ==> !IsUpper(s[i]))
  {
    hide Encoded, Scannable, AllInTable, Valid, Lowered;
    if !MixedCase(s) {
      EncodingDecodes(s, prefix, payload, defaultPrefix);
    }
  }

  lemma NoSeparator(s: string)
    requires ':' !in s
    ensures Separator(s) == 0 && Payload(s) == s
  {
  }

  lemma LoweredScans(s: string)
    ensures Scannable(Lowered(s)) <==> Scannable(s)
    ensures ':' in Lowered(s) <==> ':' in s
  {
    assert forall i :: 0 <= i < |s| ==>
      (IsDigit(Lowered(s)[i]) <==> IsDigit(s[i])) && (Lowered(s)[i] == ':' <==> s[i] == ':');
    forall i | 0 <= i < |s|
      ensures CharacterOk(Lowered(s), i) <==> CharacterOk(s, i)
    {
    }
    if Scannable(Lowered(s)) {
      forall i | 0 <= i < |s|
        ensures CharacterOk(s, i)
      {
        assert CharacterOk(Lowered(s), i);
      }
    }
  }

  lemma PrefixedScans(p: string, t: string)
    requires LowerLetters(p) && ':' !in t
    ensures var u := p + ":" + t;
      (Scannable(u) <==> Scannable(t)) && Separator(u) == |p| && Payload(u) == t && u[..|p|] == p
  {
    var u := p + ":" + t;
    assert u[|p|] == ':' && u[..|p|] == p && u[|p| + 1..] == t;
    forall i | 0 <= i < |p|
      ensures u[i] == p[i] && IsLower(u[i]) && CharacterOk(u, i)
    {
    }
    assert CharacterOk(u, |p|);
    forall i | 0 <= i < |t|
      ensures u[|p| + 1 + i] == t[i] && t[i] != ':'
      ensures CharacterOk(u, |p| + 1 + i) <==> CharacterOk(t, i)
    {
      assert t[i] in t;
    }
    SeparatorIs(u, |p|);
    if Scannable(u) {
      forall i | 0 <= i < |t|
        ensures CharacterOk(t, i)
      {
        assert CharacterOk(u, |p| + 1 + i);
      }
    }
    if Scannable(t) {
      forall i | 0 <= i < |u|
        ensures CharacterOk(u, i)
      {
        assert i > |p| ==> CharacterOk(t, i - |p| - 1);
      }
    }
  }

  /** A string without a separator decodes, in one letter case, as if the default prefix stood
      in front of it. */
  lemma DefaultStandsInFront(s: string, defaultPrefix: string, other: string)
    requires ':' !in s && LowerLetters(defaultPrefix) && !MixedCase(s)
    ensures DecodedOf(s, defaultPrefix) == DecodedOf(defaultPrefix + ":" + Lowered(s), other)
  {
    var t := Lowered(s);
    var u := defaultPrefix + ":" + t;
    NoSeparator(s);
    LoweredScans(s);
    PrefixedScans(defaultPrefix, t);
    ValuesIgnoreCase(s);
    NoneUpper(s, defaultPrefix);
    hide Valid, Scannable, AllInTable, Values, MixedCase, Separator;
    NotMixed(u);
    NotMixed(defaultPrefix);
  }

  lemma NoneUpper(s: string, prefix: string)
    requires LowerLetters(prefix)
    ensures var u := prefix + ":" + Lowered(s);
      (forall i :: 0 <= i < |u| ==> !IsUpper(u[i])) && forall i :: 0 <= i < |prefix| ==> !IsUpper(prefix[i])
  {
    var u := prefix + ":" + Lowered(s);
    forall i | 0 <= i < |u|
      ensures !IsUpper(u[i])
    {
      assert u[i] == if i < |prefix| then prefix[i] else if i == |prefix| then ':' else Lowered(s)[i - |prefix| - 1];
    }
  }

  /** Every prefix that has no separator to it is returned as it is. */
  lemma DefaultReturned(s: string, defaultPrefix: string)
    requires ':' !in s
    ensures Accepts(s, defaultPrefix) <==>
      (forall i :: 0 <= i < |s| ==> Reverse(s[i]) != ABSENT) && Valid(defaultPrefix, Values(s)) &&
      ((forall i :: 0 <= i < |s| ==> !IsLower(s[i])) || (forall i :: 0 <= i < |s| ==> !IsUpper(s[i])))
    ensures Accepts(s, defaultPrefix) ==> DecodedOf(s, defaultPrefix) == Decoded(defaultPrefix, Values(s))
  {
    NoSeparator(s);
    hide Valid, Reverse, Separator;
    if AllInTable(s) {
      forall i | 0 <= i < |s|
        ensures CharacterOk(s, i)
      {
        ReverseRoundTrip(s[i]);
      }
    }
  }

  /** What an accepted string spells: every accepted string with a separator and at
      least eight data characters is, up to letter case, an encoding. */
  lemma AcceptedIsEncoding(s: string, defaultPrefix: string)
    requires Accepts(s, defaultPrefix) && Separator(s) != 0 && |Payload(s)| >= 8
    ensures var d := DecodedOf(s, defaultPrefix);
      && LowerLetters(d.prefix) && Symbols(d.data) && |d.data| >= 8
      && Lowered(s) == Encoded(d.prefix, d.data[..|d.data| - 8])
  {
    hide Valid, Checksum, AllInTable, Values, MixedCase, Scannable, Separator, Lowered, Text, Symbols;
    var k := Separator(s);
    var prefix, v := Lowered(s[..k]), Values(Payload(s));
    var n := |v| - 8;
    PrefixIsLowered(s);
    ValuesRoundTrip(Payload(s));
    SplitSymbols(v, n);
    ChecksumUnique(prefix, v[..n], v[n..]);
    assert Combined(prefix, v[..n]) == v;
    LoweredAround(s, k);
  }

  lemma SplitSymbols(v: Data, n: nat)
    requires n <= |v| && Symbols(v)
    ensures Symbols(v[..n]) && Symbols(v[n..]) && v == v[..n] + v[n..]
  {
  }

  lemma LoweredAround(s: string, k: nat)
    requires k < |s| && s[k] == ':'
    ensures Lowered(s) == Lowered(s[..k]) + ":" + Lowered(s[k + 1..])
  {
  }

  /** Decoding accepts exactly the encodings, in one letter case. */
  lemma AcceptsExactly(s: string, defaultPrefix: string)
    ensures Accepts(s, defaultPrefix) && Separator(s) != 0 && |Payload(s)| >= 8
       <==> !MixedCase(s) &&
            exists p, x :: Symbols(x) && LowerLetters(p) && Lowered(s) == Encoded(p, x)
  {
    hide Encoded, MixedCase, Separator, Valid;
    if Accepts(s, defaultPrefix) && Separator(s) != 0 && |Payload(s)| >= 8 {
      AcceptedIsEncoding(s, defaultPrefix);
      var d := DecodedOf(s, defaultPrefix);
      assert Symbols(d.data[..|d.data| - 8]);
      assert !MixedCase(s);
    }
    if !MixedCase(s) && exists p, x :: Symbols(x) && LowerLetters(p) && Lowered(s) == Encoded(p, x) {
      var p, x :| Symbols(x) && LowerLetters(p) && Lowered(s) == Encoded(p, x);
      EncodingDecodes(s, p, x, defaultPrefix);
      EncodingScans(s, p, x);
      assert |Lowered(Payload(s))| == |Combined(p, x)|;
    }
  }

  lemma EmptyIsInvalid()
    ensures !Valid("", [])
  {
    assert Expanded("") + [] == [0];
    assert Run(1, [0]) == Step(1, 0);
  }

  /** An accepted string never decodes to the value that stands for rejection. */
  lemma NothingMeansRejected(s: string, defaultPrefix: string)
    ensures DecodedOf(s, defaultPrefix) == NOTHING <==> !Accepts(s, defaultPrefix)
  {
    hide Valid;
    EmptyIsInvalid();
  }

  lemma SameSeparator(s: string, t: string)
    requires Scannable(t) && Separator(s) != 0 && |t| == |s| && t[Separator(s)] == ':'
    ensures Separator(t) == Separator(s)
  {
    var k := Separator(s);
    assert CharacterOk(t, k);
    forall j | 0 < j < |t| && j != k
      ensures t[j] != ':'
    {
      assert CharacterOk(t, j);
    }
    SeparatorIs(t, k);
  }

  /** Characters differ, up to letter case, exactly where their values do. */
  lemma ValuesDifferWithText(a: string, b: string, i: nat)
    requires AllInTable(a) && AllInTable(b) && |a| == |b| && i < |a|
    ensures Values(a)[i] != Values(b)[i] <==> Lowered(a)[i] != Lowered(b)[i]
  {
    hide Reverse, Symbol;
    ValuesRoundTrip(a);
    ValuesRoundTrip(b);
    assert Text(Values(a))[i] == Lowered(a)[i] && Text(Values(b))[i] == Lowered(b)[i];
    SymbolRoundTrip(Values(a)[i]);
    SymbolRoundTrip(Values(b)[i]);
  }

  /** Two texts of one length that differ at most in the eight places from `at` on. */
  predicate TextDiffersWithin(u: string, w: string, at: int) {
    |u| == |w| && forall i :: 0 <= i < |u| && u[i] != w[i] ==> at <= i < at + 8
  }

  lemma PayloadBurst(prefix: string, a: string, b: string, at: int)
    requires AllInTable(a) && AllInTable(b) && |a| == |b| && Lowered(a) != Lowered(b)
    requires TextDiffersWithin(Lowered(a), Lowered(b), at)
    requires Valid(prefix, Values(a))
    ensures !Valid(prefix, Values(b))
  {
    hide Valid, Values, AllInTable;
    ValuesRoundTrip(a);
    ValuesRoundTrip(b);
    forall i | 0 <= i < |a|
      ensures Values(a)[i] != Values(b)[i] <==> Lowered(a)[i] != Lowered(b)[i]
    {
      ValuesDifferWithText(a, b, i);
    }
    var i :| 0 <= i < |a| && Lowered(a)[i] != Lowered(b)[i];
    BurstDetected(prefix, Values(a), Values(b), at);
  }

  lemma LoweredParts(s: string, k: nat)
    requires k < |s|
    ensures Lowered(s[..k]) == Lowered(s)[..k] && Lowered(s[k + 1..]) == Lowered(s)[k + 1..]
  {
  }

  lemma WindowAfter(u: string, w: string, k: nat, at: int)
    requires TextDiffersWithin(u, w, at) && u != w && k < |u| && u[..k + 1] == w[..k + 1]
    ensures TextDiffersWithin(u[k + 1..], w[k + 1..], at - k - 1)
    ensures u[..k] == w[..k] && u[k + 1..] != w[k + 1..]
  {
    assert u == u[..k + 1] + u[k + 1..] && w == w[..k + 1] + w[k + 1..];
    assert u[..k] == u[..k + 1][..k];
    var u', w' := u[k + 1..], w[k + 1..];
    forall i | 0 <= i < |u'| && u'[i] != w'[i]
      ensures at - k - 1 <= i < at - k - 1 + 8
    {
      assert u[i + k + 1] != w[i + k + 1];
    }
  }

  lemma ColonKept(s: string, t: string, k: nat)
    requires k < |s| == |t| && s[k] == ':' && Lowered(s)[..k + 1] == Lowered(t)[..k + 1]
    ensures t[k] == ':'
  {
    assert Lowered(s)[..k + 1][k] == Lowered(t)[..k + 1][k];
  }

  lemma AcceptedParts(s: string, defaultPrefix: string)
    requires Accepts(s, defaultPrefix) && Separator(s) != 0
    ensures var k := Separator(s);
      k < |s| && AllInTable(s[k + 1..]) && Valid(Lowered(s[..k]), Values(s[k + 1..]))
  {
    hide Valid, AllInTable, Values, MixedCase, Lowered, Scannable, Separator;
  }

  lemma KeptSeparator(s: string, t: string, defaultPrefix: string)
    requires Accepts(s, defaultPrefix) && Accepts(t, defaultPrefix) && Separator(s) != 0 && |t| == |s|
    requires Lowered(s)[..Separator(s) + 1] == Lowered(t)[..Separator(s) + 1]
    ensures Separator(t) == Separator(s)
  {
    hide Valid, AllInTable, Values, MixedCase, Lowered, Scannable, Separator;
    ColonKept(s, t, Separator(s));
    SameSeparator(s, t);
  }

  /** A burst of up to eight wrong characters after the separator is rejected. */
  lemma CorruptionRejected(s: string, t: string, defaultPrefix: string, at: int)
    requires Accepts(s, defaultPrefix) && Separator(s) != 0
    requires |t| == |s| && Lowered(s) != Lowered(t)
    requires Lowered(s)[..Separator(s) + 1] == Lowered(t)[..Separator(s) + 1]
    requires TextDiffersWithin(Lowered(s), Lowered(t), at)
    ensures !Accepts(t, defaultPrefix)
  {
    hide Valid, AllInTable, Values, MixedCase, Scannable, Lowered, TextDiffersWithin, Separator, Accepts;
    if Accepts(t, defaultPrefix) {
      var k := Separator(s);
      AcceptedParts(s, defaultPrefix);
      KeptSeparator(s, t, defaultPrefix);
      AcceptedParts(t, defaultPrefix);
      LoweredParts(s, k);
      LoweredParts(t, k);
      WindowAfter(Lowered(s), Lowered(t), k, at);
      PayloadBurst(Lowered(s[..k]), s[k + 1..], t[k + 1..], at - k - 1);
    }
  }
}
