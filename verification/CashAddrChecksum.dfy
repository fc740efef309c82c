/** The CashAddr checksum: the 40-bit shift register of `PolyMod`, the division
    by the generator polynomial over GF(32) that it carries out, and the burst
    errors it detects. */
module CashAddrChecksum {

  type Data = seq<bv8>

  /** Every element is a 5-bit group, that is, an element of GF(32). */
  predicate Symbols(v: Data) {
    forall i :: 0 <= i < |v| ==> v[i] < 32
  }

  // ----- The register -----

  /** Addition of two bit-packed polynomials over GF(32). */
  function Plus(a: bv64, b: bv64): bv64 {
    a ^ b
  }

  /** `k` when the bit `bit` of `c0` is set. */
  function Term(c0: bv64, bit: bv64, k: bv64): bv64 {
    if c0 & bit != 0 then k else 0
  }

  /** What the symbol shifted out of the register adds back. */
  function Feedback(c0: bv64): bv64 {
    Plus(Term(c0, 0x01, 0x98_f2bc_8e61),
         Plus(Term(c0, 0x02, 0x79_b76d_99e2),
              Plus(Term(c0, 0x04, 0xf3_3e5f_b3c4),
                   Plus(Term(c0, 0x08, 0xae_2eab_e2a8),
                        Term(c0, 0x10, 0x1e_4f43_e470)))))
  }

  function Top(c: bv64): bv64 {
    c >> 35
  }

  function Shifted(c: bv64): bv64 {
    (c & 0x07_ffff_ffff) << 5
  }

  function Step(c: bv64, d: bv8): bv64 {
    Plus(Plus(Shifted(c), d as bv64), Feedback(Top(c)))
  }

  predicate InRegister(c: bv64) {
    c < 0x100_0000_0000
  }

  function Run(c: bv64, v: Data): bv64 {
    if v == [] then c else Step(Run(c, v[..|v| - 1]), v[|v| - 1])
  }

  function Remainder(v: Data): bv64 {
    Plus(Run(1, v), 1)
  }

  /** The checksum loop of the program, updating the register in place. */
  method PolyMod(v: Data) returns (r: bv64)
    ensures r == Remainder(v)
  {
    var c: bv64 := 1;
    var i := 0;
    while i < |v|
      invariant 0 <= i <= |v|
      invariant InRegister(c)
      invariant c == Run(1, v[..i])
    {
      c := PolyModStep(c, v[i]);
      assert v[..i + 1][..i] == v[..i];
      i := i + 1;
    }
    assert v[..|v|] == v;
    r := c ^ 1;
  }

  /** One iteration of that loop. */
  method PolyModStep(before: bv64, d: bv8) returns (c: bv64)
    requires InRegister(before)
    ensures c == Step(before, d) && InRegister(c)
  {
    hide Step, Term, Plus, InRegister;
    var c0: bv8 := ((before >> 35) & 0xff) as bv8;
    TopByte(before);
    c := ((before & 0x07_ffff_ffff) << 5) ^ d as bv64;
    ghost var shifted := c;
    c := AddIfSet(c, c0, 0x01, 0x98_f2bc_8e61);
    c := AddIfSet(c, c0, 0x02, 0x79_b76d_99e2);
    c := AddIfSet(c, c0, 0x04, 0xf3_3e5f_b3c4);
    c := AddIfSet(c, c0, 0x08, 0xae_2eab_e2a8);
    c := AddIfSet(c, c0, 0x10, 0x1e_4f43_e470);
    StepByTerms(before, d, shifted);
    StepStaysInRegister(before, d);
  }

  /** For a set bit of the symbol shifted out, add that multiple of the generator's tail. */
  method AddIfSet(before: bv64, c0: bv8, bit: bv8, k: bv64) returns (c: bv64)
    ensures c == Plus(before, Term(c0 as bv64, bit as bv64, k))
  {
    c := before;
    WiderAnd(c0, bit);
    hide Plus;
    if c0 & bit != 0 {
      c := c ^ k;
      PlusIsXor(before, k);
    }
    PlusBasics(before);
  }

  lemma WiderAnd(a: bv8, b: bv8)
    ensures a & b != 0 <==> a as bv64 & b as bv64 != 0
  {
  }

  lemma PlusIsXor(a: bv64, b: bv64)
    ensures a ^ b == Plus(a, b)
  {
  }

  lemma PlusAssoc(a: bv64, b: bv64, c: bv64)
    ensures Plus(Plus(a, b), c) == Plus(a, Plus(b, c))
  {
    calc {
      Plus(Plus(a, b), c);
      Plus(a ^ b, c);
      (a ^ b) ^ c;
      a ^ (b ^ c);
      Plus(a, b ^ c);
      Plus(a, Plus(b, c));
    }
  }

  lemma Reassociate(s: bv64, a: bv64, b: bv64, c: bv64, d: bv64, e: bv64)
    ensures Plus(Plus(Plus(Plus(Plus(s, a), b), c), d), e) == Plus(s, Plus(a, Plus(b, Plus(c, Plus(d, e)))))
  {
    hide Plus;
    PlusAssoc(Plus(Plus(Plus(s, a), b), c), d, e);
    PlusAssoc(Plus(Plus(s, a), b), c, Plus(d, e));
    PlusAssoc(Plus(s, a), b, Plus(c, Plus(d, e)));
    PlusAssoc(s, a, Plus(b, Plus(c, Plus(d, e))));
  }

  lemma StepByTerms(c: bv64, d: bv8, s: bv64)
    requires s == ((c & 0x07_ffff_ffff) << 5) ^ d as bv64
    ensures Step(c, d) ==
      Plus(Plus(Plus(Plus(Plus(s,
        Term(Top(c), 0x01, 0x98_f2bc_8e61)),
        Term(Top(c), 0x02, 0x79_b76d_99e2)),
        Term(Top(c), 0x04, 0xf3_3e5f_b3c4)),
        Term(Top(c), 0x08, 0xae_2eab_e2a8)),
        Term(Top(c), 0x10, 0x1e_4f43_e470))
  {
    assert s == Plus(Shifted(c), d as bv64) by {
      hide Term;
    }
    hide Plus, Term, Top, Shifted;
    Reassociate(s, Term(Top(c), 0x01, 0x98_f2bc_8e61), Term(Top(c), 0x02, 0x79_b76d_99e2),
      Term(Top(c), 0x04, 0xf3_3e5f_b3c4), Term(Top(c), 0x08, 0xae_2eab_e2a8), Term(Top(c), 0x10, 0x1e_4f43_e470));
  }

  lemma TopByte(c: bv64)
    requires InRegister(c)
    ensures ((c >> 35) & 0xff) as bv8 as bv64 == Top(c) < 32
  {
  }

  lemma StepStaysInRegister(c: bv64, d: bv8)
    requires InRegister(c)
    ensures InRegister(Step(c, d))
  {
    ShiftedInRegister(c, d);
    FeedbackInRegister(Top(c));
    PlusInRegister(Plus(Shifted(c), d as bv64), Feedback(Top(c)));
    hide Feedback, Shifted, Plus;
  }

  lemma PlusInRegister(a: bv64, b: bv64)
    requires InRegister(a) && InRegister(b)
    ensures InRegister(Plus(a, b))
  {
  }

  lemma ShiftedInRegister(c: bv64, d: bv8)
    ensures InRegister(Plus(Shifted(c), d as bv64))
  {
  }

  lemma FeedbackInRegister(c0: bv64)
    ensures InRegister(Feedback(c0))
  {
    hide Plus;
    var a, b, c := Term(c0, 0x01, 0x98_f2bc_8e61), Term(c0, 0x02, 0x79_b76d_99e2), Term(c0, 0x04, 0xf3_3e5f_b3c4);
    var d, e := Term(c0, 0x08, 0xae_2eab_e2a8), Term(c0, 0x10, 0x1e_4f43_e470);
    PlusInRegister(d, e);
    PlusInRegister(c, Plus(d, e));
    PlusInRegister(b, Plus(c, Plus(d, e)));
    PlusInRegister(a, Plus(b, Plus(c, Plus(d, e))));
  }

  lemma {:induction false} RunStaysInRegister(c: bv64, v: Data)
    requires InRegister(c)
    ensures InRegister(Run(c, v))
  {
    hide Step;
    if v != [] {
      RunStaysInRegister(c, v[..|v| - 1]);
      StepStaysInRegister(Run(c, v[..|v| - 1]), v[|v| - 1]);
    }
  }

  lemma {:induction false} RunConcat(c: bv64, v: Data, w: Data)
    ensures Run(c, v + w) == Run(Run(c, v), w)
  {
    hide Step;
    if w == [] {
      assert v + w == v;
    } else {
      var w' := w[..|w| - 1];
      assert (v + w)[..|v + w| - 1] == v + w';
      RunConcat(c, v, w');
    }
  }

  // ----- Linearity over XOR -----

  /** Addition in GF(32). */
  function Add(a: bv8, b: bv8): bv8 {
    a ^ b
  }

  function Xor(v: Data, w: Data): (d: Data)
    requires |v| == |w|
  {
    seq(|v|, i requires 0 <= i < |v| => Add(v[i], w[i]))
  }

  lemma Interchange(a: bv64, b: bv64, c: bv64, d: bv64)
    ensures Plus(Plus(a, b), Plus(c, d)) == Plus(Plus(a, c), Plus(b, d))
  {
    assert Plus(b, c) == Plus(c, b);
    hide Plus;
    PlusAssoc(a, b, Plus(c, d));
    PlusAssoc(b, c, d);
    PlusAssoc(c, b, d);
    PlusAssoc(a, c, Plus(b, d));
  }

  lemma BitLinear(a: bv64, b: bv64, bit: bv64)
    requires bit == 0x01 || bit == 0x02 || bit == 0x04 || bit == 0x08 || bit == 0x10
    ensures (a ^ b) & bit != 0 <==> ((a & bit != 0) != (b & bit != 0))
  {
  }

  lemma PlusBasics(k: bv64)
    ensures Plus(k, k) == 0 && Plus(k, 0) == k && Plus(0, k) == k
  {
  }

  lemma TermLinear(a: bv64, b: bv64, bit: bv64, k: bv64)
    requires bit == 0x01 || bit == 0x02 || bit == 0x04 || bit == 0x08 || bit == 0x10
    ensures Plus(Term(a, bit, k), Term(b, bit, k)) == Term(Plus(a, b), bit, k)
  {
    BitLinear(a, b, bit);
    assert Plus(a, b) == a ^ b;
    hide Plus;
    PlusBasics(k);
    PlusBasics(0);
  }

  lemma FeedbackLinear(a: bv64, b: bv64)
    ensures Plus(Feedback(a), Feedback(b)) == Feedback(Plus(a, b))
  {
    hide Term, Plus;
    var (a1, b1) := (Term(a, 0x01, 0x98_f2bc_8e61), Term(b, 0x01, 0x98_f2bc_8e61));
    var (a2, b2) := (Term(a, 0x02, 0x79_b76d_99e2), Term(b, 0x02, 0x79_b76d_99e2));
    var (a3, b3) := (Term(a, 0x04, 0xf3_3e5f_b3c4), Term(b, 0x04, 0xf3_3e5f_b3c4));
    var (a4, b4) := (Term(a, 0x08, 0xae_2eab_e2a8), Term(b, 0x08, 0xae_2eab_e2a8));
    var (a5, b5) := (Term(a, 0x10, 0x1e_4f43_e470), Term(b, 0x10, 0x1e_4f43_e470));
    Interchange(a4, a5, b4, b5);
    Interchange(a3, Plus(a4, a5), b3, Plus(b4, b5));
    Interchange(a2, Plus(a3, Plus(a4, a5)), b2, Plus(b3, Plus(b4, b5)));
    Interchange(a1, Plus(a2, Plus(a3, Plus(a4, a5))), b1, Plus(b2, Plus(b3, Plus(b4, b5))));
    TermLinear(a, b, 0x01, 0x98_f2bc_8e61);
    TermLinear(a, b, 0x02, 0x79_b76d_99e2);
    TermLinear(a, b, 0x04, 0xf3_3e5f_b3c4);
    TermLinear(a, b, 0x08, 0xae_2eab_e2a8);
    TermLinear(a, b, 0x10, 0x1e_4f43_e470);
  }

  lemma ShiftLinear(a: bv64, b: bv64)
    ensures Plus(Shifted(a), Shifted(b)) == Shifted(Plus(a, b))
    ensures Plus(Top(a), Top(b)) == Top(Plus(a, b))
  {
  }

  lemma WidenLinear(d: bv8, e: bv8)
    ensures Plus(d as bv64, e as bv64) == Add(d, e) as bv64
  {
  }

  lemma StepLinear(a: bv64, d: bv8, b: bv64, e: bv8)
    ensures Plus(Step(a, d), Step(b, e)) == Step(Plus(a, b), Add(d, e))
  {
    hide Feedback, Shifted, Top, Plus, Add;
    ShiftLinear(a, b);
    WidenLinear(d, e);
    FeedbackLinear(Top(a), Top(b));
    Interchange(Shifted(a), d as bv64, Shifted(b), e as bv64);
    Interchange(Plus(Shifted(a), d as bv64), Feedback(Top(a)), Plus(Shifted(b), e as bv64), Feedback(Top(b)));
  }

  lemma {:induction false} RunLinear(a: bv64, v: Data, b: bv64, w: Data)
    requires |v| == |w|
    ensures Plus(Run(a, v), Run(b, w)) == Run(Plus(a, b), Xor(v, w))
  {
    hide Step, Plus, Add;
    if v == [] {
    } else {
      var v', w' := v[..|v| - 1], w[..|w| - 1];
      RunLinear(a, v', b, w');
      assert Xor(v, w)[..|v| - 1] == Xor(v', w');
      StepLinear(Run(a, v'), v[|v| - 1], Run(b, w'), w[|w| - 1]);
    }
  }

  // ----- Zero input -----

  function Zeros(n: nat): (v: Data) {
    seq(n, _ => 0)
  }

  lemma ZeroStep()
    ensures Step(0, 0) == 0
  {
  }

  lemma {:induction false} RunOfZeros(n: nat)
    ensures Run(0, Zeros(n)) == 0
  {
    hide Step;
    if n > 0 {
      assert Zeros(n)[..n - 1] == Zeros(n - 1);
      RunOfZeros(n - 1);
      ZeroStep();
    }
  }

  /** Multiplying by x never maps a nonzero residue to zero. */
  lemma ZeroStepInjective(c: bv64)
    requires InRegister(c) && c != 0
    ensures Step(c, 0) != 0
  {
  }

  lemma {:induction false} ZeroRunInjective(c: bv64, n: nat)
    requires InRegister(c) && c != 0
    ensures Run(c, Zeros(n)) != 0
  {
    hide Step;
    if n > 0 {
      assert Zeros(n)[..n - 1] == Zeros(n - 1);
      ZeroRunInjective(c, n - 1);
      RunStaysInRegister(c, Zeros(n - 1));
      ZeroStepInjective(Run(c, Zeros(n - 1)));
    }
  }

  // ----- The register as eight symbols -----

  predicate GroupOffset(k: bv8) {
    k == 35 || k == 30 || k == 25 || k == 20 || k == 15 || k == 10 || k == 5 || k == 0
  }

  function Group(m: bv64, k: bv8): bv8
    requires GroupOffset(k)
  {
    ((m >> k) & 0x1f) as bv8
  }

  /** The 5-bit groups of a 40-bit integer, the highest first. */
  function Unpack(m: bv64): (s: Data)
    ensures |s| == 8
  {
    [Group(m, 35), Group(m, 30), Group(m, 25), Group(m, 20), Group(m, 15), Group(m, 10), Group(m, 5), Group(m, 0)]
  }

  /** Splitting the remainder into 5-bit groups, as the loop of `CreateChecksum` does. */
  method SplitGroups(mod: bv64) returns (ret: Data)
    ensures ret == Unpack(mod)
  {
    ret := [];
    var i: bv8 := 0;
    while i < 8
      invariant i <= 8
      invariant |ret| == i as int <= 8
      invariant ret == Unpack(mod)[..i as int]
    {
      var g := ((mod >> (5 * (7 - i))) & 0x1f) as bv8;
      assert g == Unpack(mod)[i as int] by {
        if i == 0 {} else if i == 1 {} else if i == 2 {} else if i == 3 {}
        else if i == 4 {} else if i == 5 {} else if i == 6 {} else {}
      }
      ret := ret + [g];
      i := i + 1;
    }
  }

  lemma GroupIsSymbol(m: bv64, k: bv8)
    requires GroupOffset(k)
    ensures Group(m, k) < 32
  {
  }

  lemma UnpackIsSymbols(m: bv64)
    ensures Symbols(Unpack(m))
  {
    hide Group;
    GroupIsSymbol(m, 35);
    GroupIsSymbol(m, 30);
    GroupIsSymbol(m, 25);
    GroupIsSymbol(m, 20);
    GroupIsSymbol(m, 15);
    GroupIsSymbol(m, 10);
    GroupIsSymbol(m, 5);
    GroupIsSymbol(m, 0);
  }

  lemma UnpackInjective(a: bv64, b: bv64)
    requires InRegister(a) && InRegister(b) && Unpack(a) == Unpack(b)
    ensures a == b
  {
    assert Unpack(a)[0] == Unpack(b)[0] && Unpack(a)[1] == Unpack(b)[1];
    assert Unpack(a)[2] == Unpack(b)[2] && Unpack(a)[3] == Unpack(b)[3];
    assert Unpack(a)[4] == Unpack(b)[4] && Unpack(a)[5] == Unpack(b)[5];
    assert Unpack(a)[6] == Unpack(b)[6] && Unpack(a)[7] == Unpack(b)[7];
  }

  lemma GroupLinear(a: bv64, b: bv64, k: bv8)
    requires GroupOffset(k)
    ensures Group(Plus(a, b), k) == Add(Group(a, k), Group(b, k))
  {
    if k == 35 {} else if k == 30 {} else if k == 25 {} else if k == 20 {}
    else if k == 15 {} else if k == 10 {} else if k == 5 {} else {}
  }

  lemma UnpackLinear(a: bv64, b: bv64)
    ensures Unpack(Plus(a, b)) == Xor(Unpack(a), Unpack(b))
  {
    hide Group, Plus, Add;
    GroupLinear(a, b, 35);
    GroupLinear(a, b, 30);
    GroupLinear(a, b, 25);
    GroupLinear(a, b, 20);
    GroupLinear(a, b, 15);
    GroupLinear(a, b, 10);
    GroupLinear(a, b, 5);
    GroupLinear(a, b, 0);
  }

  lemma GroupShifted(c: bv64, d: bv8, k: bv8)
    requires InRegister(c) && d < 32 && GroupOffset(k)
    ensures Group(Plus(Shifted(c), d as bv64), k) == if k == 0 then d else Group(c, k - 5)
  {
    if k == 35 {} else if k == 30 {} else if k == 25 {} else if k == 20 {}
    else if k == 15 {} else if k == 10 {} else if k == 5 {} else {}
  }

  lemma UnpackShifted(c: bv64, d: bv8)
    requires InRegister(c) && d < 32
    ensures Unpack(Plus(Shifted(c), d as bv64)) == Unpack(c)[1..] + [d]
  {
    hide Group, Plus, Shifted;
    GroupShifted(c, d, 35);
    GroupShifted(c, d, 30);
    GroupShifted(c, d, 25);
    GroupShifted(c, d, 20);
    GroupShifted(c, d, 15);
    GroupShifted(c, d, 10);
    GroupShifted(c, d, 5);
    GroupShifted(c, d, 0);
  }

  lemma TopGroup(c: bv64)
    requires InRegister(c)
    ensures Group(c, 35) as bv64 == Top(c) < 32
  {
  }

  // ----- GF(32) and the generator polynomial -----

  /** Doubling modulo a^5 + a^3 + 1. */
  function Twice(a: bv8): bv8 {
    if a & 0x10 == 0 then a << 1 else (a << 1) ^ 0x29
  }

  /** Product in GF(32), one bit of `a` at a time. */
  function GfMul(a: bv8, b: bv8): bv8 {
    (if a & 1 != 0 then b else 0) ^
    (if a & 2 != 0 then Twice(b) else 0) ^
    (if a & 4 != 0 then Twice(Twice(b)) else 0) ^
    (if a & 8 != 0 then Twice(Twice(Twice(b))) else 0) ^
    (if a & 16 != 0 then Twice(Twice(Twice(Twice(b)))) else 0)
  }

  /** `a` times the generator x^8 + 19x^7 + 3x^6 + 25x^5 + 11x^4 + 25x^3 + 3x^2 + 19x + 1,
      highest coefficient first. */
  function ScaledGenerator(a: bv8): (v: Data)
    ensures |v| == 9 && v[0] == a
  {
    [a, GfMul(a, 19), GfMul(a, 3), GfMul(a, 25), GfMul(a, 11), GfMul(a, 25), GfMul(a, 3), GfMul(a, 19), GfMul(a, 1)]
  }

  /** The five masks are the multiples of the generator's tail in GF(32). */
  lemma FeedbackIsScaledTail(c0: bv64)
    requires c0 < 32
    ensures Unpack(Feedback(c0)) == ScaledGenerator(c0 as bv8)[1..]
  {
    FeedbackHigh(c0);
    FeedbackLow(c0);
    hide Group, Feedback, GfMul;
  }

  lemma FeedbackHigh(c0: bv64)
    requires c0 < 32
    ensures Group(Feedback(c0), 35) == GfMul(c0 as bv8, 19) && Group(Feedback(c0), 30) == GfMul(c0 as bv8, 3)
    ensures Group(Feedback(c0), 25) == GfMul(c0 as bv8, 25) && Group(Feedback(c0), 20) == GfMul(c0 as bv8, 11)
  {
  }

  lemma FeedbackLow(c0: bv64)
    requires c0 < 32
    ensures Group(Feedback(c0), 15) == GfMul(c0 as bv8, 25) && Group(Feedback(c0), 10) == GfMul(c0 as bv8, 3)
    ensures Group(Feedback(c0), 5) == GfMul(c0 as bv8, 19) && Group(Feedback(c0), 0) == GfMul(c0 as bv8, 1)
  {
  }

  /** One step of the register, symbol by symbol: multiply by x, add `d`, and
      subtract the multiple of the generator that clears the overflow. */
  lemma UnpackStep(c: bv64, d: bv8)
    requires InRegister(c) && d < 32
    ensures Unpack(Step(c, d)) == Xor(Unpack(c)[1..] + [d], ScaledGenerator(Unpack(c)[0])[1..])
  {
    hide Group, Feedback, Shifted, Plus, Top, GfMul, Add;
    UnpackShifted(c, d);
    UnpackLinear(Plus(Shifted(c), d as bv64), Feedback(Top(c)));
    TopGroup(c);
    FeedbackIsScaledTail(Top(c));
  }

  lemma ZeroMultiple()
    ensures ScaledGenerator(0) == Zeros(9)
  {
  }

  lemma XorZeros(s: Data)
    ensures Xor(Zeros(|s|), s) == s
    ensures Xor(s, Zeros(|s|)) == s
  {
    forall i | 0 <= i < |s|
      ensures Add(0, s[i]) == s[i] && Add(s[i], 0) == s[i]
    {
    }
  }

  lemma UnpackZero()
    ensures Unpack(0) == Zeros(8)
  {
  }

  /** Up to eight symbols fed into the empty register are simply held there. */
  lemma {:induction false} RegisterHolds(s: Data)
    requires |s| <= 8 && Symbols(s)
    ensures Unpack(Run(0, s)) == Zeros(8 - |s|) + s
  {
    hide Step, Unpack, Add, ScaledGenerator;
    if s == [] {
      UnpackZero();
    } else {
      var s', d := s[..|s| - 1], s[|s| - 1];
      RegisterHolds(s');
      RunStaysInRegister(0, s');
      UnpackStep(Run(0, s'), d);
      ZeroMultiple();
      var next := Unpack(Run(0, s'))[1..] + [d];
      assert ScaledGenerator(0)[1..] == Zeros(8);
      XorZeros(next);
      assert next == Zeros(8 - |s|) + s;
    }
  }

  lemma RunOfUnpacked(m: bv64)
    requires InRegister(m)
    ensures Run(0, Unpack(m)) == m
  {
    hide Step, Unpack;
    UnpackIsSymbols(m);
    RegisterHolds(Unpack(m));
    RunStaysInRegister(0, Unpack(m));
    assert Zeros(0) + Unpack(m) == Unpack(m);
    UnpackInjective(Run(0, Unpack(m)), m);
  }

  // ----- Burst detection -----

  /** `v` and `w` disagree at most inside the eight positions from `at` on. */
  predicate DifferWithin(v: Data, w: Data, at: int) {
    |v| == |w| && forall j :: 0 <= j < |v| && v[j] != w[j] ==> at <= j < at + 8
  }

  lemma BurstIsNonzero(d: Data, at: nat)
    requires Symbols(d) && at + 8 <= |d|
    requires forall j :: 0 <= j < |d| && d[j] != 0 ==> at <= j < at + 8
    requires exists j :: 0 <= j < |d| && d[j] != 0
    ensures Run(0, d) != 0
  {
    hide Run, Unpack;
    var win := d[at..at + 8];
    var rest := |d| - at - 8;
    assert d == Zeros(at) + win + Zeros(rest);
    RunConcat(0, Zeros(at) + win, Zeros(rest));
    RunConcat(0, Zeros(at), win);
    RunOfZeros(at);
    RegisterHolds(win);
    assert Zeros(0) + win == win;
    var j :| 0 <= j < |d| && d[j] != 0;
    assert win[j - at] != Zeros(8)[j - at];
    UnpackZero();
    RunStaysInRegister(0, win);
    ZeroRunInjective(Run(0, win), rest);
  }

  /** Whatever their length, two symbol lists that differ only inside a window of
      eight consecutive positions never have the same remainder. */
  lemma BurstChangesRemainder(v: Data, w: Data, at: int)
    requires Symbols(v) && Symbols(w) && v != w
    requires DifferWithin(v, w, at)
    ensures Remainder(v) != Remainder(w)
  {
    hide Run, Plus, Add;
    var d := Xor(v, w);
    RunLinear(1, v, 1, w);
    PlusBasics(1);
    SymbolXor(v, w);
    // Eight leading zeros make room for a full window.
    var e := Zeros(8) + d;
    RunConcat(0, Zeros(8), d);
    RunOfZeros(8);
    var j :| 0 <= j < |v| && v[j] != w[j];
    XorNonzero(v[j], w[j]);
    assert e[j + 8] != 0;
    var start := if at < -8 then 0 else if at + 16 <= |e| then at + 8 else |e| - 8;
    forall k | 0 <= k < |e| && e[k] != 0
      ensures start <= k < start + 8
    {
      assert k >= 8;
      XorNonzero(v[k - 8], w[k - 8]);
    }
    BurstIsNonzero(e, start);
    PlusInjective(Run(1, v), Run(1, w));
  }

  lemma SymbolXor(v: Data, w: Data)
    requires |v| == |w| && Symbols(v) && Symbols(w)
    ensures Symbols(Xor(v, w))
  {
    forall i | 0 <= i < |v|
      ensures Add(v[i], w[i]) < 32
    {
      XorSmall(v[i], w[i]);
    }
  }

  lemma XorSmall(a: bv8, b: bv8)
    requires a < 32 && b < 32
    ensures Add(a, b) < 32
  {
  }

  lemma XorNonzero(a: bv8, b: bv8)
    ensures Add(a, b) != 0 <==> a != b
  {
  }

  lemma PlusInjective(a: bv64, b: bv64)
    requires Plus(a, b) != 0
    ensures Plus(a, 1) != Plus(b, 1)
  {
    assert (a ^ 1) ^ 1 == a && (b ^ 1) ^ 1 == b;
  }

  // ----- Appending the remainder -----

  /** Writing the remainder of `v` followed by eight zeros over those zeros makes
      the remainder vanish. */
  lemma RemainderCancels(v: Data)
    ensures Remainder(v + Unpack(Remainder(v + Zeros(8)))) == 0
  {
    hide Run, Unpack, Plus, Step;
    var m := Remainder(v + Zeros(8));
    var c := Run(1, v);
    var s := Unpack(m);
    RunConcat(1, v, Zeros(8));
    RunConcat(1, v, s);
    RunLinear(c, Zeros(8), 0, s);
    XorZeros(s);
    PlusBasics(c);
    RemainderInRegister(v + Zeros(8));
    RunOfUnpacked(m);
    CancelTwice(Run(c, Zeros(8)), m);
  }

  lemma RemainderInRegister(v: Data)
    ensures InRegister(Remainder(v))
  {
    hide Run;
    RunStaysInRegister(1, v);
  }

  lemma CancelTwice(r: bv64, m: bv64)
    requires m == Plus(r, 1)
    ensures Plus(Plus(r, m), 1) == 0
  {
    assert r ^ (r ^ 1) == 1;
  }

  // ----- Division by the generator -----

  /** Polynomial times the generator; coefficients are listed highest first. */
  function TimesGenerator(q: Data): (v: Data)
    ensures |v| == |q| + 8
  {
    if q == [] then Zeros(8)
    else
      Xor(TimesGenerator(q[..|q| - 1]) + [0], Zeros(|q| - 1) + ScaledGenerator(q[|q| - 1]))
  }

  /** The symbols shifted out while processing `v`. */
  function Quotient(v: Data): (q: Data)
    ensures |q| == |v|
  {
    if v == [] then []
    else
      var v' := v[..|v| - 1];
      Quotient(v') + [Unpack(Run(1, v'))[0]]
  }

  lemma AddCancel(a: bv8, b: bv8, c: bv8)
    ensures Add(Add(a, b), Add(c, b)) == Add(a, c)
    ensures Add(Add(a, b), 0) == Add(a, b)
  {
    assert (a ^ b) ^ (c ^ b) == a ^ c;
  }

  /** One step of long division: `f` is `q` times the generator plus `r`, and the
      next register is `r` shifted, with `d` added and the overflow reduced. */
  lemma DivisionStep(f: Data, d: bv8, q: Data, r: Data, r': Data)
    requires |f| == |q| + 8 && |r| == 8
    requires f == Xor(TimesGenerator(q), Zeros(|q|) + r)
    requires r' == Xor(r[1..] + [d], ScaledGenerator(r[0])[1..])
    ensures f + [d] == Xor(TimesGenerator(q + [r[0]]), Zeros(|q| + 1) + r')
  {
    hide ScaledGenerator, Add, TimesGenerator;
    var n, g := |q|, ScaledGenerator(r[0]);
    var t, h, u := TimesGenerator(q) + [0], Zeros(n) + g, Zeros(n + 1) + r';
    NextProduct(q, r[0]);
    assert t[..n + 8] == TimesGenerator(q);
    assert |r'| == 8;
    hide Xor, Zeros;
    forall j | 0 <= j < n + 9
      ensures (f + [d])[j] == Add(Add(t[j], h[j]), u[j])
    {
      DivisionDigit(f, d, t, g, r, r', n, j);
    }
    XorTwice(f + [d], t, h, u);
  }

  lemma NextProduct(q: Data, x: bv8)
    ensures TimesGenerator(q + [x]) == Xor(TimesGenerator(q) + [0], Zeros(|q|) + ScaledGenerator(x))
  {
    assert (q + [x])[..|q|] == q;
  }

  lemma XorTwice(v: Data, t: Data, h: Data, u: Data)
    requires |v| == |t| == |h| == |u| && forall j :: 0 <= j < |v| ==> v[j] == Add(Add(t[j], h[j]), u[j])
    ensures |Xor(t, h)| == |u| && v == Xor(Xor(t, h), u)
  {
    hide Add;
  }

  lemma DivisionDigit(f: Data, d: bv8, t: Data, g: Data, r: Data, r': Data, n: nat, j: nat)
    requires |f| == n + 8 && |t| == n + 9 && |g| == 9 && |r| == 8 && j < n + 9
    requires f == Xor(t[..n + 8], Zeros(n) + r) && t[n + 8] == 0 && g[0] == r[0]
    requires r' == Xor(r[1..] + [d], g[1..])
    ensures |r'| == 8 && (f + [d])[j] == Add(Add(t[j], (Zeros(n) + g)[j]), (Zeros(n + 1) + r')[j])
  {
    hide Add;
    if j < n {
      AddCancel(t[j], 0, 0);
    } else if j == n {
      AddCancel(t[n], r[0], 0);
    } else {
      var k := j - n;
      var x := (r[1..] + [d])[k - 1];
      assert r'[k - 1] == Add(x, g[k]);
      AddCancel(t[j], g[k], x);
      ZeroAdds(d);
    }
  }

  lemma ZeroAdds(d: bv8)
    ensures Add(0, d) == d && Add(d, 0) == d
  {
  }

  /** `v`, with its implicit leading 1, is quotient times generator plus register. */
  predicate IsDivided(v: Data) {
    Zeros(7) + [1] + v == Xor(TimesGenerator(Quotient(v)), Zeros(|v|) + Unpack(Run(1, v)))
  }

  lemma DivisionExtends(v: Data, d: bv8)
    requires IsDivided(v) && d < 32
    ensures IsDivided(v + [d])
  {
    hide TimesGenerator, Step, Unpack, Xor;
    var f := Zeros(7) + [1] + v;
    var c := Run(1, v);
    var r := Unpack(c);
    assert (v + [d])[..|v|] == v;
    assert Quotient(v + [d]) == Quotient(v) + [r[0]];
    assert Run(1, v + [d]) == Step(c, d);
    hide Run, Quotient;
    RunStaysInRegister(1, v);
    UnpackStep(c, d);
    DivisionStep(f, d, Quotient(v), r, Unpack(Step(c, d)));
    assert Zeros(7) + [1] + (v + [d]) == f + [d];
  }

  /** The register is the remainder of dividing x^n + v(x) by the generator. */
  lemma {:induction false} RegisterIsRemainder(v: Data)
    requires Symbols(v)
    ensures IsDivided(v)
  {
    if v == [] {
      hide Unpack, Xor;
      UnpackOne();
      XorZeros(Unpack(1));
      assert Zeros(0) + Unpack(1) == Unpack(1);
    } else {
      hide IsDivided;
      var v' := v[..|v| - 1];
      RegisterIsRemainder(v');
      DivisionExtends(v', v[|v| - 1]);
      assert v == v' + [v[|v| - 1]];
    }
  }

  lemma UnpackOne()
    ensures Unpack(1) == Zeros(7) + [1]
  {
  }

  /** Dividing x^n + v(x) by the generator leaves 1. */
  predicate LeavesOne(v: Data) {
    Zeros(7) + [1] + v == Xor(TimesGenerator(Quotient(v)), Zeros(|v|) + (Zeros(7) + [1]))
  }

  lemma SameSum(a: Data, n: nat, r: Data, t: Data)
    requires |r| == |t| == 8 && |a| == n + 8
    ensures Xor(a, Zeros(n) + r) == Xor(a, Zeros(n) + t) <==> r == t
  {
    if Xor(a, Zeros(n) + r) == Xor(a, Zeros(n) + t) {
      forall i | 0 <= i < 8
        ensures r[i] == t[i]
      {
        assert (Zeros(n) + r)[n + i] == r[i] && (Zeros(n) + t)[n + i] == t[i];
        assert Xor(a, Zeros(n) + r)[n + i] == Xor(a, Zeros(n) + t)[n + i];
        AddInjective(a[n + i], r[i], t[i]);
      }
    }
  }

  lemma AddInjective(a: bv8, b: bv8, c: bv8)
    ensures Add(a, b) == Add(a, c) ==> b == c
  {
  }

  lemma RemainderZero(r: bv64)
    ensures Plus(r, 1) == 0 <==> r == 1
  {
  }

  /** What the result 0 means: the remainder is 1. */
  lemma ZeroMeansOne(v: Data)
    requires Symbols(v)
    ensures Remainder(v) == 0 <==> LeavesOne(v)
  {
    RegisterIsRemainder(v);
    RunStaysInRegister(1, v);
    var c := Run(1, v);
    RemainderZero(c);
    UnpackOne();
    hide Run, Unpack, TimesGenerator, Quotient, Xor, Plus, Zeros;
    SameSum(TimesGenerator(Quotient(v)), |v|, Unpack(c), Unpack(1));
    if Unpack(c) == Unpack(1) {
      UnpackInjective(c, 1);
    }
  }

  /** A list that gives 0 does not with a 0 appended. */
  lemma AppendedZero(v: Data)
    requires Remainder(v) == 0
    ensures Remainder(v + [0]) != 0
  {
    hide Step, Plus;
    var c := Run(1, v);
    RemainderZero(c);
    assert (v + [0])[..|v|] == v;
    StepOfOne();
    RemainderZero(Step(1, 0));
  }

  lemma StepOfOne()
    ensures Step(1, 0) == 0x20
  {
  }

  /** A 0 in front changes the result, whatever follows. */
  lemma ZeroInFront(v: Data)
    ensures Remainder([0] + v) != Remainder(v)
  {
    hide Step, Plus, Add;
    RunConcat(1, [0], v);
    StepOfOne();
    assert Run(1, [0]) == Step(1, 0) by {
      assert [0 as bv8][..0] == [];
    }
    RunLinear(0x20, v, 1, v);
    XorSelf(v);
    TwoInRegister();
    ZeroRunInjective(Plus(0x20, 1), |v|);
    PlusInjective(Run(0x20, v), Run(1, v));
  }

  lemma TwoInRegister()
    ensures InRegister(Plus(0x20, 1)) && Plus(0x20, 1) != 0
  {
  }

  lemma XorSelf(v: Data)
    ensures Xor(v, v) == Zeros(|v|)
  {
    forall i | 0 <= i < |v|
      ensures Add(v[i], v[i]) == 0
    {
      XorNonzero(v[i], v[i]);
    }
  }
}
