/** Few wrong characters in an address. */
module CashAddrErrors {
  import opened CashAddrChecksum
  import opened CashAddr
  import CashAddrDistance

  function MovedBy(ps: seq<nat>, offset: nat): (qs: seq<nat>)
    ensures |qs| == |ps|
  {
    seq(|ps|, i requires 0 <= i < |ps| => ps[i] + offset)
  }

  /** For every prefix, a payload changed at up to four places less than 1025 apart is no
      longer valid. */
  lemma FewErrorsDetected(prefix: string, payload: Data, corrupted: Data, ps: seq<nat>)
    requires Symbols(payload) && Symbols(corrupted) && Valid(prefix, payload) && payload != corrupted
    requires CashAddrDistance.DifferAt(payload, corrupted, ps) && CashAddrDistance.Places(ps, |payload|) && |ps| <= 4
    ensures !Valid(prefix, corrupted)
  {
    hide Remainder, Expanded;
    var e := Expanded(prefix);
    ExpandedIsSymbols(prefix);
    var v, w := e + payload, e + corrupted;
    assert v[|e|..] == payload && w[|e|..] == corrupted;
    var qs := MovedBy(ps, |e|);
    forall i | 0 <= i < |v| && v[i] != w[i]
      ensures i in qs
    {
      assert payload[i - |e|] != corrupted[i - |e|];
      var k :| 0 <= k < |ps| && ps[k] == i - |e|;
      assert qs[k] == i;
    }
    CashAddrDistance.FewErrorsChangeRemainder(v, w, qs);
  }

  /** Up to four wrong letters of the prefix and wrong symbols of the payload together, less
      than 1025 apart, are noticed. */
  lemma FewErrorsWithPrefix(p: string, q: string, payload: Data, corrupted: Data, ps: seq<nat>)
    requires LowerLetters(p) && LowerLetters(q) && |p| == |q| && Symbols(payload) && Symbols(corrupted)
    requires (p != q || payload != corrupted) && Valid(p, payload) && |payload| == |corrupted|
    requires CashAddrDistance.Places(ps, |p| + 1 + |payload|) && |ps| <= 4
    requires forall i :: 0 <= i < |p| && p[i] != q[i] ==> i in ps
    requires forall i :: 0 <= i < |payload| && payload[i] != corrupted[i] ==> |p| + 1 + i in ps
    ensures !Valid(q, corrupted)
  {
    hide Remainder;
    var a, b := Expanded(p), Expanded(q);
    ExpandedIsSymbols(p);
    ExpandedIsSymbols(q);
    forall i | 0 <= i < |p|
      ensures a[i] != b[i] <==> p[i] != q[i]
    {
      PrefixesDiffer(p, q, i);
    }
    assert a[|p|] == b[|p|] == 0;
    hide Expanded;
    var v, w, n := a + payload, b + corrupted, |p| + 1;
    forall i | 0 <= i < |v| && v[i] != w[i]
      ensures i in ps
    {
      if i >= n {
        assert payload[i - n] != corrupted[i - n];
      }
    }
    if p != q {
      var i :| 0 <= i < |p| && p[i] != q[i];
      assert v[i] != w[i];
    } else {
      var i :| 0 <= i < |payload| && payload[i] != corrupted[i];
      assert v[n + i] != w[n + i];
    }
    CashAddrDistance.FewErrorsChangeRemainder(v, w, ps);
  }

  /** Texts of one length that differ at most at the given places. */
  predicate TextDiffersAt(u: string, w: string, ps: seq<nat>) {
    |u| == |w| && forall i :: 0 <= i < |u| && u[i] != w[i] ==> i in ps
  }

  lemma PayloadErrors(prefix: string, a: string, b: string, ps: seq<nat>)
    requires AllInTable(a) && AllInTable(b) && |a| == |b| && Lowered(a) != Lowered(b)
    requires TextDiffersAt(Lowered(a), Lowered(b), ps) && CashAddrDistance.Places(ps, |a|) && |ps| <= 4
    requires Valid(prefix, Values(a))
    ensures !Valid(prefix, Values(b))
  {
    hide Valid, Values, AllInTable;
    ValuesRoundTrip(a);
    ValuesRoundTrip(b);
    forall i | 0 <= i < |a|
      ensures Values(a)[i] != Values(b)[i] <==> Lowered(a)[i] != Lowered(b)[i]
    {
      ValuesDifferWithText(a, b, i);
    }
    var i :| 0 <= i < |a| && Lowered(a)[i] != Lowered(b)[i];
    FewErrorsDetected(prefix, Values(a), Values(b), ps);
  }

  /** Up to four wrong characters after the separator, less than 1025 apart, are rejected. */
  lemma FewWrongRejected(s: string, t: string, defaultPrefix: string, ps: seq<nat>)
    requires Accepts(s, defaultPrefix) && Separator(s) != 0
    requires |t| == |s| && Lowered(s) != Lowered(t)
    requires Lowered(s)[..Separator(s) + 1] == Lowered(t)[..Separator(s) + 1]
    requires TextDiffersAt(Lowered(s)[Separator(s) + 1..], Lowered(t)[Separator(s) + 1..], ps)
    requires CashAddrDistance.Places(ps, |s| - Separator(s) - 1) && |ps| <= 4
    ensures !Accepts(t, defaultPrefix)
  {
    hide Accepts, Valid, AllInTable, Values, Lowered, TextDiffersAt, Separator;
    if Accepts(t, defaultPrefix) {
      var k := Separator(s);
      AcceptedParts(s, defaultPrefix);
      KeptSeparator(s, t, defaultPrefix);
      AcceptedParts(t, defaultPrefix);
      LoweredParts(s, k);
      LoweredParts(t, k);
      SplitAt(Lowered(s), Lowered(t), k);
      PayloadErrors(Lowered(s[..k]), s[k + 1..], t[k + 1..], ps);
    }
  }

  lemma SplitAt(u: string, w: string, k: nat)
    requires u != w && |u| == |w| && k < |u| && u[..k + 1] == w[..k + 1]
    ensures u[..k] == w[..k] && u[k + 1..] != w[k + 1..]
  {
    assert u == u[..k + 1] + u[k + 1..] && w == w[..k + 1] + w[k + 1..];
    assert u[..k] == u[..k + 1][..k] && w[..k] == w[..k + 1][..k];
  }
}
