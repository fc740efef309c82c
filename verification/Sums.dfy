/** Finite sums over sets, used for totals of balances, fees and locks. */
module Sums {

  ghost function Sum<K>(s: set<K>, f: K -> int): int
  {
    if s == {} then 0
    else
      var k :| k in s;
      f(k) + Sum(s - {k}, f)
  }

  lemma {:induction false} SumPick<K>(s: set<K>, f: K -> int, k: K)
    requires k in s
    ensures Sum(s, f) == f(k) + Sum(s - {k}, f)
  {
    var j :| j in s && Sum(s, f) == f(j) + Sum(s - {j}, f);
    if j != k {
      SumPick(s - {j}, f, k);
      SumPick(s - {k}, f, j);
      assert s - {j} - {k} == s - {k} - {j};
    }
  }

  lemma {:induction false} SumSame<K>(s: set<K>, f: K -> int, g: K -> int)
    requires forall k :: k in s ==> f(k) == g(k)
    ensures Sum(s, f) == Sum(s, g)
  {
    if s != {} {
      var k :| k in s;
      SumPick(s, f, k);
      SumPick(s, g, k);
      SumSame(s - {k}, f, g);
    }
  }

  lemma {:induction false} SumZero<K>(s: set<K>, f: K -> int)
    requires forall k :: k in s ==> f(k) == 0
    ensures Sum(s, f) == 0
  {
    if s != {} {
      var k :| k in s;
      SumPick(s, f, k);
      SumZero(s - {k}, f);
    }
  }

  /** Two weights that agree except at `k`, over sets that agree except for `k`. */
  lemma SumChange<K>(s: set<K>, t: set<K>, f: K -> int, g: K -> int, k: K)
    requires k in t && t == s + {k}
    requires forall j :: j in s && j != k ==> f(j) == g(j)
    ensures Sum(t, g) == Sum(s, f) - (if k in s then f(k) else 0) + g(k)
  {
    SumPick(t, g, k);
    assert t - {k} == s - {k};
    SumSame(s - {k}, f, g);
    if k in s {
      SumPick(s, f, k);
    } else {
      assert s - {k} == s;
    }
  }

  lemma {:induction false} SumPlus<K>(s: set<K>, f: K -> int, g: K -> int, h: K -> int)
    requires forall k :: k in s ==> h(k) == f(k) + g(k)
    ensures Sum(s, h) == Sum(s, f) + Sum(s, g)
  {
    if s != {} {
      var k :| k in s;
      SumPick(s, f, k);
      SumPick(s, g, k);
      SumPick(s, h, k);
      SumPlus(s - {k}, f, g, h);
    }
  }

  /** A set falls into a part and the rest. */
  lemma {:induction false} SumSplit<K>(s: set<K>, part: set<K>, f: K -> int)
    requires part <= s
    ensures Sum(s, f) == Sum(part, f) + Sum(s - part, f)
    decreases |s|
  {
    if part == {} {
      assert s - part == s;
    } else {
      var k :| k in part;
      SumPick(s, f, k);
      SumPick(part, f, k);
      SumSplit(s - {k}, part - {k}, f);
      assert (s - {k}) - (part - {k}) == s - part;
    }
  }

  lemma {:induction false} SumScaled<K>(s: set<K>, f: K -> int, g: K -> int, c: int)
    requires forall k :: k in s ==> g(k) == f(k) * c
    ensures Sum(s, g) == Sum(s, f) * c
  {
    if s != {} {
      var k :| k in s;
      SumPick(s, f, k);
      SumPick(s, g, k);
      SumScaled(s - {k}, f, g, c);
      assert (f(k) + Sum(s - {k}, f)) * c == f(k) * c + Sum(s - {k}, f) * c;
    }
  }

  /** Equal totals of ordered weights are equal everywhere. */
  lemma {:induction false} OrderedSums<K>(s: set<K>, f: K -> int, g: K -> int)
    requires forall k :: k in s ==> f(k) <= g(k)
    ensures Sum(s, f) <= Sum(s, g)
    ensures Sum(s, f) == Sum(s, g) <==> forall k :: k in s ==> f(k) == g(k)
  {
    if s != {} {
      var k :| k in s;
      SumPick(s, f, k);
      SumPick(s, g, k);
      OrderedSums(s - {k}, f, g);
    }
  }
}
