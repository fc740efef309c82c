/** The summary of its chain a node sends to a peer, and the block ids the peer
    answers with. */
module Synopsis {
  import opened Blocks
  import opened Commons

  // ----- Chains -----

  /** The id before position `n`. */
  function Before(chain: seq<BlockId>, n: int): BlockId
    requires 0 < n < |chain|
  {
    chain[n - 1]
  }

  /** Block ids from the missing block 0 on, each the child of the one before it. */
  ghost predicate Linked(parent: BlockId -> BlockId, chain: seq<BlockId>) {
    |chain| > 0 && chain[0] == NO_ID &&
    forall n :: 0 < n < |chain| ==> chain[n].num == n && parent(chain[n]) == Before(chain, n)
  }

  /** Two chains that share a block share everything below it. */
  lemma {:induction false} AgreeBelow(parent: BlockId -> BlockId, a: seq<BlockId>, b: seq<BlockId>, c: nat, n: nat)
    requires Linked(parent, a) && Linked(parent, b)
    requires n <= c < |a| && c < |b| && a[c] == b[c]
    ensures a[n] == b[n]
    decreases c
  {
    if n < c {
      assert Before(a, c) == Before(b, c);
      AgreeBelow(parent, a, b, c - 1, n);
    }
  }

  /** What get_block_id_for_num reads; it fails beyond the log and at a hole. */
  function IdAt(ids: seq<BlockId>, n: nat): Result<BlockId> {
    if n < |ids| && ids[n] != NO_ID then Ok(ids[n]) else Err
  }

  function IsIncluded(ids: seq<BlockId>, id: BlockId): Result<bool> {
    match IdAt(ids, id.num)
    case Ok(there) => Ok(there == id)
    case Err => Err
  }

  // ----- Which blocks to summarize -----

  /** The chain from block 0 to the high block, the part of it outside the fork, and the
      block to start from. */
  datatype Span = Span(chain: seq<BlockId>, nonFork: nat, low: nat) {
    function High(): int { |chain| - 1 }
  }

  function Reversed<T>(s: seq<T>): seq<T> {
    seq(|s|, i requires 0 <= i < |s| => s[|s| - 1 - i])
  }

  /** What get_block_ids_on_fork returns: the reference point, its ancestors off the
      preferred chain, and last their ancestor on it. */
  ghost predicate IsForkHistory(parent: BlockId -> BlockId, ids: seq<BlockId>, head: nat, reference: BlockId,
                                fork: seq<BlockId>) {
    var k := |fork| - 1;
    k >= 1 && fork[0] == reference && fork[k].num <= head < |ids| && ids[fork[k].num] == fork[k] &&
    (forall i :: 0 <= i < k ==> fork[i].num == fork[k].num + k - i) &&
    (forall i :: 0 <= i < k ==> parent(fork[i]) == After(fork, i))
  }

  function After(fork: seq<BlockId>, i: int): BlockId
    requires 0 <= i < |fork| - 1
  {
    fork[i + 1]
  }

  /** The choice of blocks, with `lowest` the last block that cannot be undone and `fork`
      the fork history of the reference point, if there is one. */
  function Choose(ids: seq<BlockId>, head: nat, lowest: nat, reference: BlockId,
                  fork: Option<seq<BlockId>>): (r: Result<Span>)
    requires lowest <= head < |ids| && ids[0] == NO_ID
    requires fork.Some? ==> |fork.value| >= 2 && fork.value[|fork.value| - 1].num < |ids|
    ensures r.Ok? ==> r.value.nonFork < |r.value.chain| && r.value.nonFork < |ids|
    ensures r.Ok? ==> forall n :: 0 <= n <= r.value.nonFork ==> r.value.chain[n] == ids[n]
    ensures r.Ok? && (reference != NO_ID || head > 0) ==> 1 <= r.value.low <= r.value.High()
  {
    if reference == NO_ID then
      Ok(Span(ids[..head + 1], head, AtLeastOne(lowest)))
    else
      match IsIncluded(ids, reference)
      case Err => Err
      case Ok(true) =>
        Ok(Span(ids[..reference.num + 1], reference.num,
                AtLeastOne(if reference.num < lowest then reference.num else lowest)))
      case Ok(false) =>
        if fork == None then Err else
          var k := |fork.value| - 1;
          var nonFork := if fork.value[k] == NO_ID then 0 else fork.value[k].num;
          if nonFork < lowest then Err else
            Ok(Span(ids[..nonFork + 1] + Reversed(fork.value[..k]), nonFork, AtLeastOne(lowest)))
  }

  function AtLeastOne(n: nat): nat { if n == 0 then 1 else n }

  /** The block to start from is the last one that cannot be undone, or the reference point when
      that is on the chain below it, but never below block 1. */
  lemma ChosenLow(ids: seq<BlockId>, head: nat, lowest: nat, reference: BlockId, fork: Option<seq<BlockId>>)
    requires lowest <= head < |ids| && ids[0] == NO_ID
    requires fork.Some? ==> |fork.value| >= 2 && fork.value[|fork.value| - 1].num < |ids|
    ensures var r := Choose(ids, head, lowest, reference, fork);
      r.Ok? ==>
        (lowest == 0 ==> r.value.low == 1) &&
        (lowest > 0 && (reference.num >= lowest || reference == NO_ID) ==> r.value.low == lowest) &&
        (0 < reference.num < lowest && ids[reference.num] == reference ==> r.value.low == reference.num) &&
        (0 < reference.num < lowest && ids[reference.num] != reference ==> r.value.low == lowest)
  {
  }

  /** There is nothing to summarize exactly when the reference point has no number in the log,
      or is off the chain and has no fork history or one that leaves the chain before the last
      block that cannot be undone. */
  lemma ChosenErr(ids: seq<BlockId>, head: nat, lowest: nat, reference: BlockId, fork: Option<seq<BlockId>>)
    requires lowest <= head < |ids| && ids[0] == NO_ID
    requires fork.Some? ==> |fork.value| >= 2 && fork.value[|fork.value| - 1].num < |ids|
    ensures Choose(ids, head, lowest, reference, fork).Err? <==>
      reference != NO_ID &&
      if reference.num >= |ids| || ids[reference.num] == NO_ID then true
      else
        ids[reference.num] != reference &&
        (fork.None? || fork.value[|fork.value| - 1].num < lowest)
  {
  }

  /** What the log holds between the head and a reference point found above it is linked
      to the chain below. Popped blocks leave their ids there. */
  ghost predicate LinkedAbove(parent: BlockId -> BlockId, ids: seq<BlockId>, head: nat, reference: BlockId) {
    reference != NO_ID && reference.num < |ids| && ids[reference.num] == reference ==>
      forall n :: head < n <= reference.num ==> ids[n].num == n && parent(ids[n]) == Before(ids, n)
  }

  /** The chain chosen ends at the reference point, or at the head when there is none; it is
      the reference point's chain exactly when the log is linked up to there. */
  lemma ChosenChain(parent: BlockId -> BlockId, ids: seq<BlockId>, head: nat, lowest: nat, reference: BlockId,
                    fork: Option<seq<BlockId>>)
    requires lowest <= head < |ids| && ids[0] == NO_ID
    requires fork.Some? ==> IsForkHistory(parent, ids, head, reference, fork.value)
    requires Linked(parent, ids[..head + 1])
    ensures var r := Choose(ids, head, lowest, reference, fork);
      r.Ok? ==> r.value.chain[r.value.High()] == if reference == NO_ID then ids[head] else reference
    ensures var r := Choose(ids, head, lowest, reference, fork);
      r.Ok? ==> (Linked(parent, r.value.chain) <==> LinkedAbove(parent, ids, head, reference))
  {
    assert fork.Some? ==> |fork.value| >= 2 && fork.value[|fork.value| - 1].num <= head;
    ChosenAs(ids, head, lowest, reference, fork);
    IncludedMeans(ids, reference);
    hide Linked, LinkedAbove, IsForkHistory, Reversed, Choose, IsIncluded;
    if Choose(ids, head, lowest, reference, fork).Ok? {
      var chain := Choose(ids, head, lowest, reference, fork).value.chain;
      if reference == NO_ID {
        NothingAbove(parent, ids, head, reference);
        assert chain == ids[..head + 1];
      } else if IsIncluded(ids, reference) == Ok(true) {
        UpToReference(parent, ids, head, reference);
        assert chain == ids[..reference.num + 1];
      } else {
        ForkChosen(parent, ids, head, fork.value, reference);
        NothingAbove(parent, ids, head, reference);
      }
    }
  }

  lemma IncludedMeans(ids: seq<BlockId>, id: BlockId)
    ensures IsIncluded(ids, id) == Ok(true) ==> id.num < |ids| && ids[id.num] == id
    ensures IsIncluded(ids, id) == Ok(false) ==> id.num < |ids| && ids[id.num] != id
  {
  }

  /** The chain chosen, case by case. */
  lemma ChosenAs(ids: seq<BlockId>, head: nat, lowest: nat, reference: BlockId, fork: Option<seq<BlockId>>)
    requires lowest <= head < |ids| && ids[0] == NO_ID
    requires fork.Some? ==> |fork.value| >= 2 && fork.value[|fork.value| - 1].num < |ids|
    ensures var r := Choose(ids, head, lowest, reference, fork);
      r.Ok? ==>
        if reference == NO_ID then r.value.chain == ids[..head + 1]
        else if IsIncluded(ids, reference) == Ok(true) then r.value.chain == ids[..reference.num + 1]
        else
          IsIncluded(ids, reference) == Ok(false) && fork.Some? &&
          var k := |fork.value| - 1;
          r.value.chain == ids[..fork.value[k].num + 1] + Reversed(fork.value[..k])
  {
  }

  lemma NothingAbove(parent: BlockId -> BlockId, ids: seq<BlockId>, head: nat, reference: BlockId)
    requires reference == NO_ID || (reference.num < |ids| ==> ids[reference.num] != reference)
    ensures LinkedAbove(parent, ids, head, reference)
  {
  }

  lemma UpToReference(parent: BlockId -> BlockId, ids: seq<BlockId>, head: nat, reference: BlockId)
    requires head < |ids| && Linked(parent, ids[..head + 1])
    requires reference != NO_ID && reference.num < |ids| && ids[reference.num] == reference
    ensures Linked(parent, ids[..reference.num + 1]) <==> LinkedAbove(parent, ids, head, reference)
  {
    var n := reference.num;
    if n <= head {
      PrefixLinked(parent, ids, head, n);
    } else {
      AboveHead(parent, ids, head, n);
    }
  }

  lemma AboveHead(parent: BlockId -> BlockId, ids: seq<BlockId>, head: nat, n: nat)
    requires head < n < |ids| && Linked(parent, ids[..head + 1])
    ensures Linked(parent, ids[..n + 1]) <==>
            forall k :: head < k <= n ==> ids[k].num == k && parent(ids[k]) == Before(ids, k)
  {
    var low, all := ids[..head + 1], ids[..n + 1];
    forall k | 0 < k <= n
      ensures all[k] == ids[k] && Before(all, k) == Before(ids, k)
      ensures k <= head ==> all[k].num == k && parent(all[k]) == Before(all, k)
    {
      assert k <= head ==> all[k] == low[k] && Before(all, k) == Before(low, k);
    }
  }

  /** A reference point popped at number 3, after which the block at number 2 was replaced:
      its synopsis mixes two chains. */
  lemma PoppedReference()
    ensures var ids := [NO_ID, BlockId(1, 1), BlockId(2, 2), BlockId(3, 1)];
      var parent := Replaced;
      var r := Choose(ids, 2, 0, BlockId(3, 1), None);
      Linked(parent, ids[..3]) && r.Ok? && !Linked(parent, r.value.chain)
  {
    var ids := [NO_ID, BlockId(1, 1), BlockId(2, 2), BlockId(3, 1)];
    var main := ids[..3];
    assert main == [NO_ID, BlockId(1, 1), BlockId(2, 2)];
    assert Before(main, 1) == NO_ID && Before(main, 2) == BlockId(1, 1);
    assert ids[..4] == ids && Before(ids, 3) == BlockId(2, 2);
    assert ids[3] == BlockId(3, 1) && Replaced(ids[3]) == BlockId(2, 1);
  }

  /** Parents in a small tree: two blocks at number 2, and a block at 3 on the first. */
  function Replaced(id: BlockId): BlockId {
    if id.num == 3 then BlockId(2, 1) else if id.num == 2 then BlockId(1, 1) else NO_ID
  }

  lemma ForkChosen(parent: BlockId -> BlockId, ids: seq<BlockId>, head: nat, fork: seq<BlockId>, reference: BlockId)
    requires head < |ids| && IsForkHistory(parent, ids, head, reference, fork) && Linked(parent, ids[..head + 1])
    ensures var k := |fork| - 1;
      var chain := ids[..fork[k].num + 1] + Reversed(fork[..k]);
      Linked(parent, chain) && chain[|chain| - 1] == reference
  {
    var k := |fork| - 1;
    PrefixLinked(parent, ids, head, fork[k].num);
    ForkLinked(parent, ids[..fork[k].num + 1], fork);
  }

  lemma PrefixLinked(parent: BlockId -> BlockId, ids: seq<BlockId>, head: nat, n: nat)
    requires n <= head < |ids| && Linked(parent, ids[..head + 1])
    ensures Linked(parent, ids[..n + 1])
  {
    var chain, p := ids[..head + 1], ids[..n + 1];
    forall m | 0 < m < |p|
      ensures p[m].num == m && parent(p[m]) == Before(p, m)
    {
      assert p[m] == chain[m] && Before(p, m) == Before(chain, m);
    }
  }

  lemma ForkLinked(parent: BlockId -> BlockId, main: seq<BlockId>, fork: seq<BlockId>)
    requires Linked(parent, main) && |fork| >= 2 && main[|main| - 1] == fork[|fork| - 1]
    requires forall i :: 0 <= i < |fork| - 1 ==> fork[i].num == |main| - 1 + |fork| - 1 - i
    requires forall i :: 0 <= i < |fork| - 1 ==> parent(fork[i]) == After(fork, i)
    ensures Linked(parent, main + Reversed(fork[..|fork| - 1]))
  {
    var k := |fork| - 1;
    var whole := main + Reversed(fork[..k]);
    forall m | 0 < m < |whole|
      ensures whole[m].num == m && parent(whole[m]) == Before(whole, m)
    {
      if m < |main| {
        assert whole[m] == main[m] && Before(whole, m) == Before(main, m);
      } else {
        var i := k - 1 - (m - |main|);
        assert whole[m] == fork[i] && parent(fork[i]) == After(fork, i);
      }
    }
  }

  // ----- The block numbers in the synopsis -----

  function Next(low: nat, trueHigh: nat): nat
    requires low <= trueHigh
  {
    low + (trueHigh - low + 2) / 2
  }

  /** The numbers the loop visits. */
  function Marks(low: nat, high: nat, trueHigh: nat): seq<nat>
    requires high <= trueHigh
    decreases high + 1 - low
  {
    if low > high then [] else [low] + Marks(Next(low, trueHigh), high, trueHigh)
  }

  predicate Increasing(m: seq<nat>, low: nat, high: nat) {
    (forall i :: 0 <= i < |m| ==> low <= m[i] <= high) &&
    (forall i, j :: 0 <= i < j < |m| ==> m[i] < m[j])
  }

  lemma {:induction false} MarksIncrease(low: nat, high: nat, trueHigh: nat)
    requires high <= trueHigh
    ensures Increasing(Marks(low, high, trueHigh), low, high)
    decreases high + 1 - low
  {
    if low <= high {
      var next := Next(low, trueHigh);
      MarksIncrease(next, high, trueHigh);
      IncreasingPrepend(low, Marks(next, high, trueHigh), next, high);
    }
  }

  lemma IncreasingPrepend(low: nat, rest: seq<nat>, next: nat, high: nat)
    requires low < next && low <= high && Increasing(rest, next, high)
    ensures Increasing([low] + rest, low, high)
  {
    var m := [low] + rest;
    assert forall i :: 0 < i < |m| ==> m[i] == rest[i - 1];
  }

  /** The numbers are these: the first is `low`, each goes just past the middle of what is left
      up to the true high, and after the last one the next would be beyond `high`. */
  lemma {:induction false} MarksHalve(low: nat, high: nat, trueHigh: nat, i: nat)
    requires low <= high <= trueHigh
    ensures var m := Marks(low, high, trueHigh);
      m != [] && m[0] == low &&
      (i + 1 < |m| ==> 2 * m[i + 1] - 2 <= trueHigh + m[i] < 2 * m[i + 1]) &&
      (i + 1 == |m| ==> 2 * high <= trueHigh + m[i])
    decreases high - low
  {
    var next := Next(low, trueHigh);
    if next <= high {
      MarksHalve(next, high, trueHigh, if i == 0 then 0 else i - 1);
    }
  }

  lemma MarksStep(low: nat, high: nat, trueHigh: nat, next: nat)
    requires low <= high <= trueHigh && next == Next(low, trueHigh)
    ensures Marks(low, high, trueHigh) == [low] + Marks(next, high, trueHigh)
  {
  }

  /** Of 26 blocks a to z the synopsis is a n u x z. */
  lemma TwentySixBlocks()
    ensures Marks(1, 26, 26) == [1, 14, 21, 24, 26]
  {
    assert Marks(27, 26, 26) == [];
    hide Marks;
    MarksStep(1, 26, 26, 14);
    MarksStep(14, 26, 26, 21);
    MarksStep(21, 26, 26, 24);
    MarksStep(24, 26, 26, 26);
    MarksStep(26, 26, 26, 27);
  }

  /** With nothing trailing it, the high block ends the synopsis. */
  lemma {:induction false} MarksEndAtHigh(low: nat, high: nat)
    requires low <= high
    ensures var m := Marks(low, high, high); |m| > 0 && m[|m| - 1] == high
    decreases high - low
  {
    if low < high {
      MarksEndAtHigh(Next(low, high), high);
    }
  }

  function Pow2(n: nat): nat {
    if n == 0 then 1 else 2 * Pow2(n - 1)
  }

  /** At most floor(log2(trueHigh - low + 1)) + 1 entries. */
  lemma {:induction false} MarksAreFew(low: nat, high: nat, trueHigh: nat)
    requires low <= high <= trueHigh
    ensures |Marks(low, high, trueHigh)| > 0
    ensures Pow2(|Marks(low, high, trueHigh)| - 1) <= trueHigh - low + 1
    decreases high - low
  {
    var next := Next(low, trueHigh);
    if next <= high {
      MarksAreFew(next, high, trueHigh);
    } else {
      assert Marks(low, high, trueHigh) == [low];
    }
  }

  /** The highest mark at or below `c`. */
  ghost predicate IsHighestMark(m: seq<nat>, c: nat, i: int) {
    0 <= i < |m| && m[i] <= c && forall j :: i < j < |m| ==> c < m[j]
  }

  /** Every block is at most as far above some mark as it is below the true high: marks
      are dense where forks are shallow. */
  lemma {:induction false} MarksAreDense(low: nat, high: nat, trueHigh: nat, c: nat) returns (i: nat)
    requires low <= c <= high <= trueHigh
    ensures var m := Marks(low, high, trueHigh);
      IsHighestMark(m, c, i) && c - m[i] <= trueHigh - c
    decreases high - low
  {
    var next := Next(low, trueHigh);
    if next <= c {
      i := MarksAreDense(next, high, trueHigh, c);
      i := i + 1;
    } else {
      MarksIncrease(next, high, trueHigh);
      i := 0;
    }
  }

  // ----- The synopsis -----

  function AtMarks(chain: seq<BlockId>, marks: seq<nat>): seq<BlockId>
    requires forall i :: 0 <= i < |marks| ==> marks[i] < |chain|
  {
    seq(|marks|, i requires 0 <= i < |marks| => chain[marks[i]])
  }

  /** The ids the loop collects from block `low` on. */
  function Collected(chain: seq<BlockId>, low: nat, trueHigh: nat): seq<BlockId>
    requires |chain| <= trueHigh + 1
    decreases |chain| - low
  {
    if low >= |chain| then [] else [chain[low]] + Collected(chain, Next(low, trueHigh), trueHigh)
  }

  lemma {:induction false} CollectedAtMarks(chain: seq<BlockId>, low: nat, trueHigh: nat)
    requires 0 < |chain| <= trueHigh + 1
    ensures var m := Marks(low, |chain| - 1, trueHigh);
      Increasing(m, low, |chain| - 1) && Collected(chain, low, trueHigh) == AtMarks(chain, m)
    decreases |chain| - low
  {
    MarksIncrease(low, |chain| - 1, trueHigh);
    if low < |chain| {
      var next := Next(low, trueHigh);
      CollectedAtMarks(chain, next, trueHigh);
      hide Next, AtMarks;
      AtMarksPrepend(chain, low, Marks(next, |chain| - 1, trueHigh));
    }
  }

  lemma AtMarksPrepend(chain: seq<BlockId>, low: nat, rest: seq<nat>)
    requires low < |chain| && forall i :: 0 <= i < |rest| ==> rest[i] < |chain|
    ensures var m := [low] + rest;
      (forall i :: 0 <= i < |m| ==> m[i] < |chain|) && AtMarks(chain, m) == [chain[low]] + AtMarks(chain, rest)
  {
  }

  lemma CollectedStep(done: seq<BlockId>, chain: seq<BlockId>, low: nat, trueHigh: nat)
    requires low < |chain| <= trueHigh + 1
    ensures done + Collected(chain, low, trueHigh) ==
            done + [chain[low]] + Collected(chain, Next(low, trueHigh), trueHigh)
  {
  }

  /** The loop; every index into the fork history is in range. */
  method Summarize(ids: seq<BlockId>, span: Span, trailing: nat) returns (r: Result<seq<BlockId>>)
    requires 1 <= span.low <= span.High() && span.nonFork < |span.chain| && span.nonFork < |ids|
    requires forall n :: 0 <= n <= span.nonFork ==> span.chain[n] == ids[n]
    ensures r.Err? ==> exists n :: 0 < n <= span.nonFork && ids[n] == NO_ID
    ensures r.Ok? ==> r.value == Collected(span.chain, span.low, span.High() + trailing)
  {
    var low, synopsis := span.low, [];
    var high, trueHigh := span.High(), span.High() + trailing;
    var forkHistory := span.chain[span.nonFork + 1..];
    while true
      invariant 1 <= low <= high
      invariant synopsis + Collected(span.chain, low, trueHigh) == Collected(span.chain, span.low, trueHigh)
      decreases high - low
    {
      var at: BlockId;
      if low <= span.nonFork {
        var id := IdAt(ids, low);
        if id.Err? {
          return Err;
        }
        at := id.value;
      } else {
        at := forkHistory[low - span.nonFork - 1];
      }
      CollectedStep(synopsis, span.chain, low, trueHigh);
      synopsis := synopsis + [at];
      low := low + (trueHigh - low + 2) / 2;
      if low > high {
        break;
      }
    }
    r := Ok(synopsis);
  }

  method GetBlockchainSynopsis(ids: seq<BlockId>, head: nat, lowest: nat, reference: BlockId,
                               fork: Option<seq<BlockId>>, trailing: nat) returns (r: Result<seq<BlockId>>)
    requires lowest <= head < |ids| && ids[0] == NO_ID
    requires fork.Some? ==> |fork.value| >= 2 && fork.value[|fork.value| - 1].num < |ids|
    ensures reference == NO_ID && head == 0 ==> r == Ok([])
    ensures Choose(ids, head, lowest, reference, fork).Err? ==> r == Err
    ensures r.Err? && Choose(ids, head, lowest, reference, fork).Ok? ==> exists n :: 0 < n < |ids| && ids[n] == NO_ID
    ensures r.Ok? && (reference != NO_ID || head > 0) ==>
      r.value == SynopsisOf(Choose(ids, head, lowest, reference, fork).value, trailing)
  {
    if reference == NO_ID && head == 0 {
      return Ok([]);
    }
    hide Choose, Collected, SynopsisOf;
    var choice := Choose(ids, head, lowest, reference, fork);
    if choice.Err? {
      return Err;
    }
    r := Summarize(ids, choice.value, trailing);
    CollectedIsSynopsis(choice.value, trailing);
  }

  lemma CollectedIsSynopsis(span: Span, trailing: nat)
    requires 1 <= span.low <= span.High()
    ensures Collected(span.chain, span.low, span.High() + trailing) == SynopsisOf(span, trailing)
  {
    hide Collected, Marks, AtMarks;
    CollectedAtMarks(span.chain, span.low, span.High() + trailing);
  }

  /** The ids at the marks of a span. */
  function SynopsisOf(span: Span, trailing: nat): seq<BlockId>
    requires span.low <= span.High()
  {
    MarksIncrease(span.low, span.High(), span.High() + trailing);
    AtMarks(span.chain, Marks(span.low, span.High(), span.High() + trailing))
  }

  lemma SpanEnds(span: Span, trailing: nat)
    requires span.low <= span.High()
    ensures var v := SynopsisOf(span, trailing);
      v != [] && v[0] == span.chain[span.low] && (trailing == 0 ==> v[|v| - 1] == span.chain[span.High()])
  {
    MarksHalve(span.low, span.High(), span.High() + trailing, 0);
    if trailing == 0 {
      MarksEndAtHigh(span.low, span.High());
    }
    hide Marks;
  }

  /** The synopsis starts with the block to start from and, with nothing trailing, ends with the
      reference point, or with the head when there is none. */
  lemma SynopsisEnds(parent: BlockId -> BlockId, ids: seq<BlockId>, head: nat, lowest: nat, reference: BlockId,
                     fork: Option<seq<BlockId>>, span: Span, trailing: nat)
    requires lowest <= head < |ids| && ids[0] == NO_ID && (reference != NO_ID || head > 0)
    requires fork.Some? ==> IsForkHistory(parent, ids, head, reference, fork.value)
    requires Linked(parent, ids[..head + 1]) && Choose(ids, head, lowest, reference, fork) == Ok(span)
    ensures span.low <= span.High() && var v := SynopsisOf(span, trailing);
      v != [] && v[0] == span.chain[span.low] &&
      (trailing == 0 ==> v[|v| - 1] == if reference == NO_ID then ids[head] else reference)
  {
    assert fork.Some? ==> |fork.value| >= 2 && fork.value[|fork.value| - 1].num <= head;
    hide Choose, Linked, IsForkHistory, SynopsisOf;
    ChosenChain(parent, ids, head, lowest, reference, fork);
    SpanEnds(span, trailing);
  }

  // ----- The peer's reply -----

  /** Whether a synopsis entry is one the peer can start from. */
  function IsShared(ids: seq<BlockId>, known: set<BlockId>, id: BlockId): Result<bool> {
    if id == NO_ID then Ok(true)
    else if id in known then IsIncluded(ids, id)
    else Ok(false)
  }

  function LastKnown(ids: seq<BlockId>, known: set<BlockId>, synopsis: seq<BlockId>): Result<BlockId> {
    if synopsis == [] then Err else
      var last := synopsis[|synopsis| - 1];
      match IsShared(ids, known, last)
      case Err => Err
      case Ok(true) => Ok(last)
      case Ok(false) => LastKnown(ids, known, synopsis[..|synopsis| - 1])
  }

  /** Up to `limit` consecutive ids from number `a` to the head. */
  function Stretch(ids: seq<BlockId>, head: nat, a: nat, limit: nat): seq<BlockId>
    requires head < |ids|
  {
    if a > head then [] else ids[a..if a + limit <= head then a + limit else head + 1]
  }

  datatype Reply = Reply(ids: seq<BlockId>, remaining: nat)

  function StartOf(ids: seq<BlockId>, known: set<BlockId>, synopsis: seq<BlockId>): Result<BlockId> {
    if synopsis == [] || synopsis == [NO_ID] then Ok(NO_ID) else LastKnown(ids, known, synopsis)
  }

  /** The block is known and the log holds it at its number. */
  predicate OnLog(ids: seq<BlockId>, known: set<BlockId>, id: BlockId) {
    id in known && id.num < |ids| && ids[id.num] == id
  }

  /** The block can be told not to be on the log: it is unknown, or another is in its place. */
  predicate OffLog(ids: seq<BlockId>, known: set<BlockId>, id: BlockId) {
    id !in known || (id.num < |ids| && ids[id.num] != NO_ID && ids[id.num] != id)
  }

  /** The search runs back over the entries: it stops at the first that is block 0 or on the
      log, fails at one that is neither on the log nor off it, and fails when none is left. */
  method FindStart(ids: seq<BlockId>, known: set<BlockId>, synopsis: seq<BlockId>)
    returns (r: Result<BlockId>, ghost at: int)
    ensures r == StartOf(ids, known, synopsis)
    ensures synopsis == [] || synopsis == [NO_ID] ==> r == Ok(NO_ID)
    ensures r.Ok? && synopsis != [] ==>
      0 <= at < |synopsis| && synopsis[at] == r.value && (r.value == NO_ID || OnLog(ids, known, r.value))
    ensures r.Err? ==> synopsis != [] && -1 <= at < |synopsis|
    ensures r.Err? && at >= 0 ==>
      synopsis[at] != NO_ID && !OnLog(ids, known, synopsis[at]) && !OffLog(ids, known, synopsis[at])
    ensures synopsis != [] ==>
      forall j :: at < j < |synopsis| ==> synopsis[j] != NO_ID && OffLog(ids, known, synopsis[j])
  {
    at := 0;
    if synopsis == [] || synopsis == [NO_ID] {
      return Ok(NO_ID), 0;
    }
    var i := |synopsis|;
    assert synopsis[..i] == synopsis;
    while i > 0
      invariant 0 <= i <= |synopsis|
      invariant LastKnown(ids, known, synopsis) == LastKnown(ids, known, synopsis[..i])
      invariant forall j :: i <= j < |synopsis| ==> synopsis[j] != NO_ID && OffLog(ids, known, synopsis[j])
    {
      assert synopsis[..i][..i - 1] == synopsis[..i - 1];
      i := i - 1;
      var shared := IsShared(ids, known, synopsis[i]);
      if shared.Err? {
        return Err, i;
      }
      if shared.value {
        return Ok(synopsis[i]), i;
      }
    }
    return Err, -1;
  }

  lemma SliceGrows(ids: seq<BlockId>, a: nat, n: nat)
    requires a <= n < |ids|
    ensures ids[a..n] + [ids[n]] == ids[a..n + 1]
    ensures a == n ==> ids[a..n] == []
  {
  }

  /** The ids from number `start` on, leaving number 0 out. */
  method CollectIds(ids: seq<BlockId>, head: nat, start: nat, limit: nat) returns (result: seq<BlockId>)
    requires 0 < head < |ids| && forall n :: 0 < n <= head ==> ids[n].num == n
    ensures result == Stretch(ids, head, AtLeastOne(start), limit)
    ensures var a := AtLeastOne(start);
      |result| == (if head < a then 0 else if limit < head + 1 - a then limit else head + 1 - a) &&
      forall i :: 0 <= i < |result| ==> result[i] == ids[a + i]
  {
    ghost var a := AtLeastOne(start);
    var num := start;
    result := [];
    while num <= head && |result| < limit
      invariant num == 0 ==> a == 1 && result == []
      invariant num > 0 ==> a <= num && |result| == num - a <= limit
      invariant result != [] ==> num <= head + 1 && result == ids[a..num]
    {
      if num > 0 {
        var id := IdAt(ids, num);
        assert id == Ok(ids[num]);
        SliceGrows(ids, a, num);
        result := result + [id.value];
      }
      num := num + 1;
    }
  }

  method GetBlockIds(ids: seq<BlockId>, head: nat, known: set<BlockId>, synopsis: seq<BlockId>, limit: nat)
    returns (r: Result<Reply>)
    requires head < |ids| && forall n :: 0 < n <= head ==> ids[n].num == n
    ensures head == 0 ==> r == Ok(Reply([], 0))
    ensures head > 0 ==> r.Err? == StartOf(ids, known, synopsis).Err?
    ensures head > 0 && r.Ok? ==>
      r.value.ids == Stretch(ids, head, AtLeastOne(StartOf(ids, known, synopsis).value.num), limit)
    ensures head > 0 && r.Ok? ==>
      var start := StartOf(ids, known, synopsis).value;
      var a := if start == NO_ID || start.num == 0 then 1 else start.num;
      |r.value.ids| == (if head < a then 0 else if limit < head + 1 - a then limit else head + 1 - a) &&
      forall i :: 0 <= i < |r.value.ids| ==> r.value.ids[i] == ids[a + i]
    ensures r.Ok? ==> |r.value.ids| <= limit
    ensures r.Ok? && r.value.ids != [] ==> r.value.ids[|r.value.ids| - 1].num + r.value.remaining == head
    ensures r.Ok? && r.value.ids == [] ==> r.value.remaining == 0
  {
    hide StartOf, LastKnown, IsShared, OnLog, OffLog, Stretch;
    if head == 0 {
      return Ok(Reply([], 0));
    }
    var start, at := FindStart(ids, known, synopsis);
    if start.Err? {
      return Err;
    }
    var result := CollectIds(ids, head, start.value.num, limit);
    var remaining := if result != [] && result[|result| - 1].num < head then head - result[|result| - 1].num else 0;
    r := Ok(Reply(result, remaining));
  }

  // ----- One exchange between two nodes -----

  /** `c` is the last block the two chains share. */
  ghost predicate ForkPoint(mine: seq<BlockId>, theirs: seq<BlockId>, c: nat) {
    c < |mine| && c < |theirs| && mine[c] == theirs[c] &&
    (c + 1 < |mine| && c + 1 < |theirs| ==> mine[c + 1] != theirs[c + 1])
  }

  lemma DifferAbove(parent: BlockId -> BlockId, mine: seq<BlockId>, theirs: seq<BlockId>, c: nat, n: nat)
    requires Linked(parent, mine) && Linked(parent, theirs) && ForkPoint(mine, theirs, c)
    requires c < n < |mine| && n < |theirs|
    ensures mine[n] != theirs[n]
  {
    if mine[n] == theirs[n] {
      AgreeBelow(parent, mine, theirs, n, c + 1);
    }
  }

  /** The peer's log holds its chain up to its head, and the peer knows its blocks. Above
      the head the log may hold anything. */
  ghost predicate PeerLog(parent: BlockId -> BlockId, log: seq<BlockId>, head: nat, known: set<BlockId>) {
    head < |log| && Linked(parent, log[..head + 1]) && forall n :: 0 < n <= head ==> log[n] in known
  }

  /** A block the peer knows and whose id its log still holds above the head. */
  predicate Stale(log: seq<BlockId>, head: nat, known: set<BlockId>, id: BlockId) {
    id in known && head < id.num < |log| && log[id.num] == id
  }

  /** A block the peer knows at a number its log does not hold. */
  predicate Missing(log: seq<BlockId>, known: set<BlockId>, id: BlockId) {
    id in known && IdAt(log, id.num).Err?
  }

  predicate Quiet(log: seq<BlockId>, head: nat, known: set<BlockId>, id: BlockId) {
    !Stale(log, head, known, id) && !Missing(log, known, id)
  }

  /** Two nodes, what they share, and the numbers of a synopsis. */
  ghost predicate Exchanging(parent: BlockId -> BlockId, mine: seq<BlockId>, log: seq<BlockId>, head: nat,
                             known: set<BlockId>, c: nat, marks: seq<nat>) {
    Linked(parent, mine) && PeerLog(parent, log, head, known) && ForkPoint(mine, log[..head + 1], c) &&
    forall k :: 0 <= k < |marks| ==> 0 < marks[k] < |mine|
  }

  lemma SharedAbove(parent: BlockId -> BlockId, mine: seq<BlockId>, log: seq<BlockId>, head: nat, known: set<BlockId>,
                    c: nat, n: nat)
    requires Exchanging(parent, mine, log, head, known, c, []) && c < n < |mine|
    ensures var id := mine[n];
      IsShared(log, known, id) == if Missing(log, known, id) then Err else Ok(Stale(log, head, known, id))
  {
    assert mine[n].num == n;
    if n <= head {
      DifferAbove(parent, mine, log[..head + 1], c, n);
      assert log[..head + 1][n] == log[n];
    }
  }

  lemma SharedBelow(parent: BlockId -> BlockId, mine: seq<BlockId>, log: seq<BlockId>, head: nat, known: set<BlockId>,
                    c: nat, n: nat)
    requires Exchanging(parent, mine, log, head, known, c, []) && 0 < n <= c
    ensures mine[n] == log[n] && log[n].num == n && IsShared(log, known, mine[n]) == Ok(true)
  {
    AgreeBelow(parent, mine, log[..head + 1], c, n);
    assert log[..head + 1][n] == log[n];
    assert mine[n].num == n;
  }

  lemma ExchangingAt(parent: BlockId -> BlockId, mine: seq<BlockId>, log: seq<BlockId>, head: nat, known: set<BlockId>,
                     c: nat, marks: seq<nat>)
    requires Exchanging(parent, mine, log, head, known, c, marks)
    ensures Exchanging(parent, mine, log, head, known, c, [])
    ensures forall k :: 0 <= k < |marks| ==> 0 < marks[k] < |mine|
  {
  }

  /** One entry of the search. */
  lemma LastOfMarks(log: seq<BlockId>, known: set<BlockId>, mine: seq<BlockId>, marks: seq<nat>, k: nat)
    requires k < |marks| && forall i :: 0 <= i < |marks| ==> marks[i] < |mine|
    ensures LastKnown(log, known, AtMarks(mine, marks[..k + 1])) ==
      match IsShared(log, known, mine[marks[k]])
      case Err => Err
      case Ok(true) => Ok(mine[marks[k]])
      case Ok(false) => LastKnown(log, known, AtMarks(mine, marks[..k]))
  {
    hide IsShared;
    var upTo := AtMarks(mine, marks[..k + 1]);
    assert upTo[k] == mine[marks[k]] && upTo[..k] == AtMarks(mine, marks[..k]);
  }

  /** The search skips entries above the fork point that are quiet. */
  lemma {:induction false} SkipQuiet(parent: BlockId -> BlockId, mine: seq<BlockId>, log: seq<BlockId>, head: nat,
                                     known: set<BlockId>, c: nat, marks: seq<nat>, k: nat)
    requires Exchanging(parent, mine, log, head, known, c, marks) && k <= |marks|
    requires forall j :: k <= j < |marks| ==> c < marks[j] && Quiet(log, head, known, mine[marks[j]])
    ensures LastKnown(log, known, AtMarks(mine, marks)) == LastKnown(log, known, AtMarks(mine, marks[..k]))
    decreases |marks|
  {
    if k == |marks| {
      assert marks[..k] == marks;
    } else {
      var n := |marks| - 1;
      ExchangingAt(parent, mine, log, head, known, c, marks);
      assert Exchanging(parent, mine, log, head, known, c, marks[..n]);
      SharedAbove(parent, mine, log, head, known, c, marks[n]);
      LastOfMarks(log, known, mine, marks, n);
      hide Exchanging, IsShared, LastKnown, AtMarks;
      assert marks[..n + 1] == marks && marks[..n][..k] == marks[..k];
      SkipQuiet(parent, mine, log, head, known, c, marks[..n], k);
    }
  }

  /** What the search finds when it stops at entry `k`. */
  lemma StopsAt(parent: BlockId -> BlockId, mine: seq<BlockId>, log: seq<BlockId>, head: nat, known: set<BlockId>,
                c: nat, marks: seq<nat>, k: nat)
    requires Exchanging(parent, mine, log, head, known, c, marks) && k < |marks|
    requires forall j :: k < j < |marks| ==> c < marks[j] && Quiet(log, head, known, mine[marks[j]])
    requires marks[k] <= c || !Quiet(log, head, known, mine[marks[k]])
    ensures LastKnown(log, known, AtMarks(mine, marks)) ==
            if marks[k] > c && Missing(log, known, mine[marks[k]]) then Err else Ok(mine[marks[k]])
  {
    SkipQuiet(parent, mine, log, head, known, c, marks, k + 1);
    LastOfMarks(log, known, mine, marks, k);
    ExchangingAt(parent, mine, log, head, known, c, marks);
    hide Exchanging, IsShared, LastKnown, AtMarks;
    if marks[k] <= c {
      SharedBelow(parent, mine, log, head, known, c, marks[k]);
    } else {
      SharedAbove(parent, mine, log, head, known, c, marks[k]);
    }
  }

  /** The highest entry above `i` that is not quiet, or `i`. */
  lemma HighestTrouble(mine: seq<BlockId>, log: seq<BlockId>, head: nat, known: set<BlockId>, marks: seq<nat>, i: int)
      returns (k: int)
    requires -1 <= i < |marks| && forall k :: 0 <= k < |marks| ==> marks[k] < |mine|
    ensures i <= k < |marks| && (k == i || !Quiet(log, head, known, mine[marks[k]]))
    ensures forall j :: k < j < |marks| ==> Quiet(log, head, known, mine[marks[j]])
  {
    k := |marks| - 1;
    while k > i && Quiet(log, head, known, mine[marks[k]])
      invariant i <= k < |marks|
      invariant forall j :: k < j < |marks| ==> Quiet(log, head, known, mine[marks[j]])
    {
      k := k - 1;
    }
  }

  /** The reply starts at the highest block of the synopsis that both chains share exactly
      when every entry above the fork point is quiet; and the peer refuses exactly when it
      meets a missing block before a stale one. */
  lemma StartIsHighestShared(parent: BlockId -> BlockId, mine: seq<BlockId>, log: seq<BlockId>, head: nat,
                             known: set<BlockId>, c: nat, marks: seq<nat>, i: nat)
    requires Exchanging(parent, mine, log, head, known, c, marks) && IsHighestMark(marks, c, i)
    ensures LastKnown(log, known, AtMarks(mine, marks)) == Ok(mine[marks[i]]) <==>
            forall k :: i < k < |marks| ==> Quiet(log, head, known, mine[marks[k]])
    ensures LastKnown(log, known, AtMarks(mine, marks)) == Err <==>
            exists k :: i < k < |marks| && Missing(log, known, mine[marks[k]]) &&
                        forall j :: k < j < |marks| ==> Quiet(log, head, known, mine[marks[j]])
  {
    var k := HighestTrouble(mine, log, head, known, marks, i);
    StopsAt(parent, mine, log, head, known, c, marks, k);
    assert mine[marks[k]].num == marks[k] && mine[marks[i]].num == marks[i];
  }

  /** A synopsis that stays above the fork point is refused exactly when the peer meets no
      stale block before a missing one. */
  lemma NothingShared(parent: BlockId -> BlockId, mine: seq<BlockId>, log: seq<BlockId>, head: nat, known: set<BlockId>,
                      c: nat, marks: seq<nat>)
    requires Exchanging(parent, mine, log, head, known, c, marks)
    requires forall k :: 0 <= k < |marks| ==> c < marks[k]
    ensures LastKnown(log, known, AtMarks(mine, marks)) == Err <==>
            !exists k :: 0 <= k < |marks| && Stale(log, head, known, mine[marks[k]]) &&
                         forall j :: k < j < |marks| ==> Quiet(log, head, known, mine[marks[j]])
  {
    var k := HighestTrouble(mine, log, head, known, marks, -1);
    if k == -1 {
      SkipQuiet(parent, mine, log, head, known, c, marks, 0);
    } else {
      StopsAt(parent, mine, log, head, known, c, marks, k);
    }
  }

  lemma StretchPasses(log: seq<BlockId>, head: nat, a: nat, c: nat, limit: nat)
    requires a <= c < head < |log| && limit > c - a + 1
    ensures var reply := Stretch(log, head, a, limit);
      c + 1 - a < |reply| && reply[c - a] == log[c] && reply[c + 1 - a] == log[c + 1]
  {
  }

  /** The peer finds the highest entry of the synopsis that both chains share. */
  ghost predicate StartsAt(log: seq<BlockId>, known: set<BlockId>, chain: seq<BlockId>, m: seq<nat>, i: nat)
    requires i < |m| && forall k :: 0 <= k < |m| ==> m[k] < |chain|
  {
    StartOf(log, known, AtMarks(chain, m)) == Ok(chain[m[i]])
  }

  /** Every entry after `i` is quiet. */
  ghost predicate QuietAbove(log: seq<BlockId>, head: nat, known: set<BlockId>, mine: seq<BlockId>, marks: seq<nat>,
                             i: nat)
    requires forall k :: 0 <= k < |marks| ==> marks[k] < |mine|
  {
    forall k :: i < k < |marks| ==> Quiet(log, head, known, mine[marks[k]])
  }

  lemma StartsAtExactly(parent: BlockId -> BlockId, chain: seq<BlockId>, log: seq<BlockId>, head: nat,
                        known: set<BlockId>, c: nat, m: seq<nat>, i: nat)
    requires Exchanging(parent, chain, log, head, known, c, m) && IsHighestMark(m, c, i)
    ensures StartsAt(log, known, chain, m, i) <==> QuietAbove(log, head, known, chain, m, i)
  {
    hide Quiet, LastKnown;
    StartIsHighestShared(parent, chain, log, head, known, c, m, i);
    assert AtMarks(chain, m)[0] == chain[m[0]] && chain[m[0]].num == m[0];
  }

  lemma WithMarks(parent: BlockId -> BlockId, mine: seq<BlockId>, log: seq<BlockId>, head: nat, known: set<BlockId>,
                  c: nat, marks: seq<nat>, low: nat)
    requires Exchanging(parent, mine, log, head, known, c, []) && 1 <= low && Increasing(marks, low, |mine| - 1)
    ensures Exchanging(parent, mine, log, head, known, c, marks)
    ensures forall k :: 0 <= k < |marks| ==> 0 < marks[k] < |mine|
  {
    hide Linked, PeerLog, ForkPoint;
  }

  /** For a synopsis of our chain that reaches down to the fork point, the highest shared
      entry is at most as far below the fork point as our end of the chain is above it, so
      a stretch from there with a limit one larger passes the fork point; and the reply
      is that stretch exactly when every entry above the fork point is quiet. */
  lemma Exchange(parent: BlockId -> BlockId, span: Span, trailing: nat, log: seq<BlockId>, head: nat,
                 known: set<BlockId>, c: nat, limit: nat) returns (m: seq<nat>, i: nat)
    requires Exchanging(parent, span.chain, log, head, known, c, []) && 1 <= span.low <= c
    ensures m == Marks(span.low, span.High(), span.High() + trailing) && Increasing(m, span.low, span.High())
    ensures IsHighestMark(m, c, i) && c - m[i] <= span.High() + trailing - c
    ensures span.chain[m[i]] == log[m[i]] && log[m[i]].num == m[i]
    ensures StartsAt(log, known, span.chain, m, i) <==> QuietAbove(log, head, known, span.chain, m, i)
    ensures c < head && limit > span.High() + trailing - c + 1 ==>
      var reply := Stretch(log, head, m[i], limit);
      c + 1 - m[i] < |reply| && reply[c - m[i]] == span.chain[c] && reply[c + 1 - m[i]] == log[c + 1]
  {
    m, i := MarksOfSpan(parent, span, trailing, log, head, known, c);
    hide *;
    StartsAtExactly(parent, span.chain, log, head, known, c, m, i);
    SharedBelow(parent, span.chain, log, head, known, c, m[i]);
    if c < head && limit > span.High() + trailing - c + 1 {
      ReplyPasses(parent, span.chain, log, head, known, c, m[i], limit);
    }
  }

  lemma MarksOfSpan(parent: BlockId -> BlockId, span: Span, trailing: nat, log: seq<BlockId>, head: nat,
                    known: set<BlockId>, c: nat) returns (m: seq<nat>, i: nat)
    requires Exchanging(parent, span.chain, log, head, known, c, []) && 1 <= span.low <= c
    ensures head < |log| && c <= head && c < |span.chain|
    ensures m == Marks(span.low, span.High(), span.High() + trailing) && Increasing(m, span.low, span.High())
    ensures IsHighestMark(m, c, i) && i < |m| && m[i] <= c && c - m[i] <= span.High() + trailing - c
    ensures Exchanging(parent, span.chain, log, head, known, c, m)
    ensures forall k :: 0 <= k < |m| ==> 0 < m[k] < |span.chain|
  {
    assert head < |log| && c <= head && c < |span.chain|;
    hide PeerLog, Marks, Exchanging, Linked, ForkPoint;
    var high, trueHigh := span.High(), span.High() + trailing;
    m := Marks(span.low, high, trueHigh);
    i := MarksAreDense(span.low, high, trueHigh, c);
    MarksIncrease(span.low, high, trueHigh);
    WithMarks(parent, span.chain, log, head, known, c, m, span.low);
  }

  /** A reply from a shared block passes the fork point. */
  lemma ReplyPasses(parent: BlockId -> BlockId, mine: seq<BlockId>, log: seq<BlockId>, head: nat, known: set<BlockId>,
                    c: nat, a: nat, limit: nat)
    requires Exchanging(parent, mine, log, head, known, c, []) && 0 < a <= c < head < |log| && c < |mine|
    requires limit > c - a + 1
    ensures var reply := Stretch(log, head, a, limit);
      c + 1 - a < |reply| && reply[c - a] == mine[c] && reply[c + 1 - a] == log[c + 1]
  {
    hide Stretch;
    SharedBelow(parent, mine, log, head, known, c, c);
    StretchPasses(log, head, a, c, limit);
  }

  /** A peer that popped our block 3 but still knows it answers from there, with nothing,
      although block 1 is shared. */
  lemma StaleStart()
    ensures var log := [NO_ID, BlockId(1, 1), BlockId(2, 2), BlockId(3, 1)];
      var mine := [NO_ID, BlockId(1, 1), BlockId(2, 1), BlockId(3, 1)];
      var known := {BlockId(1, 1), BlockId(2, 2), BlockId(3, 1)};
      Exchanging(Replaced, mine, log, 2, known, 1, [1, 3]) &&
      StartOf(log, known, AtMarks(mine, [1, 3])) == Ok(BlockId(3, 1)) && Stretch(log, 2, 3, 2000) == []
  {
    var log := [NO_ID, BlockId(1, 1), BlockId(2, 2), BlockId(3, 1)];
    var mine := [NO_ID, BlockId(1, 1), BlockId(2, 1), BlockId(3, 1)];
    var known := {BlockId(1, 1), BlockId(2, 2), BlockId(3, 1)};
    var main := log[..3];
    assert main == [NO_ID, BlockId(1, 1), BlockId(2, 2)];
    assert Before(main, 1) == NO_ID && Before(main, 2) == BlockId(1, 1);
    assert Before(mine, 1) == NO_ID && Before(mine, 2) == BlockId(1, 1) && Before(mine, 3) == BlockId(2, 1);
    var synopsis := AtMarks(mine, [1, 3]);
    assert synopsis == [BlockId(1, 1), BlockId(3, 1)];
    assert IsShared(log, known, BlockId(3, 1)) == Ok(true);
  }
}
