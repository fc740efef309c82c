/** Pushing a block: extending the head, or switching to a longer fork by undoing
    the blocks after the common ancestor and applying the other branch. */
module ForkSwitch {

  import opened Blocks
  import opened Commons

  datatype Block = Block(id: BlockId, previous: BlockId, body: string)

  /** What a session needs to undo the block applied on top of it. */
  datatype Undo<S> = Undo(head: BlockId, state: S, block: Block)

  datatype PushResult = Extended | Switched | Ignored | Failed

  /** What block `i` of a branch builds on. */
  function Parent(branch: seq<Block>, ancestor: BlockId, i: nat): BlockId {
    if i + 1 < |branch| then branch[i + 1].id else ancestor
  }

  /** A branch, newest block first, that builds on `ancestor` block by block. */
  predicate IsBranch(branch: seq<Block>, ancestor: BlockId) {
    (forall i :: 0 <= i < |branch| ==> branch[i].id.num == ancestor.num + |branch| - i) &&
    (forall i :: 0 <= i < |branch| ==> branch[i].previous == Parent(branch, ancestor, i))
  }

  /** The head after a branch has been applied on `ancestor`. */
  function HeadOf(branch: seq<Block>, ancestor: BlockId): BlockId {
    if branch == [] then ancestor else branch[0].id
  }

  /** The state after a branch, oldest block first, or nothing if one of its blocks fails. */
  function ApplyAll<S>(f: (S, Block) -> Option<S>, s: S, branch: seq<Block>): Option<S> {
    if branch == [] then Some(s)
    else
      match ApplyAll(f, s, branch[1..])
      case None => None
      case Some(t) => f(t, branch[0])
  }

  /** The undo sessions that applying a branch leaves behind, oldest first. */
  function Sessions<S>(f: (S, Block) -> Option<S>, s: S, ancestor: BlockId, branch: seq<Block>): seq<Undo<S>>
    requires branch == [] || ApplyAll(f, s, branch[1..]).Some?
  {
    if branch == [] then []
    else
      var before := ApplyAll(f, s, branch[1..]).value;
      assert branch[1..] == [] || ApplyAll(f, s, branch[1..][1..]).Some?;
      Sessions(f, s, ancestor, branch[1..]) + [Undo(HeadOf(branch[1..], ancestor), before, branch[0])]
  }

  lemma {:induction false} SessionsCount<S>(f: (S, Block) -> Option<S>, s: S, ancestor: BlockId, branch: seq<Block>)
    requires ApplyAll(f, s, branch).Some?
    ensures |Sessions(f, s, ancestor, branch)| == |branch|
  {
    if branch != [] {
      SessionsCount(f, s, ancestor, branch[1..]);
    }
  }

  lemma SessionsGrow<S>(f: (S, Block) -> Option<S>, s: S, ancestor: BlockId, branch: seq<Block>)
    requires branch != [] && ApplyAll(f, s, branch[1..]).Some?
    ensures branch[1..] == [] || ApplyAll(f, s, branch[1..][1..]).Some?
    ensures Sessions(f, s, ancestor, branch) ==
            Sessions(f, s, ancestor, branch[1..]) +
            [Undo(HeadOf(branch[1..], ancestor), ApplyAll(f, s, branch[1..]).value, branch[0])]
  {
  }

  class Chain<S(==)> {
    /** The effect of a block on the object state; it depends on nothing else. */
    const applyBlock: (S, Block) -> Option<S>

    var head: BlockId
    var state: S
    var undo: seq<Undo<S>>

    constructor (applyBlock: (S, Block) -> Option<S>, head: BlockId, state: S)
      ensures this.applyBlock == applyBlock && this.head == head && this.state == state && undo == []
    {
      this.applyBlock, this.head, this.state, undo := applyBlock, head, state, [];
    }

    /** The chain is `branch` applied on `ancestor` in state `s`, above `base` sessions. */
    ghost predicate Stands(base: seq<Undo<S>>, s: S, ancestor: BlockId, branch: seq<Block>)
      reads this
    {
      IsBranch(branch, ancestor) && ApplyAll(applyBlock, s, branch) == Some(state) &&
      head == HeadOf(branch, ancestor) && undo == base + Sessions(applyBlock, s, ancestor, branch)
    }

    /** `start_undo_session`, `apply_block`, `commit`; a block that does not build on the
        head is refused, and a failed block leaves no trace. */
    method ApplyInSession(b: Block) returns (ok: bool)
      modifies this
      ensures ok == (b.previous == old(head) && applyBlock(old(state), b).Some?)
      ensures ok ==> head == b.id && Some(state) == applyBlock(old(state), b) &&
                     undo == old(undo) + [Undo(old(head), old(state), b)]
      ensures !ok ==> head == old(head) && state == old(state) && undo == old(undo)
    {
      if b.previous != head {
        return false;
      }
      match applyBlock(state, b)
      case None => ok := false;
      case Some(t) =>
        undo := undo + [Undo(head, state, b)];
        head, state := b.id, t;
        ok := true;
    }

    method PopBlock() returns (ok: bool)
      modifies this
      ensures ok == (old(undo) != [])
      ensures ok ==> var top := old(undo)[|old(undo)| - 1];
        head == top.head && state == top.state && undo == old(undo)[..|old(undo)| - 1]
      ensures !ok ==> head == old(head) && state == old(state) && undo == old(undo)
    {
      if undo == [] {
        return false;
      }
      var top := undo[|undo| - 1];
      head, state, undo := top.head, top.state, undo[..|undo| - 1];
      ok := true;
    }

    /** `while head_block_id() != ancestor pop_block()`. */
    method PopTo(ancestor: BlockId, ghost base: seq<Undo<S>>, ghost s: S, ghost branch: seq<Block>) returns (ok: bool)
      requires Stands(base, s, ancestor, branch)
      modifies this
      ensures ok && head == ancestor && state == s && undo == base
    {
      ghost var rest := branch;
      while head != ancestor
        invariant Stands(base, s, ancestor, rest)
        decreases |undo|
      {
        SessionsCount(applyBlock, s, ancestor, rest);
        assert rest != [];
        var popped := PopBlock();
        BranchTail(rest, ancestor);
        rest := rest[1..];
        assert undo == base + Sessions(applyBlock, s, ancestor, rest);
      }
      HeadIsAncestor(rest, ancestor);
      ok := true;
    }

    /** Applies a branch from its oldest block on; stops at the first block that fails. */
    method PushBranch(branch: seq<Block>, ghost ancestor: BlockId) returns (ok: bool, ghost applied: seq<Block>)
      requires IsBranch(branch, ancestor) && head == ancestor
      modifies this
      ensures ok == ApplyAll(applyBlock, old(state), branch).Some?
      ensures ok ==> applied == branch
      ensures Stands(old(undo), old(state), ancestor, applied)
    {
      var i := |branch|;
      ghost var s, base := state, undo;
      applied := [];
      while i > 0
        invariant 0 <= i <= |branch| && applied == branch[i..]
        invariant Stands(base, s, ancestor, applied)
      {
        var b := branch[i - 1];
        assert branch[i - 1..][1..] == applied && branch[i - 1..][0] == b;
        BranchSuffix(branch, ancestor, i - 1);
        BranchTail(branch[i - 1..], ancestor);
        var done := ApplyInSession(b);
        if !done {
          assert ApplyAll(applyBlock, s, branch[i - 1..]) == None;
          FailureStays(applyBlock, s, branch, i - 1);
          ok := false;
          return;
        }
        i := i - 1;
        applied := branch[i..];
        SessionsGrow(applyBlock, s, ancestor, applied);
      }
      assert branch[0..] == branch;
      ok := true;
    }

    /** Switching from the old branch to the new one, and back if a new block fails.
        The branches are what the fork database returns for their heads. */
    method SwitchFork(coming: seq<Block>, leaving: seq<Block>, ancestor: BlockId,
                      ghost base: seq<Undo<S>>, ghost s: S) returns (ok: bool)
      requires Stands(base, s, ancestor, leaving) && IsBranch(coming, ancestor)
      modifies this
      ensures ok == ApplyAll(applyBlock, s, coming).Some?
      ensures ok ==> Stands(base, s, ancestor, coming)
      ensures !ok ==> head == old(head) && state == old(state) && undo == old(undo)
    {
      var popped := PopTo(ancestor, base, s, leaving);
      ghost var applied;
      ok, applied := PushBranch(coming, ancestor);
      if !ok {
        popped := PopTo(ancestor, base, s, applied);
        ghost var restored;
        var back;
        back, restored := PushBranch(leaving, ancestor);
      }
    }

    /** A switch is due: the fork database has a higher head that does not build on ours. */
    predicate Switching(newHead: Block)
      reads this
    {
      newHead.previous != head && newHead.id.num > head.num
    }

    /** The decision in `_push_block`. `newHead` is the head of the fork database after the
        block has entered it; when a switch is due, the branches lead from both heads to
        their ancestor. `newHead` need not be the block pushed: a block that failed on top
        of our head stays the fork database's head, and comes back when another block of
        that height is pushed. */
    method PushBlock(b: Block, newHead: Block, coming: seq<Block>, leaving: seq<Block>, ancestor: BlockId,
                     ghost base: seq<Undo<S>>, ghost s: S) returns (r: PushResult)
      requires Switching(newHead) ==> Stands(base, s, ancestor, leaving) && IsBranch(coming, ancestor)
      modifies this
      ensures r == Failed || r == Ignored ==> head == old(head) && state == old(state) && undo == old(undo)
      ensures r == Extended ==>
        head == b.id && Some(state) == applyBlock(old(state), b) && undo == old(undo) + [Undo(old(head), old(state), b)]
      ensures r == Extended <==>
        newHead.previous == old(head) && b.previous == old(head) && applyBlock(old(state), b).Some?
      ensures r == Switched ==> Stands(base, s, ancestor, coming)
      ensures r == Switched <==>
        newHead.previous != old(head) && newHead.id.num > old(head).num && ApplyAll(applyBlock, s, coming).Some?
      ensures r == Ignored <==> newHead.previous != old(head) && newHead.id.num <= old(head).num
    {
      if newHead.previous != head {
        if newHead.id.num > head.num {
          var ok := SwitchFork(coming, leaving, ancestor, base, s);
          return if ok then Switched else Failed;
        }
        return Ignored;
      }
      var ok := ApplyInSession(b);
      return if ok then Extended else Failed;
    }
  }

  lemma BranchTail(branch: seq<Block>, ancestor: BlockId)
    requires IsBranch(branch, ancestor) && branch != []
    ensures IsBranch(branch[1..], ancestor) && branch[0].previous == HeadOf(branch[1..], ancestor)
  {
    var tail := branch[1..];
    assert branch[0].previous == Parent(branch, ancestor, 0);
    forall i | 0 <= i < |tail|
      ensures tail[i].id.num == ancestor.num + |tail| - i
      ensures tail[i].previous == Parent(tail, ancestor, i)
    {
      assert tail[i] == branch[i + 1];
      assert i + 1 < |tail| ==> tail[i + 1] == branch[i + 2];
    }
  }

  lemma {:induction false} BranchSuffix(branch: seq<Block>, ancestor: BlockId, i: nat)
    requires IsBranch(branch, ancestor) && i <= |branch|
    ensures IsBranch(branch[i..], ancestor)
  {
    if i == 0 {
      assert branch[0..] == branch;
    } else {
      BranchTail(branch, ancestor);
      BranchSuffix(branch[1..], ancestor, i - 1);
      assert branch[1..][i - 1..] == branch[i..];
    }
  }

  lemma HeadIsAncestor(branch: seq<Block>, ancestor: BlockId)
    requires IsBranch(branch, ancestor) && HeadOf(branch, ancestor) == ancestor
    ensures branch == []
  {
  }

  lemma {:induction false} FailureStays<S>(f: (S, Block) -> Option<S>, s: S, branch: seq<Block>, i: nat)
    requires i <= |branch| && ApplyAll(f, s, branch[i..]) == None
    ensures ApplyAll(f, s, branch) == None
  {
    if i == 0 {
      assert branch[0..] == branch;
    } else {
      assert branch[1..][i - 1..] == branch[i..];
      FailureStays(f, s, branch[1..], i - 1);
    }
  }

  // ----- The branches of the fork database -----

  /** Every item is stored under its own id and is one higher than its predecessor. */
  predicate IsIndex(index: map<BlockId, Block>) {
    forall id :: id in index ==> index[id].id == id && id.num == index[id].previous.num + 1
  }

  lemma BranchGrows(branch: seq<Block>, b: Block)
    requires IsBranch(branch, b.id) && b.id.num == b.previous.num + 1
    ensures IsBranch(branch + [b], b.previous)
  {
    var longer := branch + [b];
    forall i | 0 <= i < |longer|
      ensures longer[i].previous == Parent(longer, b.previous, i)
    {
      assert i < |branch| ==> branch[i].previous == Parent(branch, b.id, i);
    }
  }

  predicate Held(index: map<BlockId, Block>, branch: seq<Block>) {
    forall i :: 0 <= i < |branch| ==> branch[i].id in index && index[branch[i].id] == branch[i]
  }

  /** Branches of the index that lead from both heads to `c`. */
  predicate Connects(index: map<BlockId, Block>, first: BlockId, second: BlockId, a: seq<Block>, b: seq<Block>,
                     c: BlockId) {
    a != [] && b != [] && a[0].id == first && b[0].id == second &&
    IsBranch(a, c) && IsBranch(b, c) && Held(index, a) && Held(index, b)
  }

  ghost predicate Connected(index: map<BlockId, Block>, first: BlockId, second: BlockId) {
    exists a, b, c :: Connects(index, first, second, a, b, c)
  }

  /** Every place where the heads meet is below `n`. */
  ghost predicate MeetBelow(index: map<BlockId, Block>, first: BlockId, second: BlockId, n: int) {
    forall a, b, c :: Connects(index, first, second, a, b, c) ==> c.num < n
  }

  /** A walk back from the head of a branch stays on it above its ancestor. */
  lemma {:induction false} SameWalk(index: map<BlockId, Block>, branch: seq<Block>, c: BlockId, walk: seq<Block>,
                                    end: BlockId, k: nat)
    requires branch != [] && IsBranch(branch, c) && Held(index, branch)
    requires k < |walk| && IsBranch(walk, end) && Held(index, walk) && walk[0].id == branch[0].id
    requires walk[|walk| - 1].id.num > c.num
    ensures k < |branch| && branch[k] == walk[k]
  {
    if k > 0 {
      SameWalk(index, branch, c, walk, end, k - 1);
      assert walk[k - 1].previous == Parent(walk, end, k - 1) == walk[k].id;
      assert branch[k - 1].previous == Parent(branch, c, k - 1);
      assert walk[k - 1].id.num == end.num + |walk| - (k - 1);
      assert walk[|walk| - 1].id.num == end.num + 1;
      assert branch[k - 1].id.num == c.num + |branch| - (k - 1);
    }
  }

  /** More than one above the ancestor, the predecessor is known; just above it, it is the
      ancestor. */
  lemma WalkOn(index: map<BlockId, Block>, branch: seq<Block>, c: BlockId, walk: seq<Block>)
    requires branch != [] && IsBranch(branch, c) && Held(index, branch)
    requires walk != [] && Held(index, walk) && walk[0].id == branch[0].id
    requires IsBranch(walk, walk[|walk| - 1].previous) && walk[|walk| - 1].id.num > c.num
    ensures var x := walk[|walk| - 1];
      (x.id.num > c.num + 1 ==> x.previous in index) && (x.id.num == c.num + 1 ==> x.previous == c)
  {
    var k := |walk| - 1;
    SameWalk(index, branch, c, walk, walk[k].previous, k);
    assert branch[k].previous == Parent(branch, c, k);
    assert branch[k].id.num == c.num + |branch| - k;
    if k + 1 < |branch| {
      assert branch[k + 1].id in index;
    }
  }

  /** Where a walk has come to: it leads from `head` back to `x`, all of it known. */
  predicate WalkedTo(index: map<BlockId, Block>, head: BlockId, walk: seq<Block>, x: Block) {
    x.id in index && index[x.id] == x && IsBranch(walk, x.id) && Held(index, walk) && HeadOf(walk, x.id) == head
  }

  lemma WalkedIsBranch(index: map<BlockId, Block>, head: BlockId, walk: seq<Block>, x: Block)
    requires IsIndex(index) && WalkedTo(index, head, walk, x)
    ensures IsBranch(walk + [x], x.previous) && Held(index, walk + [x]) && (walk + [x])[0].id == head
  {
    BranchGrows(walk, x);
  }

  lemma StuckMeansApart(index: map<BlockId, Block>, first: BlockId, second: BlockId, walk: seq<Block>, x: Block)
    requires IsIndex(index) && MeetBelow(index, first, second, x.id.num - 1) && x.previous !in index
    requires WalkedTo(index, first, walk, x) || WalkedTo(index, second, walk, x)
    ensures !Connected(index, first, second)
  {
    hide IsBranch, Held;
    forall a, b, c | Connects(index, first, second, a, b, c)
      ensures false
    {
      if WalkedTo(index, first, walk, x) {
        WalkedIsBranch(index, first, walk, x);
        WalkOn(index, a, c, walk + [x]);
      } else {
        WalkedIsBranch(index, second, walk, x);
        WalkOn(index, b, c, walk + [x]);
      }
    }
  }

  lemma MeetBelowHeads(index: map<BlockId, Block>, first: BlockId, second: BlockId)
    ensures MeetBelow(index, first, second, first.num) && MeetBelow(index, first, second, second.num)
  {
  }

  /** Heads level at blocks that build on different ones meet further down. */
  lemma MeetFurtherDown(index: map<BlockId, Block>, first: BlockId, second: BlockId, a: seq<Block>, x: Block,
                        b: seq<Block>, y: Block)
    requires IsIndex(index) && MeetBelow(index, first, second, x.id.num) && x.id.num == y.id.num &&
             x.previous != y.previous
    requires WalkedTo(index, first, a, x) && WalkedTo(index, second, b, y)
    ensures MeetBelow(index, first, second, x.id.num - 1)
  {
    hide IsBranch, Held;
    WalkedIsBranch(index, first, a, x);
    WalkedIsBranch(index, second, b, y);
    forall A, B, c | Connects(index, first, second, A, B, c)
      ensures c.num < x.id.num - 1
    {
      WalkOn(index, A, c, a + [x]);
      WalkOn(index, B, c, b + [y]);
    }
  }

  /** One step back from `x`, if its predecessor is known. */
  method StepBack(index: map<BlockId, Block>, branch: seq<Block>, x: Block, ghost head: BlockId)
    returns (ok: bool, longer: seq<Block>, before: Block)
    requires IsIndex(index) && WalkedTo(index, head, branch, x)
    ensures ok == (x.previous in index) && longer == branch + [x]
    ensures ok ==> WalkedTo(index, head, longer, before) && before.id.num + 1 == x.id.num
  {
    BranchGrows(branch, x);
    longer := branch + [x];
    if x.previous !in index {
      return false, longer, x;
    }
    return true, longer, index[x.previous];
  }

  /** `fetch_branch_from`: walks both heads back until they build on the same block. It
      succeeds exactly when the index leads from both heads to some common block, and
      then finds the highest one. */
  method FetchBranchFrom(index: map<BlockId, Block>, first: BlockId, second: BlockId)
    returns (ok: bool, a: seq<Block>, b: seq<Block>)
    requires IsIndex(index)
    ensures ok == Connected(index, first, second)
    ensures ok ==> a != [] && Connects(index, first, second, a, b, a[|a| - 1].previous)
    ensures ok ==> MeetBelow(index, first, second, a[|a| - 1].previous.num + 1)
  {
    hide IsBranch, IsIndex, Held, WalkedTo, MeetBelow, Connects;
    a, b := [], [];
    if first !in index || second !in index {
      UnknownHead(index, first, second);
      return false, [], [];
    }
    var x, y := index[first], index[second];
    WalkStart(index, first);
    WalkStart(index, second);
    MeetBelowHeads(index, first, second);
    while x.id.num > y.id.num
      invariant WalkedTo(index, first, a, x) && MeetBelow(index, first, second, x.id.num)
      decreases x.id.num
    {
      MeetBelowMore(index, first, second, y.id.num, x.id.num - 1);
      if x.previous !in index {
        StuckMeansApart(index, first, second, a, x);
      }
      ok, a, x := StepBack(index, a, x, first);
      if !ok {
        return false, [], [];
      }
    }
    while y.id.num > x.id.num
      invariant WalkedTo(index, second, b, y) && MeetBelow(index, first, second, y.id.num) && x.id.num <= y.id.num
      decreases y.id.num
    {
      MeetBelowMore(index, first, second, x.id.num, y.id.num - 1);
      if y.previous !in index {
        StuckMeansApart(index, first, second, b, y);
      }
      ok, b, y := StepBack(index, b, y, second);
      if !ok {
        return false, [], [];
      }
    }
    while x.previous != y.previous
      invariant WalkedTo(index, first, a, x) && WalkedTo(index, second, b, y)
      invariant x.id.num == y.id.num && MeetBelow(index, first, second, x.id.num)
      decreases x.id.num
    {
      MeetFurtherDown(index, first, second, a, x, b, y);
      if x.previous !in index {
        StuckMeansApart(index, first, second, a, x);
      }
      if y.previous !in index {
        StuckMeansApart(index, first, second, b, y);
      }
      var ok';
      ok, a, x := StepBack(index, a, x, first);
      ok', b, y := StepBack(index, b, y, second);
      if !ok || !ok' {
        return false, [], [];
      }
    }
    WalksConnect(index, first, second, a, x, b, y);
    a, b := a + [x], b + [y];
    ok := true;
  }

  lemma UnknownHead(index: map<BlockId, Block>, first: BlockId, second: BlockId)
    requires first !in index || second !in index
    ensures !Connected(index, first, second)
  {
  }

  lemma WalkStart(index: map<BlockId, Block>, head: BlockId)
    requires IsIndex(index) && head in index
    ensures index[head].id == head && WalkedTo(index, head, [], index[head])
  {
  }

  lemma MeetBelowMore(index: map<BlockId, Block>, first: BlockId, second: BlockId, n: int, m: int)
    requires MeetBelow(index, first, second, n) && n <= m
    ensures MeetBelow(index, first, second, m)
  {
  }

  lemma WalksConnect(index: map<BlockId, Block>, first: BlockId, second: BlockId, a: seq<Block>, x: Block,
                     b: seq<Block>, y: Block)
    requires IsIndex(index) && WalkedTo(index, first, a, x) && WalkedTo(index, second, b, y) && x.previous == y.previous
    ensures Connects(index, first, second, a + [x], b + [y], x.previous) && x.previous.num + 1 == x.id.num
  {
    WalkedIsBranch(index, first, a, x);
    WalkedIsBranch(index, second, b, y);
  }
}
