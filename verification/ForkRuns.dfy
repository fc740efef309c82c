/** Any sequence of pushed blocks: the branches that the fork database finds, the head and
    the undo history together. */
module ForkRuns {
  import opened Blocks
  import opened Commons
  import opened ForkSwitch

  /** A push: the block, and what the fork database holds and calls its head once the block
      has entered it. */
  datatype Push = Push(block: Block, index: map<BlockId, Block>, newHead: Block)

  /** What comes of it. `Apart`: the index leads to no common block. `Exhausted`: the undo
      history ended before the common block was reached. */
  datatype Outcome = Done(result: PushResult) | Apart | Exhausted

  /** Ids are hashes: a block with a given id has one content. */
  predicate OfIds(content: BlockId -> Block, branch: seq<Block>) {
    forall i :: 0 <= i < |branch| ==> branch[i] == content(branch[i].id)
  }

  predicate Genuine(content: BlockId -> Block, p: Push) {
    IsIndex(p.index) && (forall id :: id in p.index ==> p.index[id] == content(id)) &&
    p.block == content(p.block.id) && p.block.id.num == p.block.previous.num + 1
  }

  // ----- Splitting a chain -----

  lemma {:induction false} ChainSplits<S>(f: (S, Block) -> Option<S>, s: S, root: BlockId, main: seq<Block>, m: nat)
    requires IsBranch(main, root) && ApplyAll(f, s, main).Some? && m <= |main|
    ensures ApplyAll(f, s, main[m..]).Some?
    ensures var t, c := ApplyAll(f, s, main[m..]).value, HeadOf(main[m..], root);
      IsBranch(main[..m], c) && ApplyAll(f, t, main[..m]) == ApplyAll(f, s, main) &&
      HeadOf(main[..m], c) == HeadOf(main, root) &&
      Sessions(f, s, root, main) == Sessions(f, s, root, main[m..]) + Sessions(f, t, c, main[..m])
  {
    if m == 0 {
      assert main[0..] == main && main[..0] == [];
    } else {
      var rest := main[1..];
      BranchTail(main, root);
      ChainSplits(f, s, root, rest, m - 1);
      assert rest[m - 1..] == main[m..] && main[..m][1..] == rest[..m - 1];
      var t, c := ApplyAll(f, s, main[m..]).value, HeadOf(main[m..], root);
      BranchFront(main, root, m);
      SessionsGrow(f, s, root, main);
      SessionsGrow(f, t, c, main[..m]);
    }
  }

  lemma BranchFront(main: seq<Block>, root: BlockId, m: nat)
    requires IsBranch(main, root) && m <= |main|
    ensures IsBranch(main[..m], HeadOf(main[m..], root))
  {
    forall i | 0 <= i < m
      ensures main[i].previous == Parent(main[..m], HeadOf(main[m..], root), i)
    {
      assert main[i].previous == Parent(main, root, i);
    }
  }

  lemma BranchJoins(top: seq<Block>, rest: seq<Block>, root: BlockId)
    requires IsBranch(rest, root) && IsBranch(top, HeadOf(rest, root))
    ensures IsBranch(top + rest, root) && HeadOf(top + rest, root) == HeadOf(top, HeadOf(rest, root))
  {
    var main, c := top + rest, HeadOf(rest, root);
    assert c.num == root.num + |rest|;
    forall i | 0 <= i < |main|
      ensures main[i].previous == Parent(main, root, i)
    {
      if i < |top| {
        assert top[i].previous == Parent(top, c, i);
      } else {
        assert rest[i - |top|].previous == Parent(rest, root, i - |top|);
      }
    }
  }

  lemma {:induction false} ApplyJoins<S>(f: (S, Block) -> Option<S>, s: S, top: seq<Block>, rest: seq<Block>)
    requires ApplyAll(f, s, rest).Some?
    ensures ApplyAll(f, s, top + rest) == ApplyAll(f, ApplyAll(f, s, rest).value, top)
  {
    if top == [] {
      assert top + rest == rest;
    } else {
      assert (top + rest)[1..] == top[1..] + rest;
      ApplyJoins(f, s, top[1..], rest);
    }
  }

  // ----- Finding the branches -----

  /** The branch that leaves is the top of the chain, as far as the chain goes. */
  lemma {:induction false} LeavingIsTop(content: BlockId -> Block, main: seq<Block>, root: BlockId, leaving: seq<Block>,
                                        c: BlockId, k: nat)
    requires IsBranch(main, root) && OfIds(content, main) && IsBranch(leaving, c) && OfIds(content, leaving)
    requires k < |leaving| && k < |main| && leaving[0].id == HeadOf(main, root)
    ensures leaving[k] == main[k]
  {
    if k > 0 {
      LeavingIsTop(content, main, root, leaving, c, k - 1);
      assert leaving[k - 1].previous == Parent(leaving, c, k - 1);
      assert main[k - 1].previous == Parent(main, root, k - 1);
    }
  }

  /** A branch no longer than the chain ends where the chain goes on. */
  lemma LeavingFits(content: BlockId -> Block, main: seq<Block>, root: BlockId, leaving: seq<Block>, c: BlockId)
    requires IsBranch(main, root) && OfIds(content, main) && IsBranch(leaving, c) && OfIds(content, leaving)
    requires leaving != [] && leaving[0].id == HeadOf(main, root)
    ensures c.num == root.num + |main| - |leaving|
    ensures |leaving| <= |main| ==> leaving == main[..|leaving|] && c == HeadOf(main[|leaving|..], root)
  {
    assert HeadOf(main, root).num == root.num + |main|;
    if |leaving| <= |main| {
      var m := |leaving|;
      forall k | 0 <= k < m
        ensures leaving[k] == main[k]
      {
        LeavingIsTop(content, main, root, leaving, c, k);
      }
      assert leaving[m - 1].previous == Parent(leaving, c, m - 1) == c;
      assert main[m - 1].previous == Parent(main, root, m - 1);
    }
  }

  lemma HeldIsOfIds(content: BlockId -> Block, p: Push, branch: seq<Block>)
    requires Genuine(content, p) && Held(p.index, branch)
    ensures OfIds(content, branch)
  {
    forall i | 0 <= i < |branch|
      ensures branch[i] == content(branch[i].id)
    {
      assert p.index[branch[i].id] == branch[i];
    }
  }

  // ----- One push -----

  /** Branches of the index from the head the fork database names, and from ours, down to
      their highest common block. */
  ghost predicate Forks(p: Push, head: BlockId, coming: seq<Block>, leaving: seq<Block>, c: BlockId) {
    Connects(p.index, p.newHead.id, head, coming, leaving, c) && MeetBelow(p.index, p.newHead.id, head, c.num + 1)
  }

  /** The chain `main` on `root` becomes `main'`. */
  ghost predicate Steps<S>(f: (S, Block) -> Option<S>, s: S, root: BlockId, main: seq<Block>, p: Push,
                           main': seq<Block>, out: Outcome)
  {
    var head := HeadOf(main, root);
    var due := p.newHead.previous != head && p.newHead.id.num > head.num;
    match out
    case Done(Extended) =>
      p.newHead.previous == head && p.block.previous == head && main' == [p.block] + main &&
      ApplyAll(f, s, main').Some?
    case Done(Switched) =>
      due && exists coming, leaving, c ::
        Forks(p, head, coming, leaving, c) && Replaced(main, coming, leaving, main') && ApplyAll(f, s, main').Some?
    case Done(Ignored) => main' == main && p.newHead.previous != head && !due
    case Done(Failed) =>
      main' == main &&
      if due then exists coming, leaving, c ::
        Forks(p, head, coming, leaving, c) && |leaving| <= |main| &&
        ApplyAll(f, s, coming + main[|leaving|..]).None?
      else p.newHead.previous == head && (p.block.previous != head || ApplyAll(f, s, [p.block] + main).None?)
    case Apart => main' == main && due && !Connected(p.index, p.newHead.id, head)
    case Exhausted =>
      main' == [] && due && exists coming, leaving, c ::
        Forks(p, head, coming, leaving, c) && c.num < root.num
  }

  ghost predicate Replaced(main: seq<Block>, coming: seq<Block>, leaving: seq<Block>, main': seq<Block>) {
    |leaving| <= |main| && main[..|leaving|] == leaving && main' == coming + main[|leaving|..]
  }

  /** Popping until the undo history is used up. */
  method PopOut<S(==)>(chain: Chain<S>, ghost s: S, ghost root: BlockId, ghost main: seq<Block>)
    requires chain.Stands([], s, root, main)
    modifies chain
    ensures chain.Stands([], s, root, [])
  {
    ghost var rest := main;
    var ok := true;
    while ok
      invariant chain.Stands([], s, root, rest)
      invariant !ok ==> rest == []
      decreases ok, |chain.undo|
    {
      SessionsCount(chain.applyBlock, s, root, rest);
      ok := chain.PopBlock();
      if rest != [] {
        BranchTail(rest, root);
        SessionsGrow(chain.applyBlock, s, root, rest);
        rest := rest[1..];
      }
    }
  }

  lemma Extending<S>(f: (S, Block) -> Option<S>, s: S, root: BlockId, main: seq<Block>, b: Block)
    requires IsBranch(main, root) && ApplyAll(f, s, main).Some?
    requires b.previous == HeadOf(main, root) && b.id.num == b.previous.num + 1
    ensures var main' := [b] + main;
      IsBranch(main', root) && HeadOf(main', root) == b.id &&
      ApplyAll(f, s, main') == f(ApplyAll(f, s, main).value, b) &&
      Sessions(f, s, root, main') ==
        Sessions(f, s, root, main) + [Undo(HeadOf(main, root), ApplyAll(f, s, main).value, b)]
  {
    var main' := [b] + main;
    assert main'[1..] == main;
    BranchJoins([b], main, root);
    SessionsGrow(f, s, root, main');
  }

  /** A branch put in place of the top of a chain. */
  lemma Replacing<S>(f: (S, Block) -> Option<S>, s: S, root: BlockId, coming: seq<Block>, rest: seq<Block>)
    requires IsBranch(rest, root) && IsBranch(coming, HeadOf(rest, root)) && ApplyAll(f, s, rest).Some?
    ensures var main', t, c := coming + rest, ApplyAll(f, s, rest).value, HeadOf(rest, root);
      IsBranch(main', root) && HeadOf(main', root) == HeadOf(coming, c) &&
      ApplyAll(f, s, main') == ApplyAll(f, t, coming) &&
      (ApplyAll(f, s, main').Some? ==>
        Sessions(f, s, root, main') == Sessions(f, s, root, rest) + Sessions(f, t, c, coming))
  {
    var main' := coming + rest;
    BranchJoins(coming, rest, root);
    ApplyJoins(f, s, coming, rest);
    if ApplyAll(f, s, main').Some? {
      assert main'[|coming|..] == rest && main'[..|coming|] == coming;
      ChainSplits(f, s, root, main', |coming|);
    }
  }

  lemma JoinedOfIds(content: BlockId -> Block, a: seq<Block>, b: seq<Block>)
    requires OfIds(content, a) && OfIds(content, b)
    ensures OfIds(content, a + b)
  {
  }

  /** A push that does not call for a switch. */
  method PushHere<S(==)>(chain: Chain<S>, p: Push, ghost content: BlockId -> Block, ghost s: S, ghost root: BlockId,
                         ghost main: seq<Block>)
    returns (out: Outcome, ghost main': seq<Block>)
    requires chain.Stands([], s, root, main) && OfIds(content, main) && Genuine(content, p)
    requires !chain.Switching(p.newHead)
    modifies chain
    ensures chain.Stands([], s, root, main') && OfIds(content, main')
    ensures Steps(chain.applyBlock, s, root, main, p, main', out)
  {
    if p.block.previous == chain.head {
      Extending(chain.applyBlock, s, root, main, p.block);
      JoinedOfIds(content, [p.block], main);
    }
    var r := chain.PushBlock(p.block, p.newHead, [], [], chain.head, [], s);
    out := Done(r);
    main' := if r == Extended then [p.block] + main else main;
  }

  /** The head is switched to the branch that comes, or stays. */
  method PushSwitch<S(==)>(chain: Chain<S>, p: Push, coming: seq<Block>, leaving: seq<Block>, c: BlockId,
                           ghost content: BlockId -> Block, ghost s: S, ghost root: BlockId, ghost main: seq<Block>)
    returns (out: Outcome, ghost main': seq<Block>)
    requires chain.Stands([], s, root, main) && OfIds(content, main) && OfIds(content, coming)
    requires chain.Switching(p.newHead) && Forks(p, chain.head, coming, leaving, c)
    requires |leaving| <= |main| && leaving == main[..|leaving|] && c == HeadOf(main[|leaving|..], root)
    modifies chain
    ensures chain.Stands([], s, root, main') && OfIds(content, main')
    ensures Steps(chain.applyBlock, s, root, main, p, main', out)
  {
    ghost var f, rest := chain.applyBlock, main[|leaving|..];
    ForksAreBranches(p, chain.head, coming, leaving, c);
    hide Sessions, ApplyAll, IsBranch, Forks, Steps;
    ChainSplits(f, s, root, main, |leaving|);
    BranchSuffix(main, root, |leaving|);
    Replacing(f, s, root, coming, rest);
    ghost var base, t := Sessions(f, s, root, rest), ApplyAll(f, s, rest).value;
    assert [] + Sessions(f, s, root, main) == base + Sessions(f, t, c, leaving);
    var r := chain.PushBlock(p.block, p.newHead, coming, leaving, c, base, t);
    out := Done(r);
    SwitchSteps(f, s, root, main, p, coming, leaving, c);
    if r == Switched {
      main' := coming + rest;
      assert base + Sessions(f, t, c, coming) == [] + Sessions(f, s, root, main');
      JoinedOfIds(content, coming, rest);
    } else {
      main' := main;
    }
  }

  lemma ForksAreBranches(p: Push, head: BlockId, coming: seq<Block>, leaving: seq<Block>, c: BlockId)
    requires Forks(p, head, coming, leaving, c)
    ensures IsBranch(coming, c) && IsBranch(leaving, c)
  {
  }

  lemma SwitchSteps<S>(f: (S, Block) -> Option<S>, s: S, root: BlockId, main: seq<Block>, p: Push, coming: seq<Block>,
                       leaving: seq<Block>, c: BlockId)
    requires p.newHead.previous != HeadOf(main, root) && p.newHead.id.num > HeadOf(main, root).num
    requires Forks(p, HeadOf(main, root), coming, leaving, c)
    requires |leaving| <= |main| && leaving == main[..|leaving|]
    ensures var main' := coming + main[|leaving|..];
      if ApplyAll(f, s, main').Some? then Steps(f, s, root, main, p, main', Done(Switched))
      else Steps(f, s, root, main, p, main, Done(Failed))
  {
    hide Forks, ApplyAll;
    assert Replaced(main, coming, leaving, coming + main[|leaving|..]);
  }

  /** A push that does: the branches are fetched, and the head switched to the new one. */
  method PushFork<S(==)>(chain: Chain<S>, p: Push, ghost content: BlockId -> Block, ghost s: S, ghost root: BlockId,
                         ghost main: seq<Block>)
    returns (out: Outcome, ghost main': seq<Block>)
    requires chain.Stands([], s, root, main) && OfIds(content, main) && Genuine(content, p)
    requires chain.Switching(p.newHead)
    modifies chain
    ensures chain.Stands([], s, root, main') && OfIds(content, main')
    ensures Steps(chain.applyBlock, s, root, main, p, main', out)
  {
    var ok, coming, leaving := FetchBranchFrom(p.index, p.newHead.id, chain.head);
    if !ok {
      return Apart, main;
    }
    var c := coming[|coming| - 1].previous;
    assert Forks(p, chain.head, coming, leaving, c);
    HeldIsOfIds(content, p, coming);
    HeldIsOfIds(content, p, leaving);
    LeavingFits(content, main, root, leaving, c);
    SessionsCount(chain.applyBlock, s, root, main);
    if |leaving| > |chain.undo| {
      PopOut(chain, s, root, main);
      return Exhausted, [];
    }
    out, main' := PushSwitch(chain, p, coming, leaving, c, content, s, root, main);
  }

  // ----- Any sequence of pushes -----

  /** A run of pushes leads through these chains, all of which apply from the root on. */
  ghost predicate Runs<S>(f: (S, Block) -> Option<S>, s: S, root: BlockId, mains: seq<seq<Block>>, pushes: seq<Push>,
                          outs: seq<Outcome>)
  {
    |mains| == |pushes| + 1 && |outs| == |pushes| &&
    (forall i :: 0 <= i < |mains| ==> IsBranch(mains[i], root) && ApplyAll(f, s, mains[i]).Some?) &&
    (forall i :: 0 <= i < |pushes| ==> Steps(f, s, root, mains[i], pushes[i], mains[i + 1], outs[i]))
  }

  lemma RunGrows<S>(f: (S, Block) -> Option<S>, s: S, root: BlockId, mains: seq<seq<Block>>, pushes: seq<Push>,
                    outs: seq<Outcome>, main': seq<Block>, p: Push, out: Outcome)
    requires Runs(f, s, root, mains, pushes, outs)
    requires Steps(f, s, root, mains[|pushes|], p, main', out) && IsBranch(main', root) && ApplyAll(f, s, main').Some?
    ensures Runs(f, s, root, mains + [main'], pushes + [p], outs + [out])
  {
    hide Steps, IsBranch, ApplyAll;
    var ms, ps, os := mains + [main'], pushes + [p], outs + [out];
    forall i | 0 <= i < |ps|
      ensures Steps(f, s, root, ms[i], ps[i], ms[i + 1], os[i])
    {
    }
  }

  /** Whatever blocks are pushed and whatever the fork database holds, the chain is always the
      root's state with the blocks of `mains` applied, and the undo history leads back to it. */
  method PushAll<S(==)>(chain: Chain<S>, pushes: seq<Push>, ghost content: BlockId -> Block, ghost s: S,
                        ghost root: BlockId, ghost main: seq<Block>)
    returns (outs: seq<Outcome>, ghost mains: seq<seq<Block>>)
    requires chain.Stands([], s, root, main) && OfIds(content, main)
    requires forall p :: p in pushes ==> Genuine(content, p)
    modifies chain
    ensures Runs(chain.applyBlock, s, root, mains, pushes, outs) && mains[0] == main
    ensures chain.Stands([], s, root, mains[|pushes|])
  {
    hide Steps, Genuine, OfIds;
    outs, mains := [], [main];
    ghost var now := main;
    for i := 0 to |pushes|
      invariant Runs(chain.applyBlock, s, root, mains, pushes[..i], outs) && mains[0] == main && mains[i] == now
      invariant chain.Stands([], s, root, now) && OfIds(content, now)
    {
      var out;
      ghost var main';
      if chain.Switching(pushes[i].newHead) {
        out, main' := PushFork(chain, pushes[i], content, s, root, now);
      } else {
        out, main' := PushHere(chain, pushes[i], content, s, root, now);
      }
      RunGrows(chain.applyBlock, s, root, mains, pushes[..i], outs, main', pushes[i], out);
      assert pushes[..i] + [pushes[i]] == pushes[..i + 1];
      outs, mains, now := outs + [out], mains + [main'], main';
    }
    assert pushes[..|pushes|] == pushes;
  }

  predicate Succeeds(out: Outcome) {
    out == Done(Extended) || out == Done(Switched)
  }

  /** A push raises the head exactly when it extends or switches; a failure leaves the chain
      as it is, unless the undo history is used up. */
  lemma StepRaises<S>(f: (S, Block) -> Option<S>, s: S, root: BlockId, main: seq<Block>, p: Push, main': seq<Block>,
                      out: Outcome)
    requires IsBranch(main, root) && Steps(f, s, root, main, p, main', out) && out != Exhausted
    ensures |main| <= |main'| && (Succeeds(out) <==> |main| < |main'|) && (!Succeeds(out) ==> main' == main)
  {
    if out == Done(Switched) {
      var coming: seq<Block>, leaving: seq<Block>, c: BlockId :|
        Forks(p, HeadOf(main, root), coming, leaving, c) && Replaced(main, coming, leaving, main');
      assert coming[0].id.num == c.num + |coming| && leaving[0].id.num == c.num + |leaving|;
    }
  }

  /** The branches to the highest common block are determined. */
  lemma OneFork(p: Push, head: BlockId, a: seq<Block>, b: seq<Block>, c: BlockId,
                a': seq<Block>, b': seq<Block>, c': BlockId)
    requires Forks(p, head, a, b, c) && Forks(p, head, a', b', c')
    ensures a == a' && b == b'
  {
    assert a[0].id.num == c.num + |a| && a'[0].id.num == c'.num + |a'|;
    assert b[0].id.num == c.num + |b| && b'[0].id.num == c'.num + |b'|;
    SameBranch(p.index, a, c, a', c');
    SameBranch(p.index, b, c, b', c');
  }

  lemma SameBranch(index: map<BlockId, Block>, a: seq<Block>, c: BlockId, a': seq<Block>, c': BlockId)
    requires a != [] && IsBranch(a, c) && Held(index, a) && IsBranch(a', c') && Held(index, a')
    requires |a| == |a'| && a[0].id == a'[0].id && c.num == c'.num
    ensures a == a'
  {
    forall k | 0 <= k < |a|
      ensures a[k] == a'[k]
    {
      SameWalk(index, a, c, a', c', k);
    }
  }

  /** A branch that the fork database's head brings, and that applies in place of ours. */
  ghost predicate Applies<S>(f: (S, Block) -> Option<S>, s: S, root: BlockId, main: seq<Block>, p: Push,
                             coming: seq<Block>, leaving: seq<Block>, c: BlockId) {
    Forks(p, HeadOf(main, root), coming, leaving, c) && |leaving| <= |main| && main[..|leaving|] == leaving &&
    ApplyAll(f, s, coming + main[|leaving|..]).Some?
  }

  /** When the fork database's head does not build on ours, it becomes ours if and only if it is
      higher and leads to a common block from which its branch applies. */
  lemma HigherForkWins<S>(f: (S, Block) -> Option<S>, s: S, root: BlockId, main: seq<Block>, p: Push,
                          main': seq<Block>, out: Outcome)
    requires Steps(f, s, root, main, p, main', out) && out != Exhausted
    requires p.newHead.previous != HeadOf(main, root) && p.newHead.id != HeadOf(main, root)
    ensures HeadOf(main', root) == p.newHead.id <==>
      p.newHead.id.num > HeadOf(main, root).num && exists a, b, c :: Applies(f, s, root, main, p, a, b, c)
  {
    var head := HeadOf(main, root);
    hide ApplyAll, MeetBelow;
    if a, b, c :| p.newHead.id.num > head.num && Applies(f, s, root, main, p, a, b, c) {
      if out == Done(Failed) {
        var a', b', c' :|
          Forks(p, head, a', b', c') && |b'| <= |main| && ApplyAll(f, s, a' + main[|b'|..]).None?;
        OneFork(p, head, a, b, c, a', b', c');
      }
    } else if HeadOf(main', root) == p.newHead.id {
      var a, b, c :| Forks(p, head, a, b, c) && Replaced(main, a, b, main');
      assert Applies(f, s, root, main, p, a, b, c);
    }
  }

  /** Over any run the head never goes back, unless the undo history is used up. */
  lemma {:induction false} HeadNeverFalls<S>(f: (S, Block) -> Option<S>, s: S, root: BlockId, mains: seq<seq<Block>>,
                                             pushes: seq<Push>, outs: seq<Outcome>, i: nat, j: nat)
    requires Runs(f, s, root, mains, pushes, outs) && i <= j <= |pushes|
    requires forall k :: i <= k < j ==> outs[k] != Exhausted
    ensures HeadOf(mains[i], root).num <= HeadOf(mains[j], root).num
    ensures HeadOf(mains[i], root).num == HeadOf(mains[j], root).num ==> mains[i] == mains[j]
    decreases j
  {
    if i < j {
      HeadNeverFalls(f, s, root, mains, pushes, outs, i, j - 1);
      assert Steps(f, s, root, mains[j - 1], pushes[j - 1], mains[j], outs[j - 1]);
      StepRaises(f, s, root, mains[j - 1], pushes[j - 1], mains[j], outs[j - 1]);
      HeightOf(mains[j - 1], root);
      HeightOf(mains[j], root);
    }
  }

  lemma HeightOf(main: seq<Block>, root: BlockId)
    requires IsBranch(main, root)
    ensures HeadOf(main, root).num == root.num + |main|
  {
  }

  /** The index holds nothing at or below the root but the root itself. */
  predicate AboveRoot(index: map<BlockId, Block>, root: BlockId) {
    forall id :: id in index ==> id == root || id.num > root.num
  }

  lemma BranchShortens(index: map<BlockId, Block>, branch: seq<Block>, c: BlockId)
    requires |branch| >= 2 && IsBranch(branch, c) && Held(index, branch)
    ensures var n := |branch| - 1;
      IsBranch(branch[..n], branch[n].id) && Held(index, branch[..n]) && branch[n].id.num == c.num + 1 &&
      branch[n].id in index
  {
    var n := |branch| - 1;
    forall i | 0 <= i < n
      ensures branch[i].previous == Parent(branch[..n], branch[n].id, i)
    {
      assert branch[i].previous == Parent(branch, c, i);
    }
  }

  /** Then the undo history is never used up while some block is above the root. */
  lemma NeverExhausted<S>(f: (S, Block) -> Option<S>, s: S, root: BlockId, main: seq<Block>, p: Push,
                          main': seq<Block>, out: Outcome)
    requires IsBranch(main, root) && Steps(f, s, root, main, p, main', out) && AboveRoot(p.index, root) && main != []
    ensures out != Exhausted
  {
    if out == Exhausted {
      var head := HeadOf(main, root);
      var coming: seq<Block>, leaving: seq<Block>, c: BlockId :| Forks(p, head, coming, leaving, c) && c.num < root.num;
      HeightOf(main, root);
      assert coming[0].id.num == c.num + |coming| && leaving[0].id.num == c.num + |leaving|;
      BranchShortens(p.index, coming, c);
      BranchShortens(p.index, leaving, c);
      var a, b := coming[..|coming| - 1], leaving[..|leaving| - 1];
      assert Connects(p.index, p.newHead.id, head, a, b, root);
      assert false;
    }
  }

  /** A fork from below the root: the chain is block 3 on root 2, and the index has a longer
      branch through another block 2. All blocks are undone, and the push fails. */
  lemma ForkBelowRoot<S>(f: (S, Block) -> Option<S>, s: S, root: BlockId, main: seq<Block>, coming: seq<Block>, p: Push)
    requires root == BlockId(2, 0) && main == [Block(BlockId(3, 0), root, "")]
    requires coming == [Block(BlockId(4, 1), BlockId(3, 1), ""), Block(BlockId(3, 1), BlockId(2, 1), ""),
                        Block(BlockId(2, 1), BlockId(1, 0), "")]
    requires p.block == p.newHead == coming[0]
    requires p.index == map[BlockId(2, 0) := Block(root, BlockId(1, 0), ""), BlockId(3, 0) := main[0],
                            BlockId(4, 1) := coming[0], BlockId(3, 1) := coming[1], BlockId(2, 1) := coming[2]]
    ensures IsIndex(p.index) && IsBranch(main, root) && Steps(f, s, root, main, p, [], Exhausted)
  {
    var leaving := [main[0], p.index[root]];
    assert IsBranch(coming, BlockId(1, 0)) && IsBranch(leaving, BlockId(1, 0));
    forall a: seq<Block>, b: seq<Block>, c: BlockId | Connects(p.index, p.newHead.id, main[0].id, a, b, c)
      ensures c.num < 2
    {
      assert a[0].id.num == c.num + |a| && b[0].id.num == c.num + |b|;
      assert a[0].previous == Parent(a, c, 0) && b[0].previous == Parent(b, c, 0);
    }
    assert Forks(p, main[0].id, coming, leaving, BlockId(1, 0));
  }
}
