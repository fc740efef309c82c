/** Balances locked to miners, and each miner's total of them. */
module LockBalance {
  import opened Sums
  import opened Balances

  type Miner = nat
  type Account = nat

  datatype LockKey = LockKey(miner: Miner, account: Account, asset: Asset)

  type Locks = map<LockKey, int>

  /** The total each miner keeps for each asset. */
  type Totals = map<Miner, map<Asset, int>>

  // ----- Sums of individual locks -----

  datatype Selector =
    | ByMiner(miner: Miner, asset: Asset)
    | ByAccount(account: Account, asset: Asset)
    | OfAsset(asset: Asset)
  {
    predicate Selects(k: LockKey) {
      match this
      case ByMiner(m, a) => k.miner == m && k.asset == a
      case ByAccount(c, a) => k.account == c && k.asset == a
      case OfAsset(a) => k.asset == a
    }
  }

  function LockShare(locks: Locks, sel: Selector, k: LockKey): int {
    if k in locks && sel.Selects(k) then locks[k] else 0
  }

  ghost function PartSum(part: set<LockKey>, locks: Locks, sel: Selector): int {
    Sum(part, k => LockShare(locks, sel, k))
  }

  /** The sum of the selected locks. */
  ghost function LockSum(locks: Locks, sel: Selector): int {
    PartSum(locks.Keys, locks, sel)
  }

  predicate CanAdjustLock(locks: Locks, key: LockKey, delta: int) {
    delta == 0 || (if key in locks then delta < 0 ==> locks[key] >= -delta else delta > 0)
  }

  function LockOf(locks: Locks, key: LockKey): int {
    if key in locks then locks[key] else 0
  }

  /** A lock that reaches zero is removed. */
  function AdjustedLocks(locks: Locks, key: LockKey, delta: int): Locks {
    if delta == 0 then locks
    else if key in locks && locks[key] + delta == 0 then locks - {key}
    else locks[key := LockOf(locks, key) + delta]
  }

  function TotalOf(totals: Totals, m: Miner, a: Asset): int {
    if m in totals && a in totals[m] then totals[m][a] else 0
  }

  function AdjustedTotals(totals: Totals, m: Miner, a: Asset, delta: int): Totals
    requires m in totals
  {
    if delta == 0 then totals else
      var total: map<Asset, int> := totals[m][a := TotalOf(totals, m, a) + delta];
      totals[m := total]
  }

  /** An adjustment moves exactly the sums that select its lock. */
  lemma AdjustedSum(locks: Locks, key: LockKey, delta: int, sel: Selector)
    ensures LockSum(AdjustedLocks(locks, key, delta), sel) ==
            LockSum(locks, sel) + if sel.Selects(key) then delta else 0
  {
    var after := AdjustedLocks(locks, key, delta);
    var f, g := k => LockShare(locks, sel, k), k => LockShare(after, sel, k);
    if delta == 0 {
    } else if key in after {
      assert after.Keys == locks.Keys + {key};
      SumChange(locks.Keys, after.Keys, f, g, key);
    } else {
      assert after.Keys == locks.Keys - {key};
      SumPick(locks.Keys, f, key);
      SumSame(after.Keys, f, g);
    }
  }

  // ----- What every operation keeps -----

  ghost predicate AgreesAt(locks: Locks, totals: Totals, m: Miner, a: Asset) {
    TotalOf(totals, m, a) == LockSum(locks, ByMiner(m, a))
  }

  /** Each miner's total is the sum of the locks on it. */
  ghost predicate Agree(locks: Locks, totals: Totals) {
    forall m, a :: m in totals ==> AgreesAt(locks, totals, m, a)
  }

  predicate LocksOk(locks: Locks, totals: Totals) {
    forall k :: k in locks ==> locks[k] > 0 && k.miner in totals
  }

  /** The part of the state the locks live in. */
  datatype State = State(locks: Locks, totals: Totals) {
    predicate Ok() { LocksOk(locks, totals) }

    predicate Allows(key: LockKey, delta: int) {
      CanAdjustLock(locks, key, delta) && (delta != 0 ==> key.miner in totals)
    }

    function Adjusted(key: LockKey, delta: int): State
      requires Allows(key, delta)
    {
      if delta == 0 then this
      else State(AdjustedLocks(locks, key, delta), AdjustedTotals(totals, key.miner, key.asset, delta))
    }
  }

  lemma AdjustKeeps(s: State, key: LockKey, delta: int)
    requires s.Ok() && s.Allows(key, delta)
    ensures s.Adjusted(key, delta).Ok()
    ensures s.Adjusted(key, delta).totals.Keys == s.totals.Keys
    ensures forall m, a :: m in s.totals && AgreesAt(s.locks, s.totals, m, a) ==>
      var t := s.Adjusted(key, delta);
      AgreesAt(t.locks, t.totals, m, a)
  {
    var t := s.Adjusted(key, delta);
    forall m, a | m in s.totals && AgreesAt(s.locks, s.totals, m, a)
      ensures AgreesAt(t.locks, t.totals, m, a)
    {
      AdjustedSum(s.locks, key, delta, ByMiner(m, a));
    }
  }

  /** Only the lock of `key` moves, by `delta`; a key without a lock counts as nothing. */
  ghost predicate LocksShift(before: Locks, after: Locks, key: LockKey, delta: int) {
    forall k: LockKey :: LockOf(after, k) == LockOf(before, k) + if k == key then delta else 0
  }

  /** Only the total of one miner in one asset moves, by `delta`. */
  ghost predicate TotalsShift(before: Totals, after: Totals, m: Miner, a: Asset, delta: int) {
    forall n: Miner, b: Asset :: TotalOf(after, n, b) == TotalOf(before, n, b) + if (n, b) == (m, a) then delta else 0
  }

  /** An adjustment is allowed exactly when the miner is known and no negative lock results, a
      new lock included, and then moves one lock and one total by its amount. */
  lemma AdjustShifts(s: State, key: LockKey, delta: int)
    requires s.Ok()
    ensures s.Allows(key, delta) <==> delta == 0 || (key.miner in s.totals && LockOf(s.locks, key) + delta >= 0)
    ensures s.Allows(key, delta) ==>
      LocksShift(s.locks, s.Adjusted(key, delta).locks, key, delta) &&
      TotalsShift(s.totals, s.Adjusted(key, delta).totals, key.miner, key.asset, delta)
  {
  }

  datatype Adjustment = Adjustment(key: LockKey, delta: int)

  predicate Runs(s: State, run: seq<Adjustment>)
    decreases |run|
  {
    run == [] || (s.Allows(run[0].key, run[0].delta) && Runs(s.Adjusted(run[0].key, run[0].delta), run[1..]))
  }

  function Final(s: State, run: seq<Adjustment>): State
    requires Runs(s, run)
    decreases |run|
  {
    if run == [] then s else Final(s.Adjusted(run[0].key, run[0].delta), run[1..])
  }

  function Moved(run: seq<Adjustment>, sel: Selector): int {
    if run == [] then 0 else (if sel.Selects(run[0].key) then run[0].delta else 0) + Moved(run[1..], sel)
  }

  /** Every run keeps the totals equal to the sums, and the sums are what went in. */
  lemma {:induction false} RunAgrees(s: State, run: seq<Adjustment>, sel: Selector)
    requires s.Ok() && Agree(s.locks, s.totals) && Runs(s, run)
    ensures Final(s, run).Ok() && Agree(Final(s, run).locks, Final(s, run).totals)
    ensures LockSum(Final(s, run).locks, sel) == LockSum(s.locks, sel) + Moved(run, sel)
    decreases |run|
  {
    if run != [] {
      AdjustKeeps(s, run[0].key, run[0].delta);
      AdjustedSum(s.locks, run[0].key, run[0].delta, sel);
      RunAgrees(s.Adjusted(run[0].key, run[0].delta), run[1..], sel);
    }
  }

  // ----- The locks of one account -----

  /** The positive locks of an account in one asset. */
  function Chosen(locks: Locks, account: Account, asset: Asset): set<LockKey> {
    set k | k in locks && k.account == account && k.asset == asset && locks[k] > 0
  }

  function Without(locks: Locks, part: set<LockKey>): Locks {
    locks - part
  }

  lemma ChosenSum(locks: Locks, totals: Totals, account: Account, asset: Asset)
    requires LocksOk(locks, totals)
    ensures LockSum(locks, ByAccount(account, asset)) ==
            PartSum(Chosen(locks, account, asset), locks, ByAccount(account, asset))
  {
    var f := k => LockShare(locks, ByAccount(account, asset), k);
    SumSplit(locks.Keys, Chosen(locks, account, asset), f);
    SumZero(locks.Keys - Chosen(locks, account, asset), f);
  }

  /** Without them the account has nothing locked, and the asset that much less. */
  lemma ChosenRemoved(locks: Locks, totals: Totals, account: Account, asset: Asset)
    requires LocksOk(locks, totals)
    ensures var rest := Without(locks, Chosen(locks, account, asset));
      LockSum(rest, ByAccount(account, asset)) == 0 &&
      LockSum(rest, OfAsset(asset)) == LockSum(locks, OfAsset(asset)) - LockSum(locks, ByAccount(account, asset))
  {
    var part := Chosen(locks, account, asset);
    var rest := locks - part;
    assert rest.Keys == locks.Keys - part;
    SumZero(rest.Keys, k => LockShare(rest, ByAccount(account, asset), k));
    ChosenSum(locks, totals, account, asset);
    var f := k => LockShare(locks, OfAsset(asset), k);
    SumSplit(locks.Keys, part, f);
    SumSame(rest.Keys, f, k => LockShare(rest, OfAsset(asset), k));
    SumSame(part, f, k => LockShare(locks, ByAccount(account, asset), k));
  }

  /** The locks of an account in an asset are gone, and all others as before. */
  ghost predicate Released(before: Locks, after: Locks, account: Account, asset: Asset) {
    forall k: LockKey ::
      LockOf(after, k) == if k.account == account && k.asset == asset then 0 else LockOf(before, k)
  }

  /** Giving up the chosen locks releases the account's in that asset and no others. */
  lemma ChosenReleased(locks: Locks, totals: Totals, account: Account, asset: Asset)
    requires LocksOk(locks, totals)
    ensures Released(locks, Without(locks, Chosen(locks, account, asset)), account, asset)
  {
  }

  // ----- The database -----

  /** Only the record of one address and asset changed, by `amount`. */
  ghost predicate RecordLess(before: Table, after: Table, addr: Address, asset: Asset, amount: int) {
    forall o: Address, a: Asset ::
      BalanceOf(after, o, a) == BalanceOf(before, o, a) - if (o, a) == (addr, asset) then amount else 0
  }

  lemma RecordLessAdds(a: Table, b: Table, c: Table, addr: Address, asset: Asset, x: int, y: int)
    ensures RecordLess(a, a, addr, asset, 0)
    ensures RecordLess(a, b, addr, asset, x) && RecordLess(b, c, addr, asset, y) ==>
      RecordLess(a, c, addr, asset, x + y)
  {
  }

  ghost predicate Splits(whole: set<LockKey>, todo: set<LockKey>, done: set<LockKey>) {
    whole == todo + done && todo !! done
  }

  lemma ReleaseStart(found: Locks, account: Account, asset: Asset, records: Table, addr: Address)
    ensures Without(found, {}) == found && PartSum({}, found, ByAccount(account, asset)) == 0
    ensures RecordLess(records, records, addr, asset, 0)
    ensures Splits(Chosen(found, account, asset), Chosen(found, account, asset), {})
    ensures forall done :: Splits(Chosen(found, account, asset), {}, done) ==> done == Chosen(found, account, asset)
  {
  }

  lemma ReleaseStep(found: Locks, account: Account, asset: Asset, todo: set<LockKey>, done: set<LockKey>, k: LockKey)
    requires Splits(Chosen(found, account, asset), todo, done) && k in todo
    ensures k in found && k in Without(found, done) && Without(found, done)[k] == found[k] && k.asset == asset
    ensures Without(Without(found, done), {k}) == Without(found, done + {k})
    ensures Splits(Chosen(found, account, asset), todo - {k}, done + {k}) && todo - {k} < todo
    ensures var sel := ByAccount(account, asset);
      PartSum(done + {k}, found, sel) == PartSum(done, found, sel) + found[k]
  {
    PartGrows(done, found, ByAccount(account, asset), k);
  }

  class Database {
    var locks: Locks
    var totals: Totals
    var balances: Table
    var supply: map<Asset, int>
    var records: Table

    function Now(): State
      reads this
    {
      State(locks, totals)
    }

    /** Fails where the source throws, changing nothing. */
    method AdjustLockBalance(key: LockKey, delta: int) returns (ok: bool)
      requires Now().Ok()
      modifies `locks, `totals
      ensures ok == old(Now().Allows(key, delta))
      ensures Now() == if ok then old(Now()).Adjusted(key, delta) else old(Now())
      ensures Now().Ok() && totals.Keys == old(totals.Keys)
      ensures old(Agree(locks, totals)) ==> Agree(locks, totals)
      ensures ok <==> delta == 0 || (key.miner in old(totals) && LockOf(old(locks), key) + delta >= 0)
      ensures ok ==> LocksShift(old(locks), locks, key, delta)
      ensures ok ==> TotalsShift(old(totals), totals, key.miner, key.asset, delta)
    {
      hide LocksShift, TotalsShift;
      AdjustShifts(Now(), key, delta);
      if delta == 0 {
        return true;
      }
      if key !in locks && delta <= 0 {
        return false;
      }
      if key in locks && delta < 0 && locks[key] < -delta {
        return false;
      }
      if key.miner !in totals {
        return false;
      }
      AdjustKeeps(Now(), key, delta);
      if key !in locks {
        locks := locks[key := delta];
      } else if locks[key] + delta == 0 {
        locks := locks - {key};
      } else {
        locks := locks[key := locks[key] + delta];
      }
      var total: map<Asset, int> := totals[key.miner];
      if key.asset in total {
        total := total[key.asset := total[key.asset] + delta];
      } else {
        total := total[key.asset := delta];
      }
      totals := totals[key.miner := total];
      ok := true;
    }

    /** Adds the locks of an account up. */
    method SumLocks(account: Account, asset: Asset) returns (total: int)
      requires Now().Ok()
      ensures total == LockSum(locks, ByAccount(account, asset)) >= 0
    {
      total := 0;
      var todo := Chosen(locks, account, asset);
      ghost var sel, done: set<LockKey> := ByAccount(account, asset), {};
      while todo != {}
        invariant todo + done == Chosen(locks, account, asset) && todo !! done
        invariant total == PartSum(done, locks, sel) >= 0
        decreases |todo|
      {
        var k :| k in todo;
        PartGrows(done, locks, sel, k);
        total := total + locks[k];
        todo, done := todo - {k}, done + {k};
      }
      assert done == Chosen(locks, account, asset);
      ChosenSum(locks, totals, account, asset);
    }

    /** Pulls one lock back. */
    method ReleaseLock(addr: Address, k: LockKey, amount: int)
      requires Now().Ok() && k in locks && locks[k] == amount
      modifies `locks, `totals, `records
      ensures Now().Ok() && totals.Keys == old(totals.Keys)
      ensures old(Agree(locks, totals)) ==> Agree(locks, totals)
      ensures locks == Without(old(locks), {k})
      ensures RecordLess(old(records), records, addr, k.asset, amount)
    {
      hide Agree;
      var adjusted := AdjustLockBalance(k, -amount);
      records := records[(addr, k.asset) := BalanceOf(records, addr, k.asset) - amount];
    }

    /** Pulls every lock of the account back and takes it off the address's record. */
    method ReleaseLocks(addr: Address, account: Account, asset: Asset)
      requires Now().Ok()
      modifies `locks, `totals, `records
      ensures Now().Ok() && totals.Keys == old(totals.Keys)
      ensures old(Agree(locks, totals)) ==> Agree(locks, totals)
      ensures locks == Without(old(locks), Chosen(old(locks), account, asset))
      ensures RecordLess(old(records), records, addr, asset, LockSum(old(locks), ByAccount(account, asset)))
    {
      hide Agree, PartSum, LockSum, RecordLess, Without, LocksOk, Splits, Chosen;
      var found := locks;
      ChosenSum(found, totals, account, asset);
      var todo := Chosen(found, account, asset);
      ghost var sel, done: set<LockKey> := ByAccount(account, asset), {};
      ReleaseStart(found, account, asset, records, addr);
      while todo != {}
        invariant Now().Ok() && totals.Keys == old(totals.Keys)
        invariant old(Agree(locks, totals)) ==> Agree(locks, totals)
        invariant Splits(Chosen(found, account, asset), todo, done)
        invariant locks == Without(found, done)
        invariant RecordLess(old(records), records, addr, asset, PartSum(done, found, sel))
        decreases |todo|
      {
        var k :| k in todo;
        ghost var before := records;
        ReleaseStep(found, account, asset, todo, done, k);
        ReleaseLock(addr, k, found[k]);
        RecordLessAdds(old(records), before, records, addr, asset, PartSum(done, found, sel), found[k]);
        todo, done := todo - {k}, done + {k};
      }
    }

    /** Supply that is neither in a balance nor locked. */
    ghost function Elsewhere(asset: Asset): int
      requires asset in supply
      reads this
    {
      supply[asset] - Total(balances, asset) - LockSum(locks, OfAsset(asset))
    }

    /** What an address owns in an asset, locks of its account included. */
    ghost function Owned(addr: Address, account: Account, asset: Asset): int
      reads this
    {
      BalanceOf(balances, addr, asset) + LockSum(locks, ByAccount(account, asset))
    }

    /** Sets what an address owns, locks included, to the claimed amount. A negative claim
        fails in the balance adjustment and changes nothing. */
    method SetBalance(addr: Address, account: Account, asset: Asset, claimed: int) returns (ok: bool)
      requires Now().Ok() && addr != NO_ADDRESS && asset in supply && BalanceOf(balances, addr, asset) >= 0
      modifies this
      ensures ok == (claimed >= 0) && (!ok ==> unchanged(this))
      ensures Now().Ok() && (old(Agree(locks, totals)) ==> Agree(locks, totals))
      ensures ok ==> Owned(addr, account, asset) == claimed
      ensures asset in supply && Elsewhere(asset) == old(Elsewhere(asset))
      ensures ok ==> supply == old(supply[asset := supply[asset] + claimed - Owned(addr, account, asset)])
      ensures balances - {(addr, asset)} == old(balances) - {(addr, asset)}
      ensures ok ==> locks == if claimed < old(Owned(addr, account, asset))
                              then Without(old(locks), Chosen(old(locks), account, asset)) else old(locks)
      ensures RecordLess(old(records), records, addr, asset,
                         LockSum(old(locks), ByAccount(account, asset)) - LockSum(locks, ByAccount(account, asset)))
    {
      RecordLessAdds(records, records, records, addr, asset, 0, 0);
      hide Agree, LockSum, Total, Without, Chosen, LocksOk, RecordLess;
      var balance := BalanceOf(balances, addr, asset);
      var locked := SumLocks(account, asset);
      var total := balance + locked;
      if total < claimed {
        AdjustedTotal(balances, addr, asset, claimed - total, asset);
        balances := Adjusted(balances, addr, asset, claimed - total);
      } else if total > claimed {
        if claimed < 0 {
          return false;
        }
        ChosenRemoved(locks, totals, account, asset);
        ReleaseLocks(addr, account, asset);
        AdjustedTwice(balances, addr, asset, claimed);
        balances := Adjusted(balances, addr, asset, -balance);
        balances := Adjusted(balances, addr, asset, claimed);
      } else {
        return true;
      }
      supply := supply[asset := supply[asset] + claimed - total];
      ok := true;
    }

    /** What a citizen's locks add up to, asset by asset. */
    method CitizenLocks(m: Miner) returns (sums: map<Asset, int>)
      ensures forall a :: (if a in sums then sums[a] else 0) == LockSum(locks, ByMiner(m, a))
    {
      sums := map[];
      var todo := locks.Keys;
      ghost var done: set<LockKey> := {};
      while todo != {}
        invariant todo + done == locks.Keys && todo !! done
        invariant forall a :: (if a in sums then sums[a] else 0) == PartSum(done, locks, ByMiner(m, a))
        decreases |todo|
      {
        var k :| k in todo;
        forall a
          ensures PartSum(done + {k}, locks, ByMiner(m, a)) ==
                  LockShare(locks, ByMiner(m, a), k) + PartSum(done, locks, ByMiner(m, a))
        {
          PartGrows(done, locks, ByMiner(m, a), k);
        }
        if k.miner == m {
          if k.asset in sums {
            sums := sums[k.asset := sums[k.asset] + locks[k]];
          } else {
            sums := sums[k.asset := locks[k]];
          }
        }
        todo, done := todo - {k}, done + {k};
      }
      assert done == locks.Keys;
    }

    /** The totals of the named citizens, or of all of them, become the sums of their
        locks, whatever they were before. */
    method CorrectChainData(correctors: seq<Miner>)
      requires forall i :: 0 <= i < |correctors| ==> correctors[i] in totals
      modifies `totals
      ensures totals.Keys == old(totals.Keys)
      ensures forall m, a :: m in totals && (correctors == [] || m in correctors) ==> AgreesAt(locks, totals, m, a)
      ensures forall m :: m in totals && correctors != [] && m !in correctors ==> totals[m] == old(totals[m])
      ensures correctors == [] ==> Agree(locks, totals)
    {
      var citizens := if correctors == [] then totals.Keys else set i | 0 <= i < |correctors| :: correctors[i];
      assert forall m :: m in totals && (correctors == [] || m in correctors) ==> m in citizens;
      var todo := citizens;
      while todo != {}
        invariant todo <= citizens && totals.Keys == old(totals.Keys)
        invariant forall m, a :: m in citizens - todo ==> AgreesAt(locks, totals, m, a)
        invariant forall m :: m in totals && m !in citizens - todo ==> totals[m] == old(totals[m])
        decreases |todo|
      {
        var m :| m in todo;
        var sums := CitizenLocks(m);
        ghost var before := totals;
        if sums != totals[m] {
          totals := totals[m := sums];
        }
        todo := todo - {m};
        forall c, a | c in citizens - todo
          ensures AgreesAt(locks, totals, c, a)
        {
          if c != m {
            assert AgreesAt(locks, before, c, a);
          }
        }
      }
    }
  }

  lemma PartGrows(done: set<LockKey>, locks: Locks, sel: Selector, k: LockKey)
    requires k !in done
    ensures PartSum(done + {k}, locks, sel) == LockShare(locks, sel, k) + PartSum(done, locks, sel)
  {
    SumPick(done + {k}, j => LockShare(locks, sel, j), k);
    assert done + {k} - {k} == done;
  }

  lemma AdjustedTwice(b: Table, addr: Address, asset: Asset, claimed: int)
    ensures var c := Adjusted(Adjusted(b, addr, asset, -BalanceOf(b, addr, asset)), addr, asset, claimed);
      BalanceOf(c, addr, asset) == claimed && c - {(addr, asset)} == b - {(addr, asset)} &&
      Total(c, asset) == Total(b, asset) + claimed - BalanceOf(b, addr, asset)
  {
    AdjustedTotal(b, addr, asset, -BalanceOf(b, addr, asset), asset);
    AdjustedTotal(Adjusted(b, addr, asset, -BalanceOf(b, addr, asset)), addr, asset, claimed, asset);
  }
}
