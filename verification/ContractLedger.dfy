/** The ledger of a contract run: pending deposits and withdrawals laid over the
    stored balances, netted call by call and committed at the end. */
module ContractLedger {
  import opened Sums
  import opened Balances
  import opened Commons

  type Key = (Address, Asset)

  /** The maps of `contract_invoke_result`; `balances` caches stored balances. */
  datatype Ledger = Ledger(
    withdraw: map<Key, int>,
    balances: map<Key, int>,
    payouts: map<Key, int>,
    deposits: map<Key, int>,
    fees: map<Asset, int>)

  const EMPTY := Ledger(map[], map[], map[], map[], map[])

  // ----- The calls on values -----

  datatype Call =
    | Deposit(contract: Address, asset: Asset, amount: int)
    | Transfer(contract: Address, asset: Asset, amount: int, to: Address, fee: int)
    | Query(contract: Address, asset: Asset)

  function KeyOf(call: Call): Key {
    (call.contract, call.asset)
  }

  /** The balance a contract sees: stored, plus pending deposits, minus pending withdrawals. */
  function Running(l: Ledger, table: Table, k: Key): int {
    (if k in l.balances then l.balances[k] else BalanceOf(table, k.0, k.1)) + Get(l.deposits, k) - Get(l.withdraw, k)
  }

  function Deposited(l: Ledger, k: Key, amount: int): Ledger {
    var w := Get(l.withdraw, k);
    var rest := if k !in l.withdraw then amount else if w >= amount then 0 else amount - w;
    var withdraw := if k !in l.withdraw then l.withdraw else l.withdraw[k := if w >= amount then w - amount else 0];
    l.(withdraw := withdraw,
       deposits := if rest == 0 then l.deposits else l.deposits[k := Get(l.deposits, k) + rest])
  }

  /** Reading a balance caches the stored one. */
  function Cached(l: Ledger, table: Table, k: Key): Ledger {
    l.(balances := if k in l.balances then l.balances else l.balances[k := BalanceOf(table, k.0, k.1)])
  }

  /** A withdrawal first uses up a pending deposit; the rest is pending itself. */
  function DepositsLeft(l: Ledger, k: Key, amount: int): map<Key, int> {
    if k !in l.deposits then l.deposits
    else l.deposits[k := if l.deposits[k] >= amount then l.deposits[k] - amount else 0]
  }

  function Withdrawn(l: Ledger, k: Key, amount: int): map<Key, int> {
    var d := Get(l.deposits, k);
    var rest := if k !in l.deposits then amount else if d >= amount then 0 else amount - d;
    l.withdraw[k := Get(l.withdraw, k) + rest]
  }

  function Transferred(l: Ledger, table: Table, k: Key, amount: int, to: Address, fee: int): Ledger {
    Cached(l, table, k).(
      deposits := DepositsLeft(l, k, amount),
      withdraw := Withdrawn(l, k, amount),
      payouts := l.payouts[(to, k.1) := Get(l.payouts, (to, k.1)) + (amount - fee)],
      fees := if fee > 0 then l.fees[k.1 := Get(l.fees, k.1) + fee] else l.fees)
  }

  /** A transfer fee is a share of the amount. */
  predicate Sensible(call: Call) {
    match call
    case Deposit(_, _, amount) => amount >= 0
    case Transfer(_, _, amount, _, fee) => 0 <= fee <= amount
    case Query(_, _) => true
  }

  predicate Enabled(l: Ledger, table: Table, call: Call) {
    Sensible(call) && (call.Transfer? ==> Running(l, table, KeyOf(call)) >= call.amount)
  }

  function Apply(l: Ledger, table: Table, call: Call): Ledger {
    match call
    case Deposit(_, _, amount) => Deposited(l, KeyOf(call), amount)
    case Transfer(_, _, amount, to, fee) => Transferred(l, table, KeyOf(call), amount, to, fee)
    case Query(_, _) => Cached(l, table, KeyOf(call))
  }

  // ----- Runs -----

  ghost predicate Runs(l: Ledger, table: Table, calls: seq<Call>)
    decreases |calls|
  {
    calls == [] || (Enabled(l, table, calls[0]) && Runs(Apply(l, table, calls[0]), table, calls[1..]))
  }

  ghost function Final(l: Ledger, table: Table, calls: seq<Call>): Ledger
    decreases |calls|
  {
    if calls == [] then l else Final(Apply(l, table, calls[0]), table, calls[1..])
  }

  /** What enters contracts of `a` from outside. */
  function External(calls: seq<Call>, a: Asset): int {
    if calls == [] then 0
    else External(calls[1..], a) + if calls[0].Deposit? && calls[0].asset == a then calls[0].amount else 0
  }

  // ----- Netting -----

  ghost predicate NonNegative(m: map<Key, int>) {
    forall k :: k in m ==> m[k] >= 0
  }

  /** Pending entries of `k` are not negative, not both a deposit and a withdrawal,
      and the running balance covers a pending withdrawal. */
  predicate NettedAt(l: Ledger, table: Table, k: Key) {
    Get(l.withdraw, k) >= 0 && Get(l.deposits, k) >= 0 && Get(l.payouts, k) >= 0 && Get(l.fees, k.1) >= 0 &&
    (Get(l.withdraw, k) == 0 || Get(l.deposits, k) == 0) &&
    (k in l.balances ==> l.balances[k] == BalanceOf(table, k.0, k.1)) &&
    (Get(l.withdraw, k) > 0 ==> Running(l, table, k) >= 0)
  }

  ghost predicate Netted(l: Ledger, table: Table) {
    forall k :: NettedAt(l, table, k)
  }

  lemma EmptyNetted(table: Table)
    ensures Netted(EMPTY, table)
  {
  }

  lemma DepositNets(l: Ledger, table: Table, k: Key, amount: int)
    requires Netted(l, table) && amount >= 0
    ensures Netted(Deposited(l, k, amount), table)
    ensures Running(Deposited(l, k, amount), table, k) == Running(l, table, k) + amount
  {
    var l' := Deposited(l, k, amount);
    assert NettedAt(l, table, k);
    forall j
      ensures NettedAt(l', table, j)
    {
      assert NettedAt(l, table, j);
    }
  }

  lemma TransferNets(l: Ledger, table: Table, k: Key, amount: int, to: Address, fee: int)
    requires Netted(l, table) && 0 <= fee <= amount <= Running(l, table, k)
    ensures Netted(Transferred(l, table, k, amount, to, fee), table)
    ensures Running(Transferred(l, table, k, amount, to, fee), table, k) == Running(l, table, k) - amount
  {
    assert NettedAt(l, table, k);
    forall j
      ensures NettedAt(Transferred(l, table, k, amount, to, fee), table, j)
    {
      assert NettedAt(l, table, j);
      TransferNetsAt(l, table, k, amount, to, fee, j);
    }
  }

  lemma TransferNetsAt(l: Ledger, table: Table, k: Key, amount: int, to: Address, fee: int, j: Key)
    requires NettedAt(l, table, k) && NettedAt(l, table, j) && 0 <= fee <= amount <= Running(l, table, k)
    ensures NettedAt(Transferred(l, table, k, amount, to, fee), table, j)
  {
    hide DepositsLeft, Withdrawn;
    NettingAt(l, k, amount, j);
  }

  /** A withdrawal takes from the pending deposit what it can. */
  lemma NettingAt(l: Ledger, k: Key, amount: int, j: Key)
    requires amount >= 0 && Get(l.deposits, k) >= 0
    ensures var d := Get(l.deposits, k);
      Get(DepositsLeft(l, k, amount), j) == if j != k then Get(l.deposits, j) else if d >= amount then d - amount else 0
    ensures var d := Get(l.deposits, k);
      Get(Withdrawn(l, k, amount), j) == Get(l.withdraw, j) + if j == k && d < amount then amount - d else 0
  {
  }

  lemma CachingNets(l: Ledger, table: Table, k: Key)
    requires Netted(l, table)
    ensures Netted(Cached(l, table, k), table)
    ensures Running(Cached(l, table, k), table, k) == Running(l, table, k)
  {
    forall j
      ensures NettedAt(Cached(l, table, k), table, j)
    {
      assert NettedAt(l, table, j);
    }
  }

  lemma {:induction false} RunNets(l: Ledger, table: Table, calls: seq<Call>)
    requires Netted(l, table) && Runs(l, table, calls)
    ensures Netted(Final(l, table, calls), table)
    decreases |calls|
  {
    hide Netted, Deposited, Transferred, Running, Cached;
    if calls != [] {
      var call := calls[0];
      match call {
        case Deposit(_, _, amount) => DepositNets(l, table, KeyOf(call), amount);
        case Transfer(_, _, amount, to, fee) => TransferNets(l, table, KeyOf(call), amount, to, fee);
        case Query(_, _) => CachingNets(l, table, KeyOf(call));
      }
      RunNets(Apply(l, table, call), table, calls[1..]);
    }
  }

  /** The running balance is never negative where stored balances are not. */
  lemma RunningNonNegative(l: Ledger, table: Table, k: Key)
    requires Netted(l, table) && NonNegative(table)
    ensures Running(l, table, k) >= 0
  {
    assert NettedAt(l, table, k);
  }

  // ----- Conservation -----

  lemma TotalUpdate(m: Table, k: Key, v: int, a: Asset)
    ensures Total(m[k := v], a) == Total(m, a) + if k.1 == a then v - Get(m, k) else 0
  {
    var m' := m[k := v];
    SumChange(m.Keys, m'.Keys, k => Share(m, a, k), k => Share(m', a, k), k);
  }

  /** Withdrawals minus everything that is pending, paid out or charged. */
  ghost function Surplus(l: Ledger, a: Asset): int {
    Total(l.withdraw, a) - Total(l.deposits, a) - Total(l.payouts, a) - Get(l.fees, a)
  }

  lemma DepositSurplus(l: Ledger, k: Key, amount: int, a: Asset)
    requires amount >= 0 && Get(l.withdraw, k) >= 0
    ensures Surplus(Deposited(l, k, amount), a) == Surplus(l, a) - if k.1 == a then amount else 0
  {
    hide Total;
    var l' := Deposited(l, k, amount);
    if k in l.withdraw {
      TotalUpdate(l.withdraw, k, l'.withdraw[k], a);
    }
    if l'.deposits != l.deposits {
      TotalUpdate(l.deposits, k, Get(l'.deposits, k), a);
    }
  }

  lemma CachingSurplus(l: Ledger, table: Table, k: Key, a: Asset)
    ensures Surplus(Cached(l, table, k), a) == Surplus(l, a)
  {
  }

  lemma TransferSurplus(l: Ledger, table: Table, k: Key, amount: int, to: Address, fee: int, a: Asset)
    requires 0 <= fee <= amount && Get(l.deposits, k) >= 0
    ensures Surplus(Transferred(l, table, k, amount, to, fee), a) == Surplus(l, a)
  {
    hide Total;
    var l' := Transferred(l, table, k, amount, to, fee);
    TotalUpdate(l.withdraw, k, l'.withdraw[k], a);
    TotalUpdate(l.payouts, (to, k.1), l'.payouts[(to, k.1)], a);
    if k in l.deposits {
      TotalUpdate(l.deposits, k, l'.deposits[k], a);
    }
  }

  /** After any run, withdrawals plus what came from outside equal pending deposits
      plus payouts plus transfer fees. */
  lemma {:induction false} RunConserves(l: Ledger, table: Table, calls: seq<Call>, a: Asset)
    requires Netted(l, table) && Runs(l, table, calls)
    ensures Surplus(Final(l, table, calls), a) == Surplus(l, a) - External(calls, a)
    decreases |calls|
  {
    hide Deposited, Transferred, Running, Surplus, Cached;
    if calls != [] {
      var call := calls[0];
      assert NettedAt(l, table, KeyOf(call));
      match call {
        case Deposit(_, _, amount) =>
          DepositNets(l, table, KeyOf(call), amount);
          DepositSurplus(l, KeyOf(call), amount, a);
        case Transfer(_, _, amount, to, fee) =>
          TransferNets(l, table, KeyOf(call), amount, to, fee);
          TransferSurplus(l, table, KeyOf(call), amount, to, fee, a);
        case Query(_, _) =>
          CachingNets(l, table, KeyOf(call));
          CachingSurplus(l, table, KeyOf(call), a);
      }
      RunConserves(Apply(l, table, call), table, calls[1..], a);
    }
  }

  lemma EmptySurplus(a: Asset)
    ensures Surplus(EMPTY, a) == 0
  {
  }

  // ----- Commit -----

  function Signed(debit: bool, x: int): int {
    if debit then -x else x
  }

  /** `booked` is `table` with the entries of `m` booked into it. */
  ghost predicate Booked(table: Table, booked: Table, m: map<Key, int>, debit: bool) {
    (forall k: Key :: BalanceOf(booked, k.0, k.1) == BalanceOf(table, k.0, k.1) + Signed(debit, Get(m, k))) &&
    (forall k: Key :: k !in m ==> (k in booked <==> k in table)) &&
    (forall a :: Total(booked, a) == Total(table, a) + Signed(debit, Total(m, a)))
  }

  lemma NothingBooked(table: Table, debit: bool)
    ensures Booked(table, table, map[], debit)
  {
  }

  lemma BookedOneMore(table: Table, booked: Table, m: map<Key, int>, debit: bool, k: Key, amount: int)
    requires Booked(table, booked, m, debit) && k !in m
    ensures Booked(table, Adjusted(booked, k.0, k.1, Signed(debit, amount)), m[k := amount], debit)
  {
    hide Total;
    var delta := Signed(debit, amount);
    var booked' := Adjusted(booked, k.0, k.1, delta);
    forall j: Key
      ensures BalanceOf(booked', j.0, j.1) == BalanceOf(table, j.0, j.1) + Signed(debit, Get(m[k := amount], j))
    {
      AdjustedBalance(booked, k.0, k.1, delta, j.0, j.1);
    }
    forall a
      ensures Total(booked', a) == Total(table, a) + Signed(debit, Total(m[k := amount], a))
    {
      AdjustedTotal(booked, k.0, k.1, delta, a);
      TotalUpdate(m, k, amount, a);
    }
  }

  /** Every entry can be booked on its own. */
  ghost predicate Bookable(table: Table, m: map<Key, int>, debit: bool) {
    forall k :: k in m ==> CanAdjust(table, k.0, k.1, Signed(debit, m[k]))
  }

  /** The loop over one of the maps; a zero entry books nothing. */
  method BookAll(table: Table, m: map<Key, int>, debit: bool) returns (ok: bool, booked: Table)
    ensures ok <==> Bookable(table, m, debit)
    ensures ok ==> Booked(table, booked, m, debit)
  {
    hide Total, CanAdjust, Adjusted;
    booked := table;
    var todo := m.Keys;
    ghost var done: map<Key, int> := map[];
    NothingBooked(table, debit);
    while todo != {}
      invariant todo <= m.Keys && done.Keys == m.Keys - todo
      invariant forall k :: k in done ==> done[k] == m[k]
      invariant Bookable(table, done, debit) && Booked(table, booked, done, debit)
      decreases |todo|
    {
      var k :| k in todo;
      SameAdjust(table, booked, k, Signed(debit, m[k]));
      if !CanAdjust(booked, k.0, k.1, Signed(debit, m[k])) {
        return false, table;
      }
      BookedOneMore(table, booked, done, debit, k, m[k]);
      booked := Adjusted(booked, k.0, k.1, Signed(debit, m[k]));
      done := done[k := m[k]];
      todo := todo - {k};
    }
    assert done == m;
    ok := true;
  }

  lemma SameAdjust(t: Table, u: Table, k: Key, delta: int)
    requires k in t <==> k in u
    requires BalanceOf(t, k.0, k.1) == BalanceOf(u, k.0, k.1)
    ensures CanAdjust(t, k.0, k.1, delta) == CanAdjust(u, k.0, k.1, delta)
  {
  }

  ghost predicate NoneForNull(m: map<Key, int>) {
    forall a: Asset :: Get(m, (NO_ADDRESS, a)) == 0
  }

  lemma CreditsBookable(table: Table, m: map<Key, int>)
    requires forall k: Key :: Get(m, k) >= 0
    ensures Bookable(table, m, false) <==> NoneForNull(m)
  {
    if Bookable(table, m, false) {
      forall a: Asset
        ensures Get(m, (NO_ADDRESS, a)) == 0
      {
        assert (NO_ADDRESS, a) in m ==> CanAdjust(table, NO_ADDRESS, a, m[(NO_ADDRESS, a)]);
      }
    }
    if NoneForNull(m) {
      forall k | k in m
        ensures CanAdjust(table, k.0, k.1, m[k])
      {
        assert Get(m, k) >= 0 && Get(m, (NO_ADDRESS, k.1)) == 0;
      }
    }
  }

  /** Pending withdrawals are covered by what is stored. */
  lemma DebitsBookable(table: Table, credited: Table, l: Ledger)
    requires Netted(l, table) && Booked(table, credited, l.deposits, false)
    ensures Bookable(credited, l.withdraw, true) <==> NoneForNull(l.withdraw)
  {
    hide Total;
    if Bookable(credited, l.withdraw, true) {
      forall a: Asset
        ensures Get(l.withdraw, (NO_ADDRESS, a)) == 0
      {
        assert (NO_ADDRESS, a) in l.withdraw ==> CanAdjust(credited, NO_ADDRESS, a, -l.withdraw[(NO_ADDRESS, a)]);
      }
    }
    if NoneForNull(l.withdraw) {
      forall k | k in l.withdraw
        ensures CanAdjust(credited, k.0, k.1, -l.withdraw[k])
      {
        assert NettedAt(l, table, k) && Get(l.withdraw, (NO_ADDRESS, k.1)) == 0;
        assert BalanceOf(credited, k.0, k.1) == BalanceOf(table, k.0, k.1) + Get(l.deposits, k);
      }
    }
  }

  lemma EntriesNonNegative(l: Ledger, table: Table)
    requires Netted(l, table)
    ensures forall k: Key :: Get(l.deposits, k) >= 0 && Get(l.payouts, k) >= 0
  {
    forall k: Key
      ensures Get(l.deposits, k) >= 0 && Get(l.payouts, k) >= 0
    {
      assert NettedAt(l, table, k);
    }
  }

  /** `do_apply_balance`: deposits, then withdrawals, then payouts. With a netted
      ledger it fails for the null address only, never for lack of funds. */
  method Commit(table: Table, l: Ledger) returns (ok: bool, committed: Table)
    ensures Netted(l, table) ==> (ok <==> AddressesOk(l))
    ensures ok ==> Settled(table, committed, l)
  {
    hide Total, Netted, CanAdjust, Bookable, Get;
    if Netted(l, table) { EntriesNonNegative(l, table); CreditsBookable(table, l.deposits); }
    var credited, t1 := BookAll(table, l.deposits, false);
    if !credited {
      return false, table;
    }
    if Netted(l, table) { DebitsBookable(table, t1, l); }
    var debited, t2 := BookAll(t1, l.withdraw, true);
    if !debited {
      return false, table;
    }
    if Netted(l, table) { EntriesNonNegative(l, table); CreditsBookable(t2, l.payouts); }
    var paid, t3 := BookAll(t2, l.payouts, false);
    if !paid {
      return false, table;
    }
    return true, t3;
  }

  /** No nonzero entry belongs to the null address. */
  ghost predicate AddressesOk(l: Ledger) {
    NoneForNull(l.deposits) && NoneForNull(l.withdraw) && NoneForNull(l.payouts)
  }

  /** Every address ends at its old balance plus deposits minus withdrawals plus payouts. */
  ghost predicate Settled(table: Table, committed: Table, l: Ledger) {
    (forall k: Key :: BalanceOf(committed, k.0, k.1)
      == BalanceOf(table, k.0, k.1) + Get(l.deposits, k) - Get(l.withdraw, k) + Get(l.payouts, k)) &&
    (forall a ::
      Total(committed, a) == Total(table, a) + Total(l.deposits, a) - Total(l.withdraw, a) + Total(l.payouts, a))
  }

  /** Committing any run started from nothing moves the total of each asset by what
      came from outside, less the transfer fees. */
  lemma CommitMovesTotal(table: Table, committed: Table, calls: seq<Call>, a: Asset)
    requires Runs(EMPTY, table, calls)
    requires Settled(table, committed, Final(EMPTY, table, calls))
    ensures Total(committed, a) == Total(table, a) + External(calls, a) - Get(Final(EMPTY, table, calls).fees, a)
  {
    EmptyNetted(table);
    RunConserves(EMPTY, table, calls, a);
    EmptySurplus(a);
  }

  /** A contract transfer: the caller's amount enters first, the contract runs, the
      ledger is committed and the caller is charged. All balances together then lose
      exactly the transfer fees. */
  lemma TransferLosesFees(table: Table, committed: Table, first: Call, calls: seq<Call>, caller: Address, a: Asset)
    requires first.Deposit? && (forall c :: c in calls ==> !c.Deposit?)
    requires Runs(EMPTY, table, [first] + calls)
    requires Settled(table, committed, Final(EMPTY, table, [first] + calls))
    ensures Total(Adjusted(committed, caller, first.asset, -first.amount), a)
         == Total(table, a) - Get(Final(EMPTY, table, [first] + calls).fees, a)
  {
    hide Total, Settled, Runs, Final;
    CommitMovesTotal(table, committed, [first] + calls, a);
    AdjustedTotal(committed, caller, first.asset, -first.amount, a);
    assert ([first] + calls)[1..] == calls;
    NoDeposits(calls, a);
  }

  lemma {:induction false} NoDeposits(calls: seq<Call>, a: Asset)
    requires forall c :: c in calls ==> !c.Deposit?
    ensures External(calls, a) == 0
  {
    if calls != [] {
      assert calls[0] in calls;
      NoDeposits(calls[1..], a);
    }
  }

  // ----- Validation -----

  predicate HasEntry(m: map<Key, int>, a: Asset) {
    exists k :: k in m && k.1 == a && m[k] != 0
  }

  /** What `validate` demands of each asset that goes out. */
  ghost predicate ValidFor(l: Ledger, a: Asset) {
    var out := Total(l.deposits, a) + Total(l.payouts, a);
    out != 0 ==> HasEntry(l.withdraw, a) && Total(l.withdraw, a) >= out
  }

  ghost predicate Tallied(m: map<Key, int>, t0: map<Asset, int>, t: map<Asset, int>) {
    forall a :: (a in t <==> a in t0 || HasEntry(m, a)) && Get(t, a) == Get(t0, a) + Total(m, a)
  }

  lemma TalliedOneMore(m: map<Key, int>, t0: map<Asset, int>, t: map<Asset, int>, k: Key, v: int)
    requires Tallied(m, t0, t) && k !in m
    ensures Tallied(m[k := v], t0, if v == 0 then t else t[k.1 := Get(t, k.1) + v])
  {
    hide Total;
    var m' := m[k := v];
    var t' := if v == 0 then t else t[k.1 := Get(t, k.1) + v];
    forall a
      ensures (a in t' <==> a in t0 || HasEntry(m', a)) && Get(t', a) == Get(t0, a) + Total(m', a)
    {
      TotalUpdate(m, k, v, a);
      if HasEntry(m, a) {
        var j :| j in m && j.1 == a && m[j] != 0;
        assert j in m' && m'[j] != 0;
      }
      if HasEntry(m', a) && !HasEntry(m, a) {
        var j :| j in m' && j.1 == a && m'[j] != 0;
        assert j == k;
      }
      if v != 0 && a == k.1 {
        assert k in m' && m'[k] != 0;
      }
    }
  }

  /** One of the summing loops of `validate`. */
  method Tally(m: map<Key, int>, t0: map<Asset, int>) returns (t: map<Asset, int>)
    ensures Tallied(m, t0, t)
  {
    hide Tallied;
    t := t0;
    var todo := m.Keys;
    ghost var done: map<Key, int> := map[];
    NothingTallied(t0);
    while todo != {}
      invariant todo <= m.Keys && done.Keys == m.Keys - todo
      invariant forall k :: k in done ==> done[k] == m[k]
      invariant Tallied(done, t0, t)
      decreases |todo|
    {
      var k :| k in todo;
      TalliedOneMore(done, t0, t, k, m[k]);
      if m[k] != 0 {
        t := t[k.1 := Get(t, k.1) + m[k]];
      }
      done := done[k := m[k]];
      todo := todo - {k};
    }
    assert done == m;
  }

  lemma NothingTallied(t0: map<Asset, int>)
    ensures Tallied(map[], t0, t0)
  {
  }

  /** `contract_invoke_result::validate`. The fees are added up there too, but the
      sum is not used. */
  method Validate(l: Ledger) returns (ok: bool)
    ensures ok <==> forall a :: ValidFor(l, a)
  {
    hide Total, HasEntry;
    var ins := Tally(l.withdraw, map[]);
    var outs := Tally(l.deposits, map[]);
    ghost var deposited := outs;
    outs := Tally(l.payouts, outs);
    assert forall a :: Get(outs, a) == Total(l.deposits, a) + Total(l.payouts, a);
    assert forall a :: a in ins <==> HasEntry(l.withdraw, a);
    var todo := outs.Keys;
    while todo != {}
      invariant todo <= outs.Keys
      invariant forall a :: a in outs && a !in todo ==> ValidFor(l, a)
      decreases |todo|
    {
      var a :| a in todo;
      if outs[a] != 0 && (a !in ins || ins[a] < outs[a]) {
        assert !ValidFor(l, a);
        return false;
      }
      assert ValidFor(l, a);
      todo := todo - {a};
    }
    forall a
      ensures ValidFor(l, a)
    {
      assert a !in outs ==> Get(outs, a) == 0;
    }
    ok := true;
  }

  lemma {:induction false} SumNonNegative<K>(s: set<K>, f: K -> int)
    requires forall k :: k in s ==> f(k) >= 0
    ensures Sum(s, f) >= 0
  {
    if s != {} {
      var k :| k in s;
      SumPick(s, f, k);
      SumNonNegative(s - {k}, f);
    }
  }

  lemma TotalPositive(m: Table, a: Asset)
    requires forall k: Key :: Get(m, k) >= 0
    ensures Total(m, a) >= 0
    ensures Total(m, a) > 0 ==> HasEntry(m, a)
  {
    forall k | k in m.Keys
      ensures Share(m, a, k) >= 0
    {
      assert Get(m, k) >= 0;
    }
    SumNonNegative(m.Keys, k => Share(m, a, k));
    if !HasEntry(m, a) {
      SumZero(m.Keys, k => Share(m, a, k));
    }
  }

  lemma WithdrawNonNegative(l: Ledger, table: Table)
    requires Netted(l, table)
    ensures forall k: Key :: Get(l.withdraw, k) >= 0
    ensures forall a: Asset :: Get(l.fees, a) >= 0
  {
    forall k: Key
      ensures Get(l.withdraw, k) >= 0
    {
      assert NettedAt(l, table, k);
    }
    forall a: Asset
      ensures Get(l.fees, a) >= 0
    {
      assert NettedAt(l, table, (0, a));
    }
  }

  /** `validate` accepts an asset of a ledger built by calls exactly when nothing goes
      out in it or the transfer fees make up for what came from outside. */
  lemma ValidIff(table: Table, calls: seq<Call>, a: Asset)
    requires Runs(EMPTY, table, calls)
    ensures var l := Final(EMPTY, table, calls);
      ValidFor(l, a) <==> Total(l.deposits, a) + Total(l.payouts, a) == 0 || External(calls, a) <= Get(l.fees, a)
  {
    hide Total, Runs;
    EmptyNetted(table);
    RunConserves(EMPTY, table, calls, a);
    RunNets(EMPTY, table, calls);
    EmptySurplus(a);
    var l := Final(EMPTY, table, calls);
    EntriesNonNegative(l, table);
    WithdrawNonNegative(l, table);
    TotalPositive(l.deposits, a);
    TotalPositive(l.payouts, a);
    TotalPositive(l.withdraw, a);
  }

  /** So every ledger that took nothing from outside is accepted. */
  lemma ClosedRunIsValid(table: Table, calls: seq<Call>, a: Asset)
    requires Runs(EMPTY, table, calls) && forall c :: c in calls ==> !c.Deposit?
    ensures ValidFor(Final(EMPTY, table, calls), a)
  {
    hide ValidFor;
    ValidIff(table, calls, a);
    NoDeposits(calls, a);
    EmptyNetted(table);
    RunNets(EMPTY, table, calls);
    WithdrawNonNegative(Final(EMPTY, table, calls), table);
  }
}
