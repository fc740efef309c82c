/** What a contract run moves, added up over its calls: whom it pays, what it charges, and
    where every address ends. */
module ContractAccounts {
  import opened Balances
  import opened Commons
  import opened ContractLedger

  // ----- Sums over the calls -----

  /** What the transfers bring to an address in an asset. */
  function PaidTo(calls: seq<Call>, k: Key): int {
    if calls == [] then 0
    else
      (if calls[0].Transfer? && (calls[0].to, calls[0].asset) == k then calls[0].amount - calls[0].fee else 0) +
      PaidTo(calls[1..], k)
  }

  /** What the transfers of an asset are charged. */
  function Charged(calls: seq<Call>, a: Asset): int {
    if calls == [] then 0
    else (if calls[0].Transfer? && calls[0].asset == a then calls[0].fee else 0) + Charged(calls[1..], a)
  }

  /** What is deposited to a contract in an asset. */
  function Entered(calls: seq<Call>, k: Key): int {
    if calls == [] then 0
    else
      (if calls[0].Deposit? && (calls[0].contract, calls[0].asset) == k then calls[0].amount else 0) +
      Entered(calls[1..], k)
  }

  /** What a contract transfers away in an asset. */
  function Spent(calls: seq<Call>, k: Key): int {
    if calls == [] then 0
    else
      (if calls[0].Transfer? && (calls[0].contract, calls[0].asset) == k then calls[0].amount else 0) +
      Spent(calls[1..], k)
  }

  // ----- One call -----

  lemma CallPays(l: Ledger, table: Table, call: Call, k: Key)
    requires Sensible(call)
    ensures Get(Apply(l, table, call).payouts, k) ==
      Get(l.payouts, k) + if call.Transfer? && (call.to, call.asset) == k then call.amount - call.fee else 0
    ensures Get(Apply(l, table, call).fees, k.1) ==
      Get(l.fees, k.1) + if call.Transfer? && call.asset == k.1 then call.fee else 0
  {
    hide DepositsLeft, Withdrawn;
  }

  lemma CallMoves(l: Ledger, table: Table, call: Call, k: Key)
    requires Netted(l, table) && Enabled(l, table, call)
    ensures var l' := Apply(l, table, call);
      Get(l'.deposits, k) - Get(l'.withdraw, k) == Get(l.deposits, k) - Get(l.withdraw, k) +
        (if call.Deposit? && (call.contract, call.asset) == k then call.amount else 0) -
        (if call.Transfer? && (call.contract, call.asset) == k then call.amount else 0)
  {
    assert NettedAt(l, table, k) && NettedAt(l, table, KeyOf(call));
    hide Netted;
    match call
    case Deposit(_, _, _) =>
    case Transfer(_, _, amount, _, _) =>
      NettingAt(l, KeyOf(call), amount, k);
      hide DepositsLeft, Withdrawn;
    case Query(_, _) =>
  }

  lemma CallNets(l: Ledger, table: Table, call: Call)
    requires Netted(l, table) && Enabled(l, table, call)
    ensures Netted(Apply(l, table, call), table)
  {
    hide Netted, Deposited, Transferred, Running, Cached;
    match call {
      case Deposit(_, _, amount) => DepositNets(l, table, KeyOf(call), amount);
      case Transfer(_, _, amount, to, fee) => TransferNets(l, table, KeyOf(call), amount, to, fee);
      case Query(_, _) => CachingNets(l, table, KeyOf(call));
    }
  }

  // ----- Runs -----

  /** Payouts go to the addresses the transfers name, each less its fee, and fees add up to
      those of the transfers. */
  lemma {:induction false} RunPays(l: Ledger, table: Table, calls: seq<Call>, k: Key)
    requires Runs(l, table, calls)
    ensures Get(Final(l, table, calls).payouts, k) == Get(l.payouts, k) + PaidTo(calls, k)
    ensures Get(Final(l, table, calls).fees, k.1) == Get(l.fees, k.1) + Charged(calls, k.1)
    decreases |calls|
  {
    hide Apply, Running;
    if calls != [] {
      CallPays(l, table, calls[0], k);
      RunPays(Apply(l, table, calls[0]), table, calls[1..], k);
    }
  }

  lemma {:induction false} RunMoves(l: Ledger, table: Table, calls: seq<Call>, k: Key)
    requires Netted(l, table) && Runs(l, table, calls)
    ensures var l' := Final(l, table, calls);
      Get(l'.deposits, k) - Get(l'.withdraw, k) ==
      Get(l.deposits, k) - Get(l.withdraw, k) + Entered(calls, k) - Spent(calls, k)
    decreases |calls|
  {
    hide Apply, Netted, Enabled;
    if calls != [] {
      CallMoves(l, table, calls[0], k);
      CallNets(l, table, calls[0]);
      RunMoves(Apply(l, table, calls[0]), table, calls[1..], k);
    }
  }

  /** The pending entries of a run, in closed form: what entered a contract beyond what it
      spent is a deposit, what it spent beyond what entered a withdrawal; and it sees its
      stored balance with both. */
  lemma RunEntries(table: Table, calls: seq<Call>, k: Key)
    requires Runs(EMPTY, table, calls)
    ensures var l, net := Final(EMPTY, table, calls), Entered(calls, k) - Spent(calls, k);
      Get(l.deposits, k) == (if net > 0 then net else 0) && Get(l.withdraw, k) == (if net < 0 then -net else 0) &&
      Get(l.payouts, k) == PaidTo(calls, k) && Get(l.fees, k.1) == Charged(calls, k.1) &&
      Running(l, table, k) == BalanceOf(table, k.0, k.1) + net
  {
    hide Runs, Final, Netted;
    EmptyNetted(table);
    RunNets(EMPTY, table, calls);
    RunMoves(EMPTY, table, calls, k);
    RunPays(EMPTY, table, calls, k);
    NettedMeans(Final(EMPTY, table, calls), table, k);
  }

  lemma NettedMeans(l: Ledger, table: Table, k: Key)
    requires Netted(l, table)
    ensures NettedAt(l, table, k)
  {
  }

  /** After any run a transfer is refused exactly when the contract's stored balance, with what
      entered and without what it spent, does not cover it. */
  lemma TransferCovered(table: Table, calls: seq<Call>, call: Call)
    requires Runs(EMPTY, table, calls) && call.Transfer? && Sensible(call)
    ensures var k := (call.contract, call.asset);
      Enabled(Final(EMPTY, table, calls), table, call) <==>
      BalanceOf(table, call.contract, call.asset) + Entered(calls, k) - Spent(calls, k) >= call.amount
  {
    hide Runs, Final, Running;
    RunEntries(table, calls, (call.contract, call.asset));
  }

  /** Once a run is committed, every address ends at its old balance, with what was deposited
      and transferred to it and without what it transferred away. */
  lemma CommittedBalance(table: Table, committed: Table, calls: seq<Call>, k: Key)
    requires Runs(EMPTY, table, calls) && Settled(table, committed, Final(EMPTY, table, calls))
    ensures BalanceOf(committed, k.0, k.1) ==
            BalanceOf(table, k.0, k.1) + Entered(calls, k) + PaidTo(calls, k) - Spent(calls, k)
  {
    hide Runs, Final, Running, Total;
    RunEntries(table, calls, k);
  }

  /** The null address gets nothing: a commit fails exactly when the run would leave it with an
      entry. */
  lemma CommitFails(table: Table, calls: seq<Call>)
    requires Runs(EMPTY, table, calls)
    ensures AddressesOk(Final(EMPTY, table, calls)) <==> forall a: Asset ::
      PaidTo(calls, (NO_ADDRESS, a)) == 0 && Entered(calls, (NO_ADDRESS, a)) == Spent(calls, (NO_ADDRESS, a))
  {
    hide Runs, Final, Running;
    var l := Final(EMPTY, table, calls);
    forall a: Asset
      ensures Get(l.payouts, (NO_ADDRESS, a)) == PaidTo(calls, (NO_ADDRESS, a))
      ensures Get(l.deposits, (NO_ADDRESS, a)) == 0 && Get(l.withdraw, (NO_ADDRESS, a)) == 0 <==>
        Entered(calls, (NO_ADDRESS, a)) == Spent(calls, (NO_ADDRESS, a))
    {
      RunEntries(table, calls, (NO_ADDRESS, a));
    }
  }
}
