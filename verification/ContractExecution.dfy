/** The evaluator of a contract operation: the ledger maps it updates in place, gas
    fees in 64-bit arithmetic, the refund, and replay of a stored result. */
module ContractExecution {
  import opened Balances
  import opened Commons
  import opened ContractLedger

  // ----- The ledger in place -----

  class Evaluator {
    /** Stored balances; they do not change while the contract runs. */
    const table: Table
    /** Every contract and its owner. */
    const owners: map<Address, Address>

    var withdraw: map<Key, int>
    var balances: map<Key, int>
    var payouts: map<Key, int>
    var deposits: map<Key, int>
    var fees: map<Asset, int>

    function View(): Ledger
      reads this
    {
      Ledger(withdraw, balances, payouts, deposits, fees)
    }

    constructor (table: Table, owners: map<Address, Address>)
      ensures View() == EMPTY && this.table == table && this.owners == owners
    {
      this.table, this.owners := table, owners;
      withdraw, balances, payouts, deposits, fees := map[], map[], map[], map[], map[];
    }

    method DepositToContract(contract: Address, asset: Asset, amount: int) returns (ok: bool)
      modifies this
      ensures ok == (contract in owners)
      ensures View() == if ok then Apply(old(View()), table, Deposit(contract, asset, amount)) else old(View())
      ensures ok ==> NetShifts(old(View()), View(), (contract, asset), amount)
      ensures payouts == old(payouts) && fees == old(fees)
    {
      var toDeposit := amount;
      var index := (contract, asset);
      if contract !in owners {
        return false;
      }
      if index in withdraw {
        if withdraw[index] >= toDeposit {
          withdraw := withdraw[index := withdraw[index] - toDeposit];
          toDeposit := 0;
        } else {
          toDeposit := toDeposit - withdraw[index];
          withdraw := withdraw[index := 0];
        }
      }
      if toDeposit == 0 {
        return true;
      }
      if index !in deposits {
        deposits := deposits[index := 0];
      }
      deposits := deposits[index := deposits[index] + toDeposit];
      return true;
    }

    /** `share` is the fee at the current rate; the owner of the contract pays none. */
    method TransferToAddress(contract: Address, asset: Asset, amount: int, to: Address, share: int) returns (ok: bool)
      requires contract in owners
      modifies this
      ensures ok == (Running(old(View()), table, (contract, asset)) >= amount)
      ensures var fee := if owners[contract] != to then share else 0;
        View() == if ok then Apply(old(View()), table, Transfer(contract, asset, amount, to, fee))
                  else Cached(old(View()), table, (contract, asset))
      ensures var fee := if owners[contract] != to then share else 0;
        ok ==>
          NetShifts(old(View()), View(), (contract, asset), -amount) &&
          Shifts(old(payouts), payouts, (to, asset), amount - fee) &&
          (fee >= 0 ==> Shifts(old(fees), fees, asset, fee))
      ensures !ok ==>
        deposits == old(deposits) && withdraw == old(withdraw) && payouts == old(payouts) && fees == old(fees)
    {
      hide DepositsLeft, Withdrawn, Running, Shifts, NetShifts;
      var feeNeeded := owners[contract] != to;
      ghost var l := View();
      var all := GetContractBalance(contract, asset);
      if all < amount {
        return false;
      }
      ghost var cached := View();
      SameNetting(l, cached, (contract, asset), amount);
      NetWithdrawal((contract, asset), amount);
      var fee := 0;
      if feeNeeded {
        fee := share;
      }
      ghost var netted := View();
      AddPayout((to, asset), amount - fee);
      AddFee(asset, fee);
      SameNet(l, cached, netted, View(), (contract, asset), -amount);
      return true;
    }

    method AddPayout(payee: Key, amount: int)
      modifies `payouts
      ensures payouts == old(payouts)[payee := Get(old(payouts), payee) + amount]
      ensures Shifts(old(payouts), payouts, payee, amount)
    {
      if payee in payouts {
        payouts := payouts[payee := payouts[payee] + amount];
      } else {
        payouts := payouts[payee := amount];
      }
    }

    method AddFee(asset: Asset, fee: int)
      modifies `fees
      ensures fees == if fee > 0 then old(fees)[asset := Get(old(fees), asset) + fee] else old(fees)
      ensures fee >= 0 ==> Shifts(old(fees), fees, asset, fee)
    {
      if fee > 0 {
        if asset in fees {
          fees := fees[asset := fees[asset] + fee];
        } else {
          fees := fees[asset := fee];
        }
      }
    }

    /** A withdrawal first uses up a pending deposit. */
    method NetWithdrawal(index: Key, amount: int)
      modifies `deposits, `withdraw
      ensures deposits == DepositsLeft(old(View()), index, amount)
      ensures withdraw == Withdrawn(old(View()), index, amount)
      ensures NetShifts(old(View()), View(), index, -amount)
    {
      var toWithdraw := amount;
      if index in deposits {
        if deposits[index] >= toWithdraw {
          deposits := deposits[index := deposits[index] - toWithdraw];
          toWithdraw := 0;
        } else {
          toWithdraw := toWithdraw - deposits[index];
          deposits := deposits[index := 0];
        }
      }
      if index in withdraw {
        withdraw := withdraw[index := withdraw[index] + toWithdraw];
      } else {
        withdraw := withdraw[index := toWithdraw];
      }
    }

    method GetContractBalance(contract: Address, asset: Asset) returns (running: int)
      modifies this
      ensures running == Running(old(View()), table, (contract, asset)) == Running(View(), table, (contract, asset))
      ensures View() == Apply(old(View()), table, Query(contract, asset))
    {
      var index := (contract, asset);
      if index !in balances {
        balances := balances[index := BalanceOf(table, contract, asset)];
      }
      running := balances[index];
      if index in deposits {
        running := running + deposits[index];
      }
      if index in withdraw {
        running := running - withdraw[index];
      }
    }
  }

  /** Pending deposits less pending withdrawals move for `k` only, by `delta`. */
  ghost predicate NetShifts(before: Ledger, after: Ledger, k: Key, delta: int) {
    forall j: Key :: Get(after.deposits, j) - Get(after.withdraw, j) ==
                     Get(before.deposits, j) - Get(before.withdraw, j) + (if j == k then delta else 0)
  }

  lemma SameNet(l: Ledger, before: Ledger, after: Ledger, l': Ledger, k: Key, delta: int)
    requires before.deposits == l.deposits && before.withdraw == l.withdraw && NetShifts(before, after, k, delta)
    requires l'.deposits == after.deposits && l'.withdraw == after.withdraw
    ensures NetShifts(l, l', k, delta)
  {
  }

  lemma SameNetting(l: Ledger, l': Ledger, k: Key, amount: int)
    requires l'.deposits == l.deposits && l'.withdraw == l.withdraw
    ensures DepositsLeft(l', k, amount) == DepositsLeft(l, k, amount)
    ensures Withdrawn(l', k, amount) == Withdrawn(l, k, amount)
  {
  }

  // ----- Gas -----

  const TWO_63 := 0x8000_0000_0000_0000
  const TWO_64 := 0x1_0000_0000_0000_0000

  /** Every started 100 gas is one unit. */
  function Units(gas: nat): nat {
    gas / 100 + if gas % 100 == 0 then 0 else 1
  }

  /** A 64-bit word read as a signed number. */
  function AsSigned(x: nat): int {
    if x < TWO_63 then x else x - TWO_64
  }

  /** `count_gas_fee`: the product is taken in 64 bits, then read as a signed amount;
      a negative fee makes the evaluation fail. */
  function GasFee(price: nat, gas: nat): int {
    AsSigned(Units(gas) * price % TWO_64)
  }

  /** The least number of hundreds that cover the gas. */
  lemma UnitsCover(gas: nat, n: nat)
    ensures gas <= 100 * n <==> Units(gas) <= n
  {
  }

  /** The fee is the price of the units, up to a multiple of 2^64, in the range of 64 signed
      bits. */
  lemma FeeWraps(price: nat, gas: nat)
    ensures -TWO_63 <= GasFee(price, gas) < TWO_63 && (Units(gas) * price - GasFee(price, gas)) % TWO_64 == 0
  {
    var product := Units(gas) * price;
    hide Units;
  }

  lemma UnitsMonotone(a: nat, b: nat)
    requires a <= b
    ensures Units(a) <= Units(b)
  {
  }

  lemma MulMonotone(a: nat, b: nat, p: nat)
    requires a <= b
    ensures a * p <= b * p
  {
  }

  lemma SmallFee(price: nat, gas: nat)
    requires Units(gas) * price < TWO_63
    ensures GasFee(price, gas) == Units(gas) * price
  {
  }

  /** A product between 2^63 and 2^64 reads as a negative fee. */
  lemma LargeFee(price: nat, gas: nat)
    requires TWO_63 <= Units(gas) * price < TWO_64
    ensures GasFee(price, gas) < 0
  {
  }

  /** The first number of units whose price reaches 2^63. */
  lemma {:induction false} FirstOver(price: nat, n: nat) returns (u: nat)
    requires price < TWO_63 <= n * price
    ensures 0 < u <= n && TWO_63 <= u * price < TWO_64
  {
    if (n - 1) * price < TWO_63 {
      assert n * price == (n - 1) * price + price;
      u := n;
    } else {
      u := FirstOver(price, n - 1);
    }
  }

  predicate FeeInOrder(price: nat, used: nat, limit: nat) {
    0 <= GasFee(price, used) <= GasFee(price, limit)
  }

  /** What the gas costs before it is cut to 64 bits. */
  function FullFee(price: nat, gas: nat): nat {
    Units(gas) * price
  }

  lemma InOrderBelow(price: nat, used: nat, limit: nat)
    requires used <= limit && FullFee(price, limit) < TWO_63
    ensures FeeInOrder(price, used, limit)
  {
    UnitsMonotone(used, limit);
    MulMonotone(Units(used), Units(limit), price);
    SmallFee(price, limit);
    SmallFee(price, used);
    hide GasFee, Units;
  }

  /** Some use has a negative fee. */
  lemma NegativeAbove(price: nat, limit: nat) returns (used: nat)
    requires 1 <= limit && price < TWO_64 && FullFee(price, limit) >= TWO_63
    ensures 1 <= used <= limit && GasFee(price, used) < 0
  {
    hide GasFee;
    if price >= TWO_63 {
      used := 1;
      assert Units(1) == 1;
      LargeFee(price, 1);
    } else {
      var u := FirstOver(price, Units(limit));
      used := 100 * (u - 1) + 1;
      UnitsOfFirst(u, limit);
      LargeFee(price, used);
    }
  }

  lemma UnitsOfFirst(u: nat, limit: nat)
    requires 0 < u <= Units(limit)
    ensures Units(100 * (u - 1) + 1) == u && 100 * (u - 1) + 1 <= limit
  {
  }

  /** For a gas limit, every amount of gas that may be used has a fee, and one no
      larger than that of the limit, exactly when the price of the limit fits into
      63 bits. */
  lemma RefundsExactly(price: nat, limit: nat)
    requires 1 <= limit && price < TWO_64
    ensures (forall used: nat :: 1 <= used <= limit ==> FeeInOrder(price, used, limit)) <==>
            FullFee(price, limit) < TWO_63
  {
    hide FullFee, GasFee;
    if FullFee(price, limit) < TWO_63 {
      forall used: nat | 1 <= used <= limit
        ensures FeeInOrder(price, used, limit)
      {
        InOrderBelow(price, used, limit);
      }
    } else {
      var used := NegativeAbove(price, limit);
      assert !FeeInOrder(price, used, limit);
    }
  }

  /** Four units at 2^62: the fee of the limit wraps to 0 and the "refund" for one
      unit of use is negative. */
  lemma WrappedRefund()
    ensures GasFee(0x4000_0000_0000_0000, 400) - GasFee(0x4000_0000_0000_0000, 100) < 0
  {
    assert Units(400) == 4 && Units(100) == 1;
  }

  /** The refund is not negative and leaves at least the fee of the gas used. */
  lemma RefundSplits(price: nat, limit: nat, used: nat, paid: int)
    requires 1 <= used <= limit && Units(limit) * price < TWO_63 && GasFee(price, limit) <= paid
    ensures var refund := GasFee(price, limit) - GasFee(price, used);
      0 <= refund <= paid && 0 <= GasFee(price, used) <= paid - refund
  {
    UnitsMonotone(used, limit);
    MulMonotone(Units(used), Units(limit), price);
    SmallFee(price, limit);
    SmallFee(price, used);
  }

  const CORE: Asset := 0

  /** `pay_fee_and_refund` without a guarantee order. */
  method PayFeeAndRefund(table: Table, collected: map<Asset, int>, caller: Address, total: int, unspent: int,
                         fees: map<Asset, int>)
    returns (ok: bool, table': Table, collected': map<Asset, int>)
    ensures ok == CanAdjust(table, caller, CORE, unspent)
    ensures ok ==> table' == Adjusted(table, caller, CORE, unspent)
    ensures ok ==> forall a ::
      Get(collected', a) == Get(collected, a) + (if a == CORE then total - unspent else 0) + Get(fees, a)
  {
    table', collected' := table, collected;
    if unspent != 0 {
      if !CanAdjust(table, caller, CORE, unspent) {
        return false, table, collected;
      }
      table' := Adjusted(table, caller, CORE, unspent);
    }
    collected' := collected'[CORE := Get(collected', CORE) + (total - unspent)];
    var todo := fees.Keys;
    while todo != {}
      invariant todo <= fees.Keys
      invariant forall a :: Get(collected', a) ==
                            Get(collected, a) + (if a == CORE then total - unspent else 0) + Get(fees - todo, a)
      decreases |todo|
    {
      var a :| a in todo;
      collected' := collected'[a := Get(collected', a) + fees[a]];
      todo := todo - {a};
    }
    ok := true;
  }

  // ----- Stored results -----

  datatype InvokeResult = InvokeResult(
    apiResult: string,
    storage: map<string, string>,
    ledger: Ledger,
    events: seq<string>,
    succeeded: bool,
    actualFee: int,
    invoker: Address,
    registered: Option<Address>)

  const FRESH := InvokeResult("", map[], EMPTY, [], true, 0, NO_ADDRESS, None)

  type TrxId = nat
  datatype Stored = Stored(result: InvokeResult, gas: nat, trx: TrxId, op: nat)
  type Store = map<(TrxId, nat), Stored>

  /** What an evaluation hands on: the result with its digest, the gas and the refund. */
  datatype Outcome = Outcome(result: InvokeResult, gas: nat, unspent: int)

  /** Nothing in the result shows that it was ever filled in. */
  predicate MaybeInvalid(r: InvokeResult) {
    r.storage == map[] && r.ledger.withdraw == map[] && r.ledger.balances == map[] && r.ledger.payouts == map[] &&
    r.ledger.deposits == map[] && r.ledger.fees == map[] && r.events == []
  }

  /** Copies the entries of `src` whose keys `dst` lacks, one after the other. */
  method InsertAll<K, V>(src: map<K, V>, dst: map<K, V>) returns (r: map<K, V>)
    ensures r == src + dst
  {
    r := dst;
    var todo := src.Keys;
    while todo != {}
      invariant todo <= src.Keys
      invariant r.Keys == dst.Keys + (src.Keys - todo)
      invariant forall k :: k in r ==> r[k] == if k in dst then dst[k] else src[k]
      decreases |todo|
    {
      var k :| k in todo;
      if k !in r {
        r := r[k := src[k]];
      }
      todo := todo - {k};
    }
  }

  function Merged(src: InvokeResult, dst: InvokeResult): InvokeResult {
    src.(storage := src.storage + dst.storage,
         ledger := Ledger(src.ledger.withdraw + dst.ledger.withdraw, src.ledger.balances + dst.ledger.balances,
                          src.ledger.payouts + dst.ledger.payouts, src.ledger.deposits + dst.ledger.deposits,
                          src.ledger.fees + dst.ledger.fees))
  }

  /** `transfer_from_obj`, and the copying half of `store_invoke_result`. */
  method CopyResult(src: InvokeResult, dst: InvokeResult) returns (r: InvokeResult)
    ensures r == Merged(src, dst)
  {
    var storage := InsertAll(src.storage, dst.storage);
    var withdraw := InsertAll(src.ledger.withdraw, dst.ledger.withdraw);
    var balances := InsertAll(src.ledger.balances, dst.ledger.balances);
    var deposits := InsertAll(src.ledger.deposits, dst.ledger.deposits);
    var payouts := InsertAll(src.ledger.payouts, dst.ledger.payouts);
    var fees := InsertAll(src.ledger.fees, dst.ledger.fees);
    r := InvokeResult(src.apiResult, storage, Ledger(withdraw, balances, payouts, deposits, fees), src.events,
                      src.succeeded, src.actualFee, src.invoker, src.registered);
  }

  lemma MergedWithFresh(src: InvokeResult)
    ensures Merged(src, FRESH) == src
  {
    assert src.storage + map[] == src.storage;
    assert src.ledger.withdraw + map[] == src.ledger.withdraw;
    assert src.ledger.balances + map[] == src.ledger.balances;
    assert src.ledger.payouts + map[] == src.ledger.payouts;
    assert src.ledger.deposits + map[] == src.ledger.deposits;
    assert src.ledger.fees + map[] == src.ledger.fees;
  }

  /** What running the contract fills in. A native contract builds the whole result, the
      invoker included. */
  datatype Execution = Execution(apiResult: string, storage: map<string, string>, ledger: Ledger, events: seq<string>,
                                 succeeded: bool, registered: Option<Address>, gas: nat, unspent: int,
                                 native: Option<Address>)

  /** An operation that invokes a contract, and what running it would give. */
  datatype Invocation = Invocation(trx: TrxId, op: nat, caller: Address, total: int, run: Execution)

  function SlotOf(i: Invocation): (TrxId, nat) {
    (i.trx, i.op)
  }

  function Filled(i: Invocation, invoker: Address): InvokeResult {
    InvokeResult(i.run.apiResult, i.run.storage, i.run.ledger, i.run.events, i.run.succeeded, i.total - i.run.unspent,
                 if i.run.native.Some? then i.run.native.value else invoker, i.run.registered)
  }

  /** Every part of the result that a run could have filled in is empty. */
  predicate HoldsNothing(r: InvokeResult) {
    |r.storage| == 0 && |r.ledger.withdraw| == 0 && |r.ledger.balances| == 0 && |r.ledger.payouts| == 0 &&
    |r.ledger.deposits| == 0 && |r.ledger.fees| == 0 && |r.events| == 0
  }

  /** The outcome hands on what running the contract gave: all it changed, the fee paid less
      what is left, and the gas. */
  predicate IsRunOf(out: Outcome, i: Invocation) {
    out.result.apiResult == i.run.apiResult && out.result.storage == i.run.storage &&
    out.result.ledger == i.run.ledger && out.result.events == i.run.events &&
    out.result.succeeded == i.run.succeeded && out.result.registered == i.run.registered &&
    out.result.actualFee + out.unspent == i.total && out.unspent == i.run.unspent && out.gas == i.run.gas
  }

  lemma NothingMeans(r: InvokeResult)
    ensures MaybeInvalid(r) <==> HoldsNothing(r)
  {
  }

  lemma FilledIsRun(i: Invocation, invoker: Address)
    ensures IsRunOf(Outcome(Filled(i, invoker), i.run.gas, i.run.unspent), i)
  {
  }

  predicate Replays(entries: Store, key: (TrxId, nat)) {
    key in entries && !MaybeInvalid(entries[key].result)
  }

  /** The outcome of an evaluation. Discarding an empty stored result also discards the
      invoker noted before. */
  function Evaluated(entries: Store, i: Invocation): Outcome {
    if Replays(entries, SlotOf(i)) then
      var stored := entries[SlotOf(i)];
      Outcome(stored.result, stored.gas, i.total - stored.result.actualFee)
    else Outcome(Filled(i, if SlotOf(i) in entries then NO_ADDRESS else i.caller), i.run.gas, i.run.unspent)
  }

  class ResultStore {
    var entries: Store
    var gasInBlock: nat

    /** `store_invoke_result`. */
    method Put(trx: TrxId, op: nat, result: InvokeResult, gas: nat)
      modifies this
      ensures entries == old(entries)[(trx, op) := Stored(result, gas, trx, op)]
      ensures gasInBlock == (old(gasInBlock) + gas) % TWO_64
    {
      gasInBlock := (gasInBlock + gas) % TWO_64;
      var copy := CopyResult(result, FRESH);
      MergedWithFresh(result);
      entries := entries[(trx, op) := Stored(copy, gas, trx, op)];
    }

    /** The evaluation of an invocation; running the contract counts only when no usable
        result is stored. */
    method Evaluate(i: Invocation) returns (out: Outcome, ifStore: bool)
      modifies `entries
      ensures out == Evaluated(old(entries), i)
      ensures ifStore == !Replays(old(entries), SlotOf(i))
      ensures entries == if ifStore then old(entries) - {SlotOf(i)} else old(entries)
      ensures ifStore <==> (i.trx, i.op) in old(entries) ==> HoldsNothing(old(entries)[(i.trx, i.op)].result)
      ensures !ifStore ==> var stored := old(entries)[(i.trx, i.op)];
        out.result == stored.result && out.gas == stored.gas && out.unspent == i.total - stored.result.actualFee
      ensures ifStore ==> IsRunOf(out, i)
      ensures ifStore ==>
        out.result.invoker == (if i.run.native.Some? then i.run.native.value
                               else if (i.trx, i.op) in old(entries) then NO_ADDRESS else i.caller)
    {
      hide MaybeInvalid, HoldsNothing, IsRunOf;
      var result := FRESH.(invoker := i.caller);
      if SlotOf(i) in entries {
        var stored := entries[SlotOf(i)];
        NothingMeans(stored.result);
        result := CopyResult(stored.result, result);
        MergedWithFresh(stored.result);
        if !MaybeInvalid(result) {
          return Outcome(result, stored.gas, i.total - stored.result.actualFee), false;
        }
        entries := entries - {SlotOf(i)};
        result := FRESH;
      }
      assert SlotOf(i) !in entries ==> entries - {SlotOf(i)} == entries;
      FilledIsRun(i, result.invoker);
      out := Outcome(Filled(i, result.invoker), i.run.gas, i.run.unspent);
      ifStore := true;
    }

    /** Evaluates an invocation and, when it is also applied, stores a new result. */
    method Visit(i: Invocation, applied: bool) returns (out: Outcome)
      modifies this
      ensures out == Evaluated(old(entries), i)
      ensures entries == Visited(old(entries), i, applied)
      ensures forall k :: k != (i.trx, i.op) ==>
        (k in entries <==> k in old(entries)) && (k in entries ==> entries[k] == old(entries)[k])
      ensures applied ==>
        (i.trx, i.op) in entries &&
        entries[(i.trx, i.op)].result == out.result && entries[(i.trx, i.op)].gas == out.gas
      ensures !applied && (i.trx, i.op) in entries ==>
        (i.trx, i.op) in old(entries) && entries[(i.trx, i.op)] == old(entries)[(i.trx, i.op)]
      ensures gasInBlock == if applied && !Replays(old(entries), SlotOf(i)) then (old(gasInBlock) + out.gas) % TWO_64
                            else old(gasInBlock)
    {
      var ifStore;
      out, ifStore := Evaluate(i);
      if applied && ifStore {
        Put(i.trx, i.op, out.result, out.gas);
      }
      assert ifStore && applied ==> old(entries) - {SlotOf(i)} + map[SlotOf(i) := entries[SlotOf(i)]] ==
                                    old(entries)[SlotOf(i) := entries[SlotOf(i)]];
    }

    /** Any sequence of evaluations, applied or not. */
    method VisitAll(visits: seq<(Invocation, bool)>) returns (outs: seq<Outcome>)
      modifies this
      ensures |outs| == |visits| && entries == StoreAt(old(entries), visits, |visits|)
      ensures forall k :: 0 <= k < |visits| ==> outs[k] == OutcomeAt(old(entries), visits, k)
    {
      outs := [];
      ghost var start := entries;
      for k := 0 to |visits|
        invariant |outs| == k && entries == StoreAt(start, visits, k)
        invariant forall j :: 0 <= j < k ==> outs[j] == OutcomeAt(start, visits, j)
      {
        var out := Visit(visits[k].0, visits[k].1);
        outs := outs + [out];
      }
    }
  }

  function Visited(entries: Store, i: Invocation, applied: bool): Store {
    if Replays(entries, SlotOf(i)) then entries
    else if applied then
      var out := Evaluated(entries, i);
      entries[SlotOf(i) := Stored(out.result, out.gas, i.trx, i.op)]
    else entries - {SlotOf(i)}
  }

  /** The store before visit `k`. */
  function StoreAt(entries: Store, visits: seq<(Invocation, bool)>, k: nat): Store
    requires k <= |visits|
  {
    if k == 0 then entries else Visited(StoreAt(entries, visits, k - 1), visits[k - 1].0, visits[k - 1].1)
  }

  function OutcomeAt(entries: Store, visits: seq<(Invocation, bool)>, k: nat): Outcome
    requires k < |visits|
  {
    Evaluated(StoreAt(entries, visits, k), visits[k].0)
  }

  /** Over any sequence of visits, a usable result stays in the store. */
  lemma {:induction false} UsableStays(entries: Store, visits: seq<(Invocation, bool)>, i: nat, j: nat,
                                       key: (TrxId, nat))
    requires i <= j <= |visits| && Replays(StoreAt(entries, visits, i), key)
    ensures Replays(StoreAt(entries, visits, j), key)
    ensures StoreAt(entries, visits, j)[key] == StoreAt(entries, visits, i)[key]
    decreases j
  {
    if i < j {
      UsableStays(entries, visits, i, j - 1, key);
    }
  }

  /** Whatever running the contract again would give, every visit after an applied one that
      left something in its result has that visit's result, gas and, for the same fee
      paid, refund. */
  lemma ReplayAgrees(entries: Store, visits: seq<(Invocation, bool)>, i: nat, j: nat)
    requires i < j < |visits| && SlotOf(visits[i].0) == SlotOf(visits[j].0)
    requires visits[i].1 || Replays(StoreAt(entries, visits, i), SlotOf(visits[i].0))
    requires !MaybeInvalid(OutcomeAt(entries, visits, i).result)
    ensures var first, again := OutcomeAt(entries, visits, i), OutcomeAt(entries, visits, j);
      again.result == first.result && again.gas == first.gas &&
      again.unspent - first.unspent == visits[j].0.total - visits[i].0.total
    ensures var key, first := SlotOf(visits[i].0), OutcomeAt(entries, visits, i);
      var later := StoreAt(entries, visits, j + 1);
      key in later && later[key].result == first.result && later[key].gas == first.gas
  {
    var key := SlotOf(visits[i].0);
    assert StoreAt(entries, visits, i + 1) == Visited(StoreAt(entries, visits, i), visits[i].0, visits[i].1);
    assert Replays(StoreAt(entries, visits, i + 1), key);
    UsableStays(entries, visits, i + 1, j, key);
    UsableStays(entries, visits, i + 1, j + 1, key);
  }

  predicate NotVisited(visits: seq<(Invocation, bool)>, i: nat, j: nat, key: (TrxId, nat)) {
    forall k :: i <= k < j && k < |visits| ==> SlotOf(visits[k].0) != key
  }

  /** Visits of other operations leave an entry alone. */
  lemma {:induction false} OthersKeep(entries: Store, visits: seq<(Invocation, bool)>, i: nat, j: nat,
                                      key: (TrxId, nat))
    requires i <= j <= |visits| && NotVisited(visits, i, j, key)
    ensures key in StoreAt(entries, visits, i) <==> key in StoreAt(entries, visits, j)
    ensures key in StoreAt(entries, visits, i) ==> StoreAt(entries, visits, j)[key] == StoreAt(entries, visits, i)[key]
    decreases j
  {
    if i < j {
      OthersKeep(entries, visits, i, j - 1, key);
    }
  }

  /** An operation visited again with the same outcome of running it: the second outcome is
      the first exactly when the result holds something, or the contract is native,
      or there is no caller to lose. Otherwise the invoker is lost. */
  lemma SecondVisit(entries: Store, visits: seq<(Invocation, bool)>, i: nat, j: nat)
    requires i < j < |visits| && visits[i].0 == visits[j].0 && visits[i].1
    requires SlotOf(visits[i].0) !in StoreAt(entries, visits, i) && NotVisited(visits, i + 1, j, SlotOf(visits[i].0))
    ensures var v, first, again := visits[i].0, OutcomeAt(entries, visits, i), OutcomeAt(entries, visits, j);
      (again == first <==> !MaybeInvalid(first.result) || v.run.native.Some? || v.caller == NO_ADDRESS) &&
      again.(result := again.result.(invoker := first.result.invoker)) == first
  {
    var v := visits[i].0;
    OthersKeep(entries, visits, i + 1, j, SlotOf(v));
    assert StoreAt(entries, visits, i + 1) == Visited(StoreAt(entries, visits, i), v, true);
  }

  /** An invocation by address 7 that changes nothing, visited twice: the second time it has
      no invoker. */
  lemma InvokerLost(v: Invocation, visits: seq<(Invocation, bool)>)
    requires v == Invocation(1, 0, 7, 10, Execution("", map[], EMPTY, [], true, None, 5, 0, None))
    requires visits == [(v, true), (v, true)]
    ensures OutcomeAt(map[], visits, 0).result.invoker == 7
    ensures OutcomeAt(map[], visits, 1).result.invoker == NO_ADDRESS
  {
    assert StoreAt(map[], visits, 1) == Visited(map[], v, true);
    SecondVisit(map[], visits, 0, 1);
  }
}
