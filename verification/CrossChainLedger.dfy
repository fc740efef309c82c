/** What the cross-chain operations do to every balance, supply and collected fee, one by one
    and over whole runs. */
module CrossChainLedger {
  import opened Sums
  import opened Balances
  import opened Commons
  import opened CrossChain
  import opened CrossChainRuns
  import AmountText
  import AmountValue

  // ----- One operation -----

  /** What an operation adds to the balance of `o` in asset `a`. */
  function Credit(assets: Assets, op: Op, o: Address, a: Asset): int {
    match op
    case Deposit(_, owner, asset, amount) => if (o, a) == (owner, asset) then amount else 0
    case Withdraw(_, owner, asset, _, text) => if (o, a) == (owner, asset) then -AmountIn(assets, asset, text) else 0
    case _ => 0
  }

  /** What it adds to the supply. */
  function Issue(db: Db, op: Op, a: Asset): int {
    match op
    case Deposit(_, _, asset, amount) => if a == asset then amount else 0
    case Withdraw(_, _, asset, _, text) => if a == asset then -AmountIn(db.assets, asset, text) else 0
    case CreateWithoutSign(_, _, _, asset, _, fee) => if a == asset then fee else 0
    case ColdHotResult(_, asset) => if a == asset then -Get(db.feePool, asset) else 0
    case _ => 0
  }

  /** The fee that a record keeps back in asset `a`. */
  function FeeOf(R: Records, w: TxId, a: Asset): int {
    if w in R && R[w].kind.WithoutSign? && R[w].kind.feeAsset == a then R[w].kind.fee else 0
  }

  /** What it adds to the fees collected. */
  function Collection(db: Db, op: Op, a: Asset): int {
    match op
    case ConfirmResult(_, c) =>
      if c in db.records && db.records[c].relate.Some? then FeeOf(db.records, db.records[c].relate.value, a) else 0
    case ColdHotResult(_, asset) => if a == asset then -Get(db.feePool, asset) else 0
    case _ => 0
  }

  /** A deposit raises the balance of its owner and the supply by its amount, a withdrawal
      lowers both by what its text reads, a without-sign operation raises the supply by its fee,
      a result collects the fee of its record, a cold-hot result takes the fee pool off supply
      and collected fees; nothing else moves any of them. */
  lemma Moves(db: Db, op: Op, o: Address, a: Asset)
    requires Accepted(db, op) && Defined(op)
    ensures var after := Effect(db, op);
      BalanceOf(after.balances, o, a) == BalanceOf(db.balances, o, a) + Credit(db.assets, op, o, a) &&
      Get(after.supply, a) == Get(db.supply, a) + Issue(db, op, a) &&
      Get(after.collected, a) == Get(db.collected, a) + Collection(db, op, a) &&
      after.feePool == db.feePool && after.assets == db.assets
  {
    hide Withdrawable, AmountIn, OpenFor, RecordsAfterCombine, RecordsAfterResult, Moved;
  }

  /** Which foreign transactions an operation marks, and how. */
  function Marked(op: Op): Option<(ForeignId, Acquired)> {
    match op
    case Deposit(f, _, _, _) => Some((f, AcquiredCreated))
    case ConfirmResult(f, _) => Some((f, AcquiredConfirmed))
    case ColdHotResult(f, _) => Some((f, AcquiredConfirmed))
    case Observe(f) => Some((f, AcquiredUncreated))
    case MarkFailed(f) => Some((f, AcquiredFailure))
    case _ => None
  }

  lemma Marks(db: Db, op: Op, f: ForeignId)
    requires Accepted(db, op) && Defined(op)
    ensures var marked, after := Marked(op), Effect(db, op).acquired;
      if marked.Some? && marked.value.0 == f then f in after && after[f] == marked.value.1
      else (f in after <==> f in db.acquired) && (f in after ==> after[f] == db.acquired[f])
  {
    hide Withdrawable, AmountIn, OpenFor, RecordsAfterCombine, RecordsAfterResult, Moved, Adjusted, CanAdjust;
  }

  // ----- What the evaluators must accept -----

  /** No balance is negative. */
  ghost predicate Solid(b: Table) {
    forall o: Address, a: Asset :: BalanceOf(b, o, a) >= 0
  }

  predicate Fresh(acquired: map<ForeignId, Acquired>, f: ForeignId) {
    f !in acquired || acquired[f] == AcquiredUncreated
  }

  /** A deposit is accepted exactly when its foreign transaction is new or only observed, the
      asset is known and the owner is real and ends with no debt. */
  lemma DepositAccepted(db: Db, f: ForeignId, owner: Address, asset: Asset, amount: int)
    requires Solid(db.balances)
    ensures Accepted(db, Deposit(f, owner, asset, amount)) <==>
      Fresh(db.acquired, f) && asset in db.supply &&
      (amount == 0 || (owner != NO_ADDRESS && BalanceOf(db.balances, owner, asset) + amount >= 0))
  {
    AdjustableIff(db.balances, owner, asset, amount);
  }

  /** A withdrawal is accepted exactly when it is new, the asset is known, its text reads with
      no more decimals than the asset has, and the owner's balance covers it. */
  lemma WithdrawalAccepted(db: Db, id: TxId, owner: Address, asset: Asset, symbol: Asset, text: string)
    requires Solid(db.balances)
    ensures Accepted(db, Withdraw(id, owner, asset, symbol, text)) <==>
      id !in db.records && asset in db.supply && asset in db.assets &&
      AmountText.Read(db.assets[asset], text).Ok? &&
      (forall i :: 0 <= i < |text| && text[i] == '.' ==> |text| - i - 1 <= db.assets[asset].precision) &&
      var amount := AmountText.Read(db.assets[asset], text).value;
      (amount == 0 || (owner != NO_ADDRESS && BalanceOf(db.balances, owner, asset) >= amount))
  {
    AdjustableIff(db.balances, owner, asset, -AmountIn(db.assets, asset, text));
    if asset in db.assets && AmountText.Read(db.assets[asset], text).Ok? {
      OnePoint(db.assets[asset], text);
    }
    hide AmountText.Read, CanAdjust;
  }

  lemma OnePoint(asset: AmountText.AssetRef, text: string)
    requires AmountText.Read(asset, text).Ok?
    ensures forall i :: 0 <= i < |text| && text[i] == '.' ==> i == AmountText.PointAt(text)
  {
    hide AmountText.PointAt, AmountText.Count;
    var n := AmountText.PointAt(text);
    if n < |text| {
      AmountValue.OnlyOne(text, '.', n);
      var back := text[n + 1..];
      assert forall k :: n < k < |text| ==> text[k] == back[k - n - 1];
    }
  }

  // ----- Runs -----

  /** What the deposits of a run bring to `o` in asset `a`. */
  function DepositsTo(ops: seq<Op>, o: Address, a: Asset): int {
    if ops == [] then 0
    else
      (if ops[0].Deposit? && (ops[0].owner, ops[0].asset) == (o, a) then ops[0].amount else 0) +
      DepositsTo(ops[1..], o, a)
  }

  /** What the withdrawals of `o` take in asset `a`, as their texts read. */
  function WithdrawalsOf(assets: Assets, ops: seq<Op>, o: Address, a: Asset): int {
    if ops == [] then 0
    else
      (if ops[0].Withdraw? && (ops[0].owner, ops[0].asset) == (o, a) then AmountIn(assets, a, ops[0].text) else 0) +
      WithdrawalsOf(assets, ops[1..], o, a)
  }

  /** Over every run a balance is what it was, with the deposits to it and without the
      withdrawals from it. */
  lemma {:induction false} RunBalances(db: Db, ops: seq<Op>, o: Address, a: Asset)
    requires Runs(db, ops)
    ensures BalanceOf(Final(db, ops).balances, o, a) ==
            BalanceOf(db.balances, o, a) + DepositsTo(ops, o, a) - WithdrawalsOf(db.assets, ops, o, a)
    ensures Final(db, ops).assets == db.assets && Final(db, ops).feePool == db.feePool
    decreases |ops|
  {
    hide Accepted, FromBuilder, Effect, AmountIn;
    if ops != [] {
      RunIsDefined(db, ops);
      Moves(db, ops[0], o, a);
      RunBalances(Apply(db, ops[0]), ops[1..], o, a);
    }
  }

  lemma RunIsDefined(db: Db, ops: seq<Op>)
    requires Runs(db, ops) && ops != []
    ensures Defined(ops[0])
  {
    hide OpenFor, Withdrawable, AmountIn;
  }

  /** No run leaves a debt: an operation that would is refused. */
  lemma {:induction false} NoDebts(db: Db, ops: seq<Op>)
    requires Runs(db, ops) && Solid(db.balances)
    ensures Solid(Final(db, ops).balances)
    decreases |ops|
  {
    hide Effect, Accepted, FromBuilder;
    if ops != [] {
      RunIsDefined(db, ops);
      StaysSolid(db, ops[0]);
      NoDebts(Apply(db, ops[0]), ops[1..]);
    }
  }

  lemma StaysSolid(db: Db, op: Op)
    requires Accepted(db, op) && Defined(op) && Solid(db.balances)
    ensures Solid(Effect(db, op).balances)
  {
    forall o: Address, a: Asset
      ensures BalanceOf(Effect(db, op).balances, o, a) >= 0
    {
      Moves(db, op, o, a);
      AcceptedCredit(db, op, o, a);
    }
  }

  lemma AcceptedCredit(db: Db, op: Op, o: Address, a: Asset)
    requires Accepted(db, op) && Solid(db.balances)
    ensures BalanceOf(db.balances, o, a) + Credit(db.assets, op, o, a) >= 0
  {
    hide Withdrawable, AmountIn, OpenFor;
    assert BalanceOf(db.balances, o, a) >= 0;
  }

  /** What a run adds to the supply of `a`: deposits, less withdrawals, and fees kept back. */
  function Issued(assets: Assets, ops: seq<Op>, a: Asset): int {
    if ops == [] then 0
    else
      (match ops[0]
       case Deposit(_, _, asset, amount) => if asset == a then amount else 0
       case Withdraw(_, _, asset, _, text) => if asset == a then -AmountIn(assets, a, text) else 0
       case CreateWithoutSign(_, _, _, asset, _, fee) => if asset == a then fee else 0
       case _ => 0) +
      Issued(assets, ops[1..], a)
  }

  /** How often a run settles the fee pool of `a`. */
  function Settlements(ops: seq<Op>, a: Asset): nat {
    if ops == [] then 0 else (if ops[0].ColdHotResult? && ops[0].asset == a then 1 else 0) + Settlements(ops[1..], a)
  }

  lemma {:induction false} RunSupply(db: Db, ops: seq<Op>, a: Asset)
    requires Runs(db, ops)
    ensures Get(Final(db, ops).supply, a) ==
            Get(db.supply, a) + Issued(db.assets, ops, a) - Settlements(ops, a) * Get(db.feePool, a)
    decreases |ops|
  {
    hide Accepted, FromBuilder, Effect, AmountIn;
    if ops != [] {
      RunIsDefined(db, ops);
      Moves(db, ops[0], 0, a);
      RunSupply(Apply(db, ops[0]), ops[1..], a);
      OneSettlement(Settlements(ops[1..], a), Get(db.feePool, a));
    }
  }

  lemma OneSettlement(n: nat, pool: int)
    ensures (1 + n) * pool == pool + n * pool
  {
  }

  // ----- Fees collected -----

  /** The fee of a confirmed record in asset `a`. */
  function EarnedFee(R: Records, a: Asset, w: TxId): int {
    if w in R && R[w].state == Confirmed then FeeOf(R, w, a) else 0
  }

  ghost function Earned(R: Records, a: Asset): int {
    Sum(R.Keys, w => EarnedFee(R, a, w))
  }

  lemma EarnedChanged(R: Records, R': Records, a: Asset, id: TxId)
    requires R'.Keys == R.Keys + {id}
    requires forall k :: k in R && k != id ==> EarnedFee(R', a, k) == EarnedFee(R, a, k)
    ensures Earned(R', a) == Earned(R, a) - EarnedFee(R, a, id) + EarnedFee(R', a, id)
  {
    SumChange(R.Keys, R'.Keys, k => EarnedFee(R, a, k), k => EarnedFee(R', a, k), id);
  }

  lemma ResultEarns(db: Db, f: ForeignId, c: TxId, a: Asset)
    requires Inv(db) && Enabled(db, ConfirmResult(f, c))
    ensures var R, w := db.records, db.records[c].relate.value;
      Earned(RecordsAfterResult(R, w), a) == Earned(R, a) + FeeOf(R, w, a)
  {
    hide RecordsInv, Earned, RecordsAfterResult;
    var R, w := db.records, db.records[c].relate.value;
    ResultFindsCombined(db, f, c);
    ResultHasEffect(R, w);
    UsersAreWithdrawals(R, w);
    var R' := RecordsAfterResult(R, w);
    assert R'.Keys == R.Keys + {w};
    forall k | k in R && k != w
      ensures EarnedFee(R', a, k) == EarnedFee(R, a, k)
    {
      if IsWithoutSign(R, k) {
        NotRelatedTo(R, k, w);
      }
    }
    EarnedChanged(R, R', a, w);
  }

  lemma CombineEarns(db: Db, id: TxId, signs: seq<TxId>, f: ForeignId, a: Asset)
    requires Inv(db) && Enabled(db, CombineSigns(id, signs, f))
    ensures Earned(RecordsAfterCombine(db.records, id, db.records[signs[0]].relate.value, f), a) ==
            Earned(db.records, a)
  {
    hide RecordsInv, Earned, RecordsAfterCombine;
    var R, w := db.records, db.records[signs[0]].relate.value;
    SignNamesWithoutSign(db, id, signs, f);
    CombineHasEffect(R, id, w, f);
    UsersAreWithdrawals(R, w);
    EarnedChanged(R, RecordsAfterCombine(R, id, w, f), a, id);
  }

  lemma CreateEarns(R: Records, id: TxId, origins: seq<TxId>, r: Record, a: Asset)
    requires RecordsInv(R) && id !in R && r.state == Created
    requires forall o :: o in origins ==> o in R && R[o].state == Uncreated
    ensures Earned(Moved(R, Members(origins), Created)[id := r], a) == Earned(R, a)
  {
    hide RecordsInv, Earned;
    OpenAreWithdrawals(R, origins);
    EarnedChanged(R, Moved(R, Members(origins), Created)[id := r], a, id);
  }

  /** An operation adds the fees of the records it confirms to those collected. */
  lemma ApplyEarns(db: Db, op: Op, a: Asset)
    requires Inv(db) && Enabled(db, op)
    ensures Earned(Apply(db, op).records, a) == Earned(db.records, a) +
            Collection(db, op, a) - if op.ColdHotResult? && op.asset == a then -Get(db.feePool, a) else 0
  {
    hide RecordsInv, Earned, RecordsAfterCombine, RecordsAfterResult, AmountIn, Withdrawable, OpenFor, CanAdjust,
      Adjusted, Moved;
    var R := db.records;
    match op
    case Withdraw(id, _, _, _, _) =>
      EarnedChanged(R, Apply(db, op).records, a, id);
    case CreateWithoutSign(id, origins, _, _, _, _) =>
      CreateEarns(R, id, origins, Apply(db, op).records[id], a);
    case AddSign(id, _, _) =>
      EarnedChanged(R, Apply(db, op).records, a, id);
    case CombineSigns(id, signs, f) =>
      CombineEarns(db, id, signs, f, a);
    case ConfirmResult(f, c) =>
      ResultEarns(db, f, c, a);
    case Deposit(_, _, _, _) =>
    case ColdHotResult(_, _) =>
    case Observe(_) =>
    case MarkFailed(_) =>
  }

  /** Over every run the fees collected are those of the records confirmed, less the pools
      settled. */
  lemma {:induction false} RunCollects(db: Db, ops: seq<Op>, a: Asset)
    requires Inv(db) && Runs(db, ops)
    ensures Get(Final(db, ops).collected, a) - Get(db.collected, a) ==
            Earned(Final(db, ops).records, a) - Earned(db.records, a) - Settlements(ops, a) * Get(db.feePool, a)
    decreases |ops|
  {
    hide Inv, Earned, Accepted, FromBuilder, Effect;
    if ops != [] {
      RunIsDefined(db, ops);
      Moves(db, ops[0], 0, a);
      ApplyEarns(db, ops[0], a);
      ApplyKeeps(db, ops[0]);
      RunCollects(Apply(db, ops[0]), ops[1..], a);
      OneSettlement(Settlements(ops[1..], a), Get(db.feePool, a));
    }
  }

  // ----- A withdrawal carried through -----

  /** No record relates to an id that is not in the table. */
  lemma NothingRelates(R: Records, w: TxId)
    requires RecordsInv(R) && w !in R
    ensures forall k :: k in R ==> !Relates(R[k], w)
  {
    forall k | k in R
      ensures !Relates(R[k], w)
    {
      assert LinkOk(R, k);
      if R[k].kind.WithoutSign? {
        assert Owns(R, k, R[k].kind.origins[0]);
        assert SharedState(R);
      }
    }
  }

  lemma CreateEnabled(db: Db, u: TxId, create: Op)
    requires Inv(db) && u in db.records && db.records[u].state == Uncreated && create.CreateWithoutSign?
    requires create.origins == [u] && create.id !in db.records
    requires create.symbol in db.supply && create.asset in db.supply
    ensures Enabled(db, create)
    ensures var one, w := Apply(db, create), create.id;
      Inv(one) && one.acquired == db.acquired && one.records.Keys == db.records.Keys + {w} &&
      Owns(one.records, w, u) && one.records[w].kind.origins == [u] && one.records[u].state == Created &&
      forall k :: k in one.records ==> !Relates(one.records[k], w)
  {
    hide RecordsInv;
    ApplyKeeps(db, create);
    CreatedLooks(db, u, create);
    hide Inv, Apply;
  }

  lemma CreatedLooks(db: Db, u: TxId, create: Op)
    requires Inv(db) && u in db.records && create.CreateWithoutSign? && Enabled(db, create) && create.origins == [u]
    ensures var one, w := Apply(db, create), create.id;
      one.acquired == db.acquired && one.records.Keys == db.records.Keys + {w} &&
      Owns(one.records, w, u) && one.records[w].kind.origins == [u] && one.records[u].state == Created &&
      forall k :: k in one.records ==> !Relates(one.records[k], w)
  {
    NothingRelates(db.records, create.id);
    hide RecordsInv, Inv;
  }

  lemma SignEnabled(db: Db, u: TxId, w: TxId, sign: Op)
    requires Inv(db) && Owns(db.records, w, u) && u in db.records && db.records[u].state == Created
    requires db.records[w].kind.origins == [u] && sign.AddSign? && sign.target == w && sign.id !in db.records
    requires forall k :: k in db.records ==> !Relates(db.records[k], w)
    ensures Enabled(db, sign)
    ensures var two := Apply(db, sign);
      Inv(two) && two.acquired == db.acquired && two.records.Keys == db.records.Keys + {sign.id} &&
      IsSign(two.records, sign.id, w) && IsWithoutSign(two.records, w) && two.records[w].kind.origins == [u] &&
      two.records[u].state == Created
  {
    hide RecordsInv;
    ApplyKeeps(db, sign);
  }

  lemma CombineEnabled(db: Db, u: TxId, w: TxId, s: TxId, combine: Op)
    requires Inv(db) && IsSign(db.records, s, w) && IsWithoutSign(db.records, w) && db.records[w].kind.origins == [u]
    requires u in db.records && db.records[u].state == Created
    requires combine.CombineSigns? && combine.signs == [s] && combine.id !in db.records
    ensures Enabled(db, combine)
    ensures var three, c := Apply(db, combine), combine.id;
      Inv(three) && three.acquired == db.acquired && Combines(three.records, c, w) &&
      three.records[c].foreign == combine.foreign && IsWithoutSign(three.records, w) &&
      three.records[w].kind.origins == [u] && u in three.records && three.records[u].foreign == combine.foreign
  {
    hide RecordsInv, RecordsAfterCombine;
    ApplyKeeps(db, combine);
    CombineHasEffect(db.records, combine.id, w, combine.foreign);
  }

  lemma ResultEnabled(db: Db, u: TxId, w: TxId, c: TxId, f: ForeignId)
    requires Inv(db) && Combines(db.records, c, w) && db.records[c].foreign == f && Fresh(db.acquired, f)
    requires IsWithoutSign(db.records, w) && db.records[w].kind.origins == [u] && u in db.records
    ensures Enabled(db, ConfirmResult(f, c))
    ensures var R := Apply(db, ConfirmResult(f, c)).records;
      u in R && R[u].state == Confirmed && R[u].foreign == db.records[u].foreign && Owns(R, w, u)
  {
    hide RecordsInv, RecordsAfterResult;
    ResultHasEffect(db.records, w);
  }

  /** Every open withdrawal can be claimed, signed, combined and confirmed: the four operations
      are accepted one after the other, and the record that claims it pays it. */
  lemma CarriedThrough(db: Db, u: TxId, create: Op, sign: Op, combine: Op)
    requires Inv(db) && u in db.records && db.records[u].kind.Withdrawal? && db.records[u].state == Uncreated
    requires create.CreateWithoutSign? && create.origins == [u] && create.id !in db.records
    requires create.symbol in db.supply && create.asset in db.supply
    requires sign.AddSign? && sign.target == create.id && sign.id !in db.records && sign.id != create.id
    requires combine.CombineSigns? && combine.signs == [sign.id] && combine.id !in db.records
    requires combine.id != create.id && combine.id != sign.id && Fresh(db.acquired, combine.foreign)
    ensures var ops := [create, sign, combine, ConfirmResult(combine.foreign, combine.id)];
      Runs(db, ops) && var R := Final(db, ops).records;
      u in R && R[u].state == Confirmed && R[u].foreign == combine.foreign && Owns(R, create.id, u)
  {
    hide Inv, Enabled, Apply, Owns, Combines, IsSign, IsWithoutSign;
    var result, w := ConfirmResult(combine.foreign, combine.id), create.id;
    var ops := [create, sign, combine, result];
    CreateEnabled(db, u, create);
    var one := Apply(db, create);
    SignEnabled(one, u, w, sign);
    var two := Apply(one, sign);
    CombineEnabled(two, u, w, sign.id, combine);
    var three := Apply(two, combine);
    ResultEnabled(three, u, w, combine.id, combine.foreign);
    var four := Apply(three, result);
    FourRun(db, one, two, three, four, ops);
  }

  lemma FourRun(db: Db, one: Db, two: Db, three: Db, four: Db, ops: seq<Op>)
    requires |ops| == 4 && Enabled(db, ops[0]) && one == Apply(db, ops[0]) && Enabled(one, ops[1])
    requires two == Apply(one, ops[1]) && Enabled(two, ops[2]) && three == Apply(two, ops[2])
    requires Enabled(three, ops[3]) && four == Apply(three, ops[3])
    ensures Runs(db, ops) && Final(db, ops) == four
  {
    hide Enabled, Apply;
    assert ops[1..][1..][1..][1..] == [];
    assert Runs(three, ops[1..][1..][1..]) && Final(three, ops[1..][1..][1..]) == four;
    assert Runs(two, ops[1..][1..]) && Final(two, ops[1..][1..]) == four;
    assert Runs(one, ops[1..]) && Final(one, ops[1..]) == four;
  }
}
