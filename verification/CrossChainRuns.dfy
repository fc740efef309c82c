/** What holds over whole runs of the cross-chain protocol: records only advance,
    nothing happens twice, and the ledger is conserved. */
module CrossChainRuns {
  import opened Sums
  import opened Balances
  import opened Commons
  import opened CrossChain

  /** The state in which operation `i` of the run is evaluated. */
  ghost function Before(db: Db, ops: seq<Op>, i: nat): Db
    requires Runs(db, ops) && i <= |ops|
    decreases i
  {
    if i == 0 then db else Before(Apply(db, ops[0]), ops[1..], i - 1)
  }

  lemma {:induction false} BeforeIsReached(db: Db, ops: seq<Op>, i: nat)
    requires Inv(db) && Runs(db, ops) && i <= |ops|
    ensures Inv(Before(db, ops, i))
    ensures i < |ops| ==> Enabled(Before(db, ops, i), ops[i])
    ensures i < |ops| ==> Before(db, ops, i + 1) == Apply(Before(db, ops, i), ops[i])
    decreases i
  {
    hide Inv, Enabled, Apply;
    if i == 0 {
      if |ops| > 0 {
        assert Before(Apply(db, ops[0]), ops[1..], 0) == Apply(db, ops[0]);
      }
    } else {
      ApplyKeeps(db, ops[0]);
      BeforeIsReached(Apply(db, ops[0]), ops[1..], i - 1);
    }
  }

  // ----- A foreign transaction is consumed once -----

  function Consumes(op: Op): Option<ForeignId> {
    match op
    case Deposit(f, _, _, _) => Some(f)
    case ConfirmResult(f, _) => Some(f)
    case ColdHotResult(f, _) => Some(f)
    case _ => None
  }

  lemma SpentStays(db: Db, op: Op, f: ForeignId)
    requires Enabled(db, op) && Spent(db.acquired, f)
    ensures Spent(Apply(db, op).acquired, f) && Consumes(op) != Some(f)
  {
  }

  lemma ConsumingSpends(db: Db, op: Op)
    requires Enabled(db, op) && Consumes(op).Some?
    ensures Spent(Apply(db, op).acquired, Consumes(op).value)
  {
  }

  lemma {:induction false} SpentIsNotConsumed(db: Db, ops: seq<Op>, i: nat, f: ForeignId)
    requires Runs(db, ops) && i < |ops| && Spent(db.acquired, f)
    ensures Consumes(ops[i]) != Some(f)
    decreases i
  {
    hide Enabled, Apply, Spent, Consumes;
    SpentStays(db, ops[0], f);
    if i > 0 {
      SpentIsNotConsumed(Apply(db, ops[0]), ops[1..], i - 1, f);
    }
  }

  /** Over any run, deposits, withdrawal results and cold-hot results together
      consume a foreign transaction at most once. */
  lemma {:induction false} ConsumedOnce(db: Db, ops: seq<Op>, i: nat, j: nat)
    requires Runs(db, ops) && i < j < |ops| && Consumes(ops[i]).Some?
    ensures Consumes(ops[j]) != Consumes(ops[i])
    decreases i
  {
    hide Enabled, Apply, Spent, Consumes;
    var next := Apply(db, ops[0]);
    if i == 0 {
      ConsumingSpends(db, ops[0]);
      SpentIsNotConsumed(next, ops[1..], j - 1, Consumes(ops[0]).value);
    } else {
      ConsumedOnce(next, ops[1..], i - 1, j - 1);
    }
  }

  // ----- Records only advance -----

  function Rank(s: TrxState): nat {
    match s
    case Uncreated => 0
    case Created => 1
    case Signed => 1
    case Combined => 2
    case Confirmed => 3
  }

  /** Every record of `R` is still there, with its kind and link, and no earlier state. */
  ghost predicate Advanced(R: Records, R': Records) {
    forall k :: k in R ==>
      k in R' && R'[k].kind == R[k].kind && R'[k].relate == R[k].relate && Rank(R[k].state) <= Rank(R'[k].state)
  }

  lemma ResultAdvances(db: Db, f: ForeignId, c: TxId)
    requires Inv(db) && Enabled(db, ConfirmResult(f, c))
    ensures Advanced(db.records, RecordsAfterResult(db.records, db.records[c].relate.value))
  {
    hide RecordsAfterResult;
    ResultFindsCombined(db, f, c);
    var R, w := db.records, db.records[c].relate.value;
    ResultHasEffect(R, w);
  }

  lemma CombineAdvances(db: Db, id: TxId, signs: seq<TxId>, f: ForeignId)
    requires Inv(db) && Enabled(db, CombineSigns(id, signs, f))
    ensures Advanced(db.records, RecordsAfterCombine(db.records, id, db.records[signs[0]].relate.value, f))
  {
    hide RecordsAfterCombine;
    SignNamesWithoutSign(db, id, signs, f);
    CombineHasEffect(db.records, id, db.records[signs[0]].relate.value, f);
  }

  lemma ApplyAdvances(db: Db, op: Op)
    requires Inv(db) && Enabled(db, op)
    ensures Advanced(db.records, Apply(db, op).records)
  {
    hide Inv, RecordsAfterCombine, RecordsAfterResult, AmountIn, Withdrawable, OpenFor, CanAdjust, Adjusted;
    match op
    case CombineSigns(id, signs, f) => CombineAdvances(db, id, signs, f);
    case ConfirmResult(f, c) => ResultAdvances(db, f, c);
    case CreateWithoutSign(id, origins, _, _, _, _) =>
      CreateAdvances(db.records, id, origins, Apply(db, op).records[id]);
    case _ =>
  }

  lemma CreateAdvances(R: Records, id: TxId, origins: seq<TxId>, r: Record)
    requires id !in R && forall o :: o in origins ==> o in R && R[o].state == Uncreated
    ensures Advanced(R, Moved(R, Members(origins), Created)[id := r])
  {
  }

  /** Over any run no record disappears, changes its kind or link, or goes back. */
  lemma {:induction false} RunAdvances(db: Db, ops: seq<Op>, i: nat, j: nat)
    requires Inv(db) && Runs(db, ops) && i <= j <= |ops|
    ensures Advanced(Before(db, ops, i).records, Before(db, ops, j).records)
    decreases j
  {
    hide Inv, Enabled, Apply;
    if i < j {
      RunAdvances(db, ops, i, j - 1);
      BeforeIsReached(db, ops, j - 1);
      ApplyAdvances(Before(db, ops, j - 1), ops[j - 1]);
    }
  }

  // ----- Nothing happens twice -----

  /** The without-sign record an operation combines. */
  ghost predicate CombinesTarget(db: Db, op: Op, w: TxId) {
    op.CombineSigns? && Enabled(db, op) && db.records[op.signs[0]].relate == Some(w)
  }

  ghost predicate ConfirmsTarget(db: Db, op: Op, w: TxId) {
    op.ConfirmResult? && Enabled(db, op) && db.records[op.combine].relate == Some(w)
  }

  ghost predicate SignsTarget(db: Db, op: Op, w: TxId, guard: Guard) {
    op.AddSign? && Enabled(db, op) && op.target == w && op.guard == guard
  }

  lemma CombiningMoves(db: Db, op: Op, w: TxId)
    requires Inv(db) && CombinesTarget(db, op, w)
    ensures w in db.records && db.records[w].state == Created
    ensures w in Apply(db, op).records && Apply(db, op).records[w].state == Combined
  {
    SignNamesWithoutSign(db, op.id, op.signs, op.foreign);
    CombineHasEffect(db.records, op.id, w, op.foreign);
  }

  lemma ConfirmingMoves(db: Db, op: Op, w: TxId)
    requires Inv(db) && ConfirmsTarget(db, op, w)
    ensures w in db.records && db.records[w].state == Combined
    ensures w in Apply(db, op).records && Apply(db, op).records[w].state == Confirmed
  {
    ResultFindsCombined(db, op.foreign, op.combine);
    ResultHasEffect(db.records, w);
  }

  lemma SigningFindsCreated(db: Db, op: Op, w: TxId, guard: Guard)
    requires Inv(db) && SignsTarget(db, op, w, guard)
    ensures w in db.records && db.records[w].state == Created
  {
    SignFindsCreated(db.records, w, guard);
  }

  /** Once a without-sign record is combined it is never combined or signed again. */
  lemma CombinedOnce(db: Db, ops: seq<Op>, i: nat, j: nat, w: TxId)
    requires Inv(db) && Runs(db, ops) && i < j < |ops|
    requires CombinesTarget(Before(db, ops, i), ops[i], w)
    ensures !CombinesTarget(Before(db, ops, j), ops[j], w)
    ensures forall guard :: !SignsTarget(Before(db, ops, j), ops[j], w, guard)
  {
    hide Inv, Enabled, Apply;
    BeforeIsReached(db, ops, i);
    BeforeIsReached(db, ops, j);
    CombiningMoves(Before(db, ops, i), ops[i], w);
    RunAdvances(db, ops, i + 1, j);
    if CombinesTarget(Before(db, ops, j), ops[j], w) {
      CombiningMoves(Before(db, ops, j), ops[j], w);
    }
    forall guard | SignsTarget(Before(db, ops, j), ops[j], w, guard)
      ensures false
    {
      SigningFindsCreated(Before(db, ops, j), ops[j], w, guard);
    }
  }

  /** A without-sign record is confirmed at most once. */
  lemma ConfirmedOnce(db: Db, ops: seq<Op>, i: nat, j: nat, w: TxId)
    requires Inv(db) && Runs(db, ops) && i < j < |ops|
    requires ConfirmsTarget(Before(db, ops, i), ops[i], w)
    ensures !ConfirmsTarget(Before(db, ops, j), ops[j], w)
  {
    hide Inv, Enabled, Apply;
    BeforeIsReached(db, ops, i);
    BeforeIsReached(db, ops, j);
    ConfirmingMoves(Before(db, ops, i), ops[i], w);
    RunAdvances(db, ops, i + 1, j);
    if ConfirmsTarget(Before(db, ops, j), ops[j], w) {
      ConfirmingMoves(Before(db, ops, j), ops[j], w);
    }
  }

  /** Two different without-sign operations of a run never name the same withdrawal. */
  lemma ClaimedOnce(db: Db, ops: seq<Op>, i: nat, j: nat, u: TxId)
    requires Inv(db) && Runs(db, ops) && i < j < |ops|
    requires ops[i].CreateWithoutSign? && ops[j].CreateWithoutSign? && u in ops[i].origins
    ensures u !in ops[j].origins
  {
    hide Inv, Enabled, Apply;
    BeforeIsReached(db, ops, i);
    BeforeIsReached(db, ops, j);
    RunAdvances(db, ops, i + 1, j);
    ClaimingMoves(Before(db, ops, i), ops[i], u);
    if u in ops[j].origins {
      ClaimingMoves(Before(db, ops, j), ops[j], u);
    }
  }

  lemma ClaimingMoves(db: Db, op: Op, u: TxId)
    requires op.CreateWithoutSign? && Enabled(db, op) && u in op.origins
    ensures u in db.records && db.records[u].state == Uncreated
    ensures u in Apply(db, op).records && Apply(db, op).records[u].state == Created
  {
  }

  /** Record `k` is the guard's signature of `w`. */
  predicate SignedBy(R: Records, k: TxId, w: TxId, guard: Guard) {
    k in R && R[k].kind == Sign(guard) && R[k].relate == Some(w)
  }

  lemma SigningLeaves(db: Db, op: Op, w: TxId, guard: Guard)
    requires SignsTarget(db, op, w, guard)
    ensures op.AddSign? && SignedBy(Apply(db, op).records, op.id, w, guard)
  {
  }

  lemma NoSecondSign(db: Db, op: Op, k: TxId, w: TxId, guard: Guard)
    requires Inv(db) && SignedBy(db.records, k, w, guard)
    ensures !SignsTarget(db, op, w, guard)
  {
    if SignsTarget(db, op, w, guard) {
      SigningFindsCreated(db, op, w, guard);
      OpenSignIsSigned(db.records, k, w, guard);
    }
  }

  lemma OpenSignIsSigned(R: Records, k: TxId, w: TxId, guard: Guard)
    requires RecordsInv(R) && SignedBy(R, k, w, guard) && w in R && R[w].state == Created
    ensures R[k].state == Signed
  {
    assert IsSign(R, k, w);
  }

  /** A guard signs a without-sign record at most once. */
  lemma SignedOnce(db: Db, ops: seq<Op>, i: nat, j: nat, w: TxId, guard: Guard)
    requires Inv(db) && Runs(db, ops) && i < j < |ops|
    requires SignsTarget(Before(db, ops, i), ops[i], w, guard)
    ensures !SignsTarget(Before(db, ops, j), ops[j], w, guard)
  {
    hide Inv, Enabled, Apply, SignsTarget;
    BeforeIsReached(db, ops, i);
    BeforeIsReached(db, ops, j);
    RunAdvances(db, ops, i + 1, j);
    SigningLeaves(Before(db, ops, i), ops[i], w, guard);
    NoSecondSign(Before(db, ops, j), ops[j], ops[i].id, w, guard);
  }

  // ----- Conservation -----

  /** The fee that record `k` keeps back in asset `a` until it is confirmed. */
  function KeptFee(R: Records, a: Asset, k: TxId): int {
    if k in R && R[k].kind.WithoutSign? && R[k].state != Confirmed && R[k].kind.feeAsset == a then R[k].kind.fee else 0
  }

  ghost function Kept(R: Records, a: Asset): int {
    Sum(R.Keys, k => KeptFee(R, a, k))
  }

  /** Supply that no balance, collected fee or kept fee accounts for. */
  ghost function Drift(db: Db, a: Asset): int {
    Get(db.supply, a) - Total(db.balances, a) - Get(db.collected, a) - Kept(db.records, a)
  }

  /** How much an operation moves the drift of `a`: nothing, unless it keeps back a
      fee in another asset than the one whose supply it raises. */
  function DriftChange(op: Op, a: Asset): int {
    if op.CreateWithoutSign? then
      (if a == op.asset then op.fee else 0) - (if a == op.feeAsset then op.fee else 0)
    else 0
  }

  lemma KeptChanged(R: Records, R': Records, a: Asset, id: TxId)
    requires R'.Keys == R.Keys + {id}
    requires forall k :: k in R && k != id ==> KeptFee(R', a, k) == KeptFee(R, a, k)
    ensures Kept(R', a) == Kept(R, a) - KeptFee(R, a, id) + KeptFee(R', a, id)
  {
    SumChange(R.Keys, R'.Keys, k => KeptFee(R, a, k), k => KeptFee(R', a, k), id);
  }

  lemma CreateKept(R: Records, id: TxId, origins: seq<TxId>, r: Record, a: Asset)
    requires RecordsInv(R) && id !in R && r.kind.WithoutSign? && r.state == Created
    requires forall o :: o in origins ==> o in R && R[o].state == Uncreated
    ensures Kept(Moved(R, Members(origins), Created)[id := r], a)
         == Kept(R, a) + if r.kind.feeAsset == a then r.kind.fee else 0
  {
    hide RecordsInv, Kept;
    OpenAreWithdrawals(R, origins);
    KeptChanged(R, Moved(R, Members(origins), Created)[id := r], a, id);
  }

  lemma CombineKept(db: Db, id: TxId, signs: seq<TxId>, f: ForeignId, a: Asset)
    requires Inv(db) && Enabled(db, CombineSigns(id, signs, f))
    ensures Kept(RecordsAfterCombine(db.records, id, db.records[signs[0]].relate.value, f), a) == Kept(db.records, a)
  {
    hide RecordsInv, Kept, RecordsAfterCombine;
    var R, w := db.records, db.records[signs[0]].relate.value;
    SignNamesWithoutSign(db, id, signs, f);
    CombineHasEffect(R, id, w, f);
    UsersAreWithdrawals(R, w);
    KeptChanged(R, RecordsAfterCombine(R, id, w, f), a, id);
  }

  lemma ResultKept(db: Db, f: ForeignId, c: TxId, a: Asset)
    requires Inv(db) && Enabled(db, ConfirmResult(f, c))
    ensures var R, w := db.records, db.records[c].relate.value;
      IsWithoutSign(R, w) &&
      Kept(RecordsAfterResult(R, w), a) == Kept(R, a) - if R[w].kind.feeAsset == a then R[w].kind.fee else 0
  {
    hide RecordsInv, Kept, RecordsAfterResult;
    var R, w := db.records, db.records[c].relate.value;
    ResultFindsCombined(db, f, c);
    ResultHasEffect(R, w);
    UsersAreWithdrawals(R, w);
    var R' := RecordsAfterResult(R, w);
    assert R'.Keys == R.Keys + {w};
    forall k | k in R && k != w
      ensures KeptFee(R', a, k) == KeptFee(R, a, k)
    {
      if IsWithoutSign(R, k) {
        NotRelatedTo(R, k, w);
      }
    }
    KeptChanged(R, R', a, w);
  }

  lemma NotRelatedTo(R: Records, k: TxId, w: TxId)
    requires RecordsInv(R) && IsWithoutSign(R, k) && IsWithoutSign(R, w)
    ensures !Relates(R[k], w)
  {
    NoParentRelates(R, k, w);
  }

  /** The drift of every asset moves by exactly `DriftChange`. */
  lemma ApplyDrift(db: Db, op: Op, a: Asset)
    requires Inv(db) && Enabled(db, op)
    ensures Drift(Apply(db, op), a) == Drift(db, a) + DriftChange(op, a)
  {
    hide RecordsInv, Kept, RecordsAfterCombine, RecordsAfterResult, Total, AmountIn, Withdrawable, OpenFor, CanAdjust,
      Adjusted, Moved;
    var R := db.records;
    match op
    case Deposit(f, owner, asset, amount) =>
      AdjustedTotal(db.balances, owner, asset, amount, a);
    case Withdraw(id, owner, asset, symbol, text) =>
      AdjustedTotal(db.balances, owner, asset, -AmountIn(db.assets, asset, text), a);
      KeptChanged(R, Apply(db, op).records, a, id);
    case CreateWithoutSign(id, origins, symbol, asset, feeAsset, fee) =>
      CreateKept(R, id, origins, Apply(db, op).records[id], a);
    case AddSign(id, target, guard) =>
      KeptChanged(R, Apply(db, op).records, a, id);
    case CombineSigns(id, signs, f) =>
      CombineKept(db, id, signs, f, a);
    case ConfirmResult(f, c) =>
      ResultKept(db, f, c, a);
    case ColdHotResult(f, asset) =>
    case Observe(f) =>
    case MarkFailed(f) =>
  }

  /** The fee kept back is in the asset whose supply is raised for it. */
  predicate FeeInOwnAsset(op: Op) {
    op.CreateWithoutSign? ==> op.fee == 0 || op.feeAsset == op.asset
  }

  /** An operation conserves every asset exactly when its fee is in its own asset;
      the evaluator does not compare the two. */
  lemma ConservesIff(db: Db, op: Op)
    requires Inv(db) && Enabled(db, op)
    ensures (forall a :: Drift(Apply(db, op), a) == Drift(db, a)) <==> FeeInOwnAsset(op)
  {
    hide Inv, Enabled, Apply, Drift;
    forall a
      ensures Drift(Apply(db, op), a) == Drift(db, a) + DriftChange(op, a)
    {
      ApplyDrift(db, op, a);
    }
    if !FeeInOwnAsset(op) {
      assert DriftChange(op, op.asset) == op.fee;
      assert Drift(Apply(db, op), op.asset) != Drift(db, op.asset);
    }
  }

  /** A fee of 5 units of asset 2 kept back while the supply of asset 1 is raised. */
  lemma MismatchedFeeDrifts()
    ensures var r := Record(Withdrawal(7, 1, 10, 1, "10"), None, Uncreated, "");
      var db := Db(map[3 := r], map[], map[], map[1 := 100, 2 := 100], map[], map[], map[]);
      var op := CreateWithoutSign(4, [3], 1, 1, 2, 5);
      Inv(db) && Enabled(db, op) && Drift(Apply(db, op), 1) == Drift(db, 1) + 5
  {
    var r := Record(Withdrawal(7, 1, 10, 1, "10"), None, Uncreated, "");
    var empty := Db(map[], map[], map[], map[1 := 100, 2 := 100], map[], map[], map[]);
    var db := empty.(records := map[3 := r]);
    EmptyInv(empty);
    WithdrawKeeps(map[], 3, r);
    assert map[][3 := r] == map[3 := r];
    ApplyDrift(db, CreateWithoutSign(4, [3], 1, 1, 2, 5), 1);
  }

  /** Over every run the drift of each asset stays what it was. */
  lemma {:induction false} RunConserves(db: Db, ops: seq<Op>, a: Asset)
    requires Inv(db) && Runs(db, ops)
    requires forall op :: op in ops ==> FeeInOwnAsset(op)
    ensures Drift(Final(db, ops), a) == Drift(db, a)
    decreases |ops|
  {
    hide Inv, Enabled, Apply, Drift;
    if ops != [] {
      ApplyDrift(db, ops[0], a);
      assert FeeInOwnAsset(ops[0]);
      ApplyKeeps(db, ops[0]);
      RunConserves(Apply(db, ops[0]), ops[1..], a);
    }
  }
}
