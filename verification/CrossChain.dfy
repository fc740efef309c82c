/** The cross-chain deposit and withdrawal protocol on values: the linked records
    of a withdrawal, the table of acquired foreign transactions, and the ledger.
    Block heights are above every CROSSCHAIN_RECORD_EVALUATE gate and the asset is
    not ETH or an ERC token. */
module CrossChain {
  import opened Balances
  import opened Commons
  import AmountText

  type TxId = nat
  type ForeignId = string
  type Guard = nat

  /** The states of `crosschain_trx_object` that this path uses. */
  datatype TrxState = Uncreated | Created | Signed | Combined | Confirmed

  datatype Kind =
    | Withdrawal(owner: Address, asset: Asset, amount: int, symbol: Asset, text: string)
    | WithoutSign(origins: seq<TxId>, symbol: Asset, asset: Asset, feeAsset: Asset, fee: int)
    | Sign(guard: Guard)
    | Combine

  datatype Record = Record(kind: Kind, relate: Option<TxId>, state: TrxState, foreign: ForeignId)

  type Records = map<TxId, Record>

  datatype Acquired = AcquiredUncreated | AcquiredCreated | AcquiredConfirmed | AcquiredFailure

  datatype Db = Db(
    records: Records,
    acquired: map<ForeignId, Acquired>,
    balances: Table,
    supply: map<Asset, int>,
    collected: map<Asset, int>,
    feePool: map<Asset, int>,
    assets: Assets)

  type Assets = map<Asset, AmountText.AssetRef>

  /** The operations as the evaluators see them. A symbol stands for the asset it names; the
      amount of a withdrawal is the text that is read, all others are already parsed. */
  datatype Op =
    | Deposit(foreign: ForeignId, owner: Address, asset: Asset, amount: int)
    | Withdraw(id: TxId, owner: Address, asset: Asset, symbol: Asset, text: string)
    | CreateWithoutSign(id: TxId, origins: seq<TxId>, symbol: Asset, asset: Asset, feeAsset: Asset, fee: int)
    | AddSign(id: TxId, target: TxId, guard: Guard)
    | CombineSigns(id: TxId, signs: seq<TxId>, foreign: ForeignId)
    | ConfirmResult(foreign: ForeignId, combine: TxId)
    | ColdHotResult(foreign: ForeignId, asset: Asset)
    | Observe(foreign: ForeignId)
    | MarkFailed(foreign: ForeignId)

  function Plus(m: map<Asset, int>, a: Asset, delta: int): map<Asset, int> {
    m[a := Get(m, a) + delta]
  }

  function Origins(r: Record): seq<TxId> {
    if r.kind.WithoutSign? then r.kind.origins else []
  }

  /** The foreign transaction is in the table and no longer open. */
  predicate Spent(acquired: map<ForeignId, Acquired>, f: ForeignId) {
    f in acquired && acquired[f] != AcquiredUncreated
  }

  predicate Relates(r: Record, target: TxId) {
    r.relate == Some(target)
  }

  /** What a text comes to in units of an asset; nothing when it does not read. */
  function AmountIn(assets: Assets, a: Asset, text: string): int {
    if a in assets && AmountText.Read(assets[a], text).Ok? then AmountText.Read(assets[a], text).value else 0
  }

  // ----- What the evaluators check -----

  /** The text of a withdrawal reads, with no more decimals than the asset has. Nothing else
      is asked of it when its symbol has no handle. */
  predicate Withdrawable(assets: Assets, a: Asset, text: string) {
    a in assets && AmountText.Read(assets[a], text).Ok? &&
    (AmountText.PointAt(text) < |text| ==> |text| - AmountText.PointAt(text) - 1 <= assets[a].precision)
  }

  /** The scan of the records related to `w`: all are before combining, and none is a
      signature of this guard. */
  predicate OpenFor(R: Records, w: TxId, guard: Guard) {
    forall k :: k in R && Relates(R[k], w) ==>
      R[k].state == Created || (R[k].state == Signed && R[k].kind.Sign? && R[k].kind.guard != guard)
  }

  predicate Accepted(db: Db, op: Op) {
    var R := db.records;
    match op
    case Deposit(f, owner, asset, amount) =>
      !Spent(db.acquired, f) && asset in db.supply && CanAdjust(db.balances, owner, asset, amount)
    case Withdraw(id, owner, asset, _, text) =>
      id !in R && asset in db.supply && Withdrawable(db.assets, asset, text) &&
      CanAdjust(db.balances, owner, asset, -AmountIn(db.assets, asset, text))
    case CreateWithoutSign(id, origins, symbol, asset, _, _) =>
      id !in R && symbol in db.supply && asset in db.supply &&
      forall o :: o in origins ==> o in R && R[o].state == Uncreated
    case AddSign(id, target, guard) =>
      id !in R && target in R && OpenFor(R, target, guard)
    case CombineSigns(id, signs, _) =>
      id !in R && signs != [] && signs[0] in R && R[signs[0]].relate.Some? && R[signs[0]].relate.value in R &&
      forall o :: o in Origins(R[R[signs[0]].relate.value]) ==> o in R && R[o].state == Created
    case ConfirmResult(f, c) =>
      !Spent(db.acquired, f) && c in R && R[c].kind.Combine? && R[c].foreign == f &&
      R[c].relate.Some? && R[c].relate.value in R &&
      forall o :: o in Origins(R[R[c].relate.value]) ==> o in R
    case ColdHotResult(f, asset) =>
      !Spent(db.acquired, f) && asset in db.supply
    case Observe(f) => f !in db.acquired
    case MarkFailed(f) => f in db.acquired
  }

  /** What the programs that build the operations see to: a without-sign operation names
      some withdrawal, a signature names a without-sign record, and a combination names a
      signature. */
  predicate FromBuilder(db: Db, op: Op) {
    match op
    case CreateWithoutSign(_, origins, _, _, _, _) => origins != []
    case AddSign(_, target, _) => target in db.records && db.records[target].kind.WithoutSign?
    case CombineSigns(_, signs, _) => signs != [] && signs[0] in db.records && db.records[signs[0]].kind.Sign?
    case _ => true
  }

  predicate Enabled(db: Db, op: Op) {
    Accepted(db, op) && FromBuilder(db, op)
  }

  // ----- What the operations do -----

  /** Records of `keys` move to state `s`. */
  function Moved(R: Records, keys: set<TxId>, s: TrxState): (R': Records)
    ensures R'.Keys == R.Keys
  {
    map k | k in R :: if k in keys then R[k].(state := s) else R[k]
  }

  function Members(s: seq<TxId>): set<TxId> {
    set k | k in s
  }

  predicate NoRepeats(s: seq<TxId>) {
    forall i, j :: 0 <= i < j < |s| ==> s[i] != s[j]
  }

  /** The records related to `target` that are in state `s`. */
  function RelatedIn(R: Records, target: TxId, s: TrxState): set<TxId> {
    set k | k in R && Relates(R[k], target) && R[k].state == s
  }

  function WithForeign(R: Records, keys: set<TxId>, f: ForeignId): (R': Records)
    ensures R'.Keys == R.Keys
  {
    map k | k in R :: if k in keys then R[k].(foreign := f) else R[k]
  }

  function RecordsAfterCombine(R: Records, id: TxId, w: TxId, f: ForeignId): Records
    requires w in R
  {
    var users := Members(Origins(R[w]));
    var moved := Moved(R, {w} + users + RelatedIn(R, w, Signed), Combined);
    WithForeign(moved, users, f)[id := Record(Combine, Some(w), Combined, f)]
  }

  function RecordsAfterResult(R: Records, w: TxId): Records
    requires w in R
  {
    Moved(R, {w} + Members(Origins(R[w])) + RelatedIn(R, w, Combined), Confirmed)
  }

  /** The source dereferences the record that the first withdrawal of a without-sign
      operation creates, and the first signature of a combination: there must be one. */
  predicate Defined(op: Op) {
    (op.CreateWithoutSign? ==> op.origins != []) && (op.CombineSigns? ==> op.signs != [])
  }

  /** What an accepted operation does, whoever built it. */
  function Effect(db: Db, op: Op): Db
    requires Accepted(db, op) && Defined(op)
  {
    var R := db.records;
    match op
    case Deposit(f, owner, asset, amount) =>
      db.(balances := Adjusted(db.balances, owner, asset, amount),
          acquired := db.acquired[f := AcquiredCreated],
          supply := Plus(db.supply, asset, amount))
    case Withdraw(id, owner, asset, symbol, text) =>
      var amount := AmountIn(db.assets, asset, text);
      db.(balances := Adjusted(db.balances, owner, asset, -amount),
          records := R[id := Record(Withdrawal(owner, asset, amount, symbol, text), None, Uncreated, "")],
          supply := Plus(db.supply, asset, -amount))
    case CreateWithoutSign(id, origins, symbol, asset, feeAsset, fee) =>
      db.(records := Moved(R, Members(origins), Created)
            [id := Record(WithoutSign(origins, symbol, asset, feeAsset, fee), Some(origins[0]), Created, "")],
          supply := Plus(db.supply, asset, fee))
    case AddSign(id, target, guard) =>
      db.(records := R[id := Record(Sign(guard), Some(target), Signed, "")])
    case CombineSigns(id, signs, f) =>
      db.(records := RecordsAfterCombine(R, id, R[signs[0]].relate.value, f))
    case ConfirmResult(f, c) =>
      var w := R[c].relate.value;
      var (feeAsset, fee) := if R[w].kind.WithoutSign? then (R[w].kind.feeAsset, R[w].kind.fee) else (0, 0);
      db.(acquired := db.acquired[f := AcquiredConfirmed],
          records := RecordsAfterResult(R, w),
          collected := Plus(db.collected, feeAsset, fee))
    case ColdHotResult(f, asset) =>
      db.(acquired := db.acquired[f := AcquiredConfirmed],
          supply := Plus(db.supply, asset, -Get(db.feePool, asset)),
          collected := Plus(db.collected, asset, -Get(db.feePool, asset)))
    case Observe(f) =>
      db.(acquired := db.acquired[f := AcquiredUncreated])
    case MarkFailed(f) =>
      db.(acquired := db.acquired[f := AcquiredFailure])
  }

  function Apply(db: Db, op: Op): Db
    requires Enabled(db, op)
  {
    Effect(db, op)
  }

  // ----- Runs -----

  /** Every operation of the run passes its evaluator when its turn comes. */
  ghost predicate Runs(db: Db, ops: seq<Op>)
    decreases |ops|
  {
    ops == [] || (Enabled(db, ops[0]) && Runs(Apply(db, ops[0]), ops[1..]))
  }

  ghost function Final(db: Db, ops: seq<Op>): Db
    requires Runs(db, ops)
    decreases |ops|
  {
    if ops == [] then db else Final(Apply(db, ops[0]), ops[1..])
  }

  // ----- The invariant -----

  predicate IsWithoutSign(R: Records, w: TxId) {
    w in R && R[w].kind.WithoutSign?
  }

  /** Withdrawal `u` is one of those that without-sign record `w` pays out. */
  predicate Owns(R: Records, w: TxId, u: TxId) {
    IsWithoutSign(R, w) && u in R[w].kind.origins
  }

  /** Record `k` is in a state of its own path and points to its parent. */
  predicate LinkOk(R: Records, k: TxId) {
    k in R &&
      match R[k].kind
      case Withdrawal(_, _, _, _, _) => R[k].relate == None && R[k].state != Signed
      case WithoutSign(origins, _, _, _, _) =>
        origins != [] && R[k].relate == Some(origins[0]) &&
        (R[k].state == Created || R[k].state == Combined || R[k].state == Confirmed)
      case Sign(_) => R[k].relate.Some? && IsWithoutSign(R, R[k].relate.value)
      case Combine => R[k].relate.Some? && IsWithoutSign(R, R[k].relate.value)
  }

  ghost predicate WellLinked(R: Records) {
    forall k :: k in R ==> LinkOk(R, k)
  }

  /** A withdrawal shares the state of the without-sign record that pays it out. */
  ghost predicate SharedState(R: Records) {
    forall w, u :: Owns(R, w, u) ==> u in R && R[u].kind.Withdrawal? && R[u].state == R[w].state
  }

  /** No withdrawal is paid out by two without-sign records. */
  ghost predicate PaidOnce(R: Records) {
    forall w, v, u :: Owns(R, w, u) && Owns(R, v, u) ==> w == v
  }

  /** A withdrawal that has left the first state is paid out by some record. */
  ghost predicate Claimed(R: Records) {
    forall u :: u in R && R[u].kind.Withdrawal? && R[u].state != Uncreated ==> exists w :: Owns(R, w, u)
  }

  predicate IsSign(R: Records, k: TxId, w: TxId) {
    k in R && R[k].kind.Sign? && Relates(R[k], w)
  }

  /** Signatures are open exactly until their without-sign record is combined. */
  ghost predicate SignsFollow(R: Records) {
    forall k, w :: IsSign(R, k, w) && w in R ==>
      R[k].state == if R[w].state == Created then Signed else R[w].state
  }

  /** A guard signs a without-sign record at most once. */
  ghost predicate OneSignPerGuard(R: Records) {
    forall j, k, w :: IsSign(R, j, w) && IsSign(R, k, w) && R[j].kind == R[k].kind ==> j == k
  }

  /** A combined record has left the first state together with its without-sign record. */
  ghost predicate CombinesFollow(R: Records) {
    forall k, w :: Combines(R, k, w) && w in R ==> R[k].state == R[w].state && R[w].state != Created
  }

  /** A without-sign record is combined at most once. */
  ghost predicate OneCombine(R: Records) {
    forall j, k, w :: Combines(R, j, w) && Combines(R, k, w) ==> j == k
  }

  predicate Combines(R: Records, c: TxId, w: TxId) {
    c in R && R[c].kind.Combine? && Relates(R[c], w)
  }

  ghost predicate CombineExists(R: Records) {
    forall w :: IsWithoutSign(R, w) && R[w].state != Created ==> exists c :: Combines(R, c, w)
  }

  /** What has been confirmed has consumed its foreign transaction. */
  predicate ConfirmedIsSpent(R: Records, acquired: map<ForeignId, Acquired>) {
    forall k :: k in R && R[k].kind.Combine? && R[k].state == Confirmed ==> Spent(acquired, R[k].foreign)
  }

  ghost predicate LinksInv(R: Records) {
    WellLinked(R) && SharedState(R) && PaidOnce(R) && Claimed(R)
  }

  ghost predicate FollowersInv(R: Records) {
    SignsFollow(R) && OneSignPerGuard(R) && CombinesFollow(R) && OneCombine(R) && CombineExists(R)
  }

  ghost predicate RecordsInv(R: Records) {
    LinksInv(R) && FollowersInv(R)
  }

  ghost predicate Inv(db: Db) {
    RecordsInv(db.records) && ConfirmedIsSpent(db.records, db.acquired)
  }

  lemma EmptyInv(db: Db)
    requires db.records == map[]
    ensures Inv(db)
  {
  }

  // ----- Every operation keeps the invariant -----

  lemma WithdrawKeeps(R: Records, id: TxId, r: Record)
    requires RecordsInv(R) && id !in R && r.kind.Withdrawal? && r.relate == None && r.state == Uncreated
    ensures RecordsInv(R[id := r])
  {
    var R' := R[id := r];
    assert forall w, u :: Owns(R', w, u) <==> Owns(R, w, u);
    assert forall c, w :: Combines(R', c, w) <==> Combines(R, c, w);
    assert forall c, w :: IsSign(R', c, w) <==> IsSign(R, c, w);
    forall k | k in R'
      ensures LinkOk(R', k)
    {
      assert k != id ==> LinkOk(R, k);
    }
    FollowersStay(R, R');
    assert SharedState(R');
    assert PaidOnce(R');
    assert Claimed(R');
  }

  /** No signature is added once the without-sign record is combined. */
  lemma SignFindsCreated(R: Records, w: TxId, guard: Guard)
    requires RecordsInv(R) && IsWithoutSign(R, w) && OpenFor(R, w, guard)
    ensures R[w].state == Created
  {
    assert R[w].state != Created ==> exists c :: Combines(R, c, w);
  }

  lemma SignKeeps(R: Records, id: TxId, w: TxId, guard: Guard)
    requires RecordsInv(R) && id !in R && IsWithoutSign(R, w) && OpenFor(R, w, guard)
    ensures RecordsInv(R[id := Record(Sign(guard), Some(w), Signed, "")])
  {
    var R' := R[id := Record(Sign(guard), Some(w), Signed, "")];
    SignFindsCreated(R, w, guard);
    SignKeepsLinks(R, R', id, w);
    SignKeepsSigns(R, R', id, w, guard);
    assert forall c, v :: Combines(R', c, v) <==> Combines(R, c, v);
    assert CombinesFollow(R') && OneCombine(R') && CombineExists(R') by {
      hide WellLinked, SharedState, PaidOnce, Claimed, SignsFollow, OneSignPerGuard;
    }
  }

  lemma SignKeepsLinks(R: Records, R': Records, id: TxId, w: TxId)
    requires LinksInv(R) && id !in R && IsWithoutSign(R, w)
    requires id in R' && R' == R[id := R'[id]] && R'[id].kind.Sign? && R'[id].relate == Some(w)
    ensures LinksInv(R')
  {
    assert forall v, u :: Owns(R', v, u) <==> Owns(R, v, u);
    forall k | k in R'
      ensures LinkOk(R', k)
    {
      assert k != id ==> LinkOk(R, k);
    }
    assert SharedState(R');
    assert PaidOnce(R');
    assert Claimed(R');
  }

  lemma SignKeepsSigns(R: Records, R': Records, id: TxId, w: TxId, guard: Guard)
    requires WellLinked(R) && SignsFollow(R) && OneSignPerGuard(R) && OpenFor(R, w, guard)
    requires id !in R && w in R && R[w].state == Created && R' == R[id := Record(Sign(guard), Some(w), Signed, "")]
    ensures SignsFollow(R') && OneSignPerGuard(R')
  {
    assert forall k, v :: IsSign(R', k, v) <==> IsSign(R, k, v) || (k == id && v == w);
    forall k, v | IsSign(R', k, v) && v in R'
      ensures R'[k].state == if R'[v].state == Created then Signed else R'[v].state
    {
      assert k != id ==> LinkOk(R, k);
    }
    assert forall k :: IsSign(R, k, w) ==> R[k].kind != Sign(guard);
    assert OneSignPerGuard(R');
  }

  /** `R'` extends `R`: kinds and links stay, one record may be added. */
  ghost predicate Extends(R: Records, R': Records) {
    forall k :: k in R ==> k in R' && R'[k].kind == R[k].kind && R'[k].relate == R[k].relate
  }

  /** Records `origins` are claimed by the new without-sign record `id`. */
  ghost predicate ClaimEffect(R: Records, R': Records, id: TxId, origins: seq<TxId>) {
    Extends(R, R') && R'.Keys == R.Keys + {id} && id !in R && origins != [] &&
    R'[id].kind.WithoutSign? && R'[id].kind.origins == origins && R'[id].relate == Some(origins[0]) &&
    R'[id].state == Created &&
    (forall o :: o in origins ==> o in R && R[o].state == Uncreated) &&
    (forall k :: k in R ==> R'[k].state == if k in origins then Created else R[k].state)
  }

  /** All records but withdrawals have left the first state from the beginning. */
  lemma OthersLeft(R: Records, k: TxId)
    requires WellLinked(R) && SignsFollow(R) && CombinesFollow(R) && k in R
    ensures !R[k].kind.Withdrawal? ==> R[k].state != Uncreated
  {
    assert LinkOk(R, k);
    if R[k].kind.Sign? || R[k].kind.Combine? {
      var w := R[k].relate.value;
      assert LinkOk(R, w);
      assert IsSign(R, k, w) || Combines(R, k, w);
    }
  }

  lemma OpenAreWithdrawals(R: Records, origins: seq<TxId>)
    requires RecordsInv(R)
    requires forall o :: o in origins ==> o in R && R[o].state == Uncreated
    ensures forall o :: o in origins ==> R[o].kind.Withdrawal?
  {
    forall o | o in origins
      ensures R[o].kind.Withdrawal?
    {
      OthersLeft(R, o);
    }
  }

  lemma ClaimedAreOpen(R: Records, R': Records, id: TxId, origins: seq<TxId>)
    requires WellLinked(R) && SharedState(R) && ClaimEffect(R, R', id, origins)
    ensures forall v, u :: Owns(R', v, u) <==> Owns(R, v, u) || (v == id && u in origins)
    ensures forall v, u :: Owns(R, v, u) ==> u !in origins
  {
    forall v, u | Owns(R, v, u)
      ensures u !in origins
    {
      assert R[u].state == R[v].state;
      assert LinkOk(R, v);
    }
  }

  lemma ClaimKeepsLinks(R: Records, R': Records, id: TxId, origins: seq<TxId>)
    requires LinksInv(R) && ClaimEffect(R, R', id, origins)
    requires forall o :: o in origins ==> R[o].kind.Withdrawal?
    ensures LinksInv(R')
  {
    ClaimedAreOpen(R, R', id, origins);
    forall k | k in R'
      ensures LinkOk(R', k)
    {
      assert k != id ==> LinkOk(R, k);
    }
    assert SharedState(R');
    assert PaidOnce(R');
    forall u | u in R' && R'[u].kind.Withdrawal? && R'[u].state != Uncreated
      ensures exists v :: Owns(R', v, u)
    {
      if u in origins {
        assert Owns(R', id, u);
      } else {
        var v :| Owns(R, v, u);
        assert Owns(R', v, u);
      }
    }
  }

  /** Records other than withdrawals, and the links among them, are as before. */
  ghost predicate OnlyWithdrawalsMove(R: Records, R': Records) {
    (forall c, w :: Combines(R', c, w) <==> Combines(R, c, w)) &&
    (forall c, w :: IsSign(R', c, w) <==> IsSign(R, c, w)) &&
    (forall k :: k in R && !R[k].kind.Withdrawal? ==>
      k in R' && R'[k].state == R[k].state && R'[k].kind == R[k].kind) &&
    (forall w :: IsWithoutSign(R', w) ==> IsWithoutSign(R, w) || R'[w].state == Created)
  }

  lemma FollowersStay(R: Records, R': Records)
    requires WellLinked(R) && FollowersInv(R) && OnlyWithdrawalsMove(R, R')
    ensures FollowersInv(R')
  {
    forall k, w | IsSign(R, k, w) || Combines(R, k, w)
      ensures IsWithoutSign(R, w)
    {
      assert LinkOk(R, k);
    }
    assert SignsFollow(R');
    assert OneSignPerGuard(R');
    assert CombinesFollow(R');
    assert OneCombine(R');
    forall w | IsWithoutSign(R', w) && R'[w].state != Created
      ensures exists c :: Combines(R', c, w)
    {
      var c :| Combines(R, c, w);
      assert Combines(R', c, w);
    }
  }

  lemma CreateKeeps(R: Records, id: TxId, origins: seq<TxId>, r: Record)
    requires RecordsInv(R) && id !in R && origins != []
    requires forall o :: o in origins ==> o in R && R[o].state == Uncreated
    requires r.kind.WithoutSign? && r.kind.origins == origins && r.relate == Some(origins[0]) && r.state == Created
    ensures RecordsInv(Moved(R, Members(origins), Created)[id := r])
  {
    var R' := Moved(R, Members(origins), Created)[id := r];
    OpenAreWithdrawals(R, origins);
    LinksAreWell(R);
    hide LinksInv, FollowersInv, SharedState, WellLinked, ClaimEffect, OnlyWithdrawalsMove, Moved;
    CreateHasEffect(R, id, origins, r);
    ClaimKeepsLinks(R, R', id, origins);
    FollowersStay(R, R');
  }

  lemma CreateHasEffect(R: Records, id: TxId, origins: seq<TxId>, r: Record)
    requires id !in R && origins != []
    requires forall o :: o in origins ==> o in R && R[o].state == Uncreated && R[o].kind.Withdrawal?
    requires r.kind.WithoutSign? && r.kind.origins == origins && r.relate == Some(origins[0]) && r.state == Created
    ensures var R' := Moved(R, Members(origins), Created)[id := r];
      ClaimEffect(R, R', id, origins) && OnlyWithdrawalsMove(R, R')
  {
  }

  lemma LinksAreWell(R: Records)
    requires LinksInv(R)
    ensures WellLinked(R) && SharedState(R)
  {
  }

  function CombinedState(R: Records, w: TxId, k: TxId): TrxState
    requires w in R && k in R
  {
    if k == w || k in Origins(R[w]) || (Relates(R[k], w) && R[k].state == Signed) then Combined else R[k].state
  }

  function ConfirmedState(R: Records, w: TxId, k: TxId): TrxState
    requires w in R && k in R
  {
    if k == w || k in Origins(R[w]) || (Relates(R[k], w) && R[k].state == Combined) then Confirmed else R[k].state
  }

  /** What combining does to each record. */
  ghost predicate CombineEffect(R: Records, R': Records, id: TxId, w: TxId, f: ForeignId) {
    w in R && id !in R && Extends(R, R') && R'.Keys == R.Keys + {id} &&
    R'[id] == Record(Combine, Some(w), Combined, f) &&
    (forall k :: k in R ==> R'[k].state == CombinedState(R, w, k)) &&
    (forall k :: k in R ==> R'[k].foreign == if k in Origins(R[w]) then f else R[k].foreign)
  }

  lemma CombineHasEffect(R: Records, id: TxId, w: TxId, f: ForeignId)
    requires w in R && id !in R
    ensures CombineEffect(R, RecordsAfterCombine(R, id, w, f), id, w, f)
  {
  }

  lemma UsersCreated(R: Records, w: TxId)
    requires RecordsInv(R) && IsWithoutSign(R, w)
    requires forall o :: o in Origins(R[w]) ==> o in R && R[o].state == Created
    ensures R[w].state == Created
  {
    assert Owns(R, w, R[w].kind.origins[0]);
  }

  lemma CombineKeepsLinks(R: Records, R': Records, id: TxId, w: TxId, f: ForeignId)
    requires LinksInv(R) && IsWithoutSign(R, w) && R[w].state == Created && CombineEffect(R, R', id, w, f)
    ensures LinksInv(R')
  {
    assert forall v, u :: Owns(R', v, u) <==> Owns(R, v, u);
    assert forall u :: u in Origins(R[w]) <==> Owns(R, w, u);
    assert WellLinked(R');
    forall v, u | Owns(R', v, u)
      ensures u in R' && R'[u].kind.Withdrawal? && R'[u].state == R'[v].state
    {
      assert SharedState(R) && PaidOnce(R);
    }
    assert PaidOnce(R');
    forall u | u in R' && R'[u].kind.Withdrawal? && R'[u].state != Uncreated
      ensures exists v :: Owns(R', v, u)
    {
      assert SharedState(R);
      var v :| Owns(R, v, u);
      assert Owns(R', v, u);
    }
  }

  lemma CombineMovesSigns(R: Records, R': Records, id: TxId, w: TxId, f: ForeignId)
    requires WellLinked(R) && SignsFollow(R) && OneSignPerGuard(R)
    requires IsWithoutSign(R, w) && R[w].state == Created && CombineEffect(R, R', id, w, f)
    requires forall u :: u in Origins(R[w]) ==> u in R && R[u].kind.Withdrawal?
    ensures SignsFollow(R') && OneSignPerGuard(R')
  {
    assert forall k, v :: IsSign(R', k, v) <==> IsSign(R, k, v);
    forall k, v | IsSign(R', k, v) && v in R'
      ensures R'[k].state == if R'[v].state == Created then Signed else R'[v].state
    {
      assert IsSign(R, k, v);
      assert LinkOk(R, k) && LinkOk(R, v);
      assert R[k].state == if R[v].state == Created then Signed else R[v].state;
    }
  }

  lemma CombineMovesCombines(R: Records, R': Records, id: TxId, w: TxId, f: ForeignId)
    requires WellLinked(R) && CombinesFollow(R) && OneCombine(R) && CombineExists(R)
    requires IsWithoutSign(R, w) && R[w].state == Created && CombineEffect(R, R', id, w, f)
    requires forall u :: u in Origins(R[w]) ==> u in R && R[u].kind.Withdrawal?
    ensures CombinesFollow(R') && OneCombine(R') && CombineExists(R')
  {
    assert forall k, v :: Combines(R', k, v) <==> Combines(R, k, v) || (k == id && v == w);
    forall k, v | Combines(R', k, v) && v in R'
      ensures R'[k].state == R'[v].state && R'[v].state != Created
    {
      if k != id {
        assert Combines(R, k, v);
        assert LinkOk(R, k) && LinkOk(R, v);
      }
    }
    assert forall k :: !Combines(R, k, w);
    assert OneCombine(R');
    forall v | IsWithoutSign(R', v) && R'[v].state != Created
      ensures exists c :: Combines(R', c, v)
    {
      if v == w {
        assert Combines(R', id, w);
      } else {
        assert IsWithoutSign(R, v) && LinkOk(R, v);
        var c :| Combines(R, c, v);
        assert Combines(R', c, v);
      }
    }
  }

  lemma CombineKeeps(R: Records, id: TxId, w: TxId, f: ForeignId)
    requires RecordsInv(R) && id !in R && IsWithoutSign(R, w) && R[w].state == Created
    ensures RecordsInv(RecordsAfterCombine(R, id, w, f))
  {
    hide RecordsAfterCombine, SharedState, PaidOnce, Claimed, WellLinked, SignsFollow, OneSignPerGuard, CombinesFollow,
      OneCombine, CombineExists;
    var R' := RecordsAfterCombine(R, id, w, f);
    CombineHasEffect(R, id, w, f);
    LinksAreWell(R);
    CombineKeepsLinks(R, R', id, w, f);
    UsersAreWithdrawals(R, w);
    CombineMovesSigns(R, R', id, w, f);
    CombineMovesCombines(R, R', id, w, f);
  }

  ghost predicate ResultEffect(R: Records, R': Records, w: TxId) {
    w in R && Extends(R, R') && R'.Keys == R.Keys &&
    (forall k :: k in R ==> R'[k].foreign == R[k].foreign && R'[k].state == ConfirmedState(R, w, k))
  }

  lemma ResultHasEffect(R: Records, w: TxId)
    requires w in R
    ensures ResultEffect(R, RecordsAfterResult(R, w), w)
  {
  }

  lemma ResultKeepsLinks(R: Records, R': Records, w: TxId)
    requires LinksInv(R) && IsWithoutSign(R, w) && R[w].state == Combined && ResultEffect(R, R', w)
    ensures LinksInv(R')
  {
    assert forall v, u :: Owns(R', v, u) <==> Owns(R, v, u);
    assert forall u :: u in Origins(R[w]) <==> Owns(R, w, u);
    assert WellLinked(R');
    ResultSharesState(R, R', w);
    assert PaidOnce(R');
    forall u | u in R' && R'[u].kind.Withdrawal? && R'[u].state != Uncreated
      ensures exists v :: Owns(R', v, u)
    {
      assert SharedState(R);
      var v :| Owns(R, v, u);
      assert Owns(R', v, u);
    }
  }

  lemma ResultSharesState(R: Records, R': Records, w: TxId)
    requires LinksInv(R) && IsWithoutSign(R, w) && R[w].state == Combined && ResultEffect(R, R', w)
    ensures SharedState(R')
  {
    forall v, u | Owns(R', v, u)
      ensures u in R' && R'[u].kind.Withdrawal? && R'[u].state == R'[v].state
    {
      assert Owns(R, v, u) && (u in Origins(R[w]) <==> Owns(R, w, u));
      assert SharedState(R) && PaidOnce(R);
    }
  }

  lemma ResultMovesFollowers(R: Records, R': Records, w: TxId)
    requires WellLinked(R) && SharedState(R) && SignsFollow(R) && CombinesFollow(R)
    requires IsWithoutSign(R, w) && R[w].state == Combined && ResultEffect(R, R', w)
    requires forall u :: u in Origins(R[w]) ==> u in R && R[u].kind.Withdrawal?
    ensures SignsFollow(R') && CombinesFollow(R')
  {
    forall k, v | IsSign(R', k, v) && v in R'
      ensures R'[k].state == if R'[v].state == Created then Signed else R'[v].state
    {
      assert IsSign(R, k, v);
      assert LinkOk(R, k);
      NoParentRelates(R, v, w);
      assert R[k].state == if R[v].state == Created then Signed else R[v].state;
    }
    forall k, v | Combines(R', k, v) && v in R'
      ensures R'[k].state == R'[v].state && R'[v].state != Created
    {
      assert Combines(R, k, v);
      assert LinkOk(R, k);
      NoParentRelates(R, v, w);
    }
  }

  /** A without-sign record relates to a withdrawal, never to one of its own kind. */
  lemma NoParentRelates(R: Records, v: TxId, w: TxId)
    requires WellLinked(R) && SharedState(R) && IsWithoutSign(R, v) && IsWithoutSign(R, w)
    ensures !Relates(R[v], w)
  {
    assert LinkOk(R, v);
    assert Owns(R, v, R[v].kind.origins[0]);
  }

  lemma ResultKeepsUnique(R: Records, R': Records, w: TxId)
    requires WellLinked(R) && OneSignPerGuard(R) && OneCombine(R) && CombineExists(R)
    requires IsWithoutSign(R, w) && R[w].state == Combined && ResultEffect(R, R', w)
    requires forall u :: u in Origins(R[w]) ==> u in R && R[u].kind.Withdrawal?
    ensures OneSignPerGuard(R') && OneCombine(R') && CombineExists(R')
  {
    assert forall k, v :: IsSign(R', k, v) <==> IsSign(R, k, v);
    assert forall k, v :: Combines(R', k, v) <==> Combines(R, k, v);
    forall v | IsWithoutSign(R', v) && R'[v].state != Created
      ensures exists c :: Combines(R', c, v)
    {
      assert IsWithoutSign(R, v) && LinkOk(R, v);
      var c :| Combines(R, c, v);
      assert Combines(R', c, v);
    }
  }

  lemma ResultKeeps(R: Records, w: TxId)
    requires RecordsInv(R) && IsWithoutSign(R, w) && R[w].state == Combined
    ensures RecordsInv(RecordsAfterResult(R, w))
  {
    hide RecordsAfterResult, SharedState, PaidOnce, Claimed, WellLinked, SignsFollow, OneSignPerGuard, CombinesFollow,
      OneCombine, CombineExists;
    var R' := RecordsAfterResult(R, w);
    ResultHasEffect(R, w);
    LinksAreWell(R);
    ResultKeepsLinks(R, R', w);
    UsersAreWithdrawals(R, w);
    ResultMovesFollowers(R, R', w);
    ResultKeepsUnique(R, R', w);
  }

  /** A result finds its without-sign record combined and not yet confirmed. */
  lemma ResultFindsCombined(db: Db, f: ForeignId, c: TxId)
    requires Inv(db) && Enabled(db, ConfirmResult(f, c))
    ensures var w := db.records[c].relate.value;
      IsWithoutSign(db.records, w) && db.records[w].state == Combined && db.records[c].state == Combined
  {
  }

  lemma SignNamesWithoutSign(db: Db, id: TxId, signs: seq<TxId>, f: ForeignId)
    requires Inv(db) && Enabled(db, CombineSigns(id, signs, f))
    ensures var w := db.records[signs[0]].relate.value;
      IsWithoutSign(db.records, w) && db.records[w].state == Created
  {
    UsersCreated(db.records, db.records[signs[0]].relate.value);
  }

  lemma ResultSpends(db: Db, f: ForeignId, c: TxId)
    requires Inv(db) && Enabled(db, ConfirmResult(f, c))
    ensures ConfirmedIsSpent(RecordsAfterResult(db.records, db.records[c].relate.value),
                             db.acquired[f := AcquiredConfirmed])
  {
    hide RecordsInv, RecordsAfterResult;
    var R, w := db.records, db.records[c].relate.value;
    ResultFindsCombined(db, f, c);
    ResultHasEffect(R, w);
    UsersAreWithdrawals(R, w);
    OnlyItsCombine(R, c, w);
    var R' := RecordsAfterResult(R, w);
    forall k | k in R' && R'[k].kind.Combine? && R'[k].state == Confirmed
      ensures Spent(db.acquired[f := AcquiredConfirmed], R'[k].foreign)
    {
      assert Combines(R, k, w) ==> k == c;
    }
  }

  lemma CombineOpKeeps(db: Db, id: TxId, signs: seq<TxId>, f: ForeignId)
    requires Inv(db) && Enabled(db, CombineSigns(id, signs, f))
    ensures var R' := RecordsAfterCombine(db.records, id, db.records[signs[0]].relate.value, f);
      RecordsInv(R') && ConfirmedIsSpent(R', db.acquired)
  {
    hide RecordsInv, RecordsAfterCombine;
    var R, w := db.records, db.records[signs[0]].relate.value;
    SignNamesWithoutSign(db, id, signs, f);
    CombineKeeps(R, id, w, f);
    CombineHasEffect(R, id, w, f);
    UsersAreWithdrawals(R, w);
  }

  /** Every operation that passes its evaluator keeps the invariant. */
  lemma ApplyKeeps(db: Db, op: Op)
    requires Inv(db) && Enabled(db, op)
    ensures Inv(Apply(db, op))
  {
    hide RecordsInv, AmountIn, Withdrawable, CanAdjust, Adjusted, RecordsAfterCombine, RecordsAfterResult;
    var R := db.records;
    match op
    case Deposit(f, owner, asset, amount) =>
    case Withdraw(id, owner, asset, symbol, text) =>
      WithdrawKeeps(R, id, Apply(db, op).records[id]);
    case CreateWithoutSign(id, origins, _, _, _, _) =>
      CreateKeeps(R, id, origins, Apply(db, op).records[id]);
      OpenAreWithdrawals(R, origins);
    case AddSign(id, target, guard) =>
      SignKeeps(R, id, target, guard);
    case CombineSigns(id, signs, f) =>
      CombineOpKeeps(db, id, signs, f);
    case ConfirmResult(f, c) =>
      ResultFindsCombined(db, f, c);
      var w := R[c].relate.value;
      ResultKeeps(R, w);
      ResultSpends(db, f, c);
    case ColdHotResult(f, asset) =>
    case Observe(f) =>
    case MarkFailed(f) =>
  }

  lemma UsersAreWithdrawals(R: Records, w: TxId)
    requires RecordsInv(R) && IsWithoutSign(R, w)
    ensures forall u :: u in Origins(R[w]) ==> u in R && R[u].kind.Withdrawal?
  {
    assert forall u :: u in Origins(R[w]) ==> Owns(R, w, u);
  }

  lemma OnlyItsCombine(R: Records, c: TxId, w: TxId)
    requires RecordsInv(R) && Combines(R, c, w)
    ensures forall k :: Combines(R, k, w) ==> k == c
  {
  }

  lemma ForeignLinkBreaks(R: Records, k: TxId)
    requires k in R && (R[k].kind.Sign? || R[k].kind.Combine?)
    requires R[k].relate.Some? && !IsWithoutSign(R, R[k].relate.value)
    ensures !RecordsInv(R)
  {
    assert !LinkOk(R, k);
  }

  /** What a record other than a signature leads an accepted combination to. */
  lemma OtherRecordCombined(db: Db, id: TxId, signs: seq<TxId>, f: ForeignId)
    requires Inv(db) && Accepted(db, CombineSigns(id, signs, f)) && !db.records[signs[0]].kind.Sign?
    ensures !IsWithoutSign(db.records, db.records[signs[0]].relate.value)
  {
    var R, k := db.records, signs[0];
    var w := R[k].relate.value;
    assert LinkOk(R, k);
    if R[k].kind.WithoutSign? {
      assert Owns(R, k, w);
    } else {
      assert Combines(R, k, w);
      assert LinkOk(R, w);
      assert Owns(R, w, Origins(R[w])[0]);
    }
  }

  /** The evaluators leave the kinds of the records named to the builders: an accepted
      operation keeps the invariant exactly when its builder saw to them. */
  lemma BuilderNeeded(db: Db, op: Op)
    requires Inv(db) && Accepted(db, op) && Defined(op)
    ensures Inv(Effect(db, op)) <==> FromBuilder(db, op)
  {
    if FromBuilder(db, op) {
      ApplyKeeps(db, op);
    } else {
      hide RecordsInv, RecordsAfterCombine;
      var R := Effect(db, op).records;
      match op
      case AddSign(id, target, guard) =>
        ForeignLinkBreaks(R, id);
      case CombineSigns(id, signs, f) =>
        OtherRecordCombined(db, id, signs, f);
        CombineHasEffect(db.records, id, db.records[signs[0]].relate.value, f);
        ForeignLinkBreaks(R, id);
    }
  }

  lemma OpenIsUnrelated(R: Records, u: TxId)
    requires RecordsInv(R) && u in R && R[u].kind.Withdrawal? && R[u].state == Uncreated
    ensures forall k :: k in R ==> !Relates(R[k], u)
    ensures forall w :: !Owns(R, w, u)
  {
    forall w
      ensures !Owns(R, w, u)
    {
      assert SharedState(R);
      assert w in R ==> LinkOk(R, w);
    }
    forall k | k in R
      ensures !Relates(R[k], u)
    {
      assert LinkOk(R, k);
      if R[k].kind.WithoutSign? {
        assert Owns(R, k, R[k].kind.origins[0]);
      }
    }
  }

  /** What a signature on a withdrawal leads to: any open withdrawal can be signed, combined
      and confirmed by accepted operations, and no record ever pays it. */
  lemma ConfirmedUnpaid(db: Db, u: TxId, guard: Guard, sign: TxId, combine: TxId, f: ForeignId)
    requires Inv(db) && u in db.records && db.records[u].kind.Withdrawal? && db.records[u].state == Uncreated
    requires sign !in db.records && combine !in db.records && sign != combine && !Spent(db.acquired, f)
    ensures Accepted(db, AddSign(sign, u, guard)) && !FromBuilder(db, AddSign(sign, u, guard))
    ensures var signed := Effect(db, AddSign(sign, u, guard));
      Accepted(signed, CombineSigns(combine, [sign], f)) &&
      var combined := Effect(signed, CombineSigns(combine, [sign], f));
      Accepted(combined, ConfirmResult(f, combine)) &&
      var R := Effect(combined, ConfirmResult(f, combine)).records;
      u in R && R[u].kind == db.records[u].kind && R[u].state == Confirmed && forall w :: !Owns(R, w, u)
  {
    OpenIsUnrelated(db.records, u);
    hide RecordsInv, Effect, Accepted, CombineEffect, ResultEffect, Owns;
    SignAccepted(db, u, guard, sign);
    var signed := Effect(db, AddSign(sign, u, guard));
    CombineAccepted(signed, u, sign, combine, f);
    var combined := Effect(signed, CombineSigns(combine, [sign], f));
    ResultAccepted(combined, u, combine, f);
    assert forall w :: Owns(signed.records, w, u) <==> Owns(db.records, w, u);
  }

  lemma SignAccepted(db: Db, u: TxId, guard: Guard, sign: TxId)
    requires u in db.records && !db.records[u].kind.WithoutSign? && sign !in db.records
    requires forall k :: k in db.records ==> !Relates(db.records[k], u)
    ensures var op := AddSign(sign, u, guard);
      Accepted(db, op) && !FromBuilder(db, op) &&
      Effect(db, op) == db.(records := db.records[sign := Record(Sign(guard), Some(u), Signed, "")]) &&
      forall w :: Owns(Effect(db, op).records, w, u) <==> Owns(db.records, w, u)
  {
  }

  lemma CombineAccepted(db: Db, u: TxId, sign: TxId, combine: TxId, f: ForeignId)
    requires u in db.records && !db.records[u].kind.WithoutSign? && combine !in db.records
    requires sign in db.records && db.records[sign].relate == Some(u)
    ensures var op := CombineSigns(combine, [sign], f);
      Accepted(db, op) && var R := Effect(db, op).records;
      Effect(db, op).acquired == db.acquired && u in R && R[u].kind == db.records[u].kind &&
      combine in R && R[combine] == Record(Combine, Some(u), Combined, f) &&
      forall w :: Owns(R, w, u) <==> Owns(db.records, w, u)
  {
    hide RecordsAfterCombine;
    CombineHasEffect(db.records, combine, u, f);
  }

  lemma ResultAccepted(db: Db, u: TxId, combine: TxId, f: ForeignId)
    requires u in db.records && !db.records[u].kind.WithoutSign? && !Spent(db.acquired, f)
    requires combine in db.records && db.records[combine] == Record(Combine, Some(u), Combined, f)
    ensures var op := ConfirmResult(f, combine);
      Accepted(db, op) && var R := Effect(db, op).records;
      u in R && R[u].kind == db.records[u].kind && R[u].state == Confirmed &&
      forall w :: Owns(R, w, u) <==> Owns(db.records, w, u)
  {
    hide RecordsAfterResult;
    ResultHasEffect(db.records, u);
  }

  /** What a without-sign record in place of a signature leads to: its first withdrawal is
      combined, and the record that pays it is not. */
  lemma CombinedAlone(db: Db, id: TxId, w: TxId, f: ForeignId)
    requires Inv(db) && IsWithoutSign(db.records, w) && db.records[w].state == Created && id !in db.records
    ensures var op := CombineSigns(id, [w], f);
      Accepted(db, op) && !FromBuilder(db, op) &&
      var R, u := Effect(db, op).records, db.records[w].kind.origins[0];
      Owns(R, w, u) && u in R && R[u].state == Combined && R[w].state == Created
  {
    hide RecordsAfterCombine;
    var u := db.records[w].kind.origins[0];
    assert LinkOk(db.records, w) && Owns(db.records, w, u);
    assert SharedState(db.records);
    CombineHasEffect(db.records, id, u, f);
  }

  /** The invariant holds in every state that a run reaches. */
  lemma {:induction false} RunKeeps(db: Db, ops: seq<Op>)
    requires Inv(db) && Runs(db, ops)
    ensures Inv(Final(db, ops))
    decreases |ops|
  {
    hide Inv, Enabled, Apply;
    if ops != [] {
      ApplyKeeps(db, ops[0]);
      RunKeeps(Apply(db, ops[0]), ops[1..]);
    }
  }
}
