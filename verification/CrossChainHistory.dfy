/** What the records say of a run: which operation made each record, and how far each
    withdrawal has come, in terms of the operations alone. */
module CrossChainHistory {
  import opened Balances
  import opened Commons
  import opened CrossChain
  import opened CrossChainRuns

  // ----- Operations of a run -----

  ghost predicate Withdrew(past: seq<Op>, u: TxId) {
    exists op :: op in past && op.Withdraw? && op.id == u
  }

  /** A without-sign operation `w` names withdrawal `u`. */
  ghost predicate ClaimedBy(past: seq<Op>, w: TxId, u: TxId) {
    exists op :: op in past && op.CreateWithoutSign? && op.id == w && u in op.origins
  }

  ghost predicate SignedFor(past: seq<Op>, s: TxId, w: TxId) {
    exists op :: op in past && op.AddSign? && op.id == s && op.target == w
  }

  predicate IsCombination(op: Op, c: TxId, f: ForeignId) {
    op.CombineSigns? && op.signs != [] && op.id == c && op.foreign == f
  }

  /** Combination `c` names a signature for `w` first, and foreign transaction `f`. */
  ghost predicate CombinedAs(past: seq<Op>, c: TxId, w: TxId, f: ForeignId) {
    exists op :: op in past && IsCombination(op, c, f) && SignedFor(past, op.signs[0], w)
  }

  /** Without-sign operation `w` was combined, with foreign transaction `f`. */
  ghost predicate WasCombined(past: seq<Op>, w: TxId, f: ForeignId) {
    exists c :: CombinedAs(past, c, w, f)
  }

  /** A result named its combination and its foreign transaction. */
  ghost predicate WasConfirmed(past: seq<Op>, w: TxId, f: ForeignId) {
    exists c :: CombinedAs(past, c, w, f) && ConfirmResult(f, c) in past
  }

  // ----- What the records note -----

  /** The record that an operation makes is there. */
  predicate Noted(R: Records, assets: Assets, op: Op) {
    match op
    case Withdraw(id, owner, asset, symbol, text) =>
      id in R && R[id].kind == Withdrawal(owner, asset, AmountIn(assets, asset, text), symbol, text)
    case CreateWithoutSign(id, origins, symbol, asset, feeAsset, fee) =>
      id in R && R[id].kind == WithoutSign(origins, symbol, asset, feeAsset, fee)
    case AddSign(id, target, guard) =>
      id in R && R[id].kind == Sign(guard) && R[id].relate == Some(target)
    case CombineSigns(id, signs, f) =>
      id in R && R[id].kind == Combine && R[id].foreign == f &&
      signs != [] && signs[0] in R && R[signs[0]].kind.Sign? && R[id].relate == R[signs[0]].relate
    case ConfirmResult(f, c) =>
      c in R && R[c].kind == Combine && R[c].foreign == f && R[c].state == Confirmed
    case _ => true
  }

  /** The record that an operation makes. */
  predicate Makes(op: Op, k: TxId) {
    match op
    case Withdraw(id, _, _, _, _) => k == id
    case CreateWithoutSign(id, _, _, _, _, _) => k == id
    case AddSign(id, _, _) => k == id
    case CombineSigns(id, _, _) => k == id
    case _ => false
  }

  ghost predicate MadeBySome(past: seq<Op>, k: TxId) {
    exists op :: op in past && Makes(op, k)
  }

  ghost predicate HasResult(past: seq<Op>, c: TxId) {
    exists op :: op in past && op.ConfirmResult? && op.combine == c
  }

  /** Every operation is noted, every record was made by one, confirmed combinations have had
      their result, and combined withdrawals carry the foreign transaction. */
  ghost predicate Told(R: Records, assets: Assets, past: seq<Op>) {
    (forall op :: op in past ==> Noted(R, assets, op)) &&
    (forall k :: k in R ==> MadeBySome(past, k)) &&
    (forall c :: c in R && R[c].kind.Combine? && R[c].state == Confirmed ==> HasResult(past, c)) &&
    Carried(R)
  }

  ghost predicate Carried(R: Records) {
    (forall c, w, u :: Combines(R, c, w) && Owns(R, w, u) && u in R ==> R[u].foreign == R[c].foreign) &&
    (forall u :: u in R && R[u].kind.Withdrawal? && (R[u].state == Uncreated || R[u].state == Created) ==>
      R[u].foreign == "")
  }

  // ----- Every operation adds to it -----

  /** What stays of a record. */
  predicate Kept(R: Records, R': Records, k: TxId) {
    k in R && k in R' && R'[k].kind == R[k].kind && R'[k].relate == R[k].relate &&
    (R[k].kind.Combine? ==> R'[k].foreign == R[k].foreign) && (R[k].state == Confirmed ==> R'[k].state == Confirmed)
  }

  lemma KeptNoted(R: Records, R': Records, assets: Assets, op: Op)
    requires Noted(R, assets, op) && forall k :: k in R ==> Kept(R, R', k)
    ensures Noted(R', assets, op)
  {
    hide AmountIn;
  }

  lemma CombineKept(db: Db, id: TxId, signs: seq<TxId>, f: ForeignId, k: TxId)
    requires Inv(db) && Enabled(db, CombineSigns(id, signs, f)) && k in db.records
    ensures Kept(db.records, RecordsAfterCombine(db.records, id, db.records[signs[0]].relate.value, f), k)
  {
    var R, w := db.records, db.records[signs[0]].relate.value;
    CombineAdvances(db, id, signs, f);
    SignNamesWithoutSign(db, id, signs, f);
    CombineHasEffect(R, id, w, f);
    UsersAreWithdrawals(R, w);
    hide RecordsInv, RecordsAfterCombine;
  }

  lemma ResultKept(db: Db, f: ForeignId, c: TxId, k: TxId)
    requires Inv(db) && Enabled(db, ConfirmResult(f, c)) && k in db.records
    ensures Kept(db.records, RecordsAfterResult(db.records, db.records[c].relate.value), k)
  {
    ResultAdvances(db, f, c);
    ResultHasEffect(db.records, db.records[c].relate.value);
    hide RecordsInv, RecordsAfterResult;
  }

  lemma ApplyKept(db: Db, op: Op, k: TxId)
    requires Inv(db) && Enabled(db, op) && k in db.records
    ensures Kept(db.records, Apply(db, op).records, k)
  {
    hide RecordsInv, RecordsAfterCombine, RecordsAfterResult, AmountIn, Withdrawable, OpenFor, CanAdjust, Adjusted;
    match op
    case CombineSigns(id, signs, f) =>
      CombineKept(db, id, signs, f, k);
    case ConfirmResult(f, c) =>
      ResultKept(db, f, c, k);
    case _ =>
  }

  lemma ApplyNotes(db: Db, op: Op)
    requires Inv(db) && Enabled(db, op)
    ensures Noted(Apply(db, op).records, db.assets, op)
  {
    hide RecordsInv, RecordsAfterCombine, RecordsAfterResult, AmountIn, Withdrawable, OpenFor, CanAdjust, Adjusted;
    match op
    case CombineSigns(id, signs, f) =>
      CombineHasEffect(db.records, id, db.records[signs[0]].relate.value, f);
    case ConfirmResult(f, c) =>
      ResultFindsCombined(db, f, c);
      ResultHasEffect(db.records, db.records[c].relate.value);
    case Deposit(_, _, _, _) =>
    case Withdraw(_, _, _, _, _) =>
    case CreateWithoutSign(_, _, _, _, _, _) =>
    case AddSign(_, _, _) =>
    case ColdHotResult(_, _) =>
    case Observe(_) =>
    case MarkFailed(_) =>
  }

  /** New records are the operation's own. */
  lemma ApplyMakes(db: Db, op: Op, k: TxId)
    requires Enabled(db, op) && k in Apply(db, op).records
    ensures k in db.records || Makes(op, k)
  {
    hide AmountIn, Withdrawable, OpenFor, CanAdjust, Adjusted;
  }

  /** Combinations become confirmed by their own result only. */
  lemma ApplyConfirms(db: Db, op: Op, c: TxId)
    requires Inv(db) && Enabled(db, op)
    requires var R := Apply(db, op).records; c in R && R[c].kind.Combine? && R[c].state == Confirmed
    ensures (c in db.records && db.records[c].kind.Combine? && db.records[c].state == Confirmed) ||
            (op.ConfirmResult? && op.combine == c)
  {
    hide RecordsInv, RecordsAfterCombine, RecordsAfterResult, AmountIn, Withdrawable, OpenFor, CanAdjust, Adjusted;
    var R := db.records;
    match op
    case CombineSigns(id, signs, f) =>
      var w := R[signs[0]].relate.value;
      SignNamesWithoutSign(db, id, signs, f);
      CombineHasEffect(R, id, w, f);
      UsersAreWithdrawals(R, w);
    case ConfirmResult(f, d) =>
      var w := R[d].relate.value;
      ResultFindsCombined(db, f, d);
      ResultHasEffect(R, w);
      UsersAreWithdrawals(R, w);
      OnlyItsCombine(R, d, w);
      assert Combines(R, c, w) ==> c == d;
    case Deposit(_, _, _, _) =>
    case Withdraw(_, _, _, _, _) =>
    case CreateWithoutSign(_, _, _, _, _, _) =>
    case AddSign(_, _, _) =>
    case ColdHotResult(_, _) =>
    case Observe(_) =>
    case MarkFailed(_) =>
  }

  lemma WithdrawCarries(R: Records, id: TxId, r: Record)
    requires RecordsInv(R) && Carried(R) && id !in R && r.kind.Withdrawal? && r.state == Uncreated && r.foreign == ""
    ensures Carried(R[id := r])
  {
    var R' := R[id := r];
    assert SharedState(R);
    assert forall w, u :: Owns(R', w, u) <==> Owns(R, w, u);
    assert forall c, w :: Combines(R', c, w) <==> Combines(R, c, w);
  }

  lemma SignCarries(R: Records, id: TxId, r: Record)
    requires RecordsInv(R) && Carried(R) && id !in R && r.kind.Sign?
    ensures Carried(R[id := r])
  {
    var R' := R[id := r];
    assert SharedState(R);
    assert forall w, u :: Owns(R', w, u) <==> Owns(R, w, u);
    assert forall c, w :: Combines(R', c, w) <==> Combines(R, c, w);
  }

  lemma CreateCarries(R: Records, id: TxId, origins: seq<TxId>, r: Record)
    requires RecordsInv(R) && Carried(R) && id !in R && origins != [] && r.kind.WithoutSign?
    requires r.kind.origins == origins && r.relate == Some(origins[0]) && r.state == Created
    requires forall o :: o in origins ==> o in R && R[o].state == Uncreated
    ensures Carried(Moved(R, Members(origins), Created)[id := r])
  {
    var R' := Moved(R, Members(origins), Created)[id := r];
    OpenAreWithdrawals(R, origins);
    forall c, w | Combines(R', c, w)
      ensures Combines(R, c, w) && IsWithoutSign(R, w)
    {
      assert LinkOk(R, c);
    }
    assert forall w, u :: Owns(R', w, u) && w in R ==> Owns(R, w, u);
    hide RecordsInv;
  }

  lemma CombineCarries(R: Records, R': Records, id: TxId, w: TxId, f: ForeignId)
    requires RecordsInv(R) && RecordsInv(R') && Carried(R) && IsWithoutSign(R, w) && R[w].state == Created
    requires CombineEffect(R, R', id, w, f)
    ensures Carried(R')
  {
    UsersAreWithdrawals(R, w);
    OnlyItsCombine(R', id, w);
    assert PaidOnce(R) && SharedState(R);
    hide RecordsInv;
    forall c, v, u | Combines(R', c, v) && Owns(R', v, u) && u in R'
      ensures R'[u].foreign == R'[c].foreign
    {
      assert Owns(R, v, u);
      if v == w {
        assert c == id;
      } else {
        assert Combines(R, c, v);
        assert !Owns(R, w, u);
      }
    }
  }

  lemma ResultCarries(R: Records, R': Records, w: TxId)
    requires Carried(R) && ResultEffect(R, R', w)
    ensures Carried(R')
  {
    assert forall v, u :: Owns(R', v, u) <==> Owns(R, v, u);
    assert forall c, v :: Combines(R', c, v) <==> Combines(R, c, v);
  }

  lemma ApplyCarries(db: Db, op: Op)
    requires Inv(db) && Enabled(db, op) && Carried(db.records)
    ensures Carried(Apply(db, op).records)
  {
    hide RecordsInv, Carried, RecordsAfterCombine, RecordsAfterResult, AmountIn, Withdrawable, OpenFor, CanAdjust,
      Adjusted, Moved, CombineEffect, ResultEffect;
    var R := db.records;
    match op
    case Withdraw(id, _, _, _, _) =>
      WithdrawCarries(R, id, Apply(db, op).records[id]);
    case CreateWithoutSign(id, origins, _, _, _, _) =>
      CreateCarries(R, id, origins, Apply(db, op).records[id]);
    case AddSign(id, _, _) =>
      SignCarries(R, id, Apply(db, op).records[id]);
    case CombineSigns(id, signs, f) =>
      var w := R[signs[0]].relate.value;
      SignNamesWithoutSign(db, id, signs, f);
      CombineHasEffect(R, id, w, f);
      CombineKeeps(R, id, w, f);
      CombineCarries(R, RecordsAfterCombine(R, id, w, f), id, w, f);
    case ConfirmResult(f, c) =>
      var w := R[c].relate.value;
      ResultHasEffect(R, w);
      ResultCarries(R, RecordsAfterResult(R, w), w);
    case Deposit(_, _, _, _) =>
    case ColdHotResult(_, _) =>
    case Observe(_) =>
    case MarkFailed(_) =>
  }

  lemma NotedAfter(db: Db, op: Op, past: seq<Op>, o: Op)
    requires Inv(db) && Enabled(db, op) && Told(db.records, db.assets, past) && o in past + [op]
    ensures Noted(Apply(db, op).records, db.assets, o)
  {
    hide Inv, Enabled, Apply, Noted, Kept, Carried;
    if o in past {
      var R, R' := db.records, Apply(db, op).records;
      forall k | k in R
        ensures Kept(R, R', k)
      {
        ApplyKept(db, op, k);
      }
      KeptNoted(R, R', db.assets, o);
    } else {
      ApplyNotes(db, op);
    }
  }

  lemma MadeAfter(db: Db, op: Op, past: seq<Op>, k: TxId)
    requires Enabled(db, op) && Told(db.records, db.assets, past) && k in Apply(db, op).records
    ensures MadeBySome(past + [op], k)
  {
    ApplyMakes(db, op, k);
    hide Enabled, Apply, Noted, Carried, Makes;
    var more := past + [op];
    if k in db.records {
      var o :| o in past && Makes(o, k);
      assert o in more;
    } else {
      assert op in more;
    }
  }

  lemma ResultAfter(db: Db, op: Op, past: seq<Op>, c: TxId)
    requires Inv(db) && Enabled(db, op) && Told(db.records, db.assets, past)
    requires var R := Apply(db, op).records; c in R && R[c].kind.Combine? && R[c].state == Confirmed
    ensures HasResult(past + [op], c)
  {
    ApplyConfirms(db, op, c);
    hide Inv, Enabled, Apply, Noted, Carried;
    var more := past + [op];
    if op.ConfirmResult? && op.combine == c {
      assert op in more;
    } else {
      var o :| o in past && o.ConfirmResult? && o.combine == c;
      assert o in more;
    }
  }

  lemma ApplyTells(db: Db, op: Op, past: seq<Op>)
    requires Inv(db) && Enabled(db, op) && Told(db.records, db.assets, past)
    ensures Told(Apply(db, op).records, db.assets, past + [op]) && Apply(db, op).assets == db.assets
  {
    var R', more := Apply(db, op).records, past + [op];
    ApplyCarries(db, op);
    AssetsStay(db, op);
    hide Inv, Enabled, Apply, Noted, Carried, MadeBySome, HasResult;
    forall o | o in more
      ensures Noted(R', db.assets, o)
    {
      NotedAfter(db, op, past, o);
    }
    forall k | k in R'
      ensures MadeBySome(more, k)
    {
      MadeAfter(db, op, past, k);
    }
    forall c | c in R' && R'[c].kind.Combine? && R'[c].state == Confirmed
      ensures HasResult(more, c)
    {
      ResultAfter(db, op, past, c);
    }
  }

  lemma AssetsStay(db: Db, op: Op)
    requires Enabled(db, op)
    ensures Apply(db, op).assets == db.assets
  {
    hide AmountIn, Withdrawable, OpenFor, CanAdjust, Adjusted;
  }

  lemma {:induction false} RunTells(db: Db, ops: seq<Op>, past: seq<Op>)
    requires Inv(db) && Runs(db, ops) && Told(db.records, db.assets, past)
    ensures Told(Final(db, ops).records, db.assets, past + ops) && Inv(Final(db, ops))
    decreases |ops|
  {
    hide Inv, Enabled, Apply, Told;
    if ops == [] {
      assert past + ops == past;
    } else {
      ApplyTells(db, ops[0], past);
      ApplyKeeps(db, ops[0]);
      RunTells(Apply(db, ops[0]), ops[1..], past + [ops[0]]);
      assert past + [ops[0]] + ops[1..] == past + ops;
    }
  }

  // ----- How far a withdrawal has come -----

  lemma ClaimIsOwned(R: Records, assets: Assets, past: seq<Op>, w: TxId, u: TxId)
    requires RecordsInv(R) && Told(R, assets, past)
    ensures ClaimedBy(past, w, u) <==> Owns(R, w, u)
  {
    hide AmountIn, RecordsInv;
    if ClaimedBy(past, w, u) {
      var op :| op in past && op.CreateWithoutSign? && op.id == w && u in op.origins;
      assert Noted(R, assets, op);
    }
    if Owns(R, w, u) {
      assert MadeBySome(past, w);
      var op :| op in past && Makes(op, w);
      assert Noted(R, assets, op);
    }
  }

  lemma SignIsNoted(R: Records, assets: Assets, past: seq<Op>, s: TxId, w: TxId)
    requires Told(R, assets, past)
    ensures SignedFor(past, s, w) <==> IsSign(R, s, w)
  {
    hide AmountIn;
    if SignedFor(past, s, w) {
      var op :| op in past && op.AddSign? && op.id == s && op.target == w;
      assert Noted(R, assets, op);
    }
    if IsSign(R, s, w) {
      assert MadeBySome(past, s);
      var op :| op in past && Makes(op, s);
      assert Noted(R, assets, op);
    }
  }

  lemma CombinationIsNoted(R: Records, assets: Assets, past: seq<Op>, c: TxId, w: TxId, f: ForeignId)
    requires Told(R, assets, past)
    ensures CombinedAs(past, c, w, f) <==> Combines(R, c, w) && R[c].foreign == f
  {
    hide AmountIn, SignedFor;
    if CombinedAs(past, c, w, f) {
      var op :| op in past && IsCombination(op, c, f) && SignedFor(past, op.signs[0], w);
      assert Noted(R, assets, op);
      SignIsNoted(R, assets, past, op.signs[0], w);
    }
    if Combines(R, c, w) && R[c].foreign == f {
      assert MadeBySome(past, c);
      var op :| op in past && Makes(op, c);
      assert Noted(R, assets, op);
      SignIsNoted(R, assets, past, op.signs[0], w);
      assert IsCombination(op, c, f);
    }
  }

  lemma ResultIsNoted(R: Records, assets: Assets, past: seq<Op>, c: TxId, w: TxId, f: ForeignId)
    requires Told(R, assets, past) && Combines(R, c, w) && R[c].foreign == f
    ensures ConfirmResult(f, c) in past <==> R[c].state == Confirmed
  {
    if ConfirmResult(f, c) in past {
      assert Noted(R, assets, ConfirmResult(f, c));
    }
    if R[c].state == Confirmed {
      assert HasResult(past, c);
      var op :| op in past && op.ConfirmResult? && op.combine == c;
      assert Noted(R, assets, op);
      assert op == ConfirmResult(f, c);
    }
  }

  lemma CombinedMeans(R: Records, assets: Assets, past: seq<Op>, w: TxId, f: ForeignId)
    requires RecordsInv(R) && Told(R, assets, past) && IsWithoutSign(R, w)
    ensures WasCombined(past, w, f) <==> exists c :: Combines(R, c, w) && R[c].foreign == f
    ensures WasConfirmed(past, w, f) <==> exists c :: Combines(R, c, w) && R[c].foreign == f && R[c].state == Confirmed
  {
    hide RecordsInv, Told, CombinedAs;
    forall c
      ensures CombinedAs(past, c, w, f) <==> Combines(R, c, w) && R[c].foreign == f
    {
      CombinationIsNoted(R, assets, past, c, w, f);
    }
    forall c | Combines(R, c, w) && R[c].foreign == f
      ensures ConfirmResult(f, c) in past <==> R[c].state == Confirmed
    {
      ResultIsNoted(R, assets, past, c, w, f);
    }
  }

  /** The state of a without-sign record against its combination. */
  lemma StateOfRecord(R: Records, w: TxId, f: ForeignId)
    requires RecordsInv(R) && IsWithoutSign(R, w)
    ensures R[w].state == Created || R[w].state == Combined || R[w].state == Confirmed
    ensures R[w].state != Created <==> exists c :: Combines(R, c, w)
    ensures (exists c :: Combines(R, c, w) && R[c].foreign == f && R[c].state == Confirmed) <==>
      R[w].state == Confirmed && exists c :: Combines(R, c, w) && R[c].foreign == f
  {
    assert LinkOk(R, w);
    assert CombinesFollow(R) && CombineExists(R);
  }

  /** Over every run from the beginning, the table holds exactly the withdrawals made, and each
      one's state and foreign transaction are what the operations say: open until a
      without-sign operation names it, claimed until a combination names a signature for that
      operation, combined with that combination's foreign transaction until a result names
      both, and then confirmed. */
  lemma Story(db: Db, ops: seq<Op>, u: TxId)
    requires db.records == map[] && Runs(db, ops)
    ensures var R := Final(db, ops).records;
      Withdrew(ops, u) <==> u in R && R[u].kind.Withdrawal?
    ensures var R := Final(db, ops).records;
      u in R && R[u].kind.Withdrawal? ==>
        (R[u].state == Uncreated <==> forall w :: !ClaimedBy(ops, w, u)) &&
        (R[u].state == Created || R[u].state == Uncreated ==> R[u].foreign == "") &&
        (forall w :: ClaimedBy(ops, w, u) ==>
          (R[u].state == Created <==> forall f :: !WasCombined(ops, w, f)) &&
          (forall f :: WasCombined(ops, w, f) ==> R[u].foreign == f) &&
          (R[u].state == Confirmed <==> WasConfirmed(ops, w, R[u].foreign)))
  {
    EmptyInv(db);
    assert Told(db.records, db.assets, []);
    RunTells(db, ops, []);
    assert [] + ops == ops;
    var R := Final(db, ops).records;
    WithdrawalsTold(R, db.assets, ops, u);
    if u in R && R[u].kind.Withdrawal? {
      StoryOf(R, db.assets, ops, u);
    }
  }

  lemma WithdrawalsTold(R: Records, assets: Assets, past: seq<Op>, u: TxId)
    requires Told(R, assets, past)
    ensures Withdrew(past, u) <==> u in R && R[u].kind.Withdrawal?
  {
    hide AmountIn;
    if Withdrew(past, u) {
      var op :| op in past && op.Withdraw? && op.id == u;
      assert Noted(R, assets, op);
    }
    if u in R && R[u].kind.Withdrawal? {
      assert MadeBySome(past, u);
      var op :| op in past && Makes(op, u);
      assert Noted(R, assets, op);
    }
  }

  lemma StoryOf(R: Records, assets: Assets, past: seq<Op>, u: TxId)
    requires RecordsInv(R) && Told(R, assets, past) && u in R && R[u].kind.Withdrawal?
    ensures R[u].state == Uncreated <==> forall w :: !ClaimedBy(past, w, u)
    ensures R[u].state == Created || R[u].state == Uncreated ==> R[u].foreign == ""
    ensures forall w :: ClaimedBy(past, w, u) ==>
      (R[u].state == Created <==> forall f :: !WasCombined(past, w, f)) &&
      (forall f :: WasCombined(past, w, f) ==> R[u].foreign == f) &&
      (R[u].state == Confirmed <==> WasConfirmed(past, w, R[u].foreign))
  {
    assert Carried(R);
    OwnersOf(R, u);
    hide RecordsInv, Told, ClaimedBy, Owns, WasCombined, WasConfirmed, Combines;
    forall w
      ensures ClaimedBy(past, w, u) <==> Owns(R, w, u)
    {
      ClaimIsOwned(R, assets, past, w, u);
    }
    forall w | ClaimedBy(past, w, u)
      ensures R[u].state == Created <==> forall f :: !WasCombined(past, w, f)
      ensures forall f :: WasCombined(past, w, f) ==> R[u].foreign == f
      ensures R[u].state == Confirmed <==> WasConfirmed(past, w, R[u].foreign)
    {
      ClaimIsOwned(R, assets, past, w, u);
      StoryOfClaim(R, assets, past, w, u);
    }
  }

  lemma OwnersOf(R: Records, u: TxId)
    requires RecordsInv(R) && u in R && R[u].kind.Withdrawal?
    ensures R[u].state == Uncreated <==> forall w :: !Owns(R, w, u)
  {
    if R[u].state == Uncreated {
      OpenIsUnrelated(R, u);
    } else {
      assert Claimed(R);
    }
  }

  lemma StoryOfClaim(R: Records, assets: Assets, past: seq<Op>, w: TxId, u: TxId)
    requires RecordsInv(R) && Told(R, assets, past) && Owns(R, w, u) && u in R
    ensures R[u].state == Created <==> forall f :: !WasCombined(past, w, f)
    ensures forall f :: WasCombined(past, w, f) ==> R[u].foreign == f
    ensures R[u].state == Confirmed <==> WasConfirmed(past, w, R[u].foreign)
  {
    assert SharedState(R) && Carried(R);
    var f := R[u].foreign;
    StateOfRecord(R, w, f);
    hide RecordsInv, Told, WasCombined, WasConfirmed;
    forall g
      ensures WasCombined(past, w, g) <==> exists c :: Combines(R, c, w) && R[c].foreign == g
      ensures WasConfirmed(past, w, g) <==>
        exists c :: Combines(R, c, w) && R[c].foreign == g && R[c].state == Confirmed
    {
      CombinedMeans(R, assets, past, w, g);
    }
    if R[w].state != Created {
      var c :| Combines(R, c, w);
      assert R[c].foreign == f;
      assert WasCombined(past, w, f);
    }
  }
}
