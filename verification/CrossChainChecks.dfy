/** What the evaluators accept after a run from the beginning, in terms of the operations of
    that run alone. */
module CrossChainChecks {
  import opened Balances
  import opened Commons
  import opened CrossChain
  import opened CrossChainRuns
  import opened CrossChainHistory

  // ----- Foreign transactions -----

  predicate Uses(op: Op, f: ForeignId) {
    Consumes(op) == Some(f) || op == MarkFailed(f)
  }

  /** Some operation consumed the foreign transaction or marked it failed. */
  ghost predicate Used(past: seq<Op>, f: ForeignId) {
    exists op :: op in past && Uses(op, f)
  }

  ghost predicate Seen(past: seq<Op>, f: ForeignId) {
    Observe(f) in past || Used(past, f)
  }

  ghost predicate MarksTold(acquired: map<ForeignId, Acquired>, past: seq<Op>) {
    forall f :: (f in acquired <==> Seen(past, f)) && (Spent(acquired, f) <==> Used(past, f))
  }

  lemma OneMoreUsed(past: seq<Op>, op: Op, f: ForeignId)
    ensures Used(past + [op], f) <==> Used(past, f) || Uses(op, f)
    ensures Seen(past + [op], f) <==> Seen(past, f) || Uses(op, f) || op == Observe(f)
  {
    var more := past + [op];
    assert op in more;
    assert forall o :: o in past ==> o in more;
    assert forall o :: o in more ==> o in past || o == op;
  }

  lemma ApplyMarks(db: Db, op: Op, f: ForeignId)
    requires Enabled(db, op)
    ensures f in Apply(db, op).acquired <==> f in db.acquired || Uses(op, f) || op == Observe(f)
    ensures Spent(Apply(db, op).acquired, f) <==> Spent(db.acquired, f) || Uses(op, f)
  {
    hide AmountIn, Withdrawable, OpenFor, CanAdjust, Adjusted, RecordsAfterCombine, RecordsAfterResult, Moved;
  }

  lemma SupplyKeysStay(db: Db, op: Op)
    requires Enabled(db, op)
    ensures Apply(db, op).supply.Keys == db.supply.Keys
  {
    hide AmountIn, Withdrawable, OpenFor, CanAdjust, Adjusted, RecordsAfterCombine, RecordsAfterResult, Moved;
  }

  lemma {:induction false} RunMarks(db: Db, ops: seq<Op>, past: seq<Op>)
    requires Runs(db, ops) && MarksTold(db.acquired, past)
    ensures MarksTold(Final(db, ops).acquired, past + ops)
    ensures Final(db, ops).supply.Keys == db.supply.Keys
    decreases |ops|
  {
    hide Enabled, Apply, Spent, Used, Seen, Uses;
    if ops == [] {
      assert past + ops == past;
    } else {
      var op, next := ops[0], Apply(db, ops[0]);
      forall f
        ensures (f in next.acquired <==> Seen(past + [op], f)) && (Spent(next.acquired, f) <==> Used(past + [op], f))
      {
        ApplyMarks(db, op, f);
        OneMoreUsed(past, op, f);
      }
      SupplyKeysStay(db, op);
      RunMarks(next, ops[1..], past + [op]);
      assert past + [op] + ops[1..] == past + ops;
    }
  }

  // ----- Withdrawals and their successors -----

  lemma NewMeans(R: Records, assets: Assets, past: seq<Op>, k: TxId)
    requires Told(R, assets, past)
    ensures MadeBySome(past, k) <==> k in R
  {
    hide AmountIn;
    if MadeBySome(past, k) {
      var op :| op in past && Makes(op, k);
      assert Noted(R, assets, op);
    }
  }

  ghost predicate Unclaimed(past: seq<Op>, u: TxId) {
    Withdrew(past, u) && forall w :: !ClaimedBy(past, w, u)
  }

  lemma OpenMeans(R: Records, assets: Assets, past: seq<Op>, u: TxId)
    requires RecordsInv(R) && Told(R, assets, past)
    ensures Unclaimed(past, u) <==> u in R && R[u].state == Uncreated
  {
    WithdrawalsTold(R, assets, past, u);
    if u in R && R[u].kind.Withdrawal? {
      StoryOf(R, assets, past, u);
    } else if u in R {
      OthersLeft(R, u);
    }
    hide RecordsInv, Told, Withdrew, ClaimedBy;
  }

  ghost predicate Uncombined(past: seq<Op>, w: TxId) {
    forall f :: !WasCombined(past, w, f)
  }

  lemma UncombinedMeans(R: Records, assets: Assets, past: seq<Op>, w: TxId)
    requires RecordsInv(R) && Told(R, assets, past) && IsWithoutSign(R, w)
    ensures Uncombined(past, w) <==> R[w].state == Created
  {
    hide RecordsInv, Told, WasCombined, WasConfirmed;
    forall f
      ensures WasCombined(past, w, f) <==> exists c :: Combines(R, c, w) && R[c].foreign == f
    {
      CombinedMeans(R, assets, past, w, f);
    }
    StateOfRecord(R, w, "");
    if R[w].state != Created {
      var c :| Combines(R, c, w);
      assert WasCombined(past, w, R[c].foreign);
    }
  }

  /** Guard has signed the without-sign operation `w`. */
  ghost predicate HasSigned(past: seq<Op>, w: TxId, guard: Guard) {
    exists op :: op in past && op.AddSign? && op.target == w && op.guard == guard
  }

  lemma SignedMeans(R: Records, assets: Assets, past: seq<Op>, w: TxId, guard: Guard)
    requires Told(R, assets, past)
    ensures HasSigned(past, w, guard) <==> exists k :: IsSign(R, k, w) && R[k].kind.guard == guard
  {
    hide AmountIn;
    if HasSigned(past, w, guard) {
      var op :| op in past && op.AddSign? && op.target == w && op.guard == guard;
      assert Noted(R, assets, op);
      assert IsSign(R, op.id, w);
    }
    if k :| IsSign(R, k, w) && R[k].kind.guard == guard {
      assert MadeBySome(past, k);
      var op :| op in past && Makes(op, k);
      assert Noted(R, assets, op);
    }
  }

  /** The scan of the related records, in terms of the invariant. */
  lemma ScanMeans(R: Records, w: TxId, guard: Guard)
    requires RecordsInv(R) && IsWithoutSign(R, w)
    ensures OpenFor(R, w, guard) <==>
      R[w].state == Created && forall k :: IsSign(R, k, w) ==> R[k].kind.guard != guard
  {
    assert WellLinked(R) && SharedState(R) && SignsFollow(R) && CombinesFollow(R) && CombineExists(R);
    hide RecordsInv;
    forall k | k in R && Relates(R[k], w)
      ensures IsSign(R, k, w) || Combines(R, k, w)
    {
      assert LinkOk(R, k);
      assert R[k].kind.WithoutSign? ==> Owns(R, k, w);
    }
    if R[w].state != Created {
      var c :| Combines(R, c, w);
      assert R[c].state != Created;
    }
  }

  // ----- What is accepted next -----

  /** A without-sign operation is accepted exactly when it is new, its assets are known and it
      names withdrawals that none before it has named. */
  lemma CreateAccepted(db: Db, ops: seq<Op>, id: TxId, origins: seq<TxId>,
                       symbol: Asset, asset: Asset, feeAsset: Asset, fee: int)
    requires db.records == map[] && Runs(db, ops)
    ensures Accepted(Final(db, ops), CreateWithoutSign(id, origins, symbol, asset, feeAsset, fee)) <==>
      !MadeBySome(ops, id) && symbol in db.supply && asset in db.supply &&
      forall o :: o in origins ==> Unclaimed(ops, o)
  {
    var end := Final(db, ops);
    Reached(db, ops);
    NewMeans(end.records, db.assets, ops, id);
    hide Told, RecordsInv, MadeBySome, Unclaimed;
    forall o | o in origins
      ensures Unclaimed(ops, o) <==> o in end.records && end.records[o].state == Uncreated
    {
      OpenMeans(end.records, db.assets, ops, o);
    }
  }

  /** A signature for a without-sign operation is accepted exactly when it is new, that
      operation has not been combined and this guard has not signed it. */
  lemma SignAccepted(db: Db, ops: seq<Op>, id: TxId, target: TxId, guard: Guard)
    requires db.records == map[] && Runs(db, ops) && IsWithoutSign(Final(db, ops).records, target)
    ensures Accepted(Final(db, ops), AddSign(id, target, guard)) <==>
      !MadeBySome(ops, id) && Uncombined(ops, target) && !HasSigned(ops, target, guard)
  {
    var R := Final(db, ops).records;
    Reached(db, ops);
    NewMeans(R, db.assets, ops, id);
    UncombinedMeans(R, db.assets, ops, target);
    SignedMeans(R, db.assets, ops, target, guard);
    ScanMeans(R, target, guard);
    hide Told, RecordsInv, MadeBySome, Uncombined, HasSigned, OpenFor;
  }

  /** A combination that names a signature first is accepted exactly when it is new and the
      operation signed has not been combined. */
  lemma CombinationAccepted(db: Db, ops: seq<Op>, id: TxId, signs: seq<TxId>, f: ForeignId, w: TxId)
    requires db.records == map[] && Runs(db, ops) && signs != [] && SignedFor(ops, signs[0], w)
    ensures Accepted(Final(db, ops), CombineSigns(id, signs, f)) <==> !MadeBySome(ops, id) && Uncombined(ops, w)
  {
    var end := Final(db, ops);
    var R := end.records;
    Reached(db, ops);
    NewMeans(R, db.assets, ops, id);
    SignIsNoted(R, db.assets, ops, signs[0], w);
    assert LinkOk(R, signs[0]);
    UncombinedMeans(R, db.assets, ops, w);
    hide Told, RecordsInv, MadeBySome, Uncombined, SignedFor, LinkOk;
    CombinableMeans(end, id, signs, f, w);
    hide Accepted;
  }

  lemma CombinableMeans(db: Db, id: TxId, signs: seq<TxId>, f: ForeignId, w: TxId)
    requires RecordsInv(db.records) && signs != [] && IsSign(db.records, signs[0], w) && IsWithoutSign(db.records, w)
    ensures Accepted(db, CombineSigns(id, signs, f)) <==> id !in db.records && db.records[w].state == Created
  {
    var R := db.records;
    assert LinkOk(R, w) && SharedState(R);
    hide RecordsInv;
    var origins := R[w].kind.origins;
    assert forall o :: o in origins ==> Owns(R, w, o);
    assert origins[0] in origins;
  }

  /** A result is accepted exactly when its foreign transaction is unused and it names a
      combination with that transaction. */
  lemma ResultAccepted(db: Db, ops: seq<Op>, f: ForeignId, c: TxId)
    requires db.records == map[] && db.acquired == map[] && Runs(db, ops)
    ensures Accepted(Final(db, ops), ConfirmResult(f, c)) <==>
      !Used(ops, f) && exists w :: CombinedAs(ops, c, w, f)
  {
    var end := Final(db, ops);
    var R := end.records;
    Reached(db, ops);
    MarksReached(db, ops, f);
    ConfirmableMeans(end, f, c);
    hide Told, RecordsInv, Used, CombinedAs, Spent, Accepted;
    forall w
      ensures CombinedAs(ops, c, w, f) <==> Combines(R, c, w) && R[c].foreign == f
    {
      CombinationIsNoted(R, db.assets, ops, c, w, f);
    }
  }

  lemma ConfirmableMeans(db: Db, f: ForeignId, c: TxId)
    requires RecordsInv(db.records)
    ensures Accepted(db, ConfirmResult(f, c)) <==>
      !Spent(db.acquired, f) && exists w :: Combines(db.records, c, w) && db.records[c].foreign == f
  {
    var R := db.records;
    assert SharedState(R);
    hide Spent;
    if c in R && R[c].kind.Combine? {
      assert LinkOk(R, c);
      var w := R[c].relate.value;
      assert Combines(R, c, w);
      assert forall o :: o in R[w].kind.origins ==> Owns(R, w, o);
    }
  }

  /** Cold-hot results, observations and failures, by the foreign transactions of the run. */
  lemma ForeignAccepted(db: Db, ops: seq<Op>, f: ForeignId, asset: Asset)
    requires db.records == map[] && db.acquired == map[] && Runs(db, ops)
    ensures Accepted(Final(db, ops), ColdHotResult(f, asset)) <==> !Used(ops, f) && asset in db.supply
    ensures Accepted(Final(db, ops), Observe(f)) <==> !Seen(ops, f)
    ensures Accepted(Final(db, ops), MarkFailed(f)) <==> Seen(ops, f)
  {
    KeysReached(db, ops);
    MarksReached(db, ops, f);
    hide Used, Seen, Spent;
  }

  lemma Reached(db: Db, ops: seq<Op>)
    requires db.records == map[] && Runs(db, ops)
    ensures Told(Final(db, ops).records, db.assets, ops) && RecordsInv(Final(db, ops).records)
    ensures Final(db, ops).supply.Keys == db.supply.Keys
  {
    EmptyInv(db);
    assert Told(db.records, db.assets, []);
    RunTells(db, ops, []);
    assert [] + ops == ops;
    KeysReached(db, ops);
  }

  lemma {:induction false} KeysReached(db: Db, ops: seq<Op>)
    requires Runs(db, ops)
    ensures Final(db, ops).supply.Keys == db.supply.Keys
    decreases |ops|
  {
    hide Enabled, Apply;
    if ops != [] {
      SupplyKeysStay(db, ops[0]);
      KeysReached(Apply(db, ops[0]), ops[1..]);
    }
  }

  lemma MarksReached(db: Db, ops: seq<Op>, f: ForeignId)
    requires db.acquired == map[] && Runs(db, ops)
    ensures f in Final(db, ops).acquired <==> Seen(ops, f)
    ensures Spent(Final(db, ops).acquired, f) <==> Used(ops, f)
  {
    assert MarksTold(db.acquired, []);
    RunMarks(db, ops, []);
    assert [] + ops == ops;
  }
}
