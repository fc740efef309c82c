/** The evaluators of the cross-chain operations on the database they change in
    place: scans over index ranges, and loops that move the linked records. */
module CrossChainDatabase {
  import opened Balances
  import opened Commons
  import opened CrossChain
  import opened CrossChainRuns
  import Ledger = CrossChainLedger

  /** The records after the first of the claimed withdrawals have been handled. */
  function ClaimedSoFar(R: Records, done: seq<TxId>, id: TxId, created: Record): Records {
    if done == [] then R else Moved(R, Members(done), Created)[id := created]
  }

  lemma ClaimedOneMore(R: Records, origins: seq<TxId>, i: nat, id: TxId, created: Record)
    requires i < |origins| && origins[i] in R && id !in R
    ensures var done := ClaimedSoFar(R, origins[..i], id, created);
      origins[i] in done && (id in done <==> i > 0) && (i > 0 ==> done[id] == created) &&
      ClaimedSoFar(R, origins[..i + 1], id, created) ==
        done[origins[i] := done[origins[i]].(state := Created)][id := created]
  {
    assert Members(origins[..i + 1]) == Members(origins[..i]) + {origins[i]};
    assert i > 0 ==> origins[..i] != [];
  }

  class Database {
    var records: Records
    var acquired: map<ForeignId, Acquired>
    var balances: Table
    var supply: map<Asset, int>
    var collected: map<Asset, int>
    var feePool: map<Asset, int>
    var assets: Assets

    function View(): Db
      reads this
    {
      Db(records, acquired, balances, supply, collected, feePool, assets)
    }

    /** The keys of the by_relate_trx_id range of `target`. */
    function Range(target: TxId): (keys: set<TxId>)
      reads this
    {
      set k | k in records && Relates(records[k], target)
    }

    // ----- Evaluation -----

    method AllInState(ids: seq<TxId>, s: TrxState) returns (ok: bool)
      ensures ok == forall o :: o in ids ==> o in records && records[o].state == s
    {
      for i := 0 to |ids|
        invariant forall o :: o in ids[..i] ==> o in records && records[o].state == s
      {
        if ids[i] !in records || records[ids[i]].state != s {
          return false;
        }
      }
      return true;
    }

    method EvaluateCreateWithoutSign(id: TxId, origins: seq<TxId>, symbol: Asset, asset: Asset, feeAsset: Asset,
                                     fee: int)
      returns (ok: bool)
      ensures ok == Accepted(View(), CreateWithoutSign(id, origins, symbol, asset, feeAsset, fee))
    {
      if symbol !in supply || asset !in supply {
        return false;
      }
      ok := AllInState(origins, Uncreated);
      ok := ok && id !in records;
    }

    /** The scan of earlier signatures. */
    method EvaluateAddSign(id: TxId, target: TxId, guard: Guard) returns (ok: bool)
      ensures ok == Accepted(View(), AddSign(id, target, guard))
    {
      if target !in records || id in records {
        return false;
      }
      var todo := Range(target);
      var signs: set<Guard> := {};
      ghost var done: set<TxId> := {};
      while todo != {}
        invariant todo + done == Range(target) && todo !! done
        invariant forall k :: k in done ==>
          records[k].state == Created || (records[k].state == Signed && records[k].kind.Sign?)
        invariant forall k :: k in done && records[k].state == Signed ==> records[k].kind.guard in signs
        invariant guard in signs ==>
          exists k :: k in done && records[k].state == Signed && records[k].kind == Sign(guard)
        decreases |todo|
      {
        var k :| k in todo;
        todo := todo - {k};
        done := done + {k};
        assert k in Range(target);
        if records[k].state != Created && records[k].state != Signed {
          return false;
        }
        if records[k].state == Signed {
          if !records[k].kind.Sign? {
            return false;
          }
          signs := signs + {records[k].kind.guard};
        }
      }
      assert done == Range(target);
      ok := guard !in signs;
    }

    /** Only the first id is looked at; the record it relates to is the one combined. */
    method EvaluateCombineSigns(id: TxId, signs: seq<TxId>, foreign: ForeignId) returns (ok: bool)
      requires signs != []
      ensures ok == Accepted(View(), CombineSigns(id, signs, foreign))
    {
      if signs[0] !in records || records[signs[0]].relate == None {
        return false;
      }
      var w := records[signs[0]].relate.value;
      if w !in records || id in records {
        return false;
      }
      ok := AllInState(Origins(records[w]), Created);
    }

    /** The index yields combinations of the foreign transaction only. */
    method EvaluateConfirmResult(foreign: ForeignId, combine: TxId) returns (ok: bool)
      ensures ok == Accepted(View(), ConfirmResult(foreign, combine))
    {
      if combine !in records || !records[combine].kind.Combine? || records[combine].foreign != foreign {
        return false;
      }
      if records[combine].relate == None || records[combine].relate.value !in records {
        return false;
      }
      var origins := Origins(records[records[combine].relate.value]);
      for i := 0 to |origins|
        invariant forall o :: o in origins[..i] ==> o in records
      {
        if origins[i] !in records {
          return false;
        }
      }
      ok := foreign !in acquired || acquired[foreign] == AcquiredUncreated;
    }

    method Evaluate(op: Op) returns (ok: bool)
      requires Defined(op)
      ensures ok == Accepted(View(), op)
    {
      hide AmountIn, Withdrawable;
      match op
      case Deposit(f, owner, asset, amount) =>
        ok := !Spent(acquired, f) && asset in supply && CanAdjust(balances, owner, asset, amount);
      case Withdraw(id, owner, asset, symbol, text) =>
        ok := id !in records && asset in supply && Withdrawable(assets, asset, text) &&
              CanAdjust(balances, owner, asset, -AmountIn(assets, asset, text));
      case CreateWithoutSign(id, origins, symbol, asset, feeAsset, fee) =>
        ok := EvaluateCreateWithoutSign(id, origins, symbol, asset, feeAsset, fee);
      case AddSign(id, target, guard) =>
        ok := EvaluateAddSign(id, target, guard);
      case CombineSigns(id, signs, f) =>
        ok := EvaluateCombineSigns(id, signs, f);
      case ConfirmResult(f, c) =>
        ok := EvaluateConfirmResult(f, c);
      case ColdHotResult(f, asset) =>
        ok := !Spent(acquired, f) && asset in supply;
      case Observe(f) =>
        ok := f !in acquired;
      case MarkFailed(f) =>
        ok := f in acquired;
    }

    /** The open signatures, grouped by the record they sign. */
    method OpenSigns() returns (groups: map<TxId, seq<TxId>>)
      ensures forall w :: w in groups <==> RelatedIn(records, w, Signed) != {}
      ensures forall w :: w in groups ==> IsGroup(records, w, groups[w])
    {
      groups := map[];
      var todo := records.Keys;
      while todo != {}
        invariant todo <= records.Keys
        invariant forall w :: GroupedBut(records, groups, todo, w)
        decreases |todo|
      {
        var k :| k in todo;
        if records[k].state == Signed && records[k].relate.Some? {
          var w := records[k].relate.value;
          var group := if w in groups then groups[w] else [];
          var grown := groups[w := group + [k]];
          GroupGrows(records, groups, grown, w, todo, todo - {k}, k);
          groups := grown;
        } else {
          GroupsStay(records, groups, todo, todo - {k}, k);
        }
        todo := todo - {k};
      }
      forall w
        ensures w in groups <==> RelatedIn(records, w, Signed) != {}
        ensures w in groups ==> IsGroup(records, w, groups[w])
      {
        assert GroupedBut(records, groups, {}, w);
        assert RelatedIn(records, w, Signed) - {} == RelatedIn(records, w, Signed);
      }
    }

    // ----- Application -----

    /** Every claimed withdrawal is moved; the first one also creates the record. */
    method ApplyCreateWithoutSign(id: TxId, origins: seq<TxId>, symbol: Asset, asset: Asset, feeAsset: Asset, fee: int)
      requires origins != [] && Accepted(View(), CreateWithoutSign(id, origins, symbol, asset, feeAsset, fee))
      modifies this
      ensures View() == Effect(old(View()), CreateWithoutSign(id, origins, symbol, asset, feeAsset, fee))
    {
      ghost var R := records;
      var created := Record(WithoutSign(origins, symbol, asset, 0, 0), Some(origins[0]), Created, "");
      for i := 0 to |origins|
        invariant View() == old(View()).(records := records)
        invariant records == ClaimedSoFar(R, origins[..i], id, created)
      {
        ClaimedOneMore(R, origins, i, id, created);
        records := records[origins[i] := records[origins[i]].(state := Created)];
        if id !in records {
          records := records[id := created];
        }
      }
      assert origins[..|origins|] == origins;
      records := records[id := records[id].(kind := WithoutSign(origins, symbol, asset, feeAsset, fee))];
      supply := Plus(supply, asset, fee);
    }

    /** Moves the withdrawals of a without-sign record and, for a combination, notes
        the foreign transaction on them. */
    method MoveUsers(users: seq<TxId>, s: TrxState, foreign: Option<ForeignId>)
      requires forall u :: u in users ==> u in records
      modifies `records
      ensures records == UsersMoved(old(records), Members(users), s, foreign)
    {
      ghost var R := records;
      for i := 0 to |users|
        invariant records == UsersMoved(R, Members(users[..i]), s, foreign)
      {
        var r := records[users[i]].(state := s);
        if foreign.Some? {
          r := r.(foreign := foreign.value);
        }
        UsersMovedOneMore(R, Members(users[..i]), users[i], s, foreign);
        records := records[users[i] := r];
        assert Members(users[..i + 1]) == Members(users[..i]) + {users[i]};
      }
      assert users[..|users|] == users;
    }

    /** Moves the related records that are in state `from`. */
    method MoveRelated(target: TxId, from: TrxState, s: TrxState)
      requires from != s
      modifies `records
      ensures records == Moved(old(records), RelatedIn(old(records), target, from), s)
    {
      hide Moved;
      ghost var R := records;
      var todo := Range(target);
      NothingMoved(R, s);
      while todo != {}
        invariant forall k :: k in todo ==> k in R && Relates(R[k], target)
        invariant records == Moved(R, RelatedIn(R, target, from) - todo, s)
        decreases |todo|
      {
        var k :| k in todo;
        assert k in R;
        RelatedOneMore(R, target, from, todo, k, s);
        todo := todo - {k};
        if records[k].state == from {
          records := records[k := records[k].(state := s)];
        }
      }
      assert RelatedIn(R, target, from) - {} == RelatedIn(R, target, from);
    }

    method ApplyCombineSigns(id: TxId, signs: seq<TxId>, foreign: ForeignId)
      requires Accepted(View(), CombineSigns(id, signs, foreign))
      modifies this
      ensures View() == Effect(old(View()), CombineSigns(id, signs, foreign))
    {
      ghost var R := records;
      var w := records[signs[0]].relate.value;
      records := records[w := records[w].(state := Combined)];
      MoveUsers(Origins(records[w]), Combined, Some(foreign));
      MoveRelated(w, Signed, Combined);
      records := records[id := Record(Combine, Some(w), Combined, foreign)];
      CombineLoops(R, w, foreign);
    }

    method ApplyConfirmResult(foreign: ForeignId, combine: TxId)
      requires Accepted(View(), ConfirmResult(foreign, combine))
      modifies this
      ensures View() == Effect(old(View()), ConfirmResult(foreign, combine))
    {
      hide UsersMoved, RecordsAfterResult, Moved;
      ghost var R := records;
      var w := records[combine].relate.value;
      var kept := records[w].kind;
      acquired := acquired[foreign := AcquiredConfirmed];
      records := records[w := records[w].(state := Confirmed)];
      MoveUsers(Origins(records[w]), Confirmed, None);
      MoveRelated(w, Combined, Confirmed);
      collected := if kept.WithoutSign? then Plus(collected, kept.feeAsset, kept.fee) else Plus(collected, 0, 0);
      ResultLoops(R, w);
    }

    /** Evaluates an operation and, if it is accepted, applies it, whoever built it. */
    method Perform(op: Op) returns (ok: bool)
      requires Defined(op)
      modifies this
      ensures ok == Accepted(old(View()), op)
      ensures View() == if ok then Effect(old(View()), op) else old(View())
      ensures ok ==> forall o: Address, a: Asset ::
        BalanceOf(balances, o, a) == BalanceOf(old(balances), o, a) + Ledger.Credit(assets, op, o, a)
      ensures ok ==> forall a :: Get(supply, a) == Get(old(supply), a) + Ledger.Issue(old(View()), op, a)
      ensures ok ==> forall a :: Get(collected, a) == Get(old(collected), a) + Ledger.Collection(old(View()), op, a)
    {
      hide AmountIn, Withdrawable, Ledger.Credit, Ledger.Issue, Ledger.Collection, Get, BalanceOf;
      ok := Evaluate(op);
      if !ok {
        return;
      }
      PerformMoves(View(), op);
      match op
      case Deposit(f, owner, asset, amount) =>
        balances := Adjusted(balances, owner, asset, amount);
        acquired := acquired[f := AcquiredCreated];
        supply := Plus(supply, asset, amount);
      case Withdraw(id, owner, asset, symbol, text) =>
        var amount := AmountIn(assets, asset, text);
        balances := Adjusted(balances, owner, asset, -amount);
        records := records[id := Record(Withdrawal(owner, asset, amount, symbol, text), None, Uncreated, "")];
        supply := Plus(supply, asset, -amount);
      case CreateWithoutSign(id, origins, symbol, asset, feeAsset, fee) =>
        ApplyCreateWithoutSign(id, origins, symbol, asset, feeAsset, fee);
      case AddSign(id, target, guard) =>
        records := records[id := Record(Sign(guard), Some(target), Signed, "")];
      case CombineSigns(id, signs, f) =>
        ApplyCombineSigns(id, signs, f);
      case ConfirmResult(f, c) =>
        ApplyConfirmResult(f, c);
      case ColdHotResult(f, asset) =>
        acquired := acquired[f := AcquiredConfirmed];
        var pool := Get(feePool, asset);
        supply := Plus(supply, asset, -pool);
        collected := Plus(collected, asset, -pool);
      case Observe(f) =>
        acquired := acquired[f := AcquiredUncreated];
      case MarkFailed(f) =>
        acquired := acquired[f := AcquiredFailure];
    }

    /** Takes the operations offered one after the other and applies those accepted. When
        builders made them, they are a run of the protocol: from a state of the invariant it
        ends in one, and if fees are in their own asset, every asset is conserved. */
    method PerformAll(ops: seq<Op>) returns (done: seq<Op>)
      requires AllDefined(ops)
      modifies this
      ensures done == Performed(old(View()), ops) && View() == After(old(View()), ops)
      ensures old(Built(View(), ops)) ==> Runs(old(View()), done) && View() == Final(old(View()), done)
      ensures old(Built(View(), ops) && Inv(View())) ==> Inv(View())
      ensures old(Built(View(), ops) && Inv(View())) && (forall op :: op in done ==> FeeInOwnAsset(op)) ==>
        forall a :: Drift(View(), a) == Drift(old(View()), a)
    {
      hide Effect, Accepted, Inv, Drift, Defined;
      done := [];
      ghost var start := View();
      for i := 0 to |ops|
        invariant done + Performed(View(), ops[i..]) == Performed(start, ops)
        invariant After(View(), ops[i..]) == After(start, ops)
      {
        assert ops[i..][1..] == ops[i + 1..];
        var ok := Perform(ops[i]);
        if ok {
          done := done + [ops[i]];
        }
      }
      assert ops[|ops|..] == [] && done + [] == done;
      if Built(start, ops) {
        BuiltRuns(start, ops);
        if Inv(start) {
          RunConservesAll(start, done);
        }
      }
    }
  }

  lemma PerformMoves(db: Db, op: Op)
    requires Accepted(db, op) && Defined(op)
    ensures var after := Effect(db, op);
      after.assets == db.assets &&
      (forall o: Address, a: Asset ::
        BalanceOf(after.balances, o, a) == BalanceOf(db.balances, o, a) + Ledger.Credit(db.assets, op, o, a)) &&
      (forall a :: Get(after.supply, a) == Get(db.supply, a) + Ledger.Issue(db, op, a)) &&
      (forall a :: Get(after.collected, a) == Get(db.collected, a) + Ledger.Collection(db, op, a))
  {
    hide Effect, Accepted, Defined;
    Ledger.Moves(db, op, 0, 0);
    forall o: Address, a: Asset
      ensures BalanceOf(Effect(db, op).balances, o, a) ==
              BalanceOf(db.balances, o, a) + Ledger.Credit(db.assets, op, o, a)
    {
      Ledger.Moves(db, op, o, a);
    }
    forall a
      ensures Get(Effect(db, op).supply, a) == Get(db.supply, a) + Ledger.Issue(db, op, a)
      ensures Get(Effect(db, op).collected, a) == Get(db.collected, a) + Ledger.Collection(db, op, a)
    {
      Ledger.Moves(db, op, 0, a);
    }
  }

  predicate AllDefined(ops: seq<Op>) {
    forall op :: op in ops ==> Defined(op)
  }

  /** The operations that are accepted when their turn comes. */
  ghost function Performed(db: Db, ops: seq<Op>): seq<Op>
    requires AllDefined(ops)
    decreases |ops|
  {
    if ops == [] then []
    else if Accepted(db, ops[0]) then [ops[0]] + Performed(Effect(db, ops[0]), ops[1..])
    else Performed(db, ops[1..])
  }

  /** The state they lead to. */
  ghost function After(db: Db, ops: seq<Op>): Db
    requires AllDefined(ops)
    decreases |ops|
  {
    if ops == [] then db
    else if Accepted(db, ops[0]) then After(Effect(db, ops[0]), ops[1..])
    else After(db, ops[1..])
  }

  /** Builders made every operation that is accepted. */
  ghost predicate Built(db: Db, ops: seq<Op>)
    requires AllDefined(ops)
    decreases |ops|
  {
    ops == [] ||
    if Accepted(db, ops[0]) then FromBuilder(db, ops[0]) && Built(Effect(db, ops[0]), ops[1..])
    else Built(db, ops[1..])
  }

  lemma {:induction false} BuiltRuns(db: Db, ops: seq<Op>)
    requires AllDefined(ops) && Built(db, ops)
    ensures Runs(db, Performed(db, ops)) && Final(db, Performed(db, ops)) == After(db, ops)
    decreases |ops|
  {
    hide Effect, Accepted, FromBuilder, Defined;
    if ops != [] {
      if Accepted(db, ops[0]) {
        BuiltRuns(Effect(db, ops[0]), ops[1..]);
        var rest := Performed(Effect(db, ops[0]), ops[1..]);
        assert ([ops[0]] + rest)[1..] == rest;
      } else {
        BuiltRuns(db, ops[1..]);
      }
    }
  }

  lemma RunConservesAll(db: Db, ops: seq<Op>)
    requires Inv(db) && Runs(db, ops)
    ensures Inv(Final(db, ops))
    ensures (forall op :: op in ops ==> FeeInOwnAsset(op)) ==> forall a :: Drift(Final(db, ops), a) == Drift(db, a)
  {
    hide Inv, Drift, Runs, Final;
    RunKeeps(db, ops);
    if forall op :: op in ops ==> FeeInOwnAsset(op) {
      forall a
        ensures Drift(Final(db, ops), a) == Drift(db, a)
      {
        RunConserves(db, ops, a);
      }
    }
  }

  function UsersMoved(R: Records, keys: set<TxId>, s: TrxState, foreign: Option<ForeignId>): Records {
    var moved := Moved(R, keys, s);
    if foreign.Some? then WithForeign(moved, keys * R.Keys, foreign.value) else moved
  }

  lemma UsersMovedOneMore(R: Records, keys: set<TxId>, u: TxId, s: TrxState, foreign: Option<ForeignId>)
    requires u in R && u in UsersMoved(R, keys, s, foreign)
    ensures var R' := UsersMoved(R, keys, s, foreign);
      var r := if foreign.Some? then R'[u].(state := s, foreign := foreign.value) else R'[u].(state := s);
      UsersMoved(R, keys + {u}, s, foreign) == R'[u := r]
  {
  }

  lemma NothingMoved(R: Records, s: TrxState)
    ensures forall keys: set<TxId> :: keys !! R.Keys ==> Moved(R, keys, s) == R
    ensures forall target, from ::
      Moved(R, RelatedIn(R, target, from) - (set k | k in R && Relates(R[k], target)), s) == R
  {
  }

  /** One more record of the range has been visited. */
  lemma RelatedOneMore(R: Records, target: TxId, from: TrxState, todo: set<TxId>, k: TxId, s: TrxState)
    requires k in todo && k in R && Relates(R[k], target) && from != s
    ensures var R' := Moved(R, RelatedIn(R, target, from) - todo, s);
      k in R' && R'[k] == R[k] &&
      Moved(R, RelatedIn(R, target, from) - (todo - {k}), s)
        == if R[k].state == from then R'[k := R[k].(state := s)] else R'
  {
    var a, b := RelatedIn(R, target, from) - todo, RelatedIn(R, target, from) - (todo - {k});
    assert b == if R[k].state == from then a + {k} else a;
  }

  /** The three loops of a combination have the effect of moving all records at once. */
  lemma CombineLoops(R: Records, w: TxId, f: ForeignId)
    requires w in R
    ensures var R1 := R[w := R[w].(state := Combined)];
      var users := Members(Origins(R[w]));
      var R2 := UsersMoved(R1, users, Combined, Some(f));
      Moved(R2, RelatedIn(R2, w, Signed), Combined)
        == WithForeign(Moved(R, {w} + users + RelatedIn(R, w, Signed), Combined), users, f)
  {
  }

  lemma ResultLoops(R: Records, w: TxId)
    requires w in R
    ensures var R1 := R[w := R[w].(state := Confirmed)];
      var R2 := UsersMoved(R1, Members(Origins(R[w])), Confirmed, None);
      Moved(R2, RelatedIn(R2, w, Combined), Confirmed) == RecordsAfterResult(R, w)
  {
  }

  /** `group` lists the open signatures on `w`, each once. */
  predicate IsGroup(R: Records, w: TxId, group: seq<TxId>) {
    NoRepeats(group) && Members(group) == RelatedIn(R, w, Signed)
  }

  /** The group of `w` is complete but for the records in `todo`. */
  predicate GroupedBut(R: Records, groups: map<TxId, seq<TxId>>, todo: set<TxId>, w: TxId) {
    var seen := RelatedIn(R, w, Signed) - todo;
    if w in groups then seen != {} && NoRepeats(groups[w]) && Members(groups[w]) == seen else seen == {}
  }

  lemma GroupGrows(R: Records, groups: map<TxId, seq<TxId>>, groups': map<TxId, seq<TxId>>, w: TxId, todo: set<TxId>,
                   todo': set<TxId>, k: TxId)
    requires forall w :: GroupedBut(R, groups, todo, w)
    requires k in todo && todo' == todo - {k} && k in R && R[k].state == Signed && R[k].relate == Some(w)
    requires groups' == groups[w := (if w in groups then groups[w] else []) + [k]]
    ensures forall v :: GroupedBut(R, groups', todo', v)
  {
    var group := if w in groups then groups[w] else [];
    forall v
      ensures GroupedBut(R, groups', todo', v)
    {
      assert GroupedBut(R, groups, todo, v);
      var seen := RelatedIn(R, v, Signed) - todo;
      if v == w {
        assert RelatedIn(R, v, Signed) - (todo - {k}) == seen + {k};
        assert Members(group) == seen;
        assert Members(group + [k]) == Members(group) + {k};
        assert k !in Members(group);
      } else {
        assert RelatedIn(R, v, Signed) - (todo - {k}) == seen;
      }
    }
  }

  lemma GroupsStay(R: Records, groups: map<TxId, seq<TxId>>, todo: set<TxId>, todo': set<TxId>, k: TxId)
    requires forall w :: GroupedBut(R, groups, todo, w)
    requires k in todo && todo' == todo - {k} && k in R && !(R[k].state == Signed && R[k].relate.Some?)
    ensures forall v :: GroupedBut(R, groups, todo', v)
  {
    forall v
      ensures GroupedBut(R, groups, todo', v)
    {
      assert GroupedBut(R, groups, todo, v);
      assert RelatedIn(R, v, Signed) - (todo - {k}) == RelatedIn(R, v, Signed) - todo;
    }
  }

  function GuardOf(R: Records, k: TxId): Guard {
    if k in R && R[k].kind.Sign? then R[k].kind.guard else 0
  }

  function GuardsOf(R: Records, group: seq<TxId>): set<Guard> {
    set k | k in group :: GuardOf(R, k)
  }

  /** How many signatures a combination waits for. */
  function Quorum(guards: nat): nat {
    guards * 2 / 3 + 1
  }

  lemma {:induction false} DistinctGuards(R: Records, w: TxId, group: seq<TxId>)
    requires OneSignPerGuard(R) && NoRepeats(group)
    requires forall k :: k in group ==> IsSign(R, k, w)
    ensures |GuardsOf(R, group)| == |group|
  {
    if group == [] {
      assert GuardsOf(R, group) == {};
    } else {
      var rest, k := group[..|group| - 1], group[|group| - 1];
      DistinctGuards(R, w, rest);
      assert IsSign(R, k, w);
      forall j | j in rest
        ensures GuardOf(R, j) != GuardOf(R, k)
      {
        assert IsSign(R, j, w);
      }
      assert GuardsOf(R, group) == GuardsOf(R, rest) + {GuardOf(R, k)};
    }
  }

  lemma OnlySignsAreSigned(R: Records, k: TxId, w: TxId)
    requires RecordsInv(R) && k in R && R[k].state == Signed && Relates(R[k], w)
    ensures IsSign(R, k, w)
  {
    assert LinkOk(R, k);
    assert !Combines(R, k, w) || LinkOk(R, w);
  }

  lemma GroupIsSigned(R: Records, w: TxId, group: seq<TxId>)
    requires RecordsInv(R) && IsGroup(R, w, group)
    ensures |GuardsOf(R, group)| == |group|
  {
    forall k | k in group
      ensures IsSign(R, k, w)
    {
      assert k in Members(group);
      OnlySignsAreSigned(R, k, w);
    }
    DistinctGuards(R, w, group);
  }

  lemma SplitCount<T>(a: set<T>, b: set<T>)
    ensures |a| == |a * b| + |a - b|
  {
    assert a == a * b + (a - b);
  }

  /** In every reachable state the signatures of a group are those of as many guards. The
      test compares their number with the present guards, and signatures of former guards
      are not sorted out: more than two thirds of the present guards have signed exactly
      when the group passes the test without the former ones. */
  lemma QuorumOfGuards(R: Records, w: TxId, group: seq<TxId>, guards: set<Guard>)
    requires RecordsInv(R) && IsGroup(R, w, group)
    ensures var signers := GuardsOf(R, group);
      |signers| == |group| &&
      (3 * |signers * guards| > 2 * |guards| <==> |group| - |signers - guards| >= Quorum(|guards|))
  {
    GroupIsSigned(R, w, group);
    SplitCount(GuardsOf(R, group), guards);
  }

  /** So when every signer is still a guard, passing the test takes more than two thirds. */
  lemma QuorumOfPresentGuards(R: Records, w: TxId, group: seq<TxId>, guards: set<Guard>)
    requires RecordsInv(R) && IsGroup(R, w, group) && |group| >= Quorum(|guards|) && GuardsOf(R, group) <= guards
    ensures 3 * |GuardsOf(R, group) * guards| > 2 * |guards|
  {
    QuorumOfGuards(R, w, group, guards);
    assert GuardsOf(R, group) - guards == {};
  }
}
