/** Inputs on which the cross-chain protocol does less than expected. */
module CrossChainCases {
  import opened Sums
  import opened Balances
  import opened Commons
  import opened CrossChain
  import opened WithoutSignCheck
  import opened CrossChainSolvency
  import opened CrossChainDatabase
  import opened AmountText
  import AmountValue

  // ----- Numbers and sheets -----

  lemma TwoDigits(s: string)
    requires |s| == 2 && AllDigits(s)
    ensures Value(s) == 10 * DigitValue(s[0]) + DigitValue(s[1])
  {
    assert s[..1][..0] == "" && s[..1] == [s[0]];
    assert Value(s[..1]) == DigitValue(s[0]);
  }

  lemma OneDigit(s: string)
    requires |s| == 1 && AllDigits(s)
    ensures Value(s) == DigitValue(s[0])
  {
    assert s[..0] == "";
  }

  lemma ReadNumber(asset: AssetRef, s: string)
    requires AllDigits(s) && asset.maxSupply == 1000 && asset.precision <= 1 && Value(s) <= 100
    ensures Read(asset, s) == Ok(if asset.precision == 0 then Value(s) else 10 * Value(s))
  {
    hide Parsed, Value;
    ReadWhole(asset.precision, asset.maxSupply, s);
    assert Pow10(0) == 1 && Pow10(1) == 10;
  }

  /** The small numbers used below, with no decimals and with one. */
  lemma Numbers(asset: AssetRef)
    requires asset.maxSupply == 1000 && asset.precision <= 1
    ensures var unit := if asset.precision == 0 then 1 else 10;
      Read(asset, "0") == Ok(0) && Read(asset, "5") == Ok(5 * unit) && Read(asset, "9") == Ok(9 * unit) &&
      Read(asset, "10") == Ok(10 * unit) && Read(asset, "15") == Ok(15 * unit) && Read(asset, "18") == Ok(18 * unit)
  {
    hide Read, Value;
    OneDigit("0");
    OneDigit("5");
    OneDigit("9");
    TwoDigits("10");
    TwoDigits("15");
    TwoDigits("18");
    ReadNumber(asset, "0");
    ReadNumber(asset, "5");
    ReadNumber(asset, "9");
    ReadNumber(asset, "10");
    ReadNumber(asset, "15");
    ReadNumber(asset, "18");
  }

  /** The check of withdrawals that all go to one destination. */
  lemma OneDestination(items: seq<Item>, payouts: Payouts, rules: Rules, kept: int, network: string)
    requires items != [] && forall i :: 0 <= i < |items| ==> items[i].to == "d"
    requires payouts.Keys == {"d"} && Readable(payouts, rules, network) && kept >= 0
    requires TotalAmount(items) == Read(rules.bySymbol, payouts["d"]).value + |items| * rules.fee
    requires TotalAmount(items) == Read(rules.byId, payouts["d"]).value + kept + Read(rules.byId, network).value
    ensures Passes(items, payouts, rules, kept, network)
    ensures TotalRead(rules.bySymbol, payouts) == Read(rules.bySymbol, payouts["d"]).value
  {
    hide Read;
    assert Destinations(items) == {"d"} by {
      assert items[0].to == "d";
    }
    GroupsAddUp(items, {"d"});
    OneSummand(d => AmountTo(items, d));
    OneSummand(d => CountTo(items, d));
    OneSummand(d => ReadOf(rules.bySymbol, payouts, d));
    OneSummand(d => ReadOf(rules.byId, payouts, d));
  }

  lemma OneSummand(f: Destination -> int)
    ensures Sum({"d"}, f) == f("d")
  {
    SumPick({"d"}, f, "d");
    assert {"d"} - {"d"} == {};
  }

  function ToOne(u: TxId): Destination { "d" }

  // ----- Solvency -----

  /** The full check of a record with one destination. */
  lemma OneOutput(R: Records, assets: Assets, k: Kind, sheet: Sheet, total: int)
    requires KnownAssets(assets, k) && k.origins != [] && k.fee >= 0
    requires forall u :: u in k.origins ==>
      u in R && R[u].kind.Withdrawal? && R[u].kind.symbol == k.symbol && Read(assets[k.symbol], R[u].kind.text).Ok?
    requires sheet.payouts.Keys == {"d"} && Readable(sheet.payouts, RulesFor(assets, k, sheet), sheet.network)
    requires Read(assets[k.symbol], sheet.network).Ok? && TotalAmount(ItemsFor(R, assets, ToOne, k)) == total
    requires total == Read(assets[k.symbol], sheet.payouts["d"]).value + |k.origins| * sheet.pool
    requires total ==
      Read(assets[k.asset], sheet.payouts["d"]).value + k.fee + Read(assets[k.asset], sheet.network).value
    ensures Checked(R, assets, ToOne, k, sheet)
    ensures Abroad(assets, k, sheet) ==
      Read(assets[k.symbol], sheet.payouts["d"]).value + Read(assets[k.symbol], sheet.network).value
  {
    hide Parsed, Passes, AmountValue.UnitsOf;
    OneDestination(ItemsFor(R, assets, ToOne, k), sheet.payouts, RulesFor(assets, k, sheet), k.fee, sheet.network);
    AmountValue.UnitsOfRead(assets[k.symbol].precision, assets[k.symbol].maxSupply, sheet.network);
  }

  lemma OneItem(items: seq<Item>, x: int)
    requires items == [Item("d", x)]
    ensures TotalAmount(items) == x
  {
    assert items[..0] == [];
  }

  lemma TwoItems(items: seq<Item>, x: int, y: int)
    requires items == [Item("d", x), Item("d", y)]
    ensures TotalAmount(items) == x + y
  {
    OneItem([Item("d", x)], x);
    assert items[..1] == [Item("d", x)];
  }

  lemma OneTaken(R: Records, origins: seq<TxId>, u: TxId, a: Asset)
    requires Members(origins) == {u}
    ensures Taken(R, origins, a) == Debit(R, a, u)
  {
    SumPick({u}, v => Debit(R, a, v), u);
    assert {u} - {u} == {};
  }

  function OneRecord(asset: Asset, amount: int, symbol: Asset, text: string): Records {
    map[3 := Record(Withdrawal(7, asset, amount, symbol, text), None, Uncreated, "")]
  }

  function Holding(records: Records, assets: Assets): Db {
    Db(records, map[], map[], map[1 := 100, 2 := 100], map[], map[], assets)
  }

  lemma OneRecordInv(r: Record, assets: Assets)
    requires r.kind.Withdrawal? && r.relate == None && r.state == Uncreated
    ensures Inv(Holding(map[3 := r], assets))
  {
    assert LinkOk(map[3 := r], 3);
  }

  /** A withdrawal of 10 named twice passes every check, and 20 leave for it. */
  lemma RepeatAccepted(db: Db, op: Op, sheet: Sheet)
    requires db == Holding(OneRecord(1, 10, 1, "10"), map[1 := AssetRef(0, 1000)])
    requires op == CreateWithoutSign(4, [3, 3], 1, 1, 1, 2) && sheet == Sheet(map["d" := "18"], "0", 1)
    ensures Inv(db) && Enabled(db, op) && Checked(db.records, db.assets, ToOne, KindOf(op), sheet)
    ensures Paid(db.assets, KindOf(op), sheet, 1) == 20 && Taken(db.records, op.origins, 1) == 10
  {
    hide Read, Checked, RecordsInv, Abroad, Taken;
    OneRecordInv(db.records[3], db.assets);
    Numbers(db.assets[1]);
    TwoItems(ItemsFor(db.records, db.assets, ToOne, KindOf(op)), 10, 10);
    OneOutput(db.records, db.assets, KindOf(op), sheet, 20);
    OneTaken(db.records, op.origins, 3, 1);
  }

  /** A withdrawal of 100 units of asset 1, paid out in an operation whose symbol names
      asset 1 and whose id asset 2 with less precision: 90 leave in asset 1, and 91 are kept
      back in asset 2. */
  lemma PrecisionPaysMore(db: Db, op: Op, sheet: Sheet)
    requires db == Holding(OneRecord(1, 100, 1, "10"), map[1 := AssetRef(1, 1000), 2 := AssetRef(0, 1000)])
    requires op == CreateWithoutSign(4, [3], 1, 2, 2, 91) && sheet == Sheet(map["d" := "9"], "0", 10)
    ensures Inv(db) && Enabled(db, op) && Checked(db.records, db.assets, ToOne, KindOf(op), sheet)
    ensures NoRepeats(op.origins) && OwnAssets(db.records, op.origins)
    ensures Paid(db.assets, KindOf(op), sheet, 1) == 90 && Taken(db.records, op.origins, 1) == 100
    ensures Paid(db.assets, KindOf(op), sheet, 2) == 91 && Taken(db.records, op.origins, 2) == 0
  {
    hide Read, Checked, RecordsInv, Abroad, Taken;
    OneRecordInv(db.records[3], db.assets);
    Numbers(db.assets[1]);
    Numbers(db.assets[2]);
    OneItem(ItemsFor(db.records, db.assets, ToOne, KindOf(op)), 100);
    OneOutput(db.records, db.assets, KindOf(op), sheet, 100);
    OneTaken(db.records, op.origins, 3, 1);
    OneTaken(db.records, op.origins, 3, 2);
  }

  /** A withdrawal that debits 10 of asset 2 under the symbol of asset 1 is accepted and paid
      out: 10 leave in asset 1, where nothing was taken. */
  lemma WrongSymbolAccepted(db: Db, withdraw: Op, op: Op, sheet: Sheet)
    requires db == Holding(map[], map[1 := AssetRef(0, 1000), 2 := AssetRef(0, 1000)]).(balances := map[(7, 2) := 10])
    requires withdraw == Withdraw(3, 7, 2, 1, "10")
    requires op == CreateWithoutSign(4, [3], 1, 1, 1, 1) && sheet == Sheet(map["d" := "9"], "0", 1)
    ensures Inv(db) && Enabled(db, withdraw)
    ensures var R := Apply(db, withdraw).records;
      Enabled(Apply(db, withdraw), op) && Checked(R, db.assets, ToOne, KindOf(op), sheet) &&
      Paid(db.assets, KindOf(op), sheet, 1) == 10 && Taken(R, op.origins, 1) == 0 && Taken(R, op.origins, 2) == 10
  {
    hide Read, Checked, RecordsInv, Abroad, Taken;
    EmptyInv(db);
    Numbers(db.assets[1]);
    Numbers(db.assets[2]);
    NoPoint("10");
    var R := Apply(db, withdraw).records;
    assert R == OneRecord(2, 10, 1, "10");
    OneItem(ItemsFor(R, db.assets, ToOne, KindOf(op)), 10);
    OneOutput(R, db.assets, KindOf(op), sheet, 10);
    OneTaken(R, op.origins, 3, 1);
    OneTaken(R, op.origins, 3, 2);
  }

  lemma NoPoint(s: string)
    requires AllDigits(s)
    ensures PointAt(s) == |s|
  {
    DigitsPointAt(s, "");
  }

  /** Two faults can make up for each other: of two withdrawals under the symbol of asset 1
      the second debits asset 2, and the fee kept back in asset 2 is what it debited. */
  lemma FaultsOffset(R: Records, assets: Assets, k: Kind, sheet: Sheet)
    requires R == OneRecord(1, 15, 1, "15")[5 := Record(Withdrawal(8, 2, 5, 1, "5"), None, Uncreated, "")]
    requires assets == map[1 := AssetRef(0, 1000), 2 := AssetRef(0, 1000)]
    requires k == WithoutSign([3, 5], 1, 2, 2, 5) && sheet == Sheet(map["d" := "10"], "5", 5)
    ensures AmountsRead(R, assets) && Checked(R, assets, ToOne, k, sheet) && Balanced(R, assets, k, sheet)
    ensures !OwnAssets(R, k.origins) && k.symbol != k.asset
  {
    hide Read, Checked, Abroad, Taken, Balanced;
    Numbers(assets[1]);
    TwoItems(ItemsFor(R, assets, ToOne, k), 15, 5);
    OneOutput(R, assets, k, sheet, 20);
    TwoTaken(R, k.origins, 1);
    TwoTaken(R, k.origins, 2);
    AmountsOf(R, assets);
    PaidInTwoAssets(R, assets, ToOne, k, sheet);
    assert !OwnAssets(R, k.origins) by {
      assert 5 in k.origins && R[5].kind.symbol != R[5].kind.asset;
    }
  }

  lemma TwoTaken(R: Records, origins: seq<TxId>, a: Asset)
    requires origins == [3, 5]
    ensures Taken(R, origins, a) == Debit(R, a, 3) + Debit(R, a, 5)
  {
    assert Members(origins) == {3, 5};
    SumPick({3, 5}, v => Debit(R, a, v), 3);
    assert {3 as TxId, 5} - {3} == {5};
    OneTaken(R, [5], 5, a);
    assert Members([5 as TxId]) == {5};
  }

  lemma AmountsOf(R: Records, assets: Assets)
    requires R == OneRecord(1, 15, 1, "15")[5 := Record(Withdrawal(8, 2, 5, 1, "5"), None, Uncreated, "")]
    requires assets == map[1 := AssetRef(0, 1000), 2 := AssetRef(0, 1000)]
    ensures AmountsRead(R, assets)
  {
    hide Read;
    Numbers(assets[1]);
  }

  /** A withdrawal of nothing can be named twice: the record pays out what was taken. */
  lemma NothingRepeats(db: Db, op: Op, sheet: Sheet)
    requires db == Holding(OneRecord(1, 0, 1, "0"), map[1 := AssetRef(0, 1000)])
    requires op == CreateWithoutSign(4, [3, 3], 1, 1, 1, 0) && sheet == Sheet(map["d" := "0"], "0", 0)
    ensures Inv(db) && Enabled(db, op) && Checked(db.records, db.assets, ToOne, KindOf(op), sheet)
    ensures AmountsRead(db.records, db.assets) && OwnAssets(db.records, op.origins)
    ensures !NoRepeats(op.origins) && Balanced(db.records, db.assets, KindOf(op), sheet)
  {
    hide Read, Checked, RecordsInv, Abroad, Balanced;
    OneRecordInv(db.records[3], db.assets);
    Numbers(db.assets[1]);
    TwoItems(ItemsFor(db.records, db.assets, ToOne, KindOf(op)), 0, 0);
    OneOutput(db.records, db.assets, KindOf(op), sheet, 0);
    assert Debit(db.records, 1, 3) == 0;
    AgainNothing(op.origins, (u: TxId) => Debit(db.records, 1, u));
    PaidOutExactly(db.records, db.assets, ToOne, KindOf(op), sheet);
    assert op.origins[0] == op.origins[1];
  }

  // ----- Withdrawals below zero -----

  lemma ReadMinusTen(asset: AssetRef)
    requires asset == AssetRef(0, 1000)
    ensures Read(asset, "-10") == Ok(-10)
  {
    Numbers(asset);
    hide Parsed;
    assert "-" + "10" == "-10";
    ReadNegativeWhole(0, 1000, "10");
  }

  /** What the owner credited with 10 has withdrawn. */
  function Credited(symbol: Asset): Records {
    map[3 := Record(Withdrawal(7, 1, -10, symbol, "-10"), None, Uncreated, ""),
        4 := Record(Withdrawal(7, 1, 10, 1, "10"), None, Uncreated, "")]
  }

  /** Withdrawing "-10" credits 10, which the owner can withdraw. */
  lemma CreditWithdrawn(db: Db, symbol: Asset, credit: Op, debit: Op)
    requires db == Holding(map[], map[1 := AssetRef(0, 1000)])
    requires credit == Withdraw(3, 7, 1, symbol, "-10") && debit == Withdraw(4, 7, 1, 1, "10")
    ensures Enabled(db, credit) && Enabled(Apply(db, credit), debit)
    ensures BalanceOf(Apply(db, credit).balances, 7, 1) == 10 && Get(Apply(db, credit).supply, 1) == 110
    ensures Apply(Apply(db, credit), debit).records == Credited(symbol)
    ensures var two := Apply(Apply(db, credit), debit); two.assets == db.assets && 1 in two.supply
    ensures AmountIn(db.assets, 1, "-10") == -10 && AmountIn(db.assets, 1, "10") == 10
  {
    hide Read;
    Numbers(db.assets[1]);
    ReadMinusTen(db.assets[1]);
    NoPoint("10");
    assert PointAt("-10") == 3;
  }

  /** The record that claims only the debit passes the full check. */
  lemma CreditLeftOpen(symbol: Asset, assets: Assets, k: Kind, sheet: Sheet)
    requires assets == map[1 := AssetRef(0, 1000)]
    requires k == WithoutSign([4], 1, 1, 1, 1) && sheet == Sheet(map["d" := "9"], "0", 1)
    ensures Checked(Credited(symbol), assets, ToOne, k, sheet)
  {
    hide Read, Checked;
    Numbers(assets[1]);
    OneItem(ItemsFor(Credited(symbol), assets, ToOne, k), 10);
    OneOutput(Credited(symbol), assets, k, sheet, 10);
  }

  /** The records once the debit is claimed. */
  function CreditClaimed(symbol: Asset): Records {
    map[3 := Record(Withdrawal(7, 1, -10, symbol, "-10"), None, Uncreated, ""),
        4 := Record(Withdrawal(7, 1, 10, 1, "10"), None, Created, ""),
        5 := Record(WithoutSign([4], 1, 1, 1, 1), Some(4), Created, "")]
  }

  lemma CreditClaims(db: Db, symbol: Asset, claim: Op)
    requires db.records == Credited(symbol) && 1 in db.supply && claim == CreateWithoutSign(5, [4], 1, 1, 1, 1)
    ensures Enabled(db, claim) && Apply(db, claim).records == CreditClaimed(symbol)
  {
  }

  lemma CreditTotals(symbol: Asset, assets: Assets, sheet: Sheet)
    requires assets == map[1 := AssetRef(0, 1000)]
    ensures OpenTotal(CreditClaimed(symbol), 1) == -10
    ensures AllExact(CreditClaimed(symbol), assets, ToOne, (w: TxId) => sheet)
  {
    var R := CreditClaimed(symbol);
    assert Opens(R) == {3};
    SumPick({3}, u => Debit(R, 1, u), 3);
    assert {3 as TxId} - {3} == {};
    assert NoRepeats([4]) && OwnAssets(R, [4]) && Positive(R, [4]);
  }

  /** Three operations, of which the last is a without-sign operation. */
  lemma ThreeRun(db: Db, ops: seq<Op>, account: TxId -> Destination, sheets: TxId -> Sheet)
    requires |ops| == 3 && !ops[0].CreateWithoutSign? && !ops[1].CreateWithoutSign? && ops[2].CreateWithoutSign?
    requires Enabled(db, ops[0]) && Enabled(Apply(db, ops[0]), ops[1])
    requires var two := Apply(Apply(db, ops[0]), ops[1]);
      Enabled(two, ops[2]) && Checked(two.records, two.assets, account, KindOf(ops[2]), sheets(ops[2].id))
    ensures Runs(db, ops) && RunChecked(db, ops, account, sheets)
    ensures Final(db, ops) == Apply(Apply(Apply(db, ops[0]), ops[1]), ops[2])
  {
    hide Enabled, Apply, Checked;
    var one, two := Apply(db, ops[0]), Apply(Apply(db, ops[0]), ops[1]);
    var three := Apply(two, ops[2]);
    assert Runs(three, ops[1..][1..][1..]) && RunChecked(three, ops[1..][1..][1..], account, sheets);
    assert Runs(two, ops[1..][1..]) && RunChecked(two, ops[1..][1..], account, sheets);
    assert Runs(one, ops[1..]) && RunChecked(one, ops[1..], account, sheets);
    assert Final(two, ops[1..][1..]) == three;
    assert Final(one, ops[1..]) == three;
  }

  lemma ThreeWithdrawn(assets: Assets, ops: seq<Op>, a: Asset)
    requires |ops| == 3 && ops[0].Withdraw? && ops[1].Withdraw? && !ops[2].Withdraw?
    requires ops[0].asset == ops[1].asset == a
    ensures WithdrawnBy(assets, ops, a) == AmountIn(assets, a, ops[0].text) + AmountIn(assets, a, ops[1].text)
  {
    hide AmountIn;
    assert WithdrawnBy(assets, ops[1..][1..], a) == 0 by {
      assert ops[1..][1..][1..] == [];
    }
  }

  /** Under a symbol without a handle a withdrawal of "-10" is accepted and credits 10; the
      owner withdraws the 10 under the symbol of the asset, and they are paid out. Over the run
      10 leave, and nothing was withdrawn. */
  lemma CreditPaidOut(db: Db, symbol: Asset, ops: seq<Op>, sheet: Sheet)
    requires db == Holding(map[], map[1 := AssetRef(0, 1000)])
    requires ops ==
      [Withdraw(3, 7, 1, symbol, "-10"), Withdraw(4, 7, 1, 1, "10"), CreateWithoutSign(5, [4], 1, 1, 1, 1)]
    requires sheet == Sheet(map["d" := "9"], "0", 1)
    ensures Runs(db, ops) && RunChecked(db, ops, ToOne, (w: TxId) => sheet)
    ensures BalanceOf(Apply(db, ops[0]).balances, 7, 1) == 10
    ensures var R := Final(db, ops).records;
      PaidOut(R, db.assets, (w: TxId) => sheet, 1) == ClaimedTotal(R, 1) == 10 && WithdrawnBy(db.assets, ops, 1) == 0
  {
    CreditWithdrawn(db, symbol, ops[0], ops[1]);
    hide Enabled, Apply, Checked, Runs, Final, RunChecked, AmountIn, WithdrawnBy, PaidOut, ClaimedTotal, OpenTotal,
      AllExact, AllBalanced, AllPlain, NoneBelow;
    var two := Apply(Apply(db, ops[0]), ops[1]);
    CreditLeftOpen(symbol, db.assets, KindOf(ops[2]), sheet);
    CreditClaims(two, symbol, ops[2]);
    var sheets := (w: TxId) => sheet;
    ThreeRun(db, ops, ToOne, sheets);
    ThreeWithdrawn(db.assets, ops, 1);
    CreditTotals(symbol, db.assets, sheet);
    Solvent(db, ops, ToOne, sheets, 1);
  }

  // ----- Operations no builder makes -----

  /** A signature on a withdrawal is accepted, and two accepted operations later the withdrawal
      is confirmed with no record that pays it. */
  lemma SignatureOnWithdrawal(db: Db)
    requires db == Holding(OneRecord(1, 10, 1, "10"), map[])
    ensures Inv(db) && Accepted(db, AddSign(9, 3, 0)) && !FromBuilder(db, AddSign(9, 3, 0))
    ensures var signed := Effect(db, AddSign(9, 3, 0));
      Accepted(signed, CombineSigns(10, [9], "f")) &&
      var combined := Effect(signed, CombineSigns(10, [9], "f"));
      Accepted(combined, ConfirmResult("f", 10)) &&
      var R := Effect(combined, ConfirmResult("f", 10)).records;
      3 in R && R[3].state == Confirmed && forall w :: !Owns(R, w, 3)
  {
    OneRecordInv(db.records[3], map[]);
    hide RecordsInv, Effect, Accepted, FromBuilder;
    ConfirmedUnpaid(db, 3, 0, 9, 10, "f");
  }

  /** A combination that names a without-sign record is accepted and combines the withdrawal
      without it. */
  lemma RecordAsSignature(db: Db)
    requires db == Holding(OneRecord(1, 10, 1, "10"), map[])
    ensures Enabled(db, CreateWithoutSign(4, [3], 1, 1, 1, 0))
    ensures var claimed := Apply(db, CreateWithoutSign(4, [3], 1, 1, 1, 0));
      Inv(claimed) && Accepted(claimed, CombineSigns(10, [4], "f")) &&
      !FromBuilder(claimed, CombineSigns(10, [4], "f")) &&
      var R := Effect(claimed, CombineSigns(10, [4], "f")).records;
      Owns(R, 4, 3) && 3 in R && R[3].state == Combined && R[4].state == Created
  {
    OneRecordInv(db.records[3], map[]);
    hide RecordsInv;
    var claimed := Apply(db, CreateWithoutSign(4, [3], 1, 1, 1, 0));
    ApplyKeeps(db, CreateWithoutSign(4, [3], 1, 1, 1, 0));
    hide Inv, RecordsAfterCombine;
    CombinedAlone(claimed, 10, 4, "f");
  }

  // ----- Former guards -----

  function ClaimedByTwo(): Records {
    map[1 := Record(Withdrawal(7, 1, 10, 1, "10"), None, Created, ""),
        2 := Record(WithoutSign([1], 1, 1, 1, 0), Some(1), Created, "")]
  }

  function SignOfTwo(guard: Guard): Record { Record(Sign(guard), Some(2), Signed, "") }

  /** Signed by guards 1, 2 and 3. */
  function SignedByThree(): Records {
    ClaimedByTwo()[3 := SignOfTwo(1)][4 := SignOfTwo(2)][5 := SignOfTwo(3)]
  }

  lemma ClaimedByTwoInv()
    ensures RecordsInv(ClaimedByTwo())
  {
    var R := ClaimedByTwo();
    assert LinkOk(R, 1) && LinkOk(R, 2);
    assert Owns(R, 2, 1);
  }

  lemma SignedByThreeInv()
    ensures RecordsInv(SignedByThree())
  {
    hide RecordsInv;
    var R := ClaimedByTwo();
    ClaimedByTwoInv();
    SignKeeps(R, 3, 2, 1);
    SignKeeps(R[3 := SignOfTwo(1)], 4, 2, 2);
    SignKeeps(R[3 := SignOfTwo(1)][4 := SignOfTwo(2)], 5, 2, 3);
  }

  /** Three signatures pass the test for three present guards, none of whom has signed. */
  lemma FormerGuards(guards: set<Guard>)
    requires guards == {4, 5, 6}
    ensures var R := SignedByThree();
      RecordsInv(R) && IsGroup(R, 2, [3, 4, 5]) && |[3, 4, 5]| >= Quorum(|guards|) &&
      GuardsOf(R, [3, 4, 5]) * guards == {}
  {
    SignedByThreeInv();
    hide RecordsInv;
    var R := SignedByThree();
    assert Members([3, 4, 5]) == RelatedIn(R, 2, Signed) == {3, 4, 5};
    assert GuardsOf(R, [3, 4, 5]) == {1, 2, 3};
  }
}
