/** What the foreign transactions of all without-sign records pay out, against what the
    withdrawals took from the users' balances, asset by asset. */
module CrossChainSolvency {
  import opened Sums
  import opened Balances
  import opened Commons
  import opened CrossChain
  import opened CrossChainRuns
  import opened WithoutSignCheck
  import AmountSign
  import AmountText
  import AmountValue

  // ----- One without-sign record -----

  /** The foreign transaction of a without-sign record, and the fee for each withdrawal. */
  datatype Sheet = Sheet(payouts: Payouts, network: string, pool: int)

  /** A withdrawal as the check finds it. */
  function ListingOf(R: Records, account: TxId -> Destination, u: TxId): Listing {
    if u in R && R[u].kind.Withdrawal? then Listing(account(u), R[u].kind.symbol, R[u].kind.text)
    else Listing("", 0, "")
  }

  function ListingsOf(R: Records, account: TxId -> Destination, origins: seq<TxId>): seq<Listing> {
    seq(|origins|, i requires 0 <= i < |origins| => ListingOf(R, account, origins[i]))
  }

  predicate KnownAssets(assets: Assets, k: Kind) {
    k.WithoutSign? && k.symbol in assets && k.asset in assets
  }

  function RulesFor(assets: Assets, k: Kind, sheet: Sheet): Rules
    requires KnownAssets(assets, k)
  {
    Rules(assets[k.symbol], assets[k.asset], sheet.pool)
  }

  function ItemsFor(R: Records, assets: Assets, account: TxId -> Destination, k: Kind): seq<Item>
    requires KnownAssets(assets, k)
  {
    Items(ListingsOf(R, account, k.origins), assets[k.symbol])
  }

  /** The full check of the without-sign operation was made and passed. */
  ghost predicate Checked(R: Records, assets: Assets, account: TxId -> Destination, k: Kind, sheet: Sheet) {
    KnownAssets(assets, k) && (forall u :: u in k.origins ==> u in R && R[u].kind.Withdrawal?) &&
    Legible(ListingsOf(R, account, k.origins), k.symbol, assets[k.symbol]) &&
    Passes(ItemsFor(R, assets, account, k), sheet.payouts, RulesFor(assets, k, sheet), k.fee, sheet.network)
  }

  /** What leaves on the foreign chain, the outputs and the network fee, in units of one
      asset. */
  ghost function AbroadIn(asset: AmountText.AssetRef, sheet: Sheet): int {
    TotalRead(asset, sheet.payouts) + AmountValue.UnitsOf(asset.precision, sheet.network)
  }

  /** It leaves in the asset that the symbol names. */
  ghost function Abroad(assets: Assets, k: Kind, sheet: Sheet): int
    requires KnownAssets(assets, k)
  {
    AbroadIn(assets[k.symbol], sheet)
  }

  /** What leaves for a record in one asset: that, and the fee kept back, which raises the
      supply of the asset found by id. */
  ghost function Paid(assets: Assets, k: Kind, sheet: Sheet, a: Asset): int
    requires KnownAssets(assets, k)
  {
    (if a == k.symbol then Abroad(assets, k, sheet) else 0) + (if a == k.asset then k.fee else 0)
  }

  /** What withdrawal `u` took from the balances in one asset. */
  function Debit(R: Records, a: Asset, u: TxId): int {
    if u in R && R[u].kind.Withdrawal? && R[u].kind.asset == a then R[u].kind.amount else 0
  }

  /** What the withdrawals of a record took from the balances, each counted once. */
  ghost function Taken(R: Records, origins: seq<TxId>, a: Asset): int {
    Sum(Members(origins), (u: TxId) => Debit(R, a, u))
  }

  /** In every asset exactly what was taken leaves. */
  ghost predicate Balanced(R: Records, assets: Assets, k: Kind, sheet: Sheet)
    requires KnownAssets(assets, k)
  {
    forall a :: Paid(assets, k, sheet, a) == Taken(R, k.origins, a)
  }

  /** The symbol of every withdrawal names the asset that it debits. */
  predicate OwnAssets(R: Records, origins: seq<TxId>) {
    forall u :: u in origins && u in R && R[u].kind.Withdrawal? ==> R[u].kind.symbol == R[u].kind.asset
  }

  /** The amounts of withdrawals are what their texts come to. */
  predicate AmountsRead(R: Records, assets: Assets) {
    forall u :: u in R && R[u].kind.Withdrawal? ==>
      R[u].kind.amount == AmountIn(assets, R[u].kind.asset, R[u].kind.text)
  }

  /** The withdrawals named are of positive amounts. */
  predicate Positive(R: Records, origins: seq<TxId>) {
    forall u :: u in origins && u in R && R[u].kind.Withdrawal? ==> R[u].kind.amount > 0
  }

  /** What the ids add that are named again after their first place. */
  function Again(origins: seq<TxId>, worth: TxId -> int): int {
    if origins == [] then 0
    else
      var n := |origins| - 1;
      Again(origins[..n], worth) + if origins[n] in Members(origins[..n]) then worth(origins[n]) else 0
  }

  /** What repeated ids add in one asset. */
  function Repeated(R: Records, origins: seq<TxId>, a: Asset): int {
    Again(origins, (u: TxId) => Debit(R, a, u))
  }

  lemma MembersGrow(origins: seq<TxId>)
    requires origins != []
    ensures var n := |origins| - 1;
      Members(origins) == Members(origins[..n]) + {origins[n]} &&
      (NoRepeats(origins) <==> NoRepeats(origins[..n]) && origins[n] !in Members(origins[..n]))
  {
    var n := |origins| - 1;
    var rest := origins[..n];
    assert origins == rest + [origins[n]];
    if origins[n] in Members(rest) {
      var i :| 0 <= i < n && rest[i] == origins[n];
      assert origins[i] == origins[n];
    }
  }

  /** Repeated ids of positive worth add something. */
  lemma {:induction false} AgainCounts(origins: seq<TxId>, worth: TxId -> int)
    requires forall u :: u in origins ==> worth(u) > 0
    ensures Again(origins, worth) >= 0
    ensures Again(origins, worth) == 0 <==> NoRepeats(origins)
  {
    if origins != [] {
      AgainCounts(origins[..|origins| - 1], worth);
      MembersGrow(origins);
    }
  }

  lemma {:induction false} AgainNothing(origins: seq<TxId>, worth: TxId -> int)
    requires forall u :: u in origins ==> worth(u) == 0
    ensures Again(origins, worth) == 0
  {
    if origins != [] {
      AgainNothing(origins[..|origins| - 1], worth);
    }
  }

  /** Listed with their repetitions, withdrawals come to what they are worth and what repeated
      ids add. When all are positive that is at least their worth, and exactly their worth if
      and only if no id repeats. */
  lemma {:induction false} ListedTotal(items: seq<Item>, origins: seq<TxId>, worth: TxId -> int)
    requires |items| == |origins| && forall i :: 0 <= i < |items| ==> items[i].amount == worth(origins[i])
    ensures TotalAmount(items) == Sum(Members(origins), worth) + Again(origins, worth)
    ensures (forall u :: u in origins ==> worth(u) > 0) ==>
      TotalAmount(items) >= Sum(Members(origins), worth) &&
      (TotalAmount(items) == Sum(Members(origins), worth) <==> NoRepeats(origins))
  {
    if origins == [] {
      assert Members(origins) == {};
    } else {
      var n := |origins| - 1;
      var rest, x := origins[..n], origins[n];
      ListedTotal(items[..n], rest, worth);
      MembersGrow(origins);
      if x in Members(rest) {
        assert Members(origins) == Members(rest);
      } else {
        SumPick(Members(origins), worth, x);
        assert Members(origins) - {x} == Members(rest);
      }
    }
    if forall u :: u in origins ==> worth(u) > 0 {
      AgainCounts(origins, worth);
    }
  }

  /** Positive withdrawals of one asset: repeated ids add something in it. */
  lemma RepeatedCounts(R: Records, origins: seq<TxId>, a: Asset)
    requires Positive(R, origins)
    requires forall u :: u in origins ==> u in R && R[u].kind.Withdrawal? && R[u].kind.asset == a
    ensures Repeated(R, origins, a) >= 0 && (Repeated(R, origins, a) == 0 <==> NoRepeats(origins))
  {
    AgainCounts(origins, (u: TxId) => Debit(R, a, u));
  }

  lemma NoneTaken(R: Records, origins: seq<TxId>, a: Asset)
    requires forall u :: u in origins && u in R && R[u].kind.Withdrawal? ==> R[u].kind.asset != a
    ensures Taken(R, origins, a) == 0 && Repeated(R, origins, a) == 0
  {
    SumZero(Members(origins), (u: TxId) => Debit(R, a, u));
    AgainNothing(origins, (u: TxId) => Debit(R, a, u));
  }

  /** The amounts listed are those debited, when symbols name the assets debited. */
  lemma ListedIsDebited(R: Records, assets: Assets, account: TxId -> Destination, k: Kind, sheet: Sheet)
    requires Checked(R, assets, account, k, sheet) && AmountsRead(R, assets) && OwnAssets(R, k.origins)
    ensures TotalAmount(ItemsFor(R, assets, account, k)) ==
            Taken(R, k.origins, k.symbol) + Repeated(R, k.origins, k.symbol)
    ensures Positive(R, k.origins) ==>
      Repeated(R, k.origins, k.symbol) >= 0 && (Repeated(R, k.origins, k.symbol) == 0 <==> NoRepeats(k.origins))
    ensures forall a :: a != k.symbol ==> Taken(R, k.origins, a) == 0 && Repeated(R, k.origins, a) == 0
  {
    assert KnownAssets(assets, k);
    assert forall u :: u in k.origins ==> u in R && R[u].kind.Withdrawal?;
    ItemsAreDebits(R, assets, account, k, sheet);
    hide Checked, AmountsRead, OwnAssets, ItemsFor, TotalAmount, Positive, NoRepeats;
    ListedTotal(ItemsFor(R, assets, account, k), k.origins, (u: TxId) => Debit(R, k.symbol, u));
    hide Repeated, Taken;
    if Positive(R, k.origins) {
      RepeatedCounts(R, k.origins, k.symbol);
    }
    forall a | a != k.symbol
      ensures Taken(R, k.origins, a) == 0 && Repeated(R, k.origins, a) == 0
    {
      NoneTaken(R, k.origins, a);
    }
  }

  lemma ItemsAreDebits(R: Records, assets: Assets, account: TxId -> Destination, k: Kind, sheet: Sheet)
    requires Checked(R, assets, account, k, sheet) && AmountsRead(R, assets) && OwnAssets(R, k.origins)
    ensures var items := ItemsFor(R, assets, account, k);
      |items| == |k.origins| && forall i :: 0 <= i < |items| ==> items[i].amount == Debit(R, k.symbol, k.origins[i])
    ensures forall u :: u in k.origins ==> R[u].kind.asset == k.symbol
  {
    hide Passes, AmountText.Read;
    var listings := ListingsOf(R, account, k.origins);
    forall i | 0 <= i < |k.origins|
      ensures var u := k.origins[i];
        R[u].kind.asset == k.symbol && ItemsFor(R, assets, account, k)[i].amount == Debit(R, k.symbol, u)
    {
      assert listings[i].symbol == k.symbol;
    }
  }

  /** What the check compares: the withdrawals listed, and what leaves as read with the asset
      found by id. */
  lemma CheckedTotal(R: Records, assets: Assets, account: TxId -> Destination, k: Kind, sheet: Sheet)
    requires Checked(R, assets, account, k, sheet)
    ensures TotalAmount(ItemsFor(R, assets, account, k)) == AbroadIn(assets[k.asset], sheet) + k.fee
  {
    hide AmountText.Parsed, AmountValue.UnitsOf;
    var byId := assets[k.asset];
    AmountValue.UnitsOfRead(byId.precision, byId.maxSupply, sheet.network);
  }

  /** A positive withdrawal among positive ones took something in its asset. */
  lemma SomethingTaken(R: Records, origins: seq<TxId>, u: TxId)
    requires Positive(R, origins) && u in origins && u in R && R[u].kind.Withdrawal?
    ensures Taken(R, origins, R[u].kind.asset) > 0
  {
    var a := R[u].kind.asset;
    var D := Members(origins);
    SumPick(D, (v: TxId) => Debit(R, a, v), u);
    SumZero(D - {u}, (v: TxId) => 0);
    OrderedSums(D - {u}, (v: TxId) => 0, (v: TxId) => Debit(R, a, v));
  }

  /** The list comes to what was taken in the asset of the symbol, and nothing remains taken in
      another. */
  ghost predicate ListsTaken(R: Records, assets: Assets, account: TxId -> Destination, k: Kind)
    requires KnownAssets(assets, k)
  {
    TotalAmount(ItemsFor(R, assets, account, k)) == Taken(R, k.origins, k.symbol) &&
    forall a :: a != k.symbol ==> Taken(R, k.origins, a) == 0
  }

  /** When symbol and id name one asset, a checked record pays out in every asset exactly what
      its withdrawals took if and only if the list comes to that. With positive withdrawals
      this is so exactly when it names none twice and each is in the asset its symbol names.
      With withdrawals in the asset of the symbol, of whatever sign, the record pays what was
      taken and what repeated ids add. */
  lemma PaidOutExactly(R: Records, assets: Assets, account: TxId -> Destination, k: Kind, sheet: Sheet)
    requires Checked(R, assets, account, k, sheet) && AmountsRead(R, assets) && k.symbol == k.asset
    ensures Balanced(R, assets, k, sheet) <==> ListsTaken(R, assets, account, k)
    ensures Positive(R, k.origins) ==>
      (Balanced(R, assets, k, sheet) <==> NoRepeats(k.origins) && OwnAssets(R, k.origins))
    ensures OwnAssets(R, k.origins) ==>
      Paid(assets, k, sheet, k.symbol) == Taken(R, k.origins, k.symbol) + Repeated(R, k.origins, k.symbol) &&
      (Balanced(R, assets, k, sheet) <==> Repeated(R, k.origins, k.symbol) == 0)
    ensures Positive(R, k.origins) && OwnAssets(R, k.origins) ==>
      Paid(assets, k, sheet, k.symbol) >= Taken(R, k.origins, k.symbol)
  {
    PaysListed(R, assets, account, k, sheet);
    if OwnAssets(R, k.origins) {
      ListedIsDebited(R, assets, account, k, sheet);
    } else {
      var u :| u in k.origins && u in R && R[u].kind.Withdrawal? && R[u].kind.symbol != R[u].kind.asset;
      SymbolListed(R, assets, account, k, sheet, u);
      if Positive(R, k.origins) {
        SomethingTaken(R, k.origins, u);
      }
    }
  }

  lemma PaysListed(R: Records, assets: Assets, account: TxId -> Destination, k: Kind, sheet: Sheet)
    requires Checked(R, assets, account, k, sheet) && k.symbol == k.asset
    ensures Paid(assets, k, sheet, k.symbol) == TotalAmount(ItemsFor(R, assets, account, k))
    ensures Balanced(R, assets, k, sheet) <==> ListsTaken(R, assets, account, k)
  {
    CheckedTotal(R, assets, account, k, sheet);
    hide Checked, AbroadIn, Taken, TotalAmount, ItemsFor;
    assert KnownAssets(assets, k);
    assert forall a :: a != k.symbol ==> Paid(assets, k, sheet, a) == 0;
    if Balanced(R, assets, k, sheet) {
      assert Paid(assets, k, sheet, k.symbol) == Taken(R, k.origins, k.symbol);
      forall a | a != k.symbol
        ensures Taken(R, k.origins, a) == 0
      {
        assert Paid(assets, k, sheet, a) == Taken(R, k.origins, a);
      }
    }
  }

  lemma SymbolListed(R: Records, assets: Assets, account: TxId -> Destination, k: Kind, sheet: Sheet, u: TxId)
    requires Checked(R, assets, account, k, sheet) && u in k.origins
    ensures R[u].kind.symbol == k.symbol
  {
    hide Passes, AmountText.Read;
    var i :| 0 <= i < |k.origins| && k.origins[i] == u;
    assert ListingsOf(R, account, k.origins)[i].symbol == k.symbol;
  }

  // ----- Symbol and id of different assets -----

  /** Every withdrawal debits the asset of the record's symbol or the one of its id. */
  predicate InEither(R: Records, k: Kind)
    requires k.WithoutSign?
  {
    forall u :: u in k.origins && u in R && R[u].kind.Withdrawal? ==>
      R[u].kind.asset == k.symbol || R[u].kind.asset == k.asset
  }

  /** What the list of withdrawals counts beyond what was taken in the two assets: ids named
      again, and amounts read with another asset than they debited. */
  ghost function Overcount(R: Records, assets: Assets, account: TxId -> Destination, k: Kind): int
    requires KnownAssets(assets, k) && k.symbol != k.asset
  {
    TotalAmount(ItemsFor(R, assets, account, k)) - Taken(R, k.origins, k.symbol) - Taken(R, k.origins, k.asset)
  }

  /** How much less leaves abroad than the check, reading with the asset found by id, believes. */
  ghost function Shortfall(assets: Assets, k: Kind, sheet: Sheet): int
    requires KnownAssets(assets, k)
  {
    AbroadIn(assets[k.asset], sheet) - AbroadIn(assets[k.symbol], sheet)
  }

  /** Nothing remains taken in a third asset; positive withdrawals debit none. */
  ghost predicate OnlyTwo(R: Records, k: Kind)
    requires k.WithoutSign?
  {
    if Positive(R, k.origins) then InEither(R, k)
    else forall a :: a != k.symbol && a != k.asset ==> Taken(R, k.origins, a) == 0
  }

  lemma OnlyTwoIs(R: Records, k: Kind)
    requires k.WithoutSign?
    ensures OnlyTwo(R, k) <==> forall a :: a != k.symbol && a != k.asset ==> Taken(R, k.origins, a) == 0
  {
    if Positive(R, k.origins) {
      forall u | u in k.origins && u in R && R[u].kind.Withdrawal?
        ensures Taken(R, k.origins, R[u].kind.asset) > 0
      {
        SomethingTaken(R, k.origins, u);
      }
      if InEither(R, k) {
        forall a | a != k.symbol && a != k.asset
          ensures Taken(R, k.origins, a) == 0
        {
          NoneTaken(R, k.origins, a);
        }
      }
    }
  }

  /** When symbol and id name different assets, a checked record pays out exactly what was
      taken if and only if the withdrawals debit only the two, the fee kept back is what
      they debited in the asset of the id, and the two faults of the check cancel. */
  lemma PaidInTwoAssets(R: Records, assets: Assets, account: TxId -> Destination, k: Kind, sheet: Sheet)
    requires Checked(R, assets, account, k, sheet) && k.symbol != k.asset
    ensures Balanced(R, assets, k, sheet) <==>
      OnlyTwo(R, k) && k.fee == Taken(R, k.origins, k.asset) &&
      Overcount(R, assets, account, k) == Shortfall(assets, k, sheet)
  {
    assert KnownAssets(assets, k);
    CheckedTotal(R, assets, account, k, sheet);
    OnlyTwoIs(R, k);
    hide Checked, AbroadIn, Taken, OnlyTwo, TotalAmount, ItemsFor;
    assert Paid(assets, k, sheet, k.asset) == k.fee;
    assert Paid(assets, k, sheet, k.symbol) == Abroad(assets, k, sheet);
    assert forall a :: a != k.symbol && a != k.asset ==> Paid(assets, k, sheet, a) == 0;
  }

  /** The amounts of the foreign transaction carry no sign. */
  predicate Unmarked(sheet: Sheet) {
    AmountValue.Unsigned(sheet.network) && forall d :: d in sheet.payouts ==> AmountValue.Unsigned(sheet.payouts[d])
  }

  predicate ValidRef(asset: AmountText.AssetRef) {
    0 <= asset.maxSupply <= AmountText.INT64_MAX
  }

  /** With more precision more leaves, unless nothing does. */
  lemma AbroadGrows(low: AmountText.AssetRef, high: AmountText.AssetRef, sheet: Sheet)
    requires AmountValue.Unsigned(sheet.network) && ReadsWith(low, sheet.payouts) && ReadsWith(high, sheet.payouts)
    requires low.precision <= high.precision
    ensures 0 <= AbroadIn(low, sheet) <= AbroadIn(high, sheet)
    ensures AbroadIn(low, sheet) == AbroadIn(high, sheet) <==>
            low.precision == high.precision || AbroadIn(high, sheet) == 0
  {
    hide AmountValue.Denotes, TotalRead, AmountValue.UnitsOf, AmountValue.Unsigned, ReadsWith;
    TotalGrows(low, high, sheet.payouts);
    PaidSomething(low, sheet.payouts);
    AmountValue.UnitsOfUnsigned(low.precision, sheet.network);
    AmountValue.UnitsOfUnsigned(high.precision, sheet.network);
    AmountValue.DenotesOrder(sheet.network, low.precision, high.precision);
  }

  /** The same with withdrawals in the asset of the symbol, of whatever sign: no fee is kept,
      and what repeated ids add is what the precision of the id's asset loses. */
  lemma OtherIdEquation(R: Records, assets: Assets, account: TxId -> Destination, k: Kind, sheet: Sheet)
    requires Checked(R, assets, account, k, sheet) && AmountsRead(R, assets) && k.symbol != k.asset
    requires OwnAssets(R, k.origins)
    ensures Overcount(R, assets, account, k) == Repeated(R, k.origins, k.symbol)
    ensures Balanced(R, assets, k, sheet) <==>
      k.fee == 0 && Repeated(R, k.origins, k.symbol) == Shortfall(assets, k, sheet)
  {
    PaidInTwoAssets(R, assets, account, k, sheet);
    ListedIsDebited(R, assets, account, k, sheet);
    OnlyTwoIs(R, k);
    assert KnownAssets(assets, k);
    hide Checked, Balanced, Taken, ItemsFor, TotalAmount, AmountsRead, OwnAssets, OnlyTwo, Repeated;
  }

  /** Positive withdrawals in the asset of the symbol, and a foreign transaction without signs. */
  predicate Regular(R: Records, assets: Assets, k: Kind, sheet: Sheet)
    requires KnownAssets(assets, k)
  {
    k.origins != [] && Positive(R, k.origins) && OwnAssets(R, k.origins) && Unmarked(sheet) &&
    ValidRef(assets[k.symbol]) && ValidRef(assets[k.asset])
  }

  /** No fee is kept, and both assets have the same precision; when some id repeats, what the
      repetitions add is what a higher precision of the id's asset loses. */
  ghost predicate SamePrecision(R: Records, assets: Assets, k: Kind, sheet: Sheet)
    requires KnownAssets(assets, k)
  {
    k.fee == 0 &&
    if NoRepeats(k.origins) then assets[k.symbol].precision == assets[k.asset].precision
    else assets[k.symbol].precision < assets[k.asset].precision &&
         Repeated(R, k.origins, k.symbol) == Shortfall(assets, k, sheet)
  }

  /** When symbol and id name different assets and positive withdrawals debit that of the
      symbol, a checked record pays out exactly what was taken if and only if it keeps no fee
      and, naming none twice, both assets have the same precision; naming some twice, what the
      repetitions add is what the precision of the id's asset loses. */
  lemma OtherIdExactly(R: Records, assets: Assets, account: TxId -> Destination, k: Kind, sheet: Sheet)
    requires Checked(R, assets, account, k, sheet) && AmountsRead(R, assets) && k.symbol != k.asset
    requires Regular(R, assets, k, sheet)
    ensures Balanced(R, assets, k, sheet) <==> SamePrecision(R, assets, k, sheet)
  {
    assert KnownAssets(assets, k);
    OtherIdEquation(R, assets, account, k, sheet);
    ListedIsDebited(R, assets, account, k, sheet);
    CheckedTotal(R, assets, account, k, sheet);
    SymbolListed(R, assets, account, k, sheet, k.origins[0]);
    SomethingTaken(R, k.origins, k.origins[0]);
    CheckedReads(R, assets, account, k, sheet);
    hide Checked, Balanced, Taken, ItemsFor, TotalAmount, AmountsRead, OwnAssets, Positive, Repeated;
    var s, i := assets[k.symbol], assets[k.asset];
    if s.precision <= i.precision {
      AbroadGrows(s, i, sheet);
    } else {
      AbroadGrows(i, s, sheet);
    }
  }

  lemma CheckedReads(R: Records, assets: Assets, account: TxId -> Destination, k: Kind, sheet: Sheet)
    requires Checked(R, assets, account, k, sheet) && Unmarked(sheet)
    requires ValidRef(assets[k.symbol]) && ValidRef(assets[k.asset])
    ensures ReadsWith(assets[k.symbol], sheet.payouts) && ReadsWith(assets[k.asset], sheet.payouts)
  {
    hide AmountText.Read, AmountValue.Unsigned;
  }

  /** When symbol and id name one asset. */
  ghost predicate ExactInOne(R: Records, assets: Assets, account: TxId -> Destination, k: Kind)
    requires KnownAssets(assets, k)
  {
    if Positive(R, k.origins) then NoRepeats(k.origins) && OwnAssets(R, k.origins)
    else if OwnAssets(R, k.origins) then Repeated(R, k.origins, k.symbol) == 0
    else ListsTaken(R, assets, account, k)
  }

  /** When they name different assets. */
  ghost predicate ExactInTwo(R: Records, assets: Assets, account: TxId -> Destination, k: Kind, sheet: Sheet)
    requires KnownAssets(assets, k) && k.symbol != k.asset
  {
    if Regular(R, assets, k, sheet) then SamePrecision(R, assets, k, sheet)
    else if OwnAssets(R, k.origins) then k.fee == 0 && Repeated(R, k.origins, k.symbol) == Shortfall(assets, k, sheet)
    else
      OnlyTwo(R, k) && k.fee == Taken(R, k.origins, k.asset) &&
      Overcount(R, assets, account, k) == Shortfall(assets, k, sheet)
  }

  /** The exact condition in every case. */
  ghost predicate Exact(R: Records, assets: Assets, account: TxId -> Destination, k: Kind, sheet: Sheet)
    requires KnownAssets(assets, k)
  {
    if k.symbol == k.asset then ExactInOne(R, assets, account, k) else ExactInTwo(R, assets, account, k, sheet)
  }

  lemma BalancedIff(R: Records, assets: Assets, account: TxId -> Destination, k: Kind, sheet: Sheet)
    requires Checked(R, assets, account, k, sheet) && AmountsRead(R, assets)
    ensures Balanced(R, assets, k, sheet) <==> Exact(R, assets, account, k, sheet)
  {
    assert KnownAssets(assets, k);
    hide Checked, AmountsRead, Balanced, Regular, SamePrecision, OwnAssets, Positive, ListsTaken, OnlyTwo, Overcount,
      Shortfall, Taken, Repeated;
    if k.symbol == k.asset {
      PaidOutExactly(R, assets, account, k, sheet);
    } else if Regular(R, assets, k, sheet) {
      OtherIdExactly(R, assets, account, k, sheet);
    } else if OwnAssets(R, k.origins) {
      OtherIdEquation(R, assets, account, k, sheet);
    } else {
      PaidInTwoAssets(R, assets, account, k, sheet);
    }
  }

  // ----- All without-sign records of a state -----

  function WithoutSigns(R: Records): set<TxId> {
    set w | w in R && R[w].kind.WithoutSign?
  }

  ghost predicate AllChecked(R: Records, assets: Assets, account: TxId -> Destination, sheets: TxId -> Sheet) {
    forall w :: IsWithoutSign(R, w) ==> Checked(R, assets, account, R[w].kind, sheets(w))
  }

  ghost predicate AllExact(R: Records, assets: Assets, account: TxId -> Destination, sheets: TxId -> Sheet) {
    forall w :: IsWithoutSign(R, w) ==>
      KnownAssets(assets, R[w].kind) && Exact(R, assets, account, R[w].kind, sheets(w))
  }

  /** Every record pays out in every asset exactly what its withdrawals took. */
  ghost predicate AllBalanced(R: Records, assets: Assets, sheets: TxId -> Sheet) {
    forall w :: IsWithoutSign(R, w) ==> KnownAssets(assets, R[w].kind) && Balanced(R, assets, R[w].kind, sheets(w))
  }

  ghost function PaidFor(R: Records, assets: Assets, sheets: TxId -> Sheet, a: Asset, w: TxId): int {
    if w in R && KnownAssets(assets, R[w].kind) then Paid(assets, R[w].kind, sheets(w), a) else 0
  }

  /** Everything that leaves in one asset. */
  ghost function PaidOut(R: Records, assets: Assets, sheets: TxId -> Sheet, a: Asset): int {
    Sum(WithoutSigns(R), w => PaidFor(R, assets, sheets, a, w))
  }

  /** The withdrawals that some record has taken on. */
  function Claims(R: Records): set<TxId> {
    set u | u in R && R[u].kind.Withdrawal? && R[u].state != Uncreated
  }

  /** What they took from the balances. */
  ghost function ClaimedTotal(R: Records, a: Asset): int {
    Sum(Claims(R), u => Debit(R, a, u))
  }

  function OriginsOf(R: Records, w: TxId): seq<TxId> {
    if w in R then Origins(R[w]) else []
  }

  /** The withdrawals of several records. */
  function UnionOf(R: Records, W: set<TxId>): set<TxId> {
    set w, u | w in W && u in OriginsOf(R, w) :: u
  }

  /** Records share no withdrawal, so what they took adds up to what all withdrawals took. */
  lemma {:induction false} UnionTotal(R: Records, W: set<TxId>, a: Asset)
    requires RecordsInv(R)
    ensures Sum(W, w => Taken(R, OriginsOf(R, w), a)) == Sum(UnionOf(R, W), u => Debit(R, a, u))
  {
    if W == {} {
      assert UnionOf(R, W) == {};
    } else {
      var w :| w in W;
      var rest := W - {w};
      SumPick(W, w => Taken(R, OriginsOf(R, w), a), w);
      UnionTotal(R, rest, a);
      UnionSplits(R, W, w);
      SumSplit(UnionOf(R, W), Members(OriginsOf(R, w)), u => Debit(R, a, u));
    }
  }

  lemma UnionSplits(R: Records, W: set<TxId>, w: TxId)
    requires RecordsInv(R) && w in W
    ensures Members(OriginsOf(R, w)) <= UnionOf(R, W)
    ensures UnionOf(R, W) - Members(OriginsOf(R, w)) == UnionOf(R, W - {w})
  {
    var mine, all, rest := Members(OriginsOf(R, w)), UnionOf(R, W), UnionOf(R, W - {w});
    assert PaidOnce(R);
    forall u | u in rest
      ensures u in all && u !in mine
    {
      var v :| v in W - {w} && u in OriginsOf(R, v);
      assert Owns(R, v, u);
      assert u in mine ==> Owns(R, w, u);
    }
    forall u | u in all && u !in mine
      ensures u in rest
    {
      var v :| v in W && u in OriginsOf(R, v);
      assert v in W - {w};
    }
  }

  /** The withdrawals of all records are those that are claimed. */
  lemma UnionIsClaims(R: Records)
    requires RecordsInv(R)
    ensures UnionOf(R, WithoutSigns(R)) == Claims(R)
  {
    var W := WithoutSigns(R);
    hide RecordsInv;
    forall u | u in UnionOf(R, W)
      ensures u in Claims(R)
    {
      var w :| w in W && u in OriginsOf(R, w);
      OwnedIsClaimed(R, w, u);
    }
    forall u | u in Claims(R)
      ensures u in UnionOf(R, W)
    {
      var w := OwnerOf(R, u);
      assert w in W && u in OriginsOf(R, w);
    }
  }

  lemma OwnerOf(R: Records, u: TxId) returns (w: TxId)
    requires RecordsInv(R) && u in R && R[u].kind.Withdrawal? && R[u].state != Uncreated
    ensures Owns(R, w, u)
  {
    assert CrossChain.Claimed(R);
    w :| Owns(R, w, u);
  }

  lemma OwnedIsClaimed(R: Records, w: TxId, u: TxId)
    requires RecordsInv(R) && Owns(R, w, u)
    ensures u in R && R[u].kind.Withdrawal? && R[u].state != Uncreated
  {
    assert SharedState(R) && LinkOk(R, w);
  }

  lemma TakenIsClaimed(R: Records, a: Asset)
    requires RecordsInv(R)
    ensures Sum(WithoutSigns(R), w => Taken(R, OriginsOf(R, w), a)) == ClaimedTotal(R, a)
  {
    UnionTotal(R, WithoutSigns(R), a);
    UnionIsClaims(R);
  }

  /** In every state of the invariant whose records passed the check: every record pays out in
      every asset what its withdrawals took if and only if the exact condition holds of each,
      and then so do all records together. */
  lemma AllPaidExactly(R: Records, assets: Assets, account: TxId -> Destination, sheets: TxId -> Sheet)
    requires RecordsInv(R) && AllChecked(R, assets, account, sheets) && AmountsRead(R, assets)
    ensures AllBalanced(R, assets, sheets) <==> AllExact(R, assets, account, sheets)
    ensures AllExact(R, assets, account, sheets) ==> forall a :: PaidOut(R, assets, sheets, a) == ClaimedTotal(R, a)
  {
    hide RecordsInv, Balanced, Exact;
    forall w | IsWithoutSign(R, w)
      ensures KnownAssets(assets, R[w].kind)
      ensures Balanced(R, assets, R[w].kind, sheets(w)) <==> Exact(R, assets, account, R[w].kind, sheets(w))
    {
      BalancedIff(R, assets, account, R[w].kind, sheets(w));
    }
    if AllBalanced(R, assets, sheets) {
      forall a
        ensures PaidOut(R, assets, sheets, a) == ClaimedTotal(R, a)
      {
        TotalsMatch(R, assets, sheets, a);
      }
    }
  }

  lemma TotalsMatch(R: Records, assets: Assets, sheets: TxId -> Sheet, a: Asset)
    requires RecordsInv(R) && AllBalanced(R, assets, sheets)
    ensures PaidOut(R, assets, sheets, a) == ClaimedTotal(R, a)
  {
    hide RecordsInv, Paid, Taken;
    TakenIsClaimed(R, a);
    SumSame(WithoutSigns(R), w => PaidFor(R, assets, sheets, a, w), w => Taken(R, OriginsOf(R, w), a));
  }

  /** Records whose symbol and id name one asset, with withdrawals that debit it. */
  predicate AllPlain(R: Records) {
    forall w :: w in R && R[w].kind.WithoutSign? ==>
      R[w].kind.symbol == R[w].kind.asset && OwnAssets(R, R[w].kind.origins)
  }

  predicate NoneRepeat(R: Records, a: Asset) {
    forall w :: w in R && R[w].kind.WithoutSign? && R[w].kind.symbol == a ==> NoRepeats(R[w].kind.origins)
  }

  /** What repeated ids add in one asset, over all records. */
  ghost function RepeatedTotal(R: Records, a: Asset): int {
    Sum(WithoutSigns(R), w => Repeated(R, OriginsOf(R, w), a))
  }

  /** The claimed withdrawals of an asset are of positive amounts. */
  predicate ClaimsPositive(R: Records, a: Asset) {
    forall u :: u in Claims(R) && R[u].kind.asset == a ==> R[u].kind.amount > 0
  }

  /** Among such records what leaves in each asset is what the claimed withdrawals took and
      what repeated ids add. When the claimed withdrawals are positive nothing makes up for a
      repeated id: at least what was claimed leaves, and exactly that if and only if none
      repeats. */
  lemma RepeatsAddUp(R: Records, assets: Assets, account: TxId -> Destination, sheets: TxId -> Sheet, a: Asset)
    requires RecordsInv(R) && AllChecked(R, assets, account, sheets) && AmountsRead(R, assets) && AllPlain(R)
    ensures PaidOut(R, assets, sheets, a) == ClaimedTotal(R, a) + RepeatedTotal(R, a)
    ensures ClaimsPositive(R, a) ==>
      PaidOut(R, assets, sheets, a) >= ClaimedTotal(R, a) &&
      (PaidOut(R, assets, sheets, a) == ClaimedTotal(R, a) <==> NoneRepeat(R, a))
  {
    hide RecordsInv, AmountsRead, Taken, PaidFor, Repeated, Checked, OwnAssets;
    var W := WithoutSigns(R);
    forall w | w in W
      ensures PaidFor(R, assets, sheets, a, w) == Taken(R, OriginsOf(R, w), a) + Repeated(R, OriginsOf(R, w), a)
    {
      PlainPays(R, assets, account, w, sheets, a);
    }
    SumPlus(W, w => Taken(R, OriginsOf(R, w), a), w => Repeated(R, OriginsOf(R, w), a),
            w => PaidFor(R, assets, sheets, a, w));
    TakenIsClaimed(R, a);
    if ClaimsPositive(R, a) {
      forall w | w in W
        ensures var extra := Repeated(R, OriginsOf(R, w), a);
          extra >= 0 && (extra == 0 <==> R[w].kind.symbol == a ==> NoRepeats(R[w].kind.origins))
      {
        PlainRepeats(R, assets, account, w, sheets, a);
      }
      var f, g := (w: TxId) => 0, w => Repeated(R, OriginsOf(R, w), a);
      SumZero(W, f);
      OrderedSums(W, f, g);
      if forall w :: w in W ==> f(w) == g(w) {
        forall w | w in R && R[w].kind.WithoutSign? && R[w].kind.symbol == a
          ensures NoRepeats(R[w].kind.origins)
        {
          assert w in W && f(w) == g(w);
        }
      }
    }
  }

  lemma PlainPays(R: Records, assets: Assets, account: TxId -> Destination, w: TxId, sheets: TxId -> Sheet, a: Asset)
    requires AllChecked(R, assets, account, sheets) && AmountsRead(R, assets) && AllPlain(R) && IsWithoutSign(R, w)
    ensures PaidFor(R, assets, sheets, a, w) == Taken(R, OriginsOf(R, w), a) + Repeated(R, OriginsOf(R, w), a)
  {
    var k, sheet := R[w].kind, sheets(w);
    assert Checked(R, assets, account, k, sheet);
    assert KnownAssets(assets, k);
    PaysListed(R, assets, account, k, sheet);
    ListedIsDebited(R, assets, account, k, sheet);
    hide Checked, Taken, Repeated, AmountsRead, OwnAssets;
  }

  lemma PlainRepeats(R: Records, assets: Assets, account: TxId -> Destination, w: TxId, sheets: TxId -> Sheet,
                     a: Asset)
    requires RecordsInv(R) && AllChecked(R, assets, account, sheets) && AmountsRead(R, assets) && AllPlain(R)
    requires IsWithoutSign(R, w) && ClaimsPositive(R, a)
    ensures var extra := Repeated(R, OriginsOf(R, w), a);
      extra >= 0 && (extra == 0 <==> R[w].kind.symbol == a ==> NoRepeats(R[w].kind.origins))
  {
    hide RecordsInv;
    var k, sheet := R[w].kind, sheets(w);
    assert Checked(R, assets, account, k, sheet);
    ListedIsDebited(R, assets, account, k, sheet);
    if k.symbol == a {
      forall u | u in k.origins && u in R && R[u].kind.Withdrawal?
        ensures R[u].kind.amount > 0
      {
        OwnedIsClaimed(R, w, u);
        SymbolListed(R, assets, account, k, sheet, u);
      }
      assert Positive(R, k.origins);
    }
  }

  // ----- Over a run -----

  /** What the withdrawals of a state took from the balances. */
  ghost function DebitedTotal(R: Records, a: Asset): int {
    Sum(R.Keys, u => Debit(R, a, u))
  }

  /** The withdrawals that no record has taken on yet. */
  function Opens(R: Records): set<TxId> {
    set u | u in R && R[u].kind.Withdrawal? && R[u].state == Uncreated
  }

  /** What they took from the balances. */
  ghost function OpenTotal(R: Records, a: Asset): int {
    Sum(Opens(R), u => Debit(R, a, u))
  }

  lemma ClaimedAndOpen(R: Records, a: Asset)
    ensures DebitedTotal(R, a) == ClaimedTotal(R, a) + OpenTotal(R, a)
  {
    var C, O := Claims(R), Opens(R);
    var rest := R.Keys - C;
    SumSplit(R.Keys, C, u => Debit(R, a, u));
    SumSplit(rest, O, u => Debit(R, a, u));
    SumZero(rest - O, u => Debit(R, a, u));
  }

  /** No withdrawal of an asset is of a negative amount. */
  predicate NoneNegative(R: Records, a: Asset) {
    forall u :: u in R && R[u].kind.Withdrawal? && R[u].kind.asset == a ==> R[u].kind.amount >= 0
  }

  lemma OpenNotNegative(R: Records, a: Asset)
    requires NoneNegative(R, a)
    ensures OpenTotal(R, a) >= 0
  {
    SumZero(Opens(R), (u: TxId) => 0);
    OrderedSums(Opens(R), (u: TxId) => 0, u => Debit(R, a, u));
  }

  /** What the withdrawals of a run take from the balances. */
  function WithdrawnBy(assets: Assets, ops: seq<Op>, a: Asset): int {
    if ops == [] then 0
    else
      (if ops[0].Withdraw? && ops[0].asset == a then AmountIn(assets, a, ops[0].text) else 0) +
      WithdrawnBy(assets, ops[1..], a)
  }

  /** Records keep their kinds, and at most one of another kind is added. */
  predicate KeepsKinds(R: Records, R': Records) {
    (forall k :: k in R ==> k in R' && R'[k].kind == R[k].kind) &&
    (forall k :: k in R' && k !in R ==> !R'[k].kind.Withdrawal?)
  }

  lemma DebitedStays(R: Records, R': Records, a: Asset)
    requires KeepsKinds(R, R')
    ensures DebitedTotal(R', a) == DebitedTotal(R, a)
  {
    SumSplit(R'.Keys, R.Keys, u => Debit(R', a, u));
    SumSame(R.Keys, u => Debit(R, a, u), u => Debit(R', a, u));
    SumZero(R'.Keys - R.Keys, u => Debit(R', a, u));
  }

  lemma SameKinds(R: Records)
    ensures KeepsKinds(R, R)
  {
  }

  lemma AddedKinds(R: Records, id: TxId, r: Record)
    requires id !in R && !r.kind.Withdrawal?
    ensures KeepsKinds(R, R[id := r])
  {
  }

  lemma CreatedKinds(R: Records, keys: set<TxId>, id: TxId, r: Record)
    requires id !in R && !r.kind.Withdrawal?
    ensures KeepsKinds(R, Moved(R, keys, Created)[id := r])
  {
  }

  lemma CombinedKinds(R: Records, id: TxId, w: TxId, f: ForeignId)
    requires w in R && id !in R
    ensures KeepsKinds(R, RecordsAfterCombine(R, id, w, f))
  {
    CombineHasEffect(R, id, w, f);
    hide RecordsAfterCombine;
  }

  lemma ConfirmedKinds(R: Records, w: TxId)
    requires w in R
    ensures KeepsKinds(R, RecordsAfterResult(R, w))
  {
    ResultHasEffect(R, w);
    hide RecordsAfterResult;
  }

  lemma ApplyKeepsKinds(db: Db, op: Op)
    requires Enabled(db, op) && !op.Withdraw?
    ensures KeepsKinds(db.records, Apply(db, op).records)
  {
    hide KeepsKinds, Moved, RecordsAfterCombine, RecordsAfterResult, AmountIn, Withdrawable, OpenFor, CanAdjust,
      Adjusted;
    var R := db.records;
    match op
    case CreateWithoutSign(id, origins, _, _, _, _) =>
      CreatedKinds(R, Members(origins), id, Apply(db, op).records[id]);
    case AddSign(id, target, guard) =>
      AddedKinds(R, id, Apply(db, op).records[id]);
    case CombineSigns(id, signs, f) =>
      CombinedKinds(R, id, R[signs[0]].relate.value, f);
    case ConfirmResult(f, c) =>
      ConfirmedKinds(R, R[c].relate.value);
    case Deposit(_, _, _, _) =>
      SameKinds(R);
    case ColdHotResult(_, _) =>
      SameKinds(R);
    case Observe(_) =>
      SameKinds(R);
    case MarkFailed(_) =>
      SameKinds(R);
  }

  lemma ApplyDebits(db: Db, op: Op, a: Asset)
    requires Inv(db) && Enabled(db, op)
    ensures DebitedTotal(Apply(db, op).records, a) == DebitedTotal(db.records, a) + WithdrawnBy(db.assets, [op], a)
  {
    hide Inv, Withdrawable, AmountIn;
    if op.Withdraw? {
      var R, R' := db.records, Apply(db, op).records;
      SumChange(R.Keys, R'.Keys, u => Debit(R, a, u), u => Debit(R', a, u), op.id);
    } else {
      ApplyKeepsKinds(db, op);
      hide Apply, Enabled;
      DebitedStays(db.records, Apply(db, op).records, a);
    }
    assert [op][1..] == [];
  }

  /** The kind of the record that a without-sign operation creates. */
  function KindOf(op: Op): Kind
    requires op.CreateWithoutSign?
  {
    WithoutSign(op.origins, op.symbol, op.asset, op.feeAsset, op.fee)
  }

  /** Every without-sign operation of the run is one whose full check was made and passed. */
  ghost predicate RunChecked(db: Db, ops: seq<Op>, account: TxId -> Destination, sheets: TxId -> Sheet)
    requires Runs(db, ops)
    decreases |ops|
  {
    ops == [] ||
    ((ops[0].CreateWithoutSign? ==>
       Checked(db.records, db.assets, account, KindOf(ops[0]), sheets(ops[0].id))) &&
     RunChecked(Apply(db, ops[0]), ops[1..], account, sheets))
  }

  lemma CheckedStays(R: Records, R': Records, assets: Assets, account: TxId -> Destination, k: Kind, sheet: Sheet)
    requires Checked(R, assets, account, k, sheet)
    requires forall k :: k in R ==> k in R' && R'[k].kind == R[k].kind
    ensures Checked(R', assets, account, k, sheet)
  {
    hide Passes, Legible;
    assert ListingsOf(R', account, k.origins) == ListingsOf(R, account, k.origins);
  }

  lemma ApplyChecked(db: Db, op: Op, account: TxId -> Destination, sheets: TxId -> Sheet)
    requires Inv(db) && Enabled(db, op) && AllChecked(db.records, db.assets, account, sheets)
    requires op.CreateWithoutSign? ==> Checked(db.records, db.assets, account, KindOf(op), sheets(op.id))
    ensures AllChecked(Apply(db, op).records, db.assets, account, sheets)
  {
    var R, R' := db.records, Apply(db, op).records;
    ApplyAdvances(db, op);
    NewWithoutSigns(db, op);
    hide Inv, Apply, Enabled, Checked;
    forall w | IsWithoutSign(R', w)
      ensures Checked(R', db.assets, account, R'[w].kind, sheets(w))
    {
      if w in R {
        CheckedStays(R, R', db.assets, account, R[w].kind, sheets(w));
      } else {
        CheckedStays(R, R', db.assets, account, KindOf(op), sheets(w));
      }
    }
  }

  lemma NewWithoutSigns(db: Db, op: Op)
    requires Inv(db) && Enabled(db, op)
    ensures var R' := Apply(db, op).records;
      forall w :: IsWithoutSign(R', w) && w !in db.records ==>
        op.CreateWithoutSign? && w == op.id && R'[w].kind == KindOf(op)
  {
    hide Inv, RecordsAfterCombine, RecordsAfterResult, Withdrawable, AmountIn;
    match op
    case CombineSigns(id, signs, f) =>
      CombineHasEffect(db.records, id, db.records[signs[0]].relate.value, f);
    case ConfirmResult(f, c) =>
      ResultHasEffect(db.records, db.records[c].relate.value);
    case _ =>
  }

  /** No withdrawal of an asset has a text that reads below zero. */
  predicate NoneBelow(assets: Assets, ops: seq<Op>, a: Asset) {
    forall i :: 0 <= i < |ops| && ops[i].Withdraw? && ops[i].asset == a ==> AmountIn(assets, a, ops[i].text) >= 0
  }

  lemma ApplyReads(db: Db, op: Op, a: Asset)
    requires Inv(db) && Enabled(db, op) && AmountsRead(db.records, db.assets)
    ensures AmountsRead(Apply(db, op).records, db.assets) && Apply(db, op).assets == db.assets
    ensures NoneNegative(db.records, a) && NoneBelow(db.assets, [op], a) ==> NoneNegative(Apply(db, op).records, a)
  {
    hide Withdrawable, AmountIn;
    if op.Withdraw? {
      assert [op][0] == op;
    } else {
      ApplyKeepsKinds(db, op);
      hide Enabled, Inv, Accepted;
    }
  }

  lemma {:induction false} RunAccounts(db: Db, ops: seq<Op>, account: TxId -> Destination, sheets: TxId -> Sheet,
                                       a: Asset)
    requires Inv(db) && Runs(db, ops) && RunChecked(db, ops, account, sheets)
    requires AllChecked(db.records, db.assets, account, sheets) && AmountsRead(db.records, db.assets)
    ensures var R := Final(db, ops).records;
      RecordsInv(R) && AllChecked(R, db.assets, account, sheets) && AmountsRead(R, db.assets) &&
      DebitedTotal(R, a) == DebitedTotal(db.records, a) + WithdrawnBy(db.assets, ops, a) &&
      (NoneNegative(db.records, a) && NoneBelow(db.assets, ops, a) ==> NoneNegative(R, a))
    decreases |ops|
  {
    hide Enabled, Apply, AllChecked, AmountsRead, DebitedTotal, Checked, AmountIn, NoneNegative, NoneBelow;
    if ops != [] {
      ApplyKeeps(db, ops[0]);
      ApplyChecked(db, ops[0], account, sheets);
      ApplyReads(db, ops[0], a);
      ApplyDebits(db, ops[0], a);
      assert [ops[0]][1..] == [];
      RunAccounts(Apply(db, ops[0]), ops[1..], account, sheets, a);
      BelowSplits(db.assets, ops, a);
    }
  }

  lemma BelowSplits(assets: Assets, ops: seq<Op>, a: Asset)
    requires ops != []
    ensures NoneBelow(assets, ops, a) ==> NoneBelow(assets, [ops[0]], a) && NoneBelow(assets, ops[1..], a)
  {
    hide AmountIn;
  }

  /** Solvency: over every run from the beginning in which the full check was made for each
      without-sign operation, what was withdrawn in an asset is what has been claimed and what
      is still open. What was claimed is covered by what was withdrawn if and only if what is
      open does not come to less than nothing, as it never does when no text reads below zero.
      Every record pays out in every asset exactly what its withdrawals took if and only if the
      exact condition holds of each record; then each asset pays out what was claimed in it.
      When only repeated ids can be at fault, each asset pays out what was claimed and what
      they add, which with positive claims is nothing if and only if no id repeats. */
  lemma Solvent(db: Db, ops: seq<Op>, account: TxId -> Destination, sheets: TxId -> Sheet, a: Asset)
    requires db.records == map[] && Runs(db, ops) && RunChecked(db, ops, account, sheets)
    ensures var R, withdrawn := Final(db, ops).records, WithdrawnBy(db.assets, ops, a);
      withdrawn == ClaimedTotal(R, a) + OpenTotal(R, a) &&
      (ClaimedTotal(R, a) <= withdrawn <==> OpenTotal(R, a) >= 0) &&
      (NoneBelow(db.assets, ops, a) ==> ClaimedTotal(R, a) <= withdrawn)
    ensures var R := Final(db, ops).records;
      (AllBalanced(R, db.assets, sheets) <==> AllExact(R, db.assets, account, sheets)) &&
      (AllExact(R, db.assets, account, sheets) ==> PaidOut(R, db.assets, sheets, a) == ClaimedTotal(R, a))
    ensures var R := Final(db, ops).records;
      AllPlain(R) ==>
        PaidOut(R, db.assets, sheets, a) == ClaimedTotal(R, a) + RepeatedTotal(R, a) &&
        (ClaimsPositive(R, a) ==>
          PaidOut(R, db.assets, sheets, a) >= ClaimedTotal(R, a) &&
          (PaidOut(R, db.assets, sheets, a) == ClaimedTotal(R, a) <==> NoneRepeat(R, a)))
  {
    EmptyInv(db);
    assert DebitedTotal(db.records, a) == 0;
    RunAccounts(db, ops, account, sheets, a);
    var R := Final(db, ops).records;
    assert NoneBelow(db.assets, ops, a) ==> NoneNegative(R, a);
    hide *;
    AllPaidExactly(R, db.assets, account, sheets);
    ClaimedAndOpen(R, a);
    if NoneNegative(R, a) {
      OpenNotNegative(R, a);
    }
    if AllPlain(R) {
      RepeatsAddUp(R, db.assets, account, sheets, a);
    }
  }

  // ----- Withdrawals below zero -----

  /** A withdrawal raises its owner's balance, and the supply of its asset, if and only if its
      text is one that reads below zero. When the supply covers the number that the text stands
      for and its sign does no harm, that is when the number is negative. */
  lemma WithdrawalCredits(db: Db, op: Op)
    requires op.Withdraw? && Enabled(db, op)
    ensures var a, p, text := op.asset, db.assets[op.asset].precision, op.text;
      AmountText.WellFormed(text) &&
      (BalanceOf(Apply(db, op).balances, op.owner, a) > BalanceOf(db.balances, op.owner, a) <==>
        AmountSign.BelowZero(text, p)) &&
      (Get(Apply(db, op).supply, a) > Get(db.supply, a) <==> AmountSign.BelowZero(text, p)) &&
      var n, max := AmountSign.Number(text, p), db.assets[a].maxSupply;
      (0 <= max <= AmountText.INT64_MAX && 0 - max <= n <= max && AmountSign.Harmless(text, p) ==>
        (AmountSign.BelowZero(text, p) <==> n < 0))
  {
    var asset := db.assets[op.asset];
    AmountSign.ReadsBelow(asset.precision, asset.maxSupply, op.text);
    AmountSign.ReadIsWellFormed(asset.precision, asset.maxSupply, op.text);
    hide AmountText.Parsed, AmountSign.BelowZero, AmountSign.Number, AmountSign.Harmless, AmountText.WellFormed;
    AdjustedBalance(db.balances, op.owner, op.asset, -AmountIn(db.assets, op.asset, op.text), op.owner, op.asset);
    if 0 <= asset.maxSupply <= AmountText.INT64_MAX {
      AmountSign.ReadsNumber(asset.precision, asset.maxSupply, op.text);
    }
  }

  /** While a withdrawal of a negative amount is open, claiming all other open ones is enabled
      and claims more in its asset than all withdrawals took. */
  lemma NegativeOvertakes(db: Db, u: TxId, op: Op)
    requires Inv(db) && u in Opens(db.records) && db.records[u].kind.amount < 0
    requires op.CreateWithoutSign? && op.id !in db.records && op.symbol in db.supply && op.asset in db.supply
    requires op.origins != [] && Members(op.origins) == Opens(db.records) - {u}
    ensures Enabled(db, op)
    ensures var R, a := Apply(db, op).records, db.records[u].kind.asset;
      ClaimedTotal(R, a) > DebitedTotal(R, a) == DebitedTotal(db.records, a)
  {
    hide Inv;
    var a := db.records[u].kind.asset;
    assert forall o :: o in op.origins ==> o in Members(op.origins);
    var R := Apply(db, op).records;
    assert Opens(R) == {u};
    SumPick({u}, v => Debit(R, a, v), u);
    assert {u} - {u} == {};
    ClaimedAndOpen(R, a);
    ApplyDebits(db, op, a);
  }
}
