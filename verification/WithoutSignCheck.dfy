/** The full check of a without-sign operation: withdrawals are grouped by
    destination and compared with the payouts of the foreign transaction. */
module WithoutSignCheck {
  import opened Sums
  import opened Balances
  import opened Commons
  import opened AmountText
  import opened AmountValue

  type Destination = string

  /** A withdrawal as an operation lists it: where it goes, the asset its symbol names, and
      its amount. */
  datatype Listing = Listing(to: Destination, symbol: Asset, text: string)

  datatype Item = Item(to: Destination, amount: int)

  /** Every withdrawal has the symbol of the foreign transaction, and its amount reads with
      that asset. */
  predicate Legible(listings: seq<Listing>, symbol: Asset, asset: AssetRef) {
    forall i :: 0 <= i < |listings| ==> listings[i].symbol == symbol && Read(asset, listings[i].text).Ok?
  }

  function ItemOf(listing: Listing, asset: AssetRef): Item {
    Item(listing.to, if Read(asset, listing.text).Ok? then Read(asset, listing.text).value else 0)
  }

  function Items(listings: seq<Listing>, asset: AssetRef): seq<Item> {
    seq(|listings|, i requires 0 <= i < |listings| => ItemOf(listings[i], asset))
  }

  /** The outputs of the foreign transaction, as the handle renders them. */
  type Payouts = map<Destination, string>

  /** The asset found by the operation's symbol, the one found by its id, and the fee for
      each withdrawal. */
  datatype Rules = Rules(bySymbol: AssetRef, byId: AssetRef, fee: int)

  function AmountTo(items: seq<Item>, d: Destination): int {
    if items == [] then 0
    else
      var n := |items| - 1;
      AmountTo(items[..n], d) + if items[n].to == d then items[n].amount else 0
  }

  function CountTo(items: seq<Item>, d: Destination): nat {
    if items == [] then 0
    else
      var n := |items| - 1;
      CountTo(items[..n], d) + if items[n].to == d then 1 else 0
  }

  function TotalAmount(items: seq<Item>): int {
    if items == [] then 0 else TotalAmount(items[..|items| - 1]) + items[|items| - 1].amount
  }

  function ReadOf(asset: AssetRef, payouts: Payouts, d: Destination): int {
    if d in payouts && Read(asset, payouts[d]).Ok? then Read(asset, payouts[d]).value else 0
  }

  /** What the payouts come to, read with one asset. */
  ghost function TotalRead(asset: AssetRef, payouts: Payouts): int {
    Sum(payouts.Keys, d => ReadOf(asset, payouts, d))
  }

  function Destinations(items: seq<Item>): set<Destination> {
    set i | 0 <= i < |items| :: items[i].to
  }

  /** Every amount reads with both assets. */
  predicate Readable(payouts: Payouts, rules: Rules, network: string) {
    Read(rules.byId, network).Ok? &&
    forall d :: d in payouts ==> Read(rules.bySymbol, payouts[d]).Ok? && Read(rules.byId, payouts[d]).Ok?
  }

  /** Every destination is paid its withdrawals less one fee for each, and the
      foreign transaction with both fees uses up what was withdrawn. */
  ghost predicate Passes(items: seq<Item>, payouts: Payouts, rules: Rules, kept: int, network: string) {
    Destinations(items) == payouts.Keys && Readable(payouts, rules, network) &&
    (forall d :: d in payouts ==>
      AmountTo(items, d) == ReadOf(rules.bySymbol, payouts, d) + CountTo(items, d) * rules.fee) &&
    kept >= 0 && TotalAmount(items) == TotalRead(rules.byId, payouts) + kept + Read(rules.byId, network).value
  }

  lemma DestinationsOfPrefix(items: seq<Item>, i: nat)
    requires i < |items|
    ensures Destinations(items[..i + 1]) == Destinations(items[..i]) + {items[i].to}
  {
    var a, b := items[..i], items[..i + 1];
    assert forall k :: 0 <= k < i ==> a[k] == b[k];
    forall d | d in Destinations(a)
      ensures d in Destinations(b)
    {
      var k :| 0 <= k < i && a[k].to == d;
      assert b[k].to == d;
    }
    assert b[i].to in Destinations(b);
  }

  /** The groups of a prefix of the withdrawals. */
  ghost predicate Grouped(items: seq<Item>, balances: map<Destination, int>, fees: map<Destination, int>, fee: int) {
    balances.Keys == Destinations(items) && fees.Keys == Destinations(items) &&
    forall d :: d in balances ==> balances[d] == AmountTo(items, d) && fees[d] == CountTo(items, d) * fee
  }

  lemma {:induction false} NothingTo(items: seq<Item>, d: Destination)
    requires d !in Destinations(items)
    ensures AmountTo(items, d) == 0 && CountTo(items, d) == 0
  {
    if items != [] {
      var n := |items| - 1;
      assert items == items[..n + 1];
      DestinationsOfPrefix(items, n);
      NothingTo(items[..n], d);
      assert items[n].to in Destinations(items);
    }
  }

  lemma GroupedOneMore(items: seq<Item>, item: Item, balances: map<Destination, int>, fees: map<Destination, int>,
                       fee: int)
    requires Grouped(items, balances, fees, fee)
    ensures var d := item.to;
      Grouped(items + [item],
              balances[d := (if d in balances then balances[d] else 0) + item.amount],
              fees[d := (if d in fees then fees[d] else 0) + fee], fee)
  {
    var longer, d := items + [item], item.to;
    var n := |items|;
    assert longer[..n] == items && longer[..n + 1] == longer;
    DestinationsOfPrefix(longer, n);
    if d !in balances {
      NothingTo(items, d);
    }
    forall x
      ensures AmountTo(longer, x) == AmountTo(items, x) + if x == d then item.amount else 0
      ensures CountTo(longer, x) * fee == CountTo(items, x) * fee + if x == d then fee else 0
    {
      OneMore(items, item, x, fee);
    }
    hide AmountTo, CountTo, Destinations;
  }

  lemma OneMore(items: seq<Item>, item: Item, x: Destination, fee: int)
    ensures var longer := items + [item];
      AmountTo(longer, x) == AmountTo(items, x) + (if x == item.to then item.amount else 0) &&
      CountTo(longer, x) * fee == CountTo(items, x) * fee + if x == item.to then fee else 0
  {
    assert (items + [item])[..|items|] == items;
    assert (CountTo(items, x) + 1) * fee == CountTo(items, x) * fee + fee;
  }

  /** The first loop: amounts and fees of each destination. */
  method GroupItems(listings: seq<Listing>, symbol: Asset, payouts: Payouts, rules: Rules)
    returns (ok: bool, balances: map<Destination, int>, fees: map<Destination, int>)
    ensures ok <==> Legible(listings, symbol, rules.bySymbol) &&
                    Destinations(Items(listings, rules.bySymbol)) <= payouts.Keys
    ensures ok ==> Grouped(Items(listings, rules.bySymbol), balances, fees, rules.fee)
  {
    hide Read, Grouped;
    balances, fees := map[], map[];
    ghost var items := Items(listings, rules.bySymbol);
    NothingGrouped(rules.fee);
    for i := 0 to |listings|
      invariant Legible(listings[..i], symbol, rules.bySymbol)
      invariant Destinations(items[..i]) <= payouts.Keys
      invariant Grouped(items[..i], balances, fees, rules.fee)
    {
      var d := listings[i].to;
      DestinationsOfPrefix(items, i);
      if d !in payouts {
        assert items[i].to in Destinations(items);
        return false, balances, fees;
      }
      var amount := Read(rules.bySymbol, listings[i].text);
      if listings[i].symbol != symbol || amount.Err? {
        return false, balances, fees;
      }
      GroupedOneMore(items[..i], items[i], balances, fees, rules.fee);
      assert items[..i] + [items[i]] == items[..i + 1];
      balances := balances[d := (if d in balances then balances[d] else 0) + amount.value];
      fees := fees[d := (if d in fees then fees[d] else 0) + rules.fee];
    }
    assert items[..|items|] == items && listings[..|listings|] == listings;
    ok := true;
  }

  lemma NothingGrouped(fee: int)
    ensures Grouped([], map[], map[], fee)
  {
  }

  /** The loops of the program: group, compare each group, compare the totals. */
  method Check(listings: seq<Listing>, symbol: Asset, payouts: Payouts, rules: Rules, kept: int, network: string)
    returns (ok: bool)
    ensures ok <==> Legible(listings, symbol, rules.bySymbol) &&
                    Passes(Items(listings, rules.bySymbol), payouts, rules, kept, network)
    ensures ok <==>
      (forall i :: 0 <= i < |listings| ==>
        listings[i].symbol == symbol && Read(rules.bySymbol, listings[i].text).Ok?) &&
      Passes(Items(listings, rules.bySymbol), payouts, rules, kept, network)
  {
    assert Legible(listings, symbol, rules.bySymbol) <==>
      forall i :: 0 <= i < |listings| ==>
        listings[i].symbol == symbol && Read(rules.bySymbol, listings[i].text).Ok?;
    hide Read, Grouped, Passes, Items, Legible, TotalRead, Readable;
    var known, balances, fees := GroupItems(listings, symbol, payouts, rules);
    ghost var items := Items(listings, rules.bySymbol);
    if !known || Read(rules.byId, network).Err? {
      PassesNeeds(items, payouts, rules, kept, network);
      return false;
    }
    PassesWhen(items, balances, fees, payouts, rules, kept, network);
    if |balances| != |payouts| {
      return false;
    }
    SameSize(balances.Keys, payouts.Keys);
    var agree, total := CompareGroups(balances, fees, payouts, rules.bySymbol);
    if !agree {
      return false;
    }
    var read, paid := SumPayouts(payouts, rules.byId);
    ok := read && kept >= 0 && total == paid + kept + Read(rules.byId, network).value;
  }

  lemma PassesNeeds(items: seq<Item>, payouts: Payouts, rules: Rules, kept: int, network: string)
    ensures Passes(items, payouts, rules, kept, network) ==>
      Destinations(items) <= payouts.Keys && Read(rules.byId, network).Ok?
  {
    hide Read;
  }

  /** The check in terms of the groups. */
  lemma PassesWhen(items: seq<Item>, balances: map<Destination, int>, fees: map<Destination, int>, payouts: Payouts,
                   rules: Rules, kept: int, network: string)
    requires Grouped(items, balances, fees, rules.fee) && Read(rules.byId, network).Ok?
    ensures balances.Keys == fees.Keys == Destinations(items)
    ensures Passes(items, payouts, rules, kept, network) <==>
      balances.Keys == payouts.Keys &&
      (forall d :: d in payouts ==>
        Read(rules.bySymbol, payouts[d]).Ok? && balances[d] == ReadOf(rules.bySymbol, payouts, d) + fees[d]) &&
      (forall d :: d in payouts ==> Read(rules.byId, payouts[d]).Ok?) && kept >= 0 &&
      Sum(payouts.Keys, d => if d in balances then balances[d] else 0) ==
        TotalRead(rules.byId, payouts) + kept + Read(rules.byId, network).value
  {
    hide Read, TotalRead;
    if balances.Keys == payouts.Keys {
      GroupedTotals(items, balances, fees, payouts, rules);
    }
  }

  lemma GroupedTotals(items: seq<Item>, balances: map<Destination, int>, fees: map<Destination, int>, payouts: Payouts,
                      rules: Rules)
    requires Grouped(items, balances, fees, rules.fee) && balances.Keys == payouts.Keys
    ensures Sum(payouts.Keys, d => if d in balances then balances[d] else 0) == TotalAmount(items)
    ensures forall d :: d in payouts ==>
      (balances[d] == ReadOf(rules.bySymbol, payouts, d) + fees[d] <==>
       AmountTo(items, d) == ReadOf(rules.bySymbol, payouts, d) + CountTo(items, d) * rules.fee)
  {
    GroupsAddUp(items, payouts.Keys);
    SumSame(payouts.Keys, d => if d in balances then balances[d] else 0, d => AmountTo(items, d));
  }

  lemma SameSize<T>(a: set<T>, b: set<T>)
    requires a <= b && |a| == |b|
    ensures a == b
  {
    assert b == a + (b - a);
  }

  method CompareGroups(balances: map<Destination, int>, fees: map<Destination, int>, payouts: Payouts, asset: AssetRef)
    returns (ok: bool, total: int)
    requires balances.Keys == fees.Keys == payouts.Keys
    ensures ok <==> forall d :: d in payouts ==>
      Read(asset, payouts[d]).Ok? && balances[d] == ReadOf(asset, payouts, d) + fees[d]
    ensures ok ==> total == Sum(payouts.Keys, d => if d in balances then balances[d] else 0)
  {
    hide Read;
    var todo := balances.Keys;
    total := 0;
    while todo != {}
      invariant todo <= payouts.Keys
      invariant forall d :: d in payouts && d !in todo ==>
        Read(asset, payouts[d]).Ok? && balances[d] == ReadOf(asset, payouts, d) + fees[d]
      invariant total + Sum(todo, d => if d in balances then balances[d] else 0)
             == Sum(payouts.Keys, d => if d in balances then balances[d] else 0)
      decreases |todo|
    {
      var d :| d in todo;
      var payout := Read(asset, payouts[d]);
      if payout.Err? || balances[d] != payout.value + fees[d] {
        return false, total;
      }
      SumPick(todo, d => if d in balances then balances[d] else 0, d);
      total := total + balances[d];
      todo := todo - {d};
    }
    return true, total;
  }

  method SumPayouts(payouts: Payouts, asset: AssetRef) returns (ok: bool, total: int)
    ensures ok <==> forall d :: d in payouts ==> Read(asset, payouts[d]).Ok?
    ensures ok ==> total == TotalRead(asset, payouts)
  {
    hide Read;
    var todo := payouts.Keys;
    total := 0;
    while todo != {}
      invariant todo <= payouts.Keys
      invariant forall d :: d in payouts && d !in todo ==> Read(asset, payouts[d]).Ok?
      invariant total + Sum(todo, d => ReadOf(asset, payouts, d)) == TotalRead(asset, payouts)
      decreases |todo|
    {
      var d :| d in todo;
      var payout := Read(asset, payouts[d]);
      if payout.Err? {
        return false, total;
      }
      SumPick(todo, d => ReadOf(asset, payouts, d), d);
      total := total + payout.value;
      todo := todo - {d};
    }
    ok := true;
  }

  /** Grouping by destination loses nothing. */
  lemma {:induction false} GroupsAddUp(items: seq<Item>, D: set<Destination>)
    requires Destinations(items) <= D
    ensures Sum(D, d => AmountTo(items, d)) == TotalAmount(items)
    ensures Sum(D, d => CountTo(items, d)) == |items|
  {
    if items == [] {
      SumZero(D, d => AmountTo(items, d));
      SumZero(D, d => CountTo(items, d));
    } else {
      var n := |items| - 1;
      var rest, last := items[..n], items[n];
      assert items == items[..n + 1];
      DestinationsOfPrefix(items, n);
      GroupsAddUp(rest, D);
      SumChange(D, D, d => AmountTo(rest, d), d => AmountTo(items, d), last.to);
      SumChange(D, D, d => CountTo(rest, d), d => CountTo(items, d), last.to);
    }
  }

  /** Both fees together. */
  function Fees(rules: Rules, kept: int, network: string): int
    requires Read(rules.byId, network).Ok?
  {
    Read(rules.byId, network).value + kept
  }

  /** Whenever the check passes, the two fees differ from one fee for each withdrawal
      by exactly as much as the two readings of the payouts differ. */
  lemma FeesCoverWithdrawals(items: seq<Item>, payouts: Payouts, rules: Rules, kept: int, network: string)
    requires Passes(items, payouts, rules, kept, network)
    ensures Fees(rules, kept, network) - |items| * rules.fee ==
            TotalRead(rules.bySymbol, payouts) - TotalRead(rules.byId, payouts)
  {
    hide Read, ReadOf;
    var D := payouts.Keys;
    GroupsAddUp(items, D);
    SumScaled(D, d => CountTo(items, d), d => CountTo(items, d) * rules.fee, rules.fee);
    SumPlus(D, d => ReadOf(rules.bySymbol, payouts, d), d => CountTo(items, d) * rules.fee, d => AmountTo(items, d));
  }

  /** What the withdrawals of a destination come to, each less the fee. */
  function NetTo(items: seq<Item>, d: Destination, fee: int): int {
    if items == [] then 0
    else
      var n := |items| - 1;
      NetTo(items[..n], d, fee) + if items[n].to == d then items[n].amount - fee else 0
  }

  lemma {:induction false} NetIs(items: seq<Item>, d: Destination, fee: int)
    ensures NetTo(items, d, fee) == AmountTo(items, d) - CountTo(items, d) * fee
  {
    if items != [] {
      var n := |items| - 1;
      NetIs(items[..n], d, fee);
      assert (CountTo(items[..n], d) + 1) * fee == CountTo(items[..n], d) * fee + fee;
    }
  }

  /** The check passes exactly when every withdrawal has an output at its destination and every
      output some withdrawal, each output reads as what its withdrawals come to, each less the
      fee, nothing negative is kept, and the withdrawals come to what leaves, as read with the
      asset found by id, and what is kept. */
  lemma PassesExactly(items: seq<Item>, payouts: Payouts, rules: Rules, kept: int, network: string)
    ensures Passes(items, payouts, rules, kept, network) <==>
      (forall d :: d in payouts <==> exists i :: 0 <= i < |items| && items[i].to == d) &&
      (forall d :: d in payouts ==>
        Read(rules.bySymbol, payouts[d]) == Ok(NetTo(items, d, rules.fee)) && Read(rules.byId, payouts[d]).Ok?) &&
      kept >= 0 && Read(rules.byId, network).Ok? &&
      TotalAmount(items) == TotalRead(rules.byId, payouts) + Read(rules.byId, network).value + kept
  {
    hide Read, TotalRead, AmountTo, CountTo, NetTo, TotalAmount;
    forall d
      ensures NetTo(items, d, rules.fee) == AmountTo(items, d) - CountTo(items, d) * rules.fee
    {
      NetIs(items, d, rules.fee);
    }
    assert Destinations(items) == payouts.Keys <==>
      forall d :: d in payouts <==> exists i :: 0 <= i < |items| && items[i].to == d;
  }

  /** Then no more leaves than was withdrawn. */
  lemma PaysNoMore(items: seq<Item>, payouts: Payouts, rules: Rules, kept: int, network: string)
    requires Passes(items, payouts, rules, kept, network)
    ensures TotalRead(rules.byId, payouts) + Read(rules.byId, network).value <= TotalAmount(items)
  {
    hide Read, TotalRead, TotalAmount;
  }

  /** Some payout is not zero at the given precision. */
  predicate SomePaid(payouts: Payouts, precision: nat)
    requires forall d :: d in payouts ==> Unsigned(payouts[d])
  {
    exists d :: d in payouts && Denotes(payouts[d], precision) != 0
  }

  function Wider(rules: Rules): nat {
    if rules.bySymbol.precision < rules.byId.precision then rules.byId.precision else rules.bySymbol.precision
  }

  lemma WiderIs(rules: Rules)
    ensures var p, q := rules.bySymbol.precision, rules.byId.precision; Wider(rules) == if p <= q then q else p
  {
  }

  lemma UnsignedRead(asset: AssetRef, payouts: Payouts, d: Destination)
    requires d in payouts && Unsigned(payouts[d]) && Read(asset, payouts[d]).Ok? && 0 <= asset.maxSupply <= INT64_MAX
    ensures asset.precision < 19 && ReadOf(asset, payouts, d) == Denotes(payouts[d], asset.precision)
  {
    ReadUnsigned(asset.precision, asset.maxSupply, payouts[d]);
    hide Denotes;
  }

  predicate ReadsWith(asset: AssetRef, payouts: Payouts) {
    0 <= asset.maxSupply <= INT64_MAX &&
    forall d :: d in payouts ==> Unsigned(payouts[d]) && Read(asset, payouts[d]).Ok?
  }

  lemma UnsignedReads(asset: AssetRef, payouts: Payouts)
    requires ReadsWith(asset, payouts)
    ensures forall d :: d in payouts ==> ReadOf(asset, payouts, d) == Denotes(payouts[d], asset.precision)
  {
    hide Read, Denotes, ReadOf, Unsigned;
    forall d | d in payouts
      ensures ReadOf(asset, payouts, d) == Denotes(payouts[d], asset.precision)
    {
      UnsignedRead(asset, payouts, d);
    }
  }

  /** Nothing is paid exactly when the total is zero; it is never negative. */
  lemma PaidSomething(asset: AssetRef, payouts: Payouts)
    requires ReadsWith(asset, payouts)
    ensures TotalRead(asset, payouts) >= 0
    ensures TotalRead(asset, payouts) == 0 <==> !SomePaid(payouts, asset.precision)
  {
    UnsignedReads(asset, payouts);
    hide Read, Denotes, ReadOf, Unsigned;
    SumZero(payouts.Keys, (d: Destination) => 0);
    OrderedSums(payouts.Keys, (d: Destination) => 0, d => ReadOf(asset, payouts, d));
  }

  /** Read with more precision the payouts come to more, unless they come to nothing. */
  lemma TotalGrows(low: AssetRef, high: AssetRef, payouts: Payouts)
    requires ReadsWith(low, payouts) && ReadsWith(high, payouts) && low.precision <= high.precision
    ensures TotalRead(low, payouts) <= TotalRead(high, payouts)
    ensures TotalRead(low, payouts) == TotalRead(high, payouts) <==>
            low.precision == high.precision || TotalRead(high, payouts) == 0
  {
    UnsignedReads(low, payouts);
    UnsignedReads(high, payouts);
    PaidSomething(high, payouts);
    hide Read, Denotes, ReadOf, Unsigned;
    var f, g := (d: Destination) => ReadOf(low, payouts, d), (d: Destination) => ReadOf(high, payouts, d);
    forall d | d in payouts
      ensures f(d) <= g(d) && (f(d) == g(d) <==> low.precision == high.precision || g(d) == 0)
    {
      DenotesOrder(payouts[d], low.precision, high.precision);
    }
    OrderedSums(payouts.Keys, f, g);
  }

  /** With payouts that carry no sign, the fees come to one fee for each withdrawal exactly
      when the two assets have the same precision, or nothing is paid out. */
  lemma FeesAreExact(items: seq<Item>, payouts: Payouts, rules: Rules, kept: int, network: string)
    requires Passes(items, payouts, rules, kept, network)
    requires 0 <= rules.bySymbol.maxSupply <= INT64_MAX && 0 <= rules.byId.maxSupply <= INT64_MAX
    requires forall d :: d in payouts ==> Unsigned(payouts[d])
    ensures Fees(rules, kept, network) == |items| * rules.fee <==>
            rules.bySymbol.precision == rules.byId.precision || !SomePaid(payouts, Wider(rules))
  {
    WiderIs(rules);
    PassesReads(items, payouts, rules, kept, network);
    assert ReadsWith(rules.bySymbol, payouts) && ReadsWith(rules.byId, payouts);
    hide *;
    FeesCoverWithdrawals(items, payouts, rules, kept, network);
    if rules.bySymbol.precision <= rules.byId.precision {
      TotalGrows(rules.bySymbol, rules.byId, payouts);
      PaidSomething(rules.byId, payouts);
    } else {
      TotalGrows(rules.byId, rules.bySymbol, payouts);
      PaidSomething(rules.bySymbol, payouts);
    }
  }

  lemma PassesReads(items: seq<Item>, payouts: Payouts, rules: Rules, kept: int, network: string)
    requires Passes(items, payouts, rules, kept, network)
    ensures Readable(payouts, rules, network)
  {
  }

  /** A withdrawal of 100 is paid "9": 90 in the asset of the symbol, 9 in that of the id.
      With a fee of 10 the operation keeps 91. */
  lemma PrecisionsDiffer()
    ensures var items := [Item("d", 100)];
      var payouts: Payouts := map["d" := "9"];
      var rules := Rules(AssetRef(1, 1000), AssetRef(0, 1000), 10);
      Passes(items, payouts, rules, 91, "0") && Fees(rules, 91, "0") == 91 && |items| * rules.fee == 10
  {
    var items := [Item("d", 100)];
    var payouts: Payouts := map["d" := "9"];
    var rules := Rules(AssetRef(1, 1000), AssetRef(0, 1000), 10);
    SmallNumbers();
    assert items[..0] == [];
    assert Destinations(items) == {"d"} by {
      assert items[0].to == "d";
    }
    assert payouts.Keys == {"d"};
    SumPick(payouts.Keys, d => ReadOf(rules.byId, payouts, d), "d");
    assert payouts.Keys - {"d"} == {};
  }

  lemma SmallNumbers()
    ensures Parsed(1, 1000, "9") == Ok(90) && Parsed(0, 1000, "9") == Ok(9) && Parsed(0, 1000, "0") == Ok(0)
  {
    ReadWhole(1, 1000, "9");
    ReadWhole(0, 1000, "9");
    ReadWhole(0, 1000, "0");
    assert Value("9") == 9 && Value("0") == 0 by {
      assert "9"[..0] == "" && "0"[..0] == "";
    }
    assert Pow10(0) == 1 && Pow10(1) == 10;
  }

  /** With amounts of both signs the fees can be exact whatever the precisions are: "9" and
      "-9" come to nothing in either asset. */
  lemma SignsCancel()
    ensures var items := [Item("d", 190), Item("e", 10)];
      var payouts: Payouts := map["d" := "9", "e" := "-9"];
      var rules := Rules(AssetRef(1, 1000), AssetRef(0, 1000), 100);
      Passes(items, payouts, rules, 200, "0") && Fees(rules, 200, "0") == |items| * rules.fee
  {
    var items := [Item("d", 190), Item("e", 10)];
    var payouts: Payouts := map["d" := "9", "e" := "-9"];
    var rules := Rules(AssetRef(1, 1000), AssetRef(0, 1000), 100);
    CancelledReadings(payouts, rules);
    TwoGroups(items);
    TwoPass(items, payouts, rules, 200, "0");
    hide Passes, Read;
  }

  /** The check with two destinations. */
  lemma TwoPass(items: seq<Item>, payouts: Payouts, rules: Rules, kept: int, network: string)
    requires Destinations(items) == payouts.Keys == {"d", "e"} && Readable(payouts, rules, network) && kept >= 0
    requires AmountTo(items, "d") == ReadOf(rules.bySymbol, payouts, "d") + CountTo(items, "d") * rules.fee
    requires AmountTo(items, "e") == ReadOf(rules.bySymbol, payouts, "e") + CountTo(items, "e") * rules.fee
    requires TotalAmount(items) == TotalRead(rules.byId, payouts) + kept + Read(rules.byId, network).value
    ensures Passes(items, payouts, rules, kept, network)
  {
    hide Read, ReadOf, AmountTo, CountTo, TotalAmount, Destinations, TotalRead, Readable;
  }

  lemma CancelledReadings(payouts: Payouts, rules: Rules)
    requires payouts == map["d" := "9", "e" := "-9"]
    requires rules.bySymbol == AssetRef(1, 1000) && rules.byId == AssetRef(0, 1000)
    ensures payouts.Keys == {"d", "e"} && Readable(payouts, rules, "0")
    ensures Read(rules.byId, "0").value == 0 && TotalRead(rules.byId, payouts) == 0
    ensures ReadOf(rules.bySymbol, payouts, "d") == 90 && ReadOf(rules.bySymbol, payouts, "e") == -90
  {
    SmallNumbers();
    SmallNegatives();
    hide Parsed;
    assert payouts.Keys == {"d", "e"};
    SumPick(payouts.Keys, d => ReadOf(rules.byId, payouts, d), "d");
    assert payouts.Keys - {"d"} == {"e"};
    SumPick({"e"}, d => ReadOf(rules.byId, payouts, d), "e");
    assert {"e"} - {"e"} == {};
  }

  lemma SmallNegatives()
    ensures Parsed(1, 1000, "-9") == Ok(-90) && Parsed(0, 1000, "-9") == Ok(-9)
  {
    SmallNumbers();
    hide Parsed;
    assert "-" + "9" == "-9";
    ReadNegativeWhole(1, 1000, "9");
    ReadNegativeWhole(0, 1000, "9");
  }

  lemma TwoGroups(items: seq<Item>)
    requires items == [Item("d", 190), Item("e", 10)]
    ensures TotalAmount(items) == 200 && Destinations(items) == {"d", "e"}
    ensures AmountTo(items, "d") == 190 && AmountTo(items, "e") == 10
    ensures CountTo(items, "d") == 1 && CountTo(items, "e") == 1
  {
    var one := [Item("d", 190)];
    assert items[..1] == one && one[..0] == [];
    assert TotalAmount(one) == 190 && AmountTo(one, "d") == 190 && AmountTo(one, "e") == 0;
    assert CountTo(one, "d") == 1 && CountTo(one, "e") == 0;
    assert items[0].to == "d" && items[1].to == "e";
  }
}
