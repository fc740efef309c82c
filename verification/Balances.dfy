/** The balance table: one record for each address and asset. */
module Balances {
  import opened Sums

  type Address = nat
  type Asset = nat

  /** The default-constructed address, which owns nothing. */
  const NO_ADDRESS: Address := 0

  type Table = map<(Address, Asset), int>

  function BalanceOf(b: Table, owner: Address, asset: Asset): int {
    if (owner, asset) in b then b[(owner, asset)] else 0
  }

  /** `adjust_balance` goes through: a zero change always does; otherwise the address
      must be real, and a debit needs a record that covers it. */
  predicate CanAdjust(b: Table, owner: Address, asset: Asset, delta: int) {
    delta == 0 ||
    (owner != NO_ADDRESS &&
     (if (owner, asset) in b then delta < 0 ==> b[(owner, asset)] >= -delta else delta > 0))
  }

  function Adjusted(b: Table, owner: Address, asset: Asset, delta: int): Table {
    if delta == 0 then b else b[(owner, asset) := BalanceOf(b, owner, asset) + delta]
  }

  /** What one record contributes to the total of `asset`. */
  function Share(b: Table, asset: Asset, k: (Address, Asset)): int {
    if k in b && k.1 == asset then b[k] else 0
  }

  /** The sum of all balances of `asset`. */
  ghost function Total(b: Table, asset: Asset): int {
    Sum(b.Keys, k => Share(b, asset, k))
  }

  /** Where no debt is, an adjustment goes through exactly when it leaves none and the address
      is real: a debit beyond the record fails, and so does any change for the null address. */
  lemma AdjustableIff(b: Table, owner: Address, asset: Asset, delta: int)
    requires BalanceOf(b, owner, asset) >= 0
    ensures CanAdjust(b, owner, asset, delta) <==>
      delta == 0 || (owner != NO_ADDRESS && BalanceOf(b, owner, asset) + delta >= 0)
  {
  }

  /** Only the balance of the owner in the asset moves, by the amount. */
  lemma AdjustedBalance(b: Table, owner: Address, asset: Asset, delta: int, o: Address, a: Asset)
    ensures BalanceOf(Adjusted(b, owner, asset, delta), o, a)
         == BalanceOf(b, o, a) + if (o, a) == (owner, asset) then delta else 0
  {
  }

  /** An adjustment moves the total of its own asset by exactly its amount. */
  lemma AdjustedTotal(b: Table, owner: Address, asset: Asset, delta: int, a: Asset)
    ensures Total(Adjusted(b, owner, asset, delta), a) == Total(b, a) + if a == asset then delta else 0
  {
    if delta != 0 {
      var b' := Adjusted(b, owner, asset, delta);
      var k := (owner, asset);
      assert b'.Keys == b.Keys + {k};
      SumChange(b.Keys, b'.Keys, k => Share(b, a, k), k => Share(b', a, k), k);
    }
  }
}
