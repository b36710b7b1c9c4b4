/** Item names, sale prices, the printed price list, and how a sell amount
    is validated. */
module Market {
  import opened Types

  /** The name of an item as typed after `sell` and as its inventory key. */
  function ItemName(it: Item): string {
    match it
    case Wood => "wood"
    case Apple => "apple"
    case Diamond => "diamond"
    case Fish => "fish"
    case Puffer => "puffer"
  }

  /** The item a typed name selects; the comparison is exact (no case folding). */
  function ItemNamed(name: string): (r: Option<Item>)
    ensures r.Some? ==> ItemName(r.value) == name
    ensures r.None? ==> forall it :: ItemName(it) != name
  {
    if name == "wood" then Some(Wood)
    else if name == "apple" then Some(Apple)
    else if name == "diamond" then Some(Diamond)
    else if name == "fish" then Some(Fish)
    else if name == "puffer" then Some(Puffer)
    else None
  }

  /** Every item is found again from its own name. */
  lemma ItemNameRoundTrip(it: Item)
    ensures ItemNamed(ItemName(it)) == Some(it)
  {
  }

  /** Coins paid per unit when selling. */
  function SalePrice(it: Item): (p: nat)
    ensures p > 0
  {
    match it
    case Wood => 5
    case Apple => 20
    case Diamond => 120
    case Fish => 10
    case Puffer => 100
  }

  /** The price the `prices` command prints. */
  function ListedPrice(it: Item): (p: nat)
    ensures p > 0
  {
    match it
    case Wood => 5
    case Apple => 20
    case Diamond => 150
    case Fish => 10
    case Puffer => 100
  }

  /** The printed list agrees with the sale price for every item but diamond. */
  lemma ListedPriceAgreesExceptDiamond(it: Item)
    ensures ListedPrice(it) == SalePrice(it) <==> it != Diamond
  {
  }

  /** The amount word of a sell command: the literal `all`, or whatever
      `parseInt` made of the word (None for NaN, including a missing word). */
  datatype AmountArg = All | Parsed(n: Option<int>)

  /** How many units a sale takes from a positive holding, or None when the
      amount is rejected: 0, NaN, negative, or more than is held. */
  function SellQuantity(held: int, amount: AmountArg): (q: Option<int>)
    requires held > 0
    ensures q.Some? <==> amount.All? || (amount.n.Some? && 0 < amount.n.value <= held)
    ensures q.Some? ==> 0 < q.value <= held
    ensures amount.All? ==> q == Some(held)
    ensures amount.Parsed? && q.Some? ==> q == amount.n
  {
    match amount
    case All => Some(held)
    case Parsed(n) =>
      if n.None? || n.value == 0 || n.value <= 0 || n.value > held then None else n
  }
}
