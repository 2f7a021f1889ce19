/** The two quantity classifiers of a table row: the row highlight (`getStockClass`)
    and the quantity badge (`getQuantityBadgeClass`). Breakpoints 0, 5 and 10. */
module Stock {

  const LowStock := "low-stock"
  const MediumStock := "medium-stock"
  const HighStock := "high-stock"

  const BadgeDanger := "bg-danger"
  const BadgeWarning := "bg-warning text-dark"
  const BadgeInfo := "bg-info"
  const BadgeSuccess := "bg-success"

  /** Row highlight class. `getStockClass` in app.js tests zero first, with the same answer as the
      test below it, so zero is just another low quantity. */
  function StockClass(quantity: int): (c: string)
    ensures c == LowStock <==> quantity < 5
    ensures c == MediumStock <==> 5 <= quantity < 10
    ensures c == HighStock <==> 10 <= quantity
  {
    if quantity == 0 then LowStock
    else if quantity < 5 then LowStock
    else if quantity < 10 then MediumStock
    else HighStock
  }

  /** Quantity badge class: unlike the row highlight, zero has a badge of its own. */
  function QuantityBadgeClass(quantity: int): (c: string)
    ensures c == BadgeDanger <==> quantity == 0
    ensures c == BadgeWarning <==> quantity < 5 && quantity != 0
    ensures c == BadgeInfo <==> 5 <= quantity < 10
    ensures c == BadgeSuccess <==> 10 <= quantity
  {
    if quantity == 0 then BadgeDanger
    else if quantity < 5 then BadgeWarning
    else if quantity < 10 then BadgeInfo
    else BadgeSuccess
  }

  /** Severity rank of a row highlight class: low 0, medium 1, high 2. */
  function StockRank(c: string): nat
  {
    if c == LowStock then 0 else if c == MediumStock then 1 else 2
  }

  /** More stock never gives a lower tier. */
  lemma StockTierMonotone(q1: int, q2: int)
    requires q1 <= q2
    ensures StockRank(StockClass(q1)) <= StockRank(StockClass(q2))
  {
  }

  /** The badge and the highlight agree on the bands from 5 up, and the badge's
      danger and warning classes split the highlight's single low band at zero. */
  lemma BadgeRefinesStock(q: int)
    ensures QuantityBadgeClass(q) == BadgeInfo <==> StockClass(q) == MediumStock
    ensures QuantityBadgeClass(q) == BadgeSuccess <==> StockClass(q) == HighStock
    ensures StockClass(q) == LowStock <==>
              QuantityBadgeClass(q) == BadgeDanger || QuantityBadgeClass(q) == BadgeWarning
  {
  }

  /** The two functions differ only in how they treat zero: the highlight gives zero
      the class of every other low quantity, the badge does not. */
  lemma ZeroDistinguishesOnlyTheBadge()
    ensures StockClass(0) == StockClass(1) == StockClass(4)
    ensures QuantityBadgeClass(0) != QuantityBadgeClass(1)
    ensures QuantityBadgeClass(1) == QuantityBadgeClass(4)
  {
  }
}
