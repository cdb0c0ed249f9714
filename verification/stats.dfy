/**
 * The four inventory cards: number of products, number below threshold,
 * stock value and units in stock.
 */
module Stats {
  import opened Seqs
  import opened Records
  import Restock

  datatype InventoryStats = InventoryStats(totalProducts: int, lowStockItems: int, totalValue: int, totalQuantity: int)

  function Value(p: Product): int { p.price * p.quantity }
  function Quantity(p: Product): int { p.quantity }

  function StatsOf(products: seq<Product>): (s: InventoryStats)
    ensures s.totalProducts == |products|
    ensures s.lowStockItems == |Restock.LowStock(products)|
    ensures 0 <= s.lowStockItems <= s.totalProducts
    ensures s.totalValue == SumBy(products, Value) && s.totalQuantity == SumBy(products, Quantity)
    ensures |products| == 0 ==> s == InventoryStats(0, 0, 0, 0)
  {
    Restock.LowStockSpec(products);
    InventoryStats(
      |products|,
      |Filter(products, BelowThreshold)|,
      SumBy(products, Value),
      SumBy(products, Quantity))
  }

  /** The low-stock count is the number of products below threshold. */
  lemma {:induction false} LowCountIsSum(products: seq<Product>)
    ensures StatsOf(products).lowStockItems == SumBy(products, Indicator(BelowThreshold))
  {
    FilterLengthIsSum(products, BelowThreshold);
  }

  /** The cards of two lists put together are the sums of the cards of each. */
  lemma StatsAppend(a: seq<Product>, b: seq<Product>)
    ensures StatsOf(a + b) == InventoryStats(
              StatsOf(a).totalProducts + StatsOf(b).totalProducts,
              StatsOf(a).lowStockItems + StatsOf(b).lowStockItems,
              StatsOf(a).totalValue + StatsOf(b).totalValue,
              StatsOf(a).totalQuantity + StatsOf(b).totalQuantity)
  {
    SumByAppend(a, b, Value);
    SumByAppend(a, b, Quantity);
    SumByAppend(a, b, Indicator(BelowThreshold));
    LowCountIsSum(a);
    LowCountIsSum(b);
    LowCountIsSum(a + b);
  }

  /** The cards do not depend on the order of the products. */
  lemma StatsPermutation(a: seq<Product>, b: seq<Product>)
    requires multiset(a) == multiset(b)
    ensures StatsOf(a) == StatsOf(b)
  {
    assert |a| == |multiset(a)| == |multiset(b)| == |b|;
    SumByPermutation(a, b, Value);
    SumByPermutation(a, b, Quantity);
    SumByPermutation(a, b, Indicator(BelowThreshold));
    LowCountIsSum(a);
    LowCountIsSum(b);
  }
}
