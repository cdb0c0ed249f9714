/**
 * The status badge and restock cell of the product demand predictions
 * table: a product is urgent when its stock is under half the predicted
 * demand, to be monitored when it is under the demand, and good otherwise.
 */
module StockStatus {
  import opened Text

  datatype Status = Urgent | Monitor | Good

  /** `currentStock < predictedDemand` */
  predicate NeedsRestock(stock: int, demand: int) {
    stock < demand
  }

  /** `currentStock < predictedDemand * 0.5`, compared as numbers. */
  predicate IsUrgent(stock: int, demand: int) {
    (stock as real) < (demand as real) * 0.5
  }

  /** `isUrgent ? 'Urgent' : needsRestock ? 'Monitor' : 'Good'` */
  function StatusOf(stock: int, demand: int): Status {
    if IsUrgent(stock, demand) then Urgent
    else if NeedsRestock(stock, demand) then Monitor
    else Good
  }

  /** The three labels in integer terms. */
  lemma StatusSpec(stock: int, demand: int)
    ensures StatusOf(stock, demand) == Urgent <==> 2 * stock < demand
    ensures StatusOf(stock, demand) == Monitor <==> demand <= 2 * stock && stock < demand
    ensures StatusOf(stock, demand) == Good <==> demand <= 2 * stock && demand <= stock
  {
  }

  /** With non-negative demand, urgent implies restock is needed, so the labels read by stock level alone. */
  lemma UrgentNeedsRestock(stock: int, demand: int)
    requires demand >= 0
    ensures IsUrgent(stock, demand) ==> NeedsRestock(stock, demand)
    ensures StatusOf(stock, demand) == Good <==> stock >= demand
  {
  }

  /** `suggestedRestock > 0 ? `${suggestedRestock} units` : 'No restock needed'` */
  function RestockCell(suggested: int): (cell: string)
    ensures cell == "No restock needed" <==> suggested <= 0
    ensures suggested > 0 ==> cell == NatToString(suggested) + " units"
  {
    if suggested > 0 then
      var cell := NatToString(suggested) + " units";
      assert cell[0] != "No restock needed"[0];
      cell
    else "No restock needed"
  }
}
