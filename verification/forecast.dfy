/**
 * The demand forecast: orders grouped by product id into one entry per
 * product, in the order the ids first occur, each with its name and SKU
 * from the first order seen, its total ordered quantity and a predicted
 * demand 10% above that total, rounded to the nearest integer.
 */
module Forecast {
  import opened Wrappers
  import opened Seqs

  /** The joined `products ( name, sku )` columns; either may be missing. */
  datatype ForecastJoin = ForecastJoin(name: Option<string>, sku: Option<string>)

  datatype ForecastRow = ForecastRow(productId: string, quantity: int, products: Option<ForecastJoin>)

  datatype ForecastEntry = ForecastEntry(
    productId: string,
    productName: string,
    productSku: string,
    totalQuantity: int,
    predictedDemand: int)

  /** `order.products?.name || 'Unknown'` */
  function NameOf(o: ForecastRow): string {
    if o.products.Some? then OrString(o.products.value.name, "Unknown") else "Unknown"
  }

  /** `order.products?.sku || ''` */
  function SkuOf(o: ForecastRow): string {
    if o.products.Some? then OrString(o.products.value.sku, "") else ""
  }

  /**
   * `Math.round(total * 1.1)`: the integer nearest to 11/10 of the total,
   * halves rounding up.
   */
  function Predicted(total: int): (p: int)
    ensures 11 * total - 5 < 10 * p <= 11 * total + 5
    ensures total >= 0 ==> p >= total
  {
    (11 * total + 5) / 10
  }

  // ---------------------------------------------------------------------
  // The grouping loop over a `Map` keyed by product id.
  // ---------------------------------------------------------------------

  /** The entry a product id gets when it is first seen. */
  function NewEntry(o: ForecastRow): ForecastEntry {
    ForecastEntry(o.productId, NameOf(o), SkuOf(o), o.quantity, 0)
  }

  /** One loop iteration: add to the existing entry, or append a new one. */
  function AddOrder(es: seq<ForecastEntry>, o: ForecastRow): seq<ForecastEntry>
  {
    if |es| == 0 then [NewEntry(o)]
    else if es[0].productId == o.productId then
      [es[0].(totalQuantity := es[0].totalQuantity + o.quantity)] + es[1..]
    else [es[0]] + AddOrder(es[1..], o)
  }

  function Group(rows: seq<ForecastRow>): seq<ForecastEntry>
  {
    if |rows| == 0 then [] else AddOrder(Group(rows[..|rows| - 1]), rows[|rows| - 1])
  }

  /** The forecast for the rows the store returned (`None` for `null`). */
  function BuildForecast(data: Option<seq<ForecastRow>>): (f: seq<ForecastEntry>)
    ensures data.None? ==> f == []
    ensures |f| == |Group(data.GetOr([]))|
    ensures forall k :: 0 <= k < |f| ==>
              f[k] == Group(data.GetOr([]))[k].(predictedDemand := Predicted(Group(data.GetOr([]))[k].totalQuantity))
  {
    Predict(Group(data.GetOr([])))
  }

  function Predict(es: seq<ForecastEntry>): (f: seq<ForecastEntry>)
    ensures |f| == |es|
    ensures forall k :: 0 <= k < |es| ==> f[k] == es[k].(predictedDemand := Predicted(es[k].totalQuantity))
  {
    if |es| == 0 then [] else [es[0].(predictedDemand := Predicted(es[0].totalQuantity))] + Predict(es[1..])
  }

  /** What the forecast screen holds after a fetch: a failed fetch keeps the previous list. */
  function FetchForecast(prev: seq<ForecastEntry>, fetched: Result<Option<seq<ForecastRow>>, StoreError>): (f: seq<ForecastEntry>)
    ensures fetched.Err? ==> f == prev
    ensures fetched.Ok? && (fetched.value.None? || |fetched.value.value| == 0) ==> f == []
    ensures fetched.Ok? ==> f == BuildForecast(fetched.value)
  {
    match fetched
    case Err(_) => prev
    case Ok(data) => BuildForecast(data)
  }

  // ---------------------------------------------------------------------
  // Reference definitions over the input.
  // ---------------------------------------------------------------------

  function Ids(rows: seq<ForecastRow>): (ids: seq<string>)
    ensures |ids| == |rows|
    ensures forall i :: 0 <= i < |rows| ==> ids[i] == rows[i].productId
  {
    if |rows| == 0 then [] else [rows[0].productId] + Ids(rows[1..])
  }

  function EntryIds(es: seq<ForecastEntry>): (ids: seq<string>)
    ensures |ids| == |es|
    ensures forall i :: 0 <= i < |es| ==> ids[i] == es[i].productId
  {
    if |es| == 0 then [] else [es[0].productId] + EntryIds(es[1..])
  }

  function QuantityTerm(id: string): ForecastRow -> int {
    (o: ForecastRow) => if o.productId == id then o.quantity else 0
  }

  function Quantity(o: ForecastRow): int { o.quantity }
  function Total(e: ForecastEntry): int { e.totalQuantity }

  /** The first row carrying `id`. */
  function FirstRow(rows: seq<ForecastRow>, id: string): ForecastRow
    requires id in Ids(rows)
  {
    rows[FirstIndex(Ids(rows), id)]
  }

  /** The grouped entry `id` should get: first row's name and SKU, summed quantity. */
  function Expected(rows: seq<ForecastRow>, id: string): ForecastEntry
    requires id in Ids(rows)
  {
    var r := FirstRow(rows, id);
    ForecastEntry(id, NameOf(r), SkuOf(r), SumBy(rows, QuantityTerm(id)), 0)
  }

  function Find(es: seq<ForecastEntry>, id: string): Option<ForecastEntry>
  {
    if |es| == 0 then None
    else if es[0].productId == id then Some(es[0])
    else Find(es[1..], id)
  }

  // ---------------------------------------------------------------------
  // What the grouping computes.
  // ---------------------------------------------------------------------

  lemma GroupSnoc(p: seq<ForecastRow>, y: ForecastRow)
    ensures Group(p + [y]) == AddOrder(Group(p), y)
  {
    assert (p + [y])[..|p|] == p;
  }

  lemma IdsSnoc(p: seq<ForecastRow>, y: ForecastRow)
    ensures Ids(p + [y]) == Ids(p) + [y.productId]
  {
  }

  lemma {:induction false} AddOrderIds(es: seq<ForecastEntry>, o: ForecastRow)
    ensures EntryIds(AddOrder(es, o)) ==
              if o.productId in EntryIds(es) then EntryIds(es) else EntryIds(es) + [o.productId]
  {
    if |es| > 0 {
      AddOrderIds(es[1..], o);
      assert EntryIds(es) == [es[0].productId] + EntryIds(es[1..]);
      if es[0].productId != o.productId {
        assert EntryIds(AddOrder(es, o)) == [es[0].productId] + EntryIds(AddOrder(es[1..], o));
      }
    }
  }

  /** One entry per distinct product id, in the order the ids first occur. */
  lemma {:induction false} GroupIds(rows: seq<ForecastRow>)
    ensures EntryIds(Group(rows)) == Distinct(Ids(rows))
  {
    if |rows| > 0 {
      var p, y := rows[..|rows| - 1], rows[|rows| - 1];
      assert rows == p + [y];
      GroupIds(p);
      GroupSnoc(p, y);
      IdsSnoc(p, y);
      DistinctSnoc(Ids(p), y.productId);
      AddOrderIds(Group(p), y);
    }
  }

  lemma {:induction false} AddOrderFind(es: seq<ForecastEntry>, o: ForecastRow, id: string)
    ensures Find(AddOrder(es, o), id) ==
              if id != o.productId then Find(es, id)
              else if Find(es, id).None? then Some(NewEntry(o))
              else Some(Find(es, id).value.(totalQuantity := Find(es, id).value.totalQuantity + o.quantity))
  {
    if |es| > 0 && es[0].productId != o.productId {
      AddOrderFind(es[1..], o, id);
    }
  }

  lemma {:induction false} AbsentTotal(rows: seq<ForecastRow>, id: string)
    requires id !in Ids(rows)
    ensures SumBy(rows, QuantityTerm(id)) == 0
  {
    if |rows| > 0 {
      assert Ids(rows) == [rows[0].productId] + Ids(rows[1..]);
      AbsentTotal(rows[1..], id);
    }
  }

  /**
   * The entry for `id` exists exactly when some order has that id; it carries
   * the first order's name and SKU and the summed quantity.
   */
  lemma {:induction false} FindGroup(rows: seq<ForecastRow>, id: string)
    ensures Find(Group(rows), id) == if id in Ids(rows) then Some(Expected(rows, id)) else None
  {
    if |rows| > 0 {
      var p, y := rows[..|rows| - 1], rows[|rows| - 1];
      assert rows == p + [y];
      FindGroup(p, id);
      GroupSnoc(p, y);
      FindStep(Group(p), p, y, id);
    }
  }

  lemma FindStep(es: seq<ForecastEntry>, p: seq<ForecastRow>, y: ForecastRow, id: string)
    requires Find(es, id) == if id in Ids(p) then Some(Expected(p, id)) else None
    ensures Find(AddOrder(es, y), id) == if id in Ids(p + [y]) then Some(Expected(p + [y], id)) else None
  {
    IdsSnoc(p, y);
    if id in Ids(p) {
      FindStepOld(es, p, y, id);
    } else if id == y.productId {
      FindStepNew(es, p, y);
    } else {
      AddOrderFind(es, y, id);
    }
  }

  lemma FindStepOld(es: seq<ForecastEntry>, p: seq<ForecastRow>, y: ForecastRow, id: string)
    requires id in Ids(p) && Find(es, id) == Some(Expected(p, id))
    ensures id in Ids(p + [y]) && Find(AddOrder(es, y), id) == Some(Expected(p + [y], id))
  {
    AddOrderFind(es, y, id);
    ExpectedSnocOld(p, y, id);
    if y.productId == id {
      var e := Expected(p, id);
      assert Find(AddOrder(es, y), id) == Some(e.(totalQuantity := e.totalQuantity + y.quantity));
    } else {
      assert Find(AddOrder(es, y), id) == Find(es, id);
    }
  }

  lemma FindStepNew(es: seq<ForecastEntry>, p: seq<ForecastRow>, y: ForecastRow)
    requires y.productId !in Ids(p) && Find(es, y.productId) == None
    ensures y.productId in Ids(p + [y])
    ensures Find(AddOrder(es, y), y.productId) == Some(Expected(p + [y], y.productId))
  {
    AddOrderFind(es, y, y.productId);
    ExpectedSnocNew(p, y);
  }

  /** A later order only adds to an existing entry's total. */
  lemma ExpectedSnocOld(p: seq<ForecastRow>, y: ForecastRow, id: string)
    requires id in Ids(p)
    ensures id in Ids(p + [y])
    ensures Expected(p + [y], id) ==
              Expected(p, id).(totalQuantity := Expected(p, id).totalQuantity + if y.productId == id then y.quantity else 0)
  {
    IdsSnoc(p, y);
    SumBySnoc(p, y, QuantityTerm(id));
    FirstIndexSnoc(Ids(p), y.productId, id);
    assert FirstRow(p + [y], id) == FirstRow(p, id);
  }

  /** The first order with an id makes its entry. */
  lemma ExpectedSnocNew(p: seq<ForecastRow>, y: ForecastRow)
    requires y.productId !in Ids(p)
    ensures y.productId in Ids(p + [y])
    ensures Expected(p + [y], y.productId) == NewEntry(y)
  {
    IdsSnoc(p, y);
    SumBySnoc(p, y, QuantityTerm(y.productId));
    AbsentTotal(p, y.productId);
    FirstIndexSnoc(Ids(p), y.productId, y.productId);
    assert FirstRow(p + [y], y.productId) == y;
  }

  /** With distinct ids, looking up entry `k`'s id finds entry `k`. */
  lemma {:induction false} FindAt(es: seq<ForecastEntry>, k: nat)
    requires NoDuplicates(EntryIds(es)) && k < |es|
    ensures Find(es, es[k].productId) == Some(es[k])
  {
    if k > 0 {
      assert EntryIds(es)[0] != EntryIds(es)[k];
      forall a, b | 0 <= a < b < |es| - 1
        ensures EntryIds(es[1..])[a] != EntryIds(es[1..])[b]
      {
        assert EntryIds(es)[a + 1] != EntryIds(es)[b + 1];
      }
      FindAt(es[1..], k - 1);
    }
  }

  /**
   * The forecast lists each distinct product id once, by first occurrence;
   * entry `k` has the first order's name and SKU, the summed quantity, and
   * the rounded 10% uplift.
   */
  lemma ForecastEntries(rows: seq<ForecastRow>, k: int)
    requires 0 <= k < |Distinct(Ids(rows))|
    ensures var f := BuildForecast(Some(rows)); var id := Distinct(Ids(rows))[k];
      && |f| == |Distinct(Ids(rows))|
      && id in Ids(rows)
      && f[k] == Expected(rows, id).(predictedDemand := Predicted(SumBy(rows, QuantityTerm(id))))
  {
    var es := Group(rows);
    var d := Distinct(Ids(rows));
    GroupIds(rows);
    DistinctSpec(Ids(rows));
    assert es[k].productId == d[k];
    FindAt(es, k);
    FindGroup(rows, d[k]);
  }

  /** The forecast lists exactly the distinct ids, each once, by first occurrence. */
  lemma ForecastIds(rows: seq<ForecastRow>)
    ensures FirstSeenOrder(Ids(rows), EntryIds(BuildForecast(Some(rows))))
  {
    GroupIds(rows);
    DistinctSpec(Ids(rows));
    assert EntryIds(BuildForecast(Some(rows))) == EntryIds(Group(rows));
  }

  lemma {:induction false} AddOrderTotal(es: seq<ForecastEntry>, o: ForecastRow)
    ensures SumBy(AddOrder(es, o), Total) == SumBy(es, Total) + o.quantity
  {
    if |es| > 0 && es[0].productId != o.productId {
      AddOrderTotal(es[1..], o);
    }
  }

  lemma {:induction false} PredictTotal(es: seq<ForecastEntry>)
    ensures SumBy(Predict(es), Total) == SumBy(es, Total)
  {
    if |es| > 0 {
      PredictTotal(es[1..]);
    }
  }

  /** No quantity is lost or counted twice: the totals add up to all ordered units. */
  lemma {:induction false} ForecastTotal(rows: seq<ForecastRow>)
    ensures SumBy(BuildForecast(Some(rows)), Total) == SumBy(rows, Quantity)
  {
    GroupTotal(rows);
    PredictTotal(Group(rows));
  }

  lemma {:induction false} GroupTotal(rows: seq<ForecastRow>)
    ensures SumBy(Group(rows), Total) == SumBy(rows, Quantity)
  {
    if |rows| > 0 {
      var p, y := rows[..|rows| - 1], rows[|rows| - 1];
      assert rows == p + [y];
      GroupTotal(p);
      GroupSnoc(p, y);
      AddOrderTotal(Group(p), y);
      SumBySnoc(p, y, Quantity);
    }
  }
}
