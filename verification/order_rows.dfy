/**
 * The order history hook: each fetched order row is enriched with its
 * product's name, price and SKU, with defaults for whatever is missing.
 */
module OrderRows {
  import opened Wrappers
  import opened Records

  /** The joined `products ( name, price, sku )` columns; any may be missing. */
  datatype OrderJoin = OrderJoin(name: Option<string>, price: Option<int>, sku: Option<string>)

  datatype FetchedOrder = FetchedOrder(
    id: string,
    productId: string,
    quantity: int,
    userId: string,
    createdAt: Timestamp,
    status: Option<string>,
    total: Option<int>,
    products: Option<OrderJoin>)

  function JoinedPrice(o: FetchedOrder): int {
    if o.products.Some? then OrInt(o.products.value.price, 0) else 0
  }

  /** One row of the transformation. */
  function Enrich(o: FetchedOrder): (w: OrderWithProduct)
    ensures w.id == o.id && w.productId == o.productId && w.quantity == o.quantity
    ensures w.userId == o.userId && w.createdAt == o.createdAt
    ensures w.status == if TruthyString(o.status) then o.status.value else "completed"
    ensures w.total == if TruthyInt(o.total) then o.total.value else o.quantity * w.productPrice
    ensures w.productPrice == (if o.products.Some? && TruthyInt(o.products.value.price) then o.products.value.price.value else 0)
    ensures w.productName == (if o.products.Some? && TruthyString(o.products.value.name) then o.products.value.name.value else "Unknown Product")
    ensures w.productSku == (if o.products.Some? && TruthyString(o.products.value.sku) then o.products.value.sku.value else "")
  {
    var j := o.products;
    OrderWithProduct(
      o.id, o.productId, o.quantity, o.userId, o.createdAt,
      OrString(o.status, "completed"),
      OrInt(o.total, o.quantity * JoinedPrice(o)),
      if j.Some? then OrString(j.value.name, "Unknown Product") else "Unknown Product",
      JoinedPrice(o),
      if j.Some? then OrString(j.value.sku, "") else "")
  }

  /** `(data || []).map(...)` */
  function Transform(data: Option<seq<FetchedOrder>>): (rows: seq<OrderWithProduct>)
    ensures data.None? ==> rows == []
    ensures data.Some? ==> |rows| == |data.value|
    ensures data.Some? ==> forall i :: 0 <= i < |rows| ==> rows[i] == Enrich(data.value[i])
  {
    if data.None? then [] else EnrichAll(data.value)
  }

  function EnrichAll(os: seq<FetchedOrder>): (rows: seq<OrderWithProduct>)
    ensures |rows| == |os|
    ensures forall i :: 0 <= i < |os| ==> rows[i] == Enrich(os[i])
  {
    if |os| == 0 then [] else [Enrich(os[0])] + EnrichAll(os[1..])
  }

  /** Enriching a concatenation enriches each part: every row depends on its own order only. */
  lemma {:induction false} EnrichAllAppend(a: seq<FetchedOrder>, b: seq<FetchedOrder>)
    ensures EnrichAll(a + b) == EnrichAll(a) + EnrichAll(b)
  {
    if |a| == 0 {
      assert a + b == b;
    } else {
      assert (a + b)[1..] == a[1..] + b;
      EnrichAllAppend(a[1..], b);
    }
  }

  datatype OrdersState = OrdersState(orders: seq<OrderWithProduct>, loading: bool, error: Option<string>)

  const InitialOrders := OrdersState([], true, None)

  /** `fetchOrders`: nothing without a user; otherwise the rows or the error, and loading off. */
  function FetchOrders(s: OrdersState, userId: Option<string>, fetched: Result<Option<seq<FetchedOrder>>, StoreError>): (t: OrdersState)
    ensures !TruthyString(userId) ==> t == s
    ensures TruthyString(userId) ==> !t.loading
    ensures TruthyString(userId) && fetched.Ok? ==> t.orders == Transform(fetched.value) && t.error == s.error
    ensures TruthyString(userId) && fetched.Err? ==> t.orders == s.orders && t.error == Some(ErrorText(fetched.error))
  {
    if !TruthyString(userId) then s
    else match fetched
      case Ok(data) => s.(orders := Transform(data), loading := false)
      case Err(e) => s.(error := Some(ErrorText(e)), loading := false)
  }

  /** Without a user the hook never fetches, so it keeps showing the loading state. */
  lemma NoUserStaysLoading(userId: Option<string>, fetched: Result<Option<seq<FetchedOrder>>, StoreError>)
    requires !TruthyString(userId)
    ensures FetchOrders(InitialOrders, userId, fetched).loading
  {
  }

  /** A stored total of 0 counts as missing and is recomputed. */
  lemma ZeroTotalRecomputed(o: FetchedOrder)
    requires o.total == Some(0)
    ensures Enrich(o).total == o.quantity * JoinedPrice(o)
  {
  }
}
