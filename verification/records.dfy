/**
 * The records the dashboard works on: products, orders and orders joined
 * with their product. Money is held in integer cents. A timestamp is
 * abstract: the instant it denotes (for `>=` comparisons), the local
 * calendar day it falls on (what `toDateString` compares) and its local
 * hour (what `getHours` returns).
 */
module Records {
  import opened Wrappers

  type Hour = h: int | 0 <= h < 24

  datatype Timestamp = Timestamp(instant: int, day: int, hour: Hour)

  datatype Product = Product(
    id: string,
    name: string,
    sku: string,
    quantity: int,
    price: int,
    threshold: int,
    userId: Option<string>)

  /** `product.quantity < product.threshold`: the product needs restocking. */
  predicate BelowThreshold(p: Product) {
    p.quantity < p.threshold
  }

  datatype Order = Order(
    id: string,
    productId: string,
    quantity: int,
    userId: string,
    createdAt: Timestamp)

  /** An order row with its status, total and a copy of the product's name, price and SKU. */
  datatype OrderWithProduct = OrderWithProduct(
    id: string,
    productId: string,
    quantity: int,
    userId: string,
    createdAt: Timestamp,
    status: string,
    total: int,
    productName: string,
    productPrice: int,
    productSku: string)

  /** `products.find(p => p.id === id)`: the first product with that id. */
  function FindById(products: seq<Product>, id: string): (r: Option<Product>)
    ensures r.None? <==> forall i :: 0 <= i < |products| ==> products[i].id != id
    ensures r.Some? ==> exists i :: 0 <= i < |products| && products[i] == r.value
                          && r.value.id == id
                          && forall j :: 0 <= j < i ==> products[j].id != id
  {
    if |products| == 0 then None
    else if products[0].id == id then Some(products[0])
    else
      var r := FindById(products[1..], id);
      if r.Some? then
        ghost var i :| 0 <= i < |products| - 1 && products[1..][i] == r.value && r.value.id == id
                       && forall j :: 0 <= j < i ==> products[1..][j].id != id;
        assert products[i + 1] == r.value;
        r
      else r
  }
}
