/**
 * The product list hook backed by the hosted store: fetching, adding,
 * updating and deleting products and placing an order, each taking the
 * store's answer as an input value.
 */
module ProductStore {
  import opened Wrappers
  import opened Seqs
  import opened Records

  datatype StoreState = StoreState(products: seq<Product>, loading: bool, error: Option<string>)

  const InitialStore := StoreState([], true, None)

  const NotAuthenticated := "User not authenticated"

  /** The order row `placeOrder` inserts. */
  datatype OrderInsert = OrderInsert(productId: string, quantity: int, userId: string, status: string, total: int)

  /** A failed call: its message goes to `error` and is returned; the list stays. */
  function Fail(s: StoreState, e: StoreError): (r: (StoreState, Option<string>))
    ensures r.0 == s.(error := Some(ErrorText(e))) && r.1 == Some(ErrorText(e))
  {
    (s.(error := Some(ErrorText(e))), Some(ErrorText(e)))
  }

  /** `fetchProducts`: nothing without a user; otherwise the rows, or the error, and loading off. */
  function FetchProducts(s: StoreState, userId: Option<string>, fetched: Result<Option<seq<Product>>, StoreError>): (t: StoreState)
    ensures !TruthyString(userId) ==> t == s
    ensures TruthyString(userId) ==> !t.loading
    ensures TruthyString(userId) && fetched.Ok? ==> t.products == fetched.value.GetOr([]) && t.error == s.error
    ensures TruthyString(userId) && fetched.Err? ==> t.products == s.products && t.error == Some(ErrorText(fetched.error))
  {
    if !TruthyString(userId) then s
    else match fetched
      case Ok(data) => s.(products := data.GetOr([]), loading := false)
      case Err(e) => s.(error := Some(ErrorText(e)), loading := false)
  }

  /** `addProduct`: the inserted row goes first. */
  function AddProduct(s: StoreState, userId: Option<string>, inserted: Result<Product, StoreError>): (r: (StoreState, Option<string>))
    ensures !TruthyString(userId) ==> r == (s, Some(NotAuthenticated))
    ensures TruthyString(userId) && inserted.Ok? ==>
              r.1.None? && r.0 == s.(products := [inserted.value] + s.products)
    ensures TruthyString(userId) && inserted.Err? ==> r == Fail(s, inserted.error)
  {
    if !TruthyString(userId) then (s, Some(NotAuthenticated))
    else match inserted
      case Ok(row) => (s.(products := [row] + s.products), None)
      case Err(e) => Fail(s, e)
  }

  /** `prev.map(p => p.id === id ? row : p)` */
  function ReplaceById(products: seq<Product>, id: string, row: Product): (r: seq<Product>)
    ensures |r| == |products|
    ensures forall i :: 0 <= i < |products| ==> r[i] == if products[i].id == id then row else products[i]
  {
    if |products| == 0 then []
    else [if products[0].id == id then row else products[0]] + ReplaceById(products[1..], id, row)
  }

  /** `updateProduct`: the returned row replaces every product with that id. */
  function UpdateProduct(s: StoreState, userId: Option<string>, id: string, returned: Result<Product, StoreError>)
    : (r: (StoreState, Option<string>))
    ensures !TruthyString(userId) ==> r == (s, Some(NotAuthenticated))
    ensures TruthyString(userId) && returned.Ok? ==>
              r.1.None? && r.0 == s.(products := ReplaceById(s.products, id, returned.value))
    ensures TruthyString(userId) && returned.Err? ==> r == Fail(s, returned.error)
  {
    if !TruthyString(userId) then (s, Some(NotAuthenticated))
    else match returned
      case Ok(row) => (s.(products := ReplaceById(s.products, id, row)), None)
      case Err(e) => Fail(s, e)
  }

  function HasId(id: string): Product -> bool {
    (p: Product) => p.id == id
  }

  function NotId(id: string): Product -> bool {
    (p: Product) => p.id != id
  }

  /** `deleteProduct`: the products with that id go; the rest keep their order. */
  function DeleteProduct(s: StoreState, userId: Option<string>, id: string, outcome: Result<(), StoreError>)
    : (r: (StoreState, Option<string>))
    ensures !TruthyString(userId) ==> r == (s, Some(NotAuthenticated))
    ensures TruthyString(userId) && outcome.Ok? ==> r.1.None? && r.0 == s.(products := Filter(s.products, NotId(id)))
    ensures TruthyString(userId) && outcome.Err? ==> r == Fail(s, outcome.error)
  {
    if !TruthyString(userId) then (s, Some(NotAuthenticated))
    else match outcome
      case Ok(_) => (s.(products := Filter(s.products, NotId(id))), None)
      case Err(e) => Fail(s, e)
  }

  /** Deleting removes exactly the products with that id and keeps the others in order. */
  lemma DeleteSpec(s: StoreState, userId: Option<string>, id: string)
    requires TruthyString(userId)
    ensures var after := DeleteProduct(s, userId, id, Ok(())).0.products;
      && (forall p :: p in after <==> p in s.products && p.id != id)
      && (forall p: Product :: p.id != id ==> multiset(after)[p] == multiset(s.products)[p])
      && IsSublist(after, s.products)
  {
    FilterSpec(s.products, NotId(id));
  }

  /**
   * The products after a successful update: `row` where the id matched,
   * the old product elsewhere, same length.
   */
  lemma UpdateSpec(s: StoreState, userId: Option<string>, id: string, row: Product, i: int)
    requires TruthyString(userId) && 0 <= i < |s.products|
    ensures var after := UpdateProduct(s, userId, id, Ok(row)).0.products;
      && |after| == |s.products|
      && (s.products[i].id != id ==> after[i] == s.products[i])
      && (s.products[i].id == id ==> after[i] == row)
  {
  }

  /** What `placeOrder` sends to the store and what it ends with. */
  datatype PlaceResult = PlaceResult(
    state: StoreState,
    error: Option<string>,
    orderInsert: Option<OrderInsert>,
    stockUpdate: Option<(string, int)>)

  /**
   * `placeOrder`: insert the order (`total` = price × quantity, status
   * `'completed'`), then write the product's stock minus the quantity, with
   * no stock check; `inserted` and `updated` are the store's two answers.
   */
  function PlaceOrder(s: StoreState, userId: Option<string>, productId: string, quantity: int,
                      inserted: Result<(), StoreError>, updated: Result<Product, StoreError>): (r: PlaceResult)
    ensures !TruthyString(userId) ==> r == PlaceResult(s, Some(NotAuthenticated), None, None)
    ensures TruthyString(userId) && FindById(s.products, productId).None? ==>
              r == PlaceResult(s.(error := Some("Product not found")), Some("Product not found"), None, None)
    ensures TruthyString(userId) && FindById(s.products, productId).Some? ==>
              var p := FindById(s.products, productId).value;
              && r.orderInsert == Some(OrderInsert(productId, quantity, userId.value, "completed", p.price * quantity))
              && (inserted.Err? ==> r.stockUpdate.None? && (r.state, r.error) == Fail(s, inserted.error))
              && (inserted.Ok? ==> r.stockUpdate == Some((productId, p.quantity - quantity)))
              && (inserted.Ok? && updated.Err? ==> (r.state, r.error) == Fail(s, updated.error))
              && (inserted.Ok? && updated.Ok? ==>
                    r.error.None? && r.state == s.(products := ReplaceById(s.products, productId, updated.value)))
  {
    if !TruthyString(userId) then PlaceResult(s, Some(NotAuthenticated), None, None)
    else match FindById(s.products, productId)
      case None => PlaceResult(s.(error := Some("Product not found")), Some("Product not found"), None, None)
      case Some(p) =>
        var order := Some(OrderInsert(productId, quantity, userId.value, "completed", p.price * quantity));
        match inserted
        case Err(e) =>
          var f := Fail(s, e);
          PlaceResult(f.0, f.1, order, None)
        case Ok(_) =>
          var update := Some((productId, p.quantity - quantity));
          match updated
          case Err(e) =>
            var f := Fail(s, e);
            PlaceResult(f.0, f.1, order, update)
          case Ok(row) => PlaceResult(s.(products := ReplaceById(s.products, productId, row)), None, order, update)
  }

  /** Every failing call leaves the product list as it was and reports its message. */
  lemma FailuresKeepList(s: StoreState, userId: Option<string>, id: string, q: int, e: StoreError,
                         row: Product, placed: Result<(), StoreError>, updated: Result<Product, StoreError>)
    ensures AddProduct(s, userId, Err(e)).0.products == s.products && AddProduct(s, userId, Err(e)).1.Some?
    ensures UpdateProduct(s, userId, id, Err(e)).0.products == s.products && UpdateProduct(s, userId, id, Err(e)).1.Some?
    ensures DeleteProduct(s, userId, id, Err(e)).0.products == s.products && DeleteProduct(s, userId, id, Err(e)).1.Some?
    ensures var r := PlaceOrder(s, userId, id, q, placed, updated);
      r.error.Some? ==> r.state.products == s.products && r.state.error == (if TruthyString(userId) then r.error else s.error)
  {
  }
}
