/**
 * The dashboard's handlers: restocking a product by id, the confirmation
 * guard on delete, the alerts shown when the product hook reports an error,
 * and which of the loading, error and main views shows.
 */
module Dashboard {
  import opened Wrappers
  import opened Records
  import Restock
  import ProductStore

  /** `if (error) alert(`${prefix}${error}`)`: the alert for a hook's answer. */
  function ErrorAlert(prefix: string, error: Option<string>): (a: Option<string>)
    ensures a.Some? <==> TruthyString(error)
    ensures a.Some? ==> a.value == prefix + error.value
  {
    if TruthyString(error) then Some(prefix + error.value) else None
  }

  /** `handleAddProduct`: the alert after `addProduct` answers with `error`. */
  function AddAlert(error: Option<string>): Option<string> {
    ErrorAlert("Error adding product: ", error)
  }

  /** `handlePlaceOrder`: the alert after `placeOrder` answers with `error`. */
  function OrderAlert(error: Option<string>): Option<string> {
    ErrorAlert("Error placing order: ", error)
  }

  /**
   * `handleRestock(productId, quantity)`: the `updateProduct` request it
   * issues, the id and the new quantity, or nothing for an unknown id.
   */
  function RestockRequest(products: seq<Product>, id: string, amount: int): (req: Option<(string, int)>)
    ensures req.None? <==> FindById(products, id).None?
    ensures req.Some? ==> req.value == (id, FindById(products, id).value.quantity + amount)
  {
    match FindById(products, id)
    case None => None
    case Some(p) => Some((id, p.quantity + amount))
  }

  /** Adding a product alerts exactly when the insert is refused. */
  lemma AddAlertIff(s: ProductStore.StoreState, userId: Option<string>, inserted: Result<Product, StoreError>)
    ensures var a := AddAlert(ProductStore.AddProduct(s, userId, inserted).1);
      && (a.Some? <==> !TruthyString(userId) || (inserted.Err? && ErrorText(inserted.error) != ""))
      && (!TruthyString(userId) ==> a == Some("Error adding product: " + ProductStore.NotAuthenticated))
  {
  }

  /** Ordering an unknown product while signed in alerts that it was not found, before any store call. */
  lemma OrderUnknownAlerts(s: ProductStore.StoreState, userId: Option<string>, productId: string, quantity: int,
                           inserted: Result<(), StoreError>, updated: Result<Product, StoreError>)
    requires TruthyString(userId) && FindById(s.products, productId).None?
    ensures var r := ProductStore.PlaceOrder(s, userId, productId, quantity, inserted, updated);
      && OrderAlert(r.error) == Some("Error placing order: Product not found")
      && r.orderInsert.None? && r.stockUpdate.None?
  {
    var r := ProductStore.PlaceOrder(s, userId, productId, quantity, inserted, updated);
    assert r.error == Some("Product not found");
    assert TruthyString(r.error);
    assert "Error placing order: " + "Product not found" == "Error placing order: Product not found";
  }

  /** `handleRestock`: an unknown id returns before any call, so only a failed update alerts. */
  function RestockAlert(products: seq<Product>, id: string, error: Option<string>): (a: Option<string>)
    ensures a.Some? <==> FindById(products, id).Some? && TruthyString(error)
    ensures a.Some? ==> a.value == "Error restocking product: " + error.value
  {
    if FindById(products, id).None? then None else ErrorAlert("Error restocking product: ", error)
  }

  /**
   * A restock of a known product alerts exactly when the update is refused:
   * always when signed out, otherwise when the store fails with a non-empty
   * message.
   */
  lemma RestockAlertIff(s: ProductStore.StoreState, userId: Option<string>, id: string,
                        returned: Result<Product, StoreError>)
    requires FindById(s.products, id).Some?
    ensures var a := RestockAlert(s.products, id, ProductStore.UpdateProduct(s, userId, id, returned).1);
      && (a.Some? <==> !TruthyString(userId) || (returned.Err? && ErrorText(returned.error) != ""))
      && (!TruthyString(userId) ==> a == Some("Error restocking product: " + ProductStore.NotAuthenticated))
  {
  }

  /** Restocking by the suggested amount lifts a product to at least its threshold. */
  lemma SuggestedRestockClears(products: seq<Product>, i: int)
    requires 0 <= i < |products| && products[i].threshold >= 0
    requires forall j :: 0 <= j < i ==> products[j].id != products[i].id
    ensures var p := products[i];
      && RestockRequest(products, p.id, Restock.SuggestedRestock(p)).Some?
      && var q := RestockRequest(products, p.id, Restock.SuggestedRestock(p)).value.1;
         q >= 2 * p.threshold && !BelowThreshold(p.(quantity := q))
  {
    var p := products[i];
    var r := FindById(products, p.id);
    assert r.Some?;
    var k :| 0 <= k < |products| && products[k] == r.value && r.value.id == p.id
             && forall j :: 0 <= j < k ==> products[j].id != p.id;
    assert k == i;
  }

  /** `handleDeleteProduct`: the delete request, issued only after confirmation. */
  function DeleteRequest(id: string, confirmed: bool): (req: Option<string>)
    ensures req.Some? <==> confirmed
    ensures req.Some? ==> req.value == id
  {
    if confirmed then Some(id) else None
  }

  /** `handleDeleteProduct`: the alert after a confirmed `deleteProduct` answers with `error`. */
  function DeleteAlert(confirmed: bool, error: Option<string>): (a: Option<string>)
    ensures a.Some? <==> confirmed && TruthyString(error)
    ensures a.Some? ==> a.value == "Error deleting product: " + error.value
  {
    if confirmed then ErrorAlert("Error deleting product: ", error) else None
  }

  /**
   * A confirmed delete alerts exactly when the delete is refused: always when
   * signed out, otherwise when the store fails with a non-empty message.
   */
  lemma DeleteAlertIff(s: ProductStore.StoreState, userId: Option<string>, id: string, outcome: Result<(), StoreError>)
    ensures var a := DeleteAlert(true, ProductStore.DeleteProduct(s, userId, id, outcome).1);
      && (a.Some? <==> !TruthyString(userId) || (outcome.Err? && ErrorText(outcome.error) != ""))
      && (!TruthyString(userId) ==> a == Some("Error deleting product: " + ProductStore.NotAuthenticated))
  {
  }

  datatype View = LoadingView | ErrorView(message: string) | MainView

  /** Loading wins over an error, and a (non-empty) error wins over the main view. */
  function ViewOf(loading: bool, error: Option<string>): (v: View)
    ensures loading <==> v == LoadingView
    ensures v.ErrorView? <==> !loading && TruthyString(error)
    ensures v.ErrorView? ==> v.message == error.value
    ensures v == MainView <==> !loading && !TruthyString(error)
  {
    if loading then LoadingView
    else if TruthyString(error) then ErrorView(error.value)
    else MainView
  }
}
