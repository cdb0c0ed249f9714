/**
 * The place-order form: which error a submission shows, in which order the
 * checks run, when the order is handed on, and how the form resets.
 */
module OrderForm {
  import opened Wrappers
  import opened Records

  datatype FormState = FormState(selectedProductId: string, orderQuantity: int, error: string)

  const InitialForm := FormState("", 1, "")

  /** The first failing check of a submission, or `None` when the order may be placed. */
  function Validate(products: seq<Product>, selected: string, quantity: int): (err: Option<string>)
    ensures selected == "" ==> err == Some("Please select a product")
    ensures selected != "" && FindById(products, selected).None? ==> err == Some("Selected product not found")
    ensures selected != "" && FindById(products, selected).Some? ==>
              var stock := FindById(products, selected).value.quantity;
              && (quantity > stock ==> err == Some("Order quantity exceeds available stock"))
              && (quantity <= stock && quantity <= 0 ==> err == Some("Order quantity must be greater than 0"))
              && (0 < quantity <= stock ==> err == None)
  {
    if selected == "" then Some("Please select a product")
    else
      match FindById(products, selected)
      case None => Some("Selected product not found")
      case Some(p) =>
        if quantity > p.quantity then Some("Order quantity exceeds available stock")
        else if quantity <= 0 then Some("Order quantity must be greater than 0")
        else None
  }

  /** `handleSubmit`: the next form state and the `onPlaceOrder` call made, if any. */
  function Submit(products: seq<Product>, s: FormState): (r: (FormState, Option<(string, int)>))
    ensures r.1.Some? <==> Validate(products, s.selectedProductId, s.orderQuantity).None?
    ensures r.1.Some? ==> r.1.value == (s.selectedProductId, s.orderQuantity) && r.0 == InitialForm
    ensures r.1.None? ==> r.0 == s.(error := Validate(products, s.selectedProductId, s.orderQuantity).value)
  {
    match Validate(products, s.selectedProductId, s.orderQuantity)
    case Some(e) => (s.(error := e), None)
    case None => (InitialForm, Some((s.selectedProductId, s.orderQuantity)))
  }

  /**
   * An order goes out exactly when a product is selected, the first product
   * with that id exists, and the quantity lies in `1 .. its stock`.
   */
  lemma SubmitPlacesIff(products: seq<Product>, s: FormState)
    ensures Submit(products, s).1.Some? <==>
              && s.selectedProductId != ""
              && exists i :: 0 <= i < |products| && products[i].id == s.selectedProductId
                   && (forall j :: 0 <= j < i ==> products[j].id != s.selectedProductId)
                   && 0 < s.orderQuantity <= products[i].quantity
  {
    var sel := s.selectedProductId;
    var f := FindById(products, sel);
    if f.Some? {
      var i :| 0 <= i < |products| && products[i] == f.value && f.value.id == sel
               && forall j :: 0 <= j < i ==> products[j].id != sel;
      forall k | 0 <= k < |products| && products[k].id == sel && (forall j :: 0 <= j < k ==> products[j].id != sel)
        ensures k == i
      {
      }
    }
  }

  /** A rejected submission keeps the selection and quantity and shows a message. */
  lemma RejectKeepsInput(products: seq<Product>, s: FormState)
    requires Submit(products, s).1.None?
    ensures var t := Submit(products, s).0;
      t.selectedProductId == s.selectedProductId && t.orderQuantity == s.orderQuantity && t.error != ""
  {
  }
}
