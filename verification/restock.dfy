/**
 * Smart restock suggestions: the products below their threshold, how much
 * to restock each, how urgent it is, and the header line of the card.
 */
module Restock {
  import opened Wrappers
  import opened Seqs
  import opened Text
  import opened Records

  /** `products.filter(product => product.quantity < product.threshold)` */
  function LowStock(products: seq<Product>): seq<Product> {
    Filter(products, BelowThreshold)
  }

  /** The low-stock list is the products below threshold, each as often as it is listed, in their original order. */
  lemma LowStockSpec(products: seq<Product>)
    ensures forall p :: p in LowStock(products) <==> p in products && p.quantity < p.threshold
    ensures forall p :: multiset(LowStock(products))[p] == if BelowThreshold(p) then multiset(products)[p] else 0
    ensures IsSublist(LowStock(products), products)
    ensures |LowStock(products)| <= |products|
  {
    FilterSpec(products, BelowThreshold);
  }

  /** `Math.max(product.threshold * 2 - product.quantity, 20)` */
  function SuggestedRestock(p: Product): (s: int)
    ensures s >= 20 && s >= 2 * p.threshold - p.quantity
    ensures s == 20 || s == 2 * p.threshold - p.quantity
    ensures p.quantity + s >= 2 * p.threshold
  {
    if p.threshold * 2 - p.quantity > 20 then p.threshold * 2 - p.quantity else 20
  }

  datatype Urgency = Critical | High | Medium

  /** `quantity === 0 ? 'critical' : quantity < threshold * 0.5 ? 'high' : 'medium'` */
  function UrgencyOf(p: Product): Urgency {
    if p.quantity == 0 then Critical
    else if (p.quantity as real) < (p.threshold as real) * 0.5 then High
    else Medium
  }

  /** The urgency levels in integer terms. */
  lemma UrgencySpec(p: Product)
    ensures UrgencyOf(p) == Critical <==> p.quantity == 0
    ensures UrgencyOf(p) == High <==> p.quantity != 0 && 2 * p.quantity < p.threshold
    ensures UrgencyOf(p) == Medium <==> p.quantity != 0 && 2 * p.quantity >= p.threshold
  {
  }

  /**
   * `handleRestock`: the `onRestock(id, quantity)` call made, if any;
   * `confirmed` is the user's answer to the confirmation prompt.
   */
  function HandleRestock(p: Product, confirmed: bool): (call: Option<(string, int)>)
    ensures call.Some? <==> confirmed
    ensures call.Some? ==> call.value == (p.id, SuggestedRestock(p)) && call.value.1 >= 20
  {
    if confirmed then Some((p.id, SuggestedRestock(p))) else None
  }

  datatype Suggestion = Suggestion(product: Product, suggested: int, urgency: Urgency)

  datatype RestockCard =
    | AllGood
    | Suggestions(description: string, items: seq<Suggestion>)

  /** `{n} product{n !== 1 ? 's' : ''} below threshold` */
  function Description(n: nat): (d: string)
    ensures NatToString(n) < d
  {
    NatToString(n) + " product" + (if n != 1 then "s" else "") + " below threshold"
  }

  /** The count is followed by the singular text exactly when it is 1, by the plural otherwise. */
  lemma DescriptionPlural(n: nat)
    ensures Description(n) == NatToString(n) + (if n == 1 then " product below threshold" else " products below threshold")
  {
    if n == 1 {
      assert " product" + "" + " below threshold" == " product below threshold";
    } else {
      assert " product" + "s" + " below threshold" == " products below threshold";
    }
  }

  function SuggestionsFor(low: seq<Product>): (items: seq<Suggestion>)
    ensures |items| == |low|
    ensures forall i :: 0 <= i < |low| ==>
              items[i] == Suggestion(low[i], SuggestedRestock(low[i]), UrgencyOf(low[i]))
  {
    if |low| == 0 then [] else [Suggestion(low[0], SuggestedRestock(low[0]), UrgencyOf(low[0]))] + SuggestionsFor(low[1..])
  }

  /** What the card shows for a product list. */
  function Card(products: seq<Product>): (c: RestockCard)
    ensures c == AllGood <==> |LowStock(products)| == 0
    ensures c.Suggestions? ==>
              && c.description == Description(|LowStock(products)|)
              && |c.items| == |LowStock(products)|
              && c.items == SuggestionsFor(LowStock(products))
              && forall i :: 0 <= i < |c.items| ==> c.items[i].product == LowStock(products)[i]
  {
    var low := LowStock(products);
    if |low| == 0 then AllGood else Suggestions(Description(|low|), SuggestionsFor(low))
  }

  /**
   * Every suggestion names a listed product below threshold, suggests the
   * amount `handleRestock` would order for it (at least 20 units) and carries
   * its urgency.
   */
  lemma CardItems(products: seq<Product>)
    ensures var c := Card(products);
      c.Suggestions? ==> forall i :: 0 <= i < |c.items| ==>
        && c.items[i].product in products
        && BelowThreshold(c.items[i].product)
        && c.items[i].suggested == SuggestedRestock(c.items[i].product) >= 20
        && c.items[i].urgency == UrgencyOf(c.items[i].product)
        && HandleRestock(c.items[i].product, true) == Some((c.items[i].product.id, c.items[i].suggested))
  {
    LowStockSpec(products);
    var low := LowStock(products);
    forall i | 0 <= i < |low|
      ensures low[i] in products && BelowThreshold(low[i])
    {
      assert low[i] in low;
    }
  }
}
