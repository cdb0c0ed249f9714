/**
 * The in-memory product and order hooks used without a backend. Their
 * items are untyped objects, modelled as maps from field name to value
 * text; every call succeeds and leaves `loading` and `error` alone.
 */
module MockHooks {
  import opened Wrappers
  import opened Seqs

  /** A plain object: field name to value. */
  type Obj = map<string, string>

  datatype MockState = MockState(items: seq<Obj>, loading: bool, error: Option<string>)

  const InitialMock := MockState([], false, None)

  /** `o.id === id` */
  predicate HasId(o: Obj, id: string) {
    "id" in o && o["id"] == id
  }

  /** `{ ...o, ...updates }`: fields of `updates` win. */
  function Spread(o: Obj, updates: Obj): (r: Obj)
    ensures r.Keys == o.Keys + updates.Keys
    ensures forall k :: k in updates ==> r[k] == updates[k]
    ensures forall k :: k in o && k !in updates ==> r[k] == o[k]
  {
    o + updates
  }

  /** `addProduct` / `addOrder`: append, and report no error. */
  function Add(s: MockState, item: Obj): (r: (MockState, Option<string>))
    ensures r.0.items == s.items + [item]
    ensures r.0.loading == s.loading && r.0.error == s.error && r.1.None?
  {
    (s.(items := s.items + [item]), None)
  }

  function MergeAll(items: seq<Obj>, id: string, updates: Obj): (r: seq<Obj>)
    ensures |r| == |items|
    ensures forall i :: 0 <= i < |items| ==> r[i] == if HasId(items[i], id) then Spread(items[i], updates) else items[i]
  {
    if |items| == 0 then []
    else [if HasId(items[0], id) then Spread(items[0], updates) else items[0]] + MergeAll(items[1..], id, updates)
  }

  /** `updateProduct` / `updateOrder`: merge the updates into the items with that id. */
  function Update(s: MockState, id: string, updates: Obj): (r: (MockState, Option<string>))
    ensures r.0.items == MergeAll(s.items, id, updates)
    ensures r.0.loading == s.loading && r.0.error == s.error && r.1.None?
  {
    (s.(items := MergeAll(s.items, id, updates)), None)
  }

  function NotId(id: string): Obj -> bool {
    (o: Obj) => !HasId(o, id)
  }

  /** `deleteProduct` / `deleteOrder`: drop the items with that id. */
  function Delete(s: MockState, id: string): (r: (MockState, Option<string>))
    ensures r.0.items == Filter(s.items, NotId(id))
    ensures r.0.loading == s.loading && r.0.error == s.error && r.1.None?
  {
    (s.(items := Filter(s.items, NotId(id))), None)
  }

  /** The mock `placeOrder` changes nothing. */
  function PlaceOrder(s: MockState, productId: string, quantity: int): (r: (MockState, Option<string>))
    ensures r.0 == s && r.1.None?
  {
    (s, None)
  }

  /** Deleting keeps exactly the items without that id, each as often as it was listed, in order. */
  lemma DeleteSpec(s: MockState, id: string)
    ensures var after := Delete(s, id).0.items;
      && (forall o :: o in after <==> o in s.items && !HasId(o, id))
      && (forall o :: multiset(after)[o] == if HasId(o, id) then 0 else multiset(s.items)[o])
      && IsSublist(after, s.items)
  {
    FilterSpec(s.items, NotId(id));
  }

  /** An item that did not carry the id is untouched by the update; one that did keeps every field it was not given. */
  lemma UpdateSpec(s: MockState, id: string, updates: Obj, i: int)
    requires 0 <= i < |s.items|
    ensures var after := Update(s, id, updates).0.items;
      && (!HasId(s.items[i], id) ==> after[i] == s.items[i])
      && (HasId(s.items[i], id) ==>
            && after[i].Keys >= s.items[i].Keys
            && forall k :: k in s.items[i] && k !in updates ==> after[i][k] == s.items[i][k])
  {
  }

  /** The mock hooks never leave the idle, error-free state. */
  lemma StaysIdle(id: string, item: Obj, updates: Obj, q: int)
    ensures var s := InitialMock;
      && !Add(s, item).0.loading && Add(s, item).0.error.None?
      && !Update(s, id, updates).0.loading && Update(s, id, updates).0.error.None?
      && !Delete(s, id).0.loading && Delete(s, id).0.error.None?
      && PlaceOrder(s, id, q).0 == s
  {
  }
}
