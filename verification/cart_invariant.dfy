/** The well-formedness of a cart — one line per product, every amount at
    least 1 — and its preservation by each mutation and by any sequence of
    them. The stored cart is loaded without any check, so well-formedness of
    the starting cart is an assumption about what was stored. */
module CartInvariant {
  import opened CartTypes
  import opened CartLookup
  import opened CartProvider

  /** No two lines hold the same product. */
  predicate DistinctIds(cart: Cart)
  {
    forall i, j :: 0 <= i < j < |cart| ==> cart[i].id != cart[j].id
  }

  /** Every line asks for at least one unit. */
  predicate PositiveAmounts(cart: Cart)
  {
    forall i :: 0 <= i < |cart| ==> cart[i].amount >= 1
  }

  predicate Valid(cart: Cart)
  {
    DistinctIds(cart) && PositiveAmounts(cart)
  }

  /** The product service answers a request for `productId` with the record
      of that product. A new line takes its id from the record, not from the
      request, so uniqueness of ids rests on this. */
  predicate CatalogAgrees(productId: ProductId, catalog: Option<Product>)
  {
    catalog.Some? ==> catalog.value.id == productId
  }

  lemma {:induction false} AddPreservesValid(cart: Cart, productId: ProductId, stock: Option<int>, catalog: Option<Product>)
    requires Valid(cart) && CatalogAgrees(productId, catalog)
    ensures Valid(AddProduct(cart, productId, stock, catalog).cart)
  {
    var r := AddProduct(cart, productId, stock, catalog);
    if r.outcome == Ok && !InCart(cart, productId) {
      assert r.cart == cart + [NewLineItem(catalog.value)];
      forall i, j | 0 <= i < j < |r.cart|
        ensures r.cart[i].id != r.cart[j].id
      {
        if j == |cart| {
          assert r.cart[i] == cart[i];
        }
      }
    }
  }

  lemma {:induction false} RemovePreservesValid(cart: Cart, productId: ProductId)
    requires Valid(cart)
    ensures Valid(RemoveProduct(cart, productId).cart)
  {
    var i := FindIndex(cart, productId);
    if i >= 0 {
      var rest := cart[..i] + cart[i + 1..];
      assert forall k :: 0 <= k < |rest| ==> rest[k] == cart[if k < i then k else k + 1];
    }
  }

  lemma {:induction false} UpdatePreservesValid(cart: Cart, productId: ProductId, amount: int, stock: Option<int>)
    requires Valid(cart)
    ensures Valid(UpdateProductAmount(cart, productId, amount, stock).cart)
  {
    var r := UpdateProductAmount(cart, productId, amount, stock);
    assert forall k :: 0 <= k < |r.cart| ==> r.cart[k].id == cart[k].id;
  }

  /** One call into the cart store, together with the answers its remote
      requests get. */
  datatype Action =
    | Add(productId: ProductId, stock: Option<int>, catalog: Option<Product>)
    | Remove(productId: ProductId)
    | Update(productId: ProductId, amount: int, stock: Option<int>)

  function Apply(cart: Cart, action: Action): Step
  {
    match action
    case Add(id, stock, catalog) => AddProduct(cart, id, stock, catalog)
    case Remove(id) => RemoveProduct(cart, id)
    case Update(id, amount, stock) => UpdateProductAmount(cart, id, amount, stock)
  }

  /** The cart after the calls in `actions`, one after the other, each
      seeing the cart the previous one left. */
  function Run(cart: Cart, actions: seq<Action>): Cart
    decreases |actions|
  {
    if |actions| == 0 then cart
    else Run(Apply(cart, actions[0]).cart, actions[1..])
  }

  predicate WellAnswered(action: Action)
  {
    action.Add? ==> CatalogAgrees(action.productId, action.catalog)
  }

  /** Starting from a well-formed cart, every sequence of calls leaves a
      well-formed cart. */
  lemma {:induction false} RunPreservesValid(cart: Cart, actions: seq<Action>)
    requires Valid(cart)
    requires forall i :: 0 <= i < |actions| ==> WellAnswered(actions[i])
    ensures Valid(Run(cart, actions))
    decreases |actions|
  {
    if |actions| > 0 {
      var next := Apply(cart, actions[0]);
      match actions[0] {
        case Add(id, stock, catalog) => AddPreservesValid(cart, id, stock, catalog);
        case Remove(id) => RemovePreservesValid(cart, id);
        case Update(id, amount, stock) => UpdatePreservesValid(cart, id, amount, stock);
      }
      assert forall i :: 0 <= i < |actions[1..]| ==> actions[1..][i] == actions[i + 1];
      RunPreservesValid(next.cart, actions[1..]);
    }
  }
}
