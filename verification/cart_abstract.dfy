/** A reference description of the store that forgets the order and the
    catalog fields of the lines and sees only how many units of each product
    the cart holds, and proofs that the three mutations on the ordered cart
    behave as this description says. */
module CartAbstract {
  import opened CartTypes
  import opened CartLookup
  import opened CartProvider
  import opened CartInvariant

  /** A cart seen as a map from product to amount, with an outcome. */
  datatype AbstractStep = AbstractStep(amounts: map<ProductId, int>, outcome: Outcome)

  function View(s: Step): AbstractStep
  {
    AbstractStep(Amounts(s.cart), s.outcome)
  }

  /** Adding a unit: refused when stock is unknown or would be exceeded,
      failed when a new product's record is unavailable, else one more unit. */
  function SpecAdd(m: map<ProductId, int>, productId: ProductId, stock: Option<int>, recordAvailable: bool): AbstractStep
  {
    var current := if productId in m then m[productId] else 0;
    if stock.None? then AbstractStep(m, AddFailed)
    else if current + 1 > stock.value then AbstractStep(m, StockExceeded)
    else if productId !in m && !recordAvailable then AbstractStep(m, AddFailed)
    else AbstractStep(m[productId := current + 1], Ok)
  }

  /** Removing: the product leaves the map, or the removal fails. */
  function SpecRemove(m: map<ProductId, int>, productId: ProductId): AbstractStep
  {
    if productId in m then AbstractStep(m - {productId}, Ok)
    else AbstractStep(m, RemoveFailed)
  }

  /** Setting an amount: ignored when not positive, refused when stock is
      unknown or exceeded, failed when the product is absent. */
  function SpecUpdate(m: map<ProductId, int>, productId: ProductId, amount: int, stock: Option<int>): AbstractStep
  {
    if amount <= 0 then AbstractStep(m, Ignored)
    else if stock.None? then AbstractStep(m, UpdateFailed)
    else if amount > stock.value then AbstractStep(m, StockExceeded)
    else if productId in m then AbstractStep(m[productId := amount], Ok)
    else AbstractStep(m, UpdateFailed)
  }

  /** Changing the amount on the line a search for `id` finds changes the
      amount of `id` in the map view and nothing else. */
  lemma {:induction false} AmountsSetAtFirstMatch(cart: Cart, id: ProductId, i: int, amount: int)
    requires IsFirstMatch(cart, id, i)
    ensures Amounts(cart[i := cart[i].(amount := amount)]) == Amounts(cart)[id := amount]
    decreases i
  {
    var c := cart[i := cart[i].(amount := amount)];
    if i == 0 {
      assert c[1..] == cart[1..];
    } else {
      assert c[1..] == cart[1..][i - 1 := cart[i].(amount := amount)];
      assert IsFirstMatch(cart[1..], id, i - 1);
      AmountsSetAtFirstMatch(cart[1..], id, i - 1, amount);
      var rest := Amounts(cart[1..]);
      assert cart[0].id != id;
      assert rest[id := amount][cart[0].id := cart[0].amount]
          == rest[cart[0].id := cart[0].amount][id := amount];
    }
  }

  /** Appending a line for a product not yet in the cart adds that product
      with the line's amount and leaves the others as they were. */
  lemma {:induction false} AmountsAppendNew(cart: Cart, item: LineItem)
    requires !InCart(cart, item.id)
    ensures Amounts(cart + [item]) == Amounts(cart)[item.id := item.amount]
    decreases |cart|
  {
    if |cart| > 0 {
      var c := cart + [item];
      assert c[1..] == cart[1..] + [item];
      assert cart[0].id != item.id;
      assert !InCart(cart[1..], item.id) by {
        assert forall k :: 0 <= k < |cart[1..]| ==> cart[1..][k] == cart[k + 1];
      }
      AmountsAppendNew(cart[1..], item);
      var rest := Amounts(cart[1..]);
      assert rest[item.id := item.amount][cart[0].id := cart[0].amount]
          == rest[cart[0].id := cart[0].amount][item.id := item.amount];
    }
  }

  /** Deleting the line a search for `id` finds, when no later line holds
      `id`, drops `id` from the map view and leaves the others as they were. */
  lemma {:induction false} AmountsRemoveAt(cart: Cart, id: ProductId, i: int)
    requires IsFirstMatch(cart, id, i)
    requires !InCart(cart[i + 1..], id)
    ensures Amounts(cart[..i] + cart[i + 1..]) == Amounts(cart) - {id}
    decreases i
  {
    if i == 0 {
      assert cart[..0] + cart[1..] == cart[1..];
      AmountsAgreesWithSearch(cart[1..], id);
      var rest := Amounts(cart[1..]);
      assert rest[id := cart[0].amount] - {id} == rest;
    } else {
      var tail := cart[1..];
      assert tail[i..] == cart[i + 1..];
      assert IsFirstMatch(tail, id, i - 1);
      AmountsRemoveAt(tail, id, i - 1);
      var shorter := tail[..i - 1] + tail[i..];
      assert cart[..i] + cart[i + 1..] == [cart[0]] + shorter;
      AmountsCons(cart[0], shorter);
      var rest := Amounts(tail);
      assert (rest - {id})[cart[0].id := cart[0].amount] == rest[cart[0].id := cart[0].amount] - {id};
    }
  }

  lemma AmountsCons(item: LineItem, rest: Cart)
    ensures Amounts([item] + rest) == Amounts(rest)[item.id := item.amount]
  {
    assert ([item] + rest)[1..] == rest;
  }

  /** addProduct behaves on the map view as `SpecAdd`, given that the product
      service answers with the record it was asked for. */
  lemma {:induction false} AddRefinesSpec(cart: Cart, productId: ProductId, stock: Option<int>, catalog: Option<Product>)
    requires CatalogAgrees(productId, catalog)
    ensures View(AddProduct(cart, productId, stock, catalog)) == SpecAdd(Amounts(cart), productId, stock, catalog.Some?)
  {
    var i := FindIndex(cart, productId);
    AmountsAgreesWithSearch(cart, productId);
    var r := AddProduct(cart, productId, stock, catalog);
    if r.outcome == Ok {
      if i >= 0 {
        AmountsSetAtFirstMatch(cart, productId, i, cart[i].amount + 1);
      } else {
        AmountsAppendNew(cart, NewLineItem(catalog.value));
      }
    }
  }

  /** removeProduct on a cart with distinct ids behaves on the map view as
      `SpecRemove`. */
  lemma {:induction false} RemoveRefinesSpec(cart: Cart, productId: ProductId)
    requires DistinctIds(cart)
    ensures View(RemoveProduct(cart, productId)) == SpecRemove(Amounts(cart), productId)
  {
    var i := FindIndex(cart, productId);
    AmountsAgreesWithSearch(cart, productId);
    if i >= 0 {
      assert !InCart(cart[i + 1..], productId) by {
        assert forall k :: i + 1 <= k < |cart| ==> cart[k] == cart[i + 1..][k - i - 1];
      }
      AmountsRemoveAt(cart, productId, i);
    }
  }

  /** updateProductAmount behaves on the map view as `SpecUpdate`. */
  lemma {:induction false} UpdateRefinesSpec(cart: Cart, productId: ProductId, amount: int, stock: Option<int>)
    ensures View(UpdateProductAmount(cart, productId, amount, stock)) == SpecUpdate(Amounts(cart), productId, amount, stock)
  {
    var i := FindIndex(cart, productId);
    AmountsAgreesWithSearch(cart, productId);
    if UpdateProductAmount(cart, productId, amount, stock).outcome == Ok {
      AmountsSetAtFirstMatch(cart, productId, i, amount);
    }
  }
}
