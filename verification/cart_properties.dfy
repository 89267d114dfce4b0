/** What each cart mutation does, case by case: which line changes, how,
    what stays where it was, and which outcome each failure gives. Also the
    operations undone by their counterparts, and the scenarios the store is
    expected to play out. */
module CartProperties {
  import opened CartTypes
  import opened CartLookup
  import opened CartProvider
  import opened CartInvariant
  import opened CartAbstract

  // ---- addProduct ----

  /** A product not yet in the cart, with stock for at least one unit and a
      product record to build from, lands as one new line of amount 1 at the
      end; the lines before it keep their contents and order. */
  lemma AddNewProductAppends(cart: Cart, productId: ProductId, stockAmount: int, product: Product)
    requires !InCart(cart, productId)
    requires 1 <= stockAmount
    ensures var r := AddProduct(cart, productId, Some(stockAmount), Some(product));
            && r.outcome == Ok
            && |r.cart| == |cart| + 1
            && r.cart[..|cart|] == cart
            && r.cart[|cart|].amount == 1
            && r.cart[|cart|] == LineItem(product.id, product.title, product.price, product.image, 1)
  {
  }

  /** A product already in the cart, at line `i` with amount `a`, and with
      stock for `a + 1`, gets amount `a + 1` on that same line; no line is
      added, every other line is untouched, and the product request is not
      consulted (any `catalog` answer gives the same result). */
  lemma AddExistingIncrements(cart: Cart, productId: ProductId, i: int, stockAmount: int, catalog: Option<Product>)
    requires IsFirstMatch(cart, productId, i)
    requires cart[i].amount + 1 <= stockAmount
    ensures var r := AddProduct(cart, productId, Some(stockAmount), catalog);
            && r.outcome == Ok
            && |r.cart| == |cart|
            && r.cart[i] == cart[i].(amount := cart[i].amount + 1)
            && (forall j :: 0 <= j < |cart| && j != i ==> r.cart[j] == cart[j])
            && r == AddProduct(cart, productId, Some(stockAmount), None)
  {
    assert FindIndex(cart, productId) == i;
  }

  /** One more unit than stock allows — counting from the amount already in
      the cart, or from 0 — is refused with `StockExceeded` and the cart is
      left as it was, whatever the product request would have answered. */
  lemma AddOverStockRejected(cart: Cart, productId: ProductId, stockAmount: int, catalog: Option<Product>)
    requires AmountOf(cart, productId) + 1 > stockAmount
    ensures AddProduct(cart, productId, Some(stockAmount), catalog) == Step(cart, StockExceeded)
  {
    AmountsAgreesWithSearch(cart, productId);
  }

  /** A failed stock request, or a failed product request for a product new
      to the cart, gives the generic add error and leaves the cart as it was. */
  lemma AddUpstreamFailure(cart: Cart, productId: ProductId, stock: Option<int>, catalog: Option<Product>)
    ensures stock.None? ==> AddProduct(cart, productId, stock, catalog) == Step(cart, AddFailed)
    ensures stock.Some? && 1 <= stock.value && !InCart(cart, productId) && catalog.None? ==>
              AddProduct(cart, productId, stock, catalog) == Step(cart, AddFailed)
  {
  }

  /** An add commits exactly when the stock request succeeds, the stock
      covers one more unit than the cart holds, and either the product is
      already in the cart or its record could be fetched. */
  lemma AddCommitsExactly(cart: Cart, productId: ProductId, stock: Option<int>, catalog: Option<Product>)
    ensures AddProduct(cart, productId, stock, catalog).outcome == Ok <==>
              && stock.Some?
              && AmountOf(cart, productId) + 1 <= stock.value
              && (InCart(cart, productId) || catalog.Some?)
  {
    AmountsAgreesWithSearch(cart, productId);
  }

  // ---- removeProduct ----

  /** Removing a product in the cart deletes the line a search finds and
      only it: one line fewer, the others in their old relative order. */
  lemma RemovePresentDeletesFirstMatch(cart: Cart, productId: ProductId, i: int)
    requires IsFirstMatch(cart, productId, i)
    ensures var r := RemoveProduct(cart, productId);
            && r.outcome == Ok
            && |r.cart| == |cart| - 1
            && r.cart[..i] == cart[..i]
            && r.cart[i..] == cart[i + 1..]
  {
    assert FindIndex(cart, productId) == i;
  }

  /** In a cart with distinct ids, removal leaves no line of the product and
      keeps every other product. */
  lemma RemoveDropsOnlyThatProduct(cart: Cart, productId: ProductId, other: ProductId)
    requires DistinctIds(cart)
    ensures !InCart(RemoveProduct(cart, productId).cart, productId)
    ensures other != productId ==> (InCart(RemoveProduct(cart, productId).cart, other) <==> InCart(cart, other))
  {
    var r := RemoveProduct(cart, productId);
    RemoveRefinesSpec(cart, productId);
    AmountsAgreesWithSearch(cart, productId);
    AmountsAgreesWithSearch(cart, other);
    AmountsAgreesWithSearch(r.cart, productId);
    AmountsAgreesWithSearch(r.cart, other);
  }

  // ---- updateProductAmount ----

  /** A non-positive amount changes nothing, raises nothing, and never looks
      at stock: every stock answer gives the same result. */
  lemma UpdateNonPositiveIgnored(cart: Cart, productId: ProductId, amount: int, stock: Option<int>, otherStock: Option<int>)
    requires amount <= 0
    ensures var r := UpdateProductAmount(cart, productId, amount, stock);
            && r == Step(cart, Ignored)
            && Notification(r.outcome).None?
            && r == UpdateProductAmount(cart, productId, amount, otherStock)
  {
  }

  /** A positive amount meets a failed stock request with the generic update
      error and an amount above stock with `StockExceeded`; either way the
      cart is left as it was, whether or not the product is in it. */
  lemma UpdateRejectedOnStock(cart: Cart, productId: ProductId, amount: int, stock: Option<int>)
    requires 0 < amount
    requires stock.None? || amount > stock.value
    ensures UpdateProductAmount(cart, productId, amount, stock)
            == Step(cart, if stock.None? then UpdateFailed else StockExceeded)
  {
  }

  /** A positive amount within stock for a product in the cart sets that
      line's amount to exactly the requested value; the length and every
      other line stay as they were. */
  lemma UpdateSetsAmount(cart: Cart, productId: ProductId, i: int, amount: int, stockAmount: int)
    requires IsFirstMatch(cart, productId, i)
    requires 0 < amount <= stockAmount
    ensures var r := UpdateProductAmount(cart, productId, amount, Some(stockAmount));
            && r.outcome == Ok
            && |r.cart| == |cart|
            && r.cart[i].amount == amount
            && r.cart[i] == cart[i].(amount := amount)
            && (forall j :: 0 <= j < |cart| && j != i ==> r.cart[j] == cart[j])
  {
    assert FindIndex(cart, productId) == i;
  }

  /** A positive amount within stock for a product not in the cart gives the
      generic update error and leaves the cart as it was. */
  lemma UpdateAbsentFails(cart: Cart, productId: ProductId, amount: int, stockAmount: int)
    requires !InCart(cart, productId)
    requires 0 < amount <= stockAmount
    ensures UpdateProductAmount(cart, productId, amount, Some(stockAmount)) == Step(cart, UpdateFailed)
  {
  }

  // ---- operations undone by their counterparts ----

  /** Adding a new product and then removing it gives back the cart exactly. */
  lemma {:induction false} AddThenRemoveRestores(cart: Cart, productId: ProductId, stockAmount: int, product: Product)
    requires !InCart(cart, productId)
    requires product.id == productId
    requires 1 <= stockAmount
    ensures RemoveProduct(AddProduct(cart, productId, Some(stockAmount), Some(product)).cart, productId) == Step(cart, Ok)
  {
    var added := cart + [NewLineItem(product)];
    assert AddProduct(cart, productId, Some(stockAmount), Some(product)).cart == added;
    assert IsFirstMatch(added, productId, |cart|);
    assert FindIndex(added, productId) == |cart|;
    assert added[..|cart|] + added[|cart| + 1..] == cart;
  }

  /** Setting an amount and then setting the old amount back gives back the
      cart exactly, provided the old amount is itself allowed. */
  lemma UpdateThenRevertRestores(cart: Cart, productId: ProductId, i: int, amount: int, stockAmount: int)
    requires IsFirstMatch(cart, productId, i)
    requires 0 < amount <= stockAmount
    requires 0 < cart[i].amount <= stockAmount
    ensures var r := UpdateProductAmount(cart, productId, amount, Some(stockAmount));
            UpdateProductAmount(r.cart, productId, cart[i].amount, Some(stockAmount)) == Step(cart, Ok)
  {
    var r := UpdateProductAmount(cart, productId, amount, Some(stockAmount));
    assert FindIndex(cart, productId) == i;
    assert IsFirstMatch(r.cart, productId, i);
    assert FindIndex(r.cart, productId) == i;
    assert r.cart[i := r.cart[i].(amount := cart[i].amount)] == cart;
  }

  /** Setting the same amount twice is the same as setting it once. */
  lemma UpdateIdempotent(cart: Cart, productId: ProductId, amount: int, stock: Option<int>)
    ensures var once := UpdateProductAmount(cart, productId, amount, stock);
            UpdateProductAmount(once.cart, productId, amount, stock).cart == once.cart
  {
    var once := UpdateProductAmount(cart, productId, amount, stock);
    var i := FindIndex(cart, productId);
    if once.outcome == Ok {
      assert IsFirstMatch(once.cart, productId, i);
      assert FindIndex(once.cart, productId) == i;
    }
  }

  // ---- scenarios ----

  lemma ScenarioAddToEmptyCart(product: Product)
    requires product.id == 1
    ensures AddProduct([], 1, Some(5), Some(product)) == Step([NewLineItem(product)], Ok)
    ensures NewLineItem(product).id == 1 && NewLineItem(product).amount == 1
  {
  }

  lemma ScenarioAddBeyondStock(item: LineItem)
    requires item.id == 1 && item.amount == 1
    ensures var r := AddProduct([item], 1, Some(1), None);
            r == Step([item], StockExceeded) && Notification(r.outcome).Some?
  {
  }

  lemma ScenarioUpdateWithinStock(item: LineItem)
    requires item.id == 1 && item.amount == 2
    ensures UpdateProductAmount([item], 1, 5, Some(10)) == Step([item.(amount := 5)], Ok)
  {
  }

  lemma ScenarioRemoveAbsent(item: LineItem)
    requires item.id == 2 && item.amount == 1
    ensures var r := RemoveProduct([item], 1);
            r == Step([item], RemoveFailed) && Notification(r.outcome).Some?
  {
  }
}
