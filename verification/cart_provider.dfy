/** The three cart mutations of the cart provider, as pure functions from
    the current cart (and the answers of the remote lookups) to the next cart
    and an outcome. A failed remote request is a `None` answer; the toast a
    failure raises is `Notification(outcome)`. */
module CartProvider {
  import opened CartTypes
  import opened CartLookup

  /** Add one unit of `productId`. `stock` is the answer of the stock
      request for that id and `catalog` the answer the product request would
      give; the product request is only made when the id is new to the cart.
      Whatever the outcome, every line that differs from the cart before (or
      is new) respects the stock that was read, and nothing changes unless
      the outcome is `Ok`. */
  function AddProduct(cart: Cart, productId: ProductId, stock: Option<int>, catalog: Option<Product>): (r: Step)
    ensures r.outcome in {Ok, StockExceeded, AddFailed}
    ensures r.outcome != Ok ==> r.cart == cart
    ensures r.outcome == Ok ==> stock.Some? && (InCart(cart, productId) || catalog.Some?)
    ensures r.outcome == Ok ==> |r.cart| == |cart| + (if InCart(cart, productId) then 0 else 1)
    ensures forall k :: 0 <= k < |cart| <= |r.cart| && r.cart[k] != cart[k] ==>
              r.cart[k].id == productId && stock.Some? && r.cart[k].amount <= stock.value
    ensures forall k :: |cart| <= k < |r.cart| ==>
              catalog.Some? && r.cart[k] == NewLineItem(catalog.value) && stock.Some? && 1 <= stock.value
  {
    var i := FindIndex(cart, productId);
    match stock
    case None => Step(cart, AddFailed)
    case Some(stockAmount) =>
      var currentAmount := if i >= 0 then cart[i].amount else 0;
      var amount := currentAmount + 1;
      if amount > stockAmount then Step(cart, StockExceeded)
      else if i >= 0 then Step(cart[i := cart[i].(amount := amount)], Ok)
      else
        match catalog
        case None => Step(cart, AddFailed)
        case Some(product) => Step(cart + [NewLineItem(product)], Ok)
  }

  /** Delete the line of `productId` (the first one, should there be
      several); asking to delete a product that is not in the cart is an
      error, not a no-op. */
  function RemoveProduct(cart: Cart, productId: ProductId): (r: Step)
    ensures r.outcome in {Ok, RemoveFailed}
    ensures r.outcome == Ok <==> InCart(cart, productId)
    ensures r.outcome != Ok ==> r.cart == cart
    ensures r.outcome == Ok ==> |r.cart| == |cart| - 1 && multiset(r.cart) <= multiset(cart)
  {
    var i := FindIndex(cart, productId);
    if i >= 0 then
      assert cart == cart[..i] + [cart[i]] + cart[i + 1..];
      Step(cart[..i] + cart[i + 1..], Ok)
    else Step(cart, RemoveFailed)
  }

  /** Set the amount of `productId` to `amount`. A non-positive amount is
      dropped silently before stock is asked; otherwise the stock answer is
      checked first and the presence of the line second. At most the line of
      `productId` changes, and only to `amount`, within the stock read. */
  function UpdateProductAmount(cart: Cart, productId: ProductId, amount: int, stock: Option<int>): (r: Step)
    ensures r.outcome in {Ok, StockExceeded, UpdateFailed, Ignored}
    ensures r.outcome == Ignored <==> amount <= 0
    ensures r.outcome != Ok ==> r.cart == cart
    ensures r.outcome == Ok ==> InCart(cart, productId)
    ensures |r.cart| == |cart|
    ensures forall k :: 0 <= k < |cart| && r.cart[k] != cart[k] ==>
              r.cart[k] == cart[k].(amount := amount) && cart[k].id == productId
              && stock.Some? && 0 < amount <= stock.value
  {
    if amount <= 0 then Step(cart, Ignored)
    else
      match stock
      case None => Step(cart, UpdateFailed)
      case Some(stockAmount) =>
        if amount > stockAmount then Step(cart, StockExceeded)
        else
          var i := FindIndex(cart, productId);
          if i >= 0 then Step(cart[i := cart[i].(amount := amount)], Ok)
          else Step(cart, UpdateFailed)
  }

  /** The error toast an outcome raises, if any: exactly one message per
      failure, none for a commit or for the silently ignored update. */
  function Notification(outcome: Outcome): (msg: Option<string>)
    ensures msg.None? <==> outcome in {Ok, Ignored}
    ensures outcome in {StockExceeded, AddFailed, RemoveFailed, UpdateFailed} ==> msg.Some? && |msg.value| > 0
  {
    match outcome
    case Ok => None
    case Ignored => None
    case StockExceeded => Some("Quantidade solicitada fora de estoque")
    case AddFailed => Some("Erro na adição do produto")
    case RemoveFailed => Some("Erro na remoção do produto")
    case UpdateFailed => Some("Erro na alteração de quantidade do produto")
  }
}
