/** Searching the cart by product id, and the cart read as a map from
    product id to amount. */
module CartLookup {
  import opened CartTypes

  /** Some line of the cart holds product `id`. */
  predicate InCart(cart: Cart, id: ProductId)
  {
    exists i :: 0 <= i < |cart| && cart[i].id == id
  }

  /** `i` is the first position holding product `id`: the line a
      front-to-back search such as `find` or `findIndex` stops at. */
  predicate IsFirstMatch(cart: Cart, id: ProductId, i: int)
  {
    && 0 <= i < |cart|
    && cart[i].id == id
    && forall j :: 0 <= j < i ==> cart[j].id != id
  }

  /** `findIndex` on the line ids: the first position holding `id`, or -1
      when no line does. */
  function FindIndex(cart: Cart, id: ProductId): (r: int)
    ensures r == -1 <==> !InCart(cart, id)
    ensures r != -1 ==> IsFirstMatch(cart, id, r)
    decreases |cart|
  {
    if |cart| == 0 then -1
    else if cart[0].id == id then 0
    else
      var k := FindIndex(cart[1..], id);
      if k == -1 then
        assert forall i :: 1 <= i < |cart| ==> cart[i] == cart[1..][i - 1];
        -1
      else
        assert forall j :: 1 <= j <= k ==> cart[j] == cart[1..][j - 1];
        k + 1
  }

  /** The cart read as a map from product id to the amount on the first
      line holding that id. */
  function Amounts(cart: Cart): map<ProductId, int>
    decreases |cart|
  {
    if |cart| == 0 then map[]
    else Amounts(cart[1..])[cart[0].id := cart[0].amount]
  }

  /** The map view has a key for exactly the products in the cart, and maps
      each to the amount on the line a search for it finds. */
  lemma {:induction false} AmountsAgreesWithSearch(cart: Cart, id: ProductId)
    ensures id in Amounts(cart) <==> InCart(cart, id)
    ensures id in Amounts(cart) ==> Amounts(cart)[id] == cart[FindIndex(cart, id)].amount
    decreases |cart|
  {
    if |cart| > 0 && cart[0].id != id {
      AmountsAgreesWithSearch(cart[1..], id);
      assert InCart(cart[1..], id) <==> InCart(cart, id) by {
        assert forall i :: 1 <= i < |cart| ==> cart[i] == cart[1..][i - 1];
      }
    }
  }

  /** The amount a search for `id` finds, 0 when the product is not in the
      cart: the quantity an add starts from. */
  function AmountOf(cart: Cart, id: ProductId): int
  {
    var m := Amounts(cart);
    if id in m then m[id] else 0
  }
}
