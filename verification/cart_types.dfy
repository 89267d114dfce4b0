/** The data the cart works on: catalog records, cart lines, and what an
    operation reports back to its caller. */
module CartTypes {

  /** The answer of a remote lookup: `None` when the request failed
      (transport error, not found, unreadable payload). */
  datatype Option<+T> = None | Some(value: T)

  type ProductId = int

  /** A catalog record as the product service returns it. */
  datatype Product = Product(id: ProductId, title: string, price: real, image: string)

  /** One line of the cart: the fields of the catalog record it was built
      from, plus the quantity the shopper wants. */
  datatype LineItem = LineItem(id: ProductId, title: string, price: real, image: string, amount: int)

  /** The cart is ordered; the order is the order lines were added in. */
  type Cart = seq<LineItem>

  /** What an operation reports: `Ok` when it committed a new cart, one
      failure kind per notification the store can raise, and `Ignored` for
      the silent no-op on a non-positive requested amount. */
  datatype Outcome = Ok | StockExceeded | AddFailed | RemoveFailed | UpdateFailed | Ignored

  /** The cart after an operation together with its outcome. */
  datatype Step = Step(cart: Cart, outcome: Outcome)

  /** The line a fresh product enters the cart with: the record's fields
      spread out, with the amount forced to 1. */
  function NewLineItem(p: Product): LineItem
  {
    LineItem(p.id, p.title, p.price, p.image, 1)
  }
}
