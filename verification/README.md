# Shopping-cart store: a Dafny model

This project models the cart mutations of the storefront's cart provider
(`CartProvider` in `src/hooks/useCart.tsx`). The cart is an ordered sequence
of line items. Each line holds the catalog fields of one product plus the
amount the shopper wants. Three operations change the cart:

- **addProduct** adds one unit. It reads the product's stock first. An
  existing line gets one more unit. A new product is fetched from the
  catalog and appended with amount 1. When one more unit would exceed
  stock, the cart is left unchanged and a stock error is reported.
- **removeProduct** deletes the line of a product. Deleting a product that
  is not in the cart is reported as an error.
- **updateProductAmount** sets a line's amount to a given value. A
  non-positive value is ignored silently, before stock is read. Otherwise
  the value is checked against stock, and then the line must exist.

Each operation is a pure function from the current cart to a `Step`, which
holds the next cart and an `Outcome`: `Ok`, `StockExceeded`, `AddFailed`,
`RemoveFailed`, `UpdateFailed` or `Ignored`. The two remote requests (stock
of a product, catalog record of a product) are inputs of type `Option`.
`None` stands for a failed request. The error toast an outcome raises is
`Notification(outcome)`.

Files:

- `cart_types.dfy` (`CartTypes`): products, line items, outcomes.
- `cart_lookup.dfy` (`CartLookup`): the search by product id used by all
  three operations (`find` and `findIndex` both stop at the first match).
  It also defines the cart seen as a map from product to amount.
- `cart_provider.dfy` (`CartProvider`): the three operations and the
  notification messages.
- `cart_invariant.dfy` (`CartInvariant`): the invariant "one line per
  product, every amount at least 1". It is preserved by each operation and
  by any sequence of calls.
- `cart_properties.dfy` (`CartProperties`): case-by-case behaviour of each
  operation, operations undone by their counterparts, and four sample
  scenarios.
- `cart_abstract.dfy` (`CartAbstract`): a reference description of the
  store on the map view. Each operation is proved to behave as it says.

Two modelling points matter for the proofs:

- A new line takes its id from the product record (`...product.data`), not
  from the requested id. Uniqueness of ids therefore needs the product
  service to answer with the record that was asked for. This is the
  hypothesis `CatalogAgrees`.
- The stored cart is loaded without any validation. The invariant is a
  hypothesis about the starting cart, not something the store establishes.

## Model

| member | source | states |
|---|---|---|
| CartLookup.FindIndex | src/hooks/useCart.tsx:83 | returns -1 exactly when no line holds the id; otherwise returns the first position holding it, which is where `find`/`findIndex` stop |
| CartLookup.AmountsAgreesWithSearch | src/hooks/useCart.tsx:51-55 | the map view has a key for exactly the products in the cart; each key maps to the amount on the line a search for it finds |
| CartProvider.AddProduct | src/hooks/useCart.tsx:48-78 | outcome is Ok, StockExceeded or AddFailed; any non-Ok outcome leaves the cart unchanged; Ok needs a stock answer and either an existing line or a product record; the length grows by one exactly for a new product; a changed line is the product's own line, within stock; a new line is the record's line with amount 1, stock being at least 1 |
| CartProvider.RemoveProduct | src/hooks/useCart.tsx:80-95 | Ok exactly when the product is in the cart, otherwise RemoveFailed with the cart unchanged; on Ok the cart has one line fewer and no line that was not there before |
| CartProvider.UpdateProductAmount | src/hooks/useCart.tsx:97-126 | Ignored exactly when the amount is not positive; non-Ok leaves the cart unchanged; Ok needs the product in the cart; length never changes; the only line that can change is the product's, and only to the requested amount, which is positive and within the stock answer |
| CartProvider.Notification | src/hooks/useCart.tsx:59-124 | one non-empty message for each failure outcome; no message for Ok or for the ignored update |
| CartInvariant.AddPreservesValid | src/hooks/useCart.tsx:51-73 | adding keeps ids distinct and amounts at least 1, given that the product service answers with the record asked for |
| CartInvariant.RemovePreservesValid | src/hooks/useCart.tsx:82-90 | removing keeps ids distinct and amounts at least 1 |
| CartInvariant.UpdatePreservesValid | src/hooks/useCart.tsx:102-118 | updating keeps ids distinct and amounts at least 1 |
| CartInvariant.RunPreservesValid | src/hooks/useCart.tsx:25-32 | starting from a well-formed loaded cart, any sequence of the three calls leaves a well-formed cart, given that each product request answers with the record asked for |
| CartProperties.AddNewProductAppends | src/hooks/useCart.tsx:64-73 | a product not in the cart, with stock of at least 1 and a record available, is appended as one line of amount 1 built from the record; earlier lines keep contents and order |
| CartProperties.AddExistingIncrements | src/hooks/useCart.tsx:51-63 | a product in the cart at line i with amount a, and stock of at least a+1, gets amount a+1 on line i; the length and all other lines are unchanged; the product record is not consulted |
| CartProperties.AddOverStockRejected | src/hooks/useCart.tsx:55-61 | when the current amount (0 if absent) plus one exceeds stock, the result is StockExceeded with the cart unchanged |
| CartProperties.AddUpstreamFailure | src/hooks/useCart.tsx:53-77 | a failed stock request, or a failed record request for a new product, gives AddFailed with the cart unchanged |
| CartProperties.AddCommitsExactly | src/hooks/useCart.tsx:53-73 | an add commits if and only if stock is known, covers the current amount plus one, and the product is either in the cart or its record is available |
| CartProperties.RemovePresentDeletesFirstMatch | src/hooks/useCart.tsx:83-86 | removing a present product deletes exactly the first matching line; the lines before and after it keep their order |
| CartProperties.RemoveDropsOnlyThatProduct | src/hooks/useCart.tsx:80-95 | in a cart with distinct ids, after removal the product is gone and every other product is still present exactly when it was before |
| CartProperties.UpdateNonPositiveIgnored | src/hooks/useCart.tsx:102-104 | a non-positive amount gives Ignored, an unchanged cart and no message, whatever the stock answer |
| CartProperties.UpdateRejectedOnStock | src/hooks/useCart.tsx:105-111 | a positive amount with a failed stock request gives UpdateFailed; with an amount above stock it gives StockExceeded; the cart is unchanged in both cases |
| CartProperties.UpdateSetsAmount | src/hooks/useCart.tsx:113-118 | a positive amount within stock for a present product sets exactly that line's amount; the length and all other lines are unchanged |
| CartProperties.UpdateAbsentFails | src/hooks/useCart.tsx:113-124 | a positive amount within stock for an absent product gives UpdateFailed with the cart unchanged |
| CartProperties.AddThenRemoveRestores | src/hooks/useCart.tsx:64-90 | adding a new product whose record carries the requested id, and then removing it, gives back the original cart |
| CartProperties.UpdateThenRevertRestores | src/hooks/useCart.tsx:113-118 | for a product in the cart, when both the new amount and the line's old amount are positive and within stock, setting the new amount and then setting the old amount back gives back the original cart |
| CartProperties.UpdateIdempotent | src/hooks/useCart.tsx:97-126 | setting the same amount twice leaves the same cart as setting it once |
| CartProperties.ScenarioAddToEmptyCart | src/hooks/useCart.tsx:64-73 | adding product 1 with stock 5 to an empty cart gives a one-line cart with amount 1 |
| CartProperties.ScenarioAddBeyondStock | src/hooks/useCart.tsx:55-61 | adding product 1 with stock 1 when the cart already holds one unit of it gives StockExceeded, a message and an unchanged cart |
| CartProperties.ScenarioUpdateWithinStock | src/hooks/useCart.tsx:113-118 | setting product 1 from 2 to 5 units with stock 10 gives that line with amount 5 |
| CartProperties.ScenarioRemoveAbsent | src/hooks/useCart.tsx:83-93 | removing product 1 from a cart holding only product 2 gives RemoveFailed, a message and an unchanged cart |
| CartAbstract.AmountsSetAtFirstMatch | src/hooks/useCart.tsx:114-117 | changing the amount on the first matching line changes only that product's entry in the map view |
| CartAbstract.AmountsAppendNew | src/hooks/useCart.tsx:67-71 | appending a line for a new product adds exactly that product with its amount to the map view |
| CartAbstract.AmountsRemoveAt | src/hooks/useCart.tsx:83-86 | deleting the first matching line, when no later line holds the id, removes exactly that product from the map view |
| CartAbstract.AddRefinesSpec | src/hooks/useCart.tsx:48-78 | given that the product request answers with the record asked for, adding behaves on the map view like the reference: AddFailed without stock, StockExceeded past stock, AddFailed for a new product without a record, otherwise one more unit |
| CartAbstract.RemoveRefinesSpec | src/hooks/useCart.tsx:80-95 | on the map view of a cart with distinct ids, removing deletes the product's entry, or fails when there is none |
| CartAbstract.UpdateRefinesSpec | src/hooks/useCart.tsx:97-126 | on the map view, updating behaves like the reference: Ignored, UpdateFailed without stock, StockExceeded past stock, the new amount when present, otherwise UpdateFailed |

## Left out

- React wiring: the context, `useState`, `useEffect`, `useRef`, and the effect that compares against the previous cart to decide when to persist (lines 22-46, 128-141). This is framework plumbing. In the model the cart is committed exactly on an `Ok` outcome.
- Browser storage and JSON (lines 26-29, 44): reading and writing `localStorage` and the serialisation round trip. This is I/O through a library with no visible serialiser. The loaded cart is not validated, so the invariant is a hypothesis about it.
- The HTTP client: each remote request is an `Option` input. A request that succeeds but returns no `amount` field is not modelled. In the source `x > undefined` is false, so such an answer would let the operation go ahead.
- The toast library: replaced by `Notification`, which maps an outcome to the message text.
- Concurrency: overlapping asynchronous calls and their stale view of the cart (check-then-act races, lost updates). Each call is modelled as atomic.
- In-place mutation: the source changes the shared line object after a shallow copy of the array. The model builds a new line instead. Only the committed cart is modelled.
- Numbers: amounts and stock are unbounded integers. Fractional and floating-point amounts are not modelled. Prices are carried as `real` and never computed with.
- CartInvariant.AddPreservesValid: assumes the product service answers with the record of the requested id (`CatalogAgrees`). The source does not check this; a mismatching record would give a cart with two lines for one id.
- CartInvariant.RunPreservesValid: assumes that every add in the sequence gets a product record carrying the requested id (`WellAnswered`). Without that, one add can leave two lines for one id, as the source would.
- CartAbstract.AddRefinesSpec: assumes `CatalogAgrees`. A record with another id would add a key other than the requested one to the map view.
- CartProperties.AddThenRemoveRestores: assumes the record carries the requested id. Otherwise the removal looks for an id the add never put in the cart.
