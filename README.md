# Shopping-cart hook, modelled in Dafny

This project models the cart provider of a React storefront. It covers the state
initialiser and the three cart operations of `src/hooks/useCart.tsx`:

- `addProduct(productId)`;
- `removeProduct(productId)`;
- `updateProductAmount({productId, amount})`.

The cart is an ordered list of line items, each keyed by a product id. Every
successful operation replaces the in-memory cart and writes the same list to
the `@RocketShoes:cart` storage slot. A failed operation changes neither and
only raises a notice.

The project has three modules:

- `CartItems` (`cart_items.dfy`): the line-item and product records, and the
  list computations the hook performs. These are `some`, `find`, the two
  `map`s and the `filter`, each written as a recursive function with a
  contract saying what it computes. The file also holds the lemmas about them:
  position-exact effects under unique ids, the cart invariant being kept, and
  how filtering interacts with concatenation and absent ids.
- `CartSteps` (`cart_steps.dfy`): each operation as a pure transition from the
  cart before the call to the outcome reported and the cart after it. The
  behaviour the hook promises is proved about these transitions as lemmas:
  - the error cases, in both directions;
  - append with amount 1 at the end;
  - increment by exactly one;
  - exact update;
  - removal of exactly one position;
  - "nothing else changes";
  - uniqueness of ids and amounts of at least 1 kept by every operation;
  - repeated adds stopping at the stock, and never stopping once above it;
  - distinct adds appending in call order;
  - remove undoing an add;
  - idempotent updates.
- `Store` (`cart_store.dfy`): the class `CartStore` with the fields `cart` and
  `stored` (the storage slot) that the three methods update in place.
  - Each method is proved to produce exactly the transition of its step
    function.
  - Each method writes the slot exactly when it succeeds.
  - Each method keeps the slot in step with the cart.
  - Each method keeps the cart invariant.

  A client method, `ExampleSession`, replays a session against stock 5:
  five adds, a refused sixth, an update to 3 and a remove.

The network lookups become parameters: `product: Option<Product>` and
`stock: Option<int>`. `None` stands for a request that threw, or, for the
product endpoint, one that answered `undefined` (the test at line 39). Either
way the call ends in its `catch` branch. The notices become the returned
`Outcome`:

- `OutOfStock`: the "Quantidade solicitada fora de estoque" notice;
- `AddFailed`, `RemoveFailed`, `UpdateFailed`: the three generic failure
  notices;
- `Ok`: no notice.

Three behaviours of the code that are easy to misread:

- A product already in the cart is refused as out of stock only when its
  amount EQUALS the stock amount (line 62). An amount already above the stock
  is still incremented. The stock-exhausted notice is distinct from the
  generic "add failed" notice.
- The stock endpoint is queried on every add, before the cart is inspected
  (line 43). A failed stock lookup therefore fails the add of a new product
  too, even though the stock is never consulted for a new product.
- `updateProductAmount` for an id that is not in the cart is not an error. It
  succeeds, leaves the cart as it is and still writes the slot
  (lines 114-130).

## Model

| member | source | states |
|---|---|---|
| CartItems.HasId | src/hooks/useCart.tsx:45 | the `some` test is true exactly when some position carries the id |
| CartItems.FirstWithId | src/hooks/useCart.tsx:60 | `find` stops at a position carrying the id with no earlier position carrying it |
| CartItems.Increment | src/hooks/useCart.tsx:65-71 | the add map keeps the length, gives every item with the id one more unit and leaves every other item unchanged |
| CartItems.SetAmount | src/hooks/useCart.tsx:114-126 | the update map keeps the length, gives every item with the id the requested amount with its id, title, price and image kept, and leaves every other item unchanged |
| CartItems.RemoveId | src/hooks/useCart.tsx:90 | the filter never lengthens the cart and no item with the id remains |
| CartItems.RemoveIdMembers | src/hooks/useCart.tsx:90 | an item is in the filtered cart exactly when it was in the cart and carries another id |
| CartItems.RemoveIdConcat | src/hooks/useCart.tsx:90 | filtering distributes over concatenation, so the relative order of kept items is preserved |
| CartItems.RemoveIdAbsent | src/hooks/useCart.tsx:90 | filtering out an id the cart does not carry returns the cart unchanged |
| CartItems.IdOnlyAt | src/hooks/useCart.tsx:45-51 | with unique ids, the id at position k occurs neither before nor after k |
| CartItems.RemoveSplit | src/hooks/useCart.tsx:90 | filtering out the id of an item that occurs once removes exactly that item and keeps the items before and after it |
| CartItems.RemoveAt | src/hooks/useCart.tsx:90 | with unique ids, filtering out the id at position k yields the cart without position k, the rest in order |
| CartItems.WithAmountKeepsUniqueIds | src/hooks/useCart.tsx:65-71 | changing one item's amount keeps the ids unique |
| CartItems.IncrementAt | src/hooks/useCart.tsx:65-71 | with unique ids, the add map changes only position k, and that by one unit |
| CartItems.SetAmountAt | src/hooks/useCart.tsx:114-126 | with unique ids, the update map changes only the amount at position k |
| CartItems.SetAmountAbsent | src/hooks/useCart.tsx:114-126 | mapping an id the cart does not carry leaves the cart unchanged |
| CartItems.AppendKeepsWellFormed | src/hooks/useCart.tsx:48-51 | appending a product with a new id and amount 1 keeps ids unique and amounts at least 1 |
| CartItems.IncrementKeepsWellFormed | src/hooks/useCart.tsx:65-71 | incrementing keeps ids unique and amounts at least 1 |
| CartItems.SetAmountKeepsWellFormed | src/hooks/useCart.tsx:114-126 | setting an amount of at least 1 keeps ids unique and amounts at least 1 |
| CartItems.RemoveKeepsWellFormed | src/hooks/useCart.tsx:90 | filtering keeps ids unique and amounts at least 1 |
| CartSteps.AddStep | src/hooks/useCart.tsx:35-81 | addProduct reports Ok, OutOfStock or AddFailed, and every failure leaves the cart unchanged |
| CartSteps.RemoveStep | src/hooks/useCart.tsx:83-98 | removeProduct reports Ok or RemoveFailed, and a failure leaves the cart unchanged |
| CartSteps.UpdateStep | src/hooks/useCart.tsx:100-136 | updateProductAmount reports Ok, OutOfStock or UpdateFailed, and every failure leaves the cart unchanged |
| CartSteps.AddNewProduct | src/hooks/useCart.tsx:45-57 | for an id not in the cart and any stock amount, add succeeds and appends one item with amount 1 at the end, keeping the earlier items in order; when the record carries the requested id it is the only item with that id |
| CartSteps.AddRejections | src/hooks/useCart.tsx:35-81 | add fails exactly when a lookup fails, and is out of stock exactly when the first item with the id already holds the stock amount |
| CartSteps.AddExistingProduct | src/hooks/useCart.tsx:60-76 | for a present id whose amount differs from the stock amount, including one above it, add succeeds and only that item's amount grows by exactly 1 |
| CartSteps.AddAtStock | src/hooks/useCart.tsx:60-63 | for a present id whose first item holds exactly the stock amount, add reports OutOfStock and leaves the cart unchanged |
| CartSteps.AddAboveStock | src/hooks/useCart.tsx:60-76 | n repeated adds of a present id whose amount is already above the stock never meet the equality guard: its amount grows by exactly n and nothing else changes |
| CartSteps.AddUntilStock | src/hooks/useCart.tsx:60-76 | n repeated adds of a present id at or below the stock set its amount to min(amount + n, stock) and change nothing else |
| CartSteps.AddBelowStock | src/hooks/useCart.tsx:60-76 | the same for an amount strictly below the stock: the first add increments and the rest continue from there |
| CartSteps.AddDistinctProducts | src/hooks/useCart.tsx:45-57 | adds of distinct new products append one item per product with amount 1, in call order, after the unchanged cart |
| CartSteps.AddProductKeepsWellFormed | src/hooks/useCart.tsx:45-75 | add keeps ids unique and amounts at least 1, when the product record carries the requested id |
| CartSteps.RemoveOutcome | src/hooks/useCart.tsx:85-96 | remove fails exactly when the id is absent; on success no item with the id remains and exactly the other items are kept |
| CartSteps.RemovePresent | src/hooks/useCart.tsx:85-94 | with unique ids, removing the id at position k succeeds with the cart minus position k, the rest in order |
| CartSteps.RemoveUndoesAdd | src/hooks/useCart.tsx:45-94 | removing a product just added as new gives back the cart from before the add |
| CartSteps.RemoveProductKeepsWellFormed | src/hooks/useCart.tsx:90 | remove keeps ids unique and amounts at least 1 |
| CartSteps.UpdateRejections | src/hooks/useCart.tsx:105-112 | a non-positive amount fails whatever the stock lookup answers; update fails exactly on a non-positive amount or a failed lookup, and is out of stock exactly when the amount exceeds the stock |
| CartSteps.UpdateWithinStock | src/hooks/useCart.tsx:114-126 | for an amount from 1 to the stock, the item at position k takes exactly that amount, and every other field and item and the length stay unchanged |
| CartSteps.UpdateAbsent | src/hooks/useCart.tsx:114-130 | an accepted amount for an id not in the cart succeeds and leaves the cart unchanged |
| CartSteps.UpdateIdempotent | src/hooks/useCart.tsx:100-136 | repeating an update with the same stock answer gives the same outcome and cart |
| CartSteps.UpdateProductKeepsWellFormed | src/hooks/useCart.tsx:105-126 | update keeps ids unique and amounts at least 1 |
| Store.CartStore.constructor | src/hooks/useCart.tsx:25-33 | the cart is the list found in the storage slot, or empty when the slot holds nothing; the slot is in step with the cart |
| Store.CartStore.AddProduct | src/hooks/useCart.tsx:35-81 | the new cart and outcome are those of AddStep; the slot is written with the new cart exactly on success and untouched on failure; sync and the cart invariant are kept |
| Store.CartStore.RemoveProduct | src/hooks/useCart.tsx:83-98 | the new cart and outcome are those of RemoveStep; the slot is written with the new cart exactly on success and untouched on failure; sync and the cart invariant are kept |
| Store.CartStore.UpdateProductAmount | src/hooks/useCart.tsx:100-136 | the new cart and outcome are those of UpdateStep; the slot is written with the new cart exactly on success and untouched on failure; sync and the cart invariant are kept |

## Left out

- The React context, the provider's JSX and the `useCart` accessor
  (lines 1-24, 138-151) are left out: they are UI framework plumbing.
- The `api.get` requests (lines 38, 43, 109) are network I/O. They are
  replaced by their answers, passed as parameters. A request that throws, and
  a product answer that is `undefined`, are both `None`.
- Answers that do not throw but carry no usable data are not modelled:
  - A stock answer whose data is missing or `null` is read only on the
    existing-product path of an add (line 62) and in an update (line 111).
    On the new-product path of an add (lines 45-57) it is never read, so that
    add still succeeds. The model's `None` fails it instead.
  - A product answer of `null` passes the `=== undefined` test at line 39.
    For a new id it appends an item made of `{amount: 1}` alone.
  - Stock data without an `amount` field makes the equality guard at line 62
    false, so the add increments. It also makes the `>` test at line 111
    false, so the update is accepted.
- The `toast.error` notifications (lines 63, 79, 96, 112, 134) are user
  interface. They are replaced by the returned outcome.
- `localStorage` and `JSON.stringify`/`JSON.parse` are not modelled. The slot
  is a field holding the list itself or nothing. A slot whose text does not
  parse to a list, such as `"null"`, is not modelled.
- A storage write that throws is not modelled: writes are taken to succeed.
  In the source such a write would run after `setCart`, so the cart would
  change while the failure notice is raised.
- `async`/`await` interleaving and stale-closure races between overlapping
  calls are not modelled. Each call is treated as one atomic step on the
  current cart.
- `price` is a floating-point number. It is carried as an opaque `real` and
  never computed on.
- The in-place `product.amount++` (line 67) also mutates the item objects of
  the previous state. The model updates by value, so this aliasing is not
  captured.
- Amounts are integers. The source's JavaScript numbers also admit fractions
  and `NaN`. A `NaN` amount passes both guards of `updateProductAmount`.
- Uniqueness of ids after an add depends on the product record's id. The
  appended item takes its id from the product record, as the source's spread
  does. Uniqueness is therefore proved only for records that carry the
  requested id: `CartSteps.AddProductKeepsWellFormed`, and
  `Store.CartStore.AddProduct`'s invariant clause.
