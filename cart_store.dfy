/** The state of the cart provider in src/hooks/useCart.tsx: the in-memory
    cart and the `@RocketShoes:cart` storage slot, updated in place by the
    three operations. Each operation validates first and then, on success,
    replaces the cart and writes the same list to the slot; a failure
    touches neither and only reports its outcome. */
module Store {
  import opened CartItems
  import opened CartSteps

  class CartStore {
    /** The cart state held by the provider. */
    var cart: seq<LineItem>
    /** The storage slot; `None` while nothing has been written to it. */
    var stored: Option<seq<LineItem>>

    /** The slot holds the cart, or is still empty and the cart is empty. */
    ghost predicate Synced()
      reads this
    {
      stored == Some(cart) || (stored == None && cart == [])
    }

    /** The state initialiser: the cart is the list found in the slot, or
        empty when the slot holds nothing. */
    constructor (saved: Option<seq<LineItem>>)
      ensures stored == saved
      ensures cart == (if saved.Some? then saved.value else [])
      ensures Synced()
    {
      stored := saved;
      if saved.Some? {
        cart := saved.value;
      } else {
        cart := [];
      }
    }

    /** addProduct(productId), given the answers of the product and stock
        endpoints for that id. */
    method AddProduct(productId: int, product: Option<Product>, stock: Option<int>) returns (outcome: Outcome)
      modifies this
      ensures Transition(outcome, cart) == AddStep(old(cart), productId, product, stock)
      ensures stored == if outcome == Ok then Some(cart) else old(stored)
      ensures old(Synced()) ==> Synced()
      ensures old(WellFormed(cart)) && (product.Some? ==> product.value.id == productId) ==> WellFormed(cart)
    {
      ghost var before := cart;
      if product.None? || stock.None? {
        outcome := AddFailed;
      } else if !HasId(cart, productId) {
        var products := cart + [NewItem(product.value)];
        cart := products;
        stored := Some(products);
        outcome := Ok;
      } else {
        var k := FirstWithId(cart, productId);
        if cart[k].amount == stock.value {
          outcome := OutOfStock;
        } else {
          var newCart := Increment(cart, productId);
          cart := newCart;
          stored := Some(newCart);
          outcome := Ok;
        }
      }
      if WellFormed(before) && (product.Some? ==> product.value.id == productId) {
        AddProductKeepsWellFormed(before, productId, product, stock);
      }
    }

    /** removeProduct(productId). */
    method RemoveProduct(productId: int) returns (outcome: Outcome)
      modifies this
      ensures Transition(outcome, cart) == RemoveStep(old(cart), productId)
      ensures stored == if outcome == Ok then Some(cart) else old(stored)
      ensures old(Synced()) ==> Synced()
      ensures old(WellFormed(cart)) ==> WellFormed(cart)
    {
      ghost var before := cart;
      if !HasId(cart, productId) {
        outcome := RemoveFailed;
      } else {
        var newCart := RemoveId(cart, productId);
        cart := newCart;
        stored := Some(newCart);
        outcome := Ok;
      }
      if WellFormed(before) {
        RemoveProductKeepsWellFormed(before, productId);
      }
    }

    /** updateProductAmount({productId, amount}), given the answer of the
        stock endpoint for that id. */
    method UpdateProductAmount(productId: int, amount: int, stock: Option<int>) returns (outcome: Outcome)
      modifies this
      ensures Transition(outcome, cart) == UpdateStep(old(cart), productId, amount, stock)
      ensures stored == if outcome == Ok then Some(cart) else old(stored)
      ensures old(Synced()) ==> Synced()
      ensures old(WellFormed(cart)) ==> WellFormed(cart)
    {
      ghost var before := cart;
      if amount <= 0 {
        outcome := UpdateFailed;
      } else if stock.None? {
        outcome := UpdateFailed;
      } else if amount > stock.value {
        outcome := OutOfStock;
      } else {
        var newCart := SetAmount(cart, productId, amount);
        cart := newCart;
        stored := Some(newCart);
        outcome := Ok;
      }
      if WellFormed(before) {
        UpdateProductKeepsWellFormed(before, productId, amount, stock);
      }
    }
  }

  /** A session against a fresh store with stock 5 for product 1: five adds
      reach the stock, a sixth is refused, an update lowers the amount and a
      remove empties the cart again, with the slot following every success. */
  method ExampleSession(p: Product)
    requires p.id == 1
  {
    var store := new CartStore(None);
    var outcome := store.AddProduct(1, Some(p), Some(5));
    assert outcome == Ok && store.cart == [NewItem(p)];

    AddExistingProduct(store.cart, 0, p, 5);
    outcome := store.AddProduct(1, Some(p), Some(5));
    AddExistingProduct(store.cart, 0, p, 5);
    outcome := store.AddProduct(1, Some(p), Some(5));
    AddExistingProduct(store.cart, 0, p, 5);
    outcome := store.AddProduct(1, Some(p), Some(5));
    AddExistingProduct(store.cart, 0, p, 5);
    outcome := store.AddProduct(1, Some(p), Some(5));
    assert outcome == Ok && store.cart == [NewItem(p).(amount := 5)];

    AddAtStock(store.cart, 0, p, 5);
    outcome := store.AddProduct(1, Some(p), Some(5));
    assert outcome == OutOfStock && store.cart == [NewItem(p).(amount := 5)];

    UpdateWithinStock(store.cart, 0, 3, 5);
    outcome := store.UpdateProductAmount(1, 3, Some(5));
    assert outcome == Ok && store.cart == [NewItem(p).(amount := 3)];

    RemovePresent(store.cart, 0);
    outcome := store.RemoveProduct(1);
    assert outcome == Ok && store.cart == [] && store.stored == Some([]);
  }
}
