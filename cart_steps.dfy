/** The three cart operations of src/hooks/useCart.tsx as pure transitions
    from the cart before the call to the outcome reported and the cart after
    it. The answers of the product and stock endpoints are parameters:
    `None` stands for a request that threw or, for the product endpoint, one
    that answered `undefined`; either way the call ends in its `catch`. */
module CartSteps {
  import opened CartItems

  /** What an operation reports: success, or the notice it raises. */
  datatype Outcome = Ok | OutOfStock | AddFailed | RemoveFailed | UpdateFailed

  /** The outcome of one call and the cart it leaves behind. */
  datatype Transition = Transition(outcome: Outcome, cart: seq<LineItem>)

  /** addProduct: a failed lookup is an add failure; an id not yet in the
      cart appends the product with amount 1, whatever the stock; an id
      present whose first item already holds exactly the stock amount is out
      of stock; otherwise that id's amount grows by one. */
  function AddStep(cart: seq<LineItem>, productId: int, product: Option<Product>, stock: Option<int>): (t: Transition)
    ensures t.outcome in {Ok, OutOfStock, AddFailed}
    ensures t.outcome != Ok ==> t.cart == cart
  {
    if product.None? || stock.None? then Transition(AddFailed, cart)
    else if !HasId(cart, productId) then Transition(Ok, cart + [NewItem(product.value)])
    else if cart[FirstWithId(cart, productId)].amount == stock.value then Transition(OutOfStock, cart)
    else Transition(Ok, Increment(cart, productId))
  }

  /** removeProduct: an id not in the cart is a remove failure; otherwise
      every item with that id is filtered out. */
  function RemoveStep(cart: seq<LineItem>, productId: int): (t: Transition)
    ensures t.outcome in {Ok, RemoveFailed}
    ensures t.outcome != Ok ==> t.cart == cart
  {
    if !HasId(cart, productId) then Transition(RemoveFailed, cart)
    else Transition(Ok, RemoveId(cart, productId))
  }

  /** updateProductAmount: a non-positive amount or a failed stock lookup is
      an update failure; an amount above the stock is out of stock;
      otherwise every item with that id takes the requested amount. */
  function UpdateStep(cart: seq<LineItem>, productId: int, amount: int, stock: Option<int>): (t: Transition)
    ensures t.outcome in {Ok, OutOfStock, UpdateFailed}
    ensures t.outcome != Ok ==> t.cart == cart
  {
    if amount <= 0 || stock.None? then Transition(UpdateFailed, cart)
    else if amount > stock.value then Transition(OutOfStock, cart)
    else Transition(Ok, SetAmount(cart, productId, amount))
  }

  // ---------------------------------------------------------------------
  // addProduct

  /** A product not yet in the cart is appended at the end with amount 1,
      whatever the stock amount; the items before it are unchanged and in
      order, and when the product record carries the requested id it is the
      one and only item with that id. */
  lemma AddNewProduct(cart: seq<LineItem>, productId: int, p: Product, s: int)
    requires !HasId(cart, productId)
    ensures var t := AddStep(cart, productId, Some(p), Some(s));
      && t.outcome == Ok
      && |t.cart| == |cart| + 1
      && t.cart[..|cart|] == cart
      && t.cart[|cart|] == LineItem(p.id, p.title, p.price, p.image, 1)
      && (p.id == productId ==> forall i :: 0 <= i < |t.cart| ==> (t.cart[i].id == productId <==> i == |cart|))
  {
  }

  /** The failures of addProduct, in both directions: it reports an add
      failure exactly when a lookup fails, and out of stock exactly when the
      first item with the id already holds the stock amount. */
  lemma AddRejections(cart: seq<LineItem>, productId: int, product: Option<Product>, stock: Option<int>)
    ensures var t := AddStep(cart, productId, product, stock);
      && (t.outcome == AddFailed <==> product.None? || stock.None?)
      && (t.outcome == OutOfStock <==>
            product.Some? && stock.Some? && HasId(cart, productId) &&
            cart[FirstWithId(cart, productId)].amount == stock.value)
  {
  }

  /** An id at position k whose amount is not the stock amount (including an
      amount already above it) grows by exactly one; every other item and
      field and the length and order of the cart are unchanged. */
  lemma AddExistingProduct(cart: seq<LineItem>, k: nat, p: Product, s: int)
    requires UniqueIds(cart)
    requires k < |cart|
    requires cart[k].amount != s
    ensures AddStep(cart, cart[k].id, Some(p), Some(s)) == Transition(Ok, cart[k := WithAmount(cart[k], cart[k].amount + 1)])
  {
  }

  /** An id whose first item holds exactly the stock amount is rejected as
      out of stock and the cart is left as it is. */
  lemma AddAtStock(cart: seq<LineItem>, k: nat, p: Product, s: int)
    requires k < |cart|
    requires forall j :: 0 <= j < k ==> cart[j].id != cart[k].id
    requires cart[k].amount == s
    ensures AddStep(cart, cart[k].id, Some(p), Some(s)) == Transition(OutOfStock, cart)
  {
  }

  function Min(a: int, b: int): int
  {
    if a <= b then a else b
  }

  /** The cart after n calls of addProduct with the same answers. */
  function AddRepeatedly(cart: seq<LineItem>, productId: int, product: Option<Product>, stock: Option<int>, n: nat): seq<LineItem>
    decreases n
  {
    if n == 0 then cart
    else AddRepeatedly(AddStep(cart, productId, product, stock).cart, productId, product, stock, n - 1)
  }

  /** Repeated adds of an id in the cart increment its amount one at a time
      until it reaches the stock amount, and leave it there. An amount
      already above the stock is covered by AddAboveStock below. */
  lemma {:induction false} AddUntilStock(cart: seq<LineItem>, k: nat, p: Product, s: int, n: nat)
    requires UniqueIds(cart)
    requires k < |cart|
    requires cart[k].amount <= s
    ensures AddRepeatedly(cart, cart[k].id, Some(p), Some(s), n) == cart[k := WithAmount(cart[k], Min(cart[k].amount + n, s))]
    decreases n, 1
  {
    var id := cart[k].id;
    if n == 0 {
      assert WithAmount(cart[k], cart[k].amount) == cart[k];
      assert cart[k := cart[k]] == cart;
    } else if cart[k].amount == s {
      assert AddRepeatedly(cart, id, Some(p), Some(s), n) == AddRepeatedly(cart, id, Some(p), Some(s), n - 1) by {
        AddAtStock(cart, k, p, s);
      }
      AddUntilStock(cart, k, p, s, n - 1);
      assert Min(cart[k].amount + (n - 1), s) == s == Min(cart[k].amount + n, s);
    } else {
      AddBelowStock(cart, k, p, s, n);
    }
  }

  /** The step of AddUntilStock for an amount below the stock: the first add
      increments, the remaining n - 1 adds continue from there. */
  lemma {:induction false} AddBelowStock(cart: seq<LineItem>, k: nat, p: Product, s: int, n: nat)
    requires UniqueIds(cart)
    requires k < |cart|
    requires cart[k].amount < s
    requires n > 0
    ensures AddRepeatedly(cart, cart[k].id, Some(p), Some(s), n) == cart[k := WithAmount(cart[k], Min(cart[k].amount + n, s))]
    decreases n, 0
  {
    var id := cart[k].id;
    var next := cart[k := WithAmount(cart[k], cart[k].amount + 1)];
    var v := Min(cart[k].amount + n, s);
    assert AddRepeatedly(cart, id, Some(p), Some(s), n) == AddRepeatedly(next, id, Some(p), Some(s), n - 1) by {
      AddExistingProduct(cart, k, p, s);
    }
    WithAmountKeepsUniqueIds(cart, k, cart[k].amount + 1);
    assert next[k].id == id && next[k].amount == cart[k].amount + 1;
    AddUntilStock(next, k, p, s, n - 1);
    assert Min(next[k].amount + (n - 1), s) == v;
    assert next[k := WithAmount(next[k], v)] == cart[k := WithAmount(cart[k], v)];
  }

  /** Repeated adds of an id whose amount is already above the stock amount
      never meet the equality guard: each of the n adds increments it again. */
  lemma {:induction false} AddAboveStock(cart: seq<LineItem>, k: nat, p: Product, s: int, n: nat)
    requires UniqueIds(cart)
    requires k < |cart|
    requires cart[k].amount > s
    ensures AddRepeatedly(cart, cart[k].id, Some(p), Some(s), n) == cart[k := WithAmount(cart[k], cart[k].amount + n)]
    decreases n
  {
    var id := cart[k].id;
    if n == 0 {
      assert WithAmount(cart[k], cart[k].amount) == cart[k];
      assert cart[k := cart[k]] == cart;
    } else {
      var next := cart[k := WithAmount(cart[k], cart[k].amount + 1)];
      assert AddRepeatedly(cart, id, Some(p), Some(s), n) == AddRepeatedly(next, id, Some(p), Some(s), n - 1) by {
        AddExistingProduct(cart, k, p, s);
      }
      WithAmountKeepsUniqueIds(cart, k, cart[k].amount + 1);
      assert next[k].id == id && next[k].amount == cart[k].amount + 1;
      AddAboveStock(next, k, p, s, n - 1);
      assert next[k := WithAmount(next[k], next[k].amount + (n - 1))] == cart[k := WithAmount(cart[k], cart[k].amount + n)];
    }
  }

  /** No two products of the list share an id. */
  ghost predicate DistinctIds(products: seq<Product>)
  {
    forall i, j :: 0 <= i < j < |products| ==> products[i].id != products[j].id
  }

  /** The cart after one addProduct per product, in list order. */
  function AddEach(cart: seq<LineItem>, products: seq<Product>, s: int): seq<LineItem>
    decreases products
  {
    if products == [] then cart
    else AddEach(AddStep(cart, products[0].id, Some(products[0]), Some(s)).cart, products[1..], s)
  }

  /** Adds of distinct new products append one item per product with amount
      1, in call order. */
  lemma {:induction false} AddDistinctProducts(cart: seq<LineItem>, products: seq<Product>, s: int)
    requires DistinctIds(products)
    requires forall i :: 0 <= i < |products| ==> !HasId(cart, products[i].id)
    ensures |AddEach(cart, products, s)| == |cart| + |products|
    ensures AddEach(cart, products, s)[..|cart|] == cart
    ensures forall i :: 0 <= i < |products| ==> AddEach(cart, products, s)[|cart| + i] == NewItem(products[i])
    decreases products
  {
    if products != [] {
      var p, rest := products[0], products[1..];
      var next := cart + [NewItem(p)];
      assert AddStep(cart, p.id, Some(p), Some(s)).cart == next;
      forall i | 0 <= i < |rest|
        ensures !HasId(next, rest[i].id)
      {
        assert rest[i] == products[i + 1];
      }
      assert DistinctIds(rest) by {
        forall i, j | 0 <= i < j < |rest| ensures rest[i].id != rest[j].id {
          assert rest[i] == products[i + 1] && rest[j] == products[j + 1];
        }
      }
      AddDistinctProducts(next, rest, s);
      var r := AddEach(next, rest, s);
      assert r[..|cart|] == r[..|next|][..|cart|];
      forall i | 0 <= i < |products|
        ensures r[|cart| + i] == NewItem(products[i])
      {
        if i > 0 {
          assert r[|next| + (i - 1)] == NewItem(rest[i - 1]);
        } else {
          assert r[..|next|][|cart|] == next[|cart|];
        }
      }
    }
  }

  /** addProduct keeps the cart invariant, provided the product endpoint
      answers with the record of the id it was asked for. */
  lemma AddProductKeepsWellFormed(cart: seq<LineItem>, productId: int, product: Option<Product>, stock: Option<int>)
    requires WellFormed(cart)
    requires product.Some? ==> product.value.id == productId
    ensures WellFormed(AddStep(cart, productId, product, stock).cart)
  {
  }

  // ---------------------------------------------------------------------
  // removeProduct

  /** removeProduct fails exactly when the id is absent; otherwise it
      succeeds, no item with the id remains and every other item is kept. */
  lemma RemoveOutcome(cart: seq<LineItem>, productId: int)
    ensures var t := RemoveStep(cart, productId);
      && (t.outcome == RemoveFailed <==> !HasId(cart, productId))
      && (t.outcome == Ok ==>
            && !HasId(t.cart, productId)
            && forall x :: x in t.cart <==> x in cart && x.id != productId)
  {
    var t := RemoveStep(cart, productId);
    if t.outcome == Ok {
      forall x
        ensures x in t.cart <==> x in cart && x.id != productId
      {
        RemoveIdMembers(cart, productId, x);
      }
    }
  }

  /** With unique ids, removing the id of position k deletes exactly that
      position and keeps the others in their order. */
  lemma RemovePresent(cart: seq<LineItem>, k: nat)
    requires UniqueIds(cart)
    requires k < |cart|
    ensures RemoveStep(cart, cart[k].id) == Transition(Ok, cart[..k] + cart[k + 1..])
  {
    assert HasId(cart, cart[k].id);
    RemoveAt(cart, k);
  }

  /** Removing a product just added as new gives back the cart before the add. */
  lemma RemoveUndoesAdd(cart: seq<LineItem>, p: Product, s: int)
    requires !HasId(cart, p.id)
    ensures RemoveStep(AddStep(cart, p.id, Some(p), Some(s)).cart, p.id) == Transition(Ok, cart)
  {
    var added := cart + [NewItem(p)];
    assert HasId(added, p.id) by {
      assert added[|cart|].id == p.id;
    }
    assert !HasId([], p.id);
    RemoveSplit(cart, NewItem(p), []);
    assert cart + [NewItem(p)] + [] == added;
    assert cart + [] == cart;
  }

  /** removeProduct keeps the cart invariant. */
  lemma RemoveProductKeepsWellFormed(cart: seq<LineItem>, productId: int)
    requires WellFormed(cart)
    ensures WellFormed(RemoveStep(cart, productId).cart)
  {
    RemoveKeepsWellFormed(cart, productId);
  }

  // ---------------------------------------------------------------------
  // updateProductAmount

  /** The failures of updateProductAmount, in both directions. A
      non-positive amount fails whatever the stock lookup would answer: it
      is checked before the stock is consulted. */
  lemma UpdateRejections(cart: seq<LineItem>, productId: int, amount: int, stock: Option<int>)
    ensures var t := UpdateStep(cart, productId, amount, stock);
      && (amount <= 0 ==> t == Transition(UpdateFailed, cart))
      && (t.outcome == UpdateFailed <==> amount <= 0 || stock.None?)
      && (t.outcome == OutOfStock <==> amount > 0 && stock.Some? && amount > stock.value)
  {
  }

  /** An amount between 1 and the stock becomes exactly the amount of the
      item at position k; its other fields, every other item and the length
      of the cart are unchanged. */
  lemma UpdateWithinStock(cart: seq<LineItem>, k: nat, amount: int, s: int)
    requires UniqueIds(cart)
    requires k < |cart|
    requires 0 < amount <= s
    ensures UpdateStep(cart, cart[k].id, amount, Some(s)) == Transition(Ok, cart[k := WithAmount(cart[k], amount)])
  {
  }

  /** An accepted amount for an id not in the cart succeeds and changes nothing. */
  lemma UpdateAbsent(cart: seq<LineItem>, productId: int, amount: int, s: int)
    requires !HasId(cart, productId)
    requires 0 < amount <= s
    ensures UpdateStep(cart, productId, amount, Some(s)) == Transition(Ok, cart)
  {
  }

  /** Repeating an update with the same answers changes nothing more. */
  lemma UpdateIdempotent(cart: seq<LineItem>, productId: int, amount: int, stock: Option<int>)
    ensures var t := UpdateStep(cart, productId, amount, stock);
      UpdateStep(t.cart, productId, amount, stock) == t
  {
  }

  /** updateProductAmount keeps the cart invariant. */
  lemma UpdateProductKeepsWellFormed(cart: seq<LineItem>, productId: int, amount: int, stock: Option<int>)
    requires WellFormed(cart)
    ensures WellFormed(UpdateStep(cart, productId, amount, stock).cart)
  {
  }
}
