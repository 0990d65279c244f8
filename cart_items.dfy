/** Line items of the shopping cart and the list computations the cart hook
    performs on them: `some`, `find`, the two `map`s and the `filter` of
    src/hooks/useCart.tsx, each written as a recursive function over the
    ordered list of items. */
module CartItems {

  datatype Option<T> = None | Some(value: T)

  /** A catalogue product as the product endpoint returns it. The price is a
      floating-point number in the source; it is carried, never computed on. */
  datatype Product = Product(id: int, title: string, price: real, image: string)

  /** One product in the cart together with the requested quantity. */
  datatype LineItem = LineItem(id: int, title: string, price: real, image: string, amount: int)

  /** The item appended for a product not yet in the cart: the product's own
      fields spread into a new record, with amount 1. */
  function NewItem(p: Product): LineItem
  {
    LineItem(p.id, p.title, p.price, p.image, 1)
  }

  /** The item with its amount replaced, every other field kept. */
  function WithAmount(item: LineItem, amount: int): LineItem
  {
    item.(amount := amount)
  }

  /** No two items share an id. */
  ghost predicate UniqueIds(cart: seq<LineItem>)
  {
    forall i, j :: 0 <= i < j < |cart| ==> cart[i].id != cart[j].id
  }

  /** Every amount is at least 1. */
  ghost predicate AmountsPositive(cart: seq<LineItem>)
  {
    forall i :: 0 <= i < |cart| ==> cart[i].amount >= 1
  }

  /** The cart invariant the three operations keep. */
  ghost predicate WellFormed(cart: seq<LineItem>)
  {
    UniqueIds(cart) && AmountsPositive(cart)
  }

  /** `cart.some(product => product.id === id)`. */
  function HasId(cart: seq<LineItem>, id: int): (found: bool)
    ensures found <==> exists i :: 0 <= i < |cart| && cart[i].id == id
  {
    if cart == [] then false
    else if cart[0].id == id then true
    else
      var found := HasId(cart[1..], id);
      assert forall i :: 0 < i < |cart| ==> cart[i] == cart[1..][i - 1];
      found
  }

  /** The position `cart.find(product => product.id === id)` stops at: the
      first item carrying the id. */
  function FirstWithId(cart: seq<LineItem>, id: int): (k: nat)
    requires HasId(cart, id)
    ensures k < |cart| && cart[k].id == id
    ensures forall j :: 0 <= j < k ==> cart[j].id != id
  {
    if cart[0].id == id then 0 else 1 + FirstWithId(cart[1..], id)
  }

  /** The map of addProduct: every item carrying the id gets one more unit. */
  function Increment(cart: seq<LineItem>, id: int): (r: seq<LineItem>)
    ensures |r| == |cart|
    ensures forall i :: 0 <= i < |cart| && cart[i].id == id ==> r[i] == WithAmount(cart[i], cart[i].amount + 1)
    ensures forall i :: 0 <= i < |cart| && cart[i].id != id ==> r[i] == cart[i]
  {
    if cart == [] then []
    else
      var head := if cart[0].id == id then WithAmount(cart[0], cart[0].amount + 1) else cart[0];
      [head] + Increment(cart[1..], id)
  }

  /** The map of updateProductAmount: every item carrying the id is rebuilt
      from its id, title, price and image with the requested amount. */
  function SetAmount(cart: seq<LineItem>, id: int, amount: int): (r: seq<LineItem>)
    ensures |r| == |cart|
    ensures forall i :: 0 <= i < |cart| && cart[i].id == id ==> r[i] == WithAmount(cart[i], amount)
    ensures forall i :: 0 <= i < |cart| && cart[i].id != id ==> r[i] == cart[i]
  {
    if cart == [] then []
    else
      var head := if cart[0].id == id then LineItem(cart[0].id, cart[0].title, cart[0].price, cart[0].image, amount) else cart[0];
      [head] + SetAmount(cart[1..], id, amount)
  }

  /** The filter of removeProduct: keeps the items whose id differs. */
  function RemoveId(cart: seq<LineItem>, id: int): (r: seq<LineItem>)
    ensures |r| <= |cart|
    ensures forall i :: 0 <= i < |r| ==> r[i].id != id
  {
    if cart == [] then []
    else
      var rest := RemoveId(cart[1..], id);
      if cart[0].id == id then rest else [cart[0]] + rest
  }

  /** The filter keeps exactly the items whose id differs. */
  lemma {:induction false} RemoveIdMembers(cart: seq<LineItem>, id: int, x: LineItem)
    ensures x in RemoveId(cart, id) <==> x in cart && x.id != id
  {
    if cart != [] {
      RemoveIdMembers(cart[1..], id, x);
      assert x in cart <==> x == cart[0] || x in cart[1..] by {
        assert cart == [cart[0]] + cart[1..];
      }
    }
  }

  /** Filtering distributes over concatenation. */
  lemma {:induction false} RemoveIdConcat(a: seq<LineItem>, b: seq<LineItem>, id: int)
    ensures RemoveId(a + b, id) == RemoveId(a, id) + RemoveId(b, id)
  {
    if a == [] {
      assert a + b == b;
    } else {
      assert (a + b)[0] == a[0];
      assert (a + b)[1..] == a[1..] + b;
      RemoveIdConcat(a[1..], b, id);
    }
  }

  /** Filtering out an id the cart does not carry keeps the cart as it is. */
  lemma {:induction false} RemoveIdAbsent(cart: seq<LineItem>, id: int)
    requires !HasId(cart, id)
    ensures RemoveId(cart, id) == cart
  {
    if cart != [] {
      assert cart[0].id != id;
      RemoveIdAbsent(cart[1..], id);
      assert [cart[0]] + cart[1..] == cart;
    }
  }

  /** With unique ids, the id of position k occurs neither before nor after it. */
  lemma IdOnlyAt(cart: seq<LineItem>, k: nat)
    requires UniqueIds(cart)
    requires k < |cart|
    ensures !HasId(cart[..k], cart[k].id) && !HasId(cart[k + 1..], cart[k].id)
  {
  }

  /** Filtering out the id of an item that occurs once deletes exactly that item. */
  lemma RemoveSplit(before: seq<LineItem>, x: LineItem, after: seq<LineItem>)
    requires !HasId(before, x.id) && !HasId(after, x.id)
    ensures RemoveId(before + [x] + after, x.id) == before + after
  {
    var id := x.id;
    calc {
      RemoveId(before + [x] + after, id);
      { RemoveIdConcat(before + [x], after, id); }
      RemoveId(before + [x], id) + RemoveId(after, id);
      { RemoveIdConcat(before, [x], id); }
      RemoveId(before, id) + RemoveId([x], id) + RemoveId(after, id);
      { assert RemoveId([x], id) == []; }
      RemoveId(before, id) + RemoveId(after, id);
      { RemoveIdAbsent(before, id); RemoveIdAbsent(after, id); }
      before + after;
    }
  }

  /** With unique ids, filtering out the id of position k deletes exactly that
      position and keeps every other item in its order. */
  lemma RemoveAt(cart: seq<LineItem>, k: nat)
    requires UniqueIds(cart)
    requires k < |cart|
    ensures RemoveId(cart, cart[k].id) == cart[..k] + cart[k + 1..]
  {
    IdOnlyAt(cart, k);
    assert cart == cart[..k] + [cart[k]] + cart[k + 1..];
    RemoveSplit(cart[..k], cart[k], cart[k + 1..]);
  }

  /** Changing the amount at one position keeps the ids unique. */
  lemma WithAmountKeepsUniqueIds(cart: seq<LineItem>, k: nat, amount: int)
    requires UniqueIds(cart)
    requires k < |cart|
    ensures UniqueIds(cart[k := WithAmount(cart[k], amount)])
  {
  }

  /** With unique ids, incrementing the id of position k changes that
      position alone. */
  lemma IncrementAt(cart: seq<LineItem>, k: nat)
    requires UniqueIds(cart)
    requires k < |cart|
    ensures Increment(cart, cart[k].id) == cart[k := WithAmount(cart[k], cart[k].amount + 1)]
  {
  }

  /** With unique ids, setting the amount of the id of position k changes
      that position alone. */
  lemma SetAmountAt(cart: seq<LineItem>, k: nat, amount: int)
    requires UniqueIds(cart)
    requires k < |cart|
    ensures SetAmount(cart, cart[k].id, amount) == cart[k := WithAmount(cart[k], amount)]
  {
  }

  /** Mapping an id the cart does not carry keeps the cart as it is. */
  lemma SetAmountAbsent(cart: seq<LineItem>, id: int, amount: int)
    requires !HasId(cart, id)
    ensures SetAmount(cart, id, amount) == cart
  {
  }

  /** Appending a product whose id is new keeps the invariant. */
  lemma AppendKeepsWellFormed(cart: seq<LineItem>, p: Product)
    requires WellFormed(cart)
    requires !HasId(cart, p.id)
    ensures WellFormed(cart + [NewItem(p)])
  {
  }

  /** Incrementing keeps the invariant: ids are untouched and amounts only grow. */
  lemma IncrementKeepsWellFormed(cart: seq<LineItem>, id: int)
    requires WellFormed(cart)
    ensures WellFormed(Increment(cart, id))
  {
  }

  /** Setting a positive amount keeps the invariant. */
  lemma SetAmountKeepsWellFormed(cart: seq<LineItem>, id: int, amount: int)
    requires WellFormed(cart)
    requires amount >= 1
    ensures WellFormed(SetAmount(cart, id, amount))
  {
  }

  /** Filtering keeps the invariant. */
  lemma RemoveKeepsWellFormed(cart: seq<LineItem>, id: int)
    requires WellFormed(cart)
    ensures WellFormed(RemoveId(cart, id))
  {
    if HasId(cart, id) {
      var k := FirstWithId(cart, id);
      RemoveAt(cart, k);
      var r := cart[..k] + cart[k + 1..];
      forall i, j | 0 <= i < j < |r|
        ensures r[i].id != r[j].id
      {
        var i' := if i < k then i else i + 1;
        var j' := if j < k then j else j + 1;
        assert r[i] == cart[i'] && r[j] == cart[j'] && i' < j';
      }
    } else {
      RemoveIdAbsent(cart, id);
    }
  }
}
