/**
  The shopping cart as the shop page keeps it: an ordered list of lines, at most
  one per product id, and the two sums shown to the user (the unit count on the
  navigation badge and the price total in the sheet and at checkout). Lines are
  keyed by product id only: a second add of the same product with another size
  bumps the existing line and keeps the size stored first.
*/
module Cart {
  import opened Catalog
  import Keyed

  /** The key of a line: its product's id. */
  function LineId(l: CartItem): string
  {
    l.product.id
  }

  /** Some line of the cart holds product `id`. */
  predicate InCart(items: seq<CartItem>, id: string)
  {
    Keyed.HasKey(items, LineId, id)
  }

  /** At most one line per product id. */
  predicate UniqueIds(items: seq<CartItem>)
  {
    Keyed.UniqueKeys(items, LineId)
  }

  /** Every line holds at least one unit. */
  predicate AllPositive(items: seq<CartItem>)
  {
    forall i :: 0 <= i < |items| ==> items[i].quantity >= 1
  }

  /** `{ ...item, quantity: item.quantity + 1 }` */
  function Increment(l: CartItem): CartItem
  {
    l.(quantity := l.quantity + 1)
  }

  /** `{ ...item, quantity: q }` */
  function WithQuantity(q: int): CartItem -> CartItem
  {
    (l: CartItem) => l.(quantity := q)
  }

  /** `addToCart`: bump the line that holds the product, or append a new line with quantity 1. */
  function AddToCart(items: seq<CartItem>, p: Product): (r: seq<CartItem>)
    ensures InCart(r, p.id)
    ensures |r| == if InCart(items, p.id) then |items| else |items| + 1
  {
    if InCart(items, p.id) then
      Keyed.UpdateKeyIndex(items, LineId, p.id, Increment);
      Keyed.UpdateKey(items, LineId, p.id, Increment)
    else
      var r := items + [CartItem(p, 1)];
      assert LineId(r[|items|]) == p.id;
      r
  }

  /** `removeFromCart`: drop every line of product `id`. */
  function RemoveFromCart(items: seq<CartItem>, id: string): (r: seq<CartItem>)
    ensures !InCart(r, id)
  {
    Keyed.RemoveKey(items, LineId, id)
  }

  /** `updateCartQuantity`: exactly 0 removes the line; any other value, negatives included, overwrites its quantity. */
  function UpdateQuantity(items: seq<CartItem>, id: string, q: int): (r: seq<CartItem>)
    ensures q == 0 ==> !InCart(r, id) && |r| <= |items|
    ensures q != 0 ==> |r| == |items|
  {
    if q == 0 then RemoveFromCart(items, id) else Keyed.UpdateKey(items, LineId, id, WithQuantity(q))
  }

  /** `totalCartItems`: the number of units in the cart. */
  function UnitCount(items: seq<CartItem>): (n: int)
    ensures items == [] ==> n == 0
    ensures (forall i :: 0 <= i < |items| ==> items[i].quantity >= 0) ==> n >= 0
  {
    if items == [] then 0 else items[0].quantity + UnitCount(items[1..])
  }

  /** The worth of one line. */
  function LineTotal(l: CartItem): int
  {
    l.product.price * l.quantity
  }

  /** The cart total, `items.reduce((sum, item) => sum + item.price * item.quantity, 0)`. */
  function Total(items: seq<CartItem>): (t: int)
    ensures items == [] ==> t == 0
    ensures (forall i :: 0 <= i < |items| ==> items[i].quantity >= 0 && items[i].product.price >= 0) ==> t >= 0
  {
    if items == [] then 0 else LineTotal(items[0]) + Total(items[1..])
  }

  // ---------------------------------------------------------------- addToCart

  /**
    Adding a product already in the cart changes only its line: the quantity goes
    up by one and every stored field of the line (size and price included) stays;
    length and order are unchanged.
  */
  lemma AddExisting(items: seq<CartItem>, p: Product, k: nat)
    requires UniqueIds(items) && k < |items| && items[k].product.id == p.id
    ensures AddToCart(items, p) == items[..k] + [items[k].(quantity := items[k].quantity + 1)] + items[k + 1..]
  {
    assert LineId(items[k]) == p.id;
    Keyed.UpdateKeyAt(items, LineId, k, Increment);
  }

  /** Adding a product not yet in the cart appends one line holding it with quantity 1; earlier lines are untouched. */
  lemma AddNew(items: seq<CartItem>, p: Product)
    requires !InCart(items, p.id)
    ensures AddToCart(items, p)[..|items|] == items
    ensures AddToCart(items, p)[|items|] == CartItem(p, 1)
  {
  }

  /** `addToCart` keeps at most one line per id. */
  lemma AddKeepsUnique(items: seq<CartItem>, p: Product)
    requires UniqueIds(items)
    ensures UniqueIds(AddToCart(items, p))
  {
    if InCart(items, p.id) {
      Keyed.UpdateKeyKeepsUnique(items, LineId, p.id, Increment);
    } else {
      var r := items + [CartItem(p, 1)];
      forall i, j | 0 <= i < j < |r| ensures LineId(r[i]) != LineId(r[j]) {
        if j == |items| {
          assert LineId(r[i]) == LineId(items[i]);
        } else {
          assert r[i] == items[i] && r[j] == items[j];
        }
      }
    }
  }

  /** Adding keeps every quantity of a cart at least 1 when each already was. */
  lemma AddKeepsPositive(items: seq<CartItem>, p: Product)
    requires AllPositive(items)
    ensures AllPositive(AddToCart(items, p))
  {
    Keyed.UpdateKeyIndex(items, LineId, p.id, Increment);
  }

  // ---------------------------------------------------------------- sums

  lemma {:induction false} UnitCountAppend(a: seq<CartItem>, b: seq<CartItem>)
    ensures UnitCount(a + b) == UnitCount(a) + UnitCount(b)
  {
    if a != [] {
      assert (a + b)[1..] == a[1..] + b;
      UnitCountAppend(a[1..], b);
    } else {
      assert a + b == b;
    }
  }

  lemma {:induction false} TotalAppend(a: seq<CartItem>, b: seq<CartItem>)
    ensures Total(a + b) == Total(a) + Total(b)
  {
    if a != [] {
      assert (a + b)[1..] == a[1..] + b;
      TotalAppend(a[1..], b);
    } else {
      assert a + b == b;
    }
  }

  /** In a well-formed cart `addToCart` raises the unit count by exactly one. */
  lemma UnitCountAdd(items: seq<CartItem>, p: Product)
    requires UniqueIds(items)
    ensures UnitCount(AddToCart(items, p)) == UnitCount(items) + 1
  {
    if InCart(items, p.id) {
      var k :| 0 <= k < |items| && LineId(items[k]) == p.id;
      AddExisting(items, p, k);
      var bumped := items[k].(quantity := items[k].quantity + 1);
      assert items == items[..k] + [items[k]] + items[k + 1..];
      UnitCountAppend(items[..k] + [items[k]], items[k + 1..]);
      UnitCountAppend(items[..k], [items[k]]);
      UnitCountAppend(items[..k] + [bumped], items[k + 1..]);
      UnitCountAppend(items[..k], [bumped]);
    } else {
      UnitCountAppend(items, [CartItem(p, 1)]);
    }
  }

  /** The badge never shows fewer units than the cart has lines when every line holds a unit. */
  lemma {:induction false} UnitCountAtLeastLines(items: seq<CartItem>)
    requires AllPositive(items)
    ensures UnitCount(items) >= |items|
  {
    if items != [] {
      UnitCountAtLeastLines(items[1..]);
    }
  }

  /** The total does not depend on the order of the lines. */
  lemma {:induction false} TotalPermutation(a: seq<CartItem>, b: seq<CartItem>)
    requires multiset(a) == multiset(b)
    ensures Total(a) == Total(b)
    decreases |a|
  {
    if a != [] {
      var x := a[0];
      assert x in multiset(b);
      var i :| 0 <= i < |b| && b[i] == x;
      var rest := b[..i] + b[i + 1..];
      assert b == b[..i] + [x] + b[i + 1..];
      assert a == [x] + a[1..];
      assert multiset(a[1..]) == multiset(rest) by {
        assert multiset(a) == multiset{x} + multiset(a[1..]);
        assert multiset(b) == multiset(b[..i]) + multiset{x} + multiset(b[i + 1..]);
        assert multiset(rest) == multiset(b[..i]) + multiset(b[i + 1..]);
        assert multiset(a[1..]) == multiset(a) - multiset{x};
        assert multiset(rest) == multiset(b) - multiset{x};
      }
      TotalPermutation(a[1..], rest);
      TotalAppend(b[..i] + [x], b[i + 1..]);
      TotalAppend(b[..i], [x]);
      TotalAppend(b[..i], b[i + 1..]);
    }
  }

  // ---------------------------------------------------------------- updateCartQuantity

  /** Quantity 0 removes the line of that id, whatever its quantity was. */
  lemma UpdateZeroRemoves(items: seq<CartItem>, id: string)
    ensures UpdateQuantity(items, id, 0) == RemoveFromCart(items, id)
    ensures !InCart(UpdateQuantity(items, id, 0), id)
  {
  }

  /** Any other quantity, negatives included, overwrites the quantity of the matching line and nothing else. */
  lemma UpdateOverwrites(items: seq<CartItem>, id: string, q: int)
    requires q != 0
    ensures |UpdateQuantity(items, id, q)| == |items|
    ensures forall i :: 0 <= i < |items| ==>
      UpdateQuantity(items, id, q)[i] == if items[i].product.id == id then items[i].(quantity := q) else items[i]
  {
    Keyed.UpdateKeyIndex(items, LineId, id, WithQuantity(q));
  }

  /** An id that is not in the cart leaves it unchanged, whatever the quantity. */
  lemma UpdateAbsent(items: seq<CartItem>, id: string, q: int)
    requires !InCart(items, id)
    ensures UpdateQuantity(items, id, q) == items
  {
    if q == 0 {
      Keyed.RemoveKeyAbsent(items, LineId, id);
    } else {
      Keyed.UpdateKeyAbsent(items, LineId, id, WithQuantity(q));
    }
  }

  /** `updateCartQuantity` keeps at most one line per id. */
  lemma UpdateKeepsUnique(items: seq<CartItem>, id: string, q: int)
    requires UniqueIds(items)
    ensures UniqueIds(UpdateQuantity(items, id, q))
  {
    if q == 0 {
      Keyed.RemoveKeyKeepsUnique(items, LineId, id);
    } else {
      Keyed.UpdateKeyKeepsUnique(items, LineId, id, WithQuantity(q));
    }
  }

  /**
    Adding a new product twice leaves the cart as adding it once and then setting
    its quantity to 2.
  */
  lemma AddTwiceIsQuantityTwo(items: seq<CartItem>, p: Product)
    requires UniqueIds(items) && !InCart(items, p.id)
    ensures AddToCart(AddToCart(items, p), p) == UpdateQuantity(AddToCart(items, p), p.id, 2)
  {
    var once := AddToCart(items, p);
    AddKeepsUnique(items, p);
    var k := |items|;
    assert LineId(once[k]) == p.id;
    Keyed.UpdateKeyAt(once, LineId, k, Increment);
    Keyed.UpdateKeyAt(once, LineId, k, WithQuantity(2));
  }

  // ---------------------------------------------------------------- removeFromCart

  /** Removing the id of line k removes exactly that line; the others keep their order. */
  lemma RemoveLine(items: seq<CartItem>, k: nat)
    requires UniqueIds(items) && k < |items|
    ensures RemoveFromCart(items, items[k].product.id) == items[..k] + items[k + 1..]
  {
    Keyed.RemoveKeyAt(items, LineId, k);
  }

  /** Removal keeps exactly the lines of other products, in their original order. */
  lemma RemoveKeepsOthers(items: seq<CartItem>, id: string, x: CartItem)
    ensures x in RemoveFromCart(items, id) <==> x in items && x.product.id != id
  {
    Keyed.RemoveKeyMember(items, LineId, id, x);
  }

  /** Removal distributes over concatenation, so the surviving lines keep their relative order. */
  lemma RemoveKeepsOrder(a: seq<CartItem>, b: seq<CartItem>, id: string)
    ensures RemoveFromCart(a + b, id) == RemoveFromCart(a, id) + RemoveFromCart(b, id)
  {
    Keyed.RemoveKeyAppend(a, b, LineId, id);
  }

  /** Removing an id that is not in the cart is a no-op. */
  lemma RemoveAbsent(items: seq<CartItem>, id: string)
    requires !InCart(items, id)
    ensures RemoveFromCart(items, id) == items
  {
    Keyed.RemoveKeyAbsent(items, LineId, id);
  }

  /** `removeFromCart` keeps at most one line per id. */
  lemma RemoveKeepsUnique(items: seq<CartItem>, id: string)
    requires UniqueIds(items)
    ensures UniqueIds(RemoveFromCart(items, id))
  {
    Keyed.RemoveKeyKeepsUnique(items, LineId, id);
  }
}
