/**
  The cart side sheet: what it shows for a cart, and what its per-line buttons
  ask the shop page to do. The buttons only compute the arguments of the page's
  `updateCartQuantity` and `removeFromCart`; Apply plays those calls on the cart.
*/
module CartSheet {
  import opened Wrappers
  import opened Catalog
  import opened Cart

  /** A call from the sheet to the page: `onUpdateQuantity(id, quantity)` or `onRemoveItem(id)`. */
  datatype Request = SetQuantity(id: string, quantity: int) | Remove(id: string)

  /** The − button: `onUpdateQuantity(item.id, Math.max(0, item.quantity - 1))`. */
  function MinusRequest(l: CartItem): (r: Request)
    ensures r.SetQuantity? && r.id == l.product.id
    ensures r.quantity >= 0
    ensures r.quantity == if l.quantity >= 1 then l.quantity - 1 else 0
  {
    SetQuantity(l.product.id, if l.quantity - 1 > 0 then l.quantity - 1 else 0)
  }

  /** The + button: `onUpdateQuantity(item.id, item.quantity + 1)`. */
  function PlusRequest(l: CartItem): Request
  {
    SetQuantity(l.product.id, l.quantity + 1)
  }

  /** The trash button: `onRemoveItem(item.id)`. */
  function TrashRequest(l: CartItem): Request
  {
    Remove(l.product.id)
  }

  /** The cart after the page has handled a request. */
  function Apply(items: seq<CartItem>, req: Request): seq<CartItem>
  {
    match req
    case SetQuantity(id, q) => UpdateQuantity(items, id, q)
    case Remove(id) => RemoveFromCart(items, id)
  }

  /** A request one of line k's buttons can send. */
  predicate ButtonOf(items: seq<CartItem>, k: nat, req: Request)
    requires k < |items|
  {
    req == MinusRequest(items[k]) || req == PlusRequest(items[k]) || req == TrashRequest(items[k])
  }

  /** The cart invariant the page relies on: one line per id, each holding at least one unit. */
  predicate WellFormed(items: seq<CartItem>)
  {
    UniqueIds(items) && AllPositive(items)
  }

  /** − on a line holding one unit asks for quantity 0, which removes exactly that line. */
  lemma MinusAtOneRemoves(items: seq<CartItem>, k: nat)
    requires UniqueIds(items) && k < |items| && items[k].quantity == 1
    ensures Apply(items, MinusRequest(items[k])) == items[..k] + items[k + 1..]
  {
    RemoveLine(items, k);
  }

  /** − on a line holding more than one unit lowers that line's quantity by one and changes nothing else. */
  lemma MinusDecrements(items: seq<CartItem>, k: nat)
    requires UniqueIds(items) && k < |items| && items[k].quantity > 1
    ensures Apply(items, MinusRequest(items[k]))
         == items[..k] + [items[k].(quantity := items[k].quantity - 1)] + items[k + 1..]
  {
    assert LineId(items[k]) == items[k].product.id;
    Keyed.UpdateKeyAt(items, LineId, k, WithQuantity(items[k].quantity - 1));
  }

  /**
    + has the same effect as adding that line's product to the cart again. (On a
    line holding -1, which only a direct negative update can produce, + asks for 0
    and removes the line instead.)
  */
  lemma PlusIsReAdd(items: seq<CartItem>, k: nat)
    requires UniqueIds(items) && k < |items| && items[k].quantity >= 0
    ensures Apply(items, PlusRequest(items[k])) == AddToCart(items, items[k].product)
  {
    assert LineId(items[k]) == items[k].product.id;
    Keyed.UpdateKeyAt(items, LineId, k, WithQuantity(items[k].quantity + 1));
    assert WithQuantity(items[k].quantity + 1)(items[k]) == items[k].(quantity := items[k].quantity + 1);
    AddExisting(items, items[k].product, k);
  }

  /** The trash button removes exactly its own line. */
  lemma TrashRemovesLine(items: seq<CartItem>, k: nat)
    requires UniqueIds(items) && k < |items|
    ensures Apply(items, TrashRequest(items[k])) == items[..k] + items[k + 1..]
  {
    RemoveLine(items, k);
  }

  /** Dropping line k of a well-formed cart leaves a well-formed cart. */
  lemma DropLineKeepsWellFormed(items: seq<CartItem>, k: nat)
    requires WellFormed(items) && k < |items|
    ensures WellFormed(items[..k] + items[k + 1..])
  {
    RemoveLine(items, k);
    RemoveKeepsUnique(items, items[k].product.id);
    var rest := items[..k] + items[k + 1..];
    forall i | 0 <= i < |rest| ensures rest[i].quantity >= 1 {
      if i < k { assert rest[i] == items[i]; } else { assert rest[i] == items[i + 1]; }
    }
  }

  /** Lowering a quantity above one by one leaves a well-formed cart. */
  lemma DecrementKeepsWellFormed(items: seq<CartItem>, k: nat)
    requires WellFormed(items) && k < |items| && items[k].quantity > 1
    ensures WellFormed(Apply(items, MinusRequest(items[k])))
  {
    MinusDecrements(items, k);
    UpdateKeepsUnique(items, items[k].product.id, items[k].quantity - 1);
    var r := Apply(items, MinusRequest(items[k]));
    forall i | 0 <= i < |r| ensures r[i].quantity >= 1 {
      if i < k { assert r[i] == items[i]; } else if i > k { assert r[i] == items[i]; }
    }
  }

  /** Whatever button of whatever line is pressed, a well-formed cart stays well-formed. */
  lemma ButtonsKeepCartWellFormed(items: seq<CartItem>, k: nat, req: Request)
    requires WellFormed(items) && k < |items| && ButtonOf(items, k, req)
    ensures WellFormed(Apply(items, req))
  {
    if req == TrashRequest(items[k]) {
      TrashRemovesLine(items, k);
      DropLineKeepsWellFormed(items, k);
    } else if req == PlusRequest(items[k]) {
      PlusIsReAdd(items, k);
      AddKeepsUnique(items, items[k].product);
      AddKeepsPositive(items, items[k].product);
    } else if items[k].quantity == 1 {
      MinusAtOneRemoves(items, k);
      DropLineKeepsWellFormed(items, k);
    } else {
      DecrementKeepsWellFormed(items, k);
    }
  }

  /** What the sheet shows for a cart. */
  datatype SheetView = SheetView(
    header: string,         // "<n> article(s) dans votre panier"
    emptyMessage: bool,     // "Votre panier est vide"
    footerTotal: Option<int>) // the total line and the checkout button

  /** The header text: the number of lines (not of units), with a plural "s" past one line. */
  function HeaderText(items: seq<CartItem>): string
  {
    IntToString(|items|) + " article" + (if |items| > 1 then "s" else "") + " dans votre panier"
  }

  /** The header reads "<n> articles ..." exactly past one line and "<n> article ..." exactly up to one. */
  lemma HeaderPlural(items: seq<CartItem>)
    ensures HeaderText(items) == IntToString(|items|) + " articles dans votre panier" <==> |items| > 1
    ensures HeaderText(items) == IntToString(|items|) + " article dans votre panier" <==> |items| <= 1
  {
    var n := IntToString(|items|);
    var plural := n + " articles dans votre panier";
    var single := n + " article dans votre panier";
    assert |plural| != |single|;
    if |items| > 1 {
      assert HeaderText(items) == plural;
    } else {
      assert HeaderText(items) == single;
    }
  }

  /** The sheet for a cart: the empty-cart message exactly when there are no lines, the total and checkout button exactly when there are. */
  function Render(items: seq<CartItem>): (v: SheetView)
    ensures v.header == HeaderText(items)
    ensures v.emptyMessage <==> items == []
    ensures v.footerTotal.Some? <==> items != []
    ensures v.footerTotal.Some? ==> v.footerTotal.value == Total(items)
  {
    SheetView(HeaderText(items), |items| == 0, if |items| > 0 then Some(Total(items)) else None)
  }
}
