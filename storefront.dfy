/**
  The shop page component: the state it holds (the demo catalog, the cart, whether
  the cart sheet is open, which page is shown, admin mode) and the handlers that
  replace that state. Each handler assigns the new value of one or two fields; the
  new lists are the pure functions of the Cart and Keyed modules. Toast
  notifications are not part of this model.
*/
module Storefront {
  import opened Wrappers
  import opened Catalog
  import Cart
  import Keyed

  /** The value of the `currentPage` state. */
  datatype Page = Shop | CheckoutPage | AdminPage

  /** What the component renders. */
  datatype View = ShopView | CheckoutView | AdminView

  /** The key of a catalog entry. */
  function ProductId(p: Product): string
  {
    p.id
  }

  /** The demonstration products the page starts with; the third is out of stock. */
  const Smartphone: Product := Product("1", "Smartphone Premium",
    "Dernier modèle avec écran OLED et caméra 108MP", 250000,
    "https://images.unsplash.com/photo-1511707171634-5f897ff02aa9?w=400", "Électronique",
    None, None, true, None)
  const Handbag: Product := Product("2", "Sac à Main Élégant",
    "Sac en cuir véritable, parfait pour toutes occasions", 45000,
    "https://images.unsplash.com/photo-1584917865442-de89df76afd3?w=400", "Vêtements",
    None, None, true, None)
  const Earbuds: Product := Product("3", "Écouteurs Sans Fil",
    "Audio haute qualité avec réduction de bruit active", 85000,
    "https://images.unsplash.com/photo-1505740420928-5e560c06d30e?w=400", "Électronique",
    None, None, false, None)

  function InitialProducts(): (r: seq<Product>)
    ensures |r| == 3 && Keyed.UniqueKeys(r, ProductId)
    ensures r[0].inStock && r[1].inStock && !r[2].inStock
  {
    [Smartphone, Handbag, Earbuds]
  }

  /** `prev.map(p => p.id === product.id ? product : p)` */
  function ReplaceById(ps: seq<Product>, p: Product): (r: seq<Product>)
    ensures |r| == |ps|
  {
    Keyed.UpdateKey(ps, ProductId, p.id, (_: Product) => p)
  }

  /** `prev.filter(p => p.id !== id)` */
  function DeleteById(ps: seq<Product>, id: string): (r: seq<Product>)
    ensures !Keyed.HasKey(r, ProductId, id)
  {
    Keyed.RemoveKey(ps, ProductId, id)
  }

  /** The render choice: checkout first, then admin (by page or by mode), else the shop. */
  function ViewOf(page: Page, isAdminMode: bool): (v: View)
    ensures v == CheckoutView <==> page == CheckoutPage
    ensures v == AdminView <==> page != CheckoutPage && (page == AdminPage || isAdminMode)
  {
    if page == CheckoutPage then CheckoutView
    else if page == AdminPage || isAdminMode then AdminView
    else ShopView
  }

  /** Every entry with the product's id becomes the product; the others and the length stay. */
  lemma ReplaceByIdIndex(ps: seq<Product>, p: Product)
    ensures forall i :: 0 <= i < |ps| ==>
      ReplaceById(ps, p)[i] == if ps[i].id == p.id then p else ps[i]
  {
    Keyed.UpdateKeyIndex(ps, ProductId, p.id, (_: Product) => p);
  }

  /** Updating keeps the catalog's ids unique. */
  lemma ReplaceByIdKeepsUnique(ps: seq<Product>, p: Product)
    requires Keyed.UniqueKeys(ps, ProductId)
    ensures Keyed.UniqueKeys(ReplaceById(ps, p), ProductId)
  {
    ReplaceByIdIndex(ps, p);
    var r := ReplaceById(ps, p);
    forall i, j | 0 <= i < j < |r| ensures r[i].id != r[j].id {
      assert r[i].id == ps[i].id && r[j].id == ps[j].id;
    }
  }

  /** Deleting keeps exactly the entries with another id. */
  lemma DeleteByIdMember(ps: seq<Product>, id: string, x: Product)
    ensures x in DeleteById(ps, id) <==> x in ps && x.id != id
  {
    Keyed.RemoveKeyMember(ps, ProductId, id, x);
  }

  /** Deleting distributes over concatenation, so the surviving entries keep their order. */
  lemma DeleteByIdKeepsOrder(a: seq<Product>, b: seq<Product>, id: string)
    ensures DeleteById(a + b, id) == DeleteById(a, id) + DeleteById(b, id)
  {
    Keyed.RemoveKeyAppend(a, b, ProductId, id);
  }

  /** The state of the shop page. */
  class ShopPage {
    var products: seq<Product>
    var cartItems: seq<CartItem>
    var isCartOpen: bool
    var currentPage: Page
    var isAdminMode: bool

    /** The cart holds at most one line per product. */
    ghost predicate Valid()
      reads this
    {
      Cart.UniqueIds(cartItems)
    }

    constructor()
      ensures products == InitialProducts() && cartItems == []
      ensures !isCartOpen && currentPage == Shop && !isAdminMode
      ensures Valid()
    {
      products := InitialProducts();
      cartItems := [];
      isCartOpen := false;
      currentPage := Shop;
      isAdminMode := false;
    }

    /** `totalCartItems`, the count on the navigation badge. */
    function TotalCartItems(): int
      reads this
    {
      Cart.UnitCount(cartItems)
    }

    /** What the component renders in this state. */
    function Shown(): View
      reads this
    {
      ViewOf(currentPage, isAdminMode)
    }

    /** `addToCart`: one more unit of the product in the cart. */
    method AddToCart(product: Product)
      requires Valid()
      modifies this
      ensures cartItems == Cart.AddToCart(old(cartItems), product)
      ensures products == old(products) && isCartOpen == old(isCartOpen)
      ensures currentPage == old(currentPage) && isAdminMode == old(isAdminMode)
      ensures Valid()
      ensures TotalCartItems() == old(TotalCartItems()) + 1
    {
      Cart.AddKeepsUnique(cartItems, product);
      Cart.UnitCountAdd(cartItems, product);
      cartItems := Cart.AddToCart(cartItems, product);
    }

    /** `removeFromCart`: the lines of that product leave the cart. */
    method RemoveFromCart(id: string)
      requires Valid()
      modifies this
      ensures cartItems == Cart.RemoveFromCart(old(cartItems), id)
      ensures products == old(products) && isCartOpen == old(isCartOpen)
      ensures currentPage == old(currentPage) && isAdminMode == old(isAdminMode)
      ensures Valid()
    {
      Cart.RemoveKeepsUnique(cartItems, id);
      cartItems := Cart.RemoveFromCart(cartItems, id);
    }

    /** `updateCartQuantity`: exactly 0 removes the line; any other value is stored as given. */
    method UpdateCartQuantity(id: string, quantity: int)
      requires Valid()
      modifies this
      ensures cartItems == Cart.UpdateQuantity(old(cartItems), id, quantity)
      ensures products == old(products) && isCartOpen == old(isCartOpen)
      ensures currentPage == old(currentPage) && isAdminMode == old(isAdminMode)
      ensures Valid()
    {
      if quantity == 0 {
        RemoveFromCart(id);
        return;
      }
      Cart.UpdateKeepsUnique(cartItems, id, quantity);
      cartItems := Keyed.UpdateKey(cartItems, Cart.LineId, id, Cart.WithQuantity(quantity));
    }

    /** `handleCheckout`: go to the checkout page and close the cart sheet. */
    method HandleCheckout()
      modifies this
      ensures currentPage == CheckoutPage && !isCartOpen
      ensures products == old(products) && cartItems == old(cartItems) && isAdminMode == old(isAdminMode)
      ensures Shown() == CheckoutView
    {
      currentPage := CheckoutPage;
      isCartOpen := false;
    }

    /** `addProduct`: the new product, with the id made from the clock, goes at the end of the catalog. */
    method AddProduct(productData: Product, now: string)
      modifies this
      ensures products == old(products) + [productData.(id := now)]
      ensures cartItems == old(cartItems) && isCartOpen == old(isCartOpen)
      ensures currentPage == old(currentPage) && isAdminMode == old(isAdminMode)
    {
      var newProduct := productData.(id := now);
      products := products + [newProduct];
    }

    /** `updateProduct`: every catalog entry with the product's id becomes the product. */
    method UpdateProduct(product: Product)
      modifies this
      ensures products == ReplaceById(old(products), product)
      ensures cartItems == old(cartItems) && isCartOpen == old(isCartOpen)
      ensures currentPage == old(currentPage) && isAdminMode == old(isAdminMode)
    {
      products := ReplaceById(products, product);
    }

    /** `deleteProduct`: the catalog entries with that id go; the cart is left as it is. */
    method DeleteProduct(id: string)
      modifies this
      ensures products == DeleteById(old(products), id)
      ensures cartItems == old(cartItems) && isCartOpen == old(isCartOpen)
      ensures currentPage == old(currentPage) && isAdminMode == old(isAdminMode)
    {
      products := DeleteById(products, id);
    }

    /** The navigation bar's cart button opens the sheet; the sheet's close button closes it. */
    method SetCartOpen(open: bool)
      modifies this
      ensures isCartOpen == open
      ensures products == old(products) && cartItems == old(cartItems)
      ensures currentPage == old(currentPage) && isAdminMode == old(isAdminMode)
    {
      isCartOpen := open;
    }

    /** The admin toggle from the shop: admin mode on, page unchanged. */
    method EnterAdmin()
      modifies this
      ensures isAdminMode && currentPage == old(currentPage)
      ensures products == old(products) && cartItems == old(cartItems) && isCartOpen == old(isCartOpen)
      ensures old(currentPage) != CheckoutPage ==> Shown() == AdminView
    {
      isAdminMode := true;
    }

    /** The admin toggle from the admin view, and the checkout page's back button: back to the shop. */
    method LeaveToShop(leaveAdmin: bool)
      modifies this
      ensures currentPage == Shop
      ensures isAdminMode == (if leaveAdmin then false else old(isAdminMode))
      ensures products == old(products) && cartItems == old(cartItems) && isCartOpen == old(isCartOpen)
      ensures leaveAdmin ==> Shown() == ShopView
    {
      if leaveAdmin {
        isAdminMode := false;
      }
      currentPage := Shop;
    }
  }
}
