/**
  The product card's add-to-cart rules, as functions of the product and the
  card's `selectedSize` state ("" until the shopper picks a size).
*/
module ProductCard {
  import opened Wrappers
  import opened Catalog
  import Cart

  /** `product.sizes && product.sizes.length > 0`: the product offers sizes. */
  predicate HasSizes(p: Product)
  {
    p.sizes.Some? && |p.sizes.value| > 0
  }

  /** A size must be chosen before the product can be added. */
  predicate NeedsSize(p: Product, selected: string)
  {
    HasSizes(p) && selected == ""
  }

  /**
    `handleAddToCart`: nothing when a size is required and missing; otherwise the
    one product copy passed to `onAddToCart`, carrying the chosen size (none when
    the selection is empty). Stock is not consulted here.
  */
  function HandleAddToCart(p: Product, selected: string): (r: Option<Product>)
    ensures r.None? <==> NeedsSize(p, selected)
    ensures r.Some? ==> r.value == p.(selectedSize := if selected == "" then None else Some(selected))
  {
    if NeedsSize(p, selected) then None
    else Some(p.(selectedSize := if selected == "" then None else Some(selected)))
  }

  /** The add button's `disabled` flag. */
  function Disabled(p: Product, selected: string): (r: bool)
    ensures r <==> !p.inStock || NeedsSize(p, selected)
  {
    !p.inStock || (HasSizes(p) && selected == "")
  }

  /** The add button's label. */
  function ButtonLabel(p: Product, selected: string): string
  {
    if p.inStock then
      (if HasSizes(p) && selected == "" then "Choisir une taille" else "Ajouter au panier")
    else "Indisponible"
  }

  /** The label is chosen in priority order: out of stock, then missing size, then ready. */
  lemma LabelPriority(p: Product, selected: string)
    ensures ButtonLabel(p, selected) == "Indisponible" <==> !p.inStock
    ensures ButtonLabel(p, selected) == "Choisir une taille" <==> p.inStock && NeedsSize(p, selected)
    ensures ButtonLabel(p, selected) == "Ajouter au panier" <==> !Disabled(p, selected)
  {
  }

  /** A product with no sizes, or an empty list of them, never waits for a size. */
  lemma NoSizesNeverBlock(p: Product, selected: string)
    requires p.sizes == None || p.sizes == Some([])
    ensures !NeedsSize(p, selected)
    ensures HandleAddToCart(p, selected).Some?
  {
  }

  /** The handler ignores stock: an out-of-stock product is held back only by the disabled button. */
  lemma HandlerIgnoresStock(p: Product, selected: string)
    ensures HandleAddToCart(p.(inStock := false), selected).Some? == HandleAddToCart(p.(inStock := true), selected).Some?
    ensures !p.inStock ==> Disabled(p, selected)
  {
  }

  /** A click on an enabled button adds exactly one unit to a well-formed cart. */
  lemma EnabledClickAddsOneUnit(p: Product, selected: string, items: seq<CartItem>)
    requires !Disabled(p, selected) && Cart.UniqueIds(items)
    ensures HandleAddToCart(p, selected).Some?
    ensures Cart.UnitCount(Cart.AddToCart(items, HandleAddToCart(p, selected).value)) == Cart.UnitCount(items) + 1
  {
    Cart.UnitCountAdd(items, HandleAddToCart(p, selected).value);
  }
}
