/**
 * The product card (components/shared/product-card.tsx): the featured and
 * stock badges, the quick-add button with its label, and the `isAdded`
 * flag that the button sets and a timer clears.
 */
module ProductCard {
  import opened Catalog
  import opened QuickView

  /** The featured badge shows for a featured product unless the parent hides it. */
  predicate ShowsFeaturedBadge(p: Product, hideFeaturedBadge: bool)
  {
    p.featured && !hideFeaturedBadge
  }

  /** "Sold Out": `product.stock === 0`. */
  predicate ShowsSoldOut(stock: int) { stock == 0 }

  /** "Low Stock": `product.stock > 0 && product.stock < 5`. */
  predicate ShowsLowStock(stock: int) { 0 < stock < 5 }

  /**
   * The two stock badges never show together, and for a non-negative stock
   * they agree with the quick-view label: "Sold Out" exactly when it says
   * "Out of Stock", and "Low Stock" only where it gives a count.
   */
  lemma StockBadgesAgreeWithLabel(stock: int)
    ensures !(ShowsSoldOut(stock) && ShowsLowStock(stock))
    ensures stock >= 0 ==> (ShowsSoldOut(stock) <==> Label(stock).OutOfStock?)
    ensures ShowsLowStock(stock) ==> Label(stock) == OnlyLeft(stock)
    ensures stock >= 5 ==> !ShowsSoldOut(stock) && !ShowsLowStock(stock)
  {
  }

  /** The quick-add button is disabled when the stock is zero. */
  predicate QuickAddEnabled(stock: int) { stock != 0 }

  /** The quick-add button's text. */
  datatype ButtonLabel = ReadsAdded | ReadsOutOfStock | ReadsQuickAdd

  /** "Added! ✓" while the flag is up, else "Out of Stock" at zero stock, else "Quick Add". */
  function ButtonText(isAdded: bool, stock: int): (l: ButtonLabel)
    ensures l == ReadsAdded <==> isAdded
    ensures l == ReadsOutOfStock <==> !isAdded && stock == 0
    ensures l == ReadsQuickAdd <==> !isAdded && stock != 0
  {
    if isAdded then ReadsAdded else if stock == 0 then ReadsOutOfStock else ReadsQuickAdd
  }

  /** Whenever the button reads "Quick Add" it can be clicked; "Out of Stock" only shows on a disabled button. */
  lemma LabelMatchesEnabled(isAdded: bool, stock: int)
    ensures ButtonText(isAdded, stock) == ReadsQuickAdd ==> QuickAddEnabled(stock)
    ensures ButtonText(isAdded, stock) == ReadsOutOfStock ==> !QuickAddEnabled(stock)
  {
  }

  /** The card's own state: the "added" flag of its quick-add button. */
  class ProductCardView {
    const product: Product
    var isAdded: bool

    constructor(p: Product)
      ensures product == p && !isAdded
    {
      product := p;
      isAdded := false;
    }

    /** The quick-add click: hand one unit of the product to the cart and raise the flag. */
    method QuickAdd() returns (request: CartRequest)
      requires QuickAddEnabled(product.stock)
      modifies this
      ensures request == CartRequest(product, 1)
      ensures isAdded
      ensures ButtonText(isAdded, product.stock) == ReadsAdded
    {
      request := CartRequest(product, 1);
      isAdded := true;
    }

    /** The timer set by a quick add, two seconds later: lower the flag. */
    method ResetAdded()
      modifies this
      ensures !isAdded
      ensures ButtonText(isAdded, product.stock) == (if product.stock == 0 then ReadsOutOfStock else ReadsQuickAdd)
    {
      isAdded := false;
    }

    /**
     * The heart button: it only stops the card's link from navigating. It
     * may change nothing, and it reports that no navigation happens.
     */
    method HeartClick() returns (navigates: bool)
      ensures !navigates
    {
      navigates := false;
    }
  }
}
