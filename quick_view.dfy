/**
 * The quick-view modal (components/shared/quick-view-modal.tsx): the
 * product picked by the parent section, the quantity selector with its two
 * clamped buttons, the stock label and the hand-offs to the cart and the
 * wishlist.
 */
module QuickView {
  import opened Wrappers
  import opened Catalog
  import opened Utils
  import opened Wishlist

  /** The stock line under the description. */
  datatype StockLabel = OnlyLeft(count: int) | InStock | OutOfStock

  /** The stock line: a count below ten, a plain "In Stock" from ten on, "Out of Stock" when nothing is left. */
  function Label(stock: int): (l: StockLabel)
    ensures l.OutOfStock? <==> stock <= 0
    ensures l.OnlyLeft? <==> 0 < stock < 10
    ensures l.OnlyLeft? ==> l.count == stock
    ensures l.InStock? <==> stock >= 10
  {
    if stock > 0 then (if stock < 10 then OnlyLeft(stock) else InStock) else OutOfStock
  }

  /**
   * The modal's label and the shared `getStockStatus` helper put the same
   * non-negative stock in the same tier.
   */
  lemma LabelAgreesWithStockStatus(stock: int)
    requires stock >= 0
    ensures Label(stock).OutOfStock? <==> GetStockStatus(stock) == "Out of stock"
    ensures Label(stock).OnlyLeft? <==> GetStockStatus(stock) == "Low stock"
    ensures Label(stock).InStock? <==> GetStockStatus(stock) == "In stock"
  {
  }

  /** The largest quantity the selector is meant to reach: the stock, but never below 1. */
  function Ceiling(stock: int): int { if stock > 1 then stock else 1 }

  /** The selector's quantity lies between 1 and the ceiling. */
  predicate Fits(quantity: int, stock: int) { 1 <= quantity <= Ceiling(stock) }

  /** The minus button: `Math.max(1, quantity - 1)`. */
  function Decremented(quantity: int): (r: int)
    ensures r >= 1
    ensures quantity > 1 ==> r == quantity - 1
    ensures quantity <= 1 ==> r == 1
  {
    if quantity - 1 > 1 then quantity - 1 else 1
  }

  /** The plus button is enabled while the quantity is below the stock. */
  predicate PlusEnabled(quantity: int, stock: int) { quantity < stock }

  /** The plus button: `Math.min(product.stock, quantity + 1)`. */
  function Incremented(quantity: int, stock: int): (r: int)
    ensures r <= stock
    ensures PlusEnabled(quantity, stock) ==> r == quantity + 1
  {
    if stock < quantity + 1 then stock else quantity + 1
  }

  /** A click on one of the two buttons. */
  datatype Press = Minus | Plus

  /** The quantity after one click; a click on the disabled plus button does nothing. */
  function Pressed(quantity: int, stock: int, p: Press): int
  {
    match p
    case Minus => Decremented(quantity)
    case Plus => if PlusEnabled(quantity, stock) then Incremented(quantity, stock) else quantity
  }

  /** The quantity after a sequence of clicks on one product. */
  function AfterPresses(quantity: int, stock: int, presses: seq<Press>): int
    decreases |presses|
  {
    if presses == [] then quantity
    else AfterPresses(Pressed(quantity, stock, presses[0]), stock, presses[1..])
  }

  /** One click keeps the quantity within bounds. */
  lemma PressKeepsFit(quantity: int, stock: int, p: Press)
    requires Fits(quantity, stock)
    ensures Fits(Pressed(quantity, stock, p), stock)
  {
  }

  /** From any quantity within bounds, every sequence of clicks keeps it within bounds. */
  lemma {:induction false} PressesKeepFit(quantity: int, stock: int, presses: seq<Press>)
    requires Fits(quantity, stock)
    ensures Fits(AfterPresses(quantity, stock, presses), stock)
    decreases |presses|
  {
    if presses != [] {
      PressKeepsFit(quantity, stock, presses[0]);
      PressesKeepFit(Pressed(quantity, stock, presses[0]), stock, presses[1..]);
    }
  }

  /** The selector starts at 1, so no sequence of clicks on one product leaves the bounds. */
  lemma FromStartStaysInStock(stock: int, presses: seq<Press>)
    ensures 1 <= AfterPresses(1, stock, presses)
    ensures stock >= 1 ==> AfterPresses(1, stock, presses) <= stock
  {
    PressesKeepFit(1, stock, presses);
  }

  /**
   * The quantity is kept when another product is shown: four clicks on the
   * plus button of a product with ten in stock reach 5, and 5 is more than a
   * product with two in stock allows.
   */
  lemma StaleQuantityExceedsStock()
    ensures AfterPresses(1, 10, [Plus, Plus, Plus, Plus]) == 5
    ensures Fits(AfterPresses(1, 10, [Plus, Plus, Plus, Plus]), 10)
    ensures !Fits(AfterPresses(1, 10, [Plus, Plus, Plus, Plus]), 2)
  {
  }

  /** The modal: the product chosen by the parent (null when closed) and the selector's quantity. */
  class QuickViewModal {
    var product: Option<Product>
    var quantity: int

    /** The quantity is within bounds for the product on show. */
    ghost predicate Valid()
      reads this
    {
      quantity >= 1 && (product.Some? ==> Fits(quantity, product.value.stock))
    }

    /** `useState(1)`, with nothing selected yet. */
    constructor()
      ensures product.None? && quantity == 1
      ensures Valid()
    {
      product, quantity := None, 1;
    }

    /** The modal is rendered open exactly when a product is selected (`isOpen={!!selectedProduct}`). */
    function IsOpen(): (b: bool)
      reads this
      ensures b <==> product.Some?
    {
      product.Some?
    }

    /**
     * The parent selects a product, as the component is written: the
     * quantity state survives from the previous product.
     */
    method Show(p: Product)
      modifies this
      ensures product == Some(p) && quantity == old(quantity)
    {
      product := Some(p);
    }

    /** Selecting a product with the quantity put back to its initial 1. */
    method ShowFresh(p: Product)
      modifies this
      ensures product == Some(p) && quantity == 1
      ensures Valid()
    {
      product, quantity := Some(p), 1;
    }

    /** The minus button. */
    method Decrement()
      requires product.Some?
      modifies this
      ensures product == old(product)
      ensures quantity == Pressed(old(quantity), product.value.stock, Minus)
      ensures old(Valid()) ==> Valid()
    {
      quantity := if quantity - 1 > 1 then quantity - 1 else 1;
    }

    /** The plus button, which can be clicked only while it is enabled. */
    method Increment()
      requires product.Some? && PlusEnabled(quantity, product.value.stock)
      modifies this
      ensures product == old(product)
      ensures quantity == Pressed(old(quantity), product.value.stock, Plus)
      ensures old(Valid()) ==> Valid()
    {
      var stock := product.value.stock;
      quantity := if stock < quantity + 1 then stock else quantity + 1;
    }

    /**
     * "Add to Cart", enabled unless the stock is zero: hand the product and
     * the current quantity to the cart, then close the modal. The quantity
     * is not reset.
     */
    method AddToCart() returns (request: CartRequest)
      requires product.Some? && product.value.stock != 0
      modifies this
      ensures request == CartRequest(old(product).value, old(quantity))
      ensures product.None? && quantity == old(quantity)
    {
      request := CartRequest(product.value, quantity);
      product := None;
    }

    /** The heart button: add the product to the wishlist; the modal stays open. */
    method AddToWishlist(wishlist: WishlistStore)
      requires product.Some?
      modifies wishlist
      ensures wishlist.items == Added(old(wishlist.items), product.value)
      ensures old(wishlist.Valid()) ==> wishlist.Valid()
    {
      wishlist.AddItem(product.value);
    }
  }

  /**
   * With the fresh selection, a request handed to the cart is within the
   * stock of the product it names.
   */
  lemma RequestWithinStock(p: Product, presses: seq<Press>)
    requires p.stock != 0
    ensures p.stock > 0 ==> 1 <= AfterPresses(1, p.stock, presses) <= p.stock
  {
    FromStartStaysInStock(p.stock, presses);
  }
}
