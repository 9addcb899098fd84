/**
 * components/AddToCartButton.tsx: the size picker, quantity stepper and
 * "Add to Cart" button of a product page. A product offering sizes cannot
 * be added until one is picked, an out-of-stock product is not added, and
 * a successful add shows a confirmation that a timer later hides.
 */
module AddToCartButton {
  import opened Js
  import opened Catalog
  import C = CartContext
  import ProductCard

  const SelectSizeAlert: string := "Please select a size"

  /** `hasSizes`: `sizes_available` is present and not empty. */
  predicate HasSizes(p: Product) {
    p.sizes.Some? && |p.sizes.value| > 0
  }

  /** `isInStock`: no stock count is recorded, or it is positive. */
  predicate IsInStock(p: Product) {
    p.stock.None? || p.stock.value > 0
  }

  /** `selectedSize || undefined`: the picked size, or none while nothing is picked. */
  function SizeArg(selectedSize: string): (r: Option<string>)
    ensures r.None? <==> selectedSize == ""
    ensures r.Some? ==> r.value == selectedSize
  {
    if selectedSize == "" then None else Some(selectedSize)
  }

  /**
   * The call as written, `addToCart(product, quantity, size)`: the context
   * takes a single item and reads its fields from the product object, which
   * has an `id` and a `slug` but no top-level name, price, image, size or
   * quantity; the second and third arguments are ignored.
   */
  function AsWrittenItem(p: Product, quantity: int, size: Option<string>): C.NewItem {
    C.NewItem(Some(p.id), None, None, None, None, Some(p.slug), None)
  }

  /** The item the button means to add: the product's fields, the chosen quantity and size. */
  function ItemFor(p: Product, quantity: int, size: Option<string>): C.NewItem {
    C.NewItem(Some(p.id), Some(p.name), Some(p.price), p.image, size, Some(p.slug), Some(quantity))
  }

  /**
   * As written, the chosen quantity and size are lost: a new line gets one
   * unit, no size, no name and price 0, and an existing size-less line of the
   * product grows by one, whatever was chosen. With quantity 3 and size "M",
   * for instance, the cart gains one unsized unit at price 0.
   */
  lemma AsWrittenLosesChoice(items: seq<C.CartItem>, p: Product, quantity: int, size: Option<string>)
    ensures AsWrittenItem(p, quantity, size) == AsWrittenItem(p, 1, None)
    ensures !C.HasLine(items, Some(p.id), None) ==>
              C.AddUpdater(items, AsWrittenItem(p, quantity, size))[|items|]
              == C.CartItem(p.id, "", 0, 1, None, None, p.slug)
    ensures forall k :: C.FirstLine(items, k, Some(p.id), None) ==>
              C.AddUpdater(items, AsWrittenItem(p, quantity, size))[k].quantity == items[k].quantity + 1
  {
  }

  /**
   * The intended item adds exactly the chosen quantity (at least 1) under the
   * chosen size: a new line copies the product and carries both, and an
   * existing line for that size grows by the quantity.
   */
  lemma ItemForKeepsChoice(items: seq<C.CartItem>, p: Product, quantity: int, size: Option<string>)
    requires quantity >= 1
    ensures C.AddedQuantity(ItemFor(p, quantity, size)) == quantity
    ensures !C.HasLine(items, Some(p.id), size) ==>
              C.AddUpdater(items, ItemFor(p, quantity, size))[|items|]
              == C.CartItem(p.id, p.name, p.price, quantity, p.image, size, p.slug)
    ensures forall k :: C.FirstLine(items, k, Some(p.id), size) ==>
              C.AddUpdater(items, ItemFor(p, quantity, size))[k].quantity == items[k].quantity + quantity
  {
  }

  /**
   * The button and the product tile read the stock count alike, except that
   * an unrecorded count lets the button add while the tile shows no stock
   * note; a product the button refuses shows "Out of Stock" on its tile
   * unless its count is negative.
   */
  lemma ButtonAgreesWithCard(p: Product)
    ensures p.stock.Some? ==> (IsInStock(p) <==> ProductCard.ShowsInStock(p))
    ensures p.stock.None? ==> IsInStock(p) && !ProductCard.ShowsInStock(p)
    ensures !IsInStock(p) ==> ProductCard.IsOutOfStock(p) || p.stock.value < 0
  {
  }

  class Button {
    const product: Product
    const cart: C.CartStore
    var selectedSize: string
    var quantity: int
    var showSuccess: bool

    /** `useState('')`, `useState(1)`, `useState(false)`. */
    constructor(product: Product, cart: C.CartStore)
      ensures this.product == product && this.cart == cart
      ensures selectedSize == "" && quantity == 1 && !showSuccess
    {
      this.product := product;
      this.cart := cart;
      selectedSize := "";
      quantity := 1;
      showSuccess := false;
    }

    /** A size button: `setSelectedSize(size)`. */
    method SelectSize(size: string)
      modifies this
      ensures selectedSize == size
      ensures quantity == old(quantity) && showSuccess == old(showSuccess)
    {
      selectedSize := size;
    }

    /** "-": `Math.max(1, quantity - 1)`, so the stepper never goes below 1. */
    method Decrement()
      modifies this
      ensures quantity == if old(quantity) - 1 > 1 then old(quantity) - 1 else 1
      ensures quantity >= 1
      ensures selectedSize == old(selectedSize) && showSuccess == old(showSuccess)
    {
      quantity := if quantity - 1 > 1 then quantity - 1 else 1;
    }

    /** "+": one more. */
    method Increment()
      modifies this
      ensures quantity == old(quantity) + 1
      ensures old(quantity) >= 1 ==> quantity >= 2
      ensures selectedSize == old(selectedSize) && showSuccess == old(showSuccess)
    {
      quantity := quantity + 1;
    }

    /**
     * `handleAddToCart`: alerts and adds nothing while a size is required
     * but not picked; adds nothing when out of stock; otherwise hands the
     * product object itself to the cart, as line 30 does (so, by
     * `AsWrittenLosesChoice`, one unsized unit whatever was chosen), and
     * shows the confirmation.
     */
    method HandleAddToCart() returns (alert: Option<string>)
      modifies this, cart
      ensures selectedSize == old(selectedSize) && quantity == old(quantity)
      ensures HasSizes(product) && selectedSize == "" ==>
                alert == Some(SelectSizeAlert) && cart.items == old(cart.items) && showSuccess == old(showSuccess)
      ensures !(HasSizes(product) && selectedSize == "") && !IsInStock(product) ==>
                alert == None && cart.items == old(cart.items) && showSuccess == old(showSuccess)
      ensures !(HasSizes(product) && selectedSize == "") && IsInStock(product) ==>
                && alert == None
                && cart.items == C.AddUpdater(old(cart.items), AsWrittenItem(product, quantity, SizeArg(selectedSize)))
                && showSuccess
    {
      if HasSizes(product) && selectedSize == "" {
        return Some(SelectSizeAlert);
      }
      if !IsInStock(product) {
        return None;
      }
      cart.AddToCart(AsWrittenItem(product, quantity, SizeArg(selectedSize)));
      showSuccess := true;
      alert := None;
    }

    /** The two-second timer: `setShowSuccess(false)`. */
    method SuccessTimeout()
      modifies this
      ensures !showSuccess
      ensures selectedSize == old(selectedSize) && quantity == old(quantity)
    {
      showSuccess := false;
    }
  }
}
