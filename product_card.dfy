/**
 * components/ProductCard.tsx: the badges and notes on a product tile, all
 * decided by the stock count and the price.
 */
module ProductCard {
  import opened Js
  import opened Catalog

  /** "Free shipping eligible" needs a price above $30, that is 3000 cents. */
  const FreeShippingAbove: int := 3000

  /** The low-stock threshold: fewer than ten left. */
  const LowStockBelow: int := 10

  /** `isLowStock`: the "Only n left!" badge. */
  predicate IsLowStock(p: Product) {
    p.stock.Some? && p.stock.value < LowStockBelow && p.stock.value > 0
  }

  /** `isOutOfStock`: the "Out of Stock" badge. */
  predicate IsOutOfStock(p: Product) {
    p.stock.Some? && p.stock.value == 0
  }

  /** The "In stock - Ships today" note. */
  predicate ShowsInStock(p: Product) {
    p.stock.Some? && p.stock.value > 0
  }

  predicate FreeShipping(p: Product) {
    p.price > FreeShippingAbove
  }

  /** The stock indicators a tile shows, and the free-shipping note. */
  datatype StockBadges = StockBadges(lowStock: bool, outOfStock: bool, inStock: bool, freeShipping: bool)

  function Badges(p: Product): (b: StockBadges)
    ensures b.freeShipping <==> p.price >= FreeShippingAbove + 1
    ensures b.lowStock ==> b.inStock
    ensures !(b.lowStock && b.outOfStock) && !(b.outOfStock && b.inStock)
    ensures p.stock.None? ==> !b.lowStock && !b.outOfStock && !b.inStock
    ensures p.stock.Some? && p.stock.value < 0 ==> !b.lowStock && !b.outOfStock && !b.inStock
    ensures p.stock.Some? && p.stock.value >= 0 ==> b.outOfStock || b.inStock
  {
    StockBadges(IsLowStock(p), IsOutOfStock(p), ShowsInStock(p), FreeShipping(p))
  }

  /**
   * By stock count: 0 is out of stock, 1 to 9 is low and in stock, 10 or
   * more is in stock only, and an unknown count shows no indicator at all.
   */
  lemma BadgesByCount(p: Product)
    ensures var b := Badges(p);
            && (p.stock == Some(0) ==> !b.lowStock && b.outOfStock && !b.inStock)
            && (p.stock.Some? && 1 <= p.stock.value <= 9 ==> b.lowStock && !b.outOfStock && b.inStock)
            && (p.stock.Some? && p.stock.value >= 10 ==> !b.lowStock && !b.outOfStock && b.inStock)
            && (p.stock.None? ==> !b.lowStock && !b.outOfStock && !b.inStock)
  {
  }
}
