/**
 * The functional cart of lib/cart.ts: every operation takes a cart and
 * returns a new `{items, total}` whose total is recomputed from the items.
 * Lines are keyed by (product id, optional size). Persisting the result to
 * browser storage (`saveCart`) is not part of this model.
 */
module CartLib {
  import opened Js
  import opened Catalog

  datatype CartItem = CartItem(product: Product, quantity: int, size: Option<string>)

  /** `total` is whatever the caller passes in; operations never trust it. */
  datatype Cart = Cart(items: seq<CartItem>, total: int)

  function LineTotal(item: CartItem): int {
    item.product.price * item.quantity
  }

  function LineQuantity(item: CartItem): int {
    item.quantity
  }

  /** `calculateTotal`: Σ price × quantity over the lines. */
  function CalculateTotal(items: seq<CartItem>): (total: int)
    ensures items == [] ==> total == 0
  {
    Sum(items, LineTotal)
  }

  /** `getCartItemCount`: Σ quantity over the lines. */
  function GetCartItemCount(cart: Cart): (count: int)
    ensures cart.items == [] ==> count == 0
  {
    Sum(cart.items, LineQuantity)
  }

  /** Lines with non-negative prices and quantities give a non-negative total and item count. */
  lemma TotalsNonNegative(cart: Cart)
    requires forall i :: 0 <= i < |cart.items| ==> cart.items[i].product.price >= 0 && cart.items[i].quantity >= 0
    ensures CalculateTotal(cart.items) >= 0 && GetCartItemCount(cart) >= 0
  {
    SumNonNegative(cart.items, LineTotal);
    SumNonNegative(cart.items, LineQuantity);
  }

  /** `item.product.id === id && item.size === size` (undefined matches only undefined). */
  predicate IsLine(item: CartItem, id: string, size: Option<string>) {
    item.product.id == id && item.size == size
  }

  /** The `findIndex` callback of `addToCart`, as a function value. */
  function SameKey(id: string, size: Option<string>): CartItem -> bool {
    item => IsLine(item, id, size)
  }

  /** The `filter` callback of `removeFromCart`, as a function value. */
  function OtherKey(id: string, size: Option<string>): CartItem -> bool {
    item => !IsLine(item, id, size)
  }

  predicate HasLine(items: seq<CartItem>, id: string, size: Option<string>) {
    exists i :: 0 <= i < |items| && IsLine(items[i], id, size)
  }

  /** `k` is the first line with key (id, size). */
  predicate FirstLine(items: seq<CartItem>, k: int, id: string, size: Option<string>) {
    0 <= k < |items| && IsLine(items[k], id, size) &&
    forall j :: 0 <= j < k ==> !IsLine(items[j], id, size)
  }

  /** A cart whose stored total agrees with its lines. */
  predicate Consistent(cart: Cart) {
    cart.total == CalculateTotal(cart.items)
  }

  /** No two lines share a (product id, size) key. */
  predicate UniqueKeys(items: seq<CartItem>) {
    forall i, j :: 0 <= i < j < |items| ==> !IsLine(items[j], items[i].product.id, items[i].size)
  }

  /**
   * `addToCart(cart, product, quantity = 1, size?)`: raise the first line with
   * the same key by `quantity`, or append a new line.
   */
  function AddToCart(cart: Cart, product: Product, quantity: Option<int>, size: Option<string>): (r: Cart)
    ensures Consistent(r)
    ensures forall k :: FirstLine(cart.items, k, product.id, size) ==>
              && |r.items| == |cart.items|
              && r.items[k].product == cart.items[k].product
              && r.items[k].size == size
              && r.items[k].quantity == cart.items[k].quantity + quantity.GetOr(1)
              && forall j :: 0 <= j < |cart.items| && j != k ==> r.items[j] == cart.items[j]
    ensures !HasLine(cart.items, product.id, size) ==>
              && |r.items| == |cart.items| + 1
              && r.items[..|cart.items|] == cart.items
              && r.items[|cart.items|] == CartItem(product, quantity.GetOr(1), size)
  {
    var q := quantity.GetOr(1);
    var k := FindIndex(cart.items, SameKey(product.id, size));
    var newItems :=
      if k >= 0 then cart.items[k := cart.items[k].(quantity := cart.items[k].quantity + q)]
      else cart.items + [CartItem(product, q, size)];
    Cart(newItems, CalculateTotal(newItems))
  }

  /** `removeFromCart(cart, productId, size?)`: drop every line with that key. */
  function RemoveFromCart(cart: Cart, productId: string, size: Option<string>): (r: Cart)
    ensures Consistent(r)
    ensures forall i :: 0 <= i < |r.items| ==> !IsLine(r.items[i], productId, size)
    ensures forall i :: 0 <= i < |cart.items| && !IsLine(cart.items[i], productId, size) ==> cart.items[i] in r.items
    ensures forall i :: 0 <= i < |r.items| ==> r.items[i] in cart.items
    ensures forall x :: multiset(r.items)[x] == if IsLine(x, productId, size) then 0 else multiset(cart.items)[x]
  {
    FilterCounts(cart.items, OtherKey(productId, size));
    var newItems := Filter(cart.items, OtherKey(productId, size));
    Cart(newItems, CalculateTotal(newItems))
  }

  /**
   * `updateQuantity(cart, productId, quantity, size?)`: a quantity of 0 or less
   * removes the key; otherwise every line with the key gets the new quantity.
   */
  function UpdateQuantity(cart: Cart, productId: string, quantity: int, size: Option<string>): (r: Cart)
    ensures Consistent(r)
    ensures quantity > 0 ==>
              && |r.items| == |cart.items|
              && forall i :: 0 <= i < |cart.items| ==>
                   r.items[i] == if IsLine(cart.items[i], productId, size)
                                 then cart.items[i].(quantity := quantity) else cart.items[i]
  {
    if quantity <= 0 then RemoveFromCart(cart, productId, size)
    else
      var newItems := seq(|cart.items|, i requires 0 <= i < |cart.items| =>
        if IsLine(cart.items[i], productId, size) then cart.items[i].(quantity := quantity) else cart.items[i]);
      Cart(newItems, CalculateTotal(newItems))
  }

  /** `clearCart()`. */
  function ClearCart(): (r: Cart)
    ensures r.items == [] && Consistent(r) && r.total == 0
  {
    Cart([], 0)
  }

  // ---------------------------------------------------------------------
  // Properties

  /** `findIndex` in `addToCart` finds exactly the first line with the key. */
  lemma FindIndexIsFirstLine(items: seq<CartItem>, id: string, size: Option<string>)
    ensures var k := FindIndex(items, SameKey(id, size));
            (k >= 0 ==> FirstLine(items, k, id, size)) && (k < 0 <==> !HasLine(items, id, size))
  {
  }

  /** Merging into line k raises the recomputed total by that line's price × the added quantity. */
  lemma AddToCartTotalMerged(cart: Cart, product: Product, quantity: Option<int>, size: Option<string>, k: int)
    requires FirstLine(cart.items, k, product.id, size)
    ensures AddToCart(cart, product, quantity, size).total
            == CalculateTotal(cart.items) + cart.items[k].product.price * quantity.GetOr(1)
  {
    var q := quantity.GetOr(1);
    var line := cart.items[k];
    var merged := line.(quantity := line.quantity + q);
    var r := AddToCart(cart, product, quantity, size);
    assert r.items[k] == merged;
    assert r.items == cart.items[k := merged];
    SumUpdate(cart.items, k, merged, LineTotal);
    assert r.total == CalculateTotal(cart.items) - LineTotal(line) + LineTotal(merged);
    LineTotalRaised(line, q);
  }

  lemma LineTotalRaised(line: CartItem, q: int)
    ensures LineTotal(line.(quantity := line.quantity + q)) == LineTotal(line) + line.product.price * q
  {
    var p, n := line.product.price, line.quantity;
    assert p * (n + q) == p * n + p * q;
  }

  /** Appending a new line raises the recomputed total by the product's price × quantity. */
  lemma AddToCartTotalNew(cart: Cart, product: Product, quantity: Option<int>, size: Option<string>)
    requires !HasLine(cart.items, product.id, size)
    ensures AddToCart(cart, product, quantity, size).total
            == CalculateTotal(cart.items) + product.price * quantity.GetOr(1)
  {
    var line := CartItem(product, quantity.GetOr(1), size);
    assert AddToCart(cart, product, quantity, size).items == cart.items + [line];
    SumAppend(cart.items, [line], LineTotal);
  }

  /** Adding raises the item count by exactly the added quantity, merged or not. */
  lemma AddToCartCount(cart: Cart, product: Product, quantity: Option<int>, size: Option<string>)
    ensures GetCartItemCount(AddToCart(cart, product, quantity, size)) == GetCartItemCount(cart) + quantity.GetOr(1)
  {
    var r := AddToCart(cart, product, quantity, size);
    var q := quantity.GetOr(1);
    var k := FindIndex(cart.items, SameKey(product.id, size));
    if k >= 0 {
      assert FirstLine(cart.items, k, product.id, size);
      SumChangedAt(cart.items, r.items, k, LineQuantity);
    } else {
      SumGrownBy(cart.items, r.items, LineQuantity);
    }
  }

  /** Adding the same product and size twice gives one line with the summed quantity. */
  lemma AddSameKeyTwice(cart: Cart, product: Product, q1: int, q2: int, size: Option<string>)
    requires !HasLine(cart.items, product.id, size)
    ensures AddToCart(AddToCart(cart, product, Some(q1), size), product, Some(q2), size).items
            == cart.items + [CartItem(product, q1 + q2, size)]
  {
    var c1 := AddToCart(cart, product, Some(q1), size);
    var n := |cart.items|;
    assert FirstLine(c1.items, n, product.id, size);
  }

  /** The same product in two different sizes occupies two distinct lines. */
  lemma TwoSizesTwoLines(cart: Cart, product: Product, q1: int, q2: int, s1: Option<string>, s2: Option<string>)
    requires s1 != s2
    requires !HasLine(cart.items, product.id, s1) && !HasLine(cart.items, product.id, s2)
    ensures AddToCart(AddToCart(cart, product, Some(q1), s1), product, Some(q2), s2).items
            == cart.items + [CartItem(product, q1, s1), CartItem(product, q2, s2)]
  {
    var c1 := AddToCart(cart, product, Some(q1), s1);
    assert !HasLine(c1.items, product.id, s2) by {
      assert c1.items == cart.items + [CartItem(product, q1, s1)];
    }
  }

  /** Every operation keeps keys unique. */
  lemma AddToCartKeepsKeysUnique(cart: Cart, product: Product, quantity: Option<int>, size: Option<string>)
    requires UniqueKeys(cart.items)
    ensures UniqueKeys(AddToCart(cart, product, quantity, size).items)
  {
    var r := AddToCart(cart, product, quantity, size);
    if !HasLine(cart.items, product.id, size) {
      forall i, j | 0 <= i < j < |r.items|
        ensures !IsLine(r.items[j], r.items[i].product.id, r.items[i].size)
      {
        if j == |cart.items| {
          assert !IsLine(cart.items[i], product.id, size);
        }
      }
    }
  }

  /** A line no later line shares a key with keeps the keys unique when put in front. */
  lemma ConsKeepsKeysUnique(x: CartItem, rest: seq<CartItem>)
    requires UniqueKeys(rest)
    requires forall k :: 0 <= k < |rest| ==> !IsLine(rest[k], x.product.id, x.size)
    ensures UniqueKeys([x] + rest)
  {
    var r := [x] + rest;
    forall i, j | 0 <= i < j < |r|
      ensures !IsLine(r[j], r[i].product.id, r[i].size)
    {
      assert r[j] == rest[j - 1];
      if i > 0 {
        assert r[i] == rest[i - 1];
      }
    }
  }

  lemma {:induction false} FilterKeepsKeysUnique(items: seq<CartItem>, p: CartItem -> bool)
    requires UniqueKeys(items)
    ensures UniqueKeys(Filter(items, p))
  {
    if items != [] {
      FilterKeepsKeysUnique(items[1..], p);
      if p(items[0]) {
        var rest := Filter(items[1..], p);
        forall k | 0 <= k < |rest|
          ensures !IsLine(rest[k], items[0].product.id, items[0].size)
        {
          var m :| 0 <= m < |items[1..]| && items[1..][m] == rest[k];
          assert items[m + 1] == rest[k];
        }
        ConsKeepsKeysUnique(items[0], rest);
      }
    }
  }

  lemma RemoveFromCartKeepsKeysUnique(cart: Cart, productId: string, size: Option<string>)
    requires UniqueKeys(cart.items)
    ensures UniqueKeys(RemoveFromCart(cart, productId, size).items)
  {
    FilterKeepsKeysUnique(cart.items, OtherKey(productId, size));
  }

  lemma UpdateQuantityKeepsKeysUnique(cart: Cart, productId: string, quantity: int, size: Option<string>)
    requires UniqueKeys(cart.items)
    ensures UniqueKeys(UpdateQuantity(cart, productId, quantity, size).items)
  {
    if quantity <= 0 {
      RemoveFromCartKeepsKeysUnique(cart, productId, size);
    }
  }

  /**
   * `removeFromCart` keeps the other lines in their order, and the total drops
   * by exactly the removed lines' price × quantity.
   */
  lemma RemoveFromCartOrderAndTotal(cart: Cart, productId: string, size: Option<string>)
    ensures var r := RemoveFromCart(cart, productId, size);
            && IsSubsequence(r.items, cart.items)
            && CalculateTotal(cart.items) == r.total
                 + CalculateTotal(Filter(cart.items, SameKey(productId, size)))
  {
    FilterIsSubsequence(cart.items, OtherKey(productId, size));
    SumFilterSplit(cart.items, OtherKey(productId, size), SameKey(productId, size), LineTotal);
  }

  /** Removing a key that is absent changes nothing; removing twice is removing once. */
  lemma RemoveFromCartNoOpAndIdempotent(cart: Cart, productId: string, size: Option<string>)
    ensures !HasLine(cart.items, productId, size) ==> RemoveFromCart(cart, productId, size).items == cart.items
    ensures var r := RemoveFromCart(cart, productId, size);
            RemoveFromCart(r, productId, size) == r
  {
    var keep := OtherKey(productId, size);
    if !HasLine(cart.items, productId, size) {
      FilterKeepsAll(cart.items, keep);
    }
    FilterIdempotent(cart.items, keep);
  }

  /** With unique keys, setting a positive quantity changes the total by that one line's difference. */
  lemma UpdateQuantityTotal(cart: Cart, productId: string, quantity: int, size: Option<string>, k: nat)
    requires UniqueKeys(cart.items) && quantity > 0
    requires k < |cart.items| && IsLine(cart.items[k], productId, size)
    ensures UpdateQuantity(cart, productId, quantity, size).total
            == CalculateTotal(cart.items) + cart.items[k].product.price * (quantity - cart.items[k].quantity)
  {
    var r := UpdateQuantity(cart, productId, quantity, size);
    var x := cart.items[k].(quantity := quantity);
    assert r.items == cart.items[k := x] by {
      forall i | 0 <= i < |cart.items| && i != k
        ensures !IsLine(cart.items[i], productId, size)
      {
        if i < k {
          assert !IsLine(cart.items[k], cart.items[i].product.id, cart.items[i].size);
        }
      }
    }
    SumUpdate(cart.items, k, x, LineTotal);
  }

  /** A quantity update on an absent key leaves the lines as they were. */
  lemma UpdateQuantityAbsentKey(cart: Cart, productId: string, quantity: int, size: Option<string>)
    requires !HasLine(cart.items, productId, size)
    ensures UpdateQuantity(cart, productId, quantity, size).items == cart.items
  {
    if quantity <= 0 {
      RemoveFromCartNoOpAndIdempotent(cart, productId, size);
    }
  }

  /** `updateQuantity` with a quantity of 0 or less is `removeFromCart`. */
  lemma UpdateNonPositiveIsRemove(cart: Cart, productId: string, quantity: int, size: Option<string>)
    requires quantity <= 0
    ensures UpdateQuantity(cart, productId, quantity, size) == RemoveFromCart(cart, productId, size)
  {
  }

  /** The cleared cart has no lines, a zero total and a zero item count. */
  lemma ClearCartEmpty()
    ensures GetCartItemCount(ClearCart()) == 0 && CalculateTotal(ClearCart().items) == 0
  {
  }
}
