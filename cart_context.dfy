/**
 * The stateful cart of contexts/CartContext.tsx. The provider holds one
 * piece of state, `items`; each operation replaces it through an updater
 * passed to `setItems`, and `totalItems`/`totalPrice` are recomputed from
 * `items` on every render, never stored. The updaters are pure functions of
 * the current items and are modelled as such; `CartStore` applies them.
 * Loading from and saving to `localStorage` is not part of this model.
 */
module CartContext {
  import opened Js

  /** A cart line; `price` in integer cents. */
  datatype CartItem = CartItem(
    id: string, name: string, price: int, quantity: int,
    image: Option<string>, size: Option<string>, slug: string)

  /**
   * The argument of `addToCart`: a line whose quantity may be left out. The
   * other fields are required by the TypeScript type but are optional here,
   * because the code guards each with `||` and a caller can omit them at run time.
   */
  datatype NewItem = NewItem(
    id: Option<string>, name: Option<string>, price: Option<int>,
    image: Option<string>, size: Option<string>, slug: Option<string>,
    quantity: Option<int>)

  function LineTotal(item: CartItem): int {
    item.price * item.quantity
  }

  function LineQuantity(item: CartItem): int {
    item.quantity
  }

  /** `items.reduce((sum, item) => sum + item.price * item.quantity, 0)`. */
  function TotalPriceOf(items: seq<CartItem>): int {
    Sum(items, LineTotal)
  }

  /** `items.reduce((sum, item) => sum + item.quantity, 0)`. */
  function TotalItemsOf(items: seq<CartItem>): int {
    Sum(items, LineQuantity)
  }

  /** `item.quantity || 1`: undefined and 0 become 1; a negative quantity is kept. */
  function AddedQuantity(item: NewItem): (q: int)
    ensures q != 0
    ensures q == 1 <==> item.quantity in {None, Some(0), Some(1)}
  {
    if item.quantity.None? || item.quantity.value == 0 then 1 else item.quantity.value
  }

  /** The line `addToCart` appends, every missing field defaulted. */
  function NewLine(item: NewItem): CartItem {
    CartItem(StrOr(item.id, ""), StrOr(item.name, ""), item.price.GetOr(0), AddedQuantity(item),
             item.image, item.size, StrOr(item.slug, ""))
  }

  /** `i.id === id && i.size === size`; an undefined id matches no stored line. */
  predicate IsLine(line: CartItem, id: Option<string>, size: Option<string>) {
    Some(line.id) == id && line.size == size
  }

  function SameKey(id: Option<string>, size: Option<string>): CartItem -> bool {
    line => IsLine(line, id, size)
  }

  function OtherKey(id: string, size: Option<string>): CartItem -> bool {
    line => !IsLine(line, Some(id), size)
  }

  predicate HasLine(items: seq<CartItem>, id: Option<string>, size: Option<string>) {
    exists i :: 0 <= i < |items| && IsLine(items[i], id, size)
  }

  predicate FirstLine(items: seq<CartItem>, k: int, id: Option<string>, size: Option<string>) {
    0 <= k < |items| && IsLine(items[k], id, size) &&
    forall j :: 0 <= j < k ==> !IsLine(items[j], id, size)
  }

  predicate UniqueKeys(items: seq<CartItem>) {
    forall i, j :: 0 <= i < j < |items| ==> !IsLine(items[j], Some(items[i].id), items[i].size)
  }

  /** The updater of `addToCart`. */
  function AddUpdater(items: seq<CartItem>, item: NewItem): (r: seq<CartItem>)
    ensures forall k :: FirstLine(items, k, item.id, item.size) ==>
              && |r| == |items|
              && r[k] == items[k].(quantity := items[k].quantity + AddedQuantity(item))
              && forall j :: 0 <= j < |items| && j != k ==> r[j] == items[j]
    ensures !HasLine(items, item.id, item.size) ==>
              && |r| == |items| + 1
              && r[..|items|] == items
              && r[|items|] == NewLine(item)
  {
    var k := FindIndex(items, SameKey(item.id, item.size));
    if k > -1 then
      items[k := items[k].(quantity := items[k].quantity + AddedQuantity(item))]
    else
      items + [NewLine(item)]
  }

  /** The updater of `removeFromCart`. */
  function RemoveUpdater(items: seq<CartItem>, id: string, size: Option<string>): (r: seq<CartItem>)
    ensures forall i :: 0 <= i < |r| ==> !IsLine(r[i], Some(id), size)
    ensures forall i :: 0 <= i < |items| && !IsLine(items[i], Some(id), size) ==> items[i] in r
    ensures forall i :: 0 <= i < |r| ==> r[i] in items
    ensures forall x :: multiset(r)[x] == if IsLine(x, Some(id), size) then 0 else multiset(items)[x]
  {
    FilterCounts(items, OtherKey(id, size));
    Filter(items, OtherKey(id, size))
  }

  /** The updater of `updateQuantity` for a positive quantity. */
  function UpdateUpdater(items: seq<CartItem>, id: string, quantity: int, size: Option<string>): (r: seq<CartItem>)
    ensures |r| == |items|
    ensures forall i :: 0 <= i < |items| && IsLine(items[i], Some(id), size) ==> r[i] == items[i].(quantity := quantity)
    ensures forall i :: 0 <= i < |items| && !IsLine(items[i], Some(id), size) ==> r[i] == items[i]
  {
    seq(|items|, i requires 0 <= i < |items| =>
      if IsLine(items[i], Some(id), size) then items[i].(quantity := quantity) else items[i])
  }

  /** The provider's state, with the operations it hands to its consumers. */
  class CartStore {
    var items: seq<CartItem>

    /** `useState<CartItem[]>([])`. */
    constructor()
      ensures items == []
    {
      items := [];
    }

    /** `totalItems`, derived from `items`. */
    function TotalItems(): int
      reads this
    {
      TotalItemsOf(items)
    }

    /** `totalPrice`, derived from `items`. */
    function TotalPrice(): int
      reads this
    {
      TotalPriceOf(items)
    }

    method AddToCart(item: NewItem)
      modifies this
      ensures items == AddUpdater(old(items), item)
      ensures TotalItems() == old(TotalItems()) + AddedQuantity(item)
      ensures forall k :: FirstLine(old(items), k, item.id, item.size) ==>
                TotalPrice() == old(TotalPrice()) + old(items)[k].price * AddedQuantity(item)
      ensures !HasLine(old(items), item.id, item.size) ==>
                TotalPrice() == old(TotalPrice()) + item.price.GetOr(0) * AddedQuantity(item)
    {
      AddUpdaterTotals(items, item);
      items := AddUpdater(items, item);
    }

    method RemoveFromCart(id: string, size: Option<string>)
      modifies this
      ensures items == RemoveUpdater(old(items), id, size)
    {
      items := RemoveUpdater(items, id, size);
    }

    /** A quantity of 0 or less goes through `removeFromCart`. */
    method UpdateQuantity(id: string, quantity: int, size: Option<string>)
      modifies this
      ensures quantity <= 0 ==> items == RemoveUpdater(old(items), id, size)
      ensures quantity > 0 ==> items == UpdateUpdater(old(items), id, quantity, size)
    {
      if quantity <= 0 {
        RemoveFromCart(id, size);
        return;
      }
      items := UpdateUpdater(items, id, quantity, size);
    }

    method ClearCart()
      modifies this
      ensures items == [] && TotalItems() == 0 && TotalPrice() == 0
    {
      items := [];
    }
  }

  // ---------------------------------------------------------------------
  // Properties of the updaters

  lemma LineTotalRaised(line: CartItem, q: int)
    ensures LineTotal(line.(quantity := line.quantity + q)) == LineTotal(line) + line.price * q
  {
    var p, n := line.price, line.quantity;
    assert p * (n + q) == p * n + p * q;
  }

  /**
   * Adding raises `totalItems` by `item.quantity || 1`, and `totalPrice` by
   * that quantity times the price of the line it lands on: the existing
   * line's stored price when merging, the item's price (default 0) otherwise.
   */
  lemma AddUpdaterTotals(items: seq<CartItem>, item: NewItem)
    ensures TotalItemsOf(AddUpdater(items, item)) == TotalItemsOf(items) + AddedQuantity(item)
    ensures forall k :: FirstLine(items, k, item.id, item.size) ==>
              TotalPriceOf(AddUpdater(items, item)) == TotalPriceOf(items) + items[k].price * AddedQuantity(item)
    ensures !HasLine(items, item.id, item.size) ==>
              TotalPriceOf(AddUpdater(items, item)) == TotalPriceOf(items) + item.price.GetOr(0) * AddedQuantity(item)
  {
    var k := FindIndex(items, SameKey(item.id, item.size));
    if k > -1 {
      assert FirstLine(items, k, item.id, item.size);
      MergedCount(items, item, k);
      MergedPrice(items, item, k);
      forall k' | FirstLine(items, k', item.id, item.size)
        ensures TotalPriceOf(AddUpdater(items, item)) == TotalPriceOf(items) + items[k'].price * AddedQuantity(item)
      {
        assert k' == k;
      }
    } else {
      AppendedTotals(items, item);
    }
  }

  lemma MergedCount(items: seq<CartItem>, item: NewItem, k: int)
    requires FirstLine(items, k, item.id, item.size)
    ensures TotalItemsOf(AddUpdater(items, item)) == TotalItemsOf(items) + AddedQuantity(item)
  {
    SumChangedAt(items, AddUpdater(items, item), k, LineQuantity);
  }

  lemma MergedPrice(items: seq<CartItem>, item: NewItem, k: int)
    requires FirstLine(items, k, item.id, item.size)
    ensures TotalPriceOf(AddUpdater(items, item)) == TotalPriceOf(items) + items[k].price * AddedQuantity(item)
  {
    var r := AddUpdater(items, item);
    var q := AddedQuantity(item);
    var line := items[k];
    var merged := line.(quantity := line.quantity + q);
    assert r[k] == merged;
    SumChangedAt(items, r, k, LineTotal);
    assert TotalPriceOf(r) == TotalPriceOf(items) - LineTotal(line) + LineTotal(merged);
    LineTotalRaised(line, q);
  }

  lemma AppendedTotals(items: seq<CartItem>, item: NewItem)
    requires !HasLine(items, item.id, item.size)
    ensures TotalItemsOf(AddUpdater(items, item)) == TotalItemsOf(items) + AddedQuantity(item)
    ensures TotalPriceOf(AddUpdater(items, item)) == TotalPriceOf(items) + item.price.GetOr(0) * AddedQuantity(item)
  {
    var r := AddUpdater(items, item);
    SumGrownBy(items, r, LineQuantity);
    SumGrownBy(items, r, LineTotal);
  }

  /** Adding an item that has an id keeps keys unique. */
  lemma AddUpdaterKeepsKeysUnique(items: seq<CartItem>, item: NewItem)
    requires UniqueKeys(items) && item.id.Some?
    ensures UniqueKeys(AddUpdater(items, item))
  {
    var r := AddUpdater(items, item);
    if !HasLine(items, item.id, item.size) {
      forall i, j | 0 <= i < j < |r|
        ensures !IsLine(r[j], Some(r[i].id), r[i].size)
      {
        if j == |items| {
          assert !IsLine(items[i], item.id, item.size);
        }
      }
    }
  }

  /** A line no later line shares a key with keeps the keys unique when put in front. */
  lemma ConsKeepsKeysUnique(x: CartItem, rest: seq<CartItem>)
    requires UniqueKeys(rest)
    requires forall k :: 0 <= k < |rest| ==> !IsLine(rest[k], Some(x.id), x.size)
    ensures UniqueKeys([x] + rest)
  {
    var r := [x] + rest;
    forall i, j | 0 <= i < j < |r|
      ensures !IsLine(r[j], Some(r[i].id), r[i].size)
    {
      assert r[j] == rest[j - 1];
      if i > 0 {
        assert r[i] == rest[i - 1];
      }
    }
  }

  lemma {:induction false} FilterKeepsKeysUnique(items: seq<CartItem>, p: CartItem -> bool)
    requires UniqueKeys(items)
    ensures UniqueKeys(Filter(items, p))
  {
    if items != [] {
      FilterKeepsKeysUnique(items[1..], p);
      if p(items[0]) {
        var rest := Filter(items[1..], p);
        forall k | 0 <= k < |rest|
          ensures !IsLine(rest[k], Some(items[0].id), items[0].size)
        {
          var m :| 0 <= m < |items[1..]| && items[1..][m] == rest[k];
          assert items[m + 1] == rest[k];
        }
        ConsKeepsKeysUnique(items[0], rest);
      }
    }
  }

  lemma RemoveUpdaterKeepsKeysUnique(items: seq<CartItem>, id: string, size: Option<string>)
    requires UniqueKeys(items)
    ensures UniqueKeys(RemoveUpdater(items, id, size))
  {
    FilterKeepsKeysUnique(items, OtherKey(id, size));
  }

  /**
   * `removeFromCart` keeps the other lines in order, is a no-op when the key
   * is absent, and removing twice is removing once.
   */
  lemma RemoveUpdaterOrderNoOpIdempotent(items: seq<CartItem>, id: string, size: Option<string>)
    ensures IsSubsequence(RemoveUpdater(items, id, size), items)
    ensures !HasLine(items, Some(id), size) ==> RemoveUpdater(items, id, size) == items
    ensures RemoveUpdater(RemoveUpdater(items, id, size), id, size) == RemoveUpdater(items, id, size)
  {
    FilterIsSubsequence(items, OtherKey(id, size));
    if !HasLine(items, Some(id), size) {
      FilterKeepsAll(items, OtherKey(id, size));
    }
    FilterIdempotent(items, OtherKey(id, size));
  }

  /** Removing a key lowers `totalPrice` by exactly the removed lines' price × quantity. */
  lemma RemoveUpdaterTotalPrice(items: seq<CartItem>, id: string, size: Option<string>)
    ensures TotalPriceOf(items)
            == TotalPriceOf(RemoveUpdater(items, id, size)) + TotalPriceOf(Filter(items, SameKey(Some(id), size)))
  {
    SumFilterSplit(items, OtherKey(id, size), SameKey(Some(id), size), LineTotal);
  }

  /** With unique keys, a positive quantity update changes `totalPrice` by that one line's difference. */
  lemma UpdateUpdaterTotalPrice(items: seq<CartItem>, id: string, quantity: int, size: Option<string>, k: nat)
    requires UniqueKeys(items)
    requires k < |items| && IsLine(items[k], Some(id), size)
    ensures TotalPriceOf(UpdateUpdater(items, id, quantity, size))
            == TotalPriceOf(items) + items[k].price * (quantity - items[k].quantity)
  {
    var x := items[k].(quantity := quantity);
    assert UpdateUpdater(items, id, quantity, size) == items[k := x] by {
      forall i | 0 <= i < |items| && i != k
        ensures !IsLine(items[i], Some(id), size)
      {
        if i < k {
          assert !IsLine(items[k], Some(items[i].id), items[i].size);
        }
      }
    }
    SumUpdate(items, k, x, LineTotal);
    var p := items[k].price;
    assert p * quantity == p * items[k].quantity + p * (quantity - items[k].quantity);
  }

  /**
   * The worked example: lines (A, size M, 2 × 20.00) and (B, 1 × 15.00) total
   * 55.00; setting A/M to 3 gives 75.00; removing B gives 60.00.
   */
  lemma WorkedExample()
    ensures var a := CartItem("A", "Product A", 2000, 2, None, Some("M"), "a");
            var b := CartItem("B", "Product B", 1500, 1, None, None, "b");
            var s1 := UpdateUpdater([a, b], "A", 3, Some("M"));
            var s2 := RemoveUpdater(s1, "B", None);
            && TotalPriceOf([a, b]) == 5500
            && TotalPriceOf(s1) == 7500
            && TotalPriceOf(s2) == 6000
            && TotalItemsOf(s2) == 3
  {
    var a := CartItem("A", "Product A", 2000, 2, None, Some("M"), "a");
    var b := CartItem("B", "Product B", 1500, 1, None, None, "b");
    var s1 := UpdateUpdater([a, b], "A", 3, Some("M"));
    assert s1 == [a.(quantity := 3), b];
    assert s1[1..] == [b] && [b][1..] == [];
    assert Filter([b], OtherKey("B", None)) == [];
    assert RemoveUpdater(s1, "B", None) == [a.(quantity := 3)];
  }
}
