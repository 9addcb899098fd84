/**
 * lib/cart.ts and contexts/CartContext.tsx implement the same cart twice.
 * This module maps a line of the functional cart (which holds the whole
 * product) to a line of the context cart (which copies id, name, price,
 * image and slug), and shows that the two agree operation by operation,
 * except for one input: an explicit quantity of 0, which the context's
 * `item.quantity || 1` turns into 1.
 */
module CartAgreement {
  import opened Js
  import opened Catalog
  import L = CartLib
  import C = CartContext

  /** The context line that stands for a functional-cart line. */
  function Line(item: L.CartItem): C.CartItem {
    C.CartItem(item.product.id, item.product.name, item.product.price, item.quantity,
               item.product.image, item.size, item.product.slug)
  }

  function Lines(items: seq<L.CartItem>): (r: seq<C.CartItem>)
    ensures |r| == |items| && forall i :: 0 <= i < |items| ==> r[i] == Line(items[i])
  {
    seq(|items|, i requires 0 <= i < |items| => Line(items[i]))
  }

  /** The context's `addToCart` argument for the functional cart's `(product, quantity, size)`. */
  function AsNewItem(product: Product, quantity: Option<int>, size: Option<string>): C.NewItem {
    C.NewItem(Some(product.id), Some(product.name), Some(product.price), product.image, size,
              Some(product.slug), quantity)
  }

  lemma {:induction false} TotalsAgree(items: seq<L.CartItem>)
    ensures L.CalculateTotal(items) == C.TotalPriceOf(Lines(items))
    ensures L.GetCartItemCount(L.Cart(items, 0)) == C.TotalItemsOf(Lines(items))
  {
    if items != [] {
      assert Lines(items)[1..] == Lines(items[1..]);
      TotalsAgree(items[1..]);
    }
  }

  /** The two carts match a line to a key in the same way. */
  lemma KeysAgree(items: seq<L.CartItem>, id: string, size: Option<string>)
    ensures forall i :: 0 <= i < |items| ==>
              (L.IsLine(items[i], id, size) <==> C.IsLine(Lines(items)[i], Some(id), size))
    ensures L.HasLine(items, id, size) <==> C.HasLine(Lines(items), Some(id), size)
    ensures forall k :: L.FirstLine(items, k, id, size) <==> C.FirstLine(Lines(items), k, Some(id), size)
  {
    if C.HasLine(Lines(items), Some(id), size) {
      var i :| 0 <= i < |items| && C.IsLine(Lines(items)[i], Some(id), size);
      assert L.IsLine(items[i], id, size);
    }
  }

  /** Adding agrees whenever the quantity is not an explicit 0. */
  lemma AddAgrees(cart: L.Cart, product: Product, quantity: Option<int>, size: Option<string>)
    requires quantity != Some(0)
    ensures Lines(L.AddToCart(cart, product, quantity, size).items)
            == C.AddUpdater(Lines(cart.items), AsNewItem(product, quantity, size))
  {
    var items := cart.items;
    var item := AsNewItem(product, quantity, size);
    KeysAgree(items, product.id, size);
    if L.HasLine(items, product.id, size) {
      var k := FindIndex(items, L.SameKey(product.id, size));
      L.FindIndexIsFirstLine(items, product.id, size);
      AddMergedAgrees(cart, product, quantity, size, k);
    } else {
      var r := L.AddToCart(cart, product, quantity, size).items;
      var s := C.AddUpdater(Lines(items), item);
      assert C.NewLine(item) == Line(L.CartItem(product, quantity.GetOr(1), size));
      assert Lines(r)[..|items|] == Lines(items);
      assert Lines(r) == s;
    }
  }

  lemma AddMergedAgrees(cart: L.Cart, product: Product, quantity: Option<int>, size: Option<string>, k: int)
    requires quantity != Some(0)
    requires L.FirstLine(cart.items, k, product.id, size)
    requires C.FirstLine(Lines(cart.items), k, Some(product.id), size)
    ensures Lines(L.AddToCart(cart, product, quantity, size).items)
            == C.AddUpdater(Lines(cart.items), AsNewItem(product, quantity, size))
  {
    var item := AsNewItem(product, quantity, size);
    var lines := Lines(cart.items);
    MergedLines(cart, product, quantity, size, k);
    assert C.AddedQuantity(item) == quantity.GetOr(1);
    MergedAlike(Lines(L.AddToCart(cart, product, quantity, size).items), C.AddUpdater(lines, item),
                lines, k, quantity.GetOr(1));
  }

  /** Two lists that both grow line k of `lines` by q and keep the rest are equal. */
  lemma MergedAlike(r: seq<C.CartItem>, s: seq<C.CartItem>, lines: seq<C.CartItem>, k: int, q: int)
    requires 0 <= k < |lines| && |r| == |lines| && |s| == |lines|
    requires r[k] == lines[k].(quantity := lines[k].quantity + q) && s[k] == r[k]
    requires forall j :: 0 <= j < |lines| && j != k ==> r[j] == lines[j] && s[j] == lines[j]
    ensures r == s
  {
  }

  /** The functional cart's merge, seen through `Lines`: line k grows and the others stay. */
  lemma MergedLines(cart: L.Cart, product: Product, quantity: Option<int>, size: Option<string>, k: int)
    requires L.FirstLine(cart.items, k, product.id, size)
    ensures var r := Lines(L.AddToCart(cart, product, quantity, size).items);
            var lines := Lines(cart.items);
            && |r| == |lines|
            && r[k] == lines[k].(quantity := lines[k].quantity + quantity.GetOr(1))
            && forall j :: 0 <= j < |lines| && j != k ==> r[j] == lines[j]
  {
  }

  /** With an explicit quantity of 0 the two disagree: 0 units here, 1 unit in the context. */
  lemma AddZeroDisagrees(cart: L.Cart, product: Product, size: Option<string>)
    requires !L.HasLine(cart.items, product.id, size)
    ensures L.AddToCart(cart, product, Some(0), size).items[|cart.items|].quantity == 0
    ensures C.AddUpdater(Lines(cart.items), AsNewItem(product, Some(0), size))[|cart.items|].quantity == 1
  {
    KeysAgree(cart.items, product.id, size);
  }

  lemma LinesCons(x: L.CartItem, s: seq<L.CartItem>)
    ensures Lines([x] + s) == [Line(x)] + Lines(s)
  {
    assert Lines([x] + s)[1..] == Lines(s);
  }

  lemma {:induction false} FilterAgrees(items: seq<L.CartItem>, id: string, size: Option<string>)
    ensures Lines(Filter(items, L.OtherKey(id, size))) == Filter(Lines(items), C.OtherKey(id, size))
  {
    if items != [] {
      var lines := Lines(items);
      assert lines[1..] == Lines(items[1..]);
      FilterAgrees(items[1..], id, size);
      assert L.OtherKey(id, size)(items[0]) == C.OtherKey(id, size)(lines[0]);
      if L.OtherKey(id, size)(items[0]) {
        LinesCons(items[0], Filter(items[1..], L.OtherKey(id, size)));
      }
    }
  }

  lemma RemoveAgrees(cart: L.Cart, id: string, size: Option<string>)
    ensures Lines(L.RemoveFromCart(cart, id, size).items) == C.RemoveUpdater(Lines(cart.items), id, size)
  {
    FilterAgrees(cart.items, id, size);
  }

  /** Both treat a quantity of 0 or less as a removal and otherwise set every matching line. */
  lemma UpdateAgrees(cart: L.Cart, id: string, quantity: int, size: Option<string>)
    ensures quantity <= 0 ==>
              Lines(L.UpdateQuantity(cart, id, quantity, size).items) == C.RemoveUpdater(Lines(cart.items), id, size)
    ensures quantity > 0 ==>
              Lines(L.UpdateQuantity(cart, id, quantity, size).items) == C.UpdateUpdater(Lines(cart.items), id, quantity, size)
  {
    if quantity <= 0 {
      RemoveAgrees(cart, id, size);
    }
  }
}
