/**
 * app/api/products/recently-viewed/route.ts: given the ids a browser has
 * recorded, return the matching catalogue products in the order the ids
 * were given. The catalogue query is a parameter: either the products it
 * returned, or an exception.
 */
module RecentlyViewedRoute {
  import opened Js
  import opened Catalog

  /**
   * The request body's `productIds`: `NotAList` when the body has none, a
   * falsy one, or a non-array; otherwise its elements, `None` standing for an
   * element that is not a string (and so equals no product id).
   */
  datatype ProductIds = NotAList | Ids(ids: seq<Option<string>>)

  /** The request: a body that fails to parse as JSON, or the parsed `productIds`. */
  datatype Request = Malformed | Body(productIds: ProductIds)

  /** The outcome of the catalogue query. */
  datatype Fetched = Returned(products: seq<Product>) | Threw

  function HasId(id: string): Product -> bool {
    (p: Product) => p.id == id
  }

  /** `products.find(p => p.id === id)`. */
  function Lookup(products: seq<Product>, id: Option<string>): (r: Option<Product>)
    ensures r.Some? ==> id.Some? && r.value.id == id.value && r.value in products
    ensures r.None? <==> id.None? || forall i :: 0 <= i < |products| ==> products[i].id != id.value
    ensures r.Some? ==> exists k :: 0 <= k < |products| && products[k] == r.value
                                    && forall j :: 0 <= j < k ==> products[j].id != id.value
  {
    if id.None? then None
    else
      var k := FindIndex(products, HasId(id.value));
      if k == -1 then None else Some(products[k])
  }

  function Known(products: seq<Product>): Option<string> -> bool {
    (id: Option<string>) => Lookup(products, id).Some?
  }

  /** `productIds.map(id => products.find(...)).filter(Boolean)`. */
  function Reorder(ids: seq<Option<string>>, products: seq<Product>): (r: seq<Product>)
    ensures |r| <= |ids|
    ensures forall i :: 0 <= i < |r| ==> r[i] in products
  {
    if ids == [] then []
    else
      match Lookup(products, ids[0])
      case Some(p) => [p] + Reorder(ids[1..], products)
      case None => Reorder(ids[1..], products)
  }

  /** The `products` field of the response. */
  function Respond(request: Request, fetched: Fetched): (r: seq<Product>)
    ensures request.Malformed? || request.productIds.NotAList? ==> r == []
    ensures request.Body? && request.productIds.Ids? && request.productIds.ids == [] ==> r == []
    ensures fetched.Threw? ==> r == []
    ensures request.Body? && request.productIds.Ids? && request.productIds.ids != [] && fetched.Returned? ==>
              r == Reorder(request.productIds.ids, fetched.products)
  {
    match request
    case Malformed => []
    case Body(NotAList) => []
    case Body(Ids(ids)) =>
      if ids == [] then []
      else
        match fetched
        case Threw => []
        case Returned(products) => Reorder(ids, products)
  }

  function IdsOf(products: seq<Product>): (r: seq<Option<string>>)
    ensures |r| == |products| && forall i :: 0 <= i < |products| ==> r[i] == Some(products[i].id)
  {
    seq(|products|, i requires 0 <= i < |products| => Some(products[i].id))
  }

  /**
   * The response lists, in request order, one product per requested id that
   * the catalogue returned (unknown ids are dropped, repeated ids repeat),
   * and each is the first returned product with that id.
   */
  lemma {:induction false} ReorderFollowsRequest(ids: seq<Option<string>>, products: seq<Product>)
    ensures IdsOf(Reorder(ids, products)) == Filter(ids, Known(products))
    ensures forall i :: 0 <= i < |Reorder(ids, products)| ==>
              Lookup(products, Some(Reorder(ids, products)[i].id)) == Some(Reorder(ids, products)[i])
  {
    if ids != [] {
      ReorderFollowsRequest(ids[1..], products);
      var rest := Reorder(ids[1..], products);
      match Lookup(products, ids[0])
      case Some(p) =>
        assert IdsOf([p] + rest) == [ids[0]] + IdsOf(rest);
        assert ids[0] == Some(p.id);
      case None =>
    }
  }

  /** When every requested id is in the catalogue, the response holds exactly one product per id, in order. */
  lemma AllKnownKeepsOrder(ids: seq<Option<string>>, products: seq<Product>)
    requires forall i :: 0 <= i < |ids| ==> Lookup(products, ids[i]).Some?
    ensures IdsOf(Reorder(ids, products)) == ids
  {
    ReorderFollowsRequest(ids, products);
    FilterKeepsAll(ids, Known(products));
  }
}
