/**
 * components/RelatedProducts.tsx: "You May Also Like". Every other product
 * is scored (+10 for the viewed product's collection, +5 for featured),
 * sorted by score, highest first, with ties kept in catalogue order
 * (`Array.prototype.sort` is stable), and the first four are shown.
 */
module RelatedProducts {
  import opened Js
  import opened Catalog

  /** The number of products shown. */
  const Shown: nat := 4

  datatype Scored = Scored(product: Product, score: int)

  /**
   * The score of a candidate. `collectionId && ...` makes an empty or
   * missing collection id of the viewed product match nothing.
   */
  function Score(product: Product, collectionId: Option<string>): (s: int)
    ensures s == 0 || s == 5 || s == 10 || s == 15
    ensures s >= 10 <==> collectionId.Some? && collectionId.value != "" && product.collectionId == collectionId
    ensures s % 10 == 5 <==> product.featured
  {
    (if collectionId.Some? && collectionId.value != "" && product.collectionId == collectionId then 10 else 0)
    + (if product.featured then 5 else 0)
  }

  function NotCurrent(currentProductId: string): Product -> bool {
    (p: Product) => p.id != currentProductId
  }

  function ScoreAll(products: seq<Product>, collectionId: Option<string>): (r: seq<Scored>)
    ensures |r| == |products|
    ensures forall i :: 0 <= i < |r| ==> r[i] == Scored(products[i], Score(products[i], collectionId))
  {
    seq(|products|, i requires 0 <= i < |products| => Scored(products[i], Score(products[i], collectionId)))
  }

  function ProductsOf(s: seq<Scored>): (r: seq<Product>)
    ensures |r| == |s| && forall i :: 0 <= i < |s| ==> r[i] == s[i].product
  {
    seq(|s|, i requires 0 <= i < |s| => s[i].product)
  }

  /** Highest score first. */
  predicate Descending(s: seq<Scored>) {
    forall i, j :: 0 <= i < j < |s| ==> s[i].score >= s[j].score
  }

  /**
   * Places `x`, which came before every element of `t` in the input, ahead
   * of the first element scoring no more than it, so equal scores keep their
   * input order.
   */
  function Insert(x: Scored, t: seq<Scored>): seq<Scored> {
    if t == [] then [x]
    else if t[0].score <= x.score then [x] + t
    else [t[0]] + Insert(x, t[1..])
  }

  /** `.sort((a, b) => b.score - a.score)`, as a stable insertion sort. */
  function SortByScore(s: seq<Scored>): seq<Scored> {
    if s == [] then [] else Insert(s[0], SortByScore(s[1..]))
  }

  /** What the component shows: up to four products, best first; `[]` renders nothing. */
  function Related(currentProductId: string, collectionId: Option<string>, allProducts: seq<Product>): (r: seq<Product>)
    ensures |r| <= Shown
  {
    ProductsOf(Take(SortByScore(ScoreAll(Filter(allProducts, NotCurrent(currentProductId)), collectionId)), Shown))
  }

  lemma {:induction false} InsertPermutes(x: Scored, t: seq<Scored>)
    ensures multiset(Insert(x, t)) == multiset([x] + t)
  {
    if t != [] && t[0].score > x.score {
      InsertPermutes(x, t[1..]);
      assert t == [t[0]] + t[1..];
      assert multiset([x] + t) == multiset([t[0]] + ([x] + t[1..]));
    }
  }

  lemma {:induction false} InsertSorted(x: Scored, t: seq<Scored>)
    requires Descending(t)
    ensures Descending(Insert(x, t))
  {
    if t != [] && t[0].score > x.score {
      InsertSorted(x, t[1..]);
      InsertBelow(x, t[1..], t[0].score);
      ConsDescending(t[0], Insert(x, t[1..]));
    }
  }

  /** Inserting keeps every score at most `b` when `x` and all of `t` are. */
  lemma InsertBelow(x: Scored, t: seq<Scored>, b: int)
    requires x.score <= b
    requires forall i :: 0 <= i < |t| ==> t[i].score <= b
    ensures forall i :: 0 <= i < |Insert(x, t)| ==> Insert(x, t)[i].score <= b
  {
    InsertPermutes(x, t);
    var r := Insert(x, t);
    forall i | 0 <= i < |r| ensures r[i].score <= b {
      assert r[i] in multiset(r);
      assert r[i] in [x] + t;
    }
  }

  lemma ConsDescending(h: Scored, u: seq<Scored>)
    requires Descending(u)
    requires forall i :: 0 <= i < |u| ==> u[i].score <= h.score
    ensures Descending([h] + u)
  {
    var r := [h] + u;
    forall i, j | 0 <= i < j < |r| ensures r[i].score >= r[j].score {
      assert r[j] == u[j - 1];
      if i > 0 { assert r[i] == u[i - 1]; }
    }
  }

  /** Sorting is a permutation and puts the highest scores first. */
  lemma {:induction false} SortByScoreSortsAndPermutes(s: seq<Scored>)
    ensures multiset(SortByScore(s)) == multiset(s)
    ensures Descending(SortByScore(s))
  {
    if s != [] {
      SortByScoreSortsAndPermutes(s[1..]);
      InsertPermutes(s[0], SortByScore(s[1..]));
      InsertSorted(s[0], SortByScore(s[1..]));
      assert s == [s[0]] + s[1..];
    }
  }

  function ScoreIs(k: int): Scored -> bool {
    (x: Scored) => x.score == k
  }

  lemma {:induction false} InsertStable(x: Scored, t: seq<Scored>, k: int)
    ensures Filter(Insert(x, t), ScoreIs(k)) == Filter([x] + t, ScoreIs(k))
  {
    if t != [] && t[0].score > x.score {
      InsertStable(x, t[1..], k);
      assert ([x] + t)[1..] == t;
      assert ([x] + t[1..])[1..] == t[1..];
      assert (Insert(x, t))[1..] == Insert(x, t[1..]);
    } else if t != [] {
      assert ([x] + t)[1..] == t;
    }
  }

  /** Stability: among products of equal score the sorted order is the input order. */
  lemma {:induction false} SortByScoreStable(s: seq<Scored>, k: int)
    ensures Filter(SortByScore(s), ScoreIs(k)) == Filter(s, ScoreIs(k))
  {
    if s != [] {
      SortByScoreStable(s[1..], k);
      InsertStable(s[0], SortByScore(s[1..]), k);
      assert ([s[0]] + SortByScore(s[1..]))[1..] == SortByScore(s[1..]);
    }
  }

  /** Sorting scored candidates keeps each candidate with its own score. */
  lemma SortedScores(candidates: seq<Product>, collectionId: Option<string>)
    ensures var sorted := SortByScore(ScoreAll(candidates, collectionId));
            && |sorted| == |candidates|
            && Descending(sorted)
            && (forall i :: 0 <= i < |sorted| ==>
                  sorted[i].product in candidates && sorted[i].score == Score(sorted[i].product, collectionId))
            && (forall c :: c in candidates ==> exists j :: 0 <= j < |sorted| && sorted[j].product == c)
  {
    var scored := ScoreAll(candidates, collectionId);
    var sorted := SortByScore(scored);
    SortByScoreSortsAndPermutes(scored);
    assert |sorted| == |scored| by {
      assert |multiset(sorted)| == |multiset(scored)|;
    }
    forall i | 0 <= i < |sorted|
      ensures sorted[i].product in candidates && sorted[i].score == Score(sorted[i].product, collectionId)
    {
      assert sorted[i] in multiset(sorted);
      var j :| 0 <= j < |scored| && scored[j] == sorted[i];
    }
    forall c | c in candidates ensures exists j :: 0 <= j < |sorted| && sorted[j].product == c {
      var m :| 0 <= m < |candidates| && candidates[m] == c;
      assert scored[m] in multiset(sorted);
      var j :| 0 <= j < |sorted| && sorted[j] == scored[m];
      assert sorted[j].product == c;
    }
  }

  /**
   * The products shown: at most four, all other than the viewed product and
   * taken from the catalogue, best score first, as many as there are
   * candidates up to four, and no candidate left out scores higher than one
   * that is shown.
   */
  lemma RelatedSelection(currentProductId: string, collectionId: Option<string>, allProducts: seq<Product>)
    ensures var r := Related(currentProductId, collectionId, allProducts);
            var candidates := Filter(allProducts, NotCurrent(currentProductId));
            && |r| == (if |candidates| < Shown then |candidates| else Shown)
            && (forall i :: 0 <= i < |r| ==> r[i] in allProducts && r[i].id != currentProductId)
            && (forall i, j :: 0 <= i < j < |r| ==> Score(r[i], collectionId) >= Score(r[j], collectionId))
            && (forall c, i :: c in candidates && c !in r && 0 <= i < |r| ==>
                  Score(c, collectionId) <= Score(r[i], collectionId))
  {
    var candidates := Filter(allProducts, NotCurrent(currentProductId));
    var sorted := SortByScore(ScoreAll(candidates, collectionId));
    SortedScores(candidates, collectionId);
    var r := ProductsOf(Take(sorted, Shown));
    assert forall i :: 0 <= i < |r| ==> r[i] == sorted[i].product;
    forall c, i | c in candidates && c !in r && 0 <= i < |r|
      ensures Score(c, collectionId) <= Score(r[i], collectionId)
    {
      var j :| 0 <= j < |sorted| && sorted[j].product == c;
      assert j >= |r|;
      assert sorted[i].score >= sorted[j].score;
    }
  }

  /** The section is omitted exactly when the catalogue holds nothing but the viewed product. */
  lemma RelatedEmpty(currentProductId: string, collectionId: Option<string>, allProducts: seq<Product>)
    ensures Related(currentProductId, collectionId, allProducts) == [] <==>
            forall i :: 0 <= i < |allProducts| ==> allProducts[i].id == currentProductId
  {
    RelatedSelection(currentProductId, collectionId, allProducts);
    var candidates := Filter(allProducts, NotCurrent(currentProductId));
    if candidates != [] {
      assert candidates[0] in allProducts;
    }
  }
}
