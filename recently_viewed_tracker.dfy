/**
 * components/RecentlyViewedTracker.tsx: on each product page view, the
 * browser's `recentlyViewed` storage entry is rewritten so that the viewed
 * product comes first, appears once, and at most ten entries are kept.
 * Storage and the clock are parameters: the stored value is read in, the
 * value written (if any) is returned, and the ISO timestamp is given.
 */
module RecentlyViewedTracker {
  import opened Js

  /** The number of entries kept. */
  const MaxEntries: nat := 10

  /**
   * One element of the stored JSON array. `Null` stands for an element on
   * which reading `.id` throws (`null`); any other element is a record whose
   * `id` is `None` when it is missing or not a string.
   */
  datatype Entry = Null | Record(id: Option<string>, slug: Option<string>, viewedAt: Option<string>)

  /**
   * What `JSON.parse(localStorage.getItem('recentlyViewed') || '[]')` yields:
   * `Absent` when the key is missing or holds "", `List` for a JSON array,
   * `Unusable` for text that does not parse or parses to a non-array (whose
   * `.filter` throws).
   */
  datatype Stored = Absent | List(entries: seq<Entry>) | Unusable

  /** The filter `item.id !== productId`, for elements that are records. */
  function NotViewed(productId: string): Entry -> bool {
    (e: Entry) => e.Record? && e.id != Some(productId)
  }

  function ViewOf(productId: string, productSlug: string, now: string): Entry {
    Record(Some(productId), Some(productSlug), Some(now))
  }

  /** The list written back: the new view first, then earlier views of other products, cut at ten. */
  function Track(entries: seq<Entry>, productId: string, productSlug: string, now: string): (r: seq<Entry>)
    ensures 1 <= |r| <= MaxEntries && r[0] == ViewOf(productId, productSlug, now)
  {
    Take([ViewOf(productId, productSlug, now)] + Filter(entries, NotViewed(productId)), MaxEntries)
  }

  /**
   * `trackView`: the value written to storage, or `None` when an exception
   * is caught and nothing is written.
   */
  function TrackView(stored: Stored, productId: string, productSlug: string, now: string): (r: Option<seq<Entry>>)
    ensures r.None? <==> stored.Unusable? || (stored.List? && Null in stored.entries)
    ensures stored.Absent? ==> r == Some([ViewOf(productId, productSlug, now)])
    ensures stored.List? && Null !in stored.entries ==> r == Some(Track(stored.entries, productId, productSlug, now))
  {
    match stored
    case Absent =>
      assert [ViewOf(productId, productSlug, now)] + Filter([], NotViewed(productId)) == [ViewOf(productId, productSlug, now)];
      Some(Track([], productId, productSlug, now))
    case Unusable => None
    case List(entries) => if Null in entries then None else Some(Track(entries, productId, productSlug, now))
  }

  /**
   * The written list starts with the view just made, names the product only
   * there, holds at most ten entries, and continues with the earlier views of
   * other products in their stored order, as many as fit.
   */
  lemma TrackShape(entries: seq<Entry>, productId: string, productSlug: string, now: string)
    ensures var r := Track(entries, productId, productSlug, now);
            && 1 <= |r| <= MaxEntries
            && r[0] == ViewOf(productId, productSlug, now)
            && (forall i :: 1 <= i < |r| ==> r[i].Record? && r[i].id != Some(productId))
            && r[1..] == Take(Filter(entries, NotViewed(productId)), MaxEntries - 1)
  {
    TakeCons(ViewOf(productId, productSlug, now), Filter(entries, NotViewed(productId)), MaxEntries - 1);
  }

  lemma TakeCons<T>(x: T, s: seq<T>, n: nat)
    ensures Take([x] + s, n + 1) == [x] + Take(s, n)
  {
    if |s| > n {
      assert ([x] + s)[..n + 1] == [x] + s[..n];
    }
  }

  /** Viewing the same product twice in a row only refreshes its timestamp. */
  lemma TrackTwice(entries: seq<Entry>, productId: string, productSlug: string, first: string, second: string)
    ensures Track(Track(entries, productId, productSlug, first), productId, productSlug, second)
            == Track(entries, productId, productSlug, second)
  {
    var f := Filter(entries, NotViewed(productId));
    var once := Track(entries, productId, productSlug, first);
    TakeCons(ViewOf(productId, productSlug, first), f, MaxEntries - 1);
    var rest := Take(f, MaxEntries - 1);
    assert once == [ViewOf(productId, productSlug, first)] + rest;
    assert once[1..] == rest;
    FilterKeepsAll(rest, NotViewed(productId));
    assert Filter(once, NotViewed(productId)) == rest;
    TakeCons(ViewOf(productId, productSlug, second), rest, MaxEntries - 1);
    TakeCons(ViewOf(productId, productSlug, second), f, MaxEntries - 1);
  }

  /** After viewing p and then another product q, q is first and p second: most recent first. */
  lemma TrackMostRecentFirst(entries: seq<Entry>, p: string, pSlug: string, q: string, qSlug: string, t1: string, t2: string)
    requires p != q
    ensures var r := Track(Track(entries, p, pSlug, t1), q, qSlug, t2);
            |r| >= 2 && r[0] == ViewOf(q, qSlug, t2) && r[1] == ViewOf(p, pSlug, t1)
  {
    var once := Track(entries, p, pSlug, t1);
    TrackShape(entries, p, pSlug, t1);
    assert once == [once[0]] + once[1..];
    assert Filter(once, NotViewed(q))[0] == ViewOf(p, pSlug, t1);
    TrackShape(once, q, qSlug, t2);
  }
}
