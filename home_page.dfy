/**
 * app/page.tsx: the home page's choice of products, collections and hero
 * text. Up to four featured products are shown, or the first four products
 * when none is featured; the first four collections; and the configured
 * hero title and subtitle, with fixed defaults when they are missing or empty.
 */
module HomePage {
  import opened Js
  import opened Catalog

  const Shown: nat := 4
  const DefaultHeroTitle: string := "Premium Branded Merchandise"
  const DefaultHeroSubtitle: string := "Elevate your brand with high-quality swag"

  /** The `metadata` of the homepage settings object, when there is one. */
  datatype HeroSettings = HeroSettings(heroTitle: Option<string>, heroSubtitle: Option<string>)

  function IsFeatured(): Product -> bool {
    (p: Product) => p.featured
  }

  /** `displayProducts`. */
  function DisplayProducts(products: seq<Product>): (r: seq<Product>)
    ensures |r| <= Shown
    ensures forall i :: 0 <= i < |r| ==> r[i] in products
    ensures products != [] ==> r != []
  {
    var featured := Take(Filter(products, IsFeatured()), Shown);
    if |featured| > 0 then featured else Take(products, Shown)
  }

  /** `displayCollections`. */
  function DisplayCollections(collections: seq<Collection>): (r: seq<Collection>)
    ensures |r| <= Shown && r <= collections
    ensures |collections| >= Shown ==> |r| == Shown
  {
    Take(collections, Shown)
  }

  /** `heroTitle` and `heroSubtitle`. */
  function HeroText(settings: Option<HeroSettings>): (r: (string, string))
    ensures settings.None? ==> r == (DefaultHeroTitle, DefaultHeroSubtitle)
    ensures settings.Some? ==>
              r.0 == StrOr(settings.value.heroTitle, DefaultHeroTitle) && r.1 == StrOr(settings.value.heroSubtitle, DefaultHeroSubtitle)
    ensures r.0 != "" && r.1 != ""
  {
    if settings.None? then (DefaultHeroTitle, DefaultHeroSubtitle)
    else (StrOr(settings.value.heroTitle, DefaultHeroTitle), StrOr(settings.value.heroSubtitle, DefaultHeroSubtitle))
  }

  /**
   * With any featured product, the page shows the first featured products
   * (at most four) in catalogue order; with none, the first four products.
   * Either way at most four products, drawn from the catalogue.
   */
  lemma DisplayProductsChoice(products: seq<Product>)
    ensures var r := DisplayProducts(products);
            && |r| <= Shown
            && (forall i :: 0 <= i < |r| ==> r[i] in products)
            && ((exists i :: 0 <= i < |products| && products[i].featured) ==>
                  r == Take(Filter(products, IsFeatured()), Shown) && r != []
                  && forall i :: 0 <= i < |r| ==> r[i].featured)
            && ((forall i :: 0 <= i < |products| ==> !products[i].featured) ==> r == Take(products, Shown))
  {
    var featured := Filter(products, IsFeatured());
    if exists i :: 0 <= i < |products| && products[i].featured {
      var i :| 0 <= i < |products| && products[i].featured;
      assert products[i] in featured;
    }
    var r := DisplayProducts(products);
    forall i | 0 <= i < |r| ensures r[i] in products {
      if |Take(featured, Shown)| > 0 {
        assert r[i] == featured[i];
      } else {
        assert r[i] == products[i];
      }
    }
  }
}
