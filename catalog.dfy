/**
 * The catalogue records the storefront reads from its content service
 * (types.ts), reduced to the fields the modelled logic looks at.
 */
module Catalog {
  import opened Js

  /**
   * A product. `price` is `metadata.price` in integer cents. `stock` is
   * `None` when `stock_quantity` is undefined (its type admits no null);
   * `sizes` is `None` when `sizes_available` is undefined or null.
   */
  datatype Product = Product(
    id: string,
    slug: string,
    title: string,
    name: string,                 // metadata.product_name
    price: int,                   // metadata.price, in cents
    stock: Option<int>,           // metadata.stock_quantity
    sizes: Option<seq<string>>,   // metadata.sizes_available
    featured: bool,               // metadata.featured (undefined reads as false)
    collectionId: Option<string>, // metadata.collection?.id
    image: Option<string>)        // metadata.product_images?.[0].imgix_url

  /** A collection; only its identity matters to the modelled logic. */
  datatype Collection = Collection(id: string, slug: string, name: string)
}
