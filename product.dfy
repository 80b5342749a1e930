/** The catalog entry shared by every screen (`Product` in src/types/product.ts).
    Images and the description are display-only and left out. */
module Catalog {
  import opened Wrappers

  datatype Product = Product(
    id: string,
    name: string,
    price: real,
    originalPrice: Option<real>,
    category: string,
    sizes: seq<string>,
    colors: seq<string>,
    rating: real,
    reviews: int,
    inStock: bool)
}
