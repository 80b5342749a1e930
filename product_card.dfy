/** The product card (src/App/Components/Product/ProductCard.tsx): its
    add-to-cart button, its press handler and its "sold" label. */
module ProductCard {
  import opened Wrappers
  import opened Catalog
  import opened Cart

  /** `product.sizes[0] || 'M'`: a missing or empty first size falls back to "M". */
  function DefaultSize(product: Product): (size: string)
    ensures size != ""
    ensures size == "M" || (|product.sizes| > 0 && size == product.sizes[0])
    ensures |product.sizes| > 0 && product.sizes[0] != "" ==> size == product.sizes[0]
  {
    if |product.sizes| > 0 && product.sizes[0] != "" then product.sizes[0] else "M"
  }

  /** `product.colors[0] || 'Default'` */
  function DefaultColor(product: Product): (color: string)
    ensures color != ""
    ensures color == "Default" || (|product.colors| > 0 && color == product.colors[0])
    ensures |product.colors| > 0 && product.colors[0] != "" ==> color == product.colors[0]
  {
    if |product.colors| > 0 && product.colors[0] != "" then product.colors[0] else "Default"
  }

  /** What pressing the add button did besides changing the cart. */
  datatype AddEffect =
    | CallbackInvoked
    | AddedAlert(title: string, message: string)

  /** `handleAddToCart`: a supplied `onAddToCart` callback replaces the default
      behaviour entirely; otherwise one unit in the default size and colour is
      added to the cart store and a confirmation is shown. */
  method HandleAddToCart(store: CartStore, product: Product, hasOnAddToCart: bool) returns (effect: AddEffect)
    modifies store
    ensures hasOnAddToCart ==> effect == CallbackInvoked && store.cart == old(store.cart)
    ensures !hasOnAddToCart ==>
      && store.cart == Added(old(store.cart), product, DefaultSize(product), DefaultColor(product), 1)
      && effect == AddedAlert("Added to Cart!", product.name + " has been added to your cart.")
  {
    if hasOnAddToCart {
      effect := CallbackInvoked;
    } else {
      var defaultSize := DefaultSize(product);
      var defaultColor := DefaultColor(product);
      store.AddToCart(product, defaultSize, defaultColor, 1);
      effect := AddedAlert("Added to Cart!", product.name + " has been added to your cart.");
    }
  }

  /** A navigation to the product details route with its `productId` parameter. */
  datatype DetailsNavigation = NavigateToDetails(productId: string)

  /** `handlePress`: open the details of this very product. */
  function HandlePress(product: Product): (nav: DetailsNavigation)
    ensures nav.productId == product.id
  {
    NavigateToDetails(product.id)
  }

  datatype Variant = Default | Compact

  /** The "sold" figure: the raw review count on the compact card,
      `Math.floor(reviews / 10)` (shown as "k+ sold") on the default card. */
  function SoldFigure(product: Product, variant: Variant): (n: int)
    ensures variant == Compact ==> n == product.reviews
    ensures variant == Default ==> 10 * n <= product.reviews < 10 * n + 10
  {
    match variant
    case Compact => product.reviews
    case Default => product.reviews / 10
  }
}
