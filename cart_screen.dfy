/** The cart screen (src/App/Pages/Cart/CartScreen.tsx): the "recommended"
    strip, the checkout button, the quantity modal, the star rating split and
    the quick add-to-cart button of a recommended product. The catalog is a
    parameter. */
module CartScreen {
  import opened Wrappers
  import opened Sequences
  import opened Catalog
  import opened Cart
  import opened Routes
  import opened Checkout
  import opened ProductCard

  // ---------------------------------------------------------------------------
  // Recommended products

  /** `cart.map(item => item.product.id)` */
  function CartProductIds(cart: seq<CartItem>): (ids: seq<string>)
    ensures |ids| == |cart|
    ensures forall id :: id in ids <==> exists item :: item in cart && item.product.id == id
  {
    var ids := seq(|cart|, i requires 0 <= i < |cart| => cart[i].product.id);
    forall id | id in ids ensures exists item :: item in cart && item.product.id == id {
      var i :| 0 <= i < |ids| && ids[i] == id;
      assert cart[i] in cart;
    }
    forall id | exists item :: item in cart && item.product.id == id ensures id in ids {
      var item :| item in cart && item.product.id == id;
      var i :| 0 <= i < |cart| && cart[i] == item;
      assert ids[i] == id;
    }
    ids
  }

  /** The test of the filter: the product has no line in the cart. */
  function NotInCart(cart: seq<CartItem>): Product -> bool {
    (p: Product) => p.id !in CartProductIds(cart)
  }

  /** The catalog entries whose id is not that of any cart line, first four:
      the eligible entries of a prefix of the catalog that is either the whole
      catalog or already holds four of them. */
  function Recommended(catalog: seq<Product>, cart: seq<CartItem>): (r: seq<Product>)
    ensures |r| <= 4
    ensures forall p :: p in r ==> p in catalog && p.id !in CartProductIds(cart)
    ensures IsSubsequence(r, catalog)
    ensures |r| < 4 ==> forall p :: p in catalog && p.id !in CartProductIds(cart) ==> p in r
    ensures exists k :: 0 <= k <= |catalog| && r == Filter(catalog[..k], NotInCart(cart))
                        && (k < |catalog| ==> |r| == 4)
  {
    var candidates := Filter(catalog, NotInCart(cart));
    IsSubsequencePrefix(Take(candidates, 4), candidates, catalog);
    TakeFilterPrefix(catalog, NotInCart(cart), 4);
    Take(candidates, 4)
  }

  /** A prefix of a subsequence is a subsequence. */
  lemma {:induction false} IsSubsequencePrefix<T>(p: seq<T>, r: seq<T>, s: seq<T>)
    requires p <= r && IsSubsequence(r, s)
    ensures IsSubsequence(p, s)
    decreases |s|
  {
    if p != [] {
      assert r != [] && s != [];
      if r[0] == s[0] {
        IsSubsequencePrefix(p[1..], r[1..], s[1..]);
      } else {
        IsSubsequencePrefix(p, r, s[1..]);
      }
    }
  }

  /** An empty cart recommends the first four catalog entries. */
  lemma RecommendedForEmptyCart(catalog: seq<Product>)
    ensures Recommended(catalog, []) == Take(catalog, 4)
  {
    FilterAll(catalog, NotInCart([]));
  }

  // ---------------------------------------------------------------------------
  // Checkout button

  datatype CheckoutPressEffect = EmptyCartAlert | NavigateTo(route: Route)

  /** `handleCheckout`: an empty cart raises an alert and stays put; otherwise
      the checkout route is opened. */
  function HandleCheckout(cart: seq<CartItem>): (effect: CheckoutPressEffect)
    ensures effect == EmptyCartAlert <==> cart == []
    ensures effect != EmptyCartAlert ==> effect == NavigateTo(Checkout)
  {
    if |cart| == 0 then EmptyCartAlert else NavigateTo(Checkout)
  }

  // ---------------------------------------------------------------------------
  // Quantity modal

  /** The modal's component state: whether it is visible and which line it edits. */
  class QuantityModal {
    var visible: bool
    var selectedItem: Option<CartItem>

    constructor()
      ensures !visible && selectedItem == None
    {
      visible := false;
      selectedItem := None;
    }

    /** `openQuantityModal` */
    method Open(item: CartItem)
      modifies this
      ensures visible && selectedItem == Some(item)
    {
      selectedItem := Some(item);
      visible := true;
    }

    /** `onRequestClose` and a tap on the backdrop: hidden, selection kept. */
    method Dismiss()
      modifies this
      ensures !visible && selectedItem == old(selectedItem)
    {
      visible := false;
    }

    /** `handleQuantitySelect`: updates every line of the product, then hides the
        modal and forgets the selection. The chips offered are 1 to 10, and for
        those the cart keeps all its lines. */
    method HandleQuantitySelect(store: CartStore, item: CartItem, newQuantity: int)
      modifies this, store
      ensures store.cart == WithQuantity(old(store.cart), item.product.id, newQuantity)
      ensures IsQuantityChoice(newQuantity) ==> |store.cart| == |old(store.cart)|
      ensures !visible && selectedItem == None
    {
      store.UpdateQuantity(item.product.id, newQuantity);
      visible := false;
      selectedItem := None;
    }
  }

  // ---------------------------------------------------------------------------
  // Stars

  /** JavaScript `x % 1`: the fractional part, carrying the sign of `x`. */
  function FractionalPart(x: real): (f: real)
    ensures x >= 0.0 ==> 0.0 <= f < 1.0 && x - f == x.Floor as real
    ensures x < 0.0 ==> -1.0 < f <= 0.0
  {
    if x >= 0.0 then x - x.Floor as real else x + (-x).Floor as real
  }

  datatype StarCounts = StarCounts(full: int, half: bool, empty: int)

  /** `renderStars`: `floor(rating)` full stars, a half star when the fraction
      is at least one half, and the rest of five empty. A negative count makes
      `Array(n)` throw a RangeError, which is `None` here: that happens exactly
      for a rating below 0 or of 5.5 and above. */
  function Stars(rating: real): (s: Option<StarCounts>)
    ensures s.None? <==> rating < 0.0 || rating >= 5.5
    ensures s.Some? ==>
      && s.value.full == rating.Floor
      && (s.value.half <==> rating - rating.Floor as real >= 0.5)
      && s.value.full + (if s.value.half then 1 else 0) + s.value.empty == 5
      && s.value.full >= 0 && s.value.empty >= 0
  {
    var fullStars := rating.Floor;
    var hasHalfStar := FractionalPart(rating) >= 0.5;
    var emptyStars := 5 - fullStars - (if hasHalfStar then 1 else 0);
    if fullStars < 0 || emptyStars < 0 then None
    else Some(StarCounts(fullStars, hasHalfStar, emptyStars))
  }

  // ---------------------------------------------------------------------------
  // Quick add

  /** The cart button of a recommended product: one unit in the first size
      (or "M") and the first colour (or "Default"), then a confirmation. The
      press does not reach the card, so no navigation happens. */
  method QuickAdd(store: CartStore, item: Product) returns (title: string, message: string)
    modifies store
    ensures store.cart == Added(old(store.cart), item, DefaultSize(item), DefaultColor(item), 1)
    ensures ItemsCount(store.cart) == ItemsCount(old(store.cart)) + 1
    ensures title == "Added to Cart!" && message == item.name + " has been added to your cart."
  {
    store.AddToCart(item, DefaultSize(item), DefaultColor(item), 1);
    title := "Added to Cart!";
    message := item.name + " has been added to your cart.";
  }
}
