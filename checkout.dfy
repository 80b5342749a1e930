/** The checkout screen (src/App/Pages/Cart/CheckoutScreen.tsx): the price
    breakdown, the per-line discount badge, the quantity sheet and the
    "order and pay" button. Money is exact (`real`). */
module Checkout {
  import opened Wrappers
  import opened Catalog
  import opened Cart
  import opened Routes

  // ---------------------------------------------------------------------------
  // Price breakdown

  /** Delivery is free strictly above 150, otherwise it costs 12.5. */
  function DeliveryFee(subtotal: real): (fee: real)
    ensures fee == 0.0 <==> subtotal > 150.0
    ensures fee != 0.0 ==> fee == 12.5
  {
    if subtotal > 150.0 then 0.0 else 12.5
  }

  /** Taxes are 8% of the subtotal. */
  function Taxes(subtotal: real): (tax: real)
    ensures subtotal >= 0.0 ==> 0.0 <= tax <= subtotal
  {
    subtotal * 0.08
  }

  /** A 5% discount strictly above 200, none otherwise. */
  function OrderDiscount(subtotal: real): (discount: real)
    ensures discount != 0.0 ==> subtotal > 200.0
    ensures subtotal > 200.0 ==> discount == subtotal * 0.05
    ensures discount <= Taxes(subtotal) || subtotal < 0.0
  {
    if subtotal > 200.0 then subtotal * 0.05 else 0.0
  }

  /** subtotal + delivery + taxes - discount. */
  function GrandTotal(subtotal: real): real {
    subtotal + DeliveryFee(subtotal) + Taxes(subtotal) - OrderDiscount(subtotal)
  }

  /** The grand total in closed form per price band, and never below the
      subtotal for a non-negative subtotal (the discount never exceeds the taxes). */
  lemma GrandTotalBands(subtotal: real)
    ensures GrandTotal(subtotal) ==
      if subtotal > 200.0 then subtotal * 1.03
      else if subtotal > 150.0 then subtotal * 1.08
      else subtotal * 1.08 + 12.5
    ensures subtotal >= 0.0 ==> GrandTotal(subtotal) >= subtotal
  {
  }

  /** The grand total is not monotone in the subtotal: crossing the
      free-delivery threshold makes a larger cart cheaper. */
  lemma GrandTotalDropsAtFreeDelivery()
    ensures GrandTotal(150.0) == 174.5
    ensures GrandTotal(151.0) == 163.08
  {
  }

  // ---------------------------------------------------------------------------
  // Per-line discount badge

  /** `Math.round` on an exact real: the nearest integer, halves rounded up. */
  function Round(x: real): (n: int)
    ensures x - 0.5 < n as real <= x + 0.5
  {
    (x + 0.5).Floor
  }

  /** `calculateDiscount`: the percentage saved against the original price,
      rounded; 0 when there is no (or a zero) original price. */
  function CalculateDiscount(product: Product): (percent: int)
    ensures product.originalPrice.None? ==> percent == 0
    ensures (product.originalPrice.Some? && product.originalPrice.value > 0.0
             && 0.0 <= product.price <= product.originalPrice.value) ==> 0 <= percent <= 100
  {
    match product.originalPrice
    case Some(original) =>
      if original != 0.0 then
        DiscountRatioBounds(original, product.price);
        Round((original - product.price) / original * 100.0)
      else 0
    case None => 0
  }

  /** A markdown from `original` to `price` is between 0% and 100% of the original. */
  lemma DiscountRatioBounds(original: real, price: real)
    ensures original > 0.0 && 0.0 <= price <= original ==>
      0.0 <= (original - price) / original * 100.0 <= 100.0
  {
    if original > 0.0 && 0.0 <= price <= original {
      var ratio := (original - price) / original;
      assert ratio * original == original - price;
      assert 0.0 <= ratio <= 1.0;
    }
  }

  // ---------------------------------------------------------------------------
  // Quantity sheet

  /** The quantity chips offered: 1 to 10. */
  predicate IsQuantityChoice(q: int) {
    1 <= q <= 10
  }

  /** `handleQuantitySelect`: sets the quantity of every line of the product
      and closes the sheet. The sheet only offers the chips 1 to 10, and for
      those no line is ever removed. */
  method HandleQuantitySelect(store: CartStore, item: CartItem, newQuantity: int) returns (sheetOpen: bool)
    modifies store
    ensures store.cart == WithQuantity(old(store.cart), item.product.id, newQuantity)
    ensures IsQuantityChoice(newQuantity) ==>
      && store.cart == SetQuantity(old(store.cart), item.product.id, newQuantity)
      && |store.cart| == |old(store.cart)|
    ensures !sheetOpen
  {
    store.UpdateQuantity(item.product.id, newQuantity);
    sheetOpen := false;
  }

  // ---------------------------------------------------------------------------
  // Order and pay

  datatype PaymentMethod = ApplePay | PayOnDelivery | NewCard

  /** The label the order summary carries for the chosen method. */
  function PaymentLabel(method_: PaymentMethod): string {
    if method_ == ApplePay then "Apple Pay"
    else if method_ == PayOnDelivery then "Pay on Delivery"
    else "New Card"
  }

  /** Reading a label back: the inverse of `PaymentLabel`. */
  function MethodOfLabel(caption: string): Option<PaymentMethod> {
    if caption == "Apple Pay" then Some(ApplePay)
    else if caption == "Pay on Delivery" then Some(PayOnDelivery)
    else if caption == "New Card" then Some(NewCard)
    else None
  }

  /** Distinct methods get distinct labels. */
  lemma PaymentLabelRoundTrip(method_: PaymentMethod)
    ensures MethodOfLabel(PaymentLabel(method_)) == Some(method_)
  {
  }

  /** `QTL-` followed by the last six characters of the timestamp string
      (`slice(-6)`, the whole string when it is shorter). */
  function OrderId(timestamp: string): (id: string)
    ensures |id| == 4 + (if |timestamp| < 6 then |timestamp| else 6)
    ensures id[..4] == "QTL-"
    ensures timestamp == timestamp[..|timestamp| - (|id| - 4)] + id[4..]
  {
    "QTL-" + (if |timestamp| < 6 then timestamp else timestamp[|timestamp| - 6..])
  }

  const DeliveryAddress := "759 Ashcraft Court San Diego, Istanbul 34010, Floor: 11"
  const DeliveryEta := "1-3 Business Days"

  /** The parameters handed to the order-success route. */
  datatype OrderSummary = OrderSummary(
    orderId: string, total: real, itemsCount: int, paymentMethod: string, address: string, eta: string)

  datatype CheckoutEffect =
    | PaymentRequiredAlert
    | Navigate(route: Route, summary: OrderSummary)

  /** `handleOrderAndPay`: without a payment method it only alerts; with one it
      builds the summary from the pre-clear subtotal and item count, empties
      the cart, then navigates. `now` is `Date.now().toString()`. */
  method HandleOrderAndPay(store: CartStore, selectedPayment: Option<PaymentMethod>, now: string)
    returns (effect: CheckoutEffect)
    modifies store
    ensures selectedPayment.None? ==> effect == PaymentRequiredAlert && store.cart == old(store.cart)
    ensures selectedPayment.Some? ==>
      && store.cart == []
      && effect == Navigate(OrderSuccess, OrderSummary(
           OrderId(now), Total(old(store.cart)), ItemsCount(old(store.cart)),
           PaymentLabel(selectedPayment.value), DeliveryAddress, DeliveryEta))
  {
    var totalItems := store.GetCartItemsCount();
    var total := store.GetCartTotal();
    if selectedPayment.None? {
      effect := PaymentRequiredAlert;
      return;
    }
    var orderSummary := OrderSummary(
      OrderId(now), total, totalItems, PaymentLabel(selectedPayment.value), DeliveryAddress, DeliveryEta);
    store.ClearCart();
    effect := Navigate(OrderSuccess, orderSummary);
  }
}
