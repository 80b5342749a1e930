/** The order card (src/App/Components/Order/OrderCard.tsx): the title for an
    order's status and the action buttons it shows. Colours are left out. */
module OrderCard {

  /** A status string other than the three declared ones. */
  type UndeclaredStatus = raw: string | raw != "received" && raw != "cancelled" && raw != "delivered" witness ""

  /** The declared statuses, plus any other value untyped data might carry,
      which the card's fallback branch handles. */
  datatype OrderStatus = Received | Cancelled | Delivered | Other(raw: UndeclaredStatus)

  /** The status an order's `status` string stands for. */
  function StatusOf(raw: string): (status: OrderStatus)
    ensures raw == "received" <==> status == Received
    ensures raw == "cancelled" <==> status == Cancelled
    ensures raw == "delivered" <==> status == Delivered
    ensures status.Other? ==> status.raw == raw
  {
    if raw == "received" then Received
    else if raw == "cancelled" then Cancelled
    else if raw == "delivered" then Delivered
    else Other(raw)
  }

  datatype OrderItem = OrderItem(id: string, productId: string, productName: string, size: string, color: string)

  datatype Order = Order(id: string, status: OrderStatus, date: string, items: seq<OrderItem>)

  /** The title of `getStatusConfig`. */
  function StatusTitle(status: OrderStatus): (title: string)
    ensures status.Other? <==> title == "Order"
  {
    match status
    case Received => "Order Received"
    case Cancelled => "Order Cancelled"
    case Delivered => "Order Delivered"
    case Other(_) => "Order"
  }

  /** The three declared statuses have distinct titles. */
  lemma StatusTitleDistinct(a: OrderStatus, b: OrderStatus)
    requires !a.Other? && !b.Other?
    ensures StatusTitle(a) == StatusTitle(b) ==> a == b
  {
  }

  datatype Action = CancelOrder | TrackOrder | RateOrder | Reorder

  /** A button press: the callback and the id it is called with. */
  datatype ActionCall = ActionCall(action: Action, orderId: string)

  /** The buttons under the card: cancel and track for a received order,
      rate and reorder for a delivered one, none otherwise. */
  function Buttons(status: OrderStatus): (buttons: seq<Action>)
    ensures CancelOrder in buttons <==> status == Received
    ensures TrackOrder in buttons <==> status == Received
    ensures RateOrder in buttons <==> status == Delivered
    ensures Reorder in buttons <==> status == Delivered
    ensures status == Cancelled ==> buttons == []
  {
    if status == Received then [CancelOrder, TrackOrder]
    else if status == Delivered then [RateOrder, Reorder]
    else []
  }

  /** Pressing each shown button, in order: every callback gets the card's own order id. */
  function ButtonCalls(order: Order): (calls: seq<ActionCall>)
    ensures |calls| == |Buttons(order.status)|
    ensures forall i :: 0 <= i < |calls| ==> calls[i].orderId == order.id && calls[i].action == Buttons(order.status)[i]
  {
    var buttons := Buttons(order.status);
    seq(|buttons|, i requires 0 <= i < |buttons| => ActionCall(buttons[i], order.id))
  }
}
