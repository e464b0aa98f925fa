/**
 * The entities of the order workflow: orders with their embedded line items,
 * the buyer snapshot and payment info, the errors the handlers raise, and the
 * JavaScript truthiness tests the handlers apply to request fields.
 *
 * Ids (order ids, product ids, shop ids, user ids, payment ids) are strings.
 * Amounts are JavaScript numbers, taken here as exact reals.
 */
module OrderModel {
  import opened Wrappers
  import opened Sequences

  type Id = string
  type Amount = real

  /** A snapshot of a JSON object such as shipping_info, stored as sent. */
  datatype Snapshot = Snapshot(fields: map<string, string>)

  /** One entry of items_of_order: `_id` is the product id. */
  datatype LineItem = LineItem(productId: Id, shopId: Id, quantity: int, price: Amount)

  datatype OrderStatus = Uncompleted | Processing | Shipped | Delivered | Cancelled
  datatype PaymentStatus = PaymentProcessing | Succeeded | Failed

  /** The string stored in order_status, which a status filter of the query is compared with. */
  function OrderStatusName(s: OrderStatus): string
  {
    match s
    case Uncompleted => "uncompleted"
    case Processing => "processing"
    case Shipped => "shipped"
    case Delivered => "delivered"
    case Cancelled => "cancelled"
  }

  /** The string stored in payment_status. */
  function PaymentStatusName(s: PaymentStatus): string
  {
    match s
    case PaymentProcessing => "processing"
    case Succeeded => "succeeded"
    case Failed => "failed"
  }

  /** payment_info: the gateway's payment id, the payment method ("none" until completion) and the client secret. */
  datatype PaymentInfo = PaymentInfo(id: string, paymentMethod: string, clientSecret: string)

  /** The `user` snapshot copied from the caller when the order is created. */
  datatype BuyerSnapshot = BuyerSnapshot(id: Id, email: string, name: string, avatar: string)

  /** The authenticated caller resolved by the auth middleware (req.user). */
  datatype Caller = Caller(id: Id, email: string, name: string, avatar: string)

  datatype Order = Order(
    id: Id,
    shippingInfo: Snapshot,
    items: seq<LineItem>,
    priceOfItems: Amount,
    taxFee: Option<Amount>,
    shippingFee: Option<Amount>,
    totalToPay: Option<Amount>,
    orderStatus: OrderStatus,
    paymentStatus: PaymentStatus,
    paymentInfo: PaymentInfo,
    user: BuyerSnapshot,
    createdAt: int)

  /** BaseError(message, status) of the handlers; GatewayError for a rejected payment intent. */
  datatype Failure = BaseError(message: string, status: nat) | GatewayError

  datatype Result<T> = Ok(value: T) | Err(error: Failure)

  const WrongPropertyName := BaseError("Wrong property name", 400)
  const WrongProperty := BaseError("Wrong property", 400)
  const OrderNotFound := BaseError("Order not found", 404)

  /** A text field is truthy when present and not the empty string. */
  predicate TruthyText(s: Option<string>)
  {
    s.Some? && s.value != ""
  }

  /** A numeric field is truthy when present and not zero. */
  predicate TruthyAmount(a: Option<Amount>)
  {
    a.Some? && a.value != 0.0
  }

  /** Some line item of the order names the product. */
  predicate NamesProduct(o: Order, productId: Id)
  {
    exists k :: 0 <= k < |o.items| && o.items[k].productId == productId
  }

  /** Some line item of the order belongs to the shop. */
  predicate HasShopItem(o: Order, shopId: Id)
  {
    exists k :: 0 <= k < |o.items| && o.items[k].shopId == shopId
  }

  /** Some order of the collection has this id. */
  predicate HasId(orders: seq<Order>, id: Id)
  {
    exists k :: 0 <= k < |orders| && orders[k].id == id
  }

  /** No two orders of the collection share an id. */
  predicate UniqueIds(orders: seq<Order>)
  {
    forall i, j :: 0 <= i < j < |orders| ==> orders[i].id != orders[j].id
  }

  /** The position of the order with this id, found as findOne({ _id }) finds it. */
  function IndexOfId(orders: seq<Order>, id: Id): (r: Option<nat>)
    ensures r.Some? ==> r.value < |orders| && orders[r.value].id == id
    ensures r.None? <==> !HasId(orders, id)
  {
    FindFirst(orders, (o: Order) => o.id == id)
  }

  /** With unique ids, the order found by id is the only one with that id. */
  lemma IndexOfIdUnique(orders: seq<Order>, k: nat)
    requires UniqueIds(orders) && k < |orders|
    ensures IndexOfId(orders, orders[k].id) == Some(k)
  {
    var r := IndexOfId(orders, orders[k].id);
    assert orders[r.value].id == orders[k].id;
  }
}
