/**
 * The two state-changing order handlers, initPlaceOrder and completePlaceOrder,
 * over one store holding the orders collection and the product stock table,
 * plus the request validation of sendReceipt.
 *
 * The payment gateway is an oracle: its reply to the payment-intent request is
 * a parameter. The id MongoDB assigns to a new order and the clock are
 * parameters too.
 */
module OrderWorkflow {
  import opened Wrappers
  import opened OrderModel
  import opened Inventory

  /** The body of an initPlaceOrder request; an absent field is None. */
  datatype PlaceOrderRequest = PlaceOrderRequest(
    currency: Option<string>,
    shippingInfo: Option<Snapshot>,
    items: Option<seq<LineItem>>,
    priceOfItems: Option<Amount>,
    taxFee: Option<Amount>,
    shippingFee: Option<Amount>,
    totalToPay: Option<Amount>)

  /** The body of a sendReceipt request. */
  datatype ReceiptRequest = ReceiptRequest(
    paymentId: Option<string>,
    deliveryInfo: Option<Snapshot>,
    receiverInfo: Option<Snapshot>,
    items: Option<seq<LineItem>>,
    taxFee: Option<Amount>,
    shippingFee: Option<Amount>,
    totalToPay: Option<Amount>)

  /** The fields of a request that passed validation. */
  datatype OrderDraft = OrderDraft(
    shippingInfo: Snapshot,
    items: seq<LineItem>,
    priceOfItems: Amount,
    taxFee: Option<Amount>,
    shippingFee: Option<Amount>,
    totalToPay: Option<Amount>)

  /** What the gateway answers to the payment-intent request. */
  datatype GatewayReply = Intent(paymentId: string, clientSecret: string) | Declined

  /** The response of initPlaceOrder. */
  datatype PlaceOrderReply = PlaceOrderReply(clientSecret: string, stripeKey: string, orderId: Id)

  /**
   * The checks initPlaceOrder makes before contacting the gateway.
   * `falsyNumerics` is APIFeature.check_falsy_numerics, taken as given.
   */
  function ValidatePlaceOrder(req: PlaceOrderRequest, falsyNumerics: seq<Option<Amount>> -> bool): (r: Result<OrderDraft>)
    ensures r.Err? <==>
      || !TruthyText(req.currency) || req.shippingInfo.None? || req.items.None? || !TruthyAmount(req.priceOfItems)
      || falsyNumerics([req.taxFee, req.shippingFee, req.totalToPay])
    ensures r.Err? ==> r.error == WrongPropertyName
    ensures r.Ok? ==>
      && r.value.shippingInfo == req.shippingInfo.value
      && r.value.items == req.items.value
      && r.value.priceOfItems == req.priceOfItems.value
      && r.value.taxFee == req.taxFee
      && r.value.shippingFee == req.shippingFee
      && r.value.totalToPay == req.totalToPay
  {
    if !TruthyText(req.currency) || req.shippingInfo.None? || req.items.None? || !TruthyAmount(req.priceOfItems) then
      Err(WrongPropertyName)
    else if falsyNumerics([req.taxFee, req.shippingFee, req.totalToPay]) then
      Err(WrongPropertyName)
    else
      Ok(OrderDraft(req.shippingInfo.value, req.items.value, req.priceOfItems.value,
                    req.taxFee, req.shippingFee, req.totalToPay))
  }

  /** The document OrderModel.create stores for a validated request. */
  function NewOrder(draft: OrderDraft, caller: Caller, paymentId: string, clientSecret: string, id: Id, now: int): (o: Order)
    ensures o.id == id && o.createdAt == now
    ensures o.shippingInfo == draft.shippingInfo && o.items == draft.items && o.priceOfItems == draft.priceOfItems
    ensures o.taxFee == draft.taxFee && o.shippingFee == draft.shippingFee && o.totalToPay == draft.totalToPay
    ensures o.orderStatus == Uncompleted && o.paymentStatus == PaymentProcessing
    ensures o.paymentInfo.id == paymentId && o.paymentInfo.paymentMethod == "none" && o.paymentInfo.clientSecret == clientSecret
    ensures o.user.id == caller.id && o.user.email == caller.email && o.user.name == caller.name && o.user.avatar == caller.avatar
  {
    Order(id, draft.shippingInfo, draft.items, draft.priceOfItems,
          draft.taxFee, draft.shippingFee, draft.totalToPay,
          Uncompleted, PaymentProcessing,
          PaymentInfo(paymentId, "none", clientSecret),
          BuyerSnapshot(caller.id, caller.email, caller.name, caller.avatar),
          now)
  }

  /** The $set of completePlaceOrder: both statuses and the payment method. */
  function Completed(o: Order, paymentMethod: string): (c: Order)
    ensures c.paymentStatus == Succeeded && c.orderStatus == Processing
    ensures c.paymentInfo.paymentMethod == paymentMethod
    ensures c.paymentInfo.id == o.paymentInfo.id && c.paymentInfo.clientSecret == o.paymentInfo.clientSecret
    ensures c.(paymentStatus := o.paymentStatus, orderStatus := o.orderStatus, paymentInfo := o.paymentInfo) == o
  {
    o.(paymentStatus := Succeeded,
       orderStatus := Processing,
       paymentInfo := o.paymentInfo.(paymentMethod := paymentMethod))
  }

  /** The validation of sendReceipt (the e-mail it then sends is not modelled). */
  function ValidateReceipt(req: ReceiptRequest, falsyNumerics: seq<Option<Amount>> -> bool): (r: Result<()>)
    ensures r.Err? <==>
      || !TruthyText(req.paymentId) || req.deliveryInfo.None? || req.receiverInfo.None? || req.items.None?
      || !TruthyAmount(req.totalToPay) || falsyNumerics([req.taxFee, req.shippingFee])
    ensures r.Err? ==> r.error == WrongProperty
  {
    if !TruthyText(req.paymentId) || req.deliveryInfo.None? || req.receiverInfo.None? || req.items.None?
       || !TruthyAmount(req.totalToPay) then
      Err(WrongProperty)
    else if falsyNumerics([req.taxFee, req.shippingFee]) then
      Err(WrongProperty)
    else
      Ok(())
  }

  /** The orders collection and the product collection, as the two handlers change them. */
  class OrderStore {
    var orders: seq<Order>
    var products: map<Id, Product>
    const stripeKey: string

    ghost predicate Valid()
      reads this
    {
      UniqueIds(orders)
    }

    constructor (stripeKey: string, orders: seq<Order>, products: map<Id, Product>)
      requires UniqueIds(orders)
      ensures Valid()
      ensures this.stripeKey == stripeKey && this.orders == orders && this.products == products
    {
      this.stripeKey := stripeKey;
      this.orders := orders;
      this.products := products;
    }

    /**
     * initPlaceOrder: validate, ask the gateway for a payment intent, store the
     * order as uncompleted / processing with the gateway's ids and the caller's
     * snapshot. `intentRequested` tells whether the gateway was contacted.
     */
    method InitPlaceOrder(req: PlaceOrderRequest, caller: Caller, falsyNumerics: seq<Option<Amount>> -> bool,
                          gateway: GatewayReply, newId: Id, now: int)
      returns (intentRequested: bool, r: Result<PlaceOrderReply>)
      requires Valid()
      requires newId != "" && !HasId(orders, newId)
      modifies this
      ensures Valid()
      ensures products == old(products)
      ensures intentRequested <==> ValidatePlaceOrder(req, falsyNumerics).Ok?
      ensures !intentRequested ==> r == Err(WrongPropertyName) && orders == old(orders)
      ensures intentRequested && gateway.Declined? ==> r == Err(GatewayError) && orders == old(orders)
      ensures intentRequested && gateway.Intent? ==>
        && orders == old(orders) + [NewOrder(ValidatePlaceOrder(req, falsyNumerics).value, caller,
                                             gateway.paymentId, gateway.clientSecret, newId, now)]
        && r == Ok(PlaceOrderReply(gateway.clientSecret, stripeKey, newId))
    {
      var checked := ValidatePlaceOrder(req, falsyNumerics);
      if checked.Err? {
        return false, Err(checked.error);
      }
      intentRequested := true;
      if gateway.Declined? {
        return intentRequested, Err(GatewayError);
      }
      var order := NewOrder(checked.value, caller, gateway.paymentId, gateway.clientSecret, newId, now);
      orders := orders + [order];
      r := Ok(PlaceOrderReply(gateway.clientSecret, stripeKey, newId));
    }

    /**
     * completePlaceOrder: mark the order paid and processing, then adjust the
     * stock and sold count of every line item's product, one item at a time.
     * The current status is not checked.
     */
    method CompletePlaceOrder(orderId: Option<Id>, paymentMethod: Option<string>, now: int) returns (r: Result<()>)
      requires Valid()
      modifies this
      ensures Valid()
      ensures !TruthyText(orderId) || !TruthyText(paymentMethod) ==>
        r == Err(WrongPropertyName) && orders == old(orders) && products == old(products)
      ensures TruthyText(orderId) && TruthyText(paymentMethod) && !HasId(old(orders), orderId.value) ==>
        r == Err(OrderNotFound) && orders == old(orders) && products == old(products)
      ensures TruthyText(orderId) && TruthyText(paymentMethod) && HasId(old(orders), orderId.value) ==>
        var i := IndexOfId(old(orders), orderId.value).value;
        && r == Ok(())
        && orders == old(orders)[i := Completed(old(orders)[i], paymentMethod.value)]
        && products == AdjustStock(old(products), old(orders)[i].items, now)
    {
      if !TruthyText(orderId) || !TruthyText(paymentMethod) {
        return Err(WrongPropertyName);
      }
      var found := IndexOfId(orders, orderId.value);
      if found.None? {
        return Err(OrderNotFound);
      }
      var i := found.value;
      var items := orders[i].items;
      orders := orders[i := Completed(orders[i], paymentMethod.value)];
      ghost var completed := orders;

      var k := 0;
      while k < |items|
        invariant 0 <= k <= |items|
        invariant orders == completed
        invariant products == AdjustStock(old(products), items[..k], now)
      {
        var item := items[k];
        if item.productId in products {
          var p := products[item.productId];
          products := products[item.productId := p.(stock := p.stock - item.quantity,
                                                    soldCount := p.soldCount + item.quantity,
                                                    soldLastTime := Some(now))];
        }
        assert items[..k + 1][..k] == items[..k];
        k := k + 1;
      }
      assert items[..k] == items;
      r := Ok(());
    }
  }
}
