/**
 * The read handlers over the orders collection: lookup by payment id or order
 * id, lookup by product id, the buyer's paged listing and the two shop-scoped
 * projections. Each is a function of the collection as the store returns it;
 * for the buyer listing that is the collection already in the requested sort
 * order.
 */
module OrderQueries {
  import opened Wrappers
  import opened Sequences
  import opened OrderModel
  import opened OrderWorkflow

  /** An order as a shop sees it: items_of_order, price_of_items and total_to_pay removed, `items` added. */
  datatype ShopOrder = ShopOrder(
    id: Id,
    shippingInfo: Snapshot,
    taxFee: Option<Amount>,
    shippingFee: Option<Amount>,
    orderStatus: OrderStatus,
    paymentStatus: PaymentStatus,
    paymentInfo: PaymentInfo,
    user: BuyerSnapshot,
    createdAt: int,
    items: seq<LineItem>)

  /** A row of the buyer listing: createdAt, _id, both statuses and a preview of the line items. */
  datatype OrderSummary = OrderSummary(
    id: Id,
    createdAt: int,
    orderStatus: OrderStatus,
    paymentStatus: PaymentStatus,
    items: seq<LineItem>)

  datatype BuyerListing = BuyerListing(orders: seq<OrderSummary>, countOrders: nat)

  /** o is the first order of the collection that satisfies p. */
  predicate FirstMatch(orders: seq<Order>, o: Order, p: Order -> bool)
  {
    exists k :: 0 <= k < |orders| && orders[k] == o && p(o) && forall j :: 0 <= j < k ==> !p(orders[j])
  }

  /** r is what findOne(p) answers: the first match, or 404 when nothing matches. */
  predicate FoundFirst(orders: seq<Order>, r: Result<Order>, p: Order -> bool)
  {
    && (r.Ok? ==> FirstMatch(orders, r.value, p))
    && (r.Err? ==> r.error == OrderNotFound && forall k :: 0 <= k < |orders| ==> !p(orders[k]))
  }

  function FindOne(orders: seq<Order>, p: Order -> bool): (r: Result<Order>)
    ensures FoundFirst(orders, r, p)
  {
    match FindFirst(orders, p)
    case None => Err(OrderNotFound)
    case Some(k) => Ok(orders[k])
  }

  /** getOrder: by payment id when one is given, otherwise by order id. */
  function GetOrder(orders: seq<Order>, paymentId: Option<string>, orderId: Option<Id>): (r: Result<Order>)
    ensures !TruthyText(paymentId) && !TruthyText(orderId) ==> r == Err(WrongProperty)
    ensures TruthyText(paymentId) ==> FoundFirst(orders, r, (o: Order) => o.paymentInfo.id == paymentId.value)
    ensures !TruthyText(paymentId) && TruthyText(orderId) ==> FoundFirst(orders, r, (o: Order) => o.id == orderId.value)
  {
    if !TruthyText(paymentId) && !TruthyText(orderId) then Err(WrongProperty)
    else if TruthyText(paymentId) then FindOne(orders, (o: Order) => o.paymentInfo.id == paymentId.value)
    else FindOne(orders, (o: Order) => o.id == orderId.value)
  }

  /** findOrdersWithProductId: every order with a line item naming the product, in collection order. */
  function FindOrdersWithProductId(orders: seq<Order>, productId: Option<Id>): (r: Result<seq<Order>>)
    ensures !TruthyText(productId) ==> r == Err(WrongPropertyName)
    ensures TruthyText(productId) ==>
      && r.Ok?
      && (forall o :: o in r.value <==> o in orders && NamesProduct(o, productId.value))
      && (forall o :: multiset(r.value)[o] == if NamesProduct(o, productId.value) then multiset(orders)[o] else 0)
      && IsSubsequence(r.value, orders)
  {
    if !TruthyText(productId) then Err(WrongPropertyName)
    else
      var found := Filter(orders, WithProduct(productId.value));
      assert forall o :: multiset(found)[o] == if NamesProduct(o, productId.value) then multiset(orders)[o] else 0 by {
        forall o
          ensures multiset(found)[o] == if NamesProduct(o, productId.value) then multiset(orders)[o] else 0
        {
          FilterMultiplicity(orders, WithProduct(productId.value), o);
        }
      }
      Ok(found)
  }

  function WithProduct(productId: Id): Order -> bool
  {
    (o: Order) => NamesProduct(o, productId)
  }

  /** The $filter of the shop projections: the shop's own line items, in order. */
  function ShopItems(items: seq<LineItem>, shopId: Id): seq<LineItem>
  {
    Filter(items, OfShop(shopId))
  }

  function OfShop(shopId: Id): LineItem -> bool
  {
    (it: LineItem) => it.shopId == shopId
  }

  /** The $addFields / $project pipeline applied to one order. */
  function ShopView(o: Order, shopId: Id): (v: ShopOrder)
    ensures v.id == o.id && v.shippingInfo == o.shippingInfo && v.user == o.user && v.createdAt == o.createdAt
    ensures v.taxFee == o.taxFee && v.shippingFee == o.shippingFee
    ensures v.orderStatus == o.orderStatus && v.paymentStatus == o.paymentStatus && v.paymentInfo == o.paymentInfo
    ensures forall it :: it in v.items <==> it in o.items && it.shopId == shopId
    ensures forall it :: multiset(v.items)[it] == if it.shopId == shopId then multiset(o.items)[it] else 0
    ensures IsSubsequence(v.items, o.items)
    ensures v.items == [] <==> !HasShopItem(o, shopId)
  {
    var items := ShopItems(o.items, shopId);
    assert items != [] <==> HasShopItem(o, shopId) by {
      if items != [] {
        assert items[0] in o.items;
      }
      if HasShopItem(o, shopId) {
        var k :| 0 <= k < |o.items| && o.items[k].shopId == shopId;
        assert o.items[k] in items;
      }
    }
    forall it
      ensures multiset(items)[it] == if it.shopId == shopId then multiset(o.items)[it] else 0
    {
      FilterMultiplicity(o.items, OfShop(shopId), it);
    }
    ShopOrder(o.id, o.shippingInfo, o.taxFee, o.shippingFee, o.orderStatus, o.paymentStatus,
              o.paymentInfo, o.user, o.createdAt, items)
  }

  /** getOneOrderForShop: the order with that id, holding only the caller shop's items. */
  function GetOneOrderForShop(orders: seq<Order>, orderId: Option<Id>, shopId: Id): (r: Result<ShopOrder>)
    ensures !TruthyText(orderId) ==> r == Err(WrongPropertyName)
    ensures TruthyText(orderId) ==> (r.Err? <==> !HasId(orders, orderId.value))
    ensures TruthyText(orderId) && r.Err? ==> r.error == OrderNotFound
    ensures r.Ok? ==> exists k :: 0 <= k < |orders| && orders[k].id == orderId.value && r.value == ShopView(orders[k], shopId)
  {
    if !TruthyText(orderId) then Err(WrongPropertyName)
    else match IndexOfId(orders, orderId.value)
      case None => Err(OrderNotFound)
      case Some(k) => Ok(ShopView(orders[k], shopId))
  }

  /** An order the shop has items in that passes the optional order-status filter. */
  predicate ShopMatches(o: Order, shopId: Id, orderStatus: Option<string>)
  {
    HasShopItem(o, shopId) && (!TruthyText(orderStatus) || OrderStatusName(o.orderStatus) == orderStatus.value)
  }

  function ShopFilter(shopId: Id, orderStatus: Option<string>): Order -> bool
  {
    (o: Order) => ShopMatches(o, shopId, orderStatus)
  }

  /** The shop views of every matching order, before paging. */
  function ShopMatching(orders: seq<Order>, shopId: Id, orderStatus: Option<string>): (r: seq<ShopOrder>)
    ensures var matching := Filter(orders, ShopFilter(shopId, orderStatus));
      |r| == |matching| && forall k :: 0 <= k < |r| ==> r[k] == ShopView(matching[k], shopId)
    ensures forall k :: 0 <= k < |r| ==> r[k].items != [] && forall it :: it in r[k].items ==> it.shopId == shopId
    ensures forall k :: 0 <= k < |r| ==>
      TruthyText(orderStatus) ==> OrderStatusName(r[k].orderStatus) == orderStatus.value
    ensures forall o :: o in orders && ShopMatches(o, shopId, orderStatus) ==>
      exists k :: 0 <= k < |r| && r[k] == ShopView(o, shopId)
  {
    var matching := Filter(orders, ShopFilter(shopId, orderStatus));
    var r := seq(|matching|, k requires 0 <= k < |matching| => ShopView(matching[k], shopId));
    forall k | 0 <= k < |r|
      ensures r[k].items != [] && (TruthyText(orderStatus) ==> OrderStatusName(r[k].orderStatus) == orderStatus.value)
    {
      assert matching[k] in matching;
    }
    forall o | o in orders && ShopMatches(o, shopId, orderStatus)
      ensures exists k :: 0 <= k < |r| && r[k] == ShopView(o, shopId)
    {
      assert o in matching;
      var k :| 0 <= k < |matching| && matching[k] == o;
      assert r[k] == ShopView(o, shopId);
    }
    r
  }

  /** getOrdersForShop with the intended slice [begin, begin + limit): filter and project first, then page. */
  function GetOrdersForShop(orders: seq<Order>, shopId: Id, page: Option<Positive>, limit: Option<Positive>,
                            orderStatus: Option<string>): (r: Result<seq<ShopOrder>>)
    ensures page.None? || limit.None? ==> r == Err(WrongPropertyName)
    ensures page.Some? && limit.Some? ==>
      var matching := Filter(orders, ShopFilter(shopId, orderStatus));
      && r.Ok?
      && |r.value| == PageLength(|matching|, page.value, limit.value)
      && |r.value| <= limit.value
      && (forall k :: 0 <= k < |r.value| ==>
            Offset(page.value, limit.value) + k < |matching| &&
            r.value[k] == ShopView(matching[Offset(page.value, limit.value) + k], shopId))
      && (forall k, it :: 0 <= k < |r.value| && it in r.value[k].items ==> it.shopId == shopId)
  {
    if page.None? || limit.None? then Err(WrongPropertyName)
    else Ok(Page(ShopMatching(orders, shopId, orderStatus), page.value, limit.value))
  }

  function Pow10(e: nat): Positive
  {
    if e == 0 then 1 else 10 * Pow10(e - 1)
  }

  /** The number of decimal digits of a positive number: the d with 10^(d-1) <= n < 10^d. */
  function DecimalDigits(n: Positive): (d: nat)
    ensures d >= 1 && Pow10(d - 1) <= n < Pow10(d)
  {
    if n < 10 then 1 else 1 + DecimalDigits(n / 10)
  }

  /**
   * `slice_begin + limit` where limit is still the query string: JavaScript
   * concatenates the decimal texts, and slice reads the result as a number.
   */
  function ConcatenatedEnd(begin: nat, limit: Positive): (e: nat)
    ensures var shift := Pow10(DecimalDigits(limit));
      e / shift == begin && e % shift == limit
    ensures begin == 0 ==> e == limit
    ensures begin > 0 ==> e > begin + limit
  {
    var shift := Pow10(DecimalDigits(limit));
    assert shift == 10 * Pow10(DecimalDigits(limit) - 1);
    ShiftedDigits(begin, shift, limit);
    begin * shift + limit
  }

  /** Writing low after the digits of high: the quotient is high and the remainder low. */
  lemma ShiftedDigits(high: nat, shift: Positive, low: nat)
    requires low < shift
    ensures (high * shift + low) / shift == high && (high * shift + low) % shift == low
    ensures high > 0 && shift > 1 ==> high * shift > high
  {
    if high > 0 {
      AtLeastOneMultiple(high, shift);
    }
    var a := high * shift + low;
    var q, r := a / shift, a % shift;
    assert (high - q) * shift == r - low;
    if high > q {
      AtLeastOneMultiple(high - q, shift);
      assert false;
    } else if high < q {
      assert (q - high) * shift == low - r;
      AtLeastOneMultiple(q - high, shift);
      assert false;
    }
  }

  lemma {:induction false} AtLeastOneMultiple(k: int, d: Positive)
    requires k >= 1
    ensures k * d >= d && k * d >= k
    ensures d > 1 ==> k * d > k
    decreases k
  {
    if k > 1 {
      AtLeastOneMultiple(k - 1, d);
      assert k * d == (k - 1) * d + d;
    }
  }

  /** getOrdersForShop as written: the slice ends at the concatenated text, not begin + limit. */
  function GetOrdersForShopAsWritten(orders: seq<Order>, shopId: Id, page: Option<Positive>, limit: Option<Positive>,
                                     orderStatus: Option<string>): (r: Result<seq<ShopOrder>>)
    ensures page.Some? && page.value == 1 ==> r == GetOrdersForShop(orders, shopId, page, limit, orderStatus)
  {
    if page.None? || limit.None? then Err(WrongPropertyName)
    else
      var begin := Offset(page.value, limit.value);
      assert page.value == 1 ==> begin == 0 && ConcatenatedEnd(begin, limit.value) == limit.value;
      Ok(Slice(ShopMatching(orders, shopId, orderStatus), begin, ConcatenatedEnd(begin, limit.value)))
  }

  /**
   * With five matching orders, page 2 of size 2 as written returns the three
   * orders at positions 2 to 4, where two are intended.
   */
  lemma ShopPageTwoOverflows(orders: seq<Order>, shopId: Id)
    requires |orders| == 5
    requires forall k :: 0 <= k < |orders| ==> HasShopItem(orders[k], shopId)
    ensures |GetOrdersForShopAsWritten(orders, shopId, Some(2), Some(2), None).value| == 3
    ensures |GetOrdersForShop(orders, shopId, Some(2), Some(2), None).value| == 2
  {
    FilterKeepsAll(orders, ShopFilter(shopId, None));
    assert ConcatenatedEnd(2, 2) == 22;
  }

  /**
   * Every page after the first, as written, returns more than limit orders
   * whenever enough orders follow the page start.
   */
  lemma AsWrittenOverflowsLaterPages(orders: seq<Order>, shopId: Id, page: Positive, limit: Positive,
                                     orderStatus: Option<string>)
    requires page > 1
    requires |ShopMatching(orders, shopId, orderStatus)| > Offset(page, limit) + limit
    ensures |GetOrdersForShopAsWritten(orders, shopId, Some(page), Some(limit), orderStatus).value| > limit
    ensures |GetOrdersForShop(orders, shopId, Some(page), Some(limit), orderStatus).value| == limit
  {
    var matching := ShopMatching(orders, shopId, orderStatus);
    var begin := Offset(page, limit);
    AtLeastOneMultiple(page - 1, limit);
    assert begin > 0;
    var end := ConcatenatedEnd(begin, limit);
    assert end > begin + limit;
    assert GetOrdersForShopAsWritten(orders, shopId, Some(page), Some(limit), orderStatus).value == Slice(matching, begin, end);
    assert GetOrdersForShop(orders, shopId, Some(page), Some(limit), orderStatus).value == Page(matching, page, limit);
  }

  /** A status string that names no order status filters out every order of the shop listing. */
  lemma UnknownOrderStatusListsNothing(orders: seq<Order>, shopId: Id, page: Positive, limit: Positive, orderStatus: string)
    requires orderStatus != "" && forall st :: OrderStatusName(st) != orderStatus
    ensures GetOrdersForShop(orders, shopId, Some(page), Some(limit), Some(orderStatus)) == Ok([])
  {
    FilterKeepsNone(orders, ShopFilter(shopId, Some(orderStatus)));
  }

  /** The buyer listing's filter: the caller's orders, optionally of one payment status. */
  predicate BuyerMatches(o: Order, buyerId: Id, paymentStatus: Option<string>)
  {
    o.user.id == buyerId && (!TruthyText(paymentStatus) || PaymentStatusName(o.paymentStatus) == paymentStatus.value)
  }

  function BuyerFilter(buyerId: Id, paymentStatus: Option<string>): Order -> bool
  {
    (o: Order) => BuyerMatches(o, buyerId, paymentStatus)
  }

  /** The projection of the buyer listing, with $slice [items_of_order, 0, 2]. */
  function Summary(o: Order): (s: OrderSummary)
    ensures s.id == o.id && s.createdAt == o.createdAt
    ensures s.orderStatus == o.orderStatus && s.paymentStatus == o.paymentStatus
    ensures |s.items| == (if |o.items| < 2 then |o.items| else 2)
    ensures s.items == o.items[..|s.items|]
  {
    OrderSummary(o.id, o.createdAt, o.orderStatus, o.paymentStatus,
                 if |o.items| < 2 then o.items else o.items[..2])
  }

  /** getOrders: one page of the caller's orders as summaries, and the count of all of them. */
  function GetOrders(sorted: seq<Order>, buyerId: Id, page: Option<Positive>, limit: Option<Positive>,
                     paymentStatus: Option<string>): (r: Result<BuyerListing>)
    ensures page.None? || limit.None? ==> r == Err(WrongPropertyName)
    ensures page.Some? && limit.Some? ==>
      var matching := Filter(sorted, BuyerFilter(buyerId, paymentStatus));
      && r.Ok?
      && r.value.countOrders == |matching|
      && |r.value.orders| == PageLength(|matching|, page.value, limit.value)
      && |r.value.orders| <= limit.value
      && (forall k :: 0 <= k < |r.value.orders| ==>
            Offset(page.value, limit.value) + k < |matching| &&
            r.value.orders[k] == Summary(matching[Offset(page.value, limit.value) + k]))
  {
    if page.None? || limit.None? then Err(WrongPropertyName)
    else
      var matching := Filter(sorted, BuyerFilter(buyerId, paymentStatus));
      var rows := Page(matching, page.value, limit.value);
      Ok(BuyerListing(seq(|rows|, k requires 0 <= k < |rows| => Summary(rows[k])), |matching|))
  }

  /**
   * Five orders of one buyer, pages of two: page 1 holds the first two,
   * page 3 only the fifth, and the count is five on every page.
   */
  lemma BuyerPagingOfFive(sorted: seq<Order>, buyerId: Id)
    requires |sorted| == 5
    requires forall k :: 0 <= k < |sorted| ==> sorted[k].user.id == buyerId
    ensures var first := GetOrders(sorted, buyerId, Some(1), Some(2), None).value;
      first.countOrders == 5 && first.orders == [Summary(sorted[0]), Summary(sorted[1])]
    ensures var third := GetOrders(sorted, buyerId, Some(3), Some(2), None).value;
      third.countOrders == 5 && third.orders == [Summary(sorted[4])]
  {
    FilterKeepsAll(sorted, BuyerFilter(buyerId, None));
    var first := GetOrders(sorted, buyerId, Some(1), Some(2), None).value;
    assert |first.orders| == 2;
    assert first.orders[0] == Summary(sorted[0]) && first.orders[1] == Summary(sorted[1]);
    var third := GetOrders(sorted, buyerId, Some(3), Some(2), None).value;
    assert Offset(3, 2) == 4;
    assert |third.orders| == 1;
    assert third.orders[0] == Summary(sorted[4]);
  }

  /** Every matching order of the buyer is listed on page k / limit + 1, at row k % limit. */
  lemma BuyerOrderIsListed(sorted: seq<Order>, buyerId: Id, paymentStatus: Option<string>, limit: Positive, k: nat)
    requires k < |Filter(sorted, BuyerFilter(buyerId, paymentStatus))|
    ensures var rows := GetOrders(sorted, buyerId, Some(k / limit + 1), Some(limit), paymentStatus).value.orders;
      k % limit < |rows| && rows[k % limit] == Summary(Filter(sorted, BuyerFilter(buyerId, paymentStatus))[k])
  {
    PageCovers(Filter(sorted, BuyerFilter(buyerId, paymentStatus)), limit, k);
  }

  /** A payment-status string that names no payment status empties the buyer listing and its count. */
  lemma UnknownPaymentStatusListsNothing(sorted: seq<Order>, buyerId: Id, page: Positive, limit: Positive,
                                         paymentStatus: string)
    requires paymentStatus != "" && forall st :: PaymentStatusName(st) != paymentStatus
    ensures var r := GetOrders(sorted, buyerId, Some(page), Some(limit), Some(paymentStatus));
      r.Ok? && r.value.orders == [] && r.value.countOrders == 0
  {
    FilterKeepsNone(sorted, BuyerFilter(buyerId, Some(paymentStatus)));
  }

  /** A placed order is found by its id, still uncompleted and with payment processing. */
  lemma PlacedOrderResolves(orders: seq<Order>, draft: OrderDraft, caller: Caller,
                            paymentId: string, clientSecret: string, id: Id, now: int)
    requires id != "" && !HasId(orders, id)
    ensures var r := GetOrder(orders + [NewOrder(draft, caller, paymentId, clientSecret, id, now)], None, Some(id));
      && r.Ok?
      && r.value.id == id
      && r.value.orderStatus == Uncompleted
      && r.value.paymentStatus == PaymentProcessing
      && r.value.paymentInfo == PaymentInfo(paymentId, "none", clientSecret)
      && r.value.user == BuyerSnapshot(caller.id, caller.email, caller.name, caller.avatar)
      && r.value.items == draft.items
  {
    var all := orders + [NewOrder(draft, caller, paymentId, clientSecret, id, now)];
    var r := GetOrder(all, None, Some(id));
    assert all[|orders|].id == id;
    forall j | 0 <= j < |orders|
      ensures all[j].id != id
    {
      assert all[j] == orders[j];
    }
  }

  /** After completion the order is found by its id as succeeded / processing, with the new method. */
  lemma CompletedOrderResolves(orders: seq<Order>, i: nat, paymentMethod: string)
    requires UniqueIds(orders) && i < |orders| && orders[i].id != ""
    ensures var r := GetOrder(orders[i := Completed(orders[i], paymentMethod)], None, Some(orders[i].id));
      && r.Ok?
      && r.value.paymentStatus == Succeeded
      && r.value.orderStatus == Processing
      && r.value.paymentInfo.paymentMethod == paymentMethod
      && r.value.items == orders[i].items
  {
    var after := orders[i := Completed(orders[i], paymentMethod)];
    assert UniqueIds(after);
    IndexOfIdUnique(after, i);
  }

  /** A shop with no items in an existing order gets the order back with an empty item list, not 404. */
  lemma ShopWithoutItemsSeesEmptyOrder(orders: seq<Order>, k: nat, shopId: Id)
    requires UniqueIds(orders) && k < |orders| && orders[k].id != ""
    requires !HasShopItem(orders[k], shopId)
    ensures var r := GetOneOrderForShop(orders, Some(orders[k].id), shopId);
      r.Ok? && r.value.id == orders[k].id && r.value.items == []
  {
    IndexOfIdUnique(orders, k);
  }
}
