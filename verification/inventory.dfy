/**
 * The product stock table that completing an order adjusts: one bulkWrite of
 * updateOne operations, one per line item, each filtering on the product id and
 * applying $inc { stock: -quantity, sold.count: quantity } and setting
 * sold.is_sold_last_time. An operation whose id matches no product changes
 * nothing (no upsert), and the operations run in line-item order.
 */
module Inventory {
  import opened Wrappers
  import opened OrderModel

  /** The fields of a product document that the order workflow touches. */
  datatype Product = Product(stock: int, soldCount: int, soldLastTime: Option<int>)

  /** One updateOne of the batch. */
  function ApplyItem(products: map<Id, Product>, item: LineItem, now: int): (r: map<Id, Product>)
    ensures r.Keys == products.Keys
    ensures forall id :: id in products && id != item.productId ==> r[id] == products[id]
    ensures item.productId in products ==>
      var p := products[item.productId];
      r[item.productId] == Product(p.stock - item.quantity, p.soldCount + item.quantity, Some(now))
  {
    if item.productId in products then
      var p := products[item.productId];
      products[item.productId := p.(stock := p.stock - item.quantity,
                                    soldCount := p.soldCount + item.quantity,
                                    soldLastTime := Some(now))]
    else products
  }

  /** The whole batch, applied in line-item order. */
  function AdjustStock(products: map<Id, Product>, items: seq<LineItem>, now: int): (r: map<Id, Product>)
    ensures r.Keys == products.Keys
    decreases |items|
  {
    if items == [] then products
    else ApplyItem(AdjustStock(products, items[..|items| - 1], now), items[|items| - 1], now)
  }

  /** The total quantity of the line items that name the product. */
  function QuantityOf(items: seq<LineItem>, productId: Id): int
    decreases |items|
  {
    if items == [] then 0
    else
      var last := items[|items| - 1];
      QuantityOf(items[..|items| - 1], productId) + (if last.productId == productId then last.quantity else 0)
  }

  /** Some line item names the product. */
  predicate Named(items: seq<LineItem>, productId: Id)
  {
    exists k :: 0 <= k < |items| && items[k].productId == productId
  }

  /**
   * The effect of the batch on one product: no product appears or disappears;
   * a product's stock drops and its sold count rises by the total quantity
   * ordered of it, with no lower bound on stock; its last-sold time is `now`
   * exactly when some line item names it; a product no line item names is unchanged.
   */
  lemma {:induction false} AdjustStockEffect(products: map<Id, Product>, items: seq<LineItem>, now: int, id: Id)
    ensures var after := AdjustStock(products, items, now);
      (id in after <==> id in products) &&
      (id in products ==>
        && after[id].stock == products[id].stock - QuantityOf(items, id)
        && after[id].soldCount == products[id].soldCount + QuantityOf(items, id)
        && after[id].soldLastTime == (if Named(items, id) then Some(now) else products[id].soldLastTime)) &&
      (id in products && !Named(items, id) ==> after[id] == products[id])
    decreases |items|
  {
    if items != [] {
      var init := items[..|items| - 1];
      var last := items[|items| - 1];
      AdjustStockEffect(products, init, now, id);
      assert Named(items, id) <==> Named(init, id) || last.productId == id by {
        if Named(items, id) {
          var k :| 0 <= k < |items| && items[k].productId == id;
          if k < |items| - 1 {
            assert init[k] == items[k];
          }
        }
        if Named(init, id) {
          var k :| 0 <= k < |init| && init[k].productId == id;
          assert items[k] == init[k];
        }
      }
      if !Named(items, id) {
        NotNamedQuantityZero(items, id);
      }
    } else {
      assert !Named(items, id);
    }
  }

  /** Items that do not name a product add nothing to its quantity. */
  lemma {:induction false} NotNamedQuantityZero(items: seq<LineItem>, id: Id)
    requires !Named(items, id)
    ensures QuantityOf(items, id) == 0
    decreases |items|
  {
    if items != [] {
      var init := items[..|items| - 1];
      forall k | 0 <= k < |init|
        ensures init[k].productId != id
      {
        assert init[k] == items[k];
      }
      NotNamedQuantityZero(init, id);
    }
  }

  /**
   * Nothing guards against completing an order twice: a second batch over the
   * same line items takes the quantity off the stock again.
   */
  lemma RepeatedAdjustmentDecrementsTwice(products: map<Id, Product>, items: seq<LineItem>, t1: int, t2: int, id: Id)
    requires id in products
    ensures var twice := AdjustStock(AdjustStock(products, items, t1), items, t2);
      id in twice &&
      twice[id].stock == products[id].stock - 2 * QuantityOf(items, id) &&
      twice[id].soldCount == products[id].soldCount + 2 * QuantityOf(items, id)
  {
    AdjustStockEffect(products, items, t1, id);
    AdjustStockEffect(AdjustStock(products, items, t1), items, t2, id);
  }
}
