/**
 * The cashier's sales report (frontend/src/pages/CounterSales.jsx): the
 * orders of one date and the number of items they sold.
 */
module CounterSales {
  import opened Wrappers
  import opened Orders

  const ApiUrl: string := "https://pares-pos.onrender.com"

  /** Sum of the quantities of some items. */
  function QtySum(items: seq<OrderItem>): int
  {
    if items == [] then 0 else items[0].qty + QtySum(items[1..])
  }

  /** The per-order `itemCount`: the quantities of its items added up. */
  function ItemCount(o: Order): int
  {
    QtySum(o.items)
  }

  /**
   * `dailyItemCount`: the nested fold, per order the sum of its item
   * quantities, added over the orders.
   */
  function DailyItemCount(orders: seq<Order>): int
  {
    if orders == [] then 0 else ItemCount(orders[0]) + DailyItemCount(orders[1..])
  }

  /** Every item of every order, in order. */
  function AllItems(orders: seq<Order>): (r: seq<OrderItem>)
  {
    if orders == [] then [] else orders[0].items + AllItems(orders[1..])
  }

  lemma {:induction false} QtySumAppend(a: seq<OrderItem>, b: seq<OrderItem>)
    ensures QtySum(a + b) == QtySum(a) + QtySum(b)
  {
    if a == [] {
      assert a + b == b;
    } else {
      assert (a + b)[1..] == a[1..] + b;
      QtySumAppend(a[1..], b);
    }
  }

  /** The daily count equals the quantity sum over all items sold that day. */
  lemma {:induction false} DailyItemCountFlat(orders: seq<Order>)
    ensures DailyItemCount(orders) == QtySum(AllItems(orders))
  {
    if orders != [] {
      DailyItemCountFlat(orders[1..]);
      QtySumAppend(orders[0].items, AllItems(orders[1..]));
    }
  }

  /** The daily count of two lists of orders is the sum of their counts. */
  lemma {:induction false} DailyItemCountAppend(a: seq<Order>, b: seq<Order>)
    ensures DailyItemCount(a + b) == DailyItemCount(a) + DailyItemCount(b)
  {
    if a == [] {
      assert a + b == b;
    } else {
      assert (a + b)[1..] == a[1..] + b;
      DailyItemCountAppend(a[1..], b);
    }
  }

  /** With every quantity at least 1, an order counts at least one item per line. */
  lemma {:induction false} ItemCountAtLeastLines(items: seq<OrderItem>)
    requires forall i :: 0 <= i < |items| ==> items[i].qty >= 1
    ensures QtySum(items) >= |items|
  {
    if items != [] {
      ItemCountAtLeastLines(items[1..]);
    }
  }

  /** What a press of Search does: the request sent, if any, and the orders shown. */
  datatype Fetch = Fetch(request: Option<string>, orders: seq<Order>)

  /**
   * fetchOrders: an empty date sends nothing and keeps the orders shown; a
   * date requests that day's orders and shows the reply.
   */
  function FetchOrders(date: string, shown: seq<Order>, reply: seq<Order>): (f: Fetch)
    ensures date == "" ==> f.request.None? && f.orders == shown
    ensures date != "" ==> f.request == Some(ApiUrl + "/api/orders?date=" + date) && f.orders == reply
  {
    if date == "" then Fetch(None, shown)
    else Fetch(Some(ApiUrl + "/api/orders?date=" + date), reply)
  }
}
