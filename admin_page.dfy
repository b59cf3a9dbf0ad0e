/**
 * The admin dashboard (frontend/src/pages/AdminPage.jsx): the orders of the
 * chosen date and their peso total.
 */
module AdminPage {
  import opened Wrappers
  import opened Orders
  import OrderController

  const OrdersBase: string := "http://localhost:5000/api/orders"
  const DateQuery: string := "?date="

  /** fetchOrders' URL: the base, with `?date=` and the date when one is chosen. */
  function OrdersUrl(date: string): (url: string)
    ensures |url| >= |OrdersBase| && url[..|OrdersBase|] == OrdersBase
    ensures date == "" <==> url == OrdersBase
    ensures date != "" ==> url[|OrdersBase|..] == DateQuery + date
  {
    if date == "" then OrdersBase else OrdersBase + DateQuery + date
  }

  /** The date a dashboard URL asks for ("" for none). */
  function DateOf(url: string): string
  {
    var n := |OrdersBase| + |DateQuery|;
    if |url| > n && url[..n] == OrdersBase + DateQuery then url[n..] else ""
  }

  /** The URL carries exactly the chosen date, so distinct dates give distinct URLs. */
  lemma DateRoundTrip(date: string)
    ensures DateOf(OrdersUrl(date)) == date
  {
    if date != "" {
      var url := OrdersBase + DateQuery + date;
      var n := |OrdersBase| + |DateQuery|;
      assert url[..n] == OrdersBase + DateQuery;
      assert url[n..] == date;
    }
  }

  /** What the dashboard shows. */
  datatype Dashboard = Dashboard(orders: seq<Order>, salesTotal: int)

  /** The total shown is the total of the orders shown. */
  predicate Consistent(v: Dashboard)
  {
    v.salesTotal == SalesTotal(v.orders)
  }

  const Initial: Dashboard := Dashboard([], 0)

  /**
   * fetchOrders' state update: on a reply both the total and the list come
   * from it; a failed fetch (None) changes nothing.
   */
  function Refresh(v: Dashboard, reply: Option<seq<Order>>): (w: Dashboard)
    ensures reply.None? ==> w == v
    ensures reply.Some? ==> w.orders == reply.value && Consistent(w)
  {
    if reply.None? then v else Dashboard(reply.value, SalesTotal(reply.value))
  }

  /** The dashboard starts consistent and every refresh keeps it so. */
  lemma RefreshKeepsConsistent(v: Dashboard, reply: Option<seq<Order>>)
    requires Consistent(v)
    ensures Consistent(Initial) && Consistent(Refresh(v, reply))
  {
  }

  /**
   * Showing a day's listing from the store displays the total of exactly the
   * orders in that business day's window, whatever order they arrive in.
   */
  lemma DailyDashboardTotal(store: seq<Order>, day: int, listing: seq<Order>, v: Dashboard)
    requires multiset(listing) == multiset(OrderController.Select(store,
      OrderController.Between(OrderController.WindowStart(day), OrderController.WindowEnd(day))))
    ensures Refresh(v, Some(listing)).salesTotal ==
      SalesTotal(OrderController.Select(store,
        OrderController.Between(OrderController.WindowStart(day), OrderController.WindowEnd(day))))
  {
    OrderController.DayListingTotal(store, day, listing);
  }
}
