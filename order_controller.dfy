/**
 * The order endpoints (backend/src/controllers/orderController.js): saving
 * a posted order and listing orders, optionally restricted to one business
 * day in UTC+08:00, newest first.
 */
module OrderController {
  import opened Wrappers
  import opened Orders

  /** Milliseconds in a day. */
  const DayMs: int := 86400000
  /** The +08:00 offset of the business day, in milliseconds. */
  const OffsetMs: int := 8 * 3600000
  /** 23:59:59 after midnight, in milliseconds. */
  const LastSecondMs: int := (23 * 3600 + 59 * 60 + 59) * 1000

  /**
   * The instant of `D 00:00:00+08:00` (the date-time-with-offset form of
   * section 5.6 of RFC 3339), where `day` counts days since 1970-01-01.
   */
  function WindowStart(day: int): (t: int)
    ensures ManilaDay(t) == day && (t + OffsetMs) % DayMs == 0
  {
    day * DayMs - OffsetMs
  }

  /** The instant of `D 23:59:59+08:00`. */
  function WindowEnd(day: int): (t: int)
    ensures ManilaDay(t) == day && (t + OffsetMs) % DayMs == DayMs - 1000
  {
    WindowStart(day) + LastSecondMs
  }

  /** The query filter: empty, or `{ date: { $gte: start, $lte: end } }`. */
  datatype DateFilter = AllDates | Between(start: int, end: int)

  predicate Admits(f: DateFilter, o: Order)
  {
    f.AllDates? || f.start <= o.date <= f.end
  }

  /** The orders the filter admits, in store order. */
  function Select(orders: seq<Order>, f: DateFilter): (r: seq<Order>)
    ensures |r| <= |orders|
    ensures forall o :: o in r <==> o in orders && Admits(f, o)
  {
    if orders == [] then []
    else if Admits(f, orders[0]) then [orders[0]] + Select(orders[1..], f)
    else Select(orders[1..], f)
  }

  /** The empty filter selects the whole store. */
  lemma {:induction false} SelectAll(orders: seq<Order>)
    ensures Select(orders, AllDates) == orders
  {
    if orders != [] {
      SelectAll(orders[1..]);
      assert orders == [orders[0]] + orders[1..];
    }
  }

  /** An instant belongs to business day `day` (both bounds inclusive). */
  predicate InDay(day: int, t: int)
  {
    WindowStart(day) <= t <= WindowEnd(day)
  }

  /** The window of day D ends just under one second before the window of D + 1 starts. */
  lemma WindowGap(day: int)
    ensures WindowStart(day + 1) - WindowEnd(day) == 1000
    ensures WindowEnd(day) - WindowStart(day) == DayMs - 1000
  {
  }

  /** No instant belongs to two business days. */
  lemma WindowsDisjoint(d: int, e: int, t: int)
    requires d != e && InDay(d, t)
    ensures !InDay(e, t)
  {
    if e > d {
      assert WindowStart(e) >= WindowStart(d + 1);
    } else {
      assert WindowEnd(e) <= WindowEnd(d - 1);
    }
  }

  /** An instant strictly inside the gap after day D is in no day's window. */
  lemma GapInNoDay(d: int, e: int, t: int)
    requires WindowEnd(d) < t < WindowStart(d + 1)
    ensures !InDay(e, t)
  {
    if e > d {
      assert WindowStart(e) >= WindowStart(d + 1);
    } else {
      assert WindowEnd(e) <= WindowEnd(d);
    }
  }

  /** An order at 23:59:59.500 local time falls in no daily listing. */
  lemma HalfSecondBeforeMidnight(d: int, e: int)
    ensures !InDay(e, WindowEnd(d) + 500)
  {
    GapInNoDay(d, e, WindowEnd(d) + 500);
  }

  /*
   * The timestamp createOrder stores.
   */

  /** The instant cut to whole seconds, the precision `toLocaleString` keeps. */
  function WholeSecond(t: int): int
  {
    t / 1000 * 1000
  }

  /**
   * The instant stored as written: the Manila wall-clock reading of `clock`,
   * to the second, parsed back as a wall-clock reading of the server's own
   * zone, which lies `serverOffset` milliseconds east of UTC.
   */
  function StampAsWritten(clock: int, serverOffset: int): (t: int)
    ensures t - Stamp(clock) == OffsetMs - serverOffset
  {
    WholeSecond(clock) + OffsetMs - serverOffset
  }

  /** The instant evidently meant: the moment of the order, to the second. */
  function Stamp(clock: int): (t: int)
    ensures t <= clock < t + 1000 && t % 1000 == 0
  {
    WholeSecond(clock)
  }

  /** The Manila calendar day, counted from 1970-01-01, that instant `t` falls in. */
  function ManilaDay(t: int): int
  {
    (t + OffsetMs) / DayMs
  }

  /** Every intended stamp is listed under the Manila day of its order. */
  lemma StampListedUnderItsDay(clock: int)
    ensures InDay(ManilaDay(clock), Stamp(clock))
  {
    var sec := clock / 1000;
    var m := sec + OffsetMs / 1000;
    var d := m / 86400;
    var q := m % 86400;
    assert clock + OffsetMs == d * DayMs + (q * 1000 + clock % 1000);
    assert 0 <= q * 1000 + clock % 1000 < DayMs;
    assert ManilaDay(clock) == d;
    assert Stamp(clock) == d * DayMs - OffsetMs + q * 1000;
  }

  /** On a server kept in Manila time the stamp as written is the intended one. */
  lemma StampInManilaZone(clock: int)
    ensures StampAsWritten(clock, OffsetMs) == Stamp(clock)
  {
  }

  /**
   * On a server kept in UTC, an order taken at 17:00 Manila time on day 20000
   * (2024-10-04) is stored eight hours late and listed under the next day.
   */
  lemma StampAsWrittenMisfiled()
    ensures var clock := WindowStart(20000) + 17 * 3600000;
      ManilaDay(clock) == 20000
      && !InDay(20000, StampAsWritten(clock, 0)) && InDay(20001, StampAsWritten(clock, 0))
      && InDay(20000, Stamp(clock))
  {
    var clock := WindowStart(20000) + 17 * 3600000;
    assert clock + OffsetMs == 20000 * DayMs + 17 * 3600000;
    assert WholeSecond(clock) == clock;
  }

  /** Newest first: `sort({ date: -1 })`. */
  predicate SortedByDateDesc(s: seq<Order>)
  {
    forall i, j :: 0 <= i < j < |s| ==> s[i].date >= s[j].date
  }

  /** Every order of `s` is no newer than `date`. */
  predicate NoNewerThan(date: int, s: seq<Order>)
  {
    forall i :: 0 <= i < |s| ==> s[i].date <= date
  }

  lemma NoNewerPermutation(date: int, o: Order, t: seq<Order>, r: seq<Order>)
    requires multiset(r) == multiset{o} + multiset(t)
    requires o.date <= date && NoNewerThan(date, t)
    ensures NoNewerThan(date, r)
  {
    forall i | 0 <= i < |r| ensures r[i].date <= date {
      assert r[i] in multiset(r);
      if r[i] != o {
        assert r[i] in multiset(t);
        var j :| 0 <= j < |t| && t[j] == r[i];
      }
    }
  }

  /** An order no older than any of a newest-first list may go in front of it. */
  lemma ConsSorted(x: Order, s: seq<Order>)
    requires SortedByDateDesc(s) && NoNewerThan(x.date, s)
    ensures SortedByDateDesc([x] + s)
  {
    forall i, j | 0 <= i < j < |[x] + s| ensures ([x] + s)[i].date >= ([x] + s)[j].date {
      if i > 0 {
        assert ([x] + s)[i] == s[i - 1];
      }
      assert ([x] + s)[j] == s[j - 1];
    }
  }

  /** The head of a newest-first list is its newest order. */
  lemma HeadNewest(s: seq<Order>)
    requires SortedByDateDesc(s)
    ensures s != [] ==> NoNewerThan(s[0].date, s)
  {
  }

  function InsertByDate(o: Order, s: seq<Order>): (r: seq<Order>)
    requires SortedByDateDesc(s)
    ensures SortedByDateDesc(r)
    ensures multiset(r) == multiset{o} + multiset(s)
  {
    if s == [] || o.date >= s[0].date then
      HeadNewest(s);
      ConsSorted(o, s);
      [o] + s
    else
      var rest := InsertByDate(o, s[1..]);
      HeadNewest(s);
      assert NoNewerThan(s[0].date, s[1..]);
      NoNewerPermutation(s[0].date, o, s[1..], rest);
      ConsSorted(s[0], rest);
      assert s == [s[0]] + s[1..];
      [s[0]] + rest
  }

  /** A newest-first permutation of `s`. */
  function SortByDateDesc(s: seq<Order>): (r: seq<Order>)
    ensures SortedByDateDesc(r)
    ensures multiset(r) == multiset(s)
  {
    if s == [] then []
    else
      assert s == [s[0]] + s[1..];
      InsertByDate(s[0], SortByDateDesc(s[1..]))
  }

  /** The reply of createOrder and getOrders. */
  datatype OrderReply = Created(order: Order) | Listed(orders: seq<Order>) | ServerError(message: string)
  {
    function Status(): int
    {
      match this
      case Created(_) => 201
      case Listed(_) => 200
      case ServerError(_) => 500
    }
  }

  /**
   * The document createOrder saves: the five body fields exactly as
   * received (neither total nor change is checked) and one timestamp used
   * for both `date` and `time`.
   */
  function NewOrder(body: OrderBody, id: string, now: int): (o: Order)
    ensures o.items == body.items && o.total == body.total && o.cash == body.cash
    ensures o.change == body.change && o.cashier == body.cashier
    ensures o.id == id && o.date == now && o.time == o.date
  {
    Order(id, body.items, body.total, body.cash, body.change, body.cashier, now, now)
  }

  /** The order collection, in insertion order. */
  class Ledger {
    var orders: seq<Order>

    constructor ()
      ensures orders == []
    {
      orders := [];
    }

    /**
     * createOrder: `clock` is the server's clock, stamped with the intended
     * Stamp (see StampAsWritten for the code's own), `id` the generated
     * `_id`, and `saveOk` whether the store accepted the write.
     */
    method CreateOrder(body: OrderBody, id: string, clock: int, saveOk: bool) returns (reply: OrderReply)
      modifies this
      ensures saveOk ==> reply == Created(NewOrder(body, id, Stamp(clock))) && orders == old(orders) + [reply.order]
      ensures !saveOk ==> reply == ServerError("Server error") && orders == old(orders)
      ensures reply.Status() == if saveOk then 201 else 500
    {
      var order := NewOrder(body, id, Stamp(clock));
      if saveOk {
        orders := orders + [order];
        reply := Created(order);
      } else {
        reply := ServerError("Server error");
      }
    }

    /**
     * getOrders: with no date every order; with day D exactly the orders
     * whose instant lies in [D 00:00:00+08:00, D 23:59:59+08:00]; newest first.
     * `findOk` is whether the query succeeded; a failed one replies 500
     * "Server error".
     */
    method GetOrders(date: Option<int>, findOk: bool) returns (reply: OrderReply)
      ensures !findOk ==> reply == ServerError("Server error") && reply.Status() == 500
      ensures findOk ==> reply.Listed? && reply.Status() == 200
      ensures reply.Listed? ==> SortedByDateDesc(reply.orders)
      ensures reply.Listed? && date.None? ==> multiset(reply.orders) == multiset(orders)
      ensures reply.Listed? && date.Some? ==>
        multiset(reply.orders)
        == multiset(Select(orders, Between(WindowStart(date.value), WindowEnd(date.value))))
      ensures reply.Listed? ==>
        forall o :: o in reply.orders <==> o in orders && (date.Some? ==> InDay(date.value, o.date))
    {
      if !findOk {
        return ServerError("Server error");
      }
      var filter := AllDates;
      if date.Some? {
        var start := WindowStart(date.value);
        var end := WindowEnd(date.value);
        filter := Between(start, end);
      }
      var found := Select(orders, filter);
      var r := SortByDateDesc(found);
      SelectAll(orders);
      SameMembers(r, found);
      reply := Listed(r);
    }
  }

  /** The peso total of a day's listing is the total of the orders in that day's window. */
  lemma DayListingTotal(orders: seq<Order>, day: int, r: seq<Order>)
    requires multiset(r) == multiset(Select(orders, Between(WindowStart(day), WindowEnd(day))))
    ensures SalesTotal(r) == SalesTotal(Select(orders, Between(WindowStart(day), WindowEnd(day))))
  {
    SalesTotalPermutation(r, Select(orders, Between(WindowStart(day), WindowEnd(day))));
  }
}
