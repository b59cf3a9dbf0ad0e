/**
 * The persisted order record and the folds over orders that the sales
 * views share: the peso total of a list of orders.
 */
module Orders {

  /** One sold line as the order schema keeps it: a snapshot, not a product reference. */
  datatype OrderItem = OrderItem(name: string, price: int, qty: int)

  /**
   * A stored order. `date` and `time` are instants in milliseconds since the
   * epoch; `id` is the store's generated identifier.
   */
  datatype Order = Order(
    id: string,
    items: seq<OrderItem>,
    total: int,
    cash: int,
    change: int,
    cashier: string,
    date: int,
    time: int)

  /** The JSON body of a new order: the fields createOrder reads. */
  datatype OrderBody = OrderBody(items: seq<OrderItem>, total: int, cash: int, change: int, cashier: string)

  /** Sum of price times quantity over the items of an order. */
  function ItemsTotal(items: seq<OrderItem>): int
  {
    if items == [] then 0 else items[0].price * items[0].qty + ItemsTotal(items[1..])
  }

  /**
   * The peso total of a list of orders: `reduce((sum, o) => sum + o.total, 0)`.
   * The source folds from the left; integer addition is associative, so
   * folding from the front gives the same value.
   */
  function SalesTotal(orders: seq<Order>): int
  {
    if orders == [] then 0 else orders[0].total + SalesTotal(orders[1..])
  }

  lemma {:induction false} SalesTotalAppend(a: seq<Order>, b: seq<Order>)
    ensures SalesTotal(a + b) == SalesTotal(a) + SalesTotal(b)
  {
    if a == [] {
      assert a + b == b;
    } else {
      assert (a + b)[1..] == a[1..] + b;
      SalesTotalAppend(a[1..], b);
    }
  }

  lemma SalesTotalCons(x: Order, r: seq<Order>)
    ensures SalesTotal([x] + r) == x.total + SalesTotal(r)
  {
    assert ([x] + r)[1..] == r;
  }

  /** `b` is its part before `k`, its element at `k` and its part after `k`. */
  lemma SplitAt<T>(b: seq<T>, k: int)
    requires 0 <= k < |b|
    ensures b == b[..k] + ([b[k]] + b[k + 1..])
  {
  }

  /** Taking out the order at `k` takes its total out of the sum. */
  lemma SalesTotalRemove(b: seq<Order>, k: int)
    requires 0 <= k < |b|
    ensures SalesTotal(b) == b[k].total + SalesTotal(b[..k] + b[k + 1..])
  {
    var left, right := b[..k], b[k + 1..];
    SplitAt(b, k);
    SalesTotalAppend(left, [b[k]] + right);
    SalesTotalCons(b[k], right);
    SalesTotalAppend(left, right);
  }

  /** Taking out the element at `k` takes one copy of it out of the multiset. */
  lemma MultisetCut<T>(b: seq<T>, k: int)
    requires 0 <= k < |b|
    ensures multiset(b[..k] + b[k + 1..]) == multiset(b) - multiset{b[k]}
  {
    SplitAt(b, k);
  }

  /** Taking off the head takes one copy of it out of the multiset. */
  lemma MultisetTail<T>(a: seq<T>)
    requires a != []
    ensures multiset(a[1..]) == multiset(a) - multiset{a[0]}
    ensures a[0] in multiset(a)
  {
    assert a == [a[0]] + a[1..];
  }

  /** Sequences with one multiset have the same elements. */
  lemma SameMembers<T>(a: seq<T>, b: seq<T>)
    requires multiset(a) == multiset(b)
    ensures forall x :: x in a <==> x in b
  {
    forall x ensures x in a <==> x in b {
      assert x in a <==> x in multiset(a);
      assert x in b <==> x in multiset(b);
    }
  }

  /** An element of the multiset of `b` stands at some index of `b`. */
  lemma IndexOf<T>(x: T, b: seq<T>) returns (k: int)
    requires x in multiset(b)
    ensures 0 <= k < |b| && b[k] == x
  {
    assert x in b;
    k :| 0 <= k < |b| && b[k] == x;
  }

  /** Reordering the orders (as a sort does) does not change their total. */
  lemma {:induction false} SalesTotalPermutation(a: seq<Order>, b: seq<Order>)
    requires multiset(a) == multiset(b)
    ensures SalesTotal(a) == SalesTotal(b)
  {
    if a == [] {
      assert |b| == |multiset(b)| == 0;
    } else {
      MultisetTail(a);
      var k := IndexOf(a[0], b);
      SalesTotalRemove(b, k);
      MultisetCut(b, k);
      SalesTotalPermutation(a[1..], b[..k] + b[k + 1..]);
    }
  }
}
