/**
 * The cashier's counter screen (frontend/src/pages/CounterPOS.jsx): the cart
 * as a sequence of lines keyed by product id, its running total, the cash
 * field with its change, the checkout guard and the daily sales panel.
 */
module CounterPOS {
  import opened Wrappers
  import opened ProductModel
  import opened Orders

  /** A cart line: the product as it was when first added, and a quantity. */
  datatype CartLine = CartLine(product: Product, qty: int)

  function LineTotal(l: CartLine): int
  {
    l.product.price * l.qty
  }

  /** Some line of `cart` is for product `id` (`cart.find(i => i._id === id)`). */
  predicate HasLine(cart: seq<CartLine>, id: string)
  {
    exists i :: 0 <= i < |cart| && cart[i].product.id == id
  }

  /** At most one line per product id, and no quantity below 1. */
  predicate WellFormed(cart: seq<CartLine>)
  {
    && (forall i, j :: 0 <= i < j < |cart| ==> cart[i].product.id != cart[j].product.id)
    && (forall i :: 0 <= i < |cart| ==> cart[i].qty >= 1)
  }

  /** increaseQty: one more of every line for `id`; the other lines as they were. */
  function WithIncreased(cart: seq<CartLine>, id: string): (r: seq<CartLine>)
    ensures |r| == |cart|
    ensures forall i :: 0 <= i < |cart| ==>
      r[i].product == cart[i].product
      && r[i].qty == if cart[i].product.id == id then cart[i].qty + 1 else cart[i].qty
  {
    if cart == [] then []
    else
      var head := if cart[0].product.id == id then cart[0].(qty := cart[0].qty + 1) else cart[0];
      [head] + WithIncreased(cart[1..], id)
  }

  /** decreaseQty: every line for `id` gets max(qty - 1, 1); no line is removed. */
  function WithDecreased(cart: seq<CartLine>, id: string): (r: seq<CartLine>)
    ensures |r| == |cart|
    ensures forall i :: 0 <= i < |cart| ==>
      r[i].product == cart[i].product
      && r[i].qty == if cart[i].product.id != id then cart[i].qty
                     else if cart[i].qty - 1 > 1 then cart[i].qty - 1 else 1
  {
    if cart == [] then []
    else
      var q := cart[0].qty;
      var head := if cart[0].product.id == id then cart[0].(qty := if q - 1 > 1 then q - 1 else 1) else cart[0];
      [head] + WithDecreased(cart[1..], id)
  }

  /** removeItem: drops the lines for `id` and keeps the rest in order. */
  function WithoutItem(cart: seq<CartLine>, id: string): (r: seq<CartLine>)
    ensures |r| <= |cart|
    ensures forall l :: l in r <==> l in cart && l.product.id != id
  {
    if cart == [] then []
    else if cart[0].product.id == id then WithoutItem(cart[1..], id)
    else [cart[0]] + WithoutItem(cart[1..], id)
  }

  /** Removing an id that has no line leaves the cart unchanged. */
  lemma {:induction false} WithoutAbsent(cart: seq<CartLine>, id: string)
    requires !HasLine(cart, id)
    ensures WithoutItem(cart, id) == cart
  {
    if cart != [] {
      assert cart[0].product.id != id;
      assert forall i :: 0 <= i < |cart[1..]| ==> cart[1..][i] == cart[i + 1];
      WithoutAbsent(cart[1..], id);
      assert cart == [cart[0]] + cart[1..];
    }
  }

  /** The tail of a well-formed cart is well formed and has no line for the head's product. */
  lemma TailWellFormed(cart: seq<CartLine>)
    requires WellFormed(cart) && cart != []
    ensures WellFormed(cart[1..])
    ensures forall l :: l in cart[1..] ==> l.product.id != cart[0].product.id
  {
    assert forall i :: 0 <= i < |cart[1..]| ==> cart[1..][i] == cart[i + 1];
  }

  /** Removing lines keeps a cart well formed. */
  lemma {:induction false} WithoutWellFormed(cart: seq<CartLine>, id: string)
    requires WellFormed(cart)
    ensures WellFormed(WithoutItem(cart, id))
  {
    if cart != [] {
      TailWellFormed(cart);
      WithoutWellFormed(cart[1..], id);
      var rest := WithoutItem(cart[1..], id);
      if cart[0].product.id != id {
        forall j | 0 <= j < |rest|
          ensures rest[j].product.id != cart[0].product.id && rest[j].qty >= 1
        {
          assert rest[j] in rest;
        }
        assert WithoutItem(cart, id) == [cart[0]] + rest;
      }
    }
  }

  /**
   * addToCart: a product already in the cart gets one more on its line (the
   * line keeps the price it was added with); otherwise a line with quantity 1
   * is appended.
   */
  function WithAdded(cart: seq<CartLine>, p: Product): (r: seq<CartLine>)
    ensures HasLine(cart, p.id) ==>
      |r| == |cart|
      && forall i :: 0 <= i < |cart| ==>
        r[i].product == cart[i].product
        && r[i].qty == cart[i].qty + (if cart[i].product.id == p.id then 1 else 0)
    ensures !HasLine(cart, p.id) ==> r == cart + [CartLine(p, 1)]
    ensures HasLine(r, p.id)
  {
    if HasLine(cart, p.id) then
      var r := WithIncreased(cart, p.id);
      var i :| 0 <= i < |cart| && cart[i].product.id == p.id;
      assert r[i].product.id == p.id;
      r
    else
      var r := cart + [CartLine(p, 1)];
      assert r[|cart|].product.id == p.id;
      r
  }

  /** addToCart keeps at most one line per product and every quantity at least 1. */
  lemma AddWellFormed(cart: seq<CartLine>, p: Product)
    requires WellFormed(cart)
    ensures WellFormed(WithAdded(cart, p))
  {
    var r := WithAdded(cart, p);
    if !HasLine(cart, p.id) {
      assert forall i :: 0 <= i < |cart| ==> r[i] == cart[i];
    }
  }

  /** increaseQty and decreaseQty keep a cart well formed. */
  lemma QtyWellFormed(cart: seq<CartLine>, id: string)
    requires WellFormed(cart)
    ensures WellFormed(WithIncreased(cart, id)) && WellFormed(WithDecreased(cart, id))
  {
  }

  /**
   * totalAmount: sum of price times quantity. The source folds from the
   * left; integer addition is associative, so folding from the front gives
   * the same value.
   */
  function TotalAmount(cart: seq<CartLine>): int
  {
    if cart == [] then 0 else LineTotal(cart[0]) + TotalAmount(cart[1..])
  }

  lemma {:induction false} TotalAmountAppend(a: seq<CartLine>, b: seq<CartLine>)
    ensures TotalAmount(a + b) == TotalAmount(a) + TotalAmount(b)
  {
    if a == [] {
      assert a + b == b;
    } else {
      assert (a + b)[1..] == a[1..] + b;
      TotalAmountAppend(a[1..], b);
    }
  }

  /** Replacing one line changes the total by the difference of the two line totals. */
  lemma {:induction false} TotalAmountReplace(cart: seq<CartLine>, k: nat, l: CartLine)
    requires k < |cart|
    ensures TotalAmount(cart[k := l]) == TotalAmount(cart) - LineTotal(cart[k]) + LineTotal(l)
  {
    if k > 0 {
      assert cart[k := l][1..] == cart[1..][k - 1 := l];
      TotalAmountReplace(cart[1..], k - 1, l);
    }
  }

  /** The total of a cart made only by the operations above is never negative when prices are not. */
  lemma {:induction false} TotalAmountNonNegative(cart: seq<CartLine>)
    requires WellFormed(cart)
    requires forall i :: 0 <= i < |cart| ==> cart[i].product.price >= 0
    ensures TotalAmount(cart) >= 0
  {
    if cart != [] {
      TotalAmountNonNegative(cart[1..]);
    }
  }

  /** In a well-formed cart, increaseQty touches exactly the line of that product. */
  lemma IncreaseOneLine(cart: seq<CartLine>, k: nat)
    requires WellFormed(cart) && k < |cart|
    ensures WithIncreased(cart, cart[k].product.id) == cart[k := cart[k].(qty := cart[k].qty + 1)]
  {
  }

  /** In a well-formed cart, decreaseQty touches exactly the line of that product. */
  lemma DecreaseOneLine(cart: seq<CartLine>, k: nat)
    requires WellFormed(cart) && k < |cart|
    ensures var q := cart[k].qty;
      WithDecreased(cart, cart[k].product.id) == cart[k := cart[k].(qty := if q - 1 > 1 then q - 1 else 1)]
  {
  }

  /** In a well-formed cart, removeItem deletes exactly the line of that product. */
  lemma {:induction false} RemoveOneLine(cart: seq<CartLine>, k: nat)
    requires WellFormed(cart) && k < |cart|
    ensures WithoutItem(cart, cart[k].product.id) == cart[..k] + cart[k + 1..]
  {
    var id := cart[k].product.id;
    TailWellFormed(cart);
    if k == 0 {
      assert !HasLine(cart[1..], id) by {
        forall i | 0 <= i < |cart[1..]| ensures cart[1..][i].product.id != id {
          assert cart[1..][i] in cart[1..];
        }
      }
      WithoutAbsent(cart[1..], id);
      assert cart[..0] + cart[1..] == cart[1..];
    } else {
      assert cart[0].product.id != id;
      assert cart[1..][k - 1] == cart[k];
      RemoveOneLine(cart[1..], k - 1);
      SpliceCons(cart, k);
    }
  }

  /** Cutting element `k` out of `s` commutes with taking the head off. */
  lemma SpliceCons<T>(s: seq<T>, k: nat)
    requires 0 < k < |s|
    ensures s[..k] + s[k + 1..] == [s[0]] + (s[1..][..k - 1] + s[1..][k..])
  {
    assert s[..k] == [s[0]] + s[1..][..k - 1];
    assert s[k + 1..] == s[1..][k..];
  }

  /** One more of a line adds its price to the line total. */
  lemma LineTotalInc(l: CartLine)
    ensures LineTotal(l.(qty := l.qty + 1)) == LineTotal(l) + l.product.price
  {
    var a, b := l.product.price, l.qty;
    assert a * (b + 1) == a * b + a;
  }

  /** One fewer of a line takes its price off the line total. */
  lemma LineTotalDec(l: CartLine)
    ensures LineTotal(l.(qty := l.qty - 1)) == LineTotal(l) - l.product.price
  {
    var a, b := l.product.price, l.qty;
    assert a * (b - 1) == a * b - a;
  }

  /** Adding a product already in a well-formed cart raises the total by that line's price. */
  lemma TotalAfterAddExisting(cart: seq<CartLine>, p: Product, k: nat)
    requires WellFormed(cart) && k < |cart| && cart[k].product.id == p.id
    ensures TotalAmount(WithAdded(cart, p)) == TotalAmount(cart) + cart[k].product.price
  {
    assert HasLine(cart, p.id);
    IncreaseOneLine(cart, k);
    TotalIncAt(cart, k);
  }

  lemma TotalIncAt(cart: seq<CartLine>, k: nat)
    requires k < |cart|
    ensures TotalAmount(cart[k := cart[k].(qty := cart[k].qty + 1)]) == TotalAmount(cart) + cart[k].product.price
  {
    TotalAmountReplace(cart, k, cart[k].(qty := cart[k].qty + 1));
    LineTotalInc(cart[k]);
  }

  /** Adding a product not yet in the cart raises the total by its price. */
  lemma TotalAfterAddNew(cart: seq<CartLine>, p: Product)
    requires !HasLine(cart, p.id)
    ensures TotalAmount(WithAdded(cart, p)) == TotalAmount(cart) + p.price
  {
    TotalAmountAppend(cart, [CartLine(p, 1)]);
  }

  /** Decreasing a line of quantity above 1 lowers the total by its price; at 1 nothing changes. */
  lemma TotalAfterDecrease(cart: seq<CartLine>, k: nat)
    requires WellFormed(cart) && k < |cart|
    ensures TotalAmount(WithDecreased(cart, cart[k].product.id)) ==
      if cart[k].qty > 1 then TotalAmount(cart) - cart[k].product.price else TotalAmount(cart)
  {
    DecreaseOneLine(cart, k);
    TotalDecAt(cart, k);
  }

  lemma TotalDecAt(cart: seq<CartLine>, k: nat)
    requires k < |cart| && cart[k].qty >= 1
    ensures var q := cart[k].qty;
      TotalAmount(cart[k := cart[k].(qty := if q - 1 > 1 then q - 1 else 1)]) ==
      if q > 1 then TotalAmount(cart) - cart[k].product.price else TotalAmount(cart)
  {
    var q := cart[k].qty;
    var l := cart[k].(qty := if q - 1 > 1 then q - 1 else 1);
    TotalAmountReplace(cart, k, l);
    if q > 1 {
      LineTotalDec(cart[k]);
    } else {
      assert l == cart[k];
    }
  }

  /** Removing a line lowers the total by exactly that line's total. */
  lemma TotalAfterRemove(cart: seq<CartLine>, k: nat)
    requires WellFormed(cart) && k < |cart|
    ensures TotalAmount(WithoutItem(cart, cart[k].product.id)) == TotalAmount(cart) - LineTotal(cart[k])
  {
    RemoveOneLine(cart, k);
    TotalSplice(cart, k);
  }

  lemma TotalSplice(cart: seq<CartLine>, k: nat)
    requires k < |cart|
    ensures TotalAmount(cart[..k] + cart[k + 1..]) == TotalAmount(cart) - LineTotal(cart[k])
  {
    var left, right := cart[..k], cart[k + 1..];
    SplitAt(cart, k);
    TotalAmountAppend(left, [cart[k]] + right);
    TotalAmountCons(cart[k], right);
    TotalAmountAppend(left, right);
  }

  lemma TotalAmountCons(l: CartLine, r: seq<CartLine>)
    ensures TotalAmount([l] + r) == LineTotal(l) + TotalAmount(r)
  {
    assert ([l] + r)[1..] == r;
  }

  /** filterProducts: the products of category `cat`, in their original order. */
  function InCategory(list: seq<Product>, cat: string): (r: seq<Product>)
    ensures |r| <= |list|
    ensures forall p :: p in r <==> p in list && p.category == cat
  {
    if list == [] then []
    else if list[0].category == cat then [list[0]] + InCategory(list[1..], cat)
    else InCategory(list[1..], cat)
  }

  /** Filtering distributes over concatenation, so relative order is kept. */
  lemma {:induction false} InCategoryAppend(a: seq<Product>, b: seq<Product>, cat: string)
    ensures InCategory(a + b, cat) == InCategory(a, cat) + InCategory(b, cat)
  {
    if a == [] {
      assert a + b == b;
    } else {
      assert (a + b)[1..] == a[1..] + b;
      InCategoryAppend(a[1..], b, cat);
    }
  }

  /** The schema's snapshot of a cart line: name, price and quantity only. */
  function Snapshot(cart: seq<CartLine>): (r: seq<OrderItem>)
    ensures |r| == |cart|
    ensures forall i :: 0 <= i < |cart| ==>
      r[i] == OrderItem(cart[i].product.name, cart[i].product.price, cart[i].qty)
  {
    if cart == [] then [] else [OrderItem(cart[0].product.name, cart[0].product.price, cart[0].qty)] + Snapshot(cart[1..])
  }

  /** The stored items of an order placed from `cart` add up to the cart's total. */
  lemma {:induction false} SnapshotTotal(cart: seq<CartLine>)
    ensures ItemsTotal(Snapshot(cart)) == TotalAmount(cart)
  {
    if cart != [] {
      SnapshotTotal(cart[1..]);
      assert Snapshot(cart)[1..] == Snapshot(cart[1..]);
    }
  }

  /** Why checkout refused to send the order. */
  datatype CheckoutError = MissingCash | NotEnoughCash

  /** The order as the counter posts it: the cart lines themselves. */
  datatype OrderRequest = OrderRequest(items: seq<CartLine>, total: int, cash: int, change: int, cashier: string)

  /**
   * handleCheckout's guard and payload. `cash` is the cash field (None for an
   * empty field); `change` is the value stored when cash was last typed. An
   * empty cart is not rejected.
   */
  function CheckoutRequest(cart: seq<CartLine>, cash: Option<int>, change: int, cashier: string): (r: Result<OrderRequest, CheckoutError>)
    ensures r == Failure(MissingCash) <==> cash.None?
    ensures r == Failure(NotEnoughCash) <==> cash.Some? && cash.value < TotalAmount(cart)
    ensures r.Success? ==>
      && r.value.items == cart && r.value.total == TotalAmount(cart)
      && r.value.cash == cash.value && r.value.change == change
      && r.value.cashier == cashier && r.value.cash >= r.value.total
  {
    if cash.None? then Failure(MissingCash)
    else if cash.value < TotalAmount(cart) then Failure(NotEnoughCash)
    else Success(OrderRequest(cart, TotalAmount(cart), cash.value, change, cashier))
  }

  /** An empty cart with any cash entered is sent as an order of total 0. */
  lemma EmptyCartAccepted(cash: int, change: int, cashier: string)
    requires cash >= 0
    ensures CheckoutRequest([], Some(cash), change, cashier) == Success(OrderRequest([], 0, cash, change, cashier))
  {
  }

  /** When cash was typed against the current cart, the order's change is cash minus total. */
  lemma FreshChange(cart: seq<CartLine>, cash: int, cashier: string)
    ensures var r := CheckoutRequest(cart, Some(cash), cash - TotalAmount(cart), cashier);
      r.Success? ==> r.value.change == r.value.cash - r.value.total && r.value.change >= 0
  {
  }

  /** The JSON body the server receives, with the lines cut down by the order schema. */
  function Body(req: OrderRequest): (b: OrderBody)
    ensures |b.items| == |req.items| && ItemsTotal(b.items) == TotalAmount(req.items)
    ensures b.total == req.total && b.cash == req.cash && b.change == req.change && b.cashier == req.cashier
  {
    SnapshotTotal(req.items);
    OrderBody(Snapshot(req.items), req.total, req.cash, req.change, req.cashier)
  }

  /** An order the counter sends always has a total equal to the sum over its stored items. */
  lemma SentTotalMatchesItems(cart: seq<CartLine>, cash: Option<int>, change: int, cashier: string)
    ensures var r := CheckoutRequest(cart, cash, change, cashier);
      r.Success? ==> ItemsTotal(Body(r.value).items) == Body(r.value).total
  {
    SnapshotTotal(cart);
  }

  /** The cashier name: the stored username, or "Cashier" when none is stored. */
  function CashierName(stored: Option<string>): (name: string)
    ensures name != ""
    ensures stored.Some? && stored.value != "" ==> name == stored.value
    ensures !(stored.Some? && stored.value != "") ==> name == "Cashier"
  {
    if stored.Some? && stored.value != "" then stored.value else "Cashier"
  }

  /** The state of the counter screen. */
  class Register {
    var products: seq<Product>
    var filteredProducts: seq<Product>
    var category: string
    var cart: seq<CartLine>
    var cash: Option<int>
    var change: int
    var salesList: seq<Order>
    var salesTotal: int
    var showSales: bool

    ghost predicate Valid()
      reads this
    {
      WellFormed(cart)
    }

    constructor ()
      ensures Valid()
      ensures products == [] && filteredProducts == [] && category == "PARES"
      ensures cart == [] && cash == None && change == 0
      ensures salesList == [] && salesTotal == 0 && !showSales
    {
      products, filteredProducts, category := [], [], "PARES";
      cart, cash, change := [], None, 0;
      salesList, salesTotal, showSales := [], 0, false;
    }

    /** loadProducts: keep the fetched list and show its PARES products. */
    method LoadProducts(data: seq<Product>)
      modifies this`products, this`filteredProducts, this`category
      ensures products == data && category == "PARES"
      ensures filteredProducts == InCategory(data, "PARES")
    {
      products := data;
      FilterProducts("PARES");
    }

    /** filterProducts: select a category tab and show that category's products. */
    method FilterProducts(cat: string)
      modifies this`filteredProducts, this`category
      ensures category == cat && filteredProducts == InCategory(products, cat)
    {
      category := cat;
      filteredProducts := InCategory(products, cat);
    }

    method AddToCart(p: Product)
      requires Valid()
      modifies this`cart
      ensures Valid() && cart == WithAdded(old(cart), p)
    {
      AddWellFormed(cart, p);
      cart := WithAdded(cart, p);
    }

    method IncreaseQty(id: string)
      requires Valid()
      modifies this`cart
      ensures Valid() && cart == WithIncreased(old(cart), id)
    {
      QtyWellFormed(cart, id);
      cart := WithIncreased(cart, id);
    }

    method DecreaseQty(id: string)
      requires Valid()
      modifies this`cart
      ensures Valid() && cart == WithDecreased(old(cart), id)
      ensures |cart| == |old(cart)|
    {
      QtyWellFormed(cart, id);
      cart := WithDecreased(cart, id);
    }

    method RemoveItem(id: string)
      requires Valid()
      modifies this`cart
      ensures Valid() && cart == WithoutItem(old(cart), id)
    {
      WithoutWellFormed(cart, id);
      cart := WithoutItem(cart, id);
    }

    /**
     * The cash field's onChange: store the entry and recompute the change
     * against the current total (an empty entry counts as 0).
     */
    method EnterCash(entry: Option<int>)
      modifies this`cash, this`change
      ensures cash == entry && change == entry.GetOr(0) - TotalAmount(cart)
    {
      cash := entry;
      change := entry.GetOr(0) - TotalAmount(cart);
    }

    /**
     * handleCheckout: a refused guard sends nothing and changes nothing. A
     * sent order resets cart, cash and change only when the server replies ok.
     */
    method Checkout(cashier: string, serverOk: bool) returns (sent: Result<OrderRequest, CheckoutError>)
      requires Valid()
      modifies this`cart, this`cash, this`change
      ensures Valid()
      ensures sent == CheckoutRequest(old(cart), old(cash), old(change), cashier)
      ensures if sent.Success? && serverOk then cart == [] && cash == None && change == 0
              else cart == old(cart) && cash == old(cash) && change == old(change)
    {
      sent := CheckoutRequest(cart, cash, change, cashier);
      if sent.Success? && serverOk {
        cart, cash, change := [], None, 0;
      }
    }

    /** loadSales: show the fetched orders and their peso total. */
    method LoadSales(data: seq<Order>)
      modifies this`salesList, this`salesTotal, this`showSales
      ensures salesList == data && salesTotal == SalesTotal(salesList) && showSales
    {
      salesList := data;
      salesTotal := SalesTotal(data);
      showSales := true;
    }
  }

  /** Two PARES at 120 and one drink at 25: 200 is refused, 300 completes with change 35. */
  method CheckoutScenario() returns (refused: Result<OrderRequest, CheckoutError>, done: Result<OrderRequest, CheckoutError>)
    ensures refused == Failure(NotEnoughCash)
    ensures done.Success? && done.value.total == 265 && done.value.cash == 300 && done.value.change == 35
  {
    var pares := Product("p1", "PARES", 120, "PARES", true);
    var drink := Product("d1", "COKE", 25, "DRINKS", true);
    var r := new Register();
    r.AddToCart(pares);
    r.AddToCart(pares);
    r.AddToCart(drink);
    assert r.cart == [CartLine(pares, 2), CartLine(drink, 1)];
    assert TotalAmount([CartLine(drink, 1)]) == 25;
    assert TotalAmount(r.cart) == 265;
    r.EnterCash(Some(200));
    refused := r.Checkout("ana", true);
    assert refused == Failure(NotEnoughCash);
    assert r.cart == [CartLine(pares, 2), CartLine(drink, 1)];
    r.EnterCash(Some(300));
    assert r.change == 35;
    done := r.Checkout("ana", true);
    assert done.Success? && done.value.total == 265 && done.value.change == 35;
    assert r.cart == [] && r.cash == None && r.change == 0;
  }

  /** Cash typed before the cart changes leaves a stale change in the order sent. */
  method StaleChangeScenario() returns (sent: Result<OrderRequest, CheckoutError>)
    ensures sent.Success? && sent.value.total == 30 && sent.value.cash == 100
    ensures sent.value.change == 100 && sent.value.change != sent.value.cash - sent.value.total
  {
    var item := Product("g1", "GOTO", 30, "GOTO", true);
    var r := new Register();
    r.EnterCash(Some(100));
    r.AddToCart(item);
    assert TotalAmount(r.cart) == 30;
    sent := r.Checkout("ana", false);
    assert sent.Success? && sent.value.change == 100 && sent.value.cash - sent.value.total == 70;
    assert r.cart == [CartLine(item, 1)];
  }
}
