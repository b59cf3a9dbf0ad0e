/**
 * The weekly chart of the reports page (frontend/src/pages/ReportsPage.jsx):
 * seven day slots, oldest first, each the peso total of the orders that many
 * whole days before now.
 */
module ReportsPage {
  import opened Orders

  const DayMs: int := 86400000

  /**
   * `Math.floor((today - orderDate) / 86400000)` on millisecond instants.
   * Dafny's integer division rounds down for a positive divisor, so this is
   * the floor also when the order lies in the future.
   */
  function DayDiff(today: int, date: int): int
  {
    (today - date) / DayMs
  }

  /** DayDiff is the floor of the quotient, for past and future instants alike. */
  lemma DayDiffIsFloor(today: int, date: int)
    ensures DayDiff(today, date) * DayMs <= today - date < (DayDiff(today, date) + 1) * DayMs
  {
  }

  /** The order counts in the chart: 0 <= diff < 7. */
  predicate InWeek(today: int, o: Order)
  {
    0 <= DayDiff(today, o.date) < 7
  }

  /** The slot an in-week order adds to: `days[6 - diff]`. */
  function Slot(today: int, o: Order): (k: int)
    requires InWeek(today, o)
    ensures 0 <= k < 7
  {
    6 - DayDiff(today, o.date)
  }

  /** An order placed within the last 24 hours lands in the last slot. */
  lemma TodayInLastSlot(today: int, o: Order)
    requires 0 <= today - o.date < DayMs
    ensures InWeek(today, o) && Slot(today, o) == 6
  {
  }

  /** An order later than `today` lands in no slot. */
  lemma FutureOutsideWeek(today: int, o: Order)
    requires o.date > today
    ensures !InWeek(today, o)
  {
    DayDiffIsFloor(today, o.date);
  }

  /** An order seven or more whole days old lands in no slot. */
  lemma OldOutsideWeek(today: int, o: Order)
    requires today - o.date >= 7 * DayMs
    ensures !InWeek(today, o)
  {
    DayDiffIsFloor(today, o.date);
  }

  /** The total of the orders that land in slot `k`. */
  function SlotTotal(orders: seq<Order>, today: int, k: int): int
  {
    if orders == [] then 0
    else
      var last := orders[|orders| - 1];
      SlotTotal(orders[..|orders| - 1], today, k)
      + (if InWeek(today, last) && Slot(today, last) == k then last.total else 0)
  }

  /** The total of the orders that land in any slot. */
  function WeekTotal(orders: seq<Order>, today: int): int
  {
    if orders == [] then 0
    else
      var last := orders[|orders| - 1];
      WeekTotal(orders[..|orders| - 1], today) + (if InWeek(today, last) then last.total else 0)
  }

  function Sum(s: seq<int>): int
  {
    if s == [] then 0 else s[0] + Sum(s[1..])
  }

  /** The seven slots add up to the total of the in-week orders. */
  lemma {:induction false} SlotsAddUp(orders: seq<Order>, today: int)
    ensures SlotTotal(orders, today, 0) + SlotTotal(orders, today, 1) + SlotTotal(orders, today, 2)
      + SlotTotal(orders, today, 3) + SlotTotal(orders, today, 4) + SlotTotal(orders, today, 5)
      + SlotTotal(orders, today, 6) == WeekTotal(orders, today)
  {
    if orders != [] {
      SlotsAddUp(orders[..|orders| - 1], today);
    }
  }

  lemma SumOfSeven(s: seq<int>)
    requires |s| == 7
    ensures Sum(s) == s[0] + s[1] + s[2] + s[3] + s[4] + s[5] + s[6]
  {
    assert Sum(s[6..]) == s[6] by { assert s[6..][1..] == []; }
    assert Sum(s[5..]) == s[5] + Sum(s[6..]) by { assert s[5..][1..] == s[6..]; }
    assert Sum(s[4..]) == s[4] + Sum(s[5..]) by { assert s[4..][1..] == s[5..]; }
    assert Sum(s[3..]) == s[3] + Sum(s[4..]) by { assert s[3..][1..] == s[4..]; }
    assert Sum(s[2..]) == s[2] + Sum(s[3..]) by { assert s[2..][1..] == s[3..]; }
    assert Sum(s[1..]) == s[1] + Sum(s[2..]) by { assert s[1..][1..] == s[2..]; }
  }

  /**
   * fetchWeeklySales' bucketing: `days` starts as seven zeros and each
   * in-week order adds its total to `days[6 - diff]`.
   */
  method WeeklySales(orders: seq<Order>, today: int) returns (values: seq<int>)
    ensures |values| == 7
    ensures forall k :: 0 <= k < 7 ==> values[k] == SlotTotal(orders, today, k)
    ensures Sum(values) == WeekTotal(orders, today)
  {
    var days := new int[7](_ => 0);
    var i := 0;
    while i < |orders|
      invariant 0 <= i <= |orders|
      invariant forall k :: 0 <= k < 7 ==> days[k] == SlotTotal(orders[..i], today, k)
    {
      var order := orders[i];
      var diff := DayDiff(today, order.date);
      assert orders[..i + 1][..i] == orders[..i];
      if diff >= 0 && diff < 7 {
        days[6 - diff] := days[6 - diff] + order.total;
      }
      i := i + 1;
    }
    assert orders[..i] == orders;
    values := days[..];
    SumOfSeven(values);
    SlotsAddUp(orders, today);
  }

  /**
   * The chart's labels, built by the counting-down loop: one per day, the
   * day numbers today - 6 up to today, oldest first. The weekday names are
   * formatted from these.
   */
  method WeekLabels(today: int) returns (labels: seq<int>)
    ensures |labels| == 7
    ensures forall j :: 0 <= j < 7 ==> labels[j] == today - (6 - j)
    ensures forall j :: 0 <= j < 6 ==> labels[j] < labels[j + 1]
  {
    labels := [];
    var i := 6;
    while i >= 0
      invariant -1 <= i <= 6
      invariant |labels| == 6 - i
      invariant forall j :: 0 <= j < |labels| ==> labels[j] == today - (6 - j)
    {
      labels := labels + [today - i];
      i := i - 1;
    }
  }
}
