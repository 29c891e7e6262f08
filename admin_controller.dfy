/**
 * `getDashboardStats`: revenue over orders that are not cancelled, the order count,
 * the five best sellers, and the last week's sales grouped by UTC calendar day and
 * sorted by day. A day is written as its number since the epoch (`createdAt / 86400000`),
 * which orders exactly as the ISO date strings do.
 */
module AdminController {
  import opened Common
  import opened Db
  import ProductController

  const DayMs := 86400000

  /** The UTC calendar day of an instant, the date part of its ISO string. */
  function DayOf(t: int): (r: int)
    ensures r * DayMs <= t < r * DayMs + DayMs
  {
    t / DayMs
  }

  predicate Counted(o: Order) {
    o.status != CANCELLED
  }

  /** The sum of the totals of the orders with ids in [from, bound) that are not cancelled. */
  function Revenue(orders: map<int, Order>, from: int, bound: int): (r: int)
    ensures (forall id :: from <= id < bound && id in orders ==> orders[id].total >= 0) ==> r >= 0
    decreases bound - from
  {
    if from >= bound then 0
    else (if from in orders && Counted(orders[from]) then orders[from].total else 0) + Revenue(orders, from + 1, bound)
  }

  /** Cancelling an order that was not cancelled lowers the revenue by exactly its total. */
  lemma {:induction false} CancellingRemovesItsTotal(orders: map<int, Order>, id: int, from: int, bound: int)
    requires id in orders && Counted(orders[id]) && from <= id < bound
    ensures Revenue(orders[id := orders[id].(status := CANCELLED)], from, bound) == Revenue(orders, from, bound) - orders[id].total
    decreases bound - from
  {
    if from < id {
      CancellingRemovesItsTotal(orders, id, from + 1, bound);
    } else {
      RevenueIgnoresOutside(orders, orders[id := orders[id].(status := CANCELLED)], from + 1, bound);
    }
  }

  /** Revenue over a range depends only on the orders in that range. */
  lemma {:induction false} RevenueIgnoresOutside(a: map<int, Order>, b: map<int, Order>, from: int, bound: int)
    requires forall i :: from <= i < bound ==> (i in a <==> i in b) && (i in a ==> a[i] == b[i])
    ensures Revenue(a, from, bound) == Revenue(b, from, bound)
    decreases bound - from
  {
    if from < bound {
      RevenueIgnoresOutside(a, b, from + 1, bound);
    }
  }

  /** A cancelled order adds nothing: revenue counts a new order only when it is not cancelled. */
  lemma {:induction false} RevenueOfNewOrder(orders: map<int, Order>, o: Order, from: int, bound: int)
    requires forall i :: i in orders ==> i < bound - 1
    requires from < bound
    ensures Revenue(orders[bound - 1 := o], from, bound)
            == Revenue(orders, from, bound) + (if Counted(o) then o.total else 0)
    decreases bound - from
  {
    if from < bound - 1 {
      RevenueOfNewOrder(orders, o, from + 1, bound);
    } else {
      assert Revenue(orders, from + 1, bound) == 0;
      assert Revenue(orders[bound - 1 := o], from + 1, bound) == 0;
    }
  }

  /** `totalOrders`: every order is counted, cancelled ones included. */
  function TotalOrders(orders: map<int, Order>): (r: nat)
    ensures r == 0 <==> orders == map[]
    ensures forall id :: id in orders ==> r >= 1
  {
    |orders.Keys|
  }

  /** Cancelling an order leaves the count as it was, while it lowers the revenue. */
  lemma CancellingKeepsCount(orders: map<int, Order>, id: int)
    requires id in orders
    ensures TotalOrders(orders[id := orders[id].(status := CANCELLED)]) == TotalOrders(orders)
  {
    assert orders[id := orders[id].(status := CANCELLED)].Keys == orders.Keys;
  }

  /** A best-seller row: name and total sold. */
  datatype TopProduct = TopProduct(name: string, totalSold: int)

  /** `take: 5` over the rows the database returns ordered by totalSold descending. */
  function TakeFive(rows: seq<TopProduct>): (r: seq<TopProduct>)
    ensures |r| <= 5 && |r| == if |rows| < 5 then |rows| else 5
    ensures r == rows[..|r|]
  {
    if |rows| < 5 then rows else rows[..5]
  }

  predicate SoldDescending(rows: seq<TopProduct>) {
    forall i, j :: 0 <= i < j < |rows| ==> rows[i].totalSold >= rows[j].totalSold
  }

  /** From a descending listing, the five kept are in order and none left out sold more than any kept. */
  lemma TopFiveDominate(rows: seq<TopProduct>)
    requires SoldDescending(rows)
    ensures SoldDescending(TakeFive(rows))
    ensures forall k, j :: 0 <= k < |TakeFive(rows)| <= j < |rows| ==> TakeFive(rows)[k].totalSold >= rows[j].totalSold
  {
  }

  /** The rows `select: { name, totalSold }` gives for a listing of product ids, in listing order. */
  function TopRows(products: map<int, Product>, ids: seq<int>): (r: seq<TopProduct>)
    requires forall i :: 0 <= i < |ids| ==> ids[i] in products
    ensures |r| == |ids|
    ensures forall i :: 0 <= i < |r| ==> r[i] == TopProduct(products[ids[i]].name, products[ids[i]].totalSold)
  {
    if ids == [] then []
    else [TopProduct(products[ids[0]].name, products[ids[0]].totalSold)] + TopRows(products, ids[1..])
  }

  /** The query `getDashboardStats` sends for its best sellers: every product, by totalSold descending. */
  const BestsellerQuery := ProductController.ProductQuery(false, true)

  /**
   * Over a listing the database may return for that query, the five rows kept are the listed
   * products' own rows in totalSold order; no product left out sold more than one kept; and
   * with fewer than five rows kept, every product is kept.
   */
  lemma TopFiveOfTable(products: map<int, Product>, reply: seq<int>)
    requires ProductController.IsProductsReply(products, BestsellerQuery, reply)
    ensures var top := TakeFive(TopRows(products, reply));
      && |top| <= 5
      && SoldDescending(top)
      && (forall k :: 0 <= k < |top| ==> top[k] == TopProduct(products[reply[k]].name, products[reply[k]].totalSold))
      && (forall id, k :: id in products && id !in reply[..|top|] && 0 <= k < |top| ==>
            top[k].totalSold >= products[id].totalSold)
      && (|top| < 5 ==> forall id :: id in products ==> id in reply[..|top|])
  {
    var rows := TopRows(products, reply);
    var top := TakeFive(rows);
    TopFiveDominate(rows);
    forall id, k | id in products && id !in reply[..|top|] && 0 <= k < |top|
      ensures top[k].totalSold >= products[id].totalSold
    {
      assert ProductController.Selected(products, BestsellerQuery, id);
      var j :| 0 <= j < |reply| && reply[j] == id;
      assert rows[j].totalSold == products[id].totalSold;
    }
    if |top| < 5 {
      assert reply[..|top|] == reply;
      forall id | id in products
        ensures id in reply[..|top|]
      {
        assert ProductController.Selected(products, BestsellerQuery, id);
      }
    }
  }

  /** The instant and total of a recent order, as selected for the chart. */
  datatype Sale = Sale(createdAt: int, total: int)

  function SaleOf(o: Order): Sale {
    Sale(o.createdAt, o.total)
  }

  /** Order `id` is one the chart reads: stored, not cancelled, and created at or after `since`. */
  predicate RecentSaleOf(orders: map<int, Order>, since: int, id: int) {
    id in orders && Counted(orders[id]) && orders[id].createdAt >= since
  }

  /** The sales the chart reads: orders with ids in [from, bound), not cancelled and created at or after `since`. */
  function RecentSales(orders: map<int, Order>, since: int, from: int, bound: int): (r: seq<Sale>)
    ensures forall k :: 0 <= k < |r| ==> r[k].createdAt >= since
    ensures forall s :: s in r <==>
              exists id :: from <= id < bound && RecentSaleOf(orders, since, id) && s == SaleOf(orders[id])
    decreases bound - from
  {
    if from >= bound then []
    else
      (if RecentSaleOf(orders, since, from) then [SaleOf(orders[from])] else [])
      + RecentSales(orders, since, from + 1, bound)
  }

  /** The recent sales over a range depend only on the orders in that range. */
  lemma {:induction false} RecentSalesIgnoreOutside(a: map<int, Order>, b: map<int, Order>, since: int, from: int, bound: int)
    requires forall i :: from <= i < bound ==> (i in a <==> i in b) && (i in a ==> a[i] == b[i])
    ensures RecentSales(a, since, from, bound) == RecentSales(b, since, from, bound)
    decreases bound - from
  {
    if from < bound {
      RecentSalesIgnoreOutside(a, b, since, from + 1, bound);
    }
  }

  lemma SumTotalsAppend(xs: seq<Sale>, ys: seq<Sale>)
    ensures Sum(Totals(xs + ys)) == Sum(Totals(xs)) + Sum(Totals(ys))
  {
    assert Totals(xs + ys) == Totals(xs) + Totals(ys);
    SumAppend(Totals(xs), Totals(ys));
  }

  /**
   * Cancelling an order the chart reads lowers the chart's total by exactly that order's total:
   * a cancelled order contributes no sale.
   */
  lemma {:induction false} CancellingRemovesItsSale(orders: map<int, Order>, since: int, id: int, from: int, bound: int)
    requires RecentSaleOf(orders, since, id) && from <= id < bound
    ensures var cancelled := orders[id := orders[id].(status := CANCELLED)];
      Sum(Totals(RecentSales(cancelled, since, from, bound)))
      == Sum(Totals(RecentSales(orders, since, from, bound))) - orders[id].total
    decreases bound - from
  {
    var cancelled := orders[id := orders[id].(status := CANCELLED)];
    var head := if RecentSaleOf(orders, since, from) then [SaleOf(orders[from])] else [];
    var head' := if RecentSaleOf(cancelled, since, from) then [SaleOf(cancelled[from])] else [];
    SumTotalsAppend(head, RecentSales(orders, since, from + 1, bound));
    SumTotalsAppend(head', RecentSales(cancelled, since, from + 1, bound));
    if from < id {
      CancellingRemovesItsSale(orders, since, id, from + 1, bound);
      assert head' == head;
    } else {
      RecentSalesIgnoreOutside(orders, cancelled, since, from + 1, bound);
      assert head' == [];
      assert Sum(Totals(head)) == orders[id].total by {
        assert Totals(head) == [orders[id].total];
        assert Totals(head)[..0] == [];
      }
    }
  }

  /** The days of `rows` in order of first appearance: `Object.keys` of the grouping object. */
  function DaysInOrder(rows: seq<Sale>): (days: seq<int>)
    ensures forall i, j :: 0 <= i < j < |days| ==> days[i] != days[j]
    ensures forall d :: d in days <==> exists k :: 0 <= k < |rows| && DayOf(rows[k].createdAt) == d
  {
    if rows == [] then []
    else
      var front := rows[..|rows| - 1];
      var days := DaysInOrder(front);
      var d := DayOf(rows[|rows| - 1].createdAt);
      assert forall k :: 0 <= k < |front| ==> rows[k] == front[k];
      if d in days then days else days + [d]
  }

  /** The sum of the totals of the sales of day `d`: 0 for a day without sales. */
  function DayTotal(rows: seq<Sale>, d: int): (r: int)
    ensures (forall k :: 0 <= k < |rows| ==> DayOf(rows[k].createdAt) != d) ==> r == 0
    ensures (forall k :: 0 <= k < |rows| ==> rows[k].total >= 0) ==> r >= 0
  {
    if rows == [] then 0
    else DayTotal(rows[..|rows| - 1], d) + (if DayOf(rows[|rows| - 1].createdAt) == d then rows[|rows| - 1].total else 0)
  }

  function Totals(rows: seq<Sale>): (ts: seq<int>)
    ensures |ts| == |rows| && forall k :: 0 <= k < |rows| ==> ts[k] == rows[k].total
  {
    seq(|rows|, k requires 0 <= k < |rows| => rows[k].total)
  }

  /**
   * The grouping loop: one key per day in order of first appearance, and the amount of each
   * day is the sum of its sales (`(salesByDate[date] || 0) + total`).
   */
  method GroupSalesByDate(rows: seq<Sale>) returns (days: seq<int>, sales: map<int, int>)
    ensures days == DaysInOrder(rows)
    ensures forall d :: d in sales <==> d in days
    ensures forall d :: d in sales ==> sales[d] == DayTotal(rows, d)
  {
    days, sales := [], map[];
    var k := 0;
    while k < |rows|
      invariant 0 <= k <= |rows|
      invariant days == DaysInOrder(rows[..k])
      invariant forall d :: d in sales <==> d in days
      invariant forall d :: d in sales ==> sales[d] == DayTotal(rows[..k], d)
    {
      var d := DayOf(rows[k].createdAt);
      DaysStep(rows, k);
      forall e
        ensures DayTotal(rows[..k + 1], e) == DayTotal(rows[..k], e) + (if d == e then rows[k].total else 0)
      {
        DayTotalStep(rows, k, e);
      }
      var prior := if d in sales then sales[d] else 0;
      if d !in sales {
        DayTotalOfAbsentDay(rows[..k], d);
      }
      sales := sales[d := prior + rows[k].total];
      if d !in days {
        days := days + [d];
      }
      k := k + 1;
    }
    assert rows[..|rows|] == rows;
  }

  /** One more sale adds its day to the day list when the day is new. */
  lemma DaysStep(rows: seq<Sale>, k: nat)
    requires k < |rows|
    ensures var d := DayOf(rows[k].createdAt);
      DaysInOrder(rows[..k + 1])
      == if d in DaysInOrder(rows[..k]) then DaysInOrder(rows[..k]) else DaysInOrder(rows[..k]) + [d]
  {
    assert rows[..k + 1][..k] == rows[..k];
  }

  /** One more sale adds its total to its own day and to no other. */
  lemma DayTotalStep(rows: seq<Sale>, k: nat, e: int)
    requires k < |rows|
    ensures DayTotal(rows[..k + 1], e)
            == DayTotal(rows[..k], e) + (if DayOf(rows[k].createdAt) == e then rows[k].total else 0)
  {
    assert rows[..k + 1][..k] == rows[..k];
  }

  /** A day on which nothing was sold totals zero. */
  lemma {:induction false} DayTotalOfAbsentDay(rows: seq<Sale>, d: int)
    requires d !in DaysInOrder(rows)
    ensures DayTotal(rows, d) == 0
  {
    if rows != [] {
      var front := rows[..|rows| - 1];
      assert forall k :: 0 <= k < |front| ==> front[k] == rows[k];
      DayTotalOfAbsentDay(front, d);
    }
  }

  /** The amounts of the days `days`, summed. */
  function SumOverDays(rows: seq<Sale>, days: seq<int>): int {
    if days == [] then 0 else SumOverDays(rows, days[..|days| - 1]) + DayTotal(rows, days[|days| - 1])
  }

  /** Summing day amounts over distinct days distributes over one more sale. */
  lemma {:induction false} SumOverDaysStep(front: seq<Sale>, s: Sale, days: seq<int>)
    requires forall i, j :: 0 <= i < j < |days| ==> days[i] != days[j]
    ensures SumOverDays(front + [s], days)
            == SumOverDays(front, days) + (if DayOf(s.createdAt) in days then s.total else 0)
  {
    var rows := front + [s];
    assert rows[..|rows| - 1] == front;
    if days != [] {
      var init := days[..|days| - 1];
      SumOverDaysStep(front, s, init);
      assert DayOf(s.createdAt) in days <==> DayOf(s.createdAt) in init || DayOf(s.createdAt) == days[|days| - 1];
      assert DayOf(s.createdAt) in init ==> DayOf(s.createdAt) != days[|days| - 1];
    }
  }

  /** The chart's amounts add up to the total of the sales it was built from. */
  lemma {:induction false} ChartAmountsSumToTotal(rows: seq<Sale>)
    ensures SumOverDays(rows, DaysInOrder(rows)) == Sum(Totals(rows))
  {
    if rows != [] {
      var front := rows[..|rows| - 1];
      var s := rows[|rows| - 1];
      assert rows == front + [s];
      ChartAmountsSumToTotal(front);
      ChartStep(front, s);
      TotalsAppend(front, s);
      SumAppend(Totals(front), [s.total]);
    }
  }

  lemma TotalsAppend(front: seq<Sale>, s: Sale)
    ensures Totals(front + [s]) == Totals(front) + [s.total]
  {
    assert forall k :: 0 <= k < |front| ==> (front + [s])[k] == front[k];
  }

  /** One more sale adds its total to the chart's sum, on a day already charted or a new one. */
  lemma ChartStep(front: seq<Sale>, s: Sale)
    ensures SumOverDays(front + [s], DaysInOrder(front + [s])) == SumOverDays(front, DaysInOrder(front)) + s.total
  {
    var rows := front + [s];
    var days := DaysInOrder(front);
    var d := DayOf(s.createdAt);
    assert rows[..|rows| - 1] == front;
    SumOverDaysStep(front, s, days);
    if d !in days {
      DayTotalOfAbsentDay(front, d);
      assert DaysInOrder(rows) == days + [d];
      assert (days + [d])[..|days|] == days;
      assert DayTotal(rows, d) == s.total;
    }
  }

  /** A chart entry. */
  datatype ChartEntry = ChartEntry(day: int, amount: int)

  predicate ByDayAscending(es: seq<ChartEntry>) {
    forall i, j :: 0 <= i < j < |es| ==> es[i].day <= es[j].day
  }

  /** `e` placed into `es` after every leading entry of an earlier or equal day. */
  function InsertByDay(e: ChartEntry, es: seq<ChartEntry>): (r: seq<ChartEntry>)
    ensures multiset(r) == multiset(es) + multiset{e}
    ensures r != [] && (r[0] == e || (es != [] && r[0] == es[0]))
  {
    if es == [] then [e]
    else if es[0].day <= e.day then
      assert es == [es[0]] + es[1..];
      [es[0]] + InsertByDay(e, es[1..])
    else [e] + es
  }

  /** Inserting into a day-ascending chart keeps it day-ascending. */
  lemma {:induction false} InsertByDayKeepsOrder(e: ChartEntry, es: seq<ChartEntry>)
    requires ByDayAscending(es)
    ensures ByDayAscending(InsertByDay(e, es))
  {
    if es != [] && es[0].day <= e.day {
      var rest := InsertByDay(e, es[1..]);
      InsertByDayKeepsOrder(e, es[1..]);
      assert rest[0] == e || rest[0] == es[1];
      var r := [es[0]] + rest;
      forall i, j | 0 <= i < j < |r|
        ensures r[i].day <= r[j].day
      {
        if i == 0 {
          assert r[j] == rest[j - 1];
          assert rest[0].day <= rest[j - 1].day;
        } else {
          assert r[i] == rest[i - 1] && r[j] == rest[j - 1];
        }
      }
    }
  }

  /** The chart sorted by date ascending (a stable sort of distinct days gives this one order). */
  function SortByDay(es: seq<ChartEntry>): (r: seq<ChartEntry>)
    ensures ByDayAscending(r)
    ensures multiset(r) == multiset(es)
  {
    if es == [] then []
    else
      assert es == es[..|es| - 1] + [es[|es| - 1]];
      InsertByDayKeepsOrder(es[|es| - 1], SortByDay(es[..|es| - 1]));
      InsertByDay(es[|es| - 1], SortByDay(es[..|es| - 1]))
  }

  /** The chart entries of the grouped days, in key order, before sorting. */
  function Entries(days: seq<int>, sales: map<int, int>): (es: seq<ChartEntry>)
    requires forall k :: 0 <= k < |days| ==> days[k] in sales
    ensures |es| == |days| && forall k :: 0 <= k < |days| ==> es[k] == ChartEntry(days[k], sales[days[k]])
  {
    seq(|days|, k requires 0 <= k < |days| => ChartEntry(days[k], sales[days[k]]))
  }

  /** Sorting keeps exactly the same entries. */
  lemma SortKeepsEntries(es: seq<ChartEntry>)
    ensures |SortByDay(es)| == |es|
    ensures forall e :: e in SortByDay(es) <==> e in es
  {
    var r := SortByDay(es);
    assert |r| == |multiset(r)| == |multiset(es)| == |es|;
    forall e
      ensures e in r <==> e in es
    {
      assert e in r <==> e in multiset(r);
      assert e in es <==> e in multiset(es);
    }
  }

  /** `recentSales`: the grouped days as entries sorted by day, each with its day's total. */
  method SalesChart(sales: seq<Sale>) returns (chart: seq<ChartEntry>)
    ensures ByDayAscending(chart)
    ensures forall e :: e in chart ==> e.amount == DayTotal(sales, e.day)
    ensures forall d :: d in DaysInOrder(sales) <==> exists e :: e in chart && e.day == d
    ensures |chart| == |DaysInOrder(sales)|
  {
    var days, byDay := GroupSalesByDate(sales);
    forall k | 0 <= k < |days|
      ensures days[k] in byDay
    {
      assert days[k] in days;
    }
    chart := SortByDay(Entries(days, byDay));
    SortedEntriesFacts(sales, days, byDay);
  }

  /** The sorted entries of a grouping hold one entry per grouped day, with that day's total. */
  lemma SortedEntriesFacts(sales: seq<Sale>, days: seq<int>, byDay: map<int, int>)
    requires forall k :: 0 <= k < |days| ==> days[k] in byDay
    requires forall d :: d in byDay ==> byDay[d] == DayTotal(sales, d)
    ensures var chart := SortByDay(Entries(days, byDay));
      && (forall e :: e in chart ==> e.amount == DayTotal(sales, e.day))
      && (forall d :: d in days <==> exists e :: e in chart && e.day == d)
      && |chart| == |days|
  {
    var es := Entries(days, byDay);
    var chart := SortByDay(es);
    SortKeepsEntries(es);
    forall e | e in chart
      ensures e.day in days && e.amount == DayTotal(sales, e.day)
    {
      assert e in es;
      var k :| 0 <= k < |es| && es[k] == e;
    }
    forall d | d in days
      ensures exists e :: e in chart && e.day == d
    {
      var k := IndexIn(days, d);
      assert es[k] in es;
      assert es[k] in chart && es[k].day == d;
    }
  }

  datatype Stats = Stats(totalRevenue: int, totalOrders: nat, topProducts: seq<TopProduct>, recentSales: seq<ChartEntry>)

  /**
   * `getDashboardStats` over the order and product tables, the ids of the best-seller listing
   * the database returns (`bestSellers`, before `take`) and the start of the week (`since`),
   * which the handler derives from the clock.
   */
  method GetDashboardStats(db: Database, bestSellers: seq<int>, since: int) returns (r: Stats)
    requires db.Valid()
    requires ProductController.IsProductsReply(db.products, BestsellerQuery, bestSellers)
    ensures r.totalRevenue == Revenue(db.orders, 1, db.nextOrderId)
    ensures r.totalOrders == |db.orders.Keys|
    ensures |r.topProducts| == if |bestSellers| < 5 then |bestSellers| else 5
    ensures SoldDescending(r.topProducts)
    ensures forall k :: 0 <= k < |r.topProducts| ==>
              r.topProducts[k] == TopProduct(db.products[bestSellers[k]].name, db.products[bestSellers[k]].totalSold)
    ensures forall id, k :: id in db.products && id !in bestSellers[..|r.topProducts|] && 0 <= k < |r.topProducts| ==>
              r.topProducts[k].totalSold >= db.products[id].totalSold
    ensures |r.topProducts| < 5 ==> forall id :: id in db.products ==> id in bestSellers[..|r.topProducts|]
    ensures ByDayAscending(r.recentSales)
    ensures var sales := RecentSales(db.orders, since, 1, db.nextOrderId);
      && (forall e :: e in r.recentSales ==> e.amount == DayTotal(sales, e.day))
      && (forall d :: d in DaysInOrder(sales) <==> exists e :: e in r.recentSales && e.day == d)
      && |r.recentSales| == |DaysInOrder(sales)|
  {
    var chart := SalesChart(RecentSales(db.orders, since, 1, db.nextOrderId));
    TopFiveOfTable(db.products, bestSellers);
    r := Stats(Revenue(db.orders, 1, db.nextOrderId), TotalOrders(db.orders), TakeFive(TopRows(db.products, bestSellers)), chart);
  }

  /** The position of `d` in `days`. */
  function IndexIn(days: seq<int>, d: int): (k: nat)
    requires d in days
    ensures k < |days| && days[k] == d
  {
    if days[0] == d then 0 else 1 + IndexIn(days[1..], d)
  }
}
