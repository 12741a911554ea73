/**
 * The sales report: every order with its customer's and product's names, and
 * the revenue of all orders whatever their status.
 */
module Sales {
  import opened Seqs
  import opened Records
  import opened Report
  import Dashboard

  predicate NotCompleted(o: Order)
  {
    !IsCompleted(o)
  }

  /** `totalRevenue`: `order.total || 0` summed over every order. */
  function TotalRevenue(orders: seq<Order>): (r: int)
    ensures orders == [] ==> r == 0
    ensures (forall i :: 0 <= i < |orders| ==> orders[i].total.None?) ==> r == 0
  {
    var r := SumBy(Dashboard.OrderTotal, orders);
    if forall i :: 0 <= i < |orders| ==> orders[i].total.None? then
      SumByZero(Dashboard.OrderTotal, orders);
      r
    else r
  }

  /**
   * The sales total is the dashboard's revenue plus the totals of the orders
   * that are not completed; when no total is negative it is never the smaller
   * of the two, and the two agree when every order is completed.
   */
  lemma SalesVsDashboard(orders: seq<Order>)
    ensures TotalRevenue(orders) == Dashboard.TotalRevenue(orders) + SumBy(Dashboard.OrderTotal, Filter(NotCompleted, orders))
    ensures (forall i :: 0 <= i < |orders| ==> Dashboard.OrderTotal(orders[i]) >= 0) ==>
      Dashboard.TotalRevenue(orders) <= TotalRevenue(orders)
    ensures (forall i :: 0 <= i < |orders| ==> IsCompleted(orders[i])) ==>
      Dashboard.TotalRevenue(orders) == TotalRevenue(orders)
  {
    SumBySplit(Dashboard.OrderTotal, IsCompleted, NotCompleted, orders);
    if forall i :: 0 <= i < |orders| ==> Dashboard.OrderTotal(orders[i]) >= 0 {
      SumByFilterBound(Dashboard.OrderTotal, IsCompleted, orders);
    }
    FilterAll(IsCompleted, orders);
  }
}
