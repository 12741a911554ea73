/**
 * The dashboard's figures: revenue and expenses from completed orders, the
 * net profit and its sign, the order status counts and the products that
 * are low on stock.
 */
module Dashboard {
  import opened Common
  import opened Seqs
  import opened Records
  import opened Report

  /** `order.total || 0`. */
  function OrderTotal(o: Order): int
  {
    Or0(o.total)
  }

  /** `totalRevenue`: every completed order counts, with or without a product. */
  function TotalRevenue(orders: seq<Order>): (r: int)
    ensures (forall i :: 0 <= i < |orders| ==> !IsCompleted(orders[i])) ==> r == 0
  {
    FilterEmpty(IsCompleted, orders);
    SumBy(OrderTotal, Filter(IsCompleted, orders))
  }

  /**
   * The cost of one completed order: nothing when no product has its id,
   * otherwise the product's two unit costs times the quantity, each missing
   * number counting as 0.
   */
  function OrderCost(o: Order, products: seq<Product>): (r: int)
    ensures FindProduct(products, o.productId).None? || o.quantity.None? ==> r == 0
    ensures FindProduct(products, o.productId).Some? ==>
      var p := FindProduct(products, o.productId).value;
      Or0(p.materialCost) >= 0 && Or0(p.otherCost) >= 0 && Or0(o.quantity) >= 0 ==> r >= 0
  {
    match FindProduct(products, o.productId)
    case None => 0
    case Some(p) => (Or0(p.materialCost) + Or0(p.otherCost)) * Or0(o.quantity)
  }

  /** The `reduce` of `totalExpenses` over the completed orders. */
  function Expenses(completed: seq<Order>, products: seq<Product>): int
  {
    if completed == [] then 0
    else Expenses(completed[..|completed| - 1], products) + OrderCost(completed[|completed| - 1], products)
  }

  function TotalExpenses(orders: seq<Order>, products: seq<Product>): (r: int)
    ensures (forall i :: 0 <= i < |orders| ==> !IsCompleted(orders[i])) ==> r == 0
  {
    FilterEmpty(IsCompleted, orders);
    Expenses(Filter(IsCompleted, orders), products)
  }

  function NetProfit(orders: seq<Order>, products: seq<Product>): (r: int)
    ensures (forall i :: 0 <= i < |orders| ==> !IsCompleted(orders[i])) ==> r == 0
  {
    TotalRevenue(orders) - TotalExpenses(orders, products)
  }

  /** `netProfit >= 0`. */
  predicate IsProfit(orders: seq<Order>, products: seq<Product>)
  {
    NetProfit(orders, products) >= 0
  }

  predicate IsWaiting(o: Order)
  {
    o.status == Waiting
  }

  function CompletedOrders(orders: seq<Order>): (r: nat)
    ensures r <= |orders|
    ensures r == 0 <==> forall i :: 0 <= i < |orders| ==> !IsCompleted(orders[i])
  {
    FilterEmpty(IsCompleted, orders);
    |Filter(IsCompleted, orders)|
  }

  function PendingOrders(orders: seq<Order>): (r: nat)
    ensures r <= |orders|
    ensures r == 0 <==> forall i :: 0 <= i < |orders| ==> !IsWaiting(orders[i])
  {
    FilterEmpty(IsWaiting, orders);
    |Filter(IsWaiting, orders)|
  }

  /** `p.stock !== undefined && p.stock <= 5 && p.stock >= 0`. */
  predicate LowStock(p: Product)
  {
    p.stock.Some? && 0 <= p.stock.value <= 5
  }

  /** `lowStockProducts`. */
  function LowStockProducts(products: seq<Product>): (r: seq<Product>)
    ensures |r| <= |products| && forall i :: 0 <= i < |r| ==> LowStock(r[i])
  {
    Filter(LowStock, products)
  }

  // ---------------------------------------------------------------------------
  // The dashboard against the profit/loss report
  // ---------------------------------------------------------------------------

  /** One more order, completed or not, among the completed orders. */
  lemma CompletedStep(init: seq<Order>, o: Order)
    ensures Filter(IsCompleted, init + [o]) == Filter(IsCompleted, init) + (if IsCompleted(o) then [o] else [])
  {
    assert (init + [o])[..|init|] == init;
  }

  lemma RevenueStep(init: seq<Order>, o: Order)
    ensures TotalRevenue(init + [o]) == TotalRevenue(init) + (if IsCompleted(o) then OrderTotal(o) else 0)
  {
    CompletedStep(init, o);
    SumByAppend(OrderTotal, Filter(IsCompleted, init), if IsCompleted(o) then [o] else []);
    assert SumBy(OrderTotal, [o]) == OrderTotal(o) by {
      assert [o][..0] == [];
    }
  }

  lemma ExpensesStep(init: seq<Order>, o: Order, products: seq<Product>)
    ensures TotalExpenses(init + [o], products) == TotalExpenses(init, products) + (if IsCompleted(o) then OrderCost(o, products) else 0)
  {
    CompletedStep(init, o);
    var c := Filter(IsCompleted, init);
    if IsCompleted(o) {
      assert (c + [o])[..|c|] == c;
      assert Expenses(c + [o], products) == Expenses(c, products) + OrderCost(o, products);
    } else {
      assert c + [] == c;
    }
  }

  /** The cost of an order with a product is the two costs of its report line. */
  lemma OrderCostOfLine(o: Order, products: seq<Product>)
    ensures Qualifies(o, products) ==>
      OrderCost(o, products) == JoinedLine(o, products).materialCost + JoinedLine(o, products).otherCost
    ensures FindProduct(products, o.productId).None? ==> OrderCost(o, products) == 0
  {
    match FindProduct(products, o.productId)
    case None =>
    case Some(p) =>
      var m, x, q := Or0(p.materialCost), Or0(p.otherCost), Or0(o.quantity);
      assert (m + x) * q == m * q + x * q;
  }

  /**
   * The dashboard's revenue is the report's revenue plus the totals of the
   * completed orders that have no product.
   */
  lemma {:induction false} RevenueVsReport(orders: seq<Order>, products: seq<Product>)
    ensures TotalRevenue(orders) == Total(AllData(orders, products), Revenue) + SumBy(OrderTotal, Orphans(orders, products))
    decreases |orders|
  {
    if orders != [] {
      var init, o := orders[..|orders| - 1], orders[|orders| - 1];
      assert orders == init + [o];
      RevenueVsReport(init, products);
      RevenueStep(init, o);
      AllDataAppend(init, [o], products);
      AllDataOfOne(o, products);
      SumByAppend(AmountFn(Revenue), AllData(init, products), AllData([o], products));
      var orphan := if IsCompleted(o) && FindProduct(products, o.productId).None? then [o] else [];
      SumByAppend(OrderTotal, Orphans(init, products), orphan);
    }
  }

  /** The report's two costs of a single order are the dashboard's cost of it. */
  lemma CostsOfOne(o: Order, products: seq<Product>)
    ensures var one := AllData([o], products);
      Total(one, Material) + Total(one, Other) == if IsCompleted(o) then OrderCost(o, products) else 0
  {
    var one := AllData([o], products);
    AllDataOfOne(o, products);
    OrderCostOfLine(o, products);
    if Qualifies(o, products) {
      var l := JoinedLine(o, products);
      assert one == [l];
      assert one[..|one| - 1] == [];
      assert SumBy(AmountFn(Material), one) == SumBy(AmountFn(Material), []) + AmountFn(Material)(l);
      assert SumBy(AmountFn(Other), one) == SumBy(AmountFn(Other), []) + AmountFn(Other)(l);
    }
  }

  /** The report's two costs grow by the cost of one more completed order. */
  lemma CostsStep(init: seq<Order>, o: Order, products: seq<Product>)
    ensures var all, all' := AllData(init, products), AllData(init + [o], products);
      Total(all', Material) + Total(all', Other)
      == Total(all, Material) + Total(all, Other) + (if IsCompleted(o) then OrderCost(o, products) else 0)
  {
    var all, one := AllData(init, products), AllData([o], products);
    AllDataAppend(init, [o], products);
    SumByAppend(AmountFn(Material), all, one);
    SumByAppend(AmountFn(Other), all, one);
    CostsOfOne(o, products);
  }

  /** The dashboard's expenses are the report's material and other costs together. */
  lemma {:induction false} ExpensesVsReport(orders: seq<Order>, products: seq<Product>)
    ensures TotalExpenses(orders, products) == Total(AllData(orders, products), Material) + Total(AllData(orders, products), Other)
    decreases |orders|
  {
    if orders != [] {
      var init, o := orders[..|orders| - 1], orders[|orders| - 1];
      assert orders == init + [o];
      ExpensesVsReport(init, products);
      ExpensesStep(init, o, products);
      CostsStep(init, o, products);
    }
  }

  /**
   * The net profit is the report's total profit plus the revenue of the
   * orphan orders, and equals it exactly when there is no orphan revenue.
   */
  lemma NetProfitVsReport(orders: seq<Order>, products: seq<Product>)
    ensures NetProfit(orders, products) == Total(AllData(orders, products), Profit) + SumBy(OrderTotal, Orphans(orders, products))
    ensures Orphans(orders, products) == [] ==> NetProfit(orders, products) == Total(AllData(orders, products), Profit)
  {
    RevenueVsReport(orders, products);
    ExpensesVsReport(orders, products);
    AllDataBalanced(orders, products);
    TotalsBalance(AllData(orders, products));
  }

  /**
   * The dashboard and the profit/loss report call the same period a profit
   * when no completed order lacks its product; orphan revenue that is not
   * negative can only turn the report's loss into the dashboard's profit.
   */
  lemma ProfitVerdictVsReport(orders: seq<Order>, products: seq<Product>)
    ensures Orphans(orders, products) == [] ==>
      (IsProfit(orders, products) <==> Report.IsProfit(Totals(AllData(orders, products))))
    ensures SumBy(OrderTotal, Orphans(orders, products)) >= 0 && Report.IsProfit(Totals(AllData(orders, products))) ==>
      IsProfit(orders, products)
  {
    NetProfitVsReport(orders, products);
  }

  /** No order is both completed and waiting, so the two counts fit in the number of orders. */
  lemma {:induction false} StatusCounts(orders: seq<Order>)
    ensures CompletedOrders(orders) + PendingOrders(orders) <= |orders|
    decreases |orders|
  {
    if orders != [] {
      StatusCounts(orders[..|orders| - 1]);
    }
  }

  /** The low-stock list keeps, in order, exactly the products whose stock is known and between 0 and 5. */
  lemma LowStockIsSubsequence(products: seq<Product>)
    ensures IsSubsequence(LowStockProducts(products), products)
    ensures forall p :: p in LowStockProducts(products) <==> p in products && LowStock(p)
  {
    FilterIsSubsequence(LowStock, products);
  }
}
