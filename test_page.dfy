/**
 * The test page: a copy of the profit-loss page whose `allData` is a `for`
 * loop with `continue` and `push`, and whose summary is four separate
 * `reduce` sums. Its filters, sort, grouping and export are the profit-loss
 * page's code unchanged, and the model shares them.
 */
module TestPage {
  import opened Common
  import opened Seqs
  import opened Records
  import opened Report

  /**
   * `allData` as a loop: skip an order that is not completed, skip one whose
   * product is missing, push the line of every other one. It gives exactly
   * the profit-loss page's `filter`/`map`/`filter` result.
   */
  method AllDataLoop(orders: seq<Order>, products: seq<Product>) returns (data: seq<Line>)
    ensures data == AllData(orders, products)
  {
    data := [];
    for i := 0 to |orders|
      invariant data == AllData(orders[..i], products)
    {
      var order := orders[i];
      assert orders[..i + 1] == orders[..i] + [order];
      AllDataAppend(orders[..i], [order], products);
      AllDataOfOne(order, products);
      if order.status != Completed {
        continue;
      }
      var product := FindProduct(products, order.productId);
      if product.None? {
        continue;
      }
      data := data + [LineFor(order, product.value)];
    }
    assert orders[..|orders|] == orders;
  }

  function RevenueOf(l: Line): int { l.revenue }
  function MaterialOf(l: Line): int { l.materialCost }
  function OtherOf(l: Line): int { l.otherCost }
  function ProfitOf(l: Line): int { l.profit }

  /** The four `reduce` sums of the test page's `summary`. */
  function FourSums(lines: seq<Line>): Summary
  {
    Summary(SumBy(RevenueOf, lines), SumBy(MaterialOf, lines), SumBy(OtherOf, lines), SumBy(ProfitOf, lines))
  }

  /**
   * The four sums are the report's totals, so on lines built from orders the
   * profit total is the revenue total less both cost totals.
   */
  lemma {:induction false} FourSumsAreTotals(lines: seq<Line>)
    ensures FourSums(lines) == Totals(lines)
    decreases |lines|
  {
    if lines != [] {
      FourSumsAreTotals(lines[..|lines| - 1]);
    }
  }

  /** On the report's own lines the four sums balance, whatever filter and order came before. */
  lemma FourSumsBalance(orders: seq<Order>, products: seq<Product>, shown: seq<Line>)
    requires multiset(shown) <= multiset(AllData(orders, products))
    ensures var s := FourSums(shown); s.totalProfit == s.totalRevenue - s.totalMaterial - s.totalOther
    ensures shown == [] ==> IsProfit(FourSums(shown))
  {
    AllDataBalanced(orders, products);
    forall i | 0 <= i < |shown| ensures Balanced(shown[i]) {
      assert shown[i] in multiset(AllData(orders, products));
    }
    FourSumsAreTotals(shown);
    TotalsBalance(shown);
  }
}
