/**
 * The profit/loss report that the profit-loss page and its loop-based twin
 * (the test page) compute: one line per completed order joined with its
 * product, the search and date filters, the sort order, the four totals and
 * the per-product and per-day profit groups.
 */
module Report {
  import opened Common
  import opened Values
  import opened Text
  import opened Seqs
  import opened Records
  import Sorting

  // ---------------------------------------------------------------------------
  // Lines
  // ---------------------------------------------------------------------------

  /** One row of the report. `quantity` is the order's own, possibly missing. */
  datatype Line = Line(
    orderId: Value,
    date: string,
    productName: string,
    quantity: Option<int>,
    revenue: int,
    materialCost: int,
    otherCost: int,
    profit: int)

  /** The profit of a line is its revenue less both costs. */
  predicate Balanced(l: Line)
  {
    l.profit == l.revenue - l.materialCost - l.otherCost
  }

  predicate IsCompleted(o: Order)
  {
    o.status == Completed
  }

  /**
   * The line of an order joined with its product. A missing total, cost or
   * quantity counts as 0.
   */
  function LineFor(o: Order, p: Product): (l: Line)
    ensures Balanced(l)
    ensures l.orderId == o.id && l.date == o.date && l.productName == p.name && l.quantity == o.quantity
    ensures l.revenue == Or0(o.total)
    ensures l.materialCost == Or0(p.materialCost) * Or0(o.quantity)
    ensures l.otherCost == Or0(p.otherCost) * Or0(o.quantity)
  {
    var revenue := Or0(o.total);
    var materialCost := Or0(p.materialCost) * Or0(o.quantity);
    var otherCost := Or0(p.otherCost) * Or0(o.quantity);
    Line(o.id, o.date, p.name, o.quantity, revenue, materialCost, otherCost, revenue - materialCost - otherCost)
  }

  /** The `map` step: the order's line, or `null` when no product has its id. */
  function LineOf(o: Order, ps: seq<Product>): Option<Line>
  {
    match FindProduct(ps, o.productId)
    case None => None
    case Some(p) => Some(LineFor(o, p))
  }

  function Candidates(os: seq<Order>, ps: seq<Product>): (r: seq<Option<Line>>)
    ensures |r| == |os| && forall i :: 0 <= i < |os| ==> r[i] == LineOf(os[i], ps)
  {
    seq(|os|, i requires 0 <= i < |os| => LineOf(os[i], ps))
  }

  /** `.filter(Boolean)`: the lines that are there, in order. */
  function Present(xs: seq<Option<Line>>): (r: seq<Line>)
    ensures |r| <= |xs|
  {
    if xs == [] then []
    else Present(xs[..|xs| - 1]) + (match xs[|xs| - 1] case None => [] case Some(l) => [l])
  }

  /** `allData`: completed orders, joined with their products, orphans dropped. */
  function AllData(os: seq<Order>, ps: seq<Product>): (r: seq<Line>)
    ensures |r| <= |Filter(IsCompleted, os)| <= |os|
  {
    Present(Candidates(Filter(IsCompleted, os), ps))
  }

  /** An order produces a line: it is completed and a product has its id. */
  predicate Qualifies(o: Order, ps: seq<Product>)
  {
    IsCompleted(o) && FindProduct(ps, o.productId).Some?
  }

  function QualifiesFn(ps: seq<Product>): Order -> bool
  {
    (o: Order) => Qualifies(o, ps)
  }

  /** The line of an order that qualifies. */
  function JoinedLine(o: Order, ps: seq<Product>): Line
    requires Qualifies(o, ps)
  {
    LineFor(o, FindProduct(ps, o.productId).value)
  }

  lemma CandidatesAppend(a: seq<Order>, b: seq<Order>, ps: seq<Product>)
    ensures Candidates(a + b, ps) == Candidates(a, ps) + Candidates(b, ps)
  {
  }

  lemma {:induction false} PresentAppend(x: seq<Option<Line>>, y: seq<Option<Line>>)
    ensures Present(x + y) == Present(x) + Present(y)
    decreases |y|
  {
    if y == [] {
      assert x + y == x;
    } else {
      assert (x + y)[..|x + y| - 1] == x + y[..|y| - 1];
      PresentAppend(x, y[..|y| - 1]);
    }
  }

  /** The report of two runs of orders is the two reports one after the other. */
  lemma AllDataAppend(a: seq<Order>, b: seq<Order>, ps: seq<Product>)
    ensures AllData(a + b, ps) == AllData(a, ps) + AllData(b, ps)
  {
    FilterAppend(IsCompleted, a, b);
    CandidatesAppend(Filter(IsCompleted, a), Filter(IsCompleted, b), ps);
    PresentAppend(Candidates(Filter(IsCompleted, a), ps), Candidates(Filter(IsCompleted, b), ps));
  }

  /** A single order gives its line when it qualifies and nothing otherwise. */
  lemma AllDataOfOne(o: Order, ps: seq<Product>)
    ensures Qualifies(o, ps) ==> AllData([o], ps) == [JoinedLine(o, ps)]
    ensures !Qualifies(o, ps) ==> AllData([o], ps) == []
  {
    assert [o][..0] == [];
    var c := Candidates(Filter(IsCompleted, [o]), ps);
    if IsCompleted(o) {
      assert c == [LineOf(o, ps)];
      assert c[..0] == [];
      assert Present(c) == Present([]) + (match LineOf(o, ps) case None => [] case Some(l) => [l]);
    } else {
      assert c == [];
    }
  }

  /**
   * Exactly one line per qualifying order, in the orders' order: the report
   * lines are the joined lines of the orders that are completed and have a
   * product.
   */
  lemma {:induction false} AllDataOnePerOrder(os: seq<Order>, ps: seq<Product>)
    ensures var q := Filter(QualifiesFn(ps), os);
      |AllData(os, ps)| == |q| &&
      forall i :: 0 <= i < |q| ==> Qualifies(q[i], ps) && AllData(os, ps)[i] == JoinedLine(q[i], ps)
    decreases |os|
  {
    if os != [] {
      var init, o := os[..|os| - 1], os[|os| - 1];
      assert os == init + [o];
      AllDataOnePerOrder(init, ps);
      AllDataAppend(init, [o], ps);
      AllDataOfOne(o, ps);
      var a, q := AllData(init, ps), Filter(QualifiesFn(ps), init);
      var r, qs := AllData(os, ps), Filter(QualifiesFn(ps), os);
      assert qs == q + (if Qualifies(o, ps) then [o] else []);
      assert r == a + (if Qualifies(o, ps) then [JoinedLine(o, ps)] else []);
      forall i | 0 <= i < |qs| ensures Qualifies(qs[i], ps) && r[i] == JoinedLine(qs[i], ps) {
        if i < |q| {
          assert qs[i] == q[i] && r[i] == a[i];
        }
      }
    }
  }

  /** Every line of the report is balanced. */
  lemma AllDataBalanced(os: seq<Order>, ps: seq<Product>)
    ensures forall i :: 0 <= i < |AllData(os, ps)| ==> Balanced(AllData(os, ps)[i])
  {
    AllDataOnePerOrder(os, ps);
  }

  /** The orders that are completed but have no product: they are dropped. */
  function Orphans(os: seq<Order>, ps: seq<Product>): (r: seq<Order>)
    ensures forall i :: 0 <= i < |r| ==> IsCompleted(r[i]) && FindProduct(ps, r[i].productId).None?
  {
    if os == [] then []
    else
      var o := os[|os| - 1];
      Orphans(os[..|os| - 1], ps) + (if IsCompleted(o) && FindProduct(ps, o.productId).None? then [o] else [])
  }

  /** Completed orders either give a line or are orphans. */
  lemma {:induction false} LinesAndOrphans(os: seq<Order>, ps: seq<Product>)
    ensures |AllData(os, ps)| + |Orphans(os, ps)| == |Filter(IsCompleted, os)|
    decreases |os|
  {
    if os != [] {
      var init, o := os[..|os| - 1], os[|os| - 1];
      assert os == init + [o];
      LinesAndOrphans(init, ps);
      AllDataAppend(init, [o], ps);
      AllDataOfOne(o, ps);
    }
  }

  // ---------------------------------------------------------------------------
  // Search and date filters
  // ---------------------------------------------------------------------------

  /** The lower-cased product name contains the lower-cased search text. */
  function NameMatchFn(search: string): Line -> bool
  {
    (l: Line) => Contains(Lower(l.productName), Lower(search))
  }

  /** `item.date >= start`, or no bound when `start` is empty. */
  function FromFn(start: string): Line -> bool
  {
    (l: Line) => start == "" || LexLe(start, l.date)
  }

  /** `item.date <= end`, or no bound when `end` is empty. */
  function UntilFn(end: string): Line -> bool
  {
    (l: Line) => end == "" || LexLe(l.date, end)
  }

  /** The three conditions a line must meet to stay in the report. */
  predicate Keep(l: Line, search: string, start: string, end: string)
  {
    && Contains(Lower(l.productName), Lower(search))
    && (start == "" || LexLe(start, l.date))
    && (end == "" || LexLe(l.date, end))
  }

  function KeepFn(search: string, start: string, end: string): Line -> bool
  {
    (l: Line) => Keep(l, search, start, end)
  }

  /** The filter steps of `filteredData`, before the sort. */
  function FilterLines(lines: seq<Line>, search: string, start: string, end: string): (r: seq<Line>)
    ensures |r| <= |lines| && forall l :: l in r ==> l in lines && Keep(l, search, start, end)
  {
    var byName := Filter(NameMatchFn(search), lines);
    var byStart := if start != "" then Filter(FromFn(start), byName) else byName;
    if end != "" then Filter(UntilFn(end), byStart) else byStart
  }

  function NameFromFn(search: string, start: string): Line -> bool
  {
    (l: Line) => Contains(Lower(l.productName), Lower(search)) && (start == "" || LexLe(start, l.date))
  }

  /**
   * The filters keep exactly the lines that meet all three conditions, in
   * their order; the result is a subsequence of the input.
   */
  lemma FilterLinesKeeps(lines: seq<Line>, search: string, start: string, end: string)
    ensures FilterLines(lines, search, start, end) == Filter(KeepFn(search, start, end), lines)
    ensures IsSubsequence(FilterLines(lines, search, start, end), lines)
  {
    var byName := Filter(NameMatchFn(search), lines);
    if start == "" {
      FilterAll(FromFn(start), byName);
    }
    FilterTwice(NameMatchFn(search), FromFn(start), NameFromFn(search, start), lines);
    var byStart := Filter(NameFromFn(search, start), lines);
    if end == "" {
      FilterAll(UntilFn(end), byStart);
    }
    FilterTwice(NameFromFn(search, start), UntilFn(end), KeepFn(search, start, end), lines);
    FilterIsSubsequence(KeepFn(search, start, end), lines);
  }

  /** Empty search text and empty bounds keep every line. */
  lemma FilterLinesNoCriteria(lines: seq<Line>)
    ensures FilterLines(lines, "", "", "") == lines
  {
    FilterLinesKeeps(lines, "", "", "");
    forall i | 0 <= i < |lines| ensures Keep(lines[i], "", "", "") {
      assert Lower("") == "";
    }
    FilterAll(KeepFn("", "", ""), lines);
  }

  // ---------------------------------------------------------------------------
  // Sort order
  // ---------------------------------------------------------------------------

  /**
   * The comparator of `filteredData`'s sort, as "`a` may stand before `b`":
   * `b.revenue - a.revenue`, `b.profit - a.profit`, or the dates with the
   * most recent first.
   */
  predicate Precedes(a: Line, b: Line, key: string)
  {
    if key == "revenue" then a.revenue >= b.revenue
    else if key == "profit" then a.profit >= b.profit
    else LexLe(b.date, a.date)
  }

  function PrecedesFn(key: string): (Line, Line) -> bool
  {
    (a: Line, b: Line) => Precedes(a, b, key)
  }

  lemma PrecedesTotal(key: string)
    ensures Sorting.Total(PrecedesFn(key))
  {
    forall a: Line, b: Line ensures Precedes(a, b, key) || Precedes(b, a, key) {
      LexLeTotal(a.date, b.date);
    }
  }

  lemma PrecedesTransitive(key: string)
    ensures Sorting.Transitive(PrecedesFn(key))
  {
    forall a: Line, b: Line, c: Line | Precedes(a, b, key) && Precedes(b, c, key)
      ensures Precedes(a, c, key)
    {
      if key != "revenue" && key != "profit" {
        LexLeTransitive(c.date, b.date, a.date);
      }
    }
  }

  /** What being sorted by the comparator means for each key. */
  lemma SortedByKey(r: seq<Line>, key: string)
    requires Sorting.Sorted(r, PrecedesFn(key))
    ensures key == "revenue" ==> forall i, j :: 0 <= i < j < |r| ==> r[i].revenue >= r[j].revenue
    ensures key == "profit" ==> forall i, j :: 0 <= i < j < |r| ==> r[i].profit >= r[j].profit
    ensures key != "revenue" && key != "profit" ==>
      forall i, j :: 0 <= i < j < |r| ==> LexLe(r[j].date, r[i].date)
  {
    assert forall i, j :: 0 <= i < j < |r| ==> Precedes(r[i], r[j], key);
  }

  /**
   * Two lines tie under the comparator exactly when the comparator returns
   * 0 for them: the same revenue, the same profit, or the same date.
   */
  lemma TiesByKey(key: string, a: Line, b: Line)
    ensures Sorting.Tied(PrecedesFn(key), a, b) <==>
      if key == "revenue" then a.revenue == b.revenue
      else if key == "profit" then a.profit == b.profit
      else a.date == b.date
  {
    if key != "revenue" && key != "profit" {
      if LexLe(b.date, a.date) && LexLe(a.date, b.date) {
        LexLeAntisymmetric(a.date, b.date);
      }
      LexLeTotal(a.date, a.date);
    }
  }

  // ---------------------------------------------------------------------------
  // Totals
  // ---------------------------------------------------------------------------

  datatype Measure = Revenue | Material | Other | Profit

  function Amount(l: Line, m: Measure): int
  {
    match m
    case Revenue => l.revenue
    case Material => l.materialCost
    case Other => l.otherCost
    case Profit => l.profit
  }

  function AmountFn(m: Measure): Line -> int
  {
    (l: Line) => Amount(l, m)
  }

  /** `lines.reduce((sum, item) => sum + item.<m>, 0)`. */
  function Total(lines: seq<Line>, m: Measure): int
  {
    SumBy(AmountFn(m), lines)
  }

  datatype Summary = Summary(totalRevenue: int, totalMaterial: int, totalOther: int, totalProfit: int)

  /** The four totals, each the sum of its field over the lines. */
  function Totals(lines: seq<Line>): (r: Summary)
    ensures lines == [] ==> r == Summary(0, 0, 0, 0)
    ensures |lines| == 1 ==>
      r == Summary(lines[0].revenue, lines[0].materialCost, lines[0].otherCost, lines[0].profit)
  {
    assert |lines| == 1 ==> forall m :: SumBy(AmountFn(m), lines[..0]) == 0;
    Summary(Total(lines, Revenue), Total(lines, Material), Total(lines, Other), Total(lines, Profit))
  }

  /** `summary.totalProfit >= 0`: a break-even report counts as a profit. */
  predicate IsProfit(s: Summary)
  {
    s.totalProfit >= 0
  }

  /** Total profit is total revenue less both total costs. */
  lemma {:induction false} TotalsBalance(lines: seq<Line>)
    requires forall i :: 0 <= i < |lines| ==> Balanced(lines[i])
    ensures Totals(lines).totalProfit == Totals(lines).totalRevenue - Totals(lines).totalMaterial - Totals(lines).totalOther
    decreases |lines|
  {
    if lines != [] {
      TotalsBalance(lines[..|lines| - 1]);
    }
  }
  /** On balanced lines the report shows a profit exactly when revenue covers both costs. */
  lemma ProfitWhenRevenueCovers(lines: seq<Line>)
    requires forall i :: 0 <= i < |lines| ==> Balanced(lines[i])
    ensures var t := Totals(lines); IsProfit(t) <==> t.totalRevenue >= t.totalMaterial + t.totalOther
  {
    TotalsBalance(lines);
  }


  /** The totals do not depend on the order of the lines. */
  lemma TotalsPermutation(a: seq<Line>, b: seq<Line>)
    requires multiset(a) == multiset(b)
    ensures Totals(a) == Totals(b)
  {
    SumByPermutation(AmountFn(Revenue), a, b);
    SumByPermutation(AmountFn(Material), a, b);
    SumByPermutation(AmountFn(Other), a, b);
    SumByPermutation(AmountFn(Profit), a, b);
  }

  // ---------------------------------------------------------------------------
  // Profit groups
  // ---------------------------------------------------------------------------

  /** The key a chart groups profit by. */
  datatype GroupKey = ByProduct | ByDate

  function KeyOf(l: Line, g: GroupKey): string
  {
    match g
    case ByProduct => l.productName
    case ByDate => l.date
  }

  function KeysOf(lines: seq<Line>, g: GroupKey): (r: seq<string>)
    ensures |r| == |lines| && forall i :: 0 <= i < |lines| ==> r[i] == KeyOf(lines[i], g)
  {
    seq(|lines|, i requires 0 <= i < |lines| => KeyOf(lines[i], g))
  }

  /** The profit of the lines whose key is `k`. */
  function GroupTotal(lines: seq<Line>, g: GroupKey, k: string): int
  {
    if lines == [] then 0
    else
      var l := lines[|lines| - 1];
      GroupTotal(lines[..|lines| - 1], g, k) + (if KeyOf(l, g) == k then l.profit else 0)
  }

  function GroupTotalFn(lines: seq<Line>, g: GroupKey): string -> int
  {
    (k: string) => GroupTotal(lines, g, k)
  }

  lemma {:induction false} GroupTotalOfAbsent(lines: seq<Line>, g: GroupKey, k: string)
    requires forall i :: 0 <= i < |lines| ==> KeyOf(lines[i], g) != k
    ensures GroupTotal(lines, g, k) == 0
    decreases |lines|
  {
    if lines != [] {
      GroupTotalOfAbsent(lines[..|lines| - 1], g, k);
    }
  }

  /** Adding a line adds its profit to the sum over keys exactly when its key is among them once. */
  lemma {:induction false} GroupSumStep(lines: seq<Line>, l: Line, g: GroupKey, keys: seq<string>)
    requires NoDuplicates(keys)
    ensures SumBy(GroupTotalFn(lines + [l], g), keys)
         == SumBy(GroupTotalFn(lines, g), keys) + (if KeyOf(l, g) in keys then l.profit else 0)
    decreases |keys|
  {
    assert (lines + [l])[..|lines + [l]| - 1] == lines;
    if keys != [] {
      var init := keys[..|keys| - 1];
      GroupSumStep(lines, l, g, init);
      assert keys == init + [keys[|keys| - 1]];
    }
  }

  /** The group totals, one per distinct key, add up to the total profit. */
  lemma {:induction false} GroupsSumToTotal(lines: seq<Line>, g: GroupKey)
    ensures SumBy(GroupTotalFn(lines, g), Distinct(KeysOf(lines, g))) == Total(lines, Profit)
    decreases |lines|
  {
    if lines != [] {
      var init, l := lines[..|lines| - 1], lines[|lines| - 1];
      var k := KeyOf(l, g);
      var ks := KeysOf(lines, g);
      assert ks[..|ks| - 1] == KeysOf(init, g);
      var d := Distinct(KeysOf(init, g));
      assert Distinct(ks) == if k in d then d else d + [k];
      assert Total(lines, Profit) == Total(init, Profit) + l.profit;
      assert lines == init + [l];
      GroupsSumToTotal(init, g);
      if k in d {
        GroupSumStep(init, l, g, d);
      } else {
        GroupSumUnseen(init, l, g, d);
      }
    }
  }

  /** A new key adds a group that holds just the new line's profit. */
  lemma GroupSumUnseen(init: seq<Line>, l: Line, g: GroupKey, d: seq<string>)
    requires d == Distinct(KeysOf(init, g)) && KeyOf(l, g) !in d
    ensures SumBy(GroupTotalFn(init + [l], g), d + [KeyOf(l, g)])
         == SumBy(GroupTotalFn(init, g), d) + l.profit
  {
    var k := KeyOf(l, g);
    GroupSumStep(init, l, g, d + [k]);
    assert (d + [k])[..|d|] == d;
    forall i | 0 <= i < |init| ensures KeyOf(init[i], g) != k {
      assert KeysOf(init, g)[i] in d;
    }
    GroupTotalOfAbsent(init, g, k);
  }

  /** A group gains the profit of a new line when the line has its key. */
  lemma GroupTotalExtend(lines: seq<Line>, l: Line, g: GroupKey, k: string)
    ensures GroupTotal(lines + [l], g, k) == GroupTotal(lines, g, k) + (if KeyOf(l, g) == k then l.profit else 0)
  {
    assert (lines + [l])[..|lines|] == lines;
  }
}
