/**
 * The steps of the profit-loss page that work by changing things: the
 * in-place sort of the filtered lines, the `reduce` whose accumulator is
 * updated field by field, and the `forEach` loops that fill the per-product
 * and per-day profit dictionaries. The test page runs the same code for
 * each of these.
 */
module ProfitLoss {
  import opened Text
  import opened Seqs
  import opened Report
  import Sorting

  /**
   * `filteredData`: the lines that pass the search and date filters, sorted
   * in place by the chosen key, largest or most recent first.
   */
  method FilteredData(all: seq<Line>, search: string, start: string, end: string, key: string)
    returns (r: seq<Line>)
    ensures multiset(r) == multiset(Filter(KeepFn(search, start, end), all))
    ensures multiset(r) <= multiset(all)
    ensures forall i :: 0 <= i < |r| ==> r[i] in all && Keep(r[i], search, start, end)
    ensures Sorting.Sorted(r, PrecedesFn(key))
    ensures key == "revenue" ==> forall i, j :: 0 <= i < j < |r| ==> r[i].revenue >= r[j].revenue
    ensures key == "profit" ==> forall i, j :: 0 <= i < j < |r| ==> r[i].profit >= r[j].profit
    ensures key != "revenue" && key != "profit" ==>
      forall i, j :: 0 <= i < j < |r| ==> LexLe(r[j].date, r[i].date)
    ensures Sorting.KeepsTies(r, Filter(KeepFn(search, start, end), all), PrecedesFn(key))
  {
    var filtered := FilterLines(all, search, start, end);
    FilterLinesKeeps(all, search, start, end);
    r := SortLines(filtered, key);
    forall i | 0 <= i < |r| ensures r[i] in all && Keep(r[i], search, start, end) {
      assert r[i] in multiset(filtered);
    }
    SortedByKey(r, key);
    FilterSubMultiset(KeepFn(search, start, end), all);
  }

  /**
   * `result.sort(...)` on a fresh array holding the lines. The sort is
   * stable, as `Array.prototype.sort` has been required to be since
   * ECMAScript 2019: lines that tie keep the order they had.
   */
  method SortLines(lines: seq<Line>, key: string) returns (r: seq<Line>)
    ensures multiset(r) == multiset(lines)
    ensures Sorting.Sorted(r, PrecedesFn(key))
    ensures Sorting.KeepsTies(r, lines, PrecedesFn(key))
  {
    var a := new Line[|lines|](i requires 0 <= i < |lines| => lines[i]);
    assert a[..] == lines;
    PrecedesTotal(key);
    PrecedesTransitive(key);
    Sorting.InsertionSort(a, PrecedesFn(key));
    r := a[..];
    Sorting.NeighboursSortedIsSorted(r, PrecedesFn(key));
  }

  /**
   * `summary`: one pass over the lines, adding each field of each line to
   * its running total.
   */
  method Summarize(lines: seq<Line>) returns (s: Summary)
    ensures s == Totals(lines)
    ensures lines == [] ==> s == Summary(0, 0, 0, 0) && IsProfit(s)
  {
    var totalRevenue, totalMaterial, totalOther, totalProfit := 0, 0, 0, 0;
    for i := 0 to |lines|
      invariant Summary(totalRevenue, totalMaterial, totalOther, totalProfit) == Totals(lines[..i])
    {
      assert lines[..i + 1][..i] == lines[..i];
      totalRevenue := totalRevenue + lines[i].revenue;
      totalMaterial := totalMaterial + lines[i].materialCost;
      totalOther := totalOther + lines[i].otherCost;
      totalProfit := totalProfit + lines[i].profit;
    }
    assert lines[..|lines|] == lines;
    s := Summary(totalRevenue, totalMaterial, totalOther, totalProfit);
  }

  /**
   * The `forEach` that adds each line's profit to the entry of its key,
   * starting a new entry at 0. `keys` is the entries' order as
   * `Object.keys` lists them: the order of first occurrence.
   */
  method GroupProfits(lines: seq<Line>, g: GroupKey) returns (keys: seq<string>, totals: map<string, int>)
    ensures keys == Distinct(KeysOf(lines, g))
    ensures forall k :: k in totals <==> k in keys
    ensures forall k :: k in totals ==> totals[k] == GroupTotal(lines, g, k)
  {
    keys, totals := [], map[];
    for i := 0 to |lines|
      invariant keys == Distinct(KeysOf(lines[..i], g))
      invariant totals == GroupMap(lines[..i], g)
    {
      GroupTurn(lines, i, g);
      var k := KeyOf(lines[i], g);
      totals := AddProfit(totals, k, lines[i].profit);
      if k !in keys {
        keys := keys + [k];
      }
    }
    assert lines[..|lines|] == lines;
    GroupMapSpec(lines, g);
  }

  /** The dictionary the `forEach` builds, one line at a time. */
  function GroupMap(lines: seq<Line>, g: GroupKey): map<string, int>
  {
    if lines == [] then map[]
    else
      var l := lines[|lines| - 1];
      AddProfit(GroupMap(lines[..|lines| - 1], g), KeyOf(l, g), l.profit)
  }

  /** `map[key] = (map[key] || 0) + profit`. */
  function AddProfit(m: map<string, int>, k: string, profit: int): map<string, int>
  {
    m[k := (if k in m then m[k] else 0) + profit]
  }

  /** The dictionary has an entry for each key of the lines, holding the profit of that key's lines. */
  lemma {:induction false} GroupMapSpec(lines: seq<Line>, g: GroupKey)
    ensures forall k :: k in GroupMap(lines, g) <==> k in KeysOf(lines, g)
    ensures forall k :: k in GroupMap(lines, g) ==> GroupMap(lines, g)[k] == GroupTotal(lines, g, k)
    decreases |lines|
  {
    if lines != [] {
      var init, l := lines[..|lines| - 1], lines[|lines| - 1];
      assert lines == init + [l];
      GroupMapSpec(init, g);
      assert KeysOf(lines, g) == KeysOf(init, g) + [KeyOf(l, g)];
      var m := GroupMap(init, g);
      forall k | k in GroupMap(lines, g) ensures GroupMap(lines, g)[k] == GroupTotal(lines, g, k) {
        GroupTotalExtend(init, l, g, k);
        if k !in m {
          GroupTotalOfAbsent(init, g, k);
        }
      }
    }
  }

  /** One turn of the `forEach` in `GroupProfits`: the line's key and profit join the groups. */
  lemma GroupTurn(lines: seq<Line>, i: int, g: GroupKey)
    requires 0 <= i < |lines|
    ensures var d, m, k := Distinct(KeysOf(lines[..i], g)), GroupMap(lines[..i], g), KeyOf(lines[i], g);
      && Distinct(KeysOf(lines[..i + 1], g)) == (if k in d then d else d + [k])
      && GroupMap(lines[..i + 1], g) == AddProfit(m, k, lines[i].profit)
  {
    assert lines[..i + 1] == lines[..i] + [lines[i]];
    KeysStep(lines[..i], lines[i], g);
  }

  /** One turn of the `forEach` in `GroupProfits`: the new key list. */
  lemma KeysStep(init: seq<Line>, l: Line, g: GroupKey)
    ensures var d := Distinct(KeysOf(init, g));
      Distinct(KeysOf(init + [l], g)) == if KeyOf(l, g) in d then d else d + [KeyOf(l, g)]
  {
    assert KeysOf(init + [l], g)[..|init|] == KeysOf(init, g);
  }

  /**
   * `productLabels` and `productProfits`: one entry per distinct product
   * name, in order of first occurrence, each the profit of that name's
   * lines; together they add up to the total profit.
   */
  method ProductProfit(lines: seq<Line>) returns (labels: seq<string>, profits: seq<int>)
    ensures labels == Distinct(KeysOf(lines, ByProduct))
    ensures |profits| == |labels|
    ensures forall i :: 0 <= i < |labels| ==> profits[i] == GroupTotal(lines, ByProduct, labels[i])
    ensures Sum(profits) == Total(lines, Profit)
  {
    var totals;
    labels, totals := GroupProfits(lines, ByProduct);
    profits := seq(|labels|, i requires 0 <= i < |labels| => totals[labels[i]]);
    SumOfImages(GroupTotalFn(lines, ByProduct), labels, profits);
    GroupsSumToTotal(lines, ByProduct);
  }

  lemma LexLeIsTotal()
    ensures Sorting.Total(LexLe)
  {
    forall a: string, b: string ensures LexLe(a, b) || LexLe(b, a) {
      LexLeTotal(a, b);
    }
  }

  lemma LexLeIsTransitive()
    ensures Sorting.Transitive(LexLe)
  {
    forall a: string, b: string, c: string | LexLe(a, b) && LexLe(b, c) ensures LexLe(a, c) {
      LexLeTransitive(a, b, c);
    }
  }

  /**
   * `trendDates` and `trendValues`: the days that have lines, each once and
   * in ascending order, each with the profit of that day's lines; the values
   * add up to the total profit.
   */
  method DailyProfit(lines: seq<Line>) returns (dates: seq<string>, values: seq<int>)
    ensures multiset(dates) == multiset(Distinct(KeysOf(lines, ByDate)))
    ensures forall i, j :: 0 <= i < j < |dates| ==> LexLe(dates[i], dates[j]) && dates[i] != dates[j]
    ensures |values| == |dates|
    ensures forall i :: 0 <= i < |dates| ==> values[i] == GroupTotal(lines, ByDate, dates[i])
    ensures Sum(values) == Total(lines, Profit)
  {
    var keys, totals := GroupProfits(lines, ByDate);
    dates := SortDates(keys);
    forall i | 0 <= i < |dates| ensures dates[i] in totals {
      assert dates[i] in multiset(keys);
    }
    values := seq(|dates|, i requires 0 <= i < |dates| => totals[dates[i]]);
    SumOfImages(GroupTotalFn(lines, ByDate), dates, values);
    SumByPermutation(GroupTotalFn(lines, ByDate), dates, keys);
    GroupsSumToTotal(lines, ByDate);
  }

  /** `Object.keys(dailyProfit).sort()`: the default sort compares strings. */
  method SortDates(keys: seq<string>) returns (dates: seq<string>)
    requires NoDuplicates(keys)
    ensures multiset(dates) == multiset(keys)
    ensures forall i, j :: 0 <= i < j < |dates| ==> LexLe(dates[i], dates[j]) && dates[i] != dates[j]
  {
    var a := new string[|keys|](i requires 0 <= i < |keys| => keys[i]);
    assert a[..] == keys;
    LexLeIsTotal();
    LexLeIsTransitive();
    Sorting.InsertionSort(a, LexLe);
    dates := a[..];
    Sorting.NeighboursSortedIsSorted(dates, LexLe);
    NoDuplicatesPermutation(keys, dates);
  }
}
