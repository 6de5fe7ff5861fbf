/**
  The `update_dashboard` callback without its rendering: filter the rows by
  the picked date range, categories and regions, then either show "Нет
  данных" everywhere or compute the four metric cards and the data behind
  the four charts.
 */
module Dashboard {
  import opened Ordering
  import opened Calendar
  import opened Sales
  import opened GroupBy
  import opened Pivot

  /** The callback's inputs: the date picker's two ends and the two dropdown selections. */
  datatype Selection = Selection(start: Date, end: Date, categories: seq<string>, regions: seq<string>)

  /** The boolean mask: all four comparisons must hold. */
  predicate Keeps(sel: Selection, r: Record) {
    && DateLe(sel.start, r.date)
    && DateLe(r.date, sel.end)
    && r.category in sel.categories
    && r.region in sel.regions
  }

  /** `df[mask]`: the rows the mask selects, in their original order. */
  function FilterRows(rows: seq<Record>, sel: Selection): (kept: seq<Record>)
    ensures forall r :: multiset(kept)[r] == if Keeps(sel, r) then multiset(rows)[r] else 0
    ensures forall r :: r in kept <==> r in rows && Keeps(sel, r)
  {
    if rows == [] then []
    else
      assert rows == [rows[0]] + rows[1..];
      if Keeps(sel, rows[0]) then [rows[0]] + FilterRows(rows[1..], sel)
      else FilterRows(rows[1..], sel)
  }

  /** Everything the callback shows when some row is selected. */
  datatype Report = Report(
    totalRevenue: int,
    avgOrder: real,
    totalOrders: nat,
    topRegion: string,
    byDate: Series<Date>,
    byCategory: Series<string>,
    byRegion: Series<string>,
    seasonality: Table,
    monthLabels: seq<string>)

  /** `NoData` is the branch that puts "Нет данных" in all eight outputs. */
  datatype View = NoData | Shown(report: Report)

  /** The metrics and chart data of a non-empty selection. */
  function Summarize(kept: seq<Record>): (rep: Report)
    requires kept != []
    ensures rep.totalOrders == |kept|
    ensures rep.totalRevenue == Total(kept)
    ensures rep.avgOrder == Mean(rep.totalRevenue, rep.totalOrders)
    ensures SeriesTotal(rep.byDate) == rep.totalRevenue
    ensures SeriesTotal(rep.byCategory) == rep.totalRevenue
    ensures SeriesTotal(rep.byRegion) == rep.totalRevenue
    ensures GridTotal(rep.seasonality.cells) == rep.totalRevenue
    ensures exists r :: r in kept && r.region == rep.topRegion
  {
    var byRegion := GroupSum(kept, RegionOf, StrLt);
    assert RegionOf(kept[0]) in KeySet(kept, RegionOf);
    var top := byRegion[FirstMax(byRegion)].key;
    assert top in KeysOf(byRegion);
    SeasonalityTotal(kept);
    var avg := Mean(Total(kept), |kept|);
    Report(
      Total(kept),
      avg,
      |kept|,
      top,
      GroupSum(kept, DateOf, DateLt),
      GroupSum(kept, CategoryOf, StrLt),
      byRegion,
      Seasonality(kept),
      MonthLabels(kept))
  }

  /** avg is the mean of n values that sum to total. */
  predicate IsMean(avg: real, total: int, n: nat) {
    avg * (n as real) == total as real
  }

  /** `.mean()` of n values summing to total, in exact arithmetic. */
  function Mean(total: int, n: nat): (avg: real)
    requires n > 0
    ensures IsMean(avg, total, n)
  {
    var avg := total as real / n as real;
    assert avg * (n as real) == total as real;
    avg
  }

  /** The callback: "no data" exactly when the mask selects nothing. */
  function UpdateDashboard(rows: seq<Record>, sel: Selection): (v: View)
    ensures v.NoData? <==> forall r :: r in rows ==> !Keeps(sel, r)
    ensures v.Shown? ==> v.report.totalOrders == |FilterRows(rows, sel)|
  {
    var kept := FilterRows(rows, sel);
    if |kept| == 0 then NoData
    else
      Shown(Summarize(kept))
  }

  /**
    The three number cards of a non-empty selection: the order count is the
    number of selected rows, the revenue their revenue, and average times
    count gives back the revenue.
   */
  lemma Metrics(rows: seq<Record>, sel: Selection)
    requires exists r :: r in rows && Keeps(sel, r)
    ensures var rep := UpdateDashboard(rows, sel).report;
      && rep.totalOrders == |FilterRows(rows, sel)|
      && rep.totalRevenue == Total(FilterRows(rows, sel))
      && IsMean(rep.avgOrder, rep.totalRevenue, rep.totalOrders)
  {
    var rep := UpdateDashboard(rows, sel).report;
    assert rep.avgOrder == Mean(rep.totalRevenue, rep.totalOrders);
  }

  /** Filtering a concatenation filters each part: the kept rows keep their relative order. */
  lemma {:induction false} FilterRowsAppend(a: seq<Record>, b: seq<Record>, sel: Selection)
    ensures FilterRows(a + b, sel) == FilterRows(a, sel) + FilterRows(b, sel)
    decreases |a|
  {
    if a == [] {
      assert a + b == b;
    } else {
      var ab := a + b;
      assert ab[0] == a[0] && ab[1..] == a[1..] + b;
      FilterRowsAppend(a[1..], b, sel);
      var x, y := FilterRows(a[1..], sel), FilterRows(b, sel);
      if Keeps(sel, a[0]) {
        assert [a[0]] + x + y == [a[0]] + (x + y);
      }
    }
  }

  /**
    No category picked, no region picked, or a start after the end: nothing
    passes the mask, whatever the rows, and every output says "Нет данных".
   */
  lemma EmptySelectionShowsNoData(rows: seq<Record>, sel: Selection)
    requires sel.categories == [] || sel.regions == [] || DateLt(sel.end, sel.start)
    ensures FilterRows(rows, sel) == []
    ensures UpdateDashboard(rows, sel) == NoData
  {
    forall r | r in rows ensures !Keeps(sel, r) {
      if DateLt(sel.end, sel.start) && DateLe(sel.start, r.date) {
        assert !DateLe(r.date, sel.end);
      }
    }
    var kept := FilterRows(rows, sel);
    assert multiset(kept) == multiset{};
  }

  /**
    `groupby('Регион').sum().idxmax()`: the top region is a region of some
    selected row, no region earns more, and among regions that earn as much
    it is the smallest key (groups are sorted, idxmax takes the first).
   */
  lemma TopRegion(rows: seq<Record>, sel: Selection)
    requires exists r :: r in rows && Keeps(sel, r)
    ensures var kept := FilterRows(rows, sel);
      var top := UpdateDashboard(rows, sel).report.topRegion;
      && (exists r :: r in kept && r.region == top)
      && (forall r :: r in kept ==> SumWhere(kept, RegionOf, r.region) <= SumWhere(kept, RegionOf, top))
      && (forall r :: r in kept && SumWhere(kept, RegionOf, r.region) == SumWhere(kept, RegionOf, top)
            ==> r.region == top || StrLt(top, r.region))
  {
    var kept := FilterRows(rows, sel);
    TopRegionOf(kept);
  }

  lemma TopRegionOf(kept: seq<Record>)
    requires kept != []
    ensures var top := Summarize(kept).topRegion;
      && (forall r :: r in kept ==> SumWhere(kept, RegionOf, r.region) <= SumWhere(kept, RegionOf, top))
      && (forall r :: r in kept && SumWhere(kept, RegionOf, r.region) == SumWhere(kept, RegionOf, top)
            ==> r.region == top || StrLt(top, r.region))
  {
    var g := GroupSum(kept, RegionOf, StrLt);
    var top := g[FirstMax(g)].key;
    assert Summarize(kept).topRegion == top;
    StrLtIsStrictTotal();
    GroupSumAscending(kept, RegionOf, StrLt);
    GroupSumTotalFor(kept, RegionOf, StrLt, top);
    TotalForDistinct(g, FirstMax(g));
    forall r | r in kept
      ensures SumWhere(kept, RegionOf, r.region) <= SumWhere(kept, RegionOf, top)
      ensures SumWhere(kept, RegionOf, r.region) == SumWhere(kept, RegionOf, top)
              ==> r.region == top || StrLt(top, r.region)
    {
      assert RegionOf(r) in KeySet(kept, RegionOf);
      GroupSumTotalFor(kept, RegionOf, StrLt, r.region);
      FirstMaxSmallestKey(g, StrLt, r.region);
    }
  }

  /**
    The revenue trend: one point per distinct selected date, dates strictly
    ascending, each point the revenue of that date's rows, adding up to the
    total revenue.
   */
  lemma RevenueByDate(rows: seq<Record>, sel: Selection)
    requires exists r :: r in rows && Keeps(sel, r)
    ensures var kept := FilterRows(rows, sel);
      var rep := UpdateDashboard(rows, sel).report;
      && KeysOf(rep.byDate) == KeySet(kept, DateOf)
      && (forall i, j :: 0 <= i < j < |rep.byDate| ==> DateLt(rep.byDate[i].key, rep.byDate[j].key))
      && (forall i :: 0 <= i < |rep.byDate| ==> rep.byDate[i].total == SumWhere(kept, DateOf, rep.byDate[i].key))
      && SeriesTotal(rep.byDate) == rep.totalRevenue
  {
    var kept := FilterRows(rows, sel);
    DateLtIsStrictTotal();
    GroupSumEntries(kept, DateOf, DateLt);
    GroupSumAscending(kept, DateOf, DateLt);
  }

  /**
    The category pie and the region bars: each has every key present among
    the selected rows exactly once and no other key, each value is that key's
    revenue, and the values add up to the total revenue.
   */
  lemma Breakdowns(rows: seq<Record>, sel: Selection)
    requires exists r :: r in rows && Keeps(sel, r)
    ensures var kept := FilterRows(rows, sel);
      var rep := UpdateDashboard(rows, sel).report;
      && KeysOf(rep.byCategory) == KeySet(kept, CategoryOf)
      && Distinct(KeysInOrder(rep.byCategory))
      && (forall i :: 0 <= i < |rep.byCategory| ==> rep.byCategory[i].total == SumWhere(kept, CategoryOf, rep.byCategory[i].key))
      && SeriesTotal(rep.byCategory) == rep.totalRevenue
      && KeysOf(rep.byRegion) == KeySet(kept, RegionOf)
      && Distinct(KeysInOrder(rep.byRegion))
      && (forall i :: 0 <= i < |rep.byRegion| ==> rep.byRegion[i].total == SumWhere(kept, RegionOf, rep.byRegion[i].key))
      && SeriesTotal(rep.byRegion) == rep.totalRevenue
  {
    var kept := FilterRows(rows, sel);
    StrLtIsStrictTotal();
    GroupSumEntries(kept, CategoryOf, StrLt);
    GroupSumEntries(kept, RegionOf, StrLt);
  }
}
