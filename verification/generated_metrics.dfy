/**
  What the dashboard shows on generated data: every generated row earns at
  least the minimum price, so any selection that shows something shows a
  positive revenue and an average order of at least that price.
 */
module GeneratedMetrics {
  import opened Sales
  import opened Dashboard
  import opened Generator

  /** Generated rows earn at least 500 each, so n of them at least 500 × n. */
  lemma {:induction false} TotalAtLeast(rows: seq<Record>)
    requires forall r :: r in rows ==> WellFormed(r)
    ensures Total(rows) >= MinPrice * |rows|
    decreases |rows|
  {
    if rows != [] {
      RevenueBounds(rows[0]);
      TotalAtLeast(rows[1..]);
    }
  }

  /** A mean of n values summing to at least low × n is at least low. */
  lemma MeanAtLeast(avg: real, total: int, n: nat, low: int)
    requires n > 0 && IsMean(avg, total, n) && total >= low * n
    ensures avg >= low as real
  {
    assert (avg - low as real) * (n as real) >= 0.0;
  }

  /**
    On generated data, any selection that shows something shows a positive
    revenue and an average order of at least 500.
   */
  lemma GeneratedDataMetrics(rows: seq<Record>, sel: Selection)
    requires forall r :: r in rows ==> WellFormed(r)
    requires exists r :: r in rows && Keeps(sel, r)
    ensures var rep := UpdateDashboard(rows, sel).report;
      && rep.totalRevenue >= MinPrice * rep.totalOrders
      && rep.totalRevenue > 0
      && rep.avgOrder >= MinPrice as real
  {
    var kept := FilterRows(rows, sel);
    var rep := UpdateDashboard(rows, sel).report;
    TotalAtLeast(kept);
    Metrics(rows, sel);
    MeanAtLeast(rep.avgOrder, rep.totalRevenue, rep.totalOrders, MinPrice);
  }
}
