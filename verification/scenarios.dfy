/**
  Small worked inputs for the callback, fixing the concrete answers: two
  selected rows in two regions, and the tie between two regions.
 */
module Scenarios {
  import opened Ordering
  import opened Sales
  import opened GroupBy
  import opened Dashboard

  lemma SelectBoth(a: Record, b: Record, sel: Selection)
    requires Keeps(sel, a) && Keeps(sel, b)
    ensures FilterRows([a, b], sel) == [a, b]
  {
    assert [a, b][1..] == [b] && [b][1..] == [];
  }

  lemma GroupTwo(a: Record, b: Record)
    ensures GroupSum([a, b], RegionOf, StrLt)
         == Add(Add([], b.region, b.revenue, StrLt), a.region, a.revenue, StrLt)
  {
    assert [a, b][1..] == [b] && [b][1..] == [];
    assert GroupSum([b], RegionOf, StrLt) == Add(GroupSum([], RegionOf, StrLt), b.region, b.revenue, StrLt);
  }

  /**
    North earning 100 and South 50, both selected: 150 in total, 2 orders,
    75 per order, North on top.
   */
  lemma TwoRows(a: Record, b: Record, sel: Selection)
    requires Keeps(sel, a) && Keeps(sel, b)
    requires a.region == "North" && a.revenue == 100
    requires b.region == "South" && b.revenue == 50
    ensures var v := UpdateDashboard([a, b], sel);
      && v.Shown?
      && v.report.totalRevenue == 150
      && v.report.totalOrders == 2
      && v.report.avgOrder == 75.0
      && v.report.topRegion == "North"
  {
    var rows := [a, b];
    SelectBoth(a, b, sel);
    assert rows[1..] == [b] && [b][1..] == [];
    assert Total([b]) == 50;
    assert Total(rows) == 150;
    GroupTwo(a, b);
    assert StrLt("North", "South");
    var g := GroupSum(rows, RegionOf, StrLt);
    assert g == [Entry("North", 100), Entry("South", 50)];
    assert FirstMax(g) == 0;
    var rep := Summarize(rows);
    assert UpdateDashboard(rows, sel) == Shown(rep);
    assert rep.topRegion == "North";
    Metrics(rows, sel);
    assert IsMean(rep.avgOrder, 150, 2);
  }

  /**
    South and North earning the same: North, first in sorted order, is on
    top, whichever of the two rows comes first.
   */
  lemma TiedRegions(a: Record, b: Record, sel: Selection)
    requires Keeps(sel, a) && Keeps(sel, b)
    requires a.region == "South" && b.region == "North" && a.revenue == b.revenue
    ensures var v := UpdateDashboard([a, b], sel);
      && v.Shown?
      && v.report.topRegion == "North"
    ensures var v := UpdateDashboard([b, a], sel);
      && v.Shown?
      && v.report.topRegion == "North"
  {
    assert StrLt("North", "South") && !StrLt("South", "North");
    var north := [Entry("North", b.revenue)];
    var south := [Entry("South", a.revenue)];
    var both := [Entry("North", b.revenue), Entry("South", a.revenue)];
    assert Add([], "North", b.revenue, StrLt) == north;
    assert Add([], "South", a.revenue, StrLt) == south;

    SelectBoth(a, b, sel);
    GroupTwo(a, b);
    assert Add(north, "South", a.revenue, StrLt) == both;
    var g := GroupSum([a, b], RegionOf, StrLt);
    assert g == both;
    assert FirstMax(g) == 0;
    assert UpdateDashboard([a, b], sel) == Shown(Summarize([a, b]));

    SelectBoth(b, a, sel);
    GroupTwo(b, a);
    assert Add(south, "North", b.revenue, StrLt) == both;
    var h := GroupSum([b, a], RegionOf, StrLt);
    assert h == both;
    assert FirstMax(h) == 0;
    assert UpdateDashboard([b, a], sel) == Shown(Summarize([b, a]));
  }
}
