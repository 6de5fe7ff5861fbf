/**
  The seasonality matrix: `pivot_table(values='Выручка', index='Месяц',
  columns='Год', aggfunc='sum').fillna(0)`. Rows are the months present,
  columns the years present, both ascending; a (month, year) pair with no
  rows is 0, not missing. The month-label lookup for the heatmap axis is
  here too.
 */
module Pivot {
  import opened Ordering
  import opened Sales
  import opened GroupBy

  datatype Table = Table(months: seq<int>, years: seq<int>, cells: seq<seq<int>>)

  function Seasonality(rows: seq<Record>): (t: Table)
    ensures |t.cells| == |t.months|
    ensures forall i :: 0 <= i < |t.cells| ==> |t.cells[i]| == |t.years|
  {
    var byCell := GroupSum(rows, MonthYearOf, PairLt);
    var months := KeysInOrder(GroupSum(rows, MonthOf, IntLt));
    var years := KeysInOrder(GroupSum(rows, YearOf, IntLt));
    Table(months, years,
      seq(|months|, i requires 0 <= i < |months| =>
        seq(|years|, j requires 0 <= j < |years| => TotalFor(byCell, (months[i], years[j])))))
  }

  const MonthNames: seq<string> :=
    ["Янв", "Фев", "Мар", "Апр", "Май", "Июн", "Июл", "Авг", "Сен", "Окт", "Ноя", "Дек"]

  /** `[month_names[i - 1] for i in pivot.index]`: never out of range, one label per matrix row. */
  function MonthLabels(rows: seq<Record>): (labels: seq<string>)
    ensures |labels| == |Seasonality(rows).months|
    ensures forall i :: 0 <= i < |labels| ==> labels[i] in MonthNames
  {
    var t := Seasonality(rows);
    SeasonalityAxes(rows);
    seq(|t.months|, i requires 0 <= i < |t.months| => MonthNames[t.months[i] - 1])
  }

  function SumSeq(xs: seq<int>): int {
    if xs == [] then 0 else xs[0] + SumSeq(xs[1..])
  }

  /** Sum of every cell of the matrix. */
  function GridTotal(cells: seq<seq<int>>): int {
    if cells == [] then 0 else SumSeq(cells[0]) + GridTotal(cells[1..])
  }

  /** The (m, y) cell keys of one matrix row. */
  function Pairs(m: int, ys: seq<int>): seq<(int, int)> {
    seq(|ys|, j requires 0 <= j < |ys| => (m, ys[j]))
  }

  /** Revenue summed over a list of keys, one group after another. */
  function SumOverKeys<K(==)>(rows: seq<Record>, key: Record -> K, ks: seq<K>): int {
    if ks == [] then 0 else SumWhere(rows, key, ks[0]) + SumOverKeys(rows, key, ks[1..])
  }

  /** Revenue of the rows whose key is one of ks. */
  function SumKeyIn<K(==)>(rows: seq<Record>, key: Record -> K, ks: seq<K>): int {
    if rows == [] then 0
    else (if key(rows[0]) in ks then rows[0].revenue else 0) + SumKeyIn(rows[1..], key, ks)
  }

  /** How much one row of key x and revenue v adds to a sum over the keys ks. */
  function Hits<K(==)>(x: K, v: int, ks: seq<K>): int {
    if ks == [] then 0 else (if x == ks[0] then v else 0) + Hits(x, v, ks[1..])
  }

  lemma {:induction false} HitsDistinct<K>(x: K, v: int, ks: seq<K>)
    requires Distinct(ks)
    ensures Hits(x, v, ks) == if x in ks then v else 0
    decreases |ks|
  {
    if ks != [] {
      HitsDistinct(x, v, ks[1..]);
      assert ks == [ks[0]] + ks[1..];
      if x == ks[0] {
        assert x !in ks[1..] by {
          forall j | 0 <= j < |ks[1..]| ensures ks[1..][j] != x {
            assert ks[0] != ks[j + 1];
          }
        }
      }
    }
  }

  lemma {:induction false} SumOverKeysStep<K>(rows: seq<Record>, key: Record -> K, ks: seq<K>)
    requires rows != []
    ensures SumOverKeys(rows, key, ks)
         == SumOverKeys(rows[1..], key, ks) + Hits(key(rows[0]), rows[0].revenue, ks)
    decreases |ks|
  {
    if ks != [] {
      SumOverKeysStep(rows, key, ks[1..]);
    }
  }

  /** Summing group by group over distinct keys counts each row at most once. */
  lemma {:induction false} SumOverDistinctKeys<K>(rows: seq<Record>, key: Record -> K, ks: seq<K>)
    requires Distinct(ks)
    ensures SumOverKeys(rows, key, ks) == SumKeyIn(rows, key, ks)
    decreases |rows|
  {
    if rows == [] {
      SumOverEmpty(key, ks);
    } else {
      SumOverKeysStep(rows, key, ks);
      HitsDistinct(key(rows[0]), rows[0].revenue, ks);
      SumOverDistinctKeys(rows[1..], key, ks);
    }
  }

  lemma {:induction false} SumOverEmpty<K>(key: Record -> K, ks: seq<K>)
    ensures SumOverKeys([], key, ks) == 0
    decreases |ks|
  {
    if ks != [] {
      SumOverEmpty(key, ks[1..]);
    }
  }

  lemma {:induction false} SumKeyInCovering<K>(rows: seq<Record>, key: Record -> K, ks: seq<K>)
    requires forall r :: r in rows ==> key(r) in ks
    ensures SumKeyIn(rows, key, ks) == Total(rows)
    decreases |rows|
  {
    if rows != [] {
      SumKeyInCovering(rows[1..], key, ks);
    }
  }

  /**
    Revenue is conserved across a partition: summing the groups of a list of
    distinct keys that covers every row gives the total.
   */
  lemma PartitionTotal<K>(rows: seq<Record>, key: Record -> K, ks: seq<K>)
    requires Distinct(ks)
    requires forall r :: r in rows ==> key(r) in ks
    ensures SumOverKeys(rows, key, ks) == Total(rows)
  {
    SumOverDistinctKeys(rows, key, ks);
    SumKeyInCovering(rows, key, ks);
  }

  lemma {:induction false} MonthSlice(rows: seq<Record>, m: int, ys: seq<int>)
    requires forall r :: r in rows ==> YearOf(r) in ys
    ensures SumKeyIn(rows, MonthYearOf, Pairs(m, ys)) == SumWhere(rows, MonthOf, m)
    decreases |rows|
  {
    if rows != [] {
      var r := rows[0];
      if MonthOf(r) == m {
        var j :| 0 <= j < |ys| && ys[j] == YearOf(r);
        assert Pairs(m, ys)[j] == MonthYearOf(r);
      }
      MonthSlice(rows[1..], m, ys);
    }
  }

  lemma {:induction false} RowSum(rows: seq<Record>, m: int, ys: seq<int>, row: seq<int>)
    requires |row| == |ys|
    requires forall j :: 0 <= j < |ys| ==> row[j] == SumWhere(rows, MonthYearOf, (m, ys[j]))
    ensures SumSeq(row) == SumOverKeys(rows, MonthYearOf, Pairs(m, ys))
    decreases |ys|
  {
    if ys != [] {
      assert Pairs(m, ys)[1..] == Pairs(m, ys[1..]);
      RowSum(rows, m, ys[1..], row[1..]);
    }
  }

  lemma {:induction false} ColumnSum(rows: seq<Record>, ms: seq<int>, cells: seq<seq<int>>)
    requires |cells| == |ms|
    requires forall i :: 0 <= i < |ms| ==> SumSeq(cells[i]) == SumWhere(rows, MonthOf, ms[i])
    ensures GridTotal(cells) == SumOverKeys(rows, MonthOf, ms)
    decreases |ms|
  {
    if ms != [] {
      ColumnSum(rows, ms[1..], cells[1..]);
    }
  }

  lemma PairsDistinct(m: int, ys: seq<int>)
    requires Distinct(ys)
    ensures Distinct(Pairs(m, ys))
  {
    var ps := Pairs(m, ys);
    forall i, j | 0 <= i < j < |ps| ensures ps[i] != ps[j] {
      assert ys[i] != ys[j];
    }
  }

  /** Keys in the order of an ascending integer-keyed series are strictly increasing. */
  lemma AscendingInts(s: Series<int>)
    requires Ascending(s, IntLt)
    ensures forall i, j :: 0 <= i < j < |s| ==> KeysInOrder(s)[i] < KeysInOrder(s)[j]
  {
    forall i, j | 0 <= i < j < |s| ensures KeysInOrder(s)[i] < KeysInOrder(s)[j] {
      assert IntLt(s[i].key, s[j].key);
    }
  }

  lemma KeysInOrderSet<K>(s: Series<K>)
    ensures forall k :: k in KeysInOrder(s) <==> k in KeysOf(s)
  {
    forall k | k in KeysOf(s) ensures k in KeysInOrder(s) {
      var e :| e in s && e.key == k;
      var i :| 0 <= i < |s| && s[i] == e;
      assert KeysInOrder(s)[i] == k;
    }
  }

  /**
    The matrix's rows are exactly the months present and its columns exactly
    the years present, each strictly ascending; every month is in 1..12.
   */
  lemma SeasonalityAxes(rows: seq<Record>)
    ensures var t := Seasonality(rows);
      && (forall m :: m in t.months <==> exists r :: r in rows && MonthOf(r) == m)
      && (forall y :: y in t.years <==> exists r :: r in rows && YearOf(r) == y)
      && (forall i, j :: 0 <= i < j < |t.months| ==> t.months[i] < t.months[j])
      && (forall i, j :: 0 <= i < j < |t.years| ==> t.years[i] < t.years[j])
      && (forall i :: 0 <= i < |t.months| ==> 1 <= t.months[i] <= 12)
  {
    IntLtIsStrictTotal();
    var gm := GroupSum(rows, MonthOf, IntLt);
    var gy := GroupSum(rows, YearOf, IntLt);
    GroupSumAscending(rows, MonthOf, IntLt);
    GroupSumAscending(rows, YearOf, IntLt);
    AscendingInts(gm);
    AscendingInts(gy);
    KeysInOrderSet(gm);
    KeysInOrderSet(gy);
    var t := Seasonality(rows);
    forall i | 0 <= i < |t.months| ensures 1 <= t.months[i] <= 12 {
      assert t.months[i] in KeySet(rows, MonthOf);
    }
  }

  /**
    Cell (i, j) holds the revenue of the rows dated in month `months[i]` of
    year `years[j]`, and 0 when there are none.
   */
  lemma SeasonalityCells(rows: seq<Record>, i: int, j: int)
    requires 0 <= i < |Seasonality(rows).months| && 0 <= j < |Seasonality(rows).years|
    ensures var t := Seasonality(rows);
      && t.cells[i][j] == SumWhere(rows, MonthYearOf, (t.months[i], t.years[j]))
      && ((forall r :: r in rows ==> MonthYearOf(r) != (t.months[i], t.years[j])) ==> t.cells[i][j] == 0)
  {
    var t := Seasonality(rows);
    PairLtIsStrictTotal();
    GroupSumTotalFor(rows, MonthYearOf, PairLt, (t.months[i], t.years[j]));
    if forall r :: r in rows ==> MonthYearOf(r) != (t.months[i], t.years[j]) {
      SumWhereAbsent(rows, MonthYearOf, (t.months[i], t.years[j]));
    }
  }

  /** All cells together hold exactly the total revenue of the rows. */
  lemma SeasonalityTotal(rows: seq<Record>)
    ensures GridTotal(Seasonality(rows).cells) == Total(rows)
  {
    var t := Seasonality(rows);
    SeasonalityAxes(rows);
    IntLtIsStrictTotal();
    GroupSumAscending(rows, MonthOf, IntLt);
    GroupSumAscending(rows, YearOf, IntLt);
    forall i | 0 <= i < |t.months|
      ensures SumSeq(t.cells[i]) == SumWhere(rows, MonthOf, t.months[i])
    {
      forall j | 0 <= j < |t.years|
        ensures t.cells[i][j] == SumWhere(rows, MonthYearOf, (t.months[i], t.years[j]))
      {
        SeasonalityCells(rows, i, j);
      }
      RowSum(rows, t.months[i], t.years, t.cells[i]);
      PairsDistinct(t.months[i], t.years);
      SumOverDistinctKeys(rows, MonthYearOf, Pairs(t.months[i], t.years));
      MonthSlice(rows, t.months[i], t.years);
    }
    ColumnSum(rows, t.months, t.cells);
    PartitionTotal(rows, MonthOf, t.months);
  }
}
