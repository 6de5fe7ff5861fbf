/**
  One sales row, as written by the generator and read back by the dashboard,
  and the revenue sums every aggregate is built from.
 */
module Sales {
  import opened Calendar

  /**
    Columns Дата, Категория, Продукт, Цена, Количество, Выручка, Регион,
    Тип клиента. The dashboard trusts the stored revenue and never
    recomputes it from price and quantity.
   */
  datatype Record = Record(
    date: CalendarDate,
    category: string,
    product: string,
    price: int,
    quantity: int,
    revenue: int,
    region: string,
    customerType: string)

  /** Sum of the revenue column. */
  function Total(rows: seq<Record>): int {
    if rows == [] then 0 else rows[0].revenue + Total(rows[1..])
  }

  /** Revenue of the rows whose key is k: the reference meaning of one group's sum. */
  function SumWhere<K(==)>(rows: seq<Record>, key: Record -> K, k: K): int {
    if rows == [] then 0
    else (if key(rows[0]) == k then rows[0].revenue else 0) + SumWhere(rows[1..], key, k)
  }

  /** The distinct keys present in the rows. */
  function KeySet<K(==)>(rows: seq<Record>, key: Record -> K): set<K> {
    set r | r in rows :: key(r)
  }

  // The grouping keys the dashboard uses.

  function DateOf(r: Record): Date {
    r.date
  }

  function CategoryOf(r: Record): string {
    r.category
  }

  function RegionOf(r: Record): string {
    r.region
  }

  /** `.dt.month` of the date column. */
  function MonthOf(r: Record): int {
    r.date.month
  }

  /** `.dt.year` of the date column. */
  function YearOf(r: Record): int {
    r.date.year
  }

  function MonthYearOf(r: Record): (int, int) {
    (r.date.month, r.date.year)
  }

  lemma {:induction false} TotalAppend(a: seq<Record>, b: seq<Record>)
    ensures Total(a + b) == Total(a) + Total(b)
    decreases |a|
  {
    if a != [] {
      assert (a + b)[1..] == a[1..] + b;
      TotalAppend(a[1..], b);
    } else {
      assert a + b == b;
    }
  }

  /** A key no row carries sums to zero. */
  lemma {:induction false} SumWhereAbsent<K>(rows: seq<Record>, key: Record -> K, k: K)
    requires k !in KeySet(rows, key)
    ensures SumWhere(rows, key, k) == 0
    decreases |rows|
  {
    if rows != [] {
      assert KeySet(rows[1..], key) <= KeySet(rows, key);
      SumWhereAbsent(rows[1..], key, k);
    }
  }
}
