/**
  `frame.groupby(key)['Выручка'].sum()`: one entry per distinct key, keys in
  ascending order (pandas sorts group keys by default), each holding the
  revenue of its group. A `Series` is that result as a list of entries;
  `GroupSum` builds it by inserting rows one at a time into the sorted list.
 */
module GroupBy {
  import opened Ordering
  import opened Sales

  datatype Entry<K> = Entry(key: K, total: int)

  type Series<K> = seq<Entry<K>>

  function KeysOf<K(==)>(s: Series<K>): set<K> {
    set e | e in s :: e.key
  }

  /** The index of the series, in order. */
  function KeysInOrder<K>(s: Series<K>): seq<K> {
    seq(|s|, i requires 0 <= i < |s| => s[i].key)
  }

  /** Keys strictly increase along the series. */
  ghost predicate Ascending<K>(s: Series<K>, lt: (K, K) -> bool) {
    forall i, j :: 0 <= i < j < |s| ==> lt(s[i].key, s[j].key)
  }

  predicate Distinct<K(==)>(ks: seq<K>) {
    forall i, j :: 0 <= i < j < |ks| ==> ks[i] != ks[j]
  }

  /** Sum of the values of a series. */
  function SeriesTotal<K>(s: Series<K>): int {
    if s == [] then 0 else s[0].total + SeriesTotal(s[1..])
  }

  /** The value stored under k, and 0 when k is not in the index (`fillna(0)`). */
  function TotalFor<K(==)>(s: Series<K>, k: K): (v: int)
    ensures k !in KeysOf(s) ==> v == 0
  {
    if s == [] then 0
    else if s[0].key == k then s[0].total
    else
      assert KeysOf(s[1..]) <= KeysOf(s);
      TotalFor(s[1..], k)
  }

  /** Adds v to the entry for k, inserting a new entry in key order when there is none. */
  function Add<K(==)>(s: Series<K>, k: K, v: int, lt: (K, K) -> bool): (r: Series<K>)
    ensures KeysOf(r) == KeysOf(s) + {k}
    ensures SeriesTotal(r) == SeriesTotal(s) + v
  {
    if s == [] then [Entry(k, v)]
    else if s[0].key == k then
      assert s == [s[0]] + s[1..];
      [Entry(k, s[0].total + v)] + s[1..]
    else if lt(k, s[0].key) then [Entry(k, v)] + s
    else
      var rest := Add(s[1..], k, v, lt);
      assert s == [s[0]] + s[1..];
      assert KeysOf([s[0]] + rest) == {s[0].key} + KeysOf(rest);
      assert KeysOf(s) == {s[0].key} + KeysOf(s[1..]);
      assert ([s[0]] + rest)[1..] == rest;
      [s[0]] + rest
  }

  /** Group the rows by `key` and sum the revenue of each group. */
  function GroupSum<K(==)>(rows: seq<Record>, key: Record -> K, lt: (K, K) -> bool): (g: Series<K>)
    ensures KeysOf(g) == KeySet(rows, key)
    ensures SeriesTotal(g) == Total(rows)
  {
    if rows == [] then []
    else
      assert rows == [rows[0]] + rows[1..];
      assert KeySet(rows, key) == KeySet(rows[1..], key) + {key(rows[0])};
      Add(GroupSum(rows[1..], key, lt), key(rows[0]), rows[0].revenue, lt)
  }

  lemma AscendingTail<K>(s: Series<K>, lt: (K, K) -> bool)
    requires s != [] && Ascending(s, lt)
    ensures Ascending(s[1..], lt)
    ensures forall k :: k in KeysOf(s[1..]) ==> lt(s[0].key, k)
  {
    forall k | k in KeysOf(s[1..]) ensures lt(s[0].key, k) {
      var e :| e in s[1..] && e.key == k;
      var i :| 0 <= i < |s[1..]| && s[1..][i] == e;
      assert s[i + 1] == e;
    }
  }

  /** A key below the first key of an ascending series is not in it. */
  lemma BelowFirst<K(!new)>(s: Series<K>, k: K, lt: (K, K) -> bool)
    requires StrictTotalOrder(lt)
    requires s != [] && Ascending(s, lt) && lt(k, s[0].key)
    ensures k !in KeysOf(s)
    ensures forall i :: 0 <= i < |s| ==> lt(k, s[i].key)
  {
    forall i | 0 <= i < |s| ensures lt(k, s[i].key) {
      if i > 0 {
        assert lt(s[0].key, s[i].key);
      }
    }
    forall e | e in s ensures e.key != k {
      var i :| 0 <= i < |s| && s[i] == e;
      assert lt(k, s[i].key);
    }
  }

  /** Inserting keeps the keys strictly ascending. */
  lemma {:induction false} AddAscending<K(!new)>(s: Series<K>, k: K, v: int, lt: (K, K) -> bool)
    requires StrictTotalOrder(lt)
    requires Ascending(s, lt)
    ensures Ascending(Add(s, k, v, lt), lt)
    decreases |s|
  {
    if s == [] || s[0].key == k {
    } else if lt(k, s[0].key) {
      BelowFirst(s, k, lt);
    } else {
      assert lt(s[0].key, k);
      AscendingTail(s, lt);
      AddAscending(s[1..], k, v, lt);
      var rest := Add(s[1..], k, v, lt);
      var r := [s[0]] + rest;
      assert r == Add(s, k, v, lt);
      forall i, j | 0 <= i < j < |r| ensures lt(r[i].key, r[j].key) {
        if i == 0 {
          assert r[j] == rest[j - 1];
          assert r[j].key in KeysOf(rest);
        } else {
          assert r[i] == rest[i - 1] && r[j] == rest[j - 1];
        }
      }
    }
  }

  /** Inserting (k, v) raises the value under k by v and leaves every other key's value alone. */
  lemma {:induction false} AddTotalFor<K(!new)>(s: Series<K>, k: K, v: int, lt: (K, K) -> bool, q: K)
    requires StrictTotalOrder(lt)
    requires Ascending(s, lt)
    ensures TotalFor(Add(s, k, v, lt), q) == TotalFor(s, q) + (if q == k then v else 0)
    decreases |s|
  {
    if s == [] || s[0].key == k {
    } else if lt(k, s[0].key) {
      BelowFirst(s, k, lt);
    } else {
      AscendingTail(s, lt);
      AddTotalFor(s[1..], k, v, lt, q);
      var rest := Add(s[1..], k, v, lt);
      assert ([s[0]] + rest)[1..] == rest;
    }
  }

  /** The series `GroupSum` builds is sorted by key with no key twice. */
  lemma {:induction false} GroupSumAscending<K(!new)>(rows: seq<Record>, key: Record -> K, lt: (K, K) -> bool)
    requires StrictTotalOrder(lt)
    ensures Ascending(GroupSum(rows, key, lt), lt)
    ensures Distinct(KeysInOrder(GroupSum(rows, key, lt)))
    decreases |rows|
  {
    if rows != [] {
      GroupSumAscending(rows[1..], key, lt);
      AddAscending(GroupSum(rows[1..], key, lt), key(rows[0]), rows[0].revenue, lt);
    }
    var g := GroupSum(rows, key, lt);
    var ks := KeysInOrder(g);
    forall i, j | 0 <= i < j < |ks| ensures ks[i] != ks[j] {
      assert lt(g[i].key, g[j].key);
    }
  }

  /** Looking a key up in the grouped series gives the revenue of exactly the rows with that key, or 0. */
  lemma {:induction false} GroupSumTotalFor<K(!new)>(rows: seq<Record>, key: Record -> K, lt: (K, K) -> bool, k: K)
    requires StrictTotalOrder(lt)
    ensures TotalFor(GroupSum(rows, key, lt), k) == SumWhere(rows, key, k)
    decreases |rows|
  {
    if rows != [] {
      GroupSumTotalFor(rows[1..], key, lt, k);
      GroupSumAscending(rows[1..], key, lt);
      AddTotalFor(GroupSum(rows[1..], key, lt), key(rows[0]), rows[0].revenue, lt, k);
    }
  }

  /** In a series without repeated keys, the lookup of an entry's key finds that entry. */
  lemma {:induction false} TotalForDistinct<K>(s: Series<K>, i: nat)
    requires Distinct(KeysInOrder(s))
    requires i < |s|
    ensures TotalFor(s, s[i].key) == s[i].total
    decreases i
  {
    if i > 0 {
      assert KeysInOrder(s)[0] != KeysInOrder(s)[i];
      var tail := s[1..];
      assert KeysInOrder(tail) == KeysInOrder(s)[1..];
      TotalForDistinct(tail, i - 1);
    }
  }

  /**
    Every entry of a group-by sum is one distinct key present in the rows,
    carrying the revenue of that key's rows; every key present has an entry.
   */
  lemma GroupSumEntries<K(!new)>(rows: seq<Record>, key: Record -> K, lt: (K, K) -> bool)
    requires StrictTotalOrder(lt)
    ensures var g := GroupSum(rows, key, lt);
      && KeysOf(g) == KeySet(rows, key)
      && Distinct(KeysInOrder(g))
      && (forall i :: 0 <= i < |g| ==> g[i].total == SumWhere(rows, key, g[i].key))
      && SeriesTotal(g) == Total(rows)
  {
    var g := GroupSum(rows, key, lt);
    GroupSumAscending(rows, key, lt);
    forall i | 0 <= i < |g| ensures g[i].total == SumWhere(rows, key, g[i].key) {
      TotalForDistinct(g, i);
      GroupSumTotalFor(rows, key, lt, g[i].key);
    }
  }

  /**
    `idxmax`: the position of the largest value, the first one on ties.
   */
  function FirstMax<K>(s: Series<K>): (i: nat)
    requires s != []
    ensures i < |s|
    ensures forall j :: 0 <= j < |s| ==> s[j].total <= s[i].total
    ensures forall j :: 0 <= j < i ==> s[j].total < s[i].total
  {
    if |s| == 1 then 0
    else
      var j := FirstMax(s[1..]) + 1;
      if s[0].total >= s[j].total then 0 else j
  }

  /**
    In a key-sorted series the first maximum has the smallest key among the
    maxima: any key's value is at most the maximum, and a key whose value
    equals it is that key or a larger one.
   */
  lemma FirstMaxSmallestKey<K(!new)>(s: Series<K>, lt: (K, K) -> bool, k: K)
    requires StrictTotalOrder(lt)
    requires s != [] && Ascending(s, lt) && k in KeysOf(s)
    ensures TotalFor(s, k) <= s[FirstMax(s)].total
    ensures TotalFor(s, k) == s[FirstMax(s)].total ==> k == s[FirstMax(s)].key || lt(s[FirstMax(s)].key, k)
  {
    var i := FirstMax(s);
    var e :| e in s && e.key == k;
    var j :| 0 <= j < |s| && s[j] == e;
    assert Distinct(KeysInOrder(s)) by {
      forall a, b | 0 <= a < b < |s| ensures KeysInOrder(s)[a] != KeysInOrder(s)[b] {
        assert lt(s[a].key, s[b].key);
      }
    }
    TotalForDistinct(s, j);
    if j < i {
      assert s[j].total < s[i].total;
    } else if i < j {
      assert lt(s[i].key, s[j].key);
    }
  }
}
