/**
 * A relational table as the store keeps it: rows in primary-key order, taken to be
 * the order in which a query without ORDER BY returns them. The queries of the
 * repository's data-access layer (first match, filter, offset/limit, sum) are written
 * once here, generically over the row type.
 */
module Tables {
  import opened Results

  /** A stored row: its integer primary key and its columns. */
  datatype Row<T> = Row(id: int, value: T)

  /** Primary keys are positive and strictly increasing along the table. */
  predicate IdsAscending<T>(rows: seq<Row<T>>) {
    && (forall i :: 0 <= i < |rows| ==> 0 < rows[i].id)
    && (forall i, j :: 0 <= i < j < |rows| ==> rows[i].id < rows[j].id)
  }

  /** A UNIQUE column: no two rows share a key. */
  predicate UniqueKey<T, K(==)>(rows: seq<Row<T>>, key: T -> K) {
    forall i, j :: 0 <= i < j < |rows| ==> key(rows[i].value) != key(rows[j].value)
  }

  /** A UNIQUE column that may be NULL: NULLs never collide, present values do. */
  predicate UniqueWhenPresent<T, K(==)>(rows: seq<Row<T>>, key: T -> Option<K>) {
    forall i, j :: 0 <= i < j < |rows| && key(rows[i].value).Some? ==>
      key(rows[i].value) != key(rows[j].value)
  }

  /** No row holds key `k`: inserting a row with that key keeps the column unique. */
  predicate KeyFree<T, K(==)>(rows: seq<Row<T>>, key: T -> K, k: K) {
    forall i :: 0 <= i < |rows| ==> key(rows[i].value) != k
  }

  /** No row other than row `id` holds key `k`: updating row `id` to `k` keeps it unique. */
  predicate KeyFreeExcept<T, K(==)>(rows: seq<Row<T>>, key: T -> K, k: K, id: int) {
    forall i :: 0 <= i < |rows| && rows[i].id != id ==> key(rows[i].value) != k
  }

  /** The key SQLite gives a new row: one more than the largest key, 1 in an empty table. */
  function NextRowId<T>(rows: seq<Row<T>>): (id: int)
    requires IdsAscending(rows)
    ensures 0 < id
    ensures forall i :: 0 <= i < |rows| ==> rows[i].id < id
  {
    if rows == [] then 1 else rows[|rows| - 1].id + 1
  }

  /** A row appended under the next key keeps the keys ascending. */
  lemma AppendKeepsIdsAscending<T>(rows: seq<Row<T>>, v: T)
    requires IdsAscending(rows)
    ensures IdsAscending(rows + [Row(NextRowId(rows), v)])
  {
  }

  /** Position of the row with primary key `id`, or -1. */
  function IndexOf<T>(rows: seq<Row<T>>, id: int): (i: int)
    ensures -1 <= i < |rows|
    ensures 0 <= i ==> rows[i].id == id
    ensures i < 0 ==> forall j :: 0 <= j < |rows| ==> rows[j].id != id
  {
    if rows == [] then -1
    else if rows[|rows| - 1].id == id then |rows| - 1
    else IndexOf(rows[..|rows| - 1], id)
  }

  /** `query.filter(id == k).first()`. */
  function FindById<T>(rows: seq<Row<T>>, id: int): (r: Option<Row<T>>)
    ensures r.Some? <==> exists i :: 0 <= i < |rows| && rows[i].id == id
    ensures r.Some? ==> r.value in rows && r.value.id == id
  {
    var i := IndexOf(rows, id);
    if i < 0 then None else Some(rows[i])
  }

  /** `query.filter(key == k).first()`: the first row, in key order, whose key is `k`. */
  function FirstWithKey<T, K(==)>(rows: seq<Row<T>>, key: T -> K, k: K): (r: Option<Row<T>>)
    ensures r.None? <==> KeyFree(rows, key, k)
    ensures r.Some? ==> r.value in rows && key(r.value.value) == k
  {
    if rows == [] then None
    else if key(rows[0].value) == k then Some(rows[0])
    else
      var rest := FirstWithKey(rows[1..], key, k);
      assert forall i :: 1 <= i < |rows| ==> rows[i] == rows[1..][i - 1];
      rest
  }

  /** `query.filter(key == k)`: the rows whose key is `k`, in table order. */
  function WithKey<T, K(==)>(rows: seq<Row<T>>, key: T -> K, k: K): (r: seq<Row<T>>)
    ensures forall i :: 0 <= i < |r| ==> r[i] in rows && key(r[i].value) == k
    ensures forall i :: 0 <= i < |rows| && key(rows[i].value) == k ==> rows[i] in r
    ensures |r| <= |rows|
  {
    if rows == [] then []
    else (if key(rows[0].value) == k then [rows[0]] else []) + WithKey(rows[1..], key, k)
  }

  /** The end of the slice `[skip, skip + limit)` cut at the end of a table of `len` rows. */
  function SliceEnd(len: int, skip: int, limit: int): int {
    if skip + limit <= len then skip + limit else len
  }

  /**
   * `r` is what `.offset(skip).limit(limit)` yields on `rows`, case by case, as SQLite
   * reads the bounds: a negative offset counts as zero and a negative limit means no
   * limit. Each pair of bounds falls under exactly one case.
   */
  ghost predicate IsPageOf<T>(rows: seq<T>, skip: int, limit: int, r: seq<T>) {
    && (0 <= skip <= |rows| && 0 <= limit ==> r == rows[skip..SliceEnd(|rows|, skip, limit)])
    && (0 <= skip <= |rows| && limit < 0 ==> r == rows[skip..])
    && (|rows| < skip ==> r == [])
    && (skip < 0 && 0 <= limit ==> r == rows[..SliceEnd(|rows|, 0, limit)])
    && (skip < 0 && limit < 0 ==> r == rows)
  }

  /** `.offset(skip).limit(limit)` as SQLite evaluates it. */
  function Page<T>(rows: seq<T>, skip: int, limit: int): (r: seq<T>)
    ensures IsPageOf(rows, skip, limit, r)
    ensures 0 <= limit ==> |r| <= limit
    ensures forall i :: 0 <= i < |r| ==> r[i] in rows
  {
    var start := if skip < 0 then 0 else if skip > |rows| then |rows| else skip;
    var end := if limit < 0 || |rows| - start < limit then |rows| else start + limit;
    rows[start..end]
  }

  /** Python's `sum(amount(x) for x in rows)`: a left fold from 0. */
  function SumOf<T>(rows: seq<Row<T>>, amount: T -> real): real
  {
    if rows == [] then 0.0 else SumOf(rows[..|rows| - 1], amount) + amount(rows[|rows| - 1].value)
  }

  /** A row list is a functional copy of the table with row `id` given new columns. */
  function Replace<T>(rows: seq<Row<T>>, id: int, v: T): (r: seq<Row<T>>)
    ensures |r| == |rows|
    ensures forall i :: 0 <= i < |rows| ==> r[i] == if rows[i].id == id then Row(id, v) else rows[i]
  {
    seq(|rows|, i requires 0 <= i < |rows| => if rows[i].id == id then Row(id, v) else rows[i])
  }

  /** The table without the row at position `i`. */
  function RemoveAt<T>(rows: seq<T>, i: int): (r: seq<T>)
    requires 0 <= i < |rows|
    ensures |r| == |rows| - 1
    ensures forall k :: 0 <= k < |r| ==> r[k] == if k < i then rows[k] else rows[k + 1]
  {
    rows[..i] + rows[i + 1..]
  }

  // ---------------------------------------------------------------------------
  // Lemmas about the queries

  /** Filtering distributes over appending rows. */
  lemma {:induction false} WithKeyAppend<T, K>(a: seq<Row<T>>, b: seq<Row<T>>, key: T -> K, k: K)
    ensures WithKey(a + b, key, k) == WithKey(a, key, k) + WithKey(b, key, k)
  {
    if a == [] {
      assert a + b == b;
    } else {
      assert (a + b)[0] == a[0];
      assert (a + b)[1..] == a[1..] + b;
      WithKeyAppend(a[1..], b, key, k);
    }
  }

  /** A filter takes each row of the table at most once. */
  lemma {:induction false} WithKeyTakesRowsOnce<T, K>(rows: seq<Row<T>>, key: T -> K, k: K)
    ensures multiset(WithKey(rows, key, k)) <= multiset(rows)
  {
    if rows != [] {
      WithKeyTakesRowsOnce(rows[1..], key, k);
      assert rows == [rows[0]] + rows[1..];
    }
  }

  /** A filter keeps the rows in table order: ascending keys stay ascending. */
  lemma {:induction false} WithKeyKeepsIdsAscending<T, K>(rows: seq<Row<T>>, key: T -> K, k: K)
    requires IdsAscending(rows)
    ensures IdsAscending(WithKey(rows, key, k))
  {
    if rows != [] {
      var tail := rows[1..];
      assert IdsAscending(tail);
      WithKeyKeepsIdsAscending(tail, key, k);
      var rest := WithKey(tail, key, k);
      IdsAbove(tail, rest, rows[0].id);
      if key(rows[0].value) == k {
        ConsAscending(rows[0], rest);
      } else {
        assert [] + rest == rest;
      }
    }
  }

  /** Rows drawn from a table whose keys all exceed `lo` have keys above `lo`. */
  lemma IdsAbove<T>(tail: seq<Row<T>>, rest: seq<Row<T>>, lo: int)
    requires forall j :: 0 <= j < |tail| ==> lo < tail[j].id
    requires forall i :: 0 <= i < |rest| ==> rest[i] in tail
    ensures forall i :: 0 <= i < |rest| ==> lo < rest[i].id
  {
  }

  /** A row below every key of an ascending table may be put in front of it. */
  lemma ConsAscending<T>(x: Row<T>, rest: seq<Row<T>>)
    requires IdsAscending(rest) && 0 < x.id
    requires forall i :: 0 <= i < |rest| ==> x.id < rest[i].id
    ensures IdsAscending([x] + rest)
  {
    var r := [x] + rest;
    assert forall a :: 0 < a < |r| ==> r[a] == rest[a - 1];
  }

  /** Summation distributes over appending rows. */
  lemma {:induction false} SumOfAppend<T>(a: seq<Row<T>>, b: seq<Row<T>>, amount: T -> real)
    ensures SumOf(a + b, amount) == SumOf(a, amount) + SumOf(b, amount)
  {
    if b == [] {
      assert a + b == a;
    } else {
      var n := |a + b|;
      assert (a + b)[..n - 1] == a + b[..|b| - 1];
      assert (a + b)[n - 1] == b[|b| - 1];
      SumOfAppend(a, b[..|b| - 1], amount);
    }
  }

  /** Two adjacent pages with non-negative bounds make up the page that spans both. */
  lemma PagesTile<T>(rows: seq<T>, skip: nat, m: nat, n: nat)
    ensures Page(rows, skip, m) + Page(rows, skip + m, n) == Page(rows, skip, m + n)
  {
  }

  /** Appended rows do not reach a first page that the existing rows already fill. */
  lemma {:induction false} FirstPageOfLongPrefix<T>(a: seq<T>, b: seq<T>, n: nat)
    requires n <= |a|
    ensures Page(a + b, 0, n) == Page(a, 0, n)
  {
    assert (a + b)[0..n] == a[0..n];
  }

  /** Below the limit, the first page of the rows is all of them. */
  lemma FirstPageOfShortTable<T>(rows: seq<T>, n: nat)
    requires |rows| <= n
    ensures Page(rows, 0, n) == rows
  {
  }
  // ---------------------------------------------------------------------------
  // The table constraints survive insert, update and delete

  /** In a UNIQUE column, two rows with the same key are the same row. */
  lemma UniqueKeyHolder<T, K>(rows: seq<Row<T>>, key: T -> K, i: int, j: int)
    requires UniqueKey(rows, key)
    requires 0 <= i < |rows| && 0 <= j < |rows| && key(rows[i].value) == key(rows[j].value)
    ensures i == j
  {
  }

  /** Inserting a row whose key is free keeps the column unique. */
  lemma AppendKeepsUnique<T, K>(rows: seq<Row<T>>, row: Row<T>, key: T -> K)
    requires UniqueKey(rows, key) && KeyFree(rows, key, key(row.value))
    ensures UniqueKey(rows + [row], key)
  {
  }

  /** Inserting a row whose key is NULL or free keeps a nullable column unique. */
  lemma AppendKeepsUniqueWhenPresent<T, K>(rows: seq<Row<T>>, row: Row<T>, key: T -> Option<K>)
    requires UniqueWhenPresent(rows, key)
    requires key(row.value).Some? ==> KeyFree(rows, key, key(row.value))
    ensures UniqueWhenPresent(rows + [row], key)
  {
  }

  /** Giving row `id` new columns keeps the keys ascending. */
  lemma ReplaceKeepsIdsAscending<T>(rows: seq<Row<T>>, id: int, v: T)
    requires IdsAscending(rows)
    ensures IdsAscending(Replace(rows, id, v))
  {
  }

  /** Giving row `id` a key no other row holds keeps the column unique. */
  lemma ReplaceKeepsUnique<T, K>(rows: seq<Row<T>>, id: int, v: T, key: T -> K)
    requires IdsAscending(rows) && UniqueKey(rows, key) && KeyFreeExcept(rows, key, key(v), id)
    ensures UniqueKey(Replace(rows, id, v), key)
  {
    var r := Replace(rows, id, v);
    forall i, j | 0 <= i < j < |r| ensures key(r[i].value) != key(r[j].value) {
      assert rows[i].id < rows[j].id;
    }
  }

  /** Giving row `id` a NULL key, or one no other row holds, keeps a nullable column unique. */
  lemma ReplaceKeepsUniqueWhenPresent<T, K>(rows: seq<Row<T>>, id: int, v: T, key: T -> Option<K>)
    requires IdsAscending(rows) && UniqueWhenPresent(rows, key)
    requires key(v).Some? ==> KeyFreeExcept(rows, key, key(v), id)
    ensures UniqueWhenPresent(Replace(rows, id, v), key)
  {
    var r := Replace(rows, id, v);
    forall i, j | 0 <= i < j < |r| && key(r[i].value).Some? ensures key(r[i].value) != key(r[j].value) {
      assert rows[i].id < rows[j].id;
    }
  }

  /** Deleting a row keeps the keys ascending. */
  lemma RemoveAtKeepsIdsAscending<T>(rows: seq<Row<T>>, i: int)
    requires 0 <= i < |rows| && IdsAscending(rows)
    ensures IdsAscending(RemoveAt(rows, i))
  {
    var r := RemoveAt(rows, i);
    assert forall a :: 0 <= a < |r| ==> r[a] == rows[if a < i then a else a + 1];
  }

  /** Deleting a row keeps a UNIQUE column unique. */
  lemma RemoveAtKeepsUnique<T, K>(rows: seq<Row<T>>, i: int, key: T -> K)
    requires 0 <= i < |rows| && UniqueKey(rows, key)
    ensures UniqueKey(RemoveAt(rows, i), key)
  {
    var r := RemoveAt(rows, i);
    assert forall a :: 0 <= a < |r| ==> r[a] == rows[if a < i then a else a + 1];
  }

  /** Deleting a row keeps a nullable UNIQUE column unique. */
  lemma RemoveAtKeepsUniqueWhenPresent<T, K>(rows: seq<Row<T>>, i: int, key: T -> Option<K>)
    requires 0 <= i < |rows| && UniqueWhenPresent(rows, key)
    ensures UniqueWhenPresent(RemoveAt(rows, i), key)
  {
    var r := RemoveAt(rows, i);
    assert forall a :: 0 <= a < |r| ==> r[a] == rows[if a < i then a else a + 1];
  }
}
