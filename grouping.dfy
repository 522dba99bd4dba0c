/**
 * `groupby(key)['cnt'].sum()`: the rows are partitioned by a key and the
 * rental counts of each part are added up. Rows whose key is missing are
 * dropped, as pandas does by default; the key of a row is therefore given
 * as an optional value. The output order of pandas is not modelled: a
 * group table is a map from key to sum.
 */
module Grouping {
  import opened Wrappers
  import opened Records

  /** Total rental count of a sequence of rows. */
  function SumCnt(rows: seq<Record>): int
  {
    if rows == [] then 0 else rows[0].cnt + SumCnt(rows[1..])
  }

  /** Total rental count of the rows whose key is `k` (reference definition). */
  function SumOfKey<K(==)>(rows: seq<Record>, key: Record -> Option<K>, k: K): int
  {
    if rows == [] then 0
    else (if key(rows[0]) == Some(k) then rows[0].cnt else 0) + SumOfKey(rows[1..], key, k)
  }

  /** Total rental count of the rows whose key is present. */
  function SumOfDefined<K>(rows: seq<Record>, key: Record -> Option<K>): int
  {
    if rows == [] then 0
    else (if key(rows[0]).Some? then rows[0].cnt else 0) + SumOfDefined(rows[1..], key)
  }

  /** Adds `v` to the sum kept for `k`, opening the group when it is new. */
  function AddTo<K(==)>(table: map<K, int>, k: K, v: int): (r: map<K, int>)
    ensures r.Keys == table.Keys + {k}
    ensures r[k] == (if k in table then table[k] else 0) + v
    ensures forall j :: j in table && j != k ==> r[j] == table[j]
  {
    if k in table then table[k := table[k] + v] else table[k := v]
  }

  /**
   * `table` is the result of grouping `rows` by `key` and summing `cnt`:
   * its keys are exactly the keys some row carries, each holding the sum
   * over exactly the rows with that key.
   */
  ghost predicate IsGroupTable<K(!new)>(table: map<K, int>, rows: seq<Record>, key: Record -> Option<K>)
  {
    && (forall k :: k in table <==> exists i :: 0 <= i < |rows| && key(rows[i]) == Some(k))
    && (forall k :: k in table ==> table[k] == SumOfKey(rows, key, k))
  }

  /** That description fixes the table: there is only one group table. */
  lemma GroupTableUnique<K(!new)>(t1: map<K, int>, t2: map<K, int>, rows: seq<Record>, key: Record -> Option<K>)
    requires IsGroupTable(t1, rows, key) && IsGroupTable(t2, rows, key)
    ensures t1 == t2
  {
    assert t1.Keys == t2.Keys;
  }

  /** The group table, built by folding the rows into a map. */
  function GroupSum<K(==,!new)>(rows: seq<Record>, key: Record -> Option<K>): (table: map<K, int>)
    ensures IsGroupTable(table, rows, key)
  {
    if rows == [] then map[]
    else
      var rest := GroupSum(rows[1..], key);
      assert forall i :: 1 <= i < |rows| ==> rows[i] == rows[1..][i - 1];
      match key(rows[0])
      case None => rest
      case Some(k) =>
        assert k !in rest ==> SumOfKey(rows[1..], key, k) == 0 by {
          if k !in rest { SumOfAbsentKey(rows[1..], key, k); }
        }
        AddTo(rest, k, rows[0].cnt)
  }

  /** A key no row carries sums to zero. */
  lemma {:induction false} SumOfAbsentKey<K>(rows: seq<Record>, key: Record -> Option<K>, k: K)
    requires forall i :: 0 <= i < |rows| ==> key(rows[i]) != Some(k)
    ensures SumOfKey(rows, key, k) == 0
  {
    if rows != [] {
      assert key(rows[0]) != Some(k);
      assert forall i :: 1 <= i < |rows| ==> rows[i] == rows[1..][i - 1];
      SumOfAbsentKey(rows[1..], key, k);
    }
  }

  /** Sum of all the values of a group table, in no particular order. */
  ghost function Total<K>(table: map<K, int>): int
    decreases |table|
  {
    if table == map[] then 0
    else
      var k :| k in table;
      table[k] + Total(table - {k})
  }

  /** `Total` may take out any key first. */
  lemma {:induction false} TotalRemove<K>(table: map<K, int>, k: K)
    requires k in table
    ensures Total(table) == table[k] + Total(table - {k})
    decreases |table|
  {
    var j :| j in table && Total(table) == table[j] + Total(table - {j});
    if j != k {
      var both := table - {j} - {k};
      assert table - {j} - {k} == table - {k} - {j};
      TotalRemove(table - {j}, k);
      TotalRemove(table - {k}, j);
    }
  }

  lemma TotalAddTo<K>(table: map<K, int>, k: K, v: int)
    ensures Total(AddTo(table, k, v)) == Total(table) + v
  {
    var r := AddTo(table, k, v);
    TotalRemove(r, k);
    if k in table {
      TotalRemove(table, k);
      assert r - {k} == table - {k};
    } else {
      assert r - {k} == table;
    }
  }

  /**
   * The group sums add up to the total rental count of the rows whose key
   * is present: grouping partitions those rows.
   */
  lemma {:induction false} GroupTotal<K(!new)>(rows: seq<Record>, key: Record -> Option<K>)
    ensures Total(GroupSum(rows, key)) == SumOfDefined(rows, key)
  {
    if rows != [] {
      GroupTotal(rows[1..], key);
      if key(rows[0]).Some? {
        TotalAddTo(GroupSum(rows[1..], key), key(rows[0]).value, rows[0].cnt);
      }
    }
  }

  /** When no key is missing, the group sums add up to the total count. */
  lemma {:induction false} GroupTotalAllDefined<K(!new)>(rows: seq<Record>, key: Record -> Option<K>)
    requires forall i :: 0 <= i < |rows| ==> key(rows[i]).Some?
    ensures Total(GroupSum(rows, key)) == SumCnt(rows)
  {
    GroupTotal(rows, key);
    DefinedIsAll(rows, key);
  }

  lemma {:induction false} DefinedIsAll<K>(rows: seq<Record>, key: Record -> Option<K>)
    requires forall i :: 0 <= i < |rows| ==> key(rows[i]).Some?
    ensures SumOfDefined(rows, key) == SumCnt(rows)
  {
    if rows != [] {
      assert key(rows[0]).Some?;
      assert forall i :: 1 <= i < |rows| ==> rows[i] == rows[1..][i - 1];
      DefinedIsAll(rows[1..], key);
    }
  }
}
