/** Sums over the rows of a table. */
module Sums {

  ghost function Sum<K, V>(rows: map<K, V>, weight: V -> int): int {
    if rows == map[] then 0
    else
      var k :| k in rows;
      weight(rows[k]) + Sum(rows - {k}, weight)
  }

  lemma {:induction false} SumRemove<K, V>(rows: map<K, V>, k: K, weight: V -> int)
    requires k in rows
    ensures Sum(rows, weight) == weight(rows[k]) + Sum(rows - {k}, weight)
    decreases |rows|
  {
    var first :| first in rows && Sum(rows, weight) == weight(rows[first]) + Sum(rows - {first}, weight);
    if first != k {
      SumRemove(rows - {first}, k, weight);
      SumRemove(rows - {k}, first, weight);
      assert rows - {first} - {k} == rows - {k} - {first};
    }
  }

  lemma {:induction false} SumSet<K, V>(rows: map<K, V>, k: K, v: V, weight: V -> int)
    ensures Sum(rows[k := v], weight)
            == weight(v) + Sum(rows, weight) - (if k in rows then weight(rows[k]) else 0)
  {
    SumRemove(rows[k := v], k, weight);
    assert rows[k := v] - {k} == rows - {k};
    if k in rows {
      SumRemove(rows, k, weight);
    } else {
      assert rows - {k} == rows;
    }
  }

  /** Row by row `less` is taken from each weight. */
  lemma {:induction false} SumDifference<K, V>(rows: map<K, V>, rows': map<K, V>, weight: V -> int, less: V -> int)
    requires rows'.Keys == rows.Keys
    requires forall k | k in rows :: weight(rows'[k]) == weight(rows[k]) - less(rows[k])
    ensures Sum(rows', weight) == Sum(rows, weight) - Sum(rows, less)
    decreases |rows|
  {
    if rows != map[] {
      var k :| k in rows;
      SumRemove(rows, k, weight);
      SumRemove(rows, k, less);
      SumRemove(rows', k, weight);
      SumDifference(rows - {k}, rows' - {k}, weight, less);
    }
  }

  /** Rows of weight zero add nothing. */
  lemma {:induction false} SumExtended<K, V>(rows: map<K, V>, rows': map<K, V>, weight: V -> int)
    requires rows.Keys <= rows'.Keys
    requires forall k | k in rows' :: weight(rows'[k]) == if k in rows then weight(rows[k]) else 0
    ensures Sum(rows', weight) == Sum(rows, weight)
    decreases |rows'|
  {
    if rows' != map[] {
      var k :| k in rows';
      SumRemove(rows', k, weight);
      if k in rows {
        SumRemove(rows, k, weight);
      } else {
        assert rows - {k} == rows;
      }
      SumExtended(rows - {k}, rows' - {k}, weight);
    }
  }

  lemma {:induction false} SumNonNegative<K, V>(rows: map<K, V>, weight: V -> int)
    requires forall k | k in rows :: weight(rows[k]) >= 0
    ensures Sum(rows, weight) >= 0
    decreases |rows|
  {
    if rows != map[] {
      var k :| k in rows;
      SumRemove(rows, k, weight);
      SumNonNegative(rows - {k}, weight);
    }
  }

  lemma {:induction false} SumNonPositive<K, V>(rows: map<K, V>, weight: V -> int)
    requires forall k | k in rows :: weight(rows[k]) <= 0
    ensures Sum(rows, weight) <= 0
    decreases |rows|
  {
    if rows != map[] {
      var k :| k in rows;
      SumRemove(rows, k, weight);
      SumNonPositive(rows - {k}, weight);
    }
  }

  lemma {:induction false} SumMonotone<K, V>(rows: map<K, V>, rows': map<K, V>, weight: V -> int)
    requires rows'.Keys == rows.Keys
    requires forall k | k in rows :: weight(rows[k]) <= weight(rows'[k])
    ensures Sum(rows, weight) <= Sum(rows', weight)
    decreases |rows|
  {
    if rows != map[] {
      var k :| k in rows;
      SumRemove(rows, k, weight);
      SumRemove(rows', k, weight);
      SumMonotone(rows - {k}, rows' - {k}, weight);
    }
  }
}
