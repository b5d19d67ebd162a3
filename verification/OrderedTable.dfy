/** Insertion-ordered tables bounded by dropping their oldest entries. */
module OrderedTable {

  predicate Has<K(==), V>(table: seq<(K, V)>, key: K) {
    exists i :: 0 <= i < |table| && table[i].0 == key
  }

  ghost predicate Distinct<K, V>(table: seq<(K, V)>) {
    forall i, j | 0 <= i < j < |table| :: table[i].0 != table[j].0
  }

  function Without<K(==), V>(table: seq<(K, V)>, key: K): (r: seq<(K, V)>)
    ensures |r| <= |table|
  {
    if table == [] then []
    else if table[0].0 == key then Without(table[1..], key)
    else [table[0]] + Without(table[1..], key)
  }

  lemma {:induction false} WithoutFacts<K, V>(table: seq<(K, V)>, key: K)
    ensures var r := Without(table, key);
            && (forall e | e in r :: e in table && e.0 != key)
            && (forall e | e in table && e.0 != key :: e in r)
            && (Has(table, key) <==> |r| < |table|)
  {
    if table != [] {
      WithoutFacts(table[1..], key);
      assert table == [table[0]] + table[1..];
      if Has(table[1..], key) {
        var i :| 0 <= i < |table[1..]| && table[1..][i].0 == key;
        assert table[i + 1].0 == key;
      }
    }
  }

  /** Keep the newest `limit` entries. */
  function Newest<T>(items: seq<T>, limit: nat): seq<T> {
    if |items| <= limit then items else items[|items| - limit..]
  }

  /** Store an entry as the newest one, then drop the oldest beyond the limit. */
  function Remember<K(==), V>(table: seq<(K, V)>, key: K, value: V, limit: nat): (r: seq<(K, V)>)
    ensures |r| <= limit
  {
    Newest(Without(table, key) + [(key, value)], limit)
  }

  lemma {:induction false} WithoutKeepsDistinct<K, V>(table: seq<(K, V)>, key: K)
    requires Distinct(table)
    ensures Distinct(Without(table, key))
  {
    if table != [] {
      var rest := Without(table[1..], key);
      WithoutKeepsDistinct(table[1..], key);
      WithoutFacts(table[1..], key);
      if table[0].0 != key {
        forall i, j | 0 <= i < j < |rest| + 1
          ensures ([table[0]] + rest)[i].0 != ([table[0]] + rest)[j].0
        {
          if i == 0 {
            assert rest[j - 1] in table[1..];
          }
        }
      }
    }
  }
}
