/**
 * Python's insertion-ordered `dict`, as a sequence of (key, value) entries with
 * distinct keys. Assigning to a present key replaces its value in place;
 * assigning to a new key appends an entry. A dict comprehension is the
 * left-to-right fold of assignments, so a repeated key keeps its first
 * position and its last value.
 */
module PyDict {
  import opened Wrappers

  type Dict<K, V> = seq<(K, V)>

  predicate KeysUnique<K(==), V>(d: Dict<K, V>) {
    forall i, j :: 0 <= i < j < |d| ==> d[i].0 != d[j].0
  }

  function Keys<K(==), V>(d: Dict<K, V>): set<K> {
    set i | 0 <= i < |d| :: d[i].0
  }

  lemma KeysCons<K, V>(d: Dict<K, V>)
    requires d != []
    ensures Keys(d) == {d[0].0} + Keys(d[1..])
  {
    forall x | x in Keys(d) ensures x in {d[0].0} + Keys(d[1..]) {
      var i :| 0 <= i < |d| && d[i].0 == x;
      if i > 0 { assert d[1..][i - 1].0 == x; }
    }
    forall x | x in Keys(d[1..]) ensures x in Keys(d) {
      var i :| 0 <= i < |d[1..]| && d[1..][i].0 == x;
      assert d[i + 1].0 == x;
    }
  }

  /** `d.get(k)`: the value of the first entry for `k`. */
  function Get<K(==), V>(d: Dict<K, V>, k: K): (r: Option<V>)
    ensures r.Some? <==> k in Keys(d)
  {
    if d == [] then None
    else if d[0].0 == k then Some(d[0].1)
    else
      KeysCons(d);
      Get(d[1..], k)
  }

  /** In a dict with distinct keys, looking up the key of entry `i` gives that entry's value. */
  lemma {:induction false} GetAt<K, V>(d: Dict<K, V>, i: nat)
    requires KeysUnique(d) && i < |d|
    ensures Get(d, d[i].0) == Some(d[i].1)
  {
    if i > 0 {
      assert d[1..][i - 1] == d[i];
      GetAt(d[1..], i - 1);
    }
  }

  /** `d[k] = v`. */
  function Put<K(==), V>(d: Dict<K, V>, k: K, v: V): (r: Dict<K, V>)
    ensures Keys(r) == Keys(d) + {k}
  {
    if d == [] then
      var r := [(k, v)];
      assert Keys(r) == {k} by {
        assert r[0].0 == k;
      }
      r
    else if d[0].0 == k then
      var r := [(k, v)] + d[1..];
      KeysCons(d);
      KeysCons(r);
      assert r[1..] == d[1..];
      r
    else
      KeysCons(d);
      var r := [d[0]] + Put(d[1..], k, v);
      KeysCons(r);
      assert r[1..] == Put(d[1..], k, v);
      r
  }

  lemma {:induction false} PutKeepsKeysUnique<K, V>(d: Dict<K, V>, k: K, v: V)
    requires KeysUnique(d)
    ensures KeysUnique(Put(d, k, v))
  {
    if d != [] && d[0].0 != k {
      PutKeepsKeysUnique(d[1..], k, v);
      var t := Put(d[1..], k, v);
      KeysCons(d);
      forall j | 0 <= j < |t| ensures t[j].0 != d[0].0 {
        assert t[j].0 in Keys(t);
      }
    }
  }

  lemma {:induction false} GetPut<K, V>(d: Dict<K, V>, k: K, v: V, q: K)
    requires KeysUnique(d)
    ensures Get(Put(d, k, v), q) == if q == k then Some(v) else Get(d, q)
  {
    if d != [] && d[0].0 != k {
      GetPut(d[1..], k, v, q);
    }
  }

  /** `{k: v for (k, v) in pairs}`. */
  function FromPairs<K(==), V>(pairs: seq<(K, V)>): (d: Dict<K, V>)
    ensures KeysUnique(d)
    ensures Keys(d) == Keys(pairs)
  {
    if pairs == [] then []
    else
      var init, last := pairs[..|pairs| - 1], pairs[|pairs| - 1];
      var d := Put(FromPairs(init), last.0, last.1);
      PutKeepsKeysUnique(FromPairs(init), last.0, last.1);
      assert pairs == init + [last];
      assert Keys(pairs) == Keys(init) + {last.0} by {
        forall x | x in Keys(pairs) ensures x in Keys(init) + {last.0} {
          var i :| 0 <= i < |pairs| && pairs[i].0 == x;
          if i < |init| { assert init[i] == pairs[i]; }
        }
      }
      d
  }

  /** Reference definition: the value of the last pair for `k`. */
  function LastValue<K(==), V>(pairs: seq<(K, V)>, k: K): Option<V> {
    if pairs == [] then None
    else if pairs[|pairs| - 1].0 == k then Some(pairs[|pairs| - 1].1)
    else LastValue(pairs[..|pairs| - 1], k)
  }

  /** In a dict built from pairs, each key maps to the value of its last pair. */
  lemma {:induction false} FromPairsLastWins<K, V>(pairs: seq<(K, V)>, k: K)
    ensures Get(FromPairs(pairs), k) == LastValue(pairs, k)
  {
    if pairs != [] {
      var init, last := pairs[..|pairs| - 1], pairs[|pairs| - 1];
      FromPairsLastWins(init, k);
      GetPut(FromPairs(init), last.0, last.1, k);
    }
  }
}
