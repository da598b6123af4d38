/** Python's `dict(pairs)`: a dictionary built from a list of key/value
    pairs, where a key that occurs twice keeps the value of its LAST
    occurrence.  Both tables of the wrapper are turned into dictionaries this
    way. */
module Dicts {
  import opened Types

  /** `[(row[0], row[1]) for row in rows]`. */
  function FirstTwo<A, B, C>(rows: seq<(A, B, C)>): (pairs: seq<(A, B)>)
    ensures |pairs| == |rows|
    ensures forall i :: 0 <= i < |rows| ==> pairs[i] == (rows[i].0, rows[i].1)
  {
    seq(|rows|, i requires 0 <= i < |rows| => (rows[i].0, rows[i].1))
  }

  /** `[(row[1], row[2]) for row in rows]`. */
  function LastTwo<A, B, C>(rows: seq<(A, B, C)>): (pairs: seq<(B, C)>)
    ensures |pairs| == |rows|
    ensures forall i :: 0 <= i < |rows| ==> pairs[i] == (rows[i].1, rows[i].2)
  {
    seq(|rows|, i requires 0 <= i < |rows| => (rows[i].1, rows[i].2))
  }

  /** The keys listed in `pairs`. */
  ghost function KeysOf<K, V>(pairs: seq<(K, V)>): set<K>
  {
    set i | 0 <= i < |pairs| :: pairs[i].0
  }

  /** True when no key occurs twice in `pairs`. */
  ghost predicate DistinctKeys<K, V>(pairs: seq<(K, V)>)
  {
    forall i, j :: 0 <= i < j < |pairs| ==> pairs[i].0 != pairs[j].0
  }

  /** `dict(pairs)`: the domain is exactly the listed keys, and a key that
      no later pair repeats maps to the value of its own pair. */
  function ToDict<K, V>(pairs: seq<(K, V)>): (d: map<K, V>)
    ensures d.Keys == KeysOf(pairs)
    ensures forall i :: 0 <= i < |pairs| && (forall j :: i < j < |pairs| ==> pairs[j].0 != pairs[i].0)
              ==> d[pairs[i].0] == pairs[i].1
  {
    if |pairs| == 0 then map[]
    else
      var init := pairs[..|pairs| - 1];
      var last := pairs[|pairs| - 1];
      assert KeysOf(pairs) == KeysOf(init) + {last.0} by {
        forall k | k in KeysOf(pairs) ensures k in KeysOf(init) + {last.0} {
          var i :| 0 <= i < |pairs| && pairs[i].0 == k;
          if i < |pairs| - 1 { assert init[i].0 == k; }
        }
      }
      ToDict(init)[last.0 := last.1]
  }

  /** With no repeated key, every pair is found in the dictionary. */
  lemma ToDictOfDistinct<K, V>(pairs: seq<(K, V)>, i: nat)
    requires DistinctKeys(pairs)
    requires i < |pairs|
    ensures pairs[i].0 in ToDict(pairs)
    ensures ToDict(pairs)[pairs[i].0] == pairs[i].1
  {
    assert pairs[i].0 in KeysOf(pairs);
  }

  /** `dict(pairs).get(key)`, found by searching the pairs from the end, so
      that the last occurrence of a key wins. */
  function Lookup<K(==), V>(pairs: seq<(K, V)>, key: K): (r: Option<V>)
    ensures r.Some? ==> key in KeysOf(pairs)
  {
    if |pairs| == 0 then None
    else if pairs[|pairs| - 1].0 == key then Some(pairs[|pairs| - 1].1)
    else
      var r := Lookup(pairs[..|pairs| - 1], key);
      assert r.Some? ==> key in KeysOf(pairs) by {
        if r.Some? {
          var i :| 0 <= i < |pairs| - 1 && pairs[..|pairs| - 1][i].0 == key;
          assert pairs[i].0 == key;
        }
      }
      r
  }

  /** The search and the dictionary agree on every key. */
  lemma {:induction false} LookupIsDict<K, V>(pairs: seq<(K, V)>, key: K)
    ensures Lookup(pairs, key) == if key in ToDict(pairs) then Some(ToDict(pairs)[key]) else None
  {
    if |pairs| > 0 {
      LookupIsDict(pairs[..|pairs| - 1], key);
    }
  }
}
