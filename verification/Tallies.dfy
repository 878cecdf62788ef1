/** Counters: maps from keys to numbers, and the sequences of keys that they count. */
module Tallies {

  function Tally<K(==)>(m: map<K, nat>, k: K): nat {
    if k in m then m[k] else 0
  }

  function Added<K(==)>(m: map<K, nat>, k: K, n: nat): map<K, nat> {
    m[k := Tally(m, k) + n]
  }

  ghost function Sum<K(!new)>(m: map<K, nat>): nat {
    if m.Keys == {} then 0
    else
      var k :| k in m;
      m[k] + Sum(m - {k})
  }

  /** `m` counts the keys of `keys`. */
  ghost predicate Counts<K(!new)>(m: map<K, nat>, keys: seq<K>) {
    forall k :: Tally(m, k) == multiset(keys)[k]
  }

  lemma {:induction false} SumWithout<K(!new)>(m: map<K, nat>, k: K)
    requires k in m
    ensures Sum(m) == m[k] + Sum(m - {k})
    decreases |m|
  {
    var c :| c in m && Sum(m) == m[c] + Sum(m - {c});
    if c != k {
      SumWithout(m - {c}, k);
      SumWithout(m - {k}, c);
      assert m - {c} - {k} == m - {k} - {c};
    }
  }

  lemma SumAdded<K(!new)>(m: map<K, nat>, k: K, n: nat)
    ensures Sum(Added(m, k, n)) == Sum(m) + n
  {
    var added := Added(m, k, n);
    SumWithout(added, k);
    if k in m {
      SumWithout(m, k);
      assert added - {k} == m - {k};
    } else {
      assert added - {k} == m;
    }
  }

  lemma {:induction false} SumZero<K(!new)>(m: map<K, nat>)
    requires forall k <- m :: m[k] == 0
    ensures Sum(m) == 0
    decreases |m|
  {
    if m.Keys != {} {
      var k :| k in m;
      SumWithout(m, k);
      SumZero(m - {k});
    }
  }

  /** A counter's values add up to the number of things counted. */
  lemma {:induction false} CountsTotal<K(!new)>(m: map<K, nat>, keys: seq<K>)
    requires Counts(m, keys)
    ensures Sum(m) == |keys|
    decreases |keys|
  {
    if keys == [] {
      forall k | k in m ensures m[k] == 0 {
        assert Tally(m, k) == multiset(keys)[k];
      }
      SumZero(m);
    } else {
      var rest, k := keys[..|keys| - 1], keys[|keys| - 1];
      assert keys == rest + [k];
      assert Tally(m, k) == multiset(keys)[k];
      var less := m[k := m[k] - 1];
      forall j ensures Tally(less, j) == multiset(rest)[j] {
        assert Tally(m, j) == multiset(keys)[j];
      }
      CountsTotal(less, rest);
      assert Added(less, k, 1) == m;
      SumAdded(less, k, 1);
    }
  }

  /** Counting one more key. */
  lemma CountsOneMore<K(!new)>(m: map<K, nat>, keys: seq<K>, k: K)
    requires Counts(m, keys)
    ensures Counts(Added(m, k, 1), keys + [k])
  {
    forall j ensures Tally(Added(m, k, 1), j) == multiset(keys + [k])[j] {
      assert Tally(m, j) == multiset(keys)[j];
    }
  }
}
