/** Sums of the values of a finite map. */
module Sums {

  ghost function Sum<K(!new)>(m: map<K, nat>): nat
    decreases |m|
  {
    if m == map[] then 0
    else
      var k :| k in m;
      m[k] + Sum(m - {k})
  }

  /** Any key may be taken out first. */
  lemma {:induction false} Take<K(!new)>(m: map<K, nat>, k: K)
    requires k in m
    ensures Sum(m) == m[k] + Sum(m - {k})
    decreases |m|
  {
    var c :| c in m && Sum(m) == m[c] + Sum(m - {c});
    if c != k {
      Take(m - {c}, k);
      Take(m - {k}, c);
      assert m - {c} - {k} == m - {k} - {c};
    }
  }

  function Inside<K, V>(m: map<K, V>, ks: set<K>): map<K, V> { map k | k in m && k in ks :: m[k] }

  lemma Put<K(!new)>(m: map<K, nat>, k: K, v: nat)
    requires k !in m
    ensures Sum(m[k := v]) == Sum(m) + v
  {
    Take(m[k := v], k);
    assert m[k := v] - {k} == m;
  }

  lemma InsideWithout<K(!new)>(m: map<K, nat>, ks: set<K>, k: K)
    requires k in m
    ensures k in ks ==> Inside(m, ks) - {k} == Inside(m - {k}, ks)
    ensures k !in ks ==> Inside(m, ks) == Inside(m - {k}, ks)
  {
  }

  /** A map splits into the part inside a set of keys and the part outside it. */
  lemma {:induction false} Split<K(!new)>(m: map<K, nat>, ks: set<K>)
    ensures Sum(m) == Sum(Inside(m, ks)) + Sum(m - ks)
    decreases |m|
  {
    if m == map[] {
      assert Inside(m, ks) == map[] && m - ks == map[];
    } else {
      var k :| k in m;
      Take(m, k);
      Split(m - {k}, ks);
      InsideWithout(m, ks, k);
      if k in ks {
        Take(Inside(m, ks), k);
        assert m - {k} - ks == m - ks;
      } else {
        Take(m - ks, k);
        assert m - ks - {k} == m - {k} - ks;
      }
    }
  }
}
