/** Counting the entries of a map that satisfy a predicate. */
module Counting {

  function Where<K(!new), V(!new)>(m: map<K, V>, p: V -> bool): set<K> {
    set k | k in m && p(m[k])
  }

  function One(b: bool): nat {
    if b then 1 else 0
  }

  lemma CardWithout<K>(ks: set<K>, k: K)
    ensures |ks - {k}| == |ks| - One(k in ks)
  {
    if k !in ks {
      assert ks - {k} == ks;
    }
  }

  /** Replacing one entry moves the count by that entry's contribution. */
  lemma WhereUpdate<K(!new), V(!new)>(m: map<K, V>, k: K, v: V, p: V -> bool)
    ensures |Where(m[k := v], p)| == |Where(m, p)| - One(k in m && p(m[k])) + One(p(v))
  {
    var before, after := Where(m, p), Where(m[k := v], p);
    assert before - {k} == after - {k} by {
      forall x ensures x in before - {k} <==> x in after - {k} {}
    }
    CardWithout(before, k);
    CardWithout(after, k);
  }

  /** A predicate that splits in two splits the count. */
  lemma WhereSplit<K(!new), V(!new)>(m: map<K, V>, p: V -> bool, a: V -> bool, b: V -> bool)
    requires forall k :: k in m ==> (p(m[k]) <==> a(m[k]) || b(m[k]))
    requires forall k :: k in m ==> !(a(m[k]) && b(m[k]))
    ensures |Where(m, p)| == |Where(m, a)| + |Where(m, b)|
  {
    assert Where(m, p) == Where(m, a) + Where(m, b);
    assert Where(m, a) !! Where(m, b);
  }

  /** The same for a predicate that also asks whether the key is marked. */
  function Those<K(!new), V(!new)>(m: map<K, V>, marked: set<K>, p: (V, bool) -> bool): set<K> {
    set k | k in m && p(m[k], k in marked)
  }

  lemma ThoseUpdate<K(!new), V(!new)>(m: map<K, V>, marked: set<K>, k: K, v: V, p: (V, bool) -> bool)
    ensures |Those(m[k := v], marked, p)| ==
            |Those(m, marked, p)| - One(k in m && p(m[k], k in marked)) + One(p(v, k in marked))
  {
    var before, after := Those(m, marked, p), Those(m[k := v], marked, p);
    assert before - {k} == after - {k} by {
      forall x ensures x in before - {k} <==> x in after - {k} {}
    }
    CardWithout(before, k);
    CardWithout(after, k);
  }

  lemma ThoseMarked<K(!new), V(!new)>(m: map<K, V>, marked: set<K>, k: K, p: (V, bool) -> bool)
    ensures |Those(m, marked + {k}, p)| ==
            |Those(m, marked, p)| - One(k in m && p(m[k], k in marked)) + One(k in m && p(m[k], true))
  {
    var before, after := Those(m, marked, p), Those(m, marked + {k}, p);
    assert before - {k} == after - {k} by {
      forall x ensures x in before - {k} <==> x in after - {k} {}
    }
    CardWithout(before, k);
    CardWithout(after, k);
  }

  /** Some key of the map. */
  ghost function Any<K, V>(m: map<K, V>): K
    requires m.Keys != {}
  {
    var k :| k in m.Keys;
    k
  }

  /** The sum of f over the entries. */
  ghost function Total<K, V>(m: map<K, V>, f: V -> nat): nat
    decreases m.Keys
  {
    if m.Keys == {} then 0
    else var k := Any(m); assert k in m; f(m[k]) + Total(m - {k}, f)
  }

  lemma {:induction false} TotalWithout<K, V>(m: map<K, V>, f: V -> nat, k: K)
    requires k in m
    ensures Total(m, f) == f(m[k]) + Total(m - {k}, f)
    decreases m.Keys
  {
    var j := Any(m);
    if j != k {
      TotalWithout(m - {j}, f, k);
      TotalWithout(m - {k}, f, j);
      assert m - {j} - {k} == m - {k} - {j};
    }
  }

  lemma TotalUpdate<K, V>(m: map<K, V>, f: V -> nat, k: K, v: V)
    requires k in m
    ensures Total(m[k := v], f) == Total(m, f) - f(m[k]) + f(v)
  {
    TotalWithout(m, f, k);
    TotalWithout(m[k := v], f, k);
    assert m[k := v] - {k} == m - {k};
  }
}
