/** Witnesses for non-empty sets and for different sets and maps. */
module Collections {
  ghost function Pick<T>(s: set<T>): (r: T)
    requires |s| != 0
    ensures r in s
  {
    var x :| x in s;
    x
  }

  /** A key on which two different maps differ. */
  ghost function DifferingKey<K(!new), V>(m: map<K, V>, l: map<K, V>): (k: K)
    requires m != l
    ensures (k in m) != (k in l) || (k in m && m[k] != l[k])
  {
    var k :| (k in m) != (k in l) || (k in m && k in l && m[k] != l[k]);
    k
  }

  lemma SameMap<V>(m: map<int, V>, l: map<int, V>)
    requires forall x :: x in m <==> x in l
    requires forall x :: x in m ==> m[x] == l[x]
    ensures m == l
  {
    if m != l {
      var k := DifferingKey(m, l);
    }
  }

  /** An element of only one of two different sets. */
  ghost function DifferingElement<T(!new)>(a: set<T>, b: set<T>): (x: T)
    requires a != b
    ensures (x in a) != (x in b)
  {
    var x :| (x in a) != (x in b);
    x
  }

  lemma SameSet(a: set<int>, b: set<int>)
    requires forall x :: x in a <==> x in b
    ensures a == b
  {
    if a != b {
      var x := DifferingElement(a, b);
    }
  }
}
