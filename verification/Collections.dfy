/** Facts about sequences, sets and maps that several modules use. */
module Collections {
  lemma CancelPrefix<T>(p: seq<T>, a: seq<T>, b: seq<T>)
    requires p + a == p + b
    ensures a == b
  {
    assert (p + a)[|p|..] == a && (p + b)[|p|..] == b;
  }

  lemma Member<T>(s: set<T>) returns (x: T)
    requires |s| > 0
    ensures x in s
  {
    assert (forall y :: y !in s) ==> s == {};
    x :| x in s;
  }

  lemma SameCounts<T>(a: multiset<T>, b: multiset<T>)
    requires forall x | x in a || x in b :: a[x] == b[x]
    ensures a == b
  {
    forall x: T
      ensures a[x] == b[x]
    {
    }
  }

  lemma KeyOf<K, V>(m: map<K, V>, v: V) returns (k: K)
    requires v in m.Values
    ensures k in m && m[k] == v
  {
    k :| k in m && m[k] == v;
  }

  lemma ValuesAfter<K, V>(m: map<K, V>, k: K, v: V)
    requires k in m ==> m[k] == v
    ensures m[k := v].Values == m.Values + {v}
  {
    var m' := m[k := v];
    forall x | x in m.Values + {v}
      ensures x in m'.Values
    {
      if x in m.Values {
        var j := KeyOf(m, x);
        assert j in m' && m'[j] == x;
      } else {
        assert k in m' && m'[k] == v;
      }
    }
  }
}
