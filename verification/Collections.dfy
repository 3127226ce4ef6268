/** What several modules say of sequences and sets. */
module Collections {
  ghost predicate NoDup<T>(s: seq<T>) {
    forall i, j :: 0 <= i < j < |s| ==> s[i] != s[j]
  }

  /** A map that is one to one has as many values as keys. */
  lemma {:induction false} Injective<K, V>(m: map<K, V>)
    requires forall x, y :: x in m && y in m && x != y ==> m[x] != m[y]
    ensures |m.Values| == |m|
    decreases |m|
  {
    if m.Keys != {} {
      var x :| x in m.Keys;
      var rest := m - {x};
      assert rest.Keys == m.Keys - {x} && |rest| == |m| - 1;
      Injective(rest);
      forall v | v in m.Values
        ensures v in rest.Values + {m[x]}
      {
        var y :| y in m && m[y] == v;
        assert y != x ==> y in rest && rest[y] == v;
      }
      assert m.Values == rest.Values + {m[x]} && m[x] !in rest.Values;
    } else {
      assert m.Values == {};
    }
  }

  /** Some number is larger than all of a set. */
  lemma {:induction false} LargerThan(s: set<nat>) returns (a: nat)
    ensures a !in s && forall x :: x in s ==> x < a
    decreases s
  {
    if s == {} {
      a := 0;
    } else {
      var x :| x in s;
      var b := LargerThan(s - {x});
      assert forall y :: y in s ==> y == x || y in s - {x};
      a := if b <= x then x + 1 else b;
    }
  }
}
