/** Sequences without repetition. */
module Lists {
  ghost predicate Distinct<T>(q: seq<T>) {
    forall i, j :: 0 <= i < j < |q| ==> q[i] != q[j]
  }

  /** Where x first is in q, or the length of q. */
  function Index<T(==)>(q: seq<T>, x: T): nat {
    if q == [] || q[0] == x then 0 else 1 + Index(q[1..], x)
  }

  lemma DistinctJoin<T>(a: seq<T>, b: seq<T>)
    requires Distinct(a) && Distinct(b) && forall x :: x in b ==> x !in a
    ensures Distinct(a + b)
  {
    forall i, j | 0 <= i < j < |a + b|
      ensures (a + b)[i] != (a + b)[j]
    {
      if i < |a| <= j {
        assert b[j - |a|] in b && a[i] in a;
      }
    }
  }

  lemma DistinctRest<T>(q: seq<T>)
    requires Distinct(q) && q != []
    ensures Distinct(q[1..]) && q[0] !in q[1..] && forall x :: x in q[1..] ==> x in q
  {
  }

  /** Two sets that differ at most in x. */
  lemma OneChanges<T>(a: set<T>, a': set<T>, x: T)
    requires forall y :: y != x ==> (y in a' <==> y in a)
    ensures |a'| + (if x in a then 1 else 0) == |a| + if x in a' then 1 else 0
  {
    var rest := a - {x};
    assert a == if x in a then rest + {x} else rest;
    assert a' == if x in a' then rest + {x} else rest;
  }
}
