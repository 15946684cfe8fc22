/** Sequences without duplicates, and going through the elements of a set, in an order of the program's choice. */
module Collections {
  function ToSet<T>(q: seq<T>): set<T> { set x | x in q }

  predicate Distinct<T(==)>(q: seq<T>) {
    forall i, j :: 0 <= i < j < |q| ==> q[i] != q[j]
  }

  /** The sequence without the first occurrence of `x`. */
  function Without<T(==)>(q: seq<T>, x: T): seq<T> {
    if q == [] then [] else if q[0] == x then q[1..] else [q[0]] + Without(q[1..], x)
  }

  lemma {:induction false} WithoutContents<T>(q: seq<T>, x: T)
    requires Distinct(q)
    ensures Distinct(Without(q, x)) && forall y :: y in Without(q, x) <==> y in q && y != x
  {
    if q != [] {
      assert q == [q[0]] + q[1..];
      if q[0] != x {
        WithoutContents(q[1..], x);
        FrontDistinct(q[0], Without(q[1..], x));
      }
    }
  }

  lemma FrontDistinct<T>(x: T, q: seq<T>)
    requires Distinct(q) && x !in q
    ensures Distinct([x] + q) && forall y :: y in [x] + q <==> y in q || y == x
  {
  }

  lemma BackDistinct<T>(q: seq<T>, x: T)
    requires Distinct(q) && x !in q
    ensures Distinct(q + [x]) && forall y :: y in q + [x] <==> y in q || y == x
  {
  }

  lemma RestDistinct<T>(q: seq<T>)
    requires Distinct(q) && q != []
    ensures Distinct(q[1..]) && q[0] !in q[1..] && forall x :: x in q <==> x == q[0] || x in q[1..]
  {
  }

  method Elements<T(==)>(s: set<T>) returns (q: seq<T>)
    ensures ToSet(q) == s
    ensures Distinct(q)
  {
    q := [];
    var left := s;
    while left != {}
      invariant left <= s
      invariant ToSet(q) == s - left
      invariant Distinct(q)
    {
      var x :| x in left;
      left := left - {x};
      assert ToSet(q + [x]) == ToSet(q) + {x};
      q := q + [x];
    }
  }

  lemma NextOf(q: seq<int>, i: int)
    requires 0 <= i < |q|
    ensures q[i] in ToSet(q) && ToSet(q[..i + 1]) == ToSet(q[..i]) + {q[i]}
  {
    assert q[..i + 1] == q[..i] + [q[i]];
  }
}
