/** Python's stable `sorted(xs, key=...)`. */
module Sorting {
  /** Total and transitive; distinct values may tie. */
  ghost predicate Preorder<T(!new)>(le: (T, T) -> bool) {
    && (forall a, b :: le(a, b) || le(b, a))
    && (forall a, b, c :: le(a, b) && le(b, c) ==> le(a, c))
  }

  ghost predicate SortedBy<T>(le: (T, T) -> bool, xs: seq<T>) {
    forall i, j :: 0 <= i < j < |xs| ==> le(xs[i], xs[j])
  }

  /** Put `x` before the first element it does not exceed: ties keep `x` first. */
  function Insert<T>(le: (T, T) -> bool, x: T, xs: seq<T>): (ys: seq<T>)
    ensures multiset(ys) == multiset{x} + multiset(xs)
  {
    if xs == [] then [x]
    else if le(x, xs[0]) then [x] + xs
    else
      assert xs == [xs[0]] + xs[1..];
      [xs[0]] + Insert(le, x, xs[1..])
  }

  function Sort<T>(le: (T, T) -> bool, xs: seq<T>): (ys: seq<T>)
    ensures multiset(ys) == multiset(xs)
  {
    if xs == [] then []
    else
      assert xs == [xs[0]] + xs[1..];
      Insert(le, xs[0], Sort(le, xs[1..]))
  }

  lemma Members<T>(le: (T, T) -> bool, xs: seq<T>)
    ensures forall x :: x in Sort(le, xs) <==> x in xs
    ensures |Sort(le, xs)| == |xs|
  {
    forall x ensures x in Sort(le, xs) <==> x in xs {
      assert x in Sort(le, xs) <==> x in multiset(Sort(le, xs));
      assert x in xs <==> x in multiset(xs);
    }
    assert |multiset(Sort(le, xs))| == |multiset(xs)|;
  }

  lemma InsertMembers<T>(le: (T, T) -> bool, x: T, xs: seq<T>)
    ensures forall y :: y in Insert(le, x, xs) <==> y == x || y in xs
  {
    forall y ensures y in Insert(le, x, xs) <==> y == x || y in xs {
      assert y in Insert(le, x, xs) <==> y in multiset(Insert(le, x, xs));
      assert y in xs <==> y in multiset(xs);
    }
  }

  lemma {:induction false} InsertSorts<T(!new)>(le: (T, T) -> bool, x: T, xs: seq<T>)
    requires Preorder(le) && SortedBy(le, xs)
    ensures SortedBy(le, Insert(le, x, xs))
  {
    if xs != [] {
      if le(x, xs[0]) {
        var ys := [x] + xs;
        forall i, j | 0 <= i < j < |ys| ensures le(ys[i], ys[j]) {
          if i == 0 && j > 1 { assert le(xs[0], xs[j - 1]); }
        }
      } else {
        InsertSorts(le, x, xs[1..]);
        InsertMembers(le, x, xs[1..]);
        var rest := Insert(le, x, xs[1..]);
        var ys := [xs[0]] + rest;
        forall i, j | 0 <= i < j < |ys| ensures le(ys[i], ys[j]) {
          if i == 0 {
            assert rest[j - 1] in rest;
            if rest[j - 1] != x {
              var k :| 0 <= k < |xs[1..]| && xs[1..][k] == rest[j - 1];
              assert xs[k + 1] == rest[j - 1];
            }
          }
        }
      }
    }
  }

  lemma {:induction false} Sorts<T(!new)>(le: (T, T) -> bool, xs: seq<T>)
    requires Preorder(le)
    ensures SortedBy(le, Sort(le, xs))
  {
    if xs != [] {
      Sorts(le, xs[1..]);
      InsertSorts(le, xs[0], Sort(le, xs[1..]));
    }
  }

  /** Sorting what is sorted changes nothing, ties included. */
  lemma {:induction false} SortedIsFixed<T>(le: (T, T) -> bool, xs: seq<T>)
    requires SortedBy(le, xs)
    ensures Sort(le, xs) == xs
  {
    if xs != [] {
      SortedIsFixed(le, xs[1..]);
      if |xs| > 1 { assert le(xs[0], xs[1]); }
      assert xs == [xs[0]] + xs[1..];
    }
  }

  lemma HeadIsLeast<T>(le: (T, T) -> bool, xs: seq<T>, y: T)
    requires SortedBy(le, xs) && y in xs
    ensures xs[0] == y || le(xs[0], y)
  {
    var i :| 0 <= i < |xs| && xs[i] == y;
  }

  lemma SameMembers<T>(a: seq<T>, b: seq<T>)
    requires multiset(a) == multiset(b)
    ensures |a| == |b| && forall x :: x in a <==> x in b
  {
    assert |multiset(a)| == |a| && |multiset(b)| == |b|;
    forall x ensures x in a <==> x in b {
      assert x in a <==> x in multiset(a);
      assert x in b <==> x in multiset(b);
    }
  }

  /** Two sorted arrangements of the same elements are equal if no two of them tie. */
  lemma {:induction false} SortedUnique<T>(le: (T, T) -> bool, a: seq<T>, b: seq<T>)
    requires SortedBy(le, a) && SortedBy(le, b) && multiset(a) == multiset(b)
    requires forall x, y :: x in a && y in a && le(x, y) && le(y, x) ==> x == y
    ensures a == b
  {
    SameMembers(a, b);
    if a != [] {
      HeadIsLeast(le, a, b[0]);
      HeadIsLeast(le, b, a[0]);
      assert a[0] == b[0];
      TailsMatch(a, b);
      SortedUnique(le, a[1..], b[1..]);
      assert a == [a[0]] + a[1..] && b == [b[0]] + b[1..];
    }
  }

  lemma TailsMatch<T>(a: seq<T>, b: seq<T>)
    requires a != [] && b != [] && a[0] == b[0] && multiset(a) == multiset(b)
    ensures multiset(a[1..]) == multiset(b[1..])
  {
    assert a == [a[0]] + a[1..] && b == [b[0]] + b[1..];
    assert multiset(a[1..]) == multiset(a) - multiset{a[0]};
    assert multiset(b[1..]) == multiset(b) - multiset{b[0]};
  }

  /** Without ties, `sorted` does not depend on the order it is given. */
  lemma SortIgnoresOrder<T(!new)>(le: (T, T) -> bool, a: seq<T>, b: seq<T>)
    requires Preorder(le) && multiset(a) == multiset(b)
    requires forall x, y :: x in a && y in a && le(x, y) && le(y, x) ==> x == y
    ensures Sort(le, a) == Sort(le, b)
  {
    Sorts(le, a);
    Sorts(le, b);
    Members(le, a);
    SortedUnique(le, Sort(le, a), Sort(le, b));
  }
}
