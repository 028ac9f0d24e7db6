/** Orders, stable sorting and sorted key lists. */
module Ordering {
  ghost predicate Unique<T>(xs: seq<T>) { forall i, j :: 0 <= i < j < |xs| ==> xs[i] != xs[j] }

  ghost predicate TotalOrder<T(!new)>(le: (T, T) -> bool) {
    && (forall a :: le(a, a))
    && (forall a, b :: le(a, b) || le(b, a))
    && (forall a, b :: le(a, b) && le(b, a) ==> a == b)
    && (forall a, b, c :: le(a, b) && le(b, c) ==> le(a, c))
  }

  /** Lexicographic order over sequences. */
  predicate LexLe<T(==)>(le: (T, T) -> bool, a: seq<T>, b: seq<T>) {
    if a == [] then true
    else if b == [] then false
    else if a[0] == b[0] then LexLe(le, a[1..], b[1..])
    else le(a[0], b[0])
  }

  lemma {:induction false} LexTotal<T(!new)>(le: (T, T) -> bool, a: seq<T>, b: seq<T>)
    requires TotalOrder(le)
    ensures LexLe(le, a, b) || LexLe(le, b, a)
    ensures LexLe(le, a, b) && LexLe(le, b, a) ==> a == b
  {
    if a != [] && b != [] && a[0] == b[0] {
      LexTotal(le, a[1..], b[1..]);
      assert a == [a[0]] + a[1..] && b == [b[0]] + b[1..];
    }
  }

  lemma {:induction false} LexTransitive<T(!new)>(le: (T, T) -> bool, a: seq<T>, b: seq<T>, c: seq<T>)
    requires TotalOrder(le)
    requires LexLe(le, a, b) && LexLe(le, b, c)
    ensures LexLe(le, a, c)
  {
    if a != [] && b != [] && c != [] && a[0] == b[0] == c[0] {
      LexTransitive(le, a[1..], b[1..], c[1..]);
    }
  }

  lemma {:induction false} LexReflexive<T>(le: (T, T) -> bool, a: seq<T>)
    ensures LexLe(le, a, a)
  {
    if a != [] {
      LexReflexive(le, a[1..]);
    }
  }

  predicate CharLe(a: char, b: char) { a <= b }

  /** Python's order on `str`: by code point. */
  predicate StrLe(a: string, b: string) { LexLe(CharLe, a, b) }

  predicate StrLt(a: string, b: string) { a != b && StrLe(a, b) }

  lemma StrOrder(a: string, b: string, c: string)
    ensures StrLe(a, a)
    ensures StrLe(a, b) || StrLe(b, a)
    ensures StrLe(a, b) && StrLe(b, a) ==> a == b
    ensures StrLe(a, b) && StrLe(b, c) ==> StrLe(a, c)
  {
    LexReflexive(CharLe, a);
    LexTotal(CharLe, a, b);
    if StrLe(a, b) && StrLe(b, c) { LexTransitive(CharLe, a, b, c); }
  }

  lemma StrTotalOrder()
    ensures TotalOrder(StrLe)
  {
    forall a: string, b: string, c: string
      ensures StrLe(a, a)
      ensures StrLe(a, b) || StrLe(b, a)
      ensures StrLe(a, b) && StrLe(b, a) ==> a == b
      ensures StrLe(a, b) && StrLe(b, c) ==> StrLe(a, c)
    {
      StrOrder(a, b, c);
    }
  }

  ghost predicate Ascending(names: seq<string>) {
    forall i, j :: 0 <= i < j < |names| ==> StrLt(names[i], names[j])
  }

  lemma {:induction false} LeastExists(s: set<string>)
    requires s != {}
    ensures exists m :: m in s && forall x <- s :: StrLe(m, x)
  {
    hide StrLe, StrLt;
    var a :| a in s;
    if s == {a} {
      StrOrder(a, a, a);
    } else {
      LeastExists(s - {a});
      var m :| m in s - {a} && forall x <- s - {a} :: StrLe(m, x);
      StrOrder(a, m, a);
      var least := if StrLe(a, m) then a else m;
      forall x | x in s ensures StrLe(least, x) {
        StrOrder(a, m, x);
      }
    }
  }

  function Least(s: set<string>): (m: string)
    requires s != {}
    ensures m in s && forall x <- s :: StrLe(m, x)
  {
    LeastExists(s);
    assert forall a, b | a in s && b in s && StrLe(a, b) && StrLe(b, a) :: a == b by {
      forall a, b | a in s && b in s && StrLe(a, b) && StrLe(b, a) ensures a == b { StrOrder(a, b, a); }
    }
    var m :| m in s && forall x <- s :: StrLe(m, x);
    m
  }

  /** `sorted(keys)` for a set of distinct names. */
  function SortedKeys(s: set<string>): (keys: seq<string>)
    ensures Ascending(keys)
    ensures forall k :: k in keys <==> k in s
  {
    if s == {} then [] else
    var m := Least(s);
    var rest := SortedKeys(s - {m});
    var keys := [m] + rest;
    assert Ascending(keys) by {
      forall i, j | 0 <= i < j < |keys| ensures StrLt(keys[i], keys[j]) {
        assert keys[j] == rest[j - 1] && rest[j - 1] in rest;
      }
    }
    keys
  }

  lemma {:induction false} SortedKeysCount(s: set<string>)
    ensures |SortedKeys(s)| == |s|
  {
    if s != {} { SortedKeysCount(s - {Least(s)}); }
  }
}
