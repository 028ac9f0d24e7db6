/** Which parts of a spec may be listed in any order: exactly those without ties. */
module Rearrangement {
  import opened Values
  import opened Ordering
  import opened Sorting
  import opened JsonTrees
  import opened Spec
  import Codec

  ghost predicate Rearranged(p: Parts, q: Parts) {
    && p.maxSteps == q.maxSteps && p.metadata == q.metadata
    && multiset(p.nodes) == multiset(q.nodes) && multiset(p.edges) == multiset(q.edges)
    && multiset(p.reducers) == multiset(q.reducers) && multiset(p.joins) == multiset(q.joins)
  }

  /** Records that tie in `le` are equal. */
  ghost predicate TieFree<T>(le: (T, T) -> bool, xs: seq<T>) {
    forall x, y :: x in xs && y in xs && le(x, y) && le(y, x) ==> x == y
  }

  ghost predicate NoTies(lib: Library, p: Parts) {
    && TieFree(NodeLe(lib), p.nodes) && TieFree(EdgeLe(lib), p.edges)
    && TieFree(FieldLe, p.reducers) && TieFree(SourceKindLe, p.joins)
  }

  lemma {:induction false} ExplicitMultiset(edges: seq<EdgeSpec>, joins: seq<JoinSpec>, among: seq<JoinSpec>,
                                           j: JoinSpec)
    ensures multiset(Explicit(edges, joins, among))[j] == if Implied(edges, joins, j) then 0 else multiset(among)[j]
  {
    hide Implied;
    if among != [] {
      ExplicitMultiset(edges, joins, among[..|among| - 1], j);
      assert among == among[..|among| - 1] + [among[|among| - 1]];
    }
  }

  lemma ExplicitRearranged(p: Parts, q: Parts)
    requires Rearranged(p, q)
    ensures multiset(Explicit(p.edges, p.joins, p.joins)) == multiset(Explicit(q.edges, q.joins, q.joins))
  {
    hide CountJoins;
    SameMembers(p.edges, q.edges);
    forall j
      ensures multiset(Explicit(p.edges, p.joins, p.joins))[j] == multiset(Explicit(q.edges, q.joins, q.joins))[j]
    {
      ExplicitMultiset(p.edges, p.joins, p.joins, j);
      ExplicitMultiset(q.edges, q.joins, q.joins, j);
      CountMultiset(p.joins, q.joins, j.source);
    }
  }

  lemma CanonicalIgnoresOrder(lib: Library, p: Parts, q: Parts, frozen: Json)
    requires Rearranged(p, q) && NoTies(lib, p)
    ensures Canonical(lib, p, frozen) == Canonical(lib, q, frozen)
  {
    hide NodeLe, EdgeLe, FieldLe, SourceKindLe, Implied, Sort;
    NodePreorder(lib);
    EdgePreorder(lib);
    FieldPreorder();
    JoinPreorder();
    ExplicitRearranged(p, q);
    ExplicitMembers(p.edges, p.joins, p.joins);
    SortIgnoresOrder(NodeLe(lib), p.nodes, q.nodes);
    SortIgnoresOrder(EdgeLe(lib), p.edges, q.edges);
    SortIgnoresOrder(FieldLe, p.reducers, q.reducers);
    SortIgnoresOrder(SourceKindLe, Explicit(p.edges, p.joins, p.joins), Explicit(q.edges, q.joins, q.joins));
  }

  lemma CreateIgnoresOrder(lib: Library, p: Parts, q: Parts, given: Option<string>)
    requires Rearranged(p, q) && NoTies(lib, p)
    ensures Create(lib, p, given) == Create(lib, q, given)
  {
    hide Canonical, Seal, FreezeMetadata, NoTies;
    if FreezeMetadata(p.metadata).Some? {
      CanonicalIgnoresOrder(lib, p, q, FreezeMetadata(p.metadata).value);
    }
  }

  // ----- ties show -----

  /** Two records that tie stay in the order in which they are given. */
  lemma {:induction false} InsertTied<T(!new)>(le: (T, T) -> bool, x: T, y: T, xs: seq<T>)
    requires Preorder(le) && le(x, y) && le(y, x) && x != y
    ensures Insert(le, x, Insert(le, y, xs)) != Insert(le, y, Insert(le, x, xs))
  {
    if xs != [] && !le(x, xs[0]) {
      InsertTied(le, x, y, xs[1..]);
      assert !le(y, xs[0]);
      var a, b := Insert(le, y, xs[1..]), Insert(le, x, xs[1..]);
      assert ([xs[0]] + a)[1..] == a && ([xs[0]] + b)[1..] == b;
      assert Insert(le, x, [xs[0]] + a) == [xs[0]] + Insert(le, x, a);
      assert Insert(le, y, [xs[0]] + b) == [xs[0]] + Insert(le, y, b);
      var c, d := Insert(le, x, a), Insert(le, y, b);
      assert ([xs[0]] + c)[1..] == c && ([xs[0]] + d)[1..] == d;
    } else if xs != [] {
      assert le(y, xs[0]);
      assert Insert(le, y, xs) == [y] + xs && Insert(le, x, xs) == [x] + xs;
      assert Insert(le, x, [y] + xs)[0] == x && Insert(le, y, [x] + xs)[0] == y;
    } else {
      assert Insert(le, x, [y])[0] == x && Insert(le, y, [x])[0] == y;
    }
  }

  lemma SortPair<T>(le: (T, T) -> bool, x: T, y: T, rest: seq<T>)
    ensures Sort(le, [x, y] + rest) == Insert(le, x, Insert(le, y, Sort(le, rest)))
  {
    hide Insert;
    var xs, ys := [x, y] + rest, [y] + rest;
    assert xs[1..] == ys && ys[1..] == rest;
    assert Sort(le, ys) == Insert(le, y, Sort(le, rest));
  }

  lemma SortTied<T(!new)>(le: (T, T) -> bool, x: T, y: T, rest: seq<T>)
    requires Preorder(le) && le(x, y) && le(y, x) && x != y
    ensures Sort(le, [x, y] + rest) != Sort(le, [y, x] + rest)
  {
    hide Insert, Preorder;
    InsertTied(le, x, y, Sort(le, rest));
    SortPair(le, x, y, rest);
    SortPair(le, y, x, rest);
  }

  /** Any two different members can be moved to the front. */
  lemma TwoInFront<T>(xs: seq<T>, x: T, y: T) returns (rest: seq<T>)
    requires x in xs && y in xs && x != y
    ensures multiset([x, y] + rest) == multiset(xs) && multiset([y, x] + rest) == multiset(xs)
  {
    var i :| 0 <= i < |xs| && xs[i] == x;
    var others := Without(xs, i);
    assert y in multiset(xs) && y in multiset(others);
    var j :| 0 <= j < |others| && others[j] == y;
    rest := Without(others, j);
  }

  function Without<T>(xs: seq<T>, i: nat): (rest: seq<T>)
    requires i < |xs|
    ensures multiset(xs) == multiset{xs[i]} + multiset(rest)
  {
    assert xs == xs[..i] + [xs[i]] + xs[i + 1..];
    xs[..i] + xs[i + 1..]
  }

  /** A created spec holds the canonical parts. */
  lemma CreateHolds(lib: Library, p: Parts, given: Option<string>)
    requires Create(lib, p, given).Success?
    ensures PartsOf(Create(lib, p, given).value) == Canonical(lib, p, FreezeMetadata(p.metadata).value)
  {
    hide InNormalForm, Canonical, Seal, FreezeDict;
    FreezeDictIsFrozen(p.metadata);
    var frozen := FreezeMetadata(p.metadata).value;
    CanonicalIsNormal(lib, p, frozen);
    SealKeeps(lib, Canonical(lib, p, frozen), given);
  }

  ghost predicate OrderIrrelevant(lib: Library, p: Parts, given: Option<string>) {
    forall q :: Rearranged(p, q) ==> Create(lib, q, given) == Create(lib, p, given)
  }

  lemma SameCanonical(lib: Library, p: Parts, q: Parts, r: Parts, given: Option<string>)
    requires OrderIrrelevant(lib, p, given) && Create(lib, p, given).Success? && Rearranged(p, q) && Rearranged(p, r)
    ensures Canonical(lib, q, FreezeMetadata(p.metadata).value) == Canonical(lib, r, FreezeMetadata(p.metadata).value)
  {
    hide Canonical, Create, FreezeMetadata;
    CreateHolds(lib, q, given);
    CreateHolds(lib, r, given);
  }

  lemma NodesTieFree(lib: Library, p: Parts, given: Option<string>)
    requires OrderIrrelevant(lib, p, given) && Create(lib, p, given).Success?
    ensures TieFree(NodeLe(lib), p.nodes)
  {
    hide OrderIrrelevant, NodeLe, EdgeLe, FieldLe, SourceKindLe, Create, FreezeMetadata, Sort;
    forall x, y | x in p.nodes && y in p.nodes && NodeLe(lib)(x, y) && NodeLe(lib)(y, x) ensures x == y {
      if x != y {
        var rest := TwoInFront(p.nodes, x, y);
        NodePreorder(lib);
        SortTied(NodeLe(lib), x, y, rest);
        SameCanonical(lib, p, p.(nodes := [x, y] + rest), p.(nodes := [y, x] + rest), given);
      }
    }
  }

  lemma EdgesTieFree(lib: Library, p: Parts, given: Option<string>)
    requires OrderIrrelevant(lib, p, given) && Create(lib, p, given).Success?
    ensures TieFree(EdgeLe(lib), p.edges)
  {
    hide OrderIrrelevant, NodeLe, EdgeLe, FieldLe, SourceKindLe, Create, FreezeMetadata, Sort;
    forall x, y | x in p.edges && y in p.edges && EdgeLe(lib)(x, y) && EdgeLe(lib)(y, x) ensures x == y {
      if x != y {
        var rest := TwoInFront(p.edges, x, y);
        EdgePreorder(lib);
        SortTied(EdgeLe(lib), x, y, rest);
        SameCanonical(lib, p, p.(edges := [x, y] + rest), p.(edges := [y, x] + rest), given);
      }
    }
  }

  lemma ReducersTieFree(lib: Library, p: Parts, given: Option<string>)
    requires OrderIrrelevant(lib, p, given) && Create(lib, p, given).Success?
    ensures TieFree(FieldLe, p.reducers)
  {
    hide OrderIrrelevant, NodeLe, EdgeLe, FieldLe, SourceKindLe, Create, FreezeMetadata, Sort;
    forall x, y | x in p.reducers && y in p.reducers && FieldLe(x, y) && FieldLe(y, x) ensures x == y {
      if x != y {
        var rest := TwoInFront(p.reducers, x, y);
        FieldPreorder();
        SortTied(FieldLe, x, y, rest);
        SameCanonical(lib, p, p.(reducers := [x, y] + rest), p.(reducers := [y, x] + rest), given);
      }
    }
  }

  /** Joins that tie have the same source, so neither is implied. */
  lemma TiedJoinsStay(edges: seq<EdgeSpec>, joins: seq<JoinSpec>, x: JoinSpec, y: JoinSpec, rest: seq<JoinSpec>)
    requires joins == [x, y] + rest && x.source == y.source
    ensures Explicit(edges, joins, joins) == [x, y] + Explicit(edges, joins, rest)
  {
    hide CountJoins;
    assert CountJoins(joins, x.source) >= 2 && !Implied(edges, joins, x) && !Implied(edges, joins, y) by {
      TwoCount(x, y, rest);
    }
    Codec.ExplicitSplit(edges, joins, [x, y], rest);
    ExplicitTwo(edges, joins, x, y);
  }

  lemma TwoCount(x: JoinSpec, y: JoinSpec, rest: seq<JoinSpec>)
    requires x.source == y.source
    ensures CountJoins([x, y] + rest, x.source) >= 2
  {
    CountSplit([x, y], rest, x.source);
    assert [x, y][..1] == [x];
    assert CountJoins([x], x.source) == 1;
  }

  lemma ExplicitTwo(edges: seq<EdgeSpec>, joins: seq<JoinSpec>, x: JoinSpec, y: JoinSpec)
    requires !Implied(edges, joins, x) && !Implied(edges, joins, y)
    ensures Explicit(edges, joins, [x, y]) == [x, y]
  {
    hide Implied;
    assert [x, y][..1] == [x] && [x][..0] == [];
    assert Explicit(edges, joins, [x]) == [x];
  }

  lemma TiedSource(x: JoinSpec, y: JoinSpec)
    requires SourceKindLe(x, y) && SourceKindLe(y, x)
    ensures x.source == y.source
  {
    StrTotalOrder();
    LexTotal(StrLe, [x.source, JoinKindName(x.kind)], [y.source, JoinKindName(y.kind)]);
  }

  lemma JoinsTieFree(lib: Library, p: Parts, given: Option<string>)
    requires OrderIrrelevant(lib, p, given) && Create(lib, p, given).Success?
    ensures TieFree(SourceKindLe, p.joins)
  {
    hide OrderIrrelevant, NodeLe, EdgeLe, FieldLe, SourceKindLe, Create, FreezeMetadata, Sort, Implied, Explicit;
    forall x, y | x in p.joins && y in p.joins && SourceKindLe(x, y) && SourceKindLe(y, x) ensures x == y {
      if x != y {
        TiedSource(x, y);
        var rest := TwoInFront(p.joins, x, y);
        var q, r := p.(joins := [x, y] + rest), p.(joins := [y, x] + rest);
        TiedJoinsStay(p.edges, q.joins, x, y, rest);
        TiedJoinsStay(p.edges, r.joins, y, x, rest);
        RestAgrees(p.edges, q.joins, r.joins, rest);
        JoinPreorder();
        SortTied(SourceKindLe, x, y, Explicit(p.edges, q.joins, rest));
        SameCanonical(lib, p, q, r, given);
      }
    }
  }

  lemma RestAgrees(edges: seq<EdgeSpec>, joins: seq<JoinSpec>, joins': seq<JoinSpec>, rest: seq<JoinSpec>)
    requires multiset(joins) == multiset(joins')
    ensures Explicit(edges, joins, rest) == Explicit(edges, joins', rest)
  {
    forall j | j in rest ensures Implied(edges, joins, j) <==> Implied(edges, joins', j) {
      CountMultiset(joins, joins', j.source);
    }
    Codec.ExplicitAgree(edges, joins, joins', rest);
  }

  /** The order in which parts are listed never shows exactly when no two different nodes
      share name, reference-or-empty and metadata, and likewise edges, reducers of one
      field, and joins of one source and kind. */
  lemma OrderIsIrrelevantIffNoTies(lib: Library, p: Parts, given: Option<string>)
    requires Create(lib, p, given).Success?
    ensures OrderIrrelevant(lib, p, given) <==> NoTies(lib, p)
  {
    hide Create, NodeLe, EdgeLe, FieldLe, SourceKindLe;
    if NoTies(lib, p) {
      forall q | Rearranged(p, q) ensures Create(lib, q, given) == Create(lib, p, given) {
        CreateIgnoresOrder(lib, p, q, given);
      }
    }
    if OrderIrrelevant(lib, p, given) {
      NodesTieFree(lib, p, given);
      EdgesTieFree(lib, p, given);
      ReducersTieFree(lib, p, given);
      JoinsTieFree(lib, p, given);
    }
  }

  /** An absent and an empty reference tie, so two nodes of one name show the order in which
      they are listed. */
  lemma AbsentAndEmptyTie(lib: Library, name: string)
    ensures var absent, empty := NodeSpec(name, None, JObj(map[])), NodeSpec(name, Some(""), JObj(map[]));
            !OrderIrrelevant(lib, Parts(1, [absent, empty], [], JNull, [], []), None)
  {
    hide OrderIrrelevant;
    var absent, empty := NodeSpec(name, None, JObj(map[])), NodeSpec(name, Some(""), JObj(map[]));
    var p := Parts(1, [absent, empty], [], JNull, [], []);
    NodePreorder(lib);
    assert NodeLe(lib)(absent, empty) && NodeLe(lib)(empty, absent);
    assert absent in p.nodes && empty in p.nodes;
    OrderIsIrrelevantIffNoTies(lib, p, None);
  }
}
