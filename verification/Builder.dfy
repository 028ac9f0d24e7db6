/** The mutable graph builder and the structural description of what it holds. */
module Builder {
  import opened Values
  import opened Ordering
  import opened Sorting
  import opened JsonTrees
  import opened Reducers
  import opened Topology
  import opened Spec
  import opened Codec
  import opened Rearrangement

  datatype Entry<T> = Entry(key: string, value: T)

  /** A dict: it iterates in the order in which keys were first written. */
  datatype Table<T> = Table(order: seq<string>, at: map<string, T>) {
    ghost predicate Valid() {
      Unique(order) && forall k :: k in order <==> k in at
    }

    function Put(key: string, value: T): (r: Table<T>)
      ensures Valid() ==> r.Valid()
    {
      Table(if key in at then order else order + [key], at[key := value])
    }

    function Items(): (items: seq<Entry<T>>)
      requires Valid()
      ensures |items| == |order|
    {
      seq(|order|, i requires 0 <= i < |order| =>
        assert order[i] in order;
        Entry(order[i], at[order[i]]))
    }
  }

  datatype Blueprint = Blueprint(
    nodes: Table<Node>, edges: Table<Edge>, reducers: Table<Reducer>, maxSteps: int)
  {
    /** What the constructors of edges and `add_edge` establish. */
    ghost predicate Valid() {
      && nodes.Valid() && edges.Valid() && reducers.Valid()
      && (forall s <- edges.at :: edges.at[s].FanOut? ==> ValidFanOut(edges.at[s]) && s != START)
    }

    function Compiled(): Graph { Graph(nodes.at, edges.at, reducers.at, maxSteps) }
  }

  // ----- description -----

  const NOTHING := JObj(map[])

  function NodeOf(e: Entry<Node>): NodeSpec { NodeSpec(e.key, e.value.ref, NOTHING) }

  function EdgeOf(e: Entry<Edge>): EdgeSpec {
    match e.value
    case Static(target) => EdgeSpec(e.key, StaticEdge, Some(target), None, [], NOTHING)
    case Conditional(_, ref, declared) =>
      EdgeSpec(e.key, ConditionalEdge, None, ref, SortedKeys(set x | x in declared), NOTHING)
    case FanOut(branches, next, _) =>
      EdgeSpec(e.key, FanOutEdge, Some(next), None, SortedKeys(set x | x in branches), NOTHING)
  }

  function JoinOf(e: Entry<Edge>): JoinSpec
    requires e.value.FanOut?
  {
    match e.value.join
    case JoinAll => JoinSpec(e.key, KAll, None, None)
    case JoinAny => JoinSpec(e.key, KAny, None, None)
    case FirstSuccess => JoinSpec(e.key, KFirstSuccess, None, None)
    case Quorum(n) => JoinSpec(e.key, KQuorum, Some(n), None)
    case CustomJoin(_, ref) => JoinSpec(e.key, KCustomJoin, None, ref)
  }

  function JoinsOf(items: seq<Entry<Edge>>): seq<JoinSpec> {
    if items == [] then [] else
    var last := items[|items| - 1];
    JoinsOf(items[..|items| - 1]) + if last.value.FanOut? then [JoinOf(last)] else []
  }

  function ReducerOf(e: Entry<Reducer>): ReducerSpec {
    match e.value
    case RejectConflict => ReducerSpec(e.key, KReject, None)
    case First => ReducerSpec(e.key, KFirst, None)
    case Last => ReducerSpec(e.key, KLast, None)
    case Concat => ReducerSpec(e.key, KConcat, None)
    case Union => ReducerSpec(e.key, KUnion, None)
    case Custom(_, ref) => ReducerSpec(e.key, KCustom, ref)
  }

  function DescribedParts(b: Blueprint): Parts
    requires b.nodes.Valid() && b.edges.Valid() && b.reducers.Valid()
  {
    Parts(b.maxSteps, Map(NodeOf, b.nodes.Items()), Map(EdgeOf, b.edges.Items()), JNull,
          Map(ReducerOf, b.reducers.Items()), JoinsOf(b.edges.Items()))
  }

  /** `_describe_topology`: only a reducer for the empty field name cannot be described. */
  function Describe(lib: Library, b: Blueprint): Result<GraphSpec, SpecError>
    requires b.Valid()
  {
    if "" in b.reducers.at then Failure(BadReducer) else Create(lib, DescribedParts(b), None)
  }

  // ----- the builder -----

  class MiniGraph {
    var nodes: Table<Node>
    var edges: Table<Edge>
    var reducers: Table<Reducer>
    const maxSteps: int

    ghost predicate Valid()
      reads this
    {
      Blueprint(nodes, edges, reducers, maxSteps).Valid()
    }

    constructor (maxSteps: int)
      ensures Valid() && this.maxSteps == maxSteps
      ensures nodes == Table([], map[]) && edges == Table([], map[]) && reducers == Table([], map[])
    {
      nodes, edges, reducers := Table([], map[]), Table([], map[]), Table([], map[]);
      this.maxSteps := maxSteps;
    }

    method AddNode(name: string, node: Node)
      requires Valid()
      modifies this`nodes
      ensures Valid() && nodes == old(nodes).Put(name, node)
    {
      nodes := nodes.Put(name, node);
    }

    /** START cannot fan out. */
    method AddEdge(source: string, edge: Edge) returns (ok: bool)
      requires Valid() && (edge.FanOut? ==> ValidFanOut(edge))
      modifies this`edges
      ensures Valid()
      ensures ok <==> !(edge.FanOut? && source == START)
      ensures edges == if ok then old(edges).Put(source, edge) else old(edges)
    {
      if edge.FanOut? && source == START { return false; }
      edges := edges.Put(source, edge);
      return true;
    }

    method AddReducer(field: string, reducer: Reducer)
      requires Valid()
      modifies this`reducers
      ensures Valid() && reducers == old(reducers).Put(field, reducer)
    {
      reducers := reducers.Put(field, reducer);
    }

    /** The snapshot a run works on; later calls of the builder do not touch it. */
    method Compile() returns (graph: Graph)
      requires Valid()
      ensures graph == Graph(nodes.at, edges.at, reducers.at, maxSteps) && graph.Valid()
    {
      graph := Graph(nodes.at, edges.at, reducers.at, maxSteps);
    }

    method DescribeEdges() returns (edgeSpecs: seq<EdgeSpec>, joinSpecs: seq<JoinSpec>)
      requires Valid()
      ensures edgeSpecs == Map(EdgeOf, edges.Items()) && joinSpecs == JoinsOf(edges.Items())
    {
      hide MakeEdge, EdgeOf, JoinOf, SortedKeys, Ascending, ValidEdge, Unique;
      var items := edges.Items();
      edgeSpecs, joinSpecs := [], [];
      for i := 0 to |items|
        invariant edgeSpecs == Map(EdgeOf, items[..i])
        invariant joinSpecs == JoinsOf(items[..i])
      {
        var source, edge := items[i].key, items[i].value;
        assert edges.order[i] in edges.order;
        assert items[..i + 1][..i] == items[..i];
        ConstructorsAccept(items[i]);
        var made := match edge
          case Static(target) => MakeEdge(source, StaticEdge, Some(target), None, [], NOTHING)
          case FanOut(branches, next, _) => MakeEdge(source, FanOutEdge, Some(next), None, branches, NOTHING)
          case Conditional(_, ref, declared) => MakeEdge(source, ConditionalEdge, None, ref, declared, NOTHING);
        edgeSpecs := edgeSpecs + [made.value];
        if edge.FanOut? { joinSpecs := joinSpecs + [JoinOf(items[i])]; }
      }
      assert items[..|items|] == items;
    }

    /** No constructor it calls raises, save for a reducer with an empty field name. */
    method DescribeTopology(lib: Library) returns (r: Result<GraphSpec, SpecError>)
      requires Valid()
      ensures r == Describe(lib, Blueprint(nodes, edges, reducers, maxSteps))
    {
      hide Create, JoinsOf, EdgeOf;
      var items := nodes.Items();
      var nodeSpecs: seq<NodeSpec> := [];
      for i := 0 to |items|
        invariant nodeSpecs == Map(NodeOf, items[..i])
      {
        var made := MakeNode(items[i].key, items[i].value.ref, NOTHING);
        FreezeDictIsFrozen(NOTHING);
        nodeSpecs := nodeSpecs + [made.value];
      }
      assert items[..|items|] == items;
      var edgeSpecs, joinSpecs := DescribeEdges();
      var declared := reducers.Items();
      var reducerSpecs: seq<ReducerSpec> := [];
      for i := 0 to |declared|
        invariant reducerSpecs == Map(ReducerOf, declared[..i])
        invariant forall k :: 0 <= k < i ==> declared[k].key != ""
      {
        var entry := declared[i];
        var spec := ReducerOf(entry);
        var made := MakeReducer(entry.key, spec.kind, spec.ref);
        if made.Failure? {
          assert reducers.order[i] in reducers.order;
          return Failure(BadReducer);
        }
        reducerSpecs := reducerSpecs + [made.value];
      }
      assert declared[..|declared|] == declared;
      assert "" !in reducers.at by {
        forall i | 0 <= i < |reducers.order| ensures reducers.order[i] != "" { assert declared[i].key != ""; }
      }
      r := Create(lib, Parts(maxSteps, nodeSpecs, edgeSpecs, JNull, reducerSpecs, joinSpecs), None);
    }
  }

  /** The record constructors accept every edge a builder holds. */
  lemma ConstructorsAccept(e: Entry<Edge>)
    requires e.value.FanOut? ==> ValidFanOut(e.value)
    ensures e.value.Static? ==>
              MakeEdge(e.key, StaticEdge, Some(e.value.target), None, [], NOTHING) == Success(EdgeOf(e))
    ensures e.value.Conditional? ==>
              MakeEdge(e.key, ConditionalEdge, None, e.value.ref, e.value.declared, NOTHING) == Success(EdgeOf(e))
    ensures e.value.FanOut? ==>
              MakeEdge(e.key, FanOutEdge, Some(e.value.next), None, e.value.branches, NOTHING) == Success(EdgeOf(e))
    ensures ValidEdge(EdgeOf(e)) && ValidNothing()
  {
    hide FreezeDict, SortedKeys;
    FreezeDictIsFrozen(NOTHING);
    var empty: seq<string> := [];
    var none: set<string> := set x | x in empty;
    assert none == {};
    assert SortedKeys(none) == [] by { HasMember(SortedKeys(none)); }
    match e.value
    case Static(target) => MadeEdgeIsValid(e.key, StaticEdge, Some(target), None, [], NOTHING);
    case Conditional(_, ref, declared) =>
      MadeEdgeIsValid(e.key, ConditionalEdge, None, ref, declared, NOTHING);
    case FanOut(branches, next, _) =>
      UniqueCount(branches);
      assert (set x | x in branches) == Elements(branches);
      AscendingIsUnique(branches);
      MadeEdgeIsValid(e.key, FanOutEdge, Some(next), None, branches, NOTHING);
  }

  ghost predicate ValidNothing() { FrozenObject(NOTHING) }

  lemma AscendingIsUnique(names: seq<string>)
    requires Ascending(names)
    ensures Unique(names)
  {
  }

  // ----- a description depends on the final maps only -----

  ghost predicate Same<T, U>(a: Table<T>, b: Table<T>, f: Entry<T> -> U) {
    a.at.Keys == b.at.Keys && forall k <- a.at.Keys :: f(Entry(k, a.at[k])) == f(Entry(k, b.at[k]))
  }

  /** The same names, stable references, edges, regions, joins and reducers. */
  ghost predicate SameTopology(a: Blueprint, b: Blueprint) {
    && a.maxSteps == b.maxSteps
    && Same(a.nodes, b.nodes, NodeOf) && Same(a.edges, b.edges, EdgeOf) && Same(a.reducers, b.reducers, ReducerOf)
    && forall s <- a.edges.at.Keys :: s in b.edges.at && a.edges.at[s].FanOut? && b.edges.at[s].FanOut? ==>
         JoinOf(Entry(s, a.edges.at[s])) == JoinOf(Entry(s, b.edges.at[s]))
  }

  lemma {:induction false} DistinctCount<T>(xs: seq<T>, x: T)
    requires Unique(xs)
    ensures multiset(xs)[x] == if x in xs then 1 else 0
  {
    if xs != [] {
      var front, last := xs[..|xs| - 1], xs[|xs| - 1];
      DistinctCount(front, x);
      assert xs == front + [last];
    }
  }

  lemma DistinctSame<T>(a: seq<T>, b: seq<T>)
    requires Unique(a) && Unique(b) && forall x :: x in a <==> x in b
    ensures multiset(a) == multiset(b)
  {
    forall x ensures multiset(a)[x] == multiset(b)[x] {
      DistinctCount(a, x);
      DistinctCount(b, x);
    }
  }

  /** The members of a described table: one per key. */
  lemma ImageMembers<T, U>(t: Table<T>, f: Entry<T> -> U, x: U)
    requires t.Valid()
    ensures x in Map(f, t.Items()) <==> exists k <- t.at.Keys :: f(Entry(k, t.at[k])) == x
  {
    var items := t.Items();
    if x in Map(f, items) {
      var i :| 0 <= i < |items| && Map(f, items)[i] == x;
      assert t.order[i] in t.order;
    }
    if exists k <- t.at.Keys :: f(Entry(k, t.at[k])) == x {
      var k :| k in t.at.Keys && f(Entry(k, t.at[k])) == x;
      var i :| 0 <= i < |t.order| && t.order[i] == k;
      assert Map(f, items)[i] == x;
    }
  }

  /** Tables with the same keys and images describe to permutations of each other, and
      conversely. `name` is the part of a record that holds the key. */
  lemma SameImages<T, U>(a: Table<T>, b: Table<T>, f: Entry<T> -> U, name: U -> string)
    requires a.Valid() && b.Valid() && forall e :: name(f(e)) == e.key
    ensures Same(a, b, f) <==> multiset(Map(f, a.Items())) == multiset(Map(f, b.Items()))
    ensures Unique(Map(f, a.Items()))
    ensures forall x, y :: x in Map(f, a.Items()) && y in Map(f, a.Items()) && name(x) == name(y) ==> x == y
  {
    Distinguished(a, f, name);
    Distinguished(b, f, name);
    if Same(a, b, f) {
      forall x ensures x in Map(f, a.Items()) <==> x in Map(f, b.Items()) {
        ImageMembers(a, f, x);
        ImageMembers(b, f, x);
      }
      DistinctSame(Map(f, a.Items()), Map(f, b.Items()));
    }
    if multiset(Map(f, a.Items())) == multiset(Map(f, b.Items())) {
      ImageKeys(a, b, f, name);
      ImageKeys(b, a, f, name);
    }
  }

  lemma Distinguished<T, U>(t: Table<T>, f: Entry<T> -> U, name: U -> string)
    requires t.Valid() && forall e :: name(f(e)) == e.key
    ensures Unique(Map(f, t.Items()))
    ensures forall x, y :: x in Map(f, t.Items()) && y in Map(f, t.Items()) && name(x) == name(y) ==> x == y
  {
    var xs := Map(f, t.Items());
    forall i, j | 0 <= i < j < |xs| ensures name(xs[i]) != name(xs[j]) {
      assert xs[i] == f(t.Items()[i]) && xs[j] == f(t.Items()[j]);
      assert t.order[i] != t.order[j];
    }
  }

  lemma ImageKeys<T, U>(a: Table<T>, b: Table<T>, f: Entry<T> -> U, name: U -> string)
    requires a.Valid() && b.Valid() && forall e :: name(f(e)) == e.key
    requires multiset(Map(f, a.Items())) == multiset(Map(f, b.Items()))
    ensures forall k <- a.at.Keys :: k in b.at && f(Entry(k, a.at[k])) == f(Entry(k, b.at[k]))
  {
    forall k | k in a.at.Keys ensures k in b.at && f(Entry(k, a.at[k])) == f(Entry(k, b.at[k])) {
      var x := f(Entry(k, a.at[k]));
      ImageMembers(a, f, x);
      ImageMembers(b, f, x);
      assert x in multiset(Map(f, a.Items())) && x in multiset(Map(f, b.Items()));
      var l :| l in b.at.Keys && f(Entry(l, b.at[l])) == x;
      assert name(x) == k && name(x) == l;
    }
  }

  lemma {:induction false} JoinMembers(items: seq<Entry<Edge>>, j: JoinSpec)
    ensures j in JoinsOf(items) <==> exists e <- items :: e.value.FanOut? && JoinOf(e) == j
  {
    hide JoinOf;
    if items != [] {
      var front, last := items[..|items| - 1], items[|items| - 1];
      JoinMembers(front, j);
      assert items == front + [last];
    }
  }

  lemma {:induction false} JoinCount(items: seq<Entry<Edge>>, source: string)
    requires forall i, k :: 0 <= i < k < |items| ==> items[i].key != items[k].key
    ensures CountJoins(JoinsOf(items), source) <= 1
    ensures (forall e <- items :: e.key != source) ==> CountJoins(JoinsOf(items), source) == 0
  {
    hide JoinOf;
    if items != [] {
      var front, last := items[..|items| - 1], items[|items| - 1];
      JoinCount(front, source);
      assert items == front + [last];
      if last.value.FanOut? {
        JoinSource(last);
        var joins := JoinsOf(items);
        assert joins[..|joins| - 1] == JoinsOf(front);
        forall e | e in front ensures e.key != last.key {
          var i :| 0 <= i < |front| && front[i] == e;
          assert items[i].key != items[|items| - 1].key;
        }
        assert last in items;
      } else {
        assert JoinsOf(items) == JoinsOf(front);
      }
    }
  }

  lemma JoinSource(e: Entry<Edge>)
    requires e.value.FanOut?
    ensures JoinOf(e).source == e.key
  {
  }

  lemma ItemKeys<T>(t: Table<T>)
    requires t.Valid()
    ensures forall i, k :: 0 <= i < k < |t.Items()| ==> t.Items()[i].key != t.Items()[k].key
    ensures forall e :: e in t.Items() <==> e.key in t.at && t.at[e.key] == e.value
  {
    var items := t.Items();
    forall i, k | 0 <= i < k < |items| ensures items[i].key != items[k].key {
      assert t.order[i] != t.order[k];
    }
    forall e ensures e in items <==> e.key in t.at && t.at[e.key] == e.value {
      if e in items {
        var i :| 0 <= i < |items| && items[i] == e;
        assert t.order[i] in t.order;
      }
      if e.key in t.at && t.at[e.key] == e.value {
        var i :| 0 <= i < |t.order| && t.order[i] == e.key;
        assert items[i] == e;
      }
    }
  }

  /** The joins of a table: one for each region. */
  lemma TableJoins(t: Table<Edge>, j: JoinSpec)
    requires t.Valid()
    ensures j in JoinsOf(t.Items()) <==>
              j.source in t.at && t.at[j.source].FanOut? && JoinOf(Entry(j.source, t.at[j.source])) == j
  {
    hide JoinOf, JoinsOf;
    ItemKeys(t);
    JoinMembers(t.Items(), j);
    if exists e <- t.Items() :: e.value.FanOut? && JoinOf(e) == j {
      var e :| e in t.Items() && e.value.FanOut? && JoinOf(e) == j;
      JoinSource(e);
      assert e == Entry(j.source, t.at[j.source]);
    }
    if j.source in t.at && t.at[j.source].FanOut? && JoinOf(Entry(j.source, t.at[j.source])) == j {
      assert Entry(j.source, t.at[j.source]) in t.Items();
    }
  }

  lemma {:induction false} OneJoinPerSource(joins: seq<JoinSpec>)
    requires forall s :: CountJoins(joins, s) <= 1
    ensures Unique(joins)
  {
    if joins != [] {
      var front, last := joins[..|joins| - 1], joins[|joins| - 1];
      forall s ensures CountJoins(front, s) <= 1 { assert CountJoins(joins, s) <= 1; }
      OneJoinPerSource(front);
      assert CountJoins(joins, last.source) <= 1;
      assert CountJoins(front, last.source) == 0;
      CountZero(front, last.source);
      forall i, j | 0 <= i < j < |joins| ensures joins[i] != joins[j] {
        assert front[i] in front;
      }
    }
  }

  lemma TableJoinsDistinct(t: Table<Edge>)
    requires t.Valid()
    ensures forall s :: CountJoins(JoinsOf(t.Items()), s) <= 1
    ensures Unique(JoinsOf(t.Items()))
    ensures forall x, y :: x in JoinsOf(t.Items()) && y in JoinsOf(t.Items()) && x.source == y.source ==> x == y
  {
    hide JoinOf, JoinsOf;
    ItemKeys(t);
    forall s ensures CountJoins(JoinsOf(t.Items()), s) <= 1 { JoinCount(t.Items(), s); }
    OneJoinPerSource(JoinsOf(t.Items()));
    forall x, y | x in JoinsOf(t.Items()) && y in JoinsOf(t.Items()) && x.source == y.source ensures x == y {
      TableJoins(t, x);
      TableJoins(t, y);
    }
  }

  lemma DescribedNames()
    ensures forall e :: NodeName(NodeOf(e)) == e.key
    ensures forall e :: EdgeName(EdgeOf(e)) == e.key
    ensures forall e :: FieldName(ReducerOf(e)) == e.key
  {
  }

  lemma TiedNames(lib: Library)
    ensures forall x, y :: NodeLe(lib)(x, y) && NodeLe(lib)(y, x) ==> NodeName(x) == NodeName(y)
    ensures forall x, y :: EdgeLe(lib)(x, y) && EdgeLe(lib)(y, x) ==> EdgeName(x) == EdgeName(y)
    ensures forall x, y :: FieldLe(x, y) && FieldLe(y, x) ==> FieldName(x) == FieldName(y)
  {
    hide KeyLe, StrLe;
    forall x, y | NodeLe(lib)(x, y) && NodeLe(lib)(y, x) ensures NodeName(x) == NodeName(y) {
      KeyOrder(NodeKey(lib, x), NodeKey(lib, y), NodeKey(lib, x));
      assert NodeKey(lib, x)[0] == NodeKey(lib, y)[0];
    }
    forall x, y | EdgeLe(lib)(x, y) && EdgeLe(lib)(y, x) ensures EdgeName(x) == EdgeName(y) {
      KeyOrder(EdgeKey(lib, x), EdgeKey(lib, y), EdgeKey(lib, x));
      assert EdgeKey(lib, x)[0] == EdgeKey(lib, y)[0];
    }
    forall x, y | FieldLe(x, y) && FieldLe(y, x) ensures FieldName(x) == FieldName(y) {
      StrOrder(x.field, y.field, x.field);
    }
  }

  /** Names are keys of dicts, so a description holds no ties. */
  lemma DescribedHasNoTies(lib: Library, b: Blueprint)
    requires b.Valid()
    ensures NoTies(lib, DescribedParts(b))
  {
    hide NodeLe, EdgeLe, FieldLe, SourceKindLe, NodeOf, EdgeOf, ReducerOf, JoinsOf, Map, NodeName, EdgeName, FieldName,
         ValidFanOut;
    DescribedNames();
    TiedNames(lib);
    Distinguished(b.nodes, NodeOf, NodeName);
    Distinguished(b.edges, EdgeOf, EdgeName);
    Distinguished(b.reducers, ReducerOf, FieldName);
    TableJoinsDistinct(b.edges);
    forall x, y | SourceKindLe(x, y) && SourceKindLe(y, x) ensures x.source == y.source { TiedSource(x, y); }
  }

  lemma SameJoins(a: Blueprint, b: Blueprint)
    requires a.Valid() && b.Valid() && SameTopology(a, b)
    ensures multiset(JoinsOf(a.edges.Items())) == multiset(JoinsOf(b.edges.Items()))
  {
    hide JoinsOf, JoinOf;
    TableJoinsDistinct(a.edges);
    TableJoinsDistinct(b.edges);
    forall j ensures j in JoinsOf(a.edges.Items()) <==> j in JoinsOf(b.edges.Items()) {
      TableJoins(a.edges, j);
      TableJoins(b.edges, j);
      if j.source in a.edges.at.Keys {
        assert EdgeOf(Entry(j.source, a.edges.at[j.source])) == EdgeOf(Entry(j.source, b.edges.at[j.source]));
      }
    }
    DistinctSame(JoinsOf(a.edges.Items()), JoinsOf(b.edges.Items()));
  }

  /** Builders that hold the same topology describe to the same spec, whatever the order
      of the calls that made them and whatever callables stand behind the references. */
  lemma DescriptionIgnoresOrder(lib: Library, a: Blueprint, b: Blueprint)
    requires a.Valid() && b.Valid() && SameTopology(a, b)
    ensures Describe(lib, a) == Describe(lib, b)
  {
    hide Create, NodeOf, EdgeOf, ReducerOf, JoinsOf, JoinOf, Map, NoTies, Same, NodeName,
         EdgeName, FieldName, ValidFanOut;
    DescribedNames();
    SameImages(a.nodes, b.nodes, NodeOf, NodeName);
    SameImages(a.edges, b.edges, EdgeOf, EdgeName);
    SameImages(a.reducers, b.reducers, ReducerOf, FieldName);
    SameJoins(a, b);
    DescribedHasNoTies(lib, a);
    CreateIgnoresOrder(lib, DescribedParts(a), DescribedParts(b), None);
    assert a.reducers.at.Keys == b.reducers.at.Keys by { SameKeys(a.reducers, b.reducers, ReducerOf); }
  }

  lemma SameKeys<T, U>(a: Table<T>, b: Table<T>, f: Entry<T> -> U)
    requires Same(a, b, f)
    ensures a.at.Keys == b.at.Keys
  {
  }

  // ----- and identifies it -----

  lemma DescribedAreValid(b: Blueprint)
    requires b.Valid() && "" !in b.reducers.at
    ensures ValidParts(DescribedParts(b))
  {
    hide JoinsOf, JoinOf, EdgeOf, ValidFanOut, ValidEdge, Frozen, FreezeDict;
    var p := DescribedParts(b);
    ConstructorsAccept(Entry("", Static("")));
    ItemKeys(b.edges);
    ItemKeys(b.reducers);
    forall e | e in p.edges ensures ValidEdge(e) {
      var i :| 0 <= i < |p.edges| && p.edges[i] == e;
      assert b.edges.Items()[i] in b.edges.Items();
      ConstructorsAccept(b.edges.Items()[i]);
    }
    forall r | r in p.reducers ensures ValidReducer(r) {
      var i :| 0 <= i < |p.reducers| && p.reducers[i] == r;
      assert b.reducers.Items()[i] in b.reducers.Items();
    }
    forall j | j in p.joins ensures ValidJoin(j) {
      TableJoins(b.edges, j);
      JoinIsValid(Entry(j.source, b.edges.at[j.source]));
    }
  }

  lemma JoinIsValid(e: Entry<Edge>)
    requires e.value.FanOut? && ValidFanOut(e.value)
    ensures ValidJoin(JoinOf(e))
  {
  }

  /** Every describable builder yields a created spec: it round-trips through
      `to_dict`/`from_dict`, and its identity is that of its content. */
  lemma DescriptionIsCreated(lib: Library, b: Blueprint)
    requires b.Valid()
    ensures Describe(lib, b).Success? <==> "" !in b.reducers.at
    ensures Describe(lib, b).Success? ==> Created(lib, Describe(lib, b).value)
    ensures Sane(lib) && Describe(lib, b).Success? ==>
              Load(lib, ToDict(lib, Describe(lib, b).value)) == Describe(lib, b)
  {
    hide Map, JoinsOf, NodeOf, EdgeOf, ReducerOf, ValidFanOut, ValidParts, Created, Create, Load, ToDict;
    if "" !in b.reducers.at {
      DescribedAreValid(b);
      InferredSchema(lib, DescribedParts(b));
      CreateCreates(lib, DescribedParts(b), None);
      if Sane(lib) { RoundTrip(lib, Describe(lib, b).value); }
    }
  }

  lemma InferredSchema(lib: Library, p: Parts)
    requires p.metadata == JNull
    ensures Create(lib, p, None).Success? && Supported(Create(lib, p, None).value.schema)
  {
    hide Canonical, Payload, UsesRegions;
  }

  /** In a description, a join is implied exactly when it is of kind `all`. */
  lemma ImpliedIsAll(b: Blueprint, j: JoinSpec)
    requires b.Valid() && j in JoinsOf(b.edges.Items())
    ensures var p := DescribedParts(b); Implied(p.edges, p.joins, j) <==> j.kind.KAll?
  {
    hide JoinsOf, JoinOf, CountJoins, ValidFanOut;
    var p := DescribedParts(b);
    TableJoins(b.edges, j);
    TableJoinsDistinct(b.edges);
    CountPositive(p.joins, j);
    var e := Entry(j.source, b.edges.at[j.source]);
    ImageMembers(b.edges, EdgeOf, EdgeOf(e));
    assert EdgeOf(e) in p.edges && EdgeOf(e).kind.FanOutEdge?;
  }

  lemma DescribedJoins(lib: Library, b: Blueprint, j: JoinSpec)
    requires b.Valid() && Describe(lib, b).Success?
    ensures j in Describe(lib, b).value.joins <==> j in JoinsOf(b.edges.Items()) && !j.kind.KAll?
  {
    hide Create, Implied, JoinsOf;
    var p := DescribedParts(b);
    CreateHolds(lib, p, None);
    var explicit := Explicit(p.edges, p.joins, p.joins);
    ExplicitMembers(p.edges, p.joins, p.joins);
    Members(SourceKindLe, explicit);
    if j in p.joins { ImpliedIsAll(b, j); }
  }

  lemma SameSpecSameJoins(lib: Library, a: Blueprint, b: Blueprint, source: string)
    requires a.Valid() && b.Valid() && Describe(lib, a).Success? && Describe(lib, a) == Describe(lib, b)
    requires source in a.edges.at && a.edges.at[source].FanOut? && source in b.edges.at && b.edges.at[source].FanOut?
    ensures JoinOf(Entry(source, a.edges.at[source])) == JoinOf(Entry(source, b.edges.at[source]))
  {
    hide Describe, JoinsOf, ValidFanOut;
    var x, y := JoinOf(Entry(source, a.edges.at[source])), JoinOf(Entry(source, b.edges.at[source]));
    DescribedJoins(lib, a, x);
    DescribedJoins(lib, b, x);
    DescribedJoins(lib, a, y);
    DescribedJoins(lib, b, y);
    TableJoins(a.edges, x);
    TableJoins(b.edges, x);
    TableJoins(a.edges, y);
    TableJoins(b.edges, y);
  }

  lemma SameSpecSameTopology(lib: Library, a: Blueprint, b: Blueprint)
    requires a.Valid() && b.Valid() && Describe(lib, a).Success? && Describe(lib, a) == Describe(lib, b)
    ensures SameTopology(a, b)
  {
    hide NodeOf, EdgeOf, ReducerOf, JoinsOf, JoinOf, Map, Same, NodeName, EdgeName, FieldName, ValidFanOut, Create,
         NodeLe, EdgeLe, FieldLe, Sort;
    DescribedNames();
    CreateHolds(lib, DescribedParts(a), None);
    CreateHolds(lib, DescribedParts(b), None);
    SameImages(a.nodes, b.nodes, NodeOf, NodeName);
    SameImages(a.edges, b.edges, EdgeOf, EdgeName);
    SameImages(a.reducers, b.reducers, ReducerOf, FieldName);
    forall s | s in a.edges.at.Keys && s in b.edges.at && a.edges.at[s].FanOut? && b.edges.at[s].FanOut?
      ensures JoinOf(Entry(s, a.edges.at[s])) == JoinOf(Entry(s, b.edges.at[s]))
    {
      SameSpecSameJoins(lib, a, b, s);
    }
  }

  /** Canonical identity: two graphs share a `graph_id` exactly when they have the same
      topology, or their descriptions are a collision of the digest. */
  lemma GraphIdIsTopology(lib: Library, a: Blueprint, b: Blueprint)
    requires Sane(lib) && a.Valid() && b.Valid()
    requires Describe(lib, a).Success? && Describe(lib, b).Success?
    ensures var s, t := Describe(lib, a).value, Describe(lib, b).value;
            s.graphId == t.graphId <==> SameTopology(a, b) || Collision(lib, Hashed(lib, s), Hashed(lib, t))
  {
    hide Describe, SameTopology, Created, Sane, Collision, Hashed;
    DescriptionIsCreated(lib, a);
    DescriptionIsCreated(lib, b);
    IdentityIsContent(lib, Describe(lib, a).value, Describe(lib, b).value);
    if Describe(lib, a) == Describe(lib, b) { SameSpecSameTopology(lib, a, b); }
    if SameTopology(a, b) { DescriptionIgnoresOrder(lib, a, b); }
  }

  /** The order in which branches are authored never shows: the constructor makes the same
      edge of every arrangement. */
  lemma BranchOrderIsInvisible(branches: seq<string>, arranged: seq<string>, next: string, join: Join)
    requires multiset(branches) == multiset(arranged)
    ensures MakeFanOut(branches, next, join) == MakeFanOut(arranged, next, join)
  {
    SameMembers(branches, arranged);
    assert Elements(branches) == Elements(arranged);
  }
}
