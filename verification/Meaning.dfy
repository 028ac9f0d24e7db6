/** What a dumped description says about the graph it was made from: every record, by its own
    names and kinds, means what the graph does. */
module Meaning {
  import opened Values
  import opened Ordering
  import opened Sorting
  import opened JsonTrees
  import opened Reducers
  import opened Topology
  import opened Spec
  import opened Builder
  import opened Assurance
  import opened Rearrangement

  // ----- reading records -----

  /** The record holds this text under this name. */
  predicate Says(record: Json, name: string, text: string) {
    record.JObj? && name in record.entries && record.entries[name] == JText(text)
  }

  predicate SaysNothing(record: Json, name: string) {
    record.JObj? && name in record.entries && record.entries[name] == JNull
  }

  predicate SaysOptional(record: Json, name: string, text: Option<string>) {
    if text.Some? then Says(record, name, text.value) else SaysNothing(record, name)
  }

  /** The record lists exactly these texts, in some order. */
  predicate Lists(record: Json, name: string, texts: seq<string>) {
    && record.JObj? && name in record.entries && record.entries[name].JArr?
    && (forall j <- record.entries[name].items :: j.JText? && j.s in texts)
    && forall t <- texts :: JText(t) in record.entries[name].items
  }

  predicate NodeSays(record: Json, name: string, node: Node) {
    Says(record, "name", name) && SaysOptional(record, "implementation_ref", node.ref)
  }

  predicate EdgeSays(record: Json, source: string, edge: Edge) {
    && Says(record, "source", source)
    && match edge
       case Static(target) =>
         && Says(record, "kind", "static") && Says(record, "target", target)
         && SaysNothing(record, "router_ref") && Lists(record, "declared_targets", [])
       case Conditional(_, ref, declared) =>
         && Says(record, "kind", "conditional") && SaysNothing(record, "target")
         && SaysOptional(record, "router_ref", ref) && Lists(record, "declared_targets", declared)
       case FanOut(branches, next, _) =>
         && Says(record, "kind", "fanout") && Says(record, "target", next)
         && SaysNothing(record, "router_ref") && Lists(record, "declared_targets", branches)
  }

  /** The join a record stands for, given the callable a custom join has. */
  function ReadJoin(record: Json, admit: seq<BranchOutcome> -> JoinAnswer, ref: Option<string>): Option<Join> {
    if Says(record, "kind", "all") then Some(JoinAll)
    else if Says(record, "kind", "any") then Some(JoinAny)
    else if Says(record, "kind", "first_success") then Some(FirstSuccess)
    else if Says(record, "kind", "custom") && SaysOptional(record, "ref", ref) then Some(CustomJoin(admit, ref))
    else if Says(record, "kind", "quorum") && "quorum" in record.entries && record.entries["quorum"].JInt?
            && record.entries["quorum"].n >= 0 then
      Some(Quorum(record.entries["quorum"].n))
    else None
  }

  function ReadReducer(record: Json, fn: (Value, seq<Value>) -> FoldAnswer, ref: Option<string>): Option<Reducer> {
    if Says(record, "kind", "reject_conflict") then Some(RejectConflict)
    else if Says(record, "kind", "first") then Some(First)
    else if Says(record, "kind", "last") then Some(Last)
    else if Says(record, "kind", "concat") then Some(Concat)
    else if Says(record, "kind", "union") then Some(Union)
    else if Says(record, "kind", "custom") && SaysOptional(record, "ref", ref) then Some(Custom(fn, ref))
    else None
  }

  /** Read with its own callable, the record is the region's join. */
  ghost predicate JoinSays(record: Json, source: string, join: Join) {
    && Says(record, "source", source)
    && ReadJoin(record, if join.CustomJoin? then join.admit else (view: seq<BranchOutcome>) => Admits([]),
                if join.CustomJoin? then join.ref else None) == Some(join)
  }

  ghost predicate ReducerSays(record: Json, field: string, reducer: Reducer) {
    && Says(record, "field", field)
    && ReadReducer(record, if reducer.Custom? then reducer.fn else (base: Value, values: seq<Value>) => Folds(base),
                   if reducer.Custom? then reducer.ref else None) == Some(reducer)
  }

  // ----- one record -----

  lemma NodeRecord(e: Entry<Node>)
    ensures NodeSays(NodeJson(NodeOf(e)), e.key, e.value)
  {
    hide Thaw;
  }

  lemma ListsNames(record: Json, name: string, texts: seq<string>, names: seq<string>)
    requires record.JObj? && name in record.entries && record.entries[name] == TextList(names)
    requires forall x :: x in names <==> x in texts
    ensures Lists(record, name, texts)
  {
    var items := TextList(names).items;
    forall j | j in items ensures j.JText? && j.s in texts {
      var i :| 0 <= i < |items| && items[i] == j;
      assert names[i] in names;
    }
    forall t | t in texts ensures JText(t) in items {
      var i :| 0 <= i < |names| && names[i] == t;
      assert items[i] == JText(t);
    }
  }

  lemma EdgeRecord(e: Entry<Edge>)
    ensures EdgeSays(EdgeJson(EdgeOf(e)), e.key, e.value)
  {
    hide Thaw, SortedKeys, Ascending, TextList, Lists;
    var spec := EdgeOf(e);
    var texts := match e.value case Static(_) => [] case Conditional(_, _, declared) => declared
                               case FanOut(branches, _, _) => branches;
    assert forall x :: x in spec.declared <==> x in texts;
    ListsNames(EdgeJson(spec), "declared_targets", texts, spec.declared);
  }

  lemma JoinRecord(e: Entry<Edge>)
    requires e.value.FanOut?
    ensures JoinSays(JoinJson(JoinOf(e)), e.key, e.value.join)
  {
  }

  lemma ReducerRecord(e: Entry<Reducer>)
    ensures ReducerSays(ReducerJson(ReducerOf(e)), e.key, e.value)
  {
  }

  // ----- the whole dump -----

  lemma Dumped<T>(le: (T, T) -> bool, xs: seq<T>, f: T -> Json)
    ensures forall r :: r in Map(f, Sort(le, xs)) <==> exists x <- xs :: f(x) == r
  {
    hide Sort;
    Members(le, xs);
    var sorted := Sort(le, xs);
    var records := Map(f, sorted);
    forall r ensures r in records <==> exists x <- xs :: f(x) == r {
      if r in records {
        var i :| 0 <= i < |records| && records[i] == r;
        assert sorted[i] in sorted;
      }
      if exists x <- xs :: f(x) == r {
        var x :| x in xs && f(x) == r;
        assert x in sorted;
        var i :| 0 <= i < |sorted| && sorted[i] == x;
        assert records[i] == r;
      }
    }
  }

  /** A record for each node, and no others. */
  ghost predicate NodesSaid(records: seq<Json>, nodes: map<string, Node>) {
    && (forall r <- records :: exists n <- nodes.Keys :: NodeSays(r, n, nodes[n]))
    && (forall n <- nodes.Keys :: exists r <- records :: NodeSays(r, n, nodes[n]))
  }

  ghost predicate EdgesSaid(records: seq<Json>, edges: map<string, Edge>) {
    && (forall r <- records :: exists s <- edges.Keys :: EdgeSays(r, s, edges[s]))
    && (forall s <- edges.Keys :: exists r <- records :: EdgeSays(r, s, edges[s]))
  }

  ghost predicate ReducersSaid(records: seq<Json>, reducers: map<string, Reducer>) {
    && (forall r <- records :: exists f <- reducers.Keys :: ReducerSays(r, f, reducers[f]))
    && (forall f <- reducers.Keys :: exists r <- records :: ReducerSays(r, f, reducers[f]))
  }

  /** A record of the join of each region, except that `all` may have none. */
  ghost predicate JoinsSaid(records: seq<Json>, edges: map<string, Edge>) {
    && (forall r <- records :: exists s <- edges.Keys :: edges[s].FanOut? && JoinSays(r, s, edges[s].join))
    && (forall s <- edges.Keys :: edges[s].FanOut? ==>
          edges[s].join.JoinAll? || exists r <- records :: JoinSays(r, s, edges[s].join))
  }

  predicate HasList(d: map<string, Json>, name: string) { name in d && d[name].JArr? }

  /** `d` is a dump that describes `b`: its budget, a record that says what it is for each
      node, edge and reducer, and the join of every region. What is not written down is absent. */
  ghost predicate Describes(d: map<string, Json>, b: Blueprint) {
    && Says(JObj(d), "schema_version", if "reducers" in d then "2" else "1")
    && "max_steps" in d && d["max_steps"] == JInt(b.maxSteps)
    && "metadata" in d && d["metadata"] == JObj(map[])
    && HasList(d, "nodes") && NodesSaid(d["nodes"].items, b.nodes.at)
    && HasList(d, "edges") && EdgesSaid(d["edges"].items, b.edges.at)
    && (if "reducers" in d
        then HasList(d, "reducers") && ReducersSaid(d["reducers"].items, b.reducers.at)
             && HasList(d, "joins") && JoinsSaid(d["joins"].items, b.edges.at)
        else b.reducers.at == map[] && "joins" !in d && forall s <- b.edges.at.Keys :: !b.edges.at[s].FanOut?)
  }

  lemma DescribedReducers(lib: Library, b: Blueprint, r: ReducerSpec)
    requires b.Valid() && Describe(lib, b).Success?
    ensures r in Describe(lib, b).value.reducers <==>
              r.field in b.reducers.at && r == ReducerOf(Entry(r.field, b.reducers.at[r.field]))
  {
    hide Create, NodeOf, EdgeOf, ReducerOf, JoinsOf, NodeLe, EdgeLe, FieldLe, SourceKindLe, Sort;
    DescribedNames();
    CreateHolds(lib, DescribedParts(b), None);
    Members(FieldLe, DescribedParts(b).reducers);
    ImageMembers(b.reducers, ReducerOf, r);
    if r.field in b.reducers.at && r == ReducerOf(Entry(r.field, b.reducers.at[r.field])) {
      assert r.field in b.reducers.at.Keys;
    }
    if r in DescribedParts(b).reducers {
      var k :| k in b.reducers.at.Keys && ReducerOf(Entry(k, b.reducers.at[k])) == r;
      assert FieldName(r) == k;
    }
  }

  lemma DescribedNodeSpecs(lib: Library, b: Blueprint, n: NodeSpec)
    requires b.Valid() && Describe(lib, b).Success?
    ensures n in Describe(lib, b).value.nodes <==>
              n.name in b.nodes.at && n == NodeOf(Entry(n.name, b.nodes.at[n.name]))
  {
    hide Create, NodeOf, EdgeOf, ReducerOf, JoinsOf;
    DescribedNames();
    Described(lib, DescribedParts(b));
    ImageMembers(b.nodes, NodeOf, n);
    if n.name in b.nodes.at && n == NodeOf(Entry(n.name, b.nodes.at[n.name])) { assert n.name in b.nodes.at.Keys; }
    if n in DescribedParts(b).nodes {
      var k :| k in b.nodes.at.Keys && NodeOf(Entry(k, b.nodes.at[k])) == n;
      assert NodeName(n) == k;
    }
  }

  lemma NodesMean(lib: Library, b: Blueprint)
    requires b.Valid() && Describe(lib, b).Success?
    ensures NodesSaid(Map(NodeJson, Sort(NodeLe(lib), Describe(lib, b).value.nodes)), b.nodes.at)
  {
    hide Describe, NodeJson, NodeOf, NodeSays, NodeLe, Sort, Map;
    DescribedNames();
    var specs := Describe(lib, b).value.nodes;
    Dumped(NodeLe(lib), specs, NodeJson);
    var records := Map(NodeJson, Sort(NodeLe(lib), specs));
    forall r | r in records ensures exists n <- b.nodes.at.Keys :: NodeSays(r, n, b.nodes.at[n]) {
      var spec :| spec in specs && NodeJson(spec) == r;
      DescribedNodeSpecs(lib, b, spec);
      NodeRecord(Entry(spec.name, b.nodes.at[spec.name]));
      assert spec.name in b.nodes.at.Keys;
    }
    forall n | n in b.nodes.at.Keys ensures exists r <- records :: NodeSays(r, n, b.nodes.at[n]) {
      var spec := NodeOf(Entry(n, b.nodes.at[n]));
      assert NodeName(spec) == n;
      DescribedNodeSpecs(lib, b, spec);
      NodeRecord(Entry(n, b.nodes.at[n]));
      assert NodeJson(spec) in records;
    }
  }

  lemma EdgesMean(lib: Library, b: Blueprint)
    requires b.Valid() && Describe(lib, b).Success?
    ensures EdgesSaid(Map(EdgeJson, Sort(EdgeLe(lib), Describe(lib, b).value.edges)), b.edges.at)
  {
    hide Describe, EdgeJson, EdgeOf, EdgeSays, EdgeLe, Sort, Map, ValidFanOut;
    DescribedNames();
    var specs := Describe(lib, b).value.edges;
    Dumped(EdgeLe(lib), specs, EdgeJson);
    var records := Map(EdgeJson, Sort(EdgeLe(lib), specs));
    forall r | r in records ensures exists s <- b.edges.at.Keys :: EdgeSays(r, s, b.edges.at[s]) {
      var spec :| spec in specs && EdgeJson(spec) == r;
      DescribedEdges(lib, b, spec);
      EdgeRecord(Entry(spec.source, b.edges.at[spec.source]));
      assert spec.source in b.edges.at.Keys;
    }
    forall s | s in b.edges.at.Keys ensures exists r <- records :: EdgeSays(r, s, b.edges.at[s]) {
      var spec := EdgeOf(Entry(s, b.edges.at[s]));
      assert EdgeName(spec) == s;
      DescribedEdges(lib, b, spec);
      EdgeRecord(Entry(s, b.edges.at[s]));
      assert EdgeJson(spec) in records;
    }
  }

  lemma ReducersMean(lib: Library, b: Blueprint)
    requires b.Valid() && Describe(lib, b).Success?
    ensures ReducersSaid(Map(ReducerJson, Sort(FieldLe, Describe(lib, b).value.reducers)), b.reducers.at)
  {
    hide Describe, ReducerJson, ReducerOf, ReducerSays, FieldLe, Sort, Map, ValidFanOut;
    DescribedNames();
    var specs := Describe(lib, b).value.reducers;
    Dumped(FieldLe, specs, ReducerJson);
    var records := Map(ReducerJson, Sort(FieldLe, specs));
    forall r | r in records ensures exists f <- b.reducers.at.Keys :: ReducerSays(r, f, b.reducers.at[f]) {
      var spec :| spec in specs && ReducerJson(spec) == r;
      DescribedReducers(lib, b, spec);
      ReducerRecord(Entry(spec.field, b.reducers.at[spec.field]));
      assert spec.field in b.reducers.at.Keys;
    }
    forall f | f in b.reducers.at.Keys ensures exists r <- records :: ReducerSays(r, f, b.reducers.at[f]) {
      var spec := ReducerOf(Entry(f, b.reducers.at[f]));
      assert FieldName(spec) == f;
      DescribedReducers(lib, b, spec);
      ReducerRecord(Entry(f, b.reducers.at[f]));
      assert ReducerJson(spec) in records;
    }
  }

  lemma JoinsMean(lib: Library, b: Blueprint)
    requires b.Valid() && Describe(lib, b).Success?
    ensures JoinsSaid(Map(JoinJson, Sort(SourceLe, Describe(lib, b).value.joins)), b.edges.at)
  {
    hide Describe, JoinJson, JoinSays, SourceLe, Sort, Map, ValidFanOut, JoinsOf;
    var specs := Describe(lib, b).value.joins;
    Dumped(SourceLe, specs, JoinJson);
    var records := Map(JoinJson, Sort(SourceLe, specs));
    forall r | r in records
      ensures exists s <- b.edges.at.Keys :: b.edges.at[s].FanOut? && JoinSays(r, s, b.edges.at[s].join)
    {
      var spec :| spec in specs && JoinJson(spec) == r;
      DescribedJoins(lib, b, spec);
      TableJoins(b.edges, spec);
      JoinRecord(Entry(spec.source, b.edges.at[spec.source]));
      assert spec.source in b.edges.at.Keys;
    }
    forall s | s in b.edges.at.Keys && b.edges.at[s].FanOut? && !b.edges.at[s].join.JoinAll?
      ensures exists r <- records :: JoinSays(r, s, b.edges.at[s].join)
    {
      var spec := JoinOf(Entry(s, b.edges.at[s]));
      DescribedJoins(lib, b, spec);
      TableJoins(b.edges, spec);
      JoinRecord(Entry(s, b.edges.at[s]));
      assert JoinJson(spec) in records;
    }
  }

  /** Schema "1" is for graphs without regions and reducers. */
  lemma SchemaTells(lib: Library, b: Blueprint)
    requires b.Valid() && Describe(lib, b).Success?
    ensures var s := Describe(lib, b).value;
            && (s.schema == V1 || s.schema == V2) && s.maxSteps == b.maxSteps && s.metadata == NOTHING
            && (s.schema == V1 ==> b.reducers.at == map[] && forall n <- b.edges.at.Keys :: !b.edges.at[n].FanOut?)
  {
    hide Canonical, JoinsOf, NodeOf, EdgeOf, ReducerOf, Create, Map, ValidFanOut;
    var p := DescribedParts(b);
    CreateHolds(lib, p, None);
    SchemaFollowsFeatures(lib, p, None);
    CanonicalHead(lib, p);
    if Describe(lib, b).value.schema == V1 {
      forall n | n in b.edges.at.Keys ensures !b.edges.at[n].FanOut? {
        ImageMembers(b.edges, EdgeOf, EdgeOf(Entry(n, b.edges.at[n])));
        FanOutIsFanOut(Entry(n, b.edges.at[n]));
      }
      NoItems(b.reducers);
    }
  }

  lemma NoItems<T>(t: Table<T>)
    requires t.Valid()
    ensures |t.Items()| == |t.order|
    ensures t.order == [] ==> t.at == map[]
  {
    if t.order == [] { assert t.at.Keys == {}; }
  }

  lemma CanonicalHead(lib: Library, p: Parts)
    requires p.metadata == JNull
    ensures FreezeMetadata(p.metadata) == Some(NOTHING)
    ensures Canonical(lib, p, NOTHING).maxSteps == p.maxSteps && Canonical(lib, p, NOTHING).metadata == NOTHING
  {
  }

  lemma FanOutIsFanOut(e: Entry<Edge>)
    ensures EdgeOf(e).kind.FanOutEdge? <==> e.value.FanOut?
  {
  }

  /** What the dump holds under each of its names. */
  lemma DumpEntries(lib: Library, s: GraphSpec)
    requires s.schema == V1 || s.schema == V2
    ensures ToDict(lib, s).JObj?
    ensures var d := ToDict(lib, s).entries;
            && Says(JObj(d), "schema_version", s.schema) && Says(JObj(d), "graph_id", s.graphId)
            && "max_steps" in d && d["max_steps"] == JInt(s.maxSteps)
            && "metadata" in d && d["metadata"] == Thaw(s.metadata)
            && "nodes" in d && d["nodes"] == JArr(Map(NodeJson, Sort(NodeLe(lib), s.nodes)))
            && "edges" in d && d["edges"] == JArr(Map(EdgeJson, Sort(EdgeLe(lib), s.edges)))
            && ("reducers" in d <==> s.schema == V2) && ("joins" in d <==> s.schema == V2)
            && (s.schema == V2 ==>
                  && d["reducers"] == JArr(Map(ReducerJson, Sort(FieldLe, s.reducers)))
                  && d["joins"] == JArr(Map(JoinJson, Sort(SourceLe, s.joins))))
  {
    hide Sort, Thaw, Map, NodeLe, EdgeLe, FieldLe, SourceLe;
  }

  /** The dump of a builder's description describes it: whoever reads the records, by their
      names and kinds alone, reads the nodes, edges, reducers and joins of the graph. */
  lemma DescriptionMeans(lib: Library, b: Blueprint)
    requires b.Valid() && Describe(lib, b).Success?
    ensures ToDict(lib, Describe(lib, b).value).JObj? && Describes(ToDict(lib, Describe(lib, b).value).entries, b)
  {
    hide Describe, ToDict, Map, Sort, NodesSaid, EdgesSaid, ReducersSaid, JoinsSaid, Thaw;
    assert Thaw(NOTHING) == JObj(map[]) by { ThawNothing(); }
    SchemaTells(lib, b);
    DumpEntries(lib, Describe(lib, b).value);
    NodesMean(lib, b);
    EdgesMean(lib, b);
    ReducersMean(lib, b);
    JoinsMean(lib, b);
  }

  lemma ThawNothing()
    ensures Thaw(NOTHING) == JObj(map[])
  {
  }
}
