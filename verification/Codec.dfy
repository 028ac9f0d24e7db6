/** `to_dict` and `from_dict`: the round trip, the normal form, and the identity that
    guards them. */
module Codec {
  import opened Values
  import opened Ordering
  import opened Sorting
  import opened JsonTrees
  import opened Spec

  const GRAPH_FIELDS := {"schema_version", "graph_id", "max_steps", "nodes", "edges", "metadata", "reducers", "joins"}
  const NODE_FIELDS := {"name", "implementation_ref", "metadata"}
  const EDGE_FIELDS := {"source", "kind", "target", "router_ref", "declared_targets", "metadata"}
  const REDUCER_FIELDS := {"field", "kind", "ref"}
  const JOIN_FIELDS := {"source", "kind", "quorum", "ref"}

  /** `str` leaves strings alone and `int` leaves integers alone. */
  ghost predicate Sane(lib: Library) {
    (forall s :: lib.str(JText(s)) == s) && (forall n :: lib.toInt(JInt(n)) == Some(n))
  }

  function Get(entries: map<string, Json>, key: string, default: Json): Json {
    if key in entries then entries[key] else default
  }

  function Required(entries: map<string, Json>, key: string): Result<Json, SpecError> {
    if key in entries then Success(entries[key]) else Failure(MissingField)
  }

  /** `_check_record_fields`. */
  function CheckRecord(j: Json, allowed: set<string>): Option<SpecError> {
    if !j.JObj? then Some(NotAnObject)
    else if j.entries.Keys <= allowed then None
    else Some(UnknownFields)
  }

  function CheckAll(items: seq<Json>, allowed: set<string>): Option<SpecError> {
    if items == [] then None else
    var front := CheckAll(items[..|items| - 1], allowed);
    if front.Some? then front else CheckRecord(items[|items| - 1], allowed)
  }

  function OptionalText(j: Json): Result<Option<string>, SpecError> {
    match j
    case JNull => Success(None)
    case JText(s) => Success(Some(s))
    case _ => Failure(IllTyped)
  }

  function Texts(items: seq<Json>): Result<seq<string>, SpecError> {
    if items == [] then Success([]) else
    var front :- Texts(items[..|items| - 1]);
    if items[|items| - 1].JText? then Success(front + [items[|items| - 1].s]) else Failure(IllTyped)
  }

  function ReadTexts(j: Json): Result<seq<string>, SpecError> {
    match j
    case JArr(items) => Texts(items)
    case JTup(items) => Texts(items)
    case _ => Failure(IllTyped)
  }

  function ReadEdgeKind(j: Json): Result<EdgeKind, SpecError> {
    if j == JText("static") then Success(StaticEdge)
    else if j == JText("conditional") then Success(ConditionalEdge)
    else if j == JText("fanout") then Success(FanOutEdge)
    else Failure(BadEdgeShape)
  }

  function ReadReducerKind(j: Json): Result<ReducerKind, SpecError> {
    if j == JText("reject_conflict") then Success(KReject)
    else if j == JText("first") then Success(KFirst)
    else if j == JText("last") then Success(KLast)
    else if j == JText("concat") then Success(KConcat)
    else if j == JText("union") then Success(KUnion)
    else if j == JText("custom") then Success(KCustom)
    else Failure(BadReducer)
  }

  function ReadJoinKind(j: Json): Result<JoinKind, SpecError> {
    if j == JText("all") then Success(KAll)
    else if j == JText("any") then Success(KAny)
    else if j == JText("first_success") then Success(KFirstSuccess)
    else if j == JText("quorum") then Success(KQuorum)
    else if j == JText("custom") then Success(KCustomJoin)
    else Failure(BadJoin)
  }

  function LoadNode(lib: Library, item: Json): Result<NodeSpec, SpecError> {
    if !item.JObj? then Failure(NotAnObject) else
    var name :- Required(item.entries, "name");
    var ref :- OptionalText(Get(item.entries, "implementation_ref", JNull));
    MakeNode(lib.str(name), ref, Get(item.entries, "metadata", JObj(map[])))
  }

  function LoadEdge(lib: Library, item: Json): Result<EdgeSpec, SpecError> {
    if !item.JObj? then Failure(NotAnObject) else
    var source :- Required(item.entries, "source");
    var rawKind :- Required(item.entries, "kind");
    var kind :- ReadEdgeKind(rawKind);
    var target :- OptionalText(Get(item.entries, "target", JNull));
    var routerRef :- OptionalText(Get(item.entries, "router_ref", JNull));
    var declared :- ReadTexts(Get(item.entries, "declared_targets", JTup([])));
    MakeEdge(lib.str(source), kind, target, routerRef, declared, Get(item.entries, "metadata", JObj(map[])))
  }

  function LoadReducer(lib: Library, item: Json): Result<ReducerSpec, SpecError> {
    if !item.JObj? then Failure(NotAnObject) else
    var field :- Required(item.entries, "field");
    var rawKind :- Required(item.entries, "kind");
    var kind :- ReadReducerKind(rawKind);
    var ref :- OptionalText(Get(item.entries, "ref", JNull));
    MakeReducer(lib.str(field), kind, ref)
  }

  function ReadQuorum(j: Json): Result<Option<int>, SpecError> {
    match j
    case JNull => Success(None)
    case JInt(n) => Success(Some(n))
    case _ => Failure(BadJoin)
  }

  function LoadJoin(lib: Library, item: Json): Result<JoinSpec, SpecError> {
    if !item.JObj? then Failure(NotAnObject) else
    var source :- Required(item.entries, "source");
    var rawKind :- Required(item.entries, "kind");
    var kind :- ReadJoinKind(rawKind);
    var quorum :- ReadQuorum(Get(item.entries, "quorum", JNull));
    var ref :- OptionalText(Get(item.entries, "ref", JNull));
    MakeJoin(lib.str(source), kind, quorum, ref)
  }

  function LoadAll<T>(load: Json -> Result<T, SpecError>, items: seq<Json>): Result<seq<T>, SpecError> {
    if items == [] then Success([]) else
    var front :- LoadAll(load, items[..|items| - 1]);
    var last :- load(items[|items| - 1]);
    Success(front + [last])
  }

  /** The checks and readings of `from_dict`, up to the call of `create`. */
  function ReadParts(lib: Library, entries: map<string, Json>): Result<Parts, SpecError> {
    var nodes, edges := Get(entries, "nodes", JArr([])), Get(entries, "edges", JArr([]));
    if !nodes.JArr? || !edges.JArr? then Failure(NotAList)
    else if CheckAll(nodes.items, NODE_FIELDS).Some? then Failure(CheckAll(nodes.items, NODE_FIELDS).value)
    else if CheckAll(edges.items, EDGE_FIELDS).Some? then Failure(CheckAll(edges.items, EDGE_FIELDS).value)
    else
      var loadedNodes :- LoadAll(item => LoadNode(lib, item), nodes.items);
      var loadedEdges :- LoadAll(item => LoadEdge(lib, item), edges.items);
      var reducers, joins := Get(entries, "reducers", JArr([])), Get(entries, "joins", JArr([]));
      if !reducers.JArr? || !joins.JArr? then Failure(NotAList)
      else if CheckAll(reducers.items, REDUCER_FIELDS).Some?
             then Failure(CheckAll(reducers.items, REDUCER_FIELDS).value)
      else if CheckAll(joins.items, JOIN_FIELDS).Some? then Failure(CheckAll(joins.items, JOIN_FIELDS).value)
      else
        var loadedReducers :- LoadAll(item => LoadReducer(lib, item), reducers.items);
        var loadedJoins :- LoadAll(item => LoadJoin(lib, item), joins.items);
        var rawSteps :- Required(entries, "max_steps");
        var steps := lib.toInt(rawSteps);
        if steps.None? then Failure(IllTyped) else
        Success(Parts(steps.value, loadedNodes, loadedEdges, Get(entries, "metadata", JObj(map[])), loadedReducers,
                      loadedJoins))
  }

  /** `GraphSpec.from_dict`. */
  function Load(lib: Library, payload: Json): Result<GraphSpec, SpecError> {
    if CheckRecord(payload, GRAPH_FIELDS).Some? then Failure(CheckRecord(payload, GRAPH_FIELDS).value) else
    var schema := lib.str(Get(payload.entries, "schema_version", JText("")));
    if !Supported(schema) then Failure(UnsupportedSchema) else
    var parts :- ReadParts(lib, payload.entries);
    var spec :- Create(lib, parts, Some(schema));
    match Get(payload.entries, "graph_id", JNull)
    case JText(id) => if id == spec.graphId then Success(spec) else Failure(IdMismatch)
    case _ => Failure(NoGraphId)
  }

  // ----- record round trips -----

  lemma NodeRoundTrip(lib: Library, n: NodeSpec)
    requires Sane(lib) && ValidNode(n)
    ensures LoadNode(lib, NodeJson(n)) == Success(n) && CheckRecord(NodeJson(n), NODE_FIELDS).None?
  {
    hide FreezeDict;
    FreezeDictIsFrozen(n.metadata);
  }

  lemma {:induction false} TextsRoundTrip(names: seq<string>)
    ensures ReadTexts(TextList(names)) == Success(names)
  {
    if names != [] {
      TextsRoundTrip(names[..|names| - 1]);
      var items := TextList(names).items;
      assert items[..|items| - 1] == TextList(names[..|names| - 1]).items;
      assert names == names[..|names| - 1] + [names[|names| - 1]];
    }
  }

  lemma SortedNames(names: seq<string>)
    requires Ascending(names)
    ensures SortedKeys(set x | x in names) == names
  {
    AscendingUnique(SortedKeys(set x | x in names), names);
  }

  lemma HasMember(b: seq<string>)
    ensures b == [] || exists x :: x in b
  {
    if b != [] { assert b[0] in b; }
  }

  lemma {:induction false} AscendingUnique(a: seq<string>, b: seq<string>)
    requires Ascending(a) && Ascending(b) && forall x :: x in a <==> x in b
    ensures a == b
  {
    if a == [] {
      HasMember(b);
    } else {
      assert a[0] in b;
      assert b != [] && b[0] in a;
      HeadsMeet(a, b);
      var s, t := a[1..], b[1..];
      forall x ensures x in s <==> x in t { TailMember(a, x); TailMember(b, x); }
      AscendingUnique(s, t);
      assert a == [a[0]] + s && b == [b[0]] + t;
    }
  }

  lemma HeadsMeet(a: seq<string>, b: seq<string>)
    requires Ascending(a) && Ascending(b) && a != [] && b != [] && a[0] in b && b[0] in a
    ensures a[0] == b[0]
  {
    hide StrLe;
    var i :| 0 <= i < |a| && a[i] == b[0];
    var j :| 0 <= j < |b| && b[j] == a[0];
    StrOrder(a[0], b[0], a[0]);
  }

  lemma TailMember(a: seq<string>, x: string)
    requires Ascending(a) && a != []
    ensures x in a[1..] <==> x in a && x != a[0]
  {
    hide StrLe;
    assert a == [a[0]] + a[1..];
    if x in a[1..] {
      var i :| 0 <= i < |a[1..]| && a[1..][i] == x;
      assert a[i + 1] == x && StrLt(a[0], a[i + 1]);
    }
  }

  /** What the dumped record holds under each of its names. */
  lemma EdgeEntries(e: EdgeSpec)
    ensures EdgeJson(e).JObj? && EdgeJson(e).entries.Keys == EDGE_FIELDS
    ensures var entries := EdgeJson(e).entries;
            && entries["source"] == JText(e.source) && entries["kind"] == JText(KindName(e.kind))
            && entries["target"] == OptText(e.target) && entries["router_ref"] == OptText(e.routerRef)
            && entries["declared_targets"] == TextList(e.declared) && entries["metadata"] == Thaw(e.metadata)
  {
    hide TextList, Thaw, OptText, KindName;
  }

  lemma EdgeRoundTrip(lib: Library, e: EdgeSpec)
    requires Sane(lib) && ValidEdge(e)
    ensures LoadEdge(lib, EdgeJson(e)) == Success(e) && CheckRecord(EdgeJson(e), EDGE_FIELDS).None?
  {
    hide FreezeDict, SortedKeys, Ascending, TextList, ReadTexts, EdgeJson, Frozen, Thaw;
    EdgeEntries(e);
    FreezeDictIsFrozen(e.metadata);
    TextsRoundTrip(e.declared);
    SortedNames(e.declared);
  }

  lemma ReducerRoundTrip(lib: Library, r: ReducerSpec)
    requires Sane(lib) && ValidReducer(r)
    ensures LoadReducer(lib, ReducerJson(r)) == Success(r) && CheckRecord(ReducerJson(r), REDUCER_FIELDS).None?
  {
  }

  lemma JoinRoundTrip(lib: Library, j: JoinSpec)
    requires Sane(lib) && ValidJoin(j)
    ensures LoadJoin(lib, JoinJson(j)) == Success(j) && CheckRecord(JoinJson(j), JOIN_FIELDS).None?
  {
  }

  /** Records that read back singly read back as a list. */
  lemma {:induction false} ListRoundTrip<T>(dump: T -> Json, load: Json -> Result<T, SpecError>, allowed: set<string>,
                                            xs: seq<T>)
    requires forall x <- xs :: load(dump(x)) == Success(x) && CheckRecord(dump(x), allowed).None?
    ensures LoadAll(load, Map(dump, xs)) == Success(xs) && CheckAll(Map(dump, xs), allowed).None?
  {
    hide CheckRecord;
    if xs != [] {
      var front, last := xs[..|xs| - 1], xs[|xs| - 1];
      ListRoundTrip(dump, load, allowed, front);
      assert Map(dump, xs)[..|xs| - 1] == Map(dump, front);
      assert xs == front + [last];
      assert last in xs;
    }
  }

  // ----- the round trip -----

  /** A spec that `create` made from well-formed records, under a schema `from_dict` takes. */
  ghost predicate Created(lib: Library, s: GraphSpec) {
    && Supported(s.schema)
    && InNormalForm(lib, PartsOf(s)) && ValidParts(PartsOf(s))
    && s.graphId == lib.digest(JObj(SpecPayload(lib, s)))
    && ChooseSchema(Some(s.schema), UsesRegions(s.edges, s.reducers, s.joins)) == Success(s.schema)
  }

  lemma CreateCreates(lib: Library, p: Parts, given: Option<string>)
    requires ValidParts(p) && Create(lib, p, given).Success? && Supported(Create(lib, p, given).value.schema)
    ensures Created(lib, Create(lib, p, given).value)
  {
    hide Create, InNormalForm, ValidParts, SpecPayload, UsesRegions, ChooseSchema;
    CreatedIsNormal(lib, p, given);
  }

  lemma NodesRoundTrip(lib: Library, nodes: seq<NodeSpec>)
    requires Sane(lib) && forall n <- nodes :: ValidNode(n)
    ensures LoadAll(item => LoadNode(lib, item), Map(NodeJson, nodes)) == Success(nodes)
    ensures CheckAll(Map(NodeJson, nodes), NODE_FIELDS).None?
  {
    hide CheckAll, LoadAll, NodeJson, LoadNode, CheckRecord, Map, ValidNode;
    forall n | n in nodes { NodeRoundTrip(lib, n); }
    ListRoundTrip(NodeJson, item => LoadNode(lib, item), NODE_FIELDS, nodes);
  }

  lemma EdgesRoundTrip(lib: Library, edges: seq<EdgeSpec>)
    requires Sane(lib) && forall e <- edges :: ValidEdge(e)
    ensures LoadAll(item => LoadEdge(lib, item), Map(EdgeJson, edges)) == Success(edges)
    ensures CheckAll(Map(EdgeJson, edges), EDGE_FIELDS).None?
  {
    hide CheckAll, LoadAll, EdgeJson, LoadEdge, CheckRecord, Map, ValidEdge;
    forall e | e in edges { EdgeRoundTrip(lib, e); }
    ListRoundTrip(EdgeJson, item => LoadEdge(lib, item), EDGE_FIELDS, edges);
  }

  lemma RegionRecordsRoundTrip(lib: Library, reducers: seq<ReducerSpec>, joins: seq<JoinSpec>)
    requires Sane(lib) && (forall r <- reducers :: ValidReducer(r)) && forall j <- joins :: ValidJoin(j)
    ensures LoadAll(item => LoadReducer(lib, item), Map(ReducerJson, reducers)) == Success(reducers)
    ensures CheckAll(Map(ReducerJson, reducers), REDUCER_FIELDS).None?
    ensures LoadAll(item => LoadJoin(lib, item), Map(JoinJson, joins)) == Success(joins)
    ensures CheckAll(Map(JoinJson, joins), JOIN_FIELDS).None?
  {
    hide CheckAll, LoadAll, ReducerJson, JoinJson, LoadReducer, LoadJoin, CheckRecord, Map, ValidReducer, ValidJoin;
    forall r | r in reducers { ReducerRoundTrip(lib, r); }
    forall j | j in joins { JoinRoundTrip(lib, j); }
    ListRoundTrip(ReducerJson, item => LoadReducer(lib, item), REDUCER_FIELDS, reducers);
    ListRoundTrip(JoinJson, item => LoadJoin(lib, item), JOIN_FIELDS, joins);
  }

  /** The dumped parts read back, save that the metadata is thawed. */
  lemma PartsRoundTrip(lib: Library, s: GraphSpec)
    requires Sane(lib) && Created(lib, s)
    ensures ReadParts(lib, ToDict(lib, s).entries) == Success(PartsOf(s).(metadata := Thaw(s.metadata)))
  {
    hide CheckAll, LoadAll, NodeJson, EdgeJson, ReducerJson, JoinJson, LoadNode, LoadEdge, LoadReducer, LoadJoin,
         Thaw, NodeLe, EdgeLe, FieldLe, SourceLe, SourceKindLe, Sort, Map, ValidNode, ValidEdge, ValidReducer,
         ValidJoin, Canonical;
    NormalIsFixed(lib, PartsOf(s));
    SortedIsFixed(NodeLe(lib), s.nodes);
    SortedIsFixed(EdgeLe(lib), s.edges);
    SortedIsFixed(FieldLe, s.reducers);
    NodesRoundTrip(lib, s.nodes);
    EdgesRoundTrip(lib, s.edges);
    RegionRecordsRoundTrip(lib, s.reducers, s.joins);
  }

  lemma ThawedEntries(m: Json)
    requires FrozenObject(m)
    ensures Thaw(m).JObj? && (Thaw(m).entries == map[] <==> m.entries == map[])
  {
    hide Frozen;
    var thawed := Thaw(m);
    assert thawed.entries == ThawKeys(m, SortedKeys(m.entries.Keys));
    if m.entries != map[] {
      var k :| k in m.entries;
      assert k in thawed.entries;
    } else {
      assert thawed.entries == map[];
    }
  }

  /** Frozen metadata is taken as it is, and so is its thawed form. */
  lemma FrozenMetadata(m: Json)
    requires FrozenObject(m)
    ensures FreezeMetadata(m) == Some(m) && FreezeMetadata(Thaw(m)) == Some(m)
  {
    hide FreezeDict, Frozen, Thaw;
    FreezeDictIsFrozen(m);
    ThawedEntries(m);
  }

  /** Parts that differ only in frozen or thawed metadata make the same spec. */
  lemma ThawedMetadata(lib: Library, p: Parts, given: Option<string>)
    requires FrozenObject(p.metadata)
    ensures Create(lib, p.(metadata := Thaw(p.metadata)), given) == Create(lib, p, given)
  {
    hide FreezeMetadata, Frozen, Thaw, Seal, Sort, Explicit;
    FrozenMetadata(p.metadata);
  }

  /** Dumping a created spec and loading it back gives the spec: implied joins, schema
      version, order and frozen metadata included. */
  lemma RoundTrip(lib: Library, s: GraphSpec)
    requires Sane(lib) && Created(lib, s)
    ensures Load(lib, ToDict(lib, s)) == Success(s)
  {
    hide ReadParts, Create, Thaw, Sort, InNormalForm, Map, NodeJson, EdgeJson, ReducerJson, JoinJson;
    var payload := ToDict(lib, s);
    PartsRoundTrip(lib, s);
    assert FrozenObject(s.metadata) by { InNormalFormMetadata(lib, s); }
    ThawedMetadata(lib, PartsOf(s), Some(s.schema));
    CreateIsIdempotent(lib, s);
    assert CheckRecord(payload, GRAPH_FIELDS).None?;
  }

  lemma InNormalFormMetadata(lib: Library, s: GraphSpec)
    requires InNormalForm(lib, PartsOf(s))
    ensures FrozenObject(s.metadata)
  {
  }

  // ----- the normal form -----

  lemma {:induction false} LoadedMembers<T>(load: Json -> Result<T, SpecError>, items: seq<Json>, valid: T -> bool)
    requires forall item :: load(item).Success? ==> valid(load(item).value)
    ensures LoadAll(load, items).Success? ==> forall x <- LoadAll(load, items).value :: valid(x)
  {
    if items != [] { LoadedMembers(load, items[..|items| - 1], valid); }
  }

  lemma LoadedNode(lib: Library, item: Json)
    ensures LoadNode(lib, item).Success? ==> ValidNode(LoadNode(lib, item).value)
  {
    hide MakeNode, ValidNode;
    if LoadNode(lib, item).Success? {
      var name := Required(item.entries, "name").value;
      var ref := OptionalText(Get(item.entries, "implementation_ref", JNull)).value;
      MadeNodeIsValid(lib.str(name), ref, Get(item.entries, "metadata", JObj(map[])));
    }
  }

  lemma LoadedEdge(lib: Library, item: Json)
    ensures LoadEdge(lib, item).Success? ==> ValidEdge(LoadEdge(lib, item).value)
  {
    hide MakeEdge, ValidEdge;
    if LoadEdge(lib, item).Success? {
      var source := Required(item.entries, "source").value;
      var kind := ReadEdgeKind(Required(item.entries, "kind").value).value;
      var target := OptionalText(Get(item.entries, "target", JNull)).value;
      var ref := OptionalText(Get(item.entries, "router_ref", JNull)).value;
      var declared := ReadTexts(Get(item.entries, "declared_targets", JTup([]))).value;
      MadeEdgeIsValid(lib.str(source), kind, target, ref, declared, Get(item.entries, "metadata", JObj(map[])));
    }
  }

  lemma LoadedRegionRecords(lib: Library, item: Json)
    ensures LoadReducer(lib, item).Success? ==> ValidReducer(LoadReducer(lib, item).value)
    ensures LoadJoin(lib, item).Success? ==> ValidJoin(LoadJoin(lib, item).value)
  {
  }

  /** What passes the checks and readings of `from_dict` is made of well-formed records. */
  lemma ReadPartsAreValid(lib: Library, entries: map<string, Json>)
    ensures ReadParts(lib, entries).Success? ==> ValidParts(ReadParts(lib, entries).value)
  {
    hide CheckAll, LoadAll, LoadNode, LoadEdge, LoadReducer, LoadJoin, ValidNode, ValidEdge, ValidReducer, ValidJoin,
         CheckRecord;
    if ReadParts(lib, entries).Success? {
      forall item
        ensures LoadNode(lib, item).Success? ==> ValidNode(LoadNode(lib, item).value)
        ensures LoadEdge(lib, item).Success? ==> ValidEdge(LoadEdge(lib, item).value)
        ensures LoadReducer(lib, item).Success? ==> ValidReducer(LoadReducer(lib, item).value)
        ensures LoadJoin(lib, item).Success? ==> ValidJoin(LoadJoin(lib, item).value)
      {
        LoadedNode(lib, item);
        LoadedEdge(lib, item);
        LoadedRegionRecords(lib, item);
      }
      LoadedMembers(item => LoadNode(lib, item), Get(entries, "nodes", JArr([])).items, ValidNode);
      LoadedMembers(item => LoadEdge(lib, item), Get(entries, "edges", JArr([])).items, ValidEdge);
      LoadedMembers(item => LoadReducer(lib, item), Get(entries, "reducers", JArr([])).items, ValidReducer);
      LoadedMembers(item => LoadJoin(lib, item), Get(entries, "joins", JArr([])).items, ValidJoin);
    }
  }

  /** Whatever `from_dict` accepts is a created spec, so dumping it is a normal form that
      loads to itself: loading is idempotent up to dumping. */
  lemma LoadNormalises(lib: Library, payload: Json)
    requires Sane(lib) && Load(lib, payload).Success?
    ensures var s := Load(lib, payload).value;
            Created(lib, s) && Load(lib, ToDict(lib, s)) == Success(s)
            && Get(payload.entries, "graph_id", JNull) == JText(s.graphId)
  {
    hide ReadParts, Create, ToDict, Created;
    var schema := lib.str(Get(payload.entries, "schema_version", JText("")));
    var parts := ReadParts(lib, payload.entries).value;
    ReadPartsAreValid(lib, payload.entries);
    CreateKeepsSchema(lib, parts, schema);
    CreateCreates(lib, parts, Some(schema));
    RoundTrip(lib, Load(lib, payload).value);
  }

  lemma CreateKeepsSchema(lib: Library, p: Parts, schema: string)
    ensures Create(lib, p, Some(schema)).Success? ==> Create(lib, p, Some(schema)).value.schema == schema
  {
    hide FreezeDict, Canonical, Payload;
  }

  // ----- identity -----

  /** Two different trees, told apart by their JSON text, that the digest does not tell apart. */
  ghost predicate Collision(lib: Library, a: Json, b: Json) {
    Plain(a) && Plain(b) && a != b && lib.digest(a) == lib.digest(b)
  }

  function Hashed(lib: Library, s: GraphSpec): Json { JObj(SpecPayload(lib, s)) }

  lemma PlainList<T>(dump: T -> Json, xs: seq<T>)
    requires forall x <- xs :: Plain(dump(x))
    ensures Plain(JArr(Map(dump, xs)))
  {
    forall x | x in Map(dump, xs) ensures Plain(x) {
      var i :| 0 <= i < |Map(dump, xs)| && Map(dump, xs)[i] == x;
      assert xs[i] in xs;
    }
  }

  lemma PlainNodes(lib: Library, nodes: seq<NodeSpec>)
    requires forall n <- nodes :: ValidNode(n)
    ensures Plain(JArr(Map(NodeJson, Sort(NodeLe(lib), nodes))))
  {
    hide Sort, Thaw, NodeLe, Map, Frozen;
    Members(NodeLe(lib), nodes);
    forall n | n in nodes ensures Plain(NodeJson(n)) { FreezeThaw(n.metadata); }
    PlainList(NodeJson, Sort(NodeLe(lib), nodes));
  }

  lemma PlainEdges(lib: Library, edges: seq<EdgeSpec>)
    requires forall e <- edges :: ValidEdge(e)
    ensures Plain(JArr(Map(EdgeJson, Sort(EdgeLe(lib), edges))))
  {
    hide Sort, Thaw, EdgeLe, Map, Frozen, Ascending, EdgeShape;
    Members(EdgeLe(lib), edges);
    forall e | e in edges ensures Plain(EdgeJson(e)) {
      FreezeThaw(e.metadata);
      assert Plain(TextList(e.declared));
    }
    PlainList(EdgeJson, Sort(EdgeLe(lib), edges));
  }

  lemma PlainRegionRecords(reducers: seq<ReducerSpec>, joins: seq<JoinSpec>)
    ensures Plain(JArr(Map(ReducerJson, Sort(FieldLe, reducers))))
    ensures Plain(JArr(Map(JoinJson, Sort(SourceLe, joins))))
  {
    hide Sort, FieldLe, SourceLe, Map;
    PlainList(ReducerJson, Sort(FieldLe, reducers));
    PlainList(JoinJson, Sort(SourceLe, joins));
  }

  lemma PlainEntry(entries: map<string, Json>, key: string, value: Json)
    requires Plain(JObj(entries)) && Plain(value)
    ensures Plain(JObj(entries[key := value]))
  {
  }

  lemma PlainScalars(schema: string, maxSteps: int)
    ensures Plain(JObj(map["schema_version" := JText(schema), "max_steps" := JInt(maxSteps)]))
  {
  }

  lemma PayloadIsPlain(lib: Library, s: GraphSpec)
    requires ValidParts(PartsOf(s)) && FrozenObject(s.metadata)
    ensures Plain(JObj(SpecPayload(lib, s)))
  {
    hide Sort, Thaw, Map, Frozen, ValidNode, ValidEdge, ValidReducer, ValidJoin, Plain,
         NodeLe, EdgeLe, FieldLe, SourceLe;
    FreezeThaw(s.metadata);
    PlainNodes(lib, s.nodes);
    PlainEdges(lib, s.edges);
    PlainRegionRecords(s.reducers, s.joins);
    var scalars := map["schema_version" := JText(s.schema), "max_steps" := JInt(s.maxSteps)];
    var nodes := JArr(Map(NodeJson, Sort(NodeLe(lib), s.nodes)));
    var edges := JArr(Map(EdgeJson, Sort(EdgeLe(lib), s.edges)));
    var reducers := JArr(Map(ReducerJson, Sort(FieldLe, s.reducers)));
    var joins := JArr(Map(JoinJson, Sort(SourceLe, s.joins)));
    PlainScalars(s.schema, s.maxSteps);
    PlainEntry(scalars, "nodes", nodes);
    PlainEntry(scalars["nodes" := nodes], "edges", edges);
    var base := scalars["nodes" := nodes]["edges" := edges]["metadata" := Thaw(s.metadata)];
    PlainEntry(scalars["nodes" := nodes]["edges" := edges], "metadata", Thaw(s.metadata));
    PlainEntry(base, "reducers", reducers);
    PlainEntry(base["reducers" := reducers], "joins", joins);
    assert SpecPayload(lib, s) == if s.schema == V1 then base else base["reducers" := reducers]["joins" := joins];
  }

  /** Content identity: two created specs share a `graph_id` exactly when they are equal, or
      their payloads are a collision of the digest. */
  lemma IdentityIsContent(lib: Library, s: GraphSpec, t: GraphSpec)
    requires Sane(lib) && Created(lib, s) && Created(lib, t)
    ensures s.graphId == t.graphId <==> s == t || Collision(lib, Hashed(lib, s), Hashed(lib, t))
  {
    hide Plain, SpecPayload, InNormalForm, ValidParts, UsesRegions, Load;
    InNormalFormMetadata(lib, s);
    InNormalFormMetadata(lib, t);
    PayloadIsPlain(lib, s);
    PayloadIsPlain(lib, t);
    if s.graphId == t.graphId && Hashed(lib, s) == Hashed(lib, t) {
      assert ToDict(lib, s) == ToDict(lib, t);
      RoundTrip(lib, s);
      RoundTrip(lib, t);
    }
  }

  /** Tampering is detected: a payload that keeps a spec's `graph_id`, however its content was
      changed, loads to that spec or not at all, unless it exhibits a collision. */
  lemma TamperingIsRefused(lib: Library, s: GraphSpec, payload: Json)
    requires Sane(lib) && Created(lib, s)
    requires payload.JObj? && Get(payload.entries, "graph_id", JNull) == JText(s.graphId)
    ensures var r := Load(lib, payload);
            r.Success? ==> r.value == s || Collision(lib, Hashed(lib, r.value), Hashed(lib, s))
  {
    hide Load, Created, Collision;
    if Load(lib, payload).Success? {
      LoadNormalises(lib, payload);
      IdentityIsContent(lib, Load(lib, payload).value, s);
    }
  }

  // ----- the implied join -----

  lemma {:induction false} ExplicitSplit(edges: seq<EdgeSpec>, joins: seq<JoinSpec>, a: seq<JoinSpec>, b: seq<JoinSpec>)
    ensures Explicit(edges, joins, a + b) == Explicit(edges, joins, a) + Explicit(edges, joins, b)
  {
    hide Implied;
    if b == [] {
      assert a + b == a;
    } else {
      assert (a + b)[..|a + b| - 1] == a + b[..|b| - 1];
      ExplicitSplit(edges, joins, a, b[..|b| - 1]);
    }
  }

  lemma {:induction false} ExplicitAgree(edges: seq<EdgeSpec>, joins: seq<JoinSpec>, joins': seq<JoinSpec>,
                                         among: seq<JoinSpec>)
    requires forall j <- among :: Implied(edges, joins, j) <==> Implied(edges, joins', j)
    ensures Explicit(edges, joins, among) == Explicit(edges, joins', among)
  {
    hide Implied;
    if among != [] {
      var front, last := among[..|among| - 1], among[|among| - 1];
      assert among == front + [last];
      assert last in among;
      ExplicitAgree(edges, joins, joins', front);
    }
  }

  /** Declaring the default join of a region makes the spec that not declaring it makes. */
  lemma ImpliedJoinIsInvisible(lib: Library, p: Parts, i: nat, given: Option<string>)
    requires i < |p.joins| && Implied(p.edges, p.joins, p.joins[i])
    ensures Create(lib, p.(joins := p.joins[..i] + p.joins[i + 1..]), given) == Create(lib, p, given)
  {
    hide CountJoins, Sort, FanOutSources, Seal;
    var j, a, b := p.joins[i], p.joins[..i], p.joins[i + 1..];
    assert p.joins == a + [j] + b;
    forall d | d in a + b ensures Implied(p.edges, p.joins, d) <==> Implied(p.edges, a + b, d) {
      CountRemoved(p.joins, i, d.source);
      CountRemoved(p.joins, i, j.source);
      OneCounts(j, d.source);
      OneCounts(j, j.source);
      if d.source == j.source { CountPositive(a + b, d); }
    }
    ExplicitAgree(p.edges, p.joins, a + b, a + b);
    ExplicitSplit(p.edges, p.joins, a + [j], b);
    ExplicitSplit(p.edges, p.joins, a, [j]);
    ExplicitSplit(p.edges, p.joins, a, b);
    assert Explicit(p.edges, p.joins, [j]) == [];
    assert Explicit(p.edges, a + b, a + b) == Explicit(p.edges, p.joins, p.joins);
  }

  lemma OneCounts(j: JoinSpec, source: string)
    ensures CountJoins([j], source) == if j.source == source then 1 else 0
  {
    assert [j][..0] == [];
  }

  // ----- the loops -----

  /** The counting loop of `create`. */
  method CountJoinsLoop(joins: seq<JoinSpec>) returns (counts: map<string, nat>)
    ensures forall source :: (if source in counts then counts[source] else 0) == CountJoins(joins, source)
  {
    counts := map[];
    for i := 0 to |joins|
      invariant forall source :: (if source in counts then counts[source] else 0) == CountJoins(joins[..i], source)
    {
      var source := joins[i].source;
      assert joins[..i + 1][..i] == joins[..i];
      counts := counts[source := (if source in counts then counts[source] else 0) + 1];
    }
    assert joins[..|joins|] == joins;
  }

  method FreezeMetadataLoop(metadata: Json) returns (r: Option<Json>)
    ensures r == FreezeMetadata(metadata)
  {
    hide Freeze;
    if Falsy(metadata) { return Some(JObj(map[])); }
    if !metadata.JObj? { return None; }
    r := FreezeLoop(metadata);
  }

  /** `GraphSpec.create`, with its count of the joins of each source. */
  method CreateLoop(lib: Library, p: Parts, given: Option<string>) returns (r: Result<GraphSpec, SpecError>)
    ensures r == Create(lib, p, given)
  {
    hide Seal, Sort, FreezeMetadata;
    var frozen := FreezeMetadataLoop(p.metadata);
    if frozen.None? { return Failure(BadMetadata); }
    var sources := FanOutSources(p.edges);
    var counts := CountJoinsLoop(p.joins);
    var kept: seq<JoinSpec> := [];
    for i := 0 to |p.joins|
      invariant kept == Explicit(p.edges, p.joins, p.joins[..i])
    {
      var j := p.joins[i];
      assert p.joins[..i + 1][..i] == p.joins[..i];
      CountPositive(p.joins, j);
      if !(j.kind.KAll? && j.source in sources && counts[j.source] == 1) { kept := kept + [j]; }
    }
    assert p.joins[..|p.joins|] == p.joins;
    return Seal(lib, Parts(p.maxSteps, Sort(NodeLe(lib), p.nodes), Sort(EdgeLe(lib), p.edges), frozen.value,
                           Sort(FieldLe, p.reducers), Sort(SourceKindLe, kept)), given);
  }

  /** The checking loops of `from_dict`: they stop at the first bad record. */
  method CheckLoop(items: seq<Json>, allowed: set<string>) returns (fault: Option<SpecError>)
    ensures fault == CheckAll(items, allowed)
    ensures fault.None? <==> forall item <- items :: item.JObj? && item.entries.Keys <= allowed
  {
    for i := 0 to |items|
      invariant CheckAll(items[..i], allowed).None?
      invariant forall k :: 0 <= k < i ==> CheckRecord(items[k], allowed).None?
    {
      assert items[..i + 1][..i] == items[..i];
      fault := CheckRecord(items[i], allowed);
      if fault.Some? {
        FirstFault(items, i, allowed);
        assert items[i] in items;
        return;
      }
    }
    assert items[..|items|] == items;
    return None;
  }

  lemma {:induction false} FirstFault(items: seq<Json>, i: nat, allowed: set<string>)
    requires i < |items| && CheckAll(items[..i], allowed).None? && CheckRecord(items[i], allowed).Some?
    ensures CheckAll(items, allowed) == CheckRecord(items[i], allowed)
    decreases |items|
  {
    hide CheckRecord;
    var front := items[..|items| - 1];
    if i < |items| - 1 {
      assert front[..i] == items[..i];
      FirstFault(front, i, allowed);
    }
  }

  /** `from_dict`: every failure leaves at the point where the source raises it. */
  method FromDict(lib: Library, payload: Json) returns (r: Result<GraphSpec, SpecError>)
    ensures r == Load(lib, payload)
  {
    hide Create, LoadNode, LoadEdge, LoadReducer, LoadJoin, LoadAll, CheckAll;
    var misfit := CheckRecord(payload, GRAPH_FIELDS);
    if misfit.Some? { return Failure(misfit.value); }
    var entries := payload.entries;
    var schema := lib.str(Get(entries, "schema_version", JText("")));
    if !Supported(schema) { return Failure(UnsupportedSchema); }
    var rawNodes, rawEdges := Get(entries, "nodes", JArr([])), Get(entries, "edges", JArr([]));
    if !rawNodes.JArr? || !rawEdges.JArr? { return Failure(NotAList); }
    misfit := CheckLoop(rawNodes.items, NODE_FIELDS);
    if misfit.Some? { return Failure(misfit.value); }
    misfit := CheckLoop(rawEdges.items, EDGE_FIELDS);
    if misfit.Some? { return Failure(misfit.value); }
    var nodes :- LoadAll(item => LoadNode(lib, item), rawNodes.items);
    var edges :- LoadAll(item => LoadEdge(lib, item), rawEdges.items);
    var rawReducers, rawJoins := Get(entries, "reducers", JArr([])), Get(entries, "joins", JArr([]));
    if !rawReducers.JArr? || !rawJoins.JArr? { return Failure(NotAList); }
    misfit := CheckLoop(rawReducers.items, REDUCER_FIELDS);
    if misfit.Some? { return Failure(misfit.value); }
    misfit := CheckLoop(rawJoins.items, JOIN_FIELDS);
    if misfit.Some? { return Failure(misfit.value); }
    var reducers :- LoadAll(item => LoadReducer(lib, item), rawReducers.items);
    var joins :- LoadAll(item => LoadJoin(lib, item), rawJoins.items);
    if "max_steps" !in entries { return Failure(MissingField); }
    var steps := lib.toInt(entries["max_steps"]);
    if steps.None? { return Failure(IllTyped); }
    var metadata := Get(entries, "metadata", JObj(map[]));
    var created := CreateLoop(lib, Parts(steps.value, nodes, edges, metadata, reducers, joins), Some(schema));
    var spec :- created;
    var supplied := Get(entries, "graph_id", JNull);
    if !supplied.JText? { return Failure(NoGraphId); }
    if supplied.s != spec.graphId { return Failure(IdMismatch); }
    return Success(spec);
  }
}
