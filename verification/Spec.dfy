/** GraphSpec: the records, their canonical order, and the identity computed from them. */
module Spec {
  import opened Values
  import opened Ordering
  import opened Sorting
  import opened JsonTrees

  /** What the standard library decides: the text of a JSON tree (for sort keys), the
      SHA-256 of that text, and the `str` and `int` conversions. */
  datatype Library = Library(
    text: Json -> string, digest: Json -> string, str: Json -> string, toInt: Json -> Option<int>)

  datatype SpecError =
    | BadMetadata
    | BadEdgeShape
    | BadReducer
    | BadJoin
    | SchemaMismatch
    | UnsupportedSchema
    | NotAnObject
    | UnknownFields
    | NotAList
    | MissingField
    | IllTyped
    | NoGraphId
    | IdMismatch

  const V1 := "1"
  const V2 := "2"

  predicate Supported(schema: string) { schema == V1 || schema == V2 }

  // ----- records -----

  datatype NodeSpec = NodeSpec(name: string, ref: Option<string>, metadata: Json)

  datatype EdgeKind = StaticEdge | ConditionalEdge | FanOutEdge

  datatype EdgeSpec = EdgeSpec(
    source: string, kind: EdgeKind, target: Option<string>, routerRef: Option<string>, declared: seq<string>,
    metadata: Json)

  datatype ReducerKind = KReject | KFirst | KLast | KConcat | KUnion | KCustom

  datatype ReducerSpec = ReducerSpec(field: string, kind: ReducerKind, ref: Option<string>)

  datatype JoinKind = KAll | KAny | KFirstSuccess | KQuorum | KCustomJoin

  datatype JoinSpec = JoinSpec(source: string, kind: JoinKind, quorum: Option<int>, ref: Option<string>)

  datatype GraphSpec = GraphSpec(
    schema: string, graphId: string, maxSteps: int, nodes: seq<NodeSpec>, edges: seq<EdgeSpec>, metadata: Json,
    reducers: seq<ReducerSpec>, joins: seq<JoinSpec>)

  function NodeName(n: NodeSpec): string { n.name }
  function EdgeName(e: EdgeSpec): string { e.source }
  function FieldName(r: ReducerSpec): string { r.field }
  function JoinName(j: JoinSpec): string { j.source }

  predicate FrozenObject(j: Json) { j.JObj? && Frozen(j) }

  /** The shape rules of `EdgeSpec.__post_init__`. */
  predicate EdgeShape(kind: EdgeKind, target: Option<string>, routerRef: Option<string>, declared: seq<string>) {
    match kind
    case StaticEdge => target.Some? && routerRef.None? && declared == []
    case ConditionalEdge => target.None?
    case FanOutEdge => target.Some? && routerRef.None? && |declared| >= 2 && |set x | x in declared| == |declared|
  }

  predicate ReducerShape(field: string, kind: ReducerKind, ref: Option<string>) {
    field != "" && (kind.KCustom? || ref.None?)
  }

  predicate JoinShape(kind: JoinKind, quorum: Option<int>, ref: Option<string>) {
    && (if kind.KQuorum? then quorum.Some? && quorum.value >= 1 else quorum.None?)
    && (kind.KCustomJoin? || ref.None?)
  }

  /** `dict(value)`. An empty list or string gives an empty dict. */
  function AsDict(j: Json): Option<Json> {
    match j
    case JObj(_) => Some(j)
    case JArr(items) => if items == [] then Some(JObj(map[])) else None
    case JTup(items) => if items == [] then Some(JObj(map[])) else None
    case JText(s) => if s == "" then Some(JObj(map[])) else None
    case _ => None
  }

  /** `_freeze_json(dict(value))`. */
  function FreezeDict(j: Json): Option<Json> {
    match AsDict(j)
    case None => None
    case Some(entries) => Freeze(entries)
  }

  /** `not value`. */
  predicate Falsy(j: Json) {
    match j
    case JNull => true
    case JBool(b) => !b
    case JInt(n) => n == 0
    case JFloat(repr) => repr == "0.0" || repr == "-0.0"
    case JText(s) => s == ""
    case JArr(items) => items == []
    case JTup(items) => items == []
    case JObj(entries) => entries == map[]
    case JBad => false
  }

  lemma FreezeDictIsFrozen(j: Json)
    ensures FreezeDict(j).Some? ==> FrozenObject(FreezeDict(j).value)
    ensures FrozenObject(j) ==> FreezeDict(j) == Some(j)
    ensures FrozenObject(j) ==> FreezeDict(Thaw(j)) == Some(j)
  {
    hide Freeze, Frozen;
    if AsDict(j).Some? { FreezeIsFrozen(AsDict(j).value); }
    if FrozenObject(j) {
      FreezeFixes(j);
      FreezeThaw(j);
    }
  }

  function MakeNode(name: string, ref: Option<string>, metadata: Json): Result<NodeSpec, SpecError> {
    match FreezeDict(metadata)
    case None => Failure(BadMetadata)
    case Some(frozen) => Success(NodeSpec(name, ref, frozen))
  }

  function MakeEdge(source: string, kind: EdgeKind, target: Option<string>, routerRef: Option<string>,
                    declared: seq<string>, metadata: Json): Result<EdgeSpec, SpecError>
  {
    if !EdgeShape(kind, target, routerRef, declared) then Failure(BadEdgeShape)
    else
      match FreezeDict(metadata)
      case None => Failure(BadMetadata)
      case Some(frozen) =>
        Success(EdgeSpec(source, kind, target, routerRef, SortedKeys(set x | x in declared), frozen))
  }

  function MakeReducer(field: string, kind: ReducerKind, ref: Option<string>): Result<ReducerSpec, SpecError> {
    if ReducerShape(field, kind, ref) then Success(ReducerSpec(field, kind, ref)) else Failure(BadReducer)
  }

  function MakeJoin(source: string, kind: JoinKind, quorum: Option<int>, ref: Option<string>)
    : Result<JoinSpec, SpecError>
  {
    if JoinShape(kind, quorum, ref) then Success(JoinSpec(source, kind, quorum, ref)) else Failure(BadJoin)
  }

  /** What the constructors establish. */
  ghost predicate ValidNode(n: NodeSpec) { FrozenObject(n.metadata) }

  ghost predicate ValidEdge(e: EdgeSpec) {
    FrozenObject(e.metadata) && EdgeShape(e.kind, e.target, e.routerRef, e.declared) && Ascending(e.declared)
  }

  ghost predicate ValidReducer(r: ReducerSpec) { ReducerShape(r.field, r.kind, r.ref) }

  ghost predicate ValidJoin(j: JoinSpec) { JoinShape(j.kind, j.quorum, j.ref) }

  lemma MadeNodeIsValid(name: string, ref: Option<string>, metadata: Json)
    ensures var r := MakeNode(name, ref, metadata); r.Success? ==> ValidNode(r.value)
  {
    FreezeDictIsFrozen(metadata);
  }

  lemma MadeEdgeIsValid(source: string, kind: EdgeKind, target: Option<string>, routerRef: Option<string>,
                        declared: seq<string>, metadata: Json)
    ensures var r := MakeEdge(source, kind, target, routerRef, declared, metadata); r.Success? ==> ValidEdge(r.value)
  {
    hide FreezeDict, Frozen;
    FreezeDictIsFrozen(metadata);
    var names := set x | x in declared;
    SortedKeysCount(names);
    var sorted := SortedKeys(names);
    assert (set x | x in sorted) == names;
    if declared == [] { assert names == {}; }
  }

  // ----- canonical order -----

  /** A sort key: a tuple of strings and tuples of strings. */
  type SortKey = seq<seq<string>>

  predicate StringsLe(a: seq<string>, b: seq<string>) { LexLe(StrLe, a, b) }

  predicate KeyLe(a: SortKey, b: SortKey) { LexLe(StringsLe, a, b) }

  function KindName(kind: EdgeKind): string {
    match kind
    case StaticEdge => "static"
    case ConditionalEdge => "conditional"
    case FanOutEdge => "fanout"
  }

  function ReducerKindName(kind: ReducerKind): string {
    match kind
    case KReject => "reject_conflict"
    case KFirst => "first"
    case KLast => "last"
    case KConcat => "concat"
    case KUnion => "union"
    case KCustom => "custom"
  }

  function JoinKindName(kind: JoinKind): string {
    match kind
    case KAll => "all"
    case KAny => "any"
    case KFirstSuccess => "first_success"
    case KQuorum => "quorum"
    case KCustomJoin => "custom"
  }

  /** `value or ""`: absent and empty tie. */
  function OrEmpty(s: Option<string>): string { if s.Some? then s.value else "" }

  function NodeKey(lib: Library, n: NodeSpec): SortKey {
    [[n.name], [OrEmpty(n.ref)], [lib.text(Thaw(n.metadata))]]
  }

  function EdgeKey(lib: Library, e: EdgeSpec): SortKey {
    [[e.source], [KindName(e.kind)], [OrEmpty(e.target)], [OrEmpty(e.routerRef)], e.declared,
     [lib.text(Thaw(e.metadata))]]
  }

  function NodeLe(lib: Library): (NodeSpec, NodeSpec) -> bool { (a, b) => KeyLe(NodeKey(lib, a), NodeKey(lib, b)) }

  function EdgeLe(lib: Library): (EdgeSpec, EdgeSpec) -> bool { (a, b) => KeyLe(EdgeKey(lib, a), EdgeKey(lib, b)) }

  predicate FieldLe(a: ReducerSpec, b: ReducerSpec) { StrLe(a.field, b.field) }

  predicate SourceLe(a: JoinSpec, b: JoinSpec) { StrLe(a.source, b.source) }

  /** By source, then by kind. */
  predicate SourceKindLe(a: JoinSpec, b: JoinSpec) {
    StringsLe([a.source, JoinKindName(a.kind)], [b.source, JoinKindName(b.kind)])
  }

  lemma StringsOrder()
    ensures TotalOrder(StringsLe)
  {
    StrTotalOrder();
    forall a: seq<string>, b: seq<string>, c: seq<string>
      ensures StringsLe(a, a)
      ensures StringsLe(a, b) || StringsLe(b, a)
      ensures StringsLe(a, b) && StringsLe(b, a) ==> a == b
      ensures StringsLe(a, b) && StringsLe(b, c) ==> StringsLe(a, c)
    {
      LexReflexive(StrLe, a);
      LexTotal(StrLe, a, b);
      if StringsLe(a, b) && StringsLe(b, c) { LexTransitive(StrLe, a, b, c); }
    }
  }

  lemma KeyOrder(a: SortKey, b: SortKey, c: SortKey)
    ensures KeyLe(a, b) || KeyLe(b, a)
    ensures KeyLe(a, b) && KeyLe(b, a) ==> a == b
    ensures KeyLe(a, b) && KeyLe(b, c) ==> KeyLe(a, c)
  {
    StringsOrder();
    LexTotal(StringsLe, a, b);
    if KeyLe(a, b) && KeyLe(b, c) { LexTransitive(StringsLe, a, b, c); }
  }

  lemma NodePreorder(lib: Library)
    ensures Preorder(NodeLe(lib))
  {
    hide KeyLe;
    forall a, b, c
      ensures NodeLe(lib)(a, b) || NodeLe(lib)(b, a)
      ensures NodeLe(lib)(a, b) && NodeLe(lib)(b, c) ==> NodeLe(lib)(a, c)
    {
      KeyOrder(NodeKey(lib, a), NodeKey(lib, b), NodeKey(lib, c));
    }
  }

  lemma EdgePreorder(lib: Library)
    ensures Preorder(EdgeLe(lib))
  {
    hide KeyLe;
    forall a, b, c
      ensures EdgeLe(lib)(a, b) || EdgeLe(lib)(b, a)
      ensures EdgeLe(lib)(a, b) && EdgeLe(lib)(b, c) ==> EdgeLe(lib)(a, c)
    {
      KeyOrder(EdgeKey(lib, a), EdgeKey(lib, b), EdgeKey(lib, c));
    }
  }

  lemma FieldPreorder()
    ensures Preorder(FieldLe)
  {
    hide StrLe;
    forall a, b, c
      ensures FieldLe(a, b) || FieldLe(b, a)
      ensures FieldLe(a, b) && FieldLe(b, c) ==> FieldLe(a, c)
    {
      StrOrder(a.field, b.field, c.field);
    }
  }

  lemma JoinPreorder()
    ensures Preorder(SourceKindLe)
  {
    hide StringsLe;
    StringsOrder();
    forall a, b, c
      ensures SourceKindLe(a, b) || SourceKindLe(b, a)
      ensures SourceKindLe(a, b) && SourceKindLe(b, c) ==> SourceKindLe(a, c)
    {
      assert StringsLe([a.source, JoinKindName(a.kind)], [b.source, JoinKindName(b.kind)])
          || StringsLe([b.source, JoinKindName(b.kind)], [a.source, JoinKindName(a.kind)]);
    }
  }

  lemma OneString(x: string, y: string)
    ensures StringsLe([x], [y]) <==> StrLe(x, y)
    ensures [x] == [y] <==> x == y
  {
    assert [x][0] == x && [y][0] == y && [x][1..] == [] && [y][1..] == [];
    assert LexLe(StrLe, [], []);
    StrOrder(x, y, x);
  }

  /** Nodes come by name, then by reference-or-empty, then by the text of their metadata. */
  lemma NodeOrderLaw(lib: Library, a: NodeSpec, b: NodeSpec)
    ensures var refA, refB := OrEmpty(a.ref), OrEmpty(b.ref);
            NodeLe(lib)(a, b) <==>
              if a.name != b.name then StrLe(a.name, b.name)
              else if refA != refB then StrLe(refA, refB)
              else StrLe(lib.text(Thaw(a.metadata)), lib.text(Thaw(b.metadata)))
  {
    hide StringsLe, StrLe, Thaw, OrEmpty;
    var k, l := NodeKey(lib, a), NodeKey(lib, b);
    OneString(a.name, b.name);
    OneString(OrEmpty(a.ref), OrEmpty(b.ref));
    OneString(lib.text(Thaw(a.metadata)), lib.text(Thaw(b.metadata)));
    KeySteps(k, l, 0);
    KeySteps(k, l, 1);
    LastKey(k[2], l[2]);
    assert k[2..] == [k[2]] && l[2..] == [l[2]];
    assert k[0..] == k && l[0..] == l;
  }

  lemma LastKey(x: seq<string>, y: seq<string>)
    ensures KeyLe([x], [y]) <==> x == y || StringsLe(x, y)
    ensures x == y ==> StringsLe(x, y)
  {
    StringsOrder();
    assert [x][0] == x && [y][0] == y && [x][1..] == [] && [y][1..] == [];
    assert LexLe(StringsLe, [], []);
  }

  /** Edges come by source, kind, target-or-empty, router-or-empty, declared targets, and the
      text of their metadata. */
  lemma EdgeOrderLaw(lib: Library, a: EdgeSpec, b: EdgeSpec)
    ensures EdgeLe(lib)(a, b) <==>
              if a.source != b.source then StrLe(a.source, b.source)
              else if KindName(a.kind) != KindName(b.kind) then StrLe(KindName(a.kind), KindName(b.kind))
              else if OrEmpty(a.target) != OrEmpty(b.target) then StrLe(OrEmpty(a.target), OrEmpty(b.target))
              else if OrEmpty(a.routerRef) != OrEmpty(b.routerRef)
              then StrLe(OrEmpty(a.routerRef), OrEmpty(b.routerRef))
              else if a.declared != b.declared then StringsLe(a.declared, b.declared)
              else StrLe(lib.text(Thaw(a.metadata)), lib.text(Thaw(b.metadata)))
  {
    hide StringsLe, StrLe, Thaw, OrEmpty, KindName;
    var k, l := EdgeKey(lib, a), EdgeKey(lib, b);
    OneString(a.source, b.source);
    OneString(KindName(a.kind), KindName(b.kind));
    OneString(OrEmpty(a.target), OrEmpty(b.target));
    OneString(OrEmpty(a.routerRef), OrEmpty(b.routerRef));
    OneString(lib.text(Thaw(a.metadata)), lib.text(Thaw(b.metadata)));
    KeySteps(k, l, 0);
    KeySteps(k, l, 1);
    KeySteps(k, l, 2);
    KeySteps(k, l, 3);
    KeySteps(k, l, 4);
    LastKey(k[5], l[5]);
    assert k[5..] == [k[5]] && l[5..] == [l[5]];
    assert k[0..] == k && l[0..] == l;
  }

  lemma KeySteps(k: SortKey, l: SortKey, n: nat)
    requires n < |k| && n < |l|
    ensures KeyLe(k[n..], l[n..]) <==> if k[n] == l[n] then KeyLe(k[n + 1..], l[n + 1..]) else StringsLe(k[n], l[n])
  {
    hide StringsLe;
    assert k[n..][0] == k[n] && l[n..][0] == l[n] && k[n..][1..] == k[n + 1..] && l[n..][1..] == l[n + 1..];
  }

  /** Sorted by source and kind is sorted by source. */
  lemma SourceKindImpliesSource(joins: seq<JoinSpec>)
    requires SortedBy(SourceKindLe, joins)
    ensures SortedBy(SourceLe, joins)
  {
    forall i, j | 0 <= i < j < |joins| ensures SourceLe(joins[i], joins[j]) {
      assert SourceKindLe(joins[i], joins[j]);
      StrOrder(joins[i].source, joins[i].source, joins[i].source);
    }
  }

  // ----- writing out -----

  function OptText(s: Option<string>): Json { if s.Some? then JText(s.value) else JNull }

  function TextList(names: seq<string>): Json {
    JArr(seq(|names|, i requires 0 <= i < |names| => JText(names[i])))
  }

  function NodeJson(n: NodeSpec): Json {
    JObj(map["name" := JText(n.name), "implementation_ref" := OptText(n.ref), "metadata" := Thaw(n.metadata)])
  }

  function EdgeJson(e: EdgeSpec): Json {
    JObj(map["source" := JText(e.source), "kind" := JText(KindName(e.kind)), "target" := OptText(e.target),
             "router_ref" := OptText(e.routerRef), "declared_targets" := TextList(e.declared),
             "metadata" := Thaw(e.metadata)])
  }

  function ReducerJson(r: ReducerSpec): Json {
    JObj(map["field" := JText(r.field), "kind" := JText(ReducerKindName(r.kind)), "ref" := OptText(r.ref)])
  }

  function JoinJson(j: JoinSpec): Json {
    JObj(map["source" := JText(j.source), "kind" := JText(JoinKindName(j.kind)),
             "quorum" := if j.quorum.Some? then JInt(j.quorum.value) else JNull, "ref" := OptText(j.ref)])
  }

  function Map<T, U>(f: T -> U, xs: seq<T>): (ys: seq<U>)
    ensures |ys| == |xs| && forall i :: 0 <= i < |xs| ==> ys[i] == f(xs[i])
  {
    seq(|xs|, i requires 0 <= i < |xs| => f(xs[i]))
  }

  /** `canonical_graph_payload`: schema "1" has neither reducers nor joins. */
  function Payload(lib: Library, schema: string, maxSteps: int, nodes: seq<NodeSpec>, edges: seq<EdgeSpec>,
                   metadata: Json, reducers: seq<ReducerSpec>, joins: seq<JoinSpec>): map<string, Json>
  {
    var base := map[
      "schema_version" := JText(schema),
      "max_steps" := JInt(maxSteps),
      "nodes" := JArr(Map(NodeJson, Sort(NodeLe(lib), nodes))),
      "edges" := JArr(Map(EdgeJson, Sort(EdgeLe(lib), edges))),
      "metadata" := Thaw(metadata)];
    if schema == V1 then base else
    base["reducers" := JArr(Map(ReducerJson, Sort(FieldLe, reducers)))]
        ["joins" := JArr(Map(JoinJson, Sort(SourceLe, joins)))]
  }

  function SpecPayload(lib: Library, s: GraphSpec): map<string, Json> {
    Payload(lib, s.schema, s.maxSteps, s.nodes, s.edges, s.metadata, s.reducers, s.joins)
  }

  function ToDict(lib: Library, s: GraphSpec): Json { JObj(SpecPayload(lib, s)["graph_id" := JText(s.graphId)]) }

  // ----- creation -----

  function CountJoins(joins: seq<JoinSpec>, source: string): nat {
    if joins == [] then 0 else
    CountJoins(joins[..|joins| - 1], source) + if joins[|joins| - 1].source == source then 1 else 0
  }

  function FanOutSources(edges: seq<EdgeSpec>): set<string> {
    set e | e in edges && e.kind.FanOutEdge? :: e.source
  }

  /** The implied default: the sole join of a fan-out source, of kind `all`. */
  predicate Implied(edges: seq<EdgeSpec>, joins: seq<JoinSpec>, j: JoinSpec) {
    j.kind.KAll? && j.source in FanOutSources(edges) && CountJoins(joins, j.source) == 1
  }

  function Explicit(edges: seq<EdgeSpec>, joins: seq<JoinSpec>, among: seq<JoinSpec>): seq<JoinSpec> {
    if among == [] then [] else
    Explicit(edges, joins, among[..|among| - 1]) +
      if Implied(edges, joins, among[|among| - 1]) then [] else [among[|among| - 1]]
  }

  predicate UsesRegions(edges: seq<EdgeSpec>, reducers: seq<ReducerSpec>, joins: seq<JoinSpec>) {
    reducers != [] || joins != [] || exists e <- edges :: e.kind.FanOutEdge?
  }

  /** The schema version, given or inferred; an explicit one must fit the features used. */
  function ChooseSchema(given: Option<string>, regions: bool): Result<string, SpecError> {
    match given
    case None => Success(if regions then V2 else V1)
    case Some(v) =>
      if v == V1 && regions then Failure(SchemaMismatch)
      else if v == V2 && !regions then Failure(SchemaMismatch)
      else Success(v)
  }

  datatype Parts = Parts(
    maxSteps: int, nodes: seq<NodeSpec>, edges: seq<EdgeSpec>, metadata: Json, reducers: seq<ReducerSpec>,
    joins: seq<JoinSpec>)

  /** The parts in canonical order, without implied joins. */
  function Canonical(lib: Library, p: Parts, frozen: Json): Parts {
    Parts(p.maxSteps, Sort(NodeLe(lib), p.nodes), Sort(EdgeLe(lib), p.edges), frozen, Sort(FieldLe, p.reducers),
          Sort(SourceKindLe, Explicit(p.edges, p.joins, p.joins)))
  }

  /** `GraphSpec.create` on already canonical parts: choose the schema, compute the identity. */
  function Seal(lib: Library, c: Parts, given: Option<string>): Result<GraphSpec, SpecError> {
    var schema :- ChooseSchema(given, UsesRegions(c.edges, c.reducers, c.joins));
    var id := lib.digest(JObj(Payload(lib, schema, c.maxSteps, c.nodes, c.edges, c.metadata, c.reducers, c.joins)));
    Success(GraphSpec(schema, id, c.maxSteps, Sort(NodeLe(lib), c.nodes), Sort(EdgeLe(lib), c.edges), c.metadata,
                      Sort(FieldLe, c.reducers), Sort(SourceLe, c.joins)))
  }

  /** `_freeze_json(dict(metadata or {}))`. */
  function FreezeMetadata(metadata: Json): Option<Json> {
    if Falsy(metadata) then Some(JObj(map[])) else FreezeDict(metadata)
  }

  /** `GraphSpec.create`. */
  function Create(lib: Library, p: Parts, given: Option<string>): Result<GraphSpec, SpecError> {
    match FreezeMetadata(p.metadata)
    case None => Failure(BadMetadata)
    case Some(frozen) => Seal(lib, Canonical(lib, p, frozen), given)
  }

  ghost predicate ValidParts(p: Parts) {
    && (forall n <- p.nodes :: ValidNode(n))
    && (forall e <- p.edges :: ValidEdge(e))
    && (forall r <- p.reducers :: ValidReducer(r))
    && (forall j <- p.joins :: ValidJoin(j))
  }

  /** Sorted, frozen, free of implied joins: what `create` makes of any parts. */
  ghost predicate InNormalForm(lib: Library, c: Parts) {
    && SortedBy(NodeLe(lib), c.nodes) && SortedBy(EdgeLe(lib), c.edges)
    && SortedBy(FieldLe, c.reducers) && SortedBy(SourceKindLe, c.joins)
    && FrozenObject(c.metadata)
    && (forall j <- c.joins :: !Implied(c.edges, c.joins, j))
  }

  lemma {:induction false} ExplicitMembers(edges: seq<EdgeSpec>, joins: seq<JoinSpec>, among: seq<JoinSpec>)
    ensures forall j :: j in Explicit(edges, joins, among) <==> j in among && !Implied(edges, joins, j)
  {
    hide Implied;
    if among != [] {
      ExplicitMembers(edges, joins, among[..|among| - 1]);
      assert among == among[..|among| - 1] + [among[|among| - 1]];
    }
  }

  lemma {:induction false} ExplicitAll(edges: seq<EdgeSpec>, joins: seq<JoinSpec>, among: seq<JoinSpec>)
    requires forall j <- among :: !Implied(edges, joins, j)
    ensures Explicit(edges, joins, among) == among
  {
    hide Implied;
    if among != [] {
      ExplicitAll(edges, joins, among[..|among| - 1]);
      assert among == among[..|among| - 1] + [among[|among| - 1]];
    }
  }

  /** Dropping implied joins leaves the count of every source alone, or makes it zero. */
  lemma {:induction false} ExplicitCount(edges: seq<EdgeSpec>, joins: seq<JoinSpec>, among: seq<JoinSpec>,
                                        source: string)
    ensures CountJoins(Explicit(edges, joins, among), source) <= CountJoins(among, source)
    ensures (forall j <- among :: j.source == source ==> !Implied(edges, joins, j)) ==>
              CountJoins(Explicit(edges, joins, among), source) == CountJoins(among, source)
  {
    hide Implied, Explicit, CountJoins;
    if among == [] {
      assert Explicit(edges, joins, among) == among by { ExplicitAll(edges, joins, among); }
    } else {
      var front, last := among[..|among| - 1], among[|among| - 1];
      ExplicitCount(edges, joins, front, source);
      assert among == front + [last];
      CountJoinsSnoc(front, last, source);
      ExplicitSnoc(edges, joins, front, last);
      CountJoinsSnoc(Explicit(edges, joins, front), last, source);
      assert Explicit(edges, joins, front) + [] == Explicit(edges, joins, front);
    }
  }

  lemma CountJoinsSnoc(joins: seq<JoinSpec>, last: JoinSpec, source: string)
    ensures CountJoins(joins + [last], source) == CountJoins(joins, source) + if last.source == source then 1 else 0
  {
    assert (joins + [last])[..|joins|] == joins;
  }

  lemma ExplicitSnoc(edges: seq<EdgeSpec>, joins: seq<JoinSpec>, front: seq<JoinSpec>, last: JoinSpec)
    ensures Explicit(edges, joins, front + [last])
         == Explicit(edges, joins, front) + if Implied(edges, joins, last) then [] else [last]
  {
    hide Implied;
    assert (front + [last])[..|front|] == front;
  }

  lemma {:induction false} CountOne(joins: seq<JoinSpec>, a: JoinSpec, b: JoinSpec)
    requires CountJoins(joins, a.source) == 1 && a in joins && b in joins && a.source == b.source
    ensures a == b
  {
    var front, last := joins[..|joins| - 1], joins[|joins| - 1];
    assert joins == front + [last];
    if last.source == a.source {
      CountZero(front, a.source);
    } else {
      CountOne(front, a, b);
    }
  }

  lemma {:induction false} CountZero(joins: seq<JoinSpec>, source: string)
    requires CountJoins(joins, source) == 0
    ensures forall j <- joins :: j.source != source
  {
    if joins != [] {
      CountZero(joins[..|joins| - 1], source);
      assert joins == joins[..|joins| - 1] + [joins[|joins| - 1]];
    }
  }

  lemma {:induction false} CountPositive(joins: seq<JoinSpec>, j: JoinSpec)
    requires j in joins
    ensures CountJoins(joins, j.source) > 0
  {
    var front, last := joins[..|joins| - 1], joins[|joins| - 1];
    assert joins == front + [last];
    if j in front { CountPositive(front, j); }
  }

  lemma {:induction false} CountMultiset(a: seq<JoinSpec>, b: seq<JoinSpec>, source: string)
    requires multiset(a) == multiset(b)
    ensures CountJoins(a, source) == CountJoins(b, source)
  {
    hide CountJoins;
    SameMembers(a, b);
    if a == [] {
      assert a == b;
    } else {
      var front, last := a[..|a| - 1], a[|a| - 1];
      assert last in b;
      var i :| 0 <= i < |b| && b[i] == last;
      assert a == front + [last];
      RemoveSame(a, b, i);
      CountMultiset(front, b[..i] + b[i + 1..], source);
      CountSplit(front, [last], source);
      CountRemoved(b, i, source);
    }
  }

  lemma RemoveSame(a: seq<JoinSpec>, b: seq<JoinSpec>, i: nat)
    requires a != [] && i < |b| && b[i] == a[|a| - 1] && multiset(a) == multiset(b)
    ensures multiset(a[..|a| - 1]) == multiset(b[..i] + b[i + 1..])
  {
    var last := b[i];
    assert a == a[..|a| - 1] + [last];
    assert b == b[..i] + [last] + b[i + 1..];
    assert multiset(a[..|a| - 1]) == multiset(a) - multiset{last};
    assert multiset(b[..i] + b[i + 1..]) == multiset(b) - multiset{last};
  }

  lemma CountRemoved(b: seq<JoinSpec>, i: nat, source: string)
    requires i < |b|
    ensures CountJoins(b, source) == CountJoins(b[..i] + b[i + 1..], source) + CountJoins([b[i]], source)
  {
    hide CountJoins;
    CountSplit(b[..i] + [b[i]], b[i + 1..], source);
    CountSplit(b[..i], [b[i]], source);
    CountSplit(b[..i], b[i + 1..], source);
    assert b == b[..i] + [b[i]] + b[i + 1..];
  }

  lemma {:induction false} CountSplit(a: seq<JoinSpec>, b: seq<JoinSpec>, source: string)
    ensures CountJoins(a + b, source) == CountJoins(a, source) + CountJoins(b, source)
  {
    if b == [] {
      assert a + b == a;
    } else {
      assert (a + b)[..|a + b| - 1] == a + b[..|b| - 1];
      CountSplit(a, b[..|b| - 1], source);
    }
  }

  /** After dropping, no join is implied any more. */
  lemma NoneImplied(edges: seq<EdgeSpec>, edges': seq<EdgeSpec>, joins: seq<JoinSpec>, kept: seq<JoinSpec>)
    requires FanOutSources(edges') == FanOutSources(edges)
    requires multiset(kept) == multiset(Explicit(edges, joins, joins))
    ensures forall j <- kept :: !Implied(edges', kept, j)
  {
    hide CountJoins, FanOutSources;
    var explicit := Explicit(edges, joins, joins);
    SameMembers(kept, explicit);
    ExplicitMembers(edges, joins, joins);
    forall j | j in kept ensures !Implied(edges', kept, j) {
      CountMultiset(kept, explicit, j.source);
      ExplicitCount(edges, joins, joins, j.source);
      if exists d <- joins :: d.source == j.source && Implied(edges, joins, d) {
        var d :| d in joins && d.source == j.source && Implied(edges, joins, d);
        CountOne(joins, j, d);
      }
    }
  }

  lemma SameSources(lib: Library, edges: seq<EdgeSpec>)
    ensures FanOutSources(Sort(EdgeLe(lib), edges)) == FanOutSources(edges)
  {
    Members(EdgeLe(lib), edges);
  }

  /** What `create` canonicalises is in normal form. */
  lemma CanonicalIsNormal(lib: Library, p: Parts, frozen: Json)
    requires FrozenObject(frozen)
    ensures InNormalForm(lib, Canonical(lib, p, frozen))
    ensures ValidParts(p) ==> ValidParts(Canonical(lib, p, frozen))
  {
    hide NodeLe, EdgeLe, FieldLe, SourceKindLe, FanOutSources, Implied;
    NodePreorder(lib);
    EdgePreorder(lib);
    FieldPreorder();
    JoinPreorder();
    var explicit := Explicit(p.edges, p.joins, p.joins);
    Sorts(NodeLe(lib), p.nodes);
    Sorts(EdgeLe(lib), p.edges);
    Sorts(FieldLe, p.reducers);
    Sorts(SourceKindLe, explicit);
    SameSources(lib, p.edges);
    NoneImplied(p.edges, Sort(EdgeLe(lib), p.edges), p.joins, Sort(SourceKindLe, explicit));
    Members(NodeLe(lib), p.nodes);
    Members(EdgeLe(lib), p.edges);
    Members(FieldLe, p.reducers);
    Members(SourceKindLe, explicit);
    ExplicitMembers(p.edges, p.joins, p.joins);
  }

  /** Canonicalising a normal form changes nothing. */
  lemma NormalIsFixed(lib: Library, c: Parts)
    requires InNormalForm(lib, c)
    ensures Canonical(lib, c, c.metadata) == c
    ensures Sort(SourceLe, c.joins) == c.joins
  {
    hide NodeLe, EdgeLe, FieldLe, SourceKindLe, SourceLe, Implied;
    SortedIsFixed(NodeLe(lib), c.nodes);
    SortedIsFixed(EdgeLe(lib), c.edges);
    SortedIsFixed(FieldLe, c.reducers);
    SortedIsFixed(SourceKindLe, c.joins);
    ExplicitAll(c.edges, c.joins, c.joins);
    SourceKindImpliesSource(c.joins);
    SortedIsFixed(SourceLe, c.joins);
  }

  function PartsOf(s: GraphSpec): Parts { Parts(s.maxSteps, s.nodes, s.edges, s.metadata, s.reducers, s.joins) }

  /** A created spec holds its canonical parts and the identity of exactly these. */
  lemma CreatedIsNormal(lib: Library, p: Parts, given: Option<string>)
    requires ValidParts(p) && Create(lib, p, given).Success?
    ensures var s := Create(lib, p, given).value;
            && InNormalForm(lib, PartsOf(s)) && ValidParts(PartsOf(s))
            && s.graphId == lib.digest(JObj(SpecPayload(lib, s)))
            && ChooseSchema(Some(s.schema), UsesRegions(s.edges, s.reducers, s.joins)) == Success(s.schema)
  {
    hide InNormalForm, ValidParts, Canonical, Seal, SpecPayload, UsesRegions, ChooseSchema, FreezeDict;
    FreezeDictIsFrozen(p.metadata);
    var frozen := FreezeMetadata(p.metadata).value;
    var c := Canonical(lib, p, frozen);
    CanonicalIsNormal(lib, p, frozen);
    SealKeeps(lib, c, given);
  }

  lemma SealKeeps(lib: Library, c: Parts, given: Option<string>)
    requires InNormalForm(lib, c) && Seal(lib, c, given).Success?
    ensures PartsOf(Seal(lib, c, given).value) == c
    ensures var s := Seal(lib, c, given).value;
            && s.graphId == lib.digest(JObj(SpecPayload(lib, s)))
            && ChooseSchema(Some(s.schema), UsesRegions(s.edges, s.reducers, s.joins)) == Success(s.schema)
  {
    NormalIsFixed(lib, c);
    SortedIsFixed(NodeLe(lib), c.nodes);
    SortedIsFixed(EdgeLe(lib), c.edges);
    SortedIsFixed(FieldLe, c.reducers);
  }

  /** Creating from the parts of a created spec, with its schema, gives it back. */
  lemma CreateIsIdempotent(lib: Library, s: GraphSpec)
    requires InNormalForm(lib, PartsOf(s))
    requires s.graphId == lib.digest(JObj(SpecPayload(lib, s)))
    requires ChooseSchema(Some(s.schema), UsesRegions(s.edges, s.reducers, s.joins)) == Success(s.schema)
    ensures Create(lib, PartsOf(s), Some(s.schema)) == Success(s)
  {
    hide FreezeDict;
    var c := PartsOf(s);
    FreezeDictIsFrozen(s.metadata);
    NormalIsFixed(lib, c);
    SealKeeps(lib, c, Some(s.schema));
  }

  // ----- the schema version -----

  /** Canonicalisation drops joins, but never the last sign that regions are used. */
  lemma FeaturesSurvive(lib: Library, p: Parts, frozen: Json)
    ensures var c := Canonical(lib, p, frozen);
            UsesRegions(c.edges, c.reducers, c.joins) <==> UsesRegions(p.edges, p.reducers, p.joins)
  {
    hide NodeLe, EdgeLe, FieldLe, SourceKindLe, CountJoins, Sort;
    var explicit := Explicit(p.edges, p.joins, p.joins);
    Members(EdgeLe(lib), p.edges);
    Members(FieldLe, p.reducers);
    Members(SourceKindLe, explicit);
    ExplicitMembers(p.edges, p.joins, p.joins);
    if p.joins != [] && Implied(p.edges, p.joins, p.joins[0]) {
      var e :| e in p.edges && e.kind.FanOutEdge? && e.source == p.joins[0].source;
      assert e in Canonical(lib, p, frozen).edges;
    } else if p.joins != [] {
      assert p.joins[0] in explicit;
    } else {
      assert explicit == [];
    }
  }

  /** The schema follows the features of the parts as given, implied joins included: creating
      fails exactly for bad metadata or a requested schema that does not fit them, and a
      schema that is not requested is "2" exactly if they are used. */
  lemma SchemaFollowsFeatures(lib: Library, p: Parts, given: Option<string>)
    ensures var regions := UsesRegions(p.edges, p.reducers, p.joins);
            var r := Create(lib, p, given);
            && (r.Success? <==> FreezeMetadata(p.metadata).Some? && !(given == Some(V1) && regions)
                                && !(given == Some(V2) && !regions))
            && (r.Success? ==> r.value.schema == if given.Some? then given.value else if regions then V2 else V1)
  {
    hide FreezeMetadata, Canonical, UsesRegions, Payload, Sort;
    if FreezeMetadata(p.metadata).Some? { FeaturesSurvive(lib, p, FreezeMetadata(p.metadata).value); }
  }
}
