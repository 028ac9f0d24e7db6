/** What a payload must say to be loaded: field by field, which values, under which names, and
    what an absent field stands for. */
module Reading {
  import opened Values
  import opened Ordering
  import opened JsonTrees
  import opened Spec
  import opened Codec

  // ----- fields -----

  /** The field is absent or null, or it is this text. */
  predicate SaysText(entries: map<string, Json>, field: string, v: Option<string>) {
    if field in entries && !entries[field].JNull? then v.Some? && entries[field] == JText(v.value) else v.None?
  }

  /** The field holds a dict that freezes to `frozen`, or something empty; absent, it is empty. */
  predicate SaysMetadata(entries: map<string, Json>, frozen: Json) {
    if "metadata" !in entries then frozen == JObj(map[])
    else
      match entries["metadata"]
      case JObj(_) => Freeze(entries["metadata"]) == Some(frozen)
      case JArr(items) => items == [] && frozen == JObj(map[])
      case JTup(items) => items == [] && frozen == JObj(map[])
      case JText(s) => s == "" && frozen == JObj(map[])
      case _ => false
  }

  /** These names, as a list or a tuple of texts. */
  predicate AreTexts(items: seq<Json>, names: seq<string>) {
    |items| == |names| && forall i :: 0 <= i < |items| ==> items[i] == JText(names[i])
  }

  /** The field lists exactly these names, in any order and however often; absent, it lists none. */
  ghost predicate SaysNames(entries: map<string, Json>, field: string, sorted: seq<string>) {
    Ascending(sorted) &&
    if field !in entries then sorted == []
    else
      exists names: seq<string> ::
        && (forall x :: x in names <==> x in sorted)
        && ((entries[field].JArr? && AreTexts(entries[field].items, names))
            || (entries[field].JTup? && AreTexts(entries[field].items, names)))
  }

  /** A required field whose value converts to this text. */
  predicate Names(lib: Library, entries: map<string, Json>, field: string, v: string) {
    field in entries && lib.str(entries[field]) == v
  }

  predicate IsRecord(j: Json, fields: set<string>) { j.JObj? && j.entries.Keys <= fields }

  // ----- records -----

  predicate SaysNode(lib: Library, j: Json, n: NodeSpec) {
    && IsRecord(j, {"name", "implementation_ref", "metadata"})
    && Names(lib, j.entries, "name", n.name) && SaysText(j.entries, "implementation_ref", n.ref)
    && SaysMetadata(j.entries, n.metadata)
  }

  ghost predicate SaysEdge(lib: Library, j: Json, e: EdgeSpec) {
    && IsRecord(j, {"source", "kind", "target", "router_ref", "declared_targets", "metadata"})
    && Names(lib, j.entries, "source", e.source)
    && "kind" in j.entries
    && (match e.kind
        case StaticEdge =>
          j.entries["kind"] == JText("static") && e.target.Some? && e.routerRef.None? && e.declared == []
        case ConditionalEdge => j.entries["kind"] == JText("conditional") && e.target.None?
        case FanOutEdge =>
          j.entries["kind"] == JText("fanout") && e.target.Some? && e.routerRef.None? && |e.declared| >= 2
          && |Items(j.entries, "declared_targets")| == |e.declared|)
    && SaysText(j.entries, "target", e.target) && SaysText(j.entries, "router_ref", e.routerRef)
    && SaysNames(j.entries, "declared_targets", e.declared) && SaysMetadata(j.entries, e.metadata)
  }

  /** The items of a list field; absent, it has none. */
  function Items(entries: map<string, Json>, field: string): seq<Json> {
    if field in entries && (entries[field].JArr? || entries[field].JTup?) then entries[field].items else []
  }

  predicate SaysReducer(lib: Library, j: Json, r: ReducerSpec) {
    && IsRecord(j, {"field", "kind", "ref"})
    && Names(lib, j.entries, "field", r.field) && r.field != ""
    && "kind" in j.entries && j.entries["kind"].JText?
    && (match j.entries["kind"].s
        case "reject_conflict" => r.kind.KReject?
        case "first" => r.kind.KFirst?
        case "last" => r.kind.KLast?
        case "concat" => r.kind.KConcat?
        case "union" => r.kind.KUnion?
        case "custom" => r.kind.KCustom?
        case _ => false)
    && SaysText(j.entries, "ref", r.ref) && (r.ref.Some? ==> r.kind.KCustom?)
  }

  predicate SaysJoin(lib: Library, j: Json, s: JoinSpec) {
    && IsRecord(j, {"source", "kind", "quorum", "ref"})
    && Names(lib, j.entries, "source", s.source)
    && "kind" in j.entries && j.entries["kind"].JText?
    && (match j.entries["kind"].s
        case "all" => s.kind.KAll?
        case "any" => s.kind.KAny?
        case "first_success" => s.kind.KFirstSuccess?
        case "quorum" => s.kind.KQuorum?
        case "custom" => s.kind.KCustomJoin?
        case _ => false)
    && (if "quorum" in j.entries && !j.entries["quorum"].JNull?
        then s.quorum.Some? && j.entries["quorum"] == JInt(s.quorum.value) else s.quorum.None?)
    && (if s.kind.KQuorum? then s.quorum.Some? && s.quorum.value >= 1 else s.quorum.None?)
    && SaysText(j.entries, "ref", s.ref) && (s.ref.Some? ==> s.kind.KCustomJoin?)
  }

  lemma MetadataIs(entries: map<string, Json>, frozen: Json)
    ensures FreezeDict(Get(entries, "metadata", JObj(map[]))) == Some(frozen) <==> SaysMetadata(entries, frozen)
  {
    var empty := JObj(map[]);
    assert FrozenObject(empty);
    FreezeDictIsFrozen(empty);
    hide Freeze, Frozen;
  }

  lemma NodeLaw(lib: Library, j: Json, n: NodeSpec)
    ensures CheckRecord(j, NODE_FIELDS).None? && LoadNode(lib, j) == Success(n) <==> SaysNode(lib, j, n)
  {
    hide FreezeDict, SaysMetadata;
    if j.JObj? { MetadataIs(j.entries, n.metadata); }
  }

  lemma ReducerLaw(lib: Library, j: Json, r: ReducerSpec)
    ensures CheckRecord(j, REDUCER_FIELDS).None? && LoadReducer(lib, j) == Success(r) <==> SaysReducer(lib, j, r)
  {
  }

  lemma JoinLaw(lib: Library, j: Json, s: JoinSpec)
    ensures CheckRecord(j, JOIN_FIELDS).None? && LoadJoin(lib, j) == Success(s) <==> SaysJoin(lib, j, s)
  {
  }

  // ----- edges -----

  lemma {:induction false} TextsIs(items: seq<Json>, names: seq<string>)
    ensures Texts(items) == Success(names) <==> AreTexts(items, names)
  {
    if items != [] {
      var n := |items| - 1;
      if AreTexts(items, names) {
        TextsIs(items[..n], names[..n]);
        assert names == names[..n] + [names[n]];
      }
      var front := Texts(items[..n]);
      if front.Success? { TextsIs(items[..n], front.value); }
    }
  }

  /** Reading a list of names and sorting it. */
  lemma NamesAre(entries: map<string, Json>, field: string, sorted: seq<string>)
    ensures SaysNames(entries, field, sorted) <==>
              var r := ReadTexts(Get(entries, field, JTup([])));
              r.Success? && SortedKeys(set x | x in r.value) == sorted
  {
    hide Texts;
    var j := Get(entries, field, JTup([]));
    var items := Items(entries, field);
    var r := ReadTexts(j);
    TextsIs([], []);
    if r.Success? {
      TextsIs(items, r.value);
      SortedNamed(r.value, sorted);
    }
    if field in entries && SaysNames(entries, field, sorted) {
      var names: seq<string> :| (forall x :: x in names <==> x in sorted) && AreTexts(items, names)
                                && (entries[field].JArr? || entries[field].JTup?);
      TextsIs(items, names);
      SortedNamed(names, sorted);
    }
  }

  lemma SortedNamed(names: seq<string>, sorted: seq<string>)
    ensures SortedKeys(set x | x in names) == sorted <==> Ascending(sorted) && forall x :: x in names <==> x in sorted
  {
    hide Ascending;
    var kept := SortedKeys(set x | x in names);
    if Ascending(sorted) && (forall x :: x in names <==> x in sorted) { AscendingUnique(kept, sorted); }
  }

  lemma EdgeLaw(lib: Library, j: Json, e: EdgeSpec)
    ensures CheckRecord(j, EDGE_FIELDS).None? && LoadEdge(lib, j) == Success(e) <==> SaysEdge(lib, j, e)
  {
    hide FreezeDict, SaysMetadata, SaysNames, ReadTexts, SortedKeys, Ascending, Texts;
    if j.JObj? {
      MetadataIs(j.entries, e.metadata);
      NamesAre(j.entries, "declared_targets", e.declared);
      DistinctNames(j.entries, "declared_targets");
    }
  }

  /** How many names a list field holds, and how many of them differ. */
  lemma DistinctNames(entries: map<string, Json>, field: string)
    ensures var r := ReadTexts(Get(entries, field, JTup([])));
            r.Success? ==>
              && |r.value| == |Items(entries, field)|
              && |SortedKeys(set x | x in r.value)| == |set x | x in r.value|
              && (r.value == [] <==> SortedKeys(set x | x in r.value) == [])
  {
    hide Texts, SortedKeys;
    var r := ReadTexts(Get(entries, field, JTup([])));
    if r.Success? {
      TextsIs(Items(entries, field), r.value);
      var names := set x | x in r.value;
      SortedKeysCount(names);
      if r.value == [] { assert names == {}; } else { assert r.value[0] in names; }
    }
  }

  // ----- lists and payloads -----

  /** The field is absent, for no records, or a list that says one record after the other. */
  ghost predicate SaysAll<T>(entries: map<string, Json>, field: string, says: (Json, T) -> bool, xs: seq<T>) {
    if field !in entries then xs == []
    else
      && entries[field].JArr? && |entries[field].items| == |xs|
      && forall i :: 0 <= i < |xs| ==> says(entries[field].items[i], xs[i])
  }

  /** What a payload says of the parts of a graph. */
  ghost predicate SaysParts(lib: Library, entries: map<string, Json>, p: Parts) {
    && SaysAll(entries, "nodes", (j, n) => SaysNode(lib, j, n), p.nodes)
    && SaysAll(entries, "edges", (j, e) => SaysEdge(lib, j, e), p.edges)
    && SaysAll(entries, "reducers", (j, r) => SaysReducer(lib, j, r), p.reducers)
    && SaysAll(entries, "joins", (j, s) => SaysJoin(lib, j, s), p.joins)
    && "max_steps" in entries && lib.toInt(entries["max_steps"]) == Some(p.maxSteps)
    && p.metadata == if "metadata" in entries then entries["metadata"] else JObj(map[])
  }

  /** The payload says `s`: an object of the known fields, of a schema there is, whose parts create
      exactly `s`, under its identity. */
  ghost predicate Says(lib: Library, payload: Json, s: GraphSpec) {
    && IsRecord(payload, {"schema_version", "graph_id", "max_steps", "nodes", "edges", "metadata", "reducers", "joins"})
    && "schema_version" in payload.entries
    && lib.str(payload.entries["schema_version"]) in {"1", "2"}
    && (exists p :: SaysParts(lib, payload.entries, p)
                    && Create(lib, p, Some(lib.str(payload.entries["schema_version"]))) == Success(s))
    && "graph_id" in payload.entries && payload.entries["graph_id"] == JText(s.graphId)
  }

  /** A list is accepted and loaded if every record is. */
  lemma {:induction false} ListIs<T>(load: Json -> Result<T, SpecError>, items: seq<Json>, fields: set<string>,
                                     xs: seq<T>)
    ensures CheckAll(items, fields).None? && LoadAll(load, items) == Success(xs) <==>
              && |items| == |xs|
              && forall i :: 0 <= i < |xs| ==> CheckRecord(items[i], fields).None? && load(items[i]) == Success(xs[i])
  {
    hide CheckRecord;
    if items != [] {
      var n := |items| - 1;
      var front := LoadAll(load, items[..n]);
      if front.Success? { ListIs(load, items[..n], fields, front.value); }
      if |items| == |xs| {
        ListIs(load, items[..n], fields, xs[..n]);
        assert xs == xs[..n] + [xs[n]];
      }
    }
  }

  lemma AllSaid<T>(entries: map<string, Json>, field: string, fields: set<string>,
                   load: Json -> Result<T, SpecError>, says: (Json, T) -> bool, xs: seq<T>)
    requires forall j, x :: CheckRecord(j, fields).None? && load(j) == Success(x) <==> says(j, x)
    ensures var list := Get(entries, field, JArr([]));
            list.JArr? && CheckAll(list.items, fields).None? && LoadAll(load, list.items) == Success(xs)
            <==> SaysAll(entries, field, says, xs)
  {
    hide CheckAll, LoadAll, CheckRecord;
    var list := Get(entries, field, JArr([]));
    if list.JArr? { ListIs(load, list.items, fields, xs); }
  }

  lemma PartsLaw(lib: Library, entries: map<string, Json>, p: Parts)
    ensures ReadParts(lib, entries) == Success(p) <==> SaysParts(lib, entries, p)
  {
    hide CheckAll, LoadAll, SaysNode, SaysEdge, SaysReducer, SaysJoin, SaysAll, CheckRecord, LoadNode, LoadEdge,
         LoadReducer, LoadJoin;
    NodesSaid(lib, entries, p.nodes);
    EdgesSaid(lib, entries, p.edges);
    ReducersSaid(lib, entries, p.reducers);
    JoinsSaid(lib, entries, p.joins);
  }

  lemma NodesSaid(lib: Library, entries: map<string, Json>, xs: seq<NodeSpec>)
    ensures var list := Get(entries, "nodes", JArr([]));
            list.JArr? && CheckAll(list.items, NODE_FIELDS).None?
            && LoadAll(item => LoadNode(lib, item), list.items) == Success(xs)
            <==> SaysAll(entries, "nodes", (j, n) => SaysNode(lib, j, n), xs)
  {
    hide CheckAll, LoadAll, SaysNode, SaysAll, CheckRecord, LoadNode;
    forall j, n ensures CheckRecord(j, NODE_FIELDS).None? && LoadNode(lib, j) == Success(n) <==> SaysNode(lib, j, n) {
      NodeLaw(lib, j, n);
    }
    AllSaid(entries, "nodes", NODE_FIELDS, item => LoadNode(lib, item), (j, n) => SaysNode(lib, j, n), xs);
  }

  lemma EdgesSaid(lib: Library, entries: map<string, Json>, xs: seq<EdgeSpec>)
    ensures var list := Get(entries, "edges", JArr([]));
            list.JArr? && CheckAll(list.items, EDGE_FIELDS).None?
            && LoadAll(item => LoadEdge(lib, item), list.items) == Success(xs)
            <==> SaysAll(entries, "edges", (j, e) => SaysEdge(lib, j, e), xs)
  {
    hide CheckAll, LoadAll, SaysEdge, SaysAll, CheckRecord, LoadEdge;
    forall j, e ensures CheckRecord(j, EDGE_FIELDS).None? && LoadEdge(lib, j) == Success(e) <==> SaysEdge(lib, j, e) {
      EdgeLaw(lib, j, e);
    }
    AllSaid(entries, "edges", EDGE_FIELDS, item => LoadEdge(lib, item), (j, e) => SaysEdge(lib, j, e), xs);
  }

  lemma ReducersSaid(lib: Library, entries: map<string, Json>, xs: seq<ReducerSpec>)
    ensures var list := Get(entries, "reducers", JArr([]));
            list.JArr? && CheckAll(list.items, REDUCER_FIELDS).None?
            && LoadAll(item => LoadReducer(lib, item), list.items) == Success(xs)
            <==> SaysAll(entries, "reducers", (j, r) => SaysReducer(lib, j, r), xs)
  {
    hide CheckAll, LoadAll, SaysReducer, SaysAll, CheckRecord, LoadReducer;
    forall j, r
      ensures CheckRecord(j, REDUCER_FIELDS).None? && LoadReducer(lib, j) == Success(r) <==> SaysReducer(lib, j, r)
    {
      ReducerLaw(lib, j, r);
    }
    AllSaid(entries, "reducers", REDUCER_FIELDS, item => LoadReducer(lib, item), (j, r) => SaysReducer(lib, j, r), xs);
  }

  lemma JoinsSaid(lib: Library, entries: map<string, Json>, xs: seq<JoinSpec>)
    ensures var list := Get(entries, "joins", JArr([]));
            list.JArr? && CheckAll(list.items, JOIN_FIELDS).None?
            && LoadAll(item => LoadJoin(lib, item), list.items) == Success(xs)
            <==> SaysAll(entries, "joins", (j, s) => SaysJoin(lib, j, s), xs)
  {
    hide CheckAll, LoadAll, SaysJoin, SaysAll, CheckRecord, LoadJoin;
    forall j, s ensures CheckRecord(j, JOIN_FIELDS).None? && LoadJoin(lib, j) == Success(s) <==> SaysJoin(lib, j, s) {
      JoinLaw(lib, j, s);
    }
    AllSaid(entries, "joins", JOIN_FIELDS, item => LoadJoin(lib, item), (j, s) => SaysJoin(lib, j, s), xs);
  }

  /** A payload loads to a spec exactly if it says that spec: no unknown field and no ill-typed
      value is let through, nothing that says a spec is refused, and an absent field stands
      for its default alone. */
  lemma LoadLaw(lib: Library, payload: Json, s: GraphSpec)
    requires Sane(lib)
    ensures Load(lib, payload) == Success(s) <==> Says(lib, payload, s)
  {
    hide ReadParts, Create, SaysParts;
    if payload.JObj? {
      var entries := payload.entries;
      var r := ReadParts(lib, entries);
      if r.Success? { PartsLaw(lib, entries, r.value); }
      if Says(lib, payload, s) {
        var p :| SaysParts(lib, entries, p) && Create(lib, p, Some(lib.str(entries["schema_version"]))) == Success(s);
        PartsLaw(lib, entries, p);
      }
    }
  }
}
