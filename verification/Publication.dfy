/** Publication over mutable objects: while the gate is awaited, other tasks may change
    every object user code can reach, and still what is hashed is what is published. */
module Publication {
  import opened Values
  import opened Ordering
  import opened Protocol
  import opened Reducers
  import opened Topology
  import opened Engine

  /** What a mutable object holds: a plain value, or further objects in a list or a dict. */
  datatype Form = Atom(value: Value) | Items(cells: seq<Cell>) | Fields(fields: map<string, Cell>)

  class Cell {
    var form: Form

    constructor (form: Form)
      ensures this.form == form
    {
      this.form := form;
    }
  }

  /** `c` is the root of finitely nested objects, all in `heap`. They may be shared, with
      each other and with anything else user code holds. */
  predicate Nested(c: Cell, heap: set<Cell>, depth: nat)
    reads heap
  {
    && c in heap
    && match c.form
       case Atom(_) => true
       case Items(cells) => depth > 0 && forall x <- cells :: Nested(x, heap, depth - 1)
       case Fields(fields) => depth > 0 && forall k <- fields :: Nested(fields[k], heap, depth - 1)
  }

  /** The value `c` holds right now, at every depth. */
  function Content(c: Cell, heap: set<Cell>, depth: nat): Value
    requires Nested(c, heap, depth)
    reads heap
    decreases depth, 1, 0
  {
    match c.form
    case Atom(value) => value
    case Items(cells) => List(ContentItems(cells, heap, depth - 1))
    case Fields(fields) => Dict(ContentFields(fields, SortedKeys(fields.Keys), heap, depth - 1))
  }

  function ContentItems(cells: seq<Cell>, heap: set<Cell>, depth: nat): (items: seq<Value>)
    requires forall x <- cells :: Nested(x, heap, depth)
    reads heap
    ensures |items| == |cells| && forall i :: 0 <= i < |cells| ==> items[i] == Content(cells[i], heap, depth)
    decreases depth, 2, |cells|
  {
    if cells == [] then [] else
    var front, last := cells[..|cells| - 1], cells[|cells| - 1];
    assert last in cells && forall x <- front :: x in cells;
    ContentItems(front, heap, depth) + [Content(last, heap, depth)]
  }

  function ContentFields(fields: map<string, Cell>, keys: seq<string>, heap: set<Cell>, depth: nat)
    : (content: map<string, Value>)
    requires (forall k <- keys :: k in fields) && forall k <- fields :: Nested(fields[k], heap, depth)
    reads heap
    ensures forall k :: k in content <==> k in keys
    ensures forall k <- content :: content[k] == Content(fields[k], heap, depth)
    decreases depth, 2, |keys|
  {
    if keys == [] then map[] else
    var key := keys[|keys| - 1];
    assert keys == keys[..|keys| - 1] + [key];
    ContentFields(fields, keys[..|keys| - 1], heap, depth)[key := Content(fields[key], heap, depth)]
  }

  /** More objects around it change nothing about a nested one. */
  lemma {:induction false} Wider(c: Cell, heap: set<Cell>, wide: set<Cell>, depth: nat)
    requires Nested(c, heap, depth) && heap <= wide
    ensures Nested(c, wide, depth) && Content(c, wide, depth) == Content(c, heap, depth)
    decreases depth
  {
    hide SortedKeys, Ascending;
    match c.form
    case Atom(_) =>
    case Items(cells) =>
      forall x | x in cells
        ensures Nested(x, wide, depth - 1) && Content(x, wide, depth - 1) == Content(x, heap, depth - 1)
      {
        Wider(x, heap, wide, depth - 1);
      }
      var a, b := ContentItems(cells, wide, depth - 1), ContentItems(cells, heap, depth - 1);
      forall i | 0 <= i < |cells| ensures a[i] == b[i] { assert cells[i] in cells; }
      assert a == b;
    case Fields(fields) =>
      forall k | k in fields
        ensures Nested(fields[k], wide, depth - 1)
                && Content(fields[k], wide, depth - 1) == Content(fields[k], heap, depth - 1)
      {
        Wider(fields[k], heap, wide, depth - 1);
      }
      var keys := SortedKeys(fields.Keys);
      assert ContentFields(fields, keys, wide, depth - 1) == ContentFields(fields, keys, heap, depth - 1);
  }

  // ----- copying -----

  lemma AtomCopied(copy: Cell, c: Cell, heap: set<Cell>, depth: nat)
    requires Nested(c, heap, depth) && c.form.Atom? && copy.form == c.form
    ensures Nested(copy, {copy}, depth) && Content(copy, {copy}, depth) == Content(c, heap, depth)
  {
  }

  /** A list of copies is a copy of the list. */
  lemma ItemsCopied(copy: Cell, parts: seq<Cell>, below: set<Cell>, c: Cell, cells: seq<Cell>, heap: set<Cell>,
                    depth: nat)
    requires Nested(c, heap, depth + 1) && c.form == Items(cells)
    requires copy.form == Items(parts) && |parts| == |cells| && forall x <- cells :: Nested(x, heap, depth)
    requires forall i :: 0 <= i < |parts| ==>
               Nested(parts[i], below, depth) && Content(parts[i], below, depth) == Content(cells[i], heap, depth)
    ensures Nested(copy, below + {copy}, depth + 1)
    ensures Content(copy, below + {copy}, depth + 1) == Content(c, heap, depth + 1)
  {
    var own := below + {copy};
    forall i | 0 <= i < |parts|
      ensures Nested(parts[i], own, depth) && Content(parts[i], own, depth) == Content(cells[i], heap, depth)
    {
      Wider(parts[i], below, own, depth);
    }
    assert forall x <- parts :: Nested(x, own, depth);
    var a, b := ContentItems(parts, own, depth), ContentItems(cells, heap, depth);
    forall i | 0 <= i < |parts| ensures a[i] == b[i] { assert parts[i] in parts; }
    assert a == b;
  }

  lemma FieldsCopied(copy: Cell, parts: map<string, Cell>, below: set<Cell>, c: Cell, fields: map<string, Cell>,
                     heap: set<Cell>, depth: nat)
    requires Nested(c, heap, depth + 1) && c.form == Fields(fields)
    requires copy.form == Fields(parts) && parts.Keys == fields.Keys &&
             forall k <- fields :: Nested(fields[k], heap, depth)
    requires forall k <- parts ::
               Nested(parts[k], below, depth) && Content(parts[k], below, depth) == Content(fields[k], heap, depth)
    ensures Nested(copy, below + {copy}, depth + 1)
    ensures Content(copy, below + {copy}, depth + 1) == Content(c, heap, depth + 1)
  {
    hide SortedKeys, Ascending;
    var own := below + {copy};
    forall k | k in parts
      ensures Nested(parts[k], own, depth) && Content(parts[k], own, depth) == Content(fields[k], heap, depth)
    {
      Wider(parts[k], below, own, depth);
    }
    var keys := SortedKeys(fields.Keys);
    assert ContentFields(parts, keys, own, depth) == ContentFields(fields, keys, heap, depth);
  }

  /** `copy.deepcopy`: new objects all the way down. */
  method Copy(c: Cell, heap: set<Cell>, depth: nat) returns (copy: Cell, own: set<Cell>)
    requires Nested(c, heap, depth)
    ensures fresh(own) && Nested(copy, own, depth) && Content(copy, own, depth) == Content(c, heap, depth)
    ensures copy.form.Fields? <==> c.form.Fields?
    decreases depth, 0
  {
    hide Content;
    match c.form {
      case Atom(value) =>
        copy := new Cell(Atom(value));
        own := {copy};
        AtomCopied(copy, c, heap, depth);
      case Items(cells) =>
        var parts, below := CopyItems(cells, heap, depth - 1);
        copy := new Cell(Items(parts));
        own := below + {copy};
        ItemsCopied(copy, parts, below, c, cells, heap, depth - 1);
      case Fields(fields) =>
        var parts, below := CopyFields(fields, heap, depth - 1);
        copy := new Cell(Fields(parts));
        own := below + {copy};
        FieldsCopied(copy, parts, below, c, fields, heap, depth - 1);
    }
  }

  method CopyItems(cells: seq<Cell>, heap: set<Cell>, depth: nat) returns (parts: seq<Cell>, own: set<Cell>)
    requires forall x <- cells :: Nested(x, heap, depth)
    ensures fresh(own) && |parts| == |cells|
    ensures forall i :: 0 <= i < |parts| ==>
              Nested(parts[i], own, depth) && Content(parts[i], own, depth) == Content(cells[i], heap, depth)
    decreases depth, 1
  {
    hide Content;
    parts, own := [], {};
    for i := 0 to |cells|
      invariant fresh(own) && |parts| == i
      invariant forall j :: 0 <= j < i ==>
                  Nested(parts[j], own, depth) && Content(parts[j], own, depth) == Content(cells[j], heap, depth)
    {
      assert cells[i] in cells;
      var part, below := Copy(cells[i], heap, depth);
      forall j | 0 <= j < i
        ensures Nested(parts[j], own + below, depth)
                && Content(parts[j], own + below, depth) == Content(parts[j], own, depth)
      {
        Wider(parts[j], own, own + below, depth);
      }
      Wider(part, below, own + below, depth);
      parts, own := parts + [part], own + below;
    }
  }

  lemma FieldsWider(parts: map<string, Cell>, own: set<Cell>, wide: set<Cell>, depth: nat)
    requires own <= wide && forall k <- parts :: Nested(parts[k], own, depth)
    ensures forall k <- parts ::
              Nested(parts[k], wide, depth) && Content(parts[k], wide, depth) == Content(parts[k], own, depth)
  {
    forall k | k in parts
      ensures Nested(parts[k], wide, depth) && Content(parts[k], wide, depth) == Content(parts[k], own, depth)
    {
      Wider(parts[k], own, wide, depth);
    }
  }

  method CopyFields(fields: map<string, Cell>, heap: set<Cell>, depth: nat)
    returns (parts: map<string, Cell>, own: set<Cell>)
    requires forall k <- fields :: Nested(fields[k], heap, depth)
    ensures fresh(own) && parts.Keys == fields.Keys
    ensures forall k <- parts ::
              Nested(parts[k], own, depth) && Content(parts[k], own, depth) == Content(fields[k], heap, depth)
    decreases depth, 1
  {
    hide Content, Nested, SortedKeys, Ascending;
    var keys := SortedKeys(fields.Keys);
    parts, own := map[], {};
    for i := 0 to |keys|
      invariant fresh(own)
      invariant forall k :: k in parts <==> k in keys[..i]
      invariant forall k <- parts :: k in fields
      invariant forall k <- parts ::
                  Nested(parts[k], own, depth) && Content(parts[k], own, depth) == Content(fields[k], heap, depth)
    {
      assert keys[i] in keys;
      assert keys[..i + 1] == keys[..i] + [keys[i]];
      var part, below := Copy(fields[keys[i]], heap, depth);
      FieldsWider(parts, own, own + below, depth);
      Wider(part, below, own + below, depth);
      parts, own := parts[keys[i] := part], own + below;
    }
    assert keys[..|keys|] == keys;
  }

  // ----- dicts and interference -----

  /** A dict as user code knows it: its root object, and the objects it may lead to. */
  datatype Mutable = Mutable(root: Cell, cells: set<Cell>, depth: nat) {
    predicate Valid()
      reads root, cells
    {
      Nested(root, cells, depth) && root.form.Fields?
    }

    /** The delta it holds right now; nothing once it is no finite dict any more. */
    function Reading(): Delta
      reads root, cells
    {
      if Valid() then Content(root, cells, depth).entries else map[]
    }
  }

  method DeepCopy(delta: Mutable) returns (copy: Mutable)
    requires delta.Valid()
    ensures fresh(copy.cells) && copy.Valid() && copy.Reading() == delta.Reading()
  {
    var root, own := Copy(delta.root, delta.cells, delta.depth);
    copy := Mutable(root, own, delta.depth);
  }

  /** One assignment by another task, to any object and of any form. */
  datatype Edit = Edit(cell: Cell, form: Form)

  function Targets(edits: seq<Edit>): set<Cell> { set e | e in edits :: e.cell }

  /** While the engine awaits, other tasks rewrite whatever they can reach. */
  method Interfere(edits: seq<Edit>)
    modifies Targets(edits)
    ensures edits != [] ==> edits[|edits| - 1].cell.form == edits[|edits| - 1].form
  {
    for i := 0 to |edits|
      invariant i > 0 ==> edits[i - 1].cell.form == edits[i - 1].form
    {
      assert edits[i] in edits;
      edits[i].cell.form := edits[i].form;
    }
  }

  /** None of the edits reaches the dict. */
  ghost predicate Private(d: Mutable, edits: seq<Edit>) { d.root in d.cells && d.cells !! Targets(edits) }

  // ----- publication -----

  /** `_commit`: copy failures and deltas that are no canonical JSON raise before the gate
      is asked, and the digest is taken before the await. */
  method AskCommit(gate: Gate, log: Log, boundary: CommitBoundary, nodes: seq<string>, at: nat, source: Option<string>,
                   batch: Option<string>, snapshot: Mutable, state: State, node: string, steps: nat, edits: seq<Edit>)
    returns (r: Flow<()>, request: CommitRequest)
    requires Private(snapshot, edits)
    modifies Targets(edits)
    ensures snapshot.Reading() == old(snapshot.Reading())
    ensures request == CommitRequest(boundary, nodes, at, source, Sha256(snapshot.Reading()), batch)
    ensures r == Commit(gate, log, request, state, node, steps)
    ensures edits != [] ==> edits[|edits| - 1].cell.form == edits[|edits| - 1].form
  {
    hide Mutable.Reading, Commit;
    request := CommitRequest(boundary, nodes, at, source, Sha256(snapshot.Reading()), batch);
    r := Commit(gate, log, request, state, node, steps);
    Interfere(edits);
  }

  /** `_after_commit`, awaited as well. */
  method Settle(gate: Gate, log: Log, request: CommitRequest, snapshot: Mutable, edits: seq<Edit>)
    returns (settled: Log, failure: Option<Error>)
    requires Private(snapshot, edits)
    modifies Targets(edits)
    ensures snapshot.Reading() == old(snapshot.Reading())
    ensures (settled, failure) == AfterCommit(gate, log, request)
    ensures edits != [] ==> edits[|edits| - 1].cell.form == edits[|edits| - 1].form
  {
    hide Mutable.Reading;
    var r := AfterCommit(gate, log, request);
    settled, failure := r.0, r.1;
    Interfere(edits);
  }

  /** A node's gated publication. Whatever other tasks do during both awaits, to the returned
      dict, to anything nested in it or to anything else: the run goes on exactly as if the
      delta had been immutable from the moment it was returned. So the digests of both
      requests bind the content that is merged, and a failing hook raises only after the
      publication was observed. */
  method PublishShared(gate: Gate, running: State, steps: nat, node: string, delta: Mutable, log: Log,
                       first: seq<Edit>, second: seq<Edit>) returns (r: Flow<State>)
    requires gate.Gate? && delta.Valid()
    modifies Targets(first), Targets(second)
    ensures r == PublishNode(gate, running, steps, node, old(delta.Reading()), log)
  {
    hide Commit, AfterCommit, Mutable.Reading;
    var snapshot := DeepCopy(delta);
    var allowed, request := AskCommit(gate, log, NodeCommit, [node], steps, None, None, snapshot, running, node, steps,
                                      first);
    if !allowed.Go? { return allowed.PropagateFailure<State>(); }
    var published := Merge(running, snapshot.Reading());
    var settled, failure := Settle(gate, allowed.log, request, snapshot, second);
    var ended := settled + [Observed(NodeEnd(node, steps + 1, published, snapshot.Reading()))];
    if failure.Some? { return Raise(ended, failure.value); }
    return Go(ended, published);
  }

  /** Everything the dicts may lead to. */
  function Footprint(dicts: seq<Mutable>): set<Cell> {
    if dicts == [] then {} else
    var last := dicts[|dicts| - 1];
    Footprint(dicts[..|dicts| - 1]) + last.cells + {last.root}
  }

  /** What the branches' own dicts hold right now. */
  function Announced(names: seq<string>, dicts: seq<Mutable>): (items: seq<Contribution>)
    requires |names| == |dicts|
    reads Footprint(dicts)
    ensures |items| == |names| && Names(items) == names
  {
    if names == [] then [] else
    var n := |names| - 1;
    var items := Announced(names[..n], dicts[..n]) + [Contribution(names[n], dicts[n].Reading())];
    assert Names(items) == names;
    items
  }

  lemma {:induction false} AnnouncedAt(names: seq<string>, dicts: seq<Mutable>, i: nat)
    requires |names| == |dicts| && i < |names|
    ensures Announced(names, dicts)[i] == Contribution(names[i], dicts[i].Reading())
  {
    hide Mutable.Reading;
    var n := |names| - 1;
    if i < n { AnnouncedAt(names[..n], dicts[..n], i); }
  }

  /** What the declared reducers make of what the branches' dicts hold right now. */
  function FoldNow(ctx: Ctx, region: Region, state: State, completed: nat, names: seq<string>, dicts: seq<Mutable>,
                   log: Log): Flow<Fold>
    requires |names| == |dicts|
    reads Footprint(dicts)
  {
    var items := Announced(names, dicts);
    FoldKeys(ctx, region, state, completed, items, SortedKeys(Keys(items)), Fold(map[], map[]), log)
  }

  /** A region's gated publication after its fold. The merged delta may share objects, at any
      depth, with the branches' dicts and with reducers; digest, committed state and announced
      delta agree on what the fold made of the dicts when it was hashed. The branches' own
      dicts are announced uncopied: their ends show what those hold after both awaits, which
      is what was folded wherever no edit reached. */
  method PublishRegionShared(ctx: Ctx, region: Region, edge: Edge, state: State, completed: nat, names: seq<string>,
                             dicts: seq<Mutable>, merged: Mutable, log: Log, first: seq<Edit>, second: seq<Edit>)
    returns (r: Flow<Progress>)
    requires edge.FanOut? && ctx.gate.Gate? && merged.Valid() && |names| == |dicts|
    requires var f := FoldNow(ctx, region, state, completed, names, dicts, log);
             f.Go? && merged.Reading() == f.value.merged
    modifies Targets(first), Targets(second)
    ensures var f, shown := old(FoldNow(ctx, region, state, completed, names, dicts, log)), Announced(names, dicts);
            && r == CommitRegion(ctx, region, edge, state, completed, shown, f.value, f.log)
            && forall i :: 0 <= i < |names| ==>
                 && shown[i] == Contribution(names[i], dicts[i].Reading())
                 && (dicts[i].cells + {dicts[i].root} !! Targets(first) + Targets(second) ==>
                       shown[i] == old(Announced(names, dicts))[i])
    ensures first != [] && second == [] ==> first[|first| - 1].cell.form == first[|first| - 1].form
  {
    hide Commit, AfterCommit, Mutable.Reading, Announced, EndEvents, FoldKeys;
    var folded := FoldNow(ctx, region, state, completed, names, dicts, log);
    ghost var before := Announced(names, dicts);
    forall i | 0 <= i < |names| ensures before[i] == Contribution(names[i], dicts[i].Reading()) {
      AnnouncedAt(names, dicts, i);
    }
    var snapshot := DeepCopy(merged);
    var allowed, request := AskCommit(ctx.gate, folded.log, RegionCommit, names, completed, Some(region.source),
                                      Some(region.batch), snapshot, state, region.source, region.steps, first);
    if allowed.Go? {
      var committed := Merge(region.snapshot, snapshot.Reading());
      var settled, failure := Settle(ctx.gate, allowed.log, request, snapshot, second);
      var commit := SuperstepCommit(region.source, edge.next, completed, names, committed, snapshot.Reading(),
                                    folded.value.provenance);
      var published := settled + EndEvents(Announced(names, dicts), completed, committed) + [Observed(commit)];
      r := if failure.Some? then Raise(published, failure.value) else Go(published, Progress(committed, completed));
    } else {
      r := allowed.PropagateFailure<Progress>();
    }
    forall i | 0 <= i < |names| ensures Announced(names, dicts)[i] == Contribution(names[i], dicts[i].Reading()) {
      AnnouncedAt(names, dicts, i);
    }
  }

  const ONE: Delta := map["x" := Num(1.0)]
  const TWO: Delta := map["x" := Num(2.0)]

  /** Without declared reducers the only write to `x` is folded. */
  lemma OneIsFolded(ctx: Ctx, region: Region, state: State, completed: nat, log: Log)
    requires ctx.graph.reducers == map[]
    ensures var items := [Contribution("a", ONE), Contribution("b", map[])];
            FoldKeys(ctx, region, state, completed, items, SortedKeys(Keys(items)), Fold(map[], map[]), log)
            == Go(log, Fold(ONE, map["x" := ["a"]]))
  {
    hide SortedKeys, Ascending;
    var items := [Contribution("a", ONE), Contribution("b", map[])];
    var rest := [Contribution("b", map[])];
    assert items[1..] == rest && rest[1..] == [] && ONE.Keys == {"x"};
    assert Keys(rest) == {} && Writes(rest, "x") == [];
    assert Keys(items) == {"x"} && Writes(items, "x") == [Write("a", Num(1.0))];
    OneKey("x");
    OneWrite("x", "a", Num(1.0), Field(region.snapshot, "x"));
    assert ["x"][1..] == [];
  }

  lemma OneWrite(key: string, branch: string, v: Value, base: Value)
    ensures ReduceField(key, RejectConflict, base, [Write(branch, v)]) == Success(v)
    ensures Branches([Write(branch, v)]) == [branch]
  {
  }

  lemma OneKey(key: string)
    ensures SortedKeys({key}) == [key]
  {
    var keys := SortedKeys({key});
    SortedKeysCount({key});
    assert keys[0] in keys;
  }

  /** The events a region whose commit is allowed shows. */
  lemma AllowedShows(ctx: Ctx, region: Region, edge: Edge, state: State, completed: nat, items: seq<Contribution>,
                     fold: Fold, log: Log, i: nat)
    requires edge.FanOut? && ctx.gate.Gate? && i < |items| && JsonDelta(fold.merged) && CopyableDelta(fold.merged)
    requires forall l, q :: ctx.gate.commit(l, q) == Says(Allow)
    ensures var shown := CommitRegion(ctx, region, edge, state, completed, items, fold, log).log;
            var committed := Merge(region.snapshot, fold.merged);
            && Observed(NodeEnd(items[i].branch, completed, committed, items[i].delta)) in shown
            && Observed(SuperstepCommit(region.source, edge.next, completed, Names(items), committed, fold.merged,
                                        fold.provenance)) in shown
  {
    hide AfterCommit, Names;
    var committed := Merge(region.snapshot, fold.merged);
    var events := EndEvents(items, completed, committed);
    assert events[i] in events;
  }

  /** The ends of a region can show what was never folded: the first of two branches delivers
      `x` as 1, and 1 is hashed, committed and announced; another task sets it to 2 while the
      gate, which allows everything, is asked, and the branch's end shows 2. */
  method EndShowsLaterValue(ctx: Ctx, region: Region, edge: Edge, state: State, completed: nat, log: Log)
    returns (r: Flow<Progress>)
    requires edge.FanOut? && ctx.gate.Gate? && (forall l, q :: ctx.gate.commit(l, q) == Says(Allow))
    requires region.branches == ["a", "b"] && ctx.graph.reducers == map[]
    ensures var committed := Merge(region.snapshot, ONE);
            && committed["x"] == Num(1.0) && TWO["x"] == Num(2.0)
            && Observed(NodeEnd("a", completed, committed, TWO)) in r.log
            && Observed(SuperstepCommit(region.source, edge.next, completed, ["a", "b"], committed, ONE,
                                        map["x" := ["a"]])) in r.log
  {
    hide CommitRegion, Content, Nested, Mutable.Reading, Announced, FoldNow, Merge;
    var leaf := new Cell(Atom(Num(1.0)));
    var root := new Cell(Fields(map["x" := leaf]));
    var none := new Cell(Fields(map[]));
    var dict, other := Mutable(root, {leaf, root}, 1), Mutable(none, {none}, 1);
    OneField(dict, leaf, Num(1.0));
    NoField(other);
    var merged := DeepCopy(dict);
    var edit := Edit(leaf, Atom(Num(2.0)));
    assert Targets([edit]) == {leaf} && Targets([]) == {};
    TwoFold(ctx, region, state, completed, dict, other, log);
    r := PublishRegionShared(ctx, region, edge, state, completed, ["a", "b"], [dict, other], merged, log, [edit], []);
    OneField(dict, leaf, Num(2.0));
    NoField(other);
    AnnouncedTwo(dict, other);
    TwoIsShown(ctx, region, edge, state, completed, log);
  }

  lemma TwoFold(ctx: Ctx, region: Region, state: State, completed: nat, first: Mutable, second: Mutable, log: Log)
    requires first.Reading() == ONE && second.Reading() == map[] && ctx.graph.reducers == map[]
    ensures FoldNow(ctx, region, state, completed, ["a", "b"], [first, second], log)
         == Go(log, Fold(ONE, map["x" := ["a"]]))
  {
    hide FoldKeys, Keys, Announced, Mutable.Reading;
    AnnouncedTwo(first, second);
    OneIsFolded(ctx, region, state, completed, log);
  }

  lemma TwoIsShown(ctx: Ctx, region: Region, edge: Edge, state: State, completed: nat, log: Log)
    requires edge.FanOut? && ctx.gate.Gate? && (forall l, q :: ctx.gate.commit(l, q) == Says(Allow))
    ensures var shown := [Contribution("a", TWO), Contribution("b", map[])];
            var r := CommitRegion(ctx, region, edge, state, completed, shown, Fold(ONE, map["x" := ["a"]]), log);
            var committed := Merge(region.snapshot, ONE);
            && committed["x"] == Num(1.0) && TWO["x"] == Num(2.0)
            && Observed(NodeEnd("a", completed, committed, TWO)) in r.log
            && Observed(SuperstepCommit(region.source, edge.next, completed, ["a", "b"], committed, ONE,
                                        map["x" := ["a"]])) in r.log
  {
    hide CommitRegion;
    var shown := [Contribution("a", TWO), Contribution("b", map[])];
    AllowedShows(ctx, region, edge, state, completed, shown, Fold(ONE, map["x" := ["a"]]), log, 0);
    assert Names(shown) == ["a", "b"];
  }

  lemma AnnouncedTwo(first: Mutable, second: Mutable)
    ensures Announced(["a", "b"], [first, second])
         == [Contribution("a", first.Reading()), Contribution("b", second.Reading())]
  {
    hide Mutable.Reading;
    AnnouncedAt(["a", "b"], [first, second], 0);
    AnnouncedAt(["a", "b"], [first, second], 1);
  }

  lemma NoField(dict: Mutable)
    requires dict.root.form == Fields(map[]) && dict.cells == {dict.root} && dict.depth == 1
    ensures dict.Valid() && dict.Reading() == map[]
  {
    hide SortedKeys, Ascending;
    var fields: map<string, Cell> := map[];
    assert ContentFields(fields, SortedKeys(fields.Keys), dict.cells, 0) == map[];
  }

  lemma OneField(dict: Mutable, leaf: Cell, v: Value)
    requires dict.root.form == Fields(map["x" := leaf]) && leaf.form == Atom(v)
    requires dict.cells == {leaf, dict.root} && dict.depth == 1 && leaf != dict.root
    ensures dict.Valid() && dict.Reading() == map["x" := v]
  {
    hide SortedKeys, Ascending;
    assert Nested(leaf, dict.cells, 0);
    var fields := map["x" := leaf];
    assert ContentFields(fields, SortedKeys(fields.Keys), dict.cells, 0) == map["x" := v];
  }
}
