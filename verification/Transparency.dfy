/** When an always-allowing gate is invisible, said of the graph: callables that deliver
    JSON suffice, and one that does not is enough to be seen. */
module Transparency {
  import opened Values
  import opened Protocol
  import opened Reducers
  import opened Topology
  import opened Engine
  import opened Refinement
  import opened Origins
  import Grammar
  import Consequences
  import ReducerLaws

  /** Every node, and every custom reducer, returns canonical JSON. */
  ghost predicate JsonGraph(graph: Graph) {
    && (forall n, s :: n in graph.nodes && graph.nodes[n].call(s).Delivers? ==> JsonDelta(graph.nodes[n].call(s).delta))
    && (forall k <- graph.reducers :: JsonReducer(graph.reducers[k]))
  }

  ghost predicate JsonReducer(r: Reducer) {
    r.Custom? ==> forall base, vs :: r.fn(base, vs).Folds? ==> Json(r.fn(base, vs).value)
  }

  // ----- folds of JSON -----

  predicate JsonWrites(ws: seq<Write>) { forall w <- ws :: Json(w.value) }

  lemma {:induction false} FlattenJson(ws: seq<Write>)
    requires AllLists(ws) && JsonWrites(ws)
    ensures forall x <- Flatten(ws) :: Json(x)
  {
    if ws != [] {
      var front, last := ws[..|ws| - 1], ws[|ws| - 1];
      assert last in ws && forall w <- front :: w in ws;
      FlattenJson(front);
    }
  }

  /** The built-in reducers make JSON of JSON. */
  lemma ReducedIsJson(field: string, reducer: Reducer, base: Value, ws: seq<Write>)
    requires ws != [] && JsonWrites(ws) && Json(base) && JsonReducer(reducer)
    ensures var r := ReduceField(field, reducer, base, ws); r.Success? ==> Json(r.value)
  {
    hide UnionDictSpec, Extend;
    var r := ReduceField(field, reducer, base, ws);
    if r.Success? {
      match reducer
      case Concat => FlattenJson(ws);
      case Union => UnionIsJson(field, base, ws);
      case _ =>
        assert ws[0] in ws && ws[|ws| - 1] in ws;
    }
  }

  lemma UnionIsJson(field: string, base: Value, ws: seq<Write>)
    requires ws != [] && JsonWrites(ws) && Json(base)
    ensures var r := UnionSpec(field, base, ws); r.Success? ==> Json(r.value)
  {
    hide UnionDictSpec, Extend;
    if AllDicts(ws) {
      ReducerLaws.DictUnionLaw(field, base, ws);
      var r := UnionDictSpec(field, base, ws);
      if r.Success? {
        forall k | k in r.value ensures Json(r.value[k]) {
          if ReducerLaws.Wrote(ws, k) {
            var i :| 0 <= i < |ws| && k in ws[i].value.entries;
            assert ws[i] in ws && r.value[k] == ws[i].value.entries[k];
          }
        }
      }
    } else if AllLists(ws) && BaseList(field, base).Success? {
      var start := BaseList(field, base).value;
      FlattenJson(ws);
      ReducerLaws.ExtendHolds(start, Flatten(ws));
    }
  }

  lemma {:induction false} WritesAreJson(items: seq<Contribution>, key: string)
    requires forall c <- items :: JsonDelta(c.delta)
    ensures JsonWrites(Writes(items, key))
  {
    if items != [] {
      assert items[0] in items && forall c <- items[1..] :: c in items;
      WritesAreJson(items[1..], key);
    }
  }

  lemma FoldedIsJson(graph: Graph, snapshot: State, items: seq<Contribution>, merged: Delta)
    requires JsonGraph(graph) && JsonDelta(snapshot) && FoldedFrom(graph, snapshot, items, merged)
    requires forall c <- items :: JsonDelta(c.delta)
    ensures JsonDelta(merged)
  {
    hide ReduceField, Writes, JsonReducer;
    forall k | k in merged ensures Json(merged[k]) {
      assert FieldFolds(graph, snapshot, items, k, merged[k]);
      WritesAreJson(items, k);
      PlainReducer(k, snapshot);
      ReducedIsJson(k, ReducerFor(graph, k), Field(snapshot, k), Writes(items, k));
    }
  }

  lemma PlainReducer(key: string, snapshot: State)
    requires JsonDelta(snapshot)
    ensures JsonReducer(RejectConflict) && Json(Field(snapshot, key))
  {
  }

  // ----- states of JSON -----

  lemma VisitIsJson(s: State, names: seq<string>)
    requires JsonDelta(s)
    ensures Visit(s, names).Some? ==> JsonDelta(Visit(s, names).value)
  {
    if Visit(s, names).Some? {
      UnpackIsJson(s[VISITED]);
      var before := Unpack(s[VISITED]).value;
      assert forall x <- before + Strs(names) :: Json(x);
      assert Json(List(before + Strs(names)));
    }
  }

  lemma UnpackIsJson(v: Value)
    requires Json(v)
    ensures Unpack(v).Some? ==> forall x <- Unpack(v).value :: Json(x)
  {
  }

  lemma MergeIsJson(s: State, d: Delta)
    requires JsonDelta(s) && JsonDelta(d)
    ensures JsonDelta(Merge(s, d))
  {
  }

  /** The states a consumer's phase holds. */
  predicate JsonPhase(p: Grammar.Phase) {
    match p
    case Begin(s) => JsonDelta(s)
    case Heading(_, s, _) => JsonDelta(s)
    case Inside(_, s, _) => JsonDelta(s)
    case Rested(_, s, _, _) => JsonDelta(s)
    case Opening(_, _, base, snapshot, _, _, _) => JsonDelta(base) && JsonDelta(snapshot)
    case Closing(_, _, snapshot, state, _, _, _) => JsonDelta(snapshot)
    case _ => true
  }

  /** What an observation publishes. */
  predicate JsonShown(o: Observation) { o.NodeEnd? || o.SuperstepCommit? ==> JsonDelta(o.delta) }

  lemma PhaseStep(max: int, p: Grammar.Phase, o: Observation)
    requires JsonPhase(p) && JsonShown(o)
    ensures JsonPhase(Grammar.Next(max, p, o))
    ensures Grammar.Next(max, p, o) != Grammar.Bad && o.SuperstepStart? ==> JsonDelta(o.state)
  {
    hide Json, JsonDelta, Grammar.FoldShape;
    match o
    case NodeStart(node, _, _) =>
      if p.Heading? { VisitIsJson(p.state, [node]); }
    case SuperstepStart(_, _, _, branches, _) =>
      if p.Rested? { VisitIsJson(p.state, branches); }
    case NodeEnd(_, _, _, delta) =>
      if p.Inside? { MergeIsJson(p.state, delta); }
    case SuperstepCommit(_, _, _, _, _, merged, _) =>
      if p.Closing? { MergeIsJson(p.snapshot, merged); }
    case _ =>
  }

  lemma {:induction false} EndsAreJson(graph: Graph, log: Log)
    requires JsonGraph(graph) && AllGrounded(graph, log)
    ensures forall c <- Ends(log) :: JsonDelta(c.delta)
  {
    if log != [] {
      var last := log[|log| - 1];
      if last.Observed? && last.obs.NodeEnd? {
        EndsAreJson(graph, log[..|log| - 1]);
        assert Delivered(graph, Given(log[..|log| - 1]), last.obs.node, last.obs.delta);
      }
    }
  }

  /** Along a grounded log that speaks the grammar, every state and every published delta is JSON. */
  lemma {:induction false} LogIsJson(graph: Graph, initial: State, log: Log)
    requires JsonGraph(graph) && JsonDelta(initial) && AllGrounded(graph, log)
    requires forall n :: 0 <= n <= |log| ==>
               Grammar.Track(graph.maxSteps, Grammar.Begin(initial), log[..n]) != Grammar.Bad
    ensures JsonPhase(Grammar.Track(graph.maxSteps, Grammar.Begin(initial), log))
    ensures Snapshot(log).Some? ==> JsonDelta(Snapshot(log).value)
    ensures forall o <- Obs(log) :: JsonShown(o)
  {
    hide JsonGraph, JsonDelta, JsonPhase, Grammar.Next, Grammar.Track, FoldedFrom, Ends;
    var max, p := graph.maxSteps, Grammar.Begin(initial);
    if log == [] {
      Grammar.TrackNothing(max, p);
      assert JsonPhase(p) by { BeginIsJson(initial); }
    } else {
      var front, e := log[..|log| - 1], log[|log| - 1];
      assert log == front + [e];
      forall n | 0 <= n <= |front| ensures Grammar.Track(max, p, front[..n]) != Grammar.Bad {
        assert front[..n] == log[..n];
      }
      LogIsJson(graph, initial, front);
      Grammar.Snoc(max, p, front, e);
      ObsSnoc(front, e);
      SnocReads(front, e, "", 0);
      assert log[..|log|] == log;
      if e.Observed? {
        ShownIsJson(graph, front, e.obs);
        PhaseStep(max, Grammar.Track(max, p, front), e.obs);
      }
    }
  }

  lemma BeginIsJson(s: State)
    requires JsonDelta(s)
    ensures JsonPhase(Grammar.Begin(s))
  {
  }

  lemma ShownIsJson(graph: Graph, log: Log, o: Observation)
    requires JsonGraph(graph) && AllGrounded(graph, log) && Grounded(graph, log, Observed(o))
    requires Snapshot(log).Some? ==> JsonDelta(Snapshot(log).value)
    ensures JsonShown(o)
  {
    hide JsonDelta, FoldedFrom, AllGrounded, Snapshot, Ends;
    if o.SuperstepCommit? {
      EndsAreJson(graph, log);
      FoldedIsJson(graph, Snapshot(log).value, Ends(log), o.delta);
    }
  }

  lemma {:induction false} ShownIsHashed(obs: seq<Observation>)
    requires forall o <- obs :: JsonShown(o)
    ensures AllJson(obs)
  {
    if obs != [] {
      var front := obs[..|obs| - 1];
      assert forall o <- front :: o in obs;
      assert obs[|obs| - 1] in obs;
      ShownIsHashed(front);
    }
  }

  lemma TrackPrefix(ctx: Ctx, state: State, n: nat)
    requires ctx.graph.Valid() && n <= |Run(ctx, state).log|
    ensures Grammar.Track(ctx.graph.maxSteps, Grammar.Begin(state), Run(ctx, state).log[..n]) != Grammar.Bad
  {
    hide Run, Obs, Grammar.Track, Grammar.Scan, Grammar.Next, Graph.Valid;
    var log, max, p := Run(ctx, state).log, ctx.graph.maxSteps, Grammar.Begin(state);
    Grammar.RunObeysGrammar(ctx, state);
    Grammar.TrackIsScan(max, p, log[..n]);
    ObsGrows(log[..n], log);
    var k := |Obs(log[..n])|;
    Consequences.ScanPrefix(max, p, Obs(log), k);
    assert Obs(log[..n]) == Obs(log)[..k];
  }

  /** A graph of JSON publishes JSON only, under every gate and interleaving. */
  lemma JsonGraphsPublishJson(ctx: Ctx, state: State)
    requires ctx.graph.Valid() && JsonGraph(ctx.graph) && JsonDelta(state)
    ensures AllJson(Obs(Run(ctx, state).log))
  {
    hide Run, Obs, JsonGraph, JsonDelta, AllGrounded, Grammar.Track, Hashed, Graph.Valid;
    RunIsGrounded(ctx, state);
    var log := Run(ctx, state).log;
    forall n | 0 <= n <= |log|
      ensures Grammar.Track(ctx.graph.maxSteps, Grammar.Begin(state), log[..n]) != Grammar.Bad
    {
      TrackPrefix(ctx, state, n);
    }
    LogIsJson(ctx.graph, state, log);
    ShownIsHashed(Obs(log));
  }

  /** The promise of the gate, on a condition of the graph: if nodes and custom reducers
      return JSON and the initial state is JSON, then a gate that allows everything and
      whose hooks complete is invisible, whatever the two interleavings. */
  lemma LenientGateIsInvisibleOnJson(ctx: Ctx, pick: Log -> nat, state: State)
    requires Lenient(ctx.gate) && ctx.graph.Valid() && JsonGraph(ctx.graph) && JsonDelta(state)
    ensures Same(Run(ctx, state), Run(Ungated(ctx, pick), state))
  {
    hide Run, Obs, JsonGraph, JsonDelta, Same, AllJson, Lenient, Graph.Valid;
    JsonGraphsPublishJson(Ungated(ctx, pick), state);
    LenientGateIsInvisible(ctx, pick, state);
  }

  // ----- one delta that is no JSON -----

  const HANDLE: Delta := map["x" := Opaque(0, true)]

  /** One node that delivers a value JSON has no form for. */
  function Secretive(): Graph {
    Graph(map["a" := Node(s => Delivers(HANDLE), None)], map[START := Static("a")], map[], 1)
  }

  lemma EntryIsA(ctx: Ctx, state: State)
    requires ctx.graph == Secretive()
    ensures var selected := Route(ctx, START, ctx.graph.EdgeFrom(START), state, 0, []);
            selected.Go? && selected.value == "a"
  {
    assert |END| != |START| && |END| != |"a"|;
  }

  /** Ungated, the node publishes, and the missing edge leads to END. */
  lemma FreeTurn(ctx: Ctx, state: State, log: Log)
    requires ctx.graph == Secretive() && ctx.gate.NoGate? && Visit(state, ["a"]).Some?
    ensures var turn := TakeTurn(ctx, state, 0, "a", log); turn.Go? && turn.value.target == END
  {
    hide Visit;
    assert |END| != |START| && |END| != |"a"|;
    assert CopyableDelta(HANDLE);
  }

  lemma LenientGuard(gate: Gate, log: Log, request: DispatchRequest, state: State, node: string, steps: nat)
    requires Lenient(gate)
    ensures Guard(gate, log, request, state, node, steps).Go?
  {
  }

  /** Gated, the commit cannot hash what the node delivered. */
  lemma GatedTurn(ctx: Ctx, state: State, log: Log)
    requires ctx.graph == Secretive() && Lenient(ctx.gate) && Visit(state, ["a"]).Some?
    ensures var turn := TakeTurn(ctx, state, 0, "a", log); turn.Raise? && turn.error == NotJson
  {
    hide Visit, Guard;
    var running := Visit(state, ["a"]).value;
    LenientGuard(ctx.gate, log + [Observed(NodeStart("a", 0, running))], NodeSite("a", 0), running, "a", 0);
    assert "x" in HANDLE && !Json(HANDLE["x"]);
    assert CopyableDelta(HANDLE) && !JsonDelta(HANDLE);
    var ended := RunNode(ctx, state, 0, "a", log);
    assert ended.Raise? && ended.error == NotJson;
  }

  /** An always-allowing gate shows: under it the run raises, and without it the run ends. */
  lemma LenientGateIsSeen(ctx: Ctx, pick: Log -> nat, state: State)
    requires Lenient(ctx.gate) && ctx.graph == Secretive() && Visit(state, ["a"]).Some?
    ensures Run(ctx, state).Raise? && Run(ctx, state).error == NotJson
    ensures Run(Ungated(ctx, pick), state).Ended? && !Same(Run(ctx, state), Run(Ungated(ctx, pick), state))
  {
    hide Run, Loop, TakeTurn, Route, Lenient;
    assert |END| != |"a"|;
    var free := Ungated(ctx, pick);
    RunUnfolds(ctx, state);
    EntryIsA(ctx, state);
    var gated := Route(ctx, START, ctx.graph.EdgeFrom(START), state, 0, []);
    GatedTurn(ctx, state, gated.log);
    LoopUnfolds(ctx, state, 0, "a", START, gated.log);
    RunUnfolds(free, state);
    EntryIsA(free, state);
    var selected := Route(free, START, free.graph.EdgeFrom(START), state, 0, []);
    FreeTurn(free, state, selected.log);
    var turn := TakeTurn(free, state, 0, "a", selected.log);
    LoopUnfolds(free, state, 0, "a", START, selected.log);
    LoopUnfolds(free, turn.value.state, turn.value.steps, END, "a", turn.log);
  }
}
