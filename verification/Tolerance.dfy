/** Which graphs can call more nodes than their budget of steps: those whose edges lead to a
    region that tolerates a failed branch and goes on to a node. */
module Tolerance {
  import opened Values
  import opened Ordering
  import opened Topology
  import opened Engine
  import opened Consequences
  import opened Ledger
  import opened Spec
  import opened Builder
  import opened Lint
  import opened Validation
  import opened Assurance
  import opened Completion
  import opened Codec
  import JoinLaws
  import Overrun

  /** The region of `a` may commit without all of its branches, and a node follows it. */
  predicate Loose(graph: Graph, a: string) {
    var edge := graph.EdgeFrom(a);
    edge.FanOut? && !Strict(edge) && edge.next != END
  }

  /** The region of `a` is followed by END. */
  predicate LeadsToEnd(graph: Graph, a: string) { graph.EdgeFrom(a).FanOut? && graph.EdgeFrom(a).next == END }

  /** The scheduler's edges lead to a loose region. */
  ghost predicate LooseReached(graph: Graph) {
    exists path :: Walk(graph, path) && Loose(graph, path[|path| - 1])
  }

  // ----- without a loose region the budget is kept -----

  lemma RouteMoves(ctx: Ctx, source: string, state: State, steps: nat, log: Log)
    requires FaithfulGraph(ctx.graph)
    ensures var edge := ctx.graph.EdgeFrom(source);
            var f := Route(ctx, source, if edge.FanOut? then Static(edge.next) else edge, state, steps, log);
            f.Go? ==> Moves(ctx.graph, source, f.value)
  {
    hide Guard;
    var edge := ctx.graph.EdgeFrom(source);
    if source in ctx.graph.edges { assert Faithful(ctx.graph.edges[source]); }
  }

  lemma TurnMoves(ctx: Ctx, state: State, steps: nat, node: string, log: Log)
    requires FaithfulGraph(ctx.graph)
    ensures var f := TakeTurn(ctx, state, steps, node, log); f.Go? ==> Moves(ctx.graph, node, f.value.target)
  {
    hide RunNode, RunRegion, Route, Moves, FaithfulGraph;
    var f := TakeTurn(ctx, state, steps, node, log);
    if f.Go? {
      var ended := RunNode(ctx, state, steps, node, log);
      var edge := ctx.graph.EdgeFrom(node);
      var committed := if edge.FanOut? then RunRegion(ctx, node, edge, ended.value, steps + 1, ended.log)
                       else Go(ended.log, Progress(ended.value, steps + 1));
      RouteMoves(ctx, node, committed.value.state, committed.value.steps, committed.log);
    }
  }

  /** A turn that is not loose adds no failure, or is the last one. */
  lemma TightTurn(ctx: Ctx, state: State, steps: nat, node: string, log: Log)
    requires ctx.graph.Valid() && !Loose(ctx.graph, node) && Faultless(log, steps) && steps < ctx.graph.maxSteps
    ensures var f := TakeTurn(ctx, state, steps, node, log);
            && Count(f.log).calls <= ctx.graph.maxSteps
            && (f.Go? ==>
                  && f.value.steps <= ctx.graph.maxSteps
                  && (!LeadsToEnd(ctx.graph, node) ==> Faultless(f.log, f.value.steps)))
  {
    hide TakeTurn, Count, Strict, Ascending;
    TurnCounts(ctx, state, steps, node, log);
    var edge := ctx.graph.EdgeFrom(node);
    if edge.FanOut? { assert ctx.graph.edges[node] == edge && ValidFanOut(edge); }
  }

  lemma {:induction false} LoopKeepsTheBudget(ctx: Ctx, path: seq<string>, state: State, steps: nat, last: string,
                                              log: Log)
    requires ctx.graph.Valid() && FaithfulGraph(ctx.graph) && !LooseReached(ctx.graph) && Walk(ctx.graph, path)
    requires path != [] && Faultless(log, steps) && steps <= Budget(ctx.graph.maxSteps)
    ensures Count(Loop(ctx, state, steps, path[|path| - 1], last, log).log).calls <= Budget(ctx.graph.maxSteps)
    decreases ctx.graph.maxSteps - steps
  {
    hide Loop, TakeTurn, Count, Strict, Ascending, Walk, Moves, FaithfulGraph, Loose, Graph.Valid;
    var node := path[|path| - 1];
    LoopUnfolds(ctx, state, steps, node, last, log);
    if node == END {
      CountSnoc(log, Observed(Done(steps, Merge(state, map[STATUS := Str("done")]))));
    } else if steps < ctx.graph.maxSteps {
      TightTurn(ctx, state, steps, node, log);
      TurnMoves(ctx, state, steps, node, log);
      var f := TakeTurn(ctx, state, steps, node, log);
      if f.Go? {
        WalkSnoc(ctx.graph, path, f.value.target);
        if Faultless(f.log, f.value.steps) {
          LoopKeepsTheBudget(ctx, path + [f.value.target], f.value.state, f.value.steps, node, f.log);
        } else {
          LastTurn(ctx, node, f.value.target, f.value.state, f.value.steps, f.log);
        }
      }
    }
  }

  /** A region that leads straight to END is followed by no call. */
  lemma LastTurn(ctx: Ctx, node: string, target: string, state: State, steps: nat, log: Log)
    requires LeadsToEnd(ctx.graph, node) && Moves(ctx.graph, node, target)
    ensures Count(Loop(ctx, state, steps, target, node, log).log).calls == Count(log).calls
  {
    hide Count, Loop;
    LoopUnfolds(ctx, state, steps, target, node, log);
    CountSnoc(log, Observed(Done(steps, Merge(state, map[STATUS := Str("done")]))));
  }

  /** Under every gate and interleaving, and from every state, no run of a graph whose edges
      lead to no loose region enters more node callables than its budget has steps. */
  lemma TightGraphsKeepTheBudget(ctx: Ctx, state: State)
    requires ctx.graph.Valid() && FaithfulGraph(ctx.graph) && !LooseReached(ctx.graph)
    ensures Count(Run(ctx, state).log).calls <= Budget(ctx.graph.maxSteps)
  {
    hide Run, Loop, Route, Count, FaithfulGraph, Graph.Valid, Balanced, Moves, LooseReached;
    RunUnfolds(ctx, state);
    var edge := ctx.graph.EdgeFrom(START);
    CountNothing();
    NothingBalances();
    RouteCounts(ctx, START, edge, state, 0, []);
    var selected := Route(ctx, START, edge, state, 0, []);
    if selected.Go? {
      EntryIsNoRegion(ctx, state);
      RouteMoves(ctx, START, state, 0, []);
      assert |START| == 9 && |END| == 7;
      assert Walk(ctx.graph, [START]);
      WalkSnoc(ctx.graph, [START], selected.value);
      LoopKeepsTheBudget(ctx, [START] + [selected.value], state, 0, START, selected.log);
    }
  }

  lemma EntryIsNoRegion(ctx: Ctx, state: State)
    ensures Route(ctx, START, ctx.graph.EdgeFrom(START), state, 0, []).Go? ==> !ctx.graph.EdgeFrom(START).FanOut?
  {
    hide Guard;
  }

  // ----- a loose region can be made to exceed it -----

  lemma {:induction false} CallsGrow(a: Log, b: Log)
    requires a <= b
    ensures Count(a).calls <= Count(b).calls
    decreases |b|
  {
    if a == b {
    } else {
      var front := b[..|b| - 1];
      assert b == front + [b[|b| - 1]];
      CallsGrow(a, front);
      CountSnoc(front, b[|b| - 1]);
    }
  }

  /** A node that is started without a gate is called. */
  lemma NodeIsCalled(ctx: Ctx, state: State, steps: nat, node: string, log: Log)
    requires ctx.gate.NoGate? && node in ctx.graph.nodes && state[VISITED].List?
    ensures Count(RunNode(ctx, state, steps, node, log).log).calls > Count(log).calls
  {
    hide Visit, PublishNode, InterruptRun, Count;
    Overrun.Visits(state, [node]);
    var started := log + [Observed(NodeStart(node, steps, Visit(state, [node]).value))];
    var entered := started + [Entered(NodeSite(node, steps))];
    assert entered <= RunNode(ctx, state, steps, node, log).log;
    CountSnoc(log, started[|log|]);
    CountSnoc(started, Entered(NodeSite(node, steps)));
    CallsGrow(entered, RunNode(ctx, state, steps, node, log).log);
  }

  lemma NextIsCalled(ctx: Ctx, state: State, steps: nat, node: string, last: string, log: Log)
    requires ctx.gate.NoGate? && node in ctx.graph.nodes && node != END && state[VISITED].List?
    requires steps < ctx.graph.maxSteps
    ensures Count(Loop(ctx, state, steps, node, last, log).log).calls > Count(log).calls
  {
    hide Loop, RunNode, RunRegion, Route, Count;
    LoopUnfolds(ctx, state, steps, node, last, log);
    NodeIsCalled(ctx, state, steps, node, log);
    CallsGrow(RunNode(ctx, state, steps, node, log).log, TakeTurn(ctx, state, steps, node, log).log);
    CallsGrow(TakeTurn(ctx, state, steps, node, log).log, Loop(ctx, state, steps, node, last, log).log);
  }

  /** The last branch of the region of `a`. */
  function LastBranch(graph: Graph, a: string): string
    requires graph.EdgeFrom(a).FanOut? && |graph.EdgeFrom(a).branches| > 0
  {
    graph.EdgeFrom(a).branches[|graph.EdgeFrom(a).branches| - 1]
  }

  lemma {:induction false} OneFails(settled: seq<Settlement>)
    requires |settled| > 0 && !settled[|settled| - 1].Ok?
    requires forall i :: 0 <= i < |settled| - 1 ==> settled[i].Ok?
    ensures JoinLaws.CountOk(settled) == |settled| - 1
  {
    QuietCount(settled[..|settled| - 1]);
  }

  /** A loose region commits although its last branch fails. */
  lemma LooseTolerates(graph: Graph, a: string)
    requires Sturdy(graph) && Loose(graph, a)
    ensures |graph.EdgeFrom(a).branches| >= 2
    ensures var edge := graph.EdgeFrom(a);
            var settled := TameOutcomes(edge.branches, {LastBranch(graph, a)});
            && JoinLaws.Satisfied(TameJoin(edge.join), edge.branches, settled)
            && JoinLaws.CountOk(settled) == |edge.branches| - 1
  {
    hide TameJoin, JoinLaws.Satisfied, JoinLaws.CountOk, StrLt;
    var edge := graph.EdgeFrom(a);
    assert ValidFanOut(graph.edges[a]);
    var settled := TameOutcomes(edge.branches, {LastBranch(graph, a)});
    forall i | 0 <= i < |edge.branches| - 1 ensures settled[i].Ok? {
      StrictlyBefore(edge.branches, i);
    }
    OneFails(settled);
    LooseSatisfies(edge.join, edge.branches, settled);
  }

  lemma StrictlyBefore(names: seq<string>, i: nat)
    requires Ascending(names) && i < |names| - 1
    ensures names[i] != names[|names| - 1]
  {
    StrOrder(names[i], names[|names| - 1], names[i]);
  }

  lemma LooseSatisfies(join: Join, branches: seq<string>, settled: seq<Settlement>)
    requires |settled| == |branches| >= 2 && settled[0].Ok? && JoinLaws.CountOk(settled) == |branches| - 1
    requires !join.JoinAll? && (join.Quorum? ==> join.n < |branches|)
    ensures JoinLaws.Satisfied(TameJoin(join), branches, settled)
  {
    hide JoinLaws.CountOk;
    assert settled[0] in settled;
    if join.CustomJoin? { FirstSatisfies(join, branches, settled); }
  }

  /** The turn of a loose region whose last branch fails leaves a step unused, and calls one
      node more than the budget has steps. */
  lemma LooseTurn(ctx: Ctx, graph: Graph, path: seq<string>, budget: nat, a: string, state: State, steps: nat,
                  last: string, log: Log)
    requires Sturdy(graph) && Loose(graph, a) && |graph.EdgeFrom(a).branches| > 0
    requires ctx.gate.NoGate? && ctx.graph == Tame(graph, path, budget, {LastBranch(graph, a)})
    requires a in graph.nodes && a != END && a != LastBranch(graph, a)
    requires state[VISITED].List? && Faultless(log, steps) && steps + Cost(graph, a) == budget
    ensures Count(Loop(ctx, state, steps, a, last, log).log).calls > budget
  {
    hide Loop, TakeTurn, Tame, Count, TameOutcomes, TameJoin, JoinLaws.Satisfied, JoinLaws.CountOk, Strict, Ascending;
    var faulty := {LastBranch(graph, a)};
    TameParts(graph, path, budget, faulty);
    LooseTolerates(graph, a);
    RegionTurn(ctx, graph, path, budget, faulty, a, state, steps, log);
    LoopUnfolds(ctx, state, steps, a, last, log);
    TurnCounts(ctx, state, steps, a, log);
    var f := TakeTurn(ctx, state, steps, a, log);
    NextIsCalled(ctx, f.value.state, f.value.steps, f.value.target, a, f.log);
  }

  /** Nothing on the way to a region calls its last branch. */
  lemma WayIsSpared(lib: Library, b: Blueprint, path: seq<string>, i: nat)
    requires b.Valid() && Describe(lib, b).Success? && WellFormed(lib, Describe(lib, b).value)
    requires Walk(b.Compiled(), path) && Unique(path) && 0 < i < |path| - 1
    requires var edge := b.Compiled().EdgeFrom(path[|path| - 1]); edge.FanOut? && |edge.branches| > 0
    ensures Spared(b.Compiled(), {LastBranch(b.Compiled(), path[|path| - 1])}, path[i])
  {
    hide Describe, WellFormed;
    var graph, a := b.Compiled(), path[|path| - 1];
    var c := LastBranch(graph, a);
    BranchHasNoEdge(lib, b, a, c);
    assert Moves(graph, path[i], path[i + 1]);
    assert |END| == 7;
    NoBlankNodes(lib, b);
    if path[i] == c {
      assert path[i + 1] == END;
      EndHasNoEdge(lib, b);
    }
    if graph.EdgeFrom(path[i]).FanOut? && c in graph.EdgeFrom(path[i]).branches {
      OneRegion(lib, b, a, path[i], c);
    }
  }

  lemma BranchHasNoEdge(lib: Library, b: Blueprint, a: string, c: string)
    requires b.Valid() && Describe(lib, b).Success? && WellFormed(lib, Describe(lib, b).value)
    requires b.Compiled().EdgeFrom(a).FanOut? && c in b.Compiled().EdgeFrom(a).branches
    ensures c !in b.edges.at && c != a
  {
    hide Describe, WellFormed, ValidFanOut;
    var edges, e := Describe(lib, b).value.edges, EdgeOf(Entry(a, b.edges.at[a]));
    if c in b.edges.at {
      var f := EdgeOf(Entry(c, b.edges.at[c]));
      DescribedEdges(lib, b, f);
      assert f in edges && c in Sources(edges);
    }
    assert c in e.declared;
    DescribedEdges(lib, b, e);
    WellFormedMembers(lib, Describe(lib, b).value, e);
  }

  lemma EndHasNoEdge(lib: Library, b: Blueprint)
    requires b.Valid() && Describe(lib, b).Success? && WellFormed(lib, Describe(lib, b).value)
    ensures END !in b.edges.at
  {
    hide Describe, WellFormed, ValidFanOut;
    NoBlankNodes(lib, b);
    DescribedNodes(lib, b);
    assert |END| == 7 && |START| == 9;
    if END in b.edges.at {
      var e := EdgeOf(Entry(END, b.edges.at[END]));
      DescribedEdges(lib, b, e);
      WellFormedMembers(lib, Describe(lib, b).value, e);
    }
  }

  lemma OneRegion(lib: Library, b: Blueprint, a: string, a': string, c: string)
    requires b.Valid() && Describe(lib, b).Success? && WellFormed(lib, Describe(lib, b).value)
    requires b.Compiled().EdgeFrom(a).FanOut? && c in b.Compiled().EdgeFrom(a).branches
    requires b.Compiled().EdgeFrom(a').FanOut? && c in b.Compiled().EdgeFrom(a').branches
    ensures a == a'
  {
    hide Describe, ValidFanOut, NodesFormed, EdgesFormed, JoinsFormed, RegionFormed;
    var e, e' := EdgeOf(Entry(a, b.edges.at[a])), EdgeOf(Entry(a', b.edges.at[a']));
    DescribedEdges(lib, b, e);
    DescribedEdges(lib, b, e');
    FanOutMembers(Describe(lib, b).value.edges);
    assert c in e.declared && c in e'.declared;
  }

  ghost predicate Overruns(ctx: Ctx, state: State) {
    Count(Run(ctx, state).log).calls > Budget(ctx.graph.maxSteps)
  }

  /** Some graph that is described alike, save for its budget, has a run that enters more node
      callables than its budget has steps, although routers that declare targets select no
      other. */
  ghost predicate SomeRunOverruns(b: Blueprint) {
    exists other: Blueprint, ctx: Ctx, state: State ::
      && other.Valid() && SameTopology(b.(maxSteps := other.maxSteps), other)
      && ctx.graph == other.Compiled() && FaithfulGraph(ctx.graph) && Overruns(ctx, state)
  }

  lemma LooseWalkOverruns(lib: Library, b: Blueprint, walk: seq<string>)
    requires b.Valid() && Describe(lib, b).Success? && WellFormed(lib, Describe(lib, b).value)
    requires Walk(b.Compiled(), walk) && Loose(b.Compiled(), walk[|walk| - 1])
    ensures SomeRunOverruns(b)
  {
    hide Describe, WellFormed, Tame, Run, Loop, Count, Length, SameTopology, FaithfulGraph, Ready, Spared, Strict,
         Overruns, Ascending, Balanced;
    var graph := b.Compiled();
    var path := SimpleWalk(graph, walk);
    var a := path[|path| - 1];
    WellFormedIsSturdy(lib, b);
    LooseTolerates(graph, a);
    var c := LastBranch(graph, a);
    BranchHasNoEdge(lib, b, a, c);
    EndHasNoEdge(lib, b);
    forall i | 0 < i < |path| - 1 ensures Spared(graph, {c}, path[i]) { WayIsSpared(lib, b, path, i); }
    var budget := Length(graph, path, 1) + Cost(graph, a);
    TameLooksAlike(b, path, budget, {c});
    TameParts(graph, path, budget, {c});
    WalkIsReady(lib, b, path, budget, {c});
    assert |path| > 1;
    MovesToNodes(lib, b, path[|path| - 2], a);
    var ctx := TameCtx(b, path, budget, {c});
    var state, last, log := RunWalks(ctx, graph, path, budget, {c}, IDLE);
    LooseTurn(ctx, graph, path, budget, a, state, Length(graph, path, 1), last, log);
    assert Overruns(ctx, IDLE) by { MakesOverrun(ctx, IDLE); }
  }

  lemma MakesOverrun(ctx: Ctx, state: State)
    requires Count(Run(ctx, state).log).calls > Budget(ctx.graph.maxSteps)
    ensures Overruns(ctx, state)
  {
  }

  /** Graphs described alike have the same loose regions and the same walks to them. */
  lemma LooseAlike(a: Blueprint, b: Blueprint, source: string)
    requires a.Valid() && b.Valid() && SameTopology(a, b)
    ensures Loose(a.Compiled(), source) <==> Loose(b.Compiled(), source)
    ensures forall t :: Moves(a.Compiled(), source, t) <==> Moves(b.Compiled(), source, t)
  {
    hide SortedKeys, Ascending;
    if source in a.edges.at {
      EdgesAlike(a.edges.at[source], b.edges.at[source], source);
      assert EdgeOf(Entry(source, a.edges.at[source])) == EdgeOf(Entry(source, b.edges.at[source]));
    }
  }

  /** What the description of an edge says of its targets and its join. */
  lemma EdgesAlike(e: Edge, f: Edge, source: string)
    requires EdgeOf(Entry(source, e)) == EdgeOf(Entry(source, f))
    requires (e.FanOut? ==> ValidFanOut(e)) && (f.FanOut? ==> ValidFanOut(f))
    requires e.FanOut? && f.FanOut? ==> JoinOf(Entry(source, e)) == JoinOf(Entry(source, f))
    ensures e.Static? <==> f.Static?
    ensures e.Static? ==> e.target == f.target
    ensures e.Conditional? <==> f.Conditional?
    ensures e.Conditional? ==> forall x :: x in e.declared <==> x in f.declared
    ensures e.Conditional? ==> (e.declared == [] <==> f.declared == [])
    ensures e.FanOut? ==> e.branches == f.branches && e.next == f.next && (Strict(e) <==> Strict(f))
  {
    hide Ascending;
    if e.FanOut? {
      SortedNames(e.branches);
      SortedNames(f.branches);
    }
    if e.Conditional? {
      assert forall x :: x in e.declared <==> x in SortedKeys(set x | x in e.declared);
      assert forall x :: x in f.declared <==> x in SortedKeys(set x | x in f.declared);
      HasMember(e.declared);
      HasMember(f.declared);
    }
  }

  lemma LooseReachedAlike(a: Blueprint, b: Blueprint)
    requires a.Valid() && b.Valid() && SameTopology(a, b) && LooseReached(b.Compiled())
    ensures LooseReached(a.Compiled())
  {
    hide Moves, Loose, SameTopology, Blueprint.Valid;
    var path :| Walk(b.Compiled(), path) && Loose(b.Compiled(), path[|path| - 1]);
    LooseAlike(a, b, path[|path| - 1]);
    forall i | 0 < i < |path| ensures Moves(a.Compiled(), path[i - 1], path[i]) {
      assert Moves(b.Compiled(), path[i - 1], path[i]);
      LooseAlike(a, b, path[i - 1]);
    }
    assert Walk(a.Compiled(), path);
  }

  /** More calls than steps, exactly: for a description without errors some run of a graph
      described alike enters more node callables than its budget has steps if and only if the
      edges lead to a region whose join is neither `all` nor a quorum of all and which is
      followed by a node. */
  lemma OverrunsIffLooseRegionIsReached(lib: Library, b: Blueprint)
    requires b.Valid() && Describe(lib, b).Success? && Clean(LintIssues(lib, Describe(lib, b).value))
    ensures SomeRunOverruns(b) <==> LooseReached(b.Compiled())
  {
    hide Describe, LintIssues, WellFormed, SameTopology, FaithfulGraph, Run, Clean, Moves, Loose, Count;
    CleanIffWellFormed(lib, Describe(lib, b).value);
    if LooseReached(b.Compiled()) {
      var walk :| Walk(b.Compiled(), walk) && Loose(b.Compiled(), walk[|walk| - 1]);
      LooseWalkOverruns(lib, b, walk);
    }
    if SomeRunOverruns(b) {
      var other: Blueprint, ctx: Ctx, state: State :|
        && other.Valid() && SameTopology(b.(maxSteps := other.maxSteps), other)
        && ctx.graph == other.Compiled() && FaithfulGraph(ctx.graph) && Overruns(ctx, state);
      if !LooseReached(ctx.graph) {
        TightGraphsKeepTheBudget(ctx, state);
      }
      LooseReachedAlike(b.(maxSteps := other.maxSteps), other);
      SameButBudget(b, other.maxSteps);
    }
  }

  /** The budget is no part of where edges lead. */
  lemma SameButBudget(b: Blueprint, budget: int)
    requires LooseReached(b.(maxSteps := budget).Compiled())
    ensures LooseReached(b.Compiled())
  {
    var graph := b.(maxSteps := budget).Compiled();
    var path :| Walk(graph, path) && Loose(graph, path[|path| - 1]);
    assert Walk(b.Compiled(), path);
  }
}
