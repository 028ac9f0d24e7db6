/** Runs along a walk: whatever the scheduler's edges can select in a row, callables exist
    that make a run of the same topology select it, and complete if the walk ends in END. */
module Completion {
  import opened Values
  import opened Ordering
  import opened Protocol
  import opened Topology
  import opened Engine
  import opened Ledger
  import opened Spec
  import opened Builder
  import opened Lint
  import opened Validation
  import opened Assurance
  import Rearrangement
  import Refinement
  import Confinement
  import JoinLaws
  import Overrun

  // ----- the same topology with tame callables -----

  /** What follows `a` on the path. */
  function Onward(path: seq<string>, a: string): string {
    if |path| < 2 then END else if path[0] == a then path[1] else Onward(path[1..], a)
  }

  /** A custom join admits the first branch. */
  function TameJoin(join: Join): Join {
    match join
    case CustomJoin(_, ref) =>
      CustomJoin((view: seq<BranchOutcome>) => Admits(if view == [] then [] else [view[0].name]), ref)
    case _ => join
  }

  /** Routers always select the next name of the path, if they may select it at all. */
  function TameEdge(graph: Graph, path: seq<string>, source: string, edge: Edge): Edge {
    match edge
    case Static(_) => edge
    case FanOut(branches, next, join) => FanOut(branches, next, TameJoin(join))
    case Conditional(_, ref, declared) =>
      var onward := Onward(path, source);
      var target :=
        if declared != [] then (if onward in declared then onward else declared[0])
        else if graph.Routable(onward) then onward else END;
      Conditional(s => Routes(target), ref, declared)
  }

  /** A node delivers nothing, or always fails. */
  function TameNode(node: Node, fails: bool): Node {
    Node(if fails then s => NodeThrows(Overrun.FAULT) else s => Delivers(Overrun.NOTHING_WRITTEN), node.ref)
  }

  function TameNodes(nodes: map<string, Node>, keys: seq<string>, faulty: set<string>): (r: map<string, Node>)
    requires forall k <- keys :: k in nodes
    ensures forall k :: k in r <==> k in keys
    ensures forall k <- r :: r[k] == TameNode(nodes[k], k in faulty)
  {
    if keys == [] then map[] else
    var key := keys[|keys| - 1];
    assert keys == keys[..|keys| - 1] + [key];
    TameNodes(nodes, keys[..|keys| - 1], faulty)[key := TameNode(nodes[key], key in faulty)]
  }

  function TameEdges(graph: Graph, path: seq<string>, keys: seq<string>): (r: map<string, Edge>)
    requires forall k <- keys :: k in graph.edges
    ensures forall k :: k in r <==> k in keys
    ensures forall k <- r :: r[k] == TameEdge(graph, path, k, graph.edges[k])
  {
    if keys == [] then map[] else
    var key := keys[|keys| - 1];
    assert keys == keys[..|keys| - 1] + [key];
    TameEdges(graph, path, keys[..|keys| - 1])[key := TameEdge(graph, path, key, graph.edges[key])]
  }

  function Tame(graph: Graph, path: seq<string>, budget: nat, faulty: set<string>): Graph {
    Graph(TameNodes(graph.nodes, SortedKeys(graph.nodes.Keys), faulty),
          TameEdges(graph, path, SortedKeys(graph.edges.Keys)), graph.reducers, budget)
  }

  lemma TameParts(graph: Graph, path: seq<string>, budget: nat, faulty: set<string>)
    ensures var tame := Tame(graph, path, budget, faulty);
            && tame.maxSteps == budget && tame.reducers == graph.reducers
            && tame.nodes.Keys == graph.nodes.Keys && tame.edges.Keys == graph.edges.Keys
            && (forall k <- tame.nodes :: tame.nodes[k] == TameNode(graph.nodes[k], k in faulty))
            && (forall k <- tame.edges :: tame.edges[k] == TameEdge(graph, path, k, graph.edges[k]))
  {
    hide SortedKeys, Ascending;
  }

  // ----- simple walks -----

  /** Cutting out detours makes a walk simple. */
  lemma {:induction false} SimpleWalk(graph: Graph, path: seq<string>) returns (short: seq<string>)
    requires Walk(graph, path)
    ensures Walk(graph, short) && Unique(short) && short[|short| - 1] == path[|path| - 1]
    decreases |path|
  {
    hide Moves;
    if Unique(path) {
      short := path;
    } else {
      var i, j :| 0 <= i < j < |path| && path[i] == path[j];
      var cut := path[..i] + path[j..];
      forall k | 0 < k < |cut| ensures Moves(graph, cut[k - 1], cut[k]) {
        if k < i {
          assert Moves(graph, path[k - 1], path[k]);
        } else if k == i {
          assert Moves(graph, path[i - 1], path[i]);
        } else {
          assert Moves(graph, path[k - i + j - 1], path[k - i + j]);
        }
      }
      short := SimpleWalk(graph, cut);
    }
  }

  lemma {:induction false} OnwardAt(path: seq<string>, i: nat)
    requires Unique(path) && i + 1 < |path|
    ensures Onward(path, path[i]) == path[i + 1]
  {
    if i > 0 {
      assert path[0] != path[i];
      assert Unique(path[1..]);
      OnwardAt(path[1..], i - 1);
    }
  }

  // ----- one turn -----

  /** Everything a region of the graph leads to is registered. */
  ghost predicate Sturdy(graph: Graph) {
    && graph.Valid()
    && (forall source <- graph.edges :: graph.edges[source].FanOut? ==>
          && graph.Routable(graph.edges[source].next)
          && forall b <- graph.edges[source].branches :: b in graph.nodes)
  }

  /** What a turn at `a` adds to the steps. */
  function Cost(graph: Graph, a: string): nat {
    1 + if graph.EdgeFrom(a).FanOut? then |graph.EdgeFrom(a).branches| else 0
  }

  /** What the branches of a tame region settle to, in whatever order they run. */
  function TameOutcomes(branches: seq<string>, faulty: set<string>): (settled: seq<Settlement>)
    ensures |settled| == |branches| && Overrun.Writeless(settled)
  {
    seq(|branches|, i requires 0 <= i < |branches| =>
      if branches[i] in faulty then Failed(Raised(Overrun.FAULT)) else Ok(Overrun.NOTHING_WRITTEN))
  }

  lemma TameSettles(ctx: Ctx, graph: Graph, path: seq<string>, budget: nat, faulty: set<string>, region: Region,
                    log: Log)
    requires ctx.gate.NoGate? && region.In(ctx.graph) && ctx.graph == Tame(graph, path, budget, faulty)
    ensures Outcomes(SettleAll(ctx, region, FreshTasks(|region.branches|), log).0)
         == TameOutcomes(region.branches, faulty)
  {
    hide SettleAll, Tame;
    TameParts(graph, path, budget, faulty);
    var tasks := FreshTasks(|region.branches|);
    Refinement.SettleOnCourse(ctx, region, tasks, log);
    var done := SettleAll(ctx, region, tasks, log).0;
    forall i | 0 <= i < |done| ensures Outcomes(done)[i] == TameOutcomes(region.branches, faulty)[i] {
      assert Refinement.OnCourse(ctx, region, i, done[i]);
      assert done[i] in done && region.branches[i] in region.branches;
    }
  }

  lemma {:induction false} QuietCount(settled: seq<Settlement>)
    requires forall o <- settled :: o.Ok?
    ensures JoinLaws.CountOk(settled) == |settled|
  {
    if settled != [] {
      var front := settled[..|settled| - 1];
      assert settled[|settled| - 1] in settled && forall o <- front :: o in settled;
      QuietCount(front);
    }
  }

  /** Every tame join admits a region in which every branch delivered. */
  lemma QuietSatisfies(join: Join, branches: seq<string>, settled: seq<Settlement>)
    requires |settled| == |branches| >= 2 && (forall o <- settled :: o.Ok?)
    requires join.Quorum? ==> 1 <= join.n <= |branches|
    ensures JoinLaws.Satisfied(TameJoin(join), branches, settled)
  {
    QuietCount(settled);
    assert settled[0] in settled;
    if join.CustomJoin? { FirstSatisfies(join, branches, settled); }
  }

  lemma FirstSatisfies(join: Join, branches: seq<string>, settled: seq<Settlement>)
    requires |settled| == |branches| >= 2 && settled[0].Ok? && join.CustomJoin?
    ensures JoinLaws.Satisfied(TameJoin(join), branches, settled)
  {
    assert JoinLaws.Wanted(TameJoin(join), branches, settled) == [branches[0]];
  }

  lemma WritelessItems(source: string, join: Join, branches: seq<string>, settled: seq<Settlement>)
    requires |branches| == |settled| && Ascending(branches) && Overrun.Writeless(settled)
    requires Admit(source, join, branches, settled).Success?
    ensures Keys(Admit(source, join, branches, settled).value) == {}
  {
    hide Admit, Ascending, Keys;
    var items := Admit(source, join, branches, settled).value;
    forall c | c in items ensures c.delta == Overrun.NOTHING_WRITTEN {
      JoinLaws.AdmitSelects(source, join, branches, settled, c);
      var i: nat :| JoinLaws.LetIn(join, branches, settled, i) && JoinLaws.Gives(branches, settled, i, c);
      assert settled[i] in settled;
    }
    Overrun.NoKeys(items);
  }

  /** A writeless region commits if its join is satisfied. */
  lemma JoinCompletes(ctx: Ctx, region: Region, edge: Edge, state: State, settled: seq<Settlement>, log: Log)
    requires edge.FanOut? && ctx.gate.NoGate? && region.snapshot[VISITED].List?
    requires |settled| == |region.branches| >= 2 && Ascending(region.branches) && Overrun.Writeless(settled)
    requires JoinLaws.Satisfied(edge.join, region.branches, settled) && (edge.join.Quorum? ==> edge.join.n >= 1)
    ensures var f := CloseRegion(ctx, region, edge, state, settled, log);
            f.Go? && f.value.steps == region.steps + JoinLaws.CountOk(settled) && f.value.state[VISITED].List?
  {
    hide Admit, Successes, Ascending, CloseRegion;
    Overrun.OutcomesReachTheJoin(ctx, region, edge, state, settled, log);
    JoinLaws.AdmitDecides(region.source, edge.join, region.branches, settled);
    WritelessItems(region.source, edge.join, region.branches, settled);
    JoinLaws.SuccessCount(region.branches, settled);
    var items := Admit(region.source, edge.join, region.branches, settled).value;
    assert SortedKeys(Keys(items)) == [];
    assert CopyableDelta(Overrun.NOTHING_WRITTEN);
  }

  lemma TameJoinKind(join: Join)
    ensures TameJoin(join).Quorum? ==> TameJoin(join) == join
  {
  }

  /** A tame region commits if its join is satisfied by the branches that do not fail. */
  lemma RegionCompletes(ctx: Ctx, graph: Graph, path: seq<string>, budget: nat, faulty: set<string>, source: string,
                        state: State, steps: nat, log: Log)
    requires ctx.gate.NoGate? && ctx.graph == Tame(graph, path, budget, faulty) && state[VISITED].List?
    requires Sturdy(graph) && graph.EdgeFrom(source).FanOut?
    requires var edge := graph.EdgeFrom(source);
             && steps + |edge.branches| <= budget
             && JoinLaws.Satisfied(TameJoin(edge.join), edge.branches, TameOutcomes(edge.branches, faulty))
    ensures var edge, own := graph.EdgeFrom(source), ctx.graph.EdgeFrom(source);
            && own == FanOut(edge.branches, edge.next, TameJoin(edge.join))
            && var f := RunRegion(ctx, source, own, state, steps, log);
               f.Go? && f.value.state[VISITED].List?
               && f.value.steps == steps + JoinLaws.CountOk(TameOutcomes(edge.branches, faulty))
  {
    hide SettleAll, CloseRegion, Visit, StartEvents, TameJoin, Ascending, Tame, TameOutcomes, JoinLaws.Satisfied;
    TameParts(graph, path, budget, faulty);
    var edge := ctx.graph.EdgeFrom(source);
    assert edge == TameEdge(graph, path, source, graph.edges[source]) && ValidFanOut(graph.edges[source]);
    Overrun.Visits(state, edge.branches);
    var begun := OpenRegion(ctx, source, edge, state, steps, log);
    var region := begun.value;
    TameSettles(ctx, graph, path, budget, faulty, region, begun.log);
    var (done, settled) := SettleAll(ctx, region, FreshTasks(|edge.branches|), begun.log);
    TameJoinKind(graph.EdgeFrom(source).join);
    JoinCompletes(ctx, region, edge, state, Outcomes(done), settled);
  }

  /** The graph's move along the path is the tame graph's choice. */
  lemma TameMove(graph: Graph, path: seq<string>, budget: nat, faulty: set<string>, i: nat)
    requires Walk(graph, path) && Unique(path) && i + 1 < |path|
    requires path[i + 1] != "" && graph.Routable(path[i + 1])
    ensures var tame := Tame(graph, path, budget, faulty);
            var edge := tame.EdgeFrom(path[i]);
            var onward := if edge.FanOut? then Static(edge.next) else edge;
            forall s :: Resolve(tame, onward, s) == Success(path[i + 1])
  {
    hide Tame, Onward, TameJoin;
    TameParts(graph, path, budget, faulty);
    OnwardAt(path, i);
    assert Moves(graph, path[i], path[i + 1]);
  }

  /** No faulty node is called on the way: neither `a` nor a branch of its region. */
  predicate Spared(graph: Graph, faulty: set<string>, a: string) {
    a !in faulty && (graph.EdgeFrom(a).FanOut? ==> forall b <- graph.EdgeFrom(a).branches :: b !in faulty)
  }

  /** Where no branch fails a tame region commits with a step for every branch. */
  lemma SparedSatisfies(graph: Graph, faulty: set<string>, a: string)
    requires Sturdy(graph) && Spared(graph, faulty, a) && graph.EdgeFrom(a).FanOut?
    ensures var edge := graph.EdgeFrom(a);
            var settled := TameOutcomes(edge.branches, faulty);
            && JoinLaws.Satisfied(TameJoin(edge.join), edge.branches, settled)
            && JoinLaws.CountOk(settled) == |edge.branches|
  {
    hide Ascending, TameJoin, JoinLaws.Satisfied;
    var edge := graph.EdgeFrom(a);
    assert ValidFanOut(graph.edges[a]);
    QuietCount(TameOutcomes(edge.branches, faulty));
    QuietSatisfies(edge.join, edge.branches, TameOutcomes(edge.branches, faulty));
  }

  /** A turn whose region's join is satisfied goes on to what follows the region. */
  lemma RegionTurn(ctx: Ctx, graph: Graph, path: seq<string>, budget: nat, faulty: set<string>, a: string,
                   state: State, steps: nat, log: Log)
    requires ctx.gate.NoGate? && ctx.graph == Tame(graph, path, budget, faulty) && Sturdy(graph)
    requires state[VISITED].List? && a in graph.nodes && a !in faulty
    requires steps + Cost(graph, a) <= budget
    requires var edge := graph.EdgeFrom(a);
             edge.FanOut? && JoinLaws.Satisfied(TameJoin(edge.join), edge.branches, TameOutcomes(edge.branches, faulty))
    ensures var f := TakeTurn(ctx, state, steps, a, log);
            var edge := graph.EdgeFrom(a);
            && f.Go? && f.value.target == edge.next && f.value.state[VISITED].List?
            && f.value.steps == steps + 1 + JoinLaws.CountOk(TameOutcomes(edge.branches, faulty))
  {
    hide Tame, RunNode, RunRegion, TameJoin, Ascending, TameOutcomes, JoinLaws.Satisfied, JoinLaws.CountOk;
    TameParts(graph, path, budget, faulty);
    Overrun.NodeGoes(ctx, state, steps, a, log);
    var ended := RunNode(ctx, state, steps, a, log);
    RegionCompletes(ctx, graph, path, budget, faulty, a, ended.value, steps + 1, ended.log);
    assert ValidFanOut(graph.edges[a]);
  }

  /** A turn of a plain node goes on along the path. */
  lemma PlainTurn(ctx: Ctx, graph: Graph, path: seq<string>, budget: nat, faulty: set<string>, i: nat, state: State,
                  steps: nat, log: Log)
    requires ctx.gate.NoGate? && ctx.graph == Tame(graph, path, budget, faulty)
    requires state[VISITED].List? && Walk(graph, path) && Unique(path) && 0 < i < |path| - 1
    requires path[i] in graph.nodes && path[i] !in faulty && path[i + 1] != "" && graph.Routable(path[i + 1])
    requires !graph.EdgeFrom(path[i]).FanOut?
    ensures var f := TakeTurn(ctx, state, steps, path[i], log);
            && f.Go? && f.value.target == path[i + 1] && f.value.state[VISITED].List?
            && f.value.steps == steps + 1
  {
    hide Tame, RunNode, Resolve, Guard, Walk, Moves, Unique;
    TameParts(graph, path, budget, faulty);
    TameMove(graph, path, budget, faulty, i);
    Overrun.NodeGoes(ctx, state, steps, path[i], log);
    var ended := RunNode(ctx, state, steps, path[i], log);
    FreeGuard(ended.log, RouterSite(path[i], steps + 1), ended.value, path[i], steps + 1);
  }

  lemma FreeGuard(log: Log, request: DispatchRequest, state: State, node: string, steps: nat)
    ensures Guard(NoGate, log, request, state, node, steps).Go?
  {
  }

  // ----- the run -----

  /** The steps a walk takes from position `i` to its end. */
  function Length(graph: Graph, path: seq<string>, i: nat): nat
    decreases |path| - i
  {
    if i + 1 >= |path| then 0 else Cost(graph, path[i]) + Length(graph, path, i + 1)
  }

  /** All names between START and END are registered. */
  predicate OnNodes(graph: Graph, path: seq<string>) {
    forall i :: 0 < i < |path| ==> path[i] != "" && (path[i] in graph.nodes || (i == |path| - 1 && path[i] == END))
  }

  /** Before its end a walk over nodes is at a registered name other than END. */
  lemma StepsOnward(graph: Graph, path: seq<string>, i: nat)
    requires Walk(graph, path) && OnNodes(graph, path) && 0 < i < |path| - 1
    ensures path[i] in graph.nodes && path[i] != END && path[i + 1] != "" && graph.Routable(path[i + 1])
    ensures Cost(graph, path[i]) >= 1
  {
    hide Moves;
    assert path[i + 1] != "";
  }

  /** A path to take, and what is needed to. */
  ghost predicate Ready(ctx: Ctx, graph: Graph, path: seq<string>, budget: nat, faulty: set<string>) {
    && ctx.gate.NoGate? && ctx.graph == Tame(graph, path, budget, faulty) && Sturdy(graph)
    && Walk(graph, path) && Unique(path) && OnNodes(graph, path)
    && forall i :: 0 < i < |path| - 1 ==> Spared(graph, faulty, path[i])
  }

  /** The books of a run in which no callable failed so far. */
  ghost predicate Faultless(log: Log, steps: nat) { Balanced(Count(log), steps) && Count(log).errored == 0 }

  lemma ReadyTurn(ctx: Ctx, graph: Graph, path: seq<string>, budget: nat, faulty: set<string>, i: nat, state: State,
                  steps: nat, last: string, log: Log)
    requires Ready(ctx, graph, path, budget, faulty) && state[VISITED].List?
    requires 0 < i < |path| - 1 && steps + Cost(graph, path[i]) <= budget
    ensures var f := TakeTurn(ctx, state, steps, path[i], log);
            && f.Go? && f.value.state[VISITED].List? && f.value.steps == steps + Cost(graph, path[i])
            && Loop(ctx, state, steps, path[i], last, log)
               == Loop(ctx, f.value.state, f.value.steps, path[i + 1], path[i], f.log)
  {
    hide Loop, TakeTurn, Tame, Sturdy, Unique, OnNodes, TameOutcomes, TameJoin, JoinLaws.Satisfied, JoinLaws.CountOk;
    TameParts(graph, path, budget, faulty);
    StepsOnward(graph, path, i);
    assert Spared(graph, faulty, path[i]) && Moves(graph, path[i], path[i + 1]);
    if graph.EdgeFrom(path[i]).FanOut? {
      SparedSatisfies(graph, faulty, path[i]);
      RegionTurn(ctx, graph, path, budget, faulty, path[i], state, steps, log);
    } else {
      PlainTurn(ctx, graph, path, budget, faulty, i, state, steps, log);
    }
    LoopUnfolds(ctx, state, steps, path[i], last, log);
  }

  /** A turn that costs a step for every callable has no failure. */
  lemma TurnIsFaultless(ctx: Ctx, graph: Graph, path: seq<string>, budget: nat, faulty: set<string>, state: State,
                        steps: nat, node: string, log: Log)
    requires ctx.graph == Tame(graph, path, budget, faulty) && Faultless(log, steps)
    requires var f := TakeTurn(ctx, state, steps, node, log); f.Go? && f.value.steps == steps + Cost(graph, node)
    ensures var f := TakeTurn(ctx, state, steps, node, log); Faultless(f.log, f.value.steps)
  {
    hide TakeTurn, Count, Tame, TameJoin;
    TameParts(graph, path, budget, faulty);
    TurnCounts(ctx, state, steps, node, log);
  }

  /** The tame graph takes the path, given the steps, and no callable fails on the way. */
  lemma {:induction false} LoopWalks(ctx: Ctx, graph: Graph, path: seq<string>, budget: nat, faulty: set<string>,
                                     i: nat, state: State, steps: nat, last: string, log: Log)
    returns (state': State, last': string, log': Log)
    requires Ready(ctx, graph, path, budget, faulty) && state[VISITED].List? && Faultless(log, steps)
    requires 0 < i < |path| && steps + Length(graph, path, i) <= budget
    ensures state'[VISITED].List? && Faultless(log', steps + Length(graph, path, i))
    ensures Loop(ctx, state, steps, path[i], last, log)
         == Loop(ctx, state', steps + Length(graph, path, i), path[|path| - 1], last', log')
    decreases |path| - i
  {
    hide Loop, TakeTurn, Tame, Sturdy, Walk, Unique, OnNodes, Spared, Cost, Faultless;
    if i == |path| - 1 {
      state', last', log' := state, last, log;
    } else {
      ReadyTurn(ctx, graph, path, budget, faulty, i, state, steps, last, log);
      TurnIsFaultless(ctx, graph, path, budget, faulty, state, steps, path[i], log);
      var f := TakeTurn(ctx, state, steps, path[i], log);
      state', last', log' :=
        LoopWalks(ctx, graph, path, budget, faulty, i + 1, f.value.state, f.value.steps, path[i], f.log);
    }
  }

  /** A whole run of the tame graph takes the path. */
  lemma RunWalks(ctx: Ctx, graph: Graph, path: seq<string>, budget: nat, faulty: set<string>, state: State)
    returns (state': State, last': string, log': Log)
    requires Ready(ctx, graph, path, budget, faulty) && state[VISITED].List? && |path| > 1
    requires !graph.EdgeFrom(START).FanOut? && Length(graph, path, 1) <= budget
    ensures state'[VISITED].List? && Faultless(log', Length(graph, path, 1))
    ensures Run(ctx, state) == Loop(ctx, state', Length(graph, path, 1), path[|path| - 1], last', log')
  {
    hide Run, Loop, Tame, Sturdy, Moves, Unique, Resolve, Guard, Length, Spared, Count, Balanced;
    RunUnfolds(ctx, state);
    TameParts(graph, path, budget, faulty);
    TameMove(graph, path, budget, faulty, 0);
    FreeGuard([], RouterSite(START, 0), state, START, 0);
    var edge := ctx.graph.EdgeFrom(START);
    var selected := Route(ctx, START, edge, state, 0, []);
    assert selected.Go? && selected.value == path[1];
    CountNothing();
    NothingBalances();
    RouteCounts(ctx, START, edge, state, 0, []);
    state', last', log' := LoopWalks(ctx, graph, path, budget, faulty, 1, state, 0, START, selected.log);
  }

  /** Whatever walk leads to END, the tame graph completes along it, given the steps. */
  lemma WalksComplete(ctx: Ctx, graph: Graph, path: seq<string>, budget: nat, state: State)
    requires Ready(ctx, graph, path, budget, {}) && state[VISITED].List? && |path| > 1
    requires !graph.EdgeFrom(START).FanOut? && Length(graph, path, 1) <= budget && path[|path| - 1] == END
    ensures exists o <- Obs(Run(ctx, state).log) :: o.Done?
  {
    hide Run, Loop, Obs, Ready, Length;
    var state', last', log' := RunWalks(ctx, graph, path, budget, {}, state);
    var steps := Length(graph, path, 1);
    LoopUnfolds(ctx, state', steps, END, last', log');
    var log := Run(ctx, state).log;
    var done := Done(steps, Merge(state', map[STATUS := Str("done")]));
    Confinement.ObservedEvents(log);
    assert log[|log| - 1] == Observed(done) && log[|log| - 1] in log;
    assert done in Obs(log);
  }

  // ----- the described graph -----

  function TameBlueprint(b: Blueprint, path: seq<string>, budget: nat, faulty: set<string>): Blueprint {
    var tame := Tame(b.Compiled(), path, budget, faulty);
    Blueprint(Table(b.nodes.order, tame.nodes), Table(b.edges.order, tame.edges), b.reducers, budget)
  }

  lemma TameEdgeLooksAlike(graph: Graph, path: seq<string>, source: string, edge: Edge)
    ensures EdgeOf(Entry(source, TameEdge(graph, path, source, edge))) == EdgeOf(Entry(source, edge))
    ensures edge.FanOut? <==> TameEdge(graph, path, source, edge).FanOut?
    ensures edge.FanOut? ==>
              JoinOf(Entry(source, TameEdge(graph, path, source, edge))) == JoinOf(Entry(source, edge))
    ensures edge.FanOut? && ValidFanOut(edge) ==> ValidFanOut(TameEdge(graph, path, source, edge))
    ensures Faithful(TameEdge(graph, path, source, edge))
  {
    hide Onward, SortedKeys, Ascending;
    if edge.Conditional? && edge.declared != [] { assert edge.declared[0] in edge.declared; }
  }

  /** Tame callables change nothing that is described. */
  lemma TameLooksAlike(b: Blueprint, path: seq<string>, budget: nat, faulty: set<string>)
    requires b.Valid()
    ensures var tame := TameBlueprint(b, path, budget, faulty);
            && tame.Valid() && SameTopology(b.(maxSteps := budget), tame)
            && tame.Compiled() == Tame(b.Compiled(), path, budget, faulty) && FaithfulGraph(tame.Compiled())
  {
    hide Tame, TameEdge, EdgeOf, JoinOf, ReducerOf, ValidFanOut, Faithful;
    TameParts(b.Compiled(), path, budget, faulty);
    var tame := TameBlueprint(b, path, budget, faulty);
    forall s | s in b.edges.at
      ensures EdgeOf(Entry(s, tame.edges.at[s])) == EdgeOf(Entry(s, b.edges.at[s]))
      ensures b.edges.at[s].FanOut? <==> tame.edges.at[s].FanOut?
      ensures b.edges.at[s].FanOut? ==> JoinOf(Entry(s, tame.edges.at[s])) == JoinOf(Entry(s, b.edges.at[s]))
      ensures b.edges.at[s].FanOut? ==> ValidFanOut(tame.edges.at[s])
      ensures Faithful(tame.edges.at[s])
    {
      TameEdgeLooksAlike(b.Compiled(), path, s, b.edges.at[s]);
    }
    assert tame.nodes.Valid() && tame.edges.Valid();
  }

  /** In a well-formed description the scheduler's edges lead to registered names only. */
  lemma MovesToNodes(lib: Library, b: Blueprint, a: string, t: string)
    requires b.Valid() && Describe(lib, b).Success? && WellFormed(lib, Describe(lib, b).value)
    requires Moves(b.Compiled(), a, t)
    ensures t != "" && (t == END || t in b.nodes.at)
  {
    hide Describe, WellFormed, ValidFanOut;
    assert |END| == 7;
    NoBlankNodes(lib, b);
    if a !in b.edges.at {
      assert t == END;
    } else {
      var edge := b.edges.at[a];
      var e := EdgeOf(Entry(a, edge));
      DescribedEdges(lib, b, e);
      DescribedNodes(lib, b);
      WellFormedMembers(lib, Describe(lib, b).value, e);
      assert edge.Conditional? ==> forall x <- edge.declared :: x in e.declared;
      assert t == END || t in b.nodes.at;
    }
  }

  lemma WellFormedIsSturdy(lib: Library, b: Blueprint)
    requires b.Valid() && Describe(lib, b).Success? && WellFormed(lib, Describe(lib, b).value)
    ensures Sturdy(b.Compiled()) && !b.Compiled().EdgeFrom(START).FanOut?
  {
    hide Describe, WellFormed, ValidFanOut;
    forall source | source in b.edges.at && b.edges.at[source].FanOut?
      ensures b.Compiled().Routable(b.edges.at[source].next)
      ensures forall x <- b.edges.at[source].branches :: x in b.nodes.at
    {
      var edge := b.edges.at[source];
      var e := EdgeOf(Entry(source, edge));
      DescribedEdges(lib, b, e);
      DescribedNodes(lib, b);
      WellFormedMembers(lib, Describe(lib, b).value, e);
      assert forall x <- edge.branches :: x in e.declared;
    }
  }

  ghost predicate Completes(ctx: Ctx, state: State) { exists o <- Obs(Run(ctx, state).log) :: o.Done? }

  /** Some graph that is described alike, save for its budget, has a run that completes,
      although routers that declare targets select no other. */
  ghost predicate SomeRunCompletes(b: Blueprint) {
    exists other: Blueprint, ctx: Ctx, state: State ::
      && other.Valid() && SameTopology(b.(maxSteps := other.maxSteps), other)
      && ctx.graph == other.Compiled() && FaithfulGraph(ctx.graph) && Completes(ctx, state)
  }

  /** The tame graph on its own, from an idle state. */
  function TameCtx(b: Blueprint, path: seq<string>, budget: nat, faulty: set<string>): Ctx {
    Ctx(TameBlueprint(b, path, budget, faulty).Compiled(), NoGate, l => 0, n => "")
  }

  const IDLE: State := map[STATUS := Str("idle"), METADATA := Dict(map[]), VISITED := List([])]

  lemma WalkIsReady(lib: Library, b: Blueprint, path: seq<string>, budget: nat, faulty: set<string>)
    requires b.Valid() && Describe(lib, b).Success? && WellFormed(lib, Describe(lib, b).value)
    requires Walk(b.Compiled(), path) && Unique(path)
    requires forall i :: 0 < i < |path| - 1 ==> Spared(b.Compiled(), faulty, path[i])
    ensures Ready(TameCtx(b, path, budget, faulty), b.Compiled(), path, budget, faulty)
    ensures !b.Compiled().EdgeFrom(START).FanOut?
  {
    hide Describe, WellFormed, Tame, Moves, Sturdy, SameTopology, FaithfulGraph, Spared;
    TameLooksAlike(b, path, budget, faulty);
    WellFormedIsSturdy(lib, b);
    forall i | 0 < i < |path|
      ensures path[i] != "" && (path[i] in b.nodes.at || (i == |path| - 1 && path[i] == END))
    {
      MovesToNodes(lib, b, path[i - 1], path[i]);
    }
  }

  lemma WalkGivesRun(lib: Library, b: Blueprint, walk: seq<string>)
    requires b.Valid() && Describe(lib, b).Success? && WellFormed(lib, Describe(lib, b).value)
    requires Walk(b.Compiled(), walk) && walk[|walk| - 1] == END
    ensures SomeRunCompletes(b)
  {
    hide Describe, WellFormed, Tame, Run, Obs, Moves, Length, SameTopology, FaithfulGraph, Completes, Ready;
    var path := SimpleWalk(b.Compiled(), walk);
    var budget := Length(b.Compiled(), path, 1);
    TameLooksAlike(b, path, budget, {});
    WalkIsReady(lib, b, path, budget, {});
    assert |START| != |END|;
    var ctx := TameCtx(b, path, budget, {});
    WalksComplete(ctx, b.Compiled(), path, budget, IDLE);
    DoneCompletes(ctx, IDLE);
  }

  lemma DoneCompletes(ctx: Ctx, state: State)
    requires exists o <- Obs(Run(ctx, state).log) :: o.Done?
    ensures Completes(ctx, state)
  {
  }

  /** What GS102 looks at does not depend on the budget. */
  lemma BudgetIsNotDescribed(lib: Library, b: Blueprint, budget: int)
    requires b.Valid() && Describe(lib, b).Success?
    ensures var other := b.(maxSteps := budget);
            && other.Valid() && Describe(lib, other).Success?
            && Describe(lib, other).value.edges == Describe(lib, b).value.edges
  {
    hide Create, Canonical, ValidFanOut;
    DescriptionIsCreated(lib, b.(maxSteps := budget));
    Rearrangement.CreateHolds(lib, DescribedParts(b), None);
    Rearrangement.CreateHolds(lib, DescribedParts(b.(maxSteps := budget)), None);
    SameCanonicalEdges(lib, DescribedParts(b), budget);
  }

  lemma SameCanonicalEdges(lib: Library, p: Parts, budget: int)
    ensures forall frozen :: Canonical(lib, p.(maxSteps := budget), frozen).edges == Canonical(lib, p, frozen).edges
  {
  }

  lemma FlaggedAlike(lib: Library, b: Blueprint, other: Blueprint)
    requires b.Valid() && Describe(lib, b).Success? && other.Valid() &&
             SameTopology(b.(maxSteps := other.maxSteps), other)
    requires General(GS102, Warning) in LintIssues(lib, Describe(lib, b).value)
    ensures Describe(lib, other).Success? && Describe(lib, other).value.edges == Describe(lib, b).value.edges
    ensures General(GS102, Warning) in LintIssues(lib, Describe(lib, other).value)
    ensures b.edges.at.Keys == other.edges.at.Keys
  {
    hide Describe, LintIssues, Reached, ReachesOpaque, NodeOf, EdgeOf, ReducerOf;
    BudgetIsNotDescribed(lib, b, other.maxSteps);
    DescriptionIgnoresOrder(lib, b.(maxSteps := other.maxSteps), other);
    ReportedExactly(lib, Describe(lib, b).value, "");
    ReportedExactly(lib, Describe(lib, other).value, "");
  }

  /** GS102, exactly: for a description without errors the flag is wrong, that is, some run
      of a graph described alike completes under some budget, if and only if something
      selectable has no edge. */
  lemma FlagIsWrongIffSomeRunCompletes(lib: Library, b: Blueprint)
    requires b.Valid() && Describe(lib, b).Success? && Clean(LintIssues(lib, Describe(lib, b).value))
    requires General(GS102, Warning) in LintIssues(lib, Describe(lib, b).value)
    ensures SomeRunCompletes(b) <==> exists n :: Reached(Spine(Describe(lib, b).value.edges), n) && n !in b.edges.at
  {
    hide Describe, LintIssues, WellFormed, Reached, Spine, SameTopology, FaithfulGraph, Run, Obs, Moves, Clean;
    CleanIffWellFormed(lib, Describe(lib, b).value);
    FlagIsWrongIffEdgeMissing(lib, b);
    if exists n :: Reached(Spine(Describe(lib, b).value.edges), n) && n !in b.edges.at {
      var walk :| Walk(b.Compiled(), walk) && walk[|walk| - 1] == END;
      WalkGivesRun(lib, b, walk);
    }
    if SomeRunCompletes(b) {
      var other: Blueprint, ctx: Ctx, state: State :|
        && other.Valid() && SameTopology(b.(maxSteps := other.maxSteps), other)
        && ctx.graph == other.Compiled() && FaithfulGraph(ctx.graph) && Completes(ctx, state);
      FlaggedAlike(lib, b, other);
      if forall n :: Reached(Spine(Describe(lib, b).value.edges), n) ==> n in b.edges.at {
        FlaggedGraphsNeverComplete(lib, other, ctx, state);
      }
    }
  }
}
