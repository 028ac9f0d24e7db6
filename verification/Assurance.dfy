/** What the linter's verdicts mean for runs of the graph it was shown. */
module Assurance {
  import opened Values
  import opened Ordering
  import opened Sorting
  import opened JsonTrees
  import opened Topology
  import opened Engine
  import opened Confinement
  import opened Spec
  import opened Rearrangement
  import opened Builder
  import opened Lint
  import opened Validation

  // ----- what is reported when -----

  /** No finding about identity or reachability. */
  predicate Silent(issues: seq<Issue>) {
    forall i <- issues :: i.code != GS014 && i.code != GS101 && i.code != GS102
  }

  lemma SilentBoth(a: seq<Issue>, b: seq<Issue>)
    ensures Silent(a + b) <==> Silent(a) && Silent(b)
  {
    assert forall i :: i in a ==> i in a + b;
    assert forall i :: i in b ==> i in a + b;
  }

  lemma {:induction false} NodesSilent(nodes: seq<NodeSpec>)
    ensures Silent(AllNodeIssues(nodes))
  {
    hide NodeIssues, Silent;
    if nodes == [] {
      assert Silent([]) by { SilentNothing(); }
    } else {
      var front, last := nodes[..|nodes| - 1], nodes[|nodes| - 1];
      NodesSilent(front);
      NodeSilent(last, NodeNames(front));
      SilentBoth(AllNodeIssues(front), NodeIssues(last, NodeNames(front)));
    }
  }

  lemma SilentNothing()
    ensures Silent([])
  {
  }

  lemma NodeSilent(n: NodeSpec, seen: set<string>)
    ensures Silent(NodeIssues(n, seen))
  {
    hide Silent, When, Blank;
    var a, b := When(n.name in seen, OnNode(GS001, Error, n.name)), When(Blank(n.name), OnNode(GS002, Error, n.name));
    var c := When(n.name == START || n.name == END, OnNode(GS011, Error, n.name));
    var d := When(n.ref.None?, OnNode(GS104, Warning, n.name));
    SilentWhen(n.name in seen, OnNode(GS001, Error, n.name));
    SilentWhen(Blank(n.name), OnNode(GS002, Error, n.name));
    SilentWhen(n.name == START || n.name == END, OnNode(GS011, Error, n.name));
    SilentWhen(n.ref.None?, OnNode(GS104, Warning, n.name));
    SilentBoth(a, b);
    SilentBoth(a + b, c);
    SilentBoth(a + b + c, d);
  }

  lemma SilentWhen(condition: bool, issue: Issue)
    requires issue.code != GS014 && issue.code != GS101 && issue.code != GS102
    ensures Silent(When(condition, issue))
  {
  }

  lemma {:induction false} DeclaredSilent(source: string, declared: seq<string>, names: set<string>)
    ensures Silent(DeclaredIssues(source, declared, names))
  {
    if declared != [] { DeclaredSilent(source, declared[..|declared| - 1], names); }
  }

  lemma EdgeSilent(e: EdgeSpec, seen: set<string>, names: set<string>)
    ensures Silent(EdgeIssues(e, seen, names))
  {
    hide DeclaredIssues, StaticIssues, ConditionalIssues;
    StaticSilent(e, names);
    ConditionalSilent(e, names);
  }

  lemma StaticSilent(e: EdgeSpec, names: set<string>)
    ensures Silent(StaticIssues(e, names))
  {
  }

  lemma ConditionalSilent(e: EdgeSpec, names: set<string>)
    ensures Silent(ConditionalIssues(e, names))
  {
    hide DeclaredIssues, Silent, When;
    var a := When(e.target.Some?, OnTarget(GS009, e.source, e.target));
    var b := When(e.source != START && e.source !in names, OnSource(GS006, Error, e.source));
    var c := DeclaredIssues(e.source, e.declared, names);
    var d := When(e.declared == [], OnSource(GS103, Warning, e.source));
    var f := When(e.routerRef.None?, OnSource(GS105, Warning, e.source));
    SilentWhen(e.target.Some?, OnTarget(GS009, e.source, e.target));
    SilentWhen(e.source != START && e.source !in names, OnSource(GS006, Error, e.source));
    DeclaredSilent(e.source, e.declared, names);
    SilentWhen(e.declared == [], OnSource(GS103, Warning, e.source));
    SilentWhen(e.routerRef.None?, OnSource(GS105, Warning, e.source));
    SilentBoth(a, b);
    SilentBoth(a + b, c);
    SilentBoth(a + b + c, d);
    SilentBoth(a + b + c + d, f);
  }

  lemma {:induction false} EdgesSilent(edges: seq<EdgeSpec>, names: set<string>)
    ensures Silent(AllEdgeIssues(edges, names))
  {
    hide EdgeIssues, Silent;
    if edges == [] {
      assert Silent([]) by { SilentNothing(); }
    } else {
      var front, last := edges[..|edges| - 1], edges[|edges| - 1];
      EdgesSilent(front, names);
      EdgeSilent(last, Sources(front), names);
      SilentBoth(AllEdgeIssues(front, names), EdgeIssues(last, Sources(front), names));
    }
  }

  lemma {:induction false} BranchesSilent(e: EdgeSpec, branches: seq<string>, names: set<string>, sources: set<string>,
                                          acc: Claims)
    requires Silent(acc.issues)
    ensures Silent(BranchesClaims(e, branches, names, sources, acc).issues)
  {
    if branches != [] { BranchesSilent(e, branches[..|branches| - 1], names, sources, acc); }
  }

  lemma {:induction false} ClaimsSilent(fanouts: seq<EdgeSpec>, names: set<string>, sources: set<string>)
    ensures Silent(RegionClaims(fanouts, names, sources).issues)
  {
    hide BranchesClaims;
    if fanouts != [] {
      var e, front := fanouts[|fanouts| - 1], fanouts[..|fanouts| - 1];
      ClaimsSilent(front, names, sources);
      var acc := RegionClaims(front, names, sources);
      BranchesSilent(e, e.declared, names, sources, Claims(acc.issues + RegionHead(e, names), acc.claimed));
    }
  }

  lemma JoinSilent(j: JoinSpec, counts: map<string, nat>, seen: set<string>)
    ensures Silent(JoinIssues(j, counts, seen))
  {
  }

  lemma {:induction false} JoinsSilent(joins: seq<JoinSpec>, counts: map<string, nat>)
    ensures Silent(AllJoinIssues(joins, counts))
  {
    hide JoinIssues, Silent;
    if joins == [] {
      assert Silent([]) by { SilentNothing(); }
    } else {
      var front, last := joins[..|joins| - 1], joins[|joins| - 1];
      JoinsSilent(front, counts);
      JoinSilent(last, counts, JoinSources(front));
      SilentBoth(AllJoinIssues(front, counts), JoinIssues(last, counts, JoinSources(front)));
    }
  }

  lemma {:induction false} ReducersSilent(reducers: seq<ReducerSpec>)
    ensures Silent(AllReducerIssues(reducers))
  {
    if reducers != [] { ReducersSilent(reducers[..|reducers| - 1]); }
  }

  lemma RegionsSilent(s: GraphSpec, names: set<string>)
    ensures Silent(RegionIssues(s, names))
  {
    hide RegionClaims, AllJoinIssues, AllReducerIssues, BranchCounts;
    var fanouts := FanOuts(s.edges);
    ClaimsSilent(fanouts, names, Sources(s.edges));
    JoinsSilent(s.joins, BranchCounts(fanouts));
    ReducersSilent(s.reducers);
  }

  lemma {:induction false} UnreachableMembers(names: seq<string>, i: Issue)
    ensures i in UnreachableIssues(names) <==> exists n <- names :: i == OnNode(GS101, Warning, n)
  {
    if names != [] {
      UnreachableMembers(names[..|names| - 1], i);
      assert names == names[..|names| - 1] + [names[|names| - 1]];
    }
  }

  /** A finding about identity or reachability stems from its own section of the report. */
  lemma FromItsSection(lib: Library, s: GraphSpec, i: Issue)
    requires i.code == GS014 || i.code == GS101 || i.code == GS102
    ensures i in LintIssues(lib, s) <==> i in HeaderIssues(lib, s) || i in ReachabilityIssues(s)
  {
    hide HeaderIssues, AllNodeIssues, AllEdgeIssues, RegionIssues, ReachabilityIssues;
    NodesSilent(s.nodes);
    EdgesSilent(s.edges, NodeNames(s.nodes));
    RegionsSilent(s, NodeNames(s.nodes));
  }

  /** GS101 names exactly the nodes outside the closure of START, unless an opaque router
      is inside; GS102 likewise for END; GS014 exactly the forged identity. */
  lemma ReportedExactly(lib: Library, s: GraphSpec, n: string)
    ensures OnNode(GS101, Warning, n) in LintIssues(lib, s) <==>
              n in NodeNames(s.nodes) && !Reached(s.edges, n) && !ReachesOpaque(s.edges)
    ensures General(GS102, Warning) in LintIssues(lib, s) <==> !Reached(s.edges, END) && !ReachesOpaque(s.edges)
    ensures General(GS014, Error) in LintIssues(lib, s) <==> s.graphId != lib.digest(JObj(SpecPayload(lib, s)))
  {
    hide LintIssues, Reached, SpecPayload, Supported;
    FromItsSection(lib, s, OnNode(GS101, Warning, n));
    FromItsSection(lib, s, General(GS102, Warning));
    FromItsSection(lib, s, General(GS014, Error));
    var missing := SortedKeys(UnreachedNodes(s));
    UnreachableMembers(missing, OnNode(GS101, Warning, n));
    UnreachableMembers(missing, General(GS102, Warning));
    UnreachableMembers(missing, General(GS014, Error));
  }

  /** No spec that `create` makes is ever reported as forged, whatever its parts. */
  lemma CreatedIsNeverForged(lib: Library, p: Parts, given: Option<string>)
    requires Create(lib, p, given).Success?
    ensures General(GS014, Error) !in LintIssues(lib, Create(lib, p, given).value)
  {
    hide InNormalForm, Canonical, Seal, FreezeDict, LintIssues, SpecPayload;
    FreezeDictIsFrozen(p.metadata);
    var frozen := FreezeMetadata(p.metadata).value;
    CanonicalIsNormal(lib, p, frozen);
    SealKeeps(lib, Canonical(lib, p, frozen), given);
    ReportedExactly(lib, Create(lib, p, given).value, "");
  }

  // ----- the described graph -----

  lemma DescribedNodes(lib: Library, b: Blueprint)
    requires b.Valid() && Describe(lib, b).Success?
    ensures NodeNames(Describe(lib, b).value.nodes) == b.nodes.at.Keys
  {
    hide Create, NodeLe, Canonical, Sort, JoinsOf, EdgeOf, ReducerOf;
    var p := DescribedParts(b);
    CreateHolds(lib, p, None);
    Described(lib, p);
    forall n ensures n in NodeNames(p.nodes) <==> n in b.nodes.at.Keys {
      if n in b.nodes.at.Keys { ImageMembers(b.nodes, NodeOf, NodeOf(Entry(n, b.nodes.at[n]))); }
      if n in NodeNames(p.nodes) {
        var x :| x in p.nodes && x.name == n;
        ImageMembers(b.nodes, NodeOf, x);
      }
    }
  }

  lemma Described(lib: Library, p: Parts)
    requires Create(lib, p, None).Success?
    ensures forall n :: n in Create(lib, p, None).value.nodes <==> n in p.nodes
    ensures forall e :: e in Create(lib, p, None).value.edges <==> e in p.edges
    ensures Create(lib, p, None).value.maxSteps == p.maxSteps
  {
    hide Create, NodeLe, EdgeLe, Sort;
    CreateHolds(lib, p, None);
    Members(NodeLe(lib), p.nodes);
    Members(EdgeLe(lib), p.edges);
  }

  lemma DescribedEdges(lib: Library, b: Blueprint, e: EdgeSpec)
    requires b.Valid() && Describe(lib, b).Success?
    ensures e in Describe(lib, b).value.edges <==>
              e.source in b.edges.at && e == EdgeOf(Entry(e.source, b.edges.at[e.source]))
  {
    hide Create, EdgeOf, JoinsOf, NodeOf, ReducerOf, ValidFanOut;
    DescribedNames();
    Described(lib, DescribedParts(b));
    ImageMembers(b.edges, EdgeOf, e);
    if e.source in b.edges.at && e == EdgeOf(Entry(e.source, b.edges.at[e.source])) {
      assert e.source in b.edges.at.Keys;
    }
    if e in DescribedParts(b).edges {
      var k :| k in b.edges.at.Keys && EdgeOf(Entry(k, b.edges.at[k])) == e;
      assert EdgeName(e) == k;
    }
  }

  /** A router that raises, or selects a target it declares; if it declares none, a
      registered node or END. */
  ghost predicate Obedient(graph: Graph, edge: Edge) {
    edge.Conditional? ==> forall s :: Obeys(graph, edge.declared, edge.router(s))
  }

  predicate Obeys(graph: Graph, declared: seq<string>, answer: RouteAnswer) {
    || answer.RouterThrows?
    || (answer.Routes? && if declared != [] then answer.target in declared else graph.Routable(answer.target))
  }

  ghost predicate ObedientGraph(graph: Graph) { forall source <- graph.edges :: Obedient(graph, graph.edges[source]) }

  /** A router that declares its targets selects no other; it may still return no string, and a
      router without declared targets may do anything. */
  ghost predicate Faithful(edge: Edge) {
    edge.Conditional? && edge.declared != [] ==>
      forall s :: edge.router(s).Routes? ==> edge.router(s).target in edge.declared
  }

  ghost predicate FaithfulGraph(graph: Graph) { forall source <- graph.edges :: Faithful(graph.edges[source]) }

  lemma WellFormedMembers(lib: Library, s: GraphSpec, e: EdgeSpec)
    requires WellFormed(lib, s) && e in s.edges
    ensures EdgeFormed(e, NodeNames(s.nodes))
    ensures e.kind.FanOutEdge? ==> RegionFormed(e, NodeNames(s.nodes), Sources(s.edges))
    ensures forall n <- NodeNames(s.nodes) :: !Blank(n)
  {
    hide EdgeFormed, RegionFormed, Blank;
    FanOutMembers(s.edges);
  }

  /** In a well-formed description every edge of the graph leads to registered nodes. */
  lemma EdgeLeadsToNodes(lib: Library, b: Blueprint, source: string)
    requires b.Valid() && Describe(lib, b).Success? && WellFormed(lib, Describe(lib, b).value)
    requires ObedientGraph(b.Compiled())
    ensures var names := b.nodes.at.Keys;
            && LeadsInto(b.Compiled().EdgeFrom(source), Area(names, names + {END}))
            && StringRouter(b.Compiled().EdgeFrom(source))
            && (b.Compiled().EdgeFrom(source).FanOut? ==> source in names)
  {
    hide Describe, WellFormed, ValidFanOut;
    if source in b.edges.at {
      var edge := b.edges.at[source];
      var e := EdgeOf(Entry(source, edge));
      assert Obedient(b.Compiled(), b.Compiled().edges[source]);
      DescribedEdges(lib, b, e);
      DescribedNodes(lib, b);
      WellFormedMembers(lib, Describe(lib, b).value, e);
      assert edge.FanOut? ==> forall x <- edge.branches :: x in e.declared;
      assert edge.Conditional? ==> forall x <- edge.declared :: x in e.declared;
    }
  }

  /** Validated graphs do not go wrong: if the linter reports no error and routers keep to
      what they declare, then under every gate, every interleaving of branches and from
      every state, no run fails for an unknown node or route. */
  lemma ValidatedRunsNeverGoAstray(lib: Library, b: Blueprint, ctx: Ctx, state: State)
    requires b.Valid() && Describe(lib, b).Success? && Clean(LintIssues(lib, Describe(lib, b).value))
    requires ctx.graph == b.Compiled() && ObedientGraph(ctx.graph)
    ensures var r := Run(ctx, state); r.Raise? ==> !Astray(r.error)
  {
    hide Describe, WellFormed, LintIssues, Run, LeadsInto, StringRouter, ObedientGraph, Blank;
    var names := b.nodes.at.Keys;
    var area := Area(names, names + {END});
    CleanIffWellFormed(lib, Describe(lib, b).value);
    EdgeLeadsToNodes(lib, b, START);
    forall n | n in area.selected && n != END
      ensures LeadsInto(ctx.graph.EdgeFrom(n), area) && StringRouter(ctx.graph.EdgeFrom(n))
    {
      EdgeLeadsToNodes(lib, b, n);
    }
    NoBlankNodes(lib, b);
    NeverGoesAstray(ctx, state, area);
  }

  lemma NoBlankNodes(lib: Library, b: Blueprint)
    requires b.Valid() && Describe(lib, b).Success? && WellFormed(lib, Describe(lib, b).value)
    ensures "" !in b.nodes.at && START !in b.nodes.at && END !in b.nodes.at
  {
    hide Describe;
    DescribedNodes(lib, b);
    var s := Describe(lib, b).value;
    forall n | n in s.nodes ensures n.name != "" { assert !Blank(n.name); }
  }

  // ----- unreachability -----

  /** A finite set that holds everything reached. */
  function Universe(edges: seq<EdgeSpec>): set<string> {
    {START} + (set e, b | e in edges && b in e.declared :: b) + (set e | e in edges && e.target.Some? :: e.target.value)
  }

  lemma UniverseHoldsReached(edges: seq<EdgeSpec>)
    ensures forall x :: Reached(edges, x) ==> x in Universe(edges)
  {
    ClosedHoldsReached(edges, Universe(edges));
  }

  ghost function ReachedSet(edges: seq<EdgeSpec>): (r: set<string>)
    ensures forall x :: x in r <==> Reached(edges, x)
  {
    UniverseHoldsReached(edges);
    set x | x in Universe(edges) && Reached(edges, x)
  }

  /** Fan-outs reduced to the step from a region's source to its end. */
  function Spine(edges: seq<EdgeSpec>): seq<EdgeSpec> {
    seq(|edges|, i requires 0 <= i < |edges| =>
      if edges[i].kind.FanOutEdge? then edges[i].(kind := StaticEdge, declared := []) else edges[i])
  }

  lemma SpineLinks(edges: seq<EdgeSpec>, e: EdgeSpec)
    requires e in edges
    ensures (if e.kind.FanOutEdge? then e.(kind := StaticEdge, declared := []) else e) in Spine(edges)
  {
    var i :| 0 <= i < |edges| && edges[i] == e;
    assert Spine(edges)[i] in Spine(edges);
  }

  lemma SpineIsReached(edges: seq<EdgeSpec>)
    ensures forall x :: Reached(Spine(edges), x) ==> Reached(edges, x)
  {
    hide Reached, Trail;
    ReachedStart(edges);
    forall a, b | a in ReachedSet(edges) && Link(Spine(edges), a, b) ensures b in ReachedSet(edges) {
      var e :| e in Spine(edges) && Links(e, a, b);
      var i :| 0 <= i < |edges| && Spine(edges)[i] == e;
      assert Links(edges[i], a, b);
      assert edges[i] in edges;
      ReachedStep(edges, a, b);
    }
    ClosedHoldsReached(Spine(edges), ReachedSet(edges));
  }

  /** What a run may start and select lies within the closures of START. */
  lemma EdgeStaysReached(lib: Library, b: Blueprint, source: string)
    requires b.Valid() && Describe(lib, b).Success? && FaithfulGraph(b.Compiled())
    requires source in b.edges.at
    ensures var edges := Describe(lib, b).value.edges;
            !ReachesOpaque(edges) && Reached(Spine(edges), source) ==>
              LeadsInto(b.edges.at[source], Area(ReachedSet(edges), ReachedSet(Spine(edges))))
  {
    hide Describe, Reached, ValidFanOut;
    var edges := Describe(lib, b).value.edges;
    if !ReachesOpaque(edges) && Reached(Spine(edges), source) {
      var edge := b.edges.at[source];
      var e := EdgeOf(Entry(source, edge));
      DescribedEdges(lib, b, e);
      SpineLinks(edges, e);
      SpineIsReached(edges);
      assert Faithful(b.Compiled().edges[source]);
      NotOpaque(edges, e);
      forall t | Links(if e.kind.FanOutEdge? then e.(kind := StaticEdge, declared := []) else e, source, t)
        ensures Reached(Spine(edges), t)
      {
        ReachedStep(Spine(edges), source, t);
      }
      forall t | Links(e, source, t) ensures Reached(edges, t) { ReachedStep(edges, source, t); }
      assert edge.FanOut? ==> forall x <- edge.branches :: Links(e, source, x);
      assert edge.Conditional? ==> forall x <- edge.declared :: Links(e, source, x);
      assert edge.Conditional? && edge.declared == [] ==> e.declared == [] by { EmptyDeclared(edge); }
    }
  }

  lemma EmptyDeclared(edge: Edge)
    ensures edge.Conditional? && edge.declared == [] ==> SortedKeys(set x | x in edge.declared) == []
  {
    if edge.Conditional? && edge.declared == [] {
      assert (set x | x in edge.declared) == {};
    }
  }

  lemma NotOpaque(edges: seq<EdgeSpec>, e: EdgeSpec)
    requires !ReachesOpaque(edges) && e in edges && Reached(edges, e.source)
    ensures e.kind.ConditionalEdge? ==> e.declared != []
  {
    hide Reached;
    assert e.kind.ConditionalEdge? && e.declared == [] ==> e.source in Lint.Opaque(edges);
  }

  /** Unreachability is sound: a node flagged GS101 is never started, under any gate, any
      interleaving and from any state, as long as routers that declare targets select no other. */
  lemma FlaggedNodesNeverStart(lib: Library, b: Blueprint, ctx: Ctx, state: State, node: string)
    requires b.Valid() && Describe(lib, b).Success? && ctx.graph == b.Compiled() && FaithfulGraph(ctx.graph)
    requires OnNode(GS101, Warning, node) in LintIssues(lib, Describe(lib, b).value)
    ensures forall o <- Obs(Run(ctx, state).log) :: o.NodeStart? ==> o.node != node
  {
    hide Describe, LintIssues, Reached, LeadsInto, Run, FaithfulGraph, Obs;
    var s := Describe(lib, b).value;
    ReportedExactly(lib, s, node);
    var area := Area(ReachedSet(s.edges), ReachedSet(Spine(s.edges)) + {END});
    AreaIsClosed(lib, b);
    NeverLeavesAClosedArea(ctx, state, area);
  }

  lemma WiderArea(edge: Edge, started: set<string>, selected: set<string>)
    requires LeadsInto(edge, Area(started, selected))
    ensures LeadsInto(edge, Area(started, selected + {END}))
  {
  }

  lemma AreaIsClosed(lib: Library, b: Blueprint)
    requires b.Valid() && Describe(lib, b).Success? && FaithfulGraph(b.Compiled())
    requires !ReachesOpaque(Describe(lib, b).value.edges)
    ensures var edges := Describe(lib, b).value.edges;
            ClosedUnderEdges(b.Compiled(), Area(ReachedSet(edges), ReachedSet(Spine(edges)) + {END}))
  {
    hide Describe, Reached, LeadsInto, FaithfulGraph, ReachesOpaque;
    var edges := Describe(lib, b).value.edges;
    var area := Area(ReachedSet(edges), ReachedSet(Spine(edges)) + {END});
    ReachedStart(Spine(edges));
    SpineIsReached(edges);
    forall n | n == START || (n in area.selected && n != END) ensures LeadsInto(b.Compiled().EdgeFrom(n), area) {
      if n in b.edges.at {
        EdgeStaysReached(lib, b, n);
        WiderArea(b.edges.at[n], area.started, ReachedSet(Spine(edges)));
      } else {
        EndIsSelected(area);
      }
    }
  }

  lemma EndIsSelected(area: Area)
    requires END in area.selected
    ensures LeadsInto(Static(END), area)
  {
  }

  /** GS102 is sound where the linter's view of missing edges is harmless: if END is not
      reached and everything a run may select has an edge, no run completes. */
  lemma FlaggedGraphsNeverComplete(lib: Library, b: Blueprint, ctx: Ctx, state: State)
    requires b.Valid() && Describe(lib, b).Success? && ctx.graph == b.Compiled() && FaithfulGraph(ctx.graph)
    requires General(GS102, Warning) in LintIssues(lib, Describe(lib, b).value)
    requires forall n :: Reached(Spine(Describe(lib, b).value.edges), n) ==> n in b.edges.at
    ensures forall o <- Obs(Run(ctx, state).log) :: !o.Done?
  {
    hide Describe, LintIssues, Reached, LeadsInto, Run, FaithfulGraph, Obs, ReachesOpaque;
    var edges := Describe(lib, b).value.edges;
    ReportedExactly(lib, Describe(lib, b).value, "");
    var area := Area(ReachedSet(edges), ReachedSet(Spine(edges)));
    ReachedStart(Spine(edges));
    SpineIsReached(edges);
    forall n | n == START || n in area.selected ensures LeadsInto(ctx.graph.EdgeFrom(n), area) {
      EdgeStaysReached(lib, b, n);
    }
    NeverLeavesAClosedArea(ctx, state, area);
  }

  // ----- when GS102 is right -----

  /** What the scheduler itself may select after `a`, if routers keep to what they declare. */
  ghost predicate Moves(graph: Graph, a: string, t: string) {
    match graph.EdgeFrom(a)
    case Static(target) => t == target
    case Conditional(_, _, declared) => if declared != [] then t in declared else graph.Routable(t)
    case FanOut(_, next, _) => t == next
  }

  ghost predicate Walk(graph: Graph, path: seq<string>) {
    && path != [] && path[0] == START
    && (forall i :: 0 <= i < |path| - 1 ==> path[i] != END)
    && (forall i :: 0 < i < |path| ==> Moves(graph, path[i - 1], path[i]))
  }

  lemma WalkSnoc(graph: Graph, path: seq<string>, t: string)
    requires Walk(graph, path) && path[|path| - 1] != END && Moves(graph, path[|path| - 1], t)
    ensures Walk(graph, path + [t])
  {
    hide Moves;
  }

  /** The scheduler's own edges lead to END. */
  ghost predicate Ends(graph: Graph) {
    exists path :: Walk(graph, path) && path[|path| - 1] == END
  }

  /** Where a source has an edge, the linter and the scheduler see the same moves. */
  lemma SameMoves(lib: Library, b: Blueprint, a: string, t: string)
    requires b.Valid() && Describe(lib, b).Success? && a in b.edges.at
    requires var edges := Describe(lib, b).value.edges; !ReachesOpaque(edges) && Reached(edges, a)
    ensures Link(Spine(Describe(lib, b).value.edges), a, t) <==> Moves(b.Compiled(), a, t)
  {
    hide Describe, Reached, ValidFanOut, ReachesOpaque;
    var edges, edge := Describe(lib, b).value.edges, b.edges.at[a];
    var e := EdgeOf(Entry(a, edge));
    DescribedEdges(lib, b, e);
    NotOpaque(edges, e);
    EmptyDeclared(edge);
    SpineLinks(edges, e);
    var short := if e.kind.FanOutEdge? then e.(kind := StaticEdge, declared := []) else e;
    assert Links(short, a, t) <==> Moves(b.Compiled(), a, t);
    if Link(Spine(edges), a, t) {
      var f :| f in Spine(edges) && Links(f, a, t);
      var i :| 0 <= i < |edges| && Spine(edges)[i] == f;
      DescribedEdges(lib, b, edges[i]);
      assert edges[i] in edges && f.source == a && edges[i] == e;
    }
  }

  lemma NoEdgeMoves(b: Blueprint, a: string)
    requires a !in b.edges.at
    ensures Moves(b.Compiled(), a, END) && forall t :: Moves(b.Compiled(), a, t) ==> t == END
  {
  }

  /** What the linter reaches along the spine can be walked, as long as END is not reached. */
  lemma {:induction false} TrailIsWalk(lib: Library, b: Blueprint, path: seq<string>)
    requires b.Valid() && Describe(lib, b).Success?
    requires var edges := Describe(lib, b).value.edges;
             !ReachesOpaque(edges) && !Reached(edges, END) && Trail(Spine(edges), path)
    ensures Walk(b.Compiled(), path) && Reached(Spine(Describe(lib, b).value.edges), path[|path| - 1])
  {
    hide Describe, Reached, Moves, ReachesOpaque, Spine, Link;
    var edges := Describe(lib, b).value.edges;
    if |path| == 1 {
      ReachedStart(Spine(edges));
    } else {
      var front, a, t := path[..|path| - 1], path[|path| - 2], path[|path| - 1];
      assert Trail(Spine(edges), front);
      TrailIsWalk(lib, b, front);
      SpineIsReached(edges);
      assert Link(Spine(edges), path[|path| - 1 - 1], path[|path| - 1]);
      LinkHasEdge(lib, b, a, t);
      SameMoves(lib, b, a, t);
      ReachedStep(Spine(edges), a, t);
    }
  }

  lemma LinkHasEdge(lib: Library, b: Blueprint, a: string, t: string)
    requires b.Valid() && Describe(lib, b).Success? && Link(Spine(Describe(lib, b).value.edges), a, t)
    ensures a in b.edges.at
  {
    hide Describe, ValidFanOut;
    var edges := Describe(lib, b).value.edges;
    var f :| f in Spine(edges) && Links(f, a, t);
    var i :| 0 <= i < |edges| && Spine(edges)[i] == f;
    assert edges[i] in edges;
    DescribedEdges(lib, b, edges[i]);
  }

  /** GS102 against the scheduler's own edges: a flagged graph can reach END after all if
      and only if something selectable, other than END, has no edge. */
  lemma FlagIsWrongIffEdgeMissing(lib: Library, b: Blueprint)
    requires b.Valid() && Describe(lib, b).Success?
    requires General(GS102, Warning) in LintIssues(lib, Describe(lib, b).value)
    ensures Ends(b.Compiled()) <==> exists n :: Reached(Spine(Describe(lib, b).value.edges), n) && n !in b.edges.at
  {
    hide Describe, LintIssues, Reached, Moves, ReachesOpaque, Spine;
    var edges := Describe(lib, b).value.edges;
    ReportedExactly(lib, Describe(lib, b).value, "");
    SpineIsReached(edges);
    if exists n :: Reached(Spine(edges), n) && n !in b.edges.at {
      var n :| Reached(Spine(edges), n) && n !in b.edges.at;
      var path := TrailTo(Spine(edges), n);
      WalkThenEnd(lib, b, path);
    }
    if Ends(b.Compiled()) {
      var path :| Walk(b.Compiled(), path) && path[|path| - 1] == END;
      FirstWithoutEdge(lib, b, path);
    }
  }

  lemma TrailTo(edges: seq<EdgeSpec>, n: string) returns (path: seq<string>)
    requires Reached(edges, n)
    ensures Trail(edges, path) && path[|path| - 1] == n
  {
    hide Link;
    path :| Trail(edges, path) && path[|path| - 1] == n;
  }

  lemma WalkThenEnd(lib: Library, b: Blueprint, path: seq<string>)
    requires b.Valid() && Describe(lib, b).Success?
    requires var edges := Describe(lib, b).value.edges;
             !ReachesOpaque(edges) && !Reached(edges, END) && Trail(Spine(edges), path)
    requires path[|path| - 1] !in b.edges.at
    ensures Ends(b.Compiled())
  {
    hide Describe, Moves, ReachesOpaque, Spine, Link, Reached, Walk;
    var edges := Describe(lib, b).value.edges;
    var n := path[|path| - 1];
    TrailIsWalk(lib, b, path);
    SpineIsReached(edges);
    NoEdgeMoves(b, n);
    WalkSnoc(b.Compiled(), path, END);
    assert (path + [END])[|path + [END]| - 1] == END;
  }

  /** A walk to END that the linter misses passes a name without an edge. */
  lemma {:induction false} FirstWithoutEdge(lib: Library, b: Blueprint, path: seq<string>)
    requires b.Valid() && Describe(lib, b).Success?
    requires var edges := Describe(lib, b).value.edges; !ReachesOpaque(edges) && !Reached(edges, END)
    requires Walk(b.Compiled(), path)
    ensures Reached(Spine(Describe(lib, b).value.edges), path[|path| - 1])
            || exists n :: Reached(Spine(Describe(lib, b).value.edges), n) && n !in b.edges.at
    ensures path[|path| - 1] == END ==> exists n :: Reached(Spine(Describe(lib, b).value.edges), n) && n !in b.edges.at
  {
    hide Describe, Reached, Moves, ReachesOpaque, Spine;
    var edges := Describe(lib, b).value.edges;
    SpineIsReached(edges);
    if |path| == 1 {
      ReachedStart(Spine(edges));
    } else {
      var front, a, t := path[..|path| - 1], path[|path| - 2], path[|path| - 1];
      assert Walk(b.Compiled(), front);
      FirstWithoutEdge(lib, b, front);
      if Reached(Spine(edges), a) && a in b.edges.at {
        SameMoves(lib, b, a, t);
        ReachedStep(Spine(edges), a, t);
      }
    }
  }

  // ----- where GS102 is wrong -----

  function NoEntries<T>(): Table<T> { Table([], map[]) }

  /** One node, entered from START, without an edge of its own. */
  function Lonely(): Blueprint {
    Blueprint(Table(["a"], map["a" := Node(s => Delivers(map[]), None)]), Table([START], map[START := Static("a")]),
              NoEntries(), 1)
  }

  const ENTRY := EdgeSpec(START, StaticEdge, Some("a"), None, [], NOTHING)

  lemma LonelyIsDescribed(lib: Library)
    ensures Lonely().Valid() && Describe(lib, Lonely()).Success?
    ensures forall e :: e in Describe(lib, Lonely()).value.edges ==> e == ENTRY
  {
    hide Describe, ValidFanOut;
    var b := Lonely();
    assert b.Valid();
    DescriptionIsCreated(lib, b);
    forall e | e in Describe(lib, b).value.edges ensures e == ENTRY {
      DescribedEdges(lib, b, e);
    }
  }

  lemma LonelyIsFlagged(lib: Library)
    requires Describe(lib, Lonely()).Success?
    requires forall e :: e in Describe(lib, Lonely()).value.edges ==> e == ENTRY
    ensures General(GS102, Warning) in LintIssues(lib, Describe(lib, Lonely()).value)
  {
    hide Describe, LintIssues;
    var edges := Describe(lib, Lonely()).value.edges;
    ClosedHoldsReached(edges, {START, "a"});
    assert |END| != |START| && |END| != |"a"|;
    ReportedExactly(lib, Describe(lib, Lonely()).value, "");
  }

  /** The entry leads to the node, and the node without an edge to END. */
  lemma LonelyTurn(ctx: Ctx, state: State, log: Log)
    requires ctx.graph == Lonely().Compiled() && ctx.gate.NoGate? && Visit(state, ["a"]).Some?
    ensures var selected := Route(ctx, START, ctx.graph.EdgeFrom(START), state, 0, []);
            selected.Go? && selected.value == "a"
    ensures var turn := TakeTurn(ctx, state, 0, "a", log); turn.Go? && turn.value.target == END
  {
    hide Visit;
    assert |END| != |START| && |END| != |"a"|;
  }

  lemma LonelyCompletes(ctx: Ctx, state: State)
    requires ctx.graph == Lonely().Compiled() && ctx.gate.NoGate? && Visit(state, ["a"]).Some?
    ensures exists o <- Obs(Run(ctx, state).log) :: o.Done?
  {
    hide Run, Obs, Loop, TakeTurn, Route;
    assert |END| != |START| && |END| != |"a"|;
    RunUnfolds(ctx, state);
    var selected := Route(ctx, START, ctx.graph.EdgeFrom(START), state, 0, []);
    LonelyTurn(ctx, state, selected.log);
    var turn := TakeTurn(ctx, state, 0, "a", selected.log);
    LoopUnfolds(ctx, state, 0, "a", START, selected.log);
    LoopUnfolds(ctx, turn.value.state, turn.value.steps, END, "a", turn.log);
    var done := Done(turn.value.steps, Merge(turn.value.state, map[STATUS := Str("done")]));
    var log := Run(ctx, state).log;
    assert log[|log| - 1] == Observed(done);
    ObservedEvents(log);
    assert done in Obs(log);
  }

  /** A missing edge means END to the scheduler, not to the linter: without the condition
      of FlaggedGraphsNeverComplete a flagged graph may complete. */
  lemma FlaggedGraphMayComplete(lib: Library, ctx: Ctx, state: State)
    requires ctx.graph == Lonely().Compiled() && ctx.gate.NoGate? && Visit(state, ["a"]).Some?
    ensures Describe(lib, Lonely()).Success?
            && General(GS102, Warning) in LintIssues(lib, Describe(lib, Lonely()).value)
    ensures exists o <- Obs(Run(ctx, state).log) :: o.Done?
  {
    hide Describe, LintIssues, Run, Obs;
    LonelyIsDescribed(lib);
    LonelyIsFlagged(lib);
    LonelyCompletes(ctx, state);
  }
}
