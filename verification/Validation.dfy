/** What a clean report means: the description is well formed, and conversely. */
module Validation {
  import opened Values
  import opened Ordering
  import opened Sorting
  import opened JsonTrees
  import opened Topology
  import opened Spec
  import opened Lint

  ghost predicate Distinct<T>(name: T -> string, xs: seq<T>) {
    forall i, j :: 0 <= i < j < |xs| ==> name(xs[i]) != name(xs[j])
  }

  ghost predicate NodesFormed(nodes: seq<NodeSpec>) {
    && Distinct(NodeName, nodes)
    && forall n <- nodes :: !Blank(n.name) && n.name != START && n.name != END
  }

  /** The shape of one ordinary edge, its source and its targets. */
  ghost predicate EdgeFormed(e: EdgeSpec, names: set<string>) {
    match e.kind
    case StaticEdge =>
      && e.target.Some? && Known(names, e.target.value) && e.routerRef.None? && e.declared == []
      && (e.source == START || e.source in names)
    case ConditionalEdge =>
      && e.target.None? && (forall t <- e.declared :: Known(names, t))
      && (e.source == START || e.source in names)
    case FanOutEdge => true
  }

  ghost predicate EdgesFormed(edges: seq<EdgeSpec>, names: set<string>) {
    && Distinct(EdgeName, edges)
    && forall e <- edges :: EdgeFormed(e, names)
  }

  ghost predicate BranchFormed(e: EdgeSpec, branch: string, names: set<string>, sources: set<string>) {
    && branch in names && branch !in sources
    && branch != e.source && Some(branch) != e.target && branch != START && branch != END
  }

  ghost predicate RegionFormed(e: EdgeSpec, names: set<string>, sources: set<string>) {
    && e.source in names && (e.target.Some? ==> Known(names, e.target.value))
    && forall b <- e.declared :: BranchFormed(e, b, names, sources)
  }

  /** No node is a branch of two regions. */
  ghost predicate Disjoint(fanouts: seq<EdgeSpec>) {
    forall e, f, b :: e in fanouts && f in fanouts && b in e.declared && b in f.declared ==> e.source == f.source
  }

  ghost predicate RegionsFormed(fanouts: seq<EdgeSpec>, names: set<string>, sources: set<string>) {
    (forall e <- fanouts :: RegionFormed(e, names, sources)) && Disjoint(fanouts)
  }

  ghost predicate JoinFormed(j: JoinSpec, fanouts: seq<EdgeSpec>) {
    && (exists e <- fanouts :: e.source == j.source)
    && forall e <- fanouts :: e.source == j.source && j.kind.KQuorum? && j.quorum.Some?
          ==> j.quorum.value <= |e.declared|
  }

  ghost predicate JoinsFormed(joins: seq<JoinSpec>, fanouts: seq<EdgeSpec>) {
    Distinct(JoinName, joins) && forall j <- joins :: JoinFormed(j, fanouts)
  }

  ghost predicate WellFormed(lib: Library, s: GraphSpec) {
    var names, sources, fanouts := NodeNames(s.nodes), Sources(s.edges), FanOuts(s.edges);
    && Supported(s.schema) && s.graphId == lib.digest(JObj(SpecPayload(lib, s)))
    && (s.schema == V1 <==> fanouts == [] && s.reducers == [] && s.joins == [])
    && s.maxSteps > 0 && START in sources
    && NodesFormed(s.nodes) && EdgesFormed(s.edges, names)
    && RegionsFormed(fanouts, names, sources) && JoinsFormed(s.joins, fanouts) && Distinct(FieldName, s.reducers)
  }

  // ----- section by section -----

  lemma CleanBoth(a: seq<Issue>, b: seq<Issue>)
    ensures Clean(a + b) <==> Clean(a) && Clean(b)
  {
    assert forall i :: i in a ==> i in a + b;
    assert forall i :: i in b ==> i in a + b;
  }

  lemma CleanWhen(condition: bool, issue: Issue)
    ensures Clean(When(condition, issue)) <==> !condition || issue.severity.Warning?
  {
  }

  lemma NodeClean(n: NodeSpec, seen: set<string>)
    ensures Clean(NodeIssues(n, seen)) <==> n.name !in seen && !Blank(n.name) && n.name != START && n.name != END
  {
    hide When, Clean, Blank;
    var a, b := When(n.name in seen, OnNode(GS001, Error, n.name)), When(Blank(n.name), OnNode(GS002, Error, n.name));
    var c := When(n.name == START || n.name == END, OnNode(GS011, Error, n.name));
    var d := When(n.ref.None?, OnNode(GS104, Warning, n.name));
    CleanBoth(a, b);
    CleanBoth(a + b, c);
    CleanBoth(a + b + c, d);
    CleanWhen(n.name in seen, OnNode(GS001, Error, n.name));
    CleanWhen(Blank(n.name), OnNode(GS002, Error, n.name));
    CleanWhen(n.name == START || n.name == END, OnNode(GS011, Error, n.name));
    CleanWhen(n.ref.None?, OnNode(GS104, Warning, n.name));
  }

  lemma DistinctSnoc<T>(name: T -> string, front: seq<T>, last: T)
    ensures Distinct(name, front + [last]) <==> Distinct(name, front) && forall x <- front :: name(x) != name(last)
  {
    var xs := front + [last];
    if Distinct(name, xs) {
      forall i, j | 0 <= i < j < |front| ensures name(front[i]) != name(front[j]) {
        assert name(xs[i]) != name(xs[j]);
      }
      forall x | x in front ensures name(x) != name(last) {
        var i :| 0 <= i < |front| && front[i] == x;
        assert name(xs[i]) != name(xs[|front|]);
      }
    }
  }

  lemma CleanNothing()
    ensures Clean([])
  {
  }

  lemma {:induction false} NodesClean(nodes: seq<NodeSpec>)
    ensures Clean(AllNodeIssues(nodes)) <==> NodesFormed(nodes)
  {
    hide NodeIssues, Blank, Clean, Distinct;
    CleanNothing();
    if nodes == [] {
      assert Distinct(NodeName, nodes) by { DistinctNone(NodeName); }
    } else {
      var front, last := nodes[..|nodes| - 1], nodes[|nodes| - 1];
      NodesClean(front);
      NodeClean(last, NodeNames(front));
      CleanBoth(AllNodeIssues(front), NodeIssues(last, NodeNames(front)));
      DistinctSnoc(NodeName, front, last);
      assert nodes == front + [last];
      assert forall n :: n in nodes <==> n in front || n == last;
    }
  }

  lemma DistinctNone<T>(name: T -> string)
    ensures Distinct(name, [])
  {
  }

  lemma {:induction false} DeclaredClean(source: string, declared: seq<string>, names: set<string>)
    ensures Clean(DeclaredIssues(source, declared, names)) <==> forall t <- declared :: Known(names, t)
  {
    hide Clean, When, Known;
    CleanNothing();
    if declared != [] {
      var front, last := declared[..|declared| - 1], declared[|declared| - 1];
      DeclaredClean(source, front, names);
      CleanBoth(DeclaredIssues(source, front, names), When(!Known(names, last), OnTarget(GS007, source, Some(last))));
      CleanWhen(!Known(names, last), OnTarget(GS007, source, Some(last)));
      assert declared == front + [last];
    }
  }

  lemma CleanThree(a: seq<Issue>, b: seq<Issue>, c: seq<Issue>)
    ensures Clean(a + b + c) <==> Clean(a) && Clean(b) && Clean(c)
  {
    hide Clean;
    CleanBoth(a, b);
    CleanBoth(a + b, c);
  }

  lemma StaticClean(e: EdgeSpec, names: set<string>)
    requires e.kind.StaticEdge?
    ensures Clean(StaticIssues(e, names)) <==> EdgeFormed(e, names)
  {
    hide Clean, When, Known;
    var orphan := e.source != START && e.source !in names;
    var shape := e.target.None? || e.routerRef.Some? || e.declared != [];
    var lost := e.target.Some? && !Known(names, e.target.value);
    CleanThree(When(shape, OnTarget(GS008, e.source, e.target)), When(orphan, OnTarget(GS004, e.source, e.target)),
               When(lost, OnTarget(GS005, e.source, e.target)));
    CleanWhen(shape, OnTarget(GS008, e.source, e.target));
    CleanWhen(orphan, OnTarget(GS004, e.source, e.target));
    CleanWhen(lost, OnTarget(GS005, e.source, e.target));
  }

  lemma ConditionalClean(e: EdgeSpec, names: set<string>)
    requires e.kind.ConditionalEdge?
    ensures Clean(ConditionalIssues(e, names)) <==> EdgeFormed(e, names)
  {
    hide Clean, When, Known, DeclaredIssues;
    var orphan := e.source != START && e.source !in names;
    var a := When(e.target.Some?, OnTarget(GS009, e.source, e.target));
    var b := When(orphan, OnSource(GS006, Error, e.source));
    var c, d := DeclaredIssues(e.source, e.declared, names), When(e.declared == [], OnSource(GS103, Warning, e.source));
    CleanThree(a, b, c);
    CleanThree(a + b + c, d, When(e.routerRef.None?, OnSource(GS105, Warning, e.source)));
    CleanWhen(e.target.Some?, OnTarget(GS009, e.source, e.target));
    CleanWhen(orphan, OnSource(GS006, Error, e.source));
    DeclaredClean(e.source, e.declared, names);
    CleanWhen(e.declared == [], OnSource(GS103, Warning, e.source));
    CleanWhen(e.routerRef.None?, OnSource(GS105, Warning, e.source));
  }

  lemma EdgeClean(e: EdgeSpec, seen: set<string>, names: set<string>)
    ensures Clean(EdgeIssues(e, seen, names)) <==> e.source !in seen && EdgeFormed(e, names)
  {
    hide Clean, When, StaticIssues, ConditionalIssues;
    var twice := When(e.source in seen, OnSource(GS012, Error, e.source));
    CleanWhen(e.source in seen, OnSource(GS012, Error, e.source));
    match e.kind
    case StaticEdge =>
      CleanBoth(twice, StaticIssues(e, names));
      StaticClean(e, names);
    case ConditionalEdge =>
      CleanBoth(twice, ConditionalIssues(e, names));
      ConditionalClean(e, names);
    case FanOutEdge =>
      assert twice + [] == twice;
  }

  lemma {:induction false} EdgesClean(edges: seq<EdgeSpec>, names: set<string>)
    ensures Clean(AllEdgeIssues(edges, names)) <==> EdgesFormed(edges, names)
  {
    hide EdgeIssues, EdgeFormed, Clean, Distinct;
    CleanNothing();
    if edges == [] {
      assert Distinct(EdgeName, edges) by { DistinctNone(EdgeName); }
    } else {
      var front, last := edges[..|edges| - 1], edges[|edges| - 1];
      EdgesClean(front, names);
      EdgeClean(last, Sources(front), names);
      CleanBoth(AllEdgeIssues(front, names), EdgeIssues(last, Sources(front), names));
      DistinctSnoc(EdgeName, front, last);
      assert edges == front + [last];
      assert forall e :: e in edges <==> e in front || e == last;
    }
  }

  // ----- regions -----

  /** Every branch is claimed by the one region that lists it. */
  ghost predicate ClaimedBy(e: EdgeSpec, branches: seq<string>, before: map<string, string>,
                            after: map<string, string>) {
    forall b :: (b in after <==> b in before || b in branches)
             && (b in before ==> b in after && after[b] == before[b])
             && (b in branches && b !in before ==> b in after && after[b] == e.source)
  }

  lemma BranchClean(e: EdgeSpec, branch: string, names: set<string>, sources: set<string>, acc: Claims)
    ensures var r := BranchClaims(e, branch, names, sources, acc);
            Clean(r.issues) <==> Clean(acc.issues) && BranchFormed(e, branch, names, sources)
                                 && (branch in acc.claimed ==> acc.claimed[branch] == e.source)
  {
    hide Clean, When;
    if branch !in names {
      CleanBoth(acc.issues, [OnTarget(GS202, e.source, Some(branch))]);
      assert !Clean([OnTarget(GS202, e.source, Some(branch))]) by {
        CleanWhen(true, OnTarget(GS202, e.source, Some(branch)));
        assert When(true, OnTarget(GS202, e.source, Some(branch))) == [OnTarget(GS202, e.source, Some(branch))] by {
          WhenTrue(OnTarget(GS202, e.source, Some(branch)));
        }
      }
    } else {
      var misplaced := branch == e.source || Some(branch) == e.target || branch == START || branch == END;
      var taken := branch in acc.claimed && acc.claimed[branch] != e.source;
      var a := When(misplaced, OnTarget(GS203, e.source, Some(branch)));
      var b := When(branch in sources, OnTarget(GS204, e.source, Some(branch)));
      CleanThree(acc.issues, a, b);
      CleanBoth(acc.issues + a + b, When(taken, OnTarget(GS206, e.source, Some(branch))));
      CleanWhen(misplaced, OnTarget(GS203, e.source, Some(branch)));
      CleanWhen(branch in sources, OnTarget(GS204, e.source, Some(branch)));
      CleanWhen(taken, OnTarget(GS206, e.source, Some(branch)));
    }
  }

  lemma WhenTrue(issue: Issue)
    ensures When(true, issue) == [issue]
  {
  }

  lemma {:induction false} BranchesClean(e: EdgeSpec, branches: seq<string>, names: set<string>, sources: set<string>,
                                         acc: Claims)
    ensures var r := BranchesClaims(e, branches, names, sources, acc);
            && (Clean(r.issues) <==> Clean(acc.issues) && (forall b <- branches :: BranchFormed(e, b, names, sources))
                                     && forall b <- branches :: b in acc.claimed ==> acc.claimed[b] == e.source)
            && (Clean(r.issues) ==> ClaimedBy(e, branches, acc.claimed, r.claimed))
  {
    hide Clean, When;
    if branches != [] {
      var front, last := branches[..|branches| - 1], branches[|branches| - 1];
      BranchesClean(e, front, names, sources, acc);
      BranchClean(e, last, names, sources, BranchesClaims(e, front, names, sources, acc));
      assert branches == front + [last];
      assert forall b :: b in branches <==> b in front || b == last;
    }
  }

  lemma HeadClean(e: EdgeSpec, names: set<string>)
    ensures Clean(RegionHead(e, names)) <==> e.source in names && (e.target.Some? ==> Known(names, e.target.value))
  {
    hide Clean, When, Known;
    var lost := e.target.Some? && !Known(names, e.target.value);
    CleanBoth(When(e.source !in names, OnSource(GS201, Error, e.source)),
              When(lost, OnTarget(GS205, e.source, e.target)));
    CleanWhen(e.source !in names, OnSource(GS201, Error, e.source));
    CleanWhen(lost, OnTarget(GS205, e.source, e.target));
  }

  /** Each claimed branch belongs to a region, and to no region of another source. */
  ghost predicate Claimed(fanouts: seq<EdgeSpec>, claimed: map<string, string>) {
    && (forall b <- claimed :: exists e <- fanouts :: b in e.declared && e.source == claimed[b])
    && forall e, b :: e in fanouts && b in e.declared ==> b in claimed && claimed[b] == e.source
  }

  lemma DisjointSnoc(front: seq<EdgeSpec>, last: EdgeSpec, claimed: map<string, string>)
    requires Claimed(front, claimed) && Disjoint(front)
    ensures Disjoint(front + [last]) <==> forall b <- last.declared :: b in claimed ==> claimed[b] == last.source
  {
    var all := front + [last];
    assert forall e :: e in all <==> e in front || e == last;
  }

  lemma ClaimedSnoc(front: seq<EdgeSpec>, last: EdgeSpec, before: map<string, string>, after: map<string, string>)
    requires Claimed(front, before) && ClaimedBy(last, last.declared, before, after)
    requires forall b <- last.declared :: b in before ==> before[b] == last.source
    ensures Claimed(front + [last], after)
  {
    var all := front + [last];
    assert forall e :: e in all <==> e in front || e == last;
    forall b | b in after ensures exists e <- all :: b in e.declared && e.source == after[b] {
      if b in before {
        var e :| e in front && b in e.declared && e.source == before[b];
        assert e in all;
      } else {
        assert last in all;
      }
    }
  }

  lemma RegionsSnoc(front: seq<EdgeSpec>, last: EdgeSpec, names: set<string>, sources: set<string>)
    ensures (forall e <- front + [last] :: RegionFormed(e, names, sources)) <==>
            (forall e <- front :: RegionFormed(e, names, sources)) && RegionFormed(last, names, sources)
  {
    assert forall e :: e in front + [last] <==> e in front || e == last;
  }

  lemma {:induction false} FanOutsClean(fanouts: seq<EdgeSpec>, names: set<string>, sources: set<string>)
    ensures var r := RegionClaims(fanouts, names, sources);
            && (Clean(r.issues) <==> RegionsFormed(fanouts, names, sources))
            && (Clean(r.issues) ==> Claimed(fanouts, r.claimed))
  {
    hide Clean, RegionHead, BranchFormed, BranchesClaims, Disjoint, Known, Claimed, ClaimedBy;
    if fanouts == [] {
      CleanNothing();
      assert Disjoint(fanouts) && Claimed(fanouts, map[]) by { DisjointNone(); }
    } else {
      var front, last := fanouts[..|fanouts| - 1], fanouts[|fanouts| - 1];
      var acc := RegionClaims(front, names, sources);
      var headed := Claims(acc.issues + RegionHead(last, names), acc.claimed);
      FanOutsClean(front, names, sources);
      HeadClean(last, names);
      CleanBoth(acc.issues, RegionHead(last, names));
      BranchesClean(last, last.declared, names, sources, headed);
      RegionsSnoc(front, last, names, sources);
      FrontDisjoint(front, last);
      assert fanouts == front + [last];
      if Clean(acc.issues) {
        DisjointSnoc(front, last, acc.claimed);
        var r := RegionClaims(fanouts, names, sources);
        if Clean(r.issues) { ClaimedSnoc(front, last, acc.claimed, r.claimed); }
      }
    }
  }

  lemma DisjointNone()
    ensures Disjoint([]) && Claimed([], map[])
  {
  }

  lemma FrontDisjoint(front: seq<EdgeSpec>, last: EdgeSpec)
    ensures Disjoint(front + [last]) ==> Disjoint(front)
  {
    assert forall e :: e in front ==> e in front + [last];
  }

  // ----- joins and reducers -----

  ghost predicate Counts(fanouts: seq<EdgeSpec>, counts: map<string, nat>) {
    && (forall s :: s in counts <==> exists e <- fanouts :: e.source == s)
    && forall e <- fanouts :: e.source in counts && counts[e.source] == |e.declared|
  }

  lemma {:induction false} CountsBranches(fanouts: seq<EdgeSpec>)
    requires Distinct(EdgeName, fanouts)
    ensures Counts(fanouts, BranchCounts(fanouts))
  {
    if fanouts != [] {
      var front, last := fanouts[..|fanouts| - 1], fanouts[|fanouts| - 1];
      assert fanouts == front + [last];
      DistinctSnoc(EdgeName, front, last);
      CountsBranches(front);
      assert forall e :: e in fanouts <==> e in front || e == last;
      forall s ensures s in BranchCounts(fanouts) <==> exists e <- fanouts :: e.source == s {
        assert last in fanouts;
      }
    }
  }

  lemma JoinClean(j: JoinSpec, fanouts: seq<EdgeSpec>, counts: map<string, nat>, seen: set<string>)
    requires Counts(fanouts, counts)
    ensures Clean(JoinIssues(j, counts, seen)) <==> j.source !in seen && JoinFormed(j, fanouts)
  {
    hide Clean, When;
    var excess := j.kind.KQuorum? && j.quorum.Some? && j.source in counts && j.quorum.value > counts[j.source];
    var a := When(j.source !in counts, OnSource(GS207, Error, j.source));
    var b := When(j.source in seen, OnSource(GS208, Error, j.source));
    var c := When(excess, OnSource(GS209, Error, j.source));
    CleanThree(a, b, c);
    CleanBoth(a + b + c, When(j.kind.KCustomJoin? && j.ref.None?, OnSource(GS213, Warning, j.source)));
    CleanWhen(j.source !in counts, OnSource(GS207, Error, j.source));
    CleanWhen(j.source in seen, OnSource(GS208, Error, j.source));
    CleanWhen(excess, OnSource(GS209, Error, j.source));
    CleanWhen(j.kind.KCustomJoin? && j.ref.None?, OnSource(GS213, Warning, j.source));
  }

  lemma {:induction false} JoinsClean(joins: seq<JoinSpec>, fanouts: seq<EdgeSpec>, counts: map<string, nat>)
    requires Counts(fanouts, counts)
    ensures Clean(AllJoinIssues(joins, counts)) <==> JoinsFormed(joins, fanouts)
  {
    hide Clean, JoinIssues, JoinFormed, Distinct, Counts;
    CleanNothing();
    if joins == [] {
      assert Distinct(JoinName, joins) by { DistinctNone(JoinName); }
    } else {
      var front, last := joins[..|joins| - 1], joins[|joins| - 1];
      JoinsClean(front, fanouts, counts);
      JoinClean(last, fanouts, counts, JoinSources(front));
      CleanBoth(AllJoinIssues(front, counts), JoinIssues(last, counts, JoinSources(front)));
      DistinctSnoc(JoinName, front, last);
      assert joins == front + [last];
      assert forall j :: j in joins <==> j in front || j == last;
    }
  }

  lemma ReducerClean(r: ReducerSpec, seen: set<string>)
    ensures Clean(ReducerIssues(r, seen)) <==> r.field !in seen
  {
    hide Clean, When;
    CleanBoth(When(r.field in seen, OnNode(GS210, Error, r.field)),
              When(r.kind.KCustom? && r.ref.None?, OnNode(GS213, Warning, r.field)));
    CleanWhen(r.field in seen, OnNode(GS210, Error, r.field));
    CleanWhen(r.kind.KCustom? && r.ref.None?, OnNode(GS213, Warning, r.field));
  }

  lemma {:induction false} ReducersClean(reducers: seq<ReducerSpec>)
    ensures Clean(AllReducerIssues(reducers)) <==> Distinct(FieldName, reducers)
  {
    hide Clean, ReducerIssues, Distinct;
    CleanNothing();
    if reducers == [] {
      DistinctNone(FieldName);
    } else {
      var front, last := reducers[..|reducers| - 1], reducers[|reducers| - 1];
      ReducersClean(front);
      ReducerClean(last, FieldNames(front));
      CleanBoth(AllReducerIssues(front), ReducerIssues(last, FieldNames(front)));
      DistinctSnoc(FieldName, front, last);
      assert reducers == front + [last];
    }
  }

  // ----- the whole report -----

  lemma {:induction false} FanOutMembers(edges: seq<EdgeSpec>)
    ensures forall e :: e in FanOuts(edges) <==> e in edges && e.kind.FanOutEdge?
  {
    if edges != [] {
      FanOutMembers(edges[..|edges| - 1]);
      assert edges == edges[..|edges| - 1] + [edges[|edges| - 1]];
    }
  }

  lemma {:induction false} FanOutsDistinct(edges: seq<EdgeSpec>)
    requires Distinct(EdgeName, edges)
    ensures Distinct(EdgeName, FanOuts(edges))
  {
    hide Distinct;
    if edges == [] {
      DistinctNone(EdgeName);
    } else {
      var front, last := edges[..|edges| - 1], edges[|edges| - 1];
      assert edges == front + [last];
      DistinctSnoc(EdgeName, front, last);
      FanOutsDistinct(front);
      FanOutMembers(front);
      DistinctSnoc(EdgeName, FanOuts(front), last);
      assert FanOuts(edges) == if last.kind.FanOutEdge? then FanOuts(front) + [last] else FanOuts(front);
    }
  }

  lemma RegionIssuesClean(s: GraphSpec, names: set<string>)
    requires Distinct(EdgeName, s.edges) && Supported(s.schema)
    ensures var fanouts := FanOuts(s.edges);
            Clean(RegionIssues(s, names)) <==>
              (s.schema == V1 <==> fanouts == [] && s.reducers == [] && s.joins == [])
              && RegionsFormed(fanouts, names, Sources(s.edges)) && JoinsFormed(s.joins, fanouts)
              && Distinct(FieldName, s.reducers)
  {
    hide Clean, When, RegionsFormed, JoinsFormed, Distinct, RegionClaims, BranchCounts, AllJoinIssues,
         AllReducerIssues, Counts, FanOuts;
    var fanouts := FanOuts(s.edges);
    FanOutsDistinct(s.edges);
    CountsBranches(fanouts);
    var regions := fanouts != [] || s.reducers != [] || s.joins != [];
    var early, idle := regions && s.schema == V1, !regions && Supported(s.schema) && s.schema != V1;
    var a, b := When(early, General(GS211, Error)), When(idle, General(GS212, Error));
    var c, d := RegionClaims(fanouts, names, Sources(s.edges)).issues, AllJoinIssues(s.joins, BranchCounts(fanouts));
    var unused := s.reducers != [] && fanouts == [];
    CleanThree(a, b, c);
    CleanThree(a + b + c, d, AllReducerIssues(s.reducers));
    CleanBoth(a + b + c + d + AllReducerIssues(s.reducers), When(unused, General(GS214, Warning)));
    CleanWhen(early, General(GS211, Error));
    CleanWhen(idle, General(GS212, Error));
    FanOutsClean(fanouts, names, Sources(s.edges));
    JoinsClean(s.joins, fanouts, BranchCounts(fanouts));
    ReducersClean(s.reducers);
    CleanWhen(unused, General(GS214, Warning));
  }

  lemma {:induction false} UnreachableClean(names: seq<string>)
    ensures Clean(UnreachableIssues(names))
  {
    if names != [] { UnreachableClean(names[..|names| - 1]); }
  }

  lemma ReachabilityClean(s: GraphSpec)
    ensures Clean(ReachabilityIssues(s))
  {
    hide Clean, When, Reached;
    CleanNothing();
    var unreached := UnreachableIssues(SortedKeys(UnreachedNodes(s)));
    UnreachableClean(SortedKeys(UnreachedNodes(s)));
    CleanBoth(unreached, When(!Reached(s.edges, END), General(GS102, Warning)));
    CleanWhen(!Reached(s.edges, END), General(GS102, Warning));
  }

  lemma HeaderClean(lib: Library, s: GraphSpec)
    ensures Clean(HeaderIssues(lib, s)) <==> Supported(s.schema) && s.graphId == lib.digest(JObj(SpecPayload(lib, s)))
  {
    hide Clean, When, SpecPayload, Supported;
    var forged := s.graphId != lib.digest(JObj(SpecPayload(lib, s)));
    CleanBoth(When(!Supported(s.schema), General(GS013, Error)), When(forged, General(GS014, Error)));
    CleanWhen(!Supported(s.schema), General(GS013, Error));
    CleanWhen(forged, General(GS014, Error));
  }

  lemma ReportClean(lib: Library, s: GraphSpec)
    ensures Clean(LintIssues(lib, s)) <==>
              Clean(HeaderIssues(lib, s)) && Clean(AllNodeIssues(s.nodes)) && s.maxSteps > 0 &&
              START in Sources(s.edges)
              && Clean(AllEdgeIssues(s.edges, NodeNames(s.nodes))) && Clean(RegionIssues(s, NodeNames(s.nodes)))
  {
    hide Clean, When, HeaderIssues, AllNodeIssues, AllEdgeIssues, RegionIssues, ReachabilityIssues, Sources;
    var names := NodeNames(s.nodes);
    var a, b := HeaderIssues(lib, s), AllNodeIssues(s.nodes);
    var c := When(s.maxSteps <= 0, General(GS010, Error));
    var d := When(START !in Sources(s.edges), OnSource(GS003, Error, START));
    var e := AllEdgeIssues(s.edges, names);
    CleanThree(a, b, c);
    CleanThree(a + b + c, d, e);
    CleanThree(a + b + c + d + e, RegionIssues(s, names), ReachabilityIssues(s));
    CleanWhen(s.maxSteps <= 0, General(GS010, Error));
    CleanWhen(START !in Sources(s.edges), OnSource(GS003, Error, START));
    ReachabilityClean(s);
  }

  /** `valid` is exactly well-formedness: the linter finds an error in every description
      that is not well formed, and in no other. */
  lemma CleanIffWellFormed(lib: Library, s: GraphSpec)
    ensures Clean(LintIssues(lib, s)) <==> WellFormed(lib, s)
  {
    hide Clean, LintIssues, HeaderIssues, AllNodeIssues, AllEdgeIssues, RegionIssues, NodesFormed, RegionsFormed,
         JoinsFormed, Distinct, SpecPayload, Supported, Sources, FanOuts, EdgeFormed;
    ReportClean(lib, s);
    HeaderClean(lib, s);
    NodesClean(s.nodes);
    EdgesClean(s.edges, NodeNames(s.nodes));
    if Distinct(EdgeName, s.edges) && Supported(s.schema) { RegionIssuesClean(s, NodeNames(s.nodes)); }
  }

  // ----- the order of the report -----

  lemma IssuePreorder()
    ensures Preorder(IssueLe)
  {
    hide StringsLe;
    StringsOrder();
    forall a, b, c
      ensures IssueLe(a, b) || IssueLe(b, a)
      ensures IssueLe(a, b) && IssueLe(b, c) ==> IssueLe(a, c)
    {
      assert StringsLe(IssueKey(a), IssueKey(b)) || StringsLe(IssueKey(b), IssueKey(a));
    }
  }

  /** A tuple is below another if its first difference is. */
  lemma TupleOrder(a: seq<string>, b: seq<string>)
    requires StringsLe(a, b) && a != [] && b != []
    ensures StrLe(a[0], b[0]) && (a[0] == b[0] ==> StringsLe(a[1..], b[1..]))
  {
    StrOrder(a[0], b[0], a[0]);
  }

  lemma SeverityFirst(a: Issue, b: Issue)
    requires IssueLe(a, b)
    ensures b.severity.Error? ==> a.severity.Error?
    ensures a.severity == b.severity ==> StrLe(CodeName(a.code), CodeName(b.code))
  {
    hide CodeName;
    TupleOrder(IssueKey(a), IssueKey(b));
    if a.severity == b.severity {
      TupleOrder(IssueKey(a)[1..], IssueKey(b)[1..]);
    }
  }

  /** The report is deterministic and total: exactly the findings, errors before warnings,
      and by code within each. */
  lemma ReportIsOrdered(issues: seq<Issue>)
    ensures var report := Sort(IssueLe, issues);
            && multiset(report) == multiset(issues)
            && forall i, j :: 0 <= i < j < |report| ==>
                 && (report[j].severity.Error? ==> report[i].severity.Error?)
                 && (report[i].severity == report[j].severity ==>
                      StrLe(CodeName(report[i].code), CodeName(report[j].code)))
  {
    hide IssueLe, CodeName, Sort;
    IssuePreorder();
    Sorts(IssueLe, issues);
    var report := Sort(IssueLe, issues);
    forall i, j | 0 <= i < j < |report|
      ensures report[j].severity.Error? ==> report[i].severity.Error?
      ensures report[i].severity == report[j].severity ==> StrLe(CodeName(report[i].code), CodeName(report[j].code))
    {
      SeverityFirst(report[i], report[j]);
    }
  }
}
