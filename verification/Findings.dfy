/** What each finding of the linter means: it is reported exactly where its own condition holds
    of the description. */
module Findings {
  import opened Values
  import opened Ordering
  import opened JsonTrees
  import opened Topology
  import opened Spec
  import opened Lint

  // ----- what a finding is about -----

  predicate OfNode(x: Issue, severity: Severity) {
    x.severity == severity && x.node.Some? && x.source.None? && x.target.None?
  }

  predicate OfSource(x: Issue, severity: Severity) {
    x.severity == severity && x.node.None? && x.source.Some? && x.target.None?
  }

  predicate OfTarget(x: Issue) { x.severity.Error? && x.node.None? && x.source.Some? }

  predicate OfAll(x: Issue, severity: Severity) {
    x.severity == severity && x.node.None? && x.source.None? && x.target.None?
  }

  // ----- nodes -----

  /** Some record repeats the name of an earlier one. */
  ghost predicate Repeated<T>(name: T -> string, xs: seq<T>, n: string) {
    exists i, j :: 0 <= i < j < |xs| && name(xs[i]) == name(xs[j]) == n
  }

  ghost predicate NodeFinding(s: GraphSpec, x: Issue) {
    match x.code
    case GS001 => OfNode(x, Error) && Repeated(NodeName, s.nodes, x.node.value)
    case GS002 => OfNode(x, Error) && Blank(x.node.value) && exists n <- s.nodes :: n.name == x.node.value
    case GS011 =>
      && OfNode(x, Error) && (x.node.value == START || x.node.value == END)
      && exists n <- s.nodes :: n.name == x.node.value
    case GS104 => OfNode(x, Warning) && exists n <- s.nodes :: n.name == x.node.value && n.ref.None?
    case _ => false
  }

  /** The same of one node. */
  predicate OneNodeFinding(n: NodeSpec, seen: set<string>, x: Issue) {
    match x.code
    case GS001 => OfNode(x, Error) && n.name == x.node.value && n.name in seen
    case GS002 => OfNode(x, Error) && n.name == x.node.value && Blank(n.name)
    case GS011 => OfNode(x, Error) && n.name == x.node.value && (n.name == START || n.name == END)
    case GS104 => OfNode(x, Warning) && n.name == x.node.value && n.ref.None?
    case _ => false
  }

  lemma InWhen(condition: bool, issue: Issue, x: Issue)
    ensures x in When(condition, issue) <==> condition && x == issue
  {
  }

  lemma InOneNode(n: NodeSpec, seen: set<string>, x: Issue)
    ensures x in NodeIssues(n, seen) <==> OneNodeFinding(n, seen, x)
  {
    hide When, Blank;
    InWhen(n.name in seen, OnNode(GS001, Error, n.name), x);
    InWhen(Blank(n.name), OnNode(GS002, Error, n.name), x);
    InWhen(n.name == START || n.name == END, OnNode(GS011, Error, n.name), x);
    InWhen(n.ref.None?, OnNode(GS104, Warning, n.name), x);
  }

  lemma {:induction false} InNodeIssues(nodes: seq<NodeSpec>, x: Issue)
    ensures x in AllNodeIssues(nodes) <==>
              exists j :: 0 <= j < |nodes| && OneNodeFinding(nodes[j], NodeNames(nodes[..j]), x)
  {
    hide NodeIssues, NodeNames, OneNodeFinding;
    if nodes != [] {
      var last := |nodes| - 1;
      InNodeIssues(nodes[..last], x);
      InOneNode(nodes[last], NodeNames(nodes[..last]), x);
      assert forall j :: 0 <= j < last ==> nodes[..last][..j] == nodes[..j] && nodes[..last][j] == nodes[j];
    }
  }

  lemma OnlyRepeatsLookBack(n: NodeSpec, seen: set<string>, x: Issue)
    requires OneNodeFinding(n, {}, x)
    ensures OneNodeFinding(n, seen, x)
  {
    hide Blank;
  }

  lemma NodeFindings(s: GraphSpec, x: Issue)
    ensures x in AllNodeIssues(s.nodes) <==> NodeFinding(s, x)
  {
    hide Blank, AllNodeIssues;
    InNodeIssues(s.nodes, x);
    if x in AllNodeIssues(s.nodes) {
      var j :| 0 <= j < |s.nodes| && OneNodeFinding(s.nodes[j], NodeNames(s.nodes[..j]), x);
      assert s.nodes[j] in s.nodes;
      if x.code.GS001? {
        var n :| n in s.nodes[..j] && n.name == s.nodes[j].name;
        var i :| 0 <= i < j && s.nodes[i] == n;
        assert NodeName(s.nodes[i]) == NodeName(s.nodes[j]);
      }
    }
    if NodeFinding(s, x) {
      if x.code.GS001? {
        var i, j :| 0 <= i < j < |s.nodes| && NodeName(s.nodes[i]) == NodeName(s.nodes[j]) == x.node.value;
        assert s.nodes[..j][i] in s.nodes[..j];
        assert x.node.value in NodeNames(s.nodes[..j]) && s.nodes[j].name == x.node.value;
        assert OneNodeFinding(s.nodes[j], NodeNames(s.nodes[..j]), x);
      } else {
        var n :| n in s.nodes && OneNodeFinding(n, {}, x);
        var j :| 0 <= j < |s.nodes| && s.nodes[j] == n;
        OnlyRepeatsLookBack(n, NodeNames(s.nodes[..j]), x);
      }
    }
  }

  // ----- edges -----

  ghost predicate EdgeFinding(s: GraphSpec, x: Issue) {
    var names := NodeNames(s.nodes);
    match x.code
    case GS012 => OfSource(x, Error) && Repeated(EdgeName, s.edges, x.source.value)
    case GS008 =>
      OfTarget(x) && exists e <- s.edges ::
        && e.kind.StaticEdge? && e.source == x.source.value && e.target == x.target
        && (e.target.None? || e.routerRef.Some? || e.declared != [])
    case GS004 =>
      OfTarget(x) && x.source.value != START && x.source.value !in names
      && exists e <- s.edges :: e.kind.StaticEdge? && e.source == x.source.value && e.target == x.target
    case GS005 =>
      OfTarget(x) && x.target.Some? && x.target.value != END && x.target.value !in names
      && exists e <- s.edges :: e.kind.StaticEdge? && e.source == x.source.value && e.target == x.target
    case GS009 =>
      OfTarget(x) && x.target.Some?
      && exists e <- s.edges :: e.kind.ConditionalEdge? && e.source == x.source.value && e.target == x.target
    case GS006 =>
      OfSource(x, Error) && x.source.value != START && x.source.value !in names
      && exists e <- s.edges :: e.kind.ConditionalEdge? && e.source == x.source.value
    case GS007 =>
      OfTarget(x) && x.target.Some? && x.target.value != END && x.target.value !in names
      && exists e <- s.edges :: e.kind.ConditionalEdge? && e.source == x.source.value && x.target.value in e.declared
    case GS103 =>
      OfSource(x, Warning)
      && exists e <- s.edges :: e.kind.ConditionalEdge? && e.source == x.source.value && e.declared == []
    case GS105 =>
      OfSource(x, Warning)
      && exists e <- s.edges :: e.kind.ConditionalEdge? && e.source == x.source.value && e.routerRef.None?
    case _ => false
  }

  /** The same of one edge. */
  predicate OneEdgeFinding(e: EdgeSpec, seen: set<string>, names: set<string>, x: Issue) {
    match x.code
    case GS012 => OfSource(x, Error) && e.source == x.source.value && e.source in seen
    case GS008 =>
      && OfTarget(x) && e.kind.StaticEdge? && e.source == x.source.value && e.target == x.target
      && (e.target.None? || e.routerRef.Some? || e.declared != [])
    case GS004 =>
      && OfTarget(x) && e.kind.StaticEdge? && e.source == x.source.value && e.target == x.target
      && e.source != START && e.source !in names
    case GS005 =>
      && OfTarget(x) && e.kind.StaticEdge? && e.source == x.source.value && e.target == x.target
      && x.target.Some? && x.target.value != END && x.target.value !in names
    case GS009 =>
      && OfTarget(x) && e.kind.ConditionalEdge? && e.source == x.source.value && e.target == x.target && x.target.Some?
    case GS006 =>
      && OfSource(x, Error) && e.kind.ConditionalEdge? && e.source == x.source.value
      && e.source != START && e.source !in names
    case GS007 =>
      && OfTarget(x) && e.kind.ConditionalEdge? && e.source == x.source.value
      && x.target.Some? && x.target.value in e.declared && x.target.value != END && x.target.value !in names
    case GS103 => OfSource(x, Warning) && e.kind.ConditionalEdge? && e.source == x.source.value && e.declared == []
    case GS105 => OfSource(x, Warning) && e.kind.ConditionalEdge? && e.source == x.source.value && e.routerRef.None?
    case _ => false
  }

  lemma {:induction false} InDeclaredIssues(source: string, declared: seq<string>, names: set<string>, x: Issue)
    ensures x in DeclaredIssues(source, declared, names) <==>
              && x == OnTarget(GS007, source, x.target) && x.target.Some? && x.target.value in declared
              && x.target.value != END && x.target.value !in names
  {
    if declared != [] {
      var front, last := declared[..|declared| - 1], declared[|declared| - 1];
      assert declared == front + [last];
      InDeclaredIssues(source, front, names, x);
    }
  }

  lemma InStaticIssues(e: EdgeSpec, names: set<string>, x: Issue)
    requires e.kind.StaticEdge?
    ensures x in StaticIssues(e, names) <==> OneEdgeFinding(e, {}, names, x)
  {
    hide When;
    InWhen(e.target.None? || e.routerRef.Some? || e.declared != [], OnTarget(GS008, e.source, e.target), x);
    InWhen(e.source != START && e.source !in names, OnTarget(GS004, e.source, e.target), x);
    InWhen(e.target.Some? && !Known(names, e.target.value), OnTarget(GS005, e.source, e.target), x);
  }

  lemma InConditionalIssues(e: EdgeSpec, names: set<string>, x: Issue)
    requires e.kind.ConditionalEdge?
    ensures x in ConditionalIssues(e, names) <==> OneEdgeFinding(e, {}, names, x)
  {
    hide When, DeclaredIssues;
    InWhen(e.target.Some?, OnTarget(GS009, e.source, e.target), x);
    InWhen(e.source != START && e.source !in names, OnSource(GS006, Error, e.source), x);
    InDeclaredIssues(e.source, e.declared, names, x);
    InWhen(e.declared == [], OnSource(GS103, Warning, e.source), x);
    InWhen(e.routerRef.None?, OnSource(GS105, Warning, e.source), x);
  }

  lemma InEdgeIssues(e: EdgeSpec, seen: set<string>, names: set<string>, x: Issue)
    ensures x in EdgeIssues(e, seen, names) <==> OneEdgeFinding(e, seen, names, x)
  {
    hide When, StaticIssues, ConditionalIssues;
    InWhen(e.source in seen, OnSource(GS012, Error, e.source), x);
    match e.kind
    case StaticEdge => InStaticIssues(e, names, x);
    case ConditionalEdge => InConditionalIssues(e, names, x);
    case FanOutEdge =>
  }

  lemma {:induction false} InAllEdgeIssues(edges: seq<EdgeSpec>, names: set<string>, x: Issue)
    ensures x in AllEdgeIssues(edges, names) <==>
              exists j :: 0 <= j < |edges| && OneEdgeFinding(edges[j], Sources(edges[..j]), names, x)
  {
    hide EdgeIssues, OneEdgeFinding, Sources;
    if edges != [] {
      var last := |edges| - 1;
      InAllEdgeIssues(edges[..last], names, x);
      InEdgeIssues(edges[last], Sources(edges[..last]), names, x);
      assert forall j :: 0 <= j < last ==> edges[..last][..j] == edges[..j] && edges[..last][j] == edges[j];
    }
  }

  lemma OnlyRepeatsLookBackAtEdges(e: EdgeSpec, seen: set<string>, names: set<string>, x: Issue)
    requires OneEdgeFinding(e, {}, names, x)
    ensures OneEdgeFinding(e, seen, names, x)
  {
  }

  lemma EdgeFindings(s: GraphSpec, x: Issue)
    ensures x in AllEdgeIssues(s.edges, NodeNames(s.nodes)) <==> EdgeFinding(s, x)
  {
    hide AllEdgeIssues, NodeNames;
    var names := NodeNames(s.nodes);
    InAllEdgeIssues(s.edges, names, x);
    if x in AllEdgeIssues(s.edges, names) {
      var j :| 0 <= j < |s.edges| && OneEdgeFinding(s.edges[j], Sources(s.edges[..j]), names, x);
      assert s.edges[j] in s.edges;
      if x.code.GS012? {
        var e :| e in s.edges[..j] && e.source == s.edges[j].source;
        var i :| 0 <= i < j && s.edges[i] == e;
        assert EdgeName(s.edges[i]) == EdgeName(s.edges[j]);
      }
    }
    if EdgeFinding(s, x) {
      if x.code.GS012? {
        var i, j :| 0 <= i < j < |s.edges| && EdgeName(s.edges[i]) == EdgeName(s.edges[j]) == x.source.value;
        assert s.edges[..j][i] in s.edges[..j];
        assert x.source.value in Sources(s.edges[..j]) && s.edges[j].source == x.source.value;
        assert OneEdgeFinding(s.edges[j], Sources(s.edges[..j]), names, x);
      } else {
        var e :| e in s.edges && OneEdgeFinding(e, {}, names, x);
        var j :| 0 <= j < |s.edges| && s.edges[j] == e;
        OnlyRepeatsLookBackAtEdges(e, Sources(s.edges[..j]), names, x);
      }
    }
  }

  // ----- regions -----

  /** What is found about one branch `b` of region `e`. */
  predicate BranchFinding(e: EdgeSpec, b: string, names: set<string>, sources: set<string>, before: map<string, string>,
                          x: Issue)
  {
    && OfTarget(x) && x.source.value == e.source && x.target == Some(b)
    && match x.code
       case GS202 => b !in names
       case GS203 => b in names && (b == e.source || Some(b) == e.target || b == START || b == END)
       case GS204 => b in names && b in sources
       case GS206 => b in names && b in before && before[b] != e.source
       case _ => false
  }

  lemma BranchIsClaimed(e: EdgeSpec, b: string, names: set<string>, sources: set<string>, acc: Claims)
    ensures var r := BranchClaims(e, b, names, sources, acc).claimed;
            && (forall c :: c in r <==> c in acc.claimed || (c == b && b in names))
            && (forall c <- r :: r[c] == if c in acc.claimed then acc.claimed[c] else e.source)
  {
    hide When;
  }

  lemma InBranchClaims(e: EdgeSpec, b: string, names: set<string>, sources: set<string>, acc: Claims, x: Issue)
    ensures x in BranchClaims(e, b, names, sources, acc).issues <==>
              x in acc.issues || BranchFinding(e, b, names, sources, acc.claimed, x)
  {
    hide When;
    if b in names {
      InWhen(b == e.source || Some(b) == e.target || b == START || b == END, OnTarget(GS203, e.source, Some(b)), x);
      InWhen(b in sources, OnTarget(GS204, e.source, Some(b)), x);
      InWhen(b in acc.claimed && acc.claimed[b] != e.source, OnTarget(GS206, e.source, Some(b)), x);
    }
  }

  /** Only claims of other regions matter, and those were made before. */
  lemma ClaimsOfOthers(e: EdgeSpec, b: string, names: set<string>, sources: set<string>, before: map<string, string>,
                       later: map<string, string>, x: Issue)
    requires forall c <- before :: c in later && later[c] == before[c]
    requires forall c <- later :: c in before || later[c] == e.source
    ensures BranchFinding(e, b, names, sources, later, x) <==> BranchFinding(e, b, names, sources, before, x)
  {
  }

  lemma {:induction false} InBranchesClaims(e: EdgeSpec, branches: seq<string>, names: set<string>,
                                            sources: set<string>, acc: Claims, x: Issue)
    ensures var r := BranchesClaims(e, branches, names, sources, acc);
            && (x in r.issues <==>
                  x in acc.issues || exists b <- branches :: BranchFinding(e, b, names, sources, acc.claimed, x))
            && (forall c :: c in r.claimed <==> c in acc.claimed || (c in branches && c in names))
            && (forall c <- r.claimed :: r.claimed[c] == if c in acc.claimed then acc.claimed[c] else e.source)
  {
    hide BranchClaims, BranchFinding;
    if branches != [] {
      var front, last := branches[..|branches| - 1], branches[|branches| - 1];
      assert branches == front + [last];
      InBranchesClaims(e, front, names, sources, acc, x);
      var before := BranchesClaims(e, front, names, sources, acc);
      BranchIsClaimed(e, last, names, sources, before);
      InBranchClaims(e, last, names, sources, before, x);
      ClaimsOfOthers(e, last, names, sources, acc.claimed, before.claimed, x);
    }
  }

  /** Region `i` is the first that lists `b`. */
  predicate FirstListed(fanouts: seq<EdgeSpec>, b: string, i: nat) {
    i < |fanouts| && b in fanouts[i].declared && forall k :: 0 <= k < i ==> b !in fanouts[k].declared
  }

  /** What is found about region `i` of the regions. */
  ghost predicate OneRegionFinding(fanouts: seq<EdgeSpec>, i: nat, names: set<string>, sources: set<string>, x: Issue)
    requires i < |fanouts|
  {
    var e := fanouts[i];
    match x.code
    case GS201 => OfSource(x, Error) && x.source.value == e.source && e.source !in names
    case GS205 =>
      && OfTarget(x) && x.source.value == e.source && x.target == e.target
      && e.target.Some? && e.target.value != END && e.target.value !in names
    case GS202 => OfTarget(x) && x.source.value == e.source && x.target.Some? && x.target.value in e.declared
                  && x.target.value !in names
    case GS203 =>
      && OfTarget(x) && x.source.value == e.source && x.target.Some? && x.target.value in e.declared
      && x.target.value in names
      && (x.target.value == e.source || x.target == e.target || x.target.value == START || x.target.value == END)
    case GS204 => OfTarget(x) && x.source.value == e.source && x.target.Some? && x.target.value in e.declared
                  && x.target.value in names && x.target.value in sources
    case GS206 =>
      && OfTarget(x) && x.source.value == e.source && x.target.Some? && x.target.value in e.declared
      && x.target.value in names
      && exists m :: 0 <= m < i && FirstListed(fanouts, x.target.value, m) && fanouts[m].source != e.source
    case _ => false
  }

  lemma InRegionHead(e: EdgeSpec, names: set<string>, x: Issue)
    ensures x in RegionHead(e, names) <==>
              || (x.code.GS201? && OfSource(x, Error) && x.source.value == e.source && e.source !in names)
              || (x.code.GS205? && OfTarget(x) && x.source.value == e.source && x.target == e.target
                  && e.target.Some? && e.target.value != END && e.target.value !in names)
  {
    hide When;
    InWhen(e.source !in names, OnSource(GS201, Error, e.source), x);
    InWhen(e.target.Some? && !Known(names, e.target.value), OnTarget(GS205, e.source, e.target), x);
  }

  /** Who claimed a branch first. */
  lemma {:induction false} ClaimedFirst(fanouts: seq<EdgeSpec>, names: set<string>, sources: set<string>, b: string)
    ensures var claimed := RegionClaims(fanouts, names, sources).claimed;
            && (b in claimed <==> b in names && exists e <- fanouts :: b in e.declared)
            && (b in claimed ==> exists m: nat :: FirstListed(fanouts, b, m) && claimed[b] == fanouts[m].source)
  {
    hide BranchesClaims, RegionHead;
    if fanouts != [] {
      var last := |fanouts| - 1;
      var front, e := fanouts[..last], fanouts[last];
      assert fanouts == front + [e];
      ClaimedFirst(front, names, sources, b);
      var acc := RegionClaims(front, names, sources);
      InBranchesClaims(e, e.declared, names, sources, Claims(acc.issues + RegionHead(e, names), acc.claimed),
                       General(GS001, Error));
      if b in acc.claimed {
        var m: nat :| FirstListed(front, b, m) && acc.claimed[b] == front[m].source;
        assert FirstListed(fanouts, b, m);
      } else if b in e.declared && b in names {
        assert forall k :: 0 <= k < last ==> front[k] in front && b !in fanouts[k].declared;
        assert FirstListed(fanouts, b, last);
      }
    }
  }

  lemma BranchesOfRegion(fanouts: seq<EdgeSpec>, i: nat, names: set<string>, sources: set<string>, x: Issue)
    requires i < |fanouts|
    ensures var e := fanouts[i];
            var claimed := RegionClaims(fanouts[..i], names, sources).claimed;
            OneRegionFinding(fanouts, i, names, sources, x) <==>
              x in RegionHead(e, names) || exists b <- e.declared :: BranchFinding(e, b, names, sources, claimed, x)
  {
    hide RegionClaims, RegionHead;
    var e, claimed := fanouts[i], RegionClaims(fanouts[..i], names, sources).claimed;
    InRegionHead(e, names, x);
    if x.target.Some? {
      var b := x.target.value;
      ClaimedFirst(fanouts[..i], names, sources, b);
      assert forall m: nat :: FirstListed(fanouts[..i], b, m) <==> m < i && FirstListed(fanouts, b, m);
      FirstIsOne(fanouts, b);
      forall k | 0 <= k < i && b in fanouts[k].declared ensures exists f <- fanouts[..i] :: b in f.declared {
        assert fanouts[..i][k] in fanouts[..i];
      }
    }
  }

  lemma FirstIsOne(fanouts: seq<EdgeSpec>, b: string)
    ensures forall i: nat, j: nat :: FirstListed(fanouts, b, i) && FirstListed(fanouts, b, j) ==> i == j
  {
  }

  lemma {:induction false} InRegionClaims(fanouts: seq<EdgeSpec>, names: set<string>, sources: set<string>, x: Issue)
    ensures x in RegionClaims(fanouts, names, sources).issues <==>
              exists i: nat :: i < |fanouts| && OneRegionFinding(fanouts, i, names, sources, x)
  {
    hide BranchesClaims, RegionHead, BranchFinding, OneRegionFinding;
    if fanouts != [] {
      var last := |fanouts| - 1;
      var front, e := fanouts[..last], fanouts[last];
      InRegionClaims(front, names, sources, x);
      var acc := RegionClaims(front, names, sources);
      InBranchesClaims(e, e.declared, names, sources, Claims(acc.issues + RegionHead(e, names), acc.claimed), x);
      BranchesOfRegion(fanouts, last, names, sources, x);
      forall i: nat | i < last
        ensures OneRegionFinding(front, i, names, sources, x) <==> OneRegionFinding(fanouts, i, names, sources, x)
      {
        EarlierRegion(fanouts, last, i, names, sources, x);
      }
    }
  }

  lemma EarlierRegion(fanouts: seq<EdgeSpec>, n: nat, i: nat, names: set<string>, sources: set<string>, x: Issue)
    requires i < n <= |fanouts|
    ensures OneRegionFinding(fanouts[..n], i, names, sources, x) <==> OneRegionFinding(fanouts, i, names, sources, x)
  {
    assert forall b, m: nat :: m < i ==> (FirstListed(fanouts[..n], b, m) <==> FirstListed(fanouts, b, m));
  }

  // ----- joins and reducers -----

  /** Region `i` is the last one of this source. */
  predicate LastOf(fanouts: seq<EdgeSpec>, source: string, i: nat) {
    i < |fanouts| && fanouts[i].source == source && forall k :: i < k < |fanouts| ==> fanouts[k].source != source
  }

  ghost predicate JoinFinding(s: GraphSpec, x: Issue) {
    var fanouts := FanOuts(s.edges);
    match x.code
    case GS207 =>
      && OfSource(x, Error) && (exists j <- s.joins :: j.source == x.source.value)
      && forall e <- fanouts :: e.source != x.source.value
    case GS208 => OfSource(x, Error) && Repeated(JoinName, s.joins, x.source.value)
    case GS209 =>
      && OfSource(x, Error)
      && exists j <- s.joins, m: nat ::
           && j.source == x.source.value && j.kind.KQuorum? && j.quorum.Some?
           && LastOf(fanouts, x.source.value, m) && j.quorum.value > |fanouts[m].declared|
    case GS213 =>
      && OfSource(x, Warning)
      && exists j <- s.joins :: j.source == x.source.value && j.kind.KCustomJoin? && j.ref.None?
    case _ => false
  }

  predicate OneJoinFinding(j: JoinSpec, counts: map<string, nat>, seen: set<string>, x: Issue) {
    match x.code
    case GS207 => OfSource(x, Error) && j.source == x.source.value && j.source !in counts
    case GS208 => OfSource(x, Error) && j.source == x.source.value && j.source in seen
    case GS209 =>
      && OfSource(x, Error) && j.source == x.source.value && j.kind.KQuorum? && j.quorum.Some?
      && j.source in counts && j.quorum.value > counts[j.source]
    case GS213 => OfSource(x, Warning) && j.source == x.source.value && j.kind.KCustomJoin? && j.ref.None?
    case _ => false
  }

  lemma InOneJoin(j: JoinSpec, counts: map<string, nat>, seen: set<string>, x: Issue)
    ensures x in JoinIssues(j, counts, seen) <==> OneJoinFinding(j, counts, seen, x)
  {
    hide When;
    InWhen(j.source !in counts, OnSource(GS207, Error, j.source), x);
    InWhen(j.source in seen, OnSource(GS208, Error, j.source), x);
    InWhen(j.kind.KQuorum? && j.quorum.Some? && j.source in counts && j.quorum.value > counts[j.source],
           OnSource(GS209, Error, j.source), x);
    InWhen(j.kind.KCustomJoin? && j.ref.None?, OnSource(GS213, Warning, j.source), x);
  }

  lemma {:induction false} InJoinIssues(joins: seq<JoinSpec>, counts: map<string, nat>, x: Issue)
    ensures x in AllJoinIssues(joins, counts) <==>
              exists i :: 0 <= i < |joins| && OneJoinFinding(joins[i], counts, JoinSources(joins[..i]), x)
  {
    hide JoinIssues, JoinSources, OneJoinFinding;
    if joins != [] {
      var last := |joins| - 1;
      InJoinIssues(joins[..last], counts, x);
      InOneJoin(joins[last], counts, JoinSources(joins[..last]), x);
      assert forall i :: 0 <= i < last ==> joins[..last][..i] == joins[..i] && joins[..last][i] == joins[i];
    }
  }

  lemma {:induction false} CountOfLast(fanouts: seq<EdgeSpec>, source: string)
    ensures var counts := BranchCounts(fanouts);
            && (source in counts <==> exists e <- fanouts :: e.source == source)
            && (source in counts ==>
                  exists m: nat :: LastOf(fanouts, source, m) && counts[source] == |fanouts[m].declared|)
  {
    if fanouts != [] {
      var last := |fanouts| - 1;
      var front, e := fanouts[..last], fanouts[last];
      assert fanouts == front + [e];
      CountOfLast(front, source);
      if e.source == source {
        assert LastOf(fanouts, source, last);
      } else if source in BranchCounts(front) {
        var m: nat :| LastOf(front, source, m) && BranchCounts(front)[source] == |front[m].declared|;
        assert LastOf(fanouts, source, m);
      }
    }
  }

  lemma LastIsOne(fanouts: seq<EdgeSpec>, source: string)
    ensures forall i: nat, j: nat :: LastOf(fanouts, source, i) && LastOf(fanouts, source, j) ==> i == j
  {
  }

  lemma OnlyRepeatsLookBackAtJoins(j: JoinSpec, counts: map<string, nat>, seen: set<string>, x: Issue)
    requires OneJoinFinding(j, counts, {}, x)
    ensures OneJoinFinding(j, counts, seen, x)
  {
  }

  lemma JoinFound(s: GraphSpec, counts: map<string, nat>, x: Issue) returns (j: JoinSpec)
    requires JoinFinding(s, x) && !x.code.GS208? && counts == BranchCounts(FanOuts(s.edges))
    ensures j in s.joins && OneJoinFinding(j, counts, {}, x)
  {
    hide BranchCounts, FanOuts;
    var fanouts := FanOuts(s.edges);
    CountOfLast(fanouts, x.source.value);
    if x.code.GS207? {
      j :| j in s.joins && j.source == x.source.value;
    } else if x.code.GS209? {
      LastIsOne(fanouts, x.source.value);
      var m: nat;
      j, m :| j in s.joins && j.source == x.source.value && j.kind.KQuorum? && j.quorum.Some?
              && m < |fanouts| && LastOf(fanouts, x.source.value, m) && j.quorum.value > |fanouts[m].declared|;
      assert exists e <- fanouts :: e.source == x.source.value by { LastIsThere(fanouts, x.source.value, m); }
    } else {
      j :| j in s.joins && j.source == x.source.value && j.kind.KCustomJoin? && j.ref.None?;
    }
  }

  lemma LastIsThere(fanouts: seq<EdgeSpec>, source: string, m: nat)
    requires LastOf(fanouts, source, m)
    ensures exists e <- fanouts :: e.source == source
  {
    assert fanouts[m] in fanouts;
  }

  lemma JoinFindings(s: GraphSpec, x: Issue)
    ensures x in AllJoinIssues(s.joins, BranchCounts(FanOuts(s.edges))) <==> JoinFinding(s, x)
  {
    hide AllJoinIssues, BranchCounts, LastOf, FanOuts;
    var fanouts := FanOuts(s.edges);
    var counts := BranchCounts(fanouts);
    InJoinIssues(s.joins, counts, x);
    if x.source.Some? {
      CountOfLast(fanouts, x.source.value);
      LastIsOne(fanouts, x.source.value);
    }
    if x in AllJoinIssues(s.joins, counts) {
      var i :| 0 <= i < |s.joins| && OneJoinFinding(s.joins[i], counts, JoinSources(s.joins[..i]), x);
      assert s.joins[i] in s.joins;
      if x.code.GS208? {
        var j :| j in s.joins[..i] && j.source == s.joins[i].source;
        var k :| 0 <= k < i && s.joins[k] == j;
        assert JoinName(s.joins[k]) == JoinName(s.joins[i]);
      }
    }
    if JoinFinding(s, x) {
      if x.code.GS208? {
        var k, i :| 0 <= k < i < |s.joins| && JoinName(s.joins[k]) == JoinName(s.joins[i]) == x.source.value;
        assert s.joins[..i][k] in s.joins[..i];
        assert x.source.value in JoinSources(s.joins[..i]) && s.joins[i].source == x.source.value;
        assert OneJoinFinding(s.joins[i], counts, JoinSources(s.joins[..i]), x);
      } else {
        var j := JoinFound(s, counts, x);
        var i :| 0 <= i < |s.joins| && s.joins[i] == j;
        OnlyRepeatsLookBackAtJoins(j, counts, JoinSources(s.joins[..i]), x);
      }
    }
  }

  ghost predicate ReducerFinding(s: GraphSpec, x: Issue) {
    match x.code
    case GS210 => OfNode(x, Error) && Repeated(FieldName, s.reducers, x.node.value)
    case GS213 =>
      && OfNode(x, Warning)
      && exists r <- s.reducers :: r.field == x.node.value && r.kind.KCustom? && r.ref.None?
    case _ => false
  }

  predicate OneReducerFinding(r: ReducerSpec, seen: set<string>, x: Issue) {
    match x.code
    case GS210 => OfNode(x, Error) && r.field == x.node.value && r.field in seen
    case GS213 => OfNode(x, Warning) && r.field == x.node.value && r.kind.KCustom? && r.ref.None?
    case _ => false
  }

  lemma InOneReducer(r: ReducerSpec, seen: set<string>, x: Issue)
    ensures x in ReducerIssues(r, seen) <==> OneReducerFinding(r, seen, x)
  {
    hide When;
    InWhen(r.field in seen, OnNode(GS210, Error, r.field), x);
    InWhen(r.kind.KCustom? && r.ref.None?, OnNode(GS213, Warning, r.field), x);
  }

  lemma {:induction false} InReducerIssues(reducers: seq<ReducerSpec>, x: Issue)
    ensures x in AllReducerIssues(reducers) <==>
              exists i :: 0 <= i < |reducers| && OneReducerFinding(reducers[i], FieldNames(reducers[..i]), x)
  {
    hide FieldNames, ReducerIssues, OneReducerFinding;
    if reducers != [] {
      var last := |reducers| - 1;
      InReducerIssues(reducers[..last], x);
      InOneReducer(reducers[last], FieldNames(reducers[..last]), x);
      assert forall i :: 0 <= i < last ==> reducers[..last][..i] == reducers[..i] && reducers[..last][i] == reducers[i];
    }
  }

  lemma ReducerFindings(s: GraphSpec, x: Issue)
    ensures x in AllReducerIssues(s.reducers) <==> ReducerFinding(s, x)
  {
    hide AllReducerIssues;
    InReducerIssues(s.reducers, x);
    if x in AllReducerIssues(s.reducers) {
      var i :| 0 <= i < |s.reducers| && OneReducerFinding(s.reducers[i], FieldNames(s.reducers[..i]), x);
      assert s.reducers[i] in s.reducers;
      if x.code.GS210? {
        var r :| r in s.reducers[..i] && r.field == s.reducers[i].field;
        var k :| 0 <= k < i && s.reducers[k] == r;
        assert FieldName(s.reducers[k]) == FieldName(s.reducers[i]);
      }
    }
    if ReducerFinding(s, x) {
      if x.code.GS210? {
        var k, i :| 0 <= k < i < |s.reducers| && FieldName(s.reducers[k]) == FieldName(s.reducers[i]) == x.node.value;
        assert s.reducers[..i][k] in s.reducers[..i];
        assert x.node.value in FieldNames(s.reducers[..i]) && s.reducers[i].field == x.node.value;
        assert OneReducerFinding(s.reducers[i], FieldNames(s.reducers[..i]), x);
      } else {
        var r :| r in s.reducers && r.field == x.node.value && r.kind.KCustom? && r.ref.None?;
        var i :| 0 <= i < |s.reducers| && s.reducers[i] == r;
        assert OneReducerFinding(s.reducers[i], FieldNames(s.reducers[..i]), x);
      }
    }
  }

  // ----- the whole report -----

  ghost predicate RegionFinding(s: GraphSpec, x: Issue) {
    var fanouts := FanOuts(s.edges);
    exists i: nat :: i < |fanouts| && OneRegionFinding(fanouts, i, NodeNames(s.nodes), Sources(s.edges), x)
  }

  /** What is found about the description as a whole, and about what START reaches. */
  ghost predicate WholeFinding(lib: Library, s: GraphSpec, x: Issue) {
    var regions := (exists e <- s.edges :: e.kind.FanOutEdge?) || s.reducers != [] || s.joins != [];
    match x.code
    case GS013 => OfAll(x, Error) && s.schema != "1" && s.schema != "2"
    case GS014 => OfAll(x, Error) && s.graphId != lib.digest(JObj(SpecPayload(lib, s)))
    case GS010 => OfAll(x, Error) && s.maxSteps <= 0
    case GS003 => OfSource(x, Error) && x.source.value == START && forall e <- s.edges :: e.source != START
    case GS211 => OfAll(x, Error) && regions && s.schema == "1"
    case GS212 => OfAll(x, Error) && !regions && s.schema == "2"
    case GS214 => OfAll(x, Warning) && s.reducers != [] && forall e <- s.edges :: !e.kind.FanOutEdge?
    case GS101 =>
      && OfNode(x, Warning) && (exists n <- s.nodes :: n.name == x.node.value)
      && !Reached(s.edges, x.node.value) && !ReachesOpaque(s.edges)
    case GS102 => OfAll(x, Warning) && !Reached(s.edges, END) && !ReachesOpaque(s.edges)
    case _ => false
  }

  lemma {:induction false} SomeFanOut(edges: seq<EdgeSpec>)
    ensures FanOuts(edges) != [] <==> exists e <- edges :: e.kind.FanOutEdge?
  {
    if edges != [] {
      var front, last := edges[..|edges| - 1], edges[|edges| - 1];
      assert edges == front + [last];
      SomeFanOut(front);
    }
  }

  lemma {:induction false} InUnreachable(names: seq<string>, x: Issue)
    ensures x in UnreachableIssues(names) <==> x.code.GS101? && OfNode(x, Warning) && x.node.value in names
  {
    if names != [] {
      var front, last := names[..|names| - 1], names[|names| - 1];
      assert names == front + [last];
      InUnreachable(front, x);
    }
  }

  lemma InReachability(s: GraphSpec, x: Issue)
    ensures x in ReachabilityIssues(s) <==>
              || (x.code.GS101? && OfNode(x, Warning) && x.node.value in NodeNames(s.nodes)
                  && !Reached(s.edges, x.node.value) && !ReachesOpaque(s.edges))
              || (x.code.GS102? && OfAll(x, Warning) && !Reached(s.edges, END) && !ReachesOpaque(s.edges))
  {
    hide Reached, ReachesOpaque, SortedKeys, NodeNames, When;
    InUnreachable(SortedKeys(UnreachedNodes(s)), x);
    InWhen(!Reached(s.edges, END), General(GS102, Warning), x);
  }

  lemma InHeader(lib: Library, s: GraphSpec, x: Issue)
    ensures x in HeaderIssues(lib, s) <==> (x.code.GS013? || x.code.GS014?) && WholeFinding(lib, s, x)
  {
    hide SpecPayload, When;
    InWhen(!Supported(s.schema), General(GS013, Error), x);
    InWhen(s.graphId != lib.digest(JObj(SpecPayload(lib, s))), General(GS014, Error), x);
  }

  lemma InRegionIssues(lib: Library, s: GraphSpec, x: Issue)
    ensures x in RegionIssues(s, NodeNames(s.nodes)) <==>
              || RegionFinding(s, x) || JoinFinding(s, x) || ReducerFinding(s, x)
              || ((x.code.GS211? || x.code.GS212? || x.code.GS214?) && WholeFinding(lib, s, x))
  {
    hide RegionClaims, AllJoinIssues, AllReducerIssues, FanOuts, NodeNames, Sources, OneRegionFinding, When,
         JoinFinding, ReducerFinding, BranchCounts;
    var fanouts := FanOuts(s.edges);
    var regions := fanouts != [] || s.reducers != [] || s.joins != [];
    SomeFanOut(s.edges);
    InRegionClaims(fanouts, NodeNames(s.nodes), Sources(s.edges), x);
    JoinFindings(s, x);
    ReducerFindings(s, x);
    InWhen(regions && s.schema == V1, General(GS211, Error), x);
    InWhen(!regions && Supported(s.schema) && s.schema != V1, General(GS212, Error), x);
    InWhen(s.reducers != [] && fanouts == [], General(GS214, Warning), x);
  }

  /** The linter reports a finding if and only if what its code says is so: of the nodes, the
      edges, the regions with the claims of earlier ones, the joins, the reducers, or the
      description as a whole. */
  lemma EveryFindingIsJustified(lib: Library, s: GraphSpec, x: Issue)
    ensures x in LintIssues(lib, s) <==>
              || NodeFinding(s, x) || EdgeFinding(s, x) || RegionFinding(s, x) || JoinFinding(s, x)
              || ReducerFinding(s, x) || WholeFinding(lib, s, x)
  {
    hide HeaderIssues, AllNodeIssues, AllEdgeIssues, RegionIssues, ReachabilityIssues, SpecPayload, Reached,
         ReachesOpaque, NodeFinding, EdgeFinding, RegionFinding, JoinFinding, ReducerFinding, When;
    InHeader(lib, s, x);
    NodeFindings(s, x);
    InWhen(s.maxSteps <= 0, General(GS010, Error), x);
    InWhen(START !in Sources(s.edges), OnSource(GS003, Error, START), x);
    EdgeFindings(s, x);
    InRegionIssues(lib, s, x);
    InReachability(s, x);
  }
}
