/** Static validation of a graph description: what it reports, how it finds what is
    reachable, and what a report without errors means. */
module Lint {
  import opened Values
  import opened Ordering
  import opened Sorting
  import opened JsonTrees
  import opened Topology
  import opened Spec

  datatype Severity = Error | Warning

  datatype Code =
    | GS001 | GS002 | GS003 | GS004 | GS005 | GS006 | GS007 | GS008 | GS009 | GS010
    | GS011 | GS012 | GS013 | GS014 | GS101 | GS102 | GS103 | GS104 | GS105 | GS201
    | GS202 | GS203 | GS204 | GS205 | GS206 | GS207 | GS208 | GS209 | GS210 | GS211
    | GS212 | GS213 | GS214

  /** One finding; its message is left out. */
  datatype Issue = Issue(
    code: Code, severity: Severity, node: Option<string>, source: Option<string>, target: Option<string>)

  function General(code: Code, severity: Severity): Issue { Issue(code, severity, None, None, None) }

  function OnNode(code: Code, severity: Severity, node: string): Issue {
    Issue(code, severity, Some(node), None, None)
  }

  function OnSource(code: Code, severity: Severity, source: string): Issue {
    Issue(code, severity, None, Some(source), None)
  }

  function OnTarget(code: Code, source: string, target: Option<string>): Issue {
    Issue(code, Error, None, Some(source), target)
  }

  function When(condition: bool, issue: Issue): seq<Issue> { if condition then [issue] else [] }

  function CodeName(code: Code): string {
    match code
    case GS001 => "GS001"
    case GS002 => "GS002"
    case GS003 => "GS003"
    case GS004 => "GS004"
    case GS005 => "GS005"
    case GS006 => "GS006"
    case GS007 => "GS007"
    case GS008 => "GS008"
    case GS009 => "GS009"
    case GS010 => "GS010"
    case GS011 => "GS011"
    case GS012 => "GS012"
    case GS013 => "GS013"
    case GS014 => "GS014"
    case GS101 => "GS101"
    case GS102 => "GS102"
    case GS103 => "GS103"
    case GS104 => "GS104"
    case GS105 => "GS105"
    case GS201 => "GS201"
    case GS202 => "GS202"
    case GS203 => "GS203"
    case GS204 => "GS204"
    case GS205 => "GS205"
    case GS206 => "GS206"
    case GS207 => "GS207"
    case GS208 => "GS208"
    case GS209 => "GS209"
    case GS210 => "GS210"
    case GS211 => "GS211"
    case GS212 => "GS212"
    case GS213 => "GS213"
    case GS214 => "GS214"
  }

  /** The report's order: severity, code, source, node, target. */
  function IssueKey(i: Issue): seq<string> {
    [if i.severity.Error? then "0" else "1", CodeName(i.code), OrEmpty(i.source), OrEmpty(i.node), OrEmpty(i.target)]
  }

  predicate IssueLe(a: Issue, b: Issue) { StringsLe(IssueKey(a), IssueKey(b)) }

  // ----- nodes -----

  /** What Python's `str.isspace` accepts. */
  predicate Space(c: char) {
    var n := c as int;
    9 <= n <= 13 || 28 <= n <= 32 || n == 0x85 || n == 0xA0 || n == 0x1680 || 0x2000 <= n <= 0x200A
    || n == 0x2028 || n == 0x2029 || n == 0x202F || n == 0x205F || n == 0x3000
  }

  /** `not name.strip()`. */
  predicate Blank(name: string) { forall c <- name :: Space(c) }

  function NodeNames(nodes: seq<NodeSpec>): set<string> { set n | n in nodes :: n.name }

  function NodeIssues(n: NodeSpec, seen: set<string>): seq<Issue> {
    When(n.name in seen, OnNode(GS001, Error, n.name)) +
    When(Blank(n.name), OnNode(GS002, Error, n.name)) +
    When(n.name == START || n.name == END, OnNode(GS011, Error, n.name)) +
    When(n.ref.None?, OnNode(GS104, Warning, n.name))
  }

  function AllNodeIssues(nodes: seq<NodeSpec>): seq<Issue> {
    if nodes == [] then [] else
    var front := nodes[..|nodes| - 1];
    AllNodeIssues(front) + NodeIssues(nodes[|nodes| - 1], NodeNames(front))
  }

  // ----- edges -----

  function Sources(edges: seq<EdgeSpec>): set<string> { set e | e in edges :: e.source }

  predicate Known(names: set<string>, target: string) { target == END || target in names }

  function DeclaredIssues(source: string, declared: seq<string>, names: set<string>): seq<Issue> {
    if declared == [] then [] else
    var last := declared[|declared| - 1];
    DeclaredIssues(source, declared[..|declared| - 1], names) +
    When(!Known(names, last), OnTarget(GS007, source, Some(last)))
  }

  function StaticIssues(e: EdgeSpec, names: set<string>): seq<Issue> {
    When(e.target.None? || e.routerRef.Some? || e.declared != [], OnTarget(GS008, e.source, e.target)) +
    When(e.source != START && e.source !in names, OnTarget(GS004, e.source, e.target)) +
    When(e.target.Some? && !Known(names, e.target.value), OnTarget(GS005, e.source, e.target))
  }

  function ConditionalIssues(e: EdgeSpec, names: set<string>): seq<Issue> {
    When(e.target.Some?, OnTarget(GS009, e.source, e.target)) +
    When(e.source != START && e.source !in names, OnSource(GS006, Error, e.source)) +
    DeclaredIssues(e.source, e.declared, names) +
    When(e.declared == [], OnSource(GS103, Warning, e.source)) +
    When(e.routerRef.None?, OnSource(GS105, Warning, e.source))
  }

  function EdgeIssues(e: EdgeSpec, seen: set<string>, names: set<string>): seq<Issue> {
    When(e.source in seen, OnSource(GS012, Error, e.source)) +
    match e.kind
    case StaticEdge => StaticIssues(e, names)
    case ConditionalEdge => ConditionalIssues(e, names)
    case FanOutEdge => []
  }

  function AllEdgeIssues(edges: seq<EdgeSpec>, names: set<string>): seq<Issue> {
    if edges == [] then [] else
    var front := edges[..|edges| - 1];
    AllEdgeIssues(front, names) + EdgeIssues(edges[|edges| - 1], Sources(front), names)
  }

  // ----- regions -----

  function FanOuts(edges: seq<EdgeSpec>): seq<EdgeSpec> {
    if edges == [] then [] else
    var last := edges[|edges| - 1];
    FanOuts(edges[..|edges| - 1]) + if last.kind.FanOutEdge? then [last] else []
  }

  /** The findings so far, and which region claimed each branch first. */
  datatype Claims = Claims(issues: seq<Issue>, claimed: map<string, string>)

  function BranchClaims(e: EdgeSpec, branch: string, names: set<string>, sources: set<string>, acc: Claims): Claims {
    if branch !in names then Claims(acc.issues + [OnTarget(GS202, e.source, Some(branch))], acc.claimed) else
    Claims(
      acc.issues +
      When(branch == e.source || Some(branch) == e.target || branch == START || branch == END,
           OnTarget(GS203, e.source, Some(branch))) +
      When(branch in sources, OnTarget(GS204, e.source, Some(branch))) +
      When(branch in acc.claimed && acc.claimed[branch] != e.source, OnTarget(GS206, e.source, Some(branch))),
      if branch in acc.claimed then acc.claimed else acc.claimed[branch := e.source])
  }

  function BranchesClaims(e: EdgeSpec, branches: seq<string>, names: set<string>, sources: set<string>, acc: Claims)
    : Claims
  {
    if branches == [] then acc else
    BranchClaims(e, branches[|branches| - 1], names, sources,
                 BranchesClaims(e, branches[..|branches| - 1], names, sources, acc))
  }

  function RegionHead(e: EdgeSpec, names: set<string>): seq<Issue> {
    When(e.source !in names, OnSource(GS201, Error, e.source)) +
    When(e.target.Some? && !Known(names, e.target.value), OnTarget(GS205, e.source, e.target))
  }

  function RegionClaims(fanouts: seq<EdgeSpec>, names: set<string>, sources: set<string>): Claims {
    if fanouts == [] then Claims([], map[]) else
    var e := fanouts[|fanouts| - 1];
    var acc := RegionClaims(fanouts[..|fanouts| - 1], names, sources);
    BranchesClaims(e, e.declared, names, sources, Claims(acc.issues + RegionHead(e, names), acc.claimed))
  }

  /** How many branches the last region declared for each source has. */
  function BranchCounts(fanouts: seq<EdgeSpec>): map<string, nat> {
    if fanouts == [] then map[] else
    var e := fanouts[|fanouts| - 1];
    BranchCounts(fanouts[..|fanouts| - 1])[e.source := |e.declared|]
  }

  function JoinSources(joins: seq<JoinSpec>): set<string> { set j | j in joins :: j.source }

  function JoinIssues(j: JoinSpec, counts: map<string, nat>, seen: set<string>): seq<Issue> {
    When(j.source !in counts, OnSource(GS207, Error, j.source)) +
    When(j.source in seen, OnSource(GS208, Error, j.source)) +
    When(j.kind.KQuorum? && j.quorum.Some? && j.source in counts && j.quorum.value > counts[j.source],
         OnSource(GS209, Error, j.source)) +
    When(j.kind.KCustomJoin? && j.ref.None?, OnSource(GS213, Warning, j.source))
  }

  function AllJoinIssues(joins: seq<JoinSpec>, counts: map<string, nat>): seq<Issue> {
    if joins == [] then [] else
    var front := joins[..|joins| - 1];
    AllJoinIssues(front, counts) + JoinIssues(joins[|joins| - 1], counts, JoinSources(front))
  }

  function FieldNames(reducers: seq<ReducerSpec>): set<string> { set r | r in reducers :: r.field }

  function ReducerIssues(r: ReducerSpec, seen: set<string>): seq<Issue> {
    When(r.field in seen, OnNode(GS210, Error, r.field)) +
    When(r.kind.KCustom? && r.ref.None?, OnNode(GS213, Warning, r.field))
  }

  function AllReducerIssues(reducers: seq<ReducerSpec>): seq<Issue> {
    if reducers == [] then [] else
    var front := reducers[..|reducers| - 1];
    AllReducerIssues(front) + ReducerIssues(reducers[|reducers| - 1], FieldNames(front))
  }

  /** `_lint_regions`. */
  function RegionIssues(s: GraphSpec, names: set<string>): seq<Issue> {
    var fanouts := FanOuts(s.edges);
    var regions := fanouts != [] || s.reducers != [] || s.joins != [];
    When(regions && s.schema == V1, General(GS211, Error)) +
    When(!regions && Supported(s.schema) && s.schema != V1, General(GS212, Error)) +
    RegionClaims(fanouts, names, Sources(s.edges)).issues +
    AllJoinIssues(s.joins, BranchCounts(fanouts)) +
    AllReducerIssues(s.reducers) +
    When(s.reducers != [] && fanouts == [], General(GS214, Warning))
  }

  // ----- reachability -----

  /** The steps an edge declares, including those from the branches of a region to its end. */
  predicate Links(e: EdgeSpec, a: string, b: string) {
    match e.kind
    case StaticEdge => a == e.source && Some(b) == e.target
    case ConditionalEdge => a == e.source && b in e.declared
    case FanOutEdge =>
      && e.target.Some?
      && ((a == e.source && (b in e.declared || b == e.target.value)) || (a in e.declared && b == e.target.value))
  }

  ghost predicate Link(edges: seq<EdgeSpec>, a: string, b: string) {
    exists e <- edges :: Links(e, a, b)
  }

  ghost predicate Trail(edges: seq<EdgeSpec>, path: seq<string>) {
    && path != [] && path[0] == START
    && forall i :: 0 < i < |path| ==> Link(edges, path[i - 1], path[i])
  }

  /** The reflexive and transitive closure of START under `Link`. */
  ghost predicate Reached(edges: seq<EdgeSpec>, x: string) {
    exists path :: Trail(edges, path) && path[|path| - 1] == x
  }

  function Opaque(edges: seq<EdgeSpec>): set<string> {
    set e | e in edges && e.kind.ConditionalEdge? && e.declared == [] :: e.source
  }

  /** A reachable router might select anything. */
  ghost predicate ReachesOpaque(edges: seq<EdgeSpec>) {
    exists x <- Opaque(edges) :: Reached(edges, x)
  }

  ghost function UnreachedNodes(s: GraphSpec): set<string> {
    set n | n in NodeNames(s.nodes) && !Reached(s.edges, n)
  }

  function UnreachableIssues(names: seq<string>): seq<Issue> {
    if names == [] then [] else
    UnreachableIssues(names[..|names| - 1]) + [OnNode(GS101, Warning, names[|names| - 1])]
  }

  ghost function ReachabilityIssues(s: GraphSpec): seq<Issue> {
    if ReachesOpaque(s.edges) then [] else
    UnreachableIssues(SortedKeys(UnreachedNodes(s))) + When(!Reached(s.edges, END), General(GS102, Warning))
  }

  // ----- the whole report -----

  function HeaderIssues(lib: Library, s: GraphSpec): seq<Issue> {
    When(!Supported(s.schema), General(GS013, Error)) +
    When(s.graphId != lib.digest(JObj(SpecPayload(lib, s))), General(GS014, Error))
  }

  ghost function LintIssues(lib: Library, s: GraphSpec): seq<Issue> {
    var names := NodeNames(s.nodes);
    HeaderIssues(lib, s) +
    AllNodeIssues(s.nodes) +
    When(s.maxSteps <= 0, General(GS010, Error)) +
    When(START !in Sources(s.edges), OnSource(GS003, Error, START)) +
    AllEdgeIssues(s.edges, names) +
    RegionIssues(s, names) +
    ReachabilityIssues(s)
  }

  /** `GraphValidationReport.valid`. */
  predicate Clean(issues: seq<Issue>) { forall i <- issues :: !i.severity.Error? }

  // ----- the loops -----

  /** Append a finding if there is one. */
  method Report(issues: seq<Issue>, found: bool, issue: Issue) returns (r: seq<Issue>)
    ensures r == issues + When(found, issue)
  {
    r := issues;
    if found { r := r + [issue]; }
  }

  method LintNode(n: NodeSpec, seen: set<string>, before: seq<Issue>) returns (issues: seq<Issue>)
    ensures issues == before + NodeIssues(n, seen)
  {
    hide When, Blank;
    var found := Report([], n.name in seen, OnNode(GS001, Error, n.name));
    found := Report(found, Blank(n.name), OnNode(GS002, Error, n.name));
    found := Report(found, n.name == START || n.name == END, OnNode(GS011, Error, n.name));
    found := Report(found, n.ref.None?, OnNode(GS104, Warning, n.name));
    issues := before + found;
  }

  method LintNodes(nodes: seq<NodeSpec>) returns (issues: seq<Issue>)
    ensures issues == AllNodeIssues(nodes)
  {
    hide NodeIssues;
    issues := [];
    var seen: set<string> := {};
    for i := 0 to |nodes|
      invariant seen == NodeNames(nodes[..i])
      invariant issues == AllNodeIssues(nodes[..i])
    {
      assert nodes[..i + 1][..i] == nodes[..i];
      issues := LintNode(nodes[i], seen, issues);
      seen := seen + {nodes[i].name};
    }
    assert nodes[..|nodes|] == nodes;
  }

  method LintDeclared(source: string, declared: seq<string>, names: set<string>) returns (issues: seq<Issue>)
    ensures issues == DeclaredIssues(source, declared, names)
  {
    issues := [];
    for i := 0 to |declared|
      invariant issues == DeclaredIssues(source, declared[..i], names)
    {
      assert declared[..i + 1][..i] == declared[..i];
      if !Known(names, declared[i]) { issues := issues + [OnTarget(GS007, source, Some(declared[i]))]; }
    }
    assert declared[..|declared|] == declared;
  }

  method LintStatic(e: EdgeSpec, names: set<string>, before: seq<Issue>) returns (issues: seq<Issue>)
    requires e.kind.StaticEdge?
    ensures issues == before + StaticIssues(e, names)
  {
    hide When, Known;
    var misshapen := e.target.None? || e.routerRef.Some? || e.declared != [];
    var found := Report([], misshapen, OnTarget(GS008, e.source, e.target));
    found := Report(found, e.source != START && e.source !in names, OnTarget(GS004, e.source, e.target));
    found := Report(found, e.target.Some? && !Known(names, e.target.value), OnTarget(GS005, e.source, e.target));
    issues := before + found;
  }

  method LintConditional(e: EdgeSpec, names: set<string>, before: seq<Issue>) returns (issues: seq<Issue>)
    requires e.kind.ConditionalEdge?
    ensures issues == before + ConditionalIssues(e, names)
  {
    hide When, DeclaredIssues;
    var found := Report([], e.target.Some?, OnTarget(GS009, e.source, e.target));
    found := Report(found, e.source != START && e.source !in names, OnSource(GS006, Error, e.source));
    var declared := LintDeclared(e.source, e.declared, names);
    found := Report(found + declared, e.declared == [], OnSource(GS103, Warning, e.source));
    found := Report(found, e.routerRef.None?, OnSource(GS105, Warning, e.source));
    issues := before + found;
  }

  method LintEdge(e: EdgeSpec, seen: set<string>, names: set<string>) returns (issues: seq<Issue>)
    ensures issues == EdgeIssues(e, seen, names)
  {
    hide When, StaticIssues, ConditionalIssues;
    issues := Report([], e.source in seen, OnSource(GS012, Error, e.source));
    if e.kind.StaticEdge? {
      issues := LintStatic(e, names, issues);
    } else if e.kind.ConditionalEdge? {
      issues := LintConditional(e, names, issues);
    }
  }

  method LintEdges(edges: seq<EdgeSpec>, names: set<string>) returns (issues: seq<Issue>)
    ensures issues == AllEdgeIssues(edges, names)
  {
    hide EdgeIssues;
    issues := [];
    var seen: set<string> := {};
    for i := 0 to |edges|
      invariant seen == Sources(edges[..i])
      invariant issues == AllEdgeIssues(edges[..i], names)
    {
      assert edges[..i + 1][..i] == edges[..i];
      var found := LintEdge(edges[i], seen, names);
      issues := issues + found;
      seen := seen + {edges[i].source};
    }
    assert edges[..|edges|] == edges;
  }

  method LintBranches(e: EdgeSpec, names: set<string>, sources: set<string>, acc: Claims) returns (r: Claims)
    ensures r == BranchesClaims(e, e.declared, names, sources, acc)
  {
    hide When;
    var issues, claimed := acc.issues, acc.claimed;
    for i := 0 to |e.declared|
      invariant Claims(issues, claimed) == BranchesClaims(e, e.declared[..i], names, sources, acc)
    {
      assert e.declared[..i + 1][..i] == e.declared[..i];
      var branch := e.declared[i];
      if branch !in names {
        issues := issues + [OnTarget(GS202, e.source, Some(branch))];
        continue;
      }
      var misplaced := branch == e.source || Some(branch) == e.target || branch == START || branch == END;
      issues := Report(issues, misplaced, OnTarget(GS203, e.source, Some(branch)));
      issues := Report(issues, branch in sources, OnTarget(GS204, e.source, Some(branch)));
      var taken := branch in claimed && claimed[branch] != e.source;
      issues := Report(issues, taken, OnTarget(GS206, e.source, Some(branch)));
      if branch !in claimed { claimed := claimed[branch := e.source]; }
    }
    assert e.declared[..|e.declared|] == e.declared;
    r := Claims(issues, claimed);
  }

  method LintFanOuts(fanouts: seq<EdgeSpec>, names: set<string>, sources: set<string>)
    returns (issues: seq<Issue>, counts: map<string, nat>)
    ensures issues == RegionClaims(fanouts, names, sources).issues && counts == BranchCounts(fanouts)
  {
    hide BranchesClaims;
    var acc := Claims([], map[]);
    counts := map[];
    for i := 0 to |fanouts|
      invariant acc == RegionClaims(fanouts[..i], names, sources)
      invariant counts == BranchCounts(fanouts[..i])
    {
      assert fanouts[..i + 1][..i] == fanouts[..i];
      var e := fanouts[i];
      var found := Report([], e.source !in names, OnSource(GS201, Error, e.source));
      found := Report(found, e.target.Some? && !Known(names, e.target.value), OnTarget(GS205, e.source, e.target));
      assert found == RegionHead(e, names);
      acc := LintBranches(e, names, sources, Claims(acc.issues + found, acc.claimed));
      counts := counts[e.source := |e.declared|];
    }
    assert fanouts[..|fanouts|] == fanouts;
    issues := acc.issues;
  }

  method LintJoin(j: JoinSpec, counts: map<string, nat>, seen: set<string>, before: seq<Issue>)
    returns (issues: seq<Issue>)
    ensures issues == before + JoinIssues(j, counts, seen)
  {
    hide When;
    var found := Report([], j.source !in counts, OnSource(GS207, Error, j.source));
    found := Report(found, j.source in seen, OnSource(GS208, Error, j.source));
    var excess := j.kind.KQuorum? && j.quorum.Some? && j.source in counts && j.quorum.value > counts[j.source];
    found := Report(found, excess, OnSource(GS209, Error, j.source));
    found := Report(found, j.kind.KCustomJoin? && j.ref.None?, OnSource(GS213, Warning, j.source));
    issues := before + found;
  }

  method LintJoins(joins: seq<JoinSpec>, counts: map<string, nat>) returns (issues: seq<Issue>)
    ensures issues == AllJoinIssues(joins, counts)
  {
    hide JoinIssues;
    issues := [];
    var seen: set<string> := {};
    for i := 0 to |joins|
      invariant seen == JoinSources(joins[..i])
      invariant issues == AllJoinIssues(joins[..i], counts)
    {
      assert joins[..i + 1][..i] == joins[..i];
      issues := LintJoin(joins[i], counts, seen, issues);
      seen := seen + {joins[i].source};
    }
    assert joins[..|joins|] == joins;
  }

  method LintReducer(r: ReducerSpec, seen: set<string>, before: seq<Issue>) returns (issues: seq<Issue>)
    ensures issues == before + ReducerIssues(r, seen)
  {
    hide When;
    var found := Report([], r.field in seen, OnNode(GS210, Error, r.field));
    found := Report(found, r.kind.KCustom? && r.ref.None?, OnNode(GS213, Warning, r.field));
    issues := before + found;
  }

  method LintReducers(reducers: seq<ReducerSpec>) returns (issues: seq<Issue>)
    ensures issues == AllReducerIssues(reducers)
  {
    hide ReducerIssues;
    issues := [];
    var seen: set<string> := {};
    for i := 0 to |reducers|
      invariant seen == FieldNames(reducers[..i])
      invariant issues == AllReducerIssues(reducers[..i])
    {
      assert reducers[..i + 1][..i] == reducers[..i];
      issues := LintReducer(reducers[i], seen, issues);
      seen := seen + {reducers[i].field};
    }
    assert reducers[..|reducers|] == reducers;
  }

  method LintRegions(s: GraphSpec, names: set<string>) returns (issues: seq<Issue>)
    ensures issues == RegionIssues(s, names)
  {
    hide RegionClaims, BranchCounts, AllJoinIssues, AllReducerIssues, FanOuts;
    var fanouts := FanOuts(s.edges);
    var regions := fanouts != [] || s.reducers != [] || s.joins != [];
    issues := Report([], regions && s.schema == V1, General(GS211, Error));
    issues := Report(issues, !regions && Supported(s.schema) && s.schema != V1, General(GS212, Error));
    var claims, counts := LintFanOuts(fanouts, names, Sources(s.edges));
    var joins := LintJoins(s.joins, counts);
    var reducers := LintReducers(s.reducers);
    issues := issues + claims + joins + reducers;
    issues := Report(issues, s.reducers != [] && fanouts == [], General(GS214, Warning));
  }

  // ----- the worklist -----

  predicate Adjacent(adjacency: map<string, set<string>>, a: string, b: string) {
    a in adjacency && b in adjacency[a]
  }

  ghost predicate Represents(adjacency: map<string, set<string>>, edges: seq<EdgeSpec>) {
    forall a, b :: Adjacent(adjacency, a, b) <==> Link(edges, a, b)
  }

  function Neighbours(adjacency: map<string, set<string>>, a: string): (bs: set<string>)
    ensures forall b :: b in bs <==> Adjacent(adjacency, a, b)
  {
    if a in adjacency then adjacency[a] else {}
  }

  /** `adjacency.setdefault(a, set()).update(targets)`. */
  function Extend(adjacency: map<string, set<string>>, a: string, targets: set<string>): (r: map<string, set<string>>)
    ensures forall x, y :: Adjacent(r, x, y) <==> Adjacent(adjacency, x, y) || (x == a && y in targets)
  {
    adjacency[a := Neighbours(adjacency, a) + targets]
  }

  lemma LinkSnoc(edges: seq<EdgeSpec>, e: EdgeSpec)
    ensures forall a, b :: Link(edges + [e], a, b) <==> Link(edges, a, b) || Links(e, a, b)
  {
    assert e in edges + [e];
    forall a, b ensures Link(edges + [e], a, b) <==> Link(edges, a, b) || Links(e, a, b) {
      if Link(edges, a, b) {
        var f :| f in edges && Links(f, a, b);
        assert f in edges + [e];
      }
    }
  }

  method AddEdge(adjacency: map<string, set<string>>, e: EdgeSpec) returns (r: map<string, set<string>>)
    ensures forall a, b :: Adjacent(r, a, b) <==> Adjacent(adjacency, a, b) || Links(e, a, b)
  {
    hide Extend, Adjacent;
    r := adjacency;
    if e.kind.StaticEdge? && e.target.Some? {
      r := Extend(r, e.source, {e.target.value});
    } else if e.kind.FanOutEdge? && e.target.Some? {
      r := Extend(r, e.source, set b | b in e.declared);
      r := Extend(r, e.source, {e.target.value});
      ghost var own := r;
      for i := 0 to |e.declared|
        invariant forall a, b :: Adjacent(r, a, b) <==>
                  Adjacent(own, a, b) || (a in e.declared[..i] && b == e.target.value)
      {
        r := Extend(r, e.declared[i], {e.target.value});
        assert e.declared[..i + 1] == e.declared[..i] + [e.declared[i]];
      }
      assert e.declared[..|e.declared|] == e.declared;
    } else if e.kind.ConditionalEdge? && e.declared != [] {
      r := Extend(r, e.source, set b | b in e.declared);
    }
  }

  method BuildAdjacency(edges: seq<EdgeSpec>) returns (adjacency: map<string, set<string>>, unknown: set<string>)
    ensures Represents(adjacency, edges) && unknown == Opaque(edges)
  {
    hide Link, Links, Adjacent;
    adjacency, unknown := map[], {};
    NoLinks();
    assert edges[..0] == [];
    for i := 0 to |edges|
      invariant Represents(adjacency, edges[..i])
      invariant unknown == Opaque(edges[..i])
    {
      LinkSnoc(edges[..i], edges[i]);
      assert edges[..i + 1] == edges[..i] + [edges[i]];
      adjacency := AddEdge(adjacency, edges[i]);
      if edges[i].kind.ConditionalEdge? && edges[i].declared == [] { unknown := unknown + {edges[i].source}; }
    }
    assert edges[..|edges|] == edges;
  }

  lemma NoLinks()
    ensures Represents(map[], [])
  {
  }

  lemma ReachedStart(edges: seq<EdgeSpec>)
    ensures Reached(edges, START)
  {
    assert Trail(edges, [START]) && [START][|[START]| - 1] == START;
  }

  lemma ReachedStep(edges: seq<EdgeSpec>, a: string, b: string)
    requires Reached(edges, a) && Link(edges, a, b)
    ensures Reached(edges, b)
  {
    hide Link;
    var path :| Trail(edges, path) && path[|path| - 1] == a;
    var longer := path + [b];
    assert Trail(edges, longer) && longer[|longer| - 1] == b;
  }

  /** A set that holds START and is closed under links holds everything reached. */
  lemma {:induction false} ClosedHoldsTrail(edges: seq<EdgeSpec>, area: set<string>, path: seq<string>)
    requires START in area && (forall a, b :: a in area && Link(edges, a, b) ==> b in area)
    requires Trail(edges, path)
    ensures path[|path| - 1] in area
  {
    hide Link;
    if |path| > 1 {
      ClosedHoldsTrail(edges, area, path[..|path| - 1]);
    }
  }

  lemma ClosedHoldsReached(edges: seq<EdgeSpec>, area: set<string>)
    requires START in area && (forall a, b :: a in area && Link(edges, a, b) ==> b in area)
    ensures forall x :: Reached(edges, x) ==> x in area
  {
    hide Link;
    forall x | Reached(edges, x) ensures x in area {
      var path :| Trail(edges, path) && path[|path| - 1] == x;
      ClosedHoldsTrail(edges, area, path);
    }
  }

  /** One turn of the worklist: whatever is new among the neighbours of `current` is
      marked and queued. */
  method Expand(adjacency: map<string, set<string>>, current: string, reachable: set<string>, frontier: seq<string>)
    returns (marked: set<string>, queue: seq<string>)
    ensures marked == reachable + Neighbours(adjacency, current)
    ensures forall x :: x in queue <==> x in frontier || x in marked - reachable
    ensures marked == reachable ==> queue == frontier
  {
    hide Neighbours;
    marked, queue := reachable, frontier;
    var pending := Neighbours(adjacency, current);
    while pending != {}
      invariant pending <= Neighbours(adjacency, current)
      invariant marked + pending == reachable + Neighbours(adjacency, current)
      invariant reachable <= marked
      invariant forall x :: x in queue <==> x in frontier || x in marked - reachable
      invariant marked == reachable ==> queue == frontier
    {
      var target :| target in pending;
      pending := pending - {target};
      if target !in marked {
        marked := marked + {target};
        queue := queue + [target];
      }
    }
  }

  /** The worklist ends, with exactly the closure of START. */
  method Reach(adjacency: map<string, set<string>>, ghost edges: seq<EdgeSpec>) returns (reachable: set<string>)
    requires Represents(adjacency, edges)
    ensures forall x :: x in reachable <==> Reached(edges, x)
  {
    hide Link, Reached, Adjacent;
    reachable := {START};
    var frontier := [START];
    ghost var universe := {START} + Targets(adjacency);
    ReachedStart(edges);
    while frontier != []
      invariant START in reachable && reachable <= universe
      invariant forall x <- reachable :: Reached(edges, x)
      invariant forall x <- frontier :: x in reachable
      invariant forall a, b :: a in reachable && a !in frontier && Link(edges, a, b) ==> b in reachable
      decreases |universe - reachable|, |frontier|
    {
      var current, rest := frontier[|frontier| - 1], frontier[..|frontier| - 1];
      assert frontier == rest + [current];
      var marked, queue := Expand(adjacency, current, reachable, rest);
      forall x | x in marked ensures Reached(edges, x) && x in universe {
        if x !in reachable { ReachedStep(edges, current, x); }
      }
      if marked != reachable { SmallerRest(universe, reachable, marked); }
      reachable, frontier := marked, queue;
    }
    ClosedHoldsReached(edges, reachable);
  }

  function Targets(adjacency: map<string, set<string>>): (r: set<string>)
    ensures forall a, b :: Adjacent(adjacency, a, b) ==> b in r
  {
    set a, b | a in adjacency && b in adjacency[a] :: b
  }

  lemma SmallerRest(universe: set<string>, before: set<string>, after: set<string>)
    requires before < after <= universe
    ensures |universe - after| < |universe - before|
  {
    var x :| x in after && x !in before;
    assert universe - after <= universe - before - {x};
    Cardinal(universe - after, universe - before - {x});
    assert |universe - before - {x}| == |universe - before| - 1;
  }

  lemma {:induction false} Cardinal(a: set<string>, b: set<string>)
    requires a <= b
    ensures |a| <= |b|
  {
    if a != {} {
      var x :| x in a;
      Cardinal(a - {x}, b - {x});
    }
  }

  method LintReachability(s: GraphSpec) returns (issues: seq<Issue>)
    ensures issues == ReachabilityIssues(s)
  {
    hide Reached, Represents;
    var names := NodeNames(s.nodes);
    var adjacency, unknown := BuildAdjacency(s.edges);
    var reachable := Reach(adjacency, s.edges);
    MeetsOpaque(s.edges, reachable);
    issues := [];
    if reachable * unknown != {} { return; }
    assert names - reachable == UnreachedNodes(s);
    var missing := SortedKeys(names - reachable);
    for i := 0 to |missing|
      invariant issues == UnreachableIssues(missing[..i])
    {
      assert missing[..i + 1][..i] == missing[..i];
      issues := issues + [OnNode(GS101, Warning, missing[i])];
    }
    assert missing[..|missing|] == missing;
    issues := Report(issues, END !in reachable, General(GS102, Warning));
  }

  /** The schema and the recomputed identity. */
  method LintHeader(lib: Library, s: GraphSpec) returns (issues: seq<Issue>)
    ensures issues == HeaderIssues(lib, s)
  {
    hide When, SpecPayload;
    issues := Report([], !Supported(s.schema), General(GS013, Error));
    var expected := lib.digest(JObj(SpecPayload(lib, s)));
    issues := Report(issues, s.graphId != expected, General(GS014, Error));
  }

  /** `lint_graph_spec`. */
  method LintGraph(lib: Library, s: GraphSpec) returns (report: seq<Issue>)
    ensures report == Sort(IssueLe, LintIssues(lib, s))
  {
    hide AllNodeIssues, AllEdgeIssues, RegionIssues, HeaderIssues, ReachabilityIssues, Sort, When;
    var names := NodeNames(s.nodes);
    var issues := LintHeader(lib, s);
    var nodes := LintNodes(s.nodes);
    issues := Report(issues + nodes, s.maxSteps <= 0, General(GS010, Error));
    issues := Report(issues, START !in Sources(s.edges), OnSource(GS003, Error, START));
    var edges := LintEdges(s.edges, names);
    var regions := LintRegions(s, names);
    var reachability := LintReachability(s);
    report := Sort(IssueLe, issues + edges + regions + reachability);
  }

  lemma MeetsOpaque(edges: seq<EdgeSpec>, reachable: set<string>)
    requires forall x :: x in reachable <==> Reached(edges, x)
    ensures reachable * Opaque(edges) != {} <==> ReachesOpaque(edges)
  {
    hide Reached, Opaque;
    if reachable * Opaque(edges) != {} {
      var x :| x in reachable * Opaque(edges);
      assert x in Opaque(edges) && Reached(edges, x);
    }
    if ReachesOpaque(edges) {
      var x :| x in Opaque(edges) && Reached(edges, x);
      assert x in reachable * Opaque(edges);
    }
  }
}
