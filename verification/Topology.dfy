/** What a compiled graph is made of: callables as functions of the state they get. */
module Topology {
  import opened Values
  import opened Ordering
  import opened Protocol
  import opened Reducers

  const START := "__start__"
  const END := "__end__"

  datatype NodeAnswer = Delivers(delta: Delta) | DeliversOther | NodeThrows(fault: Fault)
  datatype RouteAnswer = Routes(target: string) | RoutesOther | RouterThrows(fault: Fault)
  datatype JoinAnswer = Admits(names: seq<string>) | JoinThrows(fault: Fault)

  /** What a custom join sees of one settled branch. */
  datatype BranchOutcome = BranchOutcome(name: string, ok: bool, error: Option<Error>)

  datatype Join =
    | JoinAll
    | JoinAny
    | FirstSuccess
    | Quorum(n: nat)
    | CustomJoin(admit: seq<BranchOutcome> -> JoinAnswer, ref: Option<string>)

  datatype Edge =
    | Static(target: string)
    | Conditional(router: State -> RouteAnswer, ref: Option<string>, declared: seq<string>)
    | FanOut(branches: seq<string>, next: string, join: Join)

  datatype Node = Node(call: State -> NodeAnswer, ref: Option<string>)

  datatype Graph = Graph(
    nodes: map<string, Node>, edges: map<string, Edge>, reducers: map<string, Reducer>, maxSteps: int)
  {
    ghost predicate Valid() {
      forall source <- edges :: edges[source].FanOut? ==> ValidFanOut(edges[source])
    }

    /** A missing edge means END. */
    function EdgeFrom(source: string): Edge {
      if source in edges then edges[source] else Static(END)
    }

    predicate Routable(target: string) { target == END || target in nodes }
  }

  /** What the `FanOut` and `Join` constructors establish. */
  ghost predicate ValidFanOut(edge: Edge)
    requires edge.FanOut?
  {
    && |edge.branches| >= 2
    && Ascending(edge.branches)
    && (forall b <- edge.branches :: b != "")
    && edge.next != ""
    && (edge.join.Quorum? ==> 1 <= edge.join.n <= |edge.branches|)
  }

  /** `FanOut(branches, then, join)`: rejects what it must, sorts the branches. */
  function MakeFanOut(branches: seq<string>, next: string, join: Join): (edge: Option<Edge>)
    ensures edge.Some? ==> edge.value.FanOut? && ValidFanOut(edge.value)
                           && edge.value.next == next && edge.value.join == join
    ensures edge.Some? ==> forall b :: b in edge.value.branches <==> b in branches
    ensures edge.Some? <==> |branches| >= 2 && Unique(branches) && "" !in branches && next != ""
                            && (join.Quorum? ==> 1 <= join.n <= |branches|)
  {
    var names := Elements(branches);
    UniqueCount(branches);
    if |branches| < 2 || |names| != |branches| || "" in names || next == "" then None
    else if join.Quorum? && !(1 <= join.n <= |branches|) then None
    else
      var sorted := SortedKeys(names);
      SortedKeysCount(names);
      Some(FanOut(sorted, next, join))
  }

  function Elements(xs: seq<string>): set<string> { set x | x in xs }

  lemma {:induction false} UniqueCount(xs: seq<string>)
    ensures |Elements(xs)| <= |xs|
    ensures |Elements(xs)| == |xs| <==> Unique(xs)
  {
    if xs != [] {
      hide Unique;
      var rest := xs[..|xs| - 1];
      var last := xs[|xs| - 1];
      UniqueCount(rest);
      assert xs == rest + [last];
      UniqueSnoc(rest, last);
      assert Elements(xs) == Elements(rest) + {last};
      assert last in Elements(rest) <==> last in rest;
      assert last in rest ==> Elements(xs) == Elements(rest);
    } else {
      assert Elements(xs) == {};
    }
  }

  lemma {:induction false} UniqueSnoc(xs: seq<string>, x: string)
    ensures Unique(xs + [x]) <==> Unique(xs) && x !in xs
  {
    var ys := xs + [x];
    forall i, j | 0 <= i < j < |xs| ensures xs[i] != xs[j] <==> ys[i] != ys[j] {}
    if x in xs {
      var i :| 0 <= i < |xs| && xs[i] == x;
      assert ys[i] == ys[|xs|];
    } else if Unique(ys) {
      forall i, j | 0 <= i < j < |xs| ensures xs[i] != xs[j] { assert ys[i] != ys[j]; }
    }
  }
}
