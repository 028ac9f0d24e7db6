/** A run that calls more nodes than its budget of steps, and exactly which joins allow it. */
module Overrun {
  import opened Values
  import opened Ordering
  import opened Protocol
  import opened Topology
  import opened Engine
  import opened Ledger
  import Refinement
  import JoinLaws

  const NOTHING_WRITTEN: Delta := map[]
  const BRANCHES: seq<string> := ["a", "b", "c"]
  const FAULT := Other(0)

  /** `s` fans out to three branches of which two fail, then `t`, `u` and END. */
  function Crowd(join: Join): Graph {
    var delivers := Node(s => Delivers(NOTHING_WRITTEN), None);
    var throws := Node(s => NodeThrows(FAULT), None);
    Graph(map["s" := delivers, "a" := delivers, "b" := throws, "c" := throws, "t" := delivers, "u" := delivers],
          map[START := Static("s"), "s" := FanOut(BRANCHES, "t", join), "t" := Static("u")], map[], 4)
  }

  /** What the branches amount to, in whatever order they run. */
  const OUTCOMES: seq<Settlement> := [Ok(NOTHING_WRITTEN), Failed(Raised(FAULT)), Failed(Raised(FAULT))]

  /** The join lets the region commit in spite of the two failures. */
  predicate Tolerates(join: Join) { Admit("s", join, BRANCHES, OUTCOMES).Success? }

  lemma Names()
    ensures START != END && "s" != END && "t" != END && "u" != END && "a" != END && "b" != END && "c" != END
    ensures START != "s" && START != "t" && START != "u" && "s" != "t" && "s" != "u" && "t" != "u"
  {
    assert |START| == 9 && |END| == 7;
  }

  lemma Visits(s: State, names: seq<string>)
    requires s[VISITED].List?
    ensures Visit(s, names).Some? && Visit(s, names).value[VISITED].List?
  {
  }

  /** A node that delivers nothing goes on. */
  lemma NodeGoes(ctx: Ctx, state: State, steps: nat, node: string, log: Log)
    requires ctx.gate.NoGate? && node in ctx.graph.nodes && state[VISITED].List?
    requires forall s :: ctx.graph.nodes[node].call(s) == Delivers(NOTHING_WRITTEN)
    ensures var f := RunNode(ctx, state, steps, node, log); f.Go? && f.value[VISITED].List?
  {
    hide Visit;
    Visits(state, [node]);
    assert CopyableDelta(NOTHING_WRITTEN);
  }

  lemma PlainTurn(ctx: Ctx, join: Join, state: State, steps: nat, node: string, log: Log)
    requires ctx.graph == Crowd(join) && ctx.gate.NoGate? && state[VISITED].List? && (node == "t" || node == "u")
    ensures var f := TakeTurn(ctx, state, steps, node, log);
            f.Go? && f.value.steps == steps + 1 && f.value.target == (if node == "t" then "u" else END)
            && f.value.state[VISITED].List?
  {
    hide RunNode;
    Names();
    NodeGoes(ctx, state, steps, node, log);
  }

  lemma SettledOutcomes(ctx: Ctx, join: Join, region: Region, log: Log)
    requires ctx.graph == Crowd(join) && ctx.gate.NoGate? && region.branches == BRANCHES && region.In(ctx.graph)
    ensures Outcomes(SettleAll(ctx, region, FreshTasks(3), log).0) == OUTCOMES
  {
    hide SettleAll;
    Refinement.SettleOnCourse(ctx, region, FreshTasks(3), log);
    var done := SettleAll(ctx, region, FreshTasks(3), log).0;
    assert Refinement.OnCourse(ctx, region, 0, done[0]);
    assert Refinement.OnCourse(ctx, region, 1, done[1]);
    assert Refinement.OnCourse(ctx, region, 2, done[2]);
    assert done[0] in done && done[1] in done && done[2] in done;
  }

  /** Every branch wrote nothing or failed in an ordinary way. */
  predicate Writeless(settled: seq<Settlement>) {
    forall o <- settled :: o == Ok(NOTHING_WRITTEN) || o == Failed(Raised(FAULT))
  }

  /** With such outcomes only the join decides. */
  lemma OutcomesReachTheJoin(ctx: Ctx, region: Region, edge: Edge, state: State, settled: seq<Settlement>, log: Log)
    requires edge.FanOut? && |settled| == |region.branches| && Writeless(settled)
    ensures CloseRegion(ctx, region, edge, state, settled, log) == JoinRegion(ctx, region, edge, state, settled, log)
  {
    hide JoinRegion, Halt, InterruptRun, AdmissionErrors, StartErrors, StopReasons, FirstInterrupt;
    JoinLaws.NoAdmissionError(settled);
    JoinLaws.StartErrorsAt(settled);
    JoinLaws.NoStop(settled);
    JoinLaws.NoPause(settled);
  }

  lemma OneSuccess()
    ensures Successes(BRANCHES, OUTCOMES) == [Contribution("a", NOTHING_WRITTEN)]
  {
    var failed := Failed(Raised(FAULT));
    assert OUTCOMES[1..] == [failed, failed] && BRANCHES[1..] == ["b", "c"];
    assert [failed, failed][1..] == [failed] && ["b", "c"][1..] == ["c"];
    assert [failed][1..] == [] && ["c"][1..] == [];
    assert Successes(["c"], [failed]) == [];
    assert Successes(["b", "c"], [failed, failed]) == [];
  }

  /** Whoever is admitted has nothing to fold. */
  lemma AdmittedWroteNothing(join: Join)
    requires Tolerates(join)
    ensures Keys(Admit("s", join, BRANCHES, OUTCOMES).value) == {}
  {
    hide Successes;
    OneSuccess();
    var ok, items := Successes(BRANCHES, OUTCOMES), Admit("s", join, BRANCHES, OUTCOMES).value;
    forall c | c in items ensures c.delta == NOTHING_WRITTEN {
      if join.CustomJoin? { JoinLaws.ChosenMembers(ok, JoinLaws.Wanted(join, BRANCHES, OUTCOMES), c); }
      assert c in ok;
    }
    NoKeys(items);
  }

  lemma {:induction false} NoKeys(items: seq<Contribution>)
    requires forall c <- items :: c.delta == NOTHING_WRITTEN
    ensures Keys(items) == {}
  {
    if items != [] {
      assert items[0] in items && forall c <- items[1..] :: c in items;
      NoKeys(items[1..]);
    }
  }

  lemma JoinGoesIff(ctx: Ctx, region: Region, edge: Edge, state: State, log: Log)
    requires edge.FanOut? && region.branches == BRANCHES && region.source == "s" && ctx.gate.NoGate?
    requires region.snapshot[VISITED].List?
    ensures var f := JoinRegion(ctx, region, edge, state, OUTCOMES, log);
            && (f.Go? <==> Tolerates(edge.join))
            && (f.Go? ==> f.value.steps == region.steps + 1 && f.value.state[VISITED].List?)
  {
    hide Admit, Successes;
    OneSuccess();
    if Tolerates(edge.join) {
      AdmittedWroteNothing(edge.join);
      var items := Admit("s", edge.join, BRANCHES, OUTCOMES).value;
      var none: set<string> := {};
      assert SortedKeys(Keys(items)) == [];
      assert CopyableDelta(NOTHING_WRITTEN);
    }
  }

  lemma RegionGoesIff(ctx: Ctx, join: Join, state: State, log: Log)
    requires ctx.graph == Crowd(join) && ctx.gate.NoGate? && state[VISITED].List?
    ensures var f := RunRegion(ctx, "s", FanOut(BRANCHES, "t", join), state, 1, log);
            && (f.Go? <==> Tolerates(join))
            && (f.Go? ==> f.value.steps == 2 && f.value.state[VISITED].List?)
  {
    hide SettleAll, CloseRegion, Visit, Tolerates, StartEvents;
    Visits(state, BRANCHES);
    var edge := FanOut(BRANCHES, "t", join);
    MissingNone(ctx.graph);
    var begun := OpenRegion(ctx, "s", edge, state, 1, log);
    var region := begun.value;
    SettledOutcomes(ctx, join, region, begun.log);
    var (done, settled) := SettleAll(ctx, region, FreshTasks(3), begun.log);
    OutcomesReachTheJoin(ctx, region, edge, state, OUTCOMES, settled);
    JoinGoesIff(ctx, region, edge, state, settled);
  }

  lemma MissingNone(graph: Graph)
    requires forall b <- BRANCHES :: b in graph.nodes
    ensures MissingBranch(graph, BRANCHES).None?
  {
  }

  lemma FirstTurn(ctx: Ctx, join: Join, state: State, log: Log)
    requires ctx.graph == Crowd(join) && ctx.gate.NoGate? && state[VISITED].List?
    ensures var f := TakeTurn(ctx, state, 0, "s", log);
            && (f.Go? <==> Tolerates(join))
            && (f.Go? ==> f.value.steps == 2 && f.value.target == "t" && f.value.state[VISITED].List?)
  {
    hide RunNode, RunRegion, Tolerates;
    Names();
    NodeGoes(ctx, state, 0, "s", log);
    var ended := RunNode(ctx, state, 0, "s", log);
    RegionGoesIff(ctx, join, ended.value, ended.log);
  }

  /** Under a budget of four steps this graph makes six calls if and only if its join
      tolerates two failures of three; otherwise it keeps to four. */
  lemma ExceedsIffTolerated(ctx: Ctx, join: Join, state: State)
    requires ctx.graph == Crowd(join) && ctx.gate.NoGate? && state[VISITED].List?
    ensures var calls := Count(Run(ctx, state).log).calls;
            && (Tolerates(join) ==> calls == 6)
            && (!Tolerates(join) ==> calls <= 4)
  {
    hide Run, Loop, Route, TakeTurn, Count, Tolerates, Balanced, Covered, Bounded;
    Names();
    RunUnfolds(ctx, state);
    RouteCounts(ctx, START, Static("s"), state, 0, []);
    EntryIsS(ctx, join, state);
    var entry := Route(ctx, START, Static("s"), state, 0, []);
    CountNothing();
    NothingBalances();
    TurnCounts(ctx, state, 0, "s", entry.log);
    FirstTurn(ctx, join, state, entry.log);
    LoopUnfolds(ctx, state, 0, "s", START, entry.log);
    var first := TakeTurn(ctx, state, 0, "s", entry.log);
    if first.Go? {
      TolerantRest(ctx, join, first.value.state, "s", first.log);
    } else {
      FewCalls(4, Ledger.NOTHING, Count(first.log));
    }
  }

  lemma EntryIsS(ctx: Ctx, join: Join, state: State)
    requires ctx.graph == Crowd(join)
    ensures ctx.graph.EdgeFrom(START) == Static("s")
    ensures var entry := Route(ctx, START, Static("s"), state, 0, []); entry.Go? && entry.value == "s"
  {
    Names();
  }

  lemma FewCalls(max: nat, before: Tally, after: Tally)
    requires Covered(after) && Bounded(max, before, after) && before.errored == 0
    ensures after.calls <= max
  {
  }

  /** After the region, `t` and `u` are called as well, and the run is done. */
  lemma TolerantRest(ctx: Ctx, join: Join, state: State, last: string, log: Log)
    requires ctx.graph == Crowd(join) && ctx.gate.NoGate? && state[VISITED].List?
    requires Balanced(Count(log), 2) && Count(log).starts == 4
    ensures Count(Loop(ctx, state, 2, "t", last, log).log).calls == 6
  {
    hide Loop, TakeTurn, Count, Covered, Bounded;
    Names();
    TurnCounts(ctx, state, 2, "t", log);
    PlainTurn(ctx, join, state, 2, "t", log);
    LoopUnfolds(ctx, state, 2, "t", last, log);
    var second := TakeTurn(ctx, state, 2, "t", log);
    TurnCounts(ctx, second.value.state, 3, "u", second.log);
    PlainTurn(ctx, join, second.value.state, 3, "u", second.log);
    LoopUnfolds(ctx, second.value.state, 3, "u", "t", second.log);
    var third := TakeTurn(ctx, second.value.state, 3, "u", second.log);
    LoopUnfolds(ctx, third.value.state, 4, END, "u", third.log);
    CountSnoc(third.log, Observed(Done(4, Merge(third.value.state, map[STATUS := Str("done")]))));
    EdgesOf(join);
  }

  lemma EdgesOf(join: Join)
    ensures Crowd(join).EdgeFrom("t") == Static("u") && Crowd(join).EdgeFrom("u") == Static(END)
    ensures Crowd(join).EdgeFrom("s") == FanOut(BRANCHES, "t", join)
  {
    Names();
  }

  /** Of the built-in joins, `any`, `first_success` and a quorum of one tolerate this. */
  lemma BuiltInJoins(join: Join)
    requires !join.CustomJoin? && (join.Quorum? ==> join.n >= 1)
    ensures Tolerates(join) <==> join.JoinAny? || join.FirstSuccess? || (join.Quorum? && join.n == 1)
  {
    hide Successes, Failures;
    OneSuccess();
    JoinLaws.FailureMembers(OUTCOMES);
    assert OUTCOMES[1] in OUTCOMES;
  }
}
