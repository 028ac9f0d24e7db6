/** Runs confined to an area of the graph: closed under everything edges and routers can
    select, it is never left; made of registered nodes, it never leads astray. */
module Confinement {
  import opened Values
  import opened Ordering
  import opened Protocol
  import opened Reducers
  import opened Topology
  import opened Engine
  import opened Refinement

  /** The nodes that may be started, and the names that edges may select. */
  datatype Area = Area(started: set<string>, selected: set<string>)

  /** `edge` stays in `area`, whatever its router is shown. */
  ghost predicate LeadsInto(edge: Edge, area: Area) {
    match edge
    case Static(t) => t in area.selected
    case Conditional(router, _, _) => forall s :: router(s).Routes? ==> router(s).target in area.selected
    case FanOut(branches, next, _) => (forall b <- branches :: b in area.started) && next in area.selected
  }

  ghost predicate ClosedUnderEdges(graph: Graph, area: Area) {
    && LeadsInto(graph.EdgeFrom(START), area)
    && (forall n <- area.selected :: n != END ==> n in area.started && LeadsInto(graph.EdgeFrom(n), area))
  }

  /** Its nodes are registered, the entry is no region, and routers return strings. */
  ghost predicate Registered(graph: Graph, area: Area) {
    && (forall n <- area.started :: n in graph.nodes && n != "")
    && !graph.EdgeFrom(START).FanOut?
    && StringRouter(graph.EdgeFrom(START))
    && forall n <- area.selected :: n != END ==> StringRouter(graph.EdgeFrom(n))
  }

  ghost predicate StringRouter(edge: Edge) {
    edge.Conditional? ==> forall s :: !edge.router(s).RoutesOther?
  }

  /** The scheduler was led to something that is no node. */
  predicate Astray(e: Error) {
    e.UnknownNode? || e.UnknownRoute? || e.EmptyRoute? || e.RouteNotString? || e.FanOutAsRoute?
  }

  /** Only nodes of the area are started, and the run completes only if END may be selected. */
  ghost predicate StartsIn(log: Log, area: Area) {
    && (forall e <- log :: e.Observed? && e.obs.NodeStart? ==> e.obs.node in area.started)
    && (forall e <- log :: e.Observed? && e.obs.Done? ==> END in area.selected)
  }

  /** Confined to `area` throughout, and if `safe`, no error says the run went astray. */
  ghost predicate Confined<T>(safe: bool, area: Area, f: Flow<T>) {
    StartsIn(f.log, area) && (safe && f.Raise? ==> !Astray(f.error))
  }

  lemma PermitConfined(safe: bool, area: Area, gate: Gate, log: Log, request: DispatchRequest, state: State,
                       node: string, steps: nat)
    requires StartsIn(log, area)
    ensures Confined(safe, area, Permit(gate, log, request, state, node, steps))
  {
  }

  lemma GuardConfined(safe: bool, area: Area, gate: Gate, log: Log, request: DispatchRequest, state: State,
                      node: string, steps: nat)
    requires StartsIn(log, area)
    ensures Confined(safe, area, Guard(gate, log, request, state, node, steps))
  {
    hide Permit;
    PermitConfined(safe, area, gate, log, request, state, node, steps);
  }

  lemma CommitConfined(safe: bool, area: Area, gate: Gate, log: Log, request: CommitRequest, state: State,
                       node: string, steps: nat)
    requires StartsIn(log, area)
    ensures Confined(safe, area, Commit(gate, log, request, state, node, steps))
  {
  }

  lemma AfterCommitConfined(area: Area, gate: Gate, log: Log, request: CommitRequest)
    requires StartsIn(log, area)
    ensures var (settled, failure) := AfterCommit(gate, log, request);
            StartsIn(settled, area) && (failure.Some? ==> !Astray(failure.value))
  {
  }

  // ----- a node -----

  lemma NodeConfined(safe: bool, area: Area, ctx: Ctx, state: State, steps: nat, node: string, log: Log)
    requires StartsIn(log, area) && node in area.started && (safe ==> node in ctx.graph.nodes)
    ensures Confined(safe, area, RunNode(ctx, state, steps, node, log))
  {
    hide Guard, PublishNode;
    var visited := Visit(state, [node]);
    if node in ctx.graph.nodes && visited.Some? {
      var running := visited.value;
      var started := log + [Observed(NodeStart(node, steps, running))];
      GuardConfined(safe, area, ctx.gate, started, NodeSite(node, steps), running, node, steps);
      var entered := Guard(ctx.gate, started, NodeSite(node, steps), running, node, steps);
      var answer := ctx.graph.nodes[node].call(running);
      var left := entered.log + [Left(NodeSite(node, steps), answer.Delivers?)];
      if entered.Go? && answer.Delivers? {
        PublishConfined(safe, area, ctx.gate, running, steps, node, answer.delta, left);
      }
    }
  }

  lemma PublishConfined(safe: bool, area: Area, gate: Gate, running: State, steps: nat, node: string,
                        delta: Delta, log: Log)
    requires StartsIn(log, area)
    ensures Confined(safe, area, PublishNode(gate, running, steps, node, delta, log))
  {
    hide Commit, AfterCommit;
    var request := CommitRequest(NodeCommit, [node], steps, None, Sha256(delta), None);
    CommitConfined(safe, area, gate, log, request, running, node, steps);
    var allowed := Commit(gate, log, request, running, node, steps);
    if allowed.Go? { AfterCommitConfined(area, gate, allowed.log, request); }
  }

  // ----- a region -----

  /** An outcome whose error is none of the scheduler's own route errors. */
  ghost predicate Harmless(o: Settlement) {
    (o.Failed? || o.NotAdmitted? || o.NotStarted?) ==> !Astray(o.error)
  }

  lemma StepConfined(area: Area, ctx: Ctx, region: Region, i: nat, task: Task, log: Log)
    requires i < |region.branches| && region.In(ctx.graph) && !task.Finished? && StartsIn(log, area)
    ensures var (next, stepped) := StepTask(ctx, region, i, task, log);
            StartsIn(stepped, area) && (next.Finished? ==> Harmless(next.outcome))
  {
  }

  lemma {:induction false} SettleConfined(area: Area, ctx: Ctx, region: Region, tasks: seq<Task>, log: Log)
    requires |tasks| == |region.branches| && region.In(ctx.graph) && StartsIn(log, area)
    requires forall t <- tasks :: t.Finished? ==> Harmless(t.outcome)
    ensures var (done, settled) := SettleAll(ctx, region, tasks, log);
            StartsIn(settled, area) && forall t <- done :: Harmless(t.outcome)
    decreases Work(tasks)
  {
    hide StepTask, Harmless;
    if !AllFinished(tasks) {
      var i := Choose(tasks, ctx.pick(log));
      var (task, stepped) := StepTask(ctx, region, i, tasks[i], log);
      WorkUpdate(tasks, i, task);
      StepConfined(area, ctx, region, i, tasks[i], log);
      SettleConfined(area, ctx, region, tasks[i := task], stepped);
    }
  }

  lemma {:induction false} ErrorsHarmless(settled: seq<Settlement>)
    requires forall o <- settled :: Harmless(o)
    ensures forall e <- AdmissionErrors(settled) :: !Astray(e)
    ensures forall e <- StartErrors(settled) :: !Astray(e)
  {
    if settled != [] {
      assert settled[0] in settled && forall o <- settled[1..] :: o in settled;
      ErrorsHarmless(settled[1..]);
    }
  }

  lemma {:induction false} RefusalsAreErrors(errors: seq<Error>)
    ensures forall e <- GateRefusals(errors) :: e in errors
  {
    if errors != [] { RefusalsAreErrors(errors[1..]); }
  }

  lemma ReduceFieldHarmless(field: string, reducer: Reducer, base: Value, ws: seq<Write>)
    requires ws != []
    ensures var r := ReduceField(field, reducer, base, ws); r.Failure? ==> !Astray(r.error)
  {
    if reducer.Union? && AllDicts(ws) && BaseDict(field, base).Success? {
      FoldDictsHarmless(field, Partial(BaseDict(field, base).value, map[]), ws);
    }
  }

  lemma {:induction false} FoldDictsHarmless(field: string, acc: Partial, ws: seq<Write>)
    requires AllDicts(ws)
    ensures var r := FoldDicts(field, acc, ws); r.Failure? ==> !Astray(r.error)
    decreases |ws|
  {
    if ws != [] {
      var entries := ws[0].value.entries;
      FoldEntriesHarmless(field, acc, ws[0].branch, entries, SortedKeys(entries.Keys));
      var next := FoldEntries(field, acc, ws[0].branch, entries, SortedKeys(entries.Keys));
      if next.Success? { FoldDictsHarmless(field, next.value, ws[1..]); }
    }
  }

  lemma {:induction false} FoldEntriesHarmless(field: string, acc: Partial, branch: string, entries: map<string, Value>,
                                               keys: seq<string>)
    requires forall k <- keys :: k in entries
    ensures var r := FoldEntries(field, acc, branch, entries, keys); r.Failure? ==> !Astray(r.error)
    decreases |keys|
  {
    if keys != [] {
      var key := keys[0];
      var written := if key in acc.written then acc.written else acc.written[key := Write(branch, entries[key])];
      FoldEntriesHarmless(field, Partial(acc.result[key := entries[key]], written), branch, entries, keys[1..]);
    }
  }

  lemma EnterReducerConfined(safe: bool, area: Area, ctx: Ctx, region: Region, state: State, completed: nat,
                             items: seq<Contribution>, key: string, log: Log)
    requires StartsIn(log, area)
    ensures Confined(safe, area, EnterReducer(ctx, region, state, completed, items, key, log))
  {
    hide Guard;
    GuardConfined(safe, area, ctx.gate, log, region.Request(AtReducer, Names(items) + [key], completed), state,
                  region.source, region.steps);
  }

  lemma {:induction false} FoldConfined(safe: bool, area: Area, ctx: Ctx, region: Region, state: State,
                                        completed: nat, items: seq<Contribution>, keys: seq<string>, acc: Fold,
                                        log: Log)
    requires forall k <- keys :: k in Keys(items)
    requires StartsIn(log, area)
    ensures Confined(safe, area, FoldKeys(ctx, region, state, completed, items, keys, acc, log))
    decreases |keys|
  {
    hide EnterReducer, ReduceField;
    if keys != [] {
      EnterReducerConfined(safe, area, ctx, region, state, completed, items, keys[0], log);
      WritesExist(items, keys[0]);
      ReduceFieldHarmless(keys[0], ReducerFor(ctx.graph, keys[0]), Field(region.snapshot, keys[0]),
                          Writes(items, keys[0]));
      var one := FoldKey(ctx, region, state, completed, items, keys[0], acc, log);
      if one.Go? { FoldConfined(safe, area, ctx, region, state, completed, items, keys[1..], one.value, one.log); }
    }
  }

  lemma CommitRegionConfined(safe: bool, area: Area, ctx: Ctx, region: Region, edge: Edge, state: State,
                             completed: nat, items: seq<Contribution>, fold: Fold, log: Log)
    requires edge.FanOut? && StartsIn(log, area)
    ensures Confined(safe, area, CommitRegion(ctx, region, edge, state, completed, items, fold, log))
  {
    hide Commit, AfterCommit;
    var request := CommitRequest(RegionCommit, Names(items), completed, Some(region.source), Sha256(fold.merged),
                                 Some(region.batch));
    CommitConfined(safe, area, ctx.gate, log, request, state, region.source, region.steps);
    var allowed := Commit(ctx.gate, log, request, state, region.source, region.steps);
    if allowed.Go? { AfterCommitConfined(area, ctx.gate, allowed.log, request); }
  }

  lemma FoldRegionConfined(safe: bool, area: Area, ctx: Ctx, region: Region, edge: Edge, state: State,
                           completed: nat, items: seq<Contribution>, log: Log)
    requires edge.FanOut? && region.steps <= completed && StartsIn(log, area)
    ensures Confined(safe, area, FoldRegion(ctx, region, edge, state, completed, items, log))
  {
    hide Permit, FoldKeys, CommitRegion;
    var request := region.Request(AtReducer, Names(items), completed);
    PermitConfined(safe, area, ctx.gate, log, request, state, region.source, region.steps);
    var allowed := Permit(ctx.gate, log, request, state, region.source, region.steps);
    if allowed.Go? {
      var keys, none := SortedKeys(Keys(items)), Fold(map[], map[]);
      FoldConfined(safe, area, ctx, region, state, completed, items, keys, none, allowed.log);
      var folded := FoldKeys(ctx, region, state, completed, items, keys, none, allowed.log);
      if folded.Go? {
        CommitRegionConfined(safe, area, ctx, region, edge, state, completed, items, folded.value, folded.log);
      }
    }
  }

  lemma AdmitHarmless(source: string, join: Join, branches: seq<string>, settled: seq<Settlement>)
    requires |branches| == |settled|
    ensures var r := Admit(source, join, branches, settled); r.Failure? ==> !Astray(r.error)
  {
  }

  lemma JoinConfined(safe: bool, area: Area, ctx: Ctx, region: Region, edge: Edge, state: State,
                     settled: seq<Settlement>, log: Log)
    requires edge.FanOut? && |settled| == |region.branches| && StartsIn(log, area)
    ensures Confined(safe, area, JoinRegion(ctx, region, edge, state, settled, log))
  {
    hide Guard, Admit, FoldRegion;
    var completed := region.steps + |Successes(region.branches, settled)|;
    GuardConfined(safe, area, ctx.gate, log, region.Request(AtJoin, region.branches, completed), state, region.source,
                  region.steps);
    var joined := GuardJoin(ctx, region, edge.join, state, completed, log);
    AdmitHarmless(region.source, edge.join, region.branches, settled);
    var r := Admit(region.source, edge.join, region.branches, settled);
    if joined.Go? && r.Success? {
      FoldRegionConfined(safe, area, ctx, region, edge, state, completed, r.value, joined.log);
    }
  }

  lemma CloseConfined(safe: bool, area: Area, ctx: Ctx, region: Region, edge: Edge, state: State,
                      settled: seq<Settlement>, log: Log)
    requires edge.FanOut? && |settled| == |region.branches| && StartsIn(log, area)
    requires forall o <- settled :: Harmless(o)
    ensures Confined(safe, area, CloseRegion(ctx, region, edge, state, settled, log))
  {
    hide JoinRegion, AdmissionErrors, StartErrors, GateRefusals, Harmless;
    ErrorsHarmless(settled);
    RefusalsAreErrors(StartErrors(settled));
    JoinConfined(safe, area, ctx, region, edge, state, settled, log);
  }

  lemma RegionConfined(safe: bool, area: Area, ctx: Ctx, source: string, edge: Edge, state: State, steps: nat,
                       log: Log)
    requires edge.FanOut? && StartsIn(log, area) && LeadsInto(edge, area) && ClosedUnderEdges(ctx.graph, area)
    requires safe ==> Registered(ctx.graph, area) && StringRouter(edge)
    ensures Confined(safe, area, RunRegion(ctx, source, edge, state, steps, log))
  {
    hide Permit, SettleAll, CloseRegion;
    var begun := OpenRegion(ctx, source, edge, state, steps, log);
    MissingIsMissing(ctx.graph, edge.branches);
    if begun.Go? {
      var region := begun.value;
      forall e | e in StartEvents(region, |region.branches|) ensures e.obs.node in area.started {}
      var request := region.Request(AtFanOut, region.branches, steps);
      PermitConfined(safe, area, ctx.gate, begun.log, request, state, source, steps);
      var allowed := Permit(ctx.gate, begun.log, request, state, source, steps);
      if allowed.Go? {
        var tasks := FreshTasks(|region.branches|);
        SettleConfined(area, ctx, region, tasks, allowed.log);
        var (done, settled) := SettleAll(ctx, region, tasks, allowed.log);
        CloseConfined(safe, area, ctx, region, edge, state, Outcomes(done), settled);
      }
    }
  }

  lemma {:induction false} MissingIsMissing(graph: Graph, branches: seq<string>)
    ensures var m := MissingBranch(graph, branches); m.Some? ==> m.value in branches && m.value !in graph.nodes
  {
    if branches != [] && branches[0] in graph.nodes { MissingIsMissing(graph, branches[1..]); }
  }

  // ----- the run -----

  lemma RouteConfined(safe: bool, area: Area, ctx: Ctx, source: string, edge: Edge, state: State, steps: nat,
                      log: Log)
    requires StartsIn(log, area) && LeadsInto(edge, area) && ClosedUnderEdges(ctx.graph, area)
    requires safe ==> Registered(ctx.graph, area) && StringRouter(edge)
    requires !edge.FanOut? || (!safe && source == START)
    ensures var f := Route(ctx, source, edge, state, steps, log);
            Confined(safe, area, f) && (f.Go? ==> f.value in area.selected)
  {
    hide Guard;
    GuardConfined(safe, area, ctx.gate, log, RouterSite(source, steps), state, source, steps);
  }

  lemma TurnConfined(safe: bool, area: Area, ctx: Ctx, state: State, steps: nat, node: string, log: Log)
    requires StartsIn(log, area) && node in area.selected && node != END && ClosedUnderEdges(ctx.graph, area)
    requires safe ==> Registered(ctx.graph, area)
    ensures var f := TakeTurn(ctx, state, steps, node, log);
            Confined(safe, area, f) && (f.Go? ==> f.value.target in area.selected)
  {
    hide RunNode, RunRegion, Route;
    NodeConfined(safe, area, ctx, state, steps, node, log);
    var ended := RunNode(ctx, state, steps, node, log);
    var edge := ctx.graph.EdgeFrom(node);
    if ended.Go? {
      if edge.FanOut? { RegionConfined(safe, area, ctx, node, edge, ended.value, steps + 1, ended.log); }
      var committed := if edge.FanOut? then RunRegion(ctx, node, edge, ended.value, steps + 1, ended.log)
                       else Go(ended.log, Progress(ended.value, steps + 1));
      if committed.Go? {
        RouteConfined(safe, area, ctx, node, if edge.FanOut? then Static(edge.next) else edge, committed.value.state,
                      committed.value.steps, committed.log);
      }
    }
  }

  lemma {:induction false} LoopConfined(safe: bool, area: Area, ctx: Ctx, state: State, steps: nat,
                                        node: string, last: string, log: Log)
    requires StartsIn(log, area) && node in area.selected && ClosedUnderEdges(ctx.graph, area)
    requires safe ==> Registered(ctx.graph, area)
    ensures Confined(safe, area, Loop(ctx, state, steps, node, last, log))
    decreases ctx.graph.maxSteps - steps
  {
    hide TakeTurn;
    if node != END && steps < ctx.graph.maxSteps {
      TurnConfined(safe, area, ctx, state, steps, node, log);
      var f := TakeTurn(ctx, state, steps, node, log);
      if f.Go? { LoopConfined(safe, area, ctx, f.value.state, f.value.steps, f.value.target, node, f.log); }
    }
  }

  lemma RunConfined(safe: bool, area: Area, ctx: Ctx, state: State)
    requires ClosedUnderEdges(ctx.graph, area)
    requires safe ==> Registered(ctx.graph, area)
    ensures Confined(safe, area, Run(ctx, state))
  {
    hide Run, Route, Loop;
    RunUnfolds(ctx, state);
    var edge := ctx.graph.EdgeFrom(START);
    RouteConfined(safe, area, ctx, START, edge, state, 0, []);
    var selected := Route(ctx, START, edge, state, 0, []);
    if selected.Go? { LoopConfined(safe, area, ctx, state, 0, selected.value, START, selected.log); }
  }

  lemma {:induction false} ObservedEvents(log: Log)
    ensures forall o :: o in Obs(log) <==> Observed(o) in log
  {
    if log != [] {
      var front, last := log[..|log| - 1], log[|log| - 1];
      ObservedEvents(front);
      assert log == front + [last];
      ObsSnoc(front, last);
    }
  }

  /** An area closed under edges is never left: no other node is ever started, and unless
      END may be selected no run completes. */
  lemma NeverLeavesAClosedArea(ctx: Ctx, state: State, area: Area)
    requires ClosedUnderEdges(ctx.graph, area)
    ensures forall o <- Obs(Run(ctx, state).log) :: o.NodeStart? ==> o.node in area.started
    ensures forall o <- Obs(Run(ctx, state).log) :: o.Done? ==> END in area.selected
  {
    hide Run;
    RunConfined(false, area, ctx, state);
    ObservedEvents(Run(ctx, state).log);
  }

  /** If it holds registered nodes only, no run goes astray. */
  lemma NeverGoesAstray(ctx: Ctx, state: State, area: Area)
    requires ClosedUnderEdges(ctx.graph, area) && Registered(ctx.graph, area)
    ensures var r := Run(ctx, state); r.Raise? ==> !Astray(r.error)
  {
    hide Run;
    RunConfined(true, area, ctx, state);
  }
}
