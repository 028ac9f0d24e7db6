/** Where every event of a run comes from: each call from a start of its own, each node's
    delta from its callable, and each region's commit from exactly the ends shown before it. */
module Origins {
  import opened Values
  import opened Ordering
  import opened Protocol
  import opened Reducers
  import opened Topology
  import opened Engine
  import Grammar
  import Refinement
  import JoinLaws
  import ReducerLaws

  // ----- reading a log -----

  predicate IsStart(e: Event, node: string, steps: nat) {
    e.Observed? && e.obs.NodeStart? && e.obs.node == node && e.obs.steps == steps
  }

  predicate IsCall(e: Event, node: string, steps: nat) {
    e.Entered? && e.site.boundary.AtNode? && e.site.nodes == [node] && e.site.steps == steps
  }

  /** How often `node` was started, and called, at this step count. */
  function Starts(log: Log, node: string, steps: nat): nat {
    if log == [] then 0 else
    Starts(log[..|log| - 1], node, steps) + if IsStart(log[|log| - 1], node, steps) then 1 else 0
  }

  function Calls(log: Log, node: string, steps: nat): nat {
    if log == [] then 0 else
    Calls(log[..|log| - 1], node, steps) + if IsCall(log[|log| - 1], node, steps) then 1 else 0
  }

  /** The node ends `log` ends in. */
  function Ends(log: Log): seq<Contribution> {
    if log == [] then [] else
    var last := log[|log| - 1];
    if last.Observed? && last.obs.NodeEnd? then Ends(log[..|log| - 1]) + [Contribution(last.obs.node, last.obs.delta)]
    else []
  }

  /** The snapshot of the region opened last. */
  function Snapshot(log: Log): Option<State> {
    if log == [] then None else
    var last := log[|log| - 1];
    if last.Observed? && last.obs.SuperstepStart? then Some(last.obs.state) else Snapshot(log[..|log| - 1])
  }

  /** The states nodes were started with: of each node, the one its last start showed. */
  function Given(log: Log): map<string, State> {
    if log == [] then map[] else
    var before, last := Given(log[..|log| - 1]), log[|log| - 1];
    if last.Observed? && last.obs.NodeStart? then before[last.obs.node := last.obs.state] else before
  }

  /** The callable of `node` answers the state it was given with `delta`. */
  predicate Delivered(graph: Graph, given: map<string, State>, node: string, delta: Delta) {
    node in graph.nodes && node in given && graph.nodes[node].call(given[node]) == Delivers(delta)
  }

  /** `v` is what the reducer of field `k` makes of the writes to it over `snapshot`. */
  ghost predicate FieldFolds(graph: Graph, snapshot: State, items: seq<Contribution>, k: string, v: Value) {
    && Writes(items, k) != []
    && ReduceField(k, ReducerFor(graph, k), Field(snapshot, k), Writes(items, k)) == Success(v)
  }

  /** `merged` is what the declared reducers make of `items` over `snapshot`, field by field. */
  ghost predicate FoldedFrom(graph: Graph, snapshot: State, items: seq<Contribution>, merged: Delta) {
    merged.Keys == Keys(items) && forall k <- merged :: FieldFolds(graph, snapshot, items, k, merged[k])
  }

  /** `e` has its origin in `graph` and in the log before it. */
  ghost predicate Grounded(graph: Graph, log: Log, e: Event) {
    match e
    case Entered(site) =>
      site.boundary.AtNode? ==>
        |site.nodes| == 1 && Calls(log, site.nodes[0], site.steps) < Starts(log, site.nodes[0], site.steps)
    case Observed(NodeEnd(node, _, _, delta)) => Delivered(graph, Given(log), node, delta)
    case Observed(SuperstepCommit(_, _, _, branches, state, merged, _)) =>
      && Snapshot(log).Some? && Names(Ends(log)) == branches
      && FoldedFrom(graph, Snapshot(log).value, Ends(log), merged)
      && state == Merge(Snapshot(log).value, merged)
    case _ => true
  }

  ghost predicate AllGrounded(graph: Graph, log: Log) {
    log == [] || (AllGrounded(graph, log[..|log| - 1]) && Grounded(graph, log[..|log| - 1], log[|log| - 1]))
  }

  lemma Snoc(graph: Graph, log: Log, e: Event)
    requires AllGrounded(graph, log) && Grounded(graph, log, e)
    ensures AllGrounded(graph, log + [e])
  {
    assert (log + [e])[..|log|] == log;
  }

  lemma SnocReads(log: Log, e: Event, node: string, steps: nat)
    ensures Starts(log + [e], node, steps) == Starts(log, node, steps) + if IsStart(e, node, steps) then 1 else 0
    ensures Calls(log + [e], node, steps) == Calls(log, node, steps) + if IsCall(e, node, steps) then 1 else 0
    ensures Ends(log + [e]) ==
              if e.Observed? && e.obs.NodeEnd? then Ends(log) + [Contribution(e.obs.node, e.obs.delta)] else []
    ensures Snapshot(log + [e]) ==
              if e.Observed? && e.obs.SuperstepStart? then Some(e.obs.state) else Snapshot(log)
    ensures Given(log + [e]) ==
              if e.Observed? && e.obs.NodeStart? then Given(log)[e.obs.node := e.obs.state] else Given(log)
  {
    assert (log + [e])[..|log|] == log;
  }

  lemma {:induction false} GroundedAt(graph: Graph, log: Log, i: nat)
    requires AllGrounded(graph, log) && i < |log|
    ensures AllGrounded(graph, log[..i]) && Grounded(graph, log[..i], log[i])
  {
    if i < |log| - 1 {
      GroundedAt(graph, log[..|log| - 1], i);
      assert log[..|log| - 1][..i] == log[..i];
    }
  }

  /** Calls never run ahead of starts. */
  lemma {:induction false} CallsWithinStarts(graph: Graph, log: Log, node: string, steps: nat)
    requires AllGrounded(graph, log)
    ensures Calls(log, node, steps) <= Starts(log, node, steps)
  {
    if log != [] { CallsWithinStarts(graph, log[..|log| - 1], node, steps); }
  }

  // ----- events without an origin to show -----

  predicate Plain(e: Event) {
    match e
    case Entered(site) => !site.boundary.AtNode?
    case Observed(o) => !o.NodeStart? && !o.NodeEnd? && !o.SuperstepStart? && !o.SuperstepCommit?
    case _ => true
  }

  /** `b` is `a` and then plain events only. */
  ghost predicate Adds(a: Log, b: Log) {
    a <= b && forall i :: |a| <= i < |b| ==> Plain(b[i])
  }

  lemma {:induction false} AddsKeeps(graph: Graph, a: Log, b: Log, node: string, steps: nat)
    requires Adds(a, b)
    ensures AllGrounded(graph, a) ==> AllGrounded(graph, b)
    ensures Starts(b, node, steps) == Starts(a, node, steps) && Calls(b, node, steps) == Calls(a, node, steps)
    ensures Snapshot(b) == Snapshot(a) && Given(b) == Given(a) && (Ends(a) == [] ==> Ends(b) == [])
    decreases |b|
  {
    if a == b {
    } else {
      var front := b[..|b| - 1];
      assert b == front + [b[|b| - 1]];
      AddsKeeps(graph, a, front, node, steps);
      SnocReads(front, b[|b| - 1], node, steps);
    }
  }

  lemma PermitAdds(gate: Gate, log: Log, request: DispatchRequest, state: State, node: string, steps: nat)
    ensures Adds(log, Permit(gate, log, request, state, node, steps).log)
  {
  }

  lemma GuardAdds(gate: Gate, log: Log, request: DispatchRequest, state: State, node: string, steps: nat)
    requires !request.boundary.AtNode?
    ensures Adds(log, Guard(gate, log, request, state, node, steps).log)
  {
    hide Permit;
    PermitAdds(gate, log, request, state, node, steps);
  }

  lemma CommitAdds(gate: Gate, log: Log, request: CommitRequest, state: State, node: string, steps: nat)
    ensures Adds(log, Commit(gate, log, request, state, node, steps).log)
  {
  }

  lemma AfterCommitAdds(gate: Gate, log: Log, request: CommitRequest)
    ensures Adds(log, AfterCommit(gate, log, request).0)
  {
  }

  /** A guarded node call: what precedes the call is plain. */
  lemma GuardNodeGrounded(graph: Graph, gate: Gate, log: Log, site: DispatchRequest, state: State, node: string,
                          steps: nat)
    requires AllGrounded(graph, log) && site.boundary.AtNode? && |site.nodes| == 1
    requires Calls(log, site.nodes[0], site.steps) < Starts(log, site.nodes[0], site.steps)
    ensures AllGrounded(graph, Guard(gate, log, site, state, node, steps).log)
    ensures Given(Guard(gate, log, site, state, node, steps).log) == Given(log)
  {
    hide Permit, AllGrounded, Given;
    PermitAdds(gate, log, site, state, node, steps);
    var allowed := Permit(gate, log, site, state, node, steps);
    AddsKeeps(graph, log, allowed.log, site.nodes[0], site.steps);
    if allowed.Go? {
      MarkAdds(gate, allowed.log, site);
      var marked := Mark(gate, allowed.log, site);
      AddsKeeps(graph, allowed.log, marked.log, site.nodes[0], site.steps);
      if marked.Go? {
        Snoc(graph, marked.log, Entered(site));
        SnocReads(marked.log, Entered(site), "", 0);
      }
    }
  }

  lemma MarkAdds(gate: Gate, log: Log, request: DispatchRequest)
    ensures Adds(log, Mark(gate, log, request).log)
  {
  }

  // ----- a node -----

  lemma PublishGrounded(graph: Graph, gate: Gate, running: State, steps: nat, node: string, delta: Delta, log: Log)
    requires AllGrounded(graph, log) && Delivered(graph, Given(log), node, delta)
    ensures AllGrounded(graph, PublishNode(gate, running, steps, node, delta, log).log)
  {
    hide Commit, AfterCommit, AllGrounded, Delivered, Given;
    var request := CommitRequest(NodeCommit, [node], steps, None, Sha256(delta), None);
    CommitAdds(gate, log, request, running, node, steps);
    var allowed := Commit(gate, log, request, running, node, steps);
    AddsKeeps(graph, log, allowed.log, node, steps);
    AfterCommitAdds(gate, allowed.log, request);
    AddsKeeps(graph, allowed.log, AfterCommit(gate, allowed.log, request).0, node, steps);
    Snoc(graph, AfterCommit(gate, allowed.log, request).0,
         Observed(NodeEnd(node, steps + 1, Merge(running, delta), delta)));
  }

  lemma NodeGrounded(ctx: Ctx, state: State, steps: nat, node: string, log: Log)
    requires AllGrounded(ctx.graph, log)
    ensures AllGrounded(ctx.graph, RunNode(ctx, state, steps, node, log).log)
  {
    hide Guard, PublishNode, AllGrounded, InterruptRun, Given;
    var visited := Visit(state, [node]);
    if node in ctx.graph.nodes && visited.Some? {
      var running := visited.value;
      var start := Observed(NodeStart(node, steps, running));
      Snoc(ctx.graph, log, start);
      SnocReads(log, start, node, steps);
      CallsWithinStarts(ctx.graph, log, node, steps);
      GuardNodeGrounded(ctx.graph, ctx.gate, log + [start], NodeSite(node, steps), running, node, steps);
      var entered := Guard(ctx.gate, log + [start], NodeSite(node, steps), running, node, steps);
      if entered.Go? {
        var answer := ctx.graph.nodes[node].call(running);
        var left := entered.log + [Left(NodeSite(node, steps), answer.Delivers?)];
        Snoc(ctx.graph, entered.log, Left(NodeSite(node, steps), answer.Delivers?));
        SnocReads(entered.log, Left(NodeSite(node, steps), answer.Delivers?), node, steps);
        if answer.Delivers? {
          PublishGrounded(ctx.graph, ctx.gate, running, steps, node, answer.delta, left);
        } else if answer.NodeThrows? && answer.fault.Interrupt? {
          InterruptAdds<State>(left, running, node, steps, [], answer.fault);
          AddsKeeps(ctx.graph, left, InterruptRun<State>(left, running, node, steps, [], answer.fault).log,
                    node, steps);
        }
      }
    }
  }

  lemma InterruptAdds<T>(log: Log, state: State, node: string, steps: nat, branches: seq<string>, fault: Fault)
    requires fault.Interrupt?
    ensures Adds(log, InterruptRun<T>(log, state, node, steps, branches, fault).log)
  {
  }

  lemma HaltAdds<T>(log: Log, state: State, node: string, steps: nat, reason: string)
    ensures Adds(log, Halt<T>(log, state, node, steps, reason).log)
  {
  }

  // ----- branch tasks -----

  /** Every branch not called yet still has a start to spare. */
  ghost predicate Spare(log: Log, region: Region, tasks: seq<Task>)
    requires |tasks| == |region.branches|
  {
    forall i :: 0 <= i < |tasks| && (tasks[i].Fresh? || tasks[i].Admitted?) ==>
      Calls(log, region.branches[i], region.steps) < Starts(log, region.branches[i], region.steps)
  }

  /** A task's step is plain, or it is the call of its branch. */
  lemma StepShape(ctx: Ctx, region: Region, i: nat, task: Task, log: Log)
    requires i < |region.branches| && region.In(ctx.graph) && !task.Finished?
    ensures var (next, stepped) := StepTask(ctx, region, i, task, log);
            && (next.Running? ==> !task.Running? && exists before ::
                                   Adds(log, before) && stepped == before + [Entered(region.Site(i))])
            && (!next.Running? ==> Adds(log, stepped))
            && !next.Fresh?
  {
    var site := region.Site(i);
    var (next, stepped) := StepTask(ctx, region, i, task, log);
    if next.Running? {
      var before := if task.Fresh? then log else Mark(ctx.gate, log, site).log;
      assert stepped == before + [Entered(site)];
      assert Adds(log, before);
    }
  }

  lemma StepGrounded(ctx: Ctx, region: Region, i: nat, tasks: seq<Task>, log: Log)
    requires |tasks| == |region.branches| && i < |tasks| && region.In(ctx.graph) && !tasks[i].Finished?
    requires Ascending(region.branches) && AllGrounded(ctx.graph, log) && Spare(log, region, tasks)
    ensures var (task, stepped) := StepTask(ctx, region, i, tasks[i], log);
            && AllGrounded(ctx.graph, stepped) && Spare(stepped, region, tasks[i := task])
            && Given(stepped) == Given(log)
            && Snapshot(stepped) == Snapshot(log) && (Ends(log) == [] ==> Ends(stepped) == [])
  {
    hide StepTask, AllGrounded, Adds, StrLe, Given;
    StepShape(ctx, region, i, tasks[i], log);
    var (task, stepped) := StepTask(ctx, region, i, tasks[i], log);
    var site := region.Site(i);
    if task.Running? {
      var before :| Adds(log, before) && stepped == before + [Entered(site)];
      AddsKeeps(ctx.graph, log, before, region.branches[i], region.steps);
      Snoc(ctx.graph, before, Entered(site));
      SnocReads(before, Entered(site), "", 0);
      forall j | 0 <= j < |tasks|
        ensures Starts(stepped, region.branches[j], region.steps) == Starts(log, region.branches[j], region.steps)
        ensures j != i ==>
                  Calls(stepped, region.branches[j], region.steps) == Calls(log, region.branches[j], region.steps)
        ensures Snapshot(stepped) == Snapshot(log) && (Ends(log) == [] ==> Ends(stepped) == [])
      {
        AddsKeeps(ctx.graph, log, before, region.branches[j], region.steps);
        SnocReads(before, Entered(site), region.branches[j], region.steps);
        assert j < i ==> StrLt(region.branches[j], region.branches[i]);
        assert i < j ==> StrLt(region.branches[i], region.branches[j]);
      }
    } else {
      forall j | 0 <= j < |tasks|
        ensures Starts(stepped, region.branches[j], region.steps) == Starts(log, region.branches[j], region.steps)
        ensures Calls(stepped, region.branches[j], region.steps) == Calls(log, region.branches[j], region.steps)
        ensures Snapshot(stepped) == Snapshot(log) && (Ends(log) == [] ==> Ends(stepped) == [])
      {
        AddsKeeps(ctx.graph, log, stepped, region.branches[j], region.steps);
      }
      AddsKeeps(ctx.graph, log, stepped, region.branches[i], region.steps);
    }
  }

  lemma {:induction false} SettleGrounded(ctx: Ctx, region: Region, tasks: seq<Task>, log: Log)
    requires |tasks| == |region.branches| && region.In(ctx.graph) && Ascending(region.branches)
    requires AllGrounded(ctx.graph, log) && Spare(log, region, tasks)
    ensures var settled := SettleAll(ctx, region, tasks, log).1;
            && AllGrounded(ctx.graph, settled) && Given(settled) == Given(log)
            && Snapshot(settled) == Snapshot(log) && (Ends(log) == [] ==> Ends(settled) == [])
    decreases Work(tasks)
  {
    hide StepTask, AllGrounded, Spare, Ascending, Snapshot, Ends, Given;
    if !AllFinished(tasks) {
      var i := Choose(tasks, ctx.pick(log));
      var (task, stepped) := StepTask(ctx, region, i, tasks[i], log);
      WorkUpdate(tasks, i, task);
      StepGrounded(ctx, region, i, tasks, log);
      SettleGrounded(ctx, region, tasks[i := task], stepped);
    }
  }

  /** What a settled branch delivered is its callable's answer to the state it was given. */
  predicate FromCallables(graph: Graph, given: map<string, State>, branches: seq<string>, settled: seq<Settlement>)
    requires |branches| == |settled|
  {
    forall i :: 0 <= i < |settled| && settled[i].Ok? ==> Delivered(graph, given, branches[i], settled[i].delta)
  }

  /** Every branch was given the region's snapshot. */
  predicate AllGiven(given: map<string, State>, region: Region) {
    forall b <- region.branches :: b in given && given[b] == region.snapshot
  }

  lemma SettledFromCallables(ctx: Ctx, given: map<string, State>, region: Region, log: Log)
    requires region.In(ctx.graph) && AllGiven(given, region)
    ensures var done := SettleAll(ctx, region, FreshTasks(|region.branches|), log).0;
            FromCallables(ctx.graph, given, region.branches, Outcomes(done))
  {
    hide SettleAll;
    var tasks := FreshTasks(|region.branches|);
    Refinement.SettleOnCourse(ctx, region, tasks, log);
    var done := SettleAll(ctx, region, tasks, log).0;
    forall i | 0 <= i < |done| && Outcomes(done)[i].Ok?
      ensures Delivered(ctx.graph, given, region.branches[i], Outcomes(done)[i].delta)
    {
      assert region.branches[i] in region.branches;
      assert Refinement.OnCourse(ctx, region, i, done[i]);
      assert done[i] in done && Outcomes(done)[i] == done[i].outcome;
    }
  }

  lemma AdmittedDelivered(graph: Graph, given: map<string, State>, source: string, join: Join, branches: seq<string>,
                          settled: seq<Settlement>, c: Contribution)
    requires |branches| == |settled| && FromCallables(graph, given, branches, settled)
    requires Admit(source, join, branches, settled).Success? && c in Admit(source, join, branches, settled).value
    ensures Delivered(graph, given, c.branch, c.delta)
  {
    hide Successes, Chosen, Delivered;
    var ok := Successes(branches, settled);
    if join.CustomJoin? { JoinLaws.ChosenMembers(ok, JoinLaws.Wanted(join, branches, settled), c); }
    JoinLaws.SuccessMembers(branches, settled, c);
  }

  // ----- fold and commit -----

  lemma {:induction false} FoldAdds(ctx: Ctx, region: Region, state: State, completed: nat, items: seq<Contribution>,
                                    keys: seq<string>, acc: Fold, log: Log)
    requires forall k <- keys :: k in Keys(items)
    ensures Adds(log, FoldKeys(ctx, region, state, completed, items, keys, acc, log).log)
    decreases |keys|
  {
    hide EnterReducer, ReduceField;
    if keys != [] {
      EnterReducerAdds(ctx, region, state, completed, items, keys[0], log);
      var one := FoldKey(ctx, region, state, completed, items, keys[0], acc, log);
      if one.Go? { FoldAdds(ctx, region, state, completed, items, keys[1..], one.value, one.log); }
    }
  }

  lemma EnterReducerAdds(ctx: Ctx, region: Region, state: State, completed: nat, items: seq<Contribution>, key: string,
                         log: Log)
    ensures Adds(log, EnterReducer(ctx, region, state, completed, items, key, log).log)
  {
    hide Guard;
    GuardAdds(ctx.gate, log, region.Request(AtReducer, Names(items) + [key], completed), state, region.source,
              region.steps);
  }

  lemma FoldKeyValue(ctx: Ctx, region: Region, state: State, completed: nat, items: seq<Contribution>, key: string,
                     acc: Fold, log: Log)
    requires key in Keys(items)
    ensures var f := FoldKey(ctx, region, state, completed, items, key, acc, log);
            f.Go? ==>
              && f.value.merged == acc.merged[key := f.value.merged[key]]
              && FieldFolds(ctx.graph, region.snapshot, items, key, f.value.merged[key])
  {
    hide EnterReducer, ReduceField, Writes, Keys;
    WritesExist(items, key);
  }

  /** Each field of a completed fold is what its reducer makes of the writes to it. */
  lemma {:induction false} FoldValues(ctx: Ctx, region: Region, state: State, completed: nat, items: seq<Contribution>,
                                      keys: seq<string>, acc: Fold, log: Log)
    requires forall k <- keys :: k in Keys(items)
    requires forall k <- acc.merged :: FieldFolds(ctx.graph, region.snapshot, items, k, acc.merged[k])
    ensures var f := FoldKeys(ctx, region, state, completed, items, keys, acc, log);
            f.Go? ==>
              forall k <- f.value.merged :: FieldFolds(ctx.graph, region.snapshot, items, k, f.value.merged[k])
    decreases |keys|
  {
    hide FoldKey, FieldFolds, Keys;
    if keys != [] {
      var one := FoldKey(ctx, region, state, completed, items, keys[0], acc, log);
      if one.Go? {
        FoldKeyValue(ctx, region, state, completed, items, keys[0], acc, log);
        FoldValues(ctx, region, state, completed, items, keys[1..], one.value, one.log);
        assert FoldKeys(ctx, region, state, completed, items, keys, acc, log)
            == FoldKeys(ctx, region, state, completed, items, keys[1..], one.value, one.log);
      }
    }
  }

  lemma {:induction false} EndsGrounded(graph: Graph, log: Log, items: seq<Contribution>, completed: nat,
                                        committed: State, n: nat)
    requires n <= |items| && AllGrounded(graph, log) && Ends(log) == []
    requires forall c <- items :: Delivered(graph, Given(log), c.branch, c.delta)
    ensures var shown := log + EndEvents(items, completed, committed)[..n];
            && AllGrounded(graph, shown) && Ends(shown) == items[..n]
            && Snapshot(shown) == Snapshot(log) && Given(shown) == Given(log)
  {
    hide AllGrounded, Delivered, Ends, Snapshot, Given;
    var events := EndEvents(items, completed, committed);
    if n == 0 {
      assert log + events[..0] == log;
    } else {
      EndsGrounded(graph, log, items, completed, committed, n - 1);
      var shown := log + events[..n - 1];
      assert log + events[..n] == shown + [events[n - 1]];
      assert items[n - 1] in items;
      Snoc(graph, shown, events[n - 1]);
      SnocReads(shown, events[n - 1], "", 0);
      assert items[..n] == items[..n - 1] + [items[n - 1]];
    }
  }

  lemma CommitRegionGrounded(ctx: Ctx, region: Region, edge: Edge, state: State, completed: nat,
                             items: seq<Contribution>, fold: Fold, log: Log)
    requires edge.FanOut? && AllGrounded(ctx.graph, log) && Ends(log) == [] && Snapshot(log) == Some(region.snapshot)
    requires forall c <- items :: Delivered(ctx.graph, Given(log), c.branch, c.delta)
    requires FoldedFrom(ctx.graph, region.snapshot, items, fold.merged)
    ensures AllGrounded(ctx.graph, CommitRegion(ctx, region, edge, state, completed, items, fold, log).log)
  {
    hide Commit, AfterCommit, AllGrounded, Delivered, Ends, Snapshot, FoldedFrom, EndEvents, Given;
    var request := CommitRequest(RegionCommit, Names(items), completed, Some(region.source), Sha256(fold.merged),
                                 Some(region.batch));
    CommitAdds(ctx.gate, log, request, state, region.source, region.steps);
    var allowed := Commit(ctx.gate, log, request, state, region.source, region.steps);
    AddsKeeps(ctx.graph, log, allowed.log, "", 0);
    AfterCommitAdds(ctx.gate, allowed.log, request);
    var settled := AfterCommit(ctx.gate, allowed.log, request).0;
    AddsKeeps(ctx.graph, allowed.log, settled, "", 0);
    var committed := Merge(region.snapshot, fold.merged);
    EndsGrounded(ctx.graph, settled, items, completed, committed, |items|);
    var events := EndEvents(items, completed, committed);
    assert events[..|items|] == events && items[..|items|] == items;
    Snoc(ctx.graph, settled + events, Observed(SuperstepCommit(region.source, edge.next, completed, Names(items),
                                                               committed, fold.merged, fold.provenance)));
  }

  lemma FoldRegionGrounded(ctx: Ctx, region: Region, edge: Edge, state: State, completed: nat, items: seq<Contribution>,
                           log: Log)
    requires edge.FanOut? && region.steps <= completed
    requires AllGrounded(ctx.graph, log) && Ends(log) == [] && Snapshot(log) == Some(region.snapshot)
    requires forall c <- items :: Delivered(ctx.graph, Given(log), c.branch, c.delta)
    ensures AllGrounded(ctx.graph, FoldRegion(ctx, region, edge, state, completed, items, log).log)
  {
    hide Permit, FoldKeys, CommitRegion, AllGrounded, Delivered, Ends, Snapshot, Writes, Given;
    var request := region.Request(AtReducer, Names(items), completed);
    PermitAdds(ctx.gate, log, request, state, region.source, region.steps);
    var allowed := Permit(ctx.gate, log, request, state, region.source, region.steps);
    AddsKeeps(ctx.graph, log, allowed.log, "", 0);
    if allowed.Go? {
      var keys, none := SortedKeys(Keys(items)), Fold(map[], map[]);
      FoldAdds(ctx, region, state, completed, items, keys, none, allowed.log);
      FoldValues(ctx, region, state, completed, items, keys, none, allowed.log);
      Grammar.FoldHasShape(ctx, region, state, completed, items, allowed.log);
      var folded := FoldKeys(ctx, region, state, completed, items, keys, none, allowed.log);
      AddsKeeps(ctx.graph, allowed.log, folded.log, "", 0);
      if folded.Go? { CommitRegionGrounded(ctx, region, edge, state, completed, items, folded.value, folded.log); }
    }
  }

  lemma JoinGrounded(ctx: Ctx, region: Region, edge: Edge, state: State, settled: seq<Settlement>, log: Log)
    requires edge.FanOut? && |settled| == |region.branches|
    requires FromCallables(ctx.graph, Given(log), region.branches, settled)
    requires AllGrounded(ctx.graph, log) && Ends(log) == [] && Snapshot(log) == Some(region.snapshot)
    ensures AllGrounded(ctx.graph, JoinRegion(ctx, region, edge, state, settled, log).log)
  {
    hide Guard, Admit, FoldRegion, AllGrounded, Ends, Snapshot, Delivered, FromCallables, Given;
    var completed := region.steps + |Successes(region.branches, settled)|;
    var request := region.Request(AtJoin, region.branches, completed);
    GuardAdds(ctx.gate, log, request, state, region.source, region.steps);
    var joined := GuardJoin(ctx, region, edge.join, state, completed, log);
    AddsKeeps(ctx.graph, log, joined.log, "", 0);
    var r := Admit(region.source, edge.join, region.branches, settled);
    if joined.Go? && r.Success? {
      forall c | c in r.value ensures Delivered(ctx.graph, Given(log), c.branch, c.delta) {
        AdmittedDelivered(ctx.graph, Given(log), region.source, edge.join, region.branches, settled, c);
      }
      FoldRegionGrounded(ctx, region, edge, state, completed, r.value, joined.log);
    }
  }

  lemma CloseGrounded(ctx: Ctx, region: Region, edge: Edge, state: State, settled: seq<Settlement>, log: Log)
    requires edge.FanOut? && |settled| == |region.branches|
    requires FromCallables(ctx.graph, Given(log), region.branches, settled)
    requires AllGrounded(ctx.graph, log) && Ends(log) == [] && Snapshot(log) == Some(region.snapshot)
    ensures AllGrounded(ctx.graph, CloseRegion(ctx, region, edge, state, settled, log).log)
  {
    hide JoinRegion, AllGrounded, Ends, Snapshot, FromCallables, Halt, InterruptRun, Given;
    var stops, paused := StopReasons(settled), FirstInterrupt(settled);
    if AdmissionErrors(settled) != [] || StartErrors(settled) != [] {
    } else if stops != [] {
      HaltAdds<Progress>(log, state, region.source, region.steps, stops[0]);
      AddsKeeps(ctx.graph, log, Halt<Progress>(log, state, region.source, region.steps, stops[0]).log, "", 0);
    } else if paused < |settled| {
      var branch, fault := region.branches[paused], settled[paused].error.fault;
      InterruptAdds<Progress>(log, region.snapshot, branch, region.steps, region.branches, fault);
      AddsKeeps(ctx.graph, log,
                InterruptRun<Progress>(log, region.snapshot, branch, region.steps, region.branches, fault).log, "", 0);
    } else {
      JoinGrounded(ctx, region, edge, state, settled, log);
    }
  }

  // ----- a region -----

  /** Announcing the first `n` branches adds a start for each of them, and for no other. */
  lemma {:induction false} StartsGrounded(graph: Graph, log: Log, region: Region, n: nat, i: nat)
    requires n <= |region.branches| && AllGrounded(graph, log) && Ends(log) == [] && i < |region.branches|
    requires Ascending(region.branches)
    ensures var begun := log + StartEvents(region, n);
            && AllGrounded(graph, begun) && Ends(begun) == [] && Snapshot(begun) == Snapshot(log)
            && (i < n ==> region.branches[i] in Given(begun) && Given(begun)[region.branches[i]] == region.snapshot)
            && Calls(begun, region.branches[i], region.steps) == Calls(log, region.branches[i], region.steps)
            && Starts(begun, region.branches[i], region.steps)
               == Starts(log, region.branches[i], region.steps) + if i < n then 1 else 0
  {
    hide AllGrounded, Ends, Snapshot, Starts, Calls, StrLe, Given;
    if n == 0 {
      assert log + StartEvents(region, 0) == log;
    } else {
      StartsGrounded(graph, log, region, n - 1, i);
      var begun := log + StartEvents(region, n - 1);
      var e := Observed(NodeStart(region.branches[n - 1], region.steps, region.snapshot));
      assert log + StartEvents(region, n) == begun + [e];
      Snoc(graph, begun, e);
      SnocReads(begun, e, region.branches[i], region.steps);
      assert i < n - 1 ==> StrLt(region.branches[i], region.branches[n - 1]);
      assert n - 1 < i ==> StrLt(region.branches[n - 1], region.branches[i]);
    }
  }

  /** An opened region the gate permits: every branch has a start to spare. */
  lemma OpenGrounded(ctx: Ctx, source: string, edge: Edge, state: State, steps: nat, log: Log)
    requires edge.FanOut? && ValidFanOut(edge) && AllGrounded(ctx.graph, log)
    ensures var begun := OpenRegion(ctx, source, edge, state, steps, log);
            && AllGrounded(ctx.graph, begun.log)
            && (begun.Go? ==>
                  && Ends(begun.log) == [] && Snapshot(begun.log) == Some(begun.value.snapshot)
                  && AllGiven(Given(begun.log), begun.value)
                  && Spare(begun.log, begun.value, FreshTasks(|begun.value.branches|)))
  {
    hide AllGrounded, Ends, Snapshot, Starts, Calls, StartEvents, Given;
    var begun := OpenRegion(ctx, source, edge, state, steps, log);
    if begun.Go? {
      var region := begun.value;
      var e := Observed(SuperstepStart(source, edge.next, steps, region.branches, region.snapshot));
      Snoc(ctx.graph, log, e);
      SnocReads(log, e, "", 0);
      StartsGrounded(ctx.graph, log + [e], region, |region.branches|, 0);
      forall i | 0 <= i < |region.branches|
        ensures Calls(begun.log, region.branches[i], steps) < Starts(begun.log, region.branches[i], steps)
        ensures var b := region.branches[i]; b in Given(begun.log) && Given(begun.log)[b] == region.snapshot
      {
        StartsGrounded(ctx.graph, log + [e], region, |region.branches|, i);
        CallsWithinStarts(ctx.graph, log + [e], region.branches[i], steps);
      }
    }
  }

  lemma SpareKept(graph: Graph, region: Region, tasks: seq<Task>, a: Log, b: Log)
    requires |tasks| == |region.branches| && Adds(a, b) && Spare(a, region, tasks)
    ensures Spare(b, region, tasks)
  {
    hide Adds, Starts, Calls;
    forall i | 0 <= i < |tasks|
      ensures Starts(b, region.branches[i], region.steps) == Starts(a, region.branches[i], region.steps)
      ensures Calls(b, region.branches[i], region.steps) == Calls(a, region.branches[i], region.steps)
    {
      AddsKeeps(graph, a, b, region.branches[i], region.steps);
    }
  }

  lemma RegionGrounded(ctx: Ctx, source: string, edge: Edge, state: State, steps: nat, log: Log)
    requires edge.FanOut? && ValidFanOut(edge) && AllGrounded(ctx.graph, log)
    ensures AllGrounded(ctx.graph, RunRegion(ctx, source, edge, state, steps, log).log)
  {
    hide OpenRegion, Permit, SettleAll, CloseRegion, AllGrounded, Ends, Snapshot, FromCallables, Spare, Adds, Given,
         AllGiven;
    OpenGrounded(ctx, source, edge, state, steps, log);
    var begun := OpenRegion(ctx, source, edge, state, steps, log);
    if begun.Go? {
      var region := begun.value;
      var request := region.Request(AtFanOut, region.branches, steps);
      PermitAdds(ctx.gate, begun.log, request, state, source, steps);
      var allowed := Permit(ctx.gate, begun.log, request, state, source, steps);
      AddsKeeps(ctx.graph, begun.log, allowed.log, "", 0);
      if allowed.Go? {
        var tasks := FreshTasks(|region.branches|);
        SpareKept(ctx.graph, region, tasks, begun.log, allowed.log);
        SettleGrounded(ctx, region, tasks, allowed.log);
        SettledFromCallables(ctx, Given(allowed.log), region, allowed.log);
        var (done, settled) := SettleAll(ctx, region, tasks, allowed.log);
        CloseGrounded(ctx, region, edge, state, Outcomes(done), settled);
      }
    }
  }

  // ----- the run -----

  lemma RouteAdds(ctx: Ctx, source: string, edge: Edge, state: State, steps: nat, log: Log)
    ensures Adds(log, Route(ctx, source, edge, state, steps, log).log)
  {
    hide Guard;
    GuardAdds(ctx.gate, log, RouterSite(source, steps), state, source, steps);
  }

  lemma TurnGrounded(ctx: Ctx, state: State, steps: nat, node: string, log: Log)
    requires ctx.graph.Valid() && AllGrounded(ctx.graph, log)
    ensures AllGrounded(ctx.graph, TakeTurn(ctx, state, steps, node, log).log)
  {
    hide RunNode, RunRegion, Route, AllGrounded, ValidFanOut;
    NodeGrounded(ctx, state, steps, node, log);
    var ended := RunNode(ctx, state, steps, node, log);
    var edge := ctx.graph.EdgeFrom(node);
    if ended.Go? {
      if edge.FanOut? { RegionGrounded(ctx, node, edge, ended.value, steps + 1, ended.log); }
      var committed := if edge.FanOut? then RunRegion(ctx, node, edge, ended.value, steps + 1, ended.log)
                       else Go(ended.log, Progress(ended.value, steps + 1));
      if committed.Go? {
        var onward := if edge.FanOut? then Static(edge.next) else edge;
        RouteAdds(ctx, node, onward, committed.value.state, committed.value.steps, committed.log);
        AddsKeeps(ctx.graph, committed.log,
                  Route(ctx, node, onward, committed.value.state, committed.value.steps, committed.log).log, "", 0);
      }
    }
  }

  lemma {:induction false} LoopGrounded(ctx: Ctx, state: State, steps: nat, node: string, last: string, log: Log)
    requires ctx.graph.Valid() && AllGrounded(ctx.graph, log)
    ensures AllGrounded(ctx.graph, Loop(ctx, state, steps, node, last, log).log)
    decreases ctx.graph.maxSteps - steps
  {
    hide TakeTurn, AllGrounded, Graph.Valid;
    if node == END {
      Snoc(ctx.graph, log, Observed(Done(steps, Merge(state, map[STATUS := Str("done")]))));
    } else if steps < ctx.graph.maxSteps {
      TurnGrounded(ctx, state, steps, node, log);
      var f := TakeTurn(ctx, state, steps, node, log);
      if f.Go? { LoopGrounded(ctx, f.value.state, f.value.steps, f.value.target, node, f.log); }
    }
  }

  lemma RunIsGrounded(ctx: Ctx, state: State)
    requires ctx.graph.Valid()
    ensures AllGrounded(ctx.graph, Run(ctx, state).log)
  {
    hide Run, Route, Loop, AllGrounded, Graph.Valid;
    RunUnfolds(ctx, state);
    var edge := ctx.graph.EdgeFrom(START);
    assert AllGrounded(ctx.graph, []) by { NothingIsGrounded(ctx.graph); }
    RouteAdds(ctx, START, edge, state, 0, []);
    var selected := Route(ctx, START, edge, state, 0, []);
    AddsKeeps(ctx.graph, [], selected.log, "", 0);
    if selected.Go? { LoopGrounded(ctx, state, 0, selected.value, START, selected.log); }
  }

  lemma NothingIsGrounded(graph: Graph)
    ensures AllGrounded(graph, [])
  {
  }

  // ----- what follows for every run -----

  lemma {:induction false} StartBefore(log: Log, node: string, steps: nat)
    requires Starts(log, node, steps) > 0
    ensures exists j :: 0 <= j < |log| && IsStart(log[j], node, steps)
  {
    var front := log[..|log| - 1];
    if !IsStart(log[|log| - 1], node, steps) {
      StartBefore(front, node, steps);
      var j :| 0 <= j < |front| && IsStart(front[j], node, steps);
      assert log[j] == front[j];
    }
  }

  /** Every call of a node, branch or not, has an observed start of its own: at every moment
      of every run each node was called at most as often as it was started at the same step
      count, and just before a call it was called less often. */
  lemma EveryCallHasItsStart(ctx: Ctx, state: State, i: nat, node: string, steps: nat)
    requires ctx.graph.Valid() && i <= |Run(ctx, state).log|
    ensures var log := Run(ctx, state).log;
            && Calls(log[..i], node, steps) <= Starts(log[..i], node, steps)
            && (i < |log| && IsCall(log[i], node, steps) ==>
                  && Calls(log[..i], node, steps) < Starts(log[..i], node, steps)
                  && exists j :: 0 <= j < i && IsStart(log[j], node, steps))
  {
    hide Run, AllGrounded, Calls, Starts, Graph.Valid;
    RunIsGrounded(ctx, state);
    var log := Run(ctx, state).log;
    if i < |log| {
      GroundedAt(ctx.graph, log, i);
      CallsWithinStarts(ctx.graph, log[..i], node, steps);
      if IsCall(log[i], node, steps) {
        StartBefore(log[..i], node, steps);
        var j :| 0 <= j < |log[..i]| && IsStart(log[..i][j], node, steps);
        assert log[j] == log[..i][j];
      }
    } else {
      assert log[..i] == log;
      CallsWithinStarts(ctx.graph, log, node, steps);
    }
  }

  /** Nothing is published that no callable produced: each node end shows its own callable's
      answer to the state its last start showed, and each region commit is, field by field, what the declared
      reducers make of exactly the branch ends shown just before it, over the snapshot all
      branches ran on. */
  lemma EveryPublicationHasItsOrigin(ctx: Ctx, state: State, i: nat)
    requires ctx.graph.Valid() && i < |Run(ctx, state).log| && Run(ctx, state).log[i].Observed?
    ensures var log := Run(ctx, state).log;
            match log[i].obs
            case NodeEnd(node, _, _, delta) => Delivered(ctx.graph, Given(log[..i]), node, delta)
            case SuperstepCommit(_, _, _, branches, committed, merged, _) =>
              && Names(Ends(log[..i])) == branches && Snapshot(log[..i]).Some?
              && FoldedFrom(ctx.graph, Snapshot(log[..i]).value, Ends(log[..i]), merged)
              && committed == Merge(Snapshot(log[..i]).value, merged)
            case _ => true
  {
    hide Run, AllGrounded, Graph.Valid, FoldedFrom, Delivered, Ends, Snapshot, Given;
    RunIsGrounded(ctx, state);
    GroundedAt(ctx.graph, Run(ctx, state).log, i);
  }

  /** Serialisability, of every commit of every run: if no field it writes has a declared
      reducer, the branch ends shown before it agree, and the committed state is that of
      merging their deltas into the snapshot one after another, in whatever order. */
  lemma EveryDefaultCommitSerialises(ctx: Ctx, state: State, i: nat, order: seq<Contribution>)
    requires ctx.graph.Valid() && i < |Run(ctx, state).log|
    requires Run(ctx, state).log[i].Observed? && Run(ctx, state).log[i].obs.SuperstepCommit?
    requires forall k <- Run(ctx, state).log[i].obs.delta :: k !in ctx.graph.reducers
    requires multiset(order) == multiset(Ends(Run(ctx, state).log[..i]))
    ensures var log := Run(ctx, state).log;
            && ReducerLaws.DeltasAgree(Ends(log[..i]))
            && Snapshot(log[..i]).Some? && log[i].obs.state == ReducerLaws.MergeAll(Snapshot(log[..i]).value, order)
  {
    hide Run, Graph.Valid, Ends, Snapshot, Given, ReducerLaws.DeltasAgree, ReducerLaws.MergeAll, Keys,
         ReducerLaws.AgreeOn, ReduceField, Writes;
    EveryPublicationHasItsOrigin(ctx, state, i);
    var log := Run(ctx, state).log;
    var items, merged, snapshot := Ends(log[..i]), log[i].obs.delta, Snapshot(log[..i]).value;
    forall k | k in Keys(items)
      ensures ReducerLaws.AgreeOn(items, k)
      ensures forall c <- items :: k in c.delta ==> c.delta[k] == merged[k]
    {
      assert FieldFolds(ctx.graph, snapshot, items, k, merged[k]);
      ReducerLaws.DefaultFieldLaw(items, k, Field(snapshot, k));
    }
    ReducerLaws.AgreeEverywhere(items);
    forall c, k | c in items && k in c.delta ensures k in merged && merged[k] == c.delta[k] {
      ReducerLaws.KeyOf(items, c, k);
    }
    ReducerLaws.MergedInAnyOrder(snapshot, merged, items, order);
  }
}
