/** A settlement hook that fails: the publication it follows has happened and is observed,
    and then the run stops on exactly the hook's error. */
module HookFailure {
  import opened Values
  import opened Ordering
  import opened Protocol
  import opened Reducers
  import opened Topology
  import opened Engine

  /** No settlement hook has failed. */
  ghost predicate Quiet(log: Log) {
    forall e <- log :: e.Settled? ==> e.hook.Completed?
  }

  /** The observation publishes `delta`. */
  predicate Publishes(e: Event, delta: Delta) {
    e.Observed? && (e.obs.NodeEnd? || e.obs.SuperstepCommit?) && e.obs.delta == delta
  }

  /** The hook at `i` failed with `error`; all that follows is its publication, which ends
      with the very delta whose digest the hook was given. */
  ghost predicate Aftermath(log: Log, i: nat, error: Error) {
    && i < |log| - 1 && log[i].Settled? && HookError(log[i].hook) == Some(error) && Quiet(log[..i])
    && (forall j :: i < j < |log| ==> log[j].Observed? && (log[j].obs.NodeEnd? || log[j].obs.SuperstepCommit?))
    && Publishes(log[|log| - 1], log[i].commit.digest.content)
  }

  ghost predicate Settles<T>(f: Flow<T>) {
    Quiet(f.log) || (f.Raise? && exists i: nat :: Aftermath(f.log, i, f.error))
  }

  lemma PermitQuiet(gate: Gate, log: Log, request: DispatchRequest, state: State, node: string, steps: nat)
    requires Quiet(log)
    ensures Quiet(Permit(gate, log, request, state, node, steps).log)
  {
  }

  lemma GuardQuiet(gate: Gate, log: Log, request: DispatchRequest, state: State, node: string, steps: nat)
    requires Quiet(log)
    ensures Quiet(Guard(gate, log, request, state, node, steps).log)
  {
    hide Permit;
    PermitQuiet(gate, log, request, state, node, steps);
  }

  lemma CommitQuiet(gate: Gate, log: Log, request: CommitRequest, state: State, node: string, steps: nat)
    requires Quiet(log)
    ensures Quiet(Commit(gate, log, request, state, node, steps).log)
  {
  }

  /** The hook adds itself, and reports its error exactly if it did not complete. */
  lemma AfterCommitSettles(gate: Gate, log: Log, request: CommitRequest)
    requires Quiet(log)
    ensures var (settled, failure) := AfterCommit(gate, log, request);
            && (failure.None? ==> Quiet(settled))
            && (failure.Some? ==> exists hook ::
                  HookError(hook) == failure && settled == log + [Settled(request, hook)])
  {
  }

  lemma PublishSettles(gate: Gate, running: State, steps: nat, node: string, delta: Delta, log: Log)
    requires Quiet(log)
    ensures Settles(PublishNode(gate, running, steps, node, delta, log))
  {
    hide Commit, AfterCommit;
    var request := CommitRequest(NodeCommit, [node], steps, None, Sha256(delta), None);
    CommitQuiet(gate, log, request, running, node, steps);
    var allowed := Commit(gate, log, request, running, node, steps);
    if allowed.Go? {
      AfterCommitSettles(gate, allowed.log, request);
      var (settled, failure) := AfterCommit(gate, allowed.log, request);
      if failure.Some? {
        var f := PublishNode(gate, running, steps, node, delta, log);
        assert f.log[..|allowed.log|] == allowed.log;
        assert Aftermath(f.log, |allowed.log|, failure.value);
      }
    }
  }

  lemma NodeSettles(ctx: Ctx, state: State, steps: nat, node: string, log: Log)
    requires Quiet(log)
    ensures Settles(RunNode(ctx, state, steps, node, log))
  {
    hide Guard, PublishNode, Aftermath;
    var visited := Visit(state, [node]);
    if node in ctx.graph.nodes && visited.Some? {
      var running := visited.value;
      var started := log + [Observed(NodeStart(node, steps, running))];
      GuardQuiet(ctx.gate, started, NodeSite(node, steps), running, node, steps);
      var entered := Guard(ctx.gate, started, NodeSite(node, steps), running, node, steps);
      var answer := ctx.graph.nodes[node].call(running);
      var left := entered.log + [Left(NodeSite(node, steps), answer.Delivers?)];
      if entered.Go? && answer.Delivers? {
        PublishSettles(ctx.gate, running, steps, node, answer.delta, left);
      }
    }
  }

  // ----- a region -----

  lemma StepQuiet(ctx: Ctx, region: Region, i: nat, task: Task, log: Log)
    requires i < |region.branches| && region.In(ctx.graph) && !task.Finished? && Quiet(log)
    ensures Quiet(StepTask(ctx, region, i, task, log).1)
  {
  }

  lemma {:induction false} BranchesQuiet(ctx: Ctx, region: Region, tasks: seq<Task>, log: Log)
    requires |tasks| == |region.branches| && region.In(ctx.graph) && Quiet(log)
    ensures Quiet(SettleAll(ctx, region, tasks, log).1)
    decreases Work(tasks)
  {
    hide StepTask, Quiet;
    if !AllFinished(tasks) {
      var i := Choose(tasks, ctx.pick(log));
      var (task, stepped) := StepTask(ctx, region, i, tasks[i], log);
      WorkUpdate(tasks, i, task);
      StepQuiet(ctx, region, i, tasks[i], log);
      BranchesQuiet(ctx, region, tasks[i := task], stepped);
    }
  }

  lemma EnterReducerQuiet(ctx: Ctx, region: Region, state: State, completed: nat, items: seq<Contribution>, key: string,
                          log: Log)
    requires Quiet(log)
    ensures Quiet(EnterReducer(ctx, region, state, completed, items, key, log).log)
  {
    hide Guard;
    GuardQuiet(ctx.gate, log, region.Request(AtReducer, Names(items) + [key], completed), state, region.source,
               region.steps);
  }

  lemma {:induction false} FoldQuiet(ctx: Ctx, region: Region, state: State, completed: nat, items: seq<Contribution>,
                                     keys: seq<string>, acc: Fold, log: Log)
    requires (forall k <- keys :: k in Keys(items)) && Quiet(log)
    ensures Quiet(FoldKeys(ctx, region, state, completed, items, keys, acc, log).log)
    decreases |keys|
  {
    hide EnterReducer, ReduceField, Quiet;
    if keys != [] {
      EnterReducerQuiet(ctx, region, state, completed, items, keys[0], log);
      var one := FoldKey(ctx, region, state, completed, items, keys[0], acc, log);
      if one.Go? { FoldQuiet(ctx, region, state, completed, items, keys[1..], one.value, one.log); }
    }
  }

  lemma CommitRegionSettles(ctx: Ctx, region: Region, edge: Edge, state: State, completed: nat,
                            items: seq<Contribution>, fold: Fold, log: Log)
    requires edge.FanOut? && Quiet(log)
    ensures Settles(CommitRegion(ctx, region, edge, state, completed, items, fold, log))
  {
    hide Commit, AfterCommit;
    var request := CommitRequest(RegionCommit, Names(items), completed, Some(region.source), Sha256(fold.merged),
                                 Some(region.batch));
    CommitQuiet(ctx.gate, log, request, state, region.source, region.steps);
    var allowed := Commit(ctx.gate, log, request, state, region.source, region.steps);
    if allowed.Go? {
      AfterCommitSettles(ctx.gate, allowed.log, request);
      var (settled, failure) := AfterCommit(ctx.gate, allowed.log, request);
      var f := CommitRegion(ctx, region, edge, state, completed, items, fold, log);
      if failure.Some? {
        assert f.log[..|allowed.log|] == allowed.log;
        assert Aftermath(f.log, |allowed.log|, failure.value);
      }
    }
  }

  lemma FoldRegionSettles(ctx: Ctx, region: Region, edge: Edge, state: State, completed: nat, items: seq<Contribution>,
                          log: Log)
    requires edge.FanOut? && region.steps <= completed && Quiet(log)
    ensures Settles(FoldRegion(ctx, region, edge, state, completed, items, log))
  {
    hide Permit, FoldKeys, CommitRegion, Quiet, Aftermath;
    var request := region.Request(AtReducer, Names(items), completed);
    PermitQuiet(ctx.gate, log, request, state, region.source, region.steps);
    var allowed := Permit(ctx.gate, log, request, state, region.source, region.steps);
    if allowed.Go? {
      var keys, none := SortedKeys(Keys(items)), Fold(map[], map[]);
      FoldQuiet(ctx, region, state, completed, items, keys, none, allowed.log);
      var folded := FoldKeys(ctx, region, state, completed, items, keys, none, allowed.log);
      if folded.Go? { CommitRegionSettles(ctx, region, edge, state, completed, items, folded.value, folded.log); }
    }
  }

  lemma JoinSettles(ctx: Ctx, region: Region, edge: Edge, state: State, settled: seq<Settlement>, log: Log)
    requires edge.FanOut? && |settled| == |region.branches| && Quiet(log)
    ensures Settles(JoinRegion(ctx, region, edge, state, settled, log))
  {
    hide Guard, Admit, FoldRegion, Quiet, Aftermath;
    var completed := region.steps + |Successes(region.branches, settled)|;
    GuardQuiet(ctx.gate, log, region.Request(AtJoin, region.branches, completed), state, region.source, region.steps);
    var joined := GuardJoin(ctx, region, edge.join, state, completed, log);
    var r := Admit(region.source, edge.join, region.branches, settled);
    if joined.Go? && r.Success? {
      FoldRegionSettles(ctx, region, edge, state, completed, r.value, joined.log);
    }
  }

  lemma CloseSettles(ctx: Ctx, region: Region, edge: Edge, state: State, settled: seq<Settlement>, log: Log)
    requires edge.FanOut? && |settled| == |region.branches| && Quiet(log)
    ensures Settles(CloseRegion(ctx, region, edge, state, settled, log))
  {
    hide JoinRegion, Aftermath;
    JoinSettles(ctx, region, edge, state, settled, log);
  }

  lemma RegionSettles(ctx: Ctx, source: string, edge: Edge, state: State, steps: nat, log: Log)
    requires edge.FanOut? && Quiet(log)
    ensures Settles(RunRegion(ctx, source, edge, state, steps, log))
  {
    hide Permit, SettleAll, CloseRegion, Aftermath;
    var begun := OpenRegion(ctx, source, edge, state, steps, log);
    if begun.Go? {
      var region := begun.value;
      var request := region.Request(AtFanOut, region.branches, steps);
      PermitQuiet(ctx.gate, begun.log, request, state, source, steps);
      var allowed := Permit(ctx.gate, begun.log, request, state, source, steps);
      if allowed.Go? {
        var tasks := FreshTasks(|region.branches|);
        BranchesQuiet(ctx, region, tasks, allowed.log);
        var (done, settled) := SettleAll(ctx, region, tasks, allowed.log);
        CloseSettles(ctx, region, edge, state, Outcomes(done), settled);
      }
    }
  }

  // ----- the run -----

  lemma RouteQuiet(ctx: Ctx, source: string, edge: Edge, state: State, steps: nat, log: Log)
    requires Quiet(log)
    ensures Quiet(Route(ctx, source, edge, state, steps, log).log)
  {
    hide Guard;
    GuardQuiet(ctx.gate, log, RouterSite(source, steps), state, source, steps);
  }

  lemma TurnSettles(ctx: Ctx, state: State, steps: nat, node: string, log: Log)
    requires Quiet(log)
    ensures Settles(TakeTurn(ctx, state, steps, node, log))
  {
    hide RunNode, RunRegion, Route, Quiet, Aftermath;
    NodeSettles(ctx, state, steps, node, log);
    var ended := RunNode(ctx, state, steps, node, log);
    var edge := ctx.graph.EdgeFrom(node);
    if ended.Go? {
      if edge.FanOut? { RegionSettles(ctx, node, edge, ended.value, steps + 1, ended.log); }
      var committed := if edge.FanOut? then RunRegion(ctx, node, edge, ended.value, steps + 1, ended.log)
                       else Go(ended.log, Progress(ended.value, steps + 1));
      if committed.Go? {
        RouteQuiet(ctx, node, if edge.FanOut? then Static(edge.next) else edge, committed.value.state,
                   committed.value.steps, committed.log);
      }
    }
  }

  lemma {:induction false} LoopSettles(ctx: Ctx, state: State, steps: nat, node: string, last: string, log: Log)
    requires Quiet(log)
    ensures Settles(Loop(ctx, state, steps, node, last, log))
    decreases ctx.graph.maxSteps - steps
  {
    hide TakeTurn, Aftermath;
    if node != END && steps < ctx.graph.maxSteps {
      TurnSettles(ctx, state, steps, node, log);
      var f := TakeTurn(ctx, state, steps, node, log);
      if f.Go? { LoopSettles(ctx, f.value.state, f.value.steps, f.value.target, node, f.log); }
    }
  }

  lemma RunSettles(ctx: Ctx, state: State)
    ensures Settles(Run(ctx, state))
  {
    hide Run, Route, Loop, Aftermath;
    RunUnfolds(ctx, state);
    var edge := ctx.graph.EdgeFrom(START);
    RouteQuiet(ctx, START, edge, state, 0, []);
    var selected := Route(ctx, START, edge, state, 0, []);
    if selected.Go? { LoopSettles(ctx, state, 0, selected.value, START, selected.log); }
  }

  lemma QuietBefore(log: Log, k: nat, i: nat)
    requires k <= |log| && Quiet(log[..k])
    ensures i < k && log[i].Settled? ==> log[i].hook.Completed?
  {
    assert i < k ==> log[..k][i] == log[i];
  }

  /** In every run and interleaving: after a settlement hook fails nothing is observed but
      the publication it settles, which is observed in full; then the run raises the hook's
      error. So no decision is asked, and nothing called, after a failed settlement. */
  lemma FailedSettlementIsRaisedAfterPublication(ctx: Ctx, state: State, i: nat)
    requires i < |Run(ctx, state).log|
    requires Run(ctx, state).log[i].Settled? && !Run(ctx, state).log[i].hook.Completed?
    ensures var r := Run(ctx, state);
            && r.Raise? && HookError(r.log[i].hook) == Some(r.error)
            && (forall j :: i < j < |r.log| ==>
                  r.log[j].Observed? && (r.log[j].obs.NodeEnd? || r.log[j].obs.SuperstepCommit?))
            && Publishes(r.log[|r.log| - 1], r.log[i].commit.digest.content)
  {
    hide Run;
    RunSettles(ctx, state);
    var r := Run(ctx, state);
    assert r.log[i] in r.log;
    var k: nat :| Aftermath(r.log, k, r.error);
    QuietBefore(r.log, k, i);
  }
}
