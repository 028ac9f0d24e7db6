/** The scheduler as it works: one object per invocation, its loops and its log of
    everything that happened, each method proved against its specification in Engine. */
module Scheduler {
  import opened Values
  import opened Ordering
  import opened Protocol
  import opened Reducers
  import opened Topology
  import opened Engine

  /** How a method hands control back: with a value, having ended the run, or raising. */
  datatype Step<+T> = Next(value: T) | Quit | Throw(error: Error)

  /** `log` and `step` are what the specification flow `f` says. */
  ghost predicate Agrees<T>(f: Flow<T>, log: Log, step: Step<T>) {
    match step
    case Next(value) => f == Go(log, value)
    case Quit => f == Ended(log)
    case Throw(error) => f == Raise(log, error)
  }

  class Invocation {
    const ctx: Ctx
    var log: Log

    constructor (ctx: Ctx)
      ensures this.ctx == ctx && log == []
    {
      this.ctx := ctx;
      log := [];
    }

    // ----- gate boundaries -----

    method Dispatch(request: DispatchRequest) returns (r: Step<Option<string>>)
      modifies this`log
      ensures Agrees(Ask(ctx.gate, old(log), request), log, r)
    {
      if ctx.gate.NoGate? { return Next(None); }
      var answer := ctx.gate.dispatch(log, request);
      log := log + [Decided(request, answer)];
      var verdict := Enforce(answer, request.nodes);
      return if verdict.Failure? then Throw(verdict.error) else Next(verdict.value);
    }

    method BeforeStart(request: DispatchRequest) returns (r: Step<()>)
      modifies this`log
      ensures Agrees(Mark(ctx.gate, old(log), request), log, r)
    {
      if !ctx.gate.Durable() { return Next(()); }
      var hook := ctx.gate.start.value(log, request);
      log := log + [Marked(request, hook)];
      var failure := HookError(hook);
      return if failure.Some? then Throw(failure.value) else Next(());
    }

    method YieldStopped<T>(state: State, node: string, steps: nat, reason: string) returns (r: Step<T>)
      modifies this`log
      ensures Agrees(Halt<T>(old(log), state, node, steps, reason), log, r) && !r.Next?
    {
      var stopped := Annotate(state, "stopped", map["stop_node" := Str(node), "stop_reason" := Str(reason)]);
      if stopped.None? { return Throw(NotMapping); }
      log := log + [Observed(Stopped(node, steps, stopped.value))];
      return Quit;
    }

    method YieldInterrupted<T>(state: State, node: string, steps: nat, branches: seq<string>, fault: Fault)
      returns (r: Step<T>)
      requires fault.Interrupt?
      modifies this`log
      ensures Agrees(InterruptRun<T>(old(log), state, node, steps, branches, fault), log, r) && !r.Next?
    {
      var paused := Annotate(state, "interrupted",
                             map["interrupt_node" := Str(node), "interrupt_prompt" := fault.prompt,
                                 "interrupt_payload" := fault.payload]);
      if paused.None? { return Throw(NotMapping); }
      if !Copyable(fault.prompt) || !Copyable(fault.payload) { return Throw(Uncopyable); }
      log := log + [Observed(Interrupted(node, steps, branches, paused.value))];
      return Quit;
    }

    /** Dispatch, and stop the run here if the gate says so. */
    method DispatchOrStop(request: DispatchRequest, state: State, node: string, steps: nat) returns (r: Step<()>)
      modifies this`log
      ensures Agrees(Permit(ctx.gate, old(log), request, state, node, steps), log, r)
    {
      var decision := Dispatch(request);
      match decision
      case Throw(error) => return Throw(error);
      case Quit => return Quit;
      case Next(None) => return Next(());
      case Next(Some(reason)) => r := YieldStopped<()>(state, node, steps, reason);
    }

    /** Dispatch, mark, and pass control to the callable. */
    method Enter(request: DispatchRequest, state: State, node: string, steps: nat) returns (r: Step<()>)
      modifies this`log
      ensures Agrees(Guard(ctx.gate, old(log), request, state, node, steps), log, r)
    {
      r := DispatchOrStop(request, state, node, steps);
      if !r.Next? { return; }
      r := BeforeStart(request);
      if !r.Next? { return; }
      log := log + [Entered(request)];
    }

    method BeforeCommit(request: CommitRequest, state: State, node: string, steps: nat) returns (r: Step<()>)
      modifies this`log
      ensures Agrees(Commit(ctx.gate, old(log), request, state, node, steps), log, r)
    {
      if !CopyableDelta(request.digest.content) { return Throw(Uncopyable); }
      if ctx.gate.NoGate? { return Next(()); }
      if !JsonDelta(request.digest.content) { return Throw(NotJson); }
      var answer := ctx.gate.commit(log, request);
      log := log + [CommitDecided(request, answer)];
      var verdict := Enforce(answer, request.nodes);
      match verdict
      case Failure(error) => return Throw(error);
      case Success(None) => return Next(());
      case Success(Some(reason)) => r := YieldStopped<()>(state, node, steps, reason);
    }

    method Settle(request: CommitRequest) returns (failure: Option<Error>)
      modifies this`log
      ensures (log, failure) == AfterCommit(ctx.gate, old(log), request)
    {
      if ctx.gate.NoGate? || ctx.gate.settle.None? { return None; }
      var hook := ctx.gate.settle.value(log, request);
      log := log + [Settled(request, hook)];
      return HookError(hook);
    }

    // ----- one node -----

    method ExecuteNode(state: State, steps: nat, node: string) returns (r: Step<State>)
      modifies this`log
      ensures Agrees(RunNode(ctx, state, steps, node, old(log)), log, r)
    {
      hide Guard, PublishNode, InterruptRun;
      if node !in ctx.graph.nodes { return Throw(UnknownNode(node)); }
      var visited := Visit(state, [node]);
      if visited.None? { return Throw(NotIterable); }
      var running := visited.value;
      log := log + [Observed(NodeStart(node, steps, running))];
      var site := NodeSite(node, steps);
      var entered := Enter(site, running, node, steps);
      match entered
      case Quit => return Quit;
      case Throw(error) => return Throw(error);
      case Next(_) =>
      var answer := ctx.graph.nodes[node].call(running);
      log := log + [Left(site, answer.Delivers?)];
      match answer
      case DeliversOther => return Throw(NotADict(node));
      case NodeThrows(fault) =>
        if !fault.Interrupt? { return Throw(Raised(fault)); }
        r := YieldInterrupted<State>(running, node, steps, [], fault);
      case Delivers(delta) => r := Publish(running, steps, node, delta);
    }

    method Publish(running: State, steps: nat, node: string, delta: Delta) returns (r: Step<State>)
      modifies this`log
      ensures Agrees(PublishNode(ctx.gate, running, steps, node, delta, old(log)), log, r)
    {
      hide Commit, AfterCommit;
      var request := CommitRequest(NodeCommit, [node], steps, None, Sha256(delta), None);
      var allowed := BeforeCommit(request, running, node, steps);
      match allowed
      case Quit => return Quit;
      case Throw(error) => return Throw(error);
      case Next(_) =>
      var published := Merge(running, delta);
      var failure := Settle(request);
      log := log + [Observed(NodeEnd(node, steps + 1, published, delta))];
      return if failure.Some? then Throw(failure.value) else Next(published);
    }

    // ----- one region -----

    /** One stretch of a branch task, from one await to the next. */
    method Resume(region: Region, i: nat, task: Task) returns (next: Task)
      requires i < |region.branches| && region.In(ctx.graph) && !task.Finished?
      modifies this`log
      ensures (next, log) == StepTask(ctx, region, i, task, old(log))
    {
      var site := region.Site(i);
      match task
      case Fresh =>
        if !ctx.gate.Durable() {
          log := log + [Entered(site)];
          return Running;
        }
        var decision := Dispatch(site);
        if decision.Throw? { return Finished(NotAdmitted(decision.error)); }
        return if decision.value.Some? then Finished(BranchStopped(decision.value.value)) else Admitted;
      case Admitted =>
        var marked := BeforeStart(site);
        if marked.Throw? { return Finished(NotStarted(marked.error)); }
        log := log + [Entered(site)];
        return Running;
      case Running =>
        var outcome := Call(ctx.graph, region, i);
        log := log + [Left(site, outcome.Ok?)];
        return Finished(outcome);
    }

    /** The task group: the event loop resumes unfinished tasks in any order it likes. */
    method SettleGated(region: Region) returns (settled: seq<Settlement>)
      requires region.In(ctx.graph)
      modifies this`log
      ensures var (tasks, after) := SettleAll(ctx, region, FreshTasks(|region.branches|), old(log));
              settled == Outcomes(tasks) && log == after
    {
      var n := |region.branches|;
      var tasks := new Task[n](_ => Fresh);
      assert tasks[..] == FreshTasks(n);
      while !AllFinished(tasks[..])
        invariant SettleAll(ctx, region, tasks[..], log) == SettleAll(ctx, region, FreshTasks(n), old(log))
        decreases Work(tasks[..])
      {
        ghost var before := tasks[..];
        var i := Choose(tasks[..], ctx.pick(log));
        var next := Resume(region, i, tasks[i]);
        WorkUpdate(before, i, next);
        tasks[i] := next;
        assert tasks[..] == before[i := next];
      }
      settled := Outcomes(tasks[..]);
    }

    /** Collect every field's writes, in branch order. */
    method Contributions(items: seq<Contribution>) returns (contributions: map<string, seq<Write>>)
      ensures contributions.Keys == Keys(items)
      ensures forall k <- contributions :: contributions[k] == Writes(items, k)
    {
      contributions := map[];
      for i := 0 to |items|
        invariant contributions.Keys == Keys(items[..i])
        invariant forall k <- contributions :: contributions[k] == Writes(items[..i], k)
      {
        ghost var before := contributions;
        contributions := AddWrites(contributions, items[i].branch, items[i].delta);
        assert items[..i + 1] == items[..i] + [items[i]];
        KeysSnoc(items[..i], items[i]);
        forall k | k in contributions ensures contributions[k] == Writes(items[..i + 1], k) {
          WritesSnoc(items[..i], items[i], k);
          WritesExist(items[..i], k);
        }
      }
      assert items[..|items|] == items;
    }

    /** `contributions.setdefault(key, []).append((name, value))` for one branch's delta. */
    method AddWrites(before: map<string, seq<Write>>, branch: string, delta: Delta)
      returns (contributions: map<string, seq<Write>>)
      ensures contributions.Keys == before.Keys + delta.Keys
      ensures forall k <- contributions :: contributions[k] ==
                (if k in before then before[k] else []) + if k in delta then [Write(branch, delta[k])] else []
    {
      hide SortedKeys, Ascending;
      contributions := before;
      var keys := SortedKeys(delta.Keys);
      for j := 0 to |keys|
        invariant forall k :: k in contributions <==> k in before || k in keys[..j]
        invariant forall k <- keys[..j] ::
                    contributions[k] == (if k in before then before[k] else []) + [Write(branch, delta[k])]
        invariant forall k <- before :: k !in keys[..j] ==> contributions[k] == before[k]
      {
        var key := keys[j];
        NotBefore(keys, j);
        var written := if key in contributions then contributions[key] else [];
        contributions := contributions[key := written + [Write(branch, delta[key])]];
        assert keys[..j + 1] == keys[..j] + [key];
      }
      assert keys[..|keys|] == keys;
    }

    /** Fold one field, asking before a custom reducer. */
    method FoldField(region: Region, state: State, completed: nat, items: seq<Contribution>, key: string,
                     writes: seq<Write>, acc: Fold) returns (r: Step<Fold>)
      requires key in Keys(items) && writes == Writes(items, key)
      modifies this`log
      ensures Agrees(FoldKey(ctx, region, state, completed, items, key, acc, old(log)), log, r)
    {
      hide ReduceField, Guard;
      WritesExist(items, key);
      var reducer := ReducerFor(ctx.graph, key);
      if reducer.Custom? {
        if !AllCopyable(writes) { return Throw(Uncopyable); }
        var site := region.Request(AtReducer, Names(items) + [key], completed);
        if ctx.gate.Durable() {
          var entered := Enter(site, state, region.source, region.steps);
          match entered
          case Quit => return Quit;
          case Throw(error) => return Throw(error);
          case Next(_) =>
        } else {
          log := log + [Entered(site)];
        }
      }
      var folded := FoldWrites(key, reducer, Field(region.snapshot, key), writes);
      if folded.Failure? { return Throw(folded.error); }
      return Next(Fold(acc.merged[key := folded.value], acc.provenance[key := Branches(writes)]));
    }

    /** Fold every written field in ascending order. */
    method FoldFields(region: Region, state: State, completed: nat, items: seq<Contribution>) returns (r: Step<Fold>)
      modifies this`log
      ensures Agrees(FoldKeys(ctx, region, state, completed, items, SortedKeys(Keys(items)), Fold(map[], map[]),
                              old(log)),
                     log, r)
    {
      hide FoldKey, Ascending, Writes, Keys;
      var contributions := Contributions(items);
      var keys := SortedKeys(contributions.Keys);
      var acc := Fold(map[], map[]);
      for i := 0 to |keys|
        invariant FoldKeys(ctx, region, state, completed, items, keys[i..], acc, log)
               == FoldKeys(ctx, region, state, completed, items, keys, Fold(map[], map[]), old(log))
      {
        assert keys[i..][0] == keys[i] && keys[i..][1..] == keys[i + 1..];
        var folded := FoldField(region, state, completed, items, keys[i], contributions[keys[i]], acc);
        match folded
        case Quit => return Quit;
        case Throw(error) => return Throw(error);
        case Next(next) => acc := next;
      }
      return Next(acc);
    }

    /** Announce the region and every branch. */
    method Announce(source: string, edge: Edge, state: State, steps: nat) returns (r: Step<Region>)
      requires edge.FanOut?
      modifies this`log
      ensures Agrees(OpenRegion(ctx, source, edge, state, steps, old(log)), log, r)
    {
      var branches := edge.branches;
      if steps + |branches| > ctx.graph.maxSteps { return Throw(MaxStepsExceeded(steps, source)); }
      var missing := MissingBranch(ctx.graph, branches);
      if missing.Some? { return Throw(UnknownNode(missing.value)); }
      if !ctx.graph.Routable(edge.next) { return Throw(UnknownRoute(edge.next)); }
      var visited := Visit(state, branches);
      if visited.None? { return Throw(NotIterable); }
      var region := Region(source, branches, steps, ctx.token(steps), visited.value);
      log := log + [Observed(SuperstepStart(source, edge.next, steps, branches, region.snapshot))];
      ghost var begun := log;
      for i := 0 to |branches|
        invariant log == begun + StartEvents(region, i)
      {
        log := log + [Observed(NodeStart(branches[i], steps, region.snapshot))];
        assert StartEvents(region, i + 1) == StartEvents(region, i) + [log[|log| - 1]];
      }
      return Next(region);
    }

    method ExecuteRegion(source: string, edge: Edge, state: State, steps: nat) returns (r: Step<Progress>)
      requires edge.FanOut?
      modifies this`log
      ensures Agrees(RunRegion(ctx, source, edge, state, steps, old(log)), log, r)
    {
      hide OpenRegion, Permit, SettleAll, CloseRegion;
      var begun := Announce(source, edge, state, steps);
      match begun
      case Quit => return Quit;
      case Throw(error) => return Throw(error);
      case Next(region) =>
      var allowed := DispatchOrStop(region.Request(AtFanOut, region.branches, steps), state, source, steps);
      match allowed
      case Quit => return Quit;
      case Throw(error) => return Throw(error);
      case Next(_) =>
      var settled := SettleGated(region);
      r := Conclude(region, edge, state, settled);
    }

    /** What the settled branches amount to, in order of precedence. */
    method Conclude(region: Region, edge: Edge, state: State, settled: seq<Settlement>) returns (r: Step<Progress>)
      requires edge.FanOut? && |settled| == |region.branches|
      modifies this`log
      ensures Agrees(CloseRegion(ctx, region, edge, state, settled, old(log)), log, r)
    {
      hide JoinRegion, Halt, InterruptRun;
      var admission, starts, stops := AdmissionErrors(settled), StartErrors(settled), StopReasons(settled);
      if admission != [] { return Throw(admission[0]); }
      if starts != [] {
        var refusals := GateRefusals(starts);
        return Throw(if refusals != [] then refusals[0] else StartsFailed(region.source, starts));
      }
      if stops != [] {
        r := YieldStopped<Progress>(state, region.source, region.steps, stops[0]);
        return;
      }
      var paused := FirstInterrupt(settled);
      if paused < |settled| {
        r := YieldInterrupted<Progress>(region.snapshot, region.branches[paused], region.steps, region.branches,
                                        settled[paused].error.fault);
        return;
      }
      r := JoinAndFold(region, edge, state, settled);
    }

    method JoinAndFold(region: Region, edge: Edge, state: State, settled: seq<Settlement>) returns (r: Step<Progress>)
      requires edge.FanOut? && |settled| == |region.branches|
      modifies this`log
      ensures Agrees(JoinRegion(ctx, region, edge, state, settled, old(log)), log, r)
    {
      hide Guard, Permit, FoldKeys, CommitRegion, Admit;
      var completed := region.steps + |Successes(region.branches, settled)|;
      if edge.join.CustomJoin? {
        var entered := Enter(region.Request(AtJoin, region.branches, completed), state, region.source, region.steps);
        match entered
        case Quit => return Quit;
        case Throw(error) => return Throw(error);
        case Next(_) =>
      }
      var admitted := Admit(region.source, edge.join, region.branches, settled);
      if admitted.Failure? { return Throw(admitted.error); }
      var items := admitted.value;
      var allowed := DispatchOrStop(region.Request(AtReducer, Names(items), completed), state,
                                      region.source, region.steps);
      match allowed
      case Quit => return Quit;
      case Throw(error) => return Throw(error);
      case Next(_) =>
      var folded := FoldFields(region, state, completed, items);
      match folded
      case Quit => return Quit;
      case Throw(error) => return Throw(error);
      case Next(fold) =>
      r := CommitFold(region, edge, state, completed, items, fold);
    }

    /** One atomic commit: nothing is awaited between the allow and the publication. */
    method CommitFold(region: Region, edge: Edge, state: State, completed: nat, items: seq<Contribution>, fold: Fold)
      returns (r: Step<Progress>)
      requires edge.FanOut?
      modifies this`log
      ensures Agrees(CommitRegion(ctx, region, edge, state, completed, items, fold, old(log)), log, r)
    {
      hide Commit, AfterCommit;
      var request := CommitRequest(RegionCommit, Names(items), completed, Some(region.source), Sha256(fold.merged),
                                   Some(region.batch));
      var allowed := BeforeCommit(request, state, region.source, region.steps);
      match allowed
      case Quit => return Quit;
      case Throw(error) => return Throw(error);
      case Next(_) =>
      var committed := Merge(region.snapshot, fold.merged);
      var failure := Settle(request);
      ghost var settled := log;
      for i := 0 to |items|
        invariant log == settled + EndEvents(items, completed, committed)[..i]
      {
        log := log + [Observed(NodeEnd(items[i].branch, completed, committed, items[i].delta))];
        assert EndEvents(items, completed, committed)[..i + 1]
            == EndEvents(items, completed, committed)[..i] + [log[|log| - 1]];
      }
      assert EndEvents(items, completed, committed)[..|items|] == EndEvents(items, completed, committed);
      log := log + [Observed(SuperstepCommit(region.source, edge.next, completed, Names(items), committed, fold.merged,
                                             fold.provenance))];
      return if failure.Some? then Throw(failure.value) else Next(Progress(committed, completed));
    }

    // ----- the loop -----

    method SelectEdge(source: string, edge: Edge, state: State, steps: nat) returns (r: Step<string>)
      modifies this`log
      ensures Agrees(Route(ctx, source, edge, state, steps, old(log)), log, r)
    {
      hide Guard, Resolve;
      if edge.Conditional? {
        var entered := Enter(RouterSite(source, steps), state, source, steps);
        match entered
        case Quit => return Quit;
        case Throw(error) => return Throw(error);
        case Next(_) =>
      }
      var target := Resolve(ctx.graph, edge, state);
      if target.Failure? { return Throw(target.error); }
      log := log + [Observed(EdgeSelected(source, target.value, steps, state))];
      return Next(target.value);
    }

    /** The sole scheduler loop. */
    method Execute(initial: State) returns (r: Step<()>)
      requires log == []
      modifies this`log
      ensures Agrees(Run(ctx, initial), log, r)
    {
      hide Route, RunNode, RunRegion;
      var state, steps, last := initial, 0, START;
      var selected := SelectEdge(START, ctx.graph.EdgeFrom(START), state, steps);
      match selected
      case Quit => return Quit;
      case Throw(error) => return Throw(error);
      case Next(entry) =>
      var node := entry;
      while node != END
        invariant Run(ctx, initial) == Loop(ctx, state, steps, node, last, log)
        decreases ctx.graph.maxSteps - steps
      {
        if steps >= ctx.graph.maxSteps { return Throw(MaxStepsExceeded(steps, last)); }
        ghost var steps0 := steps;
        last := node;
        var published := ExecuteNode(state, steps, node);
        match published
        case Quit => return Quit;
        case Throw(error) => return Throw(error);
        case Next(next) =>
        state, steps := next, steps + 1;
        var edge := ctx.graph.EdgeFrom(node);
        if edge.FanOut? {
          var committed := ExecuteRegion(node, edge, state, steps);
          match committed
          case Quit => return Quit;
          case Throw(error) => return Throw(error);
          case Next(progress) =>
          state, steps := progress.state, progress.steps;
          edge := Static(edge.next);
        }
        assert steps0 < steps;
        var target := SelectEdge(node, edge, state, steps);
        match target
        case Quit => return Quit;
        case Throw(error) => return Throw(error);
        case Next(t) => node := t;
      }
      log := log + [Observed(Done(steps, Merge(state, map[STATUS := Str("done")])))];
      return Quit;
    }
  }

  lemma NotBefore(keys: seq<string>, j: nat)
    requires Ascending(keys) && j < |keys|
    ensures keys[j] !in keys[..j]
  {
  }

  lemma {:induction false} KeysSnoc(items: seq<Contribution>, last: Contribution)
    ensures Keys(items + [last]) == Keys(items) + last.delta.Keys
  {
    if items == [] {
      assert (items + [last])[1..] == [];
    } else {
      assert (items + [last])[1..] == items[1..] + [last];
      KeysSnoc(items[1..], last);
    }
  }

  lemma WritesCons(items: seq<Contribution>, key: string)
    requires items != []
    ensures Writes(items, key) ==
              (if key in items[0].delta then [Write(items[0].branch, items[0].delta[key])] else [])
              + Writes(items[1..], key)
  {
  }

  lemma {:induction false} WritesSnoc(items: seq<Contribution>, last: Contribution, key: string)
    ensures Writes(items + [last], key) ==
              Writes(items, key) + if key in last.delta then [Write(last.branch, last.delta[key])] else []
  {
    var whole := items + [last];
    if items == [] {
      assert whole[1..] == [];
    } else {
      assert whole[0] == items[0] && whole[1..] == items[1..] + [last];
      WritesSnoc(items[1..], last, key);
      WritesCons(whole, key);
      WritesCons(items, key);
    }
  }
}
